// The event service (src/services/event/service.rs): the table between the
// protocol's event-type numbers and the dispatcher's event types, the
// conversion of dispatched events into protocol events, and the handling of
// the requests a client sends on its subscribe stream. Event ids and
// timestamps of the protocol events are omitted.

module EventService {
  import opened Wrappers
  import opened Errors
  import opened Decimal
  import opened EventDispatch

  /** EVENT_TYPE_MAP: protocol number to event type. */
  const EventTypeCodes: map<int, EventType> :=
    map[1 := PageLoaded, 2 := PageNavigated, 3 := PageClosed,
        11 := ConsoleLog, 15 := ConsoleError, 17 := RequestSent,
        18 := ResponseReceived, 21 := JsException, 24 := DialogOpened]

  /** event_type_to_i32. */
  function EventTypeToInt(t: EventType): int
  {
    match t
    case PageLoaded => 1
    case PageNavigated => 2
    case PageClosed => 3
    case ConsoleLog => 11
    case ConsoleError => 15
    case RequestSent => 17
    case ResponseReceived => 18
    case JsException => 21
    case DialogOpened => 24
  }

  /** The two tables are inverse to each other, and the map holds exactly the nine codes. */
  lemma EventTypeTablesInverse(t: EventType, n: int)
    ensures EventTypeToInt(t) in EventTypeCodes && EventTypeCodes[EventTypeToInt(t)] == t
    ensures n in EventTypeCodes ==> EventTypeToInt(EventTypeCodes[n]) == n
    ensures n in EventTypeCodes <==> n in {1, 2, 3, 11, 15, 17, 18, 21, 24}
  {
  }

  /** convert_event_type: the map lookup, failing for every number outside it. */
  function ConvertEventType(n: int): (r: Result<EventType, Error>)
    ensures r.Ok? <==> n in {1, 2, 3, 11, 15, 17, 18, 21, 24}
    ensures r.Ok? ==> EventTypeToInt(r.value) == n
    ensures r.Err? ==> r.error == Internal("Invalid event type: " + IntText(n))
  {
    if n in EventTypeCodes then Ok(EventTypeCodes[n])
    else Err(Internal("Invalid event type: " + IntText(n)))
  }

  /** Converting an event type to its number and back gives it again. */
  lemma ConvertEventTypeRoundTrip(t: EventType)
    ensures ConvertEventType(EventTypeToInt(t)) == Ok(t)
  {
    EventTypeTablesInverse(t, EventTypeToInt(t));
  }

  /** The collect over a request's event types: all converted, or the error of the first number that is not in the table. */
  function ConvertEventTypes(ns: seq<int>): (r: Result<seq<EventType>, Error>)
    ensures r.Ok? <==> forall i :: 0 <= i < |ns| ==> ConvertEventType(ns[i]).Ok?
    ensures r.Ok? ==> |r.value| == |ns| && forall i :: 0 <= i < |ns| ==> EventTypeToInt(r.value[i]) == ns[i]
    ensures r.Err? ==> exists i :: FirstFailure(ns, i) && r.error == ConvertEventType(ns[i]).error
  {
    if |ns| == 0 then Ok([])
    else
      var head := ConvertEventType(ns[0]);
      if head.Err? then
        assert FirstFailure(ns, 0);
        Err(head.error)
      else
        var rest := ConvertEventTypes(ns[1..]);
        if rest.Err? then
          var j :| FirstFailure(ns[1..], j);
          assert FirstFailure(ns, j + 1);
          Err(rest.error)
        else
          Ok([head.value] + rest.value)
  }

  /** Position i holds the first number that is not an event-type code. */
  predicate FirstFailure(ns: seq<int>, i: int)
  {
    0 <= i < |ns| && ConvertEventType(ns[i]).Err? && forall j :: 0 <= j < i ==> ConvertEventType(ns[j]).Ok?
  }

  // ------------------------------------------------------------ protocol events

  datatype Target = PageIdTarget(id: string) | BrowserIdTarget(id: string)

  /** The page and browser ids a subscription target names. */
  function TargetIds(target: Option<Target>): (r: (Option<string>, Option<string>))
    ensures r.0.Some? <==> target.Some? && target.value.PageIdTarget?
    ensures r.1.Some? <==> target.Some? && target.value.BrowserIdTarget?
    ensures r.0.Some? ==> r.0.value == target.value.id
    ensures r.1.Some? ==> r.1.value == target.value.id
  {
    match target
    case Some(PageIdTarget(id)) => (Some(id), None)
    case Some(BrowserIdTarget(id)) => (None, Some(id))
    case None => (None, None)
  }

  datatype PageEventKind = Loaded
  datatype NetworkEventKind = Sent
  /** The protocol's log levels, by name. */
  datatype LogLevel = LogLevelLog | LogLevelDebug | LogLevelInfo | LogLevelWarn | LogLevelError

  datatype PageEventProto = PageEventProto(kind: PageEventKind, url: string, title: string, statusCode: int, errorMessage: string, loadTime: int)
  datatype ConsoleEventProto = ConsoleEventProto(level: LogLevel, args: seq<string>, url: string, line: int, column: int, stackTrace: string)
  datatype NetworkEventProto = NetworkEventProto(kind: NetworkEventKind, url: string, httpMethod: string, statusCode: int, fromCache: bool)

  datatype EventData = PageData(page: PageEventProto) | ConsoleData(console: ConsoleEventProto) | NetworkData(network: NetworkEventProto)

  /** A protocol event: the metadata's type number, the payload and the subscription id slot. */
  datatype ProtoEvent = ProtoEvent(typeCode: int, data: Option<EventData>, subscriptionId: string)

  function ConvertLevel(l: ConsoleLevel): LogLevel
  {
    match l
    case Log => LogLevelLog
    case Debug => LogLevelDebug
    case Info => LogLevelInfo
    case Warn => LogLevelWarn
    case ErrorLevel => LogLevelError
  }

  /** convert_console_event: the level by name and the arguments, every other field empty. */
  function ConvertConsoleEvent(e: ConsoleEvent): (p: ConsoleEventProto)
    ensures p.args == e.args && p.url == "" && p.line == 0 && p.column == 0 && p.stackTrace == ""
  {
    ConsoleEventProto(ConvertLevel(e.level), e.args, "", 0, 0, "")
  }

  /** The level conversion loses nothing. */
  lemma ConvertLevelInjective(a: ConsoleLevel, b: ConsoleLevel)
    ensures ConvertLevel(a) == ConvertLevel(b) ==> a == b
  {
  }

  /** convert_network_event: always a Sent event carrying url, method and status code. */
  function ConvertNetworkEvent(e: NetworkEvent): (p: NetworkEventProto)
    ensures p.kind == Sent && p.url == e.url && p.httpMethod == e.httpMethod && p.statusCode == e.statusCode as int
    ensures !p.fromCache
  {
    NetworkEventProto(Sent, e.url, e.httpMethod, e.statusCode as int, false)
  }

  /** The protocol event the forwarding task sends for a dispatched event. */
  function Forwarded(e: DispatcherEvent, subId: string): (p: ProtoEvent)
    ensures p.subscriptionId == subId && p.data.Some?
    ensures p.data.value.PageData? <==> e.Page?
    ensures p.data.value.ConsoleData? <==> e.Console?
    ensures p.data.value.NetworkData? <==> e.Network?
  {
    match e
    case Page(pe) =>
      ProtoEvent(EventTypeToInt(PageLoaded), Some(PageData(PageEventProto(Loaded, pe.url, UnwrapOr(pe.title, ""), 0, "", 0))), subId)
    case Console(ce) =>
      ProtoEvent(EventTypeToInt(ConsoleLog), Some(ConsoleData(ConvertConsoleEvent(ce))), subId)
    case Network(ne) =>
      ProtoEvent(EventTypeToInt(RequestSent), Some(NetworkData(ConvertNetworkEvent(ne))), subId)
  }

  /** A forwarded event carries the number of exactly the type the receiver filtered it under. */
  lemma ForwardedTypeIsFilterType(e: DispatcherEvent, subId: string)
    ensures ConvertEventType(Forwarded(e, subId).typeCode) == Ok(TypeOf(e))
  {
    ConvertEventTypeRoundTrip(TypeOf(e));
  }

  // ------------------------------------------------------------ the request loop

  datatype SubscriptionSpec = SubscriptionSpec(eventTypes: seq<int>, target: Option<Target>)
  datatype SubscribeRequest = SubscribeRequest(action: int, subscription: Option<SubscriptionSpec>, subscriptionId: string)

  /** What the service sends back on the stream. A listing stands for the debug rendering of the triples in the subscription_id slot. */
  datatype Reply = Control(subscriptionId: string) | Listing(subs: seq<(string, Option<string>, Option<string>)>)

  /** Every control reply and listing is sent under the PageLoaded type number with no payload. */
  function ReplyEvent(r: Reply, listingText: string): (p: ProtoEvent)
    ensures p.typeCode == 1 && p.data.None?
  {
    match r
    case Control(id) => ProtoEvent(EventTypeToInt(PageLoaded), None, id)
    case Listing(_) => ProtoEvent(EventTypeToInt(PageLoaded), None, listingText)
  }

  /** l lists exactly the subscriptions of the table, one triple each. */
  ghost predicate IsListing(l: seq<(string, Option<string>, Option<string>)>, subs: map<string, Subscription>)
  {
    |l| == |subs| &&
    (forall id :: id in subs ==> (id, subs[id].pageId, subs[id].browserId) in l) &&
    (forall t :: t in l ==> t.0 in subs && t == (t.0, subs[t.0].pageId, subs[t.0].browserId))
  }

  /** The subscription the subscribe action creates for a request, if any: none when the request has no subscription or lists an unknown type. */
  function Requested(req: SubscribeRequest, newId: string): (s: Option<Subscription>)
    ensures s.Some? <==> req.subscription.Some? && ConvertEventTypes(req.subscription.value.eventTypes).Ok?
    ensures s.Some? ==> s.value.id == newId && s.value.filter == DefaultFilter &&
                        s.value.eventTypes == ConvertEventTypes(req.subscription.value.eventTypes).value &&
                        (s.value.pageId, s.value.browserId) == TargetIds(req.subscription.value.target)
  {
    match req.subscription
    case None => None
    case Some(spec) =>
      var types := ConvertEventTypes(spec.eventTypes);
      if types.Err? then None
      else
        var ids := TargetIds(spec.target);
        Some(Subscription(newId, ids.0, ids.1, types.value, DefaultFilter))
  }

  /** One request of the stream. slot is the remembered subscription id. */
  method HandleRequest(d: EventDispatcher, req: SubscribeRequest, newId: string, slot: Option<string>)
      returns (reply: Option<Reply>, slot': Option<string>)
    requires d.Valid()
    modifies d
    ensures d.Valid()
    ensures req.action == 1 && Requested(req, newId).Some? ==>
              d.subscriptions == old(d.subscriptions)[newId := Requested(req, newId).value] &&
              |d.receivers| == |old(d.receivers)| + 1 &&
              slot' == Some(newId) && reply == Some(Control(newId))
    ensures req.action == 1 && Requested(req, newId).None? ==>
              d.subscriptions == old(d.subscriptions) && slot' == slot && reply.None?
    ensures req.action == 2 && req.subscriptionId == "" ==>
              d.subscriptions == old(d.subscriptions) && slot' == slot && reply.None?
    ensures req.action == 2 && req.subscriptionId != "" ==>
              d.subscriptions == old(d.subscriptions) - {req.subscriptionId} && reply.None? &&
              slot' == (if req.subscriptionId in old(d.subscriptions) then None else slot)
    ensures req.action == 3 ==>
              d.subscriptions == old(d.subscriptions) && slot' == slot &&
              reply.Some? && reply.value.Listing? && IsListing(reply.value.subs, d.subscriptions)
    ensures req.action == 4 ==> d.subscriptions == old(d.subscriptions) && slot' == slot && reply == Some(Control("pong"))
    ensures req.action !in {1, 2, 3, 4} ==> d.subscriptions == old(d.subscriptions) && slot' == slot && reply.None?
    ensures req.action != 1 ==> d.receivers == old(d.receivers)
  {
    reply, slot' := None, slot;
    if req.action == 1 {
      var s := Requested(req, newId);
      if s.Some? {
        var id, rx := d.Subscribe(s.value.pageId, s.value.browserId, s.value.eventTypes, DefaultFilter, newId);
        slot' := Some(id);
        reply := Some(Control(id));
      }
    } else if req.action == 2 {
      if req.subscriptionId != "" {
        var r := d.Unsubscribe(req.subscriptionId);
        if r.Ok? {
          slot' := None;
        }
      }
    } else if req.action == 3 {
      var subs := d.ListSubscriptions();
      reply := Some(Listing(subs));
    } else if req.action == 4 {
      reply := Some(Control("pong"));
    }
  }

  /** A reply the stream owes: a control reply with its id, or a listing of the table as it then is. */
  datatype Owed = OwedControl(id: string) | OwedListing(table: map<string, Subscription>)

  /** One request applied to the table and the remembered id: the new table, the new remembered id, the reply owed. */
  function Step(subs: map<string, Subscription>, slot: Option<string>, req: SubscribeRequest, newId: string)
    : (map<string, Subscription>, Option<string>, Option<Owed>)
  {
    if req.action == 1 then
      var s := Requested(req, newId);
      if s.Some? then (subs[newId := s.value], Some(newId), Some(OwedControl(newId))) else (subs, slot, None)
    else if req.action == 2 then
      if req.subscriptionId == "" then (subs, slot, None)
      else (subs - {req.subscriptionId}, if req.subscriptionId in subs then None else slot, None)
    else if req.action == 3 then (subs, slot, Some(OwedListing(subs)))
    else if req.action == 4 then (subs, slot, Some(OwedControl("pong")))
    else (subs, slot, None)
  }

  /** The requests applied in order from a table and no remembered id: the final table, remembered id and owed replies. */
  function Fold(subs: map<string, Subscription>, requests: seq<SubscribeRequest>, newIds: seq<string>)
    : (map<string, Subscription>, Option<string>, seq<Owed>)
    requires |newIds| == |requests|
  {
    if requests == [] then (subs, None, [])
    else
      var n := |requests| - 1;
      var before := Fold(subs, requests[..n], newIds[..n]);
      var after := Step(before.0, before.1, requests[n], newIds[n]);
      (after.0, after.1, before.2 + if after.2.Some? then [after.2.value] else [])
  }

  /** The reply sent is the one owed: the same control id, or a listing of exactly the owed table. */
  ghost predicate Pays(r: Reply, o: Owed) {
    match o
    case OwedControl(id) => r == Control(id)
    case OwedListing(t) => r.Listing? && IsListing(r.subs, t)
  }

  ghost predicate PaysAll(rs: seq<Reply>, os: seq<Owed>) {
    |rs| == |os| && forall i :: 0 <= i < |rs| ==> Pays(rs[i], os[i])
  }

  /** The subscribe stream: handles the requests in order, sending the replies in order, and when the client's stream ends unsubscribes the remembered subscription. newIds supplies the id a subscription created by request i gets. */
  method ServeStream(d: EventDispatcher, requests: seq<SubscribeRequest>, newIds: seq<string>)
      returns (replies: seq<Reply>, remembered: Option<string>)
    requires d.Valid()
    requires |newIds| == |requests|
    modifies d
    ensures d.Valid()
    ensures var f := Fold(old(d.subscriptions), requests, newIds);
      && remembered == f.1
      && PaysAll(replies, f.2)
      && d.subscriptions == (if f.1.Some? then f.0 - {f.1.value} else f.0)
  {
    replies := [];
    remembered := None;
    ghost var subs0 := d.subscriptions;
    var i := 0;
    while i < |requests|
      invariant 0 <= i <= |requests|
      invariant d.Valid()
      invariant var f := Fold(subs0, requests[..i], newIds[..i]);
        d.subscriptions == f.0 && remembered == f.1 && PaysAll(replies, f.2)
    {
      ghost var f := Fold(subs0, requests[..i], newIds[..i]);
      var reply;
      reply, remembered := HandleRequest(d, requests[i], newIds[i], remembered);
      assert requests[..i + 1][..i] == requests[..i] && newIds[..i + 1][..i] == newIds[..i];
      if reply.Some? {
        replies := replies + [reply.value];
      }
      i := i + 1;
    }
    assert requests[..i] == requests && newIds[..i] == newIds;
    if remembered.Some? {
      var _ := d.Unsubscribe(remembered.value);
    }
  }

  /** The id remembered after any run of requests names a subscription of the table then. */
  lemma {:induction false} RememberedIsLive(subs: map<string, Subscription>, requests: seq<SubscribeRequest>, newIds: seq<string>)
    requires |newIds| == |requests|
    ensures var f := Fold(subs, requests, newIds); f.1.Some? ==> f.1.value in f.0
  {
    if requests != [] {
      var n := |requests| - 1;
      RememberedIsLive(subs, requests[..n], newIds[..n]);
    }
  }

  /**
   * Unsubscribing any live subscription, not only the remembered one,
   * makes the stream forget the remembered id, so the subscription made
   * before it outlives the stream's end.
   */
  lemma UnsubscribeOtherForgets(subs: map<string, Subscription>, a: SubscribeRequest, b: SubscribeRequest, idA: string, idB: string)
    requires a.action == 1 && Requested(a, idA).Some?
    requires b.action == 2 && b.subscriptionId != "" && b.subscriptionId in subs && b.subscriptionId != idA
    ensures var f := Fold(subs, [a, b], [idA, idB]); f.1.None? && idA in f.0
  {
    assert [a, b][..1] == [a] && [idA, idB][..1] == [idA];
    assert [a][..0] == [] && [idA][..0] == [];
    assert Fold(subs, [a][..0], [idA][..0]) == (subs, None, []);
    var one := Fold(subs, [a], [idA]);
    assert one.0 == subs[idA := Requested(a, idA).value] && one.1 == Some(idA);
    assert Fold(subs, [a, b], [idA, idB]).0 == one.0 - {b.subscriptionId};
  }
}
