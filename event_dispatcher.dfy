// The event dispatcher (src/services/event/dispatcher.rs): a table of
// subscriptions and a broadcast channel. A dispatched event is delivered to
// every live receiver; a receiver hands out only the events whose type its
// subscription lists. The channel is modelled by each receiver's inbox, the
// sequence of items the channel will hand it next; capacity and lagging are
// represented only by the Lagged item a receiver may find there.

module EventDispatch {
  import opened Wrappers
  import opened Errors
  import opened Decimal

  datatype EventType =
    | PageLoaded | PageNavigated | PageClosed | ConsoleLog | ConsoleError
    | RequestSent | ResponseReceived | JsException | DialogOpened

  datatype ConsoleLevel = Log | Debug | Info | Warn | ErrorLevel

  datatype PageEvent = PageEvent(url: string, title: Option<string>)
  datatype ConsoleEvent = ConsoleEvent(level: ConsoleLevel, args: seq<string>)
  datatype NetworkEvent = NetworkEvent(url: string, httpMethod: string, statusCode: nat)

  datatype DispatcherEvent = Page(page: PageEvent) | Console(console: ConsoleEvent) | Network(network: NetworkEvent)

  datatype SubscriptionFilter = SubscriptionFilter(
    urlPattern: Option<string>,
    statusCodes: Option<seq<nat>>,
    resourceTypes: Option<seq<string>>,
    logLevels: Option<seq<ConsoleLevel>>)

  const DefaultFilter: SubscriptionFilter := SubscriptionFilter(None, None, None, None)

  datatype Subscription = Subscription(
    id: string,
    pageId: Option<string>,
    browserId: Option<string>,
    eventTypes: seq<EventType>,
    filter: SubscriptionFilter)

  /** The type a dispatched event is filtered under. */
  function TypeOf(e: DispatcherEvent): EventType
  {
    match e
    case Page(_) => PageLoaded
    case Console(_) => ConsoleLog
    case Network(_) => RequestSent
  }

  /** matches_event_type: an empty list accepts everything, otherwise the event's type must be listed. */
  predicate Matches(types: seq<EventType>, e: DispatcherEvent)
  {
    |types| == 0 || TypeOf(e) in types
  }

  /** Only the three types dispatched events carry can ever be matched by a non-empty list. */
  lemma MatchesOnlyDispatchedTypes(types: seq<EventType>, e: DispatcherEvent)
    requires |types| > 0
    requires forall i :: 0 <= i < |types| ==> types[i] !in {PageLoaded, ConsoleLog, RequestSent}
    ensures !Matches(types, e)
  {
  }

  /** What the channel hands a receiver next: an event, a report that it fell behind by n events, or the end of the channel. */
  datatype Delivery = Deliver(event: DispatcherEvent) | Lagged(n: nat) | Closed

  /** The index of the first item recv stops at: a matching event or a channel error. */
  function FirstDeliverable(types: seq<EventType>, inbox: seq<Delivery>): (r: Option<nat>)
    ensures r.Some? ==> r.value < |inbox| && !(inbox[r.value].Deliver? && !Matches(types, inbox[r.value].event))
    ensures r.Some? ==> forall j :: 0 <= j < r.value ==> inbox[j].Deliver? && !Matches(types, inbox[j].event)
    ensures r.None? ==> forall j :: 0 <= j < |inbox| ==> inbox[j].Deliver? && !Matches(types, inbox[j].event)
  {
    if |inbox| == 0 then None
    else if inbox[0].Deliver? && !Matches(types, inbox[0].event) then
      var r := FirstDeliverable(types, inbox[1..]);
      assert forall j :: 1 <= j < |inbox| ==> inbox[j] == inbox[1..][j - 1];
      if r.Some? then Some(r.value + 1) else None
    else Some(0)
  }

  /** What recv returns for the item it stops at. */
  function RecvOutcome(d: Delivery): Result<DispatcherEvent, Error>
  {
    match d
    case Deliver(e) => Ok(e)
    case Lagged(n) => Err(Internal("Failed to receive event: channel lagged by " + NatText(n)))
    case Closed => Err(Internal("Failed to receive event: channel closed"))
  }

  /** What try_recv returns for the item it stops at. */
  function TryRecvOutcome(d: Delivery): Result<DispatcherEvent, Error>
  {
    match d
    case Deliver(e) => Ok(e)
    case Lagged(n) => Err(Internal("Lagged by " + NatText(n) + " messages"))
    case Closed => Err(Internal("Channel error: channel closed"))
  }

  class FilteredReceiver {
    const id: string
    const eventTypes: seq<EventType>
    var inbox: seq<Delivery>

    constructor (id: string, eventTypes: seq<EventType>)
      ensures this.id == id && this.eventTypes == eventTypes && inbox == []
    {
      this.id := id;
      this.eventTypes := eventTypes;
      inbox := [];
    }

    /** recv: skips events of other types and returns the first matching event or channel error; None means it is still waiting, with every pending item consumed. */
    method Recv() returns (r: Option<Result<DispatcherEvent, Error>>)
      modifies this
      ensures FirstDeliverable(eventTypes, old(inbox)).None? ==> r.None? && inbox == []
      ensures FirstDeliverable(eventTypes, old(inbox)).Some? ==>
                var k := FirstDeliverable(eventTypes, old(inbox)).value;
                r == Some(RecvOutcome(old(inbox)[k])) && inbox == old(inbox)[k + 1..]
      ensures r.Some? && r.value.Ok? ==> Matches(eventTypes, r.value.value)
    {
      while inbox != []
        invariant FirstDeliverable(eventTypes, old(inbox)) ==
                  (var k := FirstDeliverable(eventTypes, inbox);
                   if k.Some? then Some(k.value + |old(inbox)| - |inbox|) else None)
        invariant |inbox| <= |old(inbox)| && inbox == old(inbox)[|old(inbox)| - |inbox|..]
        decreases |inbox|
      {
        var item := inbox[0];
        inbox := inbox[1..];
        match item
        case Deliver(e) =>
          if Matches(eventTypes, e) {
            return Some(Ok(e));
          }
        case Lagged(n) =>
          return Some(Err(Internal("Failed to receive event: channel lagged by " + NatText(n))));
        case Closed =>
          return Some(Err(Internal("Failed to receive event: channel closed")));
      }
      return None;
    }

    /** try_recv: like recv, but an exhausted inbox is reported as an error instead of waiting. */
    method TryRecv() returns (r: Result<DispatcherEvent, Error>)
      modifies this
      ensures FirstDeliverable(eventTypes, old(inbox)).None? ==> r == Err(Internal("No events available")) && inbox == []
      ensures FirstDeliverable(eventTypes, old(inbox)).Some? ==>
                var k := FirstDeliverable(eventTypes, old(inbox)).value;
                r == TryRecvOutcome(old(inbox)[k]) && inbox == old(inbox)[k + 1..]
    {
      while inbox != []
        invariant FirstDeliverable(eventTypes, old(inbox)) ==
                  (var k := FirstDeliverable(eventTypes, inbox);
                   if k.Some? then Some(k.value + |old(inbox)| - |inbox|) else None)
        invariant |inbox| <= |old(inbox)| && inbox == old(inbox)[|old(inbox)| - |inbox|..]
        decreases |inbox|
      {
        var item := inbox[0];
        inbox := inbox[1..];
        match item
        case Deliver(e) =>
          if Matches(eventTypes, e) {
            return Ok(e);
          }
        case Lagged(n) =>
          return Err(Internal("Lagged by " + NatText(n) + " messages"));
        case Closed =>
          return Err(Internal("Channel error: channel closed"));
      }
      return Err(Internal("No events available"));
    }
  }

  class EventDispatcher {
    var subscriptions: map<string, Subscription>
    /** The live receivers of the broadcast channel. */
    var receivers: seq<FilteredReceiver>
    const channelCapacity: nat

    ghost predicate Valid()
      reads this
    {
      forall i, j :: 0 <= i < j < |receivers| ==> receivers[i] != receivers[j]
    }

    constructor (channelCapacity: nat)
      ensures Valid() && subscriptions == map[] && receivers == [] && this.channelCapacity == channelCapacity
    {
      this.channelCapacity := channelCapacity;
      subscriptions := map[];
      receivers := [];
    }

    /** subscribe / subscribe_with_filters: stores the subscription under the new id and opens a receiver filtered by its event types. */
    method Subscribe(pageId: Option<string>, browserId: Option<string>, eventTypes: seq<EventType>,
                     filter: SubscriptionFilter, newId: string) returns (id: string, rx: FilteredReceiver)
      requires Valid()
      modifies this
      ensures Valid()
      ensures id == newId && fresh(rx)
      ensures subscriptions == old(subscriptions)[id := Subscription(id, pageId, browserId, eventTypes, filter)]
      ensures id !in old(subscriptions) ==> |subscriptions| == |old(subscriptions)| + 1
      ensures receivers == old(receivers) + [rx]
      ensures rx.id == id && rx.eventTypes == eventTypes && rx.inbox == []
    {
      id := newId;
      subscriptions := subscriptions[id := Subscription(id, pageId, browserId, eventTypes, filter)];
      rx := new FilteredReceiver(id, eventTypes);
      receivers := receivers + [rx];
    }

    /** Dropping a receiver removes it from the channel. */
    method DropReceiver(rx: FilteredReceiver)
      requires Valid()
      modifies this
      ensures Valid()
      ensures subscriptions == old(subscriptions)
      ensures receivers == RemoveReceiver(old(receivers), rx)
    {
      receivers := RemoveReceiver(receivers, rx);
    }

    /** unsubscribe: removes the entry and succeeds iff it existed; every other entry stays. */
    method Unsubscribe(id: string) returns (r: Result<(), Error>)
      modifies this
      ensures r.Ok? <==> id in old(subscriptions)
      ensures r.Err? ==> r.error == Internal("Subscription not found: " + id)
      ensures subscriptions == old(subscriptions) - {id}
      ensures receivers == old(receivers)
    {
      if id in subscriptions {
        subscriptions := subscriptions - {id};
        return Ok(());
      }
      return Err(Internal("Subscription not found: " + id));
    }

    /** list_subscriptions: one (id, page id, browser id) triple per stored subscription, in no particular order. */
    method ListSubscriptions() returns (list: seq<(string, Option<string>, Option<string>)>)
      ensures |list| == |subscriptions|
      ensures forall id :: id in subscriptions ==> (id, subscriptions[id].pageId, subscriptions[id].browserId) in list
      ensures forall t :: t in list ==> t.0 in subscriptions && t == (t.0, subscriptions[t.0].pageId, subscriptions[t.0].browserId)
    {
      list := [];
      var left := subscriptions.Keys;
      while left != {}
        invariant left <= subscriptions.Keys
        invariant |list| + |left| == |subscriptions|
        invariant forall id :: id in subscriptions && id !in left ==> (id, subscriptions[id].pageId, subscriptions[id].browserId) in list
        invariant forall t :: t in list ==> t.0 in subscriptions && t.0 !in left && t == (t.0, subscriptions[t.0].pageId, subscriptions[t.0].browserId)
        decreases |left|
      {
        var id :| id in left;
        list := list + [(id, subscriptions[id].pageId, subscriptions[id].browserId)];
        left := left - {id};
      }
      assert subscriptions.Keys == subscriptions.Keys - left;
    }

    /** dispatch_page_event / dispatch_console_event / dispatch_network_event: fails only when no receiver is alive; otherwise every live receiver gets the event. The subscription table is never touched. */
    method Dispatch(e: DispatcherEvent) returns (r: Result<(), Error>)
      requires Valid()
      modifies set i | 0 <= i < |receivers| :: receivers[i]
      ensures r.Err? <==> |receivers| == 0
      ensures r.Err? ==> r.error == Internal("Failed to dispatch event: channel closed")
      ensures forall i :: 0 <= i < |receivers| ==> receivers[i].inbox == old(receivers[i].inbox) + [Deliver(e)]
    {
      if |receivers| == 0 {
        return Err(Internal("Failed to dispatch event: channel closed"));
      }
      var i := 0;
      while i < |receivers|
        invariant 0 <= i <= |receivers|
        invariant forall j :: 0 <= j < i ==> receivers[j].inbox == old(receivers[j].inbox) + [Deliver(e)]
        invariant forall j :: i <= j < |receivers| ==> receivers[j].inbox == old(receivers[j].inbox)
      {
        receivers[i].inbox := receivers[i].inbox + [Deliver(e)];
        i := i + 1;
      }
      return Ok(());
    }

    /** try_dispatch_page_event: the same send, with a different failure text. */
    method TryDispatchPage(e: PageEvent) returns (r: Result<(), Error>)
      requires Valid()
      modifies set i | 0 <= i < |receivers| :: receivers[i]
      ensures r.Err? <==> |receivers| == 0
      ensures r.Err? ==> r.error == Internal("No receivers: channel closed")
      ensures forall i :: 0 <= i < |receivers| ==> receivers[i].inbox == old(receivers[i].inbox) + [Deliver(Page(e))]
    {
      var sent := Dispatch(Page(e));
      if sent.Err? {
        return Err(Internal("No receivers: channel closed"));
      }
      return Ok(());
    }

    /** cleanup_inactive: with no live receiver the whole table is cleared; otherwise nothing changes. */
    method CleanupInactive()
      modifies this
      ensures |old(receivers)| == 0 ==> subscriptions == map[]
      ensures |old(receivers)| > 0 ==> subscriptions == old(subscriptions)
      ensures receivers == old(receivers)
    {
      if |receivers| == 0 {
        subscriptions := map[];
      }
    }

    /** subscription_count. */
    function SubscriptionCount(): (n: nat)
      reads this
      ensures n == |subscriptions.Keys|
    {
      |subscriptions|
    }
  }

  /** The receivers left after one is dropped. */
  function RemoveReceiver(rs: seq<FilteredReceiver>, rx: FilteredReceiver): (r: seq<FilteredReceiver>)
    ensures forall i :: 0 <= i < |r| ==> r[i] in rs && r[i] != rx
    ensures forall i :: 0 <= i < |rs| && rs[i] != rx ==> rs[i] in r
    ensures (forall i, j :: 0 <= i < j < |rs| ==> rs[i] != rs[j]) ==> forall i, j :: 0 <= i < j < |r| ==> r[i] != r[j]
  {
    if |rs| == 0 then []
    else if rs[0] == rx then RemoveReceiver(rs[1..], rx)
    else [rs[0]] + RemoveReceiver(rs[1..], rx)
  }
}
