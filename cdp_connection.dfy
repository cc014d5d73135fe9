// The DevTools-protocol connection (src/cdp/connection.rs) as a sequential
// state machine: the connection state and active flag, the command-id
// counter, the table of commands awaiting a response, the list of event
// subscribers, and the per-method response timeout. The WebSocket, the
// clock and the browser's answers are parameters: whether a connect or a
// write succeeds, and when (if ever) a response arrives. The message loop
// is modelled by its handlers, which SendCommand calls when the response
// arrives in time.

module Connection {
  import opened Wrappers
  import opened Errors
  import opened Json
  import opened Text
  import opened Decimal
  import CdpClient

  // ------------------------------------------------------------ timeouts

  const DefaultTimeoutSecs: nat := 30
  const ScreenshotTimeoutSecs: nat := 90
  const NavigationTimeoutSecs: nat := 60
  const ExecutionTimeoutSecs: nat := 30

  /** get_timeout_for_command: the method is lower-cased and searched for the screenshot words, then the navigation words, then the script-execution words. */
  function TimeoutFor(methodName: string): nat
  {
    var m := LowerAll(methodName);
    if Contains(m, "screenshot") || Contains(m, "capture") || Contains(m, "page.capture") then ScreenshotTimeoutSecs
    else if Contains(m, "navigate") || StartsWith(m, "page.navigate") || Contains(m, "reload") then NavigationTimeoutSecs
    else if Contains(m, "runtime.evaluate") || Contains(m, "runtime.call") then ExecutionTimeoutSecs
    else DefaultTimeoutSecs
  }

  /** The timeout in three tiers: 90 s for a method mentioning "screenshot" or "capture" in any case, else 60 s for "navigate" or "reload", else 30 s. The "page.capture" and "page.navigate" tests add nothing, and script execution gets the default. */
  lemma TimeoutTiers(methodName: string)
    ensures var m := LowerAll(methodName);
      && (TimeoutFor(methodName) == 90 <==> Contains(m, "screenshot") || Contains(m, "capture"))
      && (TimeoutFor(methodName) == 60 <==>
            !(Contains(m, "screenshot") || Contains(m, "capture")) && (Contains(m, "navigate") || Contains(m, "reload")))
      && (TimeoutFor(methodName) == 30 <==>
            !(Contains(m, "screenshot") || Contains(m, "capture") || Contains(m, "navigate") || Contains(m, "reload")))
  {
    var m := LowerAll(methodName);
    if Contains(m, "page.capture") {
      var k :| 0 <= k <= |m| && OccursAt("page.capture", m, k);
      assert m[k + 5..k + 12] == "capture";
      assert OccursAt("capture", m, k + 5);
    }
    if StartsWith(m, "page.navigate") {
      assert m[5..13] == "navigate";
      assert OccursAt("navigate", m, 5);
    }
  }

  // ------------------------------------------------------------ messages

  datatype ConnectionState = Connecting | Connected | Disconnected | Closed

  /** A request as written to the socket; a null params value is left out. */
  datatype CdpRequest = CdpRequest(id: nat, methodName: string, params: Option<Json>)

  /** The error object of a response. */
  datatype CdpErrorDetail = CdpErrorDetail(code: int, message: string, data: Option<Json>)

  /** A response read from the socket: the id it answers, its result (null when absent) and its error. */
  datatype RpcResponse = RpcResponse(id: nat, result: Json, error: Option<CdpErrorDetail>)

  /** An event read from the socket. */
  datatype Notification = Notification(methodName: string, params: Json, sessionId: Option<string>)

  /** What an incoming text message is read as: a response if it decodes as one, else an event, else nothing. */
  datatype Incoming = Response(response: RpcResponse) | Event(event: Notification) | Unrecognised

  /** What happens to a written command: its response arrives after some seconds, the response channel is dropped, or nothing ever comes. */
  datatype Arrival = ArrivesAfter(secs: nat, result: Json, error: Option<CdpErrorDetail>) | ChannelDropped | NeverAnswered

  /** The request send_command writes for a method and its parameters. */
  function Request(id: nat, methodName: string, params: Json): (q: CdpRequest)
    ensures q.params.None? <==> params.JNull?
    ensures q.params.Some? ==> q.params.value == params
  {
    CdpRequest(id, methodName, if params.JNull? then None else Some(params))
  }

  /** An id field: a whole number in the range of a u64. */
  predicate IsId(j: Json)
  {
    j.JNumber? && IsWhole(j.n) && 0.0 <= j.n < 18446744073709551616.0
  }

  /** A value that decodes as an i32. */
  predicate IsI32(j: Json)
  {
    j.JNumber? && IsWhole(j.n) && -2147483648.0 <= j.n < 2147483648.0
  }

  /** The error field of a response: missing or null gives none; an object needs an i32 code and a string message. */
  function ErrorDetail(j: Json): Option<Option<CdpErrorDetail>>
    requires j.JObject?
  {
    if "error" !in j.fields || j.fields["error"].JNull? then Some(None)
    else
      var e := j.fields["error"];
      if e.JObject? && "code" in e.fields && IsI32(e.fields["code"]) && "message" in e.fields && e.fields["message"].JString? then
        var data := if "data" in e.fields && !e.fields["data"].JNull? then Some(e.fields["data"]) else None;
        Some(Some(CdpErrorDetail(e.fields["code"].n.Floor, e.fields["message"].s, data)))
      else None
  }

  /** handle_message: decode as a response first (an id is required), then as an event (a string method is required); anything else is ignored. */
  function ParseIncoming(j: Json): (r: Incoming)
    ensures r.Response? ==> j.JObject? && "id" in j.fields && IsId(j.fields["id"]) && r.response.id as real == j.fields["id"].n
    ensures r.Event? ==> j.JObject? && "method" in j.fields && j.fields["method"].JString? && r.event.methodName == j.fields["method"].s
    ensures (&& j.JObject? && "id" !in j.fields && "method" in j.fields && j.fields["method"].JString?
             && ("session_id" !in j.fields || j.fields["session_id"].JNull? || j.fields["session_id"].JString?)) ==> r.Event?
  {
    if !j.JObject? then Unrecognised
    else if "id" in j.fields && IsId(j.fields["id"]) && ErrorDetail(j).Some? then
      var result := if "result" in j.fields then j.fields["result"] else JNull;
      Response(RpcResponse(j.fields["id"].n.Floor, result, ErrorDetail(j).value))
    else if "method" in j.fields && j.fields["method"].JString?
      && ("session_id" !in j.fields || j.fields["session_id"].JNull? || j.fields["session_id"].JString?) then
      var params := if "params" in j.fields then j.fields["params"] else JNull;
      var session := if "session_id" in j.fields && j.fields["session_id"].JString? then Some(j.fields["session_id"].s) else None;
      Event(Notification(j.fields["method"].s, params, session))
    else Unrecognised
  }

  /** The Cdp error text of a response's error: message, code, and the data's JSON text after "(code: ". */
  function ErrorText(e: CdpErrorDetail, render: Json -> string): string
  {
    e.message + ": " + IntText(e.code) + " (code: " + (if e.data.Some? then render(e.data.value) else "") + ")"
  }

  // ------------------------------------------------------------ subscribers

  /** The subscribers whose receivers are still alive, in their original order. */
  function Kept(subs: seq<nat>, live: set<nat>): (r: seq<nat>)
    ensures |r| <= |subs|
  {
    if subs == [] then [] else (if subs[0] in live then [subs[0]] else []) + Kept(subs[1..], live)
  }

  lemma {:induction false} KeptAppend(a: seq<nat>, b: seq<nat>, live: set<nat>)
    ensures Kept(a + b, live) == Kept(a, live) + Kept(b, live)
  {
    if a != [] {
      KeptAppend(a[1..], b, live);
      calc {
        Kept(a + b, live);
        (if a[0] in live then [a[0]] else []) + Kept((a + b)[1..], live);
        { assert (a + b)[1..] == a[1..] + b; }
        (if a[0] in live then [a[0]] else []) + (Kept(a[1..], live) + Kept(b, live));
        Kept(a, live) + Kept(b, live);
      }
    } else {
      assert a + b == b;
    }
  }

  lemma {:induction false} KeptAllLive(a: seq<nat>, live: set<nat>)
    requires forall k :: 0 <= k < |a| ==> a[k] in live
    ensures Kept(a, live) == a
  {
    if a != [] {
      KeptAllLive(a[1..], live);
    }
  }

  /** The positions, below n, of the subscribers whose send fails, in increasing order. */
  function Dead(subs: seq<nat>, live: set<nat>, n: nat): seq<nat>
    requires n <= |subs|
  {
    if n == 0 then [] else Dead(subs, live, n - 1) + (if subs[n - 1] !in live then [n - 1] else [])
  }

  /** The dead positions are exactly those below n whose subscriber is not alive, listed in increasing order. */
  lemma {:induction false} DeadFacts(subs: seq<nat>, live: set<nat>, n: nat)
    requires n <= |subs|
    ensures var d := Dead(subs, live, n);
      && (forall j :: 0 <= j < |d| ==> d[j] < n && subs[d[j]] !in live)
      && (forall j, k :: 0 <= j < k < |d| ==> d[j] < d[k])
      && (forall p :: 0 <= p < n && subs[p] !in live ==> p in d)
  {
    if n > 0 {
      DeadFacts(subs, live, n - 1);
    }
  }

  /** Removing the dead position p from a list whose part from b on is already filtered, when nothing between p and b is dead, gives the list filtered from p on. */
  lemma RemoveStep(orig: seq<nat>, live: set<nat>, p: nat, b: nat, rest: seq<nat>)
    requires p < b <= |orig| && orig[p] !in live
    requires forall k :: p < k < b ==> orig[k] in live
    requires rest == Kept(orig[b..], live)
    ensures (orig[..b] + rest)[..p] + (orig[..b] + rest)[p + 1..] == orig[..p] + Kept(orig[p..], live)
  {
    var mid, tail := orig[p + 1..b], orig[b..];
    CutAround(orig, rest, p, b);
    KeptAppend([orig[p]], mid + tail, live);
    KeptAppend(mid, tail, live);
    forall k | 0 <= k < |mid|
      ensures mid[k] in live
    {
      assert mid[k] == orig[p + 1 + k];
    }
    KeptAllLive(mid, live);
    assert Kept([orig[p]], live) == [];
    assert Kept(orig[p..], live) == mid + rest;
  }

  lemma CutAround(orig: seq<nat>, rest: seq<nat>, p: nat, b: nat)
    requires p < b <= |orig|
    ensures (orig[..b] + rest)[..p] == orig[..p]
    ensures (orig[..b] + rest)[p + 1..] == orig[p + 1..b] + rest
    ensures orig[p..] == [orig[p]] + (orig[p + 1..b] + orig[b..])
  {
    var cur := orig[..b] + rest;
    assert cur[..p] == orig[..p];
    assert cur[p + 1..] == orig[p + 1..b] + rest;
    assert orig[p..] == [orig[p]] + (orig[p + 1..b] + orig[b..]);
  }

  /** Between two consecutive dead positions (or before the first, or after the last) every subscriber is alive. */
  lemma DeadGap(orig: seq<nat>, live: set<nat>, d: seq<nat>, j: nat)
    requires d == Dead(orig, live, |orig|) && j <= |d|
    ensures var lo := if j == 0 then -1 else d[j - 1];
      var hi := if j < |d| then d[j] else |orig|;
      && lo < hi <= |orig|
      && (j > 0 ==> orig[lo] !in live)
      && (forall k :: lo < k < hi ==> orig[k] in live)
  {
    DeadFacts(orig, live, |orig|);
    SortedGap(orig, live, d, j);
  }

  /** The gap property of any increasing list holding exactly the dead positions. */
  lemma SortedGap(orig: seq<nat>, live: set<nat>, d: seq<nat>, j: nat)
    requires j <= |d|
    requires forall q :: 0 <= q < |d| ==> d[q] < |orig| && orig[d[q]] !in live
    requires forall q, r :: 0 <= q < r < |d| ==> d[q] < d[r]
    requires forall p :: 0 <= p < |orig| && orig[p] !in live ==> p in d
    ensures var lo := if j == 0 then -1 else d[j - 1];
      var hi := if j < |d| then d[j] else |orig|;
      && lo < hi <= |orig|
      && (j > 0 ==> orig[lo] !in live)
      && (forall k :: lo < k < hi ==> orig[k] in live)
  {
    var lo := if j == 0 then -1 else d[j - 1];
    var hi := if j < |d| then d[j] else |orig|;
    forall k | lo < k < hi
      ensures orig[k] in live
    {
      forall q | 0 <= q < |d|
        ensures d[q] != k
      {
        if q < j {
          assert q == j - 1 || d[q] < d[j - 1];
        } else if j < |d| {
          assert q == j || d[j] < d[q];
        }
      }
    }
  }

  /** Where the part of the list still to be filtered starts once the dead positions from j on are removed. */
  function Bound(orig: seq<nat>, d: seq<nat>, j: nat): nat
    requires j <= |d|
  {
    if j < |d| then d[j] else |orig|
  }

  /** One removal from the back: taking out the (j-1)-th dead position extends the filtered part down to it. */
  lemma RemoveDead(orig: seq<nat>, live: set<nat>, d: seq<nat>, j: nat, cur: seq<nat>)
    requires d == Dead(orig, live, |orig|) && 0 < j <= |d|
    requires Bound(orig, d, j) <= |orig|
    requires cur == orig[..Bound(orig, d, j)] + Kept(orig[Bound(orig, d, j)..], live)
    ensures d[j - 1] < |cur| && Bound(orig, d, j - 1) == d[j - 1] <= |orig|
    ensures cur[..d[j - 1]] + cur[d[j - 1] + 1..] == orig[..d[j - 1]] + Kept(orig[d[j - 1]..], live)
  {
    DeadGap(orig, live, d, j);
    RemoveStep(orig, live, d[j - 1], Bound(orig, d, j), Kept(orig[Bound(orig, d, j)..], live));
  }

  /** Once every dead position is removed, what is left is the filtered list: everything before the first dead position is alive. */
  lemma RemoveNoneBefore(orig: seq<nat>, live: set<nat>, d: seq<nat>)
    requires d == Dead(orig, live, |orig|)
    ensures Bound(orig, d, 0) <= |orig|
    ensures orig[..Bound(orig, d, 0)] + Kept(orig[Bound(orig, d, 0)..], live) == Kept(orig, live)
  {
    DeadGap(orig, live, d, 0);
    var b := Bound(orig, d, 0);
    KeptAllLive(orig[..b], live);
    KeptAppend(orig[..b], orig[b..], live);
    assert orig[..b] + orig[b..] == orig;
  }

  /** Registering a fresh id and removing it again leaves the pending table as it was. */
  lemma RegisterThenRemove(pending: map<nat, string>, id: nat, methodName: string)
    requires id !in pending
    ensures pending[id := methodName] - {id} == pending
  {
    assert (pending[id := methodName] - {id}).Keys == pending.Keys;
  }

  // ------------------------------------------------------------ the connection

  class CdpWebSocketConnection {
    const url: string
    var state: ConnectionState
    var active: bool
    /** Whether a WebSocket stream is held. */
    var hasStream: bool
    var nextId: nat
    /** The commands awaiting a response: id to method. */
    var pending: map<nat, string>
    /** The event subscribers, by handle, in subscription order. */
    var subscribers: seq<nat>
    /** The requests written to the socket, in order. */
    var sent: seq<CdpRequest>

    /** Ids come from a counter starting at 1: every id handed out is below it, so written ids strictly increase and pending ids are never reused. */
    ghost predicate Valid()
      reads this
    {
      && 1 <= nextId
      && (forall id :: id in pending ==> 1 <= id < nextId)
      && (forall i :: 0 <= i < |sent| ==> 1 <= sent[i].id < nextId)
      && (forall i, j :: 0 <= i < j < |sent| ==> sent[i].id < sent[j].id)
    }

    /** new, before its connect: disconnected, inactive, nothing pending, ids from 1. */
    constructor(url: string)
      ensures Valid()
      ensures this.url == url && state == Disconnected && !active && !hasStream
      ensures nextId == 1 && pending == map[] && subscribers == [] && sent == []
    {
      this.url := url;
      state := Disconnected;
      active := false;
      hasStream := false;
      nextId := 1;
      pending := map[];
      subscribers := [];
      sent := [];
    }

    /** connect: allowed only from Disconnected; success ends Connected and active with a stream, failure returns to Disconnected. */
    method Connect(failure: Option<string>) returns (r: Result<(), Error>)
      requires Valid()
      modifies this
      ensures Valid()
      ensures old(state) != Disconnected ==>
        r == Err(Internal("Connection is not in disconnected state")) && state == old(state) && active == old(active) && hasStream == old(hasStream)
      ensures old(state) == Disconnected && failure.None? ==>
        r == Ok(()) && state == Connected && active && hasStream
      ensures old(state) == Disconnected && failure.Some? ==>
        r == Err(WebSocket("Failed to connect: " + failure.value)) && state == Disconnected && active == old(active) && hasStream == old(hasStream)
      ensures nextId == old(nextId) && pending == old(pending) && subscribers == old(subscribers) && sent == old(sent)
    {
      if state != Disconnected {
        return Err(Internal("Connection is not in disconnected state"));
      }
      state := Connecting;
      if failure.None? {
        hasStream := true;
        state := Connected;
        active := true;
        r := Ok(());
      } else {
        state := Disconnected;
        r := Err(WebSocket("Failed to connect: " + failure.value));
      }
    }

    /** handle_response: the pending entry for the response's id is removed and the response delivered; an unknown id changes nothing. */
    method HandleResponse(resp: RpcResponse) returns (delivered: bool)
      requires Valid()
      modifies this
      ensures Valid()
      ensures delivered <==> resp.id in old(pending)
      ensures pending == old(pending) - {resp.id}
      ensures state == old(state) && active == old(active) && hasStream == old(hasStream)
      ensures nextId == old(nextId) && subscribers == old(subscribers) && sent == old(sent)
    {
      delivered := resp.id in pending;
      pending := pending - {resp.id};
    }

    /** handle_notification: the event goes to every subscriber; those whose send fails are collected by position and then removed from the back. */
    method HandleNotification(n: Notification, live: set<nat>)
      requires Valid()
      modifies this
      ensures Valid()
      ensures subscribers == Kept(old(subscribers), live)
      ensures state == old(state) && active == old(active) && hasStream == old(hasStream)
      ensures nextId == old(nextId) && pending == old(pending) && sent == old(sent)
    {
      var orig := subscribers;
      var deadSubscribers: seq<nat> := [];
      var i := 0;
      while i < |orig|
        invariant 0 <= i <= |orig|
        invariant deadSubscribers == Dead(orig, live, i)
      {
        if orig[i] !in live {
          deadSubscribers := deadSubscribers + [i];
        }
        i := i + 1;
      }
      var j := |deadSubscribers|;
      while j > 0
        invariant 0 <= j <= |deadSubscribers|
        invariant Bound(orig, deadSubscribers, j) <= |orig|
        invariant subscribers == orig[..Bound(orig, deadSubscribers, j)] + Kept(orig[Bound(orig, deadSubscribers, j)..], live)
        invariant sent == old(sent) && pending == old(pending) && nextId == old(nextId)
        invariant state == old(state) && active == old(active) && hasStream == old(hasStream)
      {
        var p := deadSubscribers[j - 1];
        RemoveDead(orig, live, deadSubscribers, j, subscribers);
        subscribers := subscribers[..p] + subscribers[p + 1..];
        j := j - 1;
      }
      RemoveNoneBefore(orig, live, deadSubscribers);
    }

    /** send_command: an inactive connection fails before taking an id; otherwise the next id is taken and registered, the request written, and the response awaited for the method's timeout. A write failure leaves the entry behind; a timeout removes it; a response removes it as it is delivered, and an error in it becomes a Cdp error. */
    method SendCommand(methodName: string, params: Json, writeFailure: Option<string>, arrival: Arrival, render: Json -> string)
      returns (r: Result<CdpClient.CdpResponse, Error>)
      requires Valid()
      modifies this
      ensures Valid()
      ensures state == old(state) && active == old(active) && hasStream == old(hasStream) && subscribers == old(subscribers)
      ensures !old(active) ==>
        r == Err(WebSocket("Connection is not active")) && nextId == old(nextId) && pending == old(pending) && sent == old(sent)
      ensures old(active) ==> nextId == old(nextId) + 1
      ensures old(active) && !hasStream ==>
        r == Err(WebSocket("WebSocket stream not available")) && pending == old(pending)[old(nextId) := methodName] && sent == old(sent)
      ensures old(active) && hasStream && writeFailure.Some? ==>
        r == Err(WebSocket("Failed to send message: " + writeFailure.value)) && pending == old(pending)[old(nextId) := methodName] && sent == old(sent)
      ensures old(active) && hasStream && writeFailure.None? ==>
        && sent == old(sent) + [Request(old(nextId), methodName, params)]
        && pending == old(pending)
        && r == Awaited(old(nextId), methodName, arrival, render)
    {
      if !active {
        return Err(WebSocket("Connection is not active"));
      }
      var id := nextId;
      nextId := nextId + 1;
      var request := Request(id, methodName, params);
      RegisterThenRemove(pending, id, methodName);
      pending := pending[id := methodName];
      if !hasStream {
        return Err(WebSocket("WebSocket stream not available"));
      }
      if writeFailure.Some? {
        return Err(WebSocket("Failed to send message: " + writeFailure.value));
      }
      sent := sent + [request];
      match arrival
      case ArrivesAfter(secs, result, error) =>
        if secs < TimeoutFor(methodName) {
          var delivered := HandleResponse(RpcResponse(id, result, error));
          if error.Some? {
            return Err(Cdp(ErrorText(error.value, render)));
          }
          return Ok(CdpClient.CdpResponse(id, Some(result)));
        }
        pending := pending - {id};
        r := Err(Timeout("Command " + NatText(id) + " timed out"));
      case ChannelDropped =>
        pending := pending - {id};
        r := Err(Timeout("Command " + NatText(id) + " response channel closed"));
      case NeverAnswered =>
        pending := pending - {id};
        r := Err(Timeout("Command " + NatText(id) + " timed out"));
    }

    /** listen_events: one more subscriber, at the end. */
    method ListenEvents(handle: nat)
      requires Valid()
      modifies this
      ensures Valid()
      ensures subscribers == old(subscribers) + [handle]
      ensures state == old(state) && active == old(active) && hasStream == old(hasStream)
      ensures nextId == old(nextId) && pending == old(pending) && sent == old(sent)
    {
      subscribers := subscribers + [handle];
    }

    /** close: the connection goes inactive first; a failing close of the stream is reported and leaves the state as it was, otherwise the state becomes Closed. */
    method Close(failure: Option<string>) returns (r: Result<(), Error>)
      requires Valid()
      modifies this
      ensures Valid()
      ensures !active
      ensures hasStream && failure.Some? ==>
        r == Err(WebSocket("Failed to close WebSocket: " + failure.value)) && state == old(state)
      ensures !(hasStream && failure.Some?) ==> r == Ok(()) && state == Closed
      ensures hasStream == old(hasStream) && nextId == old(nextId) && pending == old(pending)
      ensures subscribers == old(subscribers) && sent == old(sent)
    {
      active := false;
      if hasStream && failure.Some? {
        return Err(WebSocket("Failed to close WebSocket: " + failure.value));
      }
      state := Closed;
      r := Ok(());
    }

    /** is_active. */
    method IsActive() returns (a: bool)
      ensures a == active
    {
      a := active;
    }
  }

  /** What send_command returns once the request is written: the response if it arrives within the method's timeout (a Cdp error if it carries one), otherwise a Timeout error naming the command id. */
  function Awaited(id: nat, methodName: string, arrival: Arrival, render: Json -> string): (r: Result<CdpClient.CdpResponse, Error>)
    ensures r.Ok? ==>
      && arrival.ArrivesAfter? && arrival.secs < TimeoutFor(methodName) && arrival.error.None?
      && r.value == CdpClient.CdpResponse(id, Some(arrival.result))
    ensures arrival.ArrivesAfter? && arrival.secs < TimeoutFor(methodName) && arrival.error.Some? ==> r == Err(Cdp(ErrorText(arrival.error.value, render)))
    ensures (arrival.ArrivesAfter? && arrival.secs >= TimeoutFor(methodName)) || arrival.NeverAnswered? ==>
      r == Err(Timeout("Command " + NatText(id) + " timed out"))
    ensures arrival.ChannelDropped? ==> r == Err(Timeout("Command " + NatText(id) + " response channel closed"))
  {
    match arrival
    case ArrivesAfter(secs, result, error) =>
      if secs < TimeoutFor(methodName) then
        if error.Some? then Err(Cdp(ErrorText(error.value, render))) else Ok(CdpClient.CdpResponse(id, Some(result)))
      else Err(Timeout("Command " + NatText(id) + " timed out"))
    case ChannelDropped => Err(Timeout("Command " + NatText(id) + " response channel closed"))
    case NeverAnswered => Err(Timeout("Command " + NatText(id) + " timed out"))
  }

  /** A response from this connection always carries a result, so call_method's "No result in response" branch is never taken on it. */
  lemma ConnectionResponsesHaveResults(id: nat, methodName: string, arrival: Arrival, render: Json -> string)
    ensures Awaited(id, methodName, arrival, render).Ok? ==>
      CdpClient.CallMethod(Awaited(id, methodName, arrival, render)) == Ok(arrival.result)
  {
  }
}
