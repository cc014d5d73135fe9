// A reference to a DOM element of a page (src/session/element.rs). An
// element holds no state of its own: each operation sends DOM or Input
// commands through the page's client, and reads the reply. The replies
// are parameters, and each operation reports the commands it sent, in order.

module SessionElement {
  import opened Wrappers
  import opened Errors
  import opened Json
  import opened SessionTypes

  /** A DOM command about one node, named by its backend node id. */
  function NodeCall(methodName: string, backendNodeId: string): (c: ClientCall)
    ensures c.MethodCall? && c.methodName == methodName
    ensures Get(c.params, "backendNodeId") == Some(JString(backendNodeId))
  {
    MethodCall(methodName, JObject(map["backendNodeId" := JString(backendNodeId)]))
  }

  /** The key event type_text sends for one character. */
  function CharEvent(ch: char): (c: ClientCall)
    ensures c.MethodCall? && c.methodName == "Input.dispatchKeyEvent"
    ensures StrField(c.params, "text") == Some([ch]) && StrField(c.params, "type") == Some("char")
  {
    MethodCall("Input.dispatchKeyEvent", JObject(map["type" := JString("char"), "text" := JString([ch])]))
  }

  /** get_text and get_html: the reply's string field, or ScriptExecutionFailed when it has none; a failed command passes its error on. */
  function StringReply(reply: Result<Json, Error>, field: string, failure: string): (r: Result<string, Error>)
    ensures reply.Err? ==> r == Err(reply.error)
    ensures reply.Ok? ==> (r.Ok? <==> StrField(reply.value, field).Some?)
    ensures reply.Ok? && r.Ok? ==> r.value == reply.value.fields[field].s
    ensures reply.Ok? && r.Err? ==> r.error == ScriptExecutionFailed(failure)
  {
    match reply
    case Err(e) => Err(e)
    case Ok(v) =>
      match StrField(v, field)
      case Some(s) => Ok(s)
      case None => Err(ScriptExecutionFailed(failure))
  }

  /** get_text: DOM.getOuterText, read from the "text" field. */
  function GetText(reply: Result<Json, Error>): (r: Result<string, Error>)
    ensures reply.Ok? && StrField(reply.value, "text").None? ==> r == Err(ScriptExecutionFailed("Failed to get element text"))
    ensures r.Ok? <==> reply.Ok? && StrField(reply.value, "text").Some?
  {
    StringReply(reply, "text", "Failed to get element text")
  }

  /** get_html: DOM.getOuterHtml, read from the "outerHtml" field. */
  function GetHtml(reply: Result<Json, Error>): (r: Result<string, Error>)
    ensures reply.Ok? && StrField(reply.value, "outerHtml").None? ==> r == Err(ScriptExecutionFailed("Failed to get element HTML"))
    ensures r.Ok? <==> reply.Ok? && StrField(reply.value, "outerHtml").Some?
  {
    StringReply(reply, "outerHtml", "Failed to get element HTML")
  }

  // ------------------------------------------------------------ attributes

  /** Whether the pair starting at even position i of a flat attribute list is a string name equal to `name` with a string value. */
  predicate PairMatches(attrs: seq<Json>, name: string, i: nat)
  {
    && i % 2 == 0
    && i + 1 < |attrs|
    && attrs[i].JString? && attrs[i + 1].JString?
    && attrs[i].s == name
  }

  /** The value of the first matching pair at an even position from i on. */
  function PairLookup(attrs: seq<Json>, name: string, i: nat): (r: Option<string>)
    requires i % 2 == 0
    decreases |attrs| - i
  {
    if i >= |attrs| then None
    else if PairMatches(attrs, name, i) then Some(attrs[i + 1].s)
    else PairLookup(attrs, name, i + 2)
  }

  /** The lookup finds a value iff some pair from i on matches, and then it is the value of the first such pair. */
  lemma {:induction false} PairLookupFirst(attrs: seq<Json>, name: string, i: nat)
    requires i % 2 == 0
    decreases |attrs| - i
    ensures PairLookup(attrs, name, i).None? <==> forall k :: i <= k < |attrs| ==> !PairMatches(attrs, name, k)
    ensures PairLookup(attrs, name, i).Some? ==>
      (exists k :: && i <= k < |attrs| && PairMatches(attrs, name, k)
                   && PairLookup(attrs, name, i).value == attrs[k + 1].s
                   && (forall m :: i <= m < k ==> !PairMatches(attrs, name, m)))
  {
    if i < |attrs| && !PairMatches(attrs, name, i) {
      PairLookupFirst(attrs, name, i + 2);
      assert !PairMatches(attrs, name, i + 1);
    }
  }

  /** The pair scan of get_attribute: even positions in turn, the first string pair whose name matches gives its value. */
  method ScanAttributes(attrs: seq<Json>, name: string) returns (r: Option<string>)
    ensures r == PairLookup(attrs, name, 0)
  {
    var i := 0;
    while i < |attrs|
      invariant i % 2 == 0
      invariant PairLookup(attrs, name, i) == PairLookup(attrs, name, 0)
      decreases |attrs| - i
    {
      if i + 1 < |attrs| && attrs[i].JString? && attrs[i + 1].JString? && attrs[i].s == name {
        return Some(attrs[i + 1].s);
      }
      i := i + 2;
    }
    r := None;
  }

  /** get_attribute: DOM.getAttributes, then the pair scan of its "attributes" array; no array gives None, and a failed command passes its error on. */
  method GetAttribute(backendNodeId: string, name: string, reply: Result<Json, Error>)
    returns (r: Result<Option<string>, Error>, sent: seq<ClientCall>)
    ensures sent == [NodeCall("DOM.getAttributes", backendNodeId)]
    ensures reply.Err? ==> r == Err(reply.error)
    ensures reply.Ok? ==> r.Ok? && r.value == AttributeValue(reply.value, name)
  {
    sent := [NodeCall("DOM.getAttributes", backendNodeId)];
    if reply.Err? {
      return Err(reply.error), sent;
    }
    var attributes := Get(reply.value, "attributes");
    if attributes.Some? && attributes.value.JArray? {
      var found := ScanAttributes(attributes.value.items, name);
      return Ok(found), sent;
    }
    r := Ok(None);
  }

  /** What get_attribute reads from a DOM.getAttributes reply. */
  function AttributeValue(reply: Json, name: string): (r: Option<string>)
    ensures Get(reply, "attributes").None? || !Get(reply, "attributes").value.JArray? ==> r.None?
  {
    match Get(reply, "attributes")
    case Some(JArray(items)) => PairLookup(items, name, 0)
    case _ => None
  }

  /** A name only ever matches in a name position: an attribute whose value happens to equal the name, or an odd trailing name, is never taken for a match. */
  lemma OnlyNamePositions(name: string, value: string)
    ensures AttributeValue(JObject(map["attributes" := JArray([JString("id"), JString(name)])]), name).None? <==> name != "id"
    ensures AttributeValue(JObject(map["attributes" := JArray([JString(name)])]), name).None?
    ensures AttributeValue(JObject(map["attributes" := JArray([JString(name), JString(value)])]), name) == Some(value)
  {
    var idFirst := [JString("id"), JString(name)];
    assert PairLookup(idFirst, name, 2) == None;
    var one := [JString(name)];
    assert PairLookup(one, name, 2) == None;
    var two := [JString(name), JString(value)];
    assert PairMatches(two, name, 0);
  }

  /** is_enabled's reading of the disabled attribute: enabled when there is none, and otherwise only when its value is neither empty nor "true". */
  function Enabled(disabled: Option<string>): (b: bool)
    ensures disabled.None? ==> b
    ensures disabled.Some? ==> (b <==> disabled.value != "" && disabled.value != "true")
  {
    match disabled
    case None => true
    case Some(d) => d != "true" && d != ""
  }

  /** is_enabled: the disabled attribute read through get_attribute; its error passes on. */
  method IsEnabled(backendNodeId: string, reply: Result<Json, Error>) returns (r: Result<bool, Error>, sent: seq<ClientCall>)
    ensures sent == [NodeCall("DOM.getAttributes", backendNodeId)]
    ensures reply.Err? ==> r == Err(reply.error)
    ensures reply.Ok? ==> r == Ok(Enabled(AttributeValue(reply.value, "disabled")))
  {
    var attr;
    attr, sent := GetAttribute(backendNodeId, "disabled", reply);
    if attr.Err? {
      return Err(attr.error), sent;
    }
    r := Ok(Enabled(attr.value));
  }

  /** is_visible: whether DOM.getBoxModel succeeds; it never fails itself. */
  function IsVisible(reply: Result<Json, Error>): (r: Result<bool, Error>)
    ensures r.Ok? && (r.value <==> reply.Ok?)
  {
    Ok(reply.Ok?)
  }

  // ------------------------------------------------------------ typing

  /** The first of n steps whose answer is an error, or n if none of them is. */
  function FirstFailure<T>(answer: nat -> Result<T, Error>, n: nat): (k: nat)
    ensures k <= n
    ensures forall i :: 0 <= i < k ==> answer(i).Ok?
    ensures k < n ==> answer(k).Err?
  {
    if n == 0 then 0
    else if FirstFailure(answer, n - 1) < n - 1 then FirstFailure(answer, n - 1)
    else if answer(n - 1).Err? then n - 1
    else n
  }

  /** The key events for a run of characters, in order. */
  function CharEvents(text: string): (cs: seq<ClientCall>)
    ensures |cs| == |text|
    ensures forall i :: 0 <= i < |text| ==> cs[i] == CharEvent(text[i])
  {
    seq(|text|, i requires 0 <= i < |text| => CharEvent(text[i]))
  }

  /** type_text: DOM.focus first (a failure stops everything), then one key event per character in order, stopping at the first that fails. answer(i) is the reply to the i-th character's event. */
  method TypeText(backendNodeId: string, text: string, focusReply: Result<Json, Error>, answer: nat -> Result<Json, Error>)
    returns (r: Result<(), Error>, sent: seq<ClientCall>)
    ensures focusReply.Err? ==> r == Err(focusReply.error) && sent == [NodeCall("DOM.focus", backendNodeId)]
    ensures focusReply.Ok? ==> var k := FirstFailure(answer, |text|);
      && (k == |text| ==> r == Ok(()) && sent == [NodeCall("DOM.focus", backendNodeId)] + CharEvents(text))
      && (k < |text| ==> r == Err(answer(k).error) && sent == [NodeCall("DOM.focus", backendNodeId)] + CharEvents(text[..k + 1]))
  {
    sent := [NodeCall("DOM.focus", backendNodeId)];
    if focusReply.Err? {
      return Err(focusReply.error), sent;
    }
    ghost var k := FirstFailure(answer, |text|);
    var i := 0;
    while i < |text|
      invariant 0 <= i <= |text| && i <= k
      invariant sent == [NodeCall("DOM.focus", backendNodeId)] + CharEvents(text[..i])
    {
      sent := sent + [CharEvent(text[i])];
      assert text[..i + 1] == text[..i] + [text[i]];
      if answer(i).Err? {
        return Err(answer(i).error), sent;
      }
      i := i + 1;
    }
    assert text[..i] == text;
    r := Ok(());
  }
}
