// The element gRPC service (src/services/element/service.rs): the
// translation of selector codes, the rendering of script results as text,
// the reply shapes of the handlers, their argument checks and defaults.
// Each handler runs scripts on the page; the page's answers (already
// rendered as text) and the parsing of JSON text are parameters.

module ElementService {
  import opened Wrappers
  import opened Errors
  import opened Json
  import opened Decimal
  import opened Traits
  import opened ProtoError
  import Grpc
  import ElementFinder

  // ------------------------------------------------------------ selectors

  /** The protocol's selector codes. */
  function SelectorCode(t: SelectorType): int
  {
    match t
    case Css => 1
    case XPath => 2
    case Text => 3
  }

  /** convert_selector_type: 1, 2 and 3 are CSS, XPath and text; any other code fails with Internal. */
  function ConvertSelectorType(code: int): (r: Result<SelectorType, Error>)
    ensures r.Ok? <==> 1 <= code <= 3
    ensures r.Ok? ==> SelectorCode(r.value) == code
    ensures r.Err? ==> r.error == Error.Internal("Invalid selector type: " + IntText(code))
  {
    if code == 1 then Ok(Css)
    else if code == 2 then Ok(XPath)
    else if code == 3 then Ok(Text)
    else Err(Error.Internal("Invalid selector type: " + IntText(code)))
  }

  /** Every selector type survives the trip through its code. */
  lemma SelectorCodeRoundTrip(t: SelectorType)
    ensures ConvertSelectorType(SelectorCode(t)) == Ok(t)
  {
  }

  // ------------------------------------------------------------ script results

  /** execute_script's rendering of a result: a string as itself, a number and a boolean as their display text, anything else as "". The display of a floating-point number is a parameter. */
  function ScriptText(r: EvaluationResult, numberText: real -> string): (t: string)
    ensures r.String? ==> t == r.s
    ensures r.Bool? ==> t == (if r.b then "true" else "false")
    ensures r.Number? ==> t == numberText(r.n)
    ensures r.Null? || r.Object? ==> t == ""
  {
    match r
    case String(s) => s
    case Number(n) => numberText(n)
    case Bool(b) => if b then "true" else "false"
    case _ => ""
  }

  /** The rendering cannot tell a missing result from an empty string, nor a boolean from its spelling as a string. */
  lemma ScriptTextConflates(v: Json, numberText: real -> string, b: bool)
    ensures ScriptText(Null, numberText) == ScriptText(Object(v), numberText) == ScriptText(String(""), numberText)
    ensures ScriptText(Bool(b), numberText) == ScriptText(String(if b then "true" else "false"), numberText)
  {
  }

  /** get_page as the service uses it: a PageNotFound from the session manager is restated with the requested id; any other error passes unchanged. */
  function PageLookupError(e: Error, pageId: string): (r: Error)
    ensures KindOf(r) == KindOf(e)
    ensures e.PageNotFound? ==> r == PageNotFound(pageId)
    ensures !e.PageNotFound? ==> r == e
  {
    if e.PageNotFound? then PageNotFound(pageId) else e
  }

  // ------------------------------------------------------------ simple operations

  /** The reply of click, type, fill, hover, focus, select_option, scroll_into_view and the key script of press_key: success, or an error carrying the code ElementNotFound and the error's display text, whatever the cause. */
  function SimpleOp(result: Result<string, Error>): (r: Result<(), ProtoErr>)
    ensures r.Ok? <==> result.Ok?
    ensures result.Err? ==> r.error == ProtoErr(ErrorCode.ElementNotFound, Display(result.error), map[])
  {
    match result
    case Ok(_) => Ok(())
    case Err(e) => Err(ProtoErr(ErrorCode.ElementNotFound, Display(e), map[]))
  }

  /** The code of a failed simple operation says nothing of its cause, but the cause can still be read back from the message. */
  lemma SimpleOpKeepsCause(e: Error)
    ensures SimpleOp(Err(e)).error.code == ErrorCode.ElementNotFound
    ensures ParseDisplay(SimpleOp(Err(e)).error.message) == Some((KindOf(e), Detail(e)))
  {
    ParseDisplayOfDisplay(e);
  }

  // ------------------------------------------------------------ attributes

  /** get_attributes' pairing of the flat [name, value, ...] list: consecutive pairs, an odd trailing entry dropped. */
  function PairAttributes(flat: seq<string>): (r: seq<(string, string)>)
    ensures |r| == |flat| / 2
    ensures forall i :: 0 <= i < |r| ==> r[i] == (flat[2 * i], flat[2 * i + 1])
  {
    if |flat| < 2 then []
    else [(flat[0], flat[1])] + PairAttributes(flat[2..])
  }

  /** The pairs written out flat again, name before value. */
  function Flatten(ps: seq<(string, string)>): (flat: seq<string>)
    ensures |flat| == 2 * |ps|
  {
    if ps == [] then [] else [ps[0].0, ps[0].1] + Flatten(ps[1..])
  }

  /** Pairing undoes flattening. */
  lemma {:induction false} PairFlatten(ps: seq<(string, string)>)
    ensures PairAttributes(Flatten(ps)) == ps
  {
    if ps != [] {
      PairFlatten(ps[1..]);
      assert Flatten(ps)[2..] == Flatten(ps[1..]);
    }
  }

  /** Flattening the pairs gives the list back, short of an odd trailing entry. */
  lemma {:induction false} FlattenPair(flat: seq<string>)
    ensures Flatten(PairAttributes(flat)) == flat[..2 * (|flat| / 2)]
  {
    if |flat| >= 2 {
      FlattenPair(flat[2..]);
      var ps := PairAttributes(flat);
      assert ps[1..] == PairAttributes(flat[2..]);
      assert flat[..2 * (|flat| / 2)] == [flat[0], flat[1]] + flat[2..][..2 * (|flat[2..]| / 2)];
    }
  }

  /** get_attributes: a failed script is an ElementNotFound reply; otherwise the script's text is read as a list of strings (text that does not read as one gives no attributes) and paired. */
  function AttributesReply(script: Result<string, Error>, parse: string -> Option<seq<string>>): (r: Result<seq<(string, string)>, ProtoErr>)
    ensures script.Err? ==> r == Err(ProtoErr(ErrorCode.ElementNotFound, Display(script.error), map[]))
    ensures script.Ok? && parse(script.value).None? ==> r == Ok([])
    ensures script.Ok? && parse(script.value).Some? ==> r == Ok(PairAttributes(parse(script.value).value))
  {
    match script
    case Err(e) => Err(ProtoErr(ErrorCode.ElementNotFound, Display(e), map[]))
    case Ok(text) => Ok(PairAttributes(UnwrapOr(parse(text), [])))
  }

  // ------------------------------------------------------------ finding

  /** The element reference a reply carries. */
  datatype ElementRefMsg = ElementRefMsg(pageId: string, elementId: string, selectorType: int, selector: string, index: int)

  /** find_elements' limit: passed on only when positive. */
  function FindLimit(limit: int): (l: Option<nat>)
    ensures l.Some? <==> limit > 0
    ensures l.Some? ==> l.value == limit
  {
    if limit > 0 then Some(limit) else None
  }

  /** find_elements' numbering of the elements found: references 0 to n - 1, in order, carrying the request's page, selector code and selector. */
  function NumberRefs(pageId: string, code: int, selector: string, elements: seq<ElementInfo>): (refs: seq<ElementRefMsg>)
    ensures |refs| == |elements|
    ensures forall i :: 0 <= i < |refs| ==> refs[i] == ElementRefMsg(pageId, elements[i].elementId, code, selector, i)
  {
    seq(|elements|, i requires 0 <= i < |elements| => ElementRefMsg(pageId, elements[i].elementId, code, selector, i))
  }

  /** find_elements: a failed page lookup ends the call with its status, before the selector code is read; then an unknown selector code ends the call with a status; a finder failure is an ElementNotFound reply; otherwise the found elements are numbered in order, and a positive limit bounds their number. */
  method FindElements(pageId: string, lookup: Result<(), Error>, code: int, selector: string, limit: int,
                      resp: Result<EvaluationResult, Error>, parse: string -> Result<seq<ElementInfo>, string>)
    returns (r: Result<Result<seq<ElementRefMsg>, ProtoErr>, Grpc.Status>)
    ensures lookup.Err? ==> r == Err(ToStatus(PageLookupError(lookup.error, pageId)))
    ensures lookup.Ok? && ConvertSelectorType(code).Err? ==> r == Err(ToStatus(ConvertSelectorType(code).error))
    ensures r.Ok? ==> lookup.Ok? && ConvertSelectorType(code).Ok?
    ensures r.Ok? && r.value.Err? ==> r.value.error.code == ErrorCode.ElementNotFound
    ensures r.Ok? && r.value.Ok? ==>
      && (forall i :: 0 <= i < |r.value.value| ==> r.value.value[i].index == i && r.value.value[i].pageId == pageId)
      && (limit > 0 ==> |r.value.value| <= limit)
    ensures lookup.Ok? && ConvertSelectorType(code).Ok? && resp.Err? ==>
      r == Ok(Err(ProtoErr(ErrorCode.ElementNotFound, Display(resp.error), map[])))
    ensures lookup.Ok? && ConvertSelectorType(code).Ok? && resp.Ok? && !resp.value.String? ==>
      r == Ok(Err(ProtoErr(ErrorCode.ElementNotFound, Display(Error.Internal("Invalid elements result")), map[])))
    ensures lookup.Ok? && ConvertSelectorType(code).Ok? && resp.Ok? && resp.value.String? && parse(resp.value.s).Err? ==>
      r == Ok(Err(ProtoErr(ErrorCode.ElementNotFound,
                           Display(Error.Internal("Failed to parse elements: " + parse(resp.value.s).error)), map[])))
    ensures lookup.Ok? && ConvertSelectorType(code).Ok? && resp.Ok? && resp.value.String? && parse(resp.value.s).Ok? ==>
      var all := parse(resp.value.s).value;
      r == Ok(Ok(NumberRefs(pageId, code, selector, all[..if 0 < limit < |all| then limit else |all|])))
  {
    if lookup.Err? {
      return Err(ToStatus(PageLookupError(lookup.error, pageId)));
    }
    var t := ConvertSelectorType(code);
    if t.Err? {
      return Err(ToStatus(t.error));
    }
    var found := ElementFinder.FindElements(resp, parse, FindLimit(limit));
    if found.Err? {
      return Ok(Err(ProtoErr(ErrorCode.ElementNotFound, Display(found.error), map[])));
    }
    PrefixIsSlice(found.value, parse(resp.value.s).value);
    r := Ok(Ok(NumberRefs(pageId, code, selector, found.value)));
  }

  lemma PrefixIsSlice<T>(a: seq<T>, b: seq<T>)
    requires a <= b
    ensures a == b[..|a|]
  {
  }

  /** wait_for_element's timeout: the requested one when positive, else 30000 ms; a wait is never unbounded or zero. */
  function WaitTimeout(timeout: int): (ms: nat)
    ensures ms > 0
    ensures timeout > 0 ==> ms == timeout
    ensures timeout <= 0 ==> ms == 30000
  {
    if timeout > 0 then timeout else 30000
  }

  // ------------------------------------------------------------ argument checks

  /** select_option: at least one value is required, and only the first is used. */
  function SelectOptionValue(values: seq<string>): (r: Result<string, ProtoErr>)
    ensures r.Ok? <==> values != []
    ensures r.Ok? ==> r.value == values[0]
    ensures r.Err? ==> r.error == ProtoErr(ErrorCode.InvalidArgument, "At least one value must be provided", map[])
  {
    if values == [] then Err(ProtoErr(ErrorCode.InvalidArgument, "At least one value must be provided", map[]))
    else Ok(values[0])
  }

  /** press_key: an empty key is refused before anything runs; the focus script runs next, and its failure ends the call; only then does the key script run. */
  function PressKeyReply(key: string, focus: Result<string, Error>, press: Result<string, Error>): (r: Result<(), ProtoErr>)
    ensures key == "" ==> r == Err(ProtoErr(ErrorCode.InvalidArgument, "Key must not be empty", map[]))
    ensures key != "" && focus.Err? ==> r == Err(ProtoErr(ErrorCode.ElementNotFound, "Failed to focus element: " + Display(focus.error), map[]))
    ensures r.Ok? <==> key != "" && focus.Ok? && press.Ok?
  {
    if key == "" then Err(ProtoErr(ErrorCode.InvalidArgument, "Key must not be empty", map[]))
    else if focus.Err? then Err(ProtoErr(ErrorCode.ElementNotFound, "Failed to focus element: " + Display(focus.error), map[]))
    else SimpleOp(press)
  }

  /** upload_file: at least one path is required; then the element is looked up, and nothing is uploaded. */
  function UploadReply(paths: seq<string>, lookup: Result<string, Error>): (r: Result<(), ProtoErr>)
    ensures paths == [] ==> r == Err(ProtoErr(ErrorCode.InvalidArgument, "At least one file path must be provided", map[]))
    ensures r.Ok? <==> paths != [] && lookup.Ok?
  {
    if paths == [] then Err(ProtoErr(ErrorCode.InvalidArgument, "At least one file path must be provided", map[]))
    else SimpleOp(lookup)
  }

  // ------------------------------------------------------------ JSON replies

  /** `value[key].as_bool()`. */
  function BoolField(j: Json, key: string): (r: Option<bool>)
    ensures r.Some? <==> Get(j, key).Some? && Get(j, key).value.JBool?
  {
    match Get(j, key)
    case Some(JBool(b)) => Some(b)
    case _ => None
  }

  /** is_visible's reading of the script's JSON: text that is not JSON counts as not visible; a missing or non-boolean "visible" field also counts as not visible, and a missing reason is "". */
  function VisibilityReply(parsed: Option<Json>): (r: (bool, string))
    ensures parsed.None? ==> r == (false, "Failed to parse visibility result")
    ensures parsed.Some? ==> (r.0 <==> BoolField(parsed.value, "visible") == Some(true))
    ensures parsed.Some? ==> r.1 == UnwrapOr(StrField(parsed.value, "reason"), "")
  {
    match parsed
    case None => (false, "Failed to parse visibility result")
    case Some(j) => (UnwrapOr(BoolField(j, "visible"), false), UnwrapOr(StrField(j, "reason"), ""))
  }

  /** is_enabled's reading: text that is not JSON counts as not enabled, but a missing or non-boolean "enabled" field counts as enabled. */
  function EnabledReply(parsed: Option<Json>): (r: (bool, string))
    ensures parsed.None? ==> r == (false, "Failed to parse enabled result")
    ensures parsed.Some? ==> (!r.0 <==> BoolField(parsed.value, "enabled") == Some(false))
    ensures parsed.Some? ==> r.1 == UnwrapOr(StrField(parsed.value, "reason"), "")
  {
    match parsed
    case None => (false, "Failed to parse enabled result")
    case Some(j) => (UnwrapOr(BoolField(j, "enabled"), true), UnwrapOr(StrField(j, "reason"), ""))
  }

  /** The two readings default in opposite directions on an answer without its field. */
  lemma MissingFieldDefaults()
    ensures VisibilityReply(Some(JObject(map[]))).0 == false
    ensures EnabledReply(Some(JObject(map[]))).0 == true
  {
  }

  /** get_properties' reading of the script's JSON object: every field, its string value or "" when it is not a string; anything else gives no properties. */
  function PropertiesReply(parsed: Option<Json>): (props: map<string, string>)
    ensures parsed.None? || !parsed.value.JObject? ==> props == map[]
    ensures parsed.Some? && parsed.value.JObject? ==>
      && props.Keys == parsed.value.fields.Keys
      && forall k :: k in props ==> props[k] == UnwrapOr(AsStr(parsed.value.fields[k]), "")
  {
    match parsed
    case Some(JObject(fields)) => map k | k in fields :: UnwrapOr(AsStr(fields[k]), "")
    case _ => map[]
  }

  /** get_properties: at least one name is required; a failed script is an ElementNotFound reply. */
  function PropertiesCall(names: seq<string>, script: Result<string, Error>, parse: string -> Option<Json>): (r: Result<map<string, string>, ProtoErr>)
    ensures names == [] ==> r == Err(ProtoErr(ErrorCode.InvalidArgument, "At least one property name must be provided", map[]))
    ensures names != [] && script.Err? ==> r == Err(ProtoErr(ErrorCode.ElementNotFound, Display(script.error), map[]))
    ensures names != [] && script.Ok? ==> r == Ok(PropertiesReply(parse(script.value)))
  {
    if names == [] then Err(ProtoErr(ErrorCode.InvalidArgument, "At least one property name must be provided", map[]))
    else match script
      case Err(e) => Err(ProtoErr(ErrorCode.ElementNotFound, Display(e), map[]))
      case Ok(text) => Ok(PropertiesReply(parse(text)))
  }
}
