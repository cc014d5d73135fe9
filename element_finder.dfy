// The element finder (src/services/element/finder.rs): the scripts that
// locate one element or all matching elements by CSS selector, XPath or
// text, the handling of what the page hands back, and the polling wait for
// an element. The scripts are modelled twice: as written, where the
// selector is escaped for the wrong quote, and as evidently intended, where
// the selector enters as a literal that reads back as itself.

module ElementFinder {
  import opened Wrappers
  import opened Errors
  import opened Decimal
  import opened JsText
  import opened JsBuilder
  import opened Traits

  // ------------------------------------------------------------ script texts

  /** The CSS query method: both are querySelector, and the All form is taken iff several elements are wanted. */
  function CssMethod(multiple: bool): (r: string)
    ensures |r| >= 13 && r[..13] == "querySelector" && (|r| > 13 <==> multiple)
  {
    if multiple then "querySelectorAll" else "querySelector"
  }

  function CssAllPre(): string { "\n                (() => {\n                    const elements = document." }
  function CssOnePre(): string { "\n                (() => {\n                    const el = document." }
  function CssAllTail(): string { ");\n                    const results = [];\n                    for (let i = 0; i < elements.length; i++) {\n                        const el = elements[i];\n                        results.push({\n                            element_id: el.id || 'css-' + i,\n                            tag_name: el.tagName.toLowerCase(),\n                            text_content: el.textContent ? el.textContent.substring(0, 100) : null\n                        });\n                    }\n                    return JSON.stringify(results);\n                })()\n                " }
  function CssOneTail(): string { ");\n                    if (!el) return null;\n                    return JSON.stringify({\n                        element_id: el.id || 'css-single',\n                        tag_name: el.tagName.toLowerCase(),\n                        text_content: el.textContent ? el.textContent.substring(0, 100) : null\n                    });\n                })()\n                " }
  function XPathHead(): string { "\n                (() => {\n                    const result = document.evaluate(" }
  function XPathAllTail(): string { ", document, null, XPathResult.ORDERED_NODE_SNAPSHOT_TYPE, null);\n                    const results = [];\n                    for (let i = 0; i < result.snapshotLength; i++) {\n                        const el = result.snapshotItem(i);\n                        results.push({\n                            element_id: el.id || 'xpath-' + i,\n                            tag_name: el.tagName.toLowerCase(),\n                            text_content: el.textContent ? el.textContent.substring(0, 100) : null\n                        });\n                    }\n                    return JSON.stringify(results);\n                })()\n                " }
  function XPathOneTail(): string { ", document, null, XPathResult.FIRST_ORDERED_NODE_TYPE, null);\n                    const el = result.singleNodeValue;\n                    if (!el) return null;\n                    return JSON.stringify({\n                        element_id: el.id || 'xpath-single',\n                        tag_name: el.tagName.toLowerCase(),\n                        text_content: el.textContent ? el.textContent.substring(0, 100) : null\n                    });\n                })()\n                " }
  function TextHead(): string { "\n                (() => {\n                    const walker = document.createTreeWalker(\n                        document.body,\n                        NodeFilter.SHOW_TEXT,\n                        {\n                            acceptNode: (node) => {\n                                return node.textContent.includes(" }
  function TextAllTail(): string { ") ? NodeFilter.FILTER_ACCEPT : NodeFilter.FILTER_REJECT;\n                            }\n                        }\n                    );\n                    const results = [];\n                    let node;\n                    let i = 0;\n                    while (node = walker.nextNode()) {\n                        const el = node.parentElement;\n                        if (el) {\n                            results.push({\n                                element_id: el.id || 'text-' + i,\n                                tag_name: el.tagName.toLowerCase(),\n                                text_content: el.textContent ? el.textContent.substring(0, 100) : null\n                            });\n                            i++;\n                        }\n                    }\n                    return JSON.stringify(results);\n                })()\n                " }
  function TextOneTail(): string { ") ? NodeFilter.FILTER_ACCEPT : NodeFilter.FILTER_REJECT;\n                            }\n                        }\n                    );\n                    let node;\n                    while (node = walker.nextNode()) {\n                        const el = node.parentElement;\n                        if (el) {\n                            return JSON.stringify({\n                                element_id: el.id || 'text-single',\n                                tag_name: el.tagName.toLowerCase(),\n                                text_content: el.textContent ? el.textContent.substring(0, 100) : null\n                            });\n                        }\n                    }\n                    return null;\n                })()\n                " }

  /** The script up to the opening quote of the selector literal. */
  function ScriptHead(t: SelectorType, multiple: bool): string
  {
    match t
    case Css => (if multiple then CssAllPre() else CssOnePre()) + CssMethod(multiple) + "("
    case XPath => XPathHead()
    case Text => TextHead()
  }

  /** The script after the closing quote of the selector literal. */
  function ScriptTail(t: SelectorType, multiple: bool): string
  {
    match t
    case Css => if multiple then CssAllTail() else CssOneTail()
    case XPath => if multiple then XPathAllTail() else XPathOneTail()
    case Text => if multiple then TextAllTail() else TextOneTail()
  }

  /** A finder script: the text before the selector literal and the text after it. */
  datatype Template = Template(head: string, tail: string)

  /** The script for a selector type, for one element or for all of them. */
  function ScriptTemplate(t: SelectorType, multiple: bool): Template
  {
    Template(ScriptHead(t, multiple), ScriptTail(t, multiple))
  }

  // ------------------------------------------------------------ the scripts as written

  /** The escaping each builder applies: the CSS builder escapes single quotes only, the XPath and text builders backslashes and double quotes only. */
  function EscapeAsWritten(t: SelectorType, s: string): string
  {
    match t
    case Css => Replace(s, '\'', "\\'")
    case _ => Replace(Replace(s, '\\', "\\\\"), '"', "\\\"")
  }

  /** The finder script as the builders write it: the escaped selector between single quotes. */
  function ScriptAsWritten(tpl: Template, t: SelectorType, s: string): string
  {
    tpl.head + "'" + EscapeAsWritten(t, s) + "'" + tpl.tail
  }

  /** As written, no CSS script carries the selector made of one backslash: the backslash escapes the closing quote, so what the page reads starts with a quote and is not the selector. */
  lemma CssBackslashNotCarried(tpl: Template)
    ensures ReadLiteral(ScriptAsWritten(tpl, Css, "\\")[|tpl.head| + 1..], '\'') != Some(("\\", tpl.tail))
  {
    assert EscapeAsWritten(Css, "\\") == "\\";
    var s := ScriptAsWritten(tpl, Css, "\\")[|tpl.head| + 1..];
    assert s == ['\\', '\''] + tpl.tail;
    assert s[2..] == tpl.tail;
  }

  /** As written, no XPath or text script carries a selector holding a single quote: the literal ends at the selector's first quote, and the rest of the selector runs as code. The repository's own example //button[@type='submit'] is cut to //button[@type= this way. */
  lemma XPathQuoteNotCarried(tpl: Template, t: SelectorType, p: string, rest: string)
    requires t != Css
    requires forall i :: 0 <= i < |p| ==> p[i] != '\'' && p[i] != '\\' && p[i] != '"' && !LineTerminator(p[i])
    requires '\\' !in rest && '"' !in rest
    ensures ReadLiteral(ScriptAsWritten(tpl, t, p + "'" + rest)[|tpl.head| + 1..], '\'')
         == Some((p, rest + "'" + tpl.tail))
  {
    var x := p + "'" + rest;
    var q := "'" + (rest + "'" + tpl.tail);
    assert ScriptAsWritten(tpl, t, x)[|tpl.head| + 1..] == p + q by {
      assert '\\' !in x && '"' !in x;
      assert EscapeAsWritten(t, x) == x;
    }
    ReadPlainPrefix(p, q, '\'');
    assert q[1..] == rest + "'" + tpl.tail;
    assert p + "" == p;
  }

  // ------------------------------------------------------------ the scripts as intended

  /** The finder script with the selector embedded by the general escaping helper: every single-line selector reads back as itself and the literal ends where the script text resumes. */
  function SelectorScript(tpl: Template, s: string): (r: string)
    ensures |r| > |tpl.head| && r[..|tpl.head|] == tpl.head
    ensures SingleLine(s) ==> ReadLiteral(r[|tpl.head| + 1..], '\'') == Some((s, tpl.tail))
  {
    Embed(tpl.head, s, tpl.tail)
  }

  /** The script find_element and find_elements evaluate. */
  function FinderScript(t: SelectorType, s: string, multiple: bool): string
  {
    SelectorScript(ScriptTemplate(t, multiple), s)
  }

  // ------------------------------------------------------------ results

  /** find_element, given the page's answer to its script, as written: a missing element (null) is reported as an invalid result. */
  function FindElementAsWritten(resp: Result<EvaluationResult, Error>, parse: string -> Result<ElementInfo, string>): (r: Result<ElementInfo, Error>)
    ensures resp == Ok(Null) ==> r == Err(Internal("Invalid element result"))
    ensures r.Err? ==> !r.error.ElementNotFound? || resp == Err(r.error)
  {
    if resp.Err? then Err(resp.error)
    else match resp.value
      case String(j) =>
        var e := parse(j);
        if e.Ok? then Ok(e.value) else Err(Internal("Failed to parse element: " + e.error))
      case _ => Err(Internal("Invalid element result"))
  }

  /** find_element, given the page's answer to FinderScript(t, sel, false), as evidently intended: null means the element is not there yet. */
  function FindElement(resp: Result<EvaluationResult, Error>, parse: string -> Result<ElementInfo, string>, sel: string): (r: Result<ElementInfo, Error>)
    ensures r.Ok? <==> resp.Ok? && resp.value.String? && parse(resp.value.s).Ok?
    ensures r.Ok? ==> r == Ok(parse(resp.value.s).value)
    ensures resp.Err? ==> r == Err(resp.error)
    ensures resp == Ok(Null) ==> r == Err(ElementNotFound(sel))
    ensures resp.Ok? && resp.value.String? && parse(resp.value.s).Err? ==>
      r == Err(Internal("Failed to parse element: " + parse(resp.value.s).error))
    ensures resp.Ok? && !resp.value.String? && !resp.value.Null? ==> r == Err(Internal("Invalid element result"))
  {
    if resp == Ok(Null) then Err(ElementNotFound(sel)) else FindElementAsWritten(resp, parse)
  }

  /** find_elements, given the page's answer to FinderScript(t, sel, true): the JSON array parsed, and the list cut to the limit when one is given. */
  method FindElements(resp: Result<EvaluationResult, Error>, parse: string -> Result<seq<ElementInfo>, string>,
                      limit: Option<nat>) returns (r: Result<seq<ElementInfo>, Error>)
    ensures r.Ok? <==> resp.Ok? && resp.value.String? && parse(resp.value.s).Ok?
    ensures resp.Err? ==> r == Err(resp.error)
    ensures resp.Ok? && !resp.value.String? ==> r == Err(Internal("Invalid elements result"))
    ensures resp.Ok? && resp.value.String? && parse(resp.value.s).Err? ==>
      r == Err(Internal("Failed to parse elements: " + parse(resp.value.s).error))
    ensures r.Ok? ==>
      var all := parse(resp.value.s).value;
      && r.value <= all
      && |r.value| == (if limit.Some? && limit.value < |all| then limit.value else |all|)
  {
    if resp.Err? {
      return Err(resp.error);
    }
    if !resp.value.String? {
      return Err(Internal("Invalid elements result"));
    }
    var parsed := parse(resp.value.s);
    if parsed.Err? {
      return Err(Internal("Failed to parse elements: " + parsed.error));
    }
    var elements := parsed.value;
    if limit.Some? && limit.value < |elements| {
      elements := elements[..limit.value];
    }
    return Ok(elements);
  }

  // ------------------------------------------------------------ waiting

  /** Only an ElementNotFound failure makes the wait poll again. */
  predicate Retried(o: Result<ElementInfo, Error>)
  {
    o.Err? && o.error.ElementNotFound?
  }

  /** Attempts i to k-1 all started before the deadline and were retried. */
  predicate PolledUntil(outcomes: seq<Result<ElementInfo, Error>>, clock: seq<nat>, timeout: nat, i: nat, k: nat)
    requires i <= k <= |outcomes| && |clock| == |outcomes| + 1
  {
    forall j :: i <= j < k ==> clock[j] < timeout && Retried(outcomes[j])
  }

  /** The error reported when the deadline passes. */
  function Expired(t: SelectorType, sel: string, timeout: nat): Error
  {
    Timeout("Element not found within " + NatText(timeout) + "ms: " + SelectorTypeName(t) + " " + sel)
  }

  /** The outcome of the wait from attempt i on, given each attempt's outcome and the elapsed time read before it; the last reading is past the deadline. The wait ends at the first attempt that is not retried, or when the deadline has passed. */
  function WaitFrom(outcomes: seq<Result<ElementInfo, Error>>, clock: seq<nat>, timeout: nat, expired: Error, i: nat): (r: Result<ElementInfo, Error>)
    requires |clock| == |outcomes| + 1 && i <= |outcomes| && clock[|outcomes|] >= timeout
    ensures exists k :: (i <= k <= |outcomes| && PolledUntil(outcomes, clock, timeout, i, k) &&
      (if clock[k] >= timeout then r == Err(expired) else k < |outcomes| && !Retried(outcomes[k]) && r == outcomes[k]))
    decreases |outcomes| - i
  {
    if clock[i] >= timeout then
      assert PolledUntil(outcomes, clock, timeout, i, i);
      Err(expired)
    else if Retried(outcomes[i]) then
      var r := WaitFrom(outcomes, clock, timeout, expired, i + 1);
      var k :| i + 1 <= k <= |outcomes| && PolledUntil(outcomes, clock, timeout, i + 1, k) &&
        (if clock[k] >= timeout then r == Err(expired) else k < |outcomes| && !Retried(outcomes[k]) && r == outcomes[k]);
      assert PolledUntil(outcomes, clock, timeout, i, k);
      r
    else
      assert PolledUntil(outcomes, clock, timeout, i, i);
      outcomes[i]
  }

  /** Each attempt's outcome, from the page's answer at that time. */
  function Outcomes(responses: seq<Result<EvaluationResult, Error>>, parse: string -> Result<ElementInfo, string>, sel: string): (r: seq<Result<ElementInfo, Error>>)
    ensures |r| == |responses| && forall i :: 0 <= i < |r| ==> r[i] == FindElement(responses[i], parse, sel)
  {
    seq(|responses|, i requires 0 <= i < |responses| => FindElement(responses[i], parse, sel))
  }

  /** Each attempt's outcome as written. */
  function OutcomesAsWritten(responses: seq<Result<EvaluationResult, Error>>, parse: string -> Result<ElementInfo, string>): (r: seq<Result<ElementInfo, Error>>)
    ensures |r| == |responses| && forall i :: 0 <= i < |r| ==> r[i] == FindElementAsWritten(responses[i], parse)
  {
    seq(|responses|, i requires 0 <= i < |responses| => FindElementAsWritten(responses[i], parse))
  }

  /** wait_for_element: poll find_element until it finds the element, fails otherwise than with ElementNotFound, or the deadline passes. responses[i] is the page's answer to attempt i and clock[i] the elapsed time read before it. */
  method WaitForElement(t: SelectorType, sel: string, timeout: nat, responses: seq<Result<EvaluationResult, Error>>,
                        clock: seq<nat>, parse: string -> Result<ElementInfo, string>) returns (r: Result<ElementInfo, Error>)
    requires |clock| == |responses| + 1 && clock[|responses|] >= timeout
    ensures r == WaitFrom(Outcomes(responses, parse, sel), clock, timeout, Expired(t, sel, timeout), 0)
  {
    ghost var outcomes := Outcomes(responses, parse, sel);
    var i := 0;
    while clock[i] < timeout
      invariant i <= |responses|
      invariant WaitFrom(outcomes, clock, timeout, Expired(t, sel, timeout), i)
             == WaitFrom(outcomes, clock, timeout, Expired(t, sel, timeout), 0)
      decreases |responses| - i
    {
      var o := FindElement(responses[i], parse, sel);
      if o.Ok? {
        return o;
      } else if o.error.ElementNotFound? {
        i := i + 1;
      } else {
        return o;
      }
    }
    r := Err(Expired(t, sel, timeout));
  }

  /** As written, a wait whose first attempt runs before the deadline and finds no element yet fails at once with the invalid-result error, whatever the later attempts would find. */
  lemma WaitAsWrittenGivesUp(responses: seq<Result<EvaluationResult, Error>>, clock: seq<nat>, timeout: nat, expired: Error,
                             parse: string -> Result<ElementInfo, string>)
    requires |clock| == |responses| + 1 && clock[|responses|] >= timeout
    requires |responses| > 0 && responses[0] == Ok(Null) && clock[0] < timeout
    ensures WaitFrom(OutcomesAsWritten(responses, parse), clock, timeout, expired, 0) == Err(Internal("Invalid element result"))
  {
  }

  /** As intended, a missing element is polled for: the wait goes on to the next attempt. */
  lemma WaitPollsMissingElement(responses: seq<Result<EvaluationResult, Error>>, clock: seq<nat>, timeout: nat, expired: Error,
                                parse: string -> Result<ElementInfo, string>, sel: string)
    requires |clock| == |responses| + 1 && clock[|responses|] >= timeout
    requires |responses| > 0 && responses[0] == Ok(Null) && clock[0] < timeout
    ensures WaitFrom(Outcomes(responses, parse, sel), clock, timeout, expired, 0)
         == WaitFrom(Outcomes(responses, parse, sel), clock, timeout, expired, 1)
  {
  }

  /** The element appears on the second poll, 100 ms in, within a 5000 ms wait: found as intended, while the wait as written has already failed. */
  lemma ElementAppearsLate(j: string, e: ElementInfo, parse: string -> Result<ElementInfo, string>, sel: string, expired: Error)
    requires parse(j) == Ok(e)
    ensures WaitFrom(Outcomes([Ok(Null), Ok(String(j))], parse, sel), [0, 100, 5000], 5000, expired, 0) == Ok(e)
    ensures WaitFrom(OutcomesAsWritten([Ok(Null), Ok(String(j))], parse), [0, 100, 5000], 5000, expired, 0)
         == Err(Internal("Invalid element result"))
  {
  }
}
