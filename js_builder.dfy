// The script builder of the element service (src/services/element/js_utils.rs):
// the general escaping helper, the three ways of locating an element, the
// wrapper that runs code on the located element, and the scripts built on
// it. Every caller string enters a script only as a single-quoted literal
// produced by the escaping helper; the lemmas read those literals back.

module JsBuilder {
  import opened Wrappers
  import opened Errors
  import opened Decimal
  import opened JsText

  /** A builder: the selector type (1 CSS, 2 XPath, 3 text) and the selector. */
  datatype Builder = Builder(selectorType: int, selector: string)

  /** escape_js_str: backslashes doubled first, then single and double quotes escaped; the chain is the one-pass escape of the three characters. */
  function EscapeJsStr(s: string): (r: string)
    ensures r == EscapeAll(s, JsSpecials)
  {
    ReplaceBackslash(s);
    ReplaceAfterEscape(s, {'\\'}, '\'');
    assert {'\\'} + {'\''} == {'\\', '\''};
    ReplaceAfterEscape(s, {'\\', '\''}, '"');
    assert {'\\', '\''} + {'"'} == JsSpecials;
    assert "\\'" == ['\\', '\''] && "\\\"" == ['\\', '"'];
    Replace(Replace(Replace(s, '\\', "\\\\"), '\'', "\\'"), '"', "\\\"")
  }

  /** Whichever quote the script then uses, a literal made by escape_js_str reads back as the original single-line string. */
  lemma EscapeJsStrReadsBack(s: string, q: char, tail: string)
    requires q == '\'' || q == '"'
    requires SingleLine(s)
    ensures ReadLiteral(EscapeJsStr(s) + [q] + tail, q) == Some((s, tail))
  {
    ReadEscaped(s, JsSpecials, q, tail);
  }

  /** A caller string as the single-quoted literal the builders write. */
  function Lit(v: string): (r: string)
    ensures r == Quoted(v, '\'')
  {
    "'" + EscapeJsStr(v) + "'"
  }

  /** Fixed code, a caller string as a literal, more code: the only way a builder puts caller input into a script. Read from just after head, the literal gives the string back and ends where tail begins. */
  function Embed(head: string, v: string, tail: string): (r: string)
    ensures |r| > |head| && r[..|head|] == head
    ensures SingleLine(v) ==> ReadLiteral(r[|head| + 1..], '\'') == Some((v, tail))
  {
    var r := head + Lit(v) + tail;
    if SingleLine(v) then QuotedReadsBack(r, head, v, '\'', tail); r else r
  }

  /** The text of each query before the selector literal. */
  function QueryPrefix(t: int): string
    requires t in {1, 2, 3}
  {
    if t == 1 then "document.querySelector("
    else if t == 2 then "document.evaluate("
    else "(() => { const walker = document.createTreeWalker(document.body, NodeFilter.SHOW_TEXT, { acceptNode: (node) => node.textContent.includes("
  }

  /** The text of each query after the selector literal. */
  function QuerySuffix(t: int): string
    requires t in {1, 2, 3}
  {
    if t == 1 then ")"
    else if t == 2 then ", document, null, XPathResult.FIRST_ORDERED_NODE_TYPE, null).singleNodeValue"
    else ") ? NodeFilter.FILTER_ACCEPT : NodeFilter.FILTER_REJECT } ); let node; while (node = walker.nextNode()) { return node.parentElement; } return null; })()"
  }

  /** element_query: querySelector, an XPath evaluation or a text-node walk, by selector type; any other type is refused. */
  function ElementQuery(b: Builder): (r: Result<string, Error>)
    ensures r.Err? <==> b.selectorType !in {1, 2, 3}
    ensures r.Err? ==> r.error == Internal("Invalid selector type: " + IntText(b.selectorType))
  {
    if b.selectorType in {1, 2, 3} then
      Ok(Embed(QueryPrefix(b.selectorType), b.selector, QuerySuffix(b.selectorType)))
    else
      Err(Internal("Invalid selector type: " + IntText(b.selectorType)))
  }

  /** The head of the wrapper: the located element, and an early null when it is missing. */
  function Guard(query: string): string
  {
    "(() => { const el = " + query + "; if (!el) return null; "
  }

  /** execute_on_element: the code runs after the null guard inside an immediately invoked function; a refused selector type is passed on. */
  function ExecuteOnElement(b: Builder, code: string): (r: Result<string, Error>)
    ensures r.Err? <==> b.selectorType !in {1, 2, 3}
    ensures r.Err? ==> r.error == ElementQuery(b).error
    ensures r.Ok? ==> r.value == Guard(ElementQuery(b).value) + code + " })()"
  {
    var q := ElementQuery(b);
    if q.Err? then Err(q.error) else Ok(Guard(q.value) + code + " })()")
  }

  // ------------------------------------------------------------ code with caller input

  function HtmlProperty(outer: bool): string
  {
    if outer then "outerHTML" else "innerHTML"
  }

  function GetHtmlCode(outer: bool): string
  {
    "el." + HtmlProperty(outer) + " || ''"
  }

  function GetAttributeHead(): string { "el.getAttribute(" }
  function GetAttributeTail(): string { ") || ''" }

  function GetAttributeCode(name: string): string
  {
    Embed(GetAttributeHead(), name, GetAttributeTail())
  }

  function TypeTextHead(): string { "el.focus(); el.value = " }
  function TypeTextTail(): string { ";\n               el.dispatchEvent(new Event('input', {bubbles: true}));\n               el.dispatchEvent(new Event('change', {bubbles: true})); 'typed'" }

  function TypeTextCode(text: string): string
  {
    Embed(TypeTextHead(), text, TypeTextTail())
  }

  function ClearCall(clearFirst: bool): string
  {
    if clearFirst then "if (el.clear) el.clear();" else ""
  }

  function FillHead(clearFirst: bool): string
  {
    "el.focus(); " + ClearCall(clearFirst) + " el.value = "
  }

  function FillTail(): string { ";\n               el.dispatchEvent(new Event('input', {bubbles: true}));\n               el.dispatchEvent(new Event('change', {bubbles: true})); 'filled'" }

  function FillCode(value: string, clearFirst: bool): string
  {
    Embed(FillHead(clearFirst), value, FillTail())
  }

  function SelectHead(): string { "el.value = " }
  function SelectTail(): string { "; el.dispatchEvent(new Event('change', {bubbles: true})); 'selected'" }

  function SelectOptionCode(value: string): string
  {
    Embed(SelectHead(), value, SelectTail())
  }

  function ScrollBlock(alignToTop: bool): string
  {
    if alignToTop then "start" else "end"
  }

  function ScrollHead(): string { "el.scrollIntoView({behavior: 'smooth', block: " }
  function ScrollTail(): string { "}); 'scrolled'" }

  function ScrollCode(alignToTop: bool): string
  {
    ScrollHead() + "'" + ScrollBlock(alignToTop) + "'" + ScrollTail()
  }

  function KeyDownHead(): string { "el.dispatchEvent(new KeyboardEvent('keydown', {key: " }
  function KeyPressHead(): string { ", bubbles: true}));\n               el.dispatchEvent(new KeyboardEvent('keypress', {key: " }
  function KeyUpHead(): string { ", bubbles: true}));\n               el.dispatchEvent(new KeyboardEvent('keyup', {key: " }
  function KeyTail(): string { ", bubbles: true})); 'key_pressed'" }

  function PressKeyCode(key: string): string
  {
    Embed(KeyDownHead(), key, Embed(KeyPressHead(), key, Embed(KeyUpHead(), key, KeyTail())))
  }

  // ------------------------------------------------------------ the scripts

  function GetHtmlScript(b: Builder, outer: bool): Result<string, Error> { ExecuteOnElement(b, GetHtmlCode(outer)) }
  function GetAttributeScript(b: Builder, name: string): Result<string, Error> { ExecuteOnElement(b, GetAttributeCode(name)) }
  function TypeTextScript(b: Builder, text: string): Result<string, Error> { ExecuteOnElement(b, TypeTextCode(text)) }
  function FillScript(b: Builder, value: string, clearFirst: bool): Result<string, Error> { ExecuteOnElement(b, FillCode(value, clearFirst)) }
  function SelectOptionScript(b: Builder, value: string): Result<string, Error> { ExecuteOnElement(b, SelectOptionCode(value)) }
  function ScrollIntoViewScript(b: Builder, alignToTop: bool): Result<string, Error> { ExecuteOnElement(b, ScrollCode(alignToTop)) }
  function PressKeyScript(b: Builder, key: string): Result<string, Error> { ExecuteOnElement(b, PressKeyCode(key)) }

  // ------------------------------------------------------------ lemmas

  /** get_html_script reads outerHTML iff outer. */
  lemma HtmlPropertyChoice(outer: bool)
    ensures GetHtmlCode(outer)[3..12] == "outerHTML" <==> outer
  {
  }

  /** The fill script makes the clear call right after focusing the element, and that call is present iff clear_first. */
  lemma ClearChoice(v: string, clearFirst: bool)
    ensures |FillCode(v, clearFirst)| >= 12 + |ClearCall(clearFirst)|
    ensures FillCode(v, clearFirst)[12..12 + |ClearCall(clearFirst)|] == ClearCall(clearFirst)
    ensures |ClearCall(clearFirst)| > 0 <==> clearFirst
  {
    var c := ClearCall(clearFirst);
    var h := FillHead(clearFirst);
    var f := FillCode(v, clearFirst);
    assert f[..|h|] == h;
    Middle("el.focus(); ", c, " el.value = ");
    SliceOfPrefix(f, h, 12, 12 + |c|);
  }

  /** A script that runs fixed code, a caller string as a literal and more code on an accepted selector reads that string back from just after the guard and the fixed code; the rest of the script follows the literal. */
  lemma ScriptReadsBack(b: Builder, head: string, v: string, tail: string)
    requires b.selectorType in {1, 2, 3}
    requires SingleLine(v)
    ensures ExecuteOnElement(b, Embed(head, v, tail)).Ok?
    ensures var s := ExecuteOnElement(b, Embed(head, v, tail)).value;
      var at := |Guard(ElementQuery(b).value)| + |head| + 1;
      at <= |s| && ReadLiteral(s[at..], '\'') == Some((v, tail + " })()"))
  {
    var g := Guard(ElementQuery(b).value);
    var code := Embed(head, v, tail);
    assert ExecuteOnElement(b, code).value == g + (code + " })()");
    EmbedReadsBack(head, v, tail, " })()");
    SliceAfter(g, code + " })()", |head| + 1);
  }

  /** Fixed code, a literal and the rest, then more text: read from just after the code, the literal gives the string back with everything after it. */
  lemma EmbedReadsBack(head: string, v: string, tail: string, after: string)
    requires SingleLine(v)
    ensures |head| + 1 <= |Embed(head, v, tail) + after|
    ensures ReadLiteral((Embed(head, v, tail) + after)[|head| + 1..], '\'') == Some((v, tail + after))
  {
    var t := Embed(head, v, tail) + after;
    assert t == head + Lit(v) + (tail + after);
    QuotedReadsBack(t, head, v, '\'', tail + after);
  }

  lemma SliceAfter(g: string, x: string, k: nat)
    requires k <= |x|
    ensures (g + x)[|g| + k..] == x[k..]
  {
  }

  /** get_attribute_script: the attribute name reads back from the getAttribute call. */
  lemma GetAttributeReadsBack(b: Builder, name: string)
    requires b.selectorType in {1, 2, 3}
    requires SingleLine(name)
    ensures GetAttributeScript(b, name).Ok?
    ensures var s := GetAttributeScript(b, name).value;
      var at := |Guard(ElementQuery(b).value)| + |GetAttributeHead()| + 1;
      at <= |s| && ReadLiteral(s[at..], '\'') == Some((name, GetAttributeTail() + " })()"))
  {
    ScriptReadsBack(b, GetAttributeHead(), name, GetAttributeTail());
  }

  /** type_text_script: the text reads back as the value assigned to the element. */
  lemma TypeTextReadsBack(b: Builder, text: string)
    requires b.selectorType in {1, 2, 3}
    requires SingleLine(text)
    ensures TypeTextScript(b, text).Ok?
    ensures var s := TypeTextScript(b, text).value;
      var at := |Guard(ElementQuery(b).value)| + |TypeTextHead()| + 1;
      at <= |s| && ReadLiteral(s[at..], '\'') == Some((text, TypeTextTail() + " })()"))
  {
    ScriptReadsBack(b, TypeTextHead(), text, TypeTextTail());
  }

  /** fill_script: the value reads back as the value assigned to the element, after the optional clear call. */
  lemma FillReadsBack(b: Builder, value: string, clearFirst: bool)
    requires b.selectorType in {1, 2, 3}
    requires SingleLine(value)
    ensures FillScript(b, value, clearFirst).Ok?
    ensures var s := FillScript(b, value, clearFirst).value;
      var at := |Guard(ElementQuery(b).value)| + |FillHead(clearFirst)| + 1;
      at <= |s| && ReadLiteral(s[at..], '\'') == Some((value, FillTail() + " })()"))
  {
    ScriptReadsBack(b, FillHead(clearFirst), value, FillTail());
  }

  /** select_option_script: the option value reads back as the value assigned to the element. */
  lemma SelectOptionReadsBack(b: Builder, value: string)
    requires b.selectorType in {1, 2, 3}
    requires SingleLine(value)
    ensures SelectOptionScript(b, value).Ok?
    ensures var s := SelectOptionScript(b, value).value;
      var at := |Guard(ElementQuery(b).value)| + |SelectHead()| + 1;
      at <= |s| && ReadLiteral(s[at..], '\'') == Some((value, SelectTail() + " })()"))
  {
    ScriptReadsBack(b, SelectHead(), value, SelectTail());
  }

  /** press_key_script: the key reads back three times, as the key of the keydown, keypress and keyup events in that order. */
  lemma PressKeyReadsBack(b: Builder, key: string)
    requires b.selectorType in {1, 2, 3}
    requires SingleLine(key)
    ensures PressKeyScript(b, key).Ok?
    ensures var s := PressKeyScript(b, key).value;
      var up := Embed(KeyUpHead(), key, KeyTail()) + " })()";
      var press := Embed(KeyPressHead(), key, Embed(KeyUpHead(), key, KeyTail())) + " })()";
      var at := |Guard(ElementQuery(b).value)| + |KeyDownHead()| + 1;
      && at <= |s| && ReadLiteral(s[at..], '\'') == Some((key, press))
      && |KeyPressHead()| + 1 <= |press| && ReadLiteral(press[|KeyPressHead()| + 1..], '\'') == Some((key, up))
      && |KeyUpHead()| + 1 <= |up| && ReadLiteral(up[|KeyUpHead()| + 1..], '\'') == Some((key, KeyTail() + " })()"))
  {
    ScriptReadsBack(b, KeyDownHead(), key, Embed(KeyPressHead(), key, Embed(KeyUpHead(), key, KeyTail())));
    NestedReadsBack(KeyPressHead(), KeyUpHead(), key, KeyTail(), " })()");
  }

  /** Two embedded literals in a row, followed by more text: each reads back, the first with the second embedding after it. */
  lemma NestedReadsBack(h2: string, h3: string, key: string, t: string, after: string)
    requires SingleLine(key)
    ensures var up := Embed(h3, key, t) + after;
      var press := Embed(h2, key, Embed(h3, key, t)) + after;
      && |h2| + 1 <= |press| && ReadLiteral(press[|h2| + 1..], '\'') == Some((key, up))
      && |h3| + 1 <= |up| && ReadLiteral(up[|h3| + 1..], '\'') == Some((key, t + after))
  {
    EmbedReadsBack(h2, key, Embed(h3, key, t), after);
    EmbedReadsBack(h3, key, t, after);
  }

  /** scroll_into_view_script aligns the element to the start of the viewport iff align_to_top, else to its end. */
  lemma ScrollBlockChoice(alignToTop: bool)
    ensures |ScrollCode(alignToTop)| > |ScrollHead()| + 1
    ensures ScrollCode(alignToTop)[|ScrollHead()| + 1..|ScrollHead()| + 6] == "start" <==> alignToTop
  {
    var a := ScrollHead() + "'";
    var c := ScrollCode(alignToTop);
    assert c == a + ScrollBlock(alignToTop) + ("'" + ScrollTail());
    if alignToTop {
      Middle(a, "start", "'" + ScrollTail());
    } else {
      assert c[|a|] == 'e';
    }
  }

  lemma Middle(a: string, b: string, c: string)
    ensures (a + b + c)[|a|..|a| + |b|] == b
  {
  }

  lemma SliceOfPrefix(f: string, h: string, i: nat, j: nat)
    requires |h| <= |f| && f[..|h|] == h && i <= j <= |h|
    ensures f[i..j] == h[i..j]
  {
    forall k | i <= k < j
      ensures f[k] == h[k]
    {
      assert f[..|h|][k] == f[k];
    }
  }
}
