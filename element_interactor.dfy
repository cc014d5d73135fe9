// The element interactor (src/services/element/interactor.rs): the
// operations the element service performs on one element, built from the
// element's own operations (type_text, get_attribute, focus, get_text,
// is_visible, get_html). The element's answers are parameters, and each
// operation reports the element operations it issued, in order. Delays
// between keystrokes are timing only and are left out.

module Interactor {
  import opened Wrappers
  import opened Errors
  import opened Text
  import SessionElement

  /** An operation issued on the element. */
  datatype ElementCall =
    | TypeTextCall(text: string)
    | GetAttributeCall(name: string)
    | FocusCall
    | GetTextCall
    | IsVisibleCall
    | GetHtmlCall

  // ------------------------------------------------------------ typing

  /** One type_text call per character, in order. */
  function CharCalls(text: string): (cs: seq<ElementCall>)
    ensures |cs| == |text|
    ensures forall i :: 0 <= i < |text| ==> cs[i] == TypeTextCall([text[i]])
  {
    seq(|text|, i requires 0 <= i < |text| => TypeTextCall([text[i]]))
  }

  /** The text the type_text calls of a call list enter, in order. */
  function Typed(cs: seq<ElementCall>): string
  {
    if cs == [] then []
    else Typed(cs[..|cs| - 1]) + (if cs[|cs| - 1].TypeTextCall? then cs[|cs| - 1].text else [])
  }

  /** Typing character by character enters exactly the text. */
  lemma {:induction false} TypedCharCalls(text: string)
    ensures Typed(CharCalls(text)) == text
  {
    if text != [] {
      var n := |text| - 1;
      assert CharCalls(text)[..n] == CharCalls(text[..n]);
      TypedCharCalls(text[..n]);
      assert text[..n] + [text[n]] == text;
    }
  }

  /** type_text: one element type_text call per character, in order, stopping at the first that fails. answer(i) is the i-th call's outcome. */
  method TypeText(text: string, answer: nat -> Result<(), Error>) returns (r: Result<(), Error>, calls: seq<ElementCall>)
    ensures var k := SessionElement.FirstFailure(answer, |text|);
      && (k == |text| ==> r == Ok(()) && calls == CharCalls(text))
      && (k < |text| ==> r == Err(answer(k).error) && calls == CharCalls(text[..k + 1]))
  {
    ghost var k := SessionElement.FirstFailure(answer, |text|);
    calls := [];
    var i := 0;
    while i < |text|
      invariant 0 <= i <= |text| && i <= k
      invariant calls == CharCalls(text[..i])
    {
      calls := calls + [TypeTextCall([text[i]])];
      assert calls == CharCalls(text[..i + 1]);
      if answer(i).Err? {
        return answer(i), calls;
      }
      i := i + 1;
    }
    assert text[..i] == text;
    r := Ok(());
  }

  // ------------------------------------------------------------ fill

  /** Whether fill clears the element first: only when asked to and the value attribute could be read and is present. */
  predicate Clears(clearFirst: bool, current: Result<Option<string>, Error>)
  {
    clearFirst && current.Ok? && current.value.Some?
  }

  /** fill: with clear_first the value attribute is read (a failed read is ignored); a present value is cleared by focusing the element, whose failure stops fill; then the whole value is typed in one call. */
  method Fill(value: string, clearFirst: bool, current: Result<Option<string>, Error>, focusReply: Result<(), Error>, typeReply: Result<(), Error>)
    returns (r: Result<(), Error>, calls: seq<ElementCall>)
    ensures var probe := if clearFirst then [GetAttributeCall("value")] else [];
      && (Clears(clearFirst, current) && focusReply.Err? ==> r == focusReply && calls == probe + [FocusCall])
      && (!(Clears(clearFirst, current) && focusReply.Err?) ==>
            r == typeReply && calls == probe + (if Clears(clearFirst, current) then [FocusCall] else []) + [TypeTextCall(value)])
    ensures FocusCall in calls <==> Clears(clearFirst, current)
  {
    calls := [];
    if clearFirst {
      calls := calls + [GetAttributeCall("value")];
      if current.Ok? && current.value.Some? {
        calls := calls + [FocusCall];
        if focusReply.Err? {
          return focusReply, calls;
        }
      }
    }
    calls := calls + [TypeTextCall(value)];
    r := typeReply;
  }

  // ------------------------------------------------------------ attributes

  /** The (name, value) pairs of the first n names whose attribute is present, in request order. */
  function Collected(names: seq<string>, answer: nat -> Result<Option<string>, Error>, n: nat): seq<(string, string)>
    requires n <= |names|
  {
    if n == 0 then []
    else Collected(names, answer, n - 1)
         + (if answer(n - 1).Ok? && answer(n - 1).value.Some? then [(names[n - 1], answer(n - 1).value.value)] else [])
  }

  /** A pair is collected iff one of the first n names has exactly that value present. */
  lemma {:induction false} CollectedMembers(names: seq<string>, answer: nat -> Result<Option<string>, Error>, n: nat, name: string, v: string)
    requires n <= |names|
    ensures |Collected(names, answer, n)| <= n
    ensures (name, v) in Collected(names, answer, n) <==> exists i :: 0 <= i < n && names[i] == name && answer(i) == Ok(Some(v))
  {
    if n > 0 {
      CollectedMembers(names, answer, n - 1, name, v);
    }
  }

  /** One get_attribute call per name, in order. */
  function AttributeCalls(names: seq<string>): (cs: seq<ElementCall>)
    ensures |cs| == |names|
    ensures forall i :: 0 <= i < |names| ==> cs[i] == GetAttributeCall(names[i])
  {
    seq(|names|, i requires 0 <= i < |names| => GetAttributeCall(names[i]))
  }

  /** get_attributes: the names are read in order; a present value is kept with its name, an absent one is skipped, and the first failure stops everything. */
  method GetAttributes(names: seq<string>, answer: nat -> Result<Option<string>, Error>)
    returns (r: Result<seq<(string, string)>, Error>, calls: seq<ElementCall>)
    ensures var k := SessionElement.FirstFailure(answer, |names|);
      && (k == |names| ==> r == Ok(Collected(names, answer, |names|)) && calls == AttributeCalls(names))
      && (k < |names| ==> r == Err(answer(k).error) && calls == AttributeCalls(names[..k + 1]))
  {
    ghost var k := SessionElement.FirstFailure(answer, |names|);
    var attributes := [];
    calls := [];
    var i := 0;
    while i < |names|
      invariant 0 <= i <= |names| && i <= k
      invariant calls == AttributeCalls(names[..i])
      invariant attributes == Collected(names, answer, i)
    {
      calls := calls + [GetAttributeCall(names[i])];
      assert calls == AttributeCalls(names[..i + 1]);
      var got := answer(i);
      if got.Err? {
        return Err(got.error), calls;
      }
      if got.value.Some? {
        attributes := attributes + [(names[i], got.value.value)];
      }
      i := i + 1;
    }
    assert names[..i] == names;
    r := Ok(attributes);
  }

  // ------------------------------------------------------------ text

  /** Rust's char::is_whitespace: the Unicode White_Space characters. */
  predicate IsWhite(c: char)
  {
    || ('\U{9}' <= c <= '\U{D}') || c == ' ' || c == '\U{85}' || c == '\U{A0}' || c == '\U{1680}'
    || ('\U{2000}' <= c <= '\U{200A}') || c == '\U{2028}' || c == '\U{2029}' || c == '\U{202F}'
    || c == '\U{205F}' || c == '\U{3000}'
  }

  /** Whether every character is white space. */
  predicate Blank(s: string)
  {
    forall i :: 0 <= i < |s| ==> IsWhite(s[i])
  }

  /** str::trim_start. */
  function TrimStart(s: string): string
  {
    if s == [] then []
    else if IsWhite(s[0]) then TrimStart(s[1..])
    else s
  }

  /** str::trim_end. */
  function TrimEnd(s: string): string
  {
    if s == [] then []
    else if IsWhite(s[|s| - 1]) then TrimEnd(s[..|s| - 1])
    else s
  }

  /** str::trim. */
  function Trim(s: string): string
  {
    TrimEnd(TrimStart(s))
  }

  lemma {:induction false} TrimStartShape(s: string)
    ensures TrimStart(s) == [] <==> Blank(s)
    ensures TrimStart(s) != [] ==> !IsWhite(TrimStart(s)[0])
  {
    if s != [] && IsWhite(s[0]) {
      TrimStartShape(s[1..]);
      if !Blank(s[1..]) {
        var i :| 0 <= i < |s[1..]| && !IsWhite(s[1..][i]);
        assert !IsWhite(s[i + 1]);
      }
    }
  }

  lemma {:induction false} TrimEndKeepsFirst(s: string)
    requires s != [] && !IsWhite(s[0])
    ensures TrimEnd(s) != []
  {
    if IsWhite(s[|s| - 1]) {
      TrimEndKeepsFirst(s[..|s| - 1]);
    }
  }

  /** Trimming leaves nothing exactly when the text is all white space. */
  lemma TrimEmptyIffBlank(s: string)
    ensures Trim(s) == [] <==> Blank(s)
  {
    TrimStartShape(s);
    if TrimStart(s) != [] {
      TrimEndKeepsFirst(TrimStart(s));
    }
  }

  /** get_text: the element's text; unless hidden text is wanted, all-white text gives "" without asking anything more, and otherwise the element is asked whether it is visible, "" being returned only when it answers not visible (a failed question keeps the text). */
  method GetText(includeHidden: bool, textReply: Result<string, Error>, visibleReply: Result<bool, Error>)
    returns (r: Result<string, Error>, calls: seq<ElementCall>)
    ensures textReply.Err? ==> r == textReply && calls == [GetTextCall]
    ensures textReply.Ok? && includeHidden ==> r == textReply && calls == [GetTextCall]
    ensures textReply.Ok? && !includeHidden && Blank(textReply.value) ==> r == Ok("") && calls == [GetTextCall]
    ensures textReply.Ok? && !includeHidden && !Blank(textReply.value) ==>
      calls == [GetTextCall, IsVisibleCall] && (r == Ok("") <==> visibleReply == Ok(false))
    ensures textReply.Ok? && (includeHidden || (!Blank(textReply.value) && visibleReply != Ok(false))) ==> r == textReply
    ensures r.Ok? ==> r.value == "" || r.value == textReply.value
  {
    calls := [GetTextCall];
    if textReply.Err? {
      return textReply, calls;
    }
    var text := textReply.value;
    if !includeHidden {
      TrimEmptyIffBlank(text);
      if Trim(text) == [] {
        return Ok(""), calls;
      }
      calls := calls + [IsVisibleCall];
      if visibleReply.Ok? && !visibleReply.value {
        return Ok(""), calls;
      }
    }
    r := Ok(text);
  }

  // ------------------------------------------------------------ html

  /** str::find for one character: the first index holding it. */
  function FindFirst(s: string, c: char): (k: Option<nat>)
    ensures k.None? <==> c !in s
    ensures k.Some? ==> k.value < |s| && s[k.value] == c && forall j :: 0 <= j < k.value ==> s[j] != c
  {
    if s == [] then None
    else if s[0] == c then Some(0)
    else match FindFirst(s[1..], c)
      case None => None
      case Some(k) => Some(k + 1)
  }

  /** str::rfind for one character: the last index holding it. */
  function FindLast(s: string, c: char): (k: Option<nat>)
    ensures k.None? <==> c !in s
    ensures k.Some? ==> k.value < |s| && s[k.value] == c && forall j :: k.value < j < |s| ==> s[j] != c
  {
    if s == [] then None
    else if s[|s| - 1] == c then Some(|s| - 1)
    else match FindLast(s[..|s| - 1], c)
      case None => assert s == s[..|s| - 1] + [s[|s| - 1]]; None
      case Some(k) => Some(k)
  }

  /** The inner-HTML strip of get_html as written: the text strictly between the first '>' and the last '<' when both occur, else the whole string; None stands for the panic of the slice when the last '<' comes before the first '>'. */
  function StripOuterAsWritten(html: string): (r: Option<string>)
    ensures r.None? <==> (exists s, e :: FindFirst(html, '>') == Some(s) && FindLast(html, '<') == Some(e) && e < s + 1)
  {
    match (FindFirst(html, '>'), FindLast(html, '<'))
    case (Some(s), Some(e)) => if s + 1 <= e then Some(html[s + 1..e]) else None
    case _ => Some(html)
  }

  /** Every element serialised without a closing tag (a void element such as <br> or <input ...>) makes the strip panic. */
  lemma VoidElementPanics(tag: string)
    requires '<' !in tag && '>' !in tag
    ensures StripOuterAsWritten("<" + tag + ">") == None
  {
    var html := "<" + tag + ">";
    assert html[..|html| - 1] == "<" + tag;
    assert html[1..] == tag + ">";
    assert FindFirst(html, '>') == Some(|html| - 1);
    assert FindLast(html, '<') == Some(0);
  }

  /** The strip with the panic removed: an element with nothing after its opening tag has empty inner HTML. */
  function StripOuter(html: string): (r: string)
    ensures StripOuterAsWritten(html).Some? ==> r == StripOuterAsWritten(html).value
    ensures StripOuterAsWritten(html).None? ==> r == ""
  {
    match (FindFirst(html, '>'), FindLast(html, '<'))
    case (Some(s), Some(e)) => if s + 1 <= e then html[s + 1..e] else ""
    case _ => html
  }

  /** A character occurring at k and not before is what find reports. */
  lemma FindFirstAt(s: string, c: char, k: nat)
    requires k < |s| && s[k] == c && forall j :: 0 <= j < k ==> s[j] != c
    ensures FindFirst(s, c) == Some(k)
  {
  }

  /** A character occurring at k and not after is what rfind reports. */
  lemma FindLastAt(s: string, c: char, k: nat)
    requires k < |s| && s[k] == c && forall j :: k < j < |s| ==> s[j] != c
    ensures FindLast(s, c) == Some(k)
  {
  }

  /** The strip gives back exactly the content between an opening tag (one '>', at its end) and a closing tag (one '<', at its start). */
  lemma StripWrapped(open: string, inner: string, close: string)
    requires |open| > 0 && open[|open| - 1] == '>' && forall j :: 0 <= j < |open| - 1 ==> open[j] != '>'
    requires |close| > 0 && close[0] == '<' && forall j :: 0 < j < |close| ==> close[j] != '<'
    ensures StripOuter(open + inner + close) == inner
  {
    var html := open + inner + close;
    FindFirstAt(html, '>', |open| - 1);
    FindLastAt(html, '<', |open| + |inner|);
    assert html[|open|..|open| + |inner|] == inner;
  }

  /** get_html: the element's HTML, with the outer tag stripped unless the outer HTML is wanted. */
  method GetHtml(outer: bool, htmlReply: Result<string, Error>) returns (r: Result<string, Error>, calls: seq<ElementCall>)
    ensures calls == [GetHtmlCall]
    ensures htmlReply.Err? ==> r == htmlReply
    ensures htmlReply.Ok? && outer ==> r == htmlReply
    ensures htmlReply.Ok? && !outer ==> r == Ok(StripOuter(htmlReply.value))
  {
    calls := [GetHtmlCall];
    if htmlReply.Err? {
      return htmlReply, calls;
    }
    var html := htmlReply.value;
    if !outer {
      return Ok(StripOuter(html)), calls;
    }
    r := Ok(html);
  }

  // ------------------------------------------------------------ upload

  /** upload_file: an empty path list and an empty path are refused (the first empty path stops the validation); nothing is uploaded. */
  method UploadFile(paths: seq<string>) returns (r: Result<(), Error>)
    ensures paths == [] ==> r == Err(Internal("No file paths provided for upload"))
    ensures paths != [] && "" in paths ==> r == Err(Internal("Invalid file path: "))
    ensures r.Ok? <==> paths != [] && "" !in paths
  {
    if paths == [] {
      return Err(Internal("No file paths provided for upload"));
    }
    var i := 0;
    while i < |paths|
      invariant 0 <= i <= |paths|
      invariant "" !in paths[..i]
    {
      if paths[i] == "" {
        assert "Invalid file path: " + paths[i] == "Invalid file path: ";
        return Err(Internal("Invalid file path: " + paths[i]));
      }
      assert paths[..i + 1] == paths[..i] + [paths[i]];
      i := i + 1;
    }
    assert paths[..i] == paths;
    r := Ok(());
  }

  // ------------------------------------------------------------ properties

  /** What get_properties reports for one name: the value, "" when absent, or the failure's display text after "Error: ". */
  function PropertyText(a: Result<Option<string>, Error>): (t: string)
    ensures a.Ok? && a.value.None? ==> t == ""
    ensures a.Ok? && a.value.Some? ==> t == a.value.value
    ensures a.Err? ==> StartsWith(t, "Error: ") && t[|"Error: "|..] == Display(a.error)
  {
    match a
    case Ok(None) => ""
    case Ok(Some(v)) => v
    case Err(e) => "Error: " + Display(e)
  }

  /** A present value that looks like a failure report cannot be told from that failure. */
  lemma PropertyTextAmbiguous(e: Error)
    ensures PropertyText(Ok(Some("Error: " + Display(e)))) == PropertyText(Err(e))
  {
  }

  /** get_properties: one entry per requested name, in order, whatever the individual answers; it never fails. */
  method GetProperties(names: seq<string>, answer: nat -> Result<Option<string>, Error>)
    returns (r: Result<seq<(string, string)>, Error>, calls: seq<ElementCall>)
    ensures calls == AttributeCalls(names)
    ensures r.Ok? && |r.value| == |names|
    ensures forall i :: 0 <= i < |names| ==> r.value[i] == (names[i], PropertyText(answer(i)))
  {
    var properties := [];
    calls := [];
    var i := 0;
    while i < |names|
      invariant 0 <= i <= |names|
      invariant calls == AttributeCalls(names[..i])
      invariant |properties| == i
      invariant forall j :: 0 <= j < i ==> properties[j] == (names[j], PropertyText(answer(j)))
    {
      calls := calls + [GetAttributeCall(names[i])];
      assert calls == AttributeCalls(names[..i + 1]);
      var text;
      match answer(i) {
        case Ok(Some(value)) =>
          text := value;
        case Ok(None) =>
          text := "";
        case Err(e) =>
          text := "Error: " + Display(e);
      }
      properties := properties + [(names[i], text)];
      i := i + 1;
    }
    assert names[..i] == names;
    r := Ok(properties);
  }

  // ------------------------------------------------------------ keys

  /** str::split on one character: always at least one part, none holding the separator. */
  function Split(s: string, sep: char): (parts: seq<string>)
    ensures |parts| >= 1
    ensures forall i :: 0 <= i < |parts| ==> sep !in parts[i]
  {
    if s == [] then [[]]
    else
      var rest := Split(s[1..], sep);
      if s[0] == sep then [[]] + rest
      else [[s[0]] + rest[0]] + rest[1..]
  }

  /** The parts put back together with the separator between them. */
  function Join(parts: seq<string>, sep: char): string
    requires |parts| >= 1
  {
    if |parts| == 1 then parts[0] else parts[0] + [sep] + Join(parts[1..], sep)
  }

  lemma {:induction false} JoinCons(c: char, parts: seq<string>, sep: char)
    requires |parts| >= 1
    ensures Join([[c] + parts[0]] + parts[1..], sep) == [c] + Join(parts, sep)
  {
    var ps := [[c] + parts[0]] + parts[1..];
    if |parts| > 1 {
      assert ps[1..] == parts[1..];
    }
  }

  /** Splitting loses nothing: joining the parts gives the string back. */
  lemma {:induction false} SplitJoin(s: string, sep: char)
    ensures Join(Split(s, sep), sep) == s
  {
    if s != [] {
      var rest := Split(s[1..], sep);
      SplitJoin(s[1..], sep);
      if s[0] == sep {
        assert ([[]] + rest)[1..] == rest;
      } else {
        JoinCons(s[0], rest, sep);
      }
    }
  }

  lemma {:induction false} SplitPrefix(p: string, s: string, sep: char)
    requires sep !in p
    ensures Split(p + s, sep) == [p + Split(s, sep)[0]] + Split(s, sep)[1..]
  {
    var parts := Split(s, sep);
    if p == [] {
      assert p + s == s && p + parts[0] == parts[0];
      assert [parts[0]] + parts[1..] == parts;
    } else {
      assert (p + s)[0] == p[0] != sep;
      assert (p + s)[1..] == p[1..] + s;
      SplitPrefix(p[1..], s, sep);
      var rest := Split(p[1..] + s, sep);
      assert rest[0] == p[1..] + parts[0] && rest[1..] == parts[1..];
      assert [p[0]] + (p[1..] + parts[0]) == p + parts[0];
    }
  }

  /** Joining separator-free parts and splitting again gives the same parts. */
  lemma {:induction false} JoinSplit(parts: seq<string>, sep: char)
    requires |parts| >= 1
    requires forall i :: 0 <= i < |parts| ==> sep !in parts[i]
    ensures Split(Join(parts, sep), sep) == parts
  {
    if |parts| == 1 {
      SplitPrefix(parts[0], [], sep);
      assert parts[0] + [] == parts[0];
    } else {
      var tail := Join(parts[1..], sep);
      JoinSplit(parts[1..], sep);
      assert parts[0] + [sep] + tail == parts[0] + ([sep] + tail);
      SplitPrefix(parts[0], [sep] + tail, sep);
      assert ([sep] + tail)[0] == sep && ([sep] + tail)[1..] == tail;
      var S := Split([sep] + tail, sep);
      assert S == [[]] + parts[1..];
      assert S[0] == [] && S[1..] == parts[1..];
      assert parts[0] + S[0] == parts[0];
      assert [parts[0]] + parts[1..] == parts;
    }
  }

  /** The modifier names press_key recognises, compared in lower case. */
  predicate IsCtrl(m: string) { LowerAll(m) == "ctrl" || LowerAll(m) == "control" }
  predicate IsShift(m: string) { LowerAll(m) == "shift" }
  predicate IsAlt(m: string) { LowerAll(m) == "alt" }
  predicate IsMeta(m: string) { LowerAll(m) == "meta" || LowerAll(m) == "cmd" || LowerAll(m) == "command" }

  /** A parsed key combination: the main key and the four modifier flags. */
  datatype KeyPress = KeyPress(mainKey: string, ctrl: bool, shift: bool, alt: bool, meta: bool)

  /** The modifier parts of a combination: every part but the last. */
  function Modifiers(parts: seq<string>): (mods: seq<string>)
    requires |parts| >= 1
    ensures mods == parts[..|parts| - 1]
  {
    if |parts| > 1 then parts[..|parts| - 1] else []
  }

  /** The combination a key string stands for: the last '+'-part is the main key, and a flag is set iff some earlier part names that modifier. */
  function KeyOf(key: string): KeyPress
  {
    var parts := Split(key, '+');
    var mods := Modifiers(parts);
    KeyPress(parts[|parts| - 1],
      exists i | 0 <= i < |mods| :: IsCtrl(mods[i]),
      exists i | 0 <= i < |mods| :: IsShift(mods[i]),
      exists i | 0 <= i < |mods| :: IsAlt(mods[i]),
      exists i | 0 <= i < |mods| :: IsMeta(mods[i]))
  }

  /** A combination written out from its modifiers and main key reads back as that main key, with each flag set iff some modifier names it; unknown modifiers change nothing. */
  lemma KeyOfCombination(mods: seq<string>, main: string)
    requires '+' !in main
    requires forall i :: 0 <= i < |mods| ==> '+' !in mods[i]
    ensures var k := KeyOf(Join(mods + [main], '+'));
      && k.mainKey == main
      && (k.ctrl <==> exists i :: 0 <= i < |mods| && IsCtrl(mods[i]))
      && (k.shift <==> exists i :: 0 <= i < |mods| && IsShift(mods[i]))
      && (k.alt <==> exists i :: 0 <= i < |mods| && IsAlt(mods[i]))
      && (k.meta <==> exists i :: 0 <= i < |mods| && IsMeta(mods[i]))
  {
    var parts := mods + [main];
    JoinSplit(parts, '+');
    assert Modifiers(parts) == mods;
  }

  /** The parsing loop of press_key: each modifier part sets its flag. */
  method ParseKey(key: string) returns (k: KeyPress)
    ensures k == KeyOf(key)
  {
    var parts := Split(key, '+');
    var modifiers := if |parts| > 1 then parts[..|parts| - 1] else [];
    var ctrl, shift, alt, meta := false, false, false, false;
    var i := 0;
    while i < |modifiers|
      invariant 0 <= i <= |modifiers|
      invariant ctrl <==> exists j | 0 <= j < i :: IsCtrl(modifiers[j])
      invariant shift <==> exists j | 0 <= j < i :: IsShift(modifiers[j])
      invariant alt <==> exists j | 0 <= j < i :: IsAlt(modifiers[j])
      invariant meta <==> exists j | 0 <= j < i :: IsMeta(modifiers[j])
    {
      var m := LowerAll(modifiers[i]);
      if m == "ctrl" || m == "control" {
        ctrl := true;
      } else if m == "shift" {
        shift := true;
      } else if m == "alt" {
        alt := true;
      } else if m == "meta" || m == "cmd" || m == "command" {
        meta := true;
      }
      i := i + 1;
    }
    k := KeyPress(parts[|parts| - 1], ctrl, shift, alt, meta);
  }

  /** press_key: the element is focused first (a failure stops it); the combination is then parsed, and only reported, never dispatched. */
  method PressKey(key: string, focusReply: Result<(), Error>) returns (r: Result<(), Error>, calls: seq<ElementCall>, parsed: Option<KeyPress>)
    ensures calls == [FocusCall]
    ensures focusReply.Err? ==> r == focusReply && parsed.None?
    ensures focusReply.Ok? ==> r == Ok(()) && parsed == Some(KeyOf(key))
  {
    calls := [FocusCall];
    if focusReply.Err? {
      return focusReply, calls, None;
    }
    var k := ParseKey(key);
    r, parsed := Ok(()), Some(k);
  }
}
