// JavaScript string literals as the server writes them into scripts: the
// character replacement the escaping helpers are built from, the one-pass
// backslash escape those chains amount to, and a reader for the body of a
// quoted literal as a JavaScript engine scans it. The reader is the partner
// every escaping helper is proved against: a value survives being embedded
// iff reading the literal back gives the value and ends at the intended
// closing quote.

module JsText {
  import opened Wrappers

  /** str::replace with a character pattern: every c becomes rep. */
  function Replace(s: string, c: char, rep: string): (r: string)
    ensures c !in s ==> r == s
  {
    if |s| == 0 then "" else (if s[0] == c then rep else [s[0]]) + Replace(s[1..], c, rep)
  }

  lemma {:induction false} ReplaceAppend(a: string, b: string, c: char, rep: string)
    ensures Replace(a + b, c, rep) == Replace(a, c, rep) + Replace(b, c, rep)
  {
    if |a| == 0 {
      assert a + b == b;
    } else {
      assert (a + b)[1..] == a[1..] + b;
      ReplaceAppend(a[1..], b, c, rep);
    }
  }

  /** One pass over s putting a backslash before every character of cs. */
  function EscapeAll(s: string, cs: set<char>): (r: string)
    ensures |r| >= |s|
  {
    if |s| == 0 then "" else (if s[0] in cs then ['\\', s[0]] else [s[0]]) + EscapeAll(s[1..], cs)
  }

  /** Doubling the backslashes is the one-pass escape of the backslash alone. */
  lemma {:induction false} ReplaceBackslash(s: string)
    ensures Replace(s, '\\', "\\\\") == EscapeAll(s, {'\\'})
  {
    if |s| > 0 {
      ReplaceBackslash(s[1..]);
    }
  }

  /** Escaping one more character after the escape of cs: the backslashes already inserted are left alone, so the chain stays a one-pass escape. */
  lemma {:induction false} ReplaceAfterEscape(s: string, cs: set<char>, c: char)
    requires c != '\\' && '\\' in cs && c !in cs
    ensures Replace(EscapeAll(s, cs), c, ['\\', c]) == EscapeAll(s, cs + {c})
  {
    if |s| > 0 {
      var head := if s[0] in cs then ['\\', s[0]] else [s[0]];
      var head' := if s[0] in cs + {c} then ['\\', s[0]] else [s[0]];
      var rest := EscapeAll(s[1..], cs);
      assert EscapeAll(s, cs) == head + rest;
      assert EscapeAll(s, cs + {c}) == head' + EscapeAll(s[1..], cs + {c});
      ReplaceAppend(head, rest, c, ['\\', c]);
      ReplaceAfterEscape(s[1..], cs, c);
      assert Replace(head, c, ['\\', c]) == head' by {
        if s[0] in cs {
          assert c !in head;
        } else {
          assert Replace(head, c, ['\\', c]) == (if s[0] == c then ['\\', c] else [s[0]]) + Replace([], c, ['\\', c]);
        }
      }
    }
  }

  predicate LineTerminator(c: char)
  {
    c == '\n' || c == '\r' || c == '\U{2028}' || c == '\U{2029}'
  }

  predicate SingleLine(s: string)
  {
    forall i :: 0 <= i < |s| ==> !LineTerminator(s[i])
  }

  /** The character a backslash escape stands for (single-character escapes only). */
  function Unescaped(c: char): char
  {
    match c
    case 'n' => '\n'
    case 't' => '\t'
    case 'r' => '\r'
    case 'b' => '\U{8}'
    case 'f' => '\U{C}'
    case 'v' => '\U{B}'
    case '0' => '\0'
    case _ => c
  }

  /** Reads the body of a literal whose opening quote q has just been consumed: the value and the text after the closing quote, or None when the literal does not close on its line. */
  function ReadLiteral(s: string, q: char): Option<(string, string)>
  {
    if |s| == 0 then None
    else if s[0] == q then Some(("", s[1..]))
    else if LineTerminator(s[0]) then None
    else if s[0] == '\\' then
      if |s| == 1 then None
      else
        var rest := ReadLiteral(s[2..], q);
        if rest.None? then None
        else if LineTerminator(s[1]) then rest
        else Some(([Unescaped(s[1])] + rest.value.0, rest.value.1))
    else
      var rest := ReadLiteral(s[1..], q);
      if rest.None? then None else Some(([s[0]] + rest.value.0, rest.value.1))
  }

  /** A one-pass escape that covers the backslash and the quote reads back exactly, however the script goes on after the closing quote. */
  lemma {:induction false} ReadEscaped(s: string, cs: set<char>, q: char, tail: string)
    requires '\\' in cs && q in cs && !LineTerminator(q) && q != '\\'
    requires forall c :: c in cs ==> Unescaped(c) == c
    requires SingleLine(s)
    ensures ReadLiteral(EscapeAll(s, cs) + [q] + tail, q) == Some((s, tail))
  {
    var t := EscapeAll(s, cs) + [q] + tail;
    if |s| == 0 {
      assert t == [q] + tail;
    } else {
      ReadEscaped(s[1..], cs, q, tail);
      var u := EscapeAll(s[1..], cs) + [q] + tail;
      if s[0] in cs {
        assert t == ['\\', s[0]] + u;
        assert t[2..] == u;
        assert [Unescaped(s[0])] + s[1..] == s;
      } else {
        assert t == [s[0]] + u;
        assert t[1..] == u;
        assert [s[0]] + s[1..] == s;
      }
    }
  }

  /** Plain characters (no quote, no backslash, no line break) are read as themselves. */
  lemma {:induction false} ReadPlainPrefix(p: string, rest: string, q: char)
    requires forall i :: 0 <= i < |p| ==> p[i] != q && p[i] != '\\' && !LineTerminator(p[i])
    ensures ReadLiteral(p + rest, q) ==
      (var r := ReadLiteral(rest, q); if r.None? then None else Some((p + r.value.0, r.value.1)))
  {
    if |p| > 0 {
      ReadPlainPrefix(p[1..], rest, q);
      assert (p + rest)[1..] == p[1..] + rest;
      assert (p + rest)[0] == p[0];
      var r := ReadLiteral(rest, q);
      if r.Some? {
        assert [p[0]] + (p[1..] + r.value.0) == p + r.value.0;
      }
    } else {
      assert p + rest == rest;
      var r := ReadLiteral(rest, q);
      if r.Some? {
        assert p + r.value.0 == r.value.0;
      }
    }
  }

  /** The characters escaped by the server's general helper. */
  const JsSpecials: set<char> := {'\\', '\'', '"'}

  /** A value quoted with the one-pass escape of JsSpecials. */
  function Quoted(v: string, q: char): string
  {
    [q] + EscapeAll(v, JsSpecials) + [q]
  }

  /** Text of the form prefix + quoted value + suffix gives the value back when read from just after the prefix and the opening quote. */
  lemma QuotedReadsBack(t: string, prefix: string, v: string, q: char, suffix: string)
    requires q == '\'' || q == '"'
    requires SingleLine(v)
    requires t == prefix + Quoted(v, q) + suffix
    ensures ReadLiteral(t[|prefix| + 1..], q) == Some((v, suffix))
  {
    assert t[|prefix| + 1..] == EscapeAll(v, JsSpecials) + [q] + suffix;
    ReadEscaped(v, JsSpecials, q, suffix);
  }
}
