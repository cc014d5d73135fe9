/**
 * The two URI component functions the crawler's page scripts call:
 * `encodeURIComponent` (used by the submission fallback) and
 * `decodeURIComponent` (used to unwrap Google's `/url?q=` redirect links).
 * Escapes are percent-encoded octets (section 2.1 of RFC 3986) of the
 * UTF-8 form (RFC 3629) of each character; decoding rejects malformed
 * escapes, overlong forms, surrogates and values above U+10FFFF, where the
 * JavaScript function throws a URIError.
 */
module PercentCodec {
  import opened Wrappers

  // ---------------------------------------------------------------- hex

  predicate IsHexDigit(c: char) {
    ('0' <= c <= '9') || ('a' <= c <= 'f') || ('A' <= c <= 'F')
  }

  function HexValue(c: char): (v: nat)
    requires IsHexDigit(c)
    ensures v < 16
  {
    if '0' <= c <= '9' then c as int - '0' as int
    else if 'a' <= c <= 'f' then c as int - 'a' as int + 10
    else c as int - 'A' as int + 10
  }

  /** Upper-case hex digit, as the encoder emits. */
  function HexDigit(v: nat): (c: char)
    requires v < 16
    ensures IsHexDigit(c) && HexValue(c) == v
  {
    if v < 10 then ('0' as int + v) as char else ('A' as int + v - 10) as char
  }

  /** `%XX` for one octet. */
  function Escape(b: nat): (s: seq<char>)
    requires b < 256
    ensures |s| == 3 && s[0] == '%'
  {
    ['%', HexDigit(b / 16), HexDigit(b % 16)]
  }

  /** The octet of a `%XX` escape at the head of `s`, if there is one. */
  function EscapedOctet(s: seq<char>): (r: Option<nat>)
    ensures r.Some? ==> |s| >= 3 && s[0] == '%' && r.value < 256
  {
    if |s| >= 3 && s[0] == '%' && IsHexDigit(s[1]) && IsHexDigit(s[2])
    then Some(HexValue(s[1]) * 16 + HexValue(s[2]))
    else None
  }

  lemma EscapedOctetOfEscape(b: nat, rest: seq<char>)
    requires b < 256
    ensures EscapedOctet(Escape(b) + rest) == Some(b)
  {
    var s := Escape(b) + rest;
    assert s[1] == HexDigit(b / 16) && s[2] == HexDigit(b % 16);
  }

  // ---------------------------------------------------------------- UTF-8

  predicate IsScalar(cp: int) {
    (0 <= cp < 0xD800) || (0xE000 <= cp < 0x11_0000)
  }

  /** UTF-8 form of one character (RFC 3629, section 3). */
  function Utf8(c: char): (bs: seq<nat>)
    ensures 1 <= |bs| <= 4
    ensures forall i :: 0 <= i < |bs| ==> bs[i] < 256
  {
    var cp := c as int;
    if cp < 0x80 then [cp]
    else if cp < 0x800 then [0xC0 + cp / 64, 0x80 + cp % 64]
    else if cp < 0x1_0000 then [0xE0 + cp / 4096, 0x80 + (cp / 64) % 64, 0x80 + cp % 64]
    else [0xF0 + cp / 262144, 0x80 + (cp / 4096) % 64, 0x80 + (cp / 64) % 64, 0x80 + cp % 64]
  }

  /** Number of octets announced by a lead octet; 0 when it cannot lead. */
  function SequenceLength(lead: nat): (n: nat)
    ensures n <= 4 && n != 1
  {
    if lead < 0x80 then 0
    else if 0xC0 <= lead < 0xE0 then 2
    else if 0xE0 <= lead < 0xF0 then 3
    else if 0xF0 <= lead < 0xF8 then 4
    else 0
  }

  predicate IsContinuation(b: nat) { 0x80 <= b < 0xC0 }

  predicate AllContinuations(bs: seq<nat>) {
    forall i :: 1 <= i < |bs| ==> IsContinuation(bs[i])
  }

  /** The character a multi-octet sequence spells, if it is well formed. */
  function DecodeSequence(bs: seq<nat>): (r: Option<char>)
    requires 2 <= |bs| <= 4
  {
    if !AllContinuations(bs) then None
    else if |bs| == 2 then
      var cp: int := (bs[0] as int - 0xC0) * 64 + (bs[1] as int - 0x80);
      if 0x80 <= cp < 0x800 then Some(cp as char) else None
    else if |bs| == 3 then
      var cp: int := (bs[0] as int - 0xE0) * 4096 + (bs[1] as int - 0x80) * 64 + (bs[2] as int - 0x80);
      if 0x800 <= cp < 0x1_0000 && IsScalar(cp) then Some(cp as char) else None
    else
      var cp: int := (bs[0] as int - 0xF0) * 262144 + (bs[1] as int - 0x80) * 4096 + (bs[2] as int - 0x80) * 64 + (bs[3] as int - 0x80);
      if 0x1_0000 <= cp < 0x11_0000 then Some(cp as char) else None
  }

  // ---------------------------------------------------------------- encoding

  /** Characters `encodeURIComponent` leaves alone. */
  predicate IsUnreserved(c: char) {
    ('A' <= c <= 'Z') || ('a' <= c <= 'z') || ('0' <= c <= '9')
    || c in "-_.!~*'()"
  }

  function EscapeAll(bs: seq<nat>): (s: seq<char>)
    requires forall i :: 0 <= i < |bs| ==> bs[i] < 256
    ensures |s| == 3 * |bs|
  {
    if bs == [] then [] else Escape(bs[0]) + EscapeAll(bs[1..])
  }

  function EncodeChar(c: char): seq<char> {
    if IsUnreserved(c) then [c] else EscapeAll(Utf8(c))
  }

  /** `encodeURIComponent`. */
  function EncodeComponent(s: seq<char>): (r: seq<char>)
    ensures forall i :: 0 <= i < |r| ==> r[i] != '&' && r[i] != '#' && r[i] != '?'
  {
    if s == [] then []
    else
      var head := EncodeChar(s[0]);
      assert forall i :: 0 <= i < |head| ==> head[i] != '&' && head[i] != '#' && head[i] != '?' by {
        if !IsUnreserved(s[0]) { EscapeAllAlphabet(Utf8(s[0])); }
      }
      head + EncodeComponent(s[1..])
  }

  lemma {:induction false} EscapeAllAlphabet(bs: seq<nat>)
    requires forall i :: 0 <= i < |bs| ==> bs[i] < 256
    ensures forall i :: 0 <= i < |EscapeAll(bs)| ==> EscapeAll(bs)[i] == '%' || IsHexDigit(EscapeAll(bs)[i])
  {
    if bs != [] {
      EscapeAllAlphabet(bs[1..]);
      var e := Escape(bs[0]);
      assert forall i :: 0 <= i < 3 ==> e[i] == '%' || IsHexDigit(e[i]);
    }
  }

  // ---------------------------------------------------------------- decoding

  /** Reads `n` consecutive `%XX` escapes from the head of `s`. */
  function ReadEscapes(s: seq<char>, n: nat): (r: Option<seq<nat>>)
    ensures r.Some? ==> |r.value| == n && |s| >= 3 * n
    ensures r.Some? ==> forall i :: 0 <= i < n ==> r.value[i] < 256
    decreases n
  {
    if n == 0 then Some([])
    else
      match EscapedOctet(s)
      case None => None
      case Some(b) =>
        match ReadEscapes(s[3..], n - 1)
        case None => None
        case Some(rest) => Some([b] + rest)
  }

  /**
   * `decodeURIComponent`: None where the JavaScript function throws.
   */
  function DecodeComponent(s: seq<char>): (r: Option<seq<char>>)
    decreases |s|
  {
    if s == [] then Some([])
    else if s[0] != '%' then
      match DecodeComponent(s[1..])
      case None => None
      case Some(t) => Some([s[0]] + t)
    else
      match EscapedOctet(s)
      case None => None
      case Some(lead) =>
        if lead < 0x80 then
          match DecodeComponent(s[3..])
          case None => None
          case Some(t) => Some([lead as char] + t)
        else
          var n := SequenceLength(lead);
          if n == 0 then None
          else
            match ReadEscapes(s, n)
            case None => None
            case Some(bs) =>
              match DecodeSequence(bs)
              case None => None
              case Some(c) =>
                match DecodeComponent(s[3 * n..])
                case None => None
                case Some(t) => Some([c] + t)
  }

  // ---------------------------------------------------------------- round trip

  lemma {:induction false} ReadEscapesOfEscapeAll(bs: seq<nat>, rest: seq<char>)
    requires forall i :: 0 <= i < |bs| ==> bs[i] < 256
    ensures ReadEscapes(EscapeAll(bs) + rest, |bs|) == Some(bs)
    decreases |bs|
  {
    if bs != [] {
      var tail := EscapeAll(bs[1..]) + rest;
      var s := EscapeAll(bs) + rest;
      EscapeAllCons(bs, rest);
      EscapedOctetOfEscape(bs[0], tail);
      DropPrefix(Escape(bs[0]), tail);
      ReadEscapesOfEscapeAll(bs[1..], rest);
      assert ReadEscapes(s, |bs|) == Some([bs[0]] + bs[1..]);
      assert [bs[0]] + bs[1..] == bs;
    }
  }

  lemma DecodeSequenceOfUtf8(c: char)
    requires c as int >= 0x80
    ensures |Utf8(c)| >= 2 && DecodeSequence(Utf8(c)) == Some(c)
    ensures SequenceLength(Utf8(c)[0]) == |Utf8(c)|
  {
    var cp := c as int;
    if cp < 0x800 { DecodeTwo(cp); }
    else if cp < 0x1_0000 { DecodeThree(cp); }
    else { DecodeFour(cp); }
  }

  lemma DecodeTwo(cp: int)
    requires 0x80 <= cp < 0x800
    ensures var bs := [0xC0 + cp / 64, 0x80 + cp % 64];
      AllContinuations(bs) && SequenceLength(bs[0]) == 2 && (bs[0] as int - 0xC0) * 64 + (bs[1] as int - 0x80) == cp
  {
  }

  lemma DecodeThree(cp: int)
    requires 0x800 <= cp < 0x1_0000
    ensures var bs := [0xE0 + cp / 4096, 0x80 + (cp / 64) % 64, 0x80 + cp % 64];
      AllContinuations(bs) && SequenceLength(bs[0]) == 3
      && (bs[0] as int - 0xE0) * 4096 + (bs[1] as int - 0x80) * 64 + (bs[2] as int - 0x80) == cp
  {
    var a, b, c := cp / 4096, (cp / 64) % 64, cp % 64;
    assert cp / 64 == a * 64 + b;
    assert cp == (cp / 64) * 64 + c;
  }

  lemma DecodeFour(cp: int)
    requires 0x1_0000 <= cp < 0x11_0000
    ensures var bs := [0xF0 + cp / 262144, 0x80 + (cp / 4096) % 64, 0x80 + (cp / 64) % 64, 0x80 + cp % 64];
      AllContinuations(bs) && SequenceLength(bs[0]) == 4
      && (bs[0] as int - 0xF0) * 262144 + (bs[1] as int - 0x80) * 4096 + (bs[2] as int - 0x80) * 64 + (bs[3] as int - 0x80) == cp
  {
    var q1 := cp / 64;
    var q2 := q1 / 64;
    assert cp / 4096 == q2;
    assert cp / 262144 == q2 / 64;
    assert q2 == (q2 / 64) * 64 + q2 % 64;
    assert q1 == q2 * 64 + q1 % 64;
    assert cp == q1 * 64 + cp % 64;
  }

  lemma DecodeEncodedChar(c: char, rest: seq<char>)
    ensures DecodeComponent(EncodeChar(c) + rest) ==
      (match DecodeComponent(rest) case None => None case Some(t) => Some([c] + t))
  {
    var s := EncodeChar(c) + rest;
    if IsUnreserved(c) {
      assert s[0] == c && s[1..] == rest;
    } else {
      var bs := Utf8(c);
      EscapeAllCons(bs, rest);
      EscapedOctetOfEscape(bs[0], EscapeAll(bs[1..]) + rest);
      if c as int < 0x80 {
        assert bs == [c as int];
        DecodeSingleEscape(s, c, rest);
      } else {
        DecodeSequenceOfUtf8(c);
        ReadEscapesOfEscapeAll(bs, rest);
        DecodeEscapedSequence(s, bs, c, rest);
      }
    }
  }

  /** Escaped bytes followed by `rest`: the first escape, then the others and `rest`, which start after 3 characters per byte. */
  lemma EscapeAllCons(bs: seq<nat>, rest: seq<char>)
    requires bs != [] && forall i :: 0 <= i < |bs| ==> bs[i] < 256
    ensures EscapeAll(bs) + rest == Escape(bs[0]) + (EscapeAll(bs[1..]) + rest)
    ensures (EscapeAll(bs) + rest)[3 * |bs|..] == rest
  {
    assert EscapeAll(bs) == Escape(bs[0]) + EscapeAll(bs[1..]);
    Regroup(Escape(bs[0]), EscapeAll(bs[1..]), rest);
    DropPrefix(EscapeAll(bs), rest);
  }

  lemma Regroup(a: seq<char>, b: seq<char>, c: seq<char>)
    ensures (a + b) + c == a + (b + c)
  {
  }

  lemma DropPrefix(a: seq<char>, rest: seq<char>)
    ensures (a + rest)[|a|..] == rest
  {
  }

  /** An escape of an ASCII character decodes to it, ahead of what follows. */
  lemma DecodeSingleEscape(s: seq<char>, c: char, rest: seq<char>)
    requires c as int < 0x80 && |s| >= 3 && s[0] == '%' && s[3..] == rest
    requires EscapedOctet(s) == Some(c as int)
    ensures DecodeComponent(s) ==
      (match DecodeComponent(rest) case None => None case Some(t) => Some([c] + t))
  {
  }

  /** The escapes of a character's UTF-8 bytes decode to it, ahead of what follows. */
  lemma DecodeEscapedSequence(s: seq<char>, bs: seq<nat>, c: char, rest: seq<char>)
    requires |bs| >= 1 && bs[0] >= 0x80 && SequenceLength(bs[0]) == |bs|
    requires |s| >= 3 * |bs| && s[0] == '%' && s[3 * |bs|..] == rest
    requires EscapedOctet(s) == Some(bs[0]) && ReadEscapes(s, |bs|) == Some(bs)
    requires DecodeSequence(bs) == Some(c)
    ensures DecodeComponent(s) ==
      (match DecodeComponent(rest) case None => None case Some(t) => Some([c] + t))
  {
  }

  /** Decoding undoes encoding, for every string. */
  lemma {:induction false} DecodeEncode(s: seq<char>)
    ensures DecodeComponent(EncodeComponent(s)) == Some(s)
  {
    if s != [] {
      DecodeEncode(s[1..]);
      DecodeEncodedChar(s[0], EncodeComponent(s[1..]));
      assert [s[0]] + s[1..] == s;
    }
  }

  /** Text without `%` decodes to itself. */
  lemma {:induction false} DecodePlain(s: seq<char>)
    requires forall i :: 0 <= i < |s| ==> s[i] != '%'
    ensures DecodeComponent(s) == Some(s)
  {
    if s != [] {
      DecodePlain(s[1..]);
      assert [s[0]] + s[1..] == s;
    }
  }

  /**
   * The escape at the head of `s` cannot be decoded: `%` is not followed
   * by two hex digits, or the octet it gives is not ASCII and does not
   * start a well-formed UTF-8 sequence of escapes.
   */
  predicate BadEscape(s: seq<char>) {
    |s| >= 1 && s[0] == '%' &&
    match EscapedOctet(s)
    case None => true
    case Some(lead) =>
      lead >= 0x80 &&
      var n := SequenceLength(lead);
      n == 0 || ReadEscapes(s, n).None? || DecodeSequence(ReadEscapes(s, n).value).None?
  }

  /** A bad escape anywhere after plain text makes the whole call throw, whatever follows it. */
  lemma {:induction false} BadEscapeThrows(p: seq<char>, s: seq<char>)
    requires forall i :: 0 <= i < |p| ==> p[i] != '%'
    requires BadEscape(s)
    ensures DecodeComponent(p + s) == None
  {
    if p != [] {
      BadEscapeThrows(p[1..], s);
      assert (p + s)[1..] == p[1..] + s;
    } else {
      assert p + s == s;
    }
  }

  /** A truncated escape throws, also after plain text. */
  lemma TruncatedEscapes()
    ensures DecodeComponent("%") == None && DecodeComponent("ab%4") == None
  {
    BadEscapeThrows("", "%");
    BadEscapeThrows("ab", "%4");
  }

  /** `%` followed by characters that are not two hex digits throws. */
  lemma NonHexEscapes()
    ensures DecodeComponent("%zz") == None && DecodeComponent("%4g") == None
  {
    BadEscapeThrows("", "%zz");
    BadEscapeThrows("", "%4g");
  }

  /** Escapes that are not UTF-8 throw: a stray continuation byte, a lead byte followed by a non-continuation. */
  lemma InvalidUtf8Escapes()
    ensures DecodeComponent("%80") == None && DecodeComponent("%C3%28") == None
  {
    BadEscapeThrows("", "%80");
    BadEscapeThrows("", "%C3%28");
  }

  /** The UTF-8 bytes of a surrogate code point throw. */
  lemma SurrogateEscape()
    ensures DecodeComponent("%ED%A0%80") == None
  {
    BadEscapeThrows("", "%ED%A0%80");
  }
}
