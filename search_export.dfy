/**
 * Saving search results as CSV (`save_to_csv` in google_search.py,
 * `SaveToCSV` in google_search.go): a UTF-8 byte order mark, the header
 * `rank,title,url,display_url`, then one row per result. Python's
 * `csv` module ends rows with CRLF and quotes a field holding a comma, a
 * quote or a line break; Go's `encoding/csv` ends rows with LF and also
 * quotes a field that starts with a space or is exactly `\.`. A reader
 * for the written text recovers every field.
 */
module SearchExport {
  import opened Wrappers
  import SearchClient
  import opened Decimal

  const Bom: char := '\U{FEFF}'
  const Header: seq<seq<char>> := ["rank", "title", "url", "display_url"]

  // ---------------------------------------------------------------- fields

  /** A character that forces a field into quotes in both dialects. */
  predicate IsSpecial(c: char) {
    c == ',' || c == '"' || c == '\r' || c == '\n'
  }

  predicate HasSpecial(f: seq<char>) {
    exists i :: 0 <= i < |f| && IsSpecial(f[i])
  }

  /** Python's `QUOTE_MINIMAL`. */
  predicate PythonQuotes(f: seq<char>) {
    HasSpecial(f)
  }

  /** Unicode white space as Go's `unicode.IsSpace` sees it. */
  predicate IsGoSpace(c: char) {
    c == '\t' || c == '\n' || c == '\U{000B}' || c == '\U{000C}' || c == '\r' || c == ' '
    || c == '\U{0085}' || c == '\U{00A0}' || c == '\U{1680}' || ('\U{2000}' <= c <= '\U{200A}')
    || c == '\U{2028}' || c == '\U{2029}' || c == '\U{202F}' || c == '\U{205F}' || c == '\U{3000}'
  }

  /** `fieldNeedsQuotes` of Go's `encoding/csv`. */
  predicate GoQuotes(f: seq<char>) {
    f != [] && (f == "\\." || HasSpecial(f) || IsGoSpace(f[0]))
  }

  /** Each `"` doubled. */
  function Doubled(f: seq<char>): (r: seq<char>)
    ensures |r| >= |f|
  {
    if f == [] then [] else (if f[0] == '"' then "\"\"" else [f[0]]) + Doubled(f[1..])
  }

  function Field(f: seq<char>, quote: bool): seq<char> {
    if quote then ['"'] + Doubled(f) + ['"'] else f
  }

  datatype Dialect = PythonCsv | GoCsv

  function Quotes(d: Dialect, f: seq<char>): bool {
    if d == PythonCsv then PythonQuotes(f) else GoQuotes(f)
  }

  function LineEnd(d: Dialect): seq<char> {
    if d == PythonCsv then "\r\n" else "\n"
  }

  /** One row: the fields, comma separated, then the line end. */
  function Row(d: Dialect, fields: seq<seq<char>>): seq<char> {
    Joined(d, fields) + LineEnd(d)
  }

  function Joined(d: Dialect, fields: seq<seq<char>>): seq<char> {
    if fields == [] then []
    else if |fields| == 1 then Field(fields[0], Quotes(d, fields[0]))
    else Field(fields[0], Quotes(d, fields[0])) + [','] + Joined(d, fields[1..])
  }

  function RecordFields(r: SearchClient.Record): seq<seq<char>> {
    [IntText(r.rank), r.title, r.url, r.displayUrl]
  }

  function Rows(d: Dialect, rs: seq<SearchClient.Record>): seq<char> {
    if rs == [] then [] else Row(d, RecordFields(rs[0])) + Rows(d, rs[1..])
  }

  /** What saving leaves behind: no file at all, or a file with these contents. */
  datatype Saved = NoFile | File(contents: seq<char>)

  /** The file's contents for a non-empty result list. */
  function Contents(d: Dialect, rs: seq<SearchClient.Record>): seq<char> {
    FileText(d, Header, rs)
  }

  function FileText(d: Dialect, head: seq<seq<char>>, rs: seq<SearchClient.Record>): seq<char> {
    [Bom] + Row(d, head) + Rows(d, rs)
  }

  // ---------------------------------------------------------------- the writers

  /**
   * `save_to_csv`: nothing is written for an empty list; the exception
   * `open` raises when the file cannot be opened propagates to the caller;
   * otherwise the header and one row per result, each with `rank`,
   * `title`, `url` and `display_url`.
   */
  method SaveToCsvPython(rs: seq<SearchClient.Record>, openFails: bool) returns (r: Result<Saved, seq<char>>)
    ensures rs == [] ==> r == Ok(NoFile)
    ensures rs != [] && openFails ==> r.Err?
    ensures rs != [] && !openFails ==> r == Ok(File(Contents(PythonCsv, rs)))
  {
    if rs == [] {
      return Ok(NoFile);
    }
    if openFails {
      return Err("open raised");
    }
    var out := [Bom] + Row(PythonCsv, Header);
    var i := 0;
    while i < |rs|
      invariant 0 <= i <= |rs|
      invariant out + Rows(PythonCsv, rs[i..]) == Contents(PythonCsv, rs)
    {
      assert rs[i..][1..] == rs[i + 1..];
      out := out + Row(PythonCsv, RecordFields(rs[i]));
      i := i + 1;
    }
    assert rs[i..] == [];
    assert Rows(PythonCsv, rs[i..]) == [];
    assert out == Contents(PythonCsv, rs);
    return Ok(File(out));
  }

  /**
   * `SaveToCSV`: nothing for an empty list; an error when the file cannot
   * be created; otherwise the mark, the header and the rows.
   */
  method SaveToCsvGo(rs: seq<SearchClient.Record>, createFails: bool) returns (r: Result<Saved, seq<char>>)
    ensures rs == [] ==> r == Ok(NoFile)
    ensures rs != [] && createFails ==> r.Err?
    ensures rs != [] && !createFails ==> r == Ok(File(Contents(GoCsv, rs)))
  {
    if rs == [] {
      return Ok(NoFile);
    }
    if createFails {
      return Err("failed to create file");
    }
    var out := [Bom] + Row(GoCsv, Header);
    var i := 0;
    while i < |rs|
      invariant 0 <= i <= |rs|
      invariant out + Rows(GoCsv, rs[i..]) == Contents(GoCsv, rs)
    {
      assert rs[i..][1..] == rs[i + 1..];
      out := out + Row(GoCsv, RecordFields(rs[i]));
      i := i + 1;
    }
    assert rs[i..] == [];
    assert Rows(GoCsv, rs[i..]) == [];
    assert out == Contents(GoCsv, rs);
    return Ok(File(out));
  }

  // ---------------------------------------------------------------- a reader

  /** The rest of a quoted field after its opening quote: its text and what follows the closing quote. */
  function ReadQuoted(s: seq<char>): (r: Option<(seq<char>, seq<char>)>)
    ensures r.Some? ==> |r.value.1| < |s|
    decreases |s|
  {
    if s == [] then None
    else if s[0] == '"' then
      if |s| > 1 && s[1] == '"' then
        match ReadQuoted(s[2..])
        case None => None
        case Some((text, rest)) => Some((['"'] + text, rest))
      else Some(([], s[1..]))
    else
      match ReadQuoted(s[1..])
      case None => None
      case Some((text, rest)) => Some(([s[0]] + text, rest))
  }

  /** An unquoted field: everything up to a comma or a line break. */
  function ReadPlain(s: seq<char>): (r: (seq<char>, seq<char>))
    ensures r.0 + r.1 == s
    decreases |s|
  {
    if s == [] || s[0] == ',' || s[0] == '\r' || s[0] == '\n' then ([], s)
    else var (text, rest) := ReadPlain(s[1..]); ([s[0]] + text, rest)
  }

  function ReadField(s: seq<char>): (r: Option<(seq<char>, seq<char>)>)
    ensures r.Some? ==> |r.value.1| <= |s|
  {
    if s != [] && s[0] == '"' then ReadQuoted(s[1..]) else Some(ReadPlain(s))
  }

  /** `n` comma-separated fields. */
  function ReadFields(s: seq<char>, n: nat): (r: Option<(seq<seq<char>>, seq<char>)>)
    requires n >= 1
    ensures r.Some? ==> |r.value.1| <= |s| && |r.value.0| == n
    decreases n
  {
    match ReadField(s)
    case None => None
    case Some((f, rest)) =>
      if n == 1 then Some(([f], rest))
      else if rest != [] && rest[0] == ',' then
        match ReadFields(rest[1..], n - 1)
        case None => None
        case Some((fs, rest')) => Some(([f] + fs, rest'))
      else None
  }

  /** Rows of `width` fields, each closed by the dialect's line end, to the end of the text. */
  function ReadRows(d: Dialect, s: seq<char>, width: nat): Option<seq<seq<seq<char>>>>
    requires width >= 1
    decreases |s|
  {
    if s == [] then Some([])
    else
      match ReadFields(s, width)
      case None => None
      case Some((fields, rest)) =>
        var eol := LineEnd(d);
        if |rest| >= |eol| && rest[..|eol|] == eol then
          match ReadRows(d, rest[|eol|..], width)
          case None => None
          case Some(rows) => Some([fields] + rows)
        else None
  }

  /** The rows of a saved file, after its byte order mark. */
  function ReadFile(d: Dialect, contents: seq<char>): Option<seq<seq<seq<char>>>> {
    if contents != [] && contents[0] == Bom then ReadRows(d, contents[1..], |Header|) else None
  }

  // ---------------------------------------------------------------- round trip

  /** A field may follow with a comma, a line break or the end of the text. */
  predicate Boundary(rest: seq<char>) {
    rest == [] || rest[0] == ',' || rest[0] == '\r' || rest[0] == '\n'
  }

  lemma {:induction false} ReadDoubled(f: seq<char>, rest: seq<char>)
    requires Boundary(rest)
    ensures ReadQuoted(Doubled(f) + ['"'] + rest) == Some((f, rest))
    decreases |f|
  {
    var s := Doubled(f) + ['"'] + rest;
    if f == [] {
      assert s == ['"'] + rest;
      assert s[1..] == rest;
    } else if f[0] == '"' {
      assert s == "\"\"" + (Doubled(f[1..]) + ['"'] + rest);
      assert s[2..] == Doubled(f[1..]) + ['"'] + rest;
      ReadDoubled(f[1..], rest);
      assert ['"'] + f[1..] == f;
    } else {
      assert s == [f[0]] + (Doubled(f[1..]) + ['"'] + rest);
      assert s[1..] == Doubled(f[1..]) + ['"'] + rest;
      ReadDoubled(f[1..], rest);
      assert [f[0]] + f[1..] == f;
    }
  }

  lemma {:induction false} ReadPlainField(f: seq<char>, rest: seq<char>)
    requires !HasSpecial(f) && Boundary(rest)
    ensures ReadPlain(f + rest) == (f, rest)
    decreases |f|
  {
    if f == [] {
      assert f + rest == rest;
    } else {
      assert !IsSpecial(f[0]);
      assert (f + rest)[1..] == f[1..] + rest;
      assert !HasSpecial(f[1..]) by {
        forall i | 0 <= i < |f[1..]| ensures !IsSpecial(f[1..][i]) {
          assert f[1..][i] == f[i + 1];
        }
      }
      ReadPlainField(f[1..], rest);
      assert [f[0]] + f[1..] == f;
    }
  }

  /** Every field the writers emit reads back as itself. */
  lemma ReadWrittenField(d: Dialect, f: seq<char>, rest: seq<char>)
    requires Boundary(rest)
    ensures ReadField(Field(f, Quotes(d, f)) + rest) == Some((f, rest))
  {
    if Quotes(d, f) {
      ReadQuotedField(f, rest);
    } else {
      assert !HasSpecial(f);
      ReadUnquotedField(f, rest);
    }
  }

  lemma ReadQuotedField(f: seq<char>, rest: seq<char>)
    requires Boundary(rest)
    ensures ReadField(Field(f, true) + rest) == Some((f, rest))
  {
    var s := Field(f, true) + rest;
    assert s == ['"'] + (Doubled(f) + ['"'] + rest);
    assert s[1..] == Doubled(f) + ['"'] + rest;
    ReadDoubled(f, rest);
  }

  lemma ReadUnquotedField(f: seq<char>, rest: seq<char>)
    requires !HasSpecial(f) && Boundary(rest)
    ensures ReadField(Field(f, false) + rest) == Some((f, rest))
  {
    ReadPlainField(f, rest);
    if f != [] {
      assert !IsSpecial(f[0]);
    }
  }

  lemma ReadFieldsCons(w: seq<char>, t: seq<char>, n: nat, f: seq<char>, fs: seq<seq<char>>, r: seq<char>)
    requires n >= 2
    requires ReadField(w + ([','] + t)) == Some((f, [','] + t))
    requires ReadFields(t, n - 1) == Some((fs, r))
    ensures ReadFields(w + ([','] + t), n) == Some(([f] + fs, r))
  {
    assert ([','] + t)[1..] == t;
  }

  /** A joined list of two or more fields: the first field, a comma, the rest joined. */
  lemma JoinedCons(d: Dialect, fields: seq<seq<char>>, rest: seq<char>)
    requires |fields| >= 2
    ensures Joined(d, fields) + rest
         == Field(fields[0], Quotes(d, fields[0])) + ([','] + (Joined(d, fields[1..]) + rest))
  {
  }

  lemma {:induction false} ReadJoined(d: Dialect, fields: seq<seq<char>>, rest: seq<char>)
    requires fields != [] && Boundary(rest) && rest != [] && rest[0] != ','
    ensures ReadFields(Joined(d, fields) + rest, |fields|) == Some((fields, rest))
    decreases |fields|
  {
    var f := fields[0];
    if |fields| == 1 {
      ReadWrittenField(d, f, rest);
      assert [f] == fields;
    } else {
      var tail := Joined(d, fields[1..]) + rest;
      var written := Field(f, Quotes(d, f));
      JoinedCons(d, fields, rest);
      ReadWrittenField(d, f, [','] + tail);
      ReadJoined(d, fields[1..], rest);
      ReadFieldsCons(written, tail, |fields|, f, fields[1..], rest);
      assert [f] + fields[1..] == fields;
    }
  }

  lemma ReadRow(d: Dialect, fields: seq<seq<char>>, more: seq<char>)
    requires fields != []
    ensures ReadFields(Row(d, fields) + more, |fields|) == Some((fields, LineEnd(d) + more))
  {
    var eol := LineEnd(d);
    assert Row(d, fields) + more == Joined(d, fields) + (eol + more);
    ReadJoined(d, fields, eol + more);
  }

  lemma ReadRowsCons(d: Dialect, row: seq<char>, more: seq<char>, width: nat, fields: seq<seq<char>>, rows: seq<seq<seq<char>>>)
    requires width >= 1 && row != []
    requires ReadFields(row + more, width) == Some((fields, LineEnd(d) + more))
    requires ReadRows(d, more, width) == Some(rows)
    ensures ReadRows(d, row + more, width) == Some([fields] + rows)
  {
    var eol := LineEnd(d);
    var rest := eol + more;
    assert rest[..|eol|] == eol && rest[|eol|..] == more;
    assert |row + more| > 0;
  }

  function FieldsOf(rs: seq<SearchClient.Record>): (r: seq<seq<seq<char>>>)
    ensures |r| == |rs| && forall i :: 0 <= i < |rs| ==> r[i] == RecordFields(rs[i])
  {
    seq(|rs|, i requires 0 <= i < |rs| => RecordFields(rs[i]))
  }

  lemma {:induction false} ReadWrittenRows(d: Dialect, rs: seq<SearchClient.Record>)
    ensures ReadRows(d, Rows(d, rs), 4) == Some(FieldsOf(rs))
    decreases |rs|
  {
    if rs != [] {
      var row := Row(d, RecordFields(rs[0]));
      var more := Rows(d, rs[1..]);
      assert Rows(d, rs) == row + more;
      assert |row| > 0 by { assert |row| >= |LineEnd(d)|; }
      ReadRow(d, RecordFields(rs[0]), more);
      ReadWrittenRows(d, rs[1..]);
      ReadRowsCons(d, row, more, 4, RecordFields(rs[0]), FieldsOf(rs[1..]));
      FieldsOfCons(rs);
    }
  }

  lemma FieldsOfCons(rs: seq<SearchClient.Record>)
    requires rs != []
    ensures FieldsOf(rs) == [RecordFields(rs[0])] + FieldsOf(rs[1..])
  {
    var a := FieldsOf(rs);
    var b := [RecordFields(rs[0])] + FieldsOf(rs[1..]);
    forall i | 0 <= i < |a|
      ensures a[i] == b[i]
    {
      if i > 0 {
        assert b[i] == FieldsOf(rs[1..])[i - 1];
        assert rs[1..][i - 1] == rs[i];
      }
    }
  }

  /**
   * Reading a saved file gives back the header and, for every result in
   * order, its rank, title, url and display url.
   */
  lemma ReadSavedFile(d: Dialect, head: seq<seq<char>>, rs: seq<SearchClient.Record>)
    requires |head| == |Header|
    ensures ReadFile(d, FileText(d, head, rs)) == Some([head] + FieldsOf(rs))
  {
    var body := Row(d, head) + Rows(d, rs);
    ReadAfterMark(d, body);
    assert FileText(d, head, rs) == [Bom] + body;
    ReadHeaderAndRows(d, head, rs);
  }

  lemma ReadAfterMark(d: Dialect, body: seq<char>)
    ensures ReadFile(d, [Bom] + body) == ReadRows(d, body, 4)
  {
    assert ([Bom] + body)[1..] == body;
  }

  lemma ReadHeaderAndRows(d: Dialect, head: seq<seq<char>>, rs: seq<SearchClient.Record>)
    requires |head| == 4
    ensures ReadRows(d, Row(d, head) + Rows(d, rs), 4) == Some([head] + FieldsOf(rs))
  {
    ReadRow(d, head, Rows(d, rs));
    ReadWrittenRows(d, rs);
    assert |Row(d, head)| > 0 by { assert |Row(d, head)| >= |LineEnd(d)|; }
    ReadRowsCons(d, Row(d, head), Rows(d, rs), 4, head, FieldsOf(rs));
  }

  /** A rank is written as plain digits, never quoted, and reads back as the rank. */
  lemma RankField(d: Dialect, rank: nat)
    ensures !Quotes(d, IntText(rank))
    ensures ParseNat(IntText(rank)) == rank
  {
    var s := IntText(rank);
    assert !HasSpecial(s) by {
      forall i | 0 <= i < |s| ensures !IsSpecial(s[i]) { }
    }
    ParseNatText(rank);
  }
}
