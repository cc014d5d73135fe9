// Character and substring helpers shared by the modules that lower-case,
// search or split text. Lower-casing covers ASCII letters only.

module Text {
  /** ASCII upper case to lower case; other characters unchanged. Unicode lower-casing gives the same outcome on the fixed ASCII preset names, and on the method and key names compared with ASCII words. */
  function Lower(c: char): char
  {
    if 'A' <= c <= 'Z' then (c as int + 32) as char else c
  }

  /** The string lower-cased character by character. */
  function LowerAll(s: string): (r: string)
    ensures |r| == |s|
    ensures forall i :: 0 <= i < |s| ==> r[i] == Lower(s[i])
  {
    seq(|s|, i requires 0 <= i < |s| => Lower(s[i]))
  }

  /** `t` occurs in `s` at position k. */
  predicate OccursAt(t: string, s: string, k: int)
  {
    0 <= k && k + |t| <= |s| && s[k..k + |t|] == t
  }

  /** `str::contains`: `t` occurs somewhere in `s`. */
  predicate Contains(s: string, t: string)
  {
    exists k | 0 <= k <= |s| :: OccursAt(t, s, k)
  }

  /** `str::starts_with`. */
  predicate StartsWith(s: string, t: string)
  {
    |t| <= |s| && s[..|t|] == t
  }

  /** A string starts with each of its prefixes and contains what it starts with. */
  lemma StartsWithContains(s: string, t: string)
    requires StartsWith(s, t)
    ensures Contains(s, t)
  {
    assert OccursAt(t, s, 0);
  }

  /** What a string contains, a longer string around it contains too. */
  lemma ContainsExtend(a: string, s: string, b: string, t: string)
    requires Contains(s, t)
    ensures Contains(a + s + b, t)
  {
    var k :| 0 <= k <= |s| && OccursAt(t, s, k);
    assert (a + s + b)[|a| + k..|a| + k + |t|] == s[k..k + |t|];
    assert OccursAt(t, a + s + b, |a| + k);
  }
}
