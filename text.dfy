/**
 * The dashboard's free-text search: `field.toLowerCase().includes(term.toLowerCase())`.
 * Lower-casing is modelled on ASCII letters only.
 */
module Text {

  function LowerChar(c: char): char {
    if 'A' <= c <= 'Z' then (c as int + 32) as char else c
  }

  function ToLower(s: string): (r: string)
    ensures |r| == |s|
    ensures forall i :: 0 <= i < |s| ==> r[i] == LowerChar(s[i])
  {
    seq(|s|, i requires 0 <= i < |s| => LowerChar(s[i]))
  }

  /** `s.includes(sub)`: `sub` occurs as a contiguous part of `s`. */
  predicate Includes(s: string, sub: string)
    decreases |s|
  {
    sub <= s || (s != [] && Includes(s[1..], sub))
  }

  /** Case-insensitive `includes`, as both search boxes use it. */
  predicate MatchesTerm(field: string, term: string) {
    Includes(ToLower(field), ToLower(term))
  }

  /** An empty search box matches every field. */
  lemma EmptyTermMatches(field: string)
    ensures MatchesTerm(field, "")
  {
    assert ToLower("") == "";
  }
}
