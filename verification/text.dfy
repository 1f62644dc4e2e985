/** The two string operations the address check relies on: `toLowerCase()` and
    `includes(...)`. Lower-casing is modelled on ASCII letters; see README for why
    that decides the "tandil" test exactly as the full Unicode mapping does. */
module Text {

  function LowerChar(c: char): char {
    if 'A' <= c <= 'Z' then (c as int + 32) as char else c
  }

  /** `s.toLowerCase()`: same length, each character lowered on its own. */
  function Lower(s: string): (r: string)
    ensures |r| == |s|
    ensures forall i :: 0 <= i < |s| ==> r[i] == LowerChar(s[i])
  {
    if s == [] then [] else [LowerChar(s[0])] + Lower(s[1..])
  }

  /** `p` occurs in `s` starting at index `i`. */
  predicate OccursAt(s: string, p: string, i: int) {
    0 <= i && i + |p| <= |s| && s[i..i + |p|] == p
  }

  /** `s.includes(p)`, searched left to right. */
  function Includes(s: string, p: string): (r: bool)
    ensures r <==> exists i :: OccursAt(s, p, i)
    decreases |s|
  {
    if |p| > |s| then false
    else if s[..|p|] == p then
      assert OccursAt(s, p, 0);
      true
    else
      var r := Includes(s[1..], p);
      if r then
        var j :| OccursAt(s[1..], p, j);
        assert s[j + 1..j + 1 + |p|] == s[1..][j..j + |p|];
        assert OccursAt(s, p, j + 1);
        r
      else
        OccurrenceShifts(s, p);
        r
  }

  /** An occurrence past the first position is an occurrence in the tail. */
  lemma OccurrenceShifts(s: string, p: string)
    requires |p| <= |s| && s[..|p|] != p
    ensures forall i :: OccursAt(s, p, i) ==> OccursAt(s[1..], p, i - 1)
  {
  }

  lemma LowerAppend(a: string, b: string)
    ensures Lower(a + b) == Lower(a) + Lower(b)
  {
  }
}
