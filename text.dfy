/** Python's `sub in text` on strings. */
module Text {

  /** `pat` occurs in `text` starting at index `at`. */
  ghost predicate OccursAt(text: string, pat: string, at: int)
  {
    0 <= at && at + |pat| <= |text| && text[at..at + |pat|] == pat
  }

  /** `pat in text`, scanning left to right; the empty pattern is in every string. */
  function Contains(text: string, pat: string): (r: bool)
    ensures r <==> exists at :: OccursAt(text, pat, at)
    decreases |text|
  {
    if |text| < |pat| then false
    else if text[..|pat|] == pat then
      assert OccursAt(text, pat, 0);
      true
    else
      ShiftOccurs(text, pat);
      Contains(text[1..], pat)
  }

  /** Past the first position, occurrences in `text` are those in `text[1..]`, shifted by one. */
  lemma ShiftOccurs(text: string, pat: string)
    requires |text| > 0 && !OccursAt(text, pat, 0)
    ensures (exists at :: OccursAt(text, pat, at)) <==> (exists at :: OccursAt(text[1..], pat, at))
  {
    forall at | OccursAt(text[1..], pat, at)
      ensures OccursAt(text, pat, at + 1)
    {
      assert text[1..][at..at + |pat|] == text[at + 1..at + 1 + |pat|];
    }
    forall at | OccursAt(text, pat, at)
      ensures OccursAt(text[1..], pat, at - 1)
    {
      assert text[1..][at - 1..at - 1 + |pat|] == text[at..at + |pat|];
    }
  }
}
