/** The two Python string operations the engine relies on: `sep.join(parts)` and `pat in s`. */
module Text {

  /** `sep.join(parts)`. */
  function Join(parts: seq<string>, sep: string): string
  {
    if |parts| == 0 then ""
    else if |parts| == 1 then parts[0]
    else parts[0] + sep + Join(parts[1..], sep)
  }

  /** `pat` occurs in `s` starting at index `i`. */
  predicate OccursAt(s: string, pat: string, i: int)
  {
    0 <= i && i + |pat| <= |s| && s[i..i + |pat|] == pat
  }

  /** Python's `pat in s` on strings: `pat` is a contiguous substring of `s`. */
  predicate Contains(s: string, pat: string)
  {
    exists i :: 0 <= i <= |s| - |pat| && OccursAt(s, pat, i)
  }

  lemma ContainsPrefix(pat: string, rest: string)
    ensures Contains(pat + rest, pat)
  {
    assert (pat + rest)[0..|pat|] == pat;
    assert OccursAt(pat + rest, pat, 0);
  }

  lemma ContainsSuffix(front: string, pat: string)
    ensures Contains(front + pat, pat)
  {
    var s := front + pat;
    assert s[|front|..|front| + |pat|] == pat;
    assert OccursAt(s, pat, |front|);
  }

  lemma ContainsInMiddle(front: string, pat: string, back: string)
    ensures Contains(front + pat + back, pat)
  {
    var s := front + pat + back;
    assert s[|front|..|front| + |pat|] == pat;
    assert OccursAt(s, pat, |front|);
  }

  lemma ShorterDoesNotContain(s: string, pat: string)
    requires |s| < |pat|
    ensures !Contains(s, pat)
  {
  }

  /** Every part of `sep.join(parts)` occurs in the joined string. */
  lemma {:induction false} JoinContainsPart(parts: seq<string>, sep: string, k: nat)
    requires k < |parts|
    ensures Contains(Join(parts, sep), parts[k])
  {
    if |parts| == 1 {
      ContainsPrefix(parts[0], "");
      assert parts[0] + "" == parts[0];
    } else if k == 0 {
      ContainsPrefix(parts[0], sep + Join(parts[1..], sep));
      assert Join(parts, sep) == parts[0] + (sep + Join(parts[1..], sep));
    } else {
      JoinContainsPart(parts[1..], sep, k - 1);
      var rest := Join(parts[1..], sep);
      var i :| 0 <= i <= |rest| - |parts[k]| && OccursAt(rest, parts[k], i);
      var front := parts[0] + sep;
      assert Join(parts, sep) == front + rest;
      assert (front + rest)[|front| + i..|front| + i + |parts[k]|] == rest[i..i + |parts[k]|];
      assert OccursAt(Join(parts, sep), parts[k], |front| + i);
    }
  }
}
