/** Edit distance between two strings (addon/__init__.py:89-109): the standard
    prefix recurrence as the specification, and the two-row dynamic programme
    the add-on runs, proved to compute it. */
module Levenshtein {

  function Min3(a: nat, b: nat, c: nat): (m: nat)
    ensures m <= a && m <= b && m <= c
    ensures m == a || m == b || m == c
  {
    if a <= b && a <= c then a else if b <= c then b else c
  }

  /** Edit distance between the prefixes `s[..i]` and `t[..j]`: the least number
      of single-character insertions, deletions and substitutions turning one
      into the other, by the Wagner-Fischer recurrence. */
  function Dist(s: string, t: string, i: nat, j: nat): nat
    requires i <= |s| && j <= |t|
    decreases i + j
  {
    if i == 0 then j
    else if j == 0 then i
    else Min3(Dist(s, t, i - 1, j) + 1,
              Dist(s, t, i, j - 1) + 1,
              Dist(s, t, i - 1, j - 1) + (if s[i - 1] != t[j - 1] then 1 else 0))
  }

  function EditDistance(s: string, t: string): nat
  {
    Dist(s, t, |s|, |t|)
  }

  lemma {:induction false} DistSymmetric(s: string, t: string, i: nat, j: nat)
    requires i <= |s| && j <= |t|
    ensures Dist(s, t, i, j) == Dist(t, s, j, i)
    decreases i + j
  {
    if i > 0 && j > 0 {
      DistSymmetric(s, t, i - 1, j);
      DistSymmetric(s, t, i, j - 1);
      DistSymmetric(s, t, i - 1, j - 1);
    }
  }

  /** The distance does not depend on the order of its arguments. */
  lemma EditDistanceSymmetric(s: string, t: string)
    ensures EditDistance(s, t) == EditDistance(t, s)
  {
    DistSymmetric(s, t, |s|, |t|);
  }

  /** Against the empty string the distance is the other string's length. */
  lemma EditDistanceToEmpty(s: string)
    ensures EditDistance(s, "") == |s| && EditDistance("", s) == |s|
  {
  }

  lemma {:induction false} DistSelf(s: string, i: nat)
    requires i <= |s|
    ensures Dist(s, s, i, i) == 0
  {
    if i > 0 {
      DistSelf(s, i - 1);
    }
  }

  /** A string is at distance zero from itself. */
  lemma EditDistanceSelf(s: string)
    ensures EditDistance(s, s) == 0
  {
    DistSelf(s, |s|);
  }

  lemma {:induction false} DistLowerBound(s: string, t: string, i: nat, j: nat)
    requires i <= |s| && j <= |t|
    ensures i <= j + Dist(s, t, i, j) && j <= i + Dist(s, t, i, j)
    decreases i + j
  {
    if i > 0 && j > 0 {
      DistLowerBound(s, t, i - 1, j);
      DistLowerBound(s, t, i, j - 1);
      DistLowerBound(s, t, i - 1, j - 1);
    }
  }

  lemma {:induction false} DistUpperBound(s: string, t: string, i: nat, j: nat)
    requires i <= |s| && j <= |t|
    ensures Dist(s, t, i, j) <= (if i <= j then j else i)
    decreases i + j
  {
    if i > 0 && j > 0 {
      DistUpperBound(s, t, i - 1, j - 1);
    }
  }

  /** The distance is at least the difference of the lengths and at most the longer length. */
  lemma EditDistanceBounds(s: string, t: string)
    ensures (if |s| <= |t| then |t| - |s| else |s| - |t|) <= EditDistance(s, t)
    ensures EditDistance(s, t) <= (if |s| <= |t| then |t| else |s|)
  {
    DistLowerBound(s, t, |s|, |t|);
    DistUpperBound(s, t, |s|, |t|);
  }

  /** One pass of the outer loop of `levenshtein`: from the row of distances of
      `s1[..i]` to every prefix of `s2`, the row for `s1[..i + 1]`. */
  method NextRow(s1: string, s2: string, i: nat, previousRow: seq<nat>) returns (currentRow: seq<nat>)
    requires i < |s1|
    requires |previousRow| == |s2| + 1
    requires forall k :: 0 <= k <= |s2| ==> previousRow[k] == Dist(s1, s2, i, k)
    ensures |currentRow| == |s2| + 1
    ensures forall k :: 0 <= k <= |s2| ==> currentRow[k] == Dist(s1, s2, i + 1, k)
  {
    currentRow := [i + 1];
    for j := 0 to |s2|
      invariant |currentRow| == j + 1
      invariant forall k :: 0 <= k <= j ==> currentRow[k] == Dist(s1, s2, i + 1, k)
    {
      var insertions := previousRow[j + 1] + 1;
      var deletions := currentRow[j] + 1;
      var substitutions := previousRow[j] + (if s1[i] != s2[j] then 1 else 0);
      currentRow := currentRow + [Min3(insertions, deletions, substitutions)];
    }
  }

  /** `levenshtein(s1, s2)`: swaps the arguments so that `s2` is the shorter one,
      answers `len(s1)` when `s2` is empty, and otherwise keeps one row of the
      distance table, rebuilding it once per character of `s1`. */
  method Levenshtein(s1: string, s2: string) returns (d: nat)
    ensures d == EditDistance(s1, s2)
    decreases if |s1| < |s2| then 1 else 0
  {
    if |s1| < |s2| {
      d := Levenshtein(s2, s1);
      EditDistanceSymmetric(s2, s1);
      return;
    }
    if |s2| == 0 {
      return |s1|;
    }
    var previousRow: seq<nat> := seq(|s2| + 1, k => k);
    for i := 0 to |s1|
      invariant |previousRow| == |s2| + 1
      invariant forall k :: 0 <= k <= |s2| ==> previousRow[k] == Dist(s1, s2, i, k)
    {
      previousRow := NextRow(s1, s2, i, previousRow);
    }
    d := previousRow[|s2|];
  }
}
