/** Duplicate removal of the caption parser: a record is kept when no
    earlier record has the same length and width (`filter` with
    `findIndex`). Sizes are normalized decimals, so equality of `Dec` values
    is the `===` comparison of the numbers they stand for. */
module Dedup {
  import opened Numerals
  import opened Measures

  datatype Size = Size(largo: Dec, ancho: Dec)

  function SizeOf(m: Measure): Size {
    Size(m.largo, m.ancho)
  }

  /** The sizes occurring in a list of records. */
  function Sizes(s: seq<Measure>): set<Size> {
    set m | m in s :: SizeOf(m)
  }

  predicate DistinctSizes(s: seq<Measure>) {
    forall i, j :: 0 <= i < j < |s| ==> SizeOf(s[i]) != SizeOf(s[j])
  }

  /** `self.findIndex(m => m.largo === k.largo && m.ancho === k.ancho)`:
      the first position holding size `k`, or -1 when there is none. */
  function FindIndex(s: seq<Measure>, k: Size): (r: int)
    ensures -1 <= r < |s|
    ensures r == -1 <==> forall j :: 0 <= j < |s| ==> SizeOf(s[j]) != k
    ensures r >= 0 ==> SizeOf(s[r]) == k && forall j :: 0 <= j < r ==> SizeOf(s[j]) != k
  {
    if s == [] then -1
    else if SizeOf(s[0]) == k then 0
    else
      var i := FindIndex(s[1..], k);
      if i == -1 then -1 else i + 1
  }

  /** `self.filter((x, index) => index === FindIndex(self, SizeOf(x)))`
      restricted to the positions from `from` on. */
  function FilterFirst(self: seq<Measure>, from: nat): seq<Measure>
    requires from <= |self|
    decreases |self| - from
  {
    if from == |self| then []
    else
      var rest := FilterFirst(self, from + 1);
      if FindIndex(self, SizeOf(self[from])) == from then [self[from]] + rest else rest
  }

  /** Every record the filter keeps from position `from` on is the first of
      its size, at or after `from`. */
  lemma {:induction false} FilterFirstKeepsFirsts(self: seq<Measure>, from: nat)
    requires from <= |self|
    ensures forall i :: 0 <= i < |FilterFirst(self, from)| ==>
      from <= FindIndex(self, SizeOf(FilterFirst(self, from)[i]))
    ensures forall i :: 0 <= i < |FilterFirst(self, from)| ==>
      FilterFirst(self, from)[i] == self[FindIndex(self, SizeOf(FilterFirst(self, from)[i]))]
    decreases |self| - from
  {
    if from < |self| {
      FilterFirstKeepsFirsts(self, from + 1);
      var rest := FilterFirst(self, from + 1);
      var kept := FindIndex(self, SizeOf(self[from])) == from;
      var r := FilterFirst(self, from);
      assert r == if kept then [self[from]] + rest else rest;
      forall i | 0 <= i < |r|
        ensures from <= FindIndex(self, SizeOf(r[i])) && r[i] == self[FindIndex(self, SizeOf(r[i]))]
      {
        if !kept {
          assert r[i] == rest[i];
        } else if i > 0 {
          assert r[i] == rest[i - 1];
        }
      }
    }
  }

  /** The kept records appear in order of first occurrence. */
  lemma {:induction false} FilterFirstInOrder(self: seq<Measure>, from: nat)
    requires from <= |self|
    ensures forall i, j :: 0 <= i < j < |FilterFirst(self, from)| ==>
      FindIndex(self, SizeOf(FilterFirst(self, from)[i])) < FindIndex(self, SizeOf(FilterFirst(self, from)[j]))
    decreases |self| - from
  {
    if from < |self| {
      FilterFirstInOrder(self, from + 1);
      FilterFirstKeepsFirsts(self, from + 1);
      var rest := FilterFirst(self, from + 1);
      var kept := FindIndex(self, SizeOf(self[from])) == from;
      var r := FilterFirst(self, from);
      if !kept {
        assert r == rest;
      } else {
        assert r == [self[from]] + rest;
        forall i, j | 0 <= i < j < |r|
          ensures FindIndex(self, SizeOf(r[i])) < FindIndex(self, SizeOf(r[j]))
        {
          assert r[j] == rest[j - 1];
          assert from + 1 <= FindIndex(self, SizeOf(rest[j - 1]));
          if i > 0 {
            assert r[i] == rest[i - 1];
          }
        }
      }
    }
  }

  /** Every record from position `from` on that is the first of its size is
      kept. */
  lemma {:induction false} FilterFirstKeepsAllFirsts(self: seq<Measure>, from: nat)
    requires from <= |self|
    ensures forall j :: from <= j < |self| && FindIndex(self, SizeOf(self[j])) == j ==>
      self[j] in FilterFirst(self, from)
    decreases |self| - from
  {
    if from < |self| {
      FilterFirstKeepsAllFirsts(self, from + 1);
      var rest := FilterFirst(self, from + 1);
      if FindIndex(self, SizeOf(self[from])) == from {
        assert FilterFirst(self, from) == [self[from]] + rest;
      } else {
        assert FilterFirst(self, from) == rest;
      }
    }
  }

  /** The records of `s` without duplicates: each size once, carried by the
      record where it first occurs, in order of first occurrence, and no
      size of `s` lost. */
  function UniqueMeasures(s: seq<Measure>): (r: seq<Measure>)
    ensures DistinctSizes(r)
    ensures forall i :: 0 <= i < |r| ==> 0 <= FindIndex(s, SizeOf(r[i])) && r[i] == s[FindIndex(s, SizeOf(r[i]))]
    ensures forall i, j :: 0 <= i < j < |r| ==> FindIndex(s, SizeOf(r[i])) < FindIndex(s, SizeOf(r[j]))
    ensures Sizes(r) == Sizes(s)
    ensures |r| <= |s|
  {
    FilterFirstKeepsFirsts(s, 0);
    FilterFirstInOrder(s, 0);
    FilteredDistinct(s);
    FilteredSizes(s);
    FilteredShorter(s);
    FilterFirst(s, 0)
  }

  /** Every record kept is a record of the input; an empty input keeps
      nothing. */
  lemma UniqueMeasuresFrom(s: seq<Measure>)
    ensures forall i :: 0 <= i < |UniqueMeasures(s)| ==> UniqueMeasures(s)[i] in s
    ensures s == [] ==> UniqueMeasures(s) == []
  {
    var r := UniqueMeasures(s);
    forall i | 0 <= i < |r| ensures r[i] in s {
      assert r[i] == s[FindIndex(s, SizeOf(r[i]))];
    }
  }

  lemma FilteredDistinct(s: seq<Measure>)
    ensures DistinctSizes(FilterFirst(s, 0))
  {
    var r := FilterFirst(s, 0);
    FilterFirstInOrder(s, 0);
    forall i, j | 0 <= i < j < |r| ensures SizeOf(r[i]) != SizeOf(r[j]) {
      assert FindIndex(s, SizeOf(r[i])) < FindIndex(s, SizeOf(r[j]));
    }
  }

  lemma FilteredSizes(s: seq<Measure>)
    ensures Sizes(FilterFirst(s, 0)) == Sizes(s)
  {
    var r := FilterFirst(s, 0);
    FilterFirstKeepsFirsts(s, 0);
    FilterFirstKeepsAllFirsts(s, 0);
    forall k | k in Sizes(r) ensures k in Sizes(s) {
      var i :| 0 <= i < |r| && SizeOf(r[i]) == k;
      var p := FindIndex(s, SizeOf(r[i]));
      assert r[i] == s[p];
    }
    forall k | k in Sizes(s) ensures k in Sizes(r) {
      var m :| m in s && SizeOf(m) == k;
      var p := FindIndex(s, k);
      assert s[p] in r;
    }
  }

  lemma FilteredShorter(s: seq<Measure>)
    ensures |FilterFirst(s, 0)| <= |s|
  {
    var r := FilterFirst(s, 0);
    FilterFirstKeepsFirsts(s, 0);
    FilterFirstInOrder(s, 0);
    var f := i requires 0 <= i < |r| => FindIndex(s, SizeOf(r[i]));
    StrictlyIncreasingBound(r, s, f);
  }

  /** A strictly increasing map from the positions of `r` into those of `s`
      shows that `r` is no longer than `s`. */
  lemma {:induction false} StrictlyIncreasingBound(r: seq<Measure>, s: seq<Measure>, f: int --> int)
    requires forall i :: 0 <= i < |r| ==> f.requires(i) && 0 <= f(i) < |s|
    requires forall i, j :: 0 <= i < j < |r| ==> f(i) < f(j)
    ensures |r| <= |s|
  {
    if |r| > 0 {
      var g := i requires 0 <= i < |r| - 1 => f(i);
      StrictlyIncreasingBound(r[..|r| - 1], s[..f(|r| - 1)], g);
    }
  }

  /** Removing duplicates from a list that has none changes nothing. */
  lemma {:induction false} DistinctFixed(s: seq<Measure>)
    requires DistinctSizes(s)
    ensures UniqueMeasures(s) == s
  {
    FilterFirstOfDistinct(s, 0);
  }

  lemma {:induction false} FilterFirstOfDistinct(s: seq<Measure>, from: nat)
    requires from <= |s|
    requires DistinctSizes(s)
    ensures FilterFirst(s, from) == s[from..]
    decreases |s| - from
  {
    if from < |s| {
      assert FindIndex(s, SizeOf(s[from])) == from by {
        FirstOfDistinct(s, from);
      }
      FilterFirstOfDistinct(s, from + 1);
      assert s[from..] == [s[from]] + s[from + 1..];
    }
  }

  lemma FirstOfDistinct(s: seq<Measure>, j: nat)
    requires DistinctSizes(s) && j < |s|
    ensures FindIndex(s, SizeOf(s[j])) == j
  {
  }

  /** Removing duplicates twice is removing them once. */
  lemma UniqueMeasuresIdempotent(s: seq<Measure>)
    ensures UniqueMeasures(UniqueMeasures(s)) == UniqueMeasures(s)
  {
    DistinctFixed(UniqueMeasures(s));
  }
}
