/**
 Closest-match classification of a physical diameter against the
 denomination table. The table is scanned in order, keeping the entry with the
 smallest difference seen so far, and an entry is only accepted when its
 difference is strictly below the tolerance. Because a later entry must be
 strictly closer to replace the current best, ties go to the entry scanned
 first.
 */
module Classifier {
  import opened Options
  import opened Denominations

  /** Matching tolerance in millimetres. */
  const Tolerance: real := 1.5

  function Abs(x: real): (r: real)
    ensures r >= 0.0
    ensures r == x || r == -x
  {
    if x < 0.0 then -x else x
  }

  /** Distance between a measured diameter and an entry's reference diameter. */
  function Diff(d: real, e: Entry): real {
    Abs(d - e.1)
  }

  /** The smallest difference seen so far; the scan starts from infinity. */
  datatype Bound = Infinity | Finite(value: real)

  predicate Below(x: real, b: Bound) {
    b.Infinity? || x < b.value
  }

  /** State of the scan: the best denomination so far and its difference. */
  datatype ScanState = ScanState(best: Option<int>, minDiff: Bound)

  const Start: ScanState := ScanState(None, Infinity)

  /** One iteration of the scan: take entry `e` when it is strictly closer than
      the best so far and strictly within tolerance. */
  function Step(d: real, s: ScanState, e: Entry): ScanState {
    var diff := Diff(d, e);
    if Below(diff, s.minDiff) && diff < Tolerance then ScanState(Some(e.0), Finite(diff)) else s
  }

  /** The scan state after visiting the first `n` entries in table order. */
  function ScanPrefix(d: real, t: Table, n: nat): ScanState
    requires n <= |t|
  {
    if n == 0 then Start else Step(d, ScanPrefix(d, t, n - 1), t[n - 1])
  }

  /** No entry among the first `n` lies strictly within tolerance. */
  predicate NoneWithin(d: real, t: Table, n: nat)
    requires n <= |t|
  {
    forall j :: 0 <= j < n ==> Diff(d, t[j]) >= Tolerance
  }

  /** Entry `k` is within tolerance, no entry among the first `n` is strictly
      closer, and every earlier entry is strictly farther: `k` is the first
      closest entry. */
  predicate IsFirstClosest(d: real, t: Table, k: int, n: nat)
    requires n <= |t|
  {
    && 0 <= k < n
    && Diff(d, t[k]) < Tolerance
    && (forall j :: 0 <= j < n ==> Diff(d, t[k]) <= Diff(d, t[j]))
    && (forall j :: 0 <= j < k ==> Diff(d, t[k]) < Diff(d, t[j]))
  }

  /** What the scan state after `n` entries means. */
  predicate ScanMeaning(d: real, t: Table, n: nat, s: ScanState)
    requires n <= |t|
  {
    match s.best
    case None => s.minDiff == Infinity && NoneWithin(d, t, n)
    case Some(v) =>
      && s.minDiff.Finite?
      && exists k :: 0 <= k < n && IsFirstClosest(d, t, k, n) && t[k].0 == v && s.minDiff.value == Diff(d, t[k])
  }

  /** The scan keeps the invariant after every entry. */
  lemma {:induction false} ScanPrefixMeaning(d: real, t: Table, n: nat)
    requires n <= |t|
    ensures ScanMeaning(d, t, n, ScanPrefix(d, t, n))
  {
    if n > 0 {
      ScanPrefixMeaning(d, t, n - 1);
      var s := ScanPrefix(d, t, n - 1);
      var diff := Diff(d, t[n - 1]);
      match s.best
      case None =>
        if diff < Tolerance {
          assert IsFirstClosest(d, t, n - 1, n);
        } else {
          assert NoneWithin(d, t, n);
        }
      case Some(v) =>
        var k :| 0 <= k < n - 1 && IsFirstClosest(d, t, k, n - 1) && t[k].0 == v && s.minDiff.value == Diff(d, t[k]);
        if diff < s.minDiff.value {
          assert IsFirstClosest(d, t, n - 1, n);
        } else {
          assert IsFirstClosest(d, t, k, n);
        }
    }
  }

  /** There is at most one first closest entry. */
  lemma FirstClosestUnique(d: real, t: Table, k1: int, k2: int, n: nat)
    requires n <= |t|
    requires IsFirstClosest(d, t, k1, n) && IsFirstClosest(d, t, k2, n)
    ensures k1 == k2
  {
  }

  /** The denomination whose reference diameter is closest to `d` (first in
      table order on ties), provided it differs by strictly less than the
      tolerance; None when no entry is that close. */
  function Classify(d: real, t: Table): (r: Option<int>)
    ensures r.None? <==> NoneWithin(d, t, |t|)
    ensures r.Some? ==> exists k :: IsFirstClosest(d, t, k, |t|) && t[k].0 == r.value
  {
    ScanPrefixMeaning(d, t, |t|);
    ScanPrefix(d, t, |t|).best
  }

  /** Classification returns `v` exactly when `v` is the key of the first
      closest entry within tolerance. */
  lemma ClassifyIff(d: real, t: Table, v: int)
    ensures Classify(d, t) == Some(v) <==> exists k :: IsFirstClosest(d, t, k, |t|) && t[k].0 == v
  {
    if k :| IsFirstClosest(d, t, k, |t|) && t[k].0 == v {
      var r := Classify(d, t);
      assert r.Some?;
      var k' :| IsFirstClosest(d, t, k', |t|) && t[k'].0 == r.value;
      FirstClosestUnique(d, t, k, k', |t|);
    }
  }

  /** A diameter equal to a reference diameter classifies as that entry's
      denomination, provided no other entry shares the diameter. */
  lemma ClassifyExact(t: Table, k: nat)
    requires DistinctDiameters(t)
    requires k < |t|
    ensures Classify(t[k].1, t) == Some(t[k].0)
  {
    var d := t[k].1;
    assert forall j :: 0 <= j < k ==> t[j].1 != d;
    assert IsFirstClosest(d, t, k, |t|);
    ClassifyIff(d, t, t[k].0);
  }
}
