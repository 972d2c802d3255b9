/**
 The denomination table: each coin value with its reference diameter in
 millimetres. The table is an ordered sequence because the order in which
 entries are visited decides ties when a measured diameter is classified.
 */
module Denominations {
  import opened Options

  /** One table entry: (denomination, reference diameter in mm). */
  type Entry = (int, real)

  /** The table, in insertion order. */
  type Table = seq<Entry>

  /** The configured coins. Note that 10 is smaller than 5 and 2. */
  const CoinDiameters: Table := [(1, 20.5), (2, 23.0), (5, 25.0), (10, 22.0)]

  /** No denomination appears twice (the table is a dictionary). */
  predicate DistinctKeys(t: Table) {
    forall i, j :: 0 <= i < j < |t| ==> t[i].0 != t[j].0
  }

  /** No two coins share a reference diameter. */
  predicate DistinctDiameters(t: Table) {
    forall i, j :: 0 <= i < j < |t| ==> t[i].1 != t[j].1
  }

  /** Every denomination is a positive amount of money. */
  predicate PositiveKeys(t: Table) {
    forall i :: 0 <= i < |t| ==> t[i].0 > 0
  }

  /** Every reference diameter is a positive length. */
  predicate PositiveDiameters(t: Table) {
    forall i :: 0 <= i < |t| ==> t[i].1 > 0.0
  }

  /** The numeric value `x` equals some key of the table (Python's `x in table`,
      where the float 5.0 finds the integer key 5). */
  predicate HasKey(t: Table, x: real) {
    exists i :: 0 <= i < |t| && t[i].0 as real == x
  }

  /** Index of the first entry at or after `i` whose key equals `x`, if any. */
  function FindKeyFrom(t: Table, x: real, i: nat): (r: Option<nat>)
    requires i <= |t|
    ensures r.None? <==> forall j :: i <= j < |t| ==> t[j].0 as real != x
    ensures r.Some? ==> i <= r.value < |t| && t[r.value].0 as real == x
    ensures r.Some? ==> forall j :: i <= j < r.value ==> t[j].0 as real != x
    decreases |t| - i
  {
    if i == |t| then None
    else if t[i].0 as real == x then Some(i)
    else FindKeyFrom(t, x, i + 1)
  }

  /** Index of the entry whose key equals `x` (the lookup `table[x]`), or None
      when `x` is not a key. */
  function FindKey(t: Table, x: real): (r: Option<nat>)
    ensures r.None? <==> !HasKey(t, x)
    ensures r.Some? ==> r.value < |t| && t[r.value].0 as real == x
  {
    FindKeyFrom(t, x, 0)
  }

  /** With distinct keys, the lookup finds the one entry carrying the key. */
  lemma FindKeyUnique(t: Table, i: nat)
    requires DistinctKeys(t)
    requires i < |t|
    ensures FindKey(t, t[i].0 as real) == Some(i)
  {
    assert HasKey(t, t[i].0 as real);
  }

  /** The configured table is a well-formed dictionary of positive coins whose
      diameters are all different. */
  lemma CoinDiametersWellFormed()
    ensures |CoinDiameters| == 4
    ensures DistinctKeys(CoinDiameters)
    ensures DistinctDiameters(CoinDiameters)
    ensures PositiveKeys(CoinDiameters)
    ensures PositiveDiameters(CoinDiameters)
    ensures CoinDiameters[3].1 < CoinDiameters[1].1 && CoinDiameters[3].1 < CoinDiameters[2].1
  {
  }
}
