/**
 The counting step that follows segmentation: pick the largest circle, ask
 for its denomination, derive the millimetres-per-pixel ratio from it, then
 classify every circle and add up the matched denominations. The prompt's
 answer is an input: `None` stands for a cancelled prompt.
 */
module Counting {
  import opened Options
  import opened Denominations
  import opened Classifier
  import opened Segmentation

  /** A circle together with its classification (None = unmatched). */
  datatype Classified = Classified(circle: Circle, denomination: Option<int>)

  /** The result of one counting run. */
  datatype Outcome =
    | NoCoins                     // segmentation found no circle
    | CalibrationRejected         // prompt cancelled, or the answer is not a denomination
    | ZeroRadius                  // the calibration would divide by a zero radius
    | Counted(ratio: real, total: int, classified: seq<Classified>)

  /** Index of the largest circle among the first `n`; the first one on ties,
      since a later circle replaces it only when strictly larger. */
  function LargestPrefix(cs: seq<Circle>, n: nat): (k: nat)
    requires 0 < n <= |cs|
    ensures k < n
    ensures forall j :: 0 <= j < n ==> cs[j].r <= cs[k].r
    ensures forall j :: 0 <= j < k ==> cs[j].r < cs[k].r
  {
    if n == 1 then 0
    else
      var k := LargestPrefix(cs, n - 1);
      if cs[n - 1].r > cs[k].r then n - 1 else k
  }

  /** Index of the circle used for calibration. */
  function Largest(cs: seq<Circle>): (k: nat)
    requires |cs| > 0
    ensures k < |cs|
    ensures forall j :: 0 <= j < |cs| ==> cs[j].r <= cs[k].r
    ensures forall j :: 0 <= j < k ==> cs[j].r < cs[k].r
  {
    LargestPrefix(cs, |cs|)
  }

  /** Millimetres per pixel, from a reference diameter and the pixel radius
      of the circle that shows it. */
  function Ratio(diameterMm: real, radiusPx: int): (ratio: real)
    requires radiusPx != 0
    ensures ratio * (radiusPx * 2) as real == diameterMm
  {
    diameterMm / (radiusPx * 2) as real
  }

  /** Physical diameter in millimetres of a circle under a given ratio. */
  function PhysicalDiameter(c: Circle, ratio: real): real {
    (c.r * 2) as real * ratio
  }

  /** What a classification adds to the total. */
  function Contribution(d: Option<int>): int {
    match d
    case Some(v) => v
    case None => 0
  }

  /** Classification of every circle, in the order segmentation emitted them. */
  function ClassifyAll(cs: seq<Circle>, ratio: real): (out: seq<Classified>)
    ensures |out| == |cs|
    ensures forall i :: 0 <= i < |cs| ==> out[i].circle == cs[i]
    ensures forall i :: 0 <= i < |cs| ==>
      out[i].denomination == Classify(PhysicalDiameter(cs[i], ratio), CoinDiameters)
  {
    if |cs| == 0 then []
    else
      var first := Classified(cs[0], Classify(PhysicalDiameter(cs[0], ratio), CoinDiameters));
      [first] + ClassifyAll(cs[1..], ratio)
  }

  /** Every matched denomination is positive. */
  predicate PositiveMatches(cls: seq<Classified>) {
    forall i :: 0 <= i < |cls| && cls[i].denomination.Some? ==> cls[i].denomination.value > 0
  }

  /** No circle matched a denomination. */
  predicate NoneMatched(cls: seq<Classified>) {
    forall i :: 0 <= i < |cls| ==> cls[i].denomination.None?
  }

  /** The running total, accumulated circle by circle in order. */
  function Total(cls: seq<Classified>): (s: int)
    ensures PositiveMatches(cls) ==> s >= 0
    ensures NoneMatched(cls) ==> s == 0
  {
    if |cls| == 0 then 0
    else Total(cls[..|cls| - 1]) + Contribution(cls[|cls| - 1].denomination)
  }

  /** Every denomination the classifier returns is a key of the table. */
  lemma ClassifyReturnsKey(d: real, t: Table)
    requires Classify(d, t).Some?
    ensures exists k :: 0 <= k < |t| && t[k].0 == Classify(d, t).value
  {
  }

  /** Classifying against the configured table never yields a non-positive
      denomination. */
  lemma ClassifyAllPositive(cs: seq<Circle>, ratio: real)
    ensures PositiveMatches(ClassifyAll(cs, ratio))
  {
    CoinDiametersWellFormed();
    var out := ClassifyAll(cs, ratio);
    forall i | 0 <= i < |out| && out[i].denomination.Some?
      ensures out[i].denomination.value > 0
    {
      ClassifyReturnsKey(PhysicalDiameter(cs[i], ratio), CoinDiameters);
    }
  }

  /** The reference diameter for the prompt's answer: None when the prompt
      was cancelled or the answer is not a denomination. */
  function CalibrationDiameter(prompt: Option<real>): (r: Option<real>)
    ensures r.None? <==> prompt.None? || !HasKey(CoinDiameters, prompt.value)
    ensures r.Some? ==>
      exists i :: 0 <= i < |CoinDiameters| && CoinDiameters[i].0 as real == prompt.value && CoinDiameters[i].1 == r.value
  {
    match prompt
    case None => None
    case Some(x) =>
      match FindKey(CoinDiameters, x)
      case None => None
      case Some(i) => Some(CoinDiameters[i].1)
  }

  /** Classify every circle under one ratio and add up the matches. */
  function Tally(cs: seq<Circle>, ratio: real): (o: Outcome)
    ensures o.Counted? && o.ratio == ratio
    ensures |o.classified| == |cs|
    ensures forall i :: 0 <= i < |cs| ==> o.classified[i].circle == cs[i]
    ensures o.total >= 0
    ensures forall i :: 0 <= i < |cs| ==>
      o.classified[i].denomination == Classify(PhysicalDiameter(cs[i], ratio), CoinDiameters)
    ensures o.total == Total(o.classified)
  {
    var classified := ClassifyAll(cs, ratio);
    ClassifyAllPositive(cs, ratio);
    Counted(ratio, Total(classified), classified)
  }

  /** One counting run over the detected circles, with the prompt's answer.
      The prompt is shown only when there is at least one circle; a cancelled
      or unknown answer stops the run before any total is computed. */
  function CountCoins(cs: seq<Circle>, prompt: Option<real>): (o: Outcome)
    ensures o.NoCoins? <==> |cs| == 0
    ensures o.CalibrationRejected? <==>
      |cs| > 0 && (prompt.None? || !HasKey(CoinDiameters, prompt.value))
    ensures o.ZeroRadius? <==>
      |cs| > 0 && prompt.Some? && HasKey(CoinDiameters, prompt.value) && cs[Largest(cs)].r == 0
    ensures o.Counted? <==>
      |cs| > 0 && prompt.Some? && HasKey(CoinDiameters, prompt.value) && cs[Largest(cs)].r != 0
    ensures o.Counted? ==> |o.classified| == |cs|
    ensures o.Counted? ==> forall i :: 0 <= i < |cs| ==> o.classified[i].circle == cs[i]
    ensures o.Counted? ==> o.total >= 0
    ensures o.Counted? ==> o.ratio == Ratio(CalibrationDiameter(prompt).value, cs[Largest(cs)].r)
    ensures o.Counted? ==> forall i :: 0 <= i < |cs| ==>
      o.classified[i].denomination == Classify(PhysicalDiameter(cs[i], o.ratio), CoinDiameters)
    ensures o.Counted? ==> o.total == Total(o.classified)
  {
    if |cs| == 0 then NoCoins
    else
      var radiusPx := cs[Largest(cs)].r;
      match CalibrationDiameter(prompt)
      case None => CalibrationRejected
      case Some(diameterMm) =>
        if radiusPx * 2 == 0 then ZeroRadius
        else Tally(cs, Ratio(diameterMm, radiusPx))
  }

  /** A counting run on the circles that survive the region filter. */
  function ProcessRegions(regions: seq<LabelRegion>, prompt: Option<real>): (o: Outcome)
    ensures !o.ZeroRadius?
  {
    CountCoins(FilterRegions(regions), prompt)
  }

  /** The total over two runs of circles is the sum of their totals, so the
      total is the sum of the matched denominations however they are grouped. */
  lemma {:induction false} TotalAppend(a: seq<Classified>, b: seq<Classified>)
    ensures Total(a + b) == Total(a) + Total(b)
    decreases |b|
  {
    if |b| > 0 {
      var ab := a + b;
      assert ab[..|ab| - 1] == a + b[..|b| - 1];
      assert ab[|ab| - 1] == b[|b| - 1];
      TotalAppend(a, b[..|b| - 1]);
    } else {
      assert a + b == a;
    }
  }

  /** With positive denominations, the total is zero exactly when no circle
      matched. */
  lemma {:induction false} TotalZeroIff(cls: seq<Classified>)
    requires PositiveMatches(cls)
    ensures Total(cls) == 0 <==> NoneMatched(cls)
  {
    if |cls| > 0 {
      var init := cls[..|cls| - 1];
      assert PositiveMatches(init) by {
        forall i | 0 <= i < |init| && init[i].denomination.Some?
          ensures init[i].denomination.value > 0
        {
          assert init[i] == cls[i];
        }
      }
      TotalZeroIff(init);
      if NoneMatched(init) && cls[|cls| - 1].denomination.None? {
        forall i | 0 <= i < |cls| ensures cls[i].denomination.None? {
          if i < |cls| - 1 {
            assert cls[i] == init[i];
          }
        }
      }
      if NoneMatched(cls) {
        forall i | 0 <= i < |init| ensures init[i].denomination.None? {
          assert init[i] == cls[i];
        }
      }
    }
  }

  /** Under the ratio derived from a circle, that circle's physical diameter
      is exactly the reference diameter it was calibrated with. */
  lemma ReferenceDiameter(c: Circle, diameterMm: real)
    requires c.r != 0
    ensures PhysicalDiameter(c, Ratio(diameterMm, c.r)) == diameterMm
  {
    var twoR := (c.r * 2) as real;
    assert twoR != 0.0;
    assert twoR * (diameterMm / twoR) == diameterMm;
  }

  /** The largest circle's own diameter, under the ratio derived from it,
      is exactly the reference diameter of the denomination entered for it,
      so it classifies as that denomination. */
  lemma ReferenceClassifiesAsItself(cs: seq<Circle>, prompt: Option<real>)
    requires CountCoins(cs, prompt).Counted?
    ensures |cs| > 0 && prompt.Some?
    ensures CountCoins(cs, prompt).classified[Largest(cs)].denomination.Some?
    ensures CountCoins(cs, prompt).classified[Largest(cs)].denomination.value as real == prompt.value
  {
    var k := Largest(cs);
    var dMm := CalibrationDiameter(prompt).value;
    var i :| 0 <= i < |CoinDiameters| && CoinDiameters[i].0 as real == prompt.value && CoinDiameters[i].1 == dMm;
    var ratio := Ratio(dMm, cs[k].r);
    assert CountCoins(cs, prompt) == Tally(cs, ratio);
    ReferenceDiameter(cs[k], dMm);
    CoinDiametersWellFormed();
    ClassifyExact(CoinDiameters, i);
  }

  /** The same circles with every pixel radius multiplied by `f`. */
  function ScaleRadii(cs: seq<Circle>, f: int): (out: seq<Circle>)
    ensures |out| == |cs|
    ensures forall i :: 0 <= i < |cs| ==> out[i] == cs[i].(r := cs[i].r * f)
  {
    if |cs| == 0 then [] else [cs[0].(r := cs[0].r * f)] + ScaleRadii(cs[1..], f)
  }

  /** Two lists of circles whose radii compare the same way, pair by pair. */
  predicate SameRadiusOrder(cs: seq<Circle>, ds: seq<Circle>) {
    && |cs| == |ds|
    && forall i, j :: 0 <= i < |cs| && 0 <= j < |cs| ==> (cs[i].r < cs[j].r <==> ds[i].r < ds[j].r)
  }

  /** The calibration circle depends only on how the radii compare. */
  lemma {:induction false} LargestPrefixSameOrder(cs: seq<Circle>, ds: seq<Circle>, n: nat)
    requires SameRadiusOrder(cs, ds)
    requires 0 < n <= |cs|
    ensures LargestPrefix(ds, n) == LargestPrefix(cs, n)
  {
    if n > 1 {
      LargestPrefixSameOrder(cs, ds, n - 1);
    }
  }

  /** Multiplying every radius by a positive factor keeps the calibration circle. */
  lemma LargestScaled(cs: seq<Circle>, f: int)
    requires f > 0
    requires |cs| > 0
    ensures |ScaleRadii(cs, f)| == |cs|
    ensures Largest(ScaleRadii(cs, f)) == Largest(cs)
  {
    ScalePreservesOrder(cs, f);
    LargestPrefixSameOrder(cs, ScaleRadii(cs, f), |cs|);
  }

  /** Multiplying every radius by a positive factor keeps every comparison. */
  lemma ScalePreservesOrder(cs: seq<Circle>, f: int)
    requires f > 0
    ensures SameRadiusOrder(cs, ScaleRadii(cs, f))
  {
    var ds := ScaleRadii(cs, f);
    forall i, j | 0 <= i < |cs| && 0 <= j < |cs|
      ensures cs[i].r < cs[j].r <==> ds[i].r < ds[j].r
    {
      MultiplyPreservesOrder(cs[j].r, cs[i].r, f);
    }
  }

  lemma ZeroProduct(a: int, f: int)
    requires f > 0
    ensures a * f == 0 <==> a == 0
  {
    MultiplyPreservesOrder(a, 0, f);
    MultiplyPreservesOrder(0, a, f);
  }

  lemma MultiplyPreservesOrder(a: int, b: int, f: int)
    requires f > 0
    ensures a * f > b * f <==> a > b
  {
    if a > b {
      assert a * f - b * f == (a - b) * f;
    } else {
      assert b * f - a * f == (b - a) * f;
    }
  }

  /** A circle's physical diameter does not change when its radius and the
      calibration radius are both multiplied by the same positive factor. */
  lemma ScaledDiameter(c: Circle, radiusPx: int, diameterMm: real, f: int)
    requires radiusPx != 0
    requires f > 0
    ensures radiusPx * f != 0
    ensures PhysicalDiameter(c.(r := c.r * f), Ratio(diameterMm, radiusPx * f))
         == PhysicalDiameter(c, Ratio(diameterMm, radiusPx))
  {
    var a := (c.r * 2) as real;
    var b := (radiusPx * 2) as real;
    var g := f as real;
    assert (c.r * f * 2) as real == a * g;
    assert (radiusPx * f * 2) as real == b * g;
    assert b * g != 0.0;
    assert diameterMm / (b * g) == (diameterMm / b) / g;
    assert (a * g) * ((diameterMm / b) / g) == a * (diameterMm / b);
  }

  /** Two classified sequences with the same denominations have the same total. */
  lemma {:induction false} TotalDependsOnDenominations(a: seq<Classified>, b: seq<Classified>)
    requires |a| == |b|
    requires forall i :: 0 <= i < |a| ==> a[i].denomination == b[i].denomination
    ensures Total(a) == Total(b)
  {
    if |a| > 0 {
      TotalDependsOnDenominations(a[..|a| - 1], b[..|b| - 1]);
    }
  }

  /** Multiplying every pixel radius by the same positive factor leads to the
      same kind of outcome. */
  lemma ScaledOutcomeKind(cs: seq<Circle>, f: int, prompt: Option<real>)
    requires f > 0
    ensures var o := CountCoins(cs, prompt);
            var o' := CountCoins(ScaleRadii(cs, f), prompt);
            && (o.NoCoins? <==> o'.NoCoins?)
            && (o.CalibrationRejected? <==> o'.CalibrationRejected?)
            && (o.ZeroRadius? <==> o'.ZeroRadius?)
            && (o.Counted? <==> o'.Counted?)
  {
    var scaled := ScaleRadii(cs, f);
    var o := CountCoins(cs, prompt);
    var o' := CountCoins(scaled, prompt);
    assert |scaled| == |cs|;
    if |cs| > 0 {
      LargestScaled(cs, f);
      var r := cs[Largest(cs)].r;
      assert scaled[Largest(scaled)].r == r * f;
      ZeroProduct(r, f);
    }
  }

  /** Multiplying every pixel radius by the same positive factor changes no
      classification and not the total: only the ratio of a radius to the
      calibration radius matters. */
  lemma ScaleInvariance(cs: seq<Circle>, f: int, prompt: Option<real>)
    requires f > 0
    requires CountCoins(cs, prompt).Counted?
    ensures CountCoins(ScaleRadii(cs, f), prompt).Counted?
    ensures CountCoins(ScaleRadii(cs, f), prompt).total == CountCoins(cs, prompt).total
    ensures forall i :: 0 <= i < |cs| ==>
      CountCoins(ScaleRadii(cs, f), prompt).classified[i].denomination
        == CountCoins(cs, prompt).classified[i].denomination
  {
    ScaledOutcomeKind(cs, f, prompt);
    var scaled := ScaleRadii(cs, f);
    var o := CountCoins(cs, prompt);
    var o' := CountCoins(scaled, prompt);
    LargestScaled(cs, f);
    var k := Largest(cs);
    assert scaled[k].r == cs[k].r * f;
    var dMm := CalibrationDiameter(prompt).value;
    var ratio := Ratio(dMm, cs[k].r);
    var ratio' := Ratio(dMm, cs[k].r * f);
    assert o == Tally(cs, ratio);
    assert o' == Tally(scaled, ratio');
    forall j | 0 <= j < |cs|
      ensures o'.classified[j].denomination == o.classified[j].denomination
    {
      ScaledDiameter(cs[j], cs[k].r, dMm, f);
    }
    TotalDependsOnDenominations(o.classified, o'.classified);
  }
}
