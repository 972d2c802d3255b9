/**
 The region filter that ends segmentation. The image library produces one
 marker label per seed region; for each label, in ascending order, the
 filter looks at the label's pixel count, the largest external contour of the
 label's mask, and that contour's minimum enclosing circle, and keeps the
 label only when all three are large enough. The pixel work that produces
 those measurements is represented by its per-label results.
 */
module Segmentation {
  import opened Options

  /** A label with fewer pixels than this is noise. */
  const MinPixelCount: nat := 400
  /** A largest contour with a smaller area than this is noise. */
  const MinContourArea: real := 400.0
  /** An enclosing circle with a smaller radius than this (pixels) is noise. */
  const MinRadius: real := 8.0
  /** Label 1 is the background and label 0 the unknown zone that the watershed
      fills (it marks boundaries with -1); seed regions start at 2. */
  const FirstLabel: nat := 2

  /** A detected coin candidate: integer centre and integer radius in pixels. */
  datatype Circle = Circle(x: int, y: int, r: int)

  /** The largest external contour of a label's mask: its area and its minimum
      enclosing circle, all as floating-point values. */
  datatype ContourFit = ContourFit(area: real, cx: real, cy: real, radius: real)

  /** The measurements of one label: its pixel count and, when the mask has any
      external contour, the largest one. */
  datatype LabelRegion = LabelRegion(pixelCount: nat, largest: Option<ContourFit>)

  /** Conversion of a float to an integer, truncating toward zero. */
  function Trunc(x: real): (n: int)
    ensures x >= 0.0 ==> n as real <= x < n as real + 1.0
    ensures x < 0.0 ==> n as real - 1.0 < x <= n as real
  {
    if x >= 0.0 then x.Floor else -((-x).Floor)
  }

  /** The label survives all three noise filters. */
  predicate Passes(reg: LabelRegion) {
    && reg.pixelCount >= MinPixelCount
    && reg.largest.Some?
    && reg.largest.value.area >= MinContourArea
    && reg.largest.value.radius >= MinRadius
  }

  /** The circle emitted for a surviving label. */
  function Emit(fit: ContourFit): (c: Circle)
    ensures fit.radius >= 0.0 ==> c.r as real <= fit.radius < c.r as real + 1.0
    ensures fit.radius >= MinRadius ==> c.r >= MinRadius.Floor
  {
    Circle(Trunc(fit.cx), Trunc(fit.cy), Trunc(fit.radius))
  }

  /** Every circle has at least the minimum radius. */
  predicate RadiiAtLeastMin(cs: seq<Circle>) {
    forall i :: 0 <= i < |cs| ==> cs[i].r >= MinRadius.Floor
  }

  /** The circles emitted for the first `n` labels, in label order;
      `regions[i]` holds the measurements of label `FirstLabel + i`. */
  function FilterPrefix(regions: seq<LabelRegion>, n: nat): (cs: seq<Circle>)
    requires n <= |regions|
    ensures |cs| <= n
    ensures RadiiAtLeastMin(cs)
  {
    if n == 0 then []
    else
      var before := FilterPrefix(regions, n - 1);
      var reg := regions[n - 1];
      if Passes(reg) then before + [Emit(reg.largest.value)] else before
  }

  /** The circles emitted for all labels. */
  function FilterRegions(regions: seq<LabelRegion>): (cs: seq<Circle>)
    ensures |cs| <= |regions|
    ensures RadiiAtLeastMin(cs)
  {
    FilterPrefix(regions, |regions|)
  }

  /** Circle `j` is the one emitted for `labels[j]`, a passing label among the
      first `n`. */
  predicate LabelsMatchCircles(regions: seq<LabelRegion>, n: nat, labels: seq<int>, cs: seq<Circle>)
    requires n <= |regions|
  {
    && |labels| == |cs|
    && forall j :: 0 <= j < |labels| ==>
         && FirstLabel <= labels[j] < FirstLabel + n
         && Passes(regions[labels[j] - FirstLabel])
         && cs[j] == Emit(regions[labels[j] - FirstLabel].largest.value)
  }

  /** Each label is smaller than every label after it. */
  predicate StrictlyAscending(labels: seq<int>) {
    forall j1, j2 :: 0 <= j1 < j2 < |labels| ==> labels[j1] < labels[j2]
  }

  /** Every passing label among the first `n` is listed. */
  predicate ListsAllPassing(regions: seq<LabelRegion>, n: nat, labels: seq<int>)
    requires n <= |regions|
  {
    forall i :: 0 <= i < n && Passes(regions[i]) ==> FirstLabel + i in labels
  }

  /** `labels` lists, in strictly ascending order, exactly the labels among the
      first `n` that pass the filters, and circle `j` is the one emitted for
      `labels[j]`. */
  predicate EmittedFor(regions: seq<LabelRegion>, n: nat, labels: seq<int>, cs: seq<Circle>)
    requires n <= |regions|
  {
    && LabelsMatchCircles(regions, n, labels, cs)
    && StrictlyAscending(labels)
    && ListsAllPassing(regions, n, labels)
  }

  lemma ExtendMatch(regions: seq<LabelRegion>, n: nat, labels: seq<int>, cs: seq<Circle>)
    requires 0 < n <= |regions|
    requires LabelsMatchCircles(regions, n - 1, labels, cs)
    requires Passes(regions[n - 1])
    ensures LabelsMatchCircles(regions, n, labels + [FirstLabel + n - 1], cs + [Emit(regions[n - 1].largest.value)])
  {
    var labels' := labels + [FirstLabel + n - 1];
    var cs' := cs + [Emit(regions[n - 1].largest.value)];
    forall j | 0 <= j < |labels'|
      ensures FirstLabel <= labels'[j] < FirstLabel + n
      ensures Passes(regions[labels'[j] - FirstLabel])
      ensures cs'[j] == Emit(regions[labels'[j] - FirstLabel].largest.value)
    {
      if j < |labels| {
        assert labels'[j] == labels[j] && cs'[j] == cs[j];
      }
    }
  }

  lemma ExtendAscending(labels: seq<int>, next: int)
    requires StrictlyAscending(labels)
    requires forall j :: 0 <= j < |labels| ==> labels[j] < next
    ensures StrictlyAscending(labels + [next])
  {
    var labels' := labels + [next];
    forall j1, j2 | 0 <= j1 < j2 < |labels'|
      ensures labels'[j1] < labels'[j2]
    {
      assert labels'[j1] == labels[j1];
      if j2 < |labels| {
        assert labels'[j2] == labels[j2];
      }
    }
  }

  lemma ExtendListsAll(regions: seq<LabelRegion>, n: nat, labels: seq<int>)
    requires 0 < n <= |regions|
    requires ListsAllPassing(regions, n - 1, labels)
    ensures ListsAllPassing(regions, n, labels + [FirstLabel + n - 1])
  {
    var labels' := labels + [FirstLabel + n - 1];
    forall i | 0 <= i < n && Passes(regions[i])
      ensures FirstLabel + i in labels'
    {
      if i < n - 1 {
        assert FirstLabel + i in labels;
      } else {
        assert labels'[|labels|] == FirstLabel + i;
      }
    }
  }

  /** A passing label extends both the label list and the circle list. */
  lemma ExtendPassing(regions: seq<LabelRegion>, n: nat, labels: seq<int>, cs: seq<Circle>)
    requires 0 < n <= |regions|
    requires EmittedFor(regions, n - 1, labels, cs)
    requires Passes(regions[n - 1])
    ensures EmittedFor(regions, n, labels + [FirstLabel + n - 1], cs + [Emit(regions[n - 1].largest.value)])
  {
    ExtendMatch(regions, n, labels, cs);
    ExtendAscending(labels, FirstLabel + n - 1);
    ExtendListsAll(regions, n, labels);
  }

  /** A failing label changes neither list. */
  lemma ExtendFailing(regions: seq<LabelRegion>, n: nat, labels: seq<int>, cs: seq<Circle>)
    requires 0 < n <= |regions|
    requires EmittedFor(regions, n - 1, labels, cs)
    requires !Passes(regions[n - 1])
    ensures EmittedFor(regions, n, labels, cs)
  {
  }

  /** The emitted circles correspond one to one, in ascending label order, to
      the labels that pass all three filters. */
  lemma {:induction false} FilterPrefixLabels(regions: seq<LabelRegion>, n: nat) returns (labels: seq<int>)
    requires n <= |regions|
    ensures EmittedFor(regions, n, labels, FilterPrefix(regions, n))
  {
    if n == 0 {
      labels := [];
    } else {
      var before := FilterPrefixLabels(regions, n - 1);
      if Passes(regions[n - 1]) {
        ExtendPassing(regions, n, before, FilterPrefix(regions, n - 1));
        labels := before + [FirstLabel + n - 1];
      } else {
        ExtendFailing(regions, n, before, FilterPrefix(regions, n - 1));
        labels := before;
      }
    }
  }

  /** The whole filter: the output lists the surviving labels' circles in
      ascending label order, and each one passed every filter. */
  lemma FilterRegionsLabels(regions: seq<LabelRegion>) returns (labels: seq<int>)
    ensures EmittedFor(regions, |regions|, labels, FilterRegions(regions))
  {
    labels := FilterPrefixLabels(regions, |regions|);
  }
}
