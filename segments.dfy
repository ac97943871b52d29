/** The solid/dashed split of a time series, as values.

    The visitor graph draws confirmed data with a solid line and the current,
    still-incomplete period with a dashed line. The stats API marks the first
    incomplete bucket with `present_index`; the series is split there into two
    datasets of the original length that share one point, so the two lines
    meet. This module states the split on sequences; ChartData performs it in
    place on arrays, as the dashboard does, and is proved to agree with it. */
module Segments {

  import opened Wrappers

  /** One bucket of a plot: a count, or absent (the chart leaves a gap). */
  type Point = Option<int>

  /** The two series the graph can draw: the main one and the comparison. */
  datatype Series = Visitors | Conversions {
    function Label(): string {
      match this
      case Visitors => "Visitors"
      case Conversions => "Conversions"
    }
  }

  /** A dataset handed to the charting library, reduced to what the split
      decides: its label (field `name`, as `label` is a Dafny keyword), its
      points and whether it is drawn dashed (the only dataset with a
      `borderDash`). Colours and gradients are left out. */
  datatype Segment = Segment(name: string, data: seq<Point>, dashed: bool)

  /** `if (present_index)`: null, undefined and 0 are all falsy. */
  predicate Splits(presentIndex: Option<nat>)
    ensures !Splits(presentIndex) <==> presentIndex == None || presentIndex == Some(0)
  {
    presentIndex.Some? && presentIndex.value != 0
  }

  /** A run of `n` absent points (`new Array(n)` is all holes). */
  function Holes(n: nat): seq<Point> {
    seq(n, _ => None)
  }

  /** The dashed copy: the plot from index p - 1 on (`plot.slice(p - 1)`,
      empty once p - 1 is past the end), left-padded with holes to the
      plot's length. */
  function DashedPlot(plot: seq<Point>, p: nat): (r: seq<Point>)
    requires p >= 1
    ensures |r| == |plot|
    ensures forall i :: 0 <= i < |plot| ==> r[i] == if i < p - 1 then None else plot[i]
  {
    var dashedPart := if p - 1 <= |plot| then plot[p - 1..] else [];
    Holes(|plot| - |dashedPart|) + dashedPart
  }

  /** What the overwriting loop leaves in the plot: the points before p, then
      holes up to the plot's length. */
  function SolidPlot(plot: seq<Point>, p: nat): (r: seq<Point>)
    ensures |r| == |plot|
    ensures forall i :: 0 <= i < |plot| ==> r[i] == if i < p then plot[i] else None
  {
    var kept := if p <= |plot| then p else |plot|;
    plot[..kept] + Holes(|plot| - kept)
  }

  /** The datasets one series contributes: without a truthy present index
      one solid dataset holding the plot unchanged, else the solid part first
      and the dashed part second. Every dataset carries the series' label and
      the plot's length. */
  function Split(plot: seq<Point>, presentIndex: Option<nat>, series: Series): (r: seq<Segment>)
    ensures |r| == (if Splits(presentIndex) then 2 else 1)
    ensures !Splits(presentIndex) ==> r[0].data == plot
    ensures forall k :: 0 <= k < |r| ==> r[k].name == series.Label() && |r[k].data| == |plot|
    ensures forall k :: 0 <= k < |r| ==> (r[k].dashed <==> k == 1)
  {
    if Splits(presentIndex) then
      [ Segment(series.Label(), SolidPlot(plot, presentIndex.value), false),
        Segment(series.Label(), DashedPlot(plot, presentIndex.value), true) ]
    else
      [ Segment(series.Label(), plot, false) ]
  }

  /** All datasets of the graph: one or two for the main series, then one or
      two for the comparison series only when a comparison plot is given,
      split at the same present index; with a split, every second dataset is
      the dashed one of its series. */
  function AllSegments(plot: seq<Point>, presentIndex: Option<nat>, comparePlot: Option<seq<Point>>): (r: seq<Segment>)
    ensures var perSeries := if Splits(presentIndex) then 2 else 1;
      && |r| == (if comparePlot.Some? then 2 * perSeries else perSeries)
      && (forall k :: 0 <= k < |r| ==>
            && r[k].name == (if k < perSeries then "Visitors" else "Conversions")
            && (r[k].dashed <==> Splits(presentIndex) && k % 2 == 1)
            && |r[k].data| == (if k < perSeries then |plot| else |comparePlot.value|))
  {
    Split(plot, presentIndex, Visitors) +
    (if comparePlot.Some? then Split(comparePlot.value, presentIndex, Conversions) else [])
  }

  /** The indices at which a plot has a value. */
  function DefinedAt(s: seq<Point>): set<int> {
    set i | 0 <= i < |s| && s[i].Some?
  }

  /** How many points of a plot have a value. */
  function CountDefined(s: seq<Point>): nat {
    if s == [] then 0 else CountDefined(s[..|s| - 1]) + (if s[|s| - 1].Some? then 1 else 0)
  }

  predicate AllDefined(s: seq<Point>) {
    forall i :: 0 <= i < |s| ==> s[i].Some?
  }

  /** For 1 <= p <= N the two parts meet at p - 1: both hold the plot's point
      there, every defined point of the plot is in one of them, and no other
      index is defined in both. */
  lemma SeamAndCover(plot: seq<Point>, p: nat)
    requires 1 <= p <= |plot|
    ensures SolidPlot(plot, p)[p - 1] == plot[p - 1] == DashedPlot(plot, p)[p - 1]
    ensures DefinedAt(SolidPlot(plot, p)) + DefinedAt(DashedPlot(plot, p)) == DefinedAt(plot)
    ensures DefinedAt(SolidPlot(plot, p)) * DefinedAt(DashedPlot(plot, p)) == DefinedAt(plot) * {p - 1}
  {
    var solid, dashed := SolidPlot(plot, p), DashedPlot(plot, p);
    assert DefinedAt(solid) + DefinedAt(dashed) == DefinedAt(plot);
  }

  lemma {:induction false} CountDefinedAppend(a: seq<Point>, b: seq<Point>)
    ensures CountDefined(a + b) == CountDefined(a) + CountDefined(b)
    decreases |b|
  {
    if b != [] {
      var b' := b[..|b| - 1];
      assert (a + b)[..|a + b| - 1] == a + b';
      CountDefinedAppend(a, b');
    } else {
      assert a + b == a;
    }
  }

  lemma CountDefinedSplit(s: seq<Point>, k: int)
    requires 0 <= k <= |s|
    ensures CountDefined(s) == CountDefined(s[..k]) + CountDefined(s[k..])
  {
    assert s == s[..k] + s[k..];
    CountDefinedAppend(s[..k], s[k..]);
  }

  lemma {:induction false} CountDefinedHoles(n: nat)
    ensures CountDefined(Holes(n)) == 0
  {
    if n > 0 {
      assert Holes(n)[..n - 1] == Holes(n - 1);
      CountDefinedHoles(n - 1);
    }
  }

  lemma {:induction false} CountAllDefined(s: seq<Point>)
    requires AllDefined(s)
    ensures CountDefined(s) == |s|
    decreases |s|
  {
    if s != [] {
      CountAllDefined(s[..|s| - 1]);
    }
  }

  /** The solid part has exactly the defined points of the plot before p. */
  lemma SolidCount(plot: seq<Point>, p: nat)
    requires p <= |plot|
    ensures CountDefined(SolidPlot(plot, p)) == CountDefined(plot[..p])
  {
    CountDefinedAppend(plot[..p], Holes(|plot| - p));
    CountDefinedHoles(|plot| - p);
  }

  /** The dashed part has exactly the defined points of the plot from p - 1 on. */
  lemma DashedCount(plot: seq<Point>, p: nat)
    requires 1 <= p <= |plot|
    ensures CountDefined(DashedPlot(plot, p)) == CountDefined(plot[p - 1..])
  {
    CountDefinedAppend(Holes(p - 1), plot[p - 1..]);
    CountDefinedHoles(p - 1);
  }

  lemma CountDefinedSingle(x: Point)
    ensures CountDefined([x]) == if x.Some? then 1 else 0
  {
    assert [x][..0] == [];
  }

  /** The points before p and the points from p - 1 on together count the
      plot's points, with the one at p - 1 counted twice. */
  lemma SeamCount(plot: seq<Point>, p: nat)
    requires 1 <= p <= |plot|
    ensures CountDefined(plot[..p]) + CountDefined(plot[p - 1..])
         == CountDefined(plot) + (if plot[p - 1].Some? then 1 else 0)
  {
    var head := plot[..p];
    CountDefinedSplit(plot, p - 1);
    CountDefinedSplit(head, p - 1);
    assert head[..p - 1] == plot[..p - 1];
    assert head[p - 1..] == [plot[p - 1]];
    CountDefinedSingle(plot[p - 1]);
  }

  /** In a plot with a value in every bucket, the points before p and the
      points from p - 1 on are all defined. */
  lemma FullCounts(plot: seq<Point>, p: nat)
    requires 1 <= p <= |plot| && AllDefined(plot)
    ensures CountDefined(plot[..p]) == p && CountDefined(plot[p - 1..]) == |plot| - p + 1
  {
    CountAllDefined(plot[..p]);
    CountAllDefined(plot[p - 1..]);
  }

  /** For 1 <= p <= N: the defined points of the two parts add up to those of
      the plot plus the shared seam point; when every bucket of the plot has a
      value, the solid part has p of them and the dashed part N - p + 1. */
  lemma DefinedCounts(plot: seq<Point>, p: nat)
    requires 1 <= p <= |plot|
    ensures CountDefined(SolidPlot(plot, p)) + CountDefined(DashedPlot(plot, p))
         == CountDefined(plot) + (if plot[p - 1].Some? then 1 else 0)
    ensures AllDefined(plot) ==>
      CountDefined(SolidPlot(plot, p)) == p && CountDefined(DashedPlot(plot, p)) == |plot| - p + 1
  {
    SolidCount(plot, p);
    DashedCount(plot, p);
    SeamCount(plot, p);
    if AllDefined(plot) {
      FullCounts(plot, p);
    }
  }

  /** The split of a five-bucket plot at present index 3. */
  lemma SplitExample()
    ensures Split([Some(1), Some(2), Some(3), Some(4), Some(5)], Some(3), Visitors)
         == [ Segment("Visitors", [Some(1), Some(2), Some(3), None, None], false),
              Segment("Visitors", [None, None, Some(3), Some(4), Some(5)], true) ]
  {
    var plot := [Some(1), Some(2), Some(3), Some(4), Some(5)];
    assert plot[..3] + Holes(2) == [Some(1), Some(2), Some(3), None, None];
    assert Holes(2) + plot[2..] == [None, None, Some(3), Some(4), Some(5)];
  }
}
