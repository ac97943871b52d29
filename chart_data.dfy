/** `mainSet`, `compareSet` and `dataSets` as the dashboard runs them: the
    plot arrays from the stats API response are split in place. The solid
    dataset keeps the caller's array itself (its tail overwritten with
    absent points), the dashed dataset gets a fresh array. Each method is
    proved to produce, as values, exactly the datasets Segments describes. */
module ChartData {

  import opened Wrappers
  import opened Segments

  /** A dataset as built for the chart: its `data` is an array, so that the
      solid dataset can be the very array it was given. */
  datatype Dataset = Dataset(name: string, data: array<Point>, dashed: bool)

  /** The fields of the stats API response the datasets are built from. */
  datatype GraphData = GraphData(plot: array<Point>, presentIndex: Option<nat>, comparePlot: Option<array<Point>>)
  {
    /** The arrays that building the datasets may overwrite. */
    function Plots(): set<array<Point>> {
      {plot} + (if comparePlot.Some? then {comparePlot.value} else {})
    }
  }

  /** The current contents of the datasets, as values. */
  function View(sets: seq<Dataset>): (r: seq<Segment>)
    reads set d | d in sets :: d.data
    ensures |r| == |sets|
    ensures forall k :: 0 <= k < |sets| ==> r[k] == Segment(sets[k].name, sets[k].data[..], sets[k].dashed)
  {
    seq(|sets|, k requires 0 <= k < |sets| reads set d | d in sets :: d.data => Segment(sets[k].name, sets[k].data[..], sets[k].dashed))
  }

  lemma ViewAppend(a: seq<Dataset>, b: seq<Dataset>)
    ensures View(a + b) == View(a) + View(b)
  {
    assert forall k :: 0 <= k < |a + b| ==> View(a + b)[k] == (View(a) + View(b))[k];
  }

  /** The overwriting loop of the split: `plot[i] = undefined` for every
      index i from p to the end of the plot. */
  method ClearFrom(plot: array<Point>, p: nat)
    modifies plot
    ensures plot[..] == SolidPlot(old(plot[..]), p)
  {
    var i := p;
    while i < plot.Length
      invariant p <= i && (p <= plot.Length ==> i <= plot.Length)
      invariant forall k :: 0 <= k < plot.Length ==> plot[k] == if p <= k < i then None else old(plot[k])
    {
      plot[i] := None;
      i := i + 1;
    }
    assert plot[..] == SolidPlot(old(plot[..]), p);
  }

  /** The split both `mainSet` and `compareSet` perform, for one series. With
      a truthy present index p it copies the dashed part (slice from p - 1,
      padded with holes) before overwriting `plot[i]` for p <= i < N; the
      solid dataset's data is `plot` itself and the dashed one, the only
      fresh array, is the second. */
  method SplitSeries(plot: array<Point>, presentIndex: Option<nat>, series: Series) returns (sets: seq<Dataset>)
    modifies plot
    ensures |sets| >= 1 && sets[0].data == plot
    ensures forall k :: 0 <= k < |sets| ==> if sets[k].dashed then fresh(sets[k].data) else sets[k].data == plot
    ensures View(sets) == Split(old(plot[..]), presentIndex, series)
  {
    if Splits(presentIndex) {
      var p := presentIndex.value;
      var dashedPlot := DashedPlot(plot[..], p);
      var dashed := new Point[|dashedPlot|](k requires 0 <= k < |dashedPlot| => dashedPlot[k]);
      assert dashed[..] == dashedPlot;
      ClearFrom(plot, p);
      sets := [Dataset(series.Label(), plot, false), Dataset(series.Label(), dashed, true)];
    } else {
      sets := [Dataset(series.Label(), plot, false)];
    }
  }

  /** `mainSet(plot, present_index, ctx)`: the split of the visitors series. */
  method MainSet(plot: array<Point>, presentIndex: Option<nat>) returns (sets: seq<Dataset>)
    modifies plot
    ensures |sets| >= 1 && sets[0].data == plot
    ensures forall k :: 0 <= k < |sets| ==> if sets[k].dashed then fresh(sets[k].data) else sets[k].data == plot
    ensures View(sets) == Split(old(plot[..]), presentIndex, Visitors)
  {
    sets := SplitSeries(plot, presentIndex, Visitors);
  }

  /** `compareSet(plot, present_index, ctx)`: the same split of the
      comparison series. */
  method CompareSet(plot: array<Point>, presentIndex: Option<nat>) returns (sets: seq<Dataset>)
    modifies plot
    ensures |sets| >= 1 && sets[0].data == plot
    ensures forall k :: 0 <= k < |sets| ==> if sets[k].dashed then fresh(sets[k].data) else sets[k].data == plot
    ensures View(sets) == Split(old(plot[..]), presentIndex, Conversions)
  {
    sets := SplitSeries(plot, presentIndex, Conversions);
  }

  /** `dataSets(graphData, ctx)`: the main datasets, followed by the
      comparison datasets when the response has a comparison plot (an empty
      one included: an empty array is truthy). Both plots are split at the
      same present index, and each solid dataset is its plot's own array; as
      both series contribute the same number of datasets, the comparison's
      solid one sits at the middle index. */
  method DataSets(graphData: GraphData) returns (sets: seq<Dataset>)
    requires graphData.comparePlot.Some? ==> graphData.comparePlot.value != graphData.plot
    modifies graphData.Plots()
    ensures |sets| >= 1 && sets[0].data == graphData.plot
    ensures graphData.comparePlot.Some? ==> sets[|sets| / 2].data == graphData.comparePlot.value
    ensures forall k :: 0 <= k < |sets| ==>
      if sets[k].dashed then fresh(sets[k].data) else sets[k].data in graphData.Plots()
    ensures View(sets) == AllSegments(old(graphData.plot[..]), graphData.presentIndex,
                                      if graphData.comparePlot.Some? then Some(old(graphData.comparePlot.value[..])) else None)
  {
    ghost var plot0 := graphData.plot[..];
    var mainSets := MainSet(graphData.plot, graphData.presentIndex);
    sets := mainSets;
    if graphData.comparePlot.Some? {
      var comparePlot := graphData.comparePlot.value;
      ghost var compare0 := comparePlot[..];
      ghost var mainView := View(mainSets);
      var compareSets := CompareSet(comparePlot, graphData.presentIndex);
      assert View(mainSets) == mainView;
      ViewAppend(mainSets, compareSets);
      sets := mainSets + compareSets;
      assert |mainSets| == |compareSets|;
      assert sets[|sets| / 2] == compareSets[0];
      assert forall k :: 0 <= k < |sets| ==>
        sets[k] == if k < |mainSets| then mainSets[k] else compareSets[k - |mainSets|];
    }
  }
}
