/** The tooltip body of the visitor graph. The chart shows, for the hovered
    bucket, one item per dataset that has a point there; at the seam both
    halves of a series do. `beforeBody` clears the tooltip's `drawnLabels`
    dictionary and `label` writes a line only for the first item whose
    dataset's label is not yet in it, so each series is listed once.
    The dictionary is a plain object literal: a label that names a property
    every object inherits (`toString`, `constructor`, ...) reads as truthy
    from the start, so such a label never gets a line. */
module Tooltips {

  import opened Wrappers
  import opened Decimal
  import opened Segments

  /** One hovered point as the chart hands it to the `label` callback. */
  datatype Item = Item(datasetIndex: nat, yLabel: int)

  /** The text of a tooltip line: a space, the value, a space, the label.
      The value's text holds no space, so the line splits back into the two. */
  function LineText(yLabel: int, name: string): (t: string)
    ensures |t| == |IntToString(yLabel)| + |name| + 2
    ensures t[0] == ' ' && t[1..|t| - |name| - 1] == IntToString(yLabel) && t[|t| - |name| - 1..] == " " + name
  {
    var value := IntToString(yLabel);
    var t := " " + value + " " + name;
    assert t[1..|t| - |name| - 1] == value;
    assert t[|t| - |name| - 1..] == " " + name;
    t
  }

  /** The value's text has no space in it. */
  lemma NoSpaceInValue(i: int, k: int)
    requires 0 <= k < |IntToString(i)|
    ensures IntToString(i)[k] != ' '
  {
    if i < 0 && k > 0 {
      assert IntToString(i)[k] == IntToString(i)[1..][k - 1];
    }
  }

  /** In a line the value's text runs up to the first space after the leading one. */
  lemma ValueEndsAtSecondSpace(a: int, name: string)
    ensures var t, n := LineText(a, name), |IntToString(a)|;
      t[n + 1] == ' ' && forall k :: 1 <= k <= n ==> t[k] != ' '
  {
    var t, n := LineText(a, name), |IntToString(a)|;
    forall k | 1 <= k <= n
      ensures t[k] != ' '
    {
      NoSpaceInValue(a, k - 1);
    }
  }

  /** Two tooltip lines are equal exactly when they show the same value and
      the same label. */
  lemma LineTextInjective(a: int, nameA: string, b: int, nameB: string)
    ensures LineText(a, nameA) == LineText(b, nameB) <==> a == b && nameA == nameB
  {
    var sa, sb := IntToString(a), IntToString(b);
    var t := LineText(a, nameA);
    if t == LineText(b, nameB) {
      assert t == " " + sa + " " + nameA && t == " " + sb + " " + nameB;
      ValueEndsAtSecondSpace(a, nameA);
      ValueEndsAtSecondSpace(b, nameB);
      assert |sa| == |sb|;
      assert sa == t[1..1 + |sa|] == sb;
      assert nameA == t[2 + |sa|..] == nameB;
      IntToStringInjective(a, b);
    }
  }

  /** The properties of `Object.prototype`, which every object literal
      inherits; reading one of them from the dictionary gives a truthy value. */
  const InheritedNames: set<string> := {
    "constructor", "hasOwnProperty", "isPrototypeOf", "propertyIsEnumerable",
    "toLocaleString", "toString", "valueOf", "__proto__",
    "__defineGetter__", "__defineSetter__", "__lookupGetter__", "__lookupSetter__"
  }

  /** `this.drawnLabels[label]` is truthy: an inherited property, or a label
      recorded as drawn. */
  predicate Drawn(drawnLabels: map<string, bool>, name: string) {
    name in InheritedNames || (name in drawnLabels && drawnLabels[name])
  }

  predicate ValidItems(datasets: seq<Segment>, items: seq<Item>) {
    forall i :: 0 <= i < |items| ==> items[i].datasetIndex < |datasets|
  }

  /** The label of the dataset an item belongs to. */
  function ItemLabel(datasets: seq<Segment>, items: seq<Item>, i: int): string
    requires ValidItems(datasets, items) && 0 <= i < |items|
  {
    datasets[items[i].datasetIndex].name
  }

  /** No earlier item of the body has the same label. */
  predicate FirstWithLabel(datasets: seq<Segment>, items: seq<Item>, i: int)
    requires ValidItems(datasets, items) && 0 <= i < |items|
  {
    forall j :: 0 <= j < i ==> ItemLabel(datasets, items, j) != ItemLabel(datasets, items, i)
  }

  /** The lines the body should show: an item gets its line exactly when it
      is the first of its label and the label is not inherited. */
  function BodyLines(datasets: seq<Segment>, items: seq<Item>): (lines: seq<Option<string>>)
    requires ValidItems(datasets, items)
    ensures |lines| == |items|
    ensures forall i :: 0 <= i < |items| && lines[i].Some? ==>
      lines[i] == Some(LineText(items[i].yLabel, ItemLabel(datasets, items, i)))
    ensures forall i :: 0 <= i < |items| && ItemLabel(datasets, items, i) in InheritedNames ==> lines[i] == None
  {
    seq(|items|, i requires 0 <= i < |items| =>
      if FirstWithLabel(datasets, items, i) && ItemLabel(datasets, items, i) !in InheritedNames
      then Some(LineText(items[i].yLabel, ItemLabel(datasets, items, i)))
      else None)
  }

  /** At most one line per label: two items that both get a line belong to
      datasets with different labels. */
  lemma AtMostOneLinePerLabel(datasets: seq<Segment>, items: seq<Item>, i: int, j: int)
    requires ValidItems(datasets, items) && 0 <= i < j < |items|
    requires BodyLines(datasets, items)[i].Some? && BodyLines(datasets, items)[j].Some?
    ensures ItemLabel(datasets, items, i) != ItemLabel(datasets, items, j)
  {
  }

  /** At least one line per label: every item's label that is not inherited
      is shown, by that item or an earlier one, with the value of the item
      that draws it. */
  lemma {:induction false} EveryLabelShown(datasets: seq<Segment>, items: seq<Item>, i: int)
    requires ValidItems(datasets, items) && 0 <= i < |items|
    ensures ItemLabel(datasets, items, i) !in InheritedNames ==>
      exists j :: 0 <= j <= i && ItemLabel(datasets, items, j) == ItemLabel(datasets, items, i)
               && BodyLines(datasets, items)[j] == Some(LineText(items[j].yLabel, ItemLabel(datasets, items, i)))
    decreases i
  {
    if !FirstWithLabel(datasets, items, i) {
      var j :| 0 <= j < i && ItemLabel(datasets, items, j) == ItemLabel(datasets, items, i);
      EveryLabelShown(datasets, items, j);
    } else if ItemLabel(datasets, items, i) !in InheritedNames {
      assert BodyLines(datasets, items)[i] == Some(LineText(items[i].yLabel, ItemLabel(datasets, items, i)));
    }
  }

  /** The graph's labels, Visitors and Conversions, are not inherited, so in
      a tooltip over the graph's datasets every hovered series gets a line. */
  lemma GraphLabelsShown(plot: seq<Point>, presentIndex: Option<nat>, comparePlot: Option<seq<Point>>,
                         items: seq<Item>, i: int)
    requires ValidItems(AllSegments(plot, presentIndex, comparePlot), items) && 0 <= i < |items|
    ensures var datasets := AllSegments(plot, presentIndex, comparePlot);
      exists j :: 0 <= j <= i && ItemLabel(datasets, items, j) == ItemLabel(datasets, items, i)
               && BodyLines(datasets, items)[j] == Some(LineText(items[j].yLabel, ItemLabel(datasets, items, i)))
  {
    var datasets := AllSegments(plot, presentIndex, comparePlot);
    var name := ItemLabel(datasets, items, i);
    assert name == "Visitors" || name == "Conversions";
    assert name !in InheritedNames;
    EveryLabelShown(datasets, items, i);
  }

  /** With both halves of a split series hovered at the seam, solid first,
      the body shows the series once, with the solid half's value (and not
      at all for an inherited label). */
  lemma SeamShownOnce(datasets: seq<Segment>, solid: nat, dashed: nat, y: int)
    requires solid < dashed < |datasets|
    requires datasets[solid].name == datasets[dashed].name
    ensures BodyLines(datasets, [Item(solid, y), Item(dashed, y)])
         == [if datasets[solid].name in InheritedNames then None else Some(LineText(y, datasets[solid].name)), None]
  {
    var items := [Item(solid, y), Item(dashed, y)];
    assert FirstWithLabel(datasets, items, 0);
    assert !FirstWithLabel(datasets, items, 1) by {
      assert ItemLabel(datasets, items, 0) == ItemLabel(datasets, items, 1);
    }
  }

  /** The labels of the first k items. */
  function SeenLabels(datasets: seq<Segment>, items: seq<Item>, k: int): set<string>
    requires ValidItems(datasets, items) && 0 <= k <= |items|
  {
    set j | 0 <= j < k :: ItemLabel(datasets, items, j)
  }

  /** The dictionary after the first k items: each of their labels that is
      not inherited, marked drawn. */
  function DrawnAfter(datasets: seq<Segment>, items: seq<Item>, k: int): map<string, bool>
    requires ValidItems(datasets, items) && 0 <= k <= |items|
  {
    map name | name in SeenLabels(datasets, items, k) && name !in InheritedNames :: true
  }

  /** Before the first item nothing is drawn. */
  lemma DrawnAtStart(datasets: seq<Segment>, items: seq<Item>)
    requires ValidItems(datasets, items)
    ensures DrawnAfter(datasets, items, 0) == map[]
  {
    assert SeenLabels(datasets, items, 0) == {};
  }

  /** One `label` call keeps the dictionary in step with the items seen: the
      k-th item's label reads as drawn exactly when the item is not the first
      of its label or the label is inherited, and recording it gives the
      dictionary after k + 1 items. */
  lemma DrawnStep(datasets: seq<Segment>, items: seq<Item>, k: int)
    requires ValidItems(datasets, items) && 0 <= k < |items|
    ensures var before, name := DrawnAfter(datasets, items, k), ItemLabel(datasets, items, k);
      && (Drawn(before, name) <==> !FirstWithLabel(datasets, items, k) || name in InheritedNames)
      && DrawnAfter(datasets, items, k + 1) == if Drawn(before, name) then before else before[name := true]
  {
    var name := ItemLabel(datasets, items, k);
    var seen := SeenLabels(datasets, items, k);
    assert SeenLabels(datasets, items, k + 1) == seen + {name};
    if !FirstWithLabel(datasets, items, k) {
      var j :| 0 <= j < k && ItemLabel(datasets, items, j) == name;
      assert name in seen;
    }
  }

  /** One `label` call in terms of the dictionary after k items: the line it
      writes extends the body's first k lines, and the dictionary it leaves
      is the one after k + 1 items. */
  lemma BodyStep(datasets: seq<Segment>, items: seq<Item>, k: int)
    requires ValidItems(datasets, items) && 0 <= k < |items|
    ensures var before, name := DrawnAfter(datasets, items, k), ItemLabel(datasets, items, k);
      var line := if Drawn(before, name) then None else Some(LineText(items[k].yLabel, name));
      && BodyLines(datasets, items)[..k + 1] == BodyLines(datasets, items)[..k] + [line]
      && DrawnAfter(datasets, items, k + 1) == if Drawn(before, name) then before else before[name := true]
  {
    DrawnStep(datasets, items, k);
    var before, name := DrawnAfter(datasets, items, k), ItemLabel(datasets, items, k);
    var expected := BodyLines(datasets, items);
    assert expected[k] == if Drawn(before, name) then None else Some(LineText(items[k].yLabel, name));
    PrefixStep(expected, k);
  }

  /** A prefix one element longer is the shorter prefix and that element. */
  lemma PrefixStep<T>(s: seq<T>, k: int)
    requires 0 <= k < |s|
    ensures s[..k + 1] == s[..k] + [s[k]]
  {
  }

  /** The tooltip object the callbacks run on (`this` inside them): the
      chart's datasets and the `drawnLabels` dictionary. */
  class Tooltip {
    const datasets: seq<Segment>
    var drawnLabels: map<string, bool>

    constructor (datasets: seq<Segment>)
      ensures this.datasets == datasets && drawnLabels == map[]
    {
      this.datasets := datasets;
      drawnLabels := map[];
    }

    /** `beforeBody`: start a new body with no label drawn. */
    method BeforeBody()
      modifies this
      ensures drawnLabels == map[]
    {
      drawnLabels := map[];
    }

    /** `label`: the line for one item, or none when its dataset's label
        reads as drawn already; a newly drawn label is recorded. */
    method Label(item: Item) returns (line: Option<string>)
      requires item.datasetIndex < |datasets|
      modifies this
      ensures var name := datasets[item.datasetIndex].name;
        && line == (if Drawn(old(drawnLabels), name) then None else Some(LineText(item.yLabel, name)))
        && drawnLabels == (if Drawn(old(drawnLabels), name) then old(drawnLabels) else old(drawnLabels)[name := true])
    {
      var dataset := datasets[item.datasetIndex];
      if !Drawn(drawnLabels, dataset.name) {
        drawnLabels := drawnLabels[dataset.name := true];
        line := Some(LineText(item.yLabel, dataset.name));
      } else {
        line := None;
      }
    }

    /** How the chart draws one tooltip body with these callbacks:
        `beforeBody` once, then `label` for each item in order. The lines
        are those of BodyLines, and afterwards the dictionary holds exactly
        the items' labels that are not inherited. */
    method DrawBody(items: seq<Item>) returns (lines: seq<Option<string>>)
      requires ValidItems(datasets, items)
      modifies this
      ensures lines == BodyLines(datasets, items)
      ensures drawnLabels == DrawnAfter(datasets, items, |items|)
    {
      ghost var expected := BodyLines(datasets, items);
      BeforeBody();
      DrawnAtStart(datasets, items);
      lines := [];
      var k := 0;
      while k < |items|
        invariant 0 <= k <= |items|
        invariant lines == expected[..k]
        invariant drawnLabels == DrawnAfter(datasets, items, k)
      {
        BodyStep(datasets, items, k);
        var line := Label(items[k]);
        lines := lines + [line];
        k := k + 1;
      }
      assert expected[..k] == expected;
    }
  }
}
