# Visitor graph datasets, verified

A Dafny model of the data-reshaping core of the dashboard's visitor graph
(`assets/js/dashboard/stats/visitor-graph.js`): the code between the
stats API response and the charting library.

- **Plot segmentation** (`mainSet`, `compareSet`, `dataSets`). A plot is
  split at `present_index` into a solid dataset (confirmed buckets) and a
  dashed one (the current, still-incomplete bucket), which share the point
  at `present_index - 1` so the two lines meet. The dashed copy is sliced
  and left-padded with holes; the solid dataset is the caller's own array,
  whose tail is overwritten with `undefined` in place. A comparison plot is
  split the same way and its datasets follow the main ones.
  `Segments` states the split on sequences and proves its properties;
  `ChartData` performs it in place on arrays and is proved to agree with
  `Segments`, including that the solid dataset aliases the input array
  and the dashed one is a fresh array.
- **Tooltip de-duplication** (`beforeBody`/`label` callbacks). A `Tooltip`
  class holds the `drawnLabels` dictionary; `label` writes a line only for
  the first item of each dataset label, so the two halves of a series show
  as one line.
- **Label formatting** (`dateFormatter`, `MONTHS`) over the already
  extracted month, day and hour, with the decimal rendering that JavaScript
  string concatenation performs on integers below 10^21 in magnitude
  (`Decimal`).
- **Comparison badge** (`renderComparison`): arrow direction from the sign
  of the change, colour from whether the change is good news (inverted for
  the bounce rate).

Absent values (JavaScript holes, `undefined` and `null`) are all `None`.
`present_index` is an `Option<nat>`: `None` stands for null/undefined, and
`Some(0)` is falsy in the source, so it does not split either.

The model follows the code in its edge cases: a present index of 0 does
not split (it is falsy); a present index greater than the plot's length is
not rejected, it leaves the solid dataset whole and makes the dashed one all
holes; an unknown interval gives no label rather than an error; the solid
dataset is the input array, mutated in place, not a copy; and the tooltip's
`drawnLabels` is a plain object, so a dataset label naming a property every
object inherits (`toString`, `constructor`, `__proto__`, ...) reads as drawn
from the start and never gets a tooltip line. The graph's own labels,
Visitors and Conversions, are not such names.

## Model

| member | source | states |
|---|---|---|
| Segments.Splits | assets/js/dashboard/stats/visitor-graph.js:14 | A present index splits the plot exactly when it is truthy: null, undefined and 0 do not split. |
| Segments.DashedPlot | assets/js/dashboard/stats/visitor-graph.js:15-16 | The dashed copy has the plot's length, is absent at every index below p - 1 and equals the plot from p - 1 on; for p greater than the plot's length every index is absent. |
| Segments.SolidPlot | assets/js/dashboard/stats/visitor-graph.js:17-19 | What the overwrite leaves: the plot's length, every point below p kept, every point from p on absent. |
| Segments.Split | assets/js/dashboard/stats/visitor-graph.js:14-47 | A falsy present index gives exactly one solid dataset whose data is the plot unchanged; a truthy one gives solid then dashed; every dataset has the series' label and the plot's length, and only the second is dashed. |
| Segments.SeamAndCover | assets/js/dashboard/stats/visitor-graph.js:15-19 | For 1 <= p <= N both parts hold the original point at p - 1; the defined positions of the two parts together are exactly the plot's defined positions, and the only position defined in both is p - 1. |
| Segments.SeamCount | assets/js/dashboard/stats/visitor-graph.js:15-19 | The points before p and the points from p - 1 on count the plot's defined points once each, except the seam point, which is counted twice. |
| Segments.SolidCount | assets/js/dashboard/stats/visitor-graph.js:17-19 | The solid part has exactly as many defined points as the plot before p. |
| Segments.DashedCount | assets/js/dashboard/stats/visitor-graph.js:15-16 | The dashed part has exactly as many defined points as the plot from p - 1 on. |
| Segments.DefinedCounts | assets/js/dashboard/stats/visitor-graph.js:15-19 | The defined points of solid and dashed add up to the plot's plus the seam point; for a plot with a value in every bucket the solid part has p of them and the dashed part N - p + 1. |
| Segments.AllSegments | assets/js/dashboard/stats/visitor-graph.js:91-99 | The graph has 1, 2, 3 or 4 datasets: the main series' first, labelled Visitors, then the comparison's, labelled Conversions, only when a comparison plot is present, each of its own plot's length; with a split every second dataset is the dashed one. |
| Segments.SplitExample | assets/js/dashboard/stats/visitor-graph.js:14-37 | Splitting [1,2,3,4,5] at 3 gives solid [1,2,3,-,-] and dashed [-,-,3,4,5]. |
| ChartData.ClearFrom | assets/js/dashboard/stats/visitor-graph.js:17-19 | The loop leaves the array holding exactly SolidPlot of its old contents. |
| ChartData.SplitSeries | assets/js/dashboard/stats/visitor-graph.js:14-47 | The in-place split: every solid dataset's data is the caller's array itself and every dashed one a fresh array, and their contents are exactly the datasets Segments.Split gives for the plot as it was on entry. |
| ChartData.MainSet | assets/js/dashboard/stats/visitor-graph.js:9-48 | The visitors split: same guarantees as SplitSeries under the label Visitors. |
| ChartData.CompareSet | assets/js/dashboard/stats/visitor-graph.js:50-89 | The comparison split: same guarantees as SplitSeries under the label Conversions. |
| ChartData.DataSets | assets/js/dashboard/stats/visitor-graph.js:91-99 | The datasets' contents are the main split followed by the comparison split when a comparison plot is present, both at the same present index; every dashed dataset is a fresh array and every solid one is one of the input plot arrays, the main plot first and the comparison plot at the middle index. |
| Decimal.NatToString | assets/js/dashboard/stats/visitor-graph.js:115 | A number concatenated to a string renders as at least one decimal digit, with no leading zero. |
| Decimal.DigitsValueOfNatToString | assets/js/dashboard/stats/visitor-graph.js:115 | Reading back the rendered digits gives the number. |
| Decimal.NatToStringInjective | assets/js/dashboard/stats/visitor-graph.js:121 | Two numbers render the same exactly when they are equal. |
| Decimal.IntToString | assets/js/dashboard/stats/visitor-graph.js:170 | A tooltip value renders as a '-' exactly for negative numbers, followed only by digits. |
| Decimal.IntToStringInjective | assets/js/dashboard/stats/visitor-graph.js:170 | Two integers (tooltip values) render the same exactly when they are equal. |
| DateLabels.Hour12 | assets/js/dashboard/stats/visitor-graph.js:119-120 | The displayed hour is always 1 to 12 and congruent to the hour modulo 12, so hour 0 shows as 12. |
| DateLabels.Meridiem | assets/js/dashboard/stats/visitor-graph.js:118 | The suffix is pm exactly from hour 12 on and am exactly before it. |
| DateLabels.FormatDate | assets/js/dashboard/stats/visitor-graph.js:108-124 | There is a label exactly for the intervals month, date and hour; any other interval gives none. |
| DateLabels.HourFromClock | assets/js/dashboard/stats/visitor-graph.js:117-121 | The 12-hour number together with the am/pm suffix determines the hour (pm exactly from 12 on). |
| DateLabels.HourLabelsDistinct | assets/js/dashboard/stats/visitor-graph.js:116-121 | Two hours of a day get the same hour label exactly when they are equal. |
| DateLabels.MonthsDistinct | assets/js/dashboard/stats/visitor-graph.js:101-106 | The twelve month names are pairwise different. |
| DateLabels.MonthLabelsDistinct | assets/js/dashboard/stats/visitor-graph.js:112-113 | Two months get the same month label exactly when they are equal. |
| DateLabels.LeadingDigitsBeforeSpace | assets/js/dashboard/stats/visitor-graph.js:115 | In a date label the run of leading digits is exactly the day's digits. |
| DateLabels.DigitsBeforeSpace | assets/js/dashboard/stats/visitor-graph.js:115 | Equal date labels have equal day text and equal month text. |
| DateLabels.DateLabelsDistinct | assets/js/dashboard/stats/visitor-graph.js:114-115 | Two (day, month) pairs get the same date label exactly when they are equal. |
| DateLabels.FormatDateExamples | assets/js/dashboard/stats/visitor-graph.js:108-124 | March gives "March", the 5th of March "5 March", hour 0 "12am", hour 13 "1pm", and an unknown interval no label. |
| Tooltips.LineText | assets/js/dashboard/stats/visitor-graph.js:170 | A line is a space, the value's text, a space and the label, and splits back into exactly those parts. |
| Tooltips.LineTextInjective | assets/js/dashboard/stats/visitor-graph.js:170 | Two tooltip lines are equal exactly when they show the same value and the same label. |
| Tooltips.BodyLines | assets/js/dashboard/stats/visitor-graph.js:163-172 | The body has one entry per item; a line shown for an item is that item's value and label, and an item whose label is an inherited property name gets no line. |
| Tooltips.AtMostOneLinePerLabel | assets/js/dashboard/stats/visitor-graph.js:163-172 | Within one tooltip body, two items that both get a line belong to datasets with different labels. |
| Tooltips.EveryLabelShown | assets/js/dashboard/stats/visitor-graph.js:163-172 | Every item's label that is not an inherited property name gets a line, from that item or the first earlier one with the same label, with the value of the item that draws it. |
| Tooltips.GraphLabelsShown | assets/js/dashboard/stats/visitor-graph.js:163-172 | Over the graph's own datasets every hovered item's label gets a line, from it or an earlier item with the same label. |
| Tooltips.SeamShownOnce | assets/js/dashboard/stats/visitor-graph.js:163-172 | At the seam, where both halves of a series are hovered, the body shows the series once, with the solid half's value (not at all when the label is an inherited property name). |
| Tooltips.DrawnAtStart | assets/js/dashboard/stats/visitor-graph.js:163-165 | Before any item the dictionary of drawn labels is empty. |
| Tooltips.DrawnStep | assets/js/dashboard/stats/visitor-graph.js:166-172 | An item's label reads as drawn exactly when an earlier item had it or it is an inherited property name, and recording it gives the dictionary of the first k + 1 items. |
| Tooltips.BodyStep | assets/js/dashboard/stats/visitor-graph.js:166-172 | One label call extends the body's lines by this item's line (or none) and leaves the dictionary of the first k + 1 items. |
| Tooltips.Tooltip.constructor | assets/js/dashboard/stats/visitor-graph.js:143-172 | A tooltip over the chart's datasets starts with no label drawn. |
| Tooltips.Tooltip.BeforeBody | assets/js/dashboard/stats/visitor-graph.js:163-165 | beforeBody empties the dictionary of drawn labels. |
| Tooltips.Tooltip.Label | assets/js/dashboard/stats/visitor-graph.js:166-172 | label returns " value label" and records the label when it does not read as drawn (neither recorded nor inherited); otherwise it returns nothing and changes nothing. |
| Tooltips.Tooltip.DrawBody | assets/js/dashboard/stats/visitor-graph.js:163-172 | beforeBody followed by label for each item yields exactly the lines of BodyLines, and leaves exactly the items' labels that are not inherited recorded as drawn. |
| Comparison.RenderComparison | assets/js/dashboard/stats/visitor-graph.js:225-237 | No badge exactly for a missing change, "N/A" exactly for 0; otherwise the arrow points up exactly for a rise and is green exactly when the change is good news (a rise, or a fall of the bounce rate), red otherwise. |
| Comparison.BounceRateInverted | assets/js/dashboard/stats/visitor-graph.js:228-233 | For the same non-zero change the bounce rate gets the same arrow as any other stat but the other colour. |
| Comparison.OppositeChanges | assets/js/dashboard/stats/visitor-graph.js:228-233 | Opposite non-zero changes of a stat get opposite arrows in opposite colours. |

## Left out

- Negative `present_index` (a slice from the end, and the loop writing a non-index property): `present_index` is a natural number here.
- Decimal.IntToString: renders every integer in plain digits; JavaScript writes magnitudes of 10^21 and more in exponent notation ("1e+21"), and integers above 2^53 are not exactly representable as JavaScript numbers.
- Non-integer values: plot points, `present_index` and the comparison change are integers; floating point, NaN and their JavaScript rendering are not modelled.
- `new Date(isoDate)` parsing and the host time zone: `FormatDate` takes the UTC month, the UTC day and the local hour as integers.
- Dataset styling (border width and colours, the canvas gradient made with `ctx.createLinearGradient`) and the Chart.js construction and options: a dataset is its label, its data and whether it is dashed.
- `numberFormatter` (a call into code that is not part of this model), so the magnitude text of `renderComparison` and `renderTopStats`, and the HTML markup around the badge, are not modelled.
- The tooltip `title` and `footer` callbacks, `onClick` navigation (`URLSearchParams`, `history.push`), `downloadLink` and `api.get`: browser, router and network calls.
- React lifecycle and loading state of `VisitorGraph` and `LineGraph`.
- Tooltip.constructor: `drawnLabels` starts empty, where in the source it is undefined until the first `beforeBody`; the chart always calls `beforeBody` before `label`.
- ChartData.DataSets: requires the comparison plot to be a different array from the main plot, as it is for a decoded JSON response.
- `countries.js` (map rendering, resize listeners, a d3 colour scale) and `modals/pages.js` (a modal around a fetch) hold no logic beyond rendering glue.
