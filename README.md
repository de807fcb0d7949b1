# Car dataset dashboard — a verified model

The dashboard reads a CSV file of cars. It converts every row into a record
with six numeric features: horsepower, city and highway economy, retail
price, engine size and cylinders. It keeps only the records whose features
are all positive and whose city economy is below 90. From those records it
draws four views:

- a scatterplot of horsepower against city economy;
- a legend of the car types;
- a details panel;
- a star plot of the clicked car's six features.

This project models the computational core of `main.js` in Dafny and proves
what that core promises.

Modules, following the structure of the program:

- `Records`: the record and its JavaScript numbers. All of these are taken
  from the JavaScript side:
  - `NaN` is `None`, and every comparison against `None` is false.
  - `rowConverter` is `RowConverter`.
  - The coercion `+text` is a parameter `toNumber`, because JavaScript's
    numeric grammar is not modelled.
- `Cleaning`: the filter predicate and `data.filter`. It proves:
  - which records are kept, how often and in which order;
  - that the result is clean;
  - that filtering is idempotent.
- `Scales`: the linear scales `x`, `y` and `size`, and the six radial
  `featureScales`, which are filled by a loop (the method
  `BuildFeatureScales`). It proves their anchors, bounds and monotonicity.
- `TypeOrder`: `[...new Set(types)].sort()`. JavaScript's default
  comparison on strings is `Before`, `new Set` insertion order is
  `Distinct`, and the sort is an insertion sort. It proves:
  - that the list is strictly ascending and holds exactly the types;
  - that any reordering of the input leaves it unchanged;
  - that a type's palette slot is its position in the list.
- `Dashboard`: the load pipeline, and the dots and star-plot outline as
  values. The interactive state is modelled imperatively:
  - the classes `DetailsPanel`, `StarPlotArea` and `Scatter` (which holds
    the `selected-dot` flags as a `bool` array);
  - the methods `Click` and `Draw`.

  `Scatter.Valid` is the single-selection invariant. It says that at most
  one circle is flagged, that it is the selected one, and that both panels
  show its car.

A few choices of the model:

- Empty cells. A written description of this dashboard says that an empty
  cell becomes NaN. In JavaScript, `+""` is `0`. The model follows the code: the
  conversion is the parameter `toNumber`, so an empty cell is whatever
  `toNumber("")` gives. The lemma `UnconvertibleCellIsDropped` holds for any
  cell that does not convert. Under the real coercion an empty cell becomes
  0, and that record is dropped as well, because every feature must be
  greater than 0.
- Collapsed price range. When every clean car has the same price, the
  domain of `size` collapses. What the scale then returns is decided by the
  d3 library, and `main.js` does not show which d3 version it loads. The
  model makes its own fixed choice: every value maps to the middle of the
  range, 7.5 (`SizeScaleAnchors`). Other d3 versions return the start of
  the range instead.
- Clicks. The click handler is taken to receive the clicked circle's datum.
  This too depends on the d3 version, which is not visible.
- Colour. A type's colour is its palette slot (`ColorSlot`). The slots
  are distinct for distinct types.

## Model

| member | source | states |
|---|---|---|
| Records.Coerce | main.js:24-29 | definition: `+d[column]`, the column's text coerced by `toNumber`, NaN for a missing column |
| Records.RowConverter | main.js:20-31 | Name and Type pass through unchanged; each of the six features is its own column coerced to a number, and a missing column is NaN |
| Cleaning.KeepIsWellFormed | main.js:39-47 | the filter predicate holds exactly when all six features are numbers greater than 0 and city economy is below 90 |
| Cleaning.Keep | main.js:39-47 | definition: the filter predicate, conjunct for conjunct, with NaN failing every comparison; its meaning is stated by KeepIsWellFormed |
| Cleaning.KeptHasNoNaN | main.js:39-47 | a kept record has no NaN feature, and each feature is positive |
| Cleaning.UnconvertibleCellIsDropped | main.js:24-29 | a cell that does not convert gives a NaN feature, and the filter drops that record |
| Cleaning.Filter | main.js:39-47 | the result is no longer than the input, and every record in it passes the filter |
| Cleaning.FilterCounts | main.js:39-47 | a record that passes occurs in the result exactly as often as in the input; a record that fails does not occur |
| Cleaning.KeptIndices | main.js:39-47 | the kept positions are valid, strictly increasing and hold passing records, and every passing position is among them |
| Cleaning.FilterKeepsOrder | main.js:39-47 | the result is the input read at the kept positions in increasing order, so it is a subsequence in the original order |
| Cleaning.FilterEmptyIff | main.js:39-49 | the result is empty exactly when no record passes |
| Cleaning.FilterOfClean | main.js:39-47 | a sequence whose records all pass is returned unchanged |
| Cleaning.FilterIdempotent | main.js:39-47 | filtering twice is the same as filtering once |
| Scales.Apply | main.js:56-71 | definition: applying a d3 linear scale, r0 + (v - d0)(r1 - r0)/(d1 - d0), and the chosen midpoint for a collapsed domain; its properties are ApplyEnds, ApplyWithin and ApplyMonotone |
| Scales.ApplyEnds | main.js:56-62 | a linear scale with a proper domain maps the domain's ends to the range's ends |
| Scales.ApplyWithin | main.js:56-62 | a value inside a proper domain lands inside the range, whether the range rises or falls |
| Scales.ApplyMonotone | main.js:69-71 | with a rising range, a larger value is never mapped lower |
| Scales.Value | main.js:39-47 | a kept record holds a positive number for every feature |
| Scales.MaxOf | main.js:57 | `d3.max` over the clean data bounds every car's value from above and is positive |
| Scales.MaxOfAttained | main.js:57 | `d3.max` is the value of some car |
| Scales.MinOf | main.js:70 | the lower end of `d3.extent` bounds every car's value from below and is positive |
| Scales.MinOfAttained | main.js:70 | the lower end of `d3.extent` is the value of some car |
| Scales.XScale | main.js:56-58 | definition: `x`, horsepower from 0 to its maximum onto [0, width]; its properties are XScaleAnchors |
| Scales.YScale | main.js:60-62 | definition: `y`, city economy from 0 to its maximum onto [height, 0]; its properties are YScaleAnchors |
| Scales.SizeScale | main.js:69-71 | definition: `size`, the price extent onto [3, 12]; its properties are SizeScaleAnchors and SizeScaleBounds |
| Scales.FeatureScale | main.js:158-162 | definition: `featureScales[f]`, feature f from 0 to its maximum onto [0, 100]; its properties are FeatureScaleAnchors |
| Scales.XScaleAnchors | main.js:56-58 | x(0) = 0 and x(max HP) = width; every dot's centre lies in [0, width] |
| Scales.YScaleAnchors | main.js:60-62 | y(0) = height and y(max city MPG) = 0; every dot's centre lies in [0, height] |
| Scales.SizeScaleAnchors | main.js:69-71 | with distinct prices, size(min) = 3 and size(max) = 12; with a single price, every value maps to 7.5 |
| Scales.SizeRadiusWithin | main.js:69-71 | every car's dot radius lies in [3, 12] |
| Scales.SizeScaleBounds | main.js:69-71 | every radius lies in [3, 12], and a dearer car never gets a smaller dot |
| Scales.FeatureRadiusWithin | main.js:158-162 | every car's value of a feature maps into (0, 100] on that feature's scale |
| Scales.FeatureScaleAnchors | main.js:158-162 | each feature scale maps 0 to 0 and the feature's maximum to 100, and every car's value into (0, 100] |
| Scales.BuildFeatureScales | main.js:155-162 | the loop builds a dictionary with exactly one entry per feature, and each entry is that feature's radial scale |
| TypeOrder.Before | main.js:64 | definition: the default order of `sort` on strings, character by character, a proper prefix first; BeforeIrreflexive, BeforeAsymmetric, BeforeTransitive and BeforeTotal show it is a strict total order |
| TypeOrder.BeforeIrreflexive | main.js:64 | no string sorts before itself |
| TypeOrder.BeforeAsymmetric | main.js:64 | two strings never sort before each other |
| TypeOrder.BeforeTransitive | main.js:64 | the default sort order is transitive |
| TypeOrder.BeforeTotal | main.js:64 | of two different strings, one sorts before the other |
| TypeOrder.Distinct | main.js:64 | the Set holds the same strings as its input, each once |
| TypeOrder.Insert | main.js:64 | inserting adds exactly one occurrence of the new string to the contents |
| TypeOrder.Sort | main.js:64 | sorting does not change the contents, counting repeats |
| TypeOrder.InsertAscending | main.js:64 | inserting a new string into an ascending list keeps it ascending |
| TypeOrder.SortAscending | main.js:64 | sorting strings without duplicates gives a strictly ascending list |
| TypeOrder.AscendingUnique | main.js:64 | two strictly ascending lists holding the same strings are equal |
| TypeOrder.SortedDistinct | main.js:64 | definition: `[...new Set(types)].sort()`; its properties are SortedDistinctSpec |
| TypeOrder.SortedDistinctSpec | main.js:64 | the deduplicated, sorted list is strictly ascending and holds exactly the input strings |
| TypeOrder.TypesOf | main.js:64 | the mapped types have one entry per car, in order |
| TypeOrder.UniqueTypes | main.js:64 | definition: `uniqueTypes`, the sorted distinct types of the clean data; its properties are UniqueTypesSpec and UniqueTypesPermutation |
| TypeOrder.UniqueTypesSpec | main.js:64-67 | `uniqueTypes` is strictly ascending and holds exactly the types that occur in the clean data |
| TypeOrder.UniqueTypesPermutation | main.js:64-67 | any reordering of the clean data gives the same `uniqueTypes` |
| TypeOrder.ColorSlot | main.js:65-67 | a type's palette slot is a position in the domain that holds that type |
| TypeOrder.ColorSlotOfLegendRow | main.js:122-127 | legend row k shows type k and is filled with palette slot k, the same slot as every dot of that type |
| TypeOrder.ColorSlotInjective | main.js:65-67 | different types never share a palette slot |
| TypeOrder.LegendExampleAscending | main.js:64 | "SUV", "Sedan", "Truck" is in ascending default order |
| TypeOrder.LegendExample | main.js:64 | the types Sedan, Sedan, SUV, Truck key the legend as SUV, Sedan, Truck |
| Dashboard.Setup | main.js:39-71 | the pipeline stops, building nothing, exactly when no record passes the filter; otherwise every scale and the type list are built from the filtered data |
| Dashboard.DotOf | main.js:101-104 | a dot's centre lies in the plot area, its radius in [3, 12], and its palette slot is the slot of its own car's type |
| Dashboard.Dots | main.js:96-104 | there is one dot per clean car, in dataset order; every dot lies in the plot area, has a radius in [3, 12] and is filled with the palette slot of its own car's type |
| Dashboard.Radius | main.js:184 | definition: `featureScales[f](d[f])`, the radius of feature f's vertex |
| Dashboard.StarPath | main.js:179-213 | definition: the vertex list, one (axis, radius) pair per feature in order, then the first again; its properties are StarPathShape and StarPathInCircle |
| Dashboard.StarPathShape | main.js:179-213 | the outline has 7 vertices; vertex i lies on axis i at the scaled value of feature i; the last vertex repeats the first |
| Dashboard.VertexInCircle | main.js:182-189 | each vertex of a clean car's outline lies at a radius in (0, 100] |
| Dashboard.StarPathInCircle | main.js:182-213 | every vertex of the closed outline lies at a radius in (0, 100] |
| Dashboard.DetailsPanel.constructor | main.js:133-148 | the panel starts empty, with the hint visible |
| Dashboard.DetailsPanel.Update | main.js:133-148 | the panel shows the given car, and the hint is hidden |
| Dashboard.StarPlotArea.constructor | main.js:164-166 | the star-plot area starts empty |
| Dashboard.StarPlotArea.Draw | main.js:164-213 | whatever was drawn before, the area afterwards holds exactly six axes in feature order, six labels with the feature names and the closed outline of the car |
| Dashboard.ClearFlags | main.js:111 | afterwards no circle carries the `selected-dot` flag |
| Dashboard.Scatter.constructor | main.js:96-119 | the chart starts with no circle flagged, no car selected or shown, an empty star plot and the hint visible |
| Dashboard.Scatter.Click | main.js:109-119 | afterwards exactly the clicked circle is flagged, it is the selected one, both panels show its car, the hint is hidden, and the single-selection invariant holds |
| Dashboard.Scatter.ClickAll | main.js:109-119 | after any run of clicks, only the last circle clicked is flagged and both panels show its car; once hidden, the hint stays hidden |
| Dashboard.ParseRows | main.js:36 | definition: the rows converted by `rowConverter`, one record per row in file order |
| Dashboard.Load | main.js:36-49 | converting and filtering the rows yields no chart exactly when no car passes; otherwise a newly allocated chart, with fresh flags array, details panel and star plot, so a caller may click it; nothing is selected or drawn, the hint is visible, and every scale comes from the filtered data |
| Dashboard.ScenarioExample | main.js:39-47 | of a 200 HP car and a 0 HP car only the first is kept; alone in the dataset, its horsepower vertex lies on the reference circle |

## Left out

- DOM and SVG construction are not modelled: attributes, CSS classes, margins, axis drawing, and the pixel offsets of legend rows and labels. The model keeps only what is drawn: dots, legend order, axes, labels and outline.
- Loading with `d3.csv`, its promise and the `console.error` on failure are not modelled, because they are I/O and asynchrony. `Load` starts from the rows that were read.
- Numeric coercion `+text` is the parameter `toNumber`, because JavaScript's numeric grammar is not modelled. An empty cell is therefore whatever `toNumber("")` returns (0 in JavaScript).
- Infinity is not modelled. A JavaScript number here is NaN or a finite real.
- Floating-point rounding is not modelled. Scales are computed on exact reals.
- The star plot's vertex coordinates are not modelled: neither the `Math.cos`/`Math.sin` positions nor the `d3.line` path string. A vertex is modelled as its axis index and radius.
- The colours of `d3.schemeCategory10` and the palette's cycling after ten types live inside d3. A colour is modelled as the type's palette slot.
- The details panel's HTML text is not modelled. The panel is modelled as the record it shows.
- RowConverter: requires the `Name` and `Type` columns to be present, as the data's header guarantees. A missing one would be `undefined` in JavaScript.
- TypeOrder.Before: compares characters by code point. JavaScript compares UTF-16 code units, and the two orders differ only for characters outside the Basic Multilingual Plane.
- d3's `scaleLinear`, `max` and `extent` are modelled as a linear map, a maximum and a minimum over a non-empty dataset. For a collapsed domain the model's midpoint is its own choice, not a fact about d3. The library's code is not part of this model.
