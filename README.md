# NYC wastewater dashboard: series transformer and legend highlight

A Dafny model of the data core of the NYC COVID wastewater tracker's web
client. The dashboard imports a JSON file of wastewater percentiles per
watershed and draws it as a Chart.js line chart. Only two parts of
`client/src/App.tsx` compute. The model covers both:

- **Series transformer** (modules `ObjectOrder`, `Watersheds`, `Series`).
  Two fixed tables are involved:
  - `friendlyLabels` maps a raw key such as `Queens_w_percentile` to a legend
    label such as `Queens`.
  - `colorsMap` maps a legend label to a hex colour.

  The imported JSON becomes the chart's `labels` and `datasets`:
  - `labels` is the `test_date` values in index order.
  - `datasets` has one record per other property, in property order:
    `{label, borderColor, backgroundColor, pointStyle: false, data}`.
- **Legend highlight** (module `Highlight`). The `LineChart` component keeps
  one state value, `selectedData`, which starts at `"All Watersheds"`.
  - Hovering a legend item sets the state to that item's text.
  - Clicking a legend item does nothing.
  - An effect runs on each change of the state. It rewrites every dataset's
    colours in place: the selected dataset gets its base colour, and every
    other dataset gets its base colour with the alpha suffix `"10"`.

How the JavaScript values are represented:
- An index-keyed JSON object (`{"0": …, "1": …}`) is a `map<nat, V>`.
  For keys that are array indices (integers below 2^32 − 1), `Object.values`
  lists the values in ascending index order; this is
  `ObjectOrder.ObjectValues`.
- The top-level object is a sequence of entries in insertion order, which is
  the order `Object.entries` yields.
- A reading (`number | null`) is an `Option<real>`.
- The chart's dataset array is an `array` of dataset values that the effect's
  loop overwrites one cell at a time.
- Record field `label` is called `name`, because `label` is a Dafny keyword.

Behaviour of the code worth noting:
- The legend keeps a single state value, `selectedData`. Hovering an item
  sets it; nothing resets it when the pointer leaves the legend. Clicking an
  item does nothing.
- An unknown raw key raises no error: `friendlyLabels[k]` is `undefined` in
  JavaScript. The model excludes such keys by the precondition
  `Series.SeriesKnown`.
- The `friendlyLabels` and `colorsMap` tables use the labels
  `"All Watersheds"` (for `NYC_percentile`) and `"New York"` (for
  `New York_w_percentile`).
- A dataset's `data` holds the readings only. It lines up with `labels` by
  position (`Series.DataAlignedWithLabels`), not as (date, value) pairs.
- The "at a glance" summary returns constant values. No summary algorithm is
  modelled.

## Model

| member | source | states |
|---|---|---|
| `ObjectOrder.SortedKeys` | client/src/App.tsx:54 | the index order `Object.values` uses lists every index of the object exactly once, in strictly ascending order |
| `ObjectOrder.SortedKeysUnique` | client/src/App.tsx:54 | ascending order is the only strictly increasing listing of the indices, so the enumeration order is fully determined |
| `ObjectOrder.ObjectValues` | client/src/App.tsx:59 | `Object.values` yields one value per index, and position i holds the value of the i-th smallest index |
| `ObjectOrder.ObjectValuesAligned` | client/src/App.tsx:54-59 | two objects over the same indices have equally long value lists, and their i-th values belong to the same index |
| `ObjectOrder.ObjectValuesComplete` | client/src/App.tsx:59 | every index's value appears in the listed values, at the position of that index in ascending order: none is dropped or moved |
| `Watersheds.FriendlyLabelsInjective` | client/src/App.tsx:36-43 | no two raw keys map to the same legend label |
| `Watersheds.LabelsHaveColours` | client/src/App.tsx:36-52 | every legend label has a colour, and the colour table covers exactly the legend labels |
| `Watersheds.ColoursAreHex` | client/src/App.tsx:45-52 | every colour of `colorsMap` is a `#rrggbb` colour of six lower-case hex digits |
| `Watersheds.ColoursDistinct` | client/src/App.tsx:45-52 | no two legend labels share a colour |
| `Watersheds.InitialSelectionIsAggregate` | client/src/App.tsx:36-85 | the initial selection `"All Watersheds"` is the label of the `NYC_percentile` series |
| `Series.TestDates` | client/src/App.tsx:54 | `wastewaterData.test_date` is the dates held by the dataset's one `test_date` property |
| `Series.Labels` | client/src/App.tsx:54 | `labels` is the `test_date` property's dates in ascending index order, one per index |
| `Series.SeriesEntries` | client/src/App.tsx:55-56 | the filter keeps exactly the properties whose key is not `test_date` |
| `Series.BuildDataset` | client/src/App.tsx:57-67 | the record built for one property: its label is the key's display label, which has a colour; border and background are both that colour; `pointStyle` is false; `data` holds one reading per index in ascending index order |
| `Series.Datasets` | client/src/App.tsx:55-68 | there are exactly as many records as properties kept by the filter |
| `Series.Chart` | client/src/App.tsx:54-81 | the chart's `data` object has as labels the `test_date` dates in ascending index order, one per index, and one record per property other than `test_date`, record i built from the i-th such property |
| `Series.DatasetRecords` | client/src/App.tsx:55-68 | record i comes from the i-th kept property, never from `test_date`: label from `friendlyLabels`, border and background both the label's `colorsMap` colour, `pointStyle` false, data the property's values in index order |
| `Series.SeriesEntriesAppend` | client/src/App.tsx:55-56 | the filter distributes over concatenation, so it keeps the properties' order |
| `Series.DatasetsAppend` | client/src/App.tsx:55-68 | the datasets of two property lists joined are the two dataset lists joined: records follow key order |
| `Series.DatasetsOfOne` | client/src/App.tsx:55-68 | a `test_date` property yields no record, any other property exactly one |
| `Series.SeriesCount` | client/src/App.tsx:55-57 | with distinct keys there is one record per property other than `test_date`, so one fewer than the properties when `test_date` is present |
| `Series.SeriesEntriesDistinct` | client/src/App.tsx:55-56 | filtering keeps the keys distinct |
| `Series.DatasetNamesDistinct` | client/src/App.tsx:36-58 | no two records share a legend label |
| `Series.EverySeriesCharted` | client/src/App.tsx:55-66 | every property other than `test_date` has a record with its display label and its values |
| `Series.DataAlignedWithLabels` | client/src/App.tsx:54-59 | a series over the same indices as `test_date` has as many points as there are labels, and point j and label j come from the same index |
| `Series.ReadingsListed` | client/src/App.tsx:59 | readings listed in index order keep their nulls: point j is null exactly when the reading of the j-th smallest index is, and every point is one of the readings |
| `Series.NullsPreserved` | client/src/App.tsx:59 | a record has one point per index, point j is null exactly when the reading of the j-th smallest index is null, and every point is one of the series' readings |
| `Highlight.BaseColour` | client/src/App.tsx:91 | the colour spliced into the template is the label's `#rrggbb` table colour, or the text `"undefined"` for a label missing from `colorsMap` |
| `Highlight.Recolour` | client/src/App.tsx:90-93 | recolouring one dataset changes only its colours, sets border and background alike, keeps the base colour as prefix, and leaves the dataset at full opacity exactly when its label is the selection |
| `Highlight.Recoloured` | client/src/App.tsx:89-94 | the effect keeps the number of datasets |
| `Highlight.RecolouredEmphasis` | client/src/App.tsx:89-94 | after the effect the selected dataset has exactly its base colour, every other one its base colour plus `"10"`, border equals background, and label, point style and data are unchanged |
| `Highlight.FullOpacityIffSelected` | client/src/App.tsx:90-91 | a dataset ends at full opacity exactly when its label equals `selectedData` |
| `Highlight.AtMostOneFullOpacity` | client/src/App.tsx:89-93 | with distinct labels, at most one dataset is at full opacity after the effect |
| `Highlight.SomeFullOpacityIffListed` | client/src/App.tsx:89-93 | some dataset is at full opacity exactly when `selectedData` is one of the labels |
| `Highlight.RecolouredForgetsColours` | client/src/App.tsx:89-94 | the effect's result depends only on labels and `selectedData`, not on the colours before |
| `Highlight.RecolouredTwice` | client/src/App.tsx:88-97 | recolouring for one selection and then another equals recolouring for the second alone |
| `Highlight.RecolouredIdempotent` | client/src/App.tsx:89-94 | applying the effect twice equals applying it once |
| `Highlight.ChartHighlight` | client/src/App.tsx:55-93 | on the chart built from the dataset file, at most one series is at full opacity, and one is exactly when the selection names a series |
| `Highlight.MountHighlightsAggregate` | client/src/App.tsx:85-97 | when `NYC_percentile` is present, the freshly mounted chart shows exactly the `All Watersheds` series at full opacity |
| `Highlight.LineChart.constructor` | client/src/App.tsx:84-97 | mounting starts `selectedData` at `"All Watersheds"` and runs the effect once over the datasets |
| `Highlight.LineChart.ApplySelection` | client/src/App.tsx:89-94 | the in-place loop leaves the dataset array equal to the recolouring of its old contents for `selectedData` |
| `Highlight.LineChart.OnHover` | client/src/App.tsx:107-111 | hovering sets `selectedData` to the item's text and leaves the colours recoloured for it, keeping the invariant that the colours reflect the selection |
| `Highlight.LineChart.OnClick` | client/src/App.tsx:112 | clicking changes neither the selection nor the datasets |

## Left out

- `useCovidData` and the "at a glance" panel (client/src/App.tsx:159-234): an asynchronous `setTimeout` stub that returns constant values and the clock's date. It has no computation to model.
- Chart.js registration, the `<Line>` options and axes, and `chartRef.current?.update()` (client/src/App.tsx:17-26,96,101-130): a foreign rendering library. `update()` is only a redraw notification. The `?.` guard on an unmounted chart is not modelled: the model's chart exists from construction on.
- React rendering, the `console.log` calls, and all JSX layout and static content (`SquareContainer`, `Header`, `FAQItems`, `SideBar`, `MainContent`, `App`), including the commented-out percentile colour threshold.
- The import of `./assets/output_json.json`: the dataset is a parameter of the transformer functions.
- scripts/index.ts: a one-shot S3 upload through a foreign SDK and the file system. client/tailwind.config.js: static styling configuration.
- ObjectOrder.ObjectValues: keys are assumed to be array indices below 2^32 − 1. JavaScript lists larger integer keys after the array indices, in insertion order; that case is not modelled, and the dataset's keys are small period numbers.
- Series.Datasets: requires every key other than `test_date` to be in `friendlyLabels`. For an unknown key the code would build a record whose label and colours are `undefined`, and the model does not represent `undefined` values. The same holds for `Series.Chart`, which also requires distinct keys, as every JSON object has.
- Highlight.LineChart.ApplySelection: the datasets are values stored in array cells. Chart.js dataset objects can be shared with the module-level `data` constant, and that aliasing is not modelled.
- Highlight.LineChart.OnHover: models React's bail-out, where setting the state to its current value re-runs nothing. `Highlight.RecolouredIdempotent` shows that re-running the effect would give the same colours.
- Readings are `real` values with no arithmetic on them. JavaScript floating-point behaviour is therefore irrelevant and is not modelled.
