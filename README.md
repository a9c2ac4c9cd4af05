# chart-demo: the chart component's data logic, in Dafny

The repository draws a time-series line chart of event trends fetched from an
analytics endpoint. Everything that decides *what* is drawn lives in
`components/chart.tsx`. This project models that logic and proves properties of it:

- `hexToRGB` (module `Color`) turns a `#RRGGBB` palette colour and an alpha into a
  CSS `rgba(r, g, b, alpha)` string. A falsy alpha gives an opaque `rgb(r, g, b)`.
  Its partners are:
  - `ParseCssColor`, a reader of the CSS text it writes;
  - `HexColor`, the writer of the `#RRGGBB` strings whose channels it reads.
- The four exported palettes (module `Palettes`).
- `generateChartData` (module `ChartData`) reshapes the fetched records into the
  chart's input. It yields one label per record (its `blockTimestamp`). It yields one
  dataset per metric key of the first record. Each dataset holds that key's values,
  the palette colour for its position, and the same colour at alpha 0.4 as its fill.
  The method keeps the source's loop and counter. It is proved equal to the
  specification function `ChartDataOf`, and the lemmas state the properties of that function.
- `chartOptions` (module `ChartOptions`): fixed legend and axis settings, and the
  optional title.
- The error / loading / chart branch of `MyChart` (module `View`). Its inputs are the
  fetch's error flag and data.
- Module `Examples` holds worked instances: two records with two metrics, records
  with different keys, a falsy alpha, and the two title cases.

Modelling choices:

- A record is the sequence of its `(key, value)` fields in the order `Object.keys`
  lists them, each key once. The value type is a type parameter, because the
  transformation never inspects values.
- Reading an absent key gives `None`, which stands for JavaScript's `undefined`.
- The numeric `alpha` is `Zero` (any falsy number) or `NonZero(token)`, where
  `token` is the text JavaScript prints for the number. The code passes `.4`, which
  prints as `0.4`.
- A channel is `16 * hi + lo` of its two hex digits, upper or lower case, as
  `parseInt(…, 16)` reads them. It is printed in decimal without leading zeros.

Facts about `components/chart.tsx` that shape the model:

- The timestamp key is `blockTimestamp`.
- A record without one gets a `None` label; nothing is raised.
- `generateChartData` reads the keys of the first record, so an empty record
  list fails at `Object.keys(undefined)`. `ChartData.ChartDataOf` requires a
  non-empty list, and `MyChart` only calls it with one.
- Colours are taken from the palette by index and never wrap around. Past its
  end, `hexToRGB(undefined)` throws at `hex.slice`; the model's view is `Throws`.

## Model

| member | source | states |
|---|---|---|
| `Color.Channel` | components/chart.tsx:49-51 | a two-digit hex pair read in base 16 is a byte (at most 255) |
| `Color.Red` | components/chart.tsx:49 | the red channel is the byte the hex digits at positions 1 and 2 denote, `16 * hi + lo`, at most 255 |
| `Color.Green` | components/chart.tsx:50 | the green channel is the byte the hex digits at positions 3 and 4 denote, at most 255 |
| `Color.Blue` | components/chart.tsx:51 | the blue channel is the byte the hex digits at positions 5 and 6 denote, at most 255 |
| `Color.ChannelsAreBytes` | components/chart.tsx:49-51 | a summary of the contracts of `Red`, `Green` and `Blue`: red, green and blue are bytes, each 16 times the first digit plus the second of the pair at positions 1-2, 3-4 and 5-6 |
| `Color.HexColor` | components/chart.tsx:60-107 | writing three bytes gives a `#RRGGBB` lower-case colour that `hexToRGB` can read |
| `Color.HexColorRoundTrip` | components/chart.tsx:49-51 | reading the channels of a written colour gives back the three bytes |
| `Color.HexColorCanonical` | components/chart.tsx:49-51 | a lower-case `#RRGGBB` colour is the colour written from its own channels, so reading loses nothing |
| `Color.DecimalString` | components/chart.tsx:54-56 | the printed form of a channel is a non-empty digit string that starts with 0 only for 0 |
| `Color.DecimalRoundTrip` | components/chart.tsx:54-56 | the printed digits denote the number printed |
| `Color.ParseDecimalString` | components/chart.tsx:54-56 | a printed number followed by a non-digit reads back as that number, with the rest untouched |
| `Color.ParseWrittenChannels` | components/chart.tsx:54-56 | three printed channels joined by `, ` read back as the three channels |
| `Color.HexToRGB` | components/chart.tsx:48-58 | the colour text ends with the closing parenthesis; `ParseHexToRGB` states its content |
| `Color.HexToRGBParts` | components/chart.tsx:53-57 | the output is `rgba(` or `rgb(`, the three channels joined by `, `, then `, alpha)` for a truthy alpha or `)` for a falsy one |
| `Color.ParseHexToRGBA` | components/chart.tsx:53-54 | with a truthy alpha the output reads back as the three channels and the alpha text |
| `Color.ParseHexToOpaqueRGB` | components/chart.tsx:55-56 | with a falsy alpha the output reads back as the three channels with no alpha component |
| `Color.ParseHexToRGB` | components/chart.tsx:48-58 | the output reads back as the hex string's three channels, with the alpha text when alpha is truthy and no alpha (opaque) when it is falsy |
| `Palettes.HexColorsAreParsable` | components/chart.tsx:48-51 | a palette of `#RRGGBB` colours meets `hexToRGB`'s precondition entry by entry |
| `Palettes.DefaultPaletteIsHexColors` | components/chart.tsx:60-70 | `defaultColorPalette` has nine entries, each `#` and six lower-case hex digits, so `hexToRGB` can read each |
| `Palettes.AltPaletteIsHexColors` | components/chart.tsx:72-82 | `altColorPalette` has nine entries, each `#` and six lower-case hex digits |
| `Palettes.RetroPaletteIsHexColors` | components/chart.tsx:84-94 | `retroColorPalette` has nine entries, each `#` and six lower-case hex digits |
| `Palettes.PastelPaletteIsHexColors` | components/chart.tsx:96-107 | `pastelColorPalette` has ten entries, each `#` and six lower-case hex digits |
| `Palettes.BuiltInPalettesAreHexColors` | components/chart.tsx:60-107 | a summary of the four per-palette lemmas: every entry of the default, alt, retro and pastel palettes is `#` and six hex digits; sizes 9, 9, 9 and 10 |
| `Palettes.BuiltInPaletteRepeats` | components/chart.tsx:60-107 | default, alt and retro hold distinct colours; pastel's tenth colour repeats its ninth |
| `ChartData.Keys` | components/chart.tsx:114 | `Object.keys` lists every field's key, in field order |
| `ChartData.Lookup` | components/chart.tsx:121 | a lookup is `None` exactly when no field has the key, and otherwise the value of the first field that has it |
| `ChartData.LookupOwnKey` | components/chart.tsx:121 | in a record, looking up one of its keys gives that field's value |
| `ChartData.DropKey` | components/chart.tsx:114-115 | the filter keeps exactly the keys other than the dropped one, and never lengthens the list |
| `ChartData.DropAbsentKey` | components/chart.tsx:114-115 | filtering out a key that is not there changes nothing |
| `ChartData.DropPresentKey` | components/chart.tsx:114-115 | filtering out a key that appears once removes just that position and keeps the order of the rest |
| `ChartData.DropKeyKeepsDistinct` | components/chart.tsx:114-115 | filtering keeps distinct keys distinct |
| `ChartData.DataKeys` | components/chart.tsx:114-115 | a key is a metric key exactly when it is a key of the record other than `blockTimestamp`; there are no more metric keys than entries |
| `ChartData.DataKeysOfRecord` | components/chart.tsx:114-115 | the metric keys are the first record's keys in order, minus `blockTimestamp` where it stands (all keys if it is absent); they are distinct and none is `blockTimestamp` |
| `ChartData.Column` | components/chart.tsx:121 | one entry per record, in record order: that record's value for the key, or `None` where it lacks it |
| `ChartData.DatasetFor` | components/chart.tsx:121-129 | the dataset pushed for a key is labelled with the key, holds one value per record (that record's value for the key, or `None`), is outlined in the given colour and filled with `hexToRGB(color, 0.4)`, has fill on, and uses point radius 2 |
| `ChartData.ChartDataOf` | components/chart.tsx:109-137 | labels are every record's `blockTimestamp` in input order; dataset k is labelled with metric key k and holds every record's value for it (`None` where absent), with border `palette[k]`, fill `hexToRGB(palette[k], 0.4)`, `fill` true and point radius 2 |
| `ChartData.GenerateChartData` | components/chart.tsx:109-137 | the loop that pushes one dataset per metric key returns exactly `ChartDataOf(entries, palette)`, so identical inputs give identical output |
| `ChartData.DatasetsAlignWithLabels` | components/chart.tsx:113-121 | every dataset has exactly one value per label |
| `ChartData.FillMatchesBorder` | components/chart.tsx:122-129 | dataset k's border is `palette[k]` and its fill reads back as the same three channels at alpha `0.4`, whatever the data |
| `ChartOptions.Truthy` | components/chart.tsx:147 | `Boolean(title)`: a title is truthy when it is given and not the empty string |
| `ChartOptions.OptionsFor` | components/chart.tsx:139-157 | always responsive, legend at the top, a `timeseries` x axis; the title is shown exactly when it is present and non-empty; its text is the title or `""` |
| `ChartOptions.TitleShownIffText` | components/chart.tsx:146-149 | the title block is shown exactly when its text is non-empty |
| `ChartOptions.OptionsDependOnlyOnTitleText` | components/chart.tsx:139-157 | two titles give the same options exactly when they give the same text; an absent title and `""` are alike |
| `View.PaletteOf` | components/chart.tsx:163 | the palette is the `colorPalette` prop when given, and otherwise the nine-colour default palette |
| `View.NoData` | components/chart.tsx:175 | the loading test: no data yet, or an empty array |
| `View.SelectView` | components/chart.tsx:174-178 | the error message exactly when the fetch failed; else the loading message exactly when data is absent or empty; else a throw exactly when the palette is shorter than the metric keys; a chart is `ChartDataOf` of the records with the chosen palette, with one label per record and the options for the title |
| `View.ChartIsTransformedData` | components/chart.tsx:176-178 | once records have arrived, the chart drawn is `ChartDataOf` of exactly those records with the chosen palette, and `OptionsFor` of the title |
| `View.DefaultPaletteDrawsNineMetrics` | components/chart.tsx:159-178 | with the default palette, a chart is drawn exactly when there are at most nine metric keys |
| `Examples.TwoRecordsColumns` | components/chart.tsx:113-121 | the labels and value columns of a two-record example |
| `Examples.BlackFill` | components/chart.tsx:48-58 | `#000000` at alpha 0.4 is `rgba(0, 0, 0, 0.4)` |
| `Examples.WhiteFill` | components/chart.tsx:48-58 | `#ffffff` at alpha 0.4 is `rgba(255, 255, 255, 0.4)` |
| `Examples.TwoRecordsChart` | components/chart.tsx:113-136 | the two-record example has its labels column and one dataset for `a` in black and one for `b` in white |
| `Examples.TwoRecordsTwoMetrics` | components/chart.tsx:109-137 | two records with metrics `a` and `b` and palette black/white give the expected labels, values and colours |
| `Examples.RaggedRecordsColumns` | components/chart.tsx:113-121 | the key list and columns of records with different keys |
| `Examples.KeysComeFromFirstRecord` | components/chart.tsx:114-121 | a key missing from a later record gives `None`; a key only a later record has gives no dataset |
| `Examples.ZeroAlphaIsOpaque` | components/chart.tsx:53-57 | a falsy alpha gives a colour with no alpha component |
| `Examples.TitleExamples` | components/chart.tsx:146-149 | no title hides the title block; `"Foo"` shows it with text `"Foo"` |
| `Examples.MessagesReadNoColours` | components/chart.tsx:174-176 | the error and loading messages are shown whatever the palette holds; with records that have two metric keys, a one-colour palette makes the render throw |

## Left out

- Fetching (`useSWR`, `fetch`, the `res.ok` check, the URL built from `baseApiUrl` and `endpoint` with its `/v1/trends/events` default): network I/O and caching by outside libraries. The view takes the fetch's error flag and data as inputs.
- Chart.js registration and the React/JSX rendering: outside UI libraries. The view returns what would be rendered (a message text, or the chart data and options).
- `getConfig()`, `publicRuntimeConfig` and next.config.js: build and runtime configuration read from the environment.
- The unused `filterDataPoints` prop: it has no effect in the code.
- Floating point: the alpha is an opaque printed token. Metric values are of an open type, because the code only copies them.
- Malformed colours: colours without hex digits at positions 1 to 6 are excluded; `Color.HexToRGB` requires them. On such input `parseInt` skips leading whitespace, accepts a sign and reads whatever leading hex digits each slice has (so `#1g0000` gives red 1 and `#-10000` red -1), giving `NaN` only for a slice with none. `View.SelectView` requires that only of the colours the chart reads: the palette entries below the first record's metric-key count, and only once neither message is shown.
- `Object.keys` puts integer-like keys first, in numeric order. A record here is already in `Object.keys` order.
- A lookup of a key that a later record lacks but `Object.prototype` has (for instance `toString`) gives an inherited member in JavaScript. The model gives `None`.
- A fetch result that is not an array (a JSON object or number): the model's data is a sequence of records.
- Color.HexToRGB: its own contract states only the closing parenthesis, because the content of the string is stated by the lemma `Color.ParseHexToRGB`.
