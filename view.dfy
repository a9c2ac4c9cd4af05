/**
 * What `MyChart` in components/chart.tsx renders from the state of its
 * data fetch: the fetch itself is outside the model, and only its two
 * observable results, the error flag and the data, are inputs here.
 */
module View {
  import opened Wrappers
  import opened Color
  import opened Palettes
  import opened ChartData
  import opened ChartOptions

  const FailedText: string := "Failed to load"
  const LoadingText: string := "loading..."

  /**
   * A rendered view: a text message, the line chart with its data and
   * options, or a render that throws (the palette ran out of colours, and
   * `hexToRGB` was handed `undefined`).
   */
  datatype View<V> = Message(text: string) | Chart(data: LineChartData<V>, options: Options) | Throws

  /** The `colorPalette` prop, or the default palette when it is not given. */
  function PaletteOf(colorPalette: Option<seq<string>>): (p: seq<string>)
    ensures colorPalette.Some? ==> p == colorPalette.value
    ensures colorPalette.None? ==> p == DefaultPalette && |p| == 9
  {
    colorPalette.GetOr(DefaultPalette)
  }

  /** `!data || data.length === 0`: no result yet, or an empty one. */
  predicate NoData<V>(data: Option<seq<Record<V>>>) {
    data.None? || |data.value| == 0
  }

  /**
   * The branch of `MyChart`: the error message when the fetch failed,
   * whatever the data; otherwise the loading message while there are no
   * records; otherwise the chart of the records with the options for the
   * title, which throws when the palette has fewer colours than the first
   * record has metric keys. Only the colours the chart reads, one per
   * metric key, must be hex colours.
   */
  function SelectView<V>(error: bool, data: Option<seq<Record<V>>>, title: Option<string>,
                         colorPalette: Option<seq<string>>): (v: View<V>)
    requires !error && !NoData(data) ==>
      forall k | 0 <= k < |PaletteOf(colorPalette)| && k < |DataKeys(data.value[0])| ::
        ParsableHex(PaletteOf(colorPalette)[k])
    ensures v == Message(FailedText) <==> error
    ensures v == Message(LoadingText) <==> !error && NoData(data)
    ensures v.Throws? <==> !error && !NoData(data) && |DataKeys(data.value[0])| > |PaletteOf(colorPalette)|
    ensures v.Chart? ==> !error && data.Some? && |data.value| > 0
    ensures v.Chart? ==> |v.data.labels| == |data.value| && v.options == OptionsFor(title)
    ensures v.Chart? ==> v.data == ChartDataOf(data.value, PaletteOf(colorPalette))
  {
    var palette := PaletteOf(colorPalette);
    if error then Message(FailedText)
    else if NoData(data) then Message(LoadingText)
    else if |DataKeys(data.value[0])| <= |palette| then Chart(ChartDataOf(data.value, palette), OptionsFor(title))
    else Throws
  }

  /**
   * Once the fetch has succeeded with records, the chart drawn is the
   * transformation of exactly those records with the chosen palette.
   */
  lemma ChartIsTransformedData<V>(data: seq<Record<V>>, title: Option<string>, colorPalette: Option<seq<string>>)
    requires |data| > 0 && PaletteCovers(PaletteOf(colorPalette), |DataKeys(data[0])|)
    ensures SelectView(false, Some(data), title, colorPalette)
         == Chart(ChartDataOf(data, PaletteOf(colorPalette)), OptionsFor(title))
  {
  }

  /**
   * Without a `colorPalette` prop, records with at most nine metric keys
   * are always drawn; a tenth key makes the render throw.
   */
  lemma DefaultPaletteDrawsNineMetrics<V>(data: seq<Record<V>>, title: Option<string>)
    requires |data| > 0
    ensures AllParsable(PaletteOf(None))
    ensures SelectView(false, Some(data), title, None).Chart? <==> |DataKeys(data[0])| <= 9
  {
    BuiltInPalettesAreHexColors();
  }
}
