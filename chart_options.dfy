/** `chartOptions` of components/chart.tsx: the fixed display settings of the chart, plus its optional title. */
module ChartOptions {
  import opened Wrappers

  datatype LegendOptions = LegendOptions(position: string)
  datatype TitleOptions = TitleOptions(display: bool, text: string)
  datatype Plugins = Plugins(legend: LegendOptions, title: TitleOptions)
  /** An axis; `kind` is Chart.js's `type` field. */
  datatype ScaleOptions = ScaleOptions(kind: string)
  datatype Scales = Scales(x: ScaleOptions)
  datatype Options = Options(responsive: bool, plugins: Plugins, scales: Scales)

  /** `Boolean(title)` for an optional string: present and not empty. */
  predicate Truthy(title: Option<string>) {
    title.Some? && title.value != ""
  }

  /**
   * `chartOptions(title)`: always responsive, legend at the top, a
   * time-series x axis; the title is shown exactly when it is present and
   * not empty, and its text is the title, or empty when there is none.
   */
  function OptionsFor(title: Option<string>): (o: Options)
    ensures o.responsive
    ensures o.plugins.legend.position == "top"
    ensures o.scales.x.kind == "timeseries"
    ensures o.plugins.title.display <==> title.Some? && |title.value| > 0
    ensures o.plugins.title.text == title.GetOr("")
  {
    Options(
      true,
      Plugins(LegendOptions("top"),
              TitleOptions(Truthy(title), if Truthy(title) then title.value else "")),
      Scales(ScaleOptions("timeseries")))
  }

  /** The title block is shown exactly when it has text to show. */
  lemma TitleShownIffText(title: Option<string>)
    ensures OptionsFor(title).plugins.title.display <==> OptionsFor(title).plugins.title.text != ""
  {
  }

  /**
   * The title is the only input: two titles give the same options exactly
   * when they give the same title text, so an absent title and an empty
   * one are indistinguishable.
   */
  lemma OptionsDependOnlyOnTitleText(t1: Option<string>, t2: Option<string>)
    ensures OptionsFor(t1) == OptionsFor(t2) <==> t1.GetOr("") == t2.GetOr("")
    ensures OptionsFor(None) == OptionsFor(Some(""))
  {
  }
}
