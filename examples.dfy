/** Worked instances of the transformation, the colour utility and the options. */
module Examples {
  import opened Wrappers
  import opened Color
  import opened ChartData
  import opened ChartOptions
  import View

  /** A JSON value as the endpoint sends it: a timestamp string or a metric number. */
  datatype Json = Text(s: string) | Number(n: int)

  /** Two records with metrics `a` and `b`. */
  const TwoRecords: seq<Record<Json>> := [
    [("blockTimestamp", Text("2024-01-01")), ("a", Number(1)), ("b", Number(2))],
    [("blockTimestamp", Text("2024-01-02")), ("a", Number(3)), ("b", Number(4))]]

  const BlackAndWhite: seq<string> := ["#000000", "#ffffff"]

  lemma TwoRecordsColumns()
    ensures DataKeys(TwoRecords[0]) == ["a", "b"]
    ensures Column(TwoRecords, TimestampKey) == [Some(Text("2024-01-01")), Some(Text("2024-01-02"))]
    ensures Column(TwoRecords, "a") == [Some(Number(1)), Some(Number(3))]
    ensures Column(TwoRecords, "b") == [Some(Number(2)), Some(Number(4))]
  {
    assert Keys(TwoRecords[0]) == ["blockTimestamp", "a", "b"];
  }

  lemma BlackFill()
    ensures HexToRGB("#000000", FillAlpha) == "rgba(0, 0, 0, 0.4)"
  {
  }

  lemma WhiteChannels()
    ensures ChannelText("#ffffff") == "255, 255, 255"
  {
    assert Red("#ffffff") == 255 && Green("#ffffff") == 255 && Blue("#ffffff") == 255;
    assert DecimalString(255) == "255";
  }

  lemma WhiteFill()
    ensures HexToRGB("#ffffff", FillAlpha) == "rgba(255, 255, 255, 0.4)"
  {
    WhiteChannels();
    HexToRGBParts("#ffffff", FillAlpha);
  }

  lemma TwoRecordsDatasets()
    ensures DatasetFor(TwoRecords, "a", "#000000")
         == Dataset("a", true, [Some(Number(1)), Some(Number(3))], "#000000", "rgba(0, 0, 0, 0.4)", 2)
    ensures DatasetFor(TwoRecords, "b", "#ffffff")
         == Dataset("b", true, [Some(Number(2)), Some(Number(4))], "#ffffff", "rgba(255, 255, 255, 0.4)", 2)
  {
    TwoRecordsColumns();
    BlackFill();
    WhiteFill();
  }

  lemma BlackAndWhiteCoversTwoKeys()
    ensures PaletteCovers(BlackAndWhite, 2)
  {
    assert ParsableHex(BlackAndWhite[0]) && ParsableHex(BlackAndWhite[1]);
  }

  lemma TwoRecordsChart()
    ensures PaletteCovers(BlackAndWhite, |DataKeys(TwoRecords[0])|)
    ensures ChartDataOf(TwoRecords, BlackAndWhite) == LineChartData(
              Column(TwoRecords, TimestampKey),
              [DatasetFor(TwoRecords, "a", "#000000"), DatasetFor(TwoRecords, "b", "#ffffff")])
  {
    TwoRecordsColumns();
    BlackAndWhiteCoversTwoKeys();
    var keys := DataKeys(TwoRecords[0]);
    var datasets := seq(|keys|, k requires 0 <= k < |keys| => DatasetFor(TwoRecords, keys[k], BlackAndWhite[k]));
    assert datasets == [DatasetFor(TwoRecords, "a", "#000000"), DatasetFor(TwoRecords, "b", "#ffffff")];
  }

  /** The records drawn in black and white: labels by date, one line per metric. */
  lemma TwoRecordsTwoMetrics()
    ensures PaletteCovers(BlackAndWhite, |DataKeys(TwoRecords[0])|)
    ensures ChartDataOf(TwoRecords, BlackAndWhite) == LineChartData(
              [Some(Text("2024-01-01")), Some(Text("2024-01-02"))],
              [Dataset("a", true, [Some(Number(1)), Some(Number(3))], "#000000", "rgba(0, 0, 0, 0.4)", 2),
               Dataset("b", true, [Some(Number(2)), Some(Number(4))], "#ffffff", "rgba(255, 255, 255, 0.4)", 2)])
  {
    TwoRecordsColumns();
    TwoRecordsChart();
    TwoRecordsDatasets();
  }

  /** Records that do not share their keys: `x` only in the first, `y` only in the second. */
  const RaggedRecords: seq<Record<Json>> := [
    [("x", Number(5)), ("blockTimestamp", Text("t1"))],
    [("blockTimestamp", Text("t2")), ("y", Number(6))]]

  lemma RaggedRecordsColumns()
    ensures DataKeys(RaggedRecords[0]) == ["x"]
    ensures Column(RaggedRecords, TimestampKey) == [Some(Text("t1")), Some(Text("t2"))]
    ensures Column(RaggedRecords, "x") == [Some(Number(5)), None]
  {
    assert Keys(RaggedRecords[0]) == ["x", "blockTimestamp"];
  }

  /**
   * Keys come from the first record only: a key the second record lacks
   * gives `None` at that position, and a key only the second record has
   * gives no dataset.
   */
  lemma KeysComeFromFirstRecord()
    ensures PaletteCovers(["#123456"], |DataKeys(RaggedRecords[0])|)
    ensures var chart := ChartDataOf(RaggedRecords, ["#123456"]);
            && |chart.datasets| == 1
            && chart.datasets[0].name == "x"
            && chart.datasets[0].data == [Some(Number(5)), None]
            && chart.labels == [Some(Text("t1")), Some(Text("t2"))]
  {
    RaggedRecordsColumns();
  }

  /** A falsy alpha gives an opaque colour, without an alpha component; a truthy one keeps its text. */
  lemma ZeroAlphaIsOpaque()
    ensures ParseCssColor(HexToRGB("#2099ba", Zero)) == Some(CssColor(32, 153, 186, None))
    ensures ParseCssColor(HexToRGB("#2099ba", NonZero("0.4"))) == Some(CssColor(32, 153, 186, Some("0.4")))
  {
    assert Red("#2099ba") == 32 && Green("#2099ba") == 153 && Blue("#2099ba") == 186;
    ParseHexToRGB("#2099ba", Zero);
    ParseHexToRGB("#2099ba", NonZero("0.4"));
  }

  /** No title hides the title block; a title shows it with its text. */
  lemma TitleExamples()
    ensures !OptionsFor(None).plugins.title.display && OptionsFor(None).plugins.title.text == ""
    ensures OptionsFor(Some("Foo")).plugins.title.display && OptionsFor(Some("Foo")).plugins.title.text == "Foo"
  {
  }

  /**
   * The messages read no colour: a palette of CSS names still gives them,
   * and a palette one colour short throws rather than drawing.
   */
  lemma MessagesReadNoColours()
    ensures View.SelectView(true, Some(TwoRecords), None, Some(["red"])) == View.Message(View.FailedText)
    ensures View.SelectView<Json>(false, Some([]), None, Some(["red"])) == View.Message(View.LoadingText)
    ensures View.SelectView(false, Some(TwoRecords), None, Some(["#000000"])).Throws?
  {
    TwoRecordsColumns();
  }
}
