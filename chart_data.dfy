/**
 * `generateChartData` of components/chart.tsx: turns the fetched trend
 * records into the line chart's input, one shared list of timestamp
 * labels and one dataset per metric key of the first record.
 */
module ChartData {
  import opened Wrappers
  import opened Color

  /** The key that holds a record's timestamp rather than a metric. */
  const TimestampKey: string := "blockTimestamp"

  /** The alpha given to `hexToRGB` for the fill colour (`.4`, which JavaScript prints as `0.4`). */
  const FillAlpha: Alpha := NonZero("0.4")

  /** The radius of a data point marker, the same for every dataset. */
  const PointRadius: nat := 2

  predicate DistinctKeys<V>(fields: seq<(string, V)>) {
    forall i, j | 0 <= i < j < |fields| :: fields[i].0 != fields[j].0
  }

  /**
   * A parsed JSON object: its own properties in the order `Object.keys`
   * lists them, each key at most once. The value type is left open; the
   * transformation never looks at values.
   */
  type Record<V> = fields: seq<(string, V)> | DistinctKeys(fields) witness []

  /** `Object.keys(record)`. */
  function Keys<V>(r: Record<V>): (keys: seq<string>)
    ensures |keys| == |r|
    ensures forall i | 0 <= i < |r| :: keys[i] == r[i].0
  {
    seq(|r|, i requires 0 <= i < |r| => r[i].0)
  }

  /** `record[key]`: the value of the first field with that key, `None` (JavaScript's `undefined`) if there is none. */
  function Lookup<V>(r: seq<(string, V)>, key: string): (v: Option<V>)
    ensures v.None? <==> forall i | 0 <= i < |r| :: r[i].0 != key
    ensures forall i | 0 <= i < |r| && r[i].0 == key && (forall j | 0 <= j < i :: r[j].0 != key) ::
              v == Some(r[i].1)
  {
    if r == [] then None
    else if r[0].0 == key then Some(r[0].1)
    else
      var v := Lookup(r[1..], key);
      assert forall i | 1 <= i < |r| :: r[1..][i - 1] == r[i];
      v
  }

  /** In a record, looking up one of its keys gives that key's value. */
  lemma LookupOwnKey<V>(r: Record<V>, i: nat)
    requires i < |r|
    ensures Lookup(r, r[i].0) == Some(r[i].1)
  {
  }

  /** `keys.filter(k => k !== key)`. */
  function DropKey(keys: seq<string>, key: string): (rest: seq<string>)
    ensures |rest| <= |keys|
    ensures forall k :: k in rest <==> k in keys && k != key
  {
    if keys == [] then []
    else (if keys[0] == key then [] else [keys[0]]) + DropKey(keys[1..], key)
  }

  /** Nothing is dropped when the key is absent. */
  lemma {:induction false} DropAbsentKey(keys: seq<string>, key: string)
    requires key !in keys
    ensures DropKey(keys, key) == keys
  {
    if keys != [] {
      DropAbsentKey(keys[1..], key);
    }
  }

  /** From keys that are all different, exactly the one at position `p` is dropped, and the order of the others is kept. */
  lemma {:induction false} DropPresentKey(keys: seq<string>, key: string, p: nat)
    requires p < |keys| && keys[p] == key
    requires forall i, j | 0 <= i < j < |keys| :: keys[i] != keys[j]
    ensures DropKey(keys, key) == keys[..p] + keys[p + 1..]
  {
    if p == 0 {
      assert key !in keys[1..];
      DropAbsentKey(keys[1..], key);
    } else {
      DropPresentKey(keys[1..], key, p - 1);
      assert keys[1..][..p - 1] == keys[1..p];
      assert keys[1..][p..] == keys[p + 1..];
      assert keys[..p] == [keys[0]] + keys[1..p];
    }
  }

  /** The metric keys of a record: `Object.keys(record)` without `blockTimestamp`. */
  function DataKeys<V>(r: Record<V>): (ks: seq<string>)
    ensures |ks| <= |r|
    ensures forall k :: k in ks <==> k in Keys(r) && k != TimestampKey
  {
    DropKey(Keys(r), TimestampKey)
  }

  /**
   * The metric keys are the record's keys in their order, with the
   * timestamp key taken out where it stands, or all of them when the
   * record has no timestamp key; so each is a different key, and none is
   * the timestamp key.
   */
  lemma DataKeysOfRecord<V>(r: Record<V>)
    ensures (forall i | 0 <= i < |r| :: r[i].0 != TimestampKey) ==> DataKeys(r) == Keys(r)
    ensures forall p | 0 <= p < |r| && r[p].0 == TimestampKey ::
              DataKeys(r) == Keys(r)[..p] + Keys(r)[p + 1..]
    ensures TimestampKey !in DataKeys(r)
    ensures forall i, j | 0 <= i < j < |DataKeys(r)| :: DataKeys(r)[i] != DataKeys(r)[j]
  {
    var keys := Keys(r);
    DropKeyKeepsDistinct(keys, TimestampKey);
    if forall i | 0 <= i < |r| :: r[i].0 != TimestampKey {
      DropAbsentKey(keys, TimestampKey);
    }
    forall p | 0 <= p < |r| && r[p].0 == TimestampKey
      ensures DataKeys(r) == keys[..p] + keys[p + 1..]
    {
      DropPresentKey(keys, TimestampKey, p);
    }
  }

  /** One line of the chart (a Chart.js line dataset). */
  datatype Dataset<V> = Dataset(
    name: string,  // Chart.js calls this field `label`
    fill: bool,
    data: seq<Option<V>>,
    borderColor: string,
    backgroundColor: string,
    pointRadius: nat)

  /** What the chart is drawn from: the x-axis labels and the datasets. */
  datatype LineChartData<V> = LineChartData(labels: seq<Option<V>>, datasets: seq<Dataset<V>>)

  /** The palette has a readable colour for each of the first `n` datasets. */
  predicate PaletteCovers(palette: seq<string>, n: nat) {
    n <= |palette| && forall k | 0 <= k < n :: ParsableHex(palette[k])
  }

  /** `entries.map(e => e[key])`. */
  function Column<V>(entries: seq<Record<V>>, key: string): (column: seq<Option<V>>)
    ensures |column| == |entries|
    ensures forall j | 0 <= j < |entries| :: column[j] == Lookup(entries[j], key)
  {
    seq(|entries|, j requires 0 <= j < |entries| => Lookup(entries[j], key))
  }

  /** The dataset pushed for one metric key and its palette colour. */
  function DatasetFor<V>(entries: seq<Record<V>>, key: string, color: string): (d: Dataset<V>)
    requires ParsableHex(color)
    ensures d.name == key && d.fill && d.pointRadius == 2
    ensures |d.data| == |entries| && forall j | 0 <= j < |entries| :: d.data[j] == Lookup(entries[j], key)
    ensures d.borderColor == color
    ensures d.backgroundColor == HexToRGB(color, FillAlpha)
  {
    Dataset(key, true, Column(entries, key), color, HexToRGB(color, FillAlpha), PointRadius)
  }

  /**
   * The chart data `generateChartData(entries, palette)` returns: the
   * timestamp of every record, in input order (absent timestamps as
   * `None`); then, for the k-th metric key of the first record, a dataset
   * labelled with that key, holding every record's value for it (`None`
   * where a record lacks it), outlined in `palette[k]`, filled with
   * `palette[k]` at alpha 0.4, with fill on and points of radius 2.
   */
  function ChartDataOf<V>(entries: seq<Record<V>>, palette: seq<string>): (chart: LineChartData<V>)
    requires |entries| > 0
    requires PaletteCovers(palette, |DataKeys(entries[0])|)
    ensures |chart.labels| == |entries|
    ensures forall j | 0 <= j < |entries| :: chart.labels[j] == Lookup(entries[j], TimestampKey)
    ensures |chart.datasets| == |DataKeys(entries[0])|
    ensures forall k | 0 <= k < |chart.datasets| ::
              var key, ds := DataKeys(entries[0])[k], chart.datasets[k];
              && ds.name == key
              && |ds.data| == |entries|
              && (forall j | 0 <= j < |entries| :: ds.data[j] == Lookup(entries[j], key))
              && ds.borderColor == palette[k]
              && ds.backgroundColor == HexToRGB(palette[k], FillAlpha)
              && ds.fill && ds.pointRadius == 2
  {
    var keys := DataKeys(entries[0]);
    LineChartData(
      Column(entries, TimestampKey),
      seq(|keys|, k requires 0 <= k < |keys| => DatasetFor(entries, keys[k], palette[k])))
  }

  /**
   * `generateChartData`: the labels by one map over the records, then a
   * loop over the metric keys that pushes one dataset per key, taking the
   * key's palette colour by a running counter.
   */
  method GenerateChartData<V>(entries: seq<Record<V>>, palette: seq<string>)
    returns (chart: LineChartData<V>)
    requires |entries| > 0
    requires PaletteCovers(palette, |DataKeys(entries[0])|)
    ensures chart == ChartDataOf(entries, palette)
  {
    var labels := Column(entries, TimestampKey);
    var dataKeys := DataKeys(entries[0]);
    var dataSets: seq<Dataset<V>> := [];
    var i := 0;
    while i < |dataKeys|
      invariant 0 <= i <= |dataKeys|
      invariant |dataSets| == i
      invariant forall k | 0 <= k < i :: dataSets[k] == DatasetFor(entries, dataKeys[k], palette[k])
    {
      var dataKey := dataKeys[i];
      var data := Column(entries, dataKey);
      dataSets := dataSets + [Dataset(dataKey, true, data, palette[i], HexToRGB(palette[i], FillAlpha), PointRadius)];
      i := i + 1;
    }
    chart := LineChartData(labels, dataSets);
  }

  /** Every line has one value per label, so values and timestamps pair up by position. */
  lemma DatasetsAlignWithLabels<V>(entries: seq<Record<V>>, palette: seq<string>)
    requires |entries| > 0
    requires PaletteCovers(palette, |DataKeys(entries[0])|)
    ensures forall k | 0 <= k < |ChartDataOf(entries, palette).datasets| ::
              |ChartDataOf(entries, palette).datasets[k].data| == |ChartDataOf(entries, palette).labels|
  {
  }

  /** Dropping a key keeps keys that were all different all different. */
  lemma {:induction false} DropKeyKeepsDistinct(keys: seq<string>, key: string)
    requires forall i, j | 0 <= i < j < |keys| :: keys[i] != keys[j]
    ensures forall i, j | 0 <= i < j < |DropKey(keys, key)| :: DropKey(keys, key)[i] != DropKey(keys, key)[j]
  {
    if keys != [] {
      DropKeyKeepsDistinct(keys[1..], key);
      var tail := DropKey(keys[1..], key);
      assert keys[0] !in tail by {
        assert keys[0] !in keys[1..];
      }
      if keys[0] != key {
        var rest := DropKey(keys, key);
        assert rest == [keys[0]] + tail;
        forall i, j | 0 <= i < j < |rest| ensures rest[i] != rest[j] {
          assert rest[j] == tail[j - 1];
          if i > 0 {
            assert rest[i] == tail[i - 1];
          } else {
            assert tail[j - 1] in tail;
          }
        }
      } else {
        assert DropKey(keys, key) == tail;
      }
    }
  }

  /**
   * The k-th line is outlined in the k-th palette colour and filled with
   * the same red, green and blue at alpha 0.4: the colours depend only on
   * the line's position, never on the data.
   */
  lemma FillMatchesBorder<V>(entries: seq<Record<V>>, palette: seq<string>)
    requires |entries| > 0
    requires PaletteCovers(palette, |DataKeys(entries[0])|)
    ensures var chart := ChartDataOf(entries, palette);
            forall k | 0 <= k < |chart.datasets| ::
              && chart.datasets[k].borderColor == palette[k]
              && ParsableHex(chart.datasets[k].borderColor)
              && ParseCssColor(chart.datasets[k].backgroundColor)
                 == Some(CssColor(Red(palette[k]), Green(palette[k]), Blue(palette[k]), Some("0.4")))
  {
    var chart := ChartDataOf(entries, palette);
    forall k | 0 <= k < |chart.datasets|
      ensures ParseCssColor(chart.datasets[k].backgroundColor)
              == Some(CssColor(Red(palette[k]), Green(palette[k]), Blue(palette[k]), Some("0.4")))
    {
      ParseHexToRGB(palette[k], FillAlpha);
    }
  }
}
