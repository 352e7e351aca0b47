/** What one chart region of src/chart.rs draws: its axes, y range, series
    and markers. The drawing itself (plotters) is not modelled; a `Region`
    records the choices the code makes before handing them to the library. */
module ChartPlan {
  import W = Wrappers
  import opened Util
  import opened Config
  import opened Abnormal
  import opened ChartData
  import Snapshot

  /** `f32::EPSILON`, 2^-23. */
  const EPSILON: real := 1.0 / 8388608.0

  /** The y range of a chart. The folds over no data at all give
      (+inf, -inf) in the source; that case is `EmptySpan`. */
  datatype YSpan = Span(lo: real, hi: real) | EmptySpan

  function MinOf(s: seq<real>): (m: real)
    requires s != []
    ensures m in s && forall i :: 0 <= i < |s| ==> m <= s[i]
  {
    if |s| == 1 then s[0]
    else var rest := MinOf(s[1..]); if s[0] <= rest then s[0] else rest
  }

  function MaxOf(s: seq<real>): (m: real)
    requires s != []
    ensures m in s && forall i :: 0 <= i < |s| ==> s[i] <= m
  {
    if |s| == 1 then s[0]
    else var rest := MaxOf(s[1..]); if s[0] >= rest then s[0] else rest
  }

  /** The padded y range: 10% of the data range (at least `EPSILON`) on each side. */
  function YSpanOf(data: seq<real>): (sp: YSpan)
    ensures sp.EmptySpan? <==> data == []
  {
    if data == [] then EmptySpan
    else
      var lo, hi := MinOf(data), MaxOf(data);
      var range := if hi - lo > EPSILON then hi - lo else EPSILON;
      Span(lo - range * 0.1, hi + range * 0.1)
  }

  /** Every sample lies strictly inside a non-empty range, even for constant data. */
  lemma YSpanBounds(data: seq<real>)
    requires data != []
    ensures var sp := YSpanOf(data);
      && sp.lo < sp.hi
      && forall i :: 0 <= i < |data| ==> sp.lo < data[i] < sp.hi
  {
  }

  /** Constant data gets a range of `EPSILON / 5` centred on the constant. */
  lemma YSpanConstant(data: seq<real>, c: real)
    requires data != [] && forall i :: 0 <= i < |data| ==> data[i] == c
    ensures YSpanOf(data) == Span(c - EPSILON / 10.0, c + EPSILON / 10.0)
  {
    assert MinOf(data) == c && MaxOf(data) == c;
  }

  /** The bounds handed to the marker code; for `EmptySpan` the source passes
      (+inf, -inf), which places markers exactly as (0, 0) does. */
  function MarkerBounds(sp: YSpan): (real, real) {
    if sp.Span? then (sp.lo, sp.hi) else (0.0, 0.0)
  }

  datatype SeriesStyle = Solid | Dashed

  /** One drawn line: its points, colour, solid or dashed, legend entry, width. */
  datatype Series = Series(points: seq<(nat, real)>, color: Rgb, style: SeriesStyle, legend: W.Option<string>, strokeWidth: nat)

  /** Sample `i` is plotted at `x = i + start`. */
  function Points(data: seq<real>, start: nat): (ps: seq<(nat, real)>)
    ensures |ps| == |data|
    ensures forall i :: 0 <= i < |data| ==> ps[i] == (i + start, data[i])
  {
    seq(|data|, i requires 0 <= i < |data| => (i + start, data[i]))
  }

  const U32_MAX: nat := 0xFFFF_FFFF

  /** `line_width as u32`: truncation toward zero, saturating at both ends. */
  function StrokeWidth(w: real): (r: nat)
    ensures r <= U32_MAX
    ensures w <= 0.0 ==> r == 0
    ensures 0.0 <= w < (U32_MAX + 1) as real ==> r as real <= w < r as real + 1.0
  {
    if w <= 0.0 then 0 else if w >= (U32_MAX + 1) as real then U32_MAX else w.Floor
  }

  /** Does `chart` belong to a pass that takes inputs / outputs? */
  predicate Takes(chart: ChannelChartData, inputs: bool, outputs: bool) {
    if chart.isInput then inputs else outputs
  }

  /** Indices below `n` of the charts one pass draws, in increasing order. */
  function Pass(charts: seq<ChannelChartData>, n: nat, inputs: bool, outputs: bool): (ks: seq<nat>)
    requires n <= |charts|
    ensures forall j :: 0 <= j < |ks| ==> ks[j] < n
  {
    if n == 0 then []
    else
      var rest := Pass(charts, n - 1, inputs, outputs);
      if Takes(charts[n - 1], inputs, outputs) then rest + [n - 1] else rest
  }

  /** A pass draws exactly the charts it takes, each once, in index order. */
  lemma {:induction false} PassMeaning(charts: seq<ChannelChartData>, n: nat, inputs: bool, outputs: bool)
    requires n <= |charts|
    ensures var ks := Pass(charts, n, inputs, outputs);
      && (forall k :: 0 <= k < n ==> (k in ks <==> Takes(charts[k], inputs, outputs)))
      && (forall p, q :: 0 <= p < q < |ks| ==> ks[p] < ks[q])
  {
    if n > 0 {
      PassMeaning(charts, n - 1, inputs, outputs);
    }
  }

  function Tag(ks: seq<nat>, style: SeriesStyle): (t: seq<(nat, SeriesStyle)>)
    ensures |t| == |ks| && forall j :: 0 <= j < |ks| ==> t[j] == (ks[j], style)
  {
    seq(|ks|, j requires 0 <= j < |ks| => (ks[j], style))
  }

  /** The order `multi_channel_chart` draws series in: first every output
      (and every input when `solidInput`) solid, then, unless `solidInput`,
      every input dashed. */
  function DrawOrder(charts: seq<ChannelChartData>, solidInput: bool): (order: seq<(nat, SeriesStyle)>)
    ensures forall j :: 0 <= j < |order| ==> order[j].0 < |charts|
  {
    Tag(Pass(charts, |charts|, solidInput, true), Solid)
    + (if solidInput then [] else Tag(Pass(charts, |charts|, true, false), Dashed))
  }

  /** Chart `k` is drawn at some position of `order`. */
  predicate Drawn(order: seq<(nat, SeriesStyle)>, k: nat) {
    exists j :: 0 <= j < |order| && order[j].0 == k
  }

  /** The draw order is the solid pass followed by the dashed pass. */
  lemma DrawOrderParts(charts: seq<ChannelChartData>, solidInput: bool)
    ensures var order := DrawOrder(charts, solidInput);
      var solid := Pass(charts, |charts|, solidInput, true);
      var dashed := Pass(charts, |charts|, true, false);
      && |order| == |solid| + (if solidInput then 0 else |dashed|)
      && (forall j :: 0 <= j < |solid| ==> order[j] == (solid[j], Solid))
      && (forall j :: |solid| <= j < |order| ==> order[j] == (dashed[j - |solid|], Dashed))
  {
  }

  lemma DrawOrderCovers(charts: seq<ChannelChartData>, solidInput: bool)
    ensures forall k :: 0 <= k < |charts| ==> Drawn(DrawOrder(charts, solidInput), k)
  {
    var n := |charts|;
    var solid := Pass(charts, n, solidInput, true);
    var dashed := Pass(charts, n, true, false);
    PassMeaning(charts, n, solidInput, true);
    PassMeaning(charts, n, true, false);
    DrawOrderParts(charts, solidInput);
    var order := DrawOrder(charts, solidInput);
    forall k | 0 <= k < n ensures Drawn(order, k) {
      if Takes(charts[k], solidInput, true) {
        var j :| 0 <= j < |solid| && solid[j] == k;
        assert order[j].0 == k;
      } else {
        var j :| 0 <= j < |dashed| && dashed[j] == k;
        assert order[|solid| + j].0 == k;
      }
    }
  }

  lemma DrawOrderStyles(charts: seq<ChannelChartData>, solidInput: bool)
    ensures var order := DrawOrder(charts, solidInput);
      && (forall j :: 0 <= j < |order| ==>
            (order[j].1 == Dashed <==> !solidInput && charts[order[j].0].isInput))
      && (forall p, q :: 0 <= p < |order| && 0 <= q < |order| && order[p].0 == order[q].0 ==> p == q)
  {
    var n := |charts|;
    var solid := Pass(charts, n, solidInput, true);
    var dashed := Pass(charts, n, true, false);
    PassMeaning(charts, n, solidInput, true);
    PassMeaning(charts, n, true, false);
    DrawOrderParts(charts, solidInput);
    var order := DrawOrder(charts, solidInput);
    var ns := |solid|;
    forall j | 0 <= j < |order| ensures order[j].1 == Dashed <==> !solidInput && charts[order[j].0].isInput {
      if j < ns {
        assert solid[j] in solid;
      } else {
        assert dashed[j - ns] in dashed;
      }
    }
  }

  lemma DrawOrderSequence(charts: seq<ChannelChartData>, solidInput: bool)
    ensures var order := DrawOrder(charts, solidInput);
      && (forall p, q :: 0 <= p < q < |order| && order[q].1 == Solid ==> order[p].1 == Solid)
      && (forall p, q :: 0 <= p < q < |order| && order[p].1 == order[q].1 ==> order[p].0 < order[q].0)
  {
    PassMeaning(charts, |charts|, solidInput, true);
    PassMeaning(charts, |charts|, true, false);
    DrawOrderParts(charts, solidInput);
  }

  /** Every chart is drawn exactly once, dashed exactly when it is an input and
      inputs are not solid; all solid series come before all dashed ones, and
      each style's series are in chart order. */
  lemma DrawOrderMeaning(charts: seq<ChannelChartData>, solidInput: bool)
    ensures var order := DrawOrder(charts, solidInput);
      && (forall k :: 0 <= k < |charts| ==> Drawn(order, k))
      && (forall p, q :: 0 <= p < |order| && 0 <= q < |order| && order[p].0 == order[q].0 ==> p == q)
      && (forall j :: 0 <= j < |order| ==>
            (order[j].1 == Dashed <==> !solidInput && charts[order[j].0].isInput))
      && (forall p, q :: 0 <= p < q < |order| && order[q].1 == Solid ==> order[p].1 == Solid)
      && (forall p, q :: 0 <= p < q < |order| && order[p].1 == order[q].1 ==> order[p].0 < order[q].0)
  {
    DrawOrderCovers(charts, solidInput);
    DrawOrderStyles(charts, solidInput);
    DrawOrderSequence(charts, solidInput);
  }

  /** All charts, solid, in chart order: how `CombinedPerChannelType` draws. */
  lemma {:induction false} AllSolid(charts: seq<ChannelChartData>, n: nat)
    requires n <= |charts|
    ensures Pass(charts, n, true, true) == seq(n, k requires 0 <= k < n => k)
  {
    if n > 0 {
      AllSolid(charts, n - 1);
    }
  }

  /** Charts with `isInput` set exactly from index `split` on. */
  predicate OutputsThenInputs(charts: seq<ChannelChartData>, split: nat) {
    split <= |charts| && forall k :: 0 <= k < |charts| ==> (charts[k].isInput <==> k >= split)
  }

  lemma {:induction false} PassOfSplit(charts: seq<ChannelChartData>, split: nat, n: nat)
    requires OutputsThenInputs(charts, split) && n <= |charts|
    ensures Pass(charts, n, false, true) == seq(if n < split then n else split, k requires 0 <= k => k)
    ensures Pass(charts, n, true, false) == seq(if n < split then 0 else n - split, k requires 0 <= k => split + k)
  {
    if n > 0 {
      PassOfSplit(charts, split, n - 1);
    }
  }

  /** How `Combined` draws outputs-then-inputs: the outputs solid in index
      order, then the inputs dashed in index order. */
  lemma CombinedDrawOrder(charts: seq<ChannelChartData>, split: nat)
    requires OutputsThenInputs(charts, split)
    ensures var order := DrawOrder(charts, false);
      && |order| == |charts|
      && (forall k :: 0 <= k < split ==> order[k] == (k, Solid))
      && (forall k :: split <= k < |charts| ==> order[k] == (k, Dashed))
  {
    var n := |charts|;
    var solid := Pass(charts, n, false, true);
    var dashed := Pass(charts, n, true, false);
    var order := DrawOrder(charts, false);
    PassOfSplit(charts, split, n);
    assert |solid| == split && |dashed| == n - split;
    assert order == Tag(solid, Solid) + Tag(dashed, Dashed);
    forall k | 0 <= k < split ensures order[k] == (k, Solid) {
      assert solid[k] == k;
    }
    forall k | split <= k < n ensures order[k] == (k, Dashed) {
      assert dashed[k - split] == k;
    }
  }

  function SeriesFor(chart: ChannelChartData, style: SeriesStyle, start: nat, strokeWidth: nat): Series {
    Series(Points(chart.data, start), chart.color, style, chart.title, strokeWidth)
  }

  /** The series of `charts` drawn in `order`. */
  function SeriesOf(charts: seq<ChannelChartData>, order: seq<(nat, SeriesStyle)>, start: nat, strokeWidth: nat): (ss: seq<Series>)
    requires forall j :: 0 <= j < |order| ==> order[j].0 < |charts|
    ensures |ss| == |order|
  {
    seq(|order|, j requires 0 <= j < |order| => SeriesFor(charts[order[j].0], order[j].1, start, strokeWidth))
  }

  /** Some chart has a legend label. */
  predicate HasTitle(charts: seq<ChannelChartData>) {
    exists k :: 0 <= k < |charts| && charts[k].title.Some?
  }

  /** Wider of two values when the cap is set: `max_labels_x_axis.map(|mx| x.min(mx)).unwrap_or(x)`. */
  function XLabelCount(x: nat, cap: W.Option<nat>): (r: nat)
    ensures r <= x && (cap.Some? ==> r <= cap.value)
    ensures r == x || (cap.Some? && r == cap.value)
  {
    if cap.Some? && cap.value < x then cap.value else x
  }

  /** The uninterpreted helpers from src/util.rs that no modelled file defines,
      and the float power inside the contrasting colour. */
  datatype Foreign = Foreign(numXLabels: (nat, real) -> nat, pow24: real -> real)

  /** Everything the code decides about one region. `labelAreas` are the
      (x, y) label area sizes, `xLabels` the x label count when labels are
      shown, `legend` the contrasting colour when a legend box is drawn. */
  datatype Region = Region(
    xDomain: (nat, nat),
    ySpan: YSpan,
    labelAreas: (nat, nat),
    axisColor: Rgb,
    showGrid: bool,
    xLabels: W.Option<nat>,
    xDesc: W.Option<string>,
    timeLabels: bool,
    series: seq<Series>,
    legend: W.Option<Rgb>,
    markers: W.Option<seq<Marker>>)

  function DataOf(charts: seq<ChannelChartData>): (d: seq<seq<real>>)
    ensures |d| == |charts| && forall k :: 0 <= k < |charts| ==> d[k] == charts[k].data
  {
    seq(|charts|, k requires 0 <= k < |charts| => charts[k].data)
  }

  /** All samples of all charts, chart after chart. */
  function AllSamples(charts: seq<ChannelChartData>): seq<real> {
    if charts == [] then [] else charts[0].data + AllSamples(charts[1..])
  }

  function AbnormalitiesOf(charts: seq<ChannelChartData>): (a: seq<seq<(nat, AbnormalSample)>>)
    ensures |a| == |charts| && forall k :: 0 <= k < |charts| ==> a[k] == charts[k].abnormalities
  {
    seq(|charts|, k requires 0 <= k < |charts| => charts[k].abnormalities)
  }

  /** `multi_channel_chart`. */
  function MultiChannelChart(charts: seq<ChannelChartData>, config: SvgChartConfig, solidInput: bool, start: nat,
                             axisColor: Rgb, sampleRate: real, background: Rgb, f: Foreign): Region
  {
    var n := Snapshot.MaxLen(DataOf(charts));
    var span := YSpanOf(AllSamples(charts));
    var bounds := MarkerBounds(span);
    var order := DrawOrder(charts, solidInput);
    Region(
      (start, start + n), span, (35, 50), axisColor, config.showGrid,
      if config.showLabels then W.Some(XLabelCount(f.numXLabels(n, sampleRate), config.maxLabelsXAxis)) else W.None,
      W.None, config.formatXAxisLabelsAsTime,
      SeriesOf(charts, order, start, StrokeWidth(config.lineWidth)),
      if HasTitle(charts) then W.Some(ContrastingColor(background, f.pow24)) else W.None,
      Markers(AbnormalitiesOf(charts), bounds.0, bounds.1))
  }

  /** The series of a multi-channel region are those of its draw order. */
  lemma MultiChannelChartSeriesIs(charts: seq<ChannelChartData>, config: SvgChartConfig, solidInput: bool, start: nat,
                                  axisColor: Rgb, sampleRate: real, background: Rgb, f: Foreign)
    ensures MultiChannelChart(charts, config, solidInput, start, axisColor, sampleRate, background, f).series
         == SeriesOf(charts, DrawOrder(charts, solidInput), start, StrokeWidth(config.lineWidth))
  {
  }

  /** A multi-channel region keeps the axis colour it is given. */
  lemma MultiChannelChartAxisColor(charts: seq<ChannelChartData>, config: SvgChartConfig, solidInput: bool, start: nat,
                                   axisColor: Rgb, sampleRate: real, background: Rgb, f: Foreign)
    ensures MultiChannelChart(charts, config, solidInput, start, axisColor, sampleRate, background, f).axisColor == axisColor
  {
  }

  /** `one_channel_chart`. */
  function OneChannelChart(chart: ChannelChartData, config: SvgChartConfig, start: nat, sampleRate: real, f: Foreign): Region {
    var n := |chart.data|;
    var span := YSpanOf(chart.data);
    var bounds := MarkerBounds(span);
    var labelled := chart.title.Some?;
    Region(
      (start, start + n), span, if labelled then (35, 50) else (0, 0), chart.color, config.showGrid,
      if labelled then W.Some(XLabelCount(f.numXLabels(n, sampleRate), config.maxLabelsXAxis)) else W.None,
      chart.title, config.formatXAxisLabelsAsTime,
      [Series(Points(chart.data, start), chart.color, Solid, W.None, StrokeWidth(config.lineWidth))],
      W.None,
      Markers([chart.abnormalities], bounds.0, bounds.1))
  }

  /** A multi-channel region spans the longest channel from `start` and
      keeps every sample of every chart strictly inside its y range. */
  lemma MultiChannelChartAxes(charts: seq<ChannelChartData>, config: SvgChartConfig, solidInput: bool, start: nat,
                              axisColor: Rgb, sampleRate: real, background: Rgb, f: Foreign)
    ensures var r := MultiChannelChart(charts, config, solidInput, start, axisColor, sampleRate, background, f);
      && r.xDomain.0 == start
      && (forall k :: 0 <= k < |charts| ==> start + |charts[k].data| <= r.xDomain.1)
      && (charts != [] ==> exists k :: 0 <= k < |charts| && r.xDomain.1 == start + |charts[k].data|)
      && (r.ySpan.Span? ==> forall k, i :: 0 <= k < |charts| && 0 <= i < |charts[k].data| ==>
            r.ySpan.lo < charts[k].data[i] < r.ySpan.hi)
      && r.axisColor == axisColor
      && (r.xLabels.Some? <==> config.showLabels)
  {
    MultiChannelChartDomain(charts, config, solidInput, start, axisColor, sampleRate, background, f);
    MultiChannelChartFields(charts, config, solidInput, start, axisColor, sampleRate, background, f);
    ChartsExtent(charts);
  }

  /** The x axis of a multi-channel region runs to the end of the longest channel. */
  lemma MultiChannelChartDomain(charts: seq<ChannelChartData>, config: SvgChartConfig, solidInput: bool, start: nat,
                                axisColor: Rgb, sampleRate: real, background: Rgb, f: Foreign)
    ensures MultiChannelChart(charts, config, solidInput, start, axisColor, sampleRate, background, f).xDomain
         == (start, start + Snapshot.MaxLen(DataOf(charts)))
  {
  }

  /** The y axis of a multi-channel region spans all samples; labels follow `show_labels`. */
  lemma MultiChannelChartFields(charts: seq<ChannelChartData>, config: SvgChartConfig, solidInput: bool, start: nat,
                                axisColor: Rgb, sampleRate: real, background: Rgb, f: Foreign)
    ensures var r := MultiChannelChart(charts, config, solidInput, start, axisColor, sampleRate, background, f);
      && r.ySpan == YSpanOf(AllSamples(charts))
      && r.axisColor == axisColor
      && (r.xLabels.Some? <==> config.showLabels)
  {
  }

  /** The longest channel bounds every channel and is one of them; every
      sample lies strictly inside the span of all samples. */
  lemma ChartsExtent(charts: seq<ChannelChartData>)
    ensures forall k :: 0 <= k < |charts| ==> |charts[k].data| <= Snapshot.MaxLen(DataOf(charts))
    ensures charts != [] ==> exists k :: 0 <= k < |charts| && Snapshot.MaxLen(DataOf(charts)) == |charts[k].data|
    ensures var sp := YSpanOf(AllSamples(charts));
      sp.Span? ==> forall k, i :: 0 <= k < |charts| && 0 <= i < |charts[k].data| ==> sp.lo < charts[k].data[i] < sp.hi
  {
    var all := AllSamples(charts);
    var d := DataOf(charts);
    var n := Snapshot.MaxLen(d);
    assert forall k :: 0 <= k < |charts| ==> |d[k]| <= n;
    if all != [] {
      YSpanBounds(all);
      forall k, i | 0 <= k < |charts| && 0 <= i < |charts[k].data|
        ensures YSpanOf(all).lo < charts[k].data[i] < YSpanOf(all).hi
      {
        AllSamplesHas(charts, k, i);
      }
    }
  }

  /** A multi-channel region draws every chart once, dashed only when inputs
      are not solid, and has a legend, in a contrasting colour, exactly when
      some chart is labelled. */
  lemma MultiChannelChartSeries(charts: seq<ChannelChartData>, config: SvgChartConfig, solidInput: bool, start: nat,
                                axisColor: Rgb, sampleRate: real, background: Rgb, f: Foreign)
    ensures var r := MultiChannelChart(charts, config, solidInput, start, axisColor, sampleRate, background, f);
      && |r.series| == |charts|
      && (forall j :: 0 <= j < |r.series| ==> (r.series[j].style == Dashed ==> !solidInput))
      && (r.legend.Some? <==> HasTitle(charts))
      && (r.legend.Some? ==> r.legend.value == WHITE || r.legend.value == DARK_GRAY)
  {
    DrawOrderMeaning(charts, solidInput);
    PassCounts(charts, |charts|);
  }

  /** Together the two passes of a non-solid chart draw every chart; a pass
      taking everything draws every chart. */
  lemma {:induction false} PassCounts(charts: seq<ChannelChartData>, n: nat)
    requires n <= |charts|
    ensures |Pass(charts, n, false, true)| + |Pass(charts, n, true, false)| == n
    ensures |Pass(charts, n, true, true)| == n
  {
    if n > 0 {
      PassCounts(charts, n - 1);
    }
  }

  /** Sample `i` of chart `k` is among all samples. */
  lemma {:induction false} AllSamplesHas(charts: seq<ChannelChartData>, k: nat, i: nat)
    requires k < |charts| && i < |charts[k].data|
    ensures charts[k].data[i] in AllSamples(charts)
  {
    if k > 0 {
      AllSamplesHas(charts[1..], k - 1, i);
    }
  }

  /** A single-channel region spans its channel from `start`, keeps every
      sample inside its y range, draws one solid unlabelled series whose
      sample `i` sits at `i + start`, never draws a legend, and only a
      labelled channel gets label areas, x labels and an axis description. */
  lemma OneChannelChartMeaning(chart: ChannelChartData, config: SvgChartConfig, start: nat, sampleRate: real, f: Foreign)
    ensures var r := OneChannelChart(chart, config, start, sampleRate, f);
      && r.xDomain == (start, start + |chart.data|)
      && (chart.data != [] ==> r.ySpan.Span? && forall i :: 0 <= i < |chart.data| ==> r.ySpan.lo < chart.data[i] < r.ySpan.hi)
      && |r.series| == 1 && r.series[0].style == Solid && r.series[0].legend.None?
      && (forall i :: 0 <= i < |chart.data| ==> r.series[0].points[i] == (i + start, chart.data[i]))
      && r.legend.None? && r.axisColor == chart.color
      && (r.labelAreas == (0, 0) <==> chart.title.None?)
      && (r.xLabels.Some? <==> chart.title.Some?)
      && r.xDesc == chart.title
  {
    if chart.data != [] {
      YSpanBounds(chart.data);
    }
  }

  /** The series loops of `multi_channel_chart`: the solid pass, then (when
      inputs are not solid and there is one) the dashed pass, raising the
      legend flag for every labelled series. */
  method DrawSeries(charts: seq<ChannelChartData>, solidInput: bool, start: nat, strokeWidth: nat)
    returns (series: seq<Series>, hasLegend: bool)
    ensures series == SeriesOf(charts, DrawOrder(charts, solidInput), start, strokeWidth)
    ensures hasLegend <==> HasTitle(charts)
  {
    var n := |charts|;
    series, hasLegend := DrawPass(charts, solidInput, true, Solid, start, strokeWidth);
    if !solidInput && exists k :: 0 <= k < n && charts[k].isInput {
      var dashed, titled := DrawPass(charts, true, false, Dashed, start, strokeWidth);
      SeriesOfAppend(charts, Tag(Pass(charts, n, false, true), Solid), Tag(Pass(charts, n, true, false), Dashed), start, strokeWidth);
      series := series + dashed;
      hasLegend := hasLegend || titled;
    } else if !solidInput {
      NoInputsNoDashed(charts, n);
      assert DrawOrder(charts, solidInput) == Tag(Pass(charts, n, false, true), Solid) + [];
    }
  }

  /** One series loop: every chart the pass takes, in chart order, in `style`;
      `titled` is raised when one of them has a label. */
  method DrawPass(charts: seq<ChannelChartData>, inputs: bool, outputs: bool, style: SeriesStyle, start: nat, strokeWidth: nat)
    returns (series: seq<Series>, titled: bool)
    ensures series == SeriesOf(charts, Tag(Pass(charts, |charts|, inputs, outputs), style), start, strokeWidth)
    ensures titled <==> exists j :: 0 <= j < |charts| && Takes(charts[j], inputs, outputs) && charts[j].title.Some?
  {
    series := [];
    titled := false;
    for k := 0 to |charts|
      invariant series == SeriesOf(charts, Tag(Pass(charts, k, inputs, outputs), style), start, strokeWidth)
      invariant titled <==> exists j :: 0 <= j < k && Takes(charts[j], inputs, outputs) && charts[j].title.Some?
    {
      if Takes(charts[k], inputs, outputs) {
        SeriesOfSnoc(charts, Pass(charts, k, inputs, outputs), k, style, start, strokeWidth);
        series := series + [SeriesFor(charts[k], style, start, strokeWidth)];
        if charts[k].title.Some? {
          titled := true;
        }
      }
    }
  }

  /** Drawing one more chart appends its series. */
  lemma SeriesOfSnoc(charts: seq<ChannelChartData>, ks: seq<nat>, k: nat, style: SeriesStyle, start: nat, strokeWidth: nat)
    requires k < |charts| && forall j :: 0 <= j < |ks| ==> ks[j] < |charts|
    ensures SeriesOf(charts, Tag(ks + [k], style), start, strokeWidth)
         == SeriesOf(charts, Tag(ks, style), start, strokeWidth) + [SeriesFor(charts[k], style, start, strokeWidth)]
  {
    assert Tag(ks + [k], style) == Tag(ks, style) + [(k, style)];
  }

  /** Series of two orders drawn one after the other. */
  lemma SeriesOfAppend(charts: seq<ChannelChartData>, a: seq<(nat, SeriesStyle)>, b: seq<(nat, SeriesStyle)>, start: nat, strokeWidth: nat)
    requires forall j :: 0 <= j < |a| ==> a[j].0 < |charts|
    requires forall j :: 0 <= j < |b| ==> b[j].0 < |charts|
    ensures SeriesOf(charts, a + b, start, strokeWidth) == SeriesOf(charts, a, start, strokeWidth) + SeriesOf(charts, b, start, strokeWidth)
  {
  }

  lemma {:induction false} NoInputsNoDashed(charts: seq<ChannelChartData>, n: nat)
    requires n <= |charts| && forall k :: 0 <= k < n ==> !charts[k].isInput
    ensures Pass(charts, n, true, false) == []
  {
    if n > 0 {
      NoInputsNoDashed(charts, n - 1);
    }
  }
}
