/** What `generate_svg` (src/chart.rs:30-166) promises about the canvas and
    each layout. */
module ChartFacts {
  import W = Wrappers
  import opened Util
  import opened Config
  import opened Abnormal
  import opened ChartData
  import opened ChartPlan
  import opened Chart

  /** The canvas is `svg_width` (else twice the sample count) wide and one
      `svg_height_per_channel` per shown channel high, each cut to 32 bits. */
  lemma CanvasSize(numChannels: nat, bg: Rgb, inputs: seq<ChannelChartData>, outputs: seq<ChannelChartData>,
                   config: SvgChartConfig, sampleRate: real, numSamples: nat, startSample: nat, f: Foreign)
    ensures var p := CanvasPlan(numChannels, bg, inputs, outputs, config, sampleRate, numSamples, startSample, f);
      && p.width < U32_MODULUS && p.height < U32_MODULUS
      && (config.svgWidth.Some? && config.svgWidth.value < U32_MODULUS ==> p.width == config.svgWidth.value)
      && (config.svgWidth.None? && numSamples * 2 < U32_MODULUS ==> p.width == numSamples * 2)
      && (config.svgHeightPerChannel * numChannels < U32_MODULUS ==> p.height == config.svgHeightPerChannel * numChannels)
  {
    CanvasPlanRegions(numChannels, bg, inputs, outputs, config, sampleRate, numSamples, startSample, f);
  }

  /** The title gets the contrasting colour, and only when there is a title;
      on a black background that is white. */
  lemma TitleColor(numChannels: nat, bg: Rgb, inputs: seq<ChannelChartData>, outputs: seq<ChannelChartData>,
                   config: SvgChartConfig, sampleRate: real, numSamples: nat, startSample: nat, f: Foreign)
    ensures var p := CanvasPlan(numChannels, bg, inputs, outputs, config, sampleRate, numSamples, startSample, f);
      && p.background == bg
      && (p.titleColor.Some? <==> config.chartTitle.Some?)
      && (p.titleColor.Some? ==> p.titleColor.value == WHITE || p.titleColor.value == DARK_GRAY)
      && (bg == Rgb(0, 0, 0) && p.titleColor.Some? ==> p.titleColor.value == WHITE)
  {
    ContrastExtremes(f.pow24);
  }

  /** "#000000", the default background, is black. */
  lemma DefaultBackgroundIsBlack()
    ensures ParseHexColor(Ascii("#000000")) == W.Ok(Rgb(0, 0, 0))
  {
    var s: string := "#000000";
    assert IsAscii(s) && Ascii(s) == FormatHexColor(Rgb(0, 0, 0)) by {
      assert HexDigitChar(0) == 48;
    }
    ParsesTo(s, Rgb(0, 0, 0));
  }

  /** Without colour overrides every channel record is built. */
  lemma PaletteChannelCharts(inputData: seq<seq<real>>, outputData: seq<seq<real>>,
                             abnormalities: seq<seq<(nat, AbnormalSample)>>, config: SvgChartConfig)
    requires config.inputColors.None? && config.outputColors.None?
    ensures ChannelCharts(inputData, outputData, abnormalities, config).Ok?
  {
    var shown := if config.withInputs then inputData else [];
    forall k | 0 <= k < |shown| ensures FromInputData(shown[k], k, config).Ok? {
      PaletteColors(shown[k], [], k, config);
    }
    var no := Min(|outputData|, |abnormalities|);
    forall k | 0 <= k < no ensures FromOutputData(outputData[k], abnormalities[k], k, config).Ok? {
      PaletteColors(outputData[k], abnormalities[k], k, config);
    }
    assert InputCharts(shown, config, |shown|).Ok?;
    assert OutputCharts(outputData, abnormalities, config, no).Ok?;
  }

  /** With the palettes (no colour overrides) and a background that parses,
      nothing panics: a plan is always produced. */
  lemma PaletteNeverPanics(inputData: seq<seq<real>>, outputData: seq<seq<real>>,
                           abnormalities: seq<seq<(nat, AbnormalSample)>>, config: SvgChartConfig,
                           sampleRate: real, numSamples: nat, startSample: nat, f: Foreign)
    requires config.inputColors.None? && config.outputColors.None?
    requires ParseHexColor(config.backgroundColor).Ok?
    ensures GenerateSvg(inputData, outputData, abnormalities, config, sampleRate, numSamples, startSample, f).Ok?
  {
    PaletteChannelCharts(inputData, outputData, abnormalities, config);
  }

  /** `SeparateChannels`: one region per channel record, the inputs in index
      order, then the outputs in index order, each a single-channel chart. */
  lemma SeparateChannelsLayout(numChannels: nat, bg: Rgb, inputs: seq<ChannelChartData>, outputs: seq<ChannelChartData>,
                               config: SvgChartConfig, sampleRate: real, numSamples: nat, startSample: nat, f: Foreign)
    requires config.chartLayout == SeparateChannels
    ensures var p := CanvasPlan(numChannels, bg, inputs, outputs, config, sampleRate, numSamples, startSample, f);
      && p.areas == numChannels
      && |p.regions| == |inputs| + |outputs|
      && (forall k :: 0 <= k < |inputs| ==> p.regions[k] == OneChannelChart(inputs[k], config, startSample, sampleRate, f))
      && (forall k :: 0 <= k < |outputs| ==>
            p.regions[|inputs| + k] == OneChannelChart(outputs[k], config, startSample, sampleRate, f))
  {
  }

  /** Under `SeparateChannels` every shown channel has its slice and region,
      except that an output without an abnormality list is dropped by `zip`,
      leaving its slice empty. */
  lemma SeparateChannelsSlices(inputData: seq<seq<real>>, outputData: seq<seq<real>>,
                               abnormalities: seq<seq<(nat, AbnormalSample)>>, config: SvgChartConfig,
                               sampleRate: real, numSamples: nat, startSample: nat, f: Foreign)
    requires config.chartLayout == SeparateChannels
    requires GenerateSvg(inputData, outputData, abnormalities, config, sampleRate, numSamples, startSample, f).Ok?
    ensures var p := GenerateSvg(inputData, outputData, abnormalities, config, sampleRate, numSamples, startSample, f).value;
      p.Canvas? ==>
        && p.areas == NumChannels(|inputData|, |outputData|, config.withInputs)
        && |p.regions| == (if config.withInputs then |inputData| else 0) + Min(|outputData|, |abnormalities|)
        && (|p.regions| == p.areas <==> |abnormalities| >= |outputData|)
  {
    var p := GenerateSvg(inputData, outputData, abnormalities, config, sampleRate, numSamples, startSample, f).value;
    if p.Canvas? {
      var cs := ChannelCharts(inputData, outputData, abnormalities, config).value;
      var bg := ParseHexColor(config.backgroundColor).value;
      SeparateChannelsLayout(NumChannels(|inputData|, |outputData|, config.withInputs), bg, cs.0, cs.1,
                             config, sampleRate, numSamples, startSample, f);
    }
  }

  /** The output axis colour of combined regions is #4285F4. */
  lemma OutputAxisColorValue()
    ensures OutputAxisColor() == Rgb(0x42, 0x85, 0xF4)
  {
    OutputHeadParses();
  }

  /** The first output palette entry, #4285F4, parses to that colour. */
  lemma OutputHeadParses()
    ensures ParseHexColor(Ascii(OUTPUT_CHANNEL_COLORS[0])) == W.Ok(Rgb(0x42, 0x85, 0xF4))
  {
    var s: string := "#4285F4";
    var c := Rgb(0x42, 0x85, 0xF4);
    assert OUTPUT_CHANNEL_COLORS[0] == s;
    assert IsAscii(s) && Ascii(s) == FormatHexColor(c) by {
      var bytes: Utf8 := [35, 52, 50, 56, 53, 70, 52];
      assert Ascii(s) == bytes;
      assert HexDigitChar(4) == 52 && HexDigitChar(2) == 50 && HexDigitChar(8) == 56;
      assert HexDigitChar(5) == 53 && HexDigitChar(15) == 70;
      assert FormatHexColor(c) == bytes;
    }
    ParsesTo(s, c);
  }

  /** The input axis colour of combined regions is #B39DDB. */
  lemma InputAxisColorValue()
    ensures InputAxisColor() == Rgb(0xB3, 0x9D, 0xDB)
  {
    InputHeadParses();
  }

  /** The first input palette entry, #B39DDB, parses to that colour. */
  lemma InputHeadParses()
    ensures ParseHexColor(Ascii(INPUT_CHANNEL_COLORS[0])) == W.Ok(Rgb(0xB3, 0x9D, 0xDB))
  {
    var s: string := "#B39DDB";
    var c := Rgb(0xB3, 0x9D, 0xDB);
    assert INPUT_CHANNEL_COLORS[0] == s;
    assert IsAscii(s) && Ascii(s) == FormatHexColor(c) by {
      var bytes: Utf8 := [35, 66, 51, 57, 68, 68, 66];
      assert Ascii(s) == bytes;
      assert HexDigitChar(11) == 66 && HexDigitChar(3) == 51 && HexDigitChar(9) == 57;
      assert HexDigitChar(13) == 68;
      assert FormatHexColor(c) == bytes;
    }
    ParsesTo(s, c);
  }

  /** Only outputs: whether inputs count as solid changes nothing. */
  lemma {:induction false} OutputsOnlyPasses(charts: seq<ChannelChartData>, n: nat)
    requires n <= |charts| && forall k :: 0 <= k < |charts| ==> !charts[k].isInput
    ensures Pass(charts, n, true, true) == Pass(charts, n, false, true)
    ensures Pass(charts, n, true, false) == []
  {
    if n > 0 {
      OutputsOnlyPasses(charts, n - 1);
    }
  }

  /** Without inputs, `CombinedPerChannelType` plans exactly what `Combined` plans. */
  lemma CombinedPerChannelTypeWithoutInputs(numChannels: nat, bg: Rgb, outputs: seq<ChannelChartData>,
                                            config: SvgChartConfig, sampleRate: real, numSamples: nat,
                                            startSample: nat, f: Foreign)
    requires !config.withInputs
    requires forall k :: 0 <= k < |outputs| ==> !outputs[k].isInput
    ensures CanvasPlan(numChannels, bg, [], outputs, config.(chartLayout := CombinedPerChannelType), sampleRate, numSamples, startSample, f)
         == CanvasPlan(numChannels, bg, [], outputs, config.(chartLayout := Combined), sampleRate, numSamples, startSample, f)
  {
    OutputsOnlyPasses(outputs, |outputs|);
    assert DrawOrder(outputs, true) == DrawOrder(outputs, false);
    assert outputs + [] == outputs;
  }

  /** `ss` draws the charts of `first` solid, in order, then those of `second` dashed, in order. */
  ghost predicate SolidThenDashed(ss: seq<Series>, first: seq<ChannelChartData>, second: seq<ChannelChartData>, start: nat, sw: nat) {
    && |ss| == |first| + |second|
    && (forall k :: 0 <= k < |first| ==> ss[k] == SeriesFor(first[k], Solid, start, sw))
    && (forall k :: 0 <= k < |second| ==> ss[|first| + k] == SeriesFor(second[k], Dashed, start, sw))
  }

  /** `ss` draws every chart of `charts` solid, in order. */
  ghost predicate AllSolidInOrder(ss: seq<Series>, charts: seq<ChannelChartData>, start: nat, sw: nat) {
    && |ss| == |charts|
    && (forall k :: 0 <= k < |charts| ==> ss[k] == SeriesFor(charts[k], Solid, start, sw))
  }

  /** `Combined`: one region drawing every output solid, in index order, then
      every input dashed, in index order. */
  lemma CombinedLayout(numChannels: nat, bg: Rgb, inputs: seq<ChannelChartData>, outputs: seq<ChannelChartData>,
                       config: SvgChartConfig, sampleRate: real, numSamples: nat, startSample: nat, f: Foreign)
    requires config.chartLayout == Combined
    requires forall k :: 0 <= k < |inputs| ==> inputs[k].isInput
    requires forall k :: 0 <= k < |outputs| ==> !outputs[k].isInput
    ensures var p := CanvasPlan(numChannels, bg, inputs, outputs, config, sampleRate, numSamples, startSample, f);
      && p.areas == 1 && |p.regions| == 1
      && SolidThenDashed(p.regions[0].series, outputs, inputs, startSample, StrokeWidth(config.lineWidth))
  {
    var charts := outputs + inputs;
    var sw := StrokeWidth(config.lineWidth);
    CanvasPlanRegions(numChannels, bg, inputs, outputs, config, sampleRate, numSamples, startSample, f);
    var r := MultiChannelChart(charts, config, false, startSample, OutputAxisColor(), sampleRate, bg, f);
    assert Regions(inputs, outputs, config, startSample, sampleRate, bg, f) == [r];
    MultiChannelChartSeriesIs(charts, config, false, startSample, OutputAxisColor(), sampleRate, bg, f);
    ConcatOutputsThenInputs(outputs, inputs);
    CombinedSeries(outputs, inputs, startSample, sw);
  }

  /** Outputs then inputs, drawn non-solid: outputs solid first, inputs dashed after. */
  lemma CombinedSeries(outputs: seq<ChannelChartData>, inputs: seq<ChannelChartData>, start: nat, sw: nat)
    requires OutputsThenInputs(outputs + inputs, |outputs|)
    ensures SolidThenDashed(SeriesOf(outputs + inputs, DrawOrder(outputs + inputs, false), start, sw), outputs, inputs, start, sw)
  {
    var charts := outputs + inputs;
    SplitSeries(charts, |outputs|, start, sw);
    SplitAtConcat(outputs, inputs, SeriesOf(charts, DrawOrder(charts, false), start, sw), start, sw);
  }

  /** Series split at the end of `first` in `first + second` are `first`'s then `second`'s. */
  lemma SplitAtConcat(first: seq<ChannelChartData>, second: seq<ChannelChartData>, ss: seq<Series>, start: nat, sw: nat)
    requires |ss| == |first + second|
    requires forall k :: 0 <= k < |first| ==> ss[k] == SeriesFor((first + second)[k], Solid, start, sw)
    requires forall k :: |first| <= k < |ss| ==> ss[k] == SeriesFor((first + second)[k], Dashed, start, sw)
    ensures SolidThenDashed(ss, first, second, start, sw)
  {
    var charts := first + second;
    forall k | 0 <= k < |first| ensures ss[k] == SeriesFor(first[k], Solid, start, sw) {
      assert charts[k] == first[k];
    }
    forall k | 0 <= k < |second| ensures ss[|first| + k] == SeriesFor(second[k], Dashed, start, sw) {
      assert charts[|first| + k] == second[k];
    }
  }

  /** Outputs followed by inputs switch to inputs exactly at the number of outputs. */
  lemma ConcatOutputsThenInputs(outputs: seq<ChannelChartData>, inputs: seq<ChannelChartData>)
    requires forall k :: 0 <= k < |inputs| ==> inputs[k].isInput
    requires forall k :: 0 <= k < |outputs| ==> !outputs[k].isInput
    ensures OutputsThenInputs(outputs + inputs, |outputs|)
  {
    var charts := outputs + inputs;
    forall k | 0 <= k < |charts| ensures charts[k].isInput <==> k >= |outputs| {
      if k < |outputs| {
        assert charts[k] == outputs[k];
      } else {
        assert charts[k] == inputs[k - |outputs|];
      }
    }
  }

  /** The series of a chart list holding outputs and then inputs, drawn non-solid. */
  lemma SplitSeries(charts: seq<ChannelChartData>, split: nat, start: nat, sw: nat)
    requires OutputsThenInputs(charts, split)
    ensures var ss := SeriesOf(charts, DrawOrder(charts, false), start, sw);
      && |ss| == |charts|
      && (forall k :: 0 <= k < split ==> ss[k] == SeriesFor(charts[k], Solid, start, sw))
      && (forall k :: split <= k < |charts| ==> ss[k] == SeriesFor(charts[k], Dashed, start, sw))
  {
    CombinedDrawOrder(charts, split);
  }

  /** `CombinedPerChannelType` with inputs: two regions, the inputs then the
      outputs, every series solid and in index order, on the first colour of
      the matching palette. */
  lemma CombinedPerChannelTypeLayout(numChannels: nat, bg: Rgb, inputs: seq<ChannelChartData>, outputs: seq<ChannelChartData>,
                                     config: SvgChartConfig, sampleRate: real, numSamples: nat, startSample: nat, f: Foreign)
    requires config.chartLayout == CombinedPerChannelType && config.withInputs
    ensures var p := CanvasPlan(numChannels, bg, inputs, outputs, config, sampleRate, numSamples, startSample, f);
      && p.areas == 2 && |p.regions| == 2
      && p.regions[0].axisColor == InputAxisColor() && p.regions[1].axisColor == OutputAxisColor()
      && AllSolidInOrder(p.regions[0].series, inputs, startSample, StrokeWidth(config.lineWidth))
      && AllSolidInOrder(p.regions[1].series, outputs, startSample, StrokeWidth(config.lineWidth))
  {
    var sw := StrokeWidth(config.lineWidth);
    CanvasPlanRegions(numChannels, bg, inputs, outputs, config, sampleRate, numSamples, startSample, f);
    var ri := MultiChannelChart(inputs, config, true, startSample, InputAxisColor(), sampleRate, bg, f);
    var ro := MultiChannelChart(outputs, config, true, startSample, OutputAxisColor(), sampleRate, bg, f);
    assert Regions(inputs, outputs, config, startSample, sampleRate, bg, f) == [ri, ro];
    MultiChannelChartAxisColor(inputs, config, true, startSample, InputAxisColor(), sampleRate, bg, f);
    MultiChannelChartAxisColor(outputs, config, true, startSample, OutputAxisColor(), sampleRate, bg, f);
    MultiChannelChartSeriesIs(inputs, config, true, startSample, InputAxisColor(), sampleRate, bg, f);
    MultiChannelChartSeriesIs(outputs, config, true, startSample, OutputAxisColor(), sampleRate, bg, f);
    SolidSeries(inputs, startSample, sw);
    SolidSeries(outputs, startSample, sw);
  }

  /** Drawn solid, every chart appears solid, in index order. */
  lemma SolidSeries(charts: seq<ChannelChartData>, start: nat, sw: nat)
    ensures AllSolidInOrder(SeriesOf(charts, DrawOrder(charts, true), start, sw), charts, start, sw)
  {
    AllSolid(charts, |charts|);
    var ss := SeriesOf(charts, DrawOrder(charts, true), start, sw);
    forall k | 0 <= k < |charts| ensures ss[k] == SeriesFor(charts[k], Solid, start, sw) {
      assert DrawOrder(charts, true)[k] == (k, Solid);
    }
  }
}
