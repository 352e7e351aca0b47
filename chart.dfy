/** `generate_svg` (src/chart.rs:30-166): the placeholder, the canvas, and
    how the channels are laid out over regions for each `Layout`. */
module Chart {
  import W = Wrappers
  import opened Util
  import opened Config
  import opened Abnormal
  import opened ChartData
  import opened ChartPlan

  const PLACEHOLDER: string :=
    "<svg xmlns=\"http://www.w3.org/2000/svg\" viewBox=\"0 0 100 100\"><text>Empty</text></svg>"

  const U32_MODULUS: nat := 0x1_0000_0000

  /** `x as u32` on a `usize`: keeps the low 32 bits. */
  function AsU32(x: nat): (r: nat)
    ensures r < U32_MODULUS
    ensures x < U32_MODULUS ==> r == x
    ensures (r - x) % U32_MODULUS == 0
  {
    x % U32_MODULUS
  }

  /** The plan of the picture: the fixed placeholder, or a canvas split into
      `areas` equal horizontal slices whose first `|regions|` hold the regions. */
  datatype Plan =
    | Placeholder
    | Canvas(width: nat, height: nat, background: Rgb, titleColor: W.Option<Rgb>,
             areas: nat, regions: seq<Region>, preserveAspectRatio: W.Option<string>)

  /** Channels shown: the outputs, and the inputs too with `with_inputs`. */
  function NumChannels(numInputs: nat, numOutputs: nat, withInputs: bool): (n: nat)
    ensures n >= numOutputs && (n == numOutputs <==> !withInputs || numInputs == 0)
  {
    numOutputs + if withInputs then numInputs else 0
  }

  /** The input records, in channel order; the first colour that panics is the error. */
  function InputCharts(inputData: seq<seq<real>>, config: SvgChartConfig, n: nat): (r: W.Result<seq<ChannelChartData>, ColorError>)
    requires n <= |inputData|
    ensures r.Ok? <==> forall k :: 0 <= k < n ==> FromInputData(inputData[k], k, config).Ok?
    ensures r.Ok? ==> (|r.value| == n &&
      forall k :: 0 <= k < n ==> r.value[k] == FromInputData(inputData[k], k, config).value)
  {
    if n == 0 then W.Ok([])
    else match InputCharts(inputData, config, n - 1)
      case Err(e) => W.Err(e)
      case Ok(cs) =>
        match FromInputData(inputData[n - 1], n - 1, config)
        case Err(e) => W.Err(e)
        case Ok(c) => W.Ok(cs + [c])
  }

  function Min(a: nat, b: nat): nat {
    if a <= b then a else b
  }

  /** The output records, pairing each output with its abnormalities; `zip`
      stops at the shorter of the two lists. */
  function OutputCharts(outputData: seq<seq<real>>, abnormalities: seq<seq<(nat, AbnormalSample)>>,
                        config: SvgChartConfig, n: nat): (r: W.Result<seq<ChannelChartData>, ColorError>)
    requires n <= |outputData| && n <= |abnormalities|
    ensures r.Ok? <==> forall k :: 0 <= k < n ==> FromOutputData(outputData[k], abnormalities[k], k, config).Ok?
    ensures r.Ok? ==> (|r.value| == n &&
      forall k :: 0 <= k < n ==> r.value[k] == FromOutputData(outputData[k], abnormalities[k], k, config).value)
  {
    if n == 0 then W.Ok([])
    else match OutputCharts(outputData, abnormalities, config, n - 1)
      case Err(e) => W.Err(e)
      case Ok(cs) =>
        match FromOutputData(outputData[n - 1], abnormalities[n - 1], n - 1, config)
        case Err(e) => W.Err(e)
        case Ok(c) => W.Ok(cs + [c])
  }

  /** The axis colours of combined regions: the first entry of each palette. */
  function OutputAxisColor(): Rgb {
    PaletteHeadsParse();
    ParseHexColor(Ascii(OUTPUT_CHANNEL_COLORS[0])).value
  }

  function InputAxisColor(): Rgb {
    PaletteHeadsParse();
    ParseHexColor(Ascii(INPUT_CHANNEL_COLORS[0])).value
  }

  /** The regions of each layout. */
  function Regions(inputs: seq<ChannelChartData>, outputs: seq<ChannelChartData>, config: SvgChartConfig,
                   start: nat, sampleRate: real, background: Rgb, f: Foreign): seq<Region>
  {
    match config.chartLayout
    case SeparateChannels =>
      var all := inputs + outputs;
      seq(|all|, k requires 0 <= k < |all| => OneChannelChart(all[k], config, start, sampleRate, f))
    case CombinedPerChannelType =>
      if config.withInputs then
        [MultiChannelChart(inputs, config, true, start, InputAxisColor(), sampleRate, background, f),
         MultiChannelChart(outputs, config, true, start, OutputAxisColor(), sampleRate, background, f)]
      else
        [MultiChannelChart(outputs, config, true, start, OutputAxisColor(), sampleRate, background, f)]
    case Combined =>
      [MultiChannelChart(outputs + inputs, config, false, start, OutputAxisColor(), sampleRate, background, f)]
  }

  /** How many equal slices the canvas is split into. */
  function Areas(layout: Layout, withInputs: bool, numChannels: nat): nat {
    match layout
    case SeparateChannels => numChannels
    case CombinedPerChannelType => if withInputs then 2 else 1
    case Combined => 1
  }

  /** The channel records: the shown inputs, then the outputs paired with
      their abnormalities; the first colour that panics is the error. */
  function ChannelCharts(inputData: seq<seq<real>>, outputData: seq<seq<real>>,
                         abnormalities: seq<seq<(nat, AbnormalSample)>>, config: SvgChartConfig)
    : (r: W.Result<(seq<ChannelChartData>, seq<ChannelChartData>), ColorError>)
    ensures r.Ok? ==>
      var ni := if config.withInputs then |inputData| else 0;
      var no := Min(|outputData|, |abnormalities|);
      && |r.value.0| == ni && |r.value.1| == no
      && (forall k :: 0 <= k < ni ==> FromInputData(inputData[k], k, config) == W.Ok(r.value.0[k]))
      && (forall k :: 0 <= k < no ==> FromOutputData(outputData[k], abnormalities[k], k, config) == W.Ok(r.value.1[k]))
  {
    var shown := if config.withInputs then inputData else [];
    match InputCharts(shown, config, |shown|)
    case Err(e) => W.Err(e)
    case Ok(inputs) =>
      match OutputCharts(outputData, abnormalities, config, Min(|outputData|, |abnormalities|))
      case Err(e) => W.Err(e)
      case Ok(outputs) => W.Ok((inputs, outputs))
  }

  /** The canvas drawn once the background and every channel colour parsed. */
  function CanvasPlan(numChannels: nat, bg: Rgb, inputs: seq<ChannelChartData>, outputs: seq<ChannelChartData>,
                      config: SvgChartConfig, sampleRate: real, numSamples: nat, startSample: nat, f: Foreign): Plan
  {
    Canvas(
      AsU32(config.svgWidth.GetOr(numSamples * 2)),
      AsU32(config.svgHeightPerChannel * numChannels),
      bg,
      if config.chartTitle.Some? then W.Some(ContrastingColor(bg, f.pow24)) else W.None,
      Areas(config.chartLayout, config.withInputs, numChannels),
      Regions(inputs, outputs, config, startSample, sampleRate, bg, f),
      config.preserveAspectRatio)
  }

  /** The canvas's slices and regions are those of its layout. */
  lemma CanvasPlanRegions(numChannels: nat, bg: Rgb, inputs: seq<ChannelChartData>, outputs: seq<ChannelChartData>,
                          config: SvgChartConfig, sampleRate: real, numSamples: nat, startSample: nat, f: Foreign)
    ensures var p := CanvasPlan(numChannels, bg, inputs, outputs, config, sampleRate, numSamples, startSample, f);
      && p.Canvas?
      && p.areas == Areas(config.chartLayout, config.withInputs, numChannels)
      && p.regions == Regions(inputs, outputs, config, startSample, sampleRate, bg, f)
      && p.width == AsU32(config.svgWidth.GetOr(numSamples * 2))
      && p.height == AsU32(config.svgHeightPerChannel * numChannels)
  {
  }

  /** `generate_svg`. `Err` where parsing a colour panics. */
  function GenerateSvg(inputData: seq<seq<real>>, outputData: seq<seq<real>>,
                       abnormalities: seq<seq<(nat, AbnormalSample)>>, config: SvgChartConfig,
                       sampleRate: real, numSamples: nat, startSample: nat, f: Foreign)
    : (r: W.Result<Plan, ColorError>)
    ensures r == W.Ok(Placeholder) <==> numSamples == 0 || NumChannels(|inputData|, |outputData|, config.withInputs) == 0
    ensures r.Err? <==>
      && numSamples > 0 && NumChannels(|inputData|, |outputData|, config.withInputs) > 0
      && (ParseHexColor(config.backgroundColor).Err? || ChannelCharts(inputData, outputData, abnormalities, config).Err?)
    ensures r.Ok? && r.value.Canvas? ==>
      && ParseHexColor(config.backgroundColor).Ok?
      && ChannelCharts(inputData, outputData, abnormalities, config).Ok?
      && r.value == CanvasPlan(NumChannels(|inputData|, |outputData|, config.withInputs),
                               ParseHexColor(config.backgroundColor).value,
                               ChannelCharts(inputData, outputData, abnormalities, config).value.0,
                               ChannelCharts(inputData, outputData, abnormalities, config).value.1,
                               config, sampleRate, numSamples, startSample, f)
  {
    var numChannels := NumChannels(|inputData|, |outputData|, config.withInputs);
    if numSamples == 0 || numChannels == 0 then W.Ok(Placeholder)
    else
      match ParseHexColor(config.backgroundColor)
      case Err(e) => W.Err(e)
      case Ok(bg) =>
        match ChannelCharts(inputData, outputData, abnormalities, config)
        case Err(e) => W.Err(e)
        case Ok(charts) =>
          W.Ok(CanvasPlan(numChannels, bg, charts.0, charts.1, config, sampleRate, numSamples, startSample, f))
  }
}
