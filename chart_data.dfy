/** One channel ready for plotting (src/chart_data.rs). */
module ChartData {
  import W = Wrappers
  import opened Util
  import opened Config
  import opened Abnormal
  import Text

  datatype ChannelChartData = ChannelChartData(
    data: seq<real>,
    abnormalities: seq<(nat, AbnormalSample)>,
    color: Rgb,
    title: W.Option<string>,
    isInput: bool,
    idx: nat)

  /** The colour string for channel `idx`: the override when there is one,
      else the palette entry, cycling every 32 channels. */
  function ColorString(overrides: W.Option<seq<Utf8>>, palette: seq<string>, idx: nat): (s: Utf8)
    requires |palette| == 32 && forall i :: 0 <= i < 32 ==> IsAscii(palette[i])
  {
    if overrides.Some? && idx < |overrides.value| then overrides.value[idx]
    else Ascii(palette[idx % 32])
  }

  /** "Input Ch#3" and the like. */
  function DefaultLabel(kind: string, idx: nat): string {
    kind + " Ch#" + Text.NatToString(idx)
  }

  /** The legend label: none without `show_labels`, else the title at `idx`
      or the default label. */
  function Label(showLabels: bool, titles: seq<string>, kind: string, idx: nat): (l: W.Option<string>)
    ensures l.None? <==> !showLabels
    ensures l.Some? && idx < |titles| ==> l.value == titles[idx]
    ensures l.Some? && idx >= |titles| ==> l.value == DefaultLabel(kind, idx)
  {
    if !showLabels then W.None
    else if idx < |titles| then W.Some(titles[idx])
    else W.Some(DefaultLabel(kind, idx))
  }

  function InputColorString(config: SvgChartConfig, idx: nat): Utf8 {
    PalettesParse();
    ColorString(config.inputColors, INPUT_CHANNEL_COLORS, idx)
  }

  function OutputColorString(config: SvgChartConfig, idx: nat): Utf8 {
    PalettesParse();
    ColorString(config.outputColors, OUTPUT_CHANNEL_COLORS, idx)
  }

  /** `from_input_data`; an `Err` where parsing the colour panics. */
  function FromInputData(data: seq<real>, idx: nat, config: SvgChartConfig): (r: W.Result<ChannelChartData, ColorError>)
    ensures r.Ok? <==> ParseHexColor(InputColorString(config, idx)).Ok?
    ensures r.Ok? ==> && r.value.data == data && r.value.idx == idx
                      && r.value.isInput && r.value.abnormalities == []
                      && r.value.color == ParseHexColor(InputColorString(config, idx)).value
                      && r.value.title == Label(config.showLabels, config.inputTitles, "Input", idx)
  {
    match ParseHexColor(InputColorString(config, idx))
    case Err(e) => W.Err(e)
    case Ok(color) =>
      W.Ok(ChannelChartData(data, [], color, Label(config.showLabels, config.inputTitles, "Input", idx), true, idx))
  }

  /** `from_output_data`; an `Err` where parsing the colour panics. */
  function FromOutputData(data: seq<real>, abnormalities: seq<(nat, AbnormalSample)>, idx: nat, config: SvgChartConfig)
    : (r: W.Result<ChannelChartData, ColorError>)
    ensures r.Ok? <==> ParseHexColor(OutputColorString(config, idx)).Ok?
    ensures r.Ok? ==> && r.value.data == data && r.value.idx == idx
                      && !r.value.isInput && r.value.abnormalities == abnormalities
                      && r.value.color == ParseHexColor(OutputColorString(config, idx)).value
                      && r.value.title == Label(config.showLabels, config.outputTitles, "Output", idx)
  {
    match ParseHexColor(OutputColorString(config, idx))
    case Err(e) => W.Err(e)
    case Ok(color) =>
      W.Ok(ChannelChartData(data, abnormalities, color, Label(config.showLabels, config.outputTitles, "Output", idx), false, idx))
  }

  /** Without an override the palette is used, cycling every 32 channels, and
      a palette colour always parses, so the record is always built. */
  lemma PaletteColors(data: seq<real>, abnormalities: seq<(nat, AbnormalSample)>, idx: nat, config: SvgChartConfig)
    ensures !(config.inputColors.Some? && idx < |config.inputColors.value|) ==>
      && IsAscii(INPUT_CHANNEL_COLORS[idx % 32])
      && InputColorString(config, idx) == Ascii(INPUT_CHANNEL_COLORS[idx % 32])
      && InputColorString(config, idx) == InputColorString(config, idx + 32)
      && FromInputData(data, idx, config).Ok?
    ensures !(config.outputColors.Some? && idx < |config.outputColors.value|) ==>
      && IsAscii(OUTPUT_CHANNEL_COLORS[idx % 32])
      && OutputColorString(config, idx) == Ascii(OUTPUT_CHANNEL_COLORS[idx % 32])
      && OutputColorString(config, idx) == OutputColorString(config, idx + 32)
      && FromOutputData(data, abnormalities, idx, config).Ok?
  {
    PalettesParse();
    assert (idx + 32) % 32 == idx % 32;
  }

  /** An override in range is used verbatim, whatever the palette says. */
  lemma OverrideColors(idx: nat, config: SvgChartConfig)
    ensures config.inputColors.Some? && idx < |config.inputColors.value| ==>
      InputColorString(config, idx) == config.inputColors.value[idx]
    ensures config.outputColors.Some? && idx < |config.outputColors.value| ==>
      OutputColorString(config, idx) == config.outputColors.value[idx]
  {
  }

  /** Default labels name the kind and index unambiguously: two channels get
      the same default label only if they are the same channel. */
  lemma DefaultLabelsDistinct(i: nat, j: nat)
    ensures DefaultLabel("Input", i) == DefaultLabel("Input", j) <==> i == j
    ensures DefaultLabel("Output", i) == DefaultLabel("Output", j) <==> i == j
    ensures DefaultLabel("Input", i) != DefaultLabel("Output", j)
  {
    Text.NatToStringInjective(i, j);
    var a, b := DefaultLabel("Input", i), DefaultLabel("Input", j);
    var pre := "Input Ch#";
    if a == b {
      assert a[|pre|..] == Text.NatToString(i);
      assert b[|pre|..] == Text.NatToString(j);
    }
    var c, d := DefaultLabel("Output", i), DefaultLabel("Output", j);
    var pre2 := "Output Ch#";
    if c == d {
      assert c[|pre2|..] == Text.NatToString(i);
      assert d[|pre2|..] == Text.NatToString(j);
    }
    assert DefaultLabel("Input", i)[0] == 'I';
    assert DefaultLabel("Output", j)[0] == 'O';
  }
}
