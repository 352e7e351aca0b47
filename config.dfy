/** The chart settings read by src/chart.rs and src/chart_data.rs. */
module Config {
  import W = Wrappers
  import opened Util

  /** Whether channels get a chart each, one chart per kind, or one chart. */
  datatype Layout = SeparateChannels | CombinedPerChannelType | Combined

  /** One record holding every setting the chart code reads; colour strings are UTF-8 bytes. */
  datatype SvgChartConfig = SvgChartConfig(
    svgWidth: W.Option<nat>,
    svgHeightPerChannel: nat,
    withInputs: bool,
    chartTitle: W.Option<string>,
    showGrid: bool,
    showLabels: bool,
    outputColors: W.Option<seq<Utf8>>,
    inputColors: W.Option<seq<Utf8>>,
    backgroundColor: Utf8,
    lineWidth: real,
    chartLayout: Layout,
    preserveAspectRatio: W.Option<string>,
    maxLabelsXAxis: W.Option<nat>,
    formatXAxisLabelsAsTime: bool,
    inputTitles: seq<string>,
    outputTitles: seq<string>)
}
