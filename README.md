# insta-fun, modelled in Dafny

insta-fun turns a fundsp audio unit into a snapshot. It drives the unit
over a declared input, one sample at a time (`Processing::Tick`) or in
chunks (`Processing::Batch`). It then plans an SVG chart of the input and
output channels: the layout, y ranges, colours, line styles, legends, and
red markers for NaN and infinite samples. A second snapshot kind renders a
fundsp `Net` as a Graphviz DOT wiring graph. A Python script checks that
the gallery pages reference every stored snapshot.

This project models those parts as Dafny code and proves what they
promise:

- `input.dfy`, `snapshot.dfy`: input materialisation with its panics.
  The engine is a `Unit` class whose hidden state `tick`/`process`
  update. The methods `RunTick`/`RunBatch` are proved against the
  functions `TickRun`/`BatchRun`. `TickBatchEquivalence` shows that the
  two processing modes capture the same samples for every batch size in
  `1..=64`.
- `warmup.dfy`: the choice of warm-up length and input. The `Seconds`
  length is `seconds * sample_rate` cast with `as usize`: it truncates,
  NaN and negative values give 0, and +infinity saturates.
- `util.dfy`: the channel palettes and `#RRGGBB` parsing over UTF-8
  bytes, with its slicing panics. Formatting a colour and parsing it back
  gives the colour. The contrasting text colour is also modelled.
- `abnormal.dfy`: classifying a sample, marker placement, marker labels,
  and pooling every channel's abnormalities into one series.
- `chart_data.dfy`: the colour and legend label of each channel.
- `chart_plan.dfy`, `chart.dfy`, `chart_facts.dfy`: `generate_svg`,
  `multi_channel_chart` and `one_channel_chart` as a plan value.
  `chart_plan.dfy` covers the regions, y spans, draw order and series.
  `chart_facts.dfy` proves the properties of each layout.
- `graph.dfy`, `graph_facts.dfy`: `build_petgraph` as an imperative method
  proved against `Nodes`/`Edges`. The facts cover:
  - node indices and edge endpoints;
  - which edges exist (at most one per non-`Zero` source, exactly one when
    both endpoints exist);
  - sorted edge order;
  - independence from the order in which the net lists its node ids.
- `dot.dfy`: the DOT edge labels and the HTML escaping of node labels,
  both proved to round-trip.
- `gallery.dfy`: `scripts/verify_gallery.py`. `SnapshotInfo` is a class
  with mutable flags. `analyze` is a method whose report equals the pure
  `ReportOf`. The exit code is characterised snapshot by snapshot.
- `sorting.dfy`, `text.dfy`, `wrappers.dfy`: shared pieces. These are a
  sort proved sorted and a permutation, decimal formatting, string
  replacement, and `Option`/`Result`.

Samples are `real`. The rest of fundsp, plotters, petgraph and the file
system are parameters or data (see "Left out").

## Model

| member | source | states |
|---|---|---|
| Input.Impulse | src/input.rs:27-29 | the impulse generator yields 1.0 at sample 0 and 0.0 afterwards, on every channel |
| Snapshot.MaxLen | src/snapshot.rs:112 | an upper bound of every channel length that some channel attains; 0 for no channels |
| Snapshot.Materialize | src/snapshot.rs:98-153 | the input matrix exists exactly when the variant's shape checks pass, and it then has `num_inputs` channels of `num_samples` samples |
| Snapshot.MaterializeLayouts | src/snapshot.rs:99-152 | sample `i` of channel `ch` is 0.0 for None, `d[ch][i]` by channel, `d[i][ch]` by tick, `d[ch]` for Flat, and `gen(i, ch)` for a generator |
| Snapshot.MaterializeErrors | src/snapshot.rs:100-141 | which assertion fails first, with the expected and actual counts of its message |
| Snapshot.VecByTickTransposes | src/snapshot.rs:116-133 | giving the transpose of a matrix as tick-major data yields the matrix back |
| Snapshot.ImpulseMatrix | src/snapshot.rs:146-152 | the impulse materialises to 1.0 at sample 0 and 0.0 elsewhere, on every channel |
| Snapshot.Unit.constructor | src/snapshot.rs:83-96 | a unit starts in its given state |
| Snapshot.Unit.Prepare | src/snapshot.rs:94-96 | set_sample_rate/reset/allocate move the state through the unit's prepare step |
| Snapshot.Unit.Tick | src/snapshot.rs:165 | one tick updates the state and yields the frame the unit's tick function gives |
| Snapshot.Unit.Process | src/snapshot.rs:190 | one `process` call updates the state and yields the unit's block |
| Snapshot.Column | src/snapshot.rs:160-163 | the input frame holds the sample of every channel at index `i` |
| Snapshot.PushFrame | src/snapshot.rs:166-168 | each output channel grows by its own component of the frame |
| Snapshot.ExtendChannels | src/snapshot.rs:192-194 | each output channel is extended by the matching channel of the block |
| Snapshot.NoSamples | src/snapshot.rs:155 | `num_outputs` empty output channels |
| Snapshot.TickSpan | src/snapshot.rs:159-169 | ticking frames `a..e` yields `e - a` samples on every output channel; `TickSpanSplit` relates spans |
| Snapshot.TickRunSample | src/snapshot.rs:159-169 | a tick run has `num_outputs` channels of `n` samples; output sample `i` of channel `ch` is component `ch` of the tick taken from the state after `i` ticks on frame `i` |
| Snapshot.ChunkLen | src/snapshot.rs:177-178 | each chunk is non-empty, at most the batch size, and inside `0..n` |
| Snapshot.NumChunks | src/snapshot.rs:178 | the chunks cover `0..n` and the last one starts inside it |
| Snapshot.ChunkBuffer | src/snapshot.rs:179-185 | the BufferVec has one row of `MAX_BUFFER_SIZE` frames per input channel (the chunk's frames, then zeros); `FillBuffer` and `TickSpanBuffer` use it |
| Snapshot.BatchSpan | src/snapshot.rs:178-195 | after `c` chunks there is one output channel per unit output; `BatchSpanIsTickSpan` says what they hold |
| Snapshot.ChunksConsecutive | src/snapshot.rs:178 | each chunk ends where the next starts, and the last ends at `n` |
| Snapshot.ChunkOf | src/snapshot.rs:178 | sample `i` lies in chunk `i / b`: no gaps and no overlap |
| Snapshot.TickSpanSplit | src/snapshot.rs:159-169 | ticking `a..e` equals ticking `a..mid` and then `mid..e` |
| Snapshot.TickSpanBuffer | src/snapshot.rs:179-190 | ticking the chunk's buffer equals ticking the same frames of the input |
| Snapshot.BatchSpanIsTickSpan | src/snapshot.rs:171-196 | after `c` chunks, Batch has produced what Tick produces over the same frames |
| Snapshot.BatchSpanEnd | src/snapshot.rs:171-196 | the first `c` chunks end at `min(c * b, n)`, and Batch over them equals Tick up to that frame |
| Snapshot.TickBatchEquivalence | src/snapshot.rs:157-196 | for every batch size in `1..=64`, Batch captures exactly what Tick captures, when `process` behaves as repeated ticks |
| Snapshot.CaptureModes | src/snapshot.rs:171-176 | Batch(0) and Batch(>64) panic; any other batch size gives the Tick result |
| Snapshot.CaptureTickShape | src/snapshot.rs:155-170 | a tick capture has `num_outputs` channels of exactly `num_samples` samples |
| SnapshotEngine.RunTick | src/snapshot.rs:158-170 | the per-sample loop leaves the unit's state and the outputs equal to `TickRun` |
| SnapshotEngine.FillBuffer | src/snapshot.rs:179-185 | the filled BufferVec is `ChunkBuffer` of the chunk |
| SnapshotEngine.RunBatch | src/snapshot.rs:177-195 | the chunk loop leaves the state and the outputs equal to `BatchRun` |
| SnapshotEngine.SnapshotAudioUnit | src/snapshot.rs:83-197 | materialise, prepare, then capture: the result is `Capture` of the input and the mode |
| Warmup.SharedInput.constructor | src/warmup.rs:17 | a shared cell holds the given input source |
| Warmup.Mul | src/warmup.rs:41 | `f64` multiplication by class: NaN when an operand is NaN or infinity meets zero, the exact product for finite operands, and otherwise an infinity signed by the operands' signs |
| Warmup.AsUsize | src/warmup.rs:41 | `as usize`: NaN and -infinity give 0, +infinity gives `usize::MAX`; a finite value truncates toward zero, with 0 at or below zero and `usize::MAX` past the range |
| Warmup.WarmUpSelection | src/warmup.rs:38-43 | None gives 0 samples; Samples(n) and SamplesWithInput give their count; Seconds gives `seconds * rate` truncated toward zero, 0 when not positive or NaN, 0 for -infinity and `usize::MAX` for +infinity at a positive rate |
| Warmup.SecondsTruncates | src/warmup.rs:41 | 0.99 s at 1 Hz gives no sample, 1.5 s at 44100 Hz gives 66150, a negative or NaN duration gives 0, and an infinite one `usize::MAX` |
| Warmup.SelectWarmUp | src/warmup.rs:36-43 | the count is the selected one; SamplesWithInput hands back the caller's own cell, the others a fresh cell holding no input |
| Warmup.WarmUpSamples | src/warmup.rs:36-46 | the warm-up data is the selected input materialised for the selected count |
| Warmup.DebugOmitsInput | src/warmup.rs:27-30 | the Debug text of SamplesWithInput does not depend on the input, and differs for different sample counts |
| Util.Ascii | src/util.rs:3-15 | an ASCII string's UTF-8 bytes are its characters, one byte each |
| Util.HexValue | src/util.rs:20-22 | a hex digit's value is below 16 |
| Util.TrimHashes | src/util.rs:19 | only a prefix of `#` bytes is removed, and the rest does not start with `#` |
| Util.ParseHexColor | src/util.rs:18-24 | a colour exactly when all three slices after the `#`s are in range and on character boundaries; each component is its pair's value, or 0 when the pair does not parse |
| Util.ShortColorPanics | src/util.rs:19-22 | fewer than six bytes after the `#`s always panic |
| Util.BadPairIsZero | src/util.rs:20-22 | a pair that does not parse becomes 0 for that component alone |
| Util.HexDigitsPair | src/util.rs:20-22 | two hex digits read as `16 * hi + lo` |
| Util.PlusSignAccepted | src/util.rs:20-22 | `from_str_radix` accepts a leading `+`, so "#+F+F+F" parses as (15, 15, 15) |
| Util.HexDigitChar | src/util.rs:3-15 | the upper-case digit of a nibble is a hex digit with that value |
| Util.FormatHexColor | src/util.rs:3-15 | `#RRGGBB` is seven bytes and starts with `#`; `HexColorRoundTrip` parses it back |
| Util.PairParses | src/util.rs:20-22 | a formatted byte parses back to itself |
| Util.HexColorRoundTrip | src/util.rs:18-24 | parsing a formatted colour gives the colour |
| Util.OutputPaletteWellFormed | src/util.rs:3-8 | 32 entries, each `#` followed by six hex digits |
| Util.InputPaletteWellFormed | src/util.rs:10-15 | 32 entries, each `#` followed by six hex digits |
| Util.HexPairParses | src/util.rs:20-22 | two hex digits never fall back to 0 |
| Util.HexBytesParse | src/util.rs:18-24 | `#` and six hex digit bytes parse with no fallback |
| Util.HexColorParses | src/util.rs:18-24 | a well-formed entry is ASCII and parses with no fallback |
| Util.PaletteColorsParse | src/util.rs:3-24 | every entry of a well-formed palette parses |
| Util.PaletteHeadsParse | src/util.rs:3-24 | the first entry of each palette parses |
| Util.PalettesParse | src/util.rs:3-24 | both palettes have 32 entries and every entry is ASCII and parses, so no palette colour panics |
| Util.ContrastingColor | src/util.rs:27-57 | white or dark gray (32, 32, 32), white exactly when the WCAG luminance is below 0.5 |
| Util.ContrastExtremes | src/util.rs:27-57 | black gets white text; white gets dark gray whenever `powf` maps 1.0 to 1.0 |
| Abnormal.Display | src/abnormal.rs:12-20 | non-empty; starts with 'N' exactly for NaN and with '-' exactly for -∞ |
| Abnormal.DisplayInjective | src/abnormal.rs:12-20 | distinct kinds display differently |
| Abnormal.Classify | src/abnormal.rs:22-34 | NaN for NaN, NegInf exactly for negative infinity, PosInf exactly for positive infinity (finite input is unreachable) |
| Abnormal.Representative | src/abnormal.rs:22-34 | a non-finite float for each kind |
| Abnormal.ClassifyRepresentative | src/abnormal.rs:22-34 | classification recovers the kind of its representative |
| Abnormal.MarkerY | src/abnormal.rs:51-55 | NaN sits at 0; -∞ at `min(y_min, -1)`; +∞ at `max(y_max, 1)` |
| Abnormal.OffsetOf | src/abnormal.rs:70-75 | no horizontal offset; the label goes below the marker exactly for -∞ |
| Abnormal.MarkerLabelRoundTrip | src/abnormal.rs:48-75 | reading the label and offset back from the marker's y gives the kind's display text and offset |
| Abnormal.Pool | src/abnormal.rs:45-47 | no channels give an empty pool; `PoolIndex` and `PoolLength` say where each entry goes |
| Abnormal.PoolIndex | src/abnormal.rs:45-47 | entry `j` of channel `k` sits at `offset(k) + j` of the pool |
| Abnormal.PoolOffsetTail | src/abnormal.rs:45-47 | the offset of channel `k` is the first channel's length plus the offset of `k - 1` in the rest |
| Abnormal.PoolLength | src/abnormal.rs:45-47 | the pool holds exactly the entries before the last channel's end, so nothing is dropped |
| Abnormal.PoolEmpty | src/abnormal.rs:42 | the pool is empty exactly when every channel's list is |
| Abnormal.Markers | src/abnormal.rs:36-82 | when a series is drawn, it has one marker per pooled entry |
| Abnormal.MarkersMeaning | src/abnormal.rs:42-75 | a series is drawn exactly when some channel has abnormalities; each marker has its entry's sample index as x, the sentinel y of MarkerY for its classification (0 for NaN, min(y_min, -1) for -∞, max(y_max, 1) for +∞), and its classification's label and offset |
| ChartData.Label | src/chart_data.rs:29-37 | none without show_labels; otherwise the title at `idx`, or the default "Input Ch#idx" / "Output Ch#idx" |
| ChartData.FromInputData | src/chart_data.rs:20-47 | a record exactly when the input's colour string parses; it keeps the data and the index |
| ChartData.FromOutputData | src/chart_data.rs:49-81 | a record exactly when the output's colour string parses; it keeps the data and the index |
| ChartData.PaletteColors | src/chart_data.rs:21-27 | without an override in range, the palette colour at `idx % 32` is used and the record is built |
| ChartData.OverrideColors | src/chart_data.rs:55-60 | an override in range is the colour string used |
| ChartData.DefaultLabelsDistinct | src/chart_data.rs:34 | two channels get the same default label only when they have the same kind and index |
| ChartPlan.MinOf | src/chart.rs:182-186 | a lower bound of the data that is attained |
| ChartPlan.MaxOf | src/chart.rs:187-191 | an upper bound of the data that is attained |
| ChartPlan.YSpanOf | src/chart.rs:193-195 | the span is empty exactly when there is no data; `YSpanBounds` and `YSpanConstant` say how wide it is |
| ChartPlan.YSpanBounds | src/chart.rs:182-195 | every sample lies strictly inside the span, over exact reals |
| ChartPlan.YSpanConstant | src/chart.rs:193-195 | constant data `c` gets the span `c ± EPSILON / 10`, over exact reals |
| ChartPlan.Points | src/chart.rs:258-262 | sample `i` is plotted at `x = i + start` with its value |
| ChartPlan.StrokeWidth | src/chart.rs:253 | `line_width as u32` truncates toward zero and saturates at 0 and `u32::MAX` |
| ChartPlan.Pass | src/chart.rs:242 | every index a pass draws is below `n`; `PassMeaning` says which |
| ChartPlan.PassMeaning | src/chart.rs:242 | a pass draws exactly the charts it takes, each once, in increasing index order |
| ChartPlan.Tag | src/chart.rs:250-300 | each index carries its pass's style |
| ChartPlan.DrawOrder | src/chart.rs:240-311 | every drawn index names a chart |
| ChartPlan.DrawOrderParts | src/chart.rs:240-311 | the draw order is the solid pass followed by the dashed pass |
| ChartPlan.DrawOrderCovers | src/chart.rs:240-311 | every chart is drawn |
| ChartPlan.DrawOrderStyles | src/chart.rs:240-311 | dashed exactly for inputs in a non-solid region |
| ChartPlan.DrawOrderSequence | src/chart.rs:240-311 | no chart is drawn twice |
| ChartPlan.DrawOrderMeaning | src/chart.rs:240-311 | each chart is drawn exactly once, dashed exactly when it is an input and inputs are not solid |
| ChartPlan.AllSolid | src/chart.rs:242 | with solid inputs, every chart is drawn solid in chart order |
| ChartPlan.PassOfSplit | src/chart.rs:242 | for outputs followed by inputs, a pass takes exactly the indices of its side |
| ChartPlan.CombinedDrawOrder | src/chart.rs:142-151 | Combined draws the outputs solid in order, then the inputs dashed in order |
| ChartPlan.SeriesOf | src/chart.rs:256-310 | one series per drawn entry |
| ChartPlan.XLabelCount | src/chart.rs:220-226 | the label count, capped by `max_labels_x_axis` when that is set |
| ChartPlan.DataOf | src/chart.rs:177-191 | each chart's samples, in chart order |
| ChartPlan.AbnormalitiesOf | src/chart.rs:313 | each chart's abnormalities, in chart order |
| ChartPlan.MultiChannelChartAxes | src/chart.rs:177-236 | x spans from `start` to the longest channel's end; every sample lies strictly inside the y span (exact reals); axis colour as given; x labels exactly with show_labels |
| ChartPlan.MultiChannelChartSeries | src/chart.rs:238-326 | one series per chart, dashed only when inputs are not solid; a legend exactly when some chart has a label, in white or dark gray |
| ChartPlan.PassCounts | src/chart.rs:242-277 | the two passes of a non-solid region draw `n` charts together; a pass taking all draws `n` |
| ChartPlan.AllSamplesHas | src/chart.rs:184 | sample `i` of chart `k` is among all samples |
| ChartPlan.OneChannelChartMeaning | src/chart.rs:329-416 | x spans the channel from `start`; samples lie inside the y span; one solid series with no legend and points at `i + start`; label areas, x labels and axis description only for a labelled channel |
| ChartPlan.DrawSeries | src/chart.rs:238-311 | the series loops produce `SeriesOf` the draw order, and the legend flag is set exactly when some chart has a label |
| ChartPlan.NoInputsNoDashed | src/chart.rs:276 | without inputs the dashed pass draws nothing |
| ChartPlan.DrawPass | src/chart.rs:242-311 | one series loop draws exactly the charts its pass takes, in index order, with the pass's style; it asks for a legend exactly when one of those charts has a label |
| ChartPlan.MultiChannelChartSeriesIs | src/chart.rs:238-311 | the region's series are the draw order's series, with `line_width` as the stroke width |
| ChartPlan.MultiChannelChartAxisColor | src/chart.rs:210-228 | the region's axes use the axis colour it was given |
| ChartPlan.MultiChannelChartDomain | src/chart.rs:177-205 | the x range runs from `start_from` to `start_from` plus the longest channel's length |
| ChartPlan.MultiChannelChartFields | src/chart.rs:182-229 | the y span is the one computed from all samples; the axis colour is as given; x labels are set exactly when `show_labels` is |
| ChartPlan.ChartsExtent | src/chart.rs:177-195 | the sample count bounds every channel and is the length of one of them; every sample lies strictly inside the y span (exact reals) |
| Chart.NumChannels | src/chart.rs:40-45 | at least the outputs; more exactly when with_inputs is set and there are inputs |
| Chart.InputCharts | src/chart.rs:73-81 | the records exist exactly when every shown input's colour parses; then there is one per input, in order |
| Chart.OutputCharts | src/chart.rs:83-90 | the records exist exactly when every paired output's colour parses; then there is one per output and abnormality pair, in order |
| Chart.ChannelCharts | src/chart.rs:73-90 | the shown inputs and the outputs, each in index order |
| Chart.GenerateSvg | src/chart.rs:30-166 | the placeholder exactly when there are no samples or no shown channels; otherwise a colour error exactly when the background or a channel colour fails to parse, and else a canvas built from the parsed background and channel records |
| Chart.AsU32 | src/chart.rs:51-52 | the `as u32` cast: the result is below 2^32, differs from the input by a multiple of 2^32, and is the input itself when that fits |
| Chart.CanvasPlanRegions | src/chart.rs:51-52 | the canvas is as wide and high as the cast sizes, and holds the layout's slice count and regions |
| ChartFacts.CanvasSize | src/chart.rs:51-52 | the width is svg_width (else twice the sample count) and the height is `height_per_channel * num_channels`, each cut to 32 bits |
| ChartFacts.TitleColor | src/chart.rs:65-71 | the background is the parsed one; a title colour exactly when a title is configured; white or dark gray, and white on black |
| ChartFacts.DefaultBackgroundIsBlack | src/config.rs:102 | the default background "#000000" parses to black |
| ChartFacts.PaletteChannelCharts | src/chart.rs:73-90 | without colour overrides every channel record is built |
| ChartFacts.PaletteNeverPanics | src/chart.rs:61-93 | with the palettes and a background that parses, `generate_svg` never panics |
| ChartFacts.SeparateChannelsLayout | src/chart.rs:96-106 | one single-channel region per record, the inputs first, then the outputs |
| ChartFacts.SeparateChannelsSlices | src/chart.rs:96-106 | the canvas is split into one slice per shown channel; there is one region per shown input plus one per output that has an abnormality list, so outputs past the end of that list get a slice but no region (the zip), and slices and regions match exactly when every output has one |
| ChartFacts.OutputAxisColorValue | src/chart.rs:92 | the output axis colour is #4285F4 |
| ChartFacts.InputAxisColorValue | src/chart.rs:93 | the input axis colour is #B39DDB |
| ChartFacts.OutputsOnlyPasses | src/chart.rs:242 | with outputs only, whether inputs count as solid changes nothing |
| ChartFacts.CombinedPerChannelTypeWithoutInputs | src/chart.rs:107-139 | without inputs, CombinedPerChannelType plans exactly what Combined plans |
| ChartFacts.CombinedLayout | src/chart.rs:141-152 | one region drawing the outputs solid in order, then the inputs dashed |
| ChartFacts.CombinedSeries | src/chart.rs:142-151 | outputs then inputs, drawn non-solid: outputs solid first, inputs dashed after |
| ChartFacts.SolidSeries | src/chart.rs:242-275 | with solid inputs every chart is drawn solid, chart `k` as series `k` |
| ChartFacts.OutputHeadParses | src/util.rs:3-4 | the first output palette entry parses to (0x42, 0x85, 0xF4) |
| ChartFacts.InputHeadParses | src/util.rs:10-11 | the first input palette entry parses to (0xB3, 0x9D, 0xDB) |
| ChartFacts.CombinedPerChannelTypeLayout | src/chart.rs:107-128 | with inputs, two regions: the first has the input axis colour and draws input `k` solid as series `k`, the second has the output axis colour and does the same for the outputs |
| Text.NatToString | src/graph.rs:59 | `format!("{}", n)`: non-empty, all decimal digits, no leading zero |
| Text.ParseNatToString | src/graph.rs:230-232 | reading a formatted number back gives the number |
| Text.NatToStringInjective | src/chart_data.rs:34 | distinct numbers format differently |
| Text.ReplaceChar | src/graph.rs:247-253 | no occurrence of the character is left unless the replacement holds it, and every character comes from the input or the replacement |
| Text.ReplaceCharConcat | src/graph.rs:247-253 | replacing works piecewise over a concatenation |
| Text.BeforeLast | scripts/verify_gallery.py:117 | `rsplit('.', 1)[0]`: a prefix, the whole string exactly when there is no separator, else cut at the last separator |
| Sorting.SortBy | src/graph.rs:204-211 | the result has the same length and the same multiset of elements as the input |
| Sorting.SortBySorted | src/graph.rs:204-211 | the result is ordered under a total relation |
| Sorting.SortByMembersAll | scripts/verify_gallery.py:150-154 | the sorted list has exactly the members of the input |
| Sorting.SortedUnique | src/graph.rs:203-211 | two ordered permutations under a total order are equal |
| Sorting.SortByPermutationInvariant | src/graph.rs:78-97 | sorting two permutations of each other gives the same result |
| Graph.SortedIds | src/graph.rs:79-97 | the ids sorted by number: the same ids, the same count |
| Graph.SortedIdsFacts | src/graph.rs:79-97 | the sorted ids are distinct, strictly ascending, and exactly the net's units |
| Graph.IdIndex | src/graph.rs:107-120 | the id map has exactly the listed ids as keys; `IdIndexAt` gives their indices |
| Graph.IdIndexAt | src/graph.rs:113-119 | the `j`-th unit gets node index `base + j` |
| Graph.AddGlobalNodes | src/graph.rs:54-76 | the nodes `IN[k]` then `OUT[k]`, with indices `k` and `inputs + k` |
| Graph.UnitLabels | src/graph.rs:99-104 | the label map holds exactly the given ids, each with its unit's display text |
| Graph.AddUnitNodes | src/graph.rs:99-120 | one unit node per sorted id after the globals, labelled with its display text, and the id map |
| Graph.CollectUnitEdges | src/graph.rs:125-163 | the unit input edges, unit by unit and input by input |
| Graph.CollectOutputEdges | src/graph.rs:165-201 | the global output edges appended in output order |
| Graph.BuildPetgraph | src/graph.rs:44-218 | nodes, sorted edges, id map, and global input/output indices equal the functions `Nodes`, `Edges` and `IdMap` |
| Graph.InsertEdges | src/graph.rs:212-215 | the graph receives the sorted edges in order |
| GraphFacts.NodeCount | src/graph.rs:54-120 | one node per global input, per global output and per unit |
| GraphFacts.NodeAt | src/graph.rs:54-120 | the kind of node `j` follows from its index range; its label, port and unit id follow from the kind |
| GraphFacts.UnitNodesAscending | src/graph.rs:79-120 | unit nodes appear in increasing id order |
| GraphFacts.UnitNodeIndex | src/graph.rs:107-120 | each unit's index lies in the unit range and points at that unit's node |
| GraphFacts.InputEdgesMembers | src/graph.rs:128-162 | an edge is among one unit's input edges exactly when some input produces it |
| GraphFacts.UnitEdgesMembers | src/graph.rs:126-163 | an edge is among the unit edges exactly when some unit input produces it |
| GraphFacts.OutputEdgesMembers | src/graph.rs:166-201 | an edge is among the output edges exactly when some output produces it |
| GraphFacts.InputEdgeMatchesRule | src/graph.rs:129-160 | a unit input produces `e` exactly when the source rule for that input says so |
| GraphFacts.OutputEdgeMatchesRule | src/graph.rs:167-199 | a global output produces `e` exactly when the source rule for that output says so |
| GraphFacts.InputSide | src/graph.rs:126-163 | some unit input produces `e` exactly when some input's rule matches `e` |
| GraphFacts.OutputSide | src/graph.rs:166-201 | some output produces `e` exactly when some output's rule matches `e` |
| GraphFacts.EdgeOrigins | src/graph.rs:122-215 | an edge is in the graph exactly when a unit input's or a global output's source rule yields it |
| GraphFacts.EdgeEndpoints | src/graph.rs:122-201 | endpoints are valid node indices; no edge enters a global input or leaves a global output; a port is absent exactly at a global endpoint |
| GraphFacts.ZeroInputNoEdge | src/graph.rs:158-160 | a `Zero` unit input has no incoming edge |
| GraphFacts.InputRuleEndpoints | src/graph.rs:122-162 | an edge into a unit input starts at a valid node, enters a unit node, and carries a source port exactly when it starts at a unit |
| GraphFacts.OutputRuleEndpoints | src/graph.rs:165-201 | an edge into a global output starts at a valid node, enters a global output node, and has no destination port |
| GraphFacts.NoRuleNoEdge | src/graph.rs:122-201 | an edge that neither loop pushes is not in the graph |
| GraphFacts.ZeroOutputNoEdge | src/graph.rs:197-199 | a `Zero` global output has no incoming edge |
| GraphFacts.FromInputDst | src/graph.rs:131-155 | unit input edges end at unit nodes |
| GraphFacts.FromOutputZero | src/graph.rs:166-201 | a `Zero` output contributes no output edge into its node |
| GraphFacts.EdgeLeqOrder | src/graph.rs:204-211 | the edge key order is total and transitive |
| GraphFacts.EdgesSorted | src/graph.rs:203-215 | edges are inserted in ascending (source, destination, source port, destination port) order, with `usize::MAX` for absent ports |
| GraphFacts.InputEdgesOfSame | src/graph.rs:126-163 | a unit's input edges do not depend on the id listing order |
| GraphFacts.UnitEdgesSame | src/graph.rs:126-163 | unit edges do not depend on the id listing order |
| GraphFacts.OutputEdgesSame | src/graph.rs:166-201 | output edges do not depend on the id listing order |
| GraphFacts.PermutedIds | src/graph.rs:79-97 | re-listing the ids keeps the net well formed and the sorted ids the same |
| GraphFacts.IdOrderIrrelevant | src/graph.rs:78-97 | whatever order the net lists its ids in, the nodes and edges are the same |
| GraphFacts.PermutedNodes | src/graph.rs:99-120 | re-listing the ids gives the same nodes |
| GraphFacts.PermutedEdges | src/graph.rs:203-211 | re-listing the ids gives the same sorted edges |
| GraphFacts.PermutedRawEdges | src/graph.rs:122-201 | re-listing the ids gives the same collected edges |
| Dot.DigitRun | src/graph.rs:230-232 | the length of the maximal prefix of digits |
| Dot.DigitRunOf | src/graph.rs:230-232 | a number's digits followed by a non-digit form a run of exactly that length |
| Dot.ReadNumberOf | src/graph.rs:230-232 | a formatted number reads back, leaving the rest |
| Dot.EdgeLabelRoundTrip | src/graph.rs:227-235 | the edge label gives back both optional ports |
| Dot.EdgeLabelInjective | src/graph.rs:227-235 | two edges get the same label exactly when their ports agree |
| Dot.Escape | src/graph.rs:247-253 | the escaped label holds no raw space and no raw newline; `EscapeRoundTrip` and `EscapeWellEscaped` say the rest |
| Dot.EscapeConcat | src/graph.rs:247-253 | escaping works piecewise over a concatenation |
| Dot.EscapeSingle | src/graph.rs:247-253 | one character: `&`, `<`, `>`, space and newline become entities or `<BR/>`; any other character stays |
| Dot.EscapeIsPerChar | src/graph.rs:247-253 | the chain of replacements escapes character by character, with no double escaping |
| Dot.UnescapeStep | src/graph.rs:247-253 | reading back one escaped character recovers it |
| Dot.EscapeRoundTrip | src/graph.rs:247-253 | unescaping an escaped label gives the label |
| Dot.EscapeWellEscaped | src/graph.rs:247-253 | every `&` of the escaped text starts an entity and `<` appears only in `<BR/>`; no raw `>`, space or newline |
| Dot.EscapeExtraAgrees | src/graph.rs:255-272 | for the extra row (no newline) the four-step escape agrees with the label escape |
| Gallery.SnapshotInfo.constructor | scripts/verify_gallery.py:60-67 | a snapshot is audio exactly when its name contains "@audio"; both flags start false |
| Gallery.ChartRefMeaning | scripts/verify_gallery.py:109-125 | a snapshot's chart flag gets set exactly when some non-ignored `.svg` reference names it |
| Gallery.AudioRefMeaning | scripts/verify_gallery.py:109-125 | the audio flag gets set exactly when some non-ignored `.wav` reference names it |
| Gallery.ExpectedReferencesMark | scripts/verify_gallery.py:69-73 | the expected chart and audio names mark their own snapshot |
| Gallery.BeforeLastAt | scripts/verify_gallery.py:117 | stripping the last extension gives everything before the last dot |
| Gallery.UppercaseExtensionMarksNothing | scripts/verify_gallery.py:55-56 | a case-insensitively matched `.SVG` reference to an existing snapshot sets no flag and is not an orphan |
| Gallery.LexOrder | scripts/verify_gallery.py:150-154 | string order is a total order |
| Gallery.Select | scripts/verify_gallery.py:127-147 | a name is in the list exactly when some snapshot with that name passes the filter |
| Gallery.Names | scripts/verify_gallery.py:84-91 | the names of the snapshots, in order |
| Gallery.StatesOf | scripts/verify_gallery.py:75-81 | each snapshot's dictionary, in order |
| Gallery.Find | scripts/verify_gallery.py:118-121 | the index of a snapshot with the name, or -1 exactly when no snapshot has it |
| Gallery.Record | scripts/verify_gallery.py:112-125 | one reference sets the flag it names, or adds itself to the orphans; nothing else changes |
| Gallery.Analyze | scripts/verify_gallery.py:100-157 | the flags are set by the references; referenced is the non-ignored references; orphans are exactly the references naming no snapshot; the report is `ReportOf` the final states |
| Gallery.ReportSorted | scripts/verify_gallery.py:149-154 | all five report lists are sorted |
| Gallery.ReportMembers | scripts/verify_gallery.py:127-154 | who is in each report list; unreferenced means neither chart-referenced nor (audio and audio-referenced) |
| Gallery.ExitCodeMeaning | scripts/verify_gallery.py:185-196 | the exit code is 0 exactly when there are no orphans and every snapshot meets its requirements under strict and require-audio-svg |
| Gallery.ExitZeroAllOk | scripts/verify_gallery.py:185-196 | exit code 0 implies no orphans and every snapshot meets its requirements |
| Gallery.AllOkExitZero | scripts/verify_gallery.py:185-196 | no orphans and every snapshot meeting its requirements gives exit code 0 |
| Gallery.UnreferencedChartFails | scripts/verify_gallery.py:240-247 | a non-audio snapshot without an `.svg` reference makes the script fail |

## Left out

- Drawing itself: plotters' SVG output, fonts, mesh lines, legend boxes, title text layout, and the final SVG string. The model stops at the plan of regions, series and markers.
- `preserve_aspect_ratio`: the text replacement of `<svg ` (src/chart.rs:158-165) acts on the rendered SVG string, which is not modelled.
- `num_x_labels` and `time_formatter`: they are called from src/chart.rs but defined in no modelled file. They are parameters (`Foreign`), as is `powf(2.4)` in `get_contrasting_color`.
- Floating point: samples, y spans and luminance are `real`. f32 rounding, `as f64` widening, and NaN or infinity inside the folds are not modelled. The abnormality classifier works on its own `F32` class datatype.
- ChartPlan.YSpanBounds, ChartPlan.YSpanConstant: `y_min < y_max` holds over exact reals only. src/chart.rs:193-195 computes `range * 0.1` and the bounds in f32, so for constant data `c` with `|c| >= 0.5` the margin `0.1 * f32::EPSILON` is lost and `y_min == y_max == c` (for example at 1.0, -1.0 or 440.0); at 0.25 only `y_max == c`. The strict bounds stated by ChartPlan.MultiChannelChartAxes, ChartPlan.OneChannelChartMeaning and ChartPlan.ChartsExtent carry the same limit.
- Chart.GenerateSvg: src/snapshot.rs:199 calls `generate_svg` with three arguments, while src/chart.rs:30-38 takes seven, and src/config.rs does not hold all the chart settings read by src/chart.rs. The model follows src/chart.rs and takes the settings as one `SvgChartConfig` record. The capture is not connected to chart generation, and no code computes the abnormalities passed in.
- Integer width: the canvas size is cut to 32 bits as `as u32` does, but `num_samples * 2` and `height_per_channel * num_channels` are unbounded before the cut, so `usize` overflow is not modelled.
- InputSource::sine (src/input.rs:30-35) is left out: it is a floating-point generator whose value is `sin`.
- fundsp internals: a unit is a state, a tick function and a process function. Snapshot.TickBatchEquivalence assumes that `process` over `k` frames equals `k` ticks and yields `k` samples per channel. That is fundsp's contract, not the code of this repository. `BufferVec::channel_f32` is taken to have exactly the length `process` produces.
- The `Net` is data: inputs, outputs, the id list in hash-map order, each unit's display text and input sources, and the output sources. The node labels take a unit's display text as given.
- Graph.SortedIds: ids are sorted by their number. The `DefaultHasher` fallback (src/graph.rs:91-95) applies only when the `Debug` text of a `NodeId` fails to parse, which fundsp's format never does, so it is not modelled. The "Unit NodeId(n)" label fallback (src/graph.rs:112) cannot trigger either, since every id gets its label first.
- Dot: petgraph's `Dot` printer (its `Debug` formatting, the node and edge numbering, and the braces) and `snapshot_dsp_net_wiring`'s byte conversion are not modelled. The model covers the edge label, shape, escaping and extra row that the attribute closures compute.
- Gallery: directory globbing, reading Markdown, regular-expression extraction (the references found are an input, in order), argparse, printing, JSON and `SystemExit` are not modelled. `gather_snapshots` becomes a sequence of `SnapshotInfo` with distinct names.
- Gallery.Analyze: `orphan_references` is a Python set. The model keeps it as a list without duplicates and states its members, so its sorted form in the report is the same. `referenced_resources` is computed but never used in the report.
- `wav.rs`, `macros.rs`, `lib.rs` and `tests.rs` are not part of this model.
- Warmup.DebugString: Rust's `Debug` formatting of an `f64` is a parameter.
- Warmup.Mul, Warmup.WarmUpCount: a finite product `seconds * sample_rate` is the exact real product. f64 rounding is not modelled: 0.29 s at 100 Hz is 28.999999999999996 in f64, so the source warms up 28 samples where the model gives 29. A finite product that overflows to infinity and the sign of zero are not modelled either.
