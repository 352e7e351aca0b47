/** Input materialisation and the execution engine of
    `snapshot_audio_unit_with_input_and_options` (src/snapshot.rs). */
module Snapshot {
  import W = Wrappers
  import opened Input

  /** fundsp's `MAX_BUFFER_SIZE`: the frame capacity of a `BufferVec` channel. */
  const MAX_BUFFER_SIZE: nat := 64

  type u8 = x: int | 0 <= x < 256

  /** `Processing`: one frame per call, or chunks of at most `size` frames per call. */
  datatype Processing = Tick | Batch(size: u8)

  /** The panics of the engine, with the counts their messages report. */
  datatype SnapshotError =
    | ChannelCountMismatch(expected: nat, got: nat)
    | SampleCountMismatch(expected: nat, got: nat)
    | BatchTooLarge(batchSize: nat)
    | ZeroBatchSize

  // ---------------------------------------------------------------------------
  // Input materialisation (src/snapshot.rs:98-153)

  predicate AllLengths(d: seq<seq<real>>, n: nat) {
    forall i :: 0 <= i < |d| ==> |d[i]| == n
  }

  /** `data.iter().map(|v| v.len()).max().unwrap_or(0)`. */
  function MaxLen(d: seq<seq<real>>): (r: nat)
    ensures forall i :: 0 <= i < |d| ==> |d[i]| <= r
    ensures d == [] ==> r == 0
    ensures d != [] ==> exists i :: 0 <= i < |d| && |d[i]| == r
  {
    if d == [] then 0
    else
      var rest := MaxLen(d[1..]);
      if |d[0]| >= rest then |d[0]| else rest
  }

  /** The shapes under which each variant is accepted. */
  predicate ShapeOk(src: InputSource, numInputs: nat, numSamples: nat) {
    match src
    case None => true
    case VecByChannel(d) => |d| == numInputs && AllLengths(d, numSamples)
    case VecByTick(d) => AllLengths(d, numInputs) && |d| == numSamples
    case Flat(d) => |d| == numInputs
    case Generator(_) => true
  }

  /** The `num_inputs × num_samples` channel-major input matrix, or the
      assertion that fails first. */
  function Materialize(src: InputSource, numInputs: nat, numSamples: nat): (r: W.Result<Matrix, SnapshotError>)
    ensures r.Ok? <==> ShapeOk(src, numInputs, numSamples)
    ensures r.Ok? ==> IsMatrix(r.value, numInputs, numSamples)
  {
    match src
    case None => W.Ok(seq(numInputs, _ => seq(numSamples, _ => 0.0)))
    case VecByChannel(d) =>
      if |d| != numInputs then W.Err(ChannelCountMismatch(numInputs, |d|))
      else if !AllLengths(d, numSamples) then W.Err(SampleCountMismatch(numSamples, MaxLen(d)))
      else W.Ok(d)
    case VecByTick(d) =>
      if !AllLengths(d, numInputs) then W.Err(ChannelCountMismatch(numInputs, MaxLen(d)))
      else if |d| != numSamples then W.Err(SampleCountMismatch(numSamples, |d|))
      else W.Ok(seq(numInputs, ch requires 0 <= ch < numInputs => seq(numSamples, i requires 0 <= i < numSamples => d[i][ch])))
    case Flat(d) =>
      if |d| != numInputs then W.Err(ChannelCountMismatch(numInputs, |d|))
      else W.Ok(seq(numInputs, ch requires 0 <= ch < numInputs => seq(numSamples, _ => d[ch])))
    case Generator(f) =>
      W.Ok(seq(numInputs, ch requires 0 <= ch < numInputs => seq(numSamples, i requires 0 <= i < numSamples => f(i, ch))))
  }

  /** What each variant's matrix holds, sample by sample. */
  lemma MaterializeLayouts(src: InputSource, numInputs: nat, numSamples: nat, ch: nat, i: nat)
    requires ShapeOk(src, numInputs, numSamples)
    requires ch < numInputs && i < numSamples
    ensures var m := Materialize(src, numInputs, numSamples).value;
      && (src.None? ==> m[ch][i] == 0.0)
      && (src.VecByChannel? ==> m == src.channels)
      && (src.VecByTick? ==> m[ch][i] == src.ticks[i][ch])
      && (src.Flat? ==> m[ch][i] == src.frame[ch])
      && (src.Generator? ==> m[ch][i] == src.gen(i, ch))
  {
  }

  /** Which check fails first, and the counts the message reports. */
  lemma MaterializeErrors(src: InputSource, numInputs: nat, numSamples: nat)
    ensures var r := Materialize(src, numInputs, numSamples);
      && (src.VecByChannel? && |src.channels| != numInputs ==>
            r == W.Err(ChannelCountMismatch(numInputs, |src.channels|)))
      && (src.VecByChannel? && |src.channels| == numInputs && !AllLengths(src.channels, numSamples) ==>
            r == W.Err(SampleCountMismatch(numSamples, MaxLen(src.channels))))
      && (src.VecByTick? && !AllLengths(src.ticks, numInputs) ==>
            r == W.Err(ChannelCountMismatch(numInputs, MaxLen(src.ticks))))
      && (src.VecByTick? && AllLengths(src.ticks, numInputs) && |src.ticks| != numSamples ==>
            r == W.Err(SampleCountMismatch(numSamples, |src.ticks|)))
      && (src.Flat? && |src.frame| != numInputs ==>
            r == W.Err(ChannelCountMismatch(numInputs, |src.frame|)))
      && (src.None? || src.Generator? ==> r.Ok?)
  {
  }

  /** Tick-major data is the transpose of channel-major data: giving the
      transpose as `VecByTick` yields the same matrix as `VecByChannel`. */
  lemma VecByTickTransposes(m: Matrix, numInputs: nat, numSamples: nat)
    requires IsMatrix(m, numInputs, numSamples)
    ensures var t := seq(numSamples, i requires 0 <= i < numSamples => seq(numInputs, ch requires 0 <= ch < numInputs => m[ch][i]));
      Materialize(VecByTick(t), numInputs, numSamples) == Materialize(VecByChannel(m), numInputs, numSamples)
  {
    var t := seq(numSamples, i requires 0 <= i < numSamples => seq(numInputs, ch requires 0 <= ch < numInputs => m[ch][i]));
    assert AllLengths(t, numInputs) && |t| == numSamples;
    var r := Materialize(VecByTick(t), numInputs, numSamples).value;
    assert |r| == |m|;
    forall ch | 0 <= ch < numInputs ensures r[ch] == m[ch] {
      assert |r[ch]| == |m[ch]|;
      forall i | 0 <= i < numSamples ensures r[ch][i] == m[ch][i] {
        assert r[ch][i] == t[i][ch];
      }
    }
    assert r == m;
  }

  /** The impulse is 1.0 at sample 0 and 0.0 after it, on every channel alike. */
  lemma ImpulseMatrix(numInputs: nat, numSamples: nat)
    ensures Materialize(Impulse(), numInputs, numSamples).Ok?
    ensures var m := Materialize(Impulse(), numInputs, numSamples).value;
      && (forall ch :: 0 <= ch < numInputs && numSamples > 0 ==> m[ch][0] == 1.0)
      && (forall ch, i :: 0 <= ch < numInputs && 0 < i < numSamples ==> m[ch][i] == 0.0)
      && (forall c1, c2 :: 0 <= c1 < numInputs && 0 <= c2 < numInputs ==> m[c1] == m[c2])
  {
  }

  // ---------------------------------------------------------------------------
  // The audio unit

  /** What the engine relies on of a fundsp `AudioUnit` whose internal state
      has type `S`. `prepare` stands for `set_sample_rate`, `reset` and
      `allocate` in that order; `tick` maps a state and an input frame to
      the next state and the output frame; `process(state, count, buffer)`
      maps a state and a `BufferVec` (one `MAX_BUFFER_SIZE`-long row per
      input channel) to the next state and what `channel_f32(ch)` then
      returns for each output channel. */
  datatype UnitSpec<!S> = UnitSpec(
    numInputs: nat,
    numOutputs: nat,
    prepare: (S, real) -> S,
    tick: (S, seq<real>) -> (S, seq<real>),
    process: (S, nat, Matrix) -> (S, Matrix))

  /** `tick` fills exactly `num_outputs` values; the output `BufferVec` has `num_outputs` channels. */
  ghost predicate WellFormed<S(!new)>(u: UnitSpec<S>) {
    && (forall s, f :: |u.tick(s, f).1| == u.numOutputs)
    && (forall s, k, b :: |u.process(s, k, b).1| == u.numOutputs)
  }

  /** The unit object that `tick` and `process` mutate. */
  class Unit<S> {
    const spec: UnitSpec<S>
    var state: S

    constructor (spec: UnitSpec<S>, initial: S)
      ensures this.spec == spec && state == initial
    {
      this.spec := spec;
      state := initial;
    }

    method Prepare(sampleRate: real)
      modifies this
      ensures state == spec.prepare(old(state), sampleRate)
    {
      state := spec.prepare(state, sampleRate);
    }

    method Tick(frame: seq<real>) returns (out: seq<real>)
      modifies this
      ensures (state, out) == spec.tick(old(state), frame)
    {
      var next;
      next, out := spec.tick(state, frame).0, spec.tick(state, frame).1;
      state := next;
    }

    method Process(count: nat, buffer: Matrix) returns (out: Matrix)
      modifies this
      ensures (state, out) == spec.process(old(state), count, buffer)
    {
      var next;
      next, out := spec.process(state, count, buffer).0, spec.process(state, count, buffer).1;
      state := next;
    }
  }

  // ---------------------------------------------------------------------------
  // Specification of the two disciplines

  /** Frame `i` of a channel-major matrix: one value per channel. */
  function Column(m: Matrix, i: nat): (f: seq<real>)
    requires forall ch :: 0 <= ch < |m| ==> i < |m[ch]|
    ensures |f| == |m| && forall ch :: 0 <= ch < |m| ==> f[ch] == m[ch][i]
  {
    seq(|m|, ch requires 0 <= ch < |m| => m[ch][i])
  }

  /** Appends one frame as a new last sample of every channel. */
  function PushFrame(out: Matrix, f: seq<real>): (r: Matrix)
    requires |f| == |out|
    ensures |r| == |out| && forall ch :: 0 <= ch < |out| ==> r[ch] == out[ch] + [f[ch]]
  {
    seq(|out|, ch requires 0 <= ch < |out| => out[ch] + [f[ch]])
  }

  /** Appends a block channel by channel. */
  function ExtendChannels(out: Matrix, block: Matrix): (r: Matrix)
    requires |block| == |out|
    ensures |r| == |out| && forall ch :: 0 <= ch < |out| ==> r[ch] == out[ch] + block[ch]
  {
    seq(|out|, ch requires 0 <= ch < |out| => out[ch] + block[ch])
  }

  function NoSamples(channels: nat): (r: Matrix)
    ensures IsMatrix(r, channels, 0)
  {
    seq(channels, _ => [])
  }

  predicate HasFrames(m: Matrix, channels: nat, n: nat) {
    |m| == channels && forall ch :: 0 <= ch < |m| ==> n <= |m[ch]|
  }

  /** The state and the outputs after ticking frames `a..e` of `m`, in
      increasing order, from state `s`. */
  function TickSpan<S(!new)>(u: UnitSpec<S>, s: S, m: Matrix, a: nat, e: nat): (r: (S, Matrix))
    requires WellFormed(u) && HasFrames(m, u.numInputs, e) && a <= e
    ensures IsMatrix(r.1, u.numOutputs, e - a)
    decreases e - a
  {
    if e == a then (s, NoSamples(u.numOutputs))
    else
      var (s1, out) := TickSpan(u, s, m, a, e - 1);
      var (s2, f) := u.tick(s1, Column(m, e - 1));
      (s2, PushFrame(out, f))
  }

  /** `Processing::Tick` over the first `n` frames. */
  function TickRun<S(!new)>(u: UnitSpec<S>, s: S, m: Matrix, n: nat): (r: (S, Matrix))
    requires WellFormed(u) && HasFrames(m, u.numInputs, n)
  {
    TickSpan(u, s, m, 0, n)
  }

  /** Output sample `i` of channel `ch` is component `ch` of the `i`-th tick's output frame. */
  lemma {:induction false} TickRunSample<S(!new)>(u: UnitSpec<S>, s: S, m: Matrix, n: nat, i: nat, ch: nat)
    requires WellFormed(u) && HasFrames(m, u.numInputs, n)
    requires i < n && ch < u.numOutputs
    ensures IsMatrix(TickRun(u, s, m, n).1, u.numOutputs, n)
    ensures var before := TickRun(u, s, m, i).0;
      TickRun(u, s, m, n).1[ch][i] == u.tick(before, Column(m, i)).1[ch]
    decreases n
  {
    if i < n - 1 {
      TickRunSample(u, s, m, n - 1, i, ch);
    }
  }

  /** Chunk `c` of `0..n` cut into pieces of `b`: it starts at `c * b`. */
  function ChunkLen(n: nat, b: nat, c: nat): (len: nat)
    requires b > 0 && c * b < n
    ensures 0 < len <= b && c * b + len <= n
  {
    if n - c * b < b then n - c * b else b
  }

  /** `slice::chunks(b)` on `0..n` yields this many chunks. */
  function NumChunks(n: nat, b: nat): (k: nat)
    requires b > 0
    ensures k * b >= n && (k > 0 ==> (k - 1) * b < n)
  {
    (n + b - 1) / b
  }

  /** The `BufferVec` handed to `process` for a chunk: frame `j < len` of
      row `ch` holds `m[ch][start + j]`; the rest of the row stays 0.0. */
  function ChunkBuffer(m: Matrix, start: nat, len: nat): (buf: Matrix)
    requires len <= MAX_BUFFER_SIZE && forall ch :: 0 <= ch < |m| ==> start + len <= |m[ch]|
    ensures IsMatrix(buf, |m|, MAX_BUFFER_SIZE)
  {
    seq(|m|, ch requires 0 <= ch < |m| =>
      seq(MAX_BUFFER_SIZE, j requires 0 <= j < MAX_BUFFER_SIZE => if j < len then m[ch][start + j] else 0.0))
  }

  /** The state and the outputs after the first `c` chunks of `Processing::Batch(b)`. */
  function BatchSpan<S(!new)>(u: UnitSpec<S>, s: S, m: Matrix, n: nat, b: nat, c: nat): (r: (S, Matrix))
    requires WellFormed(u) && HasFrames(m, u.numInputs, n)
    requires 0 < b <= MAX_BUFFER_SIZE && c <= NumChunks(n, b)
    ensures |r.1| == u.numOutputs
  {
    if c == 0 then (s, NoSamples(u.numOutputs))
    else
      ChunkEnd(n, b, c);
      var (s1, out) := BatchSpan(u, s, m, n, b, c - 1);
      var start := (c - 1) * b;
      var len := ChunkLen(n, b, c - 1);
      var (s2, block) := u.process(s1, len, ChunkBuffer(m, start, len));
      (s2, ExtendChannels(out, block))
  }

  function BatchRun<S(!new)>(u: UnitSpec<S>, s: S, m: Matrix, n: nat, b: nat): (r: (S, Matrix))
    requires WellFormed(u) && HasFrames(m, u.numInputs, n)
    requires 0 < b <= MAX_BUFFER_SIZE
  {
    BatchSpan(u, s, m, n, b, NumChunks(n, b))
  }

  /** Every chunk starts inside `0..n`, and each chunk ends where the next one starts. */
  lemma ChunksConsecutive(n: nat, b: nat, c: nat)
    requires b > 0 && c < NumChunks(n, b)
    ensures c * b < n
    ensures c + 1 < NumChunks(n, b) ==> c * b + ChunkLen(n, b, c) == (c + 1) * b
    ensures c + 1 == NumChunks(n, b) ==> c * b + ChunkLen(n, b, c) == n
  {
    var k := NumChunks(n, b);
    MulMono(c, k - 1, b);
    if c + 1 < k {
      MulMono(c + 1, k - 1, b);
    } else {
      assert (c + 1) * b >= n;
    }
  }

  /** Sample `i` lies in chunk `i / b`: the chunks cover `0..n` without gaps or overlap. */
  lemma ChunkOf(n: nat, b: nat, i: nat)
    requires b > 0 && i < n
    ensures i / b < NumChunks(n, b)
    ensures (i / b) * b <= i < (i / b) * b + ChunkLen(n, b, i / b)
  {
    var k := NumChunks(n, b);
    DivBounds(i, b);
    if i / b >= k {
      MulMono(k, i / b, b);
    }
  }

  lemma MulMono(x: nat, y: nat, b: nat)
    requires x <= y
    ensures x * b <= y * b
  {
  }

  lemma DivBounds(i: nat, b: nat)
    requires b > 0
    ensures (i / b) * b <= i < (i / b) * b + b
  {
  }

  // ---------------------------------------------------------------------------
  // Tick ≡ Batch

  /** The assumption the equivalence rests on: `process` over `k` frames
      does what `k` successive ticks over those frames do, and
      `channel_f32(ch)` then holds exactly those `k` outputs. */
  ghost predicate ProcessIsTicks<S(!new)>(u: UnitSpec<S>)
    requires WellFormed(u)
  {
    forall s, k: nat, buf: Matrix ::
      0 < k <= MAX_BUFFER_SIZE && IsMatrix(buf, u.numInputs, MAX_BUFFER_SIZE) ==>
        u.process(s, k, buf) == TickSpan(u, s, buf, 0, k)
  }

  /** Ticking `a..e` equals ticking `a..mid` and then `mid..e` from the state reached. */
  lemma {:induction false} TickSpanSplit<S(!new)>(u: UnitSpec<S>, s: S, m: Matrix, a: nat, mid: nat, e: nat)
    requires WellFormed(u) && HasFrames(m, u.numInputs, e) && a <= mid <= e
    ensures var (s1, o1) := TickSpan(u, s, m, a, mid);
      var (s2, o2) := TickSpan(u, s1, m, mid, e);
      TickSpan(u, s, m, a, e) == (s2, ExtendChannels(o1, o2))
    decreases e - mid
  {
    var (s1, o1) := TickSpan(u, s, m, a, mid);
    if e == mid {
      forall ch | 0 <= ch < |o1| ensures ExtendChannels(o1, NoSamples(u.numOutputs))[ch] == o1[ch] {
        assert o1[ch] + [] == o1[ch];
      }
      assert ExtendChannels(o1, NoSamples(u.numOutputs)) == o1;
    } else {
      TickSpanSplit(u, s, m, a, mid, e - 1);
      var (s2, o2) := TickSpan(u, s1, m, mid, e - 1);
      var (s3, f) := u.tick(s2, Column(m, e - 1));
      forall ch | 0 <= ch < |o1|
        ensures PushFrame(ExtendChannels(o1, o2), f)[ch] == ExtendChannels(o1, PushFrame(o2, f))[ch]
      {
        assert (o1[ch] + o2[ch]) + [f[ch]] == o1[ch] + (o2[ch] + [f[ch]]);
      }
      assert PushFrame(ExtendChannels(o1, o2), f) == ExtendChannels(o1, PushFrame(o2, f));
      assert TickSpan(u, s1, m, mid, e) == (s3, PushFrame(o2, f));
      assert TickSpan(u, s, m, a, e - 1) == (s2, ExtendChannels(o1, o2));
    }
  }

  /** Ticking frames `0..k` of a chunk's buffer is ticking frames `start..start+k` of the input. */
  lemma {:induction false} TickSpanBuffer<S(!new)>(u: UnitSpec<S>, s: S, m: Matrix, n: nat, start: nat, len: nat, k: nat)
    requires WellFormed(u) && HasFrames(m, u.numInputs, n)
    requires len <= MAX_BUFFER_SIZE && start + len <= n && k <= len
    ensures TickSpan(u, s, ChunkBuffer(m, start, len), 0, k) == TickSpan(u, s, m, start, start + k)
    decreases k
  {
    if k > 0 {
      TickSpanBuffer(u, s, m, n, start, len, k - 1);
      assert Column(ChunkBuffer(m, start, len), k - 1) == Column(m, start + k - 1);
    }
  }

  /** After `c` chunks, Batch has done what Tick does over the frames those chunks cover. */
  lemma BatchSpanIsTickSpan<S(!new)>(u: UnitSpec<S>, s: S, m: Matrix, n: nat, b: nat, c: nat)
    requires WellFormed(u) && HasFrames(m, u.numInputs, n)
    requires 0 < b <= MAX_BUFFER_SIZE && c <= NumChunks(n, b)
    requires ProcessIsTicks(u)
    ensures c * b <= n ==> BatchSpan(u, s, m, n, b, c) == TickSpan(u, s, m, 0, c * b)
    ensures c * b > n ==> BatchSpan(u, s, m, n, b, c) == TickSpan(u, s, m, 0, n)
  {
    BatchSpanEnd(u, s, m, n, b, c);
  }

  /** Where the first `c` chunks end: at `c * b`, or at `n` once they run past it. */
  function SpanEnd(n: nat, b: nat, c: nat): nat {
    if c * b <= n then c * b else n
  }

  lemma {:induction false} BatchSpanEnd<S(!new)>(u: UnitSpec<S>, s: S, m: Matrix, n: nat, b: nat, c: nat)
    requires WellFormed(u) && HasFrames(m, u.numInputs, n)
    requires 0 < b <= MAX_BUFFER_SIZE && c <= NumChunks(n, b)
    requires ProcessIsTicks(u)
    ensures SpanEnd(n, b, c) <= n
    ensures BatchSpan(u, s, m, n, b, c) == TickSpan(u, s, m, 0, SpanEnd(n, b, c))
    decreases c
  {
    if c > 0 {
      ChunkEnd(n, b, c);
      BatchSpanEnd(u, s, m, n, b, c - 1);
      BatchStep(u, s, m, n, b, c);
    }
  }

  /** One more chunk extends Batch's ticking by the chunk's frames. */
  lemma BatchStep<S(!new)>(u: UnitSpec<S>, s: S, m: Matrix, n: nat, b: nat, c: nat)
    requires WellFormed(u) && HasFrames(m, u.numInputs, n) && ProcessIsTicks(u)
    requires 0 < b <= MAX_BUFFER_SIZE && 0 < c <= NumChunks(n, b) && (c - 1) * b < n
    requires BatchSpan(u, s, m, n, b, c - 1) == TickSpan(u, s, m, 0, (c - 1) * b)
    ensures BatchSpan(u, s, m, n, b, c) == TickSpan(u, s, m, 0, (c - 1) * b + ChunkLen(n, b, c - 1))
  {
    var start := (c - 1) * b;
    var len := ChunkLen(n, b, c - 1);
    var (s1, out) := TickSpan(u, s, m, 0, start);
    ChunkIsTicks(u, s1, m, n, start, len);
    TickSpanSplit(u, s, m, 0, start, start + len);
  }

  /** Processing one chunk's buffer ticks through the chunk's frames. */
  lemma ChunkIsTicks<S(!new)>(u: UnitSpec<S>, s: S, m: Matrix, n: nat, start: nat, len: nat)
    requires WellFormed(u) && HasFrames(m, u.numInputs, n) && ProcessIsTicks(u)
    requires 0 < len <= MAX_BUFFER_SIZE && start + len <= n
    ensures u.process(s, len, ChunkBuffer(m, start, len)) == TickSpan(u, s, m, start, start + len)
  {
    TickSpanBuffer(u, s, m, n, start, len, len);
  }

  /** Chunk `c - 1` starts before frame `n` and ends at `c * b`, or at `n` for the short last chunk. */
  lemma ChunkEnd(n: nat, b: nat, c: nat)
    requires 0 < b && 0 < c <= NumChunks(n, b)
    ensures (c - 1) * b < n
    ensures (c - 1) * b + ChunkLen(n, b, c - 1) == SpanEnd(n, b, c)
    ensures SpanEnd(n, b, c - 1) == (c - 1) * b
  {
    var k := NumChunks(n, b);
    assert (c - 1) * b <= (k - 1) * b by {
      MulMonotone(c - 1, k - 1, b);
    }
    assert c * b == (c - 1) * b + b;
  }

  lemma MulMonotone(x: nat, y: nat, b: nat)
    requires x <= y
    ensures x * b <= y * b
  {
    assert y * b == x * b + (y - x) * b;
  }

  /** Tick ≡ Batch: for every batch size from 1 to `MAX_BUFFER_SIZE`, the
      batch discipline leaves the unit in the same state and produces the
      same output matrix as the tick discipline. */
  lemma TickBatchEquivalence<S(!new)>(u: UnitSpec<S>, s: S, m: Matrix, n: nat, b: nat)
    requires WellFormed(u) && HasFrames(m, u.numInputs, n) && ProcessIsTicks(u)
    requires 0 < b <= MAX_BUFFER_SIZE
    ensures BatchRun(u, s, m, n, b) == TickRun(u, s, m, n)
  {
    var k := NumChunks(n, b);
    BatchSpanIsTickSpan(u, s, m, n, b, k);
    if k * b <= n {
      assert k * b == n;
    }
  }

  // ---------------------------------------------------------------------------
  // The whole capture

  /** Materialise, then drive the prepared unit under `mode`: the input
      matrix and the output matrix handed on to chart generation. */
  function Capture<S(!new)>(u: UnitSpec<S>, s: S, src: InputSource, numSamples: nat, mode: Processing, sampleRate: real)
    : (r: W.Result<(S, Matrix, Matrix), SnapshotError>)
    requires WellFormed(u)
  {
    var s0 := u.prepare(s, sampleRate);
    match Materialize(src, u.numInputs, numSamples)
    case Err(e) => W.Err(e)
    case Ok(input) =>
      match mode
      case Tick =>
        var (s1, out) := TickRun(u, s0, input, numSamples);
        W.Ok((s1, input, out))
      case Batch(b) =>
        if b > MAX_BUFFER_SIZE then W.Err(BatchTooLarge(b))
        else if b == 0 then W.Err(ZeroBatchSize)
        else
          var (s1, out) := BatchRun(u, s0, input, numSamples, b);
          W.Ok((s1, input, out))
  }

  /** The batch size decides between a panic and the tick discipline's result. */
  lemma CaptureModes<S(!new)>(u: UnitSpec<S>, s: S, src: InputSource, numSamples: nat, b: u8, sampleRate: real)
    requires WellFormed(u) && ProcessIsTicks(u)
    ensures var t := Capture(u, s, src, numSamples, Tick, sampleRate);
      var r := Capture(u, s, src, numSamples, Batch(b), sampleRate);
      && (t.Err? ==> r == t)
      && (t.Ok? && b > MAX_BUFFER_SIZE ==> r == W.Err(BatchTooLarge(b)))
      && (t.Ok? && b == 0 ==> r == W.Err(ZeroBatchSize))
      && (0 < b <= MAX_BUFFER_SIZE ==> r == t)
  {
    var m := Materialize(src, u.numInputs, numSamples);
    if m.Ok? && 0 < b <= MAX_BUFFER_SIZE {
      TickBatchEquivalence(u, u.prepare(s, sampleRate), m.value, numSamples, b);
    }
  }

  /** Every output channel of a tick-mode capture holds exactly `num_samples` values. */
  lemma CaptureTickShape<S(!new)>(u: UnitSpec<S>, s: S, src: InputSource, numSamples: nat, sampleRate: real)
    requires WellFormed(u)
    ensures var r := Capture(u, s, src, numSamples, Tick, sampleRate);
      r.Ok? <==> ShapeOk(src, u.numInputs, numSamples)
    ensures var r := Capture(u, s, src, numSamples, Tick, sampleRate);
      r.Ok? ==> IsMatrix(r.value.1, u.numInputs, numSamples) && IsMatrix(r.value.2, u.numOutputs, numSamples)
  {
  }
}

module SnapshotEngine {
  import W = Wrappers
  import opened Input
  import opened Snapshot

  /** `Processing::Tick` (src/snapshot.rs:158-170): per sample, gather the
      input frame, tick the unit, push each output value onto its channel. */
  method RunTick<S(!new)>(unit: Unit<S>, input: Matrix, numSamples: nat) returns (output: Matrix)
    requires WellFormed(unit.spec) && IsMatrix(input, unit.spec.numInputs, numSamples)
    modifies unit
    ensures (unit.state, output) == TickRun(unit.spec, old(unit.state), input, numSamples)
  {
    ghost var s0 := unit.state;
    var numInputs, numOutputs := unit.spec.numInputs, unit.spec.numOutputs;
    output := seq(numOutputs, _ => []);
    for i := 0 to numSamples
      invariant (unit.state, output) == TickSpan(unit.spec, s0, input, 0, i)
    {
      var frame := seq(numInputs, _ => 0.0);
      for ch := 0 to numInputs
        invariant |frame| == numInputs
        invariant forall c :: 0 <= c < ch ==> frame[c] == input[c][i]
      {
        frame := frame[ch := input[ch][i]];
      }
      assert frame == Column(input, i);
      ghost var before := output;
      var out := unit.Tick(frame);
      for ch := 0 to numOutputs
        invariant |output| == numOutputs
        invariant forall c :: 0 <= c < ch ==> output[c] == before[c] + [out[c]]
        invariant forall c :: ch <= c < numOutputs ==> output[c] == before[c]
      {
        output := output[ch := output[ch] + [out[ch]]];
      }
      assert output == PushFrame(before, out);
    }
  }

  /** Fills a fresh `BufferVec` for the chunk `start..start+len`
      (src/snapshot.rs:179-186): `set_f32(ch, frame_index, input[ch][start + frame_index])`. */
  method FillBuffer(input: Matrix, start: nat, len: nat) returns (buf: Matrix)
    requires len <= MAX_BUFFER_SIZE && forall ch :: 0 <= ch < |input| ==> start + len <= |input[ch]|
    ensures buf == ChunkBuffer(input, start, len)
  {
    var rows := |input|;
    var a := new real[rows, MAX_BUFFER_SIZE]((_, _) => 0.0);
    for j := 0 to len
      invariant forall c, k :: 0 <= c < rows && 0 <= k < MAX_BUFFER_SIZE ==>
        a[c, k] == if k < j then input[c][start + k] else 0.0
    {
      for ch := 0 to rows
        invariant forall c, k :: 0 <= c < rows && 0 <= k < MAX_BUFFER_SIZE ==>
          a[c, k] == if k < j || (k == j && c < ch) then input[c][start + k] else 0.0
      {
        a[ch, j] := input[ch][start + j];
      }
    }
    buf := seq(rows, ch requires 0 <= ch < rows reads a =>
      seq(MAX_BUFFER_SIZE, k requires 0 <= k < MAX_BUFFER_SIZE reads a => a[ch, k]));
    ghost var spec := ChunkBuffer(input, start, len);
    forall ch | 0 <= ch < rows ensures buf[ch] == spec[ch] {
      assert forall k :: 0 <= k < MAX_BUFFER_SIZE ==> buf[ch][k] == spec[ch][k];
    }
  }

  /** `Processing::Batch(b)` with `0 < b <= MAX_BUFFER_SIZE` (src/snapshot.rs:177-195):
      per chunk, fill the input buffer, `process` it, and extend each output
      channel by what the unit left in that channel of the output buffer. */
  method RunBatch<S(!new)>(unit: Unit<S>, input: Matrix, numSamples: nat, batchSize: nat) returns (output: Matrix)
    requires WellFormed(unit.spec) && IsMatrix(input, unit.spec.numInputs, numSamples)
    requires 0 < batchSize <= MAX_BUFFER_SIZE
    modifies unit
    ensures (unit.state, output) == BatchRun(unit.spec, old(unit.state), input, numSamples, batchSize)
  {
    ghost var s0 := unit.state;
    var numOutputs := unit.spec.numOutputs;
    output := seq(numOutputs, _ => []);
    for c := 0 to NumChunks(numSamples, batchSize)
      invariant (unit.state, output) == BatchSpan(unit.spec, s0, input, numSamples, batchSize, c)
    {
      ChunksConsecutive(numSamples, batchSize, c);
      var start := c * batchSize;
      var len := ChunkLen(numSamples, batchSize, c);
      var buf := FillBuffer(input, start, len);
      ghost var before := output;
      var block := unit.Process(len, buf);
      for ch := 0 to numOutputs
        invariant |output| == numOutputs
        invariant forall k :: 0 <= k < ch ==> output[k] == before[k] + block[k]
        invariant forall k :: ch <= k < numOutputs ==> output[k] == before[k]
      {
        output := output[ch := output[ch] + block[ch]];
      }
      assert output == ExtendChannels(before, block);
    }
  }

  /** `snapshot_audio_unit_with_input_and_options` up to chart generation
      (src/snapshot.rs:91-197): prepare the unit, materialise the input,
      check the batch size, run the chosen discipline. Returns the input and
      output matrices that are handed to chart generation. */
  method SnapshotAudioUnit<S(!new)>(unit: Unit<S>, src: InputSource, numSamples: nat, mode: Processing, sampleRate: real)
    returns (r: W.Result<(Matrix, Matrix), SnapshotError>)
    requires WellFormed(unit.spec)
    modifies unit
    ensures var c := Capture(unit.spec, old(unit.state), src, numSamples, mode, sampleRate);
      && (r.Err? <==> c.Err?)
      && (c.Err? ==> r.error == c.error)
      && (c.Ok? ==> r.value == (c.value.1, c.value.2) && unit.state == c.value.0)
  {
    unit.Prepare(sampleRate);
    var m := Materialize(src, unit.spec.numInputs, numSamples);
    if m.Err? {
      return W.Err(m.error);
    }
    var input := m.value;
    var output;
    match mode {
      case Tick =>
        output := RunTick(unit, input, numSamples);
      case Batch(b) =>
        if b > MAX_BUFFER_SIZE {
          return W.Err(BatchTooLarge(b));
        }
        if b == 0 {
          return W.Err(ZeroBatchSize);
        }
        output := RunBatch(unit, input, numSamples, b);
    }
    r := W.Ok((input, output));
  }
}
