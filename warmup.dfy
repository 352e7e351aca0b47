/** Warm-up planning (src/warmup.rs): how many samples of which input are
    prepared to settle a unit before capture. */
module Warmup {
  import W = Wrappers
  import I = Input
  import Snapshot
  import Text

  /** `Rc<RefCell<InputSource>>`: an input description shared by reference. */
  class SharedInput {
    var source: I.InputSource

    constructor (source: I.InputSource)
      ensures this.source == source
    {
      this.source := source;
    }
  }

  /** An `f64` by class: a finite value, NaN, or an infinity with its sign.
      Finite values are exact reals; rounding is not modelled. */
  datatype F64 = Finite(value: real) | NaN | Infinity(negative: bool)

  datatype WarmUp =
    | None
    | Samples(samples: nat)
    | Seconds(seconds: F64)
    | SamplesWithInput(samples: nat, input: SharedInput)

  const USIZE_MAX: nat := 0xFFFF_FFFF_FFFF_FFFF

  predicate IsNegative(x: F64) {
    match x
    case Finite(v) => v < 0.0
    case NaN => false
    case Infinity(neg) => neg
  }

  /** IEEE 754 multiplication by class: NaN spreads, infinity times zero is
      NaN, and an infinite product takes the sign of the operands. */
  function Mul(a: F64, b: F64): (r: F64)
    ensures r.NaN? <==> a.NaN? || b.NaN? || (a.Infinity? && b == Finite(0.0)) || (b.Infinity? && a == Finite(0.0))
    ensures a.Finite? && b.Finite? ==> r == Finite(a.value * b.value)
    ensures r.Infinity? <==> !r.NaN? && (a.Infinity? || b.Infinity?)
    ensures r.Infinity? ==> r.negative == (IsNegative(a) != IsNegative(b))
  {
    match (a, b)
    case (NaN, _) => NaN
    case (_, NaN) => NaN
    case (Finite(x), Finite(y)) => Finite(x * y)
    case (Finite(x), Infinity(n)) => if x == 0.0 then NaN else Infinity(n != (x < 0.0))
    case (Infinity(n), Finite(y)) => if y == 0.0 then NaN else Infinity(n != (y < 0.0))
    case (Infinity(n), Infinity(m)) => Infinity(n != m)
  }

  /** Rust's `x as usize` for an `f64` on a 64-bit target: truncation toward
      zero, NaN and values at or below 0 give 0, values past the range
      (and +infinity) saturate at `usize::MAX`. */
  function AsUsize(x: F64): (r: nat)
    ensures r <= USIZE_MAX
    ensures x.NaN? ==> r == 0
    ensures x.Infinity? ==> r == if x.negative then 0 else USIZE_MAX
    ensures x.Finite? && x.value <= 0.0 ==> r == 0
    ensures x.Finite? && 0.0 <= x.value < (USIZE_MAX + 1) as real ==> r as real <= x.value < r as real + 1.0
    ensures x.Finite? && x.value >= (USIZE_MAX + 1) as real ==> r == USIZE_MAX
  {
    match x
    case NaN => 0
    case Infinity(neg) => if neg then 0 else USIZE_MAX
    case Finite(v) =>
      if v <= 0.0 then 0
      else if v >= (USIZE_MAX + 1) as real then USIZE_MAX
      else v.Floor
  }

  /** The sample count `warm_up_samples` selects (src/warmup.rs:37-42). */
  function WarmUpCount(w: WarmUp, sampleRate: F64): (n: nat)
  {
    match w
    case None => 0
    case Samples(k) => k
    case Seconds(s) => AsUsize(Mul(s, sampleRate))
    case SamplesWithInput(k, _) => k
  }

  /** The input source `warm_up_samples` reads: the caller's shared one for
      `SamplesWithInput`, silence otherwise. */
  function WarmUpSource(w: WarmUp): (src: I.InputSource)
    reads if w.SamplesWithInput? then {w.input} else {}
  {
    if w.SamplesWithInput? then w.input.source else I.None
  }

  /** What each variant selects. For `Seconds`, a NaN duration or rate, a
      non-positive product, -infinity, or infinity times zero give 0, and
      +infinity saturates. */
  lemma WarmUpSelection(w: WarmUp, sampleRate: F64)
    ensures w.None? ==> WarmUpCount(w, sampleRate) == 0
    ensures w.Samples? ==> WarmUpCount(w, sampleRate) == w.samples
    ensures w.SamplesWithInput? ==> WarmUpCount(w, sampleRate) == w.samples
    ensures w.Seconds? && (w.seconds.NaN? || sampleRate.NaN?) ==> WarmUpCount(w, sampleRate) == 0
    ensures w.Seconds? && w.seconds.Infinity? && sampleRate.Finite? && sampleRate.value > 0.0 ==>
      WarmUpCount(w, sampleRate) == if w.seconds.negative then 0 else USIZE_MAX
    ensures w.Seconds? && w.seconds.Infinity? && sampleRate == Finite(0.0) ==> WarmUpCount(w, sampleRate) == 0
    ensures w.Seconds? && w.seconds.Finite? && sampleRate.Finite? && w.seconds.value * sampleRate.value <= 0.0 ==>
      WarmUpCount(w, sampleRate) == 0
    ensures w.Seconds? && w.seconds.Finite? && sampleRate.Finite? &&
            0.0 <= w.seconds.value * sampleRate.value < (USIZE_MAX + 1) as real ==>
      var n := WarmUpCount(w, sampleRate);
      n as real <= w.seconds.value * sampleRate.value < n as real + 1.0
  {
  }

  /** `Seconds` truncates rather than rounds: 0.99 s at 1 Hz warms up for no
      sample at all; a negative or NaN duration warms up for none either. */
  lemma SecondsTruncates()
    ensures WarmUpCount(Seconds(Finite(0.99)), Finite(1.0)) == 0
    ensures WarmUpCount(Seconds(Finite(1.5)), Finite(44100.0)) == 66150
    ensures WarmUpCount(Seconds(Finite(-2.0)), Finite(44100.0)) == 0
    ensures WarmUpCount(Seconds(NaN), Finite(44100.0)) == 0
    ensures WarmUpCount(Seconds(Infinity(false)), Finite(44100.0)) == USIZE_MAX
  {
  }

  /** `warm_up_samples` up to `make_data` (src/warmup.rs:36-46): pick the
      count and the (possibly shared) source. For `SamplesWithInput` the
      returned source is the caller's object itself, not a copy. */
  method SelectWarmUp(w: WarmUp, sampleRate: F64) returns (count: nat, input: SharedInput)
    ensures count == WarmUpCount(w, sampleRate)
    ensures w.SamplesWithInput? ==> input == w.input
    ensures !w.SamplesWithInput? ==> fresh(input) && input.source == I.None
  {
    var noneInput := new SharedInput(I.None);
    match w {
      case None => count, input := 0, noneInput;
      case Samples(k) => count, input := k, noneInput;
      case Seconds(s) => count, input := AsUsize(Mul(s, sampleRate)), noneInput;
      case SamplesWithInput(k, shared) => count, input := k, shared;
    }
  }

  /** The warm-up data: the selected source materialised, like the capture's
      input, as `num_inputs` channels of the selected count. */
  method WarmUpSamples(w: WarmUp, sampleRate: F64, numInputs: nat)
    returns (data: W.Result<I.Matrix, Snapshot.SnapshotError>)
    ensures data == Snapshot.Materialize(WarmUpSource(w), numInputs, WarmUpCount(w, sampleRate))
    ensures data.Ok? ==> I.IsMatrix(data.value, numInputs, WarmUpCount(w, sampleRate))
  {
    var count, input := SelectWarmUp(w, sampleRate);
    data := Snapshot.Materialize(input.source, numInputs, count);
  }

  /** The `Debug` text (src/warmup.rs:23-33). `formatF64` is Rust's `Debug`
      for `f64`, which the model leaves abstract. */
  function DebugString(w: WarmUp, formatF64: F64 -> string): string
  {
    match w
    case None => "None"
    case Samples(k) => "Samples(" + Text.NatToString(k) + ")"
    case Seconds(s) => "Seconds(" + formatF64(s) + ")"
    case SamplesWithInput(k, _) => "SamplesWithInput { Samples: " + Text.NatToString(k) + " }"
  }

  /** `SamplesWithInput` writes its sample count and nothing of its input:
      the text depends on the count alone, and different counts render differently. */
  lemma DebugOmitsInput(j: nat, k: nat, x: SharedInput, y: SharedInput, formatF64: F64 -> string)
    ensures DebugString(SamplesWithInput(k, x), formatF64) == DebugString(SamplesWithInput(k, y), formatF64)
    ensures DebugString(SamplesWithInput(j, x), formatF64) == DebugString(SamplesWithInput(k, x), formatF64) <==> j == k
  {
    var pre := "SamplesWithInput { Samples: ";
    var dj := DebugString(SamplesWithInput(j, x), formatF64);
    var dk := DebugString(SamplesWithInput(k, x), formatF64);
    if dj == dk {
      var sj, sk := Text.NatToString(j), Text.NatToString(k);
      assert dj[|pre|..|dj| - 2] == sj;
      assert dk[|pre|..|dk| - 2] == sk;
      Text.NatToStringInjective(j, k);
    }
  }
}
