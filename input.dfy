/** The declarative description of a unit's input (src/input.rs). */
module Input {

  /** A block of samples stored channel by channel: `m[ch][i]` is sample `i` of channel `ch`. */
  type Matrix = seq<seq<real>>

  /** `m` has `rows` channels of `cols` samples each. */
  predicate IsMatrix(m: Matrix, rows: nat, cols: nat) {
    |m| == rows && forall ch :: 0 <= ch < |m| ==> |m[ch]| == cols
  }

  datatype InputSource =
    | None
      /** Outer sequence: channels; inner sequence: the samples of that channel. */
    | VecByChannel(channels: seq<seq<real>>)
      /** Outer sequence: ticks; inner sequence: one sample per channel at that tick. */
    | VecByTick(ticks: seq<seq<real>>)
      /** One sample per channel for a single tick, repeated on every tick. */
    | Flat(frame: seq<real>)
      /** `gen(sample index, channel index)`. */
    | Generator(gen: (nat, nat) -> real)

  /** `InputSource::impulse()`: 1.0 at the first sample of every channel, silence after. */
  function Impulse(): (src: InputSource)
    ensures src.Generator?
    ensures forall ch: nat :: src.gen(0, ch) == 1.0
    ensures forall i: nat, ch: nat :: i > 0 ==> src.gen(i, ch) == 0.0
    ensures forall i: nat, c1: nat, c2: nat :: src.gen(i, c1) == src.gen(i, c2)
  {
    Generator((i: nat, _: nat) => if i == 0 then 1.0 else 0.0)
  }
}
