/** Abnormal samples (src/abnormal.rs): their classification, display
    strings, and the red markers drawn for them on a chart. */
module Abnormal {
  import W = Wrappers

  datatype AbnormalSample = Nan | NegInf | PosInf

  /** An `f32` as far as classification sees it. */
  datatype F32 = Finite(value: real) | NaN | Infinity(negative: bool)

  /** `Display`: the text written next to a marker. */
  function Display(ab: AbnormalSample): (s: string)
    ensures |s| >= 1
    ensures s[0] == 'N' <==> ab == Nan
    ensures s[0] == '-' <==> ab == NegInf
  {
    match ab
    case Nan => "NaN"
    case NegInf => "-\U{221E}"
    case PosInf => "\U{221E}"
  }

  /** The three display strings are distinct. */
  lemma DisplayInjective(a: AbnormalSample, b: AbnormalSample)
    ensures Display(a) == Display(b) <==> a == b
  {
  }

  /** `From<f32>`: only defined on non-finite values (a finite one is unreachable). */
  function Classify(x: F32): (ab: AbnormalSample)
    requires !x.Finite?
    ensures ab == Nan <==> x.NaN?
    ensures ab == NegInf <==> x == Infinity(true)
    ensures ab == PosInf <==> x == Infinity(false)
  {
    if x.NaN? then Nan
    else if x.negative then NegInf
    else PosInf
  }

  /** A float that classifies to `ab`. */
  function Representative(ab: AbnormalSample): (x: F32)
    ensures !x.Finite?
  {
    match ab
    case Nan => NaN
    case NegInf => Infinity(true)
    case PosInf => Infinity(false)
  }

  lemma ClassifyRepresentative(ab: AbnormalSample)
    ensures Classify(Representative(ab)) == ab
  {
  }

  /** The y coordinate of a marker for `ab` on a chart spanning `yMin..yMax`. */
  function MarkerY(ab: AbnormalSample, yMin: real, yMax: real): (y: real)
    ensures ab == Nan ==> y == 0.0
    ensures ab == NegInf ==> y <= -1.0 && y <= yMin && (y == yMin || y == -1.0)
    ensures ab == PosInf ==> y >= 1.0 && y >= yMax && (y == yMax || y == 1.0)
  {
    match ab
    case Nan => 0.0
    case NegInf => if yMin < -1.0 then yMin else -1.0
    case PosInf => if yMax > 1.0 then yMax else 1.0
  }

  /** The marker text, chosen from the sign of the marker's y. */
  function LabelAt(y: real): string {
    if y == 0.0 then Display(Nan)
    else if y < 0.0 then Display(NegInf)
    else Display(PosInf)
  }

  /** The text offset, chosen from the sign of the marker's y. */
  function OffsetAt(y: real): (int, int) {
    if y == 0.0 then (0, -5)
    else if y < 0.0 then (0, 15)
    else (0, -15)
  }

  /** The offset each kind of sample is meant to get: above for NaN and +inf, below for -inf. */
  function OffsetOf(ab: AbnormalSample): (o: (int, int))
    ensures o.0 == 0
    ensures ab == NegInf <==> o.1 > 0
  {
    match ab
    case Nan => (0, -5)
    case NegInf => (0, 15)
    case PosInf => (0, -15)
  }

  /** Placing a marker and reading its label back from the sign of y recovers
      the classification, whatever the chart's y bounds. */
  lemma MarkerLabelRoundTrip(ab: AbnormalSample, yMin: real, yMax: real)
    ensures LabelAt(MarkerY(ab, yMin, yMax)) == Display(ab)
    ensures OffsetAt(MarkerY(ab, yMin, yMax)) == OffsetOf(ab)
  {
  }

  datatype Marker = Marker(x: nat, y: real, text: string, offset: (int, int))

  /** All channels' abnormalities, channel after channel. */
  function Pool(lists: seq<seq<(nat, AbnormalSample)>>): (p: seq<(nat, AbnormalSample)>)
    ensures lists == [] ==> p == []
  {
    if lists == [] then [] else lists[0] + Pool(lists[1..])
  }

  /** Number of pooled entries before channel `k`. */
  function PoolOffset(lists: seq<seq<(nat, AbnormalSample)>>, k: nat): nat
    requires k <= |lists|
  {
    if k == 0 then 0 else PoolOffset(lists, k - 1) + |lists[k - 1]|
  }

  /** Entry `j` of channel `k` sits at `PoolOffset(k) + j` of the pool:
      channel order first, then each channel's own order. */
  lemma {:induction false} PoolIndex(lists: seq<seq<(nat, AbnormalSample)>>, k: nat, j: nat)
    requires k < |lists| && j < |lists[k]|
    ensures PoolOffset(lists, k) + j < |Pool(lists)|
    ensures Pool(lists)[PoolOffset(lists, k) + j] == lists[k][j]
  {
    if k == 0 {
    } else {
      PoolIndex(lists[1..], k - 1, j);
      PoolOffsetTail(lists, k);
    }
  }

  lemma {:induction false} PoolOffsetTail(lists: seq<seq<(nat, AbnormalSample)>>, k: nat)
    requires 0 < k <= |lists|
    ensures PoolOffset(lists, k) == |lists[0]| + PoolOffset(lists[1..], k - 1)
  {
    if k > 1 {
      PoolOffsetTail(lists, k - 1);
    }
  }

  /** The pool holds every entry: its length is the sum of the channel lengths. */
  lemma {:induction false} PoolLength(lists: seq<seq<(nat, AbnormalSample)>>)
    ensures |Pool(lists)| == PoolOffset(lists, |lists|)
  {
    if lists != [] {
      PoolLength(lists[1..]);
      PoolOffsetTail(lists, |lists|);
    }
  }

  /** The pool is empty exactly when every channel's list is. */
  lemma {:induction false} PoolEmpty(lists: seq<seq<(nat, AbnormalSample)>>)
    ensures Pool(lists) == [] <==> forall k :: 0 <= k < |lists| ==> lists[k] == []
  {
    if lists != [] {
      PoolEmpty(lists[1..]);
      assert forall k :: 1 <= k < |lists| ==> lists[k] == lists[1..][k - 1];
    }
  }

  function MarkerFor(e: (nat, AbnormalSample), yMin: real, yMax: real): Marker {
    var y := MarkerY(e.1, yMin, yMax);
    Marker(e.0, y, LabelAt(y), OffsetAt(y))
  }

  /** `abnormal_smaples_series`: `None` when no series is drawn at all,
      otherwise the markers of the pooled abnormalities. */
  function Markers(lists: seq<seq<(nat, AbnormalSample)>>, yMin: real, yMax: real): (r: W.Option<seq<Marker>>)
    ensures r.Some? ==> |r.value| == |Pool(lists)|
  {
    if exists k :: 0 <= k < |lists| && lists[k] != [] then
      var p := Pool(lists);
      W.Some(seq(|p|, i requires 0 <= i < |p| => MarkerFor(p[i], yMin, yMax)))
    else W.None
  }

  /** A series is drawn exactly when there is something to mark; each marker
      sits at its sample index (not shifted by the chart's start), at its
      classification's sentinel height, and is labelled with that
      classification. */
  lemma MarkersMeaning(lists: seq<seq<(nat, AbnormalSample)>>, yMin: real, yMax: real)
    ensures Markers(lists, yMin, yMax).Some? <==> Pool(lists) != []
    ensures Markers(lists, yMin, yMax).Some? ==>
      forall i :: 0 <= i < |Pool(lists)| ==>
        && Markers(lists, yMin, yMax).value[i].x == Pool(lists)[i].0
        && Markers(lists, yMin, yMax).value[i].y == MarkerY(Pool(lists)[i].1, yMin, yMax)
        && Markers(lists, yMin, yMax).value[i].text == Display(Pool(lists)[i].1)
        && Markers(lists, yMin, yMax).value[i].offset == OffsetOf(Pool(lists)[i].1)
  {
    PoolEmpty(lists);
    forall ab: AbnormalSample {
      MarkerLabelRoundTrip(ab, yMin, yMax);
    }
  }
}
