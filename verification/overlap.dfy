/** The overlap-add reconstruction of at_audio_processor (src/dsp.c): how the
    window splits into an overlap and a slide, and what the per-slot loop, which
    adds the carried tail into the frame and refills the tail from the frame
    shifted by the overlap, leaves behind. */
module Overlap {

  /** noverlap frames are shared with the next window; nslide are new. */
  datatype Split = Split(noverlap: nat, nslide: nat)

  /** noverlap = floor(window * overlap / 100) and nslide = window - noverlap. */
  function OverlapSizes(window: nat, overlap: nat): (s: Split)
    requires overlap < 100
    ensures s.noverlap + s.nslide == window
    ensures s.noverlap * 100 <= window * overlap < (s.noverlap + 1) * 100
    ensures 1 <= window ==> 1 <= s.nslide
  {
    var nov := window * overlap / 100;
    assert nov * 100 <= window * overlap;
    assert window * overlap <= window * 99 by {
      assert window * 99 - window * overlap == window * (99 - overlap);
    }
    Split(nov, window - nov)
  }

  /** Frame and tail after one overlap-add pass over a slot. */
  datatype Overlapped = Overlapped(frame: seq<real>, tail: seq<real>)

  /** The reference meaning of the pass: the first nslide samples gain the tail;
      the new tail is the frame shifted by noverlap as it was before the pass, except
      that with no overlap the shift is zero and the tail takes the summed samples. */
  function OverlapAdd(frame: seq<real>, tail: seq<real>, noverlap: nat, nslide: nat): (r: Overlapped)
    requires |tail| == nslide && noverlap + nslide <= |frame|
    ensures |r.frame| == |frame| && |r.tail| == nslide
  {
    Overlapped(
      seq(|frame|, k requires 0 <= k < |frame| => if k < nslide then frame[k] + tail[k] else frame[k]),
      seq(nslide, k requires 0 <= k < nslide => if noverlap == 0 then frame[k] + tail[k] else frame[k + noverlap]))
  }

  /** The C loop over one slot, updating the frame and the tail buffer in place. Reading
      td[j + noverlap] before that sample is itself updated is what makes the tail
      hold unsummed samples whenever noverlap > 0. */
  method OverlapAddInPlace(frame: seq<real>, tail: seq<real>, noverlap: nat, nslide: nat)
    returns (f: seq<real>, t: seq<real>)
    requires |tail| == nslide && noverlap + nslide <= |frame|
    ensures |f| == |frame| && |t| == nslide
    ensures forall k :: 0 <= k < nslide ==> f[k] == frame[k] + tail[k]
    ensures forall k :: nslide <= k < |frame| ==> f[k] == frame[k]
    ensures forall k :: 0 <= k < nslide && 0 < noverlap ==> t[k] == frame[k + noverlap]
    ensures forall k :: 0 <= k < nslide && noverlap == 0 ==> t[k] == f[k]
    ensures Overlapped(f, t) == OverlapAdd(frame, tail, noverlap, nslide)
  {
    var td, carry := frame, tail;
    var j := 0;
    while j < nslide
      invariant 0 <= j <= nslide && |td| == |frame| && |carry| == nslide
      invariant forall k :: 0 <= k < j ==> td[k] == frame[k] + tail[k]
      invariant forall k :: j <= k < |frame| ==> td[k] == frame[k]
      invariant forall k :: 0 <= k < j ==> carry[k] == if noverlap == 0 then frame[k] + tail[k] else frame[k + noverlap]
      invariant forall k :: j <= k < nslide ==> carry[k] == tail[k]
    {
      td := td[j := td[j] + carry[j]];
      carry := carry[j := td[j + noverlap]];
      j := j + 1;
    }
    f, t := td, carry;
    var r := OverlapAdd(frame, tail, noverlap, nslide);
    assert f == r.frame;
    assert t == r.tail;
  }

  /** The tail carried past a sequence of frames, starting from `tail`. */
  function CarriedTail(frames: seq<seq<real>>, tail: seq<real>, noverlap: nat, nslide: nat): (t: seq<real>)
    requires |tail| == nslide
    requires forall i :: 0 <= i < |frames| ==> noverlap + nslide <= |frames[i]|
    ensures |t| == nslide
  {
    if |frames| == 0 then tail
    else
      var before := CarriedTail(frames[..|frames| - 1], tail, noverlap, nslide);
      OverlapAdd(frames[|frames| - 1], before, noverlap, nslide).tail
  }

  /** Sample k summed over a sequence of frames. */
  function ColumnSum(frames: seq<seq<real>>, k: nat): real
    requires forall i :: 0 <= i < |frames| ==> k < |frames[i]|
  {
    if |frames| == 0 then 0.0 else ColumnSum(frames[..|frames| - 1], k) + frames[|frames| - 1][k]
  }

  /** Without overlap the tail never resets: starting from silence, after any number
      of frames it holds the running sum of every frame so far, and so the next
      emitted frame adds that whole history to its own samples. */
  lemma {:induction false} RunningSumWithoutOverlap(frames: seq<seq<real>>, nslide: nat)
    requires forall i :: 0 <= i < |frames| ==> nslide <= |frames[i]|
    ensures forall k :: 0 <= k < nslide ==>
              CarriedTail(frames, seq(nslide, _ => 0.0), 0, nslide)[k] == ColumnSum(frames, k)
  {
    if |frames| > 0 {
      var init := frames[..|frames| - 1];
      RunningSumWithoutOverlap(init, nslide);
      forall k | 0 <= k < nslide
        ensures CarriedTail(frames, seq(nslide, _ => 0.0), 0, nslide)[k] == ColumnSum(frames, k)
      {
        var before := CarriedTail(init, seq(nslide, _ => 0.0), 0, nslide);
        assert before[k] == ColumnSum(init, k);
      }
    }
  }

  /** With overlap the tail forgets its history: it is the previous frame shifted by
      noverlap, so each emitted sample is the sum of exactly two windowed frames. */
  lemma TailWithOverlapIsPreviousFrame(prev: seq<real>, next: seq<real>, tail: seq<real>,
                                         noverlap: nat, nslide: nat)
    requires 0 < noverlap && |tail| == nslide
    requires noverlap + nslide <= |prev| && noverlap + nslide <= |next|
    ensures var t := OverlapAdd(prev, tail, noverlap, nslide).tail;
      forall k :: 0 <= k < nslide ==> OverlapAdd(next, t, noverlap, nslide).frame[k] == next[k] + prev[k + noverlap]
  {
  }
}
