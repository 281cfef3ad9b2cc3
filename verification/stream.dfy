/** The input file as libsndfile presents it to the processing loop: interleaved
    frames read in blocks.  A read past the end of the file delivers the frames
    that remain and fills the rest of the request with zeros. */
module Stream {
  import opened Arith

  datatype Stream = Stream(samples: seq<real>, channels: nat, frames: nat)
  {
    ghost predicate Valid()
    {
      0 < channels && |samples| == Samples(frames, channels)
    }
  }

  /** The interleaved sample at a flat offset, or silence past the end. */
  function SampleAt(s: seq<real>, k: nat): real
  {
    if k < |s| then s[k] else 0.0
  }

  /** The len frames from frame `start` on, interleaved, zero past the end. */
  function Window(st: Stream, start: nat, len: nat): (w: seq<real>)
    ensures |w| == Samples(len, st.channels)
  {
    seq(Samples(len, st.channels), k requires 0 <= k < Samples(len, st.channels) =>
      SampleAt(st.samples, Samples(start, st.channels) + k))
  }

  /** Sample i of frame j of a window is sample i of frame start + j of the file,
      or zero once that frame lies past the last one. */
  lemma WindowFrames(st: Stream, start: nat, len: nat, j: nat, i: nat)
    requires st.Valid() && j < len && i < st.channels
    ensures FrameIndex(j, st.channels, i) < |Window(st, start, len)|
    ensures start + j < st.frames ==>
              && FrameIndex(start + j, st.channels, i) < |st.samples|
              && Window(st, start, len)[FrameIndex(j, st.channels, i)] == st.samples[FrameIndex(start + j, st.channels, i)]
    ensures st.frames <= start + j ==> Window(st, start, len)[FrameIndex(j, st.channels, i)] == 0.0
  {
    var n := st.channels;
    var idx := FrameIndex(j, n, i);
    var off := FrameIndex(start + j, n, i);
    InterleavedIndex(j, i, n, len);
    FrameOffset(start, j, n, i);
    WindowAt(st, start, len, idx);
    if start + j < st.frames {
      InterleavedIndex(start + j, i, n, st.frames);
      assert off < |st.samples|;
    } else {
      FrameIndexPastEnd(start + j, n, i, st.frames);
      assert off >= |st.samples|;
    }
  }

  lemma WindowAt(st: Stream, start: nat, len: nat, k: nat)
    requires k < Samples(len, st.channels)
    ensures Window(st, start, len)[k] == SampleAt(st.samples, Samples(start, st.channels) + k)
  {
  }

  /** Two adjacent windows put together are one window. */
  lemma WindowConcat(st: Stream, start: nat, a: nat, b: nat)
    ensures Window(st, start, a) + Window(st, start + a, b) == Window(st, start, a + b)
  {
    var n := st.channels;
    SamplesAdd(a, b, n);
    SamplesAdd(start, a, n);
  }

  /** The first a frames of a window of a + b frames, and the b frames after them. */
  lemma WindowSplit(st: Stream, start: nat, a: nat, b: nat)
    ensures Samples(a + b, st.channels) == Samples(a, st.channels) + Samples(b, st.channels)
    ensures Window(st, start, a + b)[..Samples(a, st.channels)] == Window(st, start, a)
    ensures Window(st, start, a + b)[Samples(a, st.channels)..] == Window(st, start + a, b)
  {
    SamplesAdd(a, b, st.channels);
    WindowConcat(st, start, a, b);
  }

  /** Every window that begins at or past the end of the file is silence. */
  lemma WindowPastEnd(st: Stream, start: nat, len: nat)
    requires st.Valid() && st.frames <= start
    ensures forall k :: 0 <= k < |Window(st, start, len)| ==> Window(st, start, len)[k] == 0.0
  {
    SamplesMonotone(st.frames, start, st.channels);
    var w := Window(st, start, len);
    forall k | 0 <= k < |w|
      ensures w[k] == 0.0
    {
      assert w[k] == SampleAt(st.samples, Samples(start, st.channels) + k);
    }
  }

  /** A read position clamped to the end of the file reads the same as the
      unclamped one. */
  lemma ClampedWindow(st: Stream, start: nat, len: nat)
    requires st.Valid()
    ensures Window(st, Clamp(start, st.frames), len) == Window(st, start, len)
  {
    if st.frames < start {
      WindowPastEnd(st, start, len);
      WindowPastEnd(st, st.frames, len);
    }
  }

  function Clamp(x: nat, bound: nat): (r: nat)
    ensures r <= x && r <= bound && (r == x || r == bound)
  {
    if x <= bound then x else bound
  }

  datatype Read = Read(data: seq<real>, count: nat)

  /** sf_readf_double of n frames at frame `pos`: the window from pos and the
      number of frames that were actually in the file. */
  function ReadFrames(st: Stream, pos: nat, n: nat): (r: Read)
    ensures r.data == Window(st, pos, n)
    ensures r.count <= n
    ensures pos + n <= st.frames ==> r.count == n
    ensures st.frames < pos + n ==> r.count == st.frames - Clamp(pos, st.frames)
  {
    Read(Window(st, pos, n), if pos + n <= st.frames then n else st.frames - Clamp(pos, st.frames))
  }
}
