/** at_audio_processor (src/dsp.c): the block loop that reads overlapping windows
    from the input file, upmixes, filters and re-synthesises them slot by slot,
    joins neighbouring windows by overlap-add and writes nslide frames per pass. */
module Engine {
  import opened Errors
  import opened Numerics
  import opened Arith
  import opened Fft
  import opened Sizing
  import opened Channels
  import opened Dsp
  import opened Overlap
  import opened Stream
  import opened Config

  /** Everything the loop uses that is fixed before the first read. */
  datatype Setup = Setup(window: nat, fft: nat, noverlap: nat, nslide: nat,
                         inputChannels: nat, outChannels: nat, lfeOnly: bool, volume: real, samplerate: int)
  {
    ghost predicate Valid()
    {
      && window == noverlap + nslide && 1 <= nslide
      && 2 <= fft && window <= fft
      && 1 <= inputChannels && 1 <= outChannels <= MaxChannels
      && 0 < samplerate
    }
  }

  /** The sizes the processor derives from the configuration and the input rate:
      window and FFT size from the sizing loop started with no FFT size, and the
      overlap split of that window. */
  function MakeSetup(cfg: Info, inputChannels: nat, samplerate: nat): (s: Setup)
    requires 0 <= cfg.frameDuration && cfg.frameDuration * samplerate <= IntMax
    requires 0 <= cfg.overlap < 100 && 0 <= cfg.outChannels
    ensures s.fft == 0 <==> s.window == 0
    ensures 1 <= s.window ==> 2 * s.window <= s.fft <= FftMax
    ensures s.noverlap + s.nslide == s.window && (1 <= s.window ==> 1 <= s.nslide)
    ensures 1 <= s.window && 1 <= inputChannels && 1 <= cfg.outChannels <= MaxChannels && 0 < samplerate ==> s.Valid()
  {
    var sizes := CalcWindowAndFftSize(cfg.frameDuration, samplerate, 0);
    assert 1 <= sizes.window ==> 2 * sizes.window <= sizes.fft by {
      if sizes.window >= 1 {
        OptimalFftSizeBounds(sizes.window);
      }
    }
    var split := OverlapSizes(sizes.window, cfg.overlap);
    Setup(sizes.window, sizes.fft, split.noverlap, split.nslide,
          inputChannels, cfg.outChannels, cfg.lfeOnly, cfg.volume, samplerate)
  }

  /** The time-domain container and the overlap tails carried from pass to pass. */
  datatype Slots = Slots(td: Container, tails: Container)

  ghost predicate SlotsFit(sl: Slots, s: Setup)
  {
    && sl.td.Valid() && sl.td.length == s.window && sl.td.samplerate == s.samplerate
    && sl.tails.Valid() && sl.tails.length == s.nslide
  }

  /** Both containers as at_allocate_buffer leaves them: all zero. */
  function InitialSlots(s: Setup): (sl: Slots)
    requires s.Valid()
    ensures SlotsFit(sl, s)
  {
    Slots(AllocateBuffer(s.outChannels, s.window, s.samplerate).value,
          AllocateBuffer(s.outChannels, s.nslide, s.samplerate).value)
  }

  /** Forward transform of a windowed slot and the inverse written back over it. */
  function Resynthesise(x: seq<real>, s: Setup, nx: Numerics): (y: seq<real>)
    requires s.Valid() && |x| == s.window
    ensures |y| == s.window
  {
    ComputeIfft(ComputeFft(x, s.window, s.fft, nx), s.window, s.fft, nx, x)
  }

  /** Everything between separation and combination: upmix, gain when the volume is
      not exactly 1.0, Hamming window, transform round trip and overlap-add, the last
      two independently for each of the six slots. */
  function ProcessSlots(sep: Container, tails: Container, s: Setup, nx: Numerics): (r: Slots)
    requires s.Valid() && SlotsFit(Slots(sep, tails), s)
    ensures SlotsFit(r, s)
  {
    var up := InterleaveAudio(sep, s.inputChannels, s.fft, nx);
    var gained := if s.volume != 1.0 then AudioGain(up, s.volume) else up;
    var windowed := ApplyWindow(gained, s.window, nx);
    var ov := seq(MaxChannels, i requires 0 <= i < MaxChannels =>
      OverlapAdd(Resynthesise(windowed.channel[i], s, nx), tails.channel[i], s.noverlap, s.nslide));
    Slots(windowed.(channel := seq(MaxChannels, i requires 0 <= i < MaxChannels => ov[i].frame)),
          tails.(channel := seq(MaxChannels, i requires 0 <= i < MaxChannels => ov[i].tail)))
  }

  /** The first len samples of channels 0..n-1, interleaved. */
  function InterleavedBlock(ch: seq<seq<real>>, n: nat, len: nat): (b: seq<real>)
    requires 1 <= n <= |ch| && forall i :: 0 <= i < n ==> len <= |ch[i]|
    ensures |b| == Samples(len, n)
    ensures forall j, i :: 0 <= j < len && 0 <= i < n ==>
              FrameIndex(j, n, i) < |b| && b[FrameIndex(j, n, i)] == ch[i][j]
  {
    var b := seq(Samples(len, n), k requires 0 <= k < Samples(len, n) =>
      InterleavedSplit(k, n, len); ch[k % n][k / n]);
    assert forall j, i :: 0 <= j < len && 0 <= i < n ==>
             FrameIndex(j, n, i) < |b| && b[FrameIndex(j, n, i)] == ch[i][j] by {
      forall j, i | 0 <= j < len && 0 <= i < n
        ensures FrameIndex(j, n, i) < |b| && b[FrameIndex(j, n, i)] == ch[i][j]
      {
        InterleavedIndex(j, i, n, len);
      }
    }
    b
  }

  /** The slots after separating one window of input frames and processing them. */
  function Processed(frame: seq<real>, sl: Slots, s: Setup, nx: Numerics): (p: Slots)
    requires s.Valid() && s.inputChannels <= MaxChannels && SlotsFit(sl, s)
    requires |frame| == Samples(s.window, s.inputChannels)
    ensures SlotsFit(p, s)
  {
    ProcessSlots(SeparateChannels(frame, sl.td, s.inputChannels).value, sl.tails, s, nx)
  }

  /** What one pass emits and carries on. */
  datatype Emitted = Emitted(block: seq<real>, slots: Slots)

  /** The reference pass over one window of input frames: separate, process, remap
      the slots for the output layout and emit the first nslide frames of the out
      remapped slots. */
  function Step(frame: seq<real>, sl: Slots, s: Setup, nx: Numerics): (r: Emitted)
    requires s.Valid() && s.inputChannels <= MaxChannels && SlotsFit(sl, s)
    requires |frame| == Samples(s.window, s.inputChannels)
    ensures |r.block| == Samples(s.nslide, s.outChannels) && SlotsFit(r.slots, s)
  {
    var p := Processed(frame, sl, s, nx);
    var remapped := Remap(p.td.channel, s.outChannels, s.lfeOnly);
    RemapKeepsShape(p.td, s.outChannels, s.lfeOnly);
    Emitted(InterleavedBlock(remapped, s.outChannels, s.nslide), Slots(p.td.(channel := remapped), p.tails))
  }

  /** Frame index where pass t's window starts. */
  function Hop(t: nat, nslide: nat): nat
  {
    if t == 0 then 0 else Hop(t - 1, nslide) + nslide
  }

  /** The blocks of the first t passes and the slots after them. */
  datatype Progress = Progress(blocks: seq<seq<real>>, slots: Slots)

  /** The reference run after t passes: pass t processes the window of `window`
      frames starting at frame Hop(t), zero past the end of the file. */
  function Run(st: Stream, s: Setup, nx: Numerics, t: nat): (p: Progress)
    requires st.Valid() && s.Valid() && st.channels == s.inputChannels <= MaxChannels
    ensures |p.blocks| == t && SlotsFit(p.slots, s)
    ensures forall b :: 0 <= b < t ==> |p.blocks[b]| == Samples(s.nslide, s.outChannels)
    decreases 3 * t
  {
    if t == 0 then Progress([], InitialSlots(s)) else Advance(st, s, nx, t - 1)
  }

  /** The run after pass t: the run before it with the block of pass t appended. */
  function Advance(st: Stream, s: Setup, nx: Numerics, t: nat): (p: Progress)
    requires st.Valid() && s.Valid() && st.channels == s.inputChannels <= MaxChannels
    ensures |p.blocks| == t + 1 && SlotsFit(p.slots, s)
    ensures forall b :: 0 <= b <= t ==> |p.blocks[b]| == Samples(s.nslide, s.outChannels)
    decreases 3 * t + 2
  {
    var e := Pass(st, s, nx, t);
    Progress(Run(st, s, nx, t).blocks + [e.block], e.slots)
  }

  /** Pass t: the reference step over window t, from the slots the run left. */
  function Pass(st: Stream, s: Setup, nx: Numerics, t: nat): (e: Emitted)
    requires st.Valid() && s.Valid() && st.channels == s.inputChannels <= MaxChannels
    ensures |e.block| == Samples(s.nslide, s.outChannels) && SlotsFit(e.slots, s)
    decreases 3 * t + 1
  {
    Step(Window(st, Hop(t, s.nslide), s.window), Run(st, s, nx, t).slots, s, nx)
  }

  /** Reads after the first that still find frames, when `rem` frames remain. */
  function ExtraReads(rem: nat, nslide: nat): nat
    requires 1 <= nslide
    decreases rem
  {
    if rem == 0 then 0 else 1 + ExtraReads(rem - Clamp(nslide, rem), nslide)
  }

  /** Those reads are ceil(rem / nslide). */
  lemma {:induction false} ExtraReadsIsCeiling(rem: nat, nslide: nat)
    requires 1 <= nslide
    ensures ExtraReads(rem, nslide) == (rem + nslide - 1) / nslide
    decreases rem
  {
    if rem == 0 {
      DivModUnique(nslide - 1, nslide, 0, nslide - 1);
    } else if rem <= nslide {
      DivModUnique(rem + nslide - 1, nslide, 1, rem - 1);
    } else {
      ExtraReadsIsCeiling(rem - nslide, nslide);
      var q, r := (rem - 1) / nslide, (rem - 1) % nslide;
      DivModUnique(rem - 1, nslide, q, r);
      DivModUnique(rem + nslide - 1, nslide, q + 1, r);
    }
  }

  /** Passes the loop makes on a file of `frames` frames: the first read, one per
      later read that finds frames, and a final pass after the read that returns
      nothing. */
  function PassCount(frames: nat, window: nat, nslide: nat): nat
    requires 1 <= nslide
  {
    2 + (frames - Clamp(window, frames) + nslide - 1) / nslide
  }

  /** The pass count is the first pass, one pass per later read that finds frames
      and the final pass. */
  lemma PassCountByReads(frames: nat, window: nat, nslide: nat)
    requires 1 <= nslide
    ensures PassCount(frames, window, nslide) == 2 + ExtraReads(frames - Clamp(window, frames), nslide)
  {
    ExtraReadsIsCeiling(frames - Clamp(window, frames), nslide);
  }

  /** `data` written over buf from index `at` on. */
  function Overwrite(buf: seq<real>, at: nat, data: seq<real>): (r: seq<real>)
    requires at + |data| <= |buf|
    ensures |r| == |buf| && r[at..at + |data|] == data
    ensures r[..at] == buf[..at] && r[at + |data|..] == buf[at + |data|..]
  {
    buf[..at] + data + buf[at + |data|..]
  }

  /** One pass over the assembled buffer as the C code does it: separate from the
      whole buffer, process, combine back into the same buffer and emit its first
      nslide frames. It agrees with the reference pass over the buffer's first
      window of input frames. */
  method EmitPass(buffer: seq<real>, sl: Slots, s: Setup, nx: Numerics) returns (r: Result<(seq<real>, Emitted)>)
    requires s.Valid() && SlotsFit(sl, s)
    requires Samples(s.window, s.inputChannels) <= |buffer| && Samples(s.window, s.outChannels) <= |buffer|
    ensures r.Fail? <==> s.inputChannels > MaxChannels
    ensures r.Fail? ==> r.error == UnsupportedChannels(s.inputChannels)
    ensures r.Ok? ==> |r.value.0| == |buffer| && r.value.1.block == r.value.0[..Samples(s.nslide, s.outChannels)]
    ensures r.Ok? ==> r.value.1 == Step(buffer[..Samples(s.window, s.inputChannels)], sl, s, nx)
  {
    var sep :- SeparateChannels(buffer, sl.td, s.inputChannels);
    var frame := buffer[..Samples(s.window, s.inputChannels)];
    SeparateReadsOnlyFrame(buffer, frame, sl.td, s.inputChannels);
    var p := ProcessSlots(sep, sl.tails, s, nx);
    var comb := CombineChannels(buffer, p.td, s.outChannels, s.lfeOnly).value;
    SamplesMonotone(s.nslide, s.window, s.outChannels);
    var block := comb.flat[..Samples(s.nslide, s.outChannels)];
    var remapped := Remap(p.td.channel, s.outChannels, s.lfeOnly);
    forall k | 0 <= k < Samples(s.nslide, s.outChannels)
      ensures block[k] == InterleavedBlock(remapped, s.outChannels, s.nslide)[k]
    {
      InterleavedSplit(k, s.outChannels, s.nslide);
    }
    r := Ok((comb.flat, Emitted(block, Slots(comb.container, p.tails))));
  }

  /** Processes the assembled buffer of pass t = |blocks| and appends its block; when
      the buffer holds window t, the run stays in step with the reference. */
  method EmitAndRecord(st: Stream, s: Setup, nx: Numerics, buffer: seq<real>, blocks: seq<seq<real>>, sl: Slots)
    returns (r: Result<(seq<real>, seq<seq<real>>, Slots)>)
    requires st.Valid() && s.Valid() && st.channels == s.inputChannels && SlotsFit(sl, s)
    requires Samples(s.window, s.inputChannels) <= |buffer| && Samples(s.window, s.outChannels) <= |buffer|
    requires s.inputChannels <= MaxChannels ==>
               && Progress(blocks, sl) == Run(st, s, nx, |blocks|)
               && buffer[..Samples(s.window, s.inputChannels)] == Window(st, Hop(|blocks|, s.nslide), s.window)
    ensures r.Fail? <==> s.inputChannels > MaxChannels
    ensures r.Fail? ==> r.error == UnsupportedChannels(s.inputChannels)
    ensures r.Ok? ==> |r.value.0| == |buffer| && |r.value.1| == |blocks| + 1 && SlotsFit(r.value.2, s)
    ensures r.Ok? ==> Progress(r.value.1, r.value.2) == Run(st, s, nx, |blocks| + 1)
  {
    var e :- EmitPass(buffer, sl, s, nx);
    assert e.1 == Pass(st, s, nx, |blocks|);
    r := Ok((e.0, blocks + [e.1.block], e.1.slots));
  }

  /** Putting the carry in front of the nslide frames just read rebuilds the window
      that starts where the carry does. */
  lemma AssembledWindow(st: Stream, buffer: seq<real>, prev: seq<real>, data: seq<real>,
                        start: nat, noverlap: nat, nslide: nat)
    requires prev == Window(st, start, noverlap) && data == Window(st, start + noverlap, nslide)
    requires Samples(noverlap + nslide, st.channels) <= |buffer|
    ensures Samples(noverlap, st.channels) + |data| <= |buffer|
    ensures var b := Overwrite(Overwrite(buffer, Samples(noverlap, st.channels), data), 0, prev);
      && |b| == |buffer|
      && b[..Samples(noverlap + nslide, st.channels)] == Window(st, start, noverlap + nslide)
  {
    var ch := st.channels;
    var a, w := Samples(noverlap, ch), Samples(noverlap + nslide, ch);
    SamplesAdd(noverlap, nslide, ch);
    var b1 := Overwrite(buffer, a, data);
    var b := Overwrite(b1, 0, prev);
    assert b[..a] == prev;
    assert b[a..w] == b1[a..w] == data;
    assert b[..w] == b[..a] + b[a..w];
    WindowConcat(st, start, noverlap, nslide);
  }

  /** The carry saved after a pass: the last noverlap frames of the window in the
      buffer, which are the first of the window nslide frames on. */
  method SaveCarry(st: Stream, s: Setup, b: seq<real>, ghost start: nat) returns (prev: seq<real>)
    requires st.Valid() && s.Valid() && st.channels == s.inputChannels
    requires Samples(s.window, st.channels) <= |b|
    requires b[..Samples(s.window, st.channels)] == Window(st, start, s.window)
    ensures prev == Window(st, start + s.nslide, s.noverlap)
  {
    var ch := st.channels;
    var w := Samples(s.window, ch);
    WindowSplit(st, start, s.nslide, s.noverlap);
    prev := b[Samples(s.nslide, ch)..w];
    assert prev == b[..w][Samples(s.nslide, ch)..];
  }

  /** Buffer handling of the first pass: read a whole window at the start of the
      file and save its last noverlap frames as the carry. */
  method AssembleFirst(st: Stream, s: Setup, buffer: seq<real>)
    returns (b: seq<real>, prev: seq<real>, count: nat)
    requires st.Valid() && s.Valid() && st.channels == s.inputChannels
    requires Samples(s.window, st.channels) <= |buffer|
    ensures |b| == |buffer| && b[..Samples(s.window, st.channels)] == Window(st, 0, s.window)
    ensures count == Clamp(s.window, st.frames)
    ensures prev == Window(st, s.nslide, s.noverlap)
  {
    var rd := ReadFrames(st, 0, s.window);
    b := Overwrite(buffer, 0, rd.data);
    assert b[..Samples(s.window, st.channels)] == rd.data;
    prev := SaveCarry(st, s, b, 0);
    count := rd.count;
  }

  /** Buffer handling of a later pass whose window starts at frame `start`: read
      nslide frames at the file position behind the carried overlap and put the
      carry in front. The buffer then holds the window at `start`, and the file
      position is that of the window nslide frames on. */
  method Refill(st: Stream, s: Setup, buffer: seq<real>, prev: seq<real>, pos: nat, ghost start: nat)
    returns (b: seq<real>, pos': nat, count: nat)
    requires st.Valid() && s.Valid() && st.channels == s.inputChannels
    requires Samples(s.window, st.channels) <= |buffer|
    requires pos <= st.frames && pos == Clamp(start + s.noverlap, st.frames)
    requires prev == Window(st, start, s.noverlap)
    ensures |b| == |buffer| && b[..Samples(s.window, st.channels)] == Window(st, start, s.window)
    ensures count == Clamp(s.nslide, st.frames - pos) && pos' == pos + count
    ensures pos' <= st.frames && pos' == Clamp(start + s.nslide + s.noverlap, st.frames)
    ensures ExtraReads(st.frames - pos, s.nslide) == if count > 0 then 1 + ExtraReads(st.frames - pos', s.nslide) else 0
  {
    var ch := st.channels;
    var rd := ReadFrames(st, pos, s.nslide);
    ClampedWindow(st, start + s.noverlap, s.nslide);
    AssembledWindow(st, buffer, prev, rd.data, start, s.noverlap, s.nslide);
    b := Overwrite(Overwrite(buffer, Samples(s.noverlap, ch), rd.data), 0, prev);
    count := rd.count;
    pos' := pos + rd.count;
    ReadsLeft(st.frames, pos, s.nslide, count);
  }

  /** One pass of the loop from the second on: assemble window t = |blocks|, which
      starts at frame `start`, from the carry and a fresh read, process it and emit
      its block. */
  method NextPass(st: Stream, s: Setup, nx: Numerics, buffer: seq<real>, prev: seq<real>, pos: nat,
                  blocks: seq<seq<real>>, sl: Slots, ghost start: nat)
    returns (buffer': seq<real>, prev': seq<real>, pos': nat, count: nat, blocks': seq<seq<real>>, sl': Slots,
             ghost start': nat)
    requires st.Valid() && s.Valid() && st.channels == s.inputChannels <= MaxChannels
    requires Samples(s.window, st.channels) <= |buffer| && Samples(s.window, s.outChannels) <= |buffer|
    requires start == Hop(|blocks|, s.nslide)
    requires pos <= st.frames && pos == Clamp(start + s.noverlap, st.frames)
    requires prev == Window(st, start, s.noverlap)
    requires SlotsFit(sl, s) && Progress(blocks, sl) == Run(st, s, nx, |blocks|)
    ensures |buffer'| == |buffer| && |blocks'| == |blocks| + 1
    ensures count == Clamp(s.nslide, st.frames - pos) && pos' == pos + count
    ensures ExtraReads(st.frames - pos, s.nslide) == if count > 0 then 1 + ExtraReads(st.frames - pos', s.nslide) else 0
    ensures start' == start + s.nslide == Hop(|blocks'|, s.nslide)
    ensures pos' <= st.frames && pos' == Clamp(start' + s.noverlap, st.frames)
    ensures prev' == Window(st, start', s.noverlap)
    ensures SlotsFit(sl', s) && Progress(blocks', sl') == Run(st, s, nx, |blocks'|)
  {
    var b;
    start' := start + s.nslide;
    b, pos', count := Refill(st, s, buffer, prev, pos, start);
    prev' := SaveCarry(st, s, b, start);
    var e := EmitAndRecord(st, s, nx, b, blocks, sl);
    buffer', blocks', sl' := e.value.0, e.value.1, e.value.2;
  }

  /** A read at file position pos that finds frames leaves one read fewer to come;
      one that finds none means the file is exhausted. */
  lemma ReadsLeft(frames: nat, pos: nat, nslide: nat, count: nat)
    requires 1 <= nslide && pos <= frames && count == Clamp(nslide, frames - pos)
    ensures count > 0 ==> ExtraReads(frames - pos, nslide) == 1 + ExtraReads(frames - (pos + count), nslide)
    ensures count == 0 ==> ExtraReads(frames - pos, nslide) == 0
  {
  }

  /** The do-while loop, from the processing of the first window on: passes continue
      while the last read found frames, so after the first pass there is one pass per
      later read that finds frames and one final pass after the read that finds none.
      The working slots start zero-filled, and more than six input channels is fatal
      at the first separation. */
  method ProcessPasses(st: Stream, s: Setup, nx: Numerics, maxCh: nat, buffer: seq<real>, prev: seq<real>, pos: nat)
    returns (r: Result<seq<seq<real>>>)
    requires st.Valid() && s.Valid() && st.channels == s.inputChannels
    requires |buffer| == Samples(s.window, maxCh)
    requires Samples(s.window, st.channels) <= |buffer| && Samples(s.window, s.outChannels) <= |buffer|
    requires buffer[..Samples(s.window, st.channels)] == Window(st, 0, s.window)
    requires 0 < pos == Clamp(s.window, st.frames)
    requires prev == Window(st, s.nslide, s.noverlap)
    ensures r.Fail? <==> MaxChannels < st.channels
    ensures r.Fail? ==> r.error == UnsupportedChannels(st.channels)
    ensures r.Ok? ==> st.channels <= MaxChannels && |r.value| == PassCount(st.frames, s.window, s.nslide)
    ensures r.Ok? ==> r.value == Run(st, s, nx, |r.value|).blocks
  {
    var first :- EmitAndRecord(st, s, nx, buffer, [], InitialSlots(s));
    var buffer, all, sl := first.0, first.1, first.2;
    var prev, pos, count := prev, pos, pos;
    ghost var total := PassCount(st.frames, s.window, s.nslide);
    PassCountByReads(st.frames, s.window, s.nslide);
    ghost var start := s.nslide;
    assert Hop(|all|, s.nslide) == start;
    while count > 0
      invariant start == Hop(|all|, s.nslide)
      invariant |buffer| == Samples(s.window, maxCh)
      invariant pos == Clamp(start + s.noverlap, st.frames)
      invariant prev == Window(st, start, s.noverlap)
      invariant SlotsFit(sl, s) && Progress(all, sl) == Run(st, s, nx, |all|)
      invariant |all| + (if count > 0 then ExtraReads(st.frames - pos, s.nslide) + 1 else 0) == total
      decreases total - |all|
    {
      buffer, prev, pos, count, all, sl, start := NextPass(st, s, nx, buffer, prev, pos, all, sl, start);
    }
    r := Ok(all);
  }

  /** What main hands the processor after at_parse_input_args meets the processor's
      requirements, unless a negative channel count was requested: the overlap lies
      in 1..99, the duration in 10..30 ms, and more than six output channels occur
      only for an input with more than six. */
  lemma ValidatedConfigIsAccepted(info: Info, inputChannels: nat, samplerate: nat)
    requires 1 <= inputChannels && samplerate <= IntMax / 30
    requires info.lfeOnly || 0 <= info.outChannels
    ensures var r := ParseInputArgs(info, inputChannels);
      && 0 <= r.frameDuration && r.frameDuration * samplerate <= IntMax
      && 0 <= r.overlap < 100 && 1 <= r.outChannels
      && (MaxChannels < r.outChannels ==> MaxChannels < inputChannels)
  {
    var r := ParseInputArgs(info, inputChannels);
    assert r.frameDuration * samplerate <= 30 * samplerate by {
      assert 30 * samplerate - r.frameDuration * samplerate == (30 - r.frameDuration) * samplerate;
    }
  }

  /** at_audio_processor with an output file. The first pass reads a whole window and
      a read that finds no frame there is fatal; every later pass keeps the last
      noverlap frames of the previous window, reads nslide new ones behind them and
      emits nslide frames; the loop stops after the first pass whose read found
      nothing. The emitted blocks are exactly those of the reference run over
      windows starting nslide frames apart. */
  method AudioProcessor(cfg: Info, st: Stream, samplerate: nat, nx: Numerics) returns (r: Result<seq<seq<real>>>)
    requires st.Valid() && 0 < samplerate
    requires 0 <= cfg.frameDuration && cfg.frameDuration * samplerate <= IntMax
    requires 0 <= cfg.overlap < 100 && 1 <= cfg.outChannels
    requires MaxChannels < cfg.outChannels ==> MaxChannels < st.channels
    ensures var s := MakeSetup(cfg, st.channels, samplerate);
      && (r.Fail? <==> s.window == 0 || st.frames == 0 || MaxChannels < st.channels)
      && (s.window == 0 ==> r == Fail(InvalidFftSize))
      && (1 <= s.window && st.frames == 0 ==> r == Fail(ReadFailed))
      && (1 <= s.window && 1 <= st.frames && MaxChannels < st.channels ==> r == Fail(UnsupportedChannels(st.channels)))
      && (r.Ok? ==>
            && s.Valid() && st.channels <= MaxChannels
            && |r.value| == PassCount(st.frames, s.window, s.nslide)
            && r.value == Run(st, s, nx, |r.value|).blocks)
  {
    var s := MakeSetup(cfg, st.channels, samplerate);
    var ch := st.channels;
    var maxCh := if ch > s.outChannels then ch else s.outChannels;
    var fftSize :- FftwInit(s.fft);
    if MaxChannels < s.outChannels {
      // Only an input of more than six channels validates to more than six outputs:
      // the first read still happens, and the separation after it is fatal.
      var rd := ReadFrames(st, 0, s.window);
      if rd.count == 0 {
        return Fail(ReadFailed);
      }
      return Fail(UnsupportedChannels(ch));
    }
    // A non-zero FFT size means a non-empty window, so no allocation below can fail.
    assert s.Valid();
    var buffer := Zeros(Samples(s.window, maxCh));
    SamplesMonotoneChannels(s.window, ch, maxCh);
    SamplesMonotoneChannels(s.window, s.outChannels, maxCh);
    SamplesAdd(s.noverlap, s.nslide, ch);
    SamplesAdd(s.nslide, s.noverlap, ch);

    var prev, count;
    buffer, prev, count := AssembleFirst(st, s, buffer);
    if count == 0 {
      return Fail(ReadFailed);
    }
    var blocks :- ProcessPasses(st, s, nx, maxCh, buffer, prev, count);
    r := Ok(blocks);
  }
}
