/** The six-slot channel container of src/dsp.h and the channel-topology transform of
    src/dsp.c: allocation, deinterleaving, slot remapping and re-interleaving. */
module Channels {
  import opened Errors
  import opened Arith

  /** MAX_CHANNELS. */
  const MaxChannels: nat := 6

  /** The slots of `enum channel_map`; their order is both the buffer index and the
      canonical interleave order. */
  const FL: nat := 0   // front left, or the mono channel
  const FR: nat := 1   // front right
  const C: nat := 2    // center
  const LFE: nat := 3  // low-frequency effects
  const SL: nat := 4   // surround left
  const SR: nat := 5   // surround right

  /** audio_container_t: six sample arrays, their common length, the number of
      channels in use and the sample rate. */
  datatype Container = Container(channel: seq<seq<real>>, length: nat, usedChannels: int, samplerate: int)
  {
    ghost predicate Valid()
    {
      |channel| == MaxChannels && forall s :: 0 <= s < MaxChannels ==> |channel[s]| == length
    }
  }

  function Zeros(n: nat): (z: seq<real>)
    ensures |z| == n && forall j :: 0 <= j < n ==> z[j] == 0.0
  {
    seq(n, _ => 0.0)
  }

  /** at_allocate_buffer: a zero size is fatal; otherwise six zero-filled slots. */
  function AllocateBuffer(channels: int, size: nat, samplerate: int): (r: Result<Container>)
    ensures r.Fail? <==> size == 0
    ensures r.Fail? ==> r.error == InvalidBufferSize
    ensures r.Ok? ==> r.value.Valid() && r.value.length == size
    ensures r.Ok? ==> r.value.usedChannels == channels && r.value.samplerate == samplerate
    ensures r.Ok? ==> forall s, j :: 0 <= s < MaxChannels && 0 <= j < size ==> r.value.channel[s][j] == 0.0
  {
    if size == 0 then Fail(InvalidBufferSize)
    else Ok(Container(seq(MaxChannels, _ => Zeros(size)), size, channels, samplerate))
  }

  /** Channel i of an n-channel interleaved buffer of len frames. */
  function Deinterleave(flat: seq<real>, n: nat, len: nat, i: nat): (col: seq<real>)
    requires i < n && Samples(len, n) <= |flat|
    ensures |col| == len
    ensures forall j :: 0 <= j < len ==> FrameIndex(j, n, i) < |flat| && col[j] == flat[FrameIndex(j, n, i)]
  {
    var col := seq(len, j requires 0 <= j < len => InterleavedIndex(j, i, n, len); flat[FrameIndex(j, n, i)]);
    assert forall j :: 0 <= j < len ==> FrameIndex(j, n, i) < |flat| && col[j] == flat[FrameIndex(j, n, i)] by {
      forall j | 0 <= j < len
        ensures FrameIndex(j, n, i) < |flat| && col[j] == flat[FrameIndex(j, n, i)]
      {
        InterleavedIndex(j, i, n, len);
      }
    }
    col
  }

  /** at_separate_channels: more than six input channels is fatal before anything is
      written; otherwise slot i < n receives channel i of the buffer and the other
      slots keep their contents. */
  function SeparateChannels(flat: seq<real>, c: Container, n: int): (r: Result<Container>)
    requires c.Valid()
    requires 0 <= n <= MaxChannels ==> Samples(c.length, n) <= |flat|
    ensures r.Fail? <==> n > MaxChannels
    ensures r.Fail? ==> r.error == UnsupportedChannels(n)
    ensures r.Ok? ==> r.value.Valid() && r.value.length == c.length
    ensures r.Ok? ==> r.value.usedChannels == c.usedChannels && r.value.samplerate == c.samplerate
    ensures r.Ok? ==> forall i, j :: 0 <= i < n && 0 <= j < c.length ==>
              FrameIndex(j, n, i) < |flat| && r.value.channel[i][j] == flat[FrameIndex(j, n, i)]
    ensures r.Ok? ==> forall s :: 0 <= s < MaxChannels && n <= s ==> r.value.channel[s] == c.channel[s]
  {
    if n > MaxChannels then Fail(UnsupportedChannels(n))
    else
      var d := c.(channel := seq(MaxChannels, s requires 0 <= s < MaxChannels =>
        if s < n then Deinterleave(flat, n, c.length, s) else c.channel[s]));
      assert forall i, j :: 0 <= i < n && 0 <= j < c.length ==>
               FrameIndex(j, n, i) < |flat| && d.channel[i][j] == flat[FrameIndex(j, n, i)] by {
        forall i, j | 0 <= i < n && 0 <= j < c.length
          ensures FrameIndex(j, n, i) < |flat| && d.channel[i][j] == flat[FrameIndex(j, n, i)]
        {
          assert d.channel[i] == Deinterleave(flat, n, c.length, i);
        }
      }
      Ok(d)
  }

  function Swap<T>(s: seq<T>, a: nat, b: nat): (r: seq<T>)
    requires a < |s| && b < |s|
    ensures |r| == |s| && r[a] == s[b] && r[b] == s[a]
    ensures forall k :: 0 <= k < |s| && k != a && k != b ==> r[k] == s[k]
  {
    s[a := s[b]][b := s[a]]
  }

  /** The slot swaps of at_combine_channels: FL<->LFE when only the LFE channel is
      wanted, then C<->SL and LFE<->SR for four outputs, or LFE<->SL for five. */
  function Remap(ch: seq<seq<real>>, out: int, lfeOnly: bool): (r: seq<seq<real>>)
    requires |ch| == MaxChannels
    ensures |r| == MaxChannels
    ensures !lfeOnly && out == 4 ==> r[..4] == [ch[FL], ch[FR], ch[SL], ch[SR]]
    ensures !lfeOnly && out == 5 ==> r[..5] == [ch[FL], ch[FR], ch[C], ch[SL], ch[LFE]]
    ensures lfeOnly && out == 4 ==> r[..4] == [ch[LFE], ch[FR], ch[SL], ch[SR]]
    ensures lfeOnly && out == 5 ==> r[..5] == [ch[LFE], ch[FR], ch[C], ch[SL], ch[FL]]
    ensures lfeOnly && out != 4 && out != 5 ==>
              r[FL] == ch[LFE] && r[LFE] == ch[FL] && r[FR] == ch[FR] && r[C] == ch[C] && r[SL] == ch[SL] && r[SR] == ch[SR]
    ensures !lfeOnly && out != 4 && out != 5 ==> r == ch
  {
    var s1 := if lfeOnly then Swap(ch, FL, LFE) else ch;
    var s2 := if out == 4 then Swap(Swap(s1, C, SL), LFE, SR) else s1;
    if out == 5 then Swap(s2, LFE, SL) else s2
  }

  /** Every remap only permutes the slots. */
  lemma RemapIsPermutation(ch: seq<seq<real>>, out: int, lfeOnly: bool)
    requires |ch| == MaxChannels
    ensures multiset(Remap(ch, out, lfeOnly)) == multiset(ch)
  {
    var s1 := if lfeOnly then Swap(ch, FL, LFE) else ch;
    assert multiset(s1) == multiset(ch) by {
      if lfeOnly {
        SwapIsPermutation(ch, FL, LFE);
      }
    }
    var s2 := if out == 4 then Swap(Swap(s1, C, SL), LFE, SR) else s1;
    assert multiset(s2) == multiset(s1) by {
      if out == 4 {
        SwapIsPermutation(s1, C, SL);
        SwapIsPermutation(Swap(s1, C, SL), LFE, SR);
      }
    }
    if out == 5 {
      SwapIsPermutation(s2, LFE, SL);
    }
  }

  /** A remapped container is as well formed as the one it came from. */
  lemma RemapKeepsShape(c: Container, out: int, lfeOnly: bool)
    requires c.Valid()
    ensures c.(channel := Remap(c.channel, out, lfeOnly)).Valid()
  {
    var r := Remap(c.channel, out, lfeOnly);
    RemapIsPermutation(c.channel, out, lfeOnly);
    forall i | 0 <= i < MaxChannels
      ensures |r[i]| == c.length
    {
      assert r[i] in multiset(r);
      assert r[i] in c.channel;
    }
  }

  lemma SwapIsPermutation<T>(s: seq<T>, a: nat, b: nat)
    requires a < |s| && b < |s|
    ensures multiset(Swap(s, a, b)) == multiset(s)
  {
    var t := s[a := s[b]];
    assert multiset(t) == multiset(s) - multiset{s[a]} + multiset{s[b]};
    assert multiset(t[b := s[a]]) == multiset(t) - multiset{t[b]} + multiset{s[a]};
  }

  /** Applying the same remap twice restores the slot order, unless the LFE swap is
      combined with a four- or five-channel layout. */
  lemma RemapInvolution(ch: seq<seq<real>>, out: int, lfeOnly: bool)
    requires |ch| == MaxChannels
    requires !(lfeOnly && (out == 4 || out == 5))
    ensures Remap(Remap(ch, out, lfeOnly), out, lfeOnly) == ch
  {
    var r := Remap(Remap(ch, out, lfeOnly), out, lfeOnly);
    assert r[0] == ch[0] && r[1] == ch[1] && r[2] == ch[2] && r[3] == ch[3] && r[4] == ch[4] && r[5] == ch[5];
  }

  /** With the LFE swap and four outputs, two remaps do not restore the order. */
  lemma RemapLfeQuadNotInvolution()
    ensures var ch := [[0.0], [1.0], [2.0], [3.0], [4.0], [5.0]];
      Remap(Remap(ch, 4, true), 4, true) != ch
  {
    var ch := [[0.0], [1.0], [2.0], [3.0], [4.0], [5.0]];
    assert Remap(Remap(ch, 4, true), 4, true)[0] == [5.0];
  }

  /** The n-channel interleaving of the first len samples of each slot, written over
      the front of `flat`; the rest of `flat` is left as it was. */
  function Interleave(ch: seq<seq<real>>, n: nat, len: nat, flat: seq<real>): (r: seq<real>)
    requires n <= |ch| && forall s :: 0 <= s < n ==> len <= |ch[s]|
    requires Samples(len, n) <= |flat|
    ensures |r| == |flat|
  {
    seq(|flat|, k requires 0 <= k < |flat| =>
      if k < Samples(len, n) then (InterleavedSplit(k, n, len); ch[k % n][k / n]) else flat[k])
  }

  /** The container after combining (its slots stay swapped) and the written buffer. */
  datatype Combined = Combined(container: Container, flat: seq<real>)

  /** at_combine_channels: more than six output channels is fatal before anything
      changes; otherwise the slots are remapped and slot i < out of every frame j is
      written to flat[j*out + i], and nothing else in the buffer changes. */
  function CombineChannels(flat: seq<real>, c: Container, out: int, lfeOnly: bool): (r: Result<Combined>)
    requires c.Valid()
    requires 0 <= out <= MaxChannels ==> Samples(c.length, out) <= |flat|
    ensures r.Fail? <==> out > MaxChannels
    ensures r.Fail? ==> r.error == UnsupportedChannels(out)
    ensures r.Ok? ==> r.value.container == c.(channel := Remap(c.channel, out, lfeOnly))
    ensures r.Ok? ==> r.value.container.Valid() && |r.value.flat| == |flat|
    ensures r.Ok? ==> forall i, j :: 0 <= i < out && 0 <= j < c.length ==>
              FrameIndex(j, out, i) < |flat| && r.value.flat[FrameIndex(j, out, i)] == r.value.container.channel[i][j]
    ensures r.Ok? ==> forall k :: 0 <= k < |flat| && (out <= 0 || Samples(c.length, out) <= k) ==> r.value.flat[k] == flat[k]
  {
    if out > MaxChannels then Fail(UnsupportedChannels(out))
    else
      var remapped := c.(channel := Remap(c.channel, out, lfeOnly));
      var written := if out <= 0 then flat else Interleave(remapped.channel, out, c.length, flat);
      var r := Combined(remapped, written);
      assert forall i, j :: 0 <= i < out && 0 <= j < c.length ==>
               FrameIndex(j, out, i) < |flat| && written[FrameIndex(j, out, i)] == remapped.channel[i][j] by {
        forall i, j | 0 <= i < out && 0 <= j < c.length
          ensures FrameIndex(j, out, i) < |flat| && written[FrameIndex(j, out, i)] == remapped.channel[i][j]
        {
          InterleavedIndex(j, i, out, c.length);
        }
      }
      Ok(r)
  }

  /** Deinterleaving n channels and interleaving them back, with no LFE swap and a
      layout other than four or five channels, reproduces the buffer. */
  lemma SeparateThenCombine(flat: seq<real>, c: Container, n: nat)
    requires c.Valid() && 1 <= n <= MaxChannels && n != 4 && n != 5
    requires Samples(c.length, n) <= |flat|
    ensures CombineChannels(flat, SeparateChannels(flat, c, n).value, n, false).value.flat == flat
  {
    var sep := SeparateChannels(flat, c, n).value;
    var out := CombineChannels(flat, sep, n, false).value.flat;
    forall k | 0 <= k < |flat|
      ensures out[k] == flat[k]
    {
      if k < Samples(c.length, n) {
        InterleavedSplit(k, n, c.length);
        var j, i := k / n, k % n;
        assert out[FrameIndex(j, n, i)] == sep.channel[i][j];
      }
    }
  }

  /** Interleaving out channels and deinterleaving them again yields the remapped
      slots. */
  lemma CombineThenSeparate(flat: seq<real>, c: Container, d: Container, out: nat, lfeOnly: bool)
    requires c.Valid() && d.Valid() && d.length == c.length && 1 <= out <= MaxChannels
    requires Samples(c.length, out) <= |flat|
    ensures var comb := CombineChannels(flat, c, out, lfeOnly).value;
      forall i :: 0 <= i < out ==>
        SeparateChannels(comb.flat, d, out).value.channel[i] == comb.container.channel[i]
  {
    var comb := CombineChannels(flat, c, out, lfeOnly).value;
    var sep := SeparateChannels(comb.flat, d, out).value;
    forall i | 0 <= i < out
      ensures sep.channel[i] == comb.container.channel[i]
    {
      forall j | 0 <= j < c.length
        ensures sep.channel[i][j] == comb.container.channel[i][j]
      {
        assert sep.channel[i][j] == comb.flat[FrameIndex(j, out, i)];
      }
    }
  }

  /** Separation reads only the first len*n samples of the buffer: two buffers that
      agree there separate into the same container. */
  lemma SeparateReadsOnlyFrame(flat: seq<real>, other: seq<real>, c: Container, n: nat)
    requires c.Valid() && n <= MaxChannels
    requires Samples(c.length, n) <= |flat| && Samples(c.length, n) <= |other|
    requires flat[..Samples(c.length, n)] == other[..Samples(c.length, n)]
    ensures SeparateChannels(flat, c, n) == SeparateChannels(other, c, n)
  {
    var a, b := SeparateChannels(flat, c, n).value, SeparateChannels(other, c, n).value;
    forall s | 0 <= s < MaxChannels
      ensures a.channel[s] == b.channel[s]
    {
      if s < n {
        forall j | 0 <= j < c.length
          ensures a.channel[s][j] == b.channel[s][j]
        {
          InterleavedIndex(j, s, n, c.length);
          assert flat[FrameIndex(j, n, s)] == flat[..Samples(c.length, n)][FrameIndex(j, n, s)];
          assert other[FrameIndex(j, n, s)] == other[..Samples(c.length, n)][FrameIndex(j, n, s)];
        }
      }
    }
    assert a.channel == b.channel;
  }
}
