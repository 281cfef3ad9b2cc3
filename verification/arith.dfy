/** Facts about the interleaved index j*n + i used throughout the channel code. */
module Arith {

  /** Index of sample i of frame j in a buffer of n interleaved channels. */
  function FrameIndex(j: nat, n: nat, i: nat): nat
  {
    j * n + i
  }

  /** Number of samples in len frames of n channels. */
  function Samples(len: nat, n: nat): nat
  {
    len * n
  }

  lemma MulMonotone(a: int, b: int, c: int)
    requires a <= b && 0 <= c
    ensures a * c <= b * c
  {
    assert b * c - a * c == (b - a) * c;
  }

  /** Euclidean quotient and remainder are the unique pair with k == q*n + r, 0 <= r < n. */
  lemma DivModUnique(k: int, n: int, q: int, r: int)
    requires 0 < n && 0 <= r < n && k == q * n + r
    ensures k / n == q && k % n == r
  {
    var q', r' := k / n, k % n;
    assert k == q' * n + r';
    if q' < q {
      MulMonotone(q' + 1, q, n);
    } else if q' > q {
      MulMonotone(q + 1, q', n);
    }
  }

  /** Sample i of frame j of an n-channel buffer of len frames lies inside it, and
      the index splits back into frame and channel. */
  lemma InterleavedIndex(j: nat, i: nat, n: nat, len: nat)
    requires i < n && j < len
    ensures FrameIndex(j, n, i) < Samples(len, n)
    ensures FrameIndex(j, n, i) / n == j && FrameIndex(j, n, i) % n == i
  {
    MulMonotone(j + 1, len, n);
    assert (j + 1) * n == j * n + n;
    DivModUnique(j * n + i, n, j, i);
  }

  /** Every index below len*n is the index of some frame and channel. */
  lemma InterleavedSplit(k: nat, n: nat, len: nat)
    requires k < Samples(len, n)
    ensures 0 < n && k / n < len && k == FrameIndex(k / n, n, k % n)
  {
    if k / n >= len {
      MulMonotone(len, k / n, n);
    }
  }

  /** Frame counts add sample counts. */
  lemma SamplesAdd(a: nat, b: nat, n: nat)
    ensures Samples(a + b, n) == Samples(a, n) + Samples(b, n)
  {
    assert (a + b) * n == a * n + b * n;
  }

  lemma SamplesMonotone(a: nat, b: nat, n: nat)
    requires a <= b
    ensures Samples(a, n) <= Samples(b, n)
  {
    MulMonotone(a, b, n);
  }

  /** Sample i of frame j of a block that starts at frame `start` is sample i of
      frame start + j of the whole buffer. */
  lemma FrameOffset(start: nat, j: nat, n: nat, i: nat)
    ensures Samples(start, n) + FrameIndex(j, n, i) == FrameIndex(start + j, n, i)
  {
    SamplesAdd(start, j, n);
  }

  /** A frame at or past `len` lies at or past the end of a len-frame buffer. */
  lemma FrameIndexPastEnd(j: nat, n: nat, i: nat, len: nat)
    requires len <= j
    ensures Samples(len, n) <= FrameIndex(j, n, i)
  {
    SamplesMonotone(len, j, n);
  }

  lemma SamplesMonotoneChannels(len: nat, a: nat, b: nat)
    requires a <= b
    ensures Samples(len, a) <= Samples(len, b)
  {
    MulMonotone(a, b, len);
  }
}
