/** Window and transform sizing: the FFT_MAX, WINDOW_MAX, OPTIMAL_FFT_SIZE and
    WINDOW_SIZE definitions of src/fft.h and at_calc_window_and_fft_size of src/fft.c. */
module Sizing {

  /** FFT_MAX: the largest transform the engine plans. */
  const FftMax: nat := 2048

  /** WINDOW_MAX: the largest window whose transform still fits. */
  const WindowMax: nat := FftMax / 2

  /** INT_MAX of the C `int` that holds frame_dur * srate. */
  const IntMax: int := 0x7fff_ffff

  ghost predicate IsPowerOfTwo(p: nat)
    decreases p
  {
    if p <= 1 then p == 1 else p % 2 == 0 && IsPowerOfTwo(p / 2)
  }

  /** pow(2, ceil(log2(x))) on integers.  For x = 0, log2 gives -inf and pow(2, -inf)
      is 0, so the value is 0 there. */
  function CeilPowerOfTwo(x: nat): (r: nat)
    ensures x <= r
    decreases x
  {
    if x <= 1 then x else 2 * CeilPowerOfTwo((x + 1) / 2)
  }

  /** OPTIMAL_FFT_SIZE(x): twice the next power of two. */
  function OptimalFftSize(x: nat): (r: nat)
    ensures r % 2 == 0 && 2 * x <= r
  {
    2 * CeilPowerOfTwo(x)
  }

  /** WINDOW_SIZE(d, r): floor(d * r / 1000), an integer division of C ints. */
  function WindowSize(frameDur: nat, srate: nat): (r: nat)
    ensures r * 1000 <= frameDur * srate < (r + 1) * 1000
  {
    frameDur * srate / 1000
  }

  /** The window after `window_size % 2 != 0 ? window_size++ : window_size`. */
  function EvenWindow(frameDur: nat, srate: nat): nat
  {
    var w := WindowSize(frameDur, srate);
    if w % 2 != 0 then w + 1 else w
  }

  lemma {:induction false} CeilPowerOfTwoIsPowerOfTwo(x: nat)
    requires x >= 1
    ensures IsPowerOfTwo(CeilPowerOfTwo(x))
    decreases x
  {
    if x > 1 {
      CeilPowerOfTwoIsPowerOfTwo((x + 1) / 2);
    }
  }

  /** The next power of two lies in [x, 2x). */
  lemma {:induction false} CeilPowerOfTwoBounds(x: nat)
    requires x >= 1
    ensures x <= CeilPowerOfTwo(x) < 2 * x
    decreases x
  {
    if x > 1 {
      CeilPowerOfTwoBounds((x + 1) / 2);
    }
  }

  lemma {:induction false} CeilPowerOfTwoMonotone(x: nat, y: nat)
    requires x <= y
    ensures CeilPowerOfTwo(x) <= CeilPowerOfTwo(y)
    decreases y
  {
    if x > 1 {
      CeilPowerOfTwoMonotone((x + 1) / 2, (y + 1) / 2);
    } else if y >= 1 {
      CeilPowerOfTwoBounds(y);
    }
  }

  /** No power of two at least x is smaller than CeilPowerOfTwo(x). */
  lemma {:induction false} CeilPowerOfTwoIsLeast(x: nat, q: nat)
    requires IsPowerOfTwo(q) && x <= q
    ensures CeilPowerOfTwo(x) <= q
    decreases q
  {
    if x > 1 {
      assert q > 1;
      CeilPowerOfTwoIsLeast((x + 1) / 2, q / 2);
    }
  }

  /** OPTIMAL_FFT_SIZE(x) is a power of two. */
  lemma OptimalFftSizeIsPowerOfTwo(x: nat)
    requires x >= 1
    ensures IsPowerOfTwo(OptimalFftSize(x))
  {
    CeilPowerOfTwoIsPowerOfTwo(x);
    var p := CeilPowerOfTwo(x);
    assert (2 * p) / 2 == p;
  }

  /** For x >= 1, 2x <= OPTIMAL_FFT_SIZE(x) < 4x. */
  lemma OptimalFftSizeBounds(x: nat)
    requires x >= 1
    ensures 2 * x <= OptimalFftSize(x) < 4 * x
  {
    CeilPowerOfTwoBounds(x);
  }

  lemma OptimalFftSizeMonotone(x: nat, y: nat)
    requires x <= y
    ensures OptimalFftSize(x) <= OptimalFftSize(y)
  {
    CeilPowerOfTwoMonotone(x, y);
  }

  lemma WindowSizeMonotone(d: nat, e: nat, srate: nat)
    requires d <= e
    ensures WindowSize(d, srate) <= WindowSize(e, srate)
    ensures EvenWindow(d, srate) <= EvenWindow(e, srate)
  {
    var a, b := WindowSize(d, srate), WindowSize(e, srate);
    assert d * srate <= e * srate by {
      assert e * srate == d * srate + (e - d) * srate;
    }
    assert a * 1000 < (b + 1) * 1000;
  }

  lemma IsPowerOfTwo1024()
    ensures IsPowerOfTwo(1024)
  {
    assert IsPowerOfTwo(1);
    assert IsPowerOfTwo(2);
    assert IsPowerOfTwo(4);
    assert IsPowerOfTwo(8);
    assert IsPowerOfTwo(16);
    assert IsPowerOfTwo(32);
    assert IsPowerOfTwo(64);
    assert IsPowerOfTwo(128);
    assert IsPowerOfTwo(256);
    assert IsPowerOfTwo(512);
  }

  /** A non-empty window fits the transform limit exactly when it is at most WINDOW_MAX. */
  lemma FitsIffWithinWindowMax(w: nat)
    requires w >= 1
    ensures OptimalFftSize(w) <= FftMax <==> w <= WindowMax
  {
    if w <= WindowMax {
      IsPowerOfTwo1024();
      CeilPowerOfTwoIsLeast(w, 1024);
    } else {
      CeilPowerOfTwoBounds(w);
    }
  }

  /** The outcome of at_calc_window_and_fft_size: *wsize, *fft_len and the frame
      duration it publishes through at_set_frame_duration. */
  datatype Sizes = Sizes(window: nat, fft: int, frameDuration: nat)

  /** True when the incoming *fft_len forces a recomputation. */
  predicate Recomputes(fftLen: int)
  {
    fftLen == 0 || fftLen > FftMax
  }

  /** at_calc_window_and_fft_size: the do/while loop as a tail recursion.  Each
      retry recomputes the window from a frame duration one millisecond shorter. */
  function CalcWindowAndFftSize(frameDur: nat, srate: nat, fftLen: int): (s: Sizes)
    requires frameDur * srate <= IntMax
    ensures s.fft <= FftMax
    ensures s.window % 2 == 0 && s.window == EvenWindow(s.frameDuration, srate)
    ensures s.frameDuration <= frameDur
    ensures !Recomputes(fftLen) ==> s.fft == fftLen && s.frameDuration == frameDur
    ensures Recomputes(fftLen) ==> s.fft == OptimalFftSize(s.window)
    ensures Recomputes(fftLen) ==> forall d: nat :: s.frameDuration < d <= frameDur ==>
              OptimalFftSize(EvenWindow(d, srate)) > FftMax
    decreases frameDur
  {
    var window := EvenWindow(frameDur, srate);
    if Recomputes(fftLen) then
      var fft := OptimalFftSize(window);
      if fft > FftMax then
        assert frameDur > 0;
        assert (frameDur - 1) * srate <= frameDur * srate;
        CalcWindowAndFftSize(frameDur - 1, srate, fft)
      else
        Sizes(window, fft, frameDur)
    else
      Sizes(window, fftLen, frameDur)
  }

  /** A recomputed window never exceeds WINDOW_MAX, and the transform is at least
      twice the window. */
  lemma SizingWindowBounds(frameDur: nat, srate: nat, fftLen: int)
    requires frameDur * srate <= IntMax
    requires Recomputes(fftLen)
    ensures var s := CalcWindowAndFftSize(frameDur, srate, fftLen);
      s.window <= WindowMax && 2 * s.window <= s.fft
  {
    var s := CalcWindowAndFftSize(frameDur, srate, fftLen);
    if s.window >= 1 {
      FitsIffWithinWindowMax(s.window);
      OptimalFftSizeBounds(s.window);
    }
  }

  /** The resolved duration is the largest one not above the request whose
      transform fits: every shorter-or-equal duration that fits is at most it. */
  lemma SizingPicksLargestFittingDuration(frameDur: nat, srate: nat, d: nat)
    requires frameDur * srate <= IntMax
    requires d <= frameDur && OptimalFftSize(EvenWindow(d, srate)) <= FftMax
    ensures d <= CalcWindowAndFftSize(frameDur, srate, 0).frameDuration
  {
  }

  /** At a zero frame duration the window and OPTIMAL_FFT_SIZE(0) are both 0, so the
      retry loop always stops there. */
  lemma SizingStopsAtZeroDuration(srate: nat, fftLen: int)
    requires Recomputes(fftLen)
    ensures CalcWindowAndFftSize(0, srate, fftLen) == Sizes(0, 0, 0)
  {
  }
}
