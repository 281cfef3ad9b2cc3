/** The transform shell and the half-complex index helpers of src/fft.c.

    A transform of size n works in FFTW's half-complex layout: index 0 holds the DC
    bin, indices 1..n/2 the real parts and indices n-1 down to n-n/2 the matching
    imaginary parts; when n is even, index n/2 is the purely real Nyquist bin. */
module Fft {
  import opened Errors
  import opened Numerics

  function Abs(x: real): real
  {
    if x < 0.0 then -x else x
  }

  /** A product of two samples.  Kept as a named function so that the solver treats
      the many products in the loop invariants below as terms, not as nonlinear
      arithmetic. */
  function Times(x: real, y: real): real
  {
    x * y
  }

  /** at_fftw_init: a transform of size 0 is fatal; otherwise a plan of that size. */
  function FftwInit(size: nat): (r: Result<nat>)
    ensures r.Fail? <==> size == 0
    ensures r.Fail? ==> r.error == InvalidFftSize
    ensures r.Ok? ==> r.value == size
  {
    if size == 0 then Fail(InvalidFftSize) else Ok(size)
  }

  /** The FFTW buffer after memset to zero and memcpy of the first `window` samples. */
  function Pad(x: seq<real>, window: nat, n: nat): (p: seq<real>)
    requires window <= |x| && window <= n
    ensures |p| == n
  {
    x[..window] + seq(n - window, _ => 0.0)
  }

  /** The transform result taken as exactly n values (FFTW plans of size n produce n). */
  function Fit(s: seq<real>, n: nat): (r: seq<real>)
    ensures |r| == n
  {
    if |s| >= n then s[..n] else s + seq(n - |s|, _ => 0.0)
  }

  /** at_compute_fft: zero-pad the first `window` samples to n and transform. */
  function ComputeFft(x: seq<real>, window: nat, n: nat, nx: Numerics): (r: seq<real>)
    requires window <= |x| && window <= n
    ensures |r| == n
  {
    Fit(nx.forward(Pad(x, window, n)), n)
  }

  /** at_compute_ifft: inverse transform, then write only the first `window` outputs
      of `dst`, each divided by n.  check_nan is the identity on reals. */
  function ComputeIfft(spec: seq<real>, window: nat, n: nat, nx: Numerics, dst: seq<real>): (r: seq<real>)
    requires |spec| == n && n >= 1 && window <= n && window <= |dst|
    ensures |r| == |dst|
    ensures forall k :: window <= k < |dst| ==> r[k] == dst[k]
    ensures forall k :: 0 <= k < window ==> r[k] * (n as real) == Fit(nx.backward(spec), n)[k]
  {
    var t := Fit(nx.backward(spec), n);
    seq(|dst|, k requires 0 <= k < |dst| => if k < window then t[k] / (n as real) else dst[k])
  }

  /** Samples beyond the window never influence the forward transform. */
  lemma FftIgnoresSamplesBeyondWindow(x: seq<real>, y: seq<real>, window: nat, n: nat, nx: Numerics)
    requires window <= |x| && window <= |y| && window <= n
    requires x[..window] == y[..window]
    ensures ComputeFft(x, window, n, nx) == ComputeFft(y, window, n, nx)
  {
    assert Pad(x, window, n) == Pad(y, window, n);
  }

  /** If the inverse plan undoes the forward plan up to the factor n on this input,
      the shell's round trip gives back the window unchanged. */
  lemma TransformRoundTrip(x: seq<real>, window: nat, n: nat, nx: Numerics)
    requires 1 <= n && window <= n && window <= |x|
    requires Fit(nx.backward(ComputeFft(x, window, n, nx)), n)
             == seq(n, k requires 0 <= k < n => (n as real) * Pad(x, window, n)[k])
    ensures ComputeIfft(ComputeFft(x, window, n, nx), window, n, nx, x) == x
  {
    var r := ComputeIfft(ComputeFft(x, window, n, nx), window, n, nx, x);
    var t := Fit(nx.backward(ComputeFft(x, window, n, nx)), n);
    forall k | 0 <= k < window
      ensures r[k] == x[k]
    {
      assert Pad(x, window, n)[k] == x[k];
      assert t[k] == (n as real) * x[k];
      CancelFactor(r[k], x[k], n as real);
    }
  }

  lemma CancelFactor(a: real, b: real, c: real)
    requires c != 0.0 && a * c == c * b
    ensures a == b
  {
  }

  /** Bin 0, and bin n/2 when n is even, carry no imaginary part. */
  predicate IsRealBin(n: nat, i: nat)
  {
    i == 0 || (i == n / 2 && n % 2 == 0)
  }

  /** Every index of a half-complex array of size n is reached exactly once by the
      `i <= n/2` loops: either as the real part i itself, or as the imaginary slot
      n - i of a bin i that is not purely real. */
  lemma HalfComplexCoverage(n: nat, k: nat)
    requires 1 <= n && k < n
    ensures k <= n / 2 <==> !(1 <= n - k <= n / 2 && !IsRealBin(n, n - k))
  {
  }

  /** calc_magnitude: real bins take sqrt(x*x) = |x|; the others the abstract hypot. */
  function Magnitude(freq: seq<real>, n: nat, nx: Numerics): (mag: seq<real>)
    requires 1 <= n <= |freq|
    ensures |mag| == n / 2 + 1
  {
    seq(n / 2 + 1, i requires 0 <= i <= n / 2 =>
      if IsRealBin(n, i) then Abs(freq[i]) else nx.hypot(freq[i], freq[n - i]))
  }

  /** calc_phase: real bins take the argument of (x, 0). */
  function Phase(freq: seq<real>, n: nat, nx: Numerics): (phase: seq<real>)
    requires 1 <= n <= |freq|
    ensures |phase| == n / 2 + 1
  {
    seq(n / 2 + 1, i requires 0 <= i <= n / 2 =>
      if IsRealBin(n, i) then nx.argument(freq[i], 0.0) else nx.argument(freq[i], freq[n - i]))
  }

  /** Value of index k of the spectrum rebuilt from magnitude and phase. */
  function PolarAt(mag: seq<real>, phase: seq<real>, n: nat, k: nat, nx: Numerics): real
    requires 1 <= n && k < n && n / 2 < |mag| && n / 2 < |phase|
  {
    if k <= n / 2 then
      (if IsRealBin(n, k) then mag[k] else Times(mag[k], nx.cos(phase[k])))
    else
      Times(mag[n - k], nx.sin(phase[n - k]))
  }

  /** Reference definition of the spectrum calc_fft_complex_data rebuilds, index by index. */
  function ComplexFromPolar(mag: seq<real>, phase: seq<real>, n: nat, nx: Numerics): (r: seq<real>)
    requires 1 <= n && n / 2 < |mag| && n / 2 < |phase|
    ensures |r| == n
  {
    seq(n, k requires 0 <= k < n => PolarAt(mag, phase, n, k, nx))
  }

  /** calc_fft_complex_data, the in-place loop over i in 0..n/2. */
  method CalcFftComplexData(mag: seq<real>, phase: seq<real>, n: nat, freq: seq<real>, nx: Numerics)
    returns (r: seq<real>)
    requires 1 <= n && |freq| == n && n / 2 < |mag| && n / 2 < |phase|
    ensures |r| == n
    ensures r[0] == mag[0]
    ensures n % 2 == 0 ==> r[n / 2] == mag[n / 2]
    ensures forall i :: 1 <= i <= n / 2 && !IsRealBin(n, i) ==>
              r[i] == Times(mag[i], nx.cos(phase[i])) && r[n - i] == Times(mag[i], nx.sin(phase[i]))
    ensures r == ComplexFromPolar(mag, phase, n, nx)
  {
    var h := n / 2;
    r := freq;
    var i := 0;
    while i <= h
      invariant 0 <= i <= h + 1 && |r| == n
      invariant forall k :: 0 <= k < i ==> r[k] == PolarAt(mag, phase, n, k, nx)
      invariant forall k :: h < k < n && n - k < i ==> r[k] == PolarAt(mag, phase, n, k, nx)
    {
      if IsRealBin(n, i) {
        r := r[i := mag[i]];
      } else {
        r := r[i := Times(mag[i], nx.cos(phase[i]))][n - i := Times(mag[i], nx.sin(phase[i]))];
      }
      i := i + 1;
    }
    assert forall k :: 0 <= k < n ==> r[k] == PolarAt(mag, phase, n, k, nx);
  }

  /** The real bins survive calc_magnitude followed by calc_fft_complex_data only as
      their absolute value: a negative DC (or Nyquist) value changes sign. */
  lemma RealBinRoundTrip(freq: seq<real>, n: nat, nx: Numerics)
    requires 1 <= n <= |freq|
    ensures var r := ComplexFromPolar(Magnitude(freq, n, nx), Phase(freq, n, nx), n, nx);
      && r[0] == Abs(freq[0])
      && (r[0] == freq[0] <==> freq[0] >= 0.0)
      && (n % 2 == 0 ==> r[n / 2] == Abs(freq[n / 2]))
  {
  }

  /** The bin whose pass of the `i <= n/2` loops reaches index k of the packed
      spectrum: k itself for a real part, n - k for an imaginary part. */
  function BinOf(n: nat, k: nat): (i: nat)
    requires 1 <= n && k < n
    ensures i <= n / 2
    ensures i == k || (i == n - k && 1 <= i && !IsRealBin(n, i))
  {
    if k <= n / 2 then k else n - k
  }

  /** Reference meaning of multiply_fft_spec_with_gain: every packed index is scaled
      by the gain of the bin it belongs to. */
  function ScaledSpectrum(gain: seq<real>, n: nat, freq: seq<real>): (r: seq<real>)
    requires 1 <= n && |freq| == n && n / 2 < |gain|
    ensures |r| == n
  {
    seq(n, k requires 0 <= k < n => Times(freq[k], gain[BinOf(n, k)]))
  }

  /** Bin i of the scaled spectrum multiplies both its real part i and, unless the
      bin is purely real, its imaginary part n - i by gain[i]. */
  lemma ScaledSpectrumBins(gain: seq<real>, n: nat, freq: seq<real>)
    requires 1 <= n && |freq| == n && n / 2 < |gain|
    ensures var r := ScaledSpectrum(gain, n, freq);
      && (forall i :: 0 <= i <= n / 2 ==> r[i] == Times(freq[i], gain[i]))
      && (forall i :: 1 <= i <= n / 2 && !IsRealBin(n, i) ==> r[n - i] == Times(freq[n - i], gain[i]))
  {
    var r := ScaledSpectrum(gain, n, freq);
    forall i | 1 <= i <= n / 2 && !IsRealBin(n, i)
      ensures r[n - i] == Times(freq[n - i], gain[i])
    {
      assert BinOf(n, n - i) == i;
    }
  }

  /** multiply_fft_spec_with_gain, the in-place loop over i in 0..n/2: pass i scales
      index i and, for a bin with an imaginary part, index n - i, so the result is
      the scaled spectrum. */
  method MultiplyFftSpecWithGain(gain: seq<real>, n: nat, freq: seq<real>) returns (r: seq<real>)
    requires 1 <= n && |freq| == n && n / 2 < |gain|
    ensures r == ScaledSpectrum(gain, n, freq)
  {
    var h := n / 2;
    r := freq;
    var i := 0;
    while i <= h
      invariant 0 <= i <= h + 1 && |r| == n
      invariant forall k :: 0 <= k < n && k < i ==> r[k] == Times(freq[k], gain[k])
      invariant forall k :: i <= k <= h ==> r[k] == freq[k]
      invariant forall k :: h < k < n && n - k < i ==> r[k] == Times(freq[k], gain[n - k])
      invariant forall k :: h < k < n && i <= n - k ==> r[k] == freq[k]
    {
      if IsRealBin(n, i) {
        r := r[i := Times(r[i], gain[i])];
      } else {
        r := r[i := Times(r[i], gain[i])][n - i := Times(r[n - i], gain[i])];
      }
      i := i + 1;
    }
    assert forall k :: 0 <= k < n ==> r[k] == ScaledSpectrum(gain, n, freq)[k];
  }
}
