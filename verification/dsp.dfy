/** The per-frame sample stages of src/dsp.c: the upmix of at_interleave_audio, the
    spectral LFE synthesis of at_create_lfe, the gain of at_audio_gain and the
    windowing of apply_window. */
module Dsp {
  import opened Numerics
  import opened Fft
  import opened Channels

  /** CUTOFF_FREQ of the LFE low-pass, in Hz. */
  const CutoffFreq: nat := 120

  /** The container with slot s replaced. */
  function WithSlot(c: Container, s: nat, x: seq<real>): (r: Container)
    requires c.Valid() && s < MaxChannels && |x| == c.length
    ensures r.Valid() && r.length == c.length && r.samplerate == c.samplerate && r.usedChannels == c.usedChannels
    ensures r.channel[s] == x && forall t :: 0 <= t < MaxChannels && t != s ==> r.channel[t] == c.channel[t]
  {
    c.(channel := c.channel[s := x])
  }

  /** `memcpy(FR, FL, length)`: the length is a sample count passed as a byte count,
      so only the first length/8 samples are copied whole, the next one receives
      length%8 bytes of its FL counterpart, and the rest keep their old value. */
  function MonoCopy(fl: seq<real>, fr: seq<real>, nx: Numerics): (r: seq<real>)
    requires |fl| == |fr|
    ensures |r| == |fr|
  {
    var bytes := |fr|;
    seq(|fr|, j requires 0 <= j < |fr| =>
      if j < bytes / 8 then fl[j]
      else if j == bytes / 8 && bytes % 8 != 0 then nx.byteSplice(fl[j], fr[j], bytes % 8)
      else fr[j])
  }

  /** The mono copy reaches only the first eighth of the channel: from sample
      length/8 + 1 on, FR keeps its previous contents. */
  lemma MonoCopyIsPartial(fl: seq<real>, fr: seq<real>, nx: Numerics)
    requires |fl| == |fr|
    ensures forall j :: 0 <= j < |fr| && j < |fr| / 8 ==> MonoCopy(fl, fr, nx)[j] == fl[j]
    ensures forall j :: |fr| / 8 < j < |fr| ==> MonoCopy(fl, fr, nx)[j] == fr[j]
    ensures |fr| >= 2 ==> MonoCopy(fl, fr, nx)[|fr| - 1] == fr[|fr| - 1]
  {
  }

  /** The derived center: (FL + FR) / 4. */
  function Center(fl: seq<real>, fr: seq<real>): (r: seq<real>)
    requires |fl| == |fr|
    ensures |r| == |fl|
  {
    seq(|fl|, i requires 0 <= i < |fl| => (fl[i] + fr[i]) / 4.0)
  }

  /** A derived surround channel: its front counterpart times 0.2. */
  function Surround(front: seq<real>): (r: seq<real>)
    ensures |r| == |front|
  {
    seq(|front|, i requires 0 <= i < |front| => front[i] * 0.2)
  }

  /** The mono mix-down stored in the LFE slot before filtering. */
  function LfeMix(fl: seq<real>, fr: seq<real>, c: seq<real>, sl: seq<real>, sr: seq<real>): (r: seq<real>)
    requires |fr| == |fl| && |c| == |fl| && |sl| == |fl| && |sr| == |fl|
    ensures |r| == |fl|
  {
    seq(|fl|, i requires 0 <= i < |fl| => (fl[i] + fr[i] + c[i] + sl[i] + sr[i]) / 5.0)
  }

  /** n_freq = ceil(2 * CUTOFF_FREQ * (fft/2.0 - 1) / fs).  The numerator is the
      integer CUTOFF_FREQ*fft - 2*CUTOFF_FREQ, so the ceiling is exact. */
  function CutoffBin(fft: nat, fs: int): (n: int)
    requires 2 <= fft && 0 < fs
    ensures 0 <= n
    ensures n * fs >= CutoffFreq * fft - 2 * CutoffFreq
    ensures (n - 1) * fs < CutoffFreq * fft - 2 * CutoffFreq
  {
    var num := CutoffFreq * fft - 2 * CutoffFreq;
    var q := (num + fs - 1) / fs;
    assert num + fs - 1 == q * fs + (num + fs - 1) % fs;
    q
  }

  /** The cutoff loop of at_create_lfe: magnitude bins from n_freq up to fft/2 become
      zero, lower bins are untouched, and nothing changes when n_freq is past the end. */
  function ZeroFromBin(mag: seq<real>, from: int): (r: seq<real>)
    requires 0 <= from
    ensures |r| == |mag|
    ensures forall i :: from <= i < |mag| ==> r[i] == 0.0
    ensures forall i :: 0 <= i < |mag| && i < from ==> r[i] == mag[i]
    ensures from >= |mag| ==> r == mag
  {
    seq(|mag|, i requires 0 <= i < |mag| => if from <= i then 0.0 else mag[i])
  }

  /** at_create_lfe: forward transform, magnitude and phase, zero the magnitude from
      the cutoff bin on, rebuild the spectrum from the untouched phases, and write
      the inverse transform back over the channel. */
  function CreateLfe(lfe: seq<real>, fs: int, fft: nat, nx: Numerics): (r: seq<real>)
    requires |lfe| <= fft && 2 <= fft && 0 < fs
    ensures |r| == |lfe|
  {
    var spec := ComputeFft(lfe, |lfe|, fft, nx);
    var mag := Magnitude(spec, fft, nx);
    var phase := Phase(spec, fft, nx);
    var kept := ZeroFromBin(mag, CutoffBin(fft, fs));
    ComputeIfft(ComplexFromPolar(kept, phase, fft, nx), |lfe|, fft, nx, lfe)
  }

  /** The synthesised LFE is a magnitude-domain low-pass: two channels whose spectra
      agree in phase everywhere and in magnitude below the cutoff bin give the same
      LFE signal, whatever their magnitudes above it. */
  lemma LfeDiscardsBinsAboveCutoff(x: seq<real>, y: seq<real>, fs: int, fft: nat, nx: Numerics)
    requires |x| == |y| && |x| <= fft && 2 <= fft && 0 < fs
    requires var sx, sy := ComputeFft(x, |x|, fft, nx), ComputeFft(y, |y|, fft, nx);
      && Phase(sx, fft, nx) == Phase(sy, fft, nx)
      && forall i :: 0 <= i <= fft / 2 && i < CutoffBin(fft, fs) ==>
           Magnitude(sx, fft, nx)[i] == Magnitude(sy, fft, nx)[i]
    ensures CreateLfe(x, fs, fft, nx) == CreateLfe(y, fs, fft, nx)
  {
    var sx, sy := ComputeFft(x, |x|, fft, nx), ComputeFft(y, |y|, fft, nx);
    var cut := CutoffBin(fft, fs);
    assert ZeroFromBin(Magnitude(sx, fft, nx), cut) == ZeroFromBin(Magnitude(sy, fft, nx), cut);
  }

  /** Slots at_interleave_audio writes for each input channel count. */
  function FilledSlots(inputChannels: int): set<nat>
  {
    if inputChannels == 1 then {FR, C, SL, SR, LFE}
    else if inputChannels == 2 then {C, SL, SR, LFE}
    else if inputChannels == 3 then {SL, SR, LFE}
    else if inputChannels == 4 then {C}
    else if inputChannels == 5 then {LFE}
    else {}
  }

  /** at_interleave_audio: each step fills the slots the next channel count lacks and
      advances the count, except that four channels gain a center but stay at four,
      so the LFE step is not reached for them. */
  function InterleaveAudio(c: Container, inputChannels: int, fft: nat, nx: Numerics): (r: Container)
    requires c.Valid() && c.length <= fft && 2 <= fft && 0 < c.samplerate
    ensures r.Valid() && r.length == c.length && r.samplerate == c.samplerate && r.usedChannels == c.usedChannels
  {
    var c1 := if inputChannels == 1 then WithSlot(c, FR, MonoCopy(c.channel[FL], c.channel[FR], nx)) else c;
    var n1 := if inputChannels == 1 then 2 else inputChannels;
    var c2 := if n1 == 2 || n1 == 4 then WithSlot(c1, C, Center(c1.channel[FL], c1.channel[FR])) else c1;
    var n2 := if n1 == 2 then 3 else n1;
    var c3 := if n2 == 3 then WithSlot(WithSlot(c2, SL, Surround(c2.channel[FL])), SR, Surround(c2.channel[FR])) else c2;
    var n3 := if n2 == 3 then 5 else n2;
    if n3 == 5 then
      var mix := LfeMix(c3.channel[FL], c3.channel[FR], c3.channel[C], c3.channel[SL], c3.channel[SR]);
      WithSlot(c3, LFE, CreateLfe(mix, c3.samplerate, fft, nx))
    else c3
  }

  /** Slot coverage of the upmix: a slot outside FilledSlots(n) is never written, so
      FL always survives, four channels keep their LFE slot, and six keep everything. */
  lemma UpmixSlotCoverage(c: Container, inputChannels: int, fft: nat, nx: Numerics)
    requires c.Valid() && c.length <= fft && 2 <= fft && 0 < c.samplerate
    ensures var r := InterleaveAudio(c, inputChannels, fft, nx);
      forall s: nat :: s < MaxChannels && s !in FilledSlots(inputChannels) ==> r.channel[s] == c.channel[s]
  {
  }

  /** The values the upmix derives, sample by sample, for every input count that
      fills a slot: C = (FL + FR)/4, SL = FL*0.2, SR = FR*0.2 from the already
      updated front channels, and the LFE slot is the filtered mean of FL, FR, C, SL
      and SR as they stand after those updates. */
  lemma UpmixValues(c: Container, inputChannels: int, fft: nat, nx: Numerics)
    requires c.Valid() && c.length <= fft && 2 <= fft && 0 < c.samplerate
    ensures var r := InterleaveAudio(c, inputChannels, fft, nx);
      && (inputChannels == 1 ==> r.channel[FR] == MonoCopy(c.channel[FL], c.channel[FR], nx))
      && (inputChannels in {1, 2, 4} ==> forall i :: 0 <= i < c.length ==>
            r.channel[C][i] == (r.channel[FL][i] + r.channel[FR][i]) / 4.0)
      && (inputChannels in {1, 2, 3} ==> forall i :: 0 <= i < c.length ==>
            r.channel[SL][i] == r.channel[FL][i] * 0.2 && r.channel[SR][i] == r.channel[FR][i] * 0.2)
      && (inputChannels in {1, 2, 3, 5} ==>
            r.channel[LFE] == CreateLfe(LfeMix(r.channel[FL], r.channel[FR], r.channel[C], r.channel[SL], r.channel[SR]),
                                        c.samplerate, fft, nx))
  {
  }

  /** at_audio_gain: every sample of all six slots is scaled by the gain; a gain of
      exactly 1.0 skips the pass, which leaves the same values. */
  function AudioGain(c: Container, gain: real): (r: Container)
    requires c.Valid()
    ensures r.Valid() && r.length == c.length && r.samplerate == c.samplerate && r.usedChannels == c.usedChannels
    ensures forall s, i :: 0 <= s < MaxChannels && 0 <= i < c.length ==> r.channel[s][i] == Times(c.channel[s][i], gain)
  {
    if gain != 1.0 then
      c.(channel := seq(MaxChannels, s requires 0 <= s < MaxChannels =>
        seq(c.length, i requires 0 <= i < c.length => Times(c.channel[s][i], gain))))
    else
      c
  }

  /** apply_window: sample j < n of every slot is multiplied by the Hamming
      coefficient of j in a window of n; samples past n are untouched. */
  function ApplyWindow(c: Container, n: nat, nx: Numerics): (r: Container)
    requires c.Valid() && n <= c.length
    ensures r.Valid() && r.length == c.length && r.samplerate == c.samplerate && r.usedChannels == c.usedChannels
    ensures forall s, j :: 0 <= s < MaxChannels && 0 <= j < n ==> r.channel[s][j] == Times(c.channel[s][j], nx.hamming(j, n))
    ensures forall s, j :: 0 <= s < MaxChannels && n <= j < c.length ==> r.channel[s][j] == c.channel[s][j]
  {
    c.(channel := seq(MaxChannels, s requires 0 <= s < MaxChannels =>
      seq(c.length, j requires 0 <= j < c.length =>
        if j < n then Times(c.channel[s][j], nx.hamming(j, n)) else c.channel[s][j])))
  }

  /** Gain and window both scale each sample by a factor of its own, so applying the
      gain before the window, as the processor does, gives the same slots as
      applying it after. */
  lemma GainCommutesWithWindow(c: Container, gain: real, n: nat, nx: Numerics)
    requires c.Valid() && n <= c.length
    ensures ApplyWindow(AudioGain(c, gain), n, nx) == AudioGain(ApplyWindow(c, n, nx), gain)
  {
    var a, b := ApplyWindow(AudioGain(c, gain), n, nx), AudioGain(ApplyWindow(c, n, nx), gain);
    forall s | 0 <= s < MaxChannels
      ensures a.channel[s] == b.channel[s]
    {
      forall j | 0 <= j < c.length
        ensures a.channel[s][j] == b.channel[s][j]
      {
        if j < n {
          var x, h := c.channel[s][j], nx.hamming(j, n);
          assert (x * gain) * h == (x * h) * gain;
        }
      }
    }
    assert a.channel == b.channel;
  }
}
