# AudioTools channel-remixing engine in Dafny

This project models the core of AudioTools, a C command-line tool that converts
audio between channel layouts (mono to 5.1). It reads a file in overlapping
windows, upmixes the missing channels, scales, windows and re-synthesises each
channel through an FFT round trip, joins neighbouring windows by overlap-add and
writes the result in the requested layout. The model covers the parts the tool
computes itself:

- the sizing policy for window and transform;
- the channel-topology transform (separate, upmix, remap, combine);
- the LFE synthesis and the half-complex spectrum helpers;
- gain and windowing;
- the overlap-add bookkeeping of the processor loop;
- configuration clamping and the output-format choice made from file-name
  extensions.

One module per file:

| module | file | models |
|---|---|---|
| `Errors` | errors.dfy | the `exit(1)` paths as a `Result` with a `Fatal` error kind |
| `Numerics` | numerics.dfy | FFTW plans, `sqrt`, `atan`, `cos`, `sin`, the Hamming coefficient and a partial `memcpy` of one double, as caller-supplied functions |
| `Arith` | arith.dfy | the interleaved index `j*n + i` |
| `Sizing` | sizing.dfy | `FFT_MAX`, `WINDOW_MAX`, `OPTIMAL_FFT_SIZE`, `WINDOW_SIZE`, `at_calc_window_and_fft_size` |
| `Fft` | fft.dfy | `at_fftw_init`, `at_compute_fft`, `at_compute_ifft`, `calc_magnitude`, `calc_phase`, `calc_fft_complex_data`, `multiply_fft_spec_with_gain` |
| `Channels` | channels.dfy | the six-slot container, `at_allocate_buffer`, `at_separate_channels`, `at_combine_channels` |
| `Dsp` | dsp.dfy | `at_interleave_audio`, `at_create_lfe`, `at_audio_gain`, `apply_window` |
| `Overlap` | overlap.dfy | the `noverlap`/`nslide` split and the per-slot overlap-add loop |
| `Stream` | stream.dfy | the input file as interleaved frames read in blocks |
| `Config` | config.dfy | `AT_INFO` and `at_parse_input_args` |
| `Extension` | extension.dfy | the extension block of `main` |
| `Engine` | engine.dfy | `at_audio_processor` writing to a file |

Buffers are `seq<real>`. A C function that changes a buffer in place is modelled
as a function that returns the new buffer. Where the C code has an interesting
loop, a method with loop invariants over sequences is proved equal to a
closed-form reference function. Examples are the overlap-add step, the spectrum
gain, the spectrum rebuild and the extension upper-casing.

`Engine.Run` is the reference meaning of the processor loop. Pass `t` separates,
upmixes, scales, windows and re-synthesises the window of `window` frames that
starts at frame `t * nslide`. It reads zeros past the end of the file. It adds
the overlap tails carried from pass `t - 1`, remaps the slots for the output
layout and emits the first `nslide` frames. `Engine.AudioProcessor` follows the
C buffer handling instead:
- a first read of a whole window;
- a carry of `noverlap` frames;
- later reads of `nslide` frames written behind the carry;
- a do/while loop that stops after the first pass whose read found nothing.

It is proved to emit exactly the blocks of `Run`, one per pass. The number of
passes is `2 + ceil((frames - min(window, frames)) / nslide)`.

Behaviour of the C code that the model keeps, each stated as a proved property:

- **Mono upmix.** It passes the sample count to `memcpy` as a byte count. Only
  the first `length/8` samples of FR are copied whole. The next sample receives
  `length % 8` bytes of FL, and the rest of FR keeps its previous contents
  (`Dsp.MonoCopyIsPartial`).
- **Four-channel input.** It gains a center but never reaches LFE synthesis
  (`Dsp.UpmixSlotCoverage`).
- **Five-channel output.** The slot order is FL, FR, C, SL, LFE: the LFE slot's
  signal is emitted where SR belongs (`Channels.Remap`).
- **LFE-only swap.** Combined with a four- or five-channel layout, the remap is
  not an involution (`Channels.RemapLfeQuadNotInvolution`).
- **Overlap 0.** The help text documents 0 as "no overlap", but validation
  resets it to 50 (`Config.ZeroOverlapIsReset`). A window so small that
  `noverlap` is still 0 makes the tail a running sum of every frame so far
  (`Overlap.RunningSumWithoutOverlap`).
- **Extension case.** Only even positions are upper-cased, so "out.wav"
  selects no format while "out.WAV" selects WAV (`Extension.UpcaseExtension`,
  `Extension.LowerCaseWavIsNotRecognised`).
- **Real bins.** The DC bin and the even-size Nyquist bin lose their sign on the
  way through magnitude and phase (`Fft.RealBinRoundTrip`).
- **Negative output channel count.** It is not caught by validation
  (`Config.OutputChannelsInRange`).

Where the program's own comments and help text promise more than its code does,
the model follows the code:
- The comment "copy left channel to right" (src/dsp.c:285) sits above a `memcpy`
  of `length` bytes, not `length` samples.
- The help text (src/audiotools.c:241-242) gives the overlap range as 0..99,
  where 0 means no overlap. Validation resets 0 to 50.
- The help text (src/audiotools.c:228) gives "Valid values: <1 - 6>" for
  `--channels`. A negative request passes validation unchanged.

## Model

| member | source | states |
|---|---|---|
| Sizing.CeilPowerOfTwo | src/fft.h:27 | `pow(2, ceil(log2(x)))` is never below x; `Sizing.CeilPowerOfTwoIsPowerOfTwo` and `Sizing.CeilPowerOfTwoIsLeast` make it the least power of two that is not below x |
| Sizing.OptimalFftSize | src/fft.h:27 | OPTIMAL_FFT_SIZE(x) is even and at least 2x, so the transform holds the window with as much zero padding again |
| Sizing.WindowSize | src/fft.h:29 | WINDOW_SIZE(d, r) is the floor of d*r/1000: the count whose thousandfold is at most d*r, with the next count's above it |
| Sizing.CeilPowerOfTwoIsPowerOfTwo | src/fft.h:27 | `pow(2, ceil(log2(x)))` is a power of two for every x >= 1 |
| Sizing.CeilPowerOfTwoBounds | src/fft.h:27 | the next power of two of x lies in [x, 2x) |
| Sizing.CeilPowerOfTwoMonotone | src/fft.h:27 | the next power of two never decreases as x grows |
| Sizing.CeilPowerOfTwoIsLeast | src/fft.h:27 | no power of two at least x is below the next power of two of x |
| Sizing.OptimalFftSizeIsPowerOfTwo | src/fft.h:27 | OPTIMAL_FFT_SIZE(x) is a power of two |
| Sizing.OptimalFftSizeBounds | src/fft.h:27 | for x >= 1, 2x <= OPTIMAL_FFT_SIZE(x) < 4x |
| Sizing.OptimalFftSizeMonotone | src/fft.h:27 | OPTIMAL_FFT_SIZE is monotone non-decreasing |
| Sizing.WindowSizeMonotone | src/fft.h:29 | WINDOW_SIZE(d, r), the integer quotient d*r/1000, and its even round-up are monotone in the duration d |
| Sizing.FitsIffWithinWindowMax | src/fft.h:24-27 | a window w >= 1 has OPTIMAL_FFT_SIZE(w) <= FFT_MAX = 2048 exactly when w <= WINDOW_MAX = 1024 |
| Sizing.CalcWindowAndFftSize | src/fft.c:105-133 | the final size is at most FFT_MAX; the window is even and derived from the published duration; the duration never grows; an incoming size in 1..FFT_MAX (or negative) is returned unchanged with the duration; otherwise the size is OPTIMAL_FFT_SIZE(window) and every longer duration up to the request overflows FFT_MAX |
| Sizing.SizingWindowBounds | src/fft.c:110-125 | a recomputed window is at most WINDOW_MAX and the transform is at least twice the window |
| Sizing.SizingPicksLargestFittingDuration | src/fft.c:118-130 | the published duration is the largest duration not above the request whose transform fits |
| Sizing.SizingStopsAtZeroDuration | src/fft.c:110-125 | at duration 0 the window and the transform size are both 0, so the retry loop stops there |
| Fft.FftwInit | src/fft.c:36-52 | a transform size of 0 is the fatal InvalidFftSize; any other size is accepted |
| Fft.ComputeFft | src/fft.c:69-83 | the zero-padded forward transform fills all n values of the FFT buffer; `Fft.FftIgnoresSamplesBeyondWindow` states that it depends on the first `window` samples only |
| Fft.FftIgnoresSamplesBeyondWindow | src/fft.c:69-83 | inputs that agree on their first `window` samples have the same forward transform |
| Fft.ComputeIfft | src/fft.c:86-98 | only the first `window` outputs are written, each the inverse transform divided by the size; the rest of the destination is unchanged |
| Fft.TransformRoundTrip | src/fft.c:69-98 | when the inverse plan undoes the forward plan up to the factor n, the forward-then-inverse shell gives back the window unchanged |
| Fft.Magnitude | src/fft.c:136-147 | one magnitude per bin 0..n/2, read from the half-complex spectrum; `Fft.RealBinRoundTrip` states the value |x| of the DC bin and the even-size Nyquist bin |
| Fft.Phase | src/fft.c:150-160 | one phase per bin 0..n/2, the angle `Fft.CalcFftComplexData` later rebuilds the bin from |
| Fft.HalfComplexCoverage | src/fft.c:176-189 | every index of a half-complex array is reached exactly once by the `i <= n/2` loops, as a real part i or as the imaginary slot n - i of a bin with an imaginary part |
| Fft.BinOf | src/fft.c:195-201 | the bin whose loop pass touches packed index k is at most n/2, and is k itself or n - k for a bin with an imaginary part |
| Fft.CalcFftComplexData | src/fft.c:176-189 | the DC bin (and the even-size Nyquist bin) receive the bare magnitude, every other bin i gets mag*cos at i and mag*sin at n - i, and the result is the polar reference spectrum at every index |
| Fft.RealBinRoundTrip | src/fft.c:140-181 | magnitude then rebuild turns the DC bin (and the even-size Nyquist bin) into its absolute value, so it survives exactly when it is non-negative |
| Fft.MultiplyFftSpecWithGain | src/fft.c:192-205 | the in-place loop yields the reference spectrum in which every packed index is scaled once, by the gain of its own bin |
| Fft.ScaledSpectrumBins | src/fft.c:195-201 | in the scaled spectrum, index i <= n/2 is scaled by gain[i] and, for a bin with an imaginary part, index n - i by gain[i] too |
| Channels.AllocateBuffer | src/dsp.c:185-209 | a size of 0 is the fatal InvalidBufferSize; otherwise six zero-filled slots of that length with the given channel count and rate |
| Channels.SeparateChannels | src/dsp.c:221-236 | more than six channels is fatal before any write; otherwise slot i < n, sample j is `flat[j*n + i]` and every slot from n on is unchanged |
| Channels.SeparateReadsOnlyFrame | src/dsp.c:229-233 | separation reads only the first length*n samples of the buffer |
| Channels.Remap | src/dsp.c:247-269 | LFE-only swaps FL and LFE; four outputs give the order FL, FR, SL, SR (LFE, FR, SL, SR with the LFE swap); five give FL, FR, C, SL, LFE (LFE, FR, C, SL, FL with the LFE swap); other layouts keep the order |
| Channels.RemapIsPermutation | src/dsp.c:247-269 | every remap only permutes the six slots |
| Channels.RemapInvolution | src/dsp.c:247-269 | remapping twice restores the order, except when the LFE swap meets a four- or five-channel layout |
| Channels.RemapLfeQuadNotInvolution | src/dsp.c:248-262 | with the LFE swap and four outputs, two remaps do not restore the order |
| Channels.CombineChannels | src/dsp.c:239-281 | more than six channels is fatal; otherwise the container keeps its remapped slots, `flat[j*out + i]` is remapped slot i, sample j, and no other sample of the buffer changes |
| Channels.SeparateThenCombine | src/dsp.c:221-281 | separating n channels and combining them again, with no LFE swap and n not 4 or 5, reproduces the buffer |
| Channels.CombineThenSeparate | src/dsp.c:221-281 | combining out channels and separating them again yields the remapped slots |
| Dsp.MonoCopy | src/dsp.c:286-289 | the FR slot keeps its length; `Dsp.MonoCopyIsPartial` states which samples the byte-counted `memcpy` copies |
| Dsp.InterleaveAudio | src/dsp.c:284-320 | the container stays valid with its length, rate and channel count; `Dsp.UpmixSlotCoverage` and `Dsp.UpmixValues` state which slots each input count writes and with what |
| Dsp.MonoCopyIsPartial | src/dsp.c:286-289 | the mono copy sets only the first length/8 FR samples to FL; from sample length/8 + 1 on, FR keeps its contents |
| Dsp.UpmixSlotCoverage | src/dsp.c:284-320 | input 1 writes FR, C, SL, SR and LFE; input 2 writes C, SL, SR and LFE; input 3 writes SL, SR and LFE; input 4 writes only C; input 5 writes only LFE; input 6 writes nothing; no other slot changes |
| Dsp.UpmixValues | src/dsp.c:284-320 | C = (FL+FR)/4, SL = FL*0.2 and SR = FR*0.2, each for the input counts that reach that step; LFE is the filtered mean of FL, FR, C, SL and SR as updated; mono FR is the partial copy |
| Dsp.CutoffBin | src/dsp.c:362 | n_freq is the exact ceiling of 240*(fft/2 - 1)/fs |
| Dsp.ZeroFromBin | src/dsp.c:364-365 | magnitude bins from n_freq on become 0, lower bins are untouched, and nothing changes when n_freq is past the end |
| Dsp.CreateLfe | src/dsp.c:348-378 | the LFE slot keeps its length; `Dsp.LfeDiscardsBinsAboveCutoff` states that its content ignores the magnitudes from the cutoff bin on |
| Dsp.LfeDiscardsBinsAboveCutoff | src/dsp.c:348-378 | two channels whose spectra agree in phase and in magnitude below the cutoff bin produce the same LFE signal |
| Dsp.AudioGain | src/dsp.c:323-331 | every sample of all six slots is multiplied by the gain; a gain of 1.0 leaves the same values |
| Dsp.ApplyWindow | src/dsp.c:335-345 | sample j < n of every slot is multiplied by the Hamming coefficient of j; later samples are untouched |
| Dsp.GainCommutesWithWindow | src/dsp.c:110-115 | a note on the model, not a promise of the program: gain and window each scale every sample by its own factor, so the order in which the processor applies them does not matter |
| Overlap.OverlapSizes | src/dsp.c:51-52 | noverlap is floor(window*overlap/100) and nslide = window - noverlap, at least 1 for a non-empty window |
| Overlap.OverlapAdd | src/dsp.c:126-129 | the reference overlap-add keeps the frame's length and an nslide-sample tail; `Overlap.OverlapAddInPlace`, `Overlap.RunningSumWithoutOverlap` and `Overlap.TailWithOverlapIsPreviousFrame` state its values |
| Overlap.OverlapAddInPlace | src/dsp.c:126-129 | the first nslide samples gain the tail; with overlap, the new tail is the frame shifted by noverlap as it was before the loop; without, it is the summed samples; the result is the reference overlap-add |
| Overlap.RunningSumWithoutOverlap | src/dsp.c:126-129 | with noverlap = 0, the tail after any number of frames is the running sum of all of them |
| Overlap.TailWithOverlapIsPreviousFrame | src/dsp.c:126-129 | with noverlap > 0, each emitted sample is the new frame's sample plus the previous frame's sample noverlap later, with no older history |
| Stream.WindowFrames | src/dsp.c:84-96 | sample i of frame j of a read window is sample i of frame start + j of the file, or 0 past the last frame |
| Stream.WindowConcat | src/dsp.c:92-95 | two adjacent windows put together are the window spanning both |
| Stream.ReadFrames | src/dsp.c:86-92 | a read of n frames delivers the window at the position; it counts n when the file has n frames left, else the frames that remain |
| Config.ParseInputArgs | src/audiotools.c:314-357 | duration ends in 10..30 (kept or 20), overlap in 1..99 (kept or 50), volume in [0, 2] (kept or 1.0), speed in [0.5, 1.5] (kept or 1.0); 0 or more than 6 output channels become the input count, a negative count survives, and LFE-only forces 1 |
| Config.ParseInputArgsIdempotent | src/audiotools.c:314-357 | validating a validated configuration changes nothing |
| Config.UnsetResolvesToDefaults | src/audiotools.c:50-52 | with no options, a run uses 20 ms, 50 % overlap, unit volume and speed, and the input's channel count |
| Config.ZeroOverlapIsReset | src/audiotools.c:324-328 | an overlap of 0 becomes 50 |
| Config.OutputChannelsInRange | src/audiotools.c:331-340 | for a supported input, the output count ends in 1..6 exactly when LFE-only is set or the request was not negative |
| Extension.LastDot | src/audiotools.c:135-145 | `strrchr(s, '.')`: the index of a dot with no dot after it, or -1 when there is no dot |
| Extension.UpcaseExtension | src/audiotools.c:151-159 | the loop upper-cases the even positions, leaves the odd positions as they were, and yields the normalised extension |
| Extension.ChooseOutputFormat | src/audiotools.c:135-176 | a format other than the input's needs two dotted names whose normalised extensions differ; WAV needs "WAV" or "WAVE", FLAC needs "FLAC" and Ogg needs "OGG" |
| Extension.ChooseOutputFormatSelects | src/audiotools.c:161-174 | conversely, with two dotted names whose normalised extensions differ, "WAV" or "WAVE" selects WAV, "FLAC" selects FLAC, "OGG" selects Ogg Vorbis, and any other extension keeps the input's format |
| Extension.LowerCaseWavIsNotRecognised | src/audiotools.c:151-166 | an output extension "wav" normalises to "WaV" and keeps the input's format |
| Extension.UpperCaseWavIsRecognised | src/audiotools.c:151-166 | an output extension "WAV" selects WAV output unless the input's extension normalises to the same |
| Engine.MakeSetup | src/dsp.c:46-52 | the setup's transform size is 0 exactly when its window is; a non-empty window fits at most half the transform, which is at most FFT_MAX; noverlap + nslide is the window |
| Engine.Run | src/dsp.c:84-153 | after t passes the reference run holds t blocks of nslide frames in the output layout each, and slots of the working sizes |
| Engine.Step | src/dsp.c:105-139 | one pass over a window emits nslide frames of the output layout and keeps slots of the working sizes |
| Engine.ExtraReadsIsCeiling | src/dsp.c:92-98 | the later reads that still find frames when rem frames remain number ceil(rem/nslide) |
| Engine.PassCountByReads | src/dsp.c:84-153 | the pass count is the first pass, one pass per later read that finds frames, and the final pass |
| Engine.ReadsLeft | src/dsp.c:92-98 | a read that finds frames leaves one fewer such read to come; one that finds none means the file is exhausted |
| Engine.EmitPass | src/dsp.c:105-139 | more than six input channels is fatal; otherwise the emitted block is the first nslide frames of the combined buffer and equals the reference pass over the buffer's first window |
| Engine.EmitAndRecord | src/dsp.c:105-139 | when the buffer holds window t, processing it extends the reference run by pass t |
| Engine.AssembledWindow | src/dsp.c:92-93 | the carry followed by the nslide frames read behind it is the window that starts at the carry |
| Engine.SaveCarry | src/dsp.c:88-95 | the saved carry, the last noverlap frames of the window, is the start of the window nslide frames on |
| Engine.AssembleFirst | src/dsp.c:85-90 | the first pass holds the window at frame 0, counts min(window, frames) and carries the start of window 1 |
| Engine.Refill | src/dsp.c:91-98 | a later pass holds its own window, reads min(nslide, frames left) frames and moves the file position to that of the next window |
| Engine.NextPass | src/dsp.c:91-139 | one later pass advances the window start by nslide and the reference run by one block, and keeps file position and carry in step |
| Engine.ProcessPasses | src/dsp.c:71-153 | from the first window on, with zero-filled working slots, more than six input channels is fatal; otherwise the do/while loop emits exactly the blocks of the reference run, as many as the pass count |
| Engine.ValidatedConfigIsAccepted | src/audiotools.c:314-340 | a validated configuration, unless a negative channel count was requested, has an overlap below 100, a duration whose window product fits a C `int` for rates up to INT_MAX/30, at least one output channel, and more than six output channels only for an input of more than six |
| Engine.AudioProcessor | src/dsp.c:27-183 | an empty window, an empty file and more than six input channels (also when validation set more than six outputs) are fatal, each with its own error and in that order; otherwise the emitted blocks are exactly those of the reference run, one per pass, and there are 2 + ceil((frames - min(window, frames))/nslide) of them |

## Left out

- FFTW, `sqrt`, `atan`, `cos`, `sin` and the Hamming coefficient are parameters (`Numerics`), taken as total functions. One exception: `Fft.Magnitude` fixes `sqrt(x*x)` as `|x|` for the DC bin and the even-size Nyquist bin, rather than leaving it to the `hypot` parameter. `Fft.RealBinRoundTrip` relies on that, so it would fail for a `sqrt` that is not exact. `Fft.TransformRoundTrip` states the inverse property as a hypothesis.
- `calc_power_spectrum` and `complex_argument` (src/fft.c:162-173, 207-221) are numeric internals. `complex_argument` is the `argument` parameter.
- `check_nan` (src/common.c:58-64) is the identity: reals have no NaN or infinity.
- Constants such as 0.2, /4.0 and /5.0 are exact reals, not doubles.
- The output sample rate `floor(samplerate * playback_speed)` (src/dsp.c:42) only labels the output and is float-dependent. The configured speed is validated but not used further.
- PulseAudio playback (src/dsp.c:58-65, 140-159 and src/pa_play.c) is left out, along with its `float` conversion. `Engine.AudioProcessor` models the file sink only.
- libsndfile is not part of this model. `Stream.ReadFrames` assumes that a read past the end of the file zero-fills the rest of the request. This is the model's own assumption: `sf_readf_double` promises only the count of frames read.
- `Engine.AudioProcessor`: emits zeros where the C program may emit stale samples. The processor reads into the same buffer it combines into (src/dsp.c:54, 91-95, 135). A reader that left the unread part of a request untouched would leave the previous pass's combined output there. That output would then be separated, transformed and overlapped as if it were input. The final block is always affected, because the loop ends with a read that finds nothing (src/dsp.c:153). The block before it is affected too when its read was short (0 < frames read < nslide). The first block is never affected, because the buffer starts zero-filled (src/common.c:33-34).
- `Engine.AudioProcessor`: the written output is the list of emitted blocks. The `sf_writef_double` call itself, printing of the elapsed time and closing the files are not modelled.
- Option parsing with getopt, `help`, `at_print_status_info`, `show_time` and all diagnostics printed by validation are left out.
- Allocation and freeing (`init_buffer_dbl`, `at_free_buffer`, `at_fftw_free`) are left out. A failing `malloc` is not modelled. `malloc(0)` for an empty carry is taken to succeed.
- The transform-domain container `audio_data_fft` is not kept. Each slot's spectrum goes straight into the inverse transform, so the container's contents are never observed.
- Global mutable state (the `AT_INFO` global and the static FFT plan) is replaced by explicit parameters.
- C integer widths are left out: `size_t`, `sf_count_t` and `int` arithmetic is unbounded. `Sizing.CalcWindowAndFftSize` requires `frameDur * srate` to fit in a C `int`, because the C product would overflow otherwise.
- `Extension.ChooseOutputFormat` requires both extensions to fit the ten-character buffer with its terminator, but only when an output name is given and both names have a dot. Only then does `strncpy` copy them (src/audiotools.c:135-146). For a longer extension it leaves the buffer unterminated, and the C behaviour is undefined. Without an output name, or with a dotless one, any extension keeps the input's format.
- `Engine.AudioProcessor` requires at least one output channel, more than six only when the input has more than six, and an overlap in 0..99. `Engine.ValidatedConfigIsAccepted` shows that validation guarantees this except for a negative `--channels` request. The processor's behaviour for a negative count is not modelled.
- `Extension.UpcaseExtension`: file names are modelled one character per byte, so only ASCII names are modelled faithfully. The C code upper-cases even byte offsets and `ExtensionFits` counts characters, not UTF-8 bytes. The chosen format is the same either way, because only an all-ASCII extension can normalise to "WAV", "WAVE", "FLAC" or "OGG".
