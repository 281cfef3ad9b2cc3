/** The run configuration (AT_INFO of src/audiotools.h) and its validation in
    at_parse_input_args of src/audiotools.c.  The C program keeps it in a global;
    here it is a value passed explicitly. */
module Config {

  /** The fields of AT_INFO the engine reads.  File names are left to Extension. */
  datatype Info = Info(
    outChannels: int,
    lfeOnly: bool,
    frameDuration: int,
    overlap: int,
    volume: real,
    playbackSpeed: real)

  /** The state main sets up before option parsing: everything zero, except that
      the overlap starts at -1 (unset) and the volume at 1.0. */
  function Unset(): Info
  {
    Info(0, false, 0, -1, 1.0, 0.0)
  }

  /** at_parse_input_args: out-of-range settings silently fall back to defaults.
      Diagnostics printed for verbose runs are not modelled. */
  function ParseInputArgs(info: Info, inputChannels: int): (r: Info)
    ensures 10 <= r.frameDuration <= 30
    ensures 1 <= r.overlap <= 99
    ensures 0.0 <= r.volume <= 2.0 && 0.5 <= r.playbackSpeed <= 1.5
    ensures r.lfeOnly == info.lfeOnly
    ensures 10 <= info.frameDuration <= 30 ==> r.frameDuration == info.frameDuration
    ensures !(10 <= info.frameDuration <= 30) ==> r.frameDuration == 20
    ensures 1 <= info.overlap <= 99 ==> r.overlap == info.overlap
    ensures !(1 <= info.overlap <= 99) ==> r.overlap == 50
    ensures r.lfeOnly ==> r.outChannels == 1
    ensures !r.lfeOnly && (info.outChannels < 0 || 1 <= info.outChannels <= 6) ==> r.outChannels == info.outChannels
    ensures !r.lfeOnly && (info.outChannels == 0 || info.outChannels > 6) ==> r.outChannels == inputChannels
    ensures 0.0 <= info.volume <= 2.0 ==> r.volume == info.volume
    ensures !(0.0 <= info.volume <= 2.0) ==> r.volume == 1.0
    ensures 0.5 <= info.playbackSpeed <= 1.5 ==> r.playbackSpeed == info.playbackSpeed
    ensures !(0.5 <= info.playbackSpeed <= 1.5) ==> r.playbackSpeed == 1.0
  {
    var frameDuration :=
      if info.frameDuration == 0 || info.frameDuration > 30 || info.frameDuration < 10 then 20
      else info.frameDuration;
    var overlap :=
      if info.overlap == 0 || info.overlap < 0 || info.overlap > 99 then 50
      else info.overlap;
    var outChannels :=
      if info.outChannels == 0 || info.outChannels > 6 then inputChannels
      else info.outChannels;
    var outChannels' := if info.lfeOnly then 1 else outChannels;
    var volume := if info.volume > 2.0 || info.volume < 0.0 then 1.0 else info.volume;
    var playbackSpeed := if info.playbackSpeed > 1.5 || info.playbackSpeed < 0.5 then 1.0 else info.playbackSpeed;
    Info(outChannels', info.lfeOnly, frameDuration, overlap, volume, playbackSpeed)
  }

  /** Validation is idempotent: a validated configuration passes through unchanged. */
  lemma ParseInputArgsIdempotent(info: Info, inputChannels: int)
    ensures ParseInputArgs(ParseInputArgs(info, inputChannels), inputChannels) == ParseInputArgs(info, inputChannels)
  {
  }

  /** With no options given, a run uses 20 ms frames, 50 % overlap, unit volume and
      speed, and as many output channels as the input has. */
  lemma UnsetResolvesToDefaults(inputChannels: int)
    ensures ParseInputArgs(Unset(), inputChannels) == Info(inputChannels, false, 20, 50, 1.0, 1.0)
  {
  }

  /** An overlap of 0, which the help text documents as "no overlap", is reset to 50. */
  lemma ZeroOverlapIsReset(info: Info, inputChannels: int)
    requires info.overlap == 0
    ensures ParseInputArgs(info, inputChannels).overlap == 50
  {
  }

  /** The output channel count ends in 1..6 for a supported input, unless a negative
      request slipped through the check. */
  lemma OutputChannelsInRange(info: Info, inputChannels: int)
    requires 1 <= inputChannels <= 6
    ensures var r := ParseInputArgs(info, inputChannels);
      1 <= r.outChannels <= 6 <==> (info.lfeOnly || info.outChannels >= 0)
  {
  }
}
