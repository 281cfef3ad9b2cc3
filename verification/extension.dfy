/** The output-format choice main makes from the file-name extensions
    (src/audiotools.c): both extensions are copied, their characters at even
    positions are upper-cased, and a differing output extension selects WAV, FLAC
    or Ogg Vorbis. */
module Extension {

  datatype Option<T> = None | Some(value: T)

  /** The libsndfile formats main may select; InputFormat keeps the one sf_open read. */
  datatype Format = InputFormat | WavPcm16 | FlacPcm16 | OggVorbis

  /** strncpy copies at most ten characters into `char ext[10]`. */
  const ExtensionCapacity: nat := 10

  /** A C string: no embedded NUL. */
  predicate IsCString(s: string)
  {
    forall i :: 0 <= i < |s| ==> s[i] != '\0'
  }

  /** strrchr(s, '.'): the index of the last dot, or -1 when there is none. */
  function LastDot(s: string): (r: int)
    ensures -1 <= r < |s|
    ensures r >= 0 ==> s[r] == '.' && forall k :: r < k < |s| ==> s[k] != '.'
    ensures r == -1 ==> forall k :: 0 <= k < |s| ==> s[k] != '.'
    decreases |s|
  {
    if |s| == 0 then -1
    else if s[|s| - 1] == '.' then |s| - 1
    else LastDot(s[..|s| - 1])
  }

  /** Everything after the last dot. */
  function ExtensionOf(s: string): string
    requires LastDot(s) >= 0
  {
    s[LastDot(s) + 1..]
  }

  /** The file name is a C string whose extension, if any, fits the ten-character
      buffer together with its terminator (a longer one leaves it unterminated). */
  predicate ExtensionFits(s: string)
  {
    IsCString(s) && (LastDot(s) >= 0 ==> |ExtensionOf(s)| < ExtensionCapacity)
  }

  /** toupper in the C locale. */
  function ToUpper(c: char): char
  {
    if 'a' <= c <= 'z' then (c as int - 32) as char else c
  }

  /** What the normalisation loop leaves in the buffer. */
  function NormaliseExtension(ext: string): (r: string)
    ensures |r| == |ext|
  {
    seq(|ext|, i requires 0 <= i < |ext| => if i % 2 == 0 then ToUpper(ext[i]) else ext[i])
  }

  /** The loop `for (i = 0; i < strlen(ext); i++) { ext[i] = toupper(ext[i]); i++; }`:
      i advances twice per pass, so only even positions are upper-cased and odd
      positions keep their case. */
  method UpcaseExtension(ext: string) returns (r: string)
    ensures |r| == |ext|
    ensures forall i :: 0 <= i < |ext| && i % 2 == 0 ==> r[i] == ToUpper(ext[i])
    ensures forall i :: 0 <= i < |ext| && i % 2 == 1 ==> r[i] == ext[i]
    ensures r == NormaliseExtension(ext)
  {
    var a := new char[|ext|];
    forall k | 0 <= k < |ext| {
      a[k] := ext[k];
    }
    var i := 0;
    while i < |ext|
      invariant 0 <= i <= |ext| + 1 && i % 2 == 0
      invariant forall k :: 0 <= k < |ext| && k < i ==> a[k] == NormaliseExtension(ext)[k]
      invariant forall k :: i <= k < |ext| ==> a[k] == ext[k]
    {
      a[i] := ToUpper(a[i]);
      i := i + 1;
      i := i + 1;
    }
    r := a[..];
  }

  /** The format main stores in sfinfo.format before opening the output file.
      The extensions are copied only when an output is given and both names have a
      dot, so only then must they fit the buffer. */
  function ChooseOutputFormat(inFile: string, outFile: Option<string>): (r: Format)
    requires IsCString(inFile) && (outFile.Some? ==> IsCString(outFile.value))
    requires outFile.Some? && LastDot(inFile) >= 0 && LastDot(outFile.value) >= 0 ==>
               ExtensionFits(inFile) && ExtensionFits(outFile.value)
    ensures r != InputFormat ==>
              && outFile.Some? && LastDot(inFile) >= 0 && LastDot(outFile.value) >= 0
              && NormaliseExtension(ExtensionOf(inFile)) != NormaliseExtension(ExtensionOf(outFile.value))
    ensures r == WavPcm16 ==> NormaliseExtension(ExtensionOf(outFile.value)) in {"WAV", "WAVE"}
    ensures r == FlacPcm16 ==> NormaliseExtension(ExtensionOf(outFile.value)) == "FLAC"
    ensures r == OggVorbis ==> NormaliseExtension(ExtensionOf(outFile.value)) == "OGG"
  {
    if outFile.None? || LastDot(inFile) < 0 || LastDot(outFile.value) < 0 then InputFormat
    else
      var extIn := NormaliseExtension(ExtensionOf(inFile));
      var extOut := NormaliseExtension(ExtensionOf(outFile.value));
      if extIn == extOut then InputFormat
      else if extOut == "WAV" || extOut == "WAVE" then WavPcm16
      else if extOut == "FLAC" then FlacPcm16
      else if extOut == "OGG" then OggVorbis
      else InputFormat
  }

  /** The converse of ChooseOutputFormat's contract: once both names have an
      extension and the normalised extensions differ, "WAV" or "WAVE" selects WAV,
      "FLAC" selects FLAC, "OGG" selects Ogg Vorbis, and anything else keeps the
      input's format. */
  lemma ChooseOutputFormatSelects(inFile: string, outFile: string)
    requires ExtensionFits(inFile) && ExtensionFits(outFile)
    requires LastDot(inFile) >= 0 && LastDot(outFile) >= 0
    requires NormaliseExtension(ExtensionOf(inFile)) != NormaliseExtension(ExtensionOf(outFile))
    ensures var e, r := NormaliseExtension(ExtensionOf(outFile)), ChooseOutputFormat(inFile, Some(outFile));
      && (e == "WAV" || e == "WAVE" ==> r == WavPcm16)
      && (e == "FLAC" ==> r == FlacPcm16)
      && (e == "OGG" ==> r == OggVorbis)
      && (e != "WAV" && e != "WAVE" && e != "FLAC" && e != "OGG" ==> r == InputFormat)
  {
  }

  /** Because odd positions keep their case, a lower-case output extension "wav"
      normalises to "WaV" and selects nothing: the input's format is kept. */
  lemma LowerCaseWavIsNotRecognised(inFile: string, outFile: string)
    requires ExtensionFits(inFile) && ExtensionFits(outFile)
    requires LastDot(outFile) >= 0 && ExtensionOf(outFile) == "wav"
    ensures ChooseOutputFormat(inFile, Some(outFile)) == InputFormat
  {
    assert NormaliseExtension("wav") == "WaV";
  }

  /** An upper-case output extension "WAV" selects WAV output whenever the input's
      extension does not normalise to the same. */
  lemma UpperCaseWavIsRecognised(inFile: string, outFile: string)
    requires ExtensionFits(inFile) && ExtensionFits(outFile)
    requires LastDot(inFile) >= 0 && NormaliseExtension(ExtensionOf(inFile)) != "WAV"
    requires LastDot(outFile) >= 0 && ExtensionOf(outFile) == "WAV"
    ensures ChooseOutputFormat(inFile, Some(outFile)) == WavPcm16
  {
    assert NormaliseExtension("WAV") == "WAV";
  }
}
