/** The WAV container as the application uses it (hound's `WavSpec`,
    `WavReader` and `WavWriter`): the header record, the format guard applied
    when a file is read, and the append-only writer filled during capture. */
module Wav {
  import opened Wrappers

  newtype int16 = x: int | -0x8000 <= x < 0x8000
  newtype uint16 = x: int | 0 <= x < 0x1_0000
  newtype uint32 = x: int | 0 <= x < 0x1_0000_0000

  datatype SampleFormat = Float | Int

  /** hound's `WavSpec`. */
  datatype WavSpec = WavSpec(
    channels: uint16,
    sampleRate: uint32,
    bitsPerSample: uint16,
    sampleFormat: SampleFormat)

  /** A WAV file once hound has opened it: its header and the samples it
      decodes from the data chunk, in file order. */
  datatype WavFile = WavFile(spec: WavSpec, samples: seq<int16>)

  /** The three format checks, named by the failure each one reports. */
  datatype FormatError =
    | NotMono       // "expected mono audio file"
    | NotInteger    // "expected integer sample format"
    | Not16Bit      // "expected 16 bits per sample"

  /** Whether `spec` passes the check named `check`. */
  predicate Passes(spec: WavSpec, check: FormatError) {
    match check
    case NotMono => spec.channels == 1
    case NotInteger => spec.sampleFormat == Int
    case Not16Bit => spec.bitsPerSample == 16
  }

  /** The position of a check in the order the readers run them. */
  function Rank(check: FormatError): nat {
    match check
    case NotMono => 0
    case NotInteger => 1
    case Not16Bit => 2
  }

  /** The guard both readers run on a header: channels, then sample format,
      then bit depth; the first check that fails aborts the read. */
  function ValidateSpec(spec: WavSpec): (r: Result<WavSpec, FormatError>)
    ensures r.Success? <==>
      spec.channels == 1 && spec.sampleFormat == Int && spec.bitsPerSample == 16
    ensures r.Success? ==> r.value == spec
    ensures r.Failure? ==>
      !Passes(spec, r.error) &&
      forall earlier: FormatError :: Rank(earlier) < Rank(r.error) ==> Passes(spec, earlier)
  {
    if spec.channels != 1 then Failure(NotMono)
    else if spec.sampleFormat != Int then Failure(NotInteger)
    else if spec.bitsPerSample != 16 then Failure(Not16Bit)
    else Success(spec)
  }

  /** Each check on its own is decisive: a header that violates exactly one
      of the three constraints is rejected, and with that check's error. */
  lemma SingleViolationRejected(spec: WavSpec, check: FormatError)
    requires !Passes(spec, check)
    requires forall other: FormatError :: other != check ==> Passes(spec, other)
    ensures ValidateSpec(spec) == Failure(check)
  {
  }

  /** The reported error is determined by the order of the checks alone: a
      header failing the channel check reports it, whatever else is wrong
      (a stereo, float, 8-bit file is reported as not mono). */
  lemma FirstFailingCheckReported(spec: WavSpec, check: FormatError)
    requires !Passes(spec, check)
    requires forall earlier: FormatError :: Rank(earlier) < Rank(check) ==> Passes(spec, earlier)
    ensures ValidateSpec(spec) == Failure(check)
  {
  }

  /** `parse_wav_file`: the format guard, then every decoded sample, in file
      order. */
  function ParseWavFile(file: WavFile): (r: Result<seq<int16>, FormatError>)
    ensures r.Success? <==> ValidateSpec(file.spec).Success?
    ensures r.Failure? ==> r.error == ValidateSpec(file.spec).error
    ensures r.Success? ==> r.value == file.samples
  {
    match ValidateSpec(file.spec)
    case Failure(e) => Failure(e)
    case Success(_) => Success(file.samples)
  }

  /** hound's `WavWriter` as `record` uses it: a header fixed at creation and
      the samples written so far. Samples are only ever appended. */
  class WavWriter {
    const spec: WavSpec
    var samples: seq<int16>

    /** `WavWriter::create`: an empty data chunk under the given header. */
    constructor Create(spec: WavSpec)
      ensures this.spec == spec && samples == []
    {
      this.spec := spec;
      samples := [];
    }

    /** `write_sample`: one more sample at the end; nothing written before
        changes. */
    method WriteSample(sample: int16)
      modifies this
      ensures samples == old(samples) + [sample]
    {
      samples := samples + [sample];
    }

    /** The file the writer leaves behind once it is finalised (dropped). */
    function Finalized(): WavFile
      reads this
    {
      WavFile(spec, samples)
    }
  }
}
