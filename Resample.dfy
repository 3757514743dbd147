/** `parse_and_resample_wav_file`: the same format guard as the plain reader,
    then a dispatch on the sample rate. The sinc resampler itself (rubato's
    `SincFixedIn`, with the i16/f32 scaling around it) is a parameter: only
    whether it is consulted, and what becomes of its answer, is modelled. */
module Resample {
  import opened Wrappers
  import opened Wav

  /** `f64::EPSILON`, that is 2^-52. */
  const F64Epsilon: real := 1.0 / 4503599627370496.0

  /** The rate the speech model expects; `transcribe` asks for 16000.0. */
  const WhisperRate: uint32 := 16000

  function Abs(x: real): real {
    if x < 0.0 then -x else x
  }

  /** The dispatch test `(original - target).abs() > f64::EPSILON`. Both rates
      are integers below 2^32, so their conversion to f64 and their difference
      are exact, and the test can be stated over the reals. */
  predicate RatesDiffer(original: uint32, target: uint32) {
    Abs(original as real - target as real) > F64Epsilon
  }

  /** On integer rates the tolerance test is plain inequality. */
  lemma RatesDifferIffUnequal(original: uint32, target: uint32)
    ensures RatesDiffer(original, target) <==> original != target
  {
  }

  /** The rubato stage, from the samples, the original rate and the target
      rate: `Some` of the resampled samples, or `None` where either
      `SincFixedIn::new(..).unwrap()` or `process(..).unwrap()` would panic. */
  type Resampler = (seq<int16>, uint32, uint32) -> Option<seq<int16>>

  datatype ReadError =
    | FormatRejected(format: FormatError)
    | ResamplerRejected

  /** `parse_and_resample_wav_file` with an integer target rate. */
  function ParseAndResampleWavFile(file: WavFile, target: uint32, resample: Resampler)
    : (r: Result<seq<int16>, ReadError>)
    ensures ValidateSpec(file.spec).Failure? ==>
      r == Failure(FormatRejected(ValidateSpec(file.spec).error))
    ensures ValidateSpec(file.spec).Success? && file.spec.sampleRate == target ==>
      r == Success(file.samples)
    ensures r == Failure(ResamplerRejected) <==>
      ValidateSpec(file.spec).Success? && file.spec.sampleRate != target &&
      resample(file.samples, file.spec.sampleRate, target).None?
    ensures r.Success? && file.spec.sampleRate != target ==>
      resample(file.samples, file.spec.sampleRate, target) == Some(r.value)
    ensures (ValidateSpec(file.spec).Success? && file.spec.sampleRate != target &&
             resample(file.samples, file.spec.sampleRate, target).Some?) ==>
      r == Success(resample(file.samples, file.spec.sampleRate, target).value)
  {
    match ValidateSpec(file.spec)
    case Failure(e) => Failure(FormatRejected(e))
    case Success(spec) =>
      RatesDifferIffUnequal(spec.sampleRate, target);
      if RatesDiffer(spec.sampleRate, target) then
        match resample(file.samples, spec.sampleRate, target)
        case None => Failure(ResamplerRejected)
        case Some(resampled) => Success(resampled)
      else
        Success(file.samples)
  }

  /** Both readers reject exactly the same headers, with the same error. */
  lemma ReadersApplySameCheck(file: WavFile, target: uint32, resample: Resampler)
    ensures ParseWavFile(file).Failure? <==>
      ParseAndResampleWavFile(file, target, resample).Failure? &&
      ParseAndResampleWavFile(file, target, resample).error.FormatRejected?
    ensures ParseWavFile(file).Failure? ==>
      ParseAndResampleWavFile(file, target, resample).error.format == ParseWavFile(file).error
  {
  }

  /** At the target rate the resampling reader is the plain reader. */
  lemma SameRateReadsLikePlainReader(file: WavFile, resample: Resampler)
    requires ParseWavFile(file).Success?
    ensures ParseAndResampleWavFile(file, file.spec.sampleRate, resample) ==
      Success(ParseWavFile(file).value)
  {
  }

  /** The result does not depend on which resampler is plugged in. */
  ghost predicate IndependentOfResampler(file: WavFile, target: uint32) {
    forall resample1: Resampler, resample2: Resampler ::
      ParseAndResampleWavFile(file, target, resample1) ==
      ParseAndResampleWavFile(file, target, resample2)
  }

  /** The resampler is consulted exactly when a well-formed file is not
      already at the target rate: otherwise no choice of resampler can change
      the outcome, while on a rate change some choices do. */
  lemma ResamplerConsultedIffRatesDiffer(file: WavFile, target: uint32)
    requires ValidateSpec(file.spec).Success?
    ensures IndependentOfResampler(file, target) <==> file.spec.sampleRate == target
  {
    if file.spec.sampleRate != target {
      var refuse: Resampler := (s, from, to) => None;
      var keep: Resampler := (s, from, to) => Some(s);
      assert ParseAndResampleWavFile(file, target, refuse) == Failure(ResamplerRejected);
      assert ParseAndResampleWavFile(file, target, keep).Success?;
    }
  }

  /** `transcribe` reads its audio at `WhisperRate`: the resampler matters
      exactly for well-formed files recorded at any other rate. */
  lemma WhisperInputResampledIffNot16k(file: WavFile)
    requires ValidateSpec(file.spec).Success?
    ensures IndependentOfResampler(file, WhisperRate) <==> file.spec.sampleRate == 16000
  {
    ResamplerConsultedIffRatesDiffer(file, WhisperRate);
  }
}
