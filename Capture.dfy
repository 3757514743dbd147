/** The capture side of `record`: the WAV header derived from the input
    device's default configuration, and the callback that appends each frame
    the audio subsystem delivers to the shared writer. Device discovery, the
    stream itself, the lock and the fixed recording time are outside the
    model. */
module Capture {
  import opened Wrappers
  import opened Wav
  import opened Resample

  /** The parts of cpal's default input configuration the header uses. */
  datatype InputConfig = InputConfig(channels: uint16, sampleRate: uint32)

  /** The `WavSpec` `record` builds: the device's channel count and rate,
      always 16-bit integer samples. */
  function RecordingSpec(config: InputConfig): (spec: WavSpec)
    ensures spec.bitsPerSample == 16 && spec.sampleFormat == Int
    ensures spec.channels == config.channels && spec.sampleRate == config.sampleRate
  {
    WavSpec(config.channels, config.sampleRate, 16, Int)
  }

  /** A recorded file can only fail the readers' guard on the channel check. */
  lemma RecordingFailsOnlyOnChannels(config: InputConfig)
    ensures ValidateSpec(RecordingSpec(config)).Success? <==> config.channels == 1
    ensures ValidateSpec(RecordingSpec(config)).Failure? ==>
      ValidateSpec(RecordingSpec(config)).error == NotMono
  {
  }

  /** The writer `record` creates for the device's configuration. */
  method OpenRecording(config: InputConfig) returns (writer: WavWriter)
    ensures fresh(writer)
    ensures writer.spec == RecordingSpec(config) && writer.samples == []
  {
    writer := new WavWriter.Create(RecordingSpec(config));
  }

  /** The samples a frame turns into, one converted sample per delivered
      sample, in delivery order. */
  function ConvertAll<Sample>(data: seq<Sample>, convert: Sample -> int16): (converted: seq<int16>)
    ensures |converted| == |data|
    ensures forall i :: 0 <= i < |data| ==> converted[i] == convert(data[i])
  {
    if data == [] then []
    else ConvertAll(data[..|data| - 1], convert) + [convert(data[|data| - 1])]
  }

  /** Splitting the delivered audio into frames differently does not change
      what ends up in the writer: two consecutive callbacks write what one
      callback on the joined frame would. */
  lemma ConvertAllAppend<Sample>(a: seq<Sample>, b: seq<Sample>, convert: Sample -> int16)
    ensures ConvertAll(a + b, convert) == ConvertAll(a, convert) + ConvertAll(b, convert)
  {
  }

  /** The input-stream callback: every sample of the frame is converted
      (`(sample * i16::MAX as f32) as i16`, here the opaque `convert`) and
      written, in order, with the writer held for the whole frame. */
  method OnInputData<Sample>(writer: WavWriter, data: seq<Sample>, convert: Sample -> int16)
    modifies writer
    ensures writer.samples == old(writer.samples) + ConvertAll(data, convert)
  {
    for i := 0 to |data|
      invariant writer.samples == old(writer.samples) + ConvertAll(data[..i], convert)
    {
      assert data[..i + 1] == data[..i] + [data[i]];
      writer.WriteSample(convert(data[i]));
    }
    assert data[..|data|] == data;
  }

  /** A mono recording reads back unchanged: the file the writer leaves
      behind gives its samples through the plain reader, and through the
      resampling reader when asked for its own rate. */
  lemma MonoRecordingReadsBack(writer: WavWriter, config: InputConfig, resample: Resampler)
    requires writer.spec == RecordingSpec(config) && config.channels == 1
    ensures ParseWavFile(writer.Finalized()) == Success(writer.samples)
    ensures ParseAndResampleWavFile(writer.Finalized(), config.sampleRate, resample) ==
      Success(writer.samples)
  {
  }
}
