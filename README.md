# Record-and-transcribe pipeline, modelled in Dafny

This project models the sequential logic of a Tauri desktop app's audio
pipeline (`src-tauri/src/main.rs`). The app records from the microphone into
a WAV file, reads the file back and resamples it to 16 kHz if needed. It then
transcribes it with a speech model that marks speaker turns, and flattens the
reported segments into one transcript string. The libraries that do the real
I/O and numerics are outside the model: hound, rubato, whisper_rs and cpal.
Where the model needs one of them, it becomes a parameter or an input value.

Modules, one per component of `main.rs`:

- `Wrappers` (`Wrappers.dfy`): `Option` and `Result`. The panics of the
  format guard, of the resampler's `unwrap`s and of the segment getters'
  `expect`s become a `Failure` naming what went wrong.
- `Wav` (`Wav.dfy`): the header record (`WavSpec`) and a decoded file
  (`WavFile`). It holds the three-step format guard `ValidateSpec` and the
  plain reader `ParseWavFile` (`parse_wav_file`). It also holds the
  append-only writer class `WavWriter`, standing for hound's `WavWriter`.
- `Resample` (`Resample.dfy`): `parse_and_resample_wav_file`. It runs the
  same guard, then dispatches on the rate with the `f64::EPSILON` test. The
  resampler is a function parameter (`Resampler`) that may refuse its input.
- `Transcription` (`Transcription.dfy`): the segment loop of `transcribe`.
  `Flatten` is its specification and `Transcribe` is the loop. The engine's
  segments are given as input, each getter's answer being an `Option`.
- `Capture` (`Capture.dfy`): the `WavSpec` that `record` derives from the
  device configuration, and the input-stream callback `OnInputData`. The
  callback converts each delivered sample and appends it to the writer.

## Model

| member | source | states |
|---|---|---|
| `Wav.ValidateSpec` | src-tauri/src/main.rs:22-30 | Accepts a header if and only if it is mono, integer-format and 16-bit, and then returns it unchanged. A rejection names a check that fails while every check ranked before it passes. |
| `Wav.SingleViolationRejected` | src-tauri/src/main.rs:42-50 | A header violating exactly one of the three constraints is rejected with that constraint's error. |
| `Wav.FirstFailingCheckReported` | src-tauri/src/main.rs:22-29 | The order is channels, then sample format, then bit depth, and the first failing check is reported. So a stereo float 8-bit file reports the mono error. |
| `Wav.ParseWavFile` | src-tauri/src/main.rs:19-36 | Fails exactly when the guard fails, with the guard's error. Otherwise it returns the decoded samples untransformed, in file order. |
| `Wav.WavWriter.Create` | src-tauri/src/main.rs:204-206 | A new writer has the requested header and no samples. |
| `Wav.WavWriter.WriteSample` | src-tauri/src/main.rs:216-218 | Appends one sample at the end and leaves every earlier sample unchanged. |
| `Resample.RatesDifferIffUnequal` | src-tauri/src/main.rs:53-62 | For integer rates, the test `abs(original - target) > f64::EPSILON` holds exactly when the rates differ. |
| `Resample.ParseAndResampleWavFile` | src-tauri/src/main.rs:38-97 | Rejects malformed headers with the guard's error. At the target rate it returns the decoded samples unchanged. At any other rate it returns exactly the resampler's output, or fails when the resampler refuses. |
| `Resample.ReadersApplySameCheck` | src-tauri/src/main.rs:42-50 | Both readers reject exactly the same headers, with the same error. |
| `Resample.SameRateReadsLikePlainReader` | src-tauri/src/main.rs:94-96 | Pass-through identity law: at its own rate, the resampling reader returns what the plain reader returns. |
| `Resample.ResamplerConsultedIffRatesDiffer` | src-tauri/src/main.rs:62-96 | For a well-formed file, no choice of resampler changes the result exactly when the file is already at the target rate. |
| `Resample.WhisperInputResampledIffNot16k` | src-tauri/src/main.rs:117 | `transcribe` reads at 16000 Hz, so the resampler matters for a well-formed file exactly when it was not recorded at 16000 Hz. |
| `Transcription.Transcribe` | src-tauri/src/main.rs:140-162 | Succeeds exactly when every segment's text and timestamps are available. It then returns the in-order concatenation of text, space and turn marker over all segments, so zero segments give "". Otherwise it reports the first unavailable getter, in loop order, at the first incomplete segment. |
| `Transcription.FlattenAppend` | src-tauri/src/main.rs:143-152 | Flattening a concatenation of segment lists gives the concatenation of their flattenings. |
| `Transcription.FlattenLength` | src-tauri/src/main.rs:144-152 | The transcript's length is the total text length, plus the number of segments, plus the number of speaker turns. |
| `Transcription.SegmentPlacement` | src-tauri/src/main.rs:148-152 | Segment i's text starts right after the pieces of the segments before it and is followed by a space. A `-` follows the space when the segment is flagged as a speaker turn; otherwise the segment's stretch, and so the next segment's start, ends at the space. |
| `Capture.RecordingSpec` | src-tauri/src/main.rs:197-202 | The recording header carries the device's channel count and rate, and is always 16-bit integer format. |
| `Capture.RecordingFailsOnlyOnChannels` | src-tauri/src/main.rs:197-202 | A recorded file passes the readers' guard exactly when the device is mono, and can only fail on the channel check. |
| `Capture.OpenRecording` | src-tauri/src/main.rs:196-206 | `record` opens a fresh, empty writer under the recording header. |
| `Capture.ConvertAll` | src-tauri/src/main.rs:214-215 | A frame becomes exactly as many samples as it has, the i-th being the conversion of the i-th delivered sample. |
| `Capture.ConvertAllAppend` | src-tauri/src/main.rs:212-219 | Two consecutive callbacks write the same samples as one callback on the joined frame. |
| `Capture.OnInputData` | src-tauri/src/main.rs:212-220 | One callback appends exactly the converted frame, in delivery order, after everything written before. |
| `Capture.MonoRecordingReadsBack` | src-tauri/src/main.rs:197-202 | The file a mono recording's writer leaves behind reads back as the writer's samples through the plain reader, and through the resampling reader at its own rate. |

## Left out

- Opening files with hound and decoding their samples: a `WavFile` is the header plus the decoded samples. A per-sample decode error (the `expect` on each sample) is I/O and not modelled.
- `Capture.OpenRecording`: always succeeds; a failing `WavWriter::create`, which makes `record` return an error, is file I/O and not modelled.
- The readers never check the sample rate against an expected value; only the channel count, sample format and bit depth are checked.
- The writer is finalised only by being dropped, so there is no finalisation state or double-finalisation error to model.
- The segment timestamps are never compared with each other; the code logs them and promises no order between start and end.
- `transcribe` ignores its `path` argument and always reads a fixed file.
- The hard-coded audio and model paths, their `exists()` checks, and `main` with the tauri command registration. These are filesystem I/O and framework plumbing.
- The rubato `SincFixedIn` resampler and the i16/f32 scaling around it: these are floating-point numerics inside a foreign library. They are the opaque `Resampler` parameter, so output length and filter properties are not stated.
- `Resample.ParseAndResampleWavFile`: takes the target rate as a `uint32`, not an `f64`. Its only caller passes 16000.0, an integer, so the epsilon test is exact.
- The conversion of the resampled samples to f32 for the speech model, model loading, inference parameters and the inference call (whisper_rs). These are foreign calls; the model starts from the segments the engine reports. A failure of `full_n_segments` is not modelled.
- The values of the segment timestamps: they are only logged, so only whether they can be retrieved matters.
- cpal device enumeration and stream building, `play`, the 10-second `sleep`, the 30-second stream timeout, the error callback and the `drop`-based finalisation. These are device I/O and timing.
- The `Arc<Mutex<_>>` around the writer (including the `lock().unwrap()` in the callback) and `spawn_blocking`: concurrency. The model treats one callback as atomic, which the lock held across the frame guarantees.
- `Capture.OnInputData`: the f32-to-i16 conversion is the opaque `convert` parameter, since it rests on f32 rounding. A failing `write_sample` (an I/O error) is not modelled.
- Progress callback, `println!` logging and the `Instant` timing: these only observe.
