/** The segment loop of `transcribe`: after inference, the segments the
    engine reports are read back in order and flattened into one string. The
    inference itself is outside the model; its output is the input here. */
module Transcription {
  import opened Wrappers

  /** A segment as far as the transcript text is concerned: its text and
      whether a new speaker begins right after it. */
  datatype Segment = Segment(text: string, speakerTurnNext: bool)

  /** What the engine offers for one segment index. Each getter that returns a
      `Result` in whisper_rs is an `Option` here; the speaker-turn getter
      cannot fail. The timestamps are only logged, so only their presence
      matters. */
  datatype EngineSegment = EngineSegment(
    text: Option<string>,
    speakerTurnNext: bool,
    t0: Option<int>,
    t1: Option<int>)

  /** Which getter failed, at which segment index; any of them aborts the
      whole transcription. */
  datatype TranscribeError =
    | TextUnavailable(index: nat)    // "failed to get segment"
    | StartUnavailable(index: nat)   // "failed to get start timestamp"
    | EndUnavailable(index: nat)     // "failed to get end timestamp"

  /** The text one segment contributes: its text, a space, and a `-` marker
      when the speaker changes after it. */
  function Piece(segment: Segment): string {
    segment.text + " " + (if segment.speakerTurnNext then "-" else "")
  }

  /** The flattened transcript: the pieces of all segments, in order. */
  function Flatten(segments: seq<Segment>): string {
    if segments == [] then ""
    else Flatten(segments[..|segments| - 1]) + Piece(segments[|segments| - 1])
  }

  function TextLength(segments: seq<Segment>): nat {
    if segments == [] then 0
    else TextLength(segments[..|segments| - 1]) + |segments[|segments| - 1].text|
  }

  function TurnCount(segments: seq<Segment>): nat {
    if segments == [] then 0
    else TurnCount(segments[..|segments| - 1]) + (if segments[|segments| - 1].speakerTurnNext then 1 else 0)
  }

  /** Flattening distributes over concatenation of segment lists. */
  lemma {:induction false} FlattenAppend(a: seq<Segment>, b: seq<Segment>)
    ensures Flatten(a + b) == Flatten(a) + Flatten(b)
    decreases |b|
  {
    if b == [] {
      assert a + b == a;
    } else {
      var last := |b| - 1;
      assert (a + b)[..|a + b| - 1] == a + b[..last];
      FlattenAppend(a, b[..last]);
    }
  }

  /** Every segment contributes one space, one marker per speaker turn, and
      its text; nothing else is added. */
  lemma {:induction false} FlattenLength(segments: seq<Segment>)
    ensures |Flatten(segments)| == TextLength(segments) + |segments| + TurnCount(segments)
  {
    if segments != [] {
      FlattenLength(segments[..|segments| - 1]);
    }
  }

  /** Segment `i` occupies its own stretch of the transcript, starting where
      the pieces of the segments before it end: its text, a space, then the
      `-` marker exactly when the engine flagged a speaker turn after it. */
  lemma SegmentPlacement(segments: seq<Segment>, i: nat)
    requires i < |segments|
    ensures var start := |Flatten(segments[..i])|;
      var end := start + |segments[i].text| + 1 + (if segments[i].speakerTurnNext then 1 else 0);
      end <= |Flatten(segments)| &&
      |Flatten(segments[..i + 1])| == end &&
      Flatten(segments)[start..start + |segments[i].text|] == segments[i].text &&
      Flatten(segments)[start + |segments[i].text|] == ' ' &&
      (segments[i].speakerTurnNext ==> Flatten(segments)[start + |segments[i].text| + 1] == '-')
  {
    assert segments == segments[..i] + [segments[i]] + segments[i + 1..];
    FlattenAppend(segments[..i] + [segments[i]], segments[i + 1..]);
    FlattenAppend(segments[..i], [segments[i]]);
    assert [segments[i]][..0] == [];
    assert segments[..i + 1][..i] == segments[..i];
  }

  predicate Complete(segment: EngineSegment) {
    segment.text.Some? && segment.t0.Some? && segment.t1.Some?
  }

  /** The first getter that fails for the segment at `index`, in the order
      the loop calls them: text, start timestamp, end timestamp. */
  function FirstMissing(segment: EngineSegment, index: nat): Option<TranscribeError> {
    if segment.text.None? then Some(TextUnavailable(index))
    else if segment.t0.None? then Some(StartUnavailable(index))
    else if segment.t1.None? then Some(EndUnavailable(index))
    else None
  }

  function View(segment: EngineSegment): Segment {
    Segment(if segment.text.Some? then segment.text.value else "", segment.speakerTurnNext)
  }

  function Segments(engine: seq<EngineSegment>): (segments: seq<Segment>)
    ensures |segments| == |engine|
  {
    seq(|engine|, k requires 0 <= k < |engine| => View(engine[k]))
  }

  /** The loop of `transcribe` over the engine's segments. */
  method Transcribe(engine: seq<EngineSegment>) returns (r: Result<string, TranscribeError>)
    ensures r.Success? <==> forall k :: 0 <= k < |engine| ==> Complete(engine[k])
    ensures r.Success? ==> r.value == Flatten(Segments(engine))
    ensures r.Failure? ==>
      r.error.index < |engine| &&
      (forall k :: 0 <= k < r.error.index ==> Complete(engine[k])) &&
      FirstMissing(engine[r.error.index], r.error.index) == Some(r.error)
  {
    var fullText := "";
    var i := 0;
    while i < |engine|
      invariant 0 <= i <= |engine|
      invariant forall k :: 0 <= k < i ==> Complete(engine[k])
      invariant fullText == Flatten(Segments(engine[..i]))
    {
      var segment := engine[i];
      if segment.text.None? {
        return Failure(TextUnavailable(i));
      }
      fullText := fullText + segment.text.value;
      fullText := fullText + " ";
      if segment.speakerTurnNext {
        fullText := fullText + "-";
      }
      if segment.t0.None? {
        return Failure(StartUnavailable(i));
      }
      if segment.t1.None? {
        return Failure(EndUnavailable(i));
      }
      assert Segments(engine[..i + 1]) == Segments(engine[..i]) + [View(segment)];
      i := i + 1;
    }
    assert engine[..i] == engine;
    return Success(fullText);
  }
}
