/**
 * Flattening a speech-recognition response into the report text
 * (index.js:37): the top-ranked alternative of every recognised segment, in
 * segment order, joined by newlines.
 */
module Transcription {
  import opened JsText

  /** One recognised segment: its transcript alternatives, best first. */
  datatype SpeechResult = SpeechResult(alternatives: seq<string>)

  /**
   * A segment the handler can read. Reading `alternatives[0]` of a segment
   * with no alternatives throws inside the file callback; such responses are
   * outside the model.
   */
  type Recognized = r: SpeechResult | |r.alternatives| > 0 witness SpeechResult([""])

  /** `results.map(result => result.alternatives[0])`. */
  function TopAlternatives(results: seq<Recognized>): (tops: seq<string>)
    ensures |tops| == |results|
    ensures forall i :: 0 <= i < |results| ==> tops[i] == results[i].alternatives[0]
    decreases |results|
  {
    if |results| == 0 then []
    else [results[0].alternatives[0]] + TopAlternatives(results[1..])
  }

  /** The text one recognition response contributes as `reportText`. */
  function Transcript(results: seq<Recognized>): (text: string)
    ensures |results| == 0 ==> text == ""
    ensures |results| == 1 ==> text == results[0].alternatives[0]
  {
    Join(TopAlternatives(results), "\n")
  }

  /**
   * Segment order is kept: a further segment appends a newline and its top
   * alternative to the transcript of the segments before it.
   */
  lemma {:induction false} TranscriptAppendsInOrder(results: seq<Recognized>, last: Recognized)
    requires |results| >= 1
    ensures Transcript(results + [last]) == Transcript(results) + "\n" + last.alternatives[0]
  {
    assert TopAlternatives(results + [last]) == TopAlternatives(results) + [last.alternatives[0]];
    JoinSnoc(TopAlternatives(results), "\n", last.alternatives[0]);
  }

  /**
   * When no top alternative contains a newline, splitting the transcript on
   * newlines recovers exactly the top alternatives, so the flattening loses
   * nothing and adds nothing.
   */
  lemma {:induction false} TranscriptSplitsIntoSegments(results: seq<Recognized>)
    requires |results| >= 1
    requires forall i :: 0 <= i < |results| ==> '\n' !in results[i].alternatives[0]
    ensures Split(Transcript(results), '\n') == TopAlternatives(results)
  {
    SplitJoin(TopAlternatives(results), '\n');
  }
}
