/**
 * The `POST /submit` handler (index.js:17-70) as a function of the sequence
 * of callbacks the multipart parser and the speech service deliver. The
 * callbacks share two variables, the field map and `reportText`; the
 * `finish` callback answers the request from whatever they hold when it runs.
 */
module Submit {
  import opened Wrappers
  import opened Transcription
  import opened Report

  /** The name of the only file part that is transcribed. */
  const AudioField: string := "audio"

  const NoInputMessage: string := "No text or audio provided."
  const ForwardFailedMessage: string := "Failed to call validation agent."

  /**
   * One callback of the request, in the order the event loop runs it.
   * `FilePart(name, results)` is the moment the recognition `results` of a
   * file part come back and are stored: for the `audio` part that replaces
   * `reportText`; for any other part nothing is done and `results` is
   * ignored. A recognition call that rejects stores nothing, which is the
   * same as having no `FilePart` event for it.
   */
  datatype Event =
    | Field(name: string, value: string)
    | FilePart(name: string, results: seq<Recognized>)
    | Finish

  /** The variables the callbacks share: `fields` and `reportText`. */
  datatype State = State(fields: Fields, reportText: string)

  /** The state before any callback runs. */
  const Initial: State := State(map[], "")

  /** The effect of one callback other than `finish` on the shared state. */
  function Step(s: State, e: Event): (s': State)
    ensures e.Field? ==> s'.fields.Keys == s.fields.Keys + {e.name} && s'.fields[e.name] == e.value
    ensures e.Field? ==> forall k :: k in s.fields && k != e.name ==> s'.fields[k] == s.fields[k]
    ensures !e.Field? ==> s'.fields == s.fields
    ensures e.FilePart? && e.name == AudioField ==> s'.reportText == Transcript(e.results)
    ensures !(e.FilePart? && e.name == AudioField) ==> s'.reportText == s.reportText
  {
    match e
    case Field(name, value) => s.(fields := s.fields[name := value])
    case FilePart(name, results) =>
      if name == AudioField then s.(reportText := Transcript(results)) else s
    case Finish => s
  }

  /** The shared state after running the callbacks of `trace`, one after the other. */
  function Replay(s: State, trace: seq<Event>): State
    decreases |trace|
  {
    if |trace| == 0 then s else Replay(Step(s, trace[0]), trace[1..])
  }

  lemma {:induction false} ReplayConcat(s: State, a: seq<Event>, b: seq<Event>)
    ensures Replay(s, a + b) == Replay(Replay(s, a), b)
    decreases |a|
  {
    if |a| == 0 {
      assert a + b == b;
    } else {
      assert (a + b)[0] == a[0];
      assert (a + b)[1..] == a[1..] + b;
      ReplayConcat(Step(s, a[0]), a[1..], b);
    }
  }

  /** Independent reference: the value of the last `name` field in `trace`, if any. */
  function LastFieldValue(trace: seq<Event>, name: string): Option<string>
    decreases |trace|
  {
    if |trace| == 0 then None
    else
      var e := trace[|trace| - 1];
      if e.Field? && e.name == name then Some(e.value)
      else LastFieldValue(trace[..|trace| - 1], name)
  }

  /** Independent reference: the transcript of the last `audio` part in `trace`, or `""`. */
  function LastAudioTranscript(trace: seq<Event>): string
    decreases |trace|
  {
    if |trace| == 0 then ""
    else
      var e := trace[|trace| - 1];
      if e.FilePart? && e.name == AudioField then Transcript(e.results)
      else LastAudioTranscript(trace[..|trace| - 1])
  }

  /**
   * Later writes win: after a trace, each field holds the value of its last
   * field event (and is absent if there was none), and `reportText` holds the
   * transcript of the audio part whose recognition resolved last, replacing
   * rather than appending.
   */
  lemma {:induction false} ReplayKeepsLastWrites(trace: seq<Event>, name: string)
    ensures Get(Replay(Initial, trace).fields, name) == LastFieldValue(trace, name)
    ensures Replay(Initial, trace).reportText == LastAudioTranscript(trace)
    decreases |trace|
  {
    if |trace| > 0 {
      var front, e := trace[..|trace| - 1], trace[|trace| - 1];
      assert front + [e] == trace;
      ReplayConcat(Initial, front, [e]);
      assert Replay(Replay(Initial, front), [e]) == Step(Replay(Initial, front), e);
      ReplayKeepsLastWrites(front, name);
    }
  }

  /** A call the handler makes to a service outside this model. */
  datatype Call =
    | Summarize(prompt: string)
    | PostReport(report: StructuredReport)

  /** What the validation service's POST settles to. */
  datatype ForwardResult =
    | Delivered(data: string)
    | Failed(message: string)

  /**
   * The services the handler calls, as inputs: the summariser's answer for a
   * prompt (`None` when the call rejects), and the outcome of posting a
   * report downstream.
   */
  datatype Services = Services(
    summarize: string -> Option<string>,
    forward: StructuredReport -> ForwardResult)

  /** A JSON response body. Downstream payloads are relayed unread. */
  datatype Body =
    | ErrorBody(error: string)
    | ErrorWithDetails(error: string, details: string)
    | Relayed(data: string)

  datatype Response = Response(status: int, body: Body)

  /**
   * How the request ended: the one response sent (`None` when the handler
   * threw before answering), and the service calls attempted, in order. A
   * `PostReport` marks that the forwarding step was reached, whether or not
   * a POST actually left the process.
   */
  datatype Outcome = Outcome(response: Option<Response>, calls: seq<Call>)

  /** The response for a forwarding result (index.js:64-69). */
  function Reply(result: ForwardResult): (r: Response)
    ensures r.status == 200 <==> result.Delivered?
    ensures r.status == 500 <==> result.Failed?
    ensures result.Delivered? ==> r.body == Relayed(result.data)
    ensures result.Failed? ==> r.body.ErrorWithDetails? && r.body.details == result.message
    ensures r.body.ErrorWithDetails? ==> r.body.error == ForwardFailedMessage
  {
    match result
    case Delivered(data) => Response(200, Relayed(data))
    case Failed(message) => Response(500, ErrorWithDetails(ForwardFailedMessage, message))
  }

  /**
   * The `finish` callback run on state `s`: reject when there is no text;
   * otherwise summarise, assemble, forward and relay. The summariser is
   * awaited outside the `try` (index.js:51), so when it rejects the callback
   * throws and no response is ever sent.
   */
  function Handle(s: State, svc: Services): (o: Outcome)
    ensures o.calls == [] <==> SourceText(s.fields, s.reportText) == ""
    ensures (o.response.Some? && o.response.value.status == 400) <==> SourceText(s.fields, s.reportText) == ""
    ensures SourceText(s.fields, s.reportText) == "" ==>
      o.response == Some(Response(400, ErrorBody(NoInputMessage)))
    ensures SourceText(s.fields, s.reportText) != "" ==>
      |o.calls| >= 1 && o.calls[0] == Summarize(Prompt(SourceText(s.fields, s.reportText)))
    ensures SourceText(s.fields, s.reportText) != "" && svc.summarize(Prompt(SourceText(s.fields, s.reportText))).None? ==>
      o.response == None && |o.calls| == 1
    ensures SourceText(s.fields, s.reportText) != "" && svc.summarize(Prompt(SourceText(s.fields, s.reportText))).Some? ==>
      var text := SourceText(s.fields, s.reportText);
      && |o.calls| == 2
      && o.calls[1].PostReport?
      && o.calls[1].report.originalText == text
      && o.calls[1].report.citizenId == Get(s.fields, CitizenIdField)
      && o.calls[1].report.location == Get(s.fields, LocationField)
      && o.calls[1].report.photoUrls == PhotoUrls(s.fields)
      && o.calls[1].report.summary == svc.summarize(Prompt(text)).value
      && o.response == Some(Reply(svc.forward(o.calls[1].report)))
  {
    var text := SourceText(s.fields, s.reportText);
    if text == "" then
      Outcome(Some(Response(400, ErrorBody(NoInputMessage))), [])
    else
      var prompt := Prompt(text);
      match svc.summarize(prompt)
      case None => Outcome(None, [Summarize(prompt)])
      case Some(summary) =>
        var report := Assemble(s.fields, text, summary);
        Outcome(Some(Reply(svc.forward(report))), [Summarize(prompt), PostReport(report)])
  }

  /**
   * The request run from state `s` over `trace`: callbacks update the state
   * until the first `finish`, which answers; nothing after it matters. A
   * trace without `finish` is never answered.
   */
  function RunFrom(s: State, trace: seq<Event>, svc: Services): Option<Outcome>
    decreases |trace|
  {
    if |trace| == 0 then None
    else if trace[0].Finish? then Some(Handle(s, svc))
    else RunFrom(Step(s, trace[0]), trace[1..], svc)
  }

  /** The request as written: callbacks run in trace order from the initial state. */
  function Run(trace: seq<Event>, svc: Services): Option<Outcome>
  {
    RunFrom(Initial, trace, svc)
  }

  lemma {:induction false} RunFromSnapshot(s: State, pre: seq<Event>, post: seq<Event>, svc: Services)
    requires Finish !in pre
    ensures RunFrom(s, pre + [Finish] + post, svc) == Some(Handle(Replay(s, pre), svc))
    decreases |pre|
  {
    var t := pre + [Finish] + post;
    if |pre| == 0 {
      assert t[0] == Finish;
    } else {
      assert t[0] == pre[0] && pre[0] != Finish;
      assert t[1..] == pre[1..] + [Finish] + post;
      RunFromSnapshot(Step(s, pre[0]), pre[1..], post, svc);
    }
  }

  /**
   * Snapshot at finish: the request is answered from the state the callbacks
   * before the first `finish` left; a transcript or field arriving later
   * changes neither the report nor the status.
   */
  lemma {:induction false} SnapshotAtFinish(pre: seq<Event>, post: seq<Event>, post': seq<Event>, svc: Services)
    requires Finish !in pre
    ensures Run(pre + [Finish] + post, svc) == Some(Handle(Replay(Initial, pre), svc))
    ensures Run(pre + [Finish] + post, svc) == Run(pre + [Finish] + post', svc)
  {
    RunFromSnapshot(Initial, pre, post, svc);
    RunFromSnapshot(Initial, pre, post', svc);
  }

  /** A request whose parser never finishes is never answered. */
  lemma {:induction false} NoFinishNoResponse(s: State, trace: seq<Event>, svc: Services)
    requires Finish !in trace
    ensures RunFrom(s, trace, svc) == None
    decreases |trace|
  {
    if |trace| > 0 {
      assert trace[0] in trace;
      assert forall i :: 0 <= i < |trace| - 1 ==> trace[1..][i] == trace[i + 1];
      assert Finish !in trace[1..];
      NoFinishNoResponse(Step(s, trace[0]), trace[1..], svc);
    }
  }

  /**
   * Description precedence over a whole request: when the last
   * `description` before `finish` is non-empty, it is the text summarised
   * and, once the summariser answers, the report's original text, whatever
   * audio was sent.
   */
  lemma {:induction false} DescriptionWins(pre: seq<Event>, post: seq<Event>, svc: Services, d: string)
    requires Finish !in pre
    requires d != "" && LastFieldValue(pre, DescriptionField) == Some(d)
    ensures var o := Run(pre + [Finish] + post, svc);
      && o.Some? && o.value.calls != [] && o.value.calls[0] == Summarize(Prompt(d))
      && (svc.summarize(Prompt(d)).Some? ==>
            |o.value.calls| == 2 && o.value.calls[1].PostReport? && o.value.calls[1].report.originalText == d)
  {
    SnapshotAtFinish(pre, post, post, svc);
    ReplayKeepsLastWrites(pre, DescriptionField);
  }

  /**
   * With no non-empty `description` before `finish`, the request is answered
   * 400 with nothing summarised or forwarded exactly when the transcript
   * stored last before `finish` is empty, or none was stored.
   */
  lemma {:induction false} NoInputRejected(pre: seq<Event>, post: seq<Event>, svc: Services)
    requires Finish !in pre
    requires !Truthy(LastFieldValue(pre, DescriptionField))
    ensures var o := Run(pre + [Finish] + post, svc);
      o.Some? &&
      (o.value == Outcome(Some(Response(400, ErrorBody(NoInputMessage))), []) <==> LastAudioTranscript(pre) == "")
  {
    SnapshotAtFinish(pre, post, post, svc);
    ReplayKeepsLastWrites(pre, DescriptionField);
  }

  // ---------------------------------------------------------------------
  // Finding: a transcript that settles after `finish` is lost.
  // ---------------------------------------------------------------------

  /**
   * Corrected behaviour: the request is answered only once the parser has
   * finished and every callback of the trace has run, so the answer uses
   * the state after all of them, wherever `finish` fell.
   */
  function RunSettled(trace: seq<Event>, svc: Services): Option<Outcome>
  {
    if Finish in trace then Some(Handle(Replay(Initial, trace), svc)) else None
  }

  lemma {:induction false} FinishLeavesStateAlone(s: State, pre: seq<Event>, post: seq<Event>)
    ensures Replay(s, pre + [Finish] + post) == Replay(s, pre + post)
  {
    ReplayConcat(s, pre + [Finish], post);
    ReplayConcat(s, pre, [Finish]);
    ReplayConcat(s, pre, post);
    assert Replay(Replay(s, pre), [Finish]) == Replay(s, pre);
  }

  /** In the corrected handler the position of `finish` does not matter. */
  lemma {:induction false} SettledIgnoresFinishPosition(pre: seq<Event>, post: seq<Event>, svc: Services)
    ensures RunSettled(pre + [Finish] + post, svc) == Some(Handle(Replay(Initial, pre + post), svc))
  {
    assert (pre + [Finish] + post)[|pre|] == Finish;
    FinishLeavesStateAlone(Initial, pre, post);
  }

  /** An audio-only request whose transcript comes back after `finish`. */
  const LateAudio: seq<Event> :=
    [Finish, FilePart(AudioField, [SpeechResult(["Pothole on Main Street"])])]

  /**
   * As written, that request is rejected as having no input, while the
   * corrected handler summarises the transcript.
   */
  lemma LateTranscriptIsLost(svc: Services)
    ensures Run(LateAudio, svc) == Some(Outcome(Some(Response(400, ErrorBody(NoInputMessage))), []))
    ensures RunSettled(LateAudio, svc).Some? && RunSettled(LateAudio, svc).value.calls != []
      && RunSettled(LateAudio, svc).value.calls[0] == Summarize(Prompt("Pothole on Main Street"))
  {
    SnapshotAtFinish([], [LateAudio[1]], [LateAudio[1]], svc);
    assert [] + [Finish] + [LateAudio[1]] == LateAudio;
    SettledIgnoresFinishPosition([], [LateAudio[1]], svc);
    assert Replay(Initial, [LateAudio[1]]).reportText == "Pothole on Main Street";
  }

  // ---------------------------------------------------------------------
  // Finding: the validation client is never imported.
  // ---------------------------------------------------------------------

  /**
   * Forwarding as written: `axios` is not bound in the module, so the call
   * throws a ReferenceError, which the catch block turns into a failure.
   */
  function MissingAxiosForward(report: StructuredReport): (r: ForwardResult)
    ensures r.Failed? && r.message == "axios is not defined"
  {
    Failed("axios is not defined")
  }

  /** As written, no request is ever answered 200: it is 400 or 500, or not answered at all. */
  lemma AsWrittenNeverRelays(s: State, summarize: string -> Option<string>)
    ensures var r := Handle(s, Services(summarize, MissingAxiosForward)).response;
      r.Some? ==> r.value.status in {400, 500}
  {
  }

  /**
   * Corrected behaviour: with a working client, once the summariser has
   * answered, a delivered POST is relayed with status 200 and the downstream
   * body unchanged.
   */
  lemma DeliveredIsRelayed(s: State, svc: Services, data: string)
    requires SourceText(s.fields, s.reportText) != ""
    requires svc.summarize(Prompt(SourceText(s.fields, s.reportText))).Some?
    requires forall r :: svc.forward(r) == Delivered(data)
    ensures Handle(s, svc).response == Some(Response(200, Relayed(data)))
  {
  }
}
