/** The behavioural results page: its strict feedback adapter and its
    unguarded overall score. */
module ResultsPage {
  import opened Js
  import opened Feedback

  /** The payload itself, or its first element when it is an array; an
      empty array has no first element, which reads as undefined. */
  function Unwrap(fd: Json): Json {
    if fd.Arr? then (if |fd.items| > 0 then fd.items[0] else Undefined) else fd
  }

  /** The nested `feedback` object when it is truthy, otherwise the payload
      itself. */
  function FeedbackOf(data: Json): Json
    requires !Nullish(data)
  {
    Or(Get(data, "feedback"), data)
  }

  /** `transformFeedbackData(feedbackData)`: `Ok(None)` is the `null` return,
      `TypeError` a property read on undefined or a `map` on a non-array. */
  function Transform(fd: Json): Throws<Option<Report>> {
    if !Truthy(fd) then Ok(None)
    else
      var data := Unwrap(fd);
      if Nullish(data) then TypeError
      else
        var feedback := FeedbackOf(data);
        if !Truthy(Get(feedback, "metrics")) then Ok(None)
        else
          match RewriteTranscript(Get(data, "transcript"))
          case TypeError => TypeError
          case Ok(transcript) =>
            Ok(Some(Report(
              Or(Get(feedback, "overall_feedback"), Str("")),
              Get(feedback, "metrics"),
              transcript,
              Get(data, "audio"),
              Get(feedback, "candidate_answer"),
              Get(feedback, "candidate_star_feedback"),
              Get(feedback, "rephrased_star_answer"))))
  }

  /** The page gets `null` exactly for a falsy payload and for one whose
      feedback (or, failing that, the data itself) has no truthy metrics. */
  lemma TransformNull(fd: Json)
    ensures Transform(fd) == Ok(None) <==>
      (!Truthy(fd) || (!Nullish(Unwrap(fd)) && !Truthy(Get(FeedbackOf(Unwrap(fd)), "metrics"))))
  {
  }

  /** An empty top-level array leaves `data` undefined, and reading
      `data.feedback` throws. */
  lemma EmptyArrayThrows()
    ensures Transform(Arr([])) == TypeError
  {
  }

  /** Of an array only element 0 is read: the rest is ignored, and a plain
      first element is transformed as if it had been sent alone. */
  lemma FirstElementOnly(d: Json, rest: seq<Json>)
    requires !Nullish(d) && !d.Arr?
    ensures Transform(Arr([d] + rest)) == Transform(d)
  {
  }

  /** A record carries `feedback.metrics` unchanged (and truthy), the overall
      text `overall_feedback` or `''`, the audio of the data, and the
      transcript rewritten entry by entry with ids 1..n. */
  lemma TransformRecord(fd: Json)
    requires Transform(fd).Ok? && Transform(fd).value.Some?
    ensures Truthy(fd) && !Nullish(Unwrap(fd))
    ensures var data := Unwrap(fd);
      var feedback := FeedbackOf(data);
      var r := Transform(fd).value.value;
      && r.metrics == Get(feedback, "metrics")
      && Truthy(r.metrics)
      && (Truthy(Get(feedback, "overall_feedback")) ==> r.overallFeedback == Get(feedback, "overall_feedback"))
      && (!Truthy(Get(feedback, "overall_feedback")) ==> r.overallFeedback == Str(""))
      && r.audio == Get(data, "audio")
      && (r.transcript.None? <==> !Truthy(Get(data, "transcript")))
      && (r.transcript.Some? ==>
            && Get(data, "transcript").Arr?
            && var items := Get(data, "transcript").items;
            && |r.transcript.value| == |items|
            && forall i :: 0 <= i < |items| ==> RewriteMessage(items[i], i) == Ok(r.transcript.value[i]))
  {
    var data := Unwrap(fd);
    TranscriptRewrite(Get(data, "transcript"));
  }

  /** An average that may be JavaScript's NaN (`0 / 0`). */
  datatype Average = NaN | Average(value: real)

  /** The mean of the metric scores; nothing guards the empty list, whose
      mean is NaN. */
  function Overall(scores: seq<real>): Average {
    if |scores| == 0 then NaN else Average(Sum(scores) / (|scores| as real))
  }

  /** The overall score of a non-empty list lies between its lowest and
      highest score; an empty list gives NaN. */
  lemma OverallBounds(scores: seq<real>, lo: real, hi: real)
    requires forall i :: 0 <= i < |scores| ==> lo <= scores[i] <= hi
    ensures |scores| == 0 <==> Overall(scores) == NaN
    ensures |scores| > 0 ==> lo <= Overall(scores).value <= hi
  {
    if |scores| > 0 {
      MeanBounds(scores, lo, hi);
    }
  }

  /** The overall score line of the page, on the record's metrics: only an
      array has `reduce`, so any other metrics throw; otherwise the scores
      are read off the metrics and averaged. */
  function PageOverall(metrics: Json): Throws<Option<Average>> {
    if !metrics.Arr? then TypeError
    else
      match ScoresOf(metrics.items)
      case TypeError => TypeError
      case Ok(None) => Ok(None)
      case Ok(Some(s)) => Ok(Some(Overall(s)))
  }

  /** For every record the adapter hands the page: the score line throws
      exactly when the metrics are not an array or hold a missing entry; an
      empty array shows NaN; a non-empty array of scores within bounds shows
      a value within the same bounds. */
  lemma ReportOverall(fd: Json, lo: real, hi: real)
    requires Transform(fd).Ok? && Transform(fd).value.Some?
    ensures var m := Transform(fd).value.value.metrics;
      && (PageOverall(m) == TypeError <==>
            !m.Arr? || exists i :: 0 <= i < |m.items| && Nullish(m.items[i]))
      && (m == Arr([]) ==> PageOverall(m) == Ok(Some(NaN)))
      && (m.Arr? && |m.items| > 0 && (forall i :: 0 <= i < |m.items| ==> ScoredWithin(m.items[i], lo, hi)) ==>
            && PageOverall(m).Ok? && PageOverall(m).value.Some?
            && PageOverall(m).value.value.Average?
            && lo <= PageOverall(m).value.value.value <= hi)
  {
    var m := Transform(fd).value.value.metrics;
    if m.Arr? && (forall i :: 0 <= i < |m.items| ==> ScoredWithin(m.items[i], lo, hi)) {
      ScoresWithin(m.items, lo, hi);
      OverallBounds(ScoresOf(m.items).value.value, lo, hi);
    }
  }

  /** Metrics sent as an object rather than a list still make a record, and
      its score line throws. */
  lemma ObjectMetricsThrow()
    ensures var fd := Obj([("metrics", Obj([("a", Num(1.0))]))]);
      && Transform(fd).Ok? && Transform(fd).value.Some?
      && Transform(fd).value.value.metrics == Obj([("a", Num(1.0))])
      && PageOverall(Transform(fd).value.value.metrics) == TypeError
  {
    var fd := Obj([("metrics", Obj([("a", Num(1.0))]))]);
    assert Get(fd, "feedback") == Undefined;
    assert Get(fd, "transcript") == Undefined;
  }

  /** The page's own fixture: a nested `feedback` object with six metrics and
      a four-turn transcript, without audio. */
  function SampleMetric(id: string, caption: string, score: real): Json {
    Obj([("id", Str(id)), ("label", Str(caption)), ("score", Num(score))])
  }

  function SampleTurn(role: string, text: string, timestart: real): Json {
    Obj([("role", Str(role)), ("text", Str(text)), ("timestart", Num(timestart))])
  }

  const SampleTurns: seq<Json> := [
    SampleTurn("assistant", "Tell me about a time you improved a system under pressure.", 2.0),
    SampleTurn("user", "Sure. Last year our checkout was slowing during Black Friday prep…", 8.0),
    SampleTurn("assistant", "What did you do first to diagnose it?", 32.0),
    SampleTurn("user", "I pulled Chrome traces and found large hero assets and un-split bundles…", 40.0)]

  const SampleMetrics: seq<Json> := [
    SampleMetric("communication", "Communication", 8.4),
    SampleMetric("clarity", "Clarity", 7.9),
    SampleMetric("leadership", "Leadership", 7.3),
    SampleMetric("problem-solving", "Problem solving", 8.1),
    SampleMetric("culture-fit", "Culture fit", 7.8),
    SampleMetric("collaboration", "Collaboration", 8.2)]

  /** The fixture with its four prose texts as parameters: the page's own
      fixture is `SampleFeedback`, and what is proved about `Fixture` holds
      for it whatever the prose says. */
  function Fixture(overall: string, answer: string, starFeedback: string, rephrased: string): Json {
    Obj([
      ("feedback", FixtureBody(overall, answer, starFeedback, rephrased)),
      ("transcript", Arr(SampleTurns)),
      ("audio", Null)])
  }

  function FixtureBody(overall: string, answer: string, starFeedback: string, rephrased: string): Json {
    Obj([
      ("overall_feedback", Str(overall)),
      ("metrics", Arr(SampleMetrics)),
      ("candidate_answer", Str(answer)),
      ("candidate_star_feedback", Str(starFeedback)),
      ("rephrased_star_answer", Str(rephrased))])
  }

  const SampleFeedback: Json := Fixture(
    "Strong storytelling and clear structure. Work on tighter examples and concise endings.",
    "I led a small team to reduce page load time by 40% by introducing code-splitting and image compression. I coordinated stakeholders, measured results, and rolled out the fix globally.",
    "Good Situation and Task framing. For Action, add 1–2 concrete steps with metrics. For Result, close with business impact and a brief reflection.",
    "Situation: Our checkout pages were slow, causing drop-offs. Task: Improve performance before holiday traffic. Action: I profiled bundles, implemented code-splitting, compressed hero media, and added performance budgets. Result: First load improved by 40%, conversion lifted 6%, and we kept error rates flat.")

  lemma SampleTurnFields(role: string, text: string, timestart: real, i: nat)
    requires text != ""
    ensures RewriteMessage(SampleTurn(role, text, timestart), i) ==
      Ok(Message(i + 1, if role in {"agent", "assistant"} then Assistant else User, Str(text), Num(timestart)))
  {
    var e := SampleTurn(role, text, timestart).entries;
    LookupFirst(e, "role", 0);
    LookupFirst(e, "text", 1);
    LookupFirst(e, "timestart", 2);
  }

  /** A payload `{feedback, transcript, audio}` whose feedback object has
      truthy metrics is read through its nested feedback. */
  lemma NestedTransform(body: Json, transcript: Json, audio: Json)
    requires body.Obj? && Truthy(Get(body, "metrics")) && RewriteTranscript(transcript).Ok?
    ensures var fd := Obj([("feedback", body), ("transcript", transcript), ("audio", audio)]);
      && Transform(fd).Ok? && Transform(fd).value.Some?
      && Transform(fd).value.value.metrics == Get(body, "metrics")
      && Transform(fd).value.value.transcript == RewriteTranscript(transcript).value
      && Transform(fd).value.value.audio == audio
      && Transform(fd).value.value.overallFeedback == Or(Get(body, "overall_feedback"), Str(""))
      && Transform(fd).value.value.candidateAnswer == Get(body, "candidate_answer")
  {
    var e := [("feedback", body), ("transcript", transcript), ("audio", audio)];
    LookupFirst(e, "feedback", 0);
    LookupFirst(e, "transcript", 1);
    LookupFirst(e, "audio", 2);
  }

  /** The fixture transforms to a record with its six metrics, its overall
      text and no audio. */
  lemma SampleTransforms(overall: string, answer: string, starFeedback: string, rephrased: string)
    requires overall != ""
    ensures Transform(Fixture(overall, answer, starFeedback, rephrased)).Ok?
    ensures Transform(Fixture(overall, answer, starFeedback, rephrased)).value.Some?
    ensures var r := Transform(Fixture(overall, answer, starFeedback, rephrased)).value.value;
      && r.metrics == Arr(SampleMetrics) && |SampleMetrics| == 6 && r.audio == Null
      && r.overallFeedback == Str(overall) && r.candidateAnswer == Str(answer)
  {
    var body := FixtureBody(overall, answer, starFeedback, rephrased);
    LookupFirst(body.entries, "overall_feedback", 0);
    LookupFirst(body.entries, "metrics", 1);
    LookupFirst(body.entries, "candidate_answer", 2);
    SampleTurnsRewrite();
    NestedTransform(body, Arr(SampleTurns), Null);
  }

  /** The fixture's four turns rewrite without error. */
  lemma SampleTurnsRewrite()
    ensures RewriteTranscript(Arr(SampleTurns)).Ok? && RewriteTranscript(Arr(SampleTurns)).value.Some?
    ensures var ms := RewriteTranscript(Arr(SampleTurns)).value.value;
      && |ms| == 4
      && ms[0] == Message(1, Assistant, Str("Tell me about a time you improved a system under pressure."), Num(2.0))
      && ms[3].id == 4 && ms[3].role == User
  {
    var first := SampleTurn("assistant", "Tell me about a time you improved a system under pressure.", 2.0);
    var last := SampleTurn("user", "I pulled Chrome traces and found large hero assets and un-split bundles…", 40.0);
    assert |SampleTurns| == 4 && SampleTurns[0] == first && SampleTurns[3] == last;
    assert forall i :: 0 <= i < |SampleTurns| ==> SampleTurns[i].Obj?;
    TranscriptRewrite(Arr(SampleTurns));
    SampleTurnFields("assistant", "Tell me about a time you improved a system under pressure.", 2.0, 0);
    SampleTurnFields("user", "I pulled Chrome traces and found large hero assets and un-split bundles…", 40.0, 3);
  }

  /** The fixture's transcript has four entries, the first spoken by the
      assistant at second 2 and the last by the user. */
  lemma SampleTranscript(overall: string, answer: string, starFeedback: string, rephrased: string)
    ensures Transform(Fixture(overall, answer, starFeedback, rephrased)).Ok?
    ensures Transform(Fixture(overall, answer, starFeedback, rephrased)).value.Some?
    ensures var r := Transform(Fixture(overall, answer, starFeedback, rephrased)).value.value;
      && r.transcript.Some? && |r.transcript.value| == 4
      && r.transcript.value[0] == Message(1, Assistant, Str("Tell me about a time you improved a system under pressure."), Num(2.0))
      && r.transcript.value[3].id == 4 && r.transcript.value[3].role == User
  {
    var body := FixtureBody(overall, answer, starFeedback, rephrased);
    LookupFirst(body.entries, "metrics", 1);
    SampleTurnsRewrite();
    NestedTransform(body, Arr(SampleTurns), Null);
  }
}
