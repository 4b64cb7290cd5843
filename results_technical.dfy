/** The technical results page: its lenient feedback adapter, the choice of
    raw payload from the navigation state, and the guarded overall score. */
module ResultsTechnicalPage {
  import opened Js
  import opened Feedback
  import ResultsPage
  import Waveform

  /** The metrics of the report: the feedback object's own when truthy, else
      the payload's, else an empty list. */
  function MetricsOf(data: Json, feedback: Json): Json
    requires !Nullish(data) && !Nullish(feedback)
  {
    var own := if TypeOf(feedback) == "object" then Get(feedback, "metrics") else Bool(false);
    Or(Or(own, Get(data, "metrics")), Arr([]))
  }

  /** The written feedback: the feedback itself when it is a string, else
      its `overall_feedback`, else its `feedback`, else the empty string. */
  function OverallFeedbackOf(feedback: Json): Json
    requires !Nullish(feedback)
  {
    if feedback.Str? then feedback
    else Or(Or(Get(feedback, "overall_feedback"), Get(feedback, "feedback")), Str(""))
  }

  /** `transformFeedbackData(feedbackData)` of this page: only a falsy payload
      gives `null`; missing metrics fall back to `[]`. */
  function Transform(fd: Json): Throws<Option<Report>> {
    if !Truthy(fd) then Ok(None)
    else
      var data := ResultsPage.Unwrap(fd);
      if Nullish(data) then TypeError
      else
        var feedback := ResultsPage.FeedbackOf(data);
        match RewriteTranscript(Get(data, "transcript"))
        case TypeError => TypeError
        case Ok(transcript) =>
          Ok(Some(Report(
            OverallFeedbackOf(feedback),
            MetricsOf(data, feedback),
            transcript,
            Get(data, "audio"),
            Get(feedback, "candidate_answer"),
            Get(feedback, "candidate_star_feedback"),
            Get(feedback, "rephrased_star_answer"))))
  }

  /** `null` comes back exactly for a falsy payload; an empty array still
      throws at `data.feedback`; every record has truthy metrics. */
  lemma TransformTotal(fd: Json)
    ensures Transform(fd) == Ok(None) <==> !Truthy(fd)
    ensures Transform(Arr([])) == TypeError
    ensures Transform(fd).Ok? && Transform(fd).value.Some? ==> Truthy(Transform(fd).value.value.metrics)
  {
  }

  /** Any truthy payload whose unwrapped data is present and whose transcript
      is absent or a list of present entries yields a record. */
  lemma TransformYieldsRecord(fd: Json)
    requires Truthy(fd) && !Nullish(ResultsPage.Unwrap(fd))
    requires var t := Get(ResultsPage.Unwrap(fd), "transcript");
      !Truthy(t) || (t.Arr? && forall i :: 0 <= i < |t.items| ==> !Nullish(t.items[i]))
    ensures Transform(fd).Ok? && Transform(fd).value.Some?
  {
    TranscriptRewrite(Get(ResultsPage.Unwrap(fd), "transcript"));
  }

  /** The metrics chosen: the feedback object's own truthy metrics first, then
      the data's, then the empty list, never null. */
  lemma MetricsChoice(data: Json, feedback: Json)
    requires !Nullish(data) && !Nullish(feedback)
    ensures TypeOf(feedback) == "object" && Truthy(Get(feedback, "metrics")) ==>
      MetricsOf(data, feedback) == Get(feedback, "metrics")
    ensures !(TypeOf(feedback) == "object" && Truthy(Get(feedback, "metrics"))) && Truthy(Get(data, "metrics")) ==>
      MetricsOf(data, feedback) == Get(data, "metrics")
    ensures !(TypeOf(feedback) == "object" && Truthy(Get(feedback, "metrics"))) && !Truthy(Get(data, "metrics")) ==>
      MetricsOf(data, feedback) == Arr([])
    ensures Truthy(MetricsOf(data, feedback))
  {
  }

  /** The overall text: a string feedback is used itself; otherwise
      `overall_feedback`, then the nested `feedback` text, then `''`. */
  lemma OverallFeedbackChoice(feedback: Json)
    requires !Nullish(feedback)
    ensures feedback.Str? ==> OverallFeedbackOf(feedback) == feedback
    ensures !feedback.Str? && Truthy(Get(feedback, "overall_feedback")) ==>
      OverallFeedbackOf(feedback) == Get(feedback, "overall_feedback")
    ensures !feedback.Str? && !Truthy(Get(feedback, "overall_feedback")) && Truthy(Get(feedback, "feedback")) ==>
      OverallFeedbackOf(feedback) == Get(feedback, "feedback")
    ensures !feedback.Str? && !Truthy(Get(feedback, "overall_feedback")) && !Truthy(Get(feedback, "feedback")) ==>
      OverallFeedbackOf(feedback) == Str("")
  {
  }

  /** The page's lenient adapter accepts every payload the strict one turns
      into a record, and then agrees with it on metrics, transcript and
      audio. */
  lemma LenientExtendsStrict(fd: Json)
    requires ResultsPage.Transform(fd).Ok? && ResultsPage.Transform(fd).value.Some?
    ensures Transform(fd).Ok? && Transform(fd).value.Some?
    ensures var strict := ResultsPage.Transform(fd).value.value;
      var lenient := Transform(fd).value.value;
      && lenient.metrics == strict.metrics
      && lenient.transcript == strict.transcript
      && lenient.audio == strict.audio
  {
  }

  /** The payload handed over in the navigation state: its `raw` entry when
      truthy; else, when any of feedback, transcript or audio is truthy, an
      object assembled from them; else null. A missing state reads as an
      empty object. */
  function RawFromState(locationState: Json): Json {
    var state := Or(locationState, Obj([]));
    var feedback, transcript, audio := Get(state, "feedback"), Get(state, "transcript"), Get(state, "audio");
    Or(Get(state, "raw"),
       if Truthy(feedback) || Truthy(transcript) || Truthy(audio)
       then Obj([("feedback", feedback), ("transcript", transcript), ("audio", audio)])
       else Null)
  }

  /** A truthy `raw` wins. Otherwise an object is assembled exactly when one
      of feedback, transcript or audio is truthy, and the adapter then reads
      those three back unchanged. */
  lemma RawFromStateChoice(locationState: Json)
    ensures var state := Or(locationState, Obj([]));
      && (Truthy(Get(state, "raw")) ==> RawFromState(locationState) == Get(state, "raw"))
      && (!Truthy(Get(state, "raw")) ==>
            (Truthy(RawFromState(locationState)) <==>
               Truthy(Get(state, "feedback")) || Truthy(Get(state, "transcript")) || Truthy(Get(state, "audio"))))
      && (!Truthy(Get(state, "raw")) && Truthy(RawFromState(locationState)) ==>
            && Get(RawFromState(locationState), "feedback") == Get(state, "feedback")
            && Get(RawFromState(locationState), "transcript") == Get(state, "transcript")
            && Get(RawFromState(locationState), "audio") == Get(state, "audio"))
  {
    var state := Or(locationState, Obj([]));
    if !Truthy(Get(state, "raw")) && Truthy(RawFromState(locationState)) {
      var e := RawFromState(locationState).entries;
      LookupFirst(e, "feedback", 0);
      LookupFirst(e, "transcript", 1);
      LookupFirst(e, "audio", 2);
    }
  }

  /** The mean of the scores, or none for an empty list. */
  function GuardedOverall(scores: seq<real>): Option<real> {
    if |scores| > 0 then Some(Sum(scores) / (|scores| as real)) else None
  }

  /** The guard removes exactly the NaN of the unguarded page: both agree on
      every non-empty list, and the empty list gives null instead. The value
      lies between the lowest and highest score. */
  lemma GuardedOverallAgrees(scores: seq<real>, lo: real, hi: real)
    requires forall i :: 0 <= i < |scores| ==> lo <= scores[i] <= hi
    ensures GuardedOverall(scores).None? <==> ResultsPage.Overall(scores) == ResultsPage.NaN
    ensures GuardedOverall(scores).Some? ==>
      && GuardedOverall(scores).value == ResultsPage.Overall(scores).value
      && lo <= GuardedOverall(scores).value <= hi
  {
    ResultsPage.OverallBounds(scores, lo, hi);
  }

  /** What the page shows for the overall score: nothing, a value, or a
      value the model does not compute. */
  datatype Banner = Hidden | Shown(value: real) | Uncomputed

  /** The guard in front of the score: the metrics are truthy and their
      `length` is above zero. A truthy string passes it; truthy numbers and
      booleans have no `length` and fail it; for an object its own `length`
      property is compared with zero. `None` stands for a `length` that is a
      string, an array or an object, whose numeric conversion the model does
      not compute. */
  function HasMetrics(metrics: Json): Option<bool> {
    if !Truthy(metrics) then Some(false)
    else
      match metrics
      case Arr(items) => Some(|items| > 0)
      case Str(_) => Some(true)
      case Obj(_) =>
        (match Get(metrics, "length")
         case Undefined => Some(false)
         case Null => Some(false)
         case Bool(b) => Some(b)
         case Num(n) => Some(n > 0.0)
         case _ => None)
      case _ => Some(false)
  }

  /** The overall score line of the page: hidden unless the guard passes;
      past the guard only an array has `reduce`, and its scores are averaged. */
  function GuardedPageOverall(metrics: Json): Throws<Banner> {
    match HasMetrics(metrics)
    case None => Ok(Uncomputed)
    case Some(false) => Ok(Hidden)
    case Some(true) =>
      if !metrics.Arr? then TypeError
      else
        match ScoresOf(metrics.items)
        case TypeError => TypeError
        case Ok(None) => Ok(Uncomputed)
        case Ok(Some(s)) =>
          Ok(match GuardedOverall(s) case None => Hidden case Some(v) => Shown(v))
  }

  /** For every record this page's adapter makes: empty metrics, and an
      object without `length`, hide the score; a string passes the guard and
      throws; on an array the page throws exactly where the behavioural page
      does, and a non-empty array of scores within bounds shows the
      behavioural page's value, which lies within the same bounds. */
  lemma GuardedReportOverall(fd: Json, lo: real, hi: real)
    requires Transform(fd).Ok? && Transform(fd).value.Some?
    ensures var m := Transform(fd).value.value.metrics;
      && (m == Arr([]) ==> GuardedPageOverall(m) == Ok(Hidden))
      && (m.Obj? && Get(m, "length") == Undefined ==> GuardedPageOverall(m) == Ok(Hidden))
      && (m.Str? ==> GuardedPageOverall(m) == TypeError)
      && (m.Arr? ==> (GuardedPageOverall(m) == TypeError <==> ResultsPage.PageOverall(m) == TypeError))
      && (m.Arr? && |m.items| > 0 && (forall i :: 0 <= i < |m.items| ==> ScoredWithin(m.items[i], lo, hi)) ==>
            && GuardedPageOverall(m).Ok? && GuardedPageOverall(m).value.Shown?
            && ResultsPage.PageOverall(m) == Ok(Some(ResultsPage.Average(GuardedPageOverall(m).value.value)))
            && lo <= GuardedPageOverall(m).value.value <= hi)
  {
    var m := Transform(fd).value.value.metrics;
    TransformTotal(fd);
    if m.Arr? && (forall i :: 0 <= i < |m.items| ==> ScoredWithin(m.items[i], lo, hi)) {
      ScoresWithin(m.items, lo, hi);
      GuardedOverallAgrees(ScoresOf(m.items).value.value, lo, hi);
    }
  }

  /** Metrics sent as an object hide the score here, where the behavioural
      page throws on the same payload. */
  lemma ObjectMetricsHidden()
    ensures var fd := Obj([("metrics", Obj([("a", Num(1.0))]))]);
      && Transform(fd).Ok? && Transform(fd).value.Some?
      && GuardedPageOverall(Transform(fd).value.value.metrics) == Ok(Hidden)
      && ResultsPage.PageOverall(Transform(fd).value.value.metrics) == TypeError
  {
    var fd := Obj([("metrics", Obj([("a", Num(1.0))]))]);
    assert Get(fd, "feedback") == Undefined;
    assert Get(fd, "transcript") == Undefined;
    assert Get(Obj([("a", Num(1.0))]), "length") == Undefined;
  }

  /** The bars of the technical results page, which hands the generator
      the base64 text or, when that is falsy, the empty string. */
  function TechnicalWaveform(audio: Json): Throws<seq<real>> {
    Waveform.Samples(Or(OptGet(audio, "base64"), Str("")), 64)
  }

  /** The empty-string fallback changes nothing: both results pages draw the
      same bars, and throw on the same audio, so audio whose base64 is falsy
      gives 64 flat bars here too (the player itself is rendered only for
      truthy audio, as `Waveform.Player` says). */
  lemma WaveformsAgree(audio: Json)
    ensures TechnicalWaveform(audio) == Waveform.PageWaveform(audio)
    ensures !Truthy(OptGet(audio, "base64")) ==> TechnicalWaveform(audio) == Ok(seq(64, _ => 0.25))
  {
    var b := OptGet(audio, "base64");
    if !Truthy(b) {
      assert Or(b, Str("")) == Str("");
      assert Waveform.WaveformSpec("", 64) == seq(64, _ => 0.25);
    }
  }
}
