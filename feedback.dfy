/** What the two results pages share: the display record, the transcript
    rewrite, the score colour bands, the `m:ss` clock and the mean score.
    ResultsPage.jsx and ResultsTechnicalPage.jsx each carry their own copy of
    these helpers; the copies are identical, so they are defined once here. */
module Feedback {
  import opened Js

  datatype Role = Assistant | User

  /** One rewritten transcript entry. */
  datatype Message = Message(id: nat, role: Role, text: Json, timestart: Json)

  /** The record `transformFeedbackData` returns. */
  datatype Report = Report(
    overallFeedback: Json,
    metrics: Json,
    transcript: Option<seq<Message>>,
    audio: Json,
    candidateAnswer: Json,
    starFeedback: Json,
    rephrasedAnswer: Json)

  predicate SaysAssistant(role: Json) {
    role == Str("agent") || role == Str("assistant")
  }

  /** The `map` callback applied to the entry at `index`. */
  function RewriteMessage(msg: Json, index: nat): Throws<Message> {
    if Nullish(msg) then TypeError
    else
      Ok(Message(
        index + 1,
        if SaysAssistant(Get(msg, "role")) then Assistant else User,
        Or(Or(Get(msg, "text"), Get(msg, "message")), Str("")),
        Coalesce(Get(msg, "timestart"), Null)))
  }

  /** The meaning of one rewritten entry: id `index + 1`, the assistant role
      exactly for `agent`/`assistant`, text falling back text, then message,
      then "", and the start time kept whenever it is not null or undefined
      (so a start time of 0 survives). */
  lemma MessageFields(msg: Json, index: nat)
    requires !Nullish(msg)
    ensures RewriteMessage(msg, index).Ok?
    ensures var m := RewriteMessage(msg, index).value;
      && m.id == index + 1
      && (m.role == Assistant <==> Get(msg, "role") in {Str("agent"), Str("assistant")})
      && (Truthy(Get(msg, "text")) ==> m.text == Get(msg, "text"))
      && (!Truthy(Get(msg, "text")) && Truthy(Get(msg, "message")) ==> m.text == Get(msg, "message"))
      && (!Truthy(Get(msg, "text")) && !Truthy(Get(msg, "message")) ==> m.text == Str(""))
      && (!Nullish(Get(msg, "timestart")) ==> m.timestart == Get(msg, "timestart"))
      && (Nullish(Get(msg, "timestart")) ==> m.timestart == Null)
  {
  }

  /** `msgs.map(...)` for entries numbered from `start`: it throws exactly when
      some entry is null or undefined, and otherwise rewrites every entry in
      place. */
  function RewriteFrom(msgs: seq<Json>, start: nat): (r: Throws<seq<Message>>)
    ensures r.Ok? <==> forall i :: 0 <= i < |msgs| ==> !Nullish(msgs[i])
    ensures r.Ok? ==> |r.value| == |msgs|
    ensures r.Ok? ==> forall i :: 0 <= i < |msgs| ==> RewriteMessage(msgs[i], start + i) == Ok(r.value[i])
    decreases |msgs|
  {
    if |msgs| == 0 then Ok([])
    else
      match RewriteMessage(msgs[0], start)
      case TypeError => TypeError
      case Ok(m) =>
        match RewriteFrom(msgs[1..], start + 1)
        case TypeError =>
          assert exists i :: 1 <= i < |msgs| && Nullish(msgs[i]) by {
            var j :| 0 <= j < |msgs[1..]| && Nullish(msgs[1..][j]);
            assert msgs[j + 1] == msgs[1..][j];
          }
          TypeError
        case Ok(rest) =>
          assert forall i :: 1 <= i < |msgs| ==> msgs[i] == msgs[1..][i - 1];
          Ok([m] + rest)
  }

  /** The transcript rewritten entry by entry, or null when it is falsy. A
      truthy value that is not an
      array has no `map` method, so calling it throws. */
  function RewriteTranscript(transcript: Json): Throws<Option<seq<Message>>> {
    if !Truthy(transcript) then Ok(None)
    else if transcript.Arr? then
      match RewriteFrom(transcript.items, 0)
      case TypeError => TypeError
      case Ok(ms) => Ok(Some(ms))
    else TypeError
  }

  /** The rewritten transcript keeps the length of the original, numbers its
      entries 1..n in order and rewrites each one by `RewriteMessage`; it is
      null when no transcript is present. */
  lemma TranscriptRewrite(transcript: Json)
    ensures !Truthy(transcript) ==> RewriteTranscript(transcript) == Ok(None)
    ensures Truthy(transcript) && !transcript.Arr? ==> RewriteTranscript(transcript) == TypeError
    ensures transcript.Arr? && (forall i :: 0 <= i < |transcript.items| ==> !Nullish(transcript.items[i])) ==>
      && RewriteTranscript(transcript).Ok?
      && RewriteTranscript(transcript).value.Some?
      && var ms := RewriteTranscript(transcript).value.value;
      && |ms| == |transcript.items|
      && forall i :: 0 <= i < |ms| ==> ms[i].id == i + 1 && RewriteMessage(transcript.items[i], i) == Ok(ms[i])
  {
    if transcript.Arr? && (forall i :: 0 <= i < |transcript.items| ==> !Nullish(transcript.items[i])) {
      var ms := RewriteFrom(transcript.items, 0).value;
      forall i | 0 <= i < |ms| ensures ms[i].id == i + 1 {
        MessageFields(transcript.items[i], i);
      }
    }
  }

  /* ----- Score colours ----- */

  datatype Band = Emerald | Amber | Rose

  /** The class names and arc colour `getScoreColor` returns. */
  datatype Palette = Palette(text: string, chipBg: string, chipBorder: string, arc: string)

  function ScoreBand(score: real): Band {
    if score >= 8.0 then Emerald else if score >= 5.0 then Amber else Rose
  }

  function PaletteOf(band: Band): Palette {
    match band
    case Emerald => Palette("text-emerald-600", "bg-emerald-50", "border-emerald-100", "#059669")
    case Amber => Palette("text-amber-600", "bg-amber-50", "border-amber-100", "#d97706")
    case Rose => Palette("text-rose-600", "bg-rose-50", "border-rose-100", "#e11d48")
  }

  /** `getScoreColor(score)` */
  function GetScoreColor(score: real): Palette {
    PaletteOf(ScoreBand(score))
  }

  function Rank(band: Band): nat {
    match band
    case Rose => 0
    case Amber => 1
    case Emerald => 2
  }

  /** Three disjoint bands cover every score: at least 8, from 5 up to 8, and
      below 5; the three palettes are pairwise different. */
  lemma ScoreColorBands(score: real)
    ensures GetScoreColor(score) == PaletteOf(Emerald) <==> score >= 8.0
    ensures GetScoreColor(score) == PaletteOf(Amber) <==> 5.0 <= score < 8.0
    ensures GetScoreColor(score) == PaletteOf(Rose) <==> score < 5.0
  {
    assert PaletteOf(Emerald).text != PaletteOf(Amber).text;
    assert PaletteOf(Amber).text != PaletteOf(Rose).text;
    assert PaletteOf(Emerald).text != PaletteOf(Rose).text;
  }

  /** A higher score never gets a lower band. */
  lemma ScoreBandMonotone(a: real, b: real)
    requires a <= b
    ensures Rank(ScoreBand(a)) <= Rank(ScoreBand(b))
  {
  }

  /* ----- Clock format ----- */

  /** Rounding toward zero. */
  function Trunc(x: real): int {
    if x >= 0.0 then x.Floor else -((-x).Floor)
  }

  /** JavaScript's `a % b`: the remainder has the sign of the dividend. */
  function JsRem(a: real, b: real): real
    requires b != 0.0
  {
    a - b * (Trunc(a / b) as real)
  }

  /** `formatTime(seconds)`; `None` stands for null and undefined. */
  function FormatTime(seconds: Option<real>): Option<string> {
    match seconds
    case None => None
    case Some(s) =>
      var mins := (s / 60.0).Floor;
      var secs := JsRem(s, 60.0).Floor;
      Some(IntToString(mins) + ":" + PadStart2(IntToString(secs)))
  }

  /** Reads an `m:ss` clock back into seconds. */
  function ParseClock(t: string): Option<nat> {
    if |t| >= 4 && t[|t| - 3] == ':' then Some(ParseNat(t[..|t| - 3]) * 60 + ParseNat(t[|t| - 2..]))
    else None
  }

  function TwoDigits(r: nat): string
    requires r < 100
  {
    [DigitChar(r / 10), DigitChar(r % 10)]
  }

  lemma FloorIs(x: real, n: int)
    requires n as real <= x < n as real + 1.0
    ensures x.Floor == n
  {
  }

  lemma PadDigits(r: nat)
    requires r < 60
    ensures PadStart2(IntToString(r)) == TwoDigits(r)
  {
    if r >= 10 {
      assert NatToString(r / 10) == [DigitChar(r / 10)];
    }
  }

  /** A time from `60 q + r` up to (not including) `60 q + r + 1` seconds
      shows `q` minutes and the two-digit `r` seconds. */
  lemma ClockOf(s: real, q: nat, r: nat)
    requires r < 60
    requires 60.0 * (q as real) + (r as real) <= s < 60.0 * (q as real) + (r as real) + 1.0
    ensures FormatTime(Some(s)) == Some(NatToString(q) + ":" + TwoDigits(r))
  {
    var mins, secs := (s / 60.0).Floor, JsRem(s, 60.0).Floor;
    assert FormatTime(Some(s)) == Some(IntToString(mins) + ":" + PadStart2(IntToString(secs)));
    ClockParts(s, q, r);
    PadDigits(r);
    assert IntToString(q) == NatToString(q);
  }

  /** The minutes and seconds `formatTime` computes for such a time. */
  lemma ClockParts(s: real, q: nat, r: nat)
    requires r < 60
    requires 60.0 * (q as real) + (r as real) <= s < 60.0 * (q as real) + (r as real) + 1.0
    ensures (s / 60.0).Floor == q && JsRem(s, 60.0).Floor == r
  {
    FloorIs(s / 60.0, q);
    assert Trunc(s / 60.0) == q;
    FloorIs(JsRem(s, 60.0), r);
  }

  /** No time shows no clock; for a whole number of seconds `k`, the clock
      shows `k div 60` minutes and the two-digit `k mod 60`. */
  lemma FormatTimeWhole(k: nat)
    ensures FormatTime(None) == None
    ensures FormatTime(Some(k as real)) == Some(NatToString(k / 60) + ":" + TwoDigits(k % 60))
  {
    assert (k as real) == 60.0 * ((k / 60) as real) + ((k % 60) as real);
    ClockOf(k as real, k / 60, k % 60);
  }

  lemma ParseTwoDigits(r: nat)
    requires r < 100
    ensures ParseNat(TwoDigits(r)) == r
  {
    var d := TwoDigits(r);
    assert d[..1] == [DigitChar(r / 10)];
    assert ParseNat([DigitChar(r / 10)]) == DigitValue(DigitChar(r / 10)) by {
      assert [DigitChar(r / 10)][..0] == [];
    }
    assert DigitValue(DigitChar(r / 10)) == r / 10;
    assert DigitValue(DigitChar(r % 10)) == r % 10;
  }

  lemma ParseClockOf(q: nat, r: nat, k: nat)
    requires r < 60 && k == q * 60 + r
    ensures ParseClock(NatToString(q) + ":" + TwoDigits(r)) == Some(k)
  {
    var m := NatToString(q);
    var t := m + ":" + TwoDigits(r);
    assert t[..|t| - 3] == m;
    assert t[|t| - 2..] == TwoDigits(r);
    ParseTwoDigits(r);
    ParseNatToString(q);
  }

  /** Reading back the clock of a whole number of seconds gives that number. */
  lemma ClockRoundTrip(k: nat)
    ensures ParseClock(NatToString(k / 60) + ":" + TwoDigits(k % 60)) == Some(k)
  {
    ParseClockOf(k / 60, k % 60, k);
  }

  /** Formatting a whole number of seconds and reading the clock back gives
      the same number: minutes times 60 plus seconds is the input. */
  lemma FormatTimeRoundTrip(k: nat)
    ensures FormatTime(Some(k as real)).Some?
    ensures ParseClock(FormatTime(Some(k as real)).value) == Some(k)
  {
    FormatTimeWhole(k);
    ClockRoundTrip(k);
  }

  /** For a non-negative time, the clock depends only on the whole seconds. */
  lemma FormatTimeFraction(s: real)
    requires s >= 0.0
    ensures FormatTime(Some(s)) == FormatTime(Some(s.Floor as real))
  {
    var f: nat := s.Floor;
    assert (f as real) == 60.0 * ((f / 60) as real) + ((f % 60) as real);
    ClockOf(s, f / 60, f % 60);
    ClockOf(f as real, f / 60, f % 60);
  }

  /* ----- Mean score ----- */

  /** The scores added up from the left, starting at zero. */
  function Sum(scores: seq<real>): real {
    if |scores| == 0 then 0.0 else Sum(scores[..|scores| - 1]) + scores[|scores| - 1]
  }

  /** A metric whose score can be added up: it is present and its score is a
      number. */
  predicate Scored(item: Json) {
    !Nullish(item) && Get(item, "score").Num?
  }

  /** A metric scored between `lo` and `hi`. */
  predicate ScoredWithin(item: Json, lo: real, hi: real) {
    Scored(item) && lo <= Get(item, "score").n <= hi
  }

  /** The scores the sum over a list of metrics reads, in order. Reading the
      score of a missing metric throws; a score that is not a number turns
      the sum into NaN or a string, which the model does not compute
      (`Ok(None)`). */
  function ScoresOf(items: seq<Json>): (r: Throws<Option<seq<real>>>)
    ensures r == TypeError <==> exists i :: 0 <= i < |items| && Nullish(items[i])
    ensures r.Ok? ==> (r.value.Some? <==> forall i :: 0 <= i < |items| ==> Scored(items[i]))
    ensures r.Ok? && r.value.Some? ==>
      && |r.value.value| == |items|
      && forall i :: 0 <= i < |items| ==> Get(items[i], "score") == Num(r.value.value[i])
  {
    if |items| == 0 then Ok(Some([]))
    else
      var rest := ScoresOf(items[1..]);
      assert forall i :: 1 <= i < |items| ==> items[i] == items[1..][i - 1];
      if Nullish(items[0]) || rest == TypeError then TypeError
      else if !Get(items[0], "score").Num? || rest.value.None? then Ok(None)
      else Ok(Some([Get(items[0], "score").n] + rest.value.value))
  }

  /** Scores within bounds stay within them once read off the metrics. */
  lemma ScoresWithin(items: seq<Json>, lo: real, hi: real)
    requires forall i :: 0 <= i < |items| ==> ScoredWithin(items[i], lo, hi)
    ensures ScoresOf(items).Ok? && ScoresOf(items).value.Some?
    ensures var s := ScoresOf(items).value.value;
      forall i :: 0 <= i < |s| ==> lo <= s[i] <= hi
  {
    var s := ScoresOf(items).value.value;
    forall i | 0 <= i < |s|
      ensures lo <= s[i] <= hi
    {
      assert ScoredWithin(items[i], lo, hi);
    }
  }

  lemma {:induction false} SumBounds(scores: seq<real>, lo: real, hi: real)
    requires forall i :: 0 <= i < |scores| ==> lo <= scores[i] <= hi
    ensures (|scores| as real) * lo <= Sum(scores) <= (|scores| as real) * hi
  {
    if |scores| > 0 {
      SumBounds(scores[..|scores| - 1], lo, hi);
    }
  }

  /** The mean of a non-empty list of scores lies between its lowest and its
      highest score, and times the count gives back the sum. */
  lemma MeanBounds(scores: seq<real>, lo: real, hi: real)
    requires |scores| > 0
    requires forall i :: 0 <= i < |scores| ==> lo <= scores[i] <= hi
    ensures lo <= Sum(scores) / (|scores| as real) <= hi
    ensures Sum(scores) / (|scores| as real) * (|scores| as real) == Sum(scores)
  {
    SumBounds(scores, lo, hi);
    var n := |scores| as real;
    assert n * lo <= Sum(scores) <= n * hi;
  }
}
