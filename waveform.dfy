/** The bar heights the audio player draws from the recording's base64 text
    (`generateWaveformSamples`, identical in both results pages). */
module Waveform {
  import opened Js

  function Min(a: int, b: int): int {
    if a <= b then a else b
  }

  function Max(a: int, b: int): int {
    if a >= b then a else b
  }

  /** How many characters each bar reads: the text length divided by six
      times the bar count, rounded down, and at least one. With no bars the
      loop never runs, so the step is irrelevant there and is taken as 1. */
  function Step(len: nat, bars: nat): nat {
    if bars == 0 then 1 else Max(1, len / (bars * 6))
  }

  /** The character codes of a slice, each weighted by its one-based
      position, added up. */
  function WeightedSum(slice: string): nat {
    if |slice| == 0 then 0
    else WeightedSum(slice[..|slice| - 1]) + (slice[|slice| - 1] as nat) * |slice|
  }

  /** A bar height: the sum's remainder modulo 97, scaled into 0.6 and
      raised by 0.25. */
  function Amplitude(sum: nat): real {
    ((sum % 97) as real / 97.0) * 0.6 + 0.25
  }

  /** Where the slice for bar `i` starts once the cursor has been clamped:
      `i` steps in, but never past the last character. */
  function CursorAt(len: nat, step: nat, i: nat): nat
    requires len > 0
  {
    Min(i * step, len - 1)
  }

  /** The height of bar `i`: the weighted sum of the `step` characters from
      the clamped cursor (fewer at the end of the text). */
  function SampleAt(s: string, step: nat, i: nat): real
    requires |s| > 0
  {
    var c := CursorAt(|s|, step, i);
    Amplitude(WeightedSum(s[c..Min(c + step, |s|)]))
  }

  /** The whole waveform: flat 0.25 bars for an empty text, otherwise one
      `SampleAt` per bar. */
  function WaveformSpec(s: string, bars: nat): seq<real> {
    if |s| == 0 then seq(bars, _ => 0.25)
    else seq(bars, i requires 0 <= i < bars => SampleAt(s, Step(|s|, bars), i))
  }

  /** The loop of `generateWaveformSamples`, with its mutable cursor. */
  method GenerateWaveformSamples(base64: string, bars: nat) returns (samples: seq<real>)
    ensures samples == WaveformSpec(base64, bars)
  {
    if |base64| == 0 {
      return seq(bars, _ => 0.25);
    }
    var step := Step(|base64|, bars);
    samples := [];
    var cursor := 0;
    var i := 0;
    while i < bars
      invariant 0 <= i <= bars
      invariant |samples| == i
      invariant forall k :: 0 <= k < i ==> samples[k] == SampleAt(base64, step, k)
      invariant Min(cursor, |base64| - 1) == CursorAt(|base64|, step, i)
    {
      cursor := Min(cursor, |base64| - 1);
      var slice := base64[cursor..Min(cursor + step, |base64|)];
      var amplitude := Amplitude(WeightedSum(slice));
      samples := samples + [amplitude];
      assert (i + 1) * step == i * step + step;
      cursor := cursor + step;
      i := i + 1;
    }
  }

  lemma AmplitudeBounds(sum: nat)
    ensures 0.25 <= Amplitude(sum) < 0.85
  {
    var r := (sum % 97) as real;
    assert 0.0 <= r <= 96.0;
    assert 0.0 <= r / 97.0 < 1.0;
  }

  /** Exactly `bars` values come out. An empty text gives a flat waveform of
      0.25; any other text gives heights from 0.25 up to, not including, 0.85,
      and every slice starts inside the text. */
  lemma WaveformShape(s: string, bars: nat)
    ensures |WaveformSpec(s, bars)| == bars
    ensures |s| == 0 ==> forall i :: 0 <= i < bars ==> WaveformSpec(s, bars)[i] == 0.25
    ensures |s| > 0 ==> forall i :: 0 <= i < bars ==> 0.25 <= WaveformSpec(s, bars)[i] < 0.85
    ensures |s| > 0 ==> forall i: nat :: CursorAt(|s|, Step(|s|, bars), i) <= |s| - 1
  {
    if |s| > 0 {
      forall i | 0 <= i < bars
        ensures 0.25 <= WaveformSpec(s, bars)[i] < 0.85
      {
        var c := CursorAt(|s|, Step(|s|, bars), i);
        AmplitudeBounds(WeightedSum(s[c..Min(c + Step(|s|, bars), |s|)]));
      }
    }
  }

  /** The cursor advances one step per bar until it reaches the last
      character, and then stays there. */
  lemma CursorAdvance(len: nat, step: nat, i: nat)
    requires len > 0
    ensures CursorAt(len, step, i + 1) == Min(CursorAt(len, step, i) + step, len - 1)
  {
    assert (i + 1) * step == i * step + step;
  }

  /** `generateWaveformSamples` applied to whatever value it is handed: a
      falsy value draws flat bars, a string is sampled, and any other truthy
      value throws once the loop asks it for a slice to split (a number, a
      boolean or an object has no `slice`, and an array's slice has no
      `split`). With no bars the loop never runs and nothing throws. */
  function Samples(base64: Json, bars: nat): (r: Throws<seq<real>>)
    ensures r == TypeError <==> Truthy(base64) && !base64.Str? && bars > 0
    ensures r.Ok? ==> |r.value| == bars
    ensures base64.Str? ==> r == Ok(WaveformSpec(base64.s, bars))
  {
    if !Truthy(base64) then Ok(seq(bars, _ => 0.25))
    else if base64.Str? then Ok(WaveformSpec(base64.s, bars))
    else if bars == 0 then Ok([])
    else TypeError
  }

  /** The bars of the behavioural results page, drawn from `audio?.base64`
      with the default of 64 bars. */
  function PageWaveform(audio: Json): Throws<seq<real>> {
    Samples(OptGet(audio, "base64"), 64)
  }

  /** The bars of audio whose base64 is falsy are 64 flat bars of 0.25. */
  lemma SilentWaveform(audio: Json)
    requires !Truthy(OptGet(audio, "base64"))
    ensures PageWaveform(audio) == Ok(seq(64, _ => 0.25))
  {
  }

  /** The player of either results page, which is rendered only for truthy
      audio: `None` when it is absent, otherwise the bars it draws. */
  function Player(audio: Json): Option<Throws<seq<real>>> {
    if Truthy(audio) then Some(PageWaveform(audio)) else None
  }

  /** Falsy audio draws no player at all; truthy audio whose base64 is falsy
      draws 64 flat bars of 0.25. */
  lemma PlayerShown(audio: Json)
    ensures Player(audio).None? <==> !Truthy(audio)
    ensures Truthy(audio) && !Truthy(OptGet(audio, "base64")) ==>
      Player(audio) == Some(Ok(seq(64, _ => 0.25)))
  {
    if Truthy(audio) && !Truthy(OptGet(audio, "base64")) {
      SilentWaveform(audio);
    }
  }

  /** The page renders exactly when base64 is falsy or a string; a string
      is sampled into 64 bars between 0.25 and 0.85. */
  lemma PageWaveformCases(audio: Json)
    ensures var b := OptGet(audio, "base64");
      && (PageWaveform(audio) == TypeError <==> Truthy(b) && !b.Str?)
      && (b.Str? && b.s != "" ==> forall i :: 0 <= i < 64 ==> 0.25 <= PageWaveform(audio).value[i] < 0.85)
  {
    var b := OptGet(audio, "base64");
    if b.Str? {
      WaveformShape(b.s, 64);
    }
  }

  /** A numeric base64 throws. */
  lemma NumericBase64Throws()
    ensures PageWaveform(Obj([("base64", Num(1.0))])) == TypeError
  {
    assert Truthy(Num(1.0));
  }
}
