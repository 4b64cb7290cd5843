/** The three-step interview setup wizard: its clamped step counter, the
    nested form it edits, the tag lists, the CV upload and the route chosen
    on submit. */
module InterviewSetup {
  import opened Js
  import Auth

  const TotalSteps: int := 3

  /** One step forward, stopping at the last step. */
  function NextOf(step: int): int {
    if step + 1 <= TotalSteps then step + 1 else TotalSteps
  }

  /** One step back, stopping at the first step. */
  function PrevOf(step: int): int {
    if step - 1 >= 1 then step - 1 else 1
  }

  /** The counter never leaves 1..3 once inside it; next at the last step
      and back at the first are no-ops; going back undoes going forward
      below the last step. */
  lemma StepLaws(step: int)
    requires 1 <= step <= TotalSteps
    ensures 1 <= NextOf(step) <= TotalSteps && 1 <= PrevOf(step) <= TotalSteps
    ensures NextOf(TotalSteps) == TotalSteps && PrevOf(1) == 1
    ensures step < TotalSteps ==> PrevOf(NextOf(step)) == step
    ensures step > 1 ==> NextOf(PrevOf(step)) == step
  {
  }

  /** The form: sections (`session`, `target`, `candidate`) of named fields. */
  type Form = map<string, map<string, Json>>

  const DefaultForm: Form := map[
    "session" := map["interview_mode" := Str("behavioral"), "duration_min" := Num(30.0), "language" := Str("en")],
    "target" := map[
      "company_preset" := Str("general_tech"), "role_title" := Str(""), "seniority" := Str("grad"),
      "focus_areas" := Arr([]), "preferred_languages" := Arr([]),
      "job_description_text" := Str(""), "job_url" := Str("")],
    "candidate" := map[
      "cv_file" := Null, "self_strengths" := Arr([]), "self_weaknesses" := Arr([]), "goals" := Arr([]),
      "anxieties" := Str(""), "prior_interview_experience" := Str("some")]]

  /** A copy of the form in which one field of one section is replaced; a
      missing section starts out empty. */
  function UpdatedForm(form: Form, section: string, field: string, value: Json): Form {
    var fields := if section in form then form[section] else map[];
    form[section := fields[field := value]]
  }

  /** `updateField` sets exactly `form[section][field]`: every other section,
      and every other field of that section, is as it was. */
  lemma UpdateFieldFrame(form: Form, section: string, field: string, value: Json)
    ensures var f := UpdatedForm(form, section, field, value);
      && f.Keys == form.Keys + {section}
      && f[section][field] == value
      && (forall s :: s in form && s != section ==> f[s] == form[s])
      && (section in form ==> f[section].Keys == form[section].Keys + {field})
      && (section in form ==> forall k :: k in form[section] && k != field ==> f[section][k] == form[section][k])
  {
  }

  /** The route chosen on submit: the behavioural page exactly for the
      `behavioral` mode, the technical page otherwise. */
  function SubmitRoute(form: Form): string {
    var mode := if "session" in form && "interview_mode" in form["session"] then form["session"]["interview_mode"] else Undefined;
    if mode == Str("behavioral") then "/behavioural" else "/technical"
  }

  /** The behavioural page is chosen exactly for the `behavioral` mode, as in
      the initial form; any other mode, or a mode that is not a string, goes
      to the technical page. Editing another field never changes the route. */
  lemma SubmitRouteChoice(form: Form, section: string, field: string, value: Json)
    requires "session" in form && "interview_mode" in form["session"]
    ensures SubmitRoute(form) == "/behavioural" <==> form["session"]["interview_mode"] == Str("behavioral")
    ensures SubmitRoute(form) == "/technical" <==> form["session"]["interview_mode"] != Str("behavioral")
    ensures SubmitRoute(DefaultForm) == "/behavioural"
    ensures (section, field) != ("session", "interview_mode") ==>
      SubmitRoute(UpdatedForm(form, section, field, value)) == SubmitRoute(form)
  {
    assert "/behavioural" != "/technical";
  }

  /** What `handleKeyDown` does with the text box: Enter with non-blank
      text hands on the trimmed text and clears the box; anything else keeps
      the box and adds nothing. */
  function KeyDown(input: string, key: string): (Option<string>, string) {
    if key == "Enter" && Trim(input) != "" then (Some(Trim(input)), "") else (None, input)
  }

  lemma KeyDownSpec(input: string, key: string)
    ensures KeyDown(input, key).0.Some? <==> key == "Enter" && !AllSpace(input)
    ensures var (tag, box) := KeyDown(input, key);
      && (tag.Some? ==> box == "" && tag.value == Trim(input) && !IsSpace(tag.value[0]) && !IsSpace(tag.value[|tag.value| - 1]))
      && (tag.None? ==> box == input)
  {
    TrimSpec(input);
  }

  /** The tag appended at the end; duplicates are kept. */
  function AddTag(tags: seq<Json>, tag: Json): seq<Json> {
    tags + [tag]
  }

  /** Every occurrence of the tag removed, the rest kept in order. */
  function RemoveTag(tags: seq<Json>, tag: Json): (r: seq<Json>)
    ensures forall i :: 0 <= i < |r| ==> r[i] != tag
    ensures |r| <= |tags|
  {
    if |tags| == 0 then []
    else if tags[|tags| - 1] == tag then RemoveTag(tags[..|tags| - 1], tag)
    else RemoveTag(tags[..|tags| - 1], tag) + [tags[|tags| - 1]]
  }

  /** Removing works piece by piece, so the survivors keep their order. */
  lemma {:induction false} RemoveTagConcat(a: seq<Json>, b: seq<Json>, tag: Json)
    ensures RemoveTag(a + b, tag) == RemoveTag(a, tag) + RemoveTag(b, tag)
    decreases |b|
  {
    if |b| == 0 {
      assert a + b == a;
    } else {
      assert (a + b)[..|a + b| - 1] == a + b[..|b| - 1];
      RemoveTagConcat(a, b[..|b| - 1], tag);
    }
  }

  /** Every entry equal to the tag goes, every other entry stays as often as
      it was there, and a tag that is not in the list leaves it unchanged. */
  lemma {:induction false} RemoveTagCounts(tags: seq<Json>, tag: Json)
    ensures multiset(RemoveTag(tags, tag))[tag] == 0
    ensures forall x :: x != tag ==> multiset(RemoveTag(tags, tag))[x] == multiset(tags)[x]
    ensures tag !in tags ==> RemoveTag(tags, tag) == tags
  {
    if |tags| > 0 {
      var init := tags[..|tags| - 1];
      RemoveTagCounts(init, tag);
      assert tags == init + [tags[|tags| - 1]];
    }
  }

  /** Adding then removing a tag that was not there gives the list back. */
  lemma AddRemove(tags: seq<Json>, tag: Json)
    requires tag !in tags
    ensures RemoveTag(AddTag(tags, tag), tag) == tags
  {
    RemoveTagConcat(tags, [tag], tag);
    RemoveTagCounts(tags, tag);
  }

  const Base64Marker: string := ";base64,"

  /** The CV text of a data URL: what follows the last `;base64,` marker,
      or the whole text when there is none. */
  function CvContent(dataUrl: string): string {
    LastPiece(dataUrl, Base64Marker)
  }

  /** Two occurrences of the marker never overlap: only its first
      character is a `;`. */
  lemma MarkerApart(s: string, p: nat, q: nat)
    requires OccursAt(s, Base64Marker, p) && OccursAt(s, Base64Marker, q) && p < q
    ensures q >= p + |Base64Marker|
  {
    assert s[q] == ';';
    assert forall k :: p < k < p + |Base64Marker| && k < |s| ==> s[k] == s[p..p + |Base64Marker|][k - p];
  }

  /** For a data URL of the form in section 3 of RFC 2397,
      `data:<type>;base64,<payload>`, the CV content is the payload. */
  lemma CvContentOfDataUrl(head: string, payload: string)
    requires !Contains(payload, Base64Marker)
    ensures CvContent(head + Base64Marker + payload) == payload
  {
    var s := head + Base64Marker + payload;
    var sep := Base64Marker;
    SplitLast(s, sep);
    var last := CvContent(s);
    assert OccursAt(s, sep, |head|);
    assert Contains(s, sep) by {
      assert |head| <= |s|;
    }
    var p := |s| - |last| - |sep|;
    if |last| < |payload| {
      MarkerApart(s, |head|, p);
      var j := p - |head| - |sep|;
      assert s[p..p + |sep|] == payload[j..j + |sep|];
      assert OccursAt(payload, sep, j);
    } else if |last| >= |payload| + |sep| {
      var j := |last| - |payload| - |sep|;
      assert last[j..j + |sep|] == s[|head|..|head| + |sep|];
      assert OccursAt(last, sep, j);
    } else if |last| > |payload| {
      MarkerApart(s, p, |head|);
    }
  }

  /** The `Authorization` header of the prompt request: the stored token as
      it is, without a `Bearer ` prefix; a missing token is sent as the text
      `null`. */
  function AuthorizationHeader(token: Option<string>): string {
    if token.Some? then token.value else "null"
  }

  /** What `authMiddleware` would take from this header, were it mounted in
      front of the prompt route (the server shown mounts it nowhere): a
      header without the prefix is the token itself, so a stored token would
      reach the verifier unchanged, and a missing one as the text `null`. */
  lemma HeaderReachesGuard(token: Option<string>)
    requires token.Some? ==> !Auth.StartsWith(token.value, Auth.Prefix)
    ensures token.Some? ==> Auth.ExtractToken(AuthorizationHeader(token)) == token.value
    ensures token.None? ==> Auth.ExtractToken(AuthorizationHeader(token)) == "null"
  {
    if token.None? {
      assert !Auth.StartsWith("null", Auth.Prefix);
    }
  }

  /** The record stored as `candidate.cv_file` for an uploaded CV. */
  function CvFile(name: string, kind: string, size: real, dataUrl: string): Json {
    Obj([("name", Str(name)), ("type", Str(kind)), ("size", Num(size)), ("content", Str(CvContent(dataUrl)))])
  }

  /** The wizard's state: the current step, the form, and where it went. */
  class Wizard {
    var step: int
    var form: Form
    var navigation: Option<string>

    predicate Valid()
      reads this
    {
      1 <= step <= TotalSteps
    }

    constructor()
      ensures Valid() && step == 1 && form == DefaultForm && navigation.None?
    {
      step := 1;
      form := DefaultForm;
      navigation := None;
    }

    method NextStep()
      requires Valid()
      modifies this
      ensures Valid() && step == NextOf(old(step)) && form == old(form) && navigation == old(navigation)
    {
      step := if step + 1 <= TotalSteps then step + 1 else TotalSteps;
    }

    method PrevStep()
      requires Valid()
      modifies this
      ensures Valid() && step == PrevOf(old(step)) && form == old(form) && navigation == old(navigation)
    {
      step := if step - 1 >= 1 then step - 1 else 1;
    }

    method UpdateField(section: string, field: string, value: Json)
      modifies this
      ensures form == UpdatedForm(old(form), section, field, value) && step == old(step) && navigation == old(navigation)
    {
      var fields := if section in form then form[section] else map[];
      form := form[section := fields[field := value]];
    }

    /** A TagInput's `onAdd` for a list field. */
    method AddTagTo(section: string, field: string, tag: string)
      requires section in form && field in form[section] && form[section][field].Arr?
      modifies this
      ensures form == UpdatedForm(old(form), section, field, Arr(AddTag(old(form)[section][field].items, Str(tag))))
      ensures step == old(step) && navigation == old(navigation)
    {
      UpdateField(section, field, Arr(form[section][field].items + [Str(tag)]));
    }

    /** A TagInput's `onRemove` for a list field. */
    method RemoveTagFrom(section: string, field: string, tag: Json)
      requires section in form && field in form[section] && form[section][field].Arr?
      modifies this
      ensures form == UpdatedForm(old(form), section, field, Arr(RemoveTag(old(form)[section][field].items, tag)))
      ensures step == old(step) && navigation == old(navigation)
    {
      var kept: seq<Json> := [];
      var items := form[section][field].items;
      var i := 0;
      while i < |items|
        invariant 0 <= i <= |items|
        invariant kept == RemoveTag(items[..i], tag)
      {
        assert items[..i + 1][..i] == items[..i];
        if items[i] != tag {
          kept := kept + [items[i]];
        }
        i := i + 1;
      }
      assert items[..|items|] == items;
      UpdateField(section, field, Arr(kept));
    }

    /** The file reader's `onload` for the CV: the stored content is the
        payload of the data URL. */
    method AttachCv(name: string, kind: string, size: real, dataUrl: string)
      modifies this
      ensures form == UpdatedForm(old(form), "candidate", "cv_file", CvFile(name, kind, size, dataUrl))
      ensures step == old(step) && navigation == old(navigation)
    {
      UpdateField("candidate", "cv_file", CvFile(name, kind, size, dataUrl));
    }

    /** `handleSubmit`: returns the `Authorization` header of the prompt
        request, and navigates by the chosen mode whether the request
        succeeds, fails or throws. */
    method Submit(token: Option<string>) returns (authorization: string)
      modifies this
      ensures authorization == AuthorizationHeader(token)
      ensures navigation == Some(SubmitRoute(form))
      ensures step == old(step) && form == old(form)
    {
      authorization := if token.Some? then token.value else "null";
      var mode := if "session" in form && "interview_mode" in form["session"] then form["session"]["interview_mode"] else Undefined;
      navigation := Some(if mode == Str("behavioral") then "/behavioural" else "/technical");
    }

    /** Pressing a key in a TagInput: adds the trimmed text on Enter. */
    method KeyDownIn(section: string, field: string, input: string, key: string) returns (box: string)
      requires section in form && field in form[section] && form[section][field].Arr?
      modifies this
      ensures box == KeyDown(input, key).1
      ensures KeyDown(input, key).0.Some? ==>
        form == UpdatedForm(old(form), section, field, Arr(AddTag(old(form)[section][field].items, Str(KeyDown(input, key).0.value))))
      ensures KeyDown(input, key).0.None? ==> form == old(form)
      ensures step == old(step) && navigation == old(navigation)
    {
      var text := Trim(input);
      if key == "Enter" && text != "" {
        AddTagTo(section, field, text);
        box := "";
      } else {
        box := input;
      }
    }
  }
}
