/** The technical interview page: the problem built from the title the
    problem service sends, the choice of voice agent, the code snapshot sent
    while the call is live, and the hand-over to the technical results page. */
module TechnicalInterview {
  import opened Js
  import opened Browser
  import ResultsTechnicalPage

  /** A coding problem. Its `title` is whatever value the title came as. */
  datatype Problem = Problem(id: string, title: Json, description: string, starterCode: string)

  const TwoSumDescription: string :=
    "Given an array of integers nums and an integer target, return indices of the two numbers such that they add up to target.\n\nYou may assume that each input would have exactly one solution, and you may not use the same element twice."

  /** `DUMMY_PROBLEM`, shown until a problem arrives and when fetching fails. */
  const DummyProblem: Problem := Problem("two-sum", Str("Two Sum"), TwoSumDescription,
    "function twoSum(nums, target) {\n  // Write your solution here\n  // Return an array [i, j] with the indices of the two numbers\n}\n")

  /** `PROBLEM_TEMPLATES`, keyed by title. */
  const Templates: map<string, Problem> := map[
    "Two Sum" := Problem("two-sum", Str("Two Sum"), TwoSumDescription,
      "function twoSum(nums, target) {\n  // nums: number[]\n  // target: number\n  // Return [i, j] where nums[i] + nums[j] === target\n}\n"),
    "Container With Most Water" := Problem("container-with-most-water", Str("Container With Most Water"),
      "Given n non-negative integers a1, a2, ..., an, where each represents a point at coordinate (i, ai). n vertical lines are drawn such that the two endpoints of the line i are at (i, ai) and (i, 0). Find two lines that, together with the x-axis, form a container that holds the most water.",
      "function maxArea(height) {\n  // height: number[]\n  // Return the maximum amount of water a container can store\n}\n"),
    "Roman to Integer" := Problem("roman-to-integer", Str("Roman to Integer"),
      "Given a Roman numeral, convert it to an integer. The input is guaranteed to be within the range 1 to 3999.",
      "function romanToInt(s) {\n  // s: string representing a Roman numeral\n  // Return the corresponding integer\n}\n"),
    "Regular Expression Matching" := Problem("regular-expression-matching", Str("Regular Expression Matching"),
      "Implement regular expression matching with support for '.' and '*'.\n\n'.' Matches any single character.\n'*' Matches zero or more of the preceding element.\n\nThe matching should cover the entire input string (not partial).",
      "function isMatch(s, p) {\n  // s: input string\n  // p: pattern with '.' and '*'\n  // Return true if pattern matches the entire string\n}\n"),
    "Letter Combinations of a Phone Number" := Problem("letter-combinations-of-a-phone-number", Str("Letter Combinations of a Phone Number"),
      "Given a string containing digits from 2–9 inclusive, return all possible letter combinations that the number could represent. Return the answer in any order.",
      "function letterCombinations(digits) {\n  // digits: string of digits 2-9\n  // Return all possible letter combinations\n}\n")]

  const CustomPrefix: string := "Solve the problem: "
  const CustomSuffix: string := ".\n\nWrite a clear, efficient solution and be prepared to explain its time and space complexity."

  /** The generic wrapper for a title without a template; `text` is the
      title as template literals render it. */
  function CustomProblem(title: Json, text: string): Problem {
    Problem("custom-problem", title, CustomPrefix + text + CustomSuffix,
      "// " + text + "\nfunction solve(input) {\n  // TODO: implement your solution here\n}\n")
  }

  /** `buildProblemFromTitle(title)`. The template is looked up under the
      title's string form, as property keys are. `None` stands for a
      non-integral numeric title, whose decimal form the model does not
      compute. */
  function BuildProblem(title: Json): Option<Problem> {
    if !Truthy(title) then Some(DummyProblem)
    else
      match ToText(title)
      case None => None
      case Some(key) => if key in Templates then Some(Templates[key]) else Some(CustomProblem(title, key))
  }

  /** Every template is filed under its own title. */
  lemma TemplatesTitled()
    ensures forall key :: key in Templates ==> Templates[key].title == Str(key)
  {
    forall key | key in Templates
      ensures Templates[key].title == Str(key)
    {
      assert key in {"Two Sum", "Container With Most Water", "Roman to Integer",
                     "Regular Expression Matching", "Letter Combinations of a Phone Number"};
    }
  }

  /** A falsy title gives the dummy problem; a title with a template gets
      that template. */
  lemma BuildProblemFromString(s: string)
    ensures BuildProblem(Str("")) == Some(DummyProblem)
    ensures s in Templates ==> BuildProblem(Str(s)) == Some(Templates[s])
  {
  }

  /** A non-empty string title is kept as the problem's title, whether it
      has a template or gets the custom wrapper. */
  lemma TitleKept(s: string)
    requires s != ""
    ensures BuildProblem(Str(s)).Some? && BuildProblem(Str(s)).value.title == Str(s)
  {
    if s in Templates {
      TemplatesTitled();
      BuildProblemFromString(s);
    }
  }

  /** A string title without a template gets the custom wrapper, whose
      description and starter code carry the title. */
  lemma CustomProblemEmbedsTitle(s: string)
    requires s != "" && s !in Templates
    ensures BuildProblem(Str(s)).Some?
    ensures var p := BuildProblem(Str(s)).value;
      && p.id == "custom-problem"
      && p.description[|CustomPrefix|..|CustomPrefix| + |s|] == s
      && p.starterCode[3..3 + |s|] == s
  {
    assert BuildProblem(Str(s)) == Some(CustomProblem(Str(s), s));
    CustomEmbeds(Str(s), s);
  }

  lemma CustomEmbeds(title: Json, s: string)
    ensures var p := CustomProblem(title, s);
      && p.id == "custom-problem"
      && p.description[|CustomPrefix|..|CustomPrefix| + |s|] == s
      && p.starterCode[3..3 + |s|] == s
  {
    var p := CustomProblem(title, s);
    assert p.description == CustomPrefix + s + CustomSuffix;
    assert (CustomPrefix + s + CustomSuffix)[|CustomPrefix|..|CustomPrefix| + |s|] == s;
  }

  /** Only falsy titles give the dummy, and the result is missing only for a
      title without a computed string form. */
  lemma BuildProblemTotal(title: Json)
    ensures !Truthy(title) ==> BuildProblem(title) == Some(DummyProblem)
    ensures BuildProblem(title).None? <==> Truthy(title) && ToText(title).None?
  {
  }

  /** A one-element array is looked up by its element, so `["Two Sum"]` gets
      the Two Sum template, whose title is the string, not the array. */
  lemma ArrayTitleLookup()
    ensures BuildProblem(Arr([Str("Two Sum")])) == Some(Templates["Two Sum"])
    ensures BuildProblem(Arr([Str("Two Sum")])).value.title != Arr([Str("Two Sum")])
  {
    TwoSumArrayText();
    assert "Two Sum" in Templates && Templates["Two Sum"].title == Str("Two Sum");
  }

  lemma TwoSumArrayText()
    ensures ToText(Arr([Str("Two Sum")])) == Some("Two Sum")
  {
  }

  const GoogleAgent: string := "agent_5301kc3cd46tfvb9yvb15b3r1kxt"
  const MetaAgent: string := "agent_3201kc3dbg7kfsgat6n0wsgfck8c"
  const OtherAgent: string := "agent_9401kc3dcz0heexs1tkpj1181f7y"

  /** `getAgentIdForCompany(company)` */
  function AgentIdForCompany(company: string): string {
    if company == "google" then GoogleAgent
    else if company == "meta" then MetaAgent
    else OtherAgent
  }

  /** The company default is total: google and meta have their own agents and
      every other company gets the general one. */
  lemma AgentIdForCompanyCases(company: string)
    ensures AgentIdForCompany(company) in {GoogleAgent, MetaAgent, OtherAgent}
    ensures AgentIdForCompany(company) == GoogleAgent <==> company == "google"
    ensures AgentIdForCompany(company) == MetaAgent <==> company == "meta"
    ensures AgentIdForCompany(company) == OtherAgent <==> company != "google" && company != "meta"
  {
  }

  /** The company remembered in local storage, or `other` when none is
      stored or it is empty. */
  function SelectedCompany(stored: Option<string>): string {
    if stored.Some? && stored.value != "" then stored.value else "other"
  }

  /** The agent of the session: its own if truthy, else the one remembered
      in local storage, else the company's default agent. */
  function SessionAgentId(agentId: Json, storedAgent: Option<string>, company: string): Json {
    Or(Or(agentId, Item(storedAgent)), Str(AgentIdForCompany(company)))
  }

  /** The session's own agent wins, then the stored one, then the company
      default; some non-empty agent is always chosen. */
  lemma SessionAgentPrecedence(agentId: Json, storedAgent: Option<string>, company: string)
    ensures Truthy(agentId) ==> SessionAgentId(agentId, storedAgent, company) == agentId
    ensures !Truthy(agentId) && storedAgent.Some? && storedAgent.value != "" ==>
      SessionAgentId(agentId, storedAgent, company) == Str(storedAgent.value)
    ensures !Truthy(agentId) && (storedAgent.None? || storedAgent.value == "") ==>
      SessionAgentId(agentId, storedAgent, company) == Str(AgentIdForCompany(company))
    ensures Truthy(SessionAgentId(agentId, storedAgent, company))
  {
  }

  /** The first element of an array payload when that element is truthy,
      otherwise the payload itself. */
  function First(data: Json): Json {
    if data.Arr? && |data.items| > 0 && Truthy(data.items[0]) then data.items[0] else data
  }

  /** Only an array whose first element is truthy is unwrapped; an empty
      array, or one led by a falsy element, is kept whole. So unlike the
      results page's unwrap, this one never yields undefined for an array. */
  lemma FirstCases(data: Json)
    ensures First(data) != data ==> data.Arr? && |data.items| > 0 && First(data) == data.items[0]
    ensures data.Arr? && |data.items| > 0 && Truthy(data.items[0]) ==> First(data) == data.items[0]
    ensures !data.Arr? ==> First(data) == data
    ensures First(Arr([])) == Arr([]) && First(Arr([Null])) == Arr([Null])
    ensures data.Arr? ==> !Nullish(First(data))
  {
  }

  /** The problem shown once the problem service has answered: `None` for a
      reply that could not be fetched or read, which falls back to the
      dummy problem. */
  function ProblemFromReply(reply: Option<Json>): Option<Problem> {
    if reply.None? then Some(DummyProblem) else BuildProblem(OptGet(First(reply.value), "title"))
  }

  /** The live-call guard: a session is started only from a state that is
      neither connected nor connecting, and once the microphone is granted;
      it then uses the agent chosen by precedence. */
  function StartAgent(status: string, micGranted: bool, agentId: Json, storedAgent: Option<string>, company: string): Option<Json> {
    if status == "connected" || status == "connecting" then None
    else if !micGranted then None
    else Some(SessionAgentId(agentId, storedAgent, company))
  }

  lemma StartGuard(status: string, micGranted: bool, agentId: Json, storedAgent: Option<string>, company: string)
    ensures StartAgent(status, micGranted, agentId, storedAgent, company).Some? <==>
      status != "connected" && status != "connecting" && micGranted
    ensures StartAgent(status, micGranted, agentId, storedAgent, company).Some? ==>
      StartAgent(status, micGranted, agentId, storedAgent, company).value == SessionAgentId(agentId, storedAgent, company)
  {
  }

  /** The snapshot posted while the call is live; `conversation_id` is added
      only for a truthy conversation id. */
  function SnapshotPayload(code: string, problemTitle: Json, company: string, candidateCv: Json, conversationId: Json): Json {
    var base := [("code", Str(code)), ("problemTitle", problemTitle), ("company", Str(company)), ("candidateCv", candidateCv)];
    if Truthy(conversationId) then Obj(base + [("conversation_id", conversationId)]) else Obj(base)
  }

  /** The snapshot carries the code, title, company and CV, and a
      `conversation_id` exactly when one exists, then equal to it. */
  lemma SnapshotConversationId(code: string, problemTitle: Json, company: string, candidateCv: Json, conversationId: Json)
    ensures var p := SnapshotPayload(code, problemTitle, company, candidateCv, conversationId);
      && Get(p, "code") == Str(code) && Get(p, "problemTitle") == problemTitle
      && Get(p, "company") == Str(company) && Get(p, "candidateCv") == candidateCv
      && (Truthy(conversationId) ==> Get(p, "conversation_id") == conversationId)
      && (!Truthy(conversationId) ==> Get(p, "conversation_id") == Undefined)
  {
    var p := SnapshotPayload(code, problemTitle, company, candidateCv, conversationId);
    LookupFirst(p.entries, "code", 0);
    LookupFirst(p.entries, "problemTitle", 1);
    LookupFirst(p.entries, "company", 2);
    LookupFirst(p.entries, "candidateCv", 3);
    if Truthy(conversationId) {
      LookupFirst(p.entries, "conversation_id", 4);
    } else {
      LookupMissing(p.entries, "conversation_id");
    }
  }

  /** The evaluation request sent on submit; unlike the snapshot it always
      carries `conversation_id`, `null` when there is none. */
  function SubmitBody(code: string, problem: Problem, company: string, candidateCv: Json, conversationId: Json): Json {
    Obj([("user_code", Str(code)),
         ("randomized_problem", Obj([("title", problem.title), ("description", Str(problem.description))])),
         ("company", Str(company)),
         ("candidateCv", candidateCv),
         ("conversation_id", Or(conversationId, Null))])
  }

  lemma SubmitBodyConversationId(code: string, problem: Problem, company: string, candidateCv: Json, conversationId: Json)
    ensures var b := SubmitBody(code, problem, company, candidateCv, conversationId);
      && Get(b, "conversation_id") == (if Truthy(conversationId) then conversationId else Null)
      && Get(b, "user_code") == Str(code)
  {
    var b := SubmitBody(code, problem, company, candidateCv, conversationId);
    LookupFirst(b.entries, "user_code", 0);
    LookupFirst(b.entries, "conversation_id", 4);
  }

  /** The navigation state handed to the technical results page, or `None`
      when reading the reply's first element throws (a `null` reply). */
  function ResultsState(data: Json, problem: Problem, code: string, company: string, candidateCv: Json): Option<Json> {
    var first := First(data);
    if Nullish(first) then None
    else Some(Obj([
      ("raw", data),
      ("feedback", Or(Get(first, "feedback"), Null)),
      ("transcript", Or(Get(first, "transcript"), Null)),
      ("audio", Or(Get(first, "audio"), Null)),
      ("problem", Obj([("id", Str(problem.id)), ("title", problem.title),
                       ("description", Str(problem.description)), ("starterCode", Str(problem.starterCode))])),
      ("code", Str(code)),
      ("company", Str(company)),
      ("candidateCv", candidateCv)]))
  }

  /** What the results page makes of the hand-over: a truthy reply travels
      as `raw` and is what the results page takes as its payload. */
  lemma HandOverReachesResults(data: Json, problem: Problem, code: string, company: string, candidateCv: Json)
    requires Truthy(data)
    ensures ResultsState(data, problem, code, company, candidateCv).Some?
    ensures ResultsTechnicalPage.RawFromState(ResultsState(data, problem, code, company, candidateCv).value) == data
  {
    var st := ResultsState(data, problem, code, company, candidateCv).value;
    LookupFirst(st.entries, "raw", 0);
  }

  /** The page's state. `agentId` is the session's agent once loaded. */
  class TechnicalPage {
    var agentId: Json
    var problem: Problem
    var code: string
    var isSubmitting: bool
    /** Where the page navigated, with the navigation state. */
    var navigation: Option<(string, Json)>
    const storage: LocalStorage

    constructor(storage: LocalStorage)
      ensures this.storage == storage
      ensures agentId == Str("") && problem == DummyProblem && code == DummyProblem.starterCode
      ensures !isSubmitting && navigation.None?
    {
      this.storage := storage;
      agentId := Str("");
      problem := DummyProblem;
      code := DummyProblem.starterCode;
      isSubmitting := false;
      navigation := None;
    }

    /** The session lookup's answer: a non-OK or unreadable reply is
        `None`; a truthy `agentId` in it is kept and stored as
        `currentAgentId`. */
    method LoadSessionAgent(reply: Option<Json>)
      requires reply.Some? && Truthy(OptGet(reply.value, "agentId")) ==> ToText(OptGet(reply.value, "agentId")).Some?
      modifies this, storage
      ensures reply.Some? && Truthy(OptGet(reply.value, "agentId")) ==>
        && agentId == OptGet(reply.value, "agentId")
        && storage.items == old(storage.items)["currentAgentId" := ToText(OptGet(reply.value, "agentId")).value]
      ensures !(reply.Some? && Truthy(OptGet(reply.value, "agentId"))) ==>
        agentId == old(agentId) && storage.items == old(storage.items)
      ensures problem == old(problem) && code == old(code) && isSubmitting == old(isSubmitting) && navigation == old(navigation)
    {
      if reply.Some? {
        var id := OptGet(reply.value, "agentId");
        if Truthy(id) {
          agentId := id;
          storage.SetItem("currentAgentId", ToText(id).value);
        }
      }
    }

    /** The problem request's answer (`None` when it could not be fetched or
        read): the problem is built from the title and the editor is reset
        to its starter code. */
    method LoadProblem(reply: Option<Json>)
      requires ProblemFromReply(reply).Some?
      modifies this
      ensures problem == ProblemFromReply(reply).value && code == problem.starterCode
      ensures agentId == old(agentId) && isSubmitting == old(isSubmitting) && navigation == old(navigation)
    {
      var built := if reply.None? then DummyProblem else BuildProblem(OptGet(First(reply.value), "title")).value;
      problem := built;
      code := built.starterCode;
    }

    /** `handleSubmitAndComplete`: reports whether the live call is ended
        (only when connected) and the request it sends; `reply` is the
        evaluation service's answer, `None` when it could not be fetched or
        read. It navigates to the technical results page with the reply, or
        stays when the reply cannot be read, and always clears
        `isSubmitting`. */
    method SubmitAndComplete(status: string, conversationId: Json, parse: string -> Option<Json>, reply: Option<Json>)
      returns (endCall: bool, request: Json)
      modifies this
      ensures endCall <==> status == "connected"
      ensures request == SubmitBody(old(code), old(problem), SelectedCompany(storage.GetItem("selectedCompany")),
        StoredCv(storage.GetItem("candidateCv"), parse), conversationId)
      ensures var st := if reply.None? then None
        else ResultsState(reply.value, old(problem), old(code), SelectedCompany(storage.GetItem("selectedCompany")),
          StoredCv(storage.GetItem("candidateCv"), parse));
        navigation == if st.Some? then Some(("/results-technical", st.value)) else old(navigation)
      ensures !isSubmitting
      ensures agentId == old(agentId) && problem == old(problem) && code == old(code)
    {
      isSubmitting := true;
      var company := SelectedCompany(storage.GetItem("selectedCompany"));
      var cv := StoredCv(storage.GetItem("candidateCv"), parse);
      endCall := status == "connected";
      request := SubmitBody(code, problem, company, cv, conversationId);
      if reply.Some? {
        var st := ResultsState(reply.value, problem, code, company, cv);
        if st.Some? {
          navigation := Some(("/results-technical", st.value));
        }
      }
      isSubmitting := false;
    }
  }
}
