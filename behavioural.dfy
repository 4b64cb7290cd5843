/** The behavioural interview page: the orb's state and colours, the agent
    the call is started with, and completing the interview. */
module BehaviouralInterview {
  import opened Js
  import opened Browser

  const BuiltInAgent: string := "agent_0901kbyh4704effth28z4q9f684p"

  /** `AGENT_ID`: `import.meta.env.VITE_GOOGLE_AGENT_ID` when non-empty, else
      the built-in agent. */
  function DefaultAgent(env: Option<string>): string {
    if env.Some? && env.value != "" then env.value else BuiltInAgent
  }

  /** The agent the call is placed with: the session's own agent if truthy,
      else the one remembered in local storage, else the configured default. */
  function CallAgent(agentId: Json, storedAgent: Option<string>, env: Option<string>): Json {
    Or(Or(agentId, Item(storedAgent)), Str(DefaultAgent(env)))
  }

  /** The session's agent wins, then the stored one, then `AGENT_ID`; the
      call always gets a non-empty agent id. */
  lemma CallAgentPrecedence(agentId: Json, storedAgent: Option<string>, env: Option<string>)
    ensures Truthy(agentId) ==> CallAgent(agentId, storedAgent, env) == agentId
    ensures !Truthy(agentId) && storedAgent.Some? && storedAgent.value != "" ==>
      CallAgent(agentId, storedAgent, env) == Str(storedAgent.value)
    ensures !Truthy(agentId) && (storedAgent.None? || storedAgent.value == "") ==>
      CallAgent(agentId, storedAgent, env) == Str(DefaultAgent(env))
    ensures Truthy(CallAgent(agentId, storedAgent, env))
  {
  }

  datatype Colors = Colors(primary: string, secondary: string)

  const Teal: Colors := Colors("#2792DC", "#9CE6E6")

  /** `COMPANY_COLORS` */
  const CompanyColors: map<string, Colors> := map[
    "Google" := Teal, "Microsoft" := Teal, "Amazon" := Teal, "Apple" := Teal,
    "Meta" := Teal, "Netflix" := Teal, "Tesla" := Teal, "default" := Teal]

  /** The company remembered in local storage, or `default` when none is
      stored or it is empty. */
  function SelectedCompany(stored: Option<string>): string {
    if stored.Some? && stored.value != "" then stored.value else "default"
  }

  /** The orb colours of a company, falling back to the default entry for
      a company without one. */
  function OrbColors(company: string): Colors {
    if company in CompanyColors then CompanyColors[company] else CompanyColors["default"]
  }

  /** A listed company gets its own entry, any other company (and no
      company at all) the default one; as the table stands every company
      gets the same two-colour theme. */
  lemma OrbColorsLookup(stored: Option<string>)
    ensures SelectedCompany(stored) in CompanyColors ==> OrbColors(SelectedCompany(stored)) == CompanyColors[SelectedCompany(stored)]
    ensures SelectedCompany(stored) !in CompanyColors ==> OrbColors(SelectedCompany(stored)) == CompanyColors["default"]
    ensures stored.None? ==> OrbColors(SelectedCompany(stored)) == CompanyColors["default"]
    ensures OrbColors(SelectedCompany(stored)) == Teal
  {
  }

  /** The state the orb is drawn in. */
  function OrbState(testMode: bool, testState: string, status: string, isSpeaking: bool): string {
    if testMode then testState
    else if status == "connected" then (if isSpeaking then "speaking" else "listening")
    else "idle"
  }

  /** Test mode shows the chosen test state; otherwise a live call speaks or
      listens by whether the agent is speaking, and anything else is idle. */
  lemma OrbStateCases(testMode: bool, testState: string, status: string, isSpeaking: bool)
    ensures testMode ==> OrbState(testMode, testState, status, isSpeaking) == testState
    ensures !testMode ==> OrbState(testMode, testState, status, isSpeaking) in {"speaking", "listening", "idle"}
    ensures !testMode ==> (OrbState(testMode, testState, status, isSpeaking) == "idle" <==> status != "connected")
    ensures !testMode && status == "connected" ==>
      (OrbState(testMode, testState, status, isSpeaking) == "speaking" <==> isSpeaking)
  {
  }

  /** `handleStartCall`: once the microphone is granted the call starts with
      the chosen agent. Unlike the technical page there is no guard against
      an already live call. */
  function StartCall(micGranted: bool, agentId: Json, storedAgent: Option<string>, env: Option<string>): Option<Json> {
    if micGranted then Some(CallAgent(agentId, storedAgent, env)) else None
  }

  /** The state handed to the behavioural results page. */
  function ResultsState(company: string, candidateCv: Json): Json {
    Obj([("company", Str(company)), ("candidateCv", candidateCv)])
  }

  lemma ResultsStateFields(company: string, candidateCv: Json)
    ensures Get(ResultsState(company, candidateCv), "company") == Str(company)
    ensures Get(ResultsState(company, candidateCv), "candidateCv") == candidateCv
  {
    LookupFirst(ResultsState(company, candidateCv).entries, "candidateCv", 1);
  }

  /** The page's state. The session lookup that fills `agentId` is the same
      code as on the technical page and is modelled there. */
  class BehaviouralPage {
    var agentId: Json
    var isSubmitting: bool
    var navigation: Option<(string, Json)>
    const storage: LocalStorage

    constructor(storage: LocalStorage)
      ensures this.storage == storage && agentId == Str("") && !isSubmitting && navigation.None?
    {
      this.storage := storage;
      agentId := Str("");
      isSubmitting := false;
      navigation := None;
    }

    /** `handleCompleteInterview`: the live call is ended only when
        connected; the page then goes to `/results` with the company and the
        CV. If ending the call throws, the exception escapes before the
        navigation. `isSubmitting` is cleared in every case. */
    method CompleteInterview(status: string, endFails: bool, parse: string -> Option<Json>) returns (endCall: bool)
      modifies this
      ensures endCall <==> status == "connected"
      ensures !(endCall && endFails) ==>
        navigation == Some(("/results", ResultsState(SelectedCompany(storage.GetItem("selectedCompany")),
          StoredCv(storage.GetItem("candidateCv"), parse))))
      ensures endCall && endFails ==> navigation == old(navigation)
      ensures !isSubmitting && agentId == old(agentId)
    {
      isSubmitting := true;
      endCall := status == "connected";
      if !(endCall && endFails) {
        var company := SelectedCompany(storage.GetItem("selectedCompany"));
        var cv := StoredCv(storage.GetItem("candidateCv"), parse);
        navigation := Some(("/results", ResultsState(company, cv)));
      }
      isSubmitting := false;
    }
  }
}
