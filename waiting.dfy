/** The waiting page shown while the interview session is prepared: a
    rotating status message, and a poller whose every answer either reports
    an error, does nothing, or, once the session is ready, records it and
    moves on to the interview page. The three-second timers are the
    caller's: each tick and each answer is one method call. */
module SessionWaiting {
  import opened Js
  import opened Browser

  const LoadingMessages: seq<string> := [
    "Preparing your interview...", "Feeding the prompt...", "Processing your requirements...",
    "Setting up the desk...", "Analyzing your profile...", "Crafting personalized questions...",
    "Configuring the AI agent...", "Almost ready..."]

  /** The next loading message, wrapping round to the first. */
  function NextIndex(i: int): int {
    (i + 1) % |LoadingMessages|
  }

  /** The index after `k` ticks. */
  function IndexAfter(i: int, k: nat): int {
    if k == 0 then i else NextIndex(IndexAfter(i, k - 1))
  }

  /** From the first message, `k` ticks show message `k mod 8`: the
      rotation visits every message in order and wraps around. */
  lemma {:induction false} RotationCycles(k: nat)
    ensures IndexAfter(0, k) == k % |LoadingMessages|
    ensures 0 <= IndexAfter(0, k) < |LoadingMessages|
  {
    if k > 0 {
      RotationCycles(k - 1);
      assert |LoadingMessages| == 8;
      WrapStep(k);
    }
  }

  /** One more step of a counter modulo 8. */
  lemma WrapStep(k: nat)
    requires k > 0
    ensures ((k - 1) % 8 + 1) % 8 == k % 8
  {
  }

  /** One answer to the status poll. `NotOk(body)` carries the error body,
      `Fault` is a fetch that failed or a body that could not be read. */
  datatype PollReply = Fault | NotOk(body: Option<Json>) | Answer(data: Json)

  const DefaultError: string := "Failed to fetch session status"
  const NetworkError: string := "Network error while checking session status"

  /** The page to open once the session exists: the behavioural page when
      the pending mode is `behavioral` (the default when none is stored) and
      the technical page otherwise, followed by the session id. */
  function InterviewRoute(pendingMode: Option<string>, sessionId: string): string {
    var mode := if pendingMode.Some? && pendingMode.value != "" then pendingMode.value else "behavioral";
    "/" + (if mode == "behavioral" then "behavioural" else "technical") + "/" + sessionId
  }

  /** An unset or `behavioral` pending mode leads to the behavioural page,
      any other mode to the technical page. */
  lemma InterviewRouteChoice(pendingMode: Option<string>, sessionId: string)
    ensures pendingMode.None? || pendingMode == Some("") || pendingMode == Some("behavioral") ==>
      InterviewRoute(pendingMode, sessionId) == "/behavioural/" + sessionId
    ensures pendingMode.Some? && pendingMode.value != "" && pendingMode.value != "behavioral" ==>
      InterviewRoute(pendingMode, sessionId) == "/technical/" + sessionId
  {
  }

  class WaitingPage {
    var messageIndex: int
    var errorMessage: Json
    /** The poll effect's `isActive`, cleared by its cleanup. */
    var isActive: bool
    var polling: bool
    var navigation: Option<string>
    const storage: LocalStorage

    predicate Valid()
      reads this
    {
      0 <= messageIndex < |LoadingMessages| && (polling ==> isActive)
    }

    constructor(storage: LocalStorage)
      ensures Valid() && this.storage == storage
      ensures messageIndex == 0 && errorMessage == Str("") && !isActive && !polling && navigation.None?
    {
      this.storage := storage;
      messageIndex := 0;
      errorMessage := Str("");
      isActive := false;
      polling := false;
      navigation := None;
    }

    /** The message timer's tick. */
    method Tick()
      requires Valid()
      modifies this
      ensures Valid() && messageIndex == NextIndex(old(messageIndex))
      ensures errorMessage == old(errorMessage) && isActive == old(isActive) && polling == old(polling) && navigation == old(navigation)
    {
      messageIndex := (messageIndex + 1) % |LoadingMessages|;
    }

    /** The poll effect: nothing without a session id; without a token it
        goes to `/login` and never polls; otherwise polling starts. */
    method Start(sessionId: string)
      requires Valid()
      modifies this
      ensures Valid()
      ensures sessionId == "" ==> polling == old(polling) && navigation == old(navigation) && isActive == old(isActive)
      ensures sessionId != "" && (storage.GetItem("token").None? || storage.GetItem("token") == Some("")) ==>
        navigation == Some("/login") && polling == old(polling) && isActive == old(isActive)
      ensures sessionId != "" && storage.GetItem("token").Some? && storage.GetItem("token") != Some("") ==>
        polling && isActive && navigation == old(navigation)
      ensures messageIndex == old(messageIndex) && errorMessage == old(errorMessage)
    {
      if sessionId == "" {
        return;
      }
      var token := storage.GetItem("token");
      if token.None? || token.value == "" {
        navigation := Some("/login");
        return;
      }
      isActive := true;
      polling := true;
    }

    /** The effect's cleanup: later answers are ignored. */
    method Stop()
      requires Valid()
      modifies this
      ensures Valid() && !isActive && !polling
      ensures messageIndex == old(messageIndex) && errorMessage == old(errorMessage) && navigation == old(navigation)
    {
      isActive := false;
      polling := false;
    }

    /** One answer of the poll for `sessionId`. */
    method HandleReply(sessionId: string, reply: PollReply)
      requires Valid()
      requires reply.Answer? && !Nullish(reply.data) && Truthy(Get(reply.data, "ready")) && Truthy(Get(reply.data, "agentId")) ==>
        ToText(Get(reply.data, "agentId")).Some?
      modifies this, storage
      ensures Valid() && messageIndex == old(messageIndex) && polling == old(polling) && isActive == old(isActive)
      ensures !old(isActive) ==>
        errorMessage == old(errorMessage) && navigation == old(navigation) && storage.items == old(storage.items)
      ensures old(isActive) && reply.Fault? ==>
        errorMessage == Str(NetworkError) && navigation == old(navigation) && storage.items == old(storage.items)
      ensures old(isActive) && reply.NotOk? ==>
        && errorMessage == Or(if reply.body.Some? then OptGet(reply.body.value, "error") else Undefined, Str(DefaultError))
        && navigation == old(navigation) && storage.items == old(storage.items)
      ensures old(isActive) && reply.Answer? && Nullish(reply.data) ==>
        errorMessage == Str(NetworkError) && navigation == old(navigation) && storage.items == old(storage.items)
      ensures old(isActive) && reply.Answer? && !Nullish(reply.data) && !Truthy(Get(reply.data, "ready")) ==>
        errorMessage == old(errorMessage) && navigation == old(navigation) && storage.items == old(storage.items)
      ensures old(isActive) && reply.Answer? && !Nullish(reply.data) && Truthy(Get(reply.data, "ready")) ==>
        && errorMessage == old(errorMessage)
        && navigation == Some(InterviewRoute(old(storage.GetItem("pendingInterviewMode")), sessionId))
        && storage.items == (if Truthy(Get(reply.data, "agentId"))
                             then old(storage.items)["currentSessionId" := sessionId]["currentAgentId" := ToText(Get(reply.data, "agentId")).value]
                             else old(storage.items)["currentSessionId" := sessionId])
    {
      if !isActive {
        return;
      }
      match reply
      case Fault =>
        errorMessage := Str(NetworkError);
      case NotOk(body) =>
        var errorData := if body.Some? then body.value else Obj([]);
        errorMessage := Or(OptGet(errorData, "error"), Str(DefaultError));
      case Answer(data) =>
        if Nullish(data) {
          errorMessage := Str(NetworkError);
        } else if Truthy(Get(data, "ready")) {
          var mode := storage.GetItem("pendingInterviewMode");
          storage.SetItem("currentSessionId", sessionId);
          var agentId := Get(data, "agentId");
          if Truthy(agentId) {
            storage.SetItem("currentAgentId", ToText(agentId).value);
          }
          navigation := Some(InterviewRoute(mode, sessionId));
        }
    }
  }
}
