/** The workflow callback `POST /session/:sessionId/callback`: it merges the
    payload into one session row and records the session's agent. */
module Callback {
  import opened Js
  import opened Store
  import opened Http

  /** The payload fields after coalescing, each `undefined` when unset. */
  datatype Fields = Fields(
    agentId: Json,
    interviewPlan: Json,
    interviewPrompt: Json,
    feedbackPrompt: Json,
    feedback: Json)

  /** The destructuring of `req.body || {}` and the two prompt fallbacks. */
  function FieldsOf(body: Json): Fields {
    var b := Or(body, Obj([]));
    Fields(
      Get(b, "agent_id"),
      Get(b, "interview_plan"),
      Or(Or(Get(b, "interview_prompt"), Get(b, "interview_primpot")), Undefined),
      Or(Or(Get(b, "feedback_prompt_final"), Get(b, "feedback_prompt")), Undefined),
      Get(b, "feedback"))
  }

  /** The interview prompt is `interview_prompt`, else the misspelt legacy
      `interview_primpot`, else unset; the feedback prompt prefers
      `feedback_prompt_final` over `feedback_prompt`. */
  lemma PromptPrecedence(body: Json)
    ensures var b := Or(body, Obj([]));
      var f := FieldsOf(body);
      && (Truthy(Get(b, "interview_prompt")) ==> f.interviewPrompt == Get(b, "interview_prompt"))
      && (!Truthy(Get(b, "interview_prompt")) && Truthy(Get(b, "interview_primpot")) ==>
            f.interviewPrompt == Get(b, "interview_primpot"))
      && (!Truthy(Get(b, "interview_prompt")) && !Truthy(Get(b, "interview_primpot")) ==> f.interviewPrompt == Undefined)
      && (Truthy(Get(b, "feedback_prompt_final")) ==> f.feedbackPrompt == Get(b, "feedback_prompt_final"))
      && (!Truthy(Get(b, "feedback_prompt_final")) && Truthy(Get(b, "feedback_prompt")) ==>
            f.feedbackPrompt == Get(b, "feedback_prompt"))
      && (!Truthy(Get(b, "feedback_prompt_final")) && !Truthy(Get(b, "feedback_prompt")) ==> f.feedbackPrompt == Undefined)
  {
  }

  /** A column in the update: a falsy value is sent as undefined, which
      leaves the column as it was. */
  function Keep(current: Json, value: Json): Json {
    if Truthy(value) then value else current
  }

  /** The row after `session.update`: only the five payload columns. */
  function Merge(s: Session, f: Fields): Session {
    s.(agentId := Keep(s.agentId, f.agentId),
       interviewPlan := Keep(s.interviewPlan, f.interviewPlan),
       interviewPrompt := Keep(s.interviewPrompt, f.interviewPrompt),
       feedbackPrompt := Keep(s.feedbackPrompt, f.feedbackPrompt),
       feedback := Keep(s.feedback, f.feedback))
  }

  datatype Tables = Tables(sessions: map<string, Session>, agents: seq<Agent>)

  const Success: Json := Obj([("success", Bool(true))])

  /** Whether the callback records a new agent for the merged session. */
  predicate InsertsAgent(t: Tables, f: Fields, merged: Session) {
    Truthy(f.agentId) && !HasAgentId(t.agents, f.agentId) && Truthy(merged.userId)
  }

  /** The whole handler as one step from the tables before to the reply and
      the tables after. A session id that matches no row makes the update
      throw, which the catch turns into a 500. */
  function CallbackStep(t: Tables, sessionId: string, body: Json): (Reply, Tables) {
    if sessionId == "" then (Error(400, "Missing sessionId"), t)
    else if sessionId !in t.sessions then (Error(500, "Failed to update session"), t)
    else
      var f := FieldsOf(body);
      var merged := Merge(t.sessions[sessionId], f);
      var agents := if InsertsAgent(t, f, merged) then t.agents + [Agent(f.agentId, merged.userId)] else t.agents;
      (Reply(200, Success), Tables(t.sessions[sessionId := merged], agents))
  }

  /** The route handler, one database call after another. */
  method HandleCallback(db: Db, sessionId: string, body: Json) returns (reply: Reply)
    requires db.Valid()
    modifies db
    ensures db.Valid()
    ensures (reply, Tables(db.sessions, db.agents)) == CallbackStep(Tables(old(db.sessions), old(db.agents)), sessionId, body)
  {
    var f := FieldsOf(body);
    if sessionId == "" {
      return Error(400, "Missing sessionId");
    }
    var found := db.UpdateSession(sessionId, s => Merge(s, f));
    if !found {
      return Error(500, "Failed to update session");
    }
    if Truthy(f.agentId) {
      var existing := exists i :: 0 <= i < |db.agents| && db.agents[i].id == f.agentId;
      if !existing {
        var session := db.sessions[sessionId];
        if Truthy(session.userId) {
          var _ := db.CreateAgent(Agent(f.agentId, session.userId));
        }
      }
    }
    reply := Reply(200, Success);
  }

  /** A failed callback changes nothing: a missing id is a 400 and an
      unknown id a 500. */
  lemma FailureChangesNothing(t: Tables, sessionId: string, body: Json)
    ensures sessionId == "" ==> CallbackStep(t, sessionId, body) == (Error(400, "Missing sessionId"), t)
    ensures sessionId != "" && sessionId !in t.sessions ==>
      CallbackStep(t, sessionId, body) == (Error(500, "Failed to update session"), t)
    ensures CallbackStep(t, sessionId, body).0.status == 200 <==> sessionId != "" && sessionId in t.sessions
  {
  }

  /** Only the addressed session changes. In it, each payload column takes a
      truthy payload value and otherwise keeps its old value; the owner and
      the status are never written. */
  lemma OnlyTargetSessionChanges(t: Tables, sessionId: string, body: Json)
    requires sessionId != "" && sessionId in t.sessions
    ensures var after := CallbackStep(t, sessionId, body).1.sessions;
      var old_ := t.sessions[sessionId];
      var f := FieldsOf(body);
      && after.Keys == t.sessions.Keys
      && (forall k :: k in t.sessions && k != sessionId ==> after[k] == t.sessions[k])
      && after[sessionId].userId == old_.userId
      && after[sessionId].status == old_.status
      && (Truthy(f.agentId) ==> after[sessionId].agentId == f.agentId)
      && (!Truthy(f.agentId) ==> after[sessionId].agentId == old_.agentId)
      && (Truthy(f.interviewPlan) ==> after[sessionId].interviewPlan == f.interviewPlan)
      && (!Truthy(f.interviewPlan) ==> after[sessionId].interviewPlan == old_.interviewPlan)
      && (Truthy(f.interviewPrompt) ==> after[sessionId].interviewPrompt == f.interviewPrompt)
      && (!Truthy(f.interviewPrompt) ==> after[sessionId].interviewPrompt == old_.interviewPrompt)
      && (Truthy(f.feedbackPrompt) ==> after[sessionId].feedbackPrompt == f.feedbackPrompt)
      && (!Truthy(f.feedbackPrompt) ==> after[sessionId].feedbackPrompt == old_.feedbackPrompt)
      && (Truthy(f.feedback) ==> after[sessionId].feedback == f.feedback)
      && (!Truthy(f.feedback) ==> after[sessionId].feedback == old_.feedback)
  {
  }

  /** An agent row is added exactly when the payload names a truthy agent id
      that no row has yet and the session has an owner; the row is that id
      owned by the session's user. Otherwise the agent table is unchanged. */
  lemma AgentInsertedIff(t: Tables, sessionId: string, body: Json)
    ensures var after := CallbackStep(t, sessionId, body).1.agents;
      var f := FieldsOf(body);
      && (after != t.agents <==>
            sessionId != "" && sessionId in t.sessions && Truthy(f.agentId) &&
            !HasAgentId(t.agents, f.agentId) && Truthy(t.sessions[sessionId].userId))
      && (after != t.agents ==> after == t.agents + [Agent(f.agentId, t.sessions[sessionId].userId)])
  {
    var after := CallbackStep(t, sessionId, body).1.agents;
    if after != t.agents {
      assert |after| == |t.agents| + 1;
    }
  }

  /** The callback never breaks the agent table's primary key. */
  lemma CallbackKeepsUnique(t: Tables, sessionId: string, body: Json)
    requires UniqueIds(t.agents)
    ensures UniqueIds(CallbackStep(t, sessionId, body).1.agents)
  {
    if sessionId != "" && sessionId in t.sessions {
      var f := FieldsOf(body);
      var merged := Merge(t.sessions[sessionId], f);
      if InsertsAgent(t, f, merged) {
        InsertKeepsUnique(t.agents, Agent(f.agentId, merged.userId));
      }
    }
  }

  /** Delivering the same payload twice leaves the tables as one delivery
      does, with the same reply and no second agent row. */
  lemma CallbackIdempotent(t: Tables, sessionId: string, body: Json)
    ensures var (r1, t1) := CallbackStep(t, sessionId, body);
      CallbackStep(t1, sessionId, body) == (r1, t1)
  {
    if sessionId != "" && sessionId in t.sessions {
      var f := FieldsOf(body);
      var merged := Merge(t.sessions[sessionId], f);
      var t1 := CallbackStep(t, sessionId, body).1;
      assert Merge(merged, f) == merged;
      if InsertsAgent(t, f, merged) {
        assert t1.agents[|t.agents|].id == f.agentId;
        assert HasAgentId(t1.agents, f.agentId);
      }
      assert t1.sessions[sessionId] == merged;
      assert !InsertsAgent(t1, f, merged);
      assert t1.sessions[sessionId := merged] == t1.sessions;
    }
  }
}
