/** The interview routes `POST /init` and `POST /prompt`: the config the
    client sends is enriched with the user's agent, the company profile, the
    role rubric and the user id, sent to the prompt workflow, and an agent row
    is recorded from the workflow's reply. */
module InterviewRoutes {
  import opened Js
  import opened Store
  import opened Http

  /** `POST /init`: a falsy body is refused; any other body is echoed. */
  function Init(body: Json): (r: Reply)
    ensures r.status == 400 <==> !Truthy(body)
    ensures r.status == 200 <==> Truthy(body)
    ensures r.status == 200 ==> r.body.Obj? && Get(r.body, "config") == body && Get(r.body, "message") == Str("Configuration received")
  {
    if !Truthy(body) then Error(400, "No configuration provided")
    else
      var r := Reply(200, Obj([("message", Str("Configuration received")), ("config", body)]));
      LookupFirst(r.body.entries, "config", 1);
      r
  }

  /** What `express.json()` leaves in `req.body`: an object, an array, or
      nothing. */
  predicate ParsedBody(body: Json) {
    !Truthy(body) || body.Obj? || body.Arr?
  }

  /** `companyProfiles[config.target.company_preset]` when both are present
      and the profile is truthy. */
  function ProfileOf(config: Json, profiles: map<string, Json>): Option<Json>
    requires !Nullish(config)
  {
    var target := Get(config, "target");
    if Truthy(target) && Truthy(Get(target, "company_preset")) then
      match ToText(Get(target, "company_preset"))
      case Some(k) => if k in profiles && Truthy(profiles[k]) then Some(profiles[k]) else None
      case None => None
    else None
  }

  /** The rubric key, when the mode and the seniority are both present:
      `behavioral_<seniority>`, `behavioral_dsa_<seniority>`, or `''`. */
  function RubricKey(config: Json): Option<string>
    requires !Nullish(config)
  {
    var session, target := Get(config, "session"), Get(config, "target");
    if Truthy(session) && Truthy(Get(session, "interview_mode")) && Truthy(target) && Truthy(Get(target, "seniority")) then
      var mode := Get(session, "interview_mode");
      match ToText(Get(target, "seniority"))
      case None => None
      case Some(seniority) =>
        Some(if mode == Str("behavioral") then "behavioral_" + seniority
             else if mode == Str("behavioral_plus_dsa") then "behavioral_dsa_" + seniority
             else "")
    else None
  }

  function RubricOf(config: Json, rubrics: map<string, Json>): Option<Json>
    requires !Nullish(config)
  {
    match RubricKey(config)
    case Some(k) => if k in rubrics && Truthy(rubrics[k]) then Some(rubrics[k]) else None
    case None => None
  }

  /** The prompt workflow's answer: not OK, no usable answer (the request or
      its JSON failed), or a parsed body. */
  datatype Webhook = NotOk(status: nat) | Unreachable | Replied(data: Json)

  /** The reply, the agent table afterwards, and the config sent to the
      workflow if the call was made. */
  datatype Outcome = Outcome(reply: Reply, agents: seq<Agent>, sent: Option<Json>)

  /** The profile step: `config.company_profile = profile` when one is found. */
  function WithProfile(config: Json, profiles: map<string, Json>): Json
    requires !Nullish(config)
  {
    var p := ProfileOf(config, profiles);
    if p.Some? then SetProp(config, "company_profile", p.value) else config
  }

  /** The rubric step: `config.role_rubric = rubric` when one is found. */
  function WithRubric(config: Json, rubrics: map<string, Json>): Json
    requires !Nullish(config)
  {
    var r := RubricOf(config, rubrics);
    if r.Some? then SetProp(config, "role_rubric", r.value) else config
  }

  /** `config` as it leaves for the workflow, once the agent id is known. */
  function Enriched(body: Json, linked: Json, userId: Json, profiles: map<string, Json>, rubrics: map<string, Json>): Json
    requires Truthy(body)
  {
    var c1 := SetProp(body, "agent_id", linked);
    SetProp(WithRubric(WithProfile(c1, profiles), rubrics), "userId", userId)
  }

  /** The agent id the config carries after the lookup: the id of the user's
      first agent, or null. */
  function AssignedAgent(agents: seq<Agent>, userId: Json): Json {
    var owned := FindFirstOwned(agents, userId);
    if owned.Some? then owned.value.id else Null
  }

  /** The whole `/prompt` handler as one step. `lookupFails` stands for a
      database error in `findFirst`; an agent insert fails on a duplicate id. */
  function PromptStep(agents: seq<Agent>, userId: Json, body: Json, lookupFails: bool,
                      profiles: map<string, Json>, rubrics: map<string, Json>, webhook: Webhook): Outcome
    requires ParsedBody(body)
  {
    if !Truthy(body) then Outcome(Error(400, "No configuration provided"), agents, None)
    else if lookupFails then Outcome(Error(500, "Failed to check agent session"), agents, None)
    else
      var linked := AssignedAgent(agents, userId);
      AfterWebhook(agents, userId, linked, Enriched(body, linked, userId, profiles, rubrics), webhook)
  }

  /** Lines 116-144: the workflow's answer and the agent row it may bring. */
  function AfterWebhook(agents: seq<Agent>, userId: Json, linked: Json, sent: Json, webhook: Webhook): Outcome {
    match webhook
    case NotOk(_) => Outcome(Error(500, "Failed to fetch prompts"), agents, Some(sent))
    case Unreachable => Outcome(Error(500, "Failed to fetch prompts"), agents, Some(sent))
    case Replied(data) =>
      if Truthy(linked) then Outcome(Reply(200, data), agents, Some(sent))
      else if Nullish(data) then Outcome(Error(500, "Failed to fetch prompts"), agents, Some(sent))
      else if !Truthy(Get(data, "agent_id")) then Outcome(Reply(200, data), agents, Some(sent))
      else if HasAgentId(agents, Get(data, "agent_id")) then
        Outcome(Error(500, "Failed to create agent session"), agents, Some(sent))
      else Outcome(Reply(200, data), agents + [Agent(Get(data, "agent_id"), userId)], Some(sent))
  }

  /** Lines 74-80: attach the company profile when one is found. */
  method AttachProfile(config: Json, profiles: map<string, Json>) returns (updated: Json)
    requires !Nullish(config)
    ensures updated == WithProfile(config, profiles)
  {
    updated := config;
    var profile := ProfileOf(updated, profiles);
    if profile.Some? {
      updated := SetProp(updated, "company_profile", profile.value);
    }
  }

  /** Lines 83-98: attach the role rubric when its key is found. */
  method AttachRubric(config: Json, rubrics: map<string, Json>) returns (updated: Json)
    requires !Nullish(config)
    ensures updated == WithRubric(config, rubrics)
  {
    updated := config;
    var rubric := RubricOf(updated, rubrics);
    if rubric.Some? {
      updated := SetProp(updated, "role_rubric", rubric.value);
    }
  }

  /** Lines 63-102: the config mutated field by field. */
  method Enrich(body: Json, linked: Json, userId: Json, profiles: map<string, Json>, rubrics: map<string, Json>)
    returns (config: Json)
    requires Truthy(body)
    ensures config == Enriched(body, linked, userId, profiles, rubrics)
  {
    config := SetProp(body, "agent_id", linked);
    config := AttachProfile(config, profiles);
    config := AttachRubric(config, rubrics);
    config := SetProp(config, "userId", userId);
  }

  /** Lines 116-144 as statements: check the answer, then record the agent. */
  method RecordAgent(db: Db, userId: Json, linked: Json, sent: Json, webhook: Webhook) returns (reply: Reply)
    requires db.Valid()
    modifies db
    ensures db.Valid() && db.sessions == old(db.sessions)
    ensures reply == AfterWebhook(old(db.agents), userId, linked, sent, webhook).reply
    ensures db.agents == AfterWebhook(old(db.agents), userId, linked, sent, webhook).agents
  {
    if !webhook.Replied? {
      return Error(500, "Failed to fetch prompts");
    }
    var data := webhook.data;
    if !Truthy(linked) {
      if Nullish(data) {
        return Error(500, "Failed to fetch prompts");
      }
      if Truthy(Get(data, "agent_id")) {
        var created := db.CreateAgent(Agent(Get(data, "agent_id"), userId));
        if !created {
          return Error(500, "Failed to create agent session");
        }
      }
    }
    reply := Reply(200, data);
  }

  /** The route handler. */
  method HandlePrompt(db: Db, userId: Json, body: Json, lookupFails: bool,
                      profiles: map<string, Json>, rubrics: map<string, Json>, webhook: Webhook)
    returns (reply: Reply, sent: Option<Json>)
    requires ParsedBody(body) && db.Valid()
    modifies db
    ensures db.Valid() && db.sessions == old(db.sessions)
    ensures reply == PromptStep(old(db.agents), userId, body, lookupFails, profiles, rubrics, webhook).reply
    ensures db.agents == PromptStep(old(db.agents), userId, body, lookupFails, profiles, rubrics, webhook).agents
    ensures sent == PromptStep(old(db.agents), userId, body, lookupFails, profiles, rubrics, webhook).sent
  {
    if !Truthy(body) {
      return Error(400, "No configuration provided"), None;
    }
    if lookupFails {
      return Error(500, "Failed to check agent session"), None;
    }
    var config;
    reply, config := Forward(db, userId, body, profiles, rubrics, webhook);
    sent := Some(config);
  }

  /** Lines 55-144 once the lookup succeeded: link the agent, enrich the
      config, call the workflow and record the agent it names. */
  method Forward(db: Db, userId: Json, body: Json, profiles: map<string, Json>, rubrics: map<string, Json>, webhook: Webhook)
    returns (reply: Reply, config: Json)
    requires Truthy(body) && db.Valid()
    modifies db
    ensures db.Valid() && db.sessions == old(db.sessions)
    ensures var linked := AssignedAgent(old(db.agents), userId);
      var o := AfterWebhook(old(db.agents), userId, linked, Enriched(body, linked, userId, profiles, rubrics), webhook);
      reply == o.reply && db.agents == o.agents && o.sent == Some(config)
  {
    var agent := FindFirstOwned(db.agents, userId);
    var linked: Json;
    if agent.Some? {
      linked := agent.value.id;
    } else {
      linked := Null;
    }
    config := Enrich(body, linked, userId, profiles, rubrics);
    reply := RecordAgent(db, userId, linked, config, webhook);
  }

  /** A failed agent lookup answers 500 before the workflow is called. */
  lemma LookupFailureStops(agents: seq<Agent>, userId: Json, body: Json,
                           profiles: map<string, Json>, rubrics: map<string, Json>, webhook: Webhook)
    requires ParsedBody(body) && Truthy(body)
    ensures PromptStep(agents, userId, body, true, profiles, rubrics, webhook) ==
      Outcome(Error(500, "Failed to check agent session"), agents, None)
  {
  }

  /** For an object config, what is sent carries the id of the user's first
      agent (or null) and the user id; a company profile and a rubric replace
      the client's value exactly when one is found, and every other field is
      the client's. */
  lemma SentConfig(agents: seq<Agent>, userId: Json, body: Json,
                   profiles: map<string, Json>, rubrics: map<string, Json>, key: string)
    requires body.Obj?
    ensures var linked := AssignedAgent(agents, userId);
      var sent := Enriched(body, linked, userId, profiles, rubrics);
      var c1 := SetProp(body, "agent_id", linked);
      var c2 := WithProfile(c1, profiles);
      && Get(sent, "userId") == userId
      && Get(sent, "agent_id") == linked
      && (ProfileOf(c1, profiles).Some? ==> Get(sent, "company_profile") == ProfileOf(c1, profiles).value)
      && (ProfileOf(c1, profiles).None? ==> Get(sent, "company_profile") == Get(body, "company_profile"))
      && (RubricOf(c2, rubrics).Some? ==> Get(sent, "role_rubric") == RubricOf(c2, rubrics).value)
      && (RubricOf(c2, rubrics).None? ==> Get(sent, "role_rubric") == Get(body, "role_rubric"))
      && (key !in {"agent_id", "company_profile", "role_rubric", "userId"} ==> Get(sent, key) == Get(body, key))
  {
    var linked := AssignedAgent(agents, userId);
    var c1 := SetProp(body, "agent_id", linked);
    var c2 := WithProfile(c1, profiles);
    var c3 := WithRubric(c2, rubrics);
    GetSetSame(c3, "userId", userId);
    SentAgentId(body, linked, userId, profiles, rubrics);
    SentProfile(body, linked, userId, profiles, rubrics);
    SentRubric(body, linked, userId, profiles, rubrics);
    if key !in {"agent_id", "company_profile", "role_rubric", "userId"} {
      GetSet(body, "agent_id", linked, key);
      GetWithProfile(c1, profiles, key);
      GetWithRubric(c2, rubrics, key);
      GetSetOther(c3, "userId", userId, key);
    }
  }

  /** The profile step changes `company_profile` alone. */
  lemma GetWithProfile(config: Json, profiles: map<string, Json>, k: string)
    requires config.Obj?
    ensures WithProfile(config, profiles).Obj?
    ensures Get(WithProfile(config, profiles), k) ==
      if k == "company_profile" && ProfileOf(config, profiles).Some? then ProfileOf(config, profiles).value
      else Get(config, k)
  {
    var p := ProfileOf(config, profiles);
    if p.Some? { GetSet(config, "company_profile", p.value, k); }
  }

  /** The rubric step changes `role_rubric` alone. */
  lemma GetWithRubric(config: Json, rubrics: map<string, Json>, k: string)
    requires config.Obj?
    ensures WithRubric(config, rubrics).Obj?
    ensures Get(WithRubric(config, rubrics), k) ==
      if k == "role_rubric" && RubricOf(config, rubrics).Some? then RubricOf(config, rubrics).value
      else Get(config, k)
  {
    var r := RubricOf(config, rubrics);
    if r.Some? { GetSet(config, "role_rubric", r.value, k); }
  }

  lemma SentAgentId(body: Json, linked: Json, userId: Json, profiles: map<string, Json>, rubrics: map<string, Json>)
    requires body.Obj?
    ensures Get(Enriched(body, linked, userId, profiles, rubrics), "agent_id") == linked
  {
    var c1 := SetProp(body, "agent_id", linked);
    var c2 := WithProfile(c1, profiles);
    GetSetSame(body, "agent_id", linked);
    GetWithProfile(c1, profiles, "agent_id");
    GetWithRubric(c2, rubrics, "agent_id");
    GetSetOther(WithRubric(c2, rubrics), "userId", userId, "agent_id");
  }

  lemma SentProfile(body: Json, linked: Json, userId: Json, profiles: map<string, Json>, rubrics: map<string, Json>)
    requires body.Obj?
    ensures var c1 := SetProp(body, "agent_id", linked);
      var sent := Enriched(body, linked, userId, profiles, rubrics);
      && (ProfileOf(c1, profiles).Some? ==> Get(sent, "company_profile") == ProfileOf(c1, profiles).value)
      && (ProfileOf(c1, profiles).None? ==> Get(sent, "company_profile") == Get(body, "company_profile"))
  {
    var c1 := SetProp(body, "agent_id", linked);
    var c2 := WithProfile(c1, profiles);
    GetSetOther(body, "agent_id", linked, "company_profile");
    GetWithProfile(c1, profiles, "company_profile");
    GetWithRubric(c2, rubrics, "company_profile");
    GetSetOther(WithRubric(c2, rubrics), "userId", userId, "company_profile");
  }

  lemma SentRubric(body: Json, linked: Json, userId: Json, profiles: map<string, Json>, rubrics: map<string, Json>)
    requires body.Obj?
    ensures var c1 := SetProp(body, "agent_id", linked);
      var c2 := WithProfile(c1, profiles);
      var sent := Enriched(body, linked, userId, profiles, rubrics);
      && (RubricOf(c2, rubrics).Some? ==> Get(sent, "role_rubric") == RubricOf(c2, rubrics).value)
      && (RubricOf(c2, rubrics).None? ==> Get(sent, "role_rubric") == Get(body, "role_rubric"))
  {
    var c1 := SetProp(body, "agent_id", linked);
    var c2 := WithProfile(c1, profiles);
    GetSetOther(body, "agent_id", linked, "role_rubric");
    GetWithProfile(c1, profiles, "role_rubric");
    GetWithRubric(c2, rubrics, "role_rubric");
    GetSetOther(WithRubric(c2, rubrics), "userId", userId, "role_rubric");
  }

  /** The rubric key follows the interview mode: `behavioral_<seniority>` for
      behavioural, `behavioral_dsa_<seniority>` for behavioural plus DSA, and
      `''` for any other mode; none is formed without both fields. */
  lemma RubricKeyChoice(config: Json, mode: Json, seniority: string)
    requires !Nullish(config)
    requires Truthy(Get(config, "session")) && Truthy(Get(config, "target"))
    requires Get(Get(config, "session"), "interview_mode") == mode && Truthy(mode)
    requires Get(Get(config, "target"), "seniority") == Str(seniority) && seniority != ""
    ensures mode == Str("behavioral") ==> RubricKey(config) == Some("behavioral_" + seniority)
    ensures mode == Str("behavioral_plus_dsa") ==> RubricKey(config) == Some("behavioral_dsa_" + seniority)
    ensures mode != Str("behavioral") && mode != Str("behavioral_plus_dsa") ==> RubricKey(config) == Some("")
  {
  }

  /** A rubric is attached only when its key is in the table with a truthy
      value; a profile only when the preset names a truthy table entry. */
  lemma EnrichmentFound(config: Json, profiles: map<string, Json>, rubrics: map<string, Json>)
    requires !Nullish(config)
    ensures RubricOf(config, rubrics).Some? <==>
      RubricKey(config).Some? && RubricKey(config).value in rubrics && Truthy(rubrics[RubricKey(config).value])
    ensures ProfileOf(config, profiles).Some? <==>
      && Truthy(Get(config, "target"))
      && Truthy(Get(Get(config, "target"), "company_preset"))
      && var k := ToText(Get(Get(config, "target"), "company_preset"));
      && k.Some? && k.value in profiles && Truthy(profiles[k.value])
  {
  }

  /** A workflow that does not answer OK gives 500 and records no agent. */
  lemma WebhookFailureNoAgent(agents: seq<Agent>, userId: Json, body: Json,
                              profiles: map<string, Json>, rubrics: map<string, Json>, webhook: Webhook)
    requires ParsedBody(body) && Truthy(body) && !webhook.Replied?
    ensures var o := PromptStep(agents, userId, body, false, profiles, rubrics, webhook);
      o.reply == Error(500, "Failed to fetch prompts") && o.agents == agents && o.sent.Some?
  {
  }

  /** An agent is recorded exactly when the user had none, the workflow
      answered with a truthy `agent_id`, and no row has that id yet; it is
      owned by the user. A user who already has an agent never gets a second
      one, and a successful reply is the workflow's body unchanged. */
  lemma AgentCreatedIff(agents: seq<Agent>, userId: Json, body: Json, lookupFails: bool,
                        profiles: map<string, Json>, rubrics: map<string, Json>, webhook: Webhook)
    requires ParsedBody(body)
    requires forall i :: 0 <= i < |agents| ==> Truthy(agents[i].id)
    ensures var o := PromptStep(agents, userId, body, lookupFails, profiles, rubrics, webhook);
      && (o.agents != agents <==>
            && Truthy(body) && !lookupFails
            && FindFirstOwned(agents, userId).None?
            && webhook.Replied? && !Nullish(webhook.data)
            && Truthy(Get(webhook.data, "agent_id"))
            && !HasAgentId(agents, Get(webhook.data, "agent_id")))
      && (o.agents != agents ==> o.agents == agents + [Agent(Get(webhook.data, "agent_id"), userId)])
      && (FindFirstOwned(agents, userId).Some? ==> o.agents == agents)
      && (o.reply.status == 200 ==> webhook.Replied? && o.reply.body == webhook.data)
  {
    var o := PromptStep(agents, userId, body, lookupFails, profiles, rubrics, webhook);
    if o.agents != agents {
      assert |o.agents| == |agents| + 1;
    }
    var owned := FindFirstOwned(agents, userId);
    if owned.Some? {
      var i :| FirstOwnedAt(agents, userId, i) && agents[i] == owned.value;
      assert Truthy(AssignedAgent(agents, userId));
    }
  }

  /** A request without a user id filters nothing, so a non-empty table
      lends its first agent to the config whoever owns it, and no row is
      added. */
  lemma UnidentifiedUserReusesFirstAgent(agents: seq<Agent>, body: Json, lookupFails: bool,
                                         profiles: map<string, Json>, rubrics: map<string, Json>, webhook: Webhook)
    requires ParsedBody(body) && |agents| > 0 && Truthy(agents[0].id)
    ensures AssignedAgent(agents, Undefined) == agents[0].id
    ensures PromptStep(agents, Undefined, body, lookupFails, profiles, rubrics, webhook).agents == agents
  {
    UnfilteredLookup(agents);
  }

  /** One owner's agent, a request without a user id, and a workflow that
      proposes a new agent: the config is sent with the existing agent's id,
      the workflow's body is the answer, and the table is unchanged. */
  lemma UnidentifiedUserExample()
    ensures var agents := [Agent(Str("a1"), Str("u1"))];
      var webhook := Replied(Obj([("agent_id", Str("a2"))]));
      var o := PromptStep(agents, Undefined, Obj([]), false, map[], map[], webhook);
      && o.agents == agents
      && o.reply == Reply(200, webhook.data)
      && o.sent.Some? && Get(o.sent.value, "agent_id") == Str("a1")
  {
    var agents := [Agent(Str("a1"), Str("u1"))];
    UnidentifiedUserReusesFirstAgent(agents, Obj([]), false, map[], map[], Replied(Obj([("agent_id", Str("a2"))])));
    SentConfig(agents, Undefined, Obj([]), map[], map[], "agent_id");
  }

  /** `/prompt` never breaks the agent table's primary key. */
  lemma PromptKeepsUnique(agents: seq<Agent>, userId: Json, body: Json, lookupFails: bool,
                          profiles: map<string, Json>, rubrics: map<string, Json>, webhook: Webhook)
    requires ParsedBody(body) && UniqueIds(agents)
    ensures UniqueIds(PromptStep(agents, userId, body, lookupFails, profiles, rubrics, webhook).agents)
  {
    var o := PromptStep(agents, userId, body, lookupFails, profiles, rubrics, webhook);
    if o.agents != agents {
      InsertKeepsUnique(agents, Agent(Get(webhook.data, "agent_id"), userId));
    }
  }
}
