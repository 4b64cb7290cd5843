/** The two tables the interview routes touch: sessions keyed by id, and
    agents whose `id` is the primary key. Column values are kept as the JSON
    values the routes hand to the database. */
module Store {
  import opened Js

  datatype Session = Session(
    userId: Json,
    agentId: Json,
    interviewPlan: Json,
    interviewPrompt: Json,
    feedbackPrompt: Json,
    feedback: Json,
    status: Json)

  /** A voice agent and the user who owns it. */
  datatype Agent = Agent(id: Json, userId: Json)

  predicate HasAgentId(agents: seq<Agent>, id: Json) {
    exists i :: 0 <= i < |agents| && agents[i].id == id
  }

  /** The primary-key constraint of the agent table. */
  predicate UniqueIds(agents: seq<Agent>) {
    forall i, j :: 0 <= i < j < |agents| ==> agents[i].id != agents[j].id
  }

  /** The `where: { userId }` filter. An undefined value leaves the filter
      out, so every row passes; any other value, null included, must equal
      the owner column. */
  predicate Matches(a: Agent, userId: Json) {
    userId.Undefined? || a.userId == userId
  }

  /** Row `i` is the earliest agent that passes the filter. */
  predicate FirstOwnedAt(agents: seq<Agent>, userId: Json, i: int) {
    0 <= i < |agents| && Matches(agents[i], userId) &&
    forall j :: 0 <= j < i ==> !Matches(agents[j], userId)
  }

  /** `agent.findFirst` filtered by the owner, the rows taken in insertion
      order: the earliest agent the filter lets through, or none. */
  function FindFirstOwned(agents: seq<Agent>, userId: Json): (r: Option<Agent>)
    ensures r.None? <==> forall i :: 0 <= i < |agents| ==> !Matches(agents[i], userId)
    ensures r.Some? ==> exists i :: FirstOwnedAt(agents, userId, i) && agents[i] == r.value
  {
    if |agents| == 0 then None
    else if Matches(agents[0], userId) then Some(agents[0])
    else
      var r := FindFirstOwned(agents[1..], userId);
      assert forall i :: 1 <= i < |agents| ==> agents[i] == agents[1..][i - 1];
      if r.Some? then
        var k :| FirstOwnedAt(agents[1..], userId, k) && agents[1..][k] == r.value;
        assert FirstOwnedAt(agents, userId, k + 1);
        r
      else r
  }

  /** Without a user id the lookup is unfiltered: it returns the first row
      of a non-empty table whoever owns it, and none only for an empty one. */
  lemma UnfilteredLookup(agents: seq<Agent>)
    ensures |agents| > 0 ==> FindFirstOwned(agents, Undefined) == Some(agents[0])
    ensures |agents| == 0 <==> FindFirstOwned(agents, Undefined).None?
  {
    if |agents| > 0 {
      assert Matches(agents[0], Undefined);
    }
  }

  /** Adding a row whose id is new keeps the ids unique. */
  lemma InsertKeepsUnique(agents: seq<Agent>, a: Agent)
    requires UniqueIds(agents) && !HasAgentId(agents, a.id)
    ensures UniqueIds(agents + [a])
    ensures HasAgentId(agents + [a], a.id)
  {
    assert (agents + [a])[|agents|] == a;
  }

  /** The database: the session table and the agent table. */
  class Db {
    var sessions: map<string, Session>
    var agents: seq<Agent>

    predicate Valid()
      reads this
    {
      UniqueIds(agents)
    }

    constructor(sessions: map<string, Session>, agents: seq<Agent>)
      requires UniqueIds(agents)
      ensures Valid()
      ensures this.sessions == sessions && this.agents == agents
    {
      this.sessions := sessions;
      this.agents := agents;
    }

    /** `agent.create({ data: a })`: fails on a duplicate id and leaves the
        table as it was; otherwise appends the row. */
    method CreateAgent(a: Agent) returns (created: bool)
      requires Valid()
      modifies this
      ensures Valid()
      ensures created <==> !HasAgentId(old(agents), a.id)
      ensures agents == if created then old(agents) + [a] else old(agents)
      ensures sessions == old(sessions)
    {
      if exists i :: 0 <= i < |agents| && agents[i].id == a.id {
        created := false;
      } else {
        InsertKeepsUnique(agents, a);
        agents := agents + [a];
        created := true;
      }
    }

    /** `session.update({ where: { id }, data })`, the data given as the
        change it makes to the row: fails when no session has that id. */
    method UpdateSession(id: string, update: Session -> Session) returns (found: bool)
      modifies this
      ensures found <==> id in old(sessions)
      ensures sessions == if found then old(sessions)[id := update(old(sessions)[id])] else old(sessions)
      ensures agents == old(agents)
    {
      found := id in sessions;
      if found {
        sessions := sessions[id := update(sessions[id])];
      }
    }
  }
}
