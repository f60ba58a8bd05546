/** Agents: the chat assistants a user configures (a name, an OpenRouter model
    and a free-form configuration), their table and the service that checks
    ownership before touching them. */
module Agents {
  import opened Wrappers
  import opened Tables
  import opened Json
  import ApiKeys

  datatype Agent = Agent(
    id: Id, userId: Id, name: string, model: string, configuration: Json,
    createdAt: Instant, updatedAt: Instant)

  function AgentId(a: Agent): Id { a.id }

  function OwnedBy(userId: Id): Agent -> bool {
    (a: Agent) => a.userId == userId
  }

  /** `order: [['createdAt', 'DESC']]`. */
  predicate NewerFirst(a: Agent, b: Agent) {
    a.createdAt >= b.createdAt
  }

  lemma NewerFirstOrders()
    ensures TotalPreorder(NewerFirst)
  {
  }

  const AgentNotFoundMessage := "Agent not found"
  const AgentAccessDeniedMessage := "Access denied." + " This agent belongs to another user."
  const ApiKeyNotConfiguredMessage :=
    "API key not configured." + " Please configure your" + " OpenRouter API key first."

  /** The fields an update may set; an absent field (`undefined`) is kept. */
  datatype AgentPatch = AgentPatch(name: Option<string>, model: Option<string>, configuration: Option<Json>)

  /** The agent after `agent.save()` with the patch's fields set: when no field
      actually changes the save writes nothing and `updatedAt` stays. */
  function Saved(a: Agent, p: AgentPatch, now: Instant): (r: Agent)
    ensures r.id == a.id && r.userId == a.userId && r.createdAt == a.createdAt
    ensures r.name == (if p.name.Some? then p.name.value else a.name)
    ensures r.model == (if p.model.Some? then p.model.value else a.model)
    ensures r.configuration == (if p.configuration.Some? then p.configuration.value else a.configuration)
    ensures r.updatedAt == (if r == a then a.updatedAt else now)
  {
    var b := a.(name := p.name.GetOr(a.name), model := p.model.GetOr(a.model),
                configuration := p.configuration.GetOr(a.configuration));
    if b == a then a else b.(updatedAt := now)
  }

  /** Saving the same patch twice changes nothing the second time, and an empty
      patch changes nothing at all. */
  lemma SaveIdempotent(a: Agent, p: AgentPatch, now: Instant, later: Instant)
    ensures Saved(Saved(a, p, now), p, later) == Saved(a, p, now)
    ensures Saved(a, AgentPatch(None, None, None), now) == a
  {
  }

  /** The `agents` table. */
  class AgentRepository {
    var rows: seq<Agent>
    var nextId: Id

    ghost predicate Valid()
      reads this
    {
      UniqueKeys(rows, AgentId) && KeysBelow(rows, AgentId, nextId)
    }

    constructor ()
      ensures Valid() && rows == [] && nextId == 0
    {
      rows := [];
      nextId := 0;
    }

    /** `create`: a new agent stamped `now`, with `configuration || {}`. */
    method Create(userId: Id, name: string, model: string, configuration: Option<Json>, now: Instant)
      returns (agent: Agent)
      requires Valid()
      modifies this
      ensures Valid()
      ensures agent == Agent(old(nextId), userId, name, model, OrEmptyObject(configuration), now, now)
      ensures rows == old(rows) + [agent] && nextId == old(nextId) + 1
    {
      agent := Agent(nextId, userId, name, model, OrEmptyObject(configuration), now, now);
      AppendKeepsKeys(rows, AgentId, agent, nextId);
      rows := rows + [agent];
      nextId := nextId + 1;
    }

    /** `findByUser`: exactly the user's agents, newest first. */
    function FindByUser(userId: Id): (r: seq<Agent>)
      reads this
      ensures forall a | a in r :: a in rows && a.userId == userId
      ensures forall a | a in rows && a.userId == userId :: a in r
      ensures multiset(r) == multiset(Filter(rows, OwnedBy(userId)))
      ensures SortedBy(r, NewerFirst)
    {
      var mine := Filter(rows, OwnedBy(userId));
      NewerFirstOrders();
      SortSorted(mine, NewerFirst);
      var r := Sort(mine, NewerFirst);
      assert forall a | a in r :: a in multiset(mine);
      assert forall a | a in mine :: OwnedBy(userId)(a) && a.userId == userId;
      assert forall a | a in mine :: a in multiset(r);
      r
    }

    /** `findById`. */
    function FindById(id: Id): (r: Option<Agent>)
      reads this
      ensures r.Some? ==> r.value in rows && r.value.id == id
      ensures r.None? <==> forall i | 0 <= i < |rows| :: rows[i].id != id
    {
      Find(rows, AgentId, id)
    }

    /** `update`: saves the patched agent in place, or fails when there is none. */
    method Update(id: Id, p: AgentPatch, now: Instant) returns (r: Result<Agent>)
      requires Valid()
      modifies this
      ensures Valid() && nextId == old(nextId)
      ensures old(FindById(id)).None? ==> r == Err(AgentNotFoundMessage) && rows == old(rows)
      ensures old(FindById(id)).Some? ==>
        && r == Ok(Saved(old(FindById(id)).value, p, now))
        && rows == Replace(old(rows), AgentId, id, r.value)
        && FindById(id) == Some(r.value)
    {
      var found := FindById(id);
      if found.None? {
        return Err(AgentNotFoundMessage);
      }
      var agent := Saved(found.value, p, now);
      ReplaceKeepsKeys(rows, AgentId, id, agent, nextId);
      var k :| 0 <= k < |rows| && rows[k] == found.value;
      rows := Replace(rows, AgentId, id, agent);
      FindMember(rows, AgentId, rows[k]);
      r := Ok(agent);
    }

    /** `delete`: removes the agent if there is one. */
    method Delete(id: Id)
      requires Valid()
      modifies this
      ensures Valid() && nextId == old(nextId)
      ensures rows == Filter(old(rows), KeyNot(AgentId, id))
      ensures FindById(id).None?
    {
      FilterKeepsKeys(rows, KeyNot(AgentId, id), AgentId, nextId);
      rows := Filter(rows, KeyNot(AgentId, id));
    }
  }

  /** The agent service: agents are created only for users with an API key, and
      read, changed or deleted only by their owner. */
  class AgentService {
    const agents: AgentRepository
    const apiKeys: ApiKeys.ApiKeyRepository

    ghost predicate Valid()
      reads this, agents, apiKeys
    {
      agents.Valid() && apiKeys.Valid()
    }

    constructor (agents: AgentRepository, apiKeys: ApiKeys.ApiKeyRepository)
      requires agents.Valid() && apiKeys.Valid()
      ensures Valid() && this.agents == agents && this.apiKeys == apiKeys
    {
      this.agents := agents;
      this.apiKeys := apiKeys;
    }

    /** `findById`: the agent if it exists and is the user's; another user's
        agent is an access error, never a result. */
    function FindById(agentId: Id, userId: Id): (r: Result<Option<Agent>>)
      reads agents
      ensures r == Ok(None) <==> agents.FindById(agentId).None?
      ensures r.Err? <==> agents.FindById(agentId).Some? && agents.FindById(agentId).value.userId != userId
      ensures r.Err? ==> r.message == AgentAccessDeniedMessage
      ensures r.Ok? && r.value.Some? ==>
        r.value.value in agents.rows && r.value.value.id == agentId && r.value.value.userId == userId
    {
      match agents.FindById(agentId)
      case None => Ok(None)
      case Some(a) => if a.userId != userId then Err(AgentAccessDeniedMessage) else Ok(Some(a))
    }

    /** `findByUser`. */
    function FindByUser(userId: Id): (r: seq<Agent>)
      reads agents
      ensures forall a :: a in r <==> a in agents.rows && a.userId == userId
      ensures multiset(r) == multiset(Filter(agents.rows, OwnedBy(userId)))
      ensures SortedBy(r, NewerFirst)
    {
      agents.FindByUser(userId)
    }

    /** `create`: refuses a user without an API key; otherwise inserts the agent,
        which its owner can then read back. */
    method Create(userId: Id, name: string, model: string, configuration: Option<Json>, now: Instant)
      returns (r: Result<Agent>)
      requires Valid()
      modifies agents
      ensures Valid()
      ensures apiKeys.FindByUser(userId).None? ==>
        && r == Err(ApiKeyNotConfiguredMessage)
        && agents.rows == old(agents.rows) && agents.nextId == old(agents.nextId)
      ensures apiKeys.FindByUser(userId).Some? ==>
        && r == Ok(Agent(old(agents.nextId), userId, name, model, OrEmptyObject(configuration), now, now))
        && agents.rows == old(agents.rows) + [r.value] && agents.nextId == old(agents.nextId) + 1
        && FindById(r.value.id, userId) == Ok(Some(r.value))
    {
      if apiKeys.FindByUser(userId).None? {
        return Err(ApiKeyNotConfiguredMessage);
      }
      var agent := agents.Create(userId, name, model, configuration, now);
      FindMember(agents.rows, AgentId, agent);
      r := Ok(agent);
    }

    /** `update`: ownership first, then existence, then the repository update. */
    method Update(agentId: Id, userId: Id, p: AgentPatch, now: Instant) returns (r: Result<Agent>)
      requires Valid()
      modifies agents
      ensures Valid() && agents.nextId == old(agents.nextId)
      ensures old(FindById(agentId, userId)).Err? ==>
        r == Err(AgentAccessDeniedMessage) && agents.rows == old(agents.rows)
      ensures old(FindById(agentId, userId)) == Ok(None) ==>
        r == Err(AgentNotFoundMessage) && agents.rows == old(agents.rows)
      ensures old(FindById(agentId, userId)).Ok? && old(FindById(agentId, userId)).value.Some? ==>
        && r == Ok(Saved(old(agents.FindById(agentId)).value, p, now))
        && agents.rows == Replace(old(agents.rows), AgentId, agentId, r.value)
        && FindById(agentId, userId) == Ok(Some(r.value))
    {
      var found := FindById(agentId, userId);
      if found.Err? {
        return Err(found.message);
      }
      if found.value.None? {
        return Err(AgentNotFoundMessage);
      }
      r := agents.Update(agentId, p, now);
    }

    /** `delete`: ownership first, then existence, then removal. */
    method Delete(agentId: Id, userId: Id) returns (r: Result<()>)
      requires Valid()
      modifies agents
      ensures Valid() && agents.nextId == old(agents.nextId)
      ensures old(FindById(agentId, userId)).Err? ==>
        r == Err(AgentAccessDeniedMessage) && agents.rows == old(agents.rows)
      ensures old(FindById(agentId, userId)) == Ok(None) ==>
        r == Err(AgentNotFoundMessage) && agents.rows == old(agents.rows)
      ensures old(FindById(agentId, userId)).Ok? && old(FindById(agentId, userId)).value.Some? ==>
        && r == Ok(())
        && agents.rows == Filter(old(agents.rows), KeyNot(AgentId, agentId))
        && FindById(agentId, userId) == Ok(None)
    {
      var found := FindById(agentId, userId);
      if found.Err? {
        return Err(found.message);
      }
      if found.value.None? {
        return Err(AgentNotFoundMessage);
      }
      agents.Delete(agentId);
      r := Ok(());
    }
  }
}
