/**
 * The admin endpoints over the agent and permission tables (`routers/admin.py`).
 *
 * Request bodies are JSON objects read with `dict.get`; a body field is `None` here when its key
 * is absent. Rows are inserted without running the record validators, so a status or name is
 * stored as given; an insert fails (answered 400) when a required column would be NULL or the
 * primary key is taken.
 */
module AdminRouter {
  import opened Common
  import opened Models
  import opened Database

  /** The agent fields the endpoints return. */
  datatype AgentView = AgentView(id: string, name: string, owner: string, status: string)

  function ViewOf(a: Agent): AgentView {
    AgentView(a.id, a.name, a.owner, a.status)
  }

  datatype AgentReply = AgentReply(agent: AgentView, message: string)

  // ---------------------------------------------------------------------------------------
  // Agents.
  // ---------------------------------------------------------------------------------------

  /** The body of `create_agent`. */
  datatype NewAgentBody = NewAgentBody(id: Option<string>, name: Option<string>, owner: Option<string>, status: Option<string>)

  /**
   * `create_agent`: the id, name and owner are taken from the body as given and the status
   * defaults to "active". The id is passed to the row explicitly, so a body without one yields a
   * NULL primary key and the insert fails, as it does for a missing name or owner or an id in use.
   */
  method CreateAgent(db: Tables, body: NewAgentBody, now: int) returns (r: Result<AgentReply, HttpError>)
    requires db.Valid()
    modifies db`agents
    ensures db.Valid()
    ensures
      if body.id.None? || body.name.None? || body.owner.None? || body.id.value in old(db.agents) then
        r == Failure(BadRequest) && db.agents == old(db.agents)
      else
        var a := NewAgent(body.id.value, body.name.value, body.owner.value, body.status, now);
        && db.agents == old(db.agents)[a.id := a]
        && r == Success(AgentReply(ViewOf(a), "Agent " + a.id + " created successfully"))
    ensures r.Success? ==> r.value.agent.status == body.status.GetOr(ACTIVE)
  {
    if body.id.None? || body.name.None? || body.owner.None? {
      return Failure(BadRequest);
    }
    if body.id.value in db.agents {
      return Failure(BadRequest);
    }
    var agent := NewAgent(body.id.value, body.name.value, body.owner.value, body.status, now);
    db.agents := db.agents[agent.id := agent];
    return Success(AgentReply(ViewOf(agent), "Agent " + agent.id + " created successfully"));
  }

  /** `get_agent`: the agent stored under the id, or 404. */
  function GetAgent(agents: map<string, Agent>, id: string): (r: Result<AgentView, HttpError>)
    ensures r.Failure? <==> id !in agents
    ensures r.Failure? ==> r.error == NotFound
    ensures r.Success? ==> r.value == ViewOf(agents[id])
  {
    if id !in agents then Failure(NotFound) else Success(ViewOf(agents[id]))
  }

  /** The body of `update_agent`: each field present is written; absent ones are left alone. */
  datatype AgentPatch = AgentPatch(name: Option<string>, status: Option<string>, owner: Option<string>)

  /** The agent after a partial update: only the fields the patch carries change. */
  function ApplyPatch(a: Agent, patch: AgentPatch): (b: Agent)
    ensures b.id == a.id && b.createdAt == a.createdAt
    ensures b.name == patch.name.GetOr(a.name)
    ensures b.status == patch.status.GetOr(a.status)
    ensures b.owner == patch.owner.GetOr(a.owner)
  {
    Agent(a.id, patch.name.GetOr(a.name), patch.owner.GetOr(a.owner), patch.status.GetOr(a.status), a.createdAt)
  }

  /** Applying the same patch twice changes nothing more than applying it once. */
  lemma ApplyPatchIdempotent(a: Agent, patch: AgentPatch)
    ensures ApplyPatch(ApplyPatch(a, patch), patch) == ApplyPatch(a, patch)
  {
  }

  /** An empty patch leaves the agent as it was. */
  lemma EmptyPatchIsIdentity(a: Agent)
    ensures ApplyPatch(a, AgentPatch(None, None, None)) == a
  {
  }

  /** `update_agent`: 404 for an unknown id; otherwise the fields present are assigned one by one. */
  method UpdateAgent(db: Tables, id: string, patch: AgentPatch) returns (r: Result<AgentReply, HttpError>)
    requires db.Valid()
    modifies db`agents
    ensures db.Valid()
    ensures id !in old(db.agents) ==> r == Failure(NotFound) && db.agents == old(db.agents)
    ensures id in old(db.agents) ==>
      && db.agents == old(db.agents)[id := ApplyPatch(old(db.agents)[id], patch)]
      && r == Success(AgentReply(ViewOf(db.agents[id]), "Agent " + id + " updated successfully"))
  {
    if id !in db.agents {
      return Failure(NotFound);
    }
    var agent := db.agents[id];
    if patch.name.Some? {
      agent := agent.(name := patch.name.value);
    }
    if patch.status.Some? {
      agent := agent.(status := patch.status.value);
    }
    if patch.owner.Some? {
      agent := agent.(owner := patch.owner.value);
    }
    db.agents := db.agents[id := agent];
    return Success(AgentReply(ViewOf(agent), "Agent " + id + " updated successfully"));
  }

  // ---------------------------------------------------------------------------------------
  // Permission filters.
  // ---------------------------------------------------------------------------------------

  /** The permissions of one agent, in storage order. */
  function PermissionsOf(perms: seq<Permission>, agentId: string): (r: seq<Permission>)
    ensures |r| <= |perms|
    ensures forall p :: p in r <==> p in perms && p.agentId == agentId
  {
    if perms == [] then []
    else
      var init := perms[..|perms| - 1];
      var last := perms[|perms| - 1];
      assert perms == init + [last];
      PermissionsOf(init, agentId) + if last.agentId == agentId then [last] else []
  }

  /** The permissions of every other agent, in storage order. */
  function PermissionsNotOf(perms: seq<Permission>, agentId: string): (r: seq<Permission>)
    ensures |r| <= |perms|
    ensures forall p :: p in r <==> p in perms && p.agentId != agentId
  {
    if perms == [] then []
    else
      var init := perms[..|perms| - 1];
      var last := perms[|perms| - 1];
      assert perms == init + [last];
      PermissionsNotOf(init, agentId) + if last.agentId != agentId then [last] else []
  }

  /** The two filters split the table: every row lands in exactly one of them, none is lost or duplicated. */
  lemma {:induction false} FiltersPartition(perms: seq<Permission>, agentId: string)
    ensures multiset(PermissionsOf(perms, agentId)) + multiset(PermissionsNotOf(perms, agentId)) == multiset(perms)
  {
    if perms != [] {
      var init := perms[..|perms| - 1];
      var last := perms[|perms| - 1];
      FiltersPartition(init, agentId);
      assert perms == init + [last];
      assert multiset(perms) == multiset(init) + multiset{last};
      if last.agentId == agentId {
        assert PermissionsOf(perms, agentId) == PermissionsOf(init, agentId) + [last];
        assert PermissionsNotOf(perms, agentId) == PermissionsNotOf(init, agentId);
      } else {
        assert PermissionsOf(perms, agentId) == PermissionsOf(init, agentId);
        assert PermissionsNotOf(perms, agentId) == PermissionsNotOf(init, agentId) + [last];
      }
    }
  }

  /** Keeping only some rows keeps their primary keys distinct. */
  lemma {:induction false} PermissionsNotOfUnique(perms: seq<Permission>, agentId: string)
    requires UniquePermissionIds(perms)
    ensures UniquePermissionIds(PermissionsNotOf(perms, agentId))
  {
    if perms != [] {
      var init := perms[..|perms| - 1];
      var last := perms[|perms| - 1];
      assert UniquePermissionIds(init);
      PermissionsNotOfUnique(init, agentId);
      var kept := PermissionsNotOf(init, agentId);
      forall j | 0 <= j < |kept|
        ensures kept[j].id != last.id
      {
        assert kept[j] in init;
        var k :| 0 <= k < |init| && init[k] == kept[j];
        assert perms[k] == kept[j];
      }
    }
  }

  /**
   * `delete_agent`: 404 for an unknown id; otherwise every permission of the agent is deleted,
   * then the agent. Other agents' permissions and the audit logs stay.
   */
  method DeleteAgent(db: Tables, id: string) returns (r: Result<string, HttpError>)
    requires db.Valid()
    modifies db`agents, db`permissions
    ensures db.Valid()
    ensures id !in old(db.agents) ==>
      r == Failure(NotFound) && db.agents == old(db.agents) && db.permissions == old(db.permissions)
    ensures id in old(db.agents) ==>
      && db.agents == old(db.agents) - {id}
      && db.permissions == PermissionsNotOf(old(db.permissions), id)
      && r == Success(DeletedMessage(id))
  {
    if id !in db.agents {
      return Failure(NotFound);
    }
    var kept := KeepPermissionsNotOf(db.permissions, id);
    PermissionsNotOfUnique(db.permissions, id);
    db.permissions := kept;
    db.agents := db.agents - {id};
    return Success(DeletedMessage(id));
  }

  function DeletedMessage(id: string): string {
    "Agent " + id + " and its permissions deleted successfully"
  }

  /** The filtering loop of `delete_agent`: the rows that do not belong to the agent, in order. */
  method KeepPermissionsNotOf(perms: seq<Permission>, id: string) returns (kept: seq<Permission>)
    ensures kept == PermissionsNotOf(perms, id)
  {
    kept := [];
    var i := 0;
    while i < |perms|
      invariant 0 <= i <= |perms|
      invariant kept == PermissionsNotOf(perms[..i], id)
    {
      assert perms[..i + 1][..i] == perms[..i];
      if perms[i].agentId != id {
        kept := kept + [perms[i]];
      }
      i := i + 1;
    }
    assert perms[..i] == perms;
  }

  /** After an agent is deleted, listing its permissions finds none, and every other agent keeps all of its own. */
  lemma DeletedAgentHasNoPermissions(perms: seq<Permission>, id: string, other: string)
    requires other != id
    ensures PermissionsOf(PermissionsNotOf(perms, id), id) == []
    ensures forall p :: p in PermissionsOf(perms, other) ==> p in PermissionsNotOf(perms, id)
  {
    var rest := PermissionsNotOf(perms, id);
    assert forall k :: 0 <= k < |rest| ==> rest[k] in rest;
    NoPermissionsOf(rest, id);
  }

  lemma {:induction false} NoPermissionsOf(perms: seq<Permission>, agentId: string)
    requires forall k :: 0 <= k < |perms| ==> perms[k].agentId != agentId
    ensures PermissionsOf(perms, agentId) == []
  {
    if perms != [] {
      NoPermissionsOf(perms[..|perms| - 1], agentId);
    }
  }

  // ---------------------------------------------------------------------------------------
  // Permissions.
  // ---------------------------------------------------------------------------------------

  /** The body of `create_permission`. */
  datatype NewPermissionBody = NewPermissionBody(agentId: Option<string>, action: Option<string>, resource: Option<string>, condition: Option<string>)

  /**
   * `create_permission`: a fresh id; agent, action and resource must be present (NOT NULL
   * columns), the condition is optional. The agent id is not checked against the agent table.
   */
  method CreatePermission(db: Tables, body: NewPermissionBody, newId: string) returns (r: Result<Permission, HttpError>)
    requires db.Valid() && PermissionIdUnused(db.permissions, newId)
    modifies db`permissions
    ensures db.Valid()
    ensures body.agentId.None? || body.action.None? || body.resource.None? ==>
      r == Failure(BadRequest) && db.permissions == old(db.permissions)
    ensures body.agentId.Some? && body.action.Some? && body.resource.Some? ==>
      var p := Permission(newId, body.agentId.value, body.action.value, body.resource.value, body.condition);
      r == Success(p) && db.permissions == old(db.permissions) + [p]
  {
    if body.agentId.None? || body.action.None? || body.resource.None? {
      return Failure(BadRequest);
    }
    var p := Permission(newId, body.agentId.value, body.action.value, body.resource.value, body.condition);
    db.permissions := db.permissions + [p];
    return Success(p);
  }

  /** `list_permissions`: filtered by agent when a non-empty agent id is given, otherwise all of them. */
  function ListPermissions(perms: seq<Permission>, agentId: Option<string>): (r: seq<Permission>)
    ensures !Truthy(agentId) ==> r == perms
    ensures Truthy(agentId) ==> forall p :: p in r <==> p in perms && p.agentId == agentId.value
  {
    if Truthy(agentId) then PermissionsOf(perms, agentId.value) else perms
  }

  /** `session.get(Permission, id)`: the position of the row with that primary key. */
  function FindPermission(perms: seq<Permission>, id: string): (r: Option<nat>)
    ensures r.Some? ==> r.value < |perms| && perms[r.value].id == id
    ensures r.None? <==> PermissionIdUnused(perms, id)
  {
    if perms == [] then None
    else if perms[0].id == id then Some(0)
    else match FindPermission(perms[1..], id)
      case None => None
      case Some(k) => Some(k + 1)
  }

  /** Removing the row at `i` removes exactly the permission with that id, when ids are distinct. */
  lemma RemoveExactlyOne(perms: seq<Permission>, i: nat)
    requires UniquePermissionIds(perms) && i < |perms|
    ensures UniquePermissionIds(perms[..i] + perms[i + 1..])
    ensures forall p :: p in perms[..i] + perms[i + 1..] <==> p in perms && p.id != perms[i].id
  {
    var rest := perms[..i] + perms[i + 1..];
    assert forall k :: 0 <= k < |rest| ==> rest[k] == perms[if k < i then k else k + 1];
    forall p | p in perms && p.id != perms[i].id
      ensures p in rest
    {
      var k :| 0 <= k < |perms| && perms[k] == p;
      assert k != i;
      assert rest[if k < i then k else k - 1] == p;
    }
  }

  /** `delete_permission`: 404 for an unknown id; otherwise that one row is removed. */
  method DeletePermission(db: Tables, id: string) returns (r: Result<string, HttpError>)
    requires db.Valid()
    modifies db`permissions
    ensures db.Valid()
    ensures PermissionIdUnused(old(db.permissions), id) ==>
      r == Failure(NotFound) && db.permissions == old(db.permissions)
    ensures !PermissionIdUnused(old(db.permissions), id) ==>
      && r == Success("Permission " + id + " deleted successfully")
      && |db.permissions| == |old(db.permissions)| - 1
      && forall p :: p in db.permissions <==> p in old(db.permissions) && p.id != id
  {
    var found := FindPermission(db.permissions, id);
    if found.None? {
      return Failure(NotFound);
    }
    var i := found.value;
    RemoveExactlyOne(db.permissions, i);
    db.permissions := db.permissions[..i] + db.permissions[i + 1..];
    return Success("Permission " + id + " deleted successfully");
  }
}
