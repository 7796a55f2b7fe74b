/** The `users` table as the identity provider's webhooks maintain it: upsert by
    external id, and deletion of a user together with everything the user owns. */
module Users {
  import opened Wrappers
  import opened Records
  import opened Db
  import Identity
  import Agents

  /** `upsertFromClerk`: inserts the user when no record has its external id, and
      otherwise overwrites the one record that has it. */
  method UpsertFromClerk(s: Store, args: User) returns (r: Outcome)
    requires s.Valid()
    modifies s
    ensures s.Valid()
    ensures match Identity.UserByExternalId(old(s.users), args.externalId)
      case Err(e) => r == Fail(e) && s.Snapshot() == old(s.Snapshot())
      case Ok(None) =>
        var id := old(s.nextId);
        && r == Pass && id !in old(s.users)
        && s.Snapshot() == old(s.Snapshot()).(users := old(s.users)[id := args], nextId := id + 1)
      case Ok(Some(id)) => r == Pass && s.Snapshot() == old(s.Snapshot()).(users := old(s.users)[id := args])
    ensures r == Pass ==> Identity.UserByExternalId(s.users, args.externalId).Ok?
    ensures r == Pass ==> Identity.UserByExternalId(s.users, args.externalId).value.Some?
    ensures Identity.UniqueExternalIds(old(s.users)) ==> Identity.UniqueExternalIds(s.users)
  {
    var existing := Identity.UserByExternalId(s.users, args.externalId);
    if existing.Err? {
      return Fail(existing.msg);
    }
    ghost var before := s.users;
    if existing.value.None? {
      assert forall k :: k in before ==> k !in Identity.WithExternalId(before, args.externalId);
      var id := s.NewId();
      s.users := s.users[id := args];
      assert Identity.WithExternalId(s.users, args.externalId) == {id};
    } else {
      var id := existing.value.value;
      assert id in Identity.WithExternalId(before, args.externalId);
      s.users := s.users[id := args];
      assert Identity.WithExternalId(s.users, args.externalId) == Identity.WithExternalId(before, args.externalId);
    }
    r := Pass;
  }

  /** The agents, execution tasks and custom models of user `u`. */
  function AgentsOf(agents: map<AgentId, Agent>, u: UserId): set<AgentId> {
    set k | k in agents && agents[k].userId == u
  }

  function ExecutionTasksOf(tasks: map<ExecutionTaskId, ExecutionTask>, u: UserId): set<ExecutionTaskId> {
    set k | k in tasks && tasks[k].agent.userId == u
  }

  function CustomModelsOf(models: map<CustomModelId, CustomModel>, u: UserId): set<CustomModelId> {
    set k | k in models && models[k].userId == u
  }

  /** `deleteFromClerk` as written. An unknown external id deletes nothing. For a known
      user it hands the user's agent ids to `agents.removeByIds` under the field name
      `ids`, which that mutation does not declare (it declares `id`): the nested call is
      rejected, the error propagates, and the deletion is rolled back, so nothing of
      the user is ever deleted. */
  method DeleteFromClerk(s: Store, clerkUserId: string) returns (r: Outcome)
    requires s.Valid()
    modifies s
    ensures s.Valid()
    ensures s.Snapshot() == old(s.Snapshot())
    ensures match Identity.UserByExternalId(old(s.users), clerkUserId)
      case Err(e) => r == Fail(e)
      case Ok(None) => r == Pass
      case Ok(Some(_)) => r == Fail(Agents.ArgumentRejected)
  {
    var user := Identity.UserByExternalId(s.users, clerkUserId);
    if user.Err? {
      return Fail(user.msg);
    }
    if user.value.None? {
      return Pass;
    }
    var u := user.value.value;
    var agentIds := Collect(AgentsOf(s.agents, u));
    r := Agents.RemoveByIdsCall(s, None, map["ids" := agentIds]);
  }

  /** Deletes, one by one, the execution tasks whose ids an index query collected. */
  method DeleteExecutionTasks(s: Store, ks: set<ExecutionTaskId>)
    requires s.Valid()
    modifies s
    ensures s.Valid()
    ensures s.Snapshot() == old(s.Snapshot()).(executionTasks := old(s.executionTasks) - ks)
  {
    var ids := Collect(ks);
    for i := 0 to |ids|
      invariant s.Valid()
      invariant s.Snapshot() == old(s.Snapshot()).(executionTasks := old(s.executionTasks) - set j | 0 <= j < i :: ids[j])
    {
      s.executionTasks := s.executionTasks - {ids[i]};
      assert (set j | 0 <= j < i + 1 :: ids[j]) == (set j | 0 <= j < i :: ids[j]) + {ids[i]};
    }
    assert (set j | 0 <= j < |ids| :: ids[j]) == ks by {
      forall x | x in ks ensures x in (set j | 0 <= j < |ids| :: ids[j]) {
        var j :| 0 <= j < |ids| && ids[j] == x;
      }
    }
  }

  /** Deletes, one by one, the custom models whose ids an index query collected. */
  method DeleteCustomModels(s: Store, ks: set<CustomModelId>)
    requires s.Valid()
    modifies s
    ensures s.Valid()
    ensures s.Snapshot() == old(s.Snapshot()).(customModels := old(s.customModels) - ks)
  {
    var ids := Collect(ks);
    for i := 0 to |ids|
      invariant s.Valid()
      invariant s.Snapshot() == old(s.Snapshot()).(customModels := old(s.customModels) - set j | 0 <= j < i :: ids[j])
    {
      s.customModels := s.customModels - {ids[i]};
      assert (set j | 0 <= j < i + 1 :: ids[j]) == (set j | 0 <= j < i :: ids[j]) + {ids[i]};
    }
    assert (set j | 0 <= j < |ids| :: ids[j]) == ks by {
      forall x | x in ks ensures x in (set j | 0 <= j < |ids| :: ids[j]) {
        var j :| 0 <= j < |ids| && ids[j] == x;
      }
    }
  }

  /** `deleteFromClerk` as its steps evidently intend: every agent of the user, every
      execution task run on one of the user's agents, every custom model of the user,
      and then the user record are deleted, and nothing else changes. */
  method DeleteFromClerkCascade(s: Store, clerkUserId: string) returns (r: Outcome)
    requires s.Valid()
    modifies s
    ensures s.Valid()
    ensures match Identity.UserByExternalId(old(s.users), clerkUserId)
      case Err(e) => r == Fail(e) && s.Snapshot() == old(s.Snapshot())
      case Ok(None) => r == Pass && s.Snapshot() == old(s.Snapshot())
      case Ok(Some(u)) =>
        && r == Pass
        && s.Snapshot() == old(s.Snapshot()).(
             users := old(s.users) - {u},
             agents := old(s.agents) - AgentsOf(old(s.agents), u),
             executionTasks := old(s.executionTasks) - ExecutionTasksOf(old(s.executionTasks), u),
             customModels := old(s.customModels) - CustomModelsOf(old(s.customModels), u))
  {
    var user := Identity.UserByExternalId(s.users, clerkUserId);
    if user.Err? {
      return Fail(user.msg);
    }
    if user.value.None? {
      return Pass;
    }
    var u := user.value.value;
    var owned := AgentsOf(s.agents, u);
    var agentIds := Collect(owned);
    assert Agents.AllOwned(s.agents, u, agentIds) by {
      forall i | 0 <= i < |agentIds| ensures Agents.AgentById(s.agents, u, agentIds[i]).Some? {
        assert agentIds[i] in owned;
      }
    }
    var removed := Agents.RemoveAllByIds(s, u, agentIds);
    assert (set i | 0 <= i < |agentIds| :: agentIds[i]) == owned by {
      forall x | x in owned ensures x in (set i | 0 <= i < |agentIds| :: agentIds[i]) {
        var i :| 0 <= i < |agentIds| && agentIds[i] == x;
      }
    }
    DeleteExecutionTasks(s, ExecutionTasksOf(s.executionTasks, u));
    DeleteCustomModels(s, CustomModelsOf(s.customModels, u));
    s.users := s.users - {u};
    r := Pass;
  }

  /** After the cascade nothing of the deleted user is left: no user record with the
      external id, no agent, execution task or custom model of the user. */
  lemma CascadeLeavesNothing(t: Tables, u: UserId)
    ensures var after := t.(users := t.users - {u},
                            agents := t.agents - AgentsOf(t.agents, u),
                            executionTasks := t.executionTasks - ExecutionTasksOf(t.executionTasks, u),
                            customModels := t.customModels - CustomModelsOf(t.customModels, u));
      && u !in after.users
      && AgentsOf(after.agents, u) == {}
      && ExecutionTasksOf(after.executionTasks, u) == {}
      && CustomModelsOf(after.customModels, u) == {}
      && (forall k :: k in t.agents && t.agents[k].userId != u ==> k in after.agents)
      && (forall k :: k in t.customModels && t.customModels[k].userId != u ==> k in after.customModels)
  {
  }
}
