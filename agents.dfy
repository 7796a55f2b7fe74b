/** The `agents` table: ownership-scoped reads, creation from the default model,
    field-by-field partial updates and deletion by id. */
module Agents {
  import opened Wrappers
  import opened Records
  import opened Db
  import Identity

  const AgentNotFound := "Agent not found"
  const DefaultModelNotFound := "Default model not found"
  /** The leading text of the argument validator's rejection of a call whose argument
      object does not match the declared arguments; the rest of the message (which
      field is missing or extra, the object and the validator) is not modelled. */
  const ArgumentRejected := "ArgumentValidationError"

  /** `getAgentById`: the agent when it exists and the caller owns it, else null. */
  function AgentById(agents: map<AgentId, Agent>, caller: UserId, id: AgentId): Option<Agent> {
    if id in agents && agents[id].userId == caller then Some(agents[id]) else None
  }

  datatype AgentWithModel = AgentWithModel(agent: Agent, model: ModelDoc)

  /** `getAgentByIdWithModel`: the caller's agent together with its model, or null
      when either is missing. The model lookup is a plain read of `models`. */
  function AgentByIdWithModel(agents: map<AgentId, Agent>, models: map<ModelId, ModelDoc>, caller: UserId, id: AgentId): Option<AgentWithModel> {
    match AgentById(agents, caller, id)
    case None => None
    case Some(agent) =>
      if agent.modelId in models then Some(AgentWithModel(agent, models[agent.modelId])) else None
  }

  /** Ownership scoping: the owner sees its agent, and to anyone else an agent of
      another user looks exactly like one that does not exist. */
  lemma ForeignAgentLooksMissing(agents: map<AgentId, Agent>, models: map<ModelId, ModelDoc>, caller: UserId, id: AgentId, agent: Agent)
    ensures AgentById(agents[id := agent], agent.userId, id) == Some(agent)
    ensures agent.userId != caller ==>
      && AgentById(agents[id := agent], caller, id) == AgentById(agents - {id}, caller, id) == None
      && AgentByIdWithModel(agents[id := agent], models, caller, id) == AgentByIdWithModel(agents - {id}, models, caller, id)
  {
  }

  /** The pair is there exactly when the caller owns the agent and its model exists,
      and then it holds both unchanged. */
  lemma AgentByIdWithModelSpec(agents: map<AgentId, Agent>, models: map<ModelId, ModelDoc>, caller: UserId, id: AgentId)
    ensures var r := AgentByIdWithModel(agents, models, caller, id);
      && (r.Some? <==> id in agents && agents[id].userId == caller && agents[id].modelId in models)
      && (r.Some? ==> r.value.agent == agents[id] && r.value.model == models[agents[id].modelId])
  {
  }

  /** The agent `create` inserts. It has no `files` field. */
  function NewAgent(caller: UserId, defaultModel: ModelId): Agent {
    Agent("New Agent", "This is your new agent", "", "", [], [], defaultModel, caller, None)
  }

  /** `create`: inserts a fresh agent of the caller on the default model and returns it. */
  method Create(s: Store, subject: Option<string>) returns (r: Result<Option<Agent>>)
    requires s.Valid()
    modifies s
    ensures s.Valid()
    ensures match Identity.CurrentUserOrThrow(old(s.users), subject)
      case Err(e) => r == Err(e) && s.Snapshot() == old(s.Snapshot())
      case Ok(caller) =>
        if s.defaultModelId !in old(s.models) then
          r == Err(DefaultModelNotFound) && s.Snapshot() == old(s.Snapshot())
        else
          var id := old(s.nextId);
          && r == Ok(Some(NewAgent(caller, s.defaultModelId)))
          && id !in old(s.agents)
          && s.Snapshot() == old(s.Snapshot()).(agents := old(s.agents)[id := NewAgent(caller, s.defaultModelId)], nextId := id + 1)
  {
    var user := Identity.CurrentUserOrThrow(s.users, subject);
    if user.Err? {
      return Err(user.msg);
    }
    if s.defaultModelId !in s.models {
      return Err(DefaultModelNotFound);
    }
    var id := s.NewId();
    s.agents := s.agents[id := NewAgent(user.value, s.defaultModelId)];
    r := Ok(AgentById(s.agents, user.value, id));
  }

  /** The optional fields of `update`; `None` is an argument left out. */
  datatype AgentPatch = AgentPatch(
    name: Option<string>,
    description: Option<string>,
    iconUrl: Option<string>,
    goal: Option<string>,
    tools: Option<seq<ToolRef>>,
    steps: Option<seq<Step>>,
    modelId: Option<ModelId>)

  /** The agent after patching it with the fields that were provided. */
  function ApplyAgentPatch(a: Agent, p: AgentPatch): Agent {
    var a := if p.name.Some? then a.(name := p.name.value) else a;
    var a := if p.description.Some? then a.(description := p.description.value) else a;
    var a := if p.iconUrl.Some? then a.(iconUrl := p.iconUrl.value) else a;
    var a := if p.goal.Some? then a.(goal := p.goal.value) else a;
    var a := if p.tools.Some? then a.(tools := p.tools.value) else a;
    var a := if p.steps.Some? then a.(steps := p.steps.value) else a;
    if p.modelId.Some? then a.(modelId := p.modelId.value) else a
  }

  /** Every provided field takes the new value, every other field keeps its value, the
      owner and the files never change, and patching twice is patching once. */
  lemma AgentPatchSpec(a: Agent, p: AgentPatch)
    ensures var b := ApplyAgentPatch(a, p);
      && b.name == p.name.GetOr(a.name)
      && b.description == p.description.GetOr(a.description)
      && b.iconUrl == p.iconUrl.GetOr(a.iconUrl)
      && b.goal == p.goal.GetOr(a.goal)
      && b.tools == p.tools.GetOr(a.tools)
      && b.steps == p.steps.GetOr(a.steps)
      && b.modelId == p.modelId.GetOr(a.modelId)
      && b.userId == a.userId && b.files == a.files
      && ApplyAgentPatch(b, p) == b
    ensures p == AgentPatch(None, None, None, None, None, None, None) ==> ApplyAgentPatch(a, p) == a
  {
  }

  /** `update`: patches the caller's agent with the provided fields. */
  method Update(s: Store, subject: Option<string>, id: AgentId, patch: AgentPatch) returns (r: Outcome)
    requires s.Valid()
    modifies s
    ensures s.Valid()
    ensures match Identity.CurrentUserOrThrow(old(s.users), subject)
      case Err(e) => r == Fail(e) && s.Snapshot() == old(s.Snapshot())
      case Ok(caller) =>
        if AgentById(old(s.agents), caller, id).None? then
          r == Fail(AgentNotFound) && s.Snapshot() == old(s.Snapshot())
        else
          r == Pass && s.Snapshot() == old(s.Snapshot()).(agents := old(s.agents)[id := ApplyAgentPatch(old(s.agents)[id], patch)])
  {
    var user := Identity.CurrentUserOrThrow(s.users, subject);
    if user.Err? {
      return Fail(user.msg);
    }
    var existing := AgentById(s.agents, user.value, id);
    if existing.None? {
      return Fail(AgentNotFound);
    }
    s.agents := s.agents[id := ApplyAgentPatch(s.agents[id], patch)];
    r := Pass;
  }

  /** `removeByIds` with `ids` took the tables from `t` to `t'` with outcome `r`: an
      unauthenticated caller fails with nothing written; otherwise only the first id is
      looked at, and it is deleted when it names an agent of the caller, else the call
      fails with `AgentNotFound` and nothing is written. */
  ghost predicate RemovedByIds(t: Tables, subject: Option<string>, ids: seq<AgentId>, r: Outcome, t': Tables) {
    match Identity.CurrentUserOrThrow(t.users, subject)
      case Err(e) => r == Fail(e) && t' == t
      case Ok(caller) =>
        if ids == [] then
          r == Pass && t' == t
        else if AgentById(t.agents, caller, ids[0]).Some? then
          r == Pass && t' == t.(agents := t.agents - {ids[0]})
        else
          r == Fail(AgentNotFound) && t' == t
  }

  /** `removeByIds` as written: the loop looks at the first id only, deleting it when
      the caller owns it and throwing otherwise; later ids are never examined. */
  method RemoveByIds(s: Store, subject: Option<string>, ids: seq<AgentId>) returns (r: Outcome)
    requires s.Valid()
    modifies s
    ensures s.Valid()
    ensures RemovedByIds(old(s.Snapshot()), subject, ids, r, s.Snapshot())
    ensures Identity.CurrentUserOrThrow(old(s.users), subject).Ok? ==>
      s.agents == AfterRemoveFirst(old(s.agents), Identity.CurrentUserOrThrow(old(s.users), subject).value, ids)
  {
    var user := Identity.CurrentUserOrThrow(s.users, subject);
    if user.Err? {
      return Fail(user.msg);
    }
    for i := 0 to |ids|
      invariant i == 0
    {
      var agent := AgentById(s.agents, user.value, ids[i]);
      if agent.Some? && agent.value.userId == user.value {
        s.agents := s.agents - {ids[i]};
        return Pass;
      } else {
        return Fail(AgentNotFound);
      }
    }
    r := Pass;
  }

  /** The agents `removeByIds` as written leaves: without the first id when the caller
      owns it, else all of them. */
  function AfterRemoveFirst(agents: map<AgentId, Agent>, caller: UserId, ids: seq<AgentId>): map<AgentId, Agent> {
    if ids == [] || AgentById(agents, caller, ids[0]).None? then agents else agents - {ids[0]}
  }

  /** The agents the evidently intended deletion leaves when the caller owns every id. */
  function AfterRemoveAll(agents: map<AgentId, Agent>, ids: seq<AgentId>): map<AgentId, Agent> {
    agents - set i | 0 <= i < |ids| :: ids[i]
  }

  /** The discrepancy: an owned agent listed after a different first id survives the
      deletion as written, while every listed agent is gone after the intended one. */
  lemma RemoveByIdsSkipsLaterIds(agents: map<AgentId, Agent>, caller: UserId, ids: seq<AgentId>, j: nat)
    requires 0 < j < |ids| && ids[j] != ids[0] && AgentById(agents, caller, ids[j]).Some?
    ensures ids[j] in AfterRemoveFirst(agents, caller, ids)
    ensures ids[j] !in AfterRemoveAll(agents, ids)
    ensures AllOwned(agents, caller, ids) ==> AfterRemoveFirst(agents, caller, ids) != AfterRemoveAll(agents, ids)
  {
    assert ids[j] in set i | 0 <= i < |ids| :: ids[i];
  }

  /** `removeByIds` reached through a function call whose argument object is checked
      against the declared arguments `{ id }` first: an object without `id`, or with
      any other field, is rejected before the handler runs. */
  method RemoveByIdsCall(s: Store, subject: Option<string>, args: map<string, seq<AgentId>>) returns (r: Outcome)
    requires s.Valid()
    modifies s
    ensures s.Valid()
    ensures args.Keys != {"id"} ==> r == Fail(ArgumentRejected) && s.Snapshot() == old(s.Snapshot())
    ensures args.Keys == {"id"} ==> RemovedByIds(old(s.Snapshot()), subject, args["id"], r, s.Snapshot())
    ensures args.Keys == {"id"} && Identity.CurrentUserOrThrow(old(s.users), subject).Ok? ==>
      s.agents == AfterRemoveFirst(old(s.agents), Identity.CurrentUserOrThrow(old(s.users), subject).value, args["id"])
  {
    if args.Keys != {"id"} {
      return Fail(ArgumentRejected);
    }
    r := RemoveByIds(s, subject, args["id"]);
  }

  /** The ids in `ids` that are agents of `caller`. */
  predicate AllOwned(agents: map<AgentId, Agent>, caller: UserId, ids: seq<AgentId>) {
    forall i :: 0 <= i < |ids| ==> AgentById(agents, caller, ids[i]).Some?
  }

  /** Deleting agents by id as the mutation's name and loop evidently intend: every id
      is checked, and either all of them are deleted or, when one is missing or foreign,
      none is. */
  method RemoveAllByIds(s: Store, caller: UserId, ids: seq<AgentId>) returns (r: Outcome)
    requires s.Valid()
    modifies s
    ensures s.Valid()
    ensures AllOwned(old(s.agents), caller, ids) ==>
      r == Pass && s.Snapshot() == old(s.Snapshot()).(agents := AfterRemoveAll(old(s.agents), ids))
    ensures !AllOwned(old(s.agents), caller, ids) ==>
      r == Fail(AgentNotFound) && s.Snapshot() == old(s.Snapshot())
  {
    for i := 0 to |ids|
      invariant AllOwned(s.agents, caller, ids[..i])
    {
      if AgentById(s.agents, caller, ids[i]).None? {
        return Fail(AgentNotFound);
      }
    }
    assert ids[..|ids|] == ids;
    ghost var before := s.agents;
    for i := 0 to |ids|
      invariant s.Valid()
      invariant s.Snapshot() == old(s.Snapshot()).(agents := before - set j | 0 <= j < i :: ids[j])
    {
      s.agents := s.agents - {ids[i]};
      assert (set j | 0 <= j < i + 1 :: ids[j]) == (set j | 0 <= j < i :: ids[j]) + {ids[i]};
    }
    r := Pass;
  }
}
