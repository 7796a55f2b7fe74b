/** The `executionTasks` table: one row per run of an agent, holding value copies of
    the agent and of its model and the run's state. */
module ExecutionTasks {
  import opened Wrappers
  import opened Records
  import opened Db
  import Identity
  import Agents

  /** `getExecutionTaskById`: the task when it exists and was run on an agent of the
      caller, else null. */
  function ExecutionTaskById(tasks: map<ExecutionTaskId, ExecutionTask>, caller: UserId, id: ExecutionTaskId): Option<ExecutionTask> {
    if id !in tasks then None
    else if tasks[id].agent.userId != caller then None
    else Some(tasks[id])
  }

  /** Ownership scoping: to anyone but the owner of the copied agent, a task looks
      exactly like one that does not exist. */
  lemma ForeignTaskLooksMissing(tasks: map<ExecutionTaskId, ExecutionTask>, caller: UserId, id: ExecutionTaskId, t: ExecutionTask)
    ensures ExecutionTaskById(tasks[id := t], t.agent.userId, id) == Some(t)
    ensures t.agent.userId != caller ==>
      ExecutionTaskById(tasks[id := t], caller, id) == ExecutionTaskById(tasks - {id}, caller, id) == None
  {
  }

  /** A task of `agentId` whose agent copy belongs to `caller`. */
  predicate OfAgent(tasks: map<ExecutionTaskId, ExecutionTask>, caller: UserId, agentId: AgentId, k: ExecutionTaskId) {
    k in tasks && tasks[k].agentId == agentId && tasks[k].agent.userId == caller
  }

  /** The ids below `n` of the tasks of `agentId` owned by `caller`, newest (highest id)
      first: exactly the matching ids, each once, in descending order. */
  function TasksOfAgent(tasks: map<ExecutionTaskId, ExecutionTask>, caller: UserId, agentId: AgentId, n: nat): (r: seq<ExecutionTaskId>)
    ensures forall i :: 0 <= i < |r| ==> r[i] < n && OfAgent(tasks, caller, agentId, r[i])
    ensures forall k: nat :: k < n && OfAgent(tasks, caller, agentId, k) ==> k in r
    ensures forall i, j :: 0 <= i < j < |r| ==> r[i] > r[j]
  {
    if n == 0 then []
    else
      var k := n - 1;
      (if OfAgent(tasks, caller, agentId, k) then [k] else []) + TasksOfAgent(tasks, caller, agentId, k)
  }

  /** `getAllByAgentId`: the caller's tasks of the agent, newest first. */
  function AllByAgentId(t: Tables, subject: Option<string>, agentId: AgentId): Result<seq<ExecutionTaskId>> {
    match Identity.CurrentUserOrThrow(t.users, subject)
    case Err(e) => Err(e)
    case Ok(caller) => Ok(TasksOfAgent(t.executionTasks, caller, agentId, t.nextId))
  }

  /** With fresh ids every stored task is below the counter, so the list holds every
      task of the agent that the caller owns, and only those. */
  lemma AllByAgentIdComplete(t: Tables, caller: UserId, agentId: AgentId, k: ExecutionTaskId)
    requires FreshIds(t)
    ensures k in TasksOfAgent(t.executionTasks, caller, agentId, t.nextId) <==> OfAgent(t.executionTasks, caller, agentId, k)
  {
    assert KeysBelow(t.executionTasks, t.nextId);
  }

  /** The task after `updateTask`: the state and the time replaced. */
  function Patched(task: ExecutionTask, state: TaskState, now: int): (r: ExecutionTask)
    ensures r.(state := task.state, updatedAt := task.updatedAt) == task
    ensures r.state == state && r.updatedAt == now
  {
    task.(state := state, updatedAt := now)
  }

  /** There is no transition guard: whatever state a task was left in, terminal or not,
      the next write replaces it, and only the last write of a sequence is visible. */
  lemma LastWriteWins(task: ExecutionTask, first: TaskState, t1: int, second: TaskState, t2: int)
    ensures Patched(Patched(task, first, t1), second, t2) == Patched(task, second, t2)
    ensures Patched(task, second, t2).agent == task.agent && Patched(task, second, t2).model == task.model
  {
  }

  /** `updateTask`: overwrites `state` and `updatedAt` of the task whatever its previous
      state; a missing document makes the patch throw. */
  method UpdateTask(s: Store, id: ExecutionTaskId, state: TaskState, now: int) returns (r: Outcome)
    requires s.Valid()
    modifies s
    ensures s.Valid()
    ensures id !in old(s.executionTasks) ==> r == Fail(MissingDocument) && s.Snapshot() == old(s.Snapshot())
    ensures id in old(s.executionTasks) ==>
      && r == Pass
      && s.Snapshot() == old(s.Snapshot()).(executionTasks := old(s.executionTasks)[id := Patched(old(s.executionTasks)[id], state, now)])
  {
    if id !in s.executionTasks {
      return Fail(MissingDocument);
    }
    s.executionTasks := s.executionTasks[id := Patched(s.executionTasks[id], state, now)];
    r := Pass;
  }

  /** The task `create` inserts for an agent with its model. */
  function NewExecutionTask(agentId: AgentId, found: Agents.AgentWithModel, now: int): ExecutionTask {
    ExecutionTask(agentId, found.agent, found.model, Registered, now)
  }

  /** `create`: copies the caller's agent and its model into a new task in state
      `registered` and enqueues one `executeWithId` run carrying the task read back. */
  method Create(s: Store, subject: Option<string>, agentId: AgentId, now: int) returns (r: Outcome)
    requires s.Valid()
    modifies s
    ensures s.Valid()
    ensures match Identity.CurrentUserOrThrow(old(s.users), subject)
      case Err(e) => r == Fail(e) && s.Snapshot() == old(s.Snapshot())
      case Ok(caller) =>
        match Agents.AgentByIdWithModel(old(s.agents), old(s.models), caller, agentId)
        case None => r == Fail(Agents.AgentNotFound) && s.Snapshot() == old(s.Snapshot())
        case Some(found) =>
          var id := old(s.nextId);
          var task := NewExecutionTask(agentId, found, now);
          && r == Pass
          && id !in old(s.executionTasks)
          && s.Snapshot() == old(s.Snapshot()).(
               executionTasks := old(s.executionTasks)[id := task],
               workpool := old(s.workpool) + [QueuedExecution(id, task)],
               nextId := id + 1)
  {
    var user := Identity.CurrentUserOrThrow(s.users, subject);
    if user.Err? {
      return Fail(user.msg);
    }
    var response := Agents.AgentByIdWithModel(s.agents, s.models, user.value, agentId);
    if response.None? {
      return Fail(Agents.AgentNotFound);
    }
    var id := s.NewId();
    s.executionTasks := s.executionTasks[id := NewExecutionTask(agentId, response.value, now)];
    var task := ExecutionTaskById(s.executionTasks, user.value, id);
    if task.Some? {
      s.workpool := s.workpool + [QueuedExecution(id, task.value)];
    }
    r := Pass;
  }

  /** The task `create` stores is visible to its creator through the scoped lookup, and
      what the run receives is the stored task. */
  lemma CreatedTaskReadable(tasks: map<ExecutionTaskId, ExecutionTask>, caller: UserId, agents: map<AgentId, Agent>, models: map<ModelId, ModelDoc>, agentId: AgentId, id: ExecutionTaskId, now: int)
    requires Agents.AgentByIdWithModel(agents, models, caller, agentId).Some?
    ensures var task := NewExecutionTask(agentId, Agents.AgentByIdWithModel(agents, models, caller, agentId).value, now);
      && ExecutionTaskById(tasks[id := task], caller, id) == Some(task)
      && task.state == Registered && task.agent == agents[agentId] && task.agent.userId == caller
  {
  }
}
