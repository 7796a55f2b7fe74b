/** The legacy `tasks` table: runs recorded by the older scheduler-based flow. */
module LegacyTasks {
  import opened Wrappers
  import opened Records
  import opened Db
  import Identity

  const TaskNotFound := "Task not found"

  /** The task the legacy `create` inserts. */
  function NewLegacyTask(agentId: AgentId, caller: UserId, now: int): LegacyTask {
    LegacyTask(agentId, LegacyRegistered, None, now, caller)
  }

  /** The leading text of the error the scheduler raises for a function reference that
      names no deployed function; the platform's full wording is not modelled. */
  const UnknownScheduledFunction := "agents:runAgent"

  /** Legacy `create` as written: after inserting the task it schedules
      `agents:runAgent`, which the agents module does not define, so scheduling throws
      and the mutation's writes are discarded. */
  method Create(s: Store, subject: Option<string>, agentId: AgentId, now: int) returns (r: Outcome)
    requires s.Valid()
    modifies s
    ensures s.Valid()
    ensures s.Snapshot() == old(s.Snapshot())
    ensures match Identity.CurrentUserOrThrow(old(s.users), subject)
      case Err(e) => r == Fail(e)
      case Ok(_) => r == Fail(UnknownScheduledFunction)
  {
    var user := Identity.CurrentUserOrThrow(s.users, subject);
    if user.Err? {
      return Fail(user.msg);
    }
    var saved := s.Snapshot();
    var id := s.NewId();
    s.tasks := s.tasks[id := NewLegacyTask(agentId, user.value, now)];
    s.Rollback(saved);
    r := Fail(UnknownScheduledFunction);
  }

  /** Legacy `create` as evidently intended: inserts a registered task of the caller for
      the agent (the agent itself is not looked up) and schedules one run of that agent
      for the task with no delay. */
  method CreateScheduled(s: Store, subject: Option<string>, agentId: AgentId, now: int) returns (r: Outcome)
    requires s.Valid()
    modifies s
    ensures s.Valid()
    ensures match Identity.CurrentUserOrThrow(old(s.users), subject)
      case Err(e) => r == Fail(e) && s.Snapshot() == old(s.Snapshot())
      case Ok(caller) =>
        var id := old(s.nextId);
        && r == Pass && id !in old(s.tasks)
        && s.Snapshot() == old(s.Snapshot()).(
             tasks := old(s.tasks)[id := NewLegacyTask(agentId, caller, now)],
             scheduled := old(s.scheduled) + [ScheduledRun(0, id, agentId)],
             nextId := id + 1)
  {
    var user := Identity.CurrentUserOrThrow(s.users, subject);
    if user.Err? {
      return Fail(user.msg);
    }
    var id := s.NewId();
    s.tasks := s.tasks[id := NewLegacyTask(agentId, user.value, now)];
    s.scheduled := s.scheduled + [ScheduledRun(0, id, agentId)];
    r := Pass;
  }

  /** The task after the legacy patch: state, result and time replaced. */
  function LegacyPatched(task: LegacyTask, state: LegacyState, result: Option<string>, now: int): (r: LegacyTask)
    ensures r.state == state && r.result == result && r.updatedAt == now
    ensures r.(state := task.state, result := task.result, updatedAt := task.updatedAt) == task
  {
    task.(state := state, result := result, updatedAt := now)
  }

  /** Whether `id` is a task of `caller`. */
  predicate OwnedTask(tasks: map<TaskId, LegacyTask>, caller: UserId, id: TaskId) {
    id in tasks && tasks[id].userId == caller
  }

  /** Legacy `updateTask` as written: the caller's task is patched, and then the handler
      throws "Task not found" in every case, so the mutation fails and its patch is
      discarded. No call ever changes a task. */
  method UpdateTask(s: Store, subject: Option<string>, id: TaskId, state: LegacyState, result: Option<string>, now: int) returns (r: Outcome)
    requires s.Valid()
    modifies s
    ensures s.Valid()
    ensures s.Snapshot() == old(s.Snapshot())
    ensures match Identity.CurrentUserOrThrow(old(s.users), subject)
      case Err(e) => r == Fail(e)
      case Ok(_) => r == Fail(TaskNotFound)
  {
    var user := Identity.CurrentUserOrThrow(s.users, subject);
    if user.Err? {
      return Fail(user.msg);
    }
    var saved := s.Snapshot();
    if OwnedTask(s.tasks, user.value, id) {
      s.tasks := s.tasks[id := LegacyPatched(s.tasks[id], state, result, now)];
    }
    s.Rollback(saved);
    r := Fail(TaskNotFound);
  }

  /** Legacy `updateTask` as its guard evidently intends: the caller's task is patched
      and the call succeeds; "Task not found" is thrown only for a missing or foreign task. */
  method UpdateTaskGuarded(s: Store, subject: Option<string>, id: TaskId, state: LegacyState, result: Option<string>, now: int) returns (r: Outcome)
    requires s.Valid()
    modifies s
    ensures s.Valid()
    ensures match Identity.CurrentUserOrThrow(old(s.users), subject)
      case Err(e) => r == Fail(e) && s.Snapshot() == old(s.Snapshot())
      case Ok(caller) =>
        if OwnedTask(old(s.tasks), caller, id) then
          r == Pass && s.Snapshot() == old(s.Snapshot()).(tasks := old(s.tasks)[id := LegacyPatched(old(s.tasks)[id], state, result, now)])
        else
          r == Fail(TaskNotFound) && s.Snapshot() == old(s.Snapshot())
  {
    var user := Identity.CurrentUserOrThrow(s.users, subject);
    if user.Err? {
      return Fail(user.msg);
    }
    if !OwnedTask(s.tasks, user.value, id) {
      return Fail(TaskNotFound);
    }
    s.tasks := s.tasks[id := LegacyPatched(s.tasks[id], state, result, now)];
    r := Pass;
  }
}
