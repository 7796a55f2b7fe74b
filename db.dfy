/** The Convex database of the backend, in memory: one map per table, the
    workpool's and the scheduler's pending lists, and the id counter. */
module Db {
  import opened Wrappers
  import opened Records

  /** Every table and pending list as one value, so that a contract can say
      that an operation changed one part and left the rest as it was. */
  datatype Tables = Tables(
    users: map<UserId, User>,
    agents: map<AgentId, Agent>,
    models: map<ModelId, ModelDoc>,
    customModels: map<CustomModelId, CustomModel>,
    executionTasks: map<ExecutionTaskId, ExecutionTask>,
    tasks: map<TaskId, LegacyTask>,
    workpool: seq<QueuedExecution>,
    scheduled: seq<ScheduledRun>,
    nextId: nat)

  predicate KeysBelow<V>(m: map<nat, V>, n: nat) {
    forall k :: k in m ==> k < n
  }

  /** The leading text of the errors a patch and a delete of a missing document throw;
      the document id the platform appends is not modelled. */
  const MissingDocument := "Update on nonexistent document ID"
  const DeleteMissingDocument := "Delete on nonexistent document ID"

  /** Every key of every table is below the id counter. */
  predicate FreshIds(t: Tables) {
    && KeysBelow(t.users, t.nextId)
    && KeysBelow(t.agents, t.nextId)
    && KeysBelow(t.models, t.nextId)
    && KeysBelow(t.customModels, t.nextId)
    && KeysBelow(t.executionTasks, t.nextId)
    && KeysBelow(t.tasks, t.nextId)
  }

  /** The rows an index query collects, as a list of their ids: each id of `ks` once. */
  method Collect(ks: set<nat>) returns (xs: seq<nat>)
    ensures forall x :: x in xs <==> x in ks
    ensures forall i, j :: 0 <= i < j < |xs| ==> xs[i] != xs[j]
  {
    xs := [];
    var rest := ks;
    while rest != {}
      invariant rest <= ks
      invariant forall x :: x in xs <==> x in ks - rest
      invariant forall i, j :: 0 <= i < j < |xs| ==> xs[i] != xs[j]
      decreases rest
    {
      var k :| k in rest;
      assert k !in xs;
      xs := xs + [k];
      rest := rest - {k};
    }
  }

  class Store {
    var users: map<UserId, User>
    var agents: map<AgentId, Agent>
    var models: map<ModelId, ModelDoc>
    var customModels: map<CustomModelId, CustomModel>
    var executionTasks: map<ExecutionTaskId, ExecutionTask>
    var tasks: map<TaskId, LegacyTask>
    /** `executeWithId` actions enqueued on the agents workpool, oldest first. */
    var workpool: seq<QueuedExecution>
    /** `runAgent` calls handed to the scheduler, oldest first. */
    var scheduled: seq<ScheduledRun>
    /** Every id handed out so far is below `nextId`. */
    var nextId: nat
    /** The id of the platform model new agents start with. */
    const defaultModelId: ModelId

    /** Ids are fresh: every key of every table is below the counter. */
    ghost predicate Valid()
      reads this
    {
      FreshIds(Snapshot())
    }

    function Snapshot(): Tables
      reads this
    {
      Tables(users, agents, models, customModels, executionTasks, tasks, workpool, scheduled, nextId)
    }

    /** A database holding only the platform models. */
    constructor (defaultModelId: ModelId, models: map<ModelId, ModelDoc>, firstId: nat)
      requires KeysBelow(models, firstId)
      ensures Valid() && this.defaultModelId == defaultModelId
      ensures Snapshot() == Tables(map[], map[], models, map[], map[], map[], [], [], firstId)
    {
      this.defaultModelId := defaultModelId;
      this.models := models;
      users, agents, customModels, executionTasks, tasks := map[], map[], map[], map[], map[];
      workpool, scheduled := [], [];
      nextId := firstId;
    }

    /** A document id that no table uses yet. */
    method NewId() returns (id: nat)
      requires Valid()
      modifies this`nextId
      ensures Valid() && id == old(nextId) && nextId == id + 1
      ensures Snapshot() == old(Snapshot()).(nextId := id + 1)
      ensures id !in users && id !in agents && id !in models && id !in customModels
      ensures id !in executionTasks && id !in tasks
    {
      id := nextId;
      nextId := nextId + 1;
    }

    /** Puts back the tables as they were when a mutation started: Convex discards
        every write of a mutation that throws. */
    method Rollback(saved: Tables)
      requires FreshIds(saved)
      modifies this
      ensures Valid() && Snapshot() == saved
    {
      users, agents, models, customModels := saved.users, saved.agents, saved.models, saved.customModels;
      executionTasks, tasks, workpool, scheduled := saved.executionTasks, saved.tasks, saved.workpool, saved.scheduled;
      nextId := saved.nextId;
    }
  }
}
