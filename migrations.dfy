/** The data migrations: give every agent and every task's agent copy a `files` list,
    and replace icon URLs served by the old image endpoint with a default image. */
module Migrations {
  import opened Wrappers
  import opened Records
  import opened Db
  import opened Text

  /** `addFilesToAgents`, one document: the patch sets `files` to an empty list. */
  function AddFiles(a: Agent): (r: Agent)
    ensures r.files == Some([]) && r.(files := a.files) == a
  {
    a.(files := Some([]))
  }

  /** `addFilesToExecutionTasks`, one document: only an agent copy without `files` gets
      an empty list; the rest of the copy is kept. */
  function AddFilesToTask(t: ExecutionTask): (r: ExecutionTask)
    ensures r.agent.files.Some?
    ensures t.agent.files.Some? ==> r == t
    ensures t.agent.files.None? ==> r == t.(agent := t.agent.(files := Some([])))
  {
    if t.agent.files.None? then t.(agent := t.agent.(files := Some([]))) else t
  }

  /** Running the task migration twice is running it once, and it never drops files. */
  lemma AddFilesToTaskIdempotent(t: ExecutionTask)
    ensures AddFilesToTask(AddFilesToTask(t)) == AddFilesToTask(t)
    ensures t.agent.files.Some? ==> AddFilesToTask(t).agent.files == t.agent.files
  {
  }

  /** The default image ids: the configured list split on ", ", empty entries dropped. */
  function ImageIds(configured: string): seq<string> {
    NonEmpty(Split(configured, ", "))
  }

  /** The position `Math.floor(roll * n)` picks for a roll in [0, 1). */
  function Pick(roll: real, n: nat): int {
    (roll * n as real).Floor
  }

  /** A roll in [0, 1) picks a position inside a non-empty list. */
  lemma PickInRange(roll: real, n: nat)
    requires 0.0 <= roll < 1.0 && n > 0
    ensures 0 <= Pick(roll, n) < n
  {
    assert roll * n as real < n as real by {
      assert (1.0 - roll) * n as real > 0.0;
    }
  }

  /** `replaceAgentIconUrls`, one document: an icon served by the old image endpoint is
      replaced by the URL of a randomly picked default image, when there are default
      images and storage has a URL for the one picked. */
  function ReplaceIconUrl(a: Agent, configured: string, roll: real, getUrl: string -> Option<string>): (r: Agent)
    requires 0.0 <= roll < 1.0
    ensures r.(iconUrl := a.iconUrl) == a
    ensures !Contains(a.iconUrl, "/getImage") ==> r == a
    ensures ImageIds(configured) == [] ==> r == a
    ensures Contains(a.iconUrl, "/getImage") && ImageIds(configured) != [] ==>
      var ids := ImageIds(configured);
      var i := Pick(roll, |ids|);
      && 0 <= i < |ids|
      && (getUrl(ids[i]).None? ==> r == a)
      && (getUrl(ids[i]).Some? ==> r == a.(iconUrl := getUrl(ids[i]).value))
    ensures r.iconUrl != a.iconUrl ==>
      var ids := ImageIds(configured);
      exists i :: 0 <= i < |ids| && getUrl(ids[i]) == Some(r.iconUrl)
  {
    if !Contains(a.iconUrl, "/getImage") then a
    else
      var ids := ImageIds(configured);
      if |ids| == 0 then a
      else
        PickInRange(roll, |ids|);
        var i := Pick(roll, |ids|);
        match getUrl(ids[i])
        case None => a
        case Some(url) => a.(iconUrl := url)
  }

  /** The chosen image is one of the configured ids, and never an empty one. */
  lemma PickedImageIsConfigured(configured: string, roll: real)
    requires 0.0 <= roll < 1.0 && ImageIds(configured) != []
    ensures var ids := ImageIds(configured); var i := Pick(roll, |ids|);
      0 <= i < |ids| && ids[i] in Split(configured, ", ") && ids[i] != []
  {
    PickInRange(roll, |ImageIds(configured)|);
  }

  /** Each migration over its whole table. */
  function AgentsWithFiles(agents: map<AgentId, Agent>): map<AgentId, Agent> {
    map k | k in agents :: AddFiles(agents[k])
  }

  function TasksWithFiles(tasks: map<ExecutionTaskId, ExecutionTask>): map<ExecutionTaskId, ExecutionTask> {
    map k | k in tasks :: AddFilesToTask(tasks[k])
  }

  ghost predicate ValidRolls(rolls: AgentId -> real) {
    forall k :: 0.0 <= rolls(k) < 1.0
  }

  function AgentsWithIcons(agents: map<AgentId, Agent>, configured: string, rolls: AgentId -> real, getUrl: string -> Option<string>): map<AgentId, Agent>
    requires ValidRolls(rolls)
  {
    map k | k in agents :: ReplaceIconUrl(agents[k], configured, rolls(k), getUrl)
  }

  /** `addFilesToAgents` over the table, one document at a time. */
  method AddFilesToAgents(s: Store)
    requires s.Valid()
    modifies s
    ensures s.Valid()
    ensures s.Snapshot() == old(s.Snapshot()).(agents := AgentsWithFiles(old(s.agents)))
  {
    var ids := Collect(s.agents.Keys);
    ghost var before := s.agents;
    for i := 0 to |ids|
      invariant s.Snapshot() == old(s.Snapshot()).(agents := s.agents)
      invariant s.agents.Keys == before.Keys
      invariant forall k :: k in s.agents ==> s.agents[k] == if k in ids[..i] then AddFiles(before[k]) else before[k]
    {
      assert ids[..i + 1] == ids[..i] + [ids[i]];
      assert ids[i] !in ids[..i];
      s.agents := s.agents[ids[i] := AddFiles(s.agents[ids[i]])];
    }
    assert ids[..|ids|] == ids;
    assert s.agents == AgentsWithFiles(before);
  }

  /** `addFilesToExecutionTasks` over the table, one document at a time. */
  method AddFilesToExecutionTasks(s: Store)
    requires s.Valid()
    modifies s
    ensures s.Valid()
    ensures s.Snapshot() == old(s.Snapshot()).(executionTasks := TasksWithFiles(old(s.executionTasks)))
  {
    var ids := Collect(s.executionTasks.Keys);
    ghost var before := s.executionTasks;
    for i := 0 to |ids|
      invariant s.Snapshot() == old(s.Snapshot()).(executionTasks := s.executionTasks)
      invariant s.executionTasks.Keys == before.Keys
      invariant forall k :: k in s.executionTasks ==> s.executionTasks[k] == if k in ids[..i] then AddFilesToTask(before[k]) else before[k]
    {
      assert ids[..i + 1] == ids[..i] + [ids[i]];
      assert ids[i] !in ids[..i];
      var task := s.executionTasks[ids[i]];
      if task.agent.files.None? {
        s.executionTasks := s.executionTasks[ids[i] := task.(agent := task.agent.(files := Some([])))];
      }
    }
    assert ids[..|ids|] == ids;
    assert s.executionTasks == TasksWithFiles(before);
  }

  /** `replaceAgentIconUrls` over the table, one document at a time, each with its own roll. */
  method ReplaceAgentIconUrls(s: Store, configured: string, rolls: AgentId -> real, getUrl: string -> Option<string>)
    requires s.Valid() && ValidRolls(rolls)
    modifies s
    ensures s.Valid()
    ensures s.Snapshot() == old(s.Snapshot()).(agents := AgentsWithIcons(old(s.agents), configured, rolls, getUrl))
  {
    var ids := Collect(s.agents.Keys);
    ghost var before := s.agents;
    for i := 0 to |ids|
      invariant s.Snapshot() == old(s.Snapshot()).(agents := s.agents)
      invariant s.agents.Keys == before.Keys
      invariant forall k :: k in s.agents ==>
        s.agents[k] == if k in ids[..i] then ReplaceIconUrl(before[k], configured, rolls(k), getUrl) else before[k]
    {
      assert ids[..i + 1] == ids[..i] + [ids[i]];
      assert ids[i] !in ids[..i];
      s.agents := s.agents[ids[i] := ReplaceIconUrl(s.agents[ids[i]], configured, rolls(ids[i]), getUrl)];
    }
    assert ids[..|ids|] == ids;
    assert s.agents == AgentsWithIcons(before, configured, rolls, getUrl);
  }

  /** `runAll`: the three migrations in their listed order. */
  method RunAll(s: Store, configured: string, rolls: AgentId -> real, getUrl: string -> Option<string>)
    requires s.Valid() && ValidRolls(rolls)
    modifies s
    ensures s.Valid()
    ensures s.Snapshot() == old(s.Snapshot()).(
      agents := AgentsWithIcons(AgentsWithFiles(old(s.agents)), configured, rolls, getUrl),
      executionTasks := TasksWithFiles(old(s.executionTasks)))
  {
    AddFilesToAgents(s);
    AddFilesToExecutionTasks(s);
    ReplaceAgentIconUrls(s, configured, rolls, getUrl);
  }

  /** After `runAll` every agent and every task's agent copy has a `files` list (agents
      an empty one), whatever the icon migration did, and no document was added or lost. */
  lemma RunAllGivesFiles(agents: map<AgentId, Agent>, tasks: map<ExecutionTaskId, ExecutionTask>, configured: string, rolls: AgentId -> real, getUrl: string -> Option<string>)
    requires ValidRolls(rolls)
    ensures var after := AgentsWithIcons(AgentsWithFiles(agents), configured, rolls, getUrl);
      && after.Keys == agents.Keys
      && (forall k :: k in after ==> after[k].files == Some([]))
    ensures TasksWithFiles(tasks).Keys == tasks.Keys
    ensures forall k :: k in TasksWithFiles(tasks) ==> TasksWithFiles(tasks)[k].agent.files.Some?
    ensures TasksWithFiles(TasksWithFiles(tasks)) == TasksWithFiles(tasks)
  {
    var after := AgentsWithIcons(AgentsWithFiles(agents), configured, rolls, getUrl);
    forall k | k in after ensures after[k].files == Some([]) {
      assert after[k].(iconUrl := AgentsWithFiles(agents)[k].iconUrl) == AgentsWithFiles(agents)[k];
    }
    forall k | k in tasks ensures TasksWithFiles(TasksWithFiles(tasks))[k] == TasksWithFiles(tasks)[k] {
      AddFilesToTaskIdempotent(tasks[k]);
    }
  }
}
