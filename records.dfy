/** The documents of the Convex tables as the code reads and writes them. Every
    table key is a document id; ids are handed out in creation order. */
module Records {
  import opened Wrappers

  type UserId = nat
  type AgentId = nat
  type ModelId = nat
  type CustomModelId = nat
  type ExecutionTaskId = nat
  type TaskId = nat

  /** A row of `users`, written from the identity provider's webhook. */
  datatype User = User(name: string, externalId: string)

  /** An entry of an agent's `tools` list. */
  datatype ToolRef = ToolRef(slug: string, name: string)

  /** An entry of an agent's `steps` list. */
  datatype Step = Step(id: string, value: string)

  /** `"image"` or `"file"`. */
  datatype FileKind = Image | File

  /** An attachment; an empty `name` stands for a missing one. */
  datatype AgentFile = AgentFile(storageId: string, name: string, kind: FileKind)

  /** A row of `agents`. `files` is `None` on agents that no code path has given the field yet. */
  datatype Agent = Agent(
    name: string,
    description: string,
    iconUrl: string,
    goal: string,
    tools: seq<ToolRef>,
    steps: seq<Step>,
    modelId: ModelId,
    userId: UserId,
    files: Option<seq<AgentFile>>)

  /** A row of `models` as the execution handler reads it: `kind` is the `type` tag
      ("model" or "customModel"), `provider` the provider name. Both are kept as the
      strings stored, since the handler also handles values outside the union. */
  datatype ModelDoc = ModelDoc(
    kind: string,
    name: string,
    provider: string,
    modelId: string,
    encryptedApiKey: Option<string>,
    baseUrl: Option<string>)

  /** A row of `customModels`. */
  datatype CustomModel = CustomModel(
    userId: UserId,
    provider: string,
    modelId: string,
    name: string,
    encryptedApiKey: string,
    baseUrl: Option<string>)

  /** The `state` union of an execution task. */
  datatype TaskState = Registered | Running | Error(error: string) | Success(result: string)

  /** A row of `executionTasks`: value copies of the agent and its model taken at creation. */
  datatype ExecutionTask = ExecutionTask(
    agentId: AgentId,
    agent: Agent,
    model: ModelDoc,
    state: TaskState,
    updatedAt: int)

  /** The `state` literal of a legacy task. */
  datatype LegacyState = LegacyRegistered | LegacyRunning | LegacyError | LegacyDone

  /** A row of the legacy `tasks` table. */
  datatype LegacyTask = LegacyTask(
    agentId: AgentId,
    state: LegacyState,
    result: Option<string>,
    updatedAt: int,
    userId: UserId)

  /** One `executeWithId` action handed to the agents workpool, with the task document it carries. */
  datatype QueuedExecution = QueuedExecution(taskId: ExecutionTaskId, task: ExecutionTask)

  /** One `runAgent` call handed to the scheduler. */
  datatype ScheduledRun = ScheduledRun(delayMs: nat, taskId: TaskId, agentId: AgentId)
}
