# Agents backend — a verified model in Dafny

The backend stores user-defined AI agents (a goal, numbered steps, connected tools,
attached files and a model), the users' own model endpoints with encrypted API keys,
and execution tasks. Each task holds copies of an agent and its model, taken when it
was created, and the state of the run. A queued action then runs the agent and records
the run in the task's state: `registered`, then `running`, then `success` or `error`.

This project models that core on an in-memory database (`Db.Store`). The store is a
class with one map per table, the workpool's and the scheduler's pending lists, and an
id counter. It models:

- **Ownership-scoped entity operations** (`Agents`, `CustomModels`, `ExecutionTasks`,
  `LegacyTasks`). Lookups make another user's record look missing. Updates patch only
  the fields provided. Agent deletion stops after the first id, while custom-model
  deletion is all or nothing.
- **Users** (`Identity`, `Users`): resolving the caller by external id, the webhook
  upsert, and the webhook delete.
- **The execution action** (`ExecuteAgent`). It checks tool authorisation, resolves the
  model and provider, builds the goal, step list and file inputs, and makes the state
  writes. It is a pure specification (`Prepare`, `Run`, `Handle`) plus the imperative
  action (`PreFlight`, `ExecuteWithId`), which is proved equal to that specification.
- **Small rules**: the tool allowlist and status mapping (`Tools`), order-preserving
  tool lookup (`ToolLookup`), the empty-string key sentinel (`Encryption`), the data
  migrations (`Migrations`), and the JavaScript string operations these use (`Text`).

Errors are values: `Result` and `Outcome` carry the messages the code throws, word for
word. For errors raised by the platform itself, the model keeps only the fixed leading
text. A mutation that throws leaves the store unchanged, as Convex discards its writes
(`Db.Store.Rollback`). The integration platform, the cipher, file storage, the agent
engine, the telemetry client, the clock, the date and the random roll are parameters.

## Model

| member | source | states |
|---|---|---|
| Identity.UserByExternalId | convex/users.ts:108-112 | the lookup is null exactly when no user has the external id, returns the one matching user when there is one, and fails with the uniqueness error exactly when more than one user has the queried id |
| Identity.CurrentUserOrThrowSpec | convex/users.ts:88-106 | with unique external ids the caller resolves exactly when there is an identity and a user with its subject, that user is the caller, and otherwise the error is "Can't get current user" |
| Agents.ForeignAgentLooksMissing | convex/agents.ts:134-146 | the owner sees its agent; to any other user it looks exactly like a missing agent, also through the with-model lookup |
| Agents.AgentByIdWithModelSpec | convex/agents.ts:148-169 | the pair is returned exactly when the caller owns the agent and its model exists, and then holds both unchanged |
| Agents.Create | convex/agents.ts:32-61 | without a default model it fails with "Default model not found" and inserts nothing; otherwise it inserts "New Agent" / "This is your new agent" with empty icon, goal, tools and steps, the default model, the caller and no files, and returns it |
| Agents.AgentPatchSpec | convex/agents.ts:89-97 | every provided field takes its new value, every other field keeps its value, owner and files never change, and patching twice equals patching once |
| Agents.Update | convex/agents.ts:80-100 | a missing or foreign agent fails with "Agent not found" and nothing changes; otherwise only that agent is patched |
| Agents.RemoveByIds | convex/agents.ts:103-121 | only the first id is examined: an empty list does nothing, an owned first id is deleted, a foreign or missing first id fails with "Agent not found", and later ids are never touched |
| Agents.RemoveByIdsSkipsLaterIds | convex/agents.ts:110-120 | an owned agent listed after a different first id survives the deletion as written, but is gone after the all-ids deletion |
| Agents.RemoveByIdsCall | convex/agents.ts:103-121 | a call whose argument object is not exactly `{ id }` is rejected by the argument validator before the handler runs, and nothing changes; an accepted call has exactly the outcome and effect of `removeByIds` on `args.id`: the identity error, nothing for an empty list, deletion of an owned first id, or "Agent not found" |
| Agents.RemoveAllByIds | convex/agents.ts:103-121 | the corrected deletion: every listed agent is deleted when the caller owns all of them; otherwise nothing is deleted and it fails with "Agent not found" |
| CustomModels.ForeignModelLooksMissing | convex/customModels.ts:107-119 | the owner sees its custom model; to any other user it looks exactly like a missing one |
| CustomModels.Create | convex/customModels.ts:9-24 | inserts an "openai" model of the caller with empty model id, name and key and no base URL, and returns it |
| CustomModels.CustomModelPatchSpec | convex/customModels.ts:44-54 | provided fields take their new values and the others keep theirs; a key is stored encrypted, with "" kept as ""; a base URL of "" clears the field; the update fails exactly when encrypting a non-empty key fails |
| CustomModels.Update | convex/customModels.ts:35-59 | a missing or foreign model fails with "Custom model not found"; otherwise the model is patched as the patch specification says and nothing else changes |
| CustomModels.RemoveByIds | convex/customModels.ts:62-83 | all or nothing: if any id is missing or foreign it fails with "Custom model not found" and deletes none; otherwise every listed model is deleted, and a duplicated id makes the second delete fail, which rolls the whole mutation back |
| Users.UpsertFromClerk | convex/users.ts:16-27 | inserts when no user has the external id and overwrites the one match otherwise; afterwards exactly one user has the id, and unique external ids stay unique |
| Users.DeleteFromClerk | convex/users.ts:29-71 | as written: an unknown external id returns with nothing deleted; for a known user the nested agent deletion is rejected for its `ids` argument, so the mutation fails and nothing at all is deleted |
| Users.DeleteFromClerkCascade | convex/users.ts:42-69 | the corrected cascade deletes every agent of the user, every execution task whose agent copy is the user's, every custom model of the user and the user record, and nothing else |
| Users.CascadeLeavesNothing | convex/users.ts:51-69 | after the cascade nothing of the user is left, and no other user's agents or models are lost |
| Users.DeleteExecutionTasks | convex/users.ts:51-58 | the delete loop removes exactly the collected execution tasks |
| Users.DeleteCustomModels | convex/users.ts:60-67 | the delete loop removes exactly the collected custom models |
| ExecutionTasks.ForeignTaskLooksMissing | convex/executionTasks.ts:94-110 | a task whose agent copy belongs to another user looks exactly like a missing task |
| ExecutionTasks.TasksOfAgent | convex/executionTasks.ts:20-28 | the list holds every task of the agent whose copy is the caller's and nothing else, each once, newest (highest id) first |
| ExecutionTasks.AllByAgentIdComplete | convex/executionTasks.ts:13-30 | over the whole table, a task is listed exactly when it belongs to the agent and the caller |
| ExecutionTasks.Patched | convex/executionTasks.ts:54-57 | the patch replaces state and time and keeps agent id, agent copy and model copy |
| ExecutionTasks.LastWriteWins | convex/executionTasks.ts:54-57 | there is no transition guard: a later write replaces any earlier state, terminal or not |
| ExecutionTasks.UpdateTask | convex/executionTasks.ts:43-59 | overwrites state and time of the task whatever its state was; a missing document fails and nothing changes |
| ExecutionTasks.Create | convex/executionTasks.ts:61-92 | a missing or foreign agent, or one without a model, fails with "Agent not found" and nothing changes; otherwise it inserts copies of agent and model in state `registered` at `now` and enqueues exactly one run carrying that task |
| ExecutionTasks.CreatedTaskReadable | convex/executionTasks.ts:74-90 | the read-back of the new task always succeeds for its creator, so the enqueue is never skipped |
| ExecuteAgent.MissingSlugs | convex/executeAgent.ts:53-56 | the missing slugs are exactly the requested ones not returned, each once, in order of first request |
| ExecuteAgent.ResolveToolsSpec | convex/executeAgent.ts:44-74 | an agent without tools runs with `tools` undefined whatever the platform answers; a tool-using agent fails exactly when a requested slug is not returned, with "Tools missing authentication: " and the missing slugs joined by ", " |
| ExecuteAgent.ToolsStep | convex/executeAgent.ts:44-74 | the step-by-step tool check and fetch loop computes the tool resolution |
| ExecuteAgent.ResolveModel | convex/executeAgent.ts:76-137 | an unknown model type fails with "Invalid model type" and an unknown provider with "Invalid model provider"; a platform model gets no key and no base URL; a custom model's key is decrypted only when non-empty, and a decryption error fails the run; a custom openai model's non-empty base URL is used, and no other base URL ever is |
| ExecuteAgent.ModelStep | convex/executeAgent.ts:76-137 | the two switches, run step by step, compute the model resolution |
| ExecuteAgent.Goal | convex/executeAgent.ts:145-147 | a blank goal becomes "Execite steps provided by user"; any other goal is trimmed, so it is non-empty and has no surrounding whitespace |
| ExecuteAgent.StepLinesSpec | convex/executeAgent.ts:156 | one line per step, in step order, line i being "i+1. " followed by the step's value |
| ExecuteAgent.StepLineNumber | convex/executeAgent.ts:156 | a step line starts with decimal digits that read back as the step number, followed by ". " and the step's text |
| ExecuteAgent.BaseInstructionSnoc | convex/executeAgent.ts:156 | adding a step appends exactly one line to the instruction: after a newline (unless it is the first step), the step's text numbered one past the previous steps |
| ExecuteAgent.FileItem | convex/executeAgent.ts:170-185 | an image becomes an image item and a file a file item, both carrying the URL; a file name appears exactly when it is non-empty |
| ExecuteAgent.FileItems | convex/executeAgent.ts:162-187 | the items are built, in file order, exactly when every file has a URL; otherwise the error names the first file without one |
| ExecuteAgent.FileItemsPrefix | convex/executeAgent.ts:162-168 | once a prefix of the files fails, the whole list fails with the same message |
| ExecuteAgent.BuildInput | convex/executeAgent.ts:156-212 | an agent without the `files` field fails on reading its length; no files gives the plain instruction; otherwise the input is one message of the instruction text followed by the file items in file order, and fails with the file-URL error exactly when the file items do |
| ExecuteAgent.InputStep | convex/executeAgent.ts:156-212 | the step-by-step file loop computes the run input |
| ExecuteAgent.PrepareOrder | convex/executeAgent.ts:44-212 | the pre-flight checks fail in source order (tools, then model, then files), and a success carries the resolved tools, model and input |
| ExecuteAgent.PreFlight | convex/executeAgent.ts:35-212 | the action's pre-flight steps, with each throw as an early return, compute the pre-flight specification |
| ExecuteAgent.WriteShapes | convex/executeAgent.ts:214-236 | the only write sequences are [error], [running, error], [running, success] and [running, success, error]; a task whose document is gone gets no write, and the missing-document error escapes |
| ExecuteAgent.PreFlightFailureSkipsRun | convex/executeAgent.ts:58-60 | every pre-flight failure leads to the single write `error` with its message and no engine run; the engine runs and `running` is written exactly when the pre-flight succeeds |
| ExecuteAgent.SuccessThenShutdown | convex/executeAgent.ts:219-235 | a completed run writes `success` with the final output, or "No result" only when there is none; when the telemetry shutdown after it throws, `error` overwrites the success, and the action still completes unless the second shutdown, in the `catch`, throws too |
| ExecuteAgent.EngineFailure | convex/executeAgent.ts:219-233 | a run that throws gives [running, error] with the engine's message |
| ExecuteAgent.RunSteps | convex/executeAgent.ts:214-236 | the `running`, engine, `success`, shutdown and catch sequence performs exactly the writes of the run specification; only the task's row changes, and it ends with the last state written |
| ExecuteAgent.ExecuteWithId | convex/executeAgent.ts:30-237 | the whole action (pre-flight, then the run) behaves as the specification says for the task, present or not, and changes only the task's row |
| Tools.AuthConfigId | convex/tools.ts:9-14 | the allowlist has a value exactly for GMAIL, GOOGLECALENDAR, GITHUB and NOTION |
| Tools.SupportedSlugsSpec | convex/tools.ts:107 | the filter keeps exactly the slugs whose upper-case form is allowlisted, in order, and distributes over concatenation |
| Tools.ToolsBySlugsForUserSpec | convex/tools.ts:99-129 | no slugs gives no entries without any query; otherwise there is one entry per connected account, with its toolkit slug, its status lower-cased, and its auth config looked up by the upper-cased slug |
| Tools.LatestAccountSpec | convex/tools.ts:26-29 | in the toolkit map a later account for the same toolkit replaces an earlier one; the kept account is a listed, matching one, and none is kept exactly when none matches |
| Tools.GetAll | convex/tools.ts:16-47 | exactly one entry per allowlisted toolkit, in allowlist order, with the latest matching account's lower-cased status, or "inactive" when there is none |
| ToolLookup.GetByIds | convex/domains/tools.ts:13-25 | the loop computes the found tools in the order of the ids |
| ToolLookup.FoundAppend | convex/domains/tools.ts:17-24 | looking up a concatenation of id lists concatenates the results, so rows come out in id order |
| ToolLookup.FoundSpec | convex/domains/tools.ts:17-24 | the result is never longer than the ids, is one row per id when all exist, and holds a row exactly when some requested id has it; missing ids are skipped without error |
| Encryption.EncryptApiKey | convex/encryption.ts:6-17 | "" encrypts to "" without the cipher; otherwise it gives the cipher's output, and a cipher error becomes "Failed to encrypt API key" |
| Encryption.DecryptApiKey | convex/encryption.ts:19-38 | "" decrypts to ""; a non-empty input never decrypts to ""; an empty plaintext fails with "Failed to decrypt - invalid key or corrupted data"; a cipher error is rethrown unchanged |
| Encryption.RoundTrip | convex/encryption.ts:4-38 | with a cipher whose decryption inverts its encryption under the constant key, decrypting an encrypted key gives back the key |
| Migrations.AddFiles | convex/migrations.ts:10-13 | the agent gets an empty `files` list and nothing else changes |
| Migrations.AddFilesToTask | convex/migrations.ts:15-22 | only an agent copy without `files` gets an empty list, the rest of the copy is kept, and existing files are never touched |
| Migrations.AddFilesToTaskIdempotent | convex/migrations.ts:15-22 | running the task migration twice equals running it once |
| Migrations.PickInRange | convex/migrations.ts:39 | `floor(roll * n)` for a roll in [0, 1) is a position inside a non-empty list |
| Migrations.PickedImageIsConfigured | convex/migrations.ts:31-39 | the image picked is one of the configured ids and is never empty |
| Migrations.ReplaceIconUrl | convex/migrations.ts:24-48 | only `iconUrl` can change; an icon without "/getImage" or an empty id list leaves the agent unchanged; otherwise the image at position floor(roll × count) of the configured ids is picked, and the icon becomes its URL, or stays unchanged when storage has none |
| Migrations.AddFilesToAgents | convex/migrations.ts:10-13 | the migration applies the agent patch to every agent and changes nothing else |
| Migrations.AddFilesToExecutionTasks | convex/migrations.ts:15-22 | the migration applies the task patch to every task and changes nothing else |
| Migrations.ReplaceAgentIconUrls | convex/migrations.ts:24-48 | the migration applies the icon replacement to every agent, each with its own roll |
| Migrations.RunAll | convex/migrations.ts:50-54 | the three migrations run in their listed order |
| Migrations.RunAllGivesFiles | convex/migrations.ts:10-54 | after all three, every agent has an empty `files` list and every task's agent copy has one, no document is added or lost, and the task migration is idempotent on the table |
| LegacyTasks.Create | convex/tasks.ts:30-48 | as written: an unauthenticated caller fails with the identity error; every authenticated call inserts the task, then fails when it schedules `agents:runAgent`, a function the agents module does not define, and the insert is discarded, so no call changes the store |
| LegacyTasks.CreateScheduled | convex/tasks.ts:30-48 | the corrected create inserts a `registered` task of the caller for the agent with no result and time `now`, and schedules exactly one run with delay 0 carrying the task and agent ids |
| LegacyTasks.LegacyPatched | convex/tasks.ts:18-23 | the patch replaces state, result and time and keeps agent and owner |
| LegacyTasks.UpdateTask | convex/tasks.ts:6-28 | as written: every authenticated call fails with "Task not found" and no task ever changes, the owner's included |
| LegacyTasks.UpdateTaskGuarded | convex/tasks.ts:17-26 | the corrected update patches the caller's task and succeeds, and fails with "Task not found" only for a missing or foreign task |
| Text.TrimEmptyIffBlank | convex/executeAgent.ts:145-147 | trimming gives "" exactly when the string is all whitespace |
| Text.TrimShape | convex/executeAgent.ts:145 | the trimmed string is the original with leading and trailing whitespace removed, and nothing else |
| Text.TrimIdempotent | convex/executeAgent.ts:145 | trimming twice equals trimming once |
| Text.DecimalRoundTrip | convex/executeAgent.ts:156 | the decimal rendering of a number is non-empty digits without a leading zero, which read back as the number |
| Text.JoinSplit | convex/migrations.ts:31-33 | joining the pieces of a split with the separator gives back the string |
| Text.NonEmpty | convex/migrations.ts:33 | the filter keeps exactly the non-empty pieces |
| Text.NonEmptySpec | convex/migrations.ts:33 | the filter keeps or drops each piece on its own and distributes over concatenation, so the kept pieces stay in their configured order, which the random pick indexes into |
| Text.ContainsAt | convex/migrations.ts:27 | `includes` holds exactly when the substring occurs at some position |

## Left out

- Workpool and scheduler behaviour (parallelism, retries, redelivery): enqueuing a run or scheduling a call appends one entry to a pending list.
- The agent engine (`Agent`, `run`), the provider factories, `aisdk` and the tracing wrapper are foreign code. The engine is a function from the agent settings and the run input to an output or a thrown message. The tracing wrapper and the distinct id it gets are not modelled.
- Integration-platform calls are functions given as parameters. Their network failures are not modelled.
- AES and SHA-256 are uninterpreted functions of a cipher parameter. The key is the digest of a configured secret.
- Clock, locale date and `Math.random` are parameters: `now`, `today` and a roll in [0, 1) per agent.
- ExecuteAgent.ExecuteWithId: every write uses the same `now`, while the code reads the clock once per write.
- ExecuteAgent.FileItems: when several files have no URL, the error names the first one in file order. `Promise.all` rejects with whichever lookup fails first in time.
- ExecuteAgent.ExecuteWithId: the task document is assumed not to be deleted or created by anyone else during the action.
- Agents.RemoveByIdsCall: the argument validator is modelled only for field names, not for value types. Any rejection gives the leading text "ArgumentValidationError". Which field the message names (missing `id` or extra `ids`), and the object and validator it quotes, are not modelled.
- Users.DeleteFromClerk: the nested call never reaches the callee's own current-user check, because argument validation rejects it first.
- Tools.GetAll: takes the caller's user id directly; resolving it through the internal current-user query is not modelled.
- Text.Upper: maps only ASCII letters; JavaScript's full Unicode case mapping is not modelled.
- Text.Lower: maps only ASCII letters, as `Text.Upper` does.
- Console logging (`console.warn`, `console.error`) has no effect on state and is left out.
- `agents.create` catches and rethrows every error, which changes nothing, so the model has no catch there.
- `agents.getAll` (convex/agents.ts:20-30) and `customModels.getAll` (convex/customModels.ts:96-105) are not modelled. Each runs its own `by_userId` index query over the caller's records. The sets those queries return are `Users.AgentsOf` and `Users.CustomModelsOf`; the ascending order of the agents query is not modelled.
- `users.getById` (convex/users.ts:7-14) is not modelled: it is an unscoped read by id with no caller check. The internal `getByExternalId` and `getCurrentOrThrow` queries wrap `Identity.UserByExternalId` and `Identity.CurrentUserOrThrow`, with no check of their own. The public `getById` and `getByIdWithModel` queries resolve the caller and then call the modelled scoped lookups.
- Platform error messages (`Db.MissingDocument`, `Db.DeleteMissingDocument`, `Identity.NotUnique`, `Agents.ArgumentRejected`) are modelled as their fixed leading text. The document id, query or validator details the platform appends are not modelled.
- HTTP routing and webhook signature checks (`convex/http.ts`), e-mail contacts (`convex/resend/`), and configuration (`convex/config.ts`, `convex/auth.config.ts`, `convex/convex.config.ts`) are left out.
- The model lookups `getModelById` and `getDefaultModel` that convex/agents.ts:3 imports match no export of convex/models.ts, which exports only the `getDefault`, `getAll` and `getById` queries. The model follows the helpers of convex/domains/models.ts:9-20 instead. `getModelById` is a plain read of the `models` table. `getDefaultModel` is a read of the fixed id `DEFAULT_MODEL_ID`, modelled as `Store.defaultModelId` looked up in `models`; a missing entry is the null result. How the build resolves the unmatched import names is not modelled.
- ExecuteAgent.BuildInput: the user message with files also carries a constant `providerData.plugins` entry, the `file-parser` plugin with the `pdf-text` engine (convex/executeAgent.ts:199-207). That constant is not part of the modelled `RunInput`.
- LegacyTasks.Create: the scheduler's error for the undefined `agents:runAgent` is modelled by its function path only; the platform's full wording is not modelled.
- Record shapes follow the code that reads and writes them, not `convex/schema.ts`. The schema is stale: it types agent tools as ids and has no `files`, no `executionTasks` table and no `customModels` table.
- Document ids are natural numbers from one counter, so a higher id means a newer document. `_creationTime` is not stored separately.

## Findings

| source | as written | input that shows it | evidently intended | confidence | as-written member | corrected member |
|---|---|---|---|---|---|---|
| convex/agents.ts:110-120 | the loop returns or throws on its first iteration, so only the first id is examined | ids [a, b], two different agents both owned by the caller: only a is deleted | delete every listed agent, or none when one is missing or foreign | medium, not executed | Agents.RemoveByIds (shown by Agents.RemoveByIdsSkipsLaterIds) | Agents.RemoveAllByIds |
| convex/users.ts:47-49 | the nested call passes `{ ids }` to `agents.removeByIds`, which declares `{ id }` | any external id that belongs to a user: the argument validator rejects the call, the mutation fails, and nothing is deleted | delete the user's agents, execution tasks, custom models and user record | medium, not executed | Users.DeleteFromClerk | Users.DeleteFromClerkCascade |
| convex/tasks.ts:43 | `create` schedules `internal.agents.runAgent`, and convex/agents.ts defines no `runAgent` | any authenticated `create`: scheduling is rejected, the mutation fails, and the inserted task is discarded | insert the task and schedule one run of the agent for it | medium, not executed | LegacyTasks.Create | LegacyTasks.CreateScheduled |
| convex/tasks.ts:17-26 | `throw new ConvexError("Task not found")` is not in an else branch, so it runs after a successful patch too, and the patch is discarded | the owner updates its own existing task: the call fails and the task is unchanged | throw only when the task is missing or foreign | high, not executed | LegacyTasks.UpdateTask | LegacyTasks.UpdateTaskGuarded |
