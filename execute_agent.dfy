/** The `executeWithId` action: checks that the agent's tools are authorised, resolves
    the model snapshot into provider settings, builds the instructions and the run
    input, and records the run's progress in the task's `state` through `updateTask`.
    The tool platform, the cipher, file storage, the agent engine, the telemetry
    client's shutdown, the date and the clock are parameters. */
module ExecuteAgent {
  import opened Wrappers
  import opened Records
  import opened Db
  import opened Text
  import Tools
  import Encryption
  import ExecutionTasks

  const InvalidModelType := "Invalid model type"
  const InvalidModelProvider := "Invalid model provider"
  const MissingToolsPrefix := "Tools missing authentication: "
  /** The goal used when the agent's goal is blank (the typo is the program's). */
  const DefaultGoal := "Execite steps provided by user"
  /** The text of the instructions before the goal. */
  const InstructionsHead := "You are an AI Agent made by Bluerage Software that executes user defined steps in a given order using tools provided alongside.\nYour goal is: "
  const StepsHeader := "Execute these steps: \n"
  const NoResult := "No result"
  const AgentName := "StepsFollowingAgent"
  /** The message of the TypeError thrown by reading `length` of an absent `files` field. */
  const FilesUndefined := "Cannot read properties of undefined (reading 'length')"

  function FileNotFound(storageId: string): string {
    "File not found for storageId " + storageId
  }

  // ----- Tools -----

  /** The slug of each element, in order: of the agent's tool references, and of the
      entries the tool lookup returned. */
  function Slugs<T>(xs: seq<T>, slug: T -> string): (r: seq<string>)
    ensures |r| == |xs| && forall i :: 0 <= i < |xs| ==> r[i] == slug(xs[i])
  {
    if xs == [] then [] else Slugs(xs[..|xs| - 1], slug) + [slug(xs[|xs| - 1])]
  }

  function RefSlug(t: ToolRef): string {
    t.slug
  }

  function EntrySlug(e: Tools.ToolkitEntry): string {
    e.slug
  }

  /** `v` occurs in `xs` before position `q`. */
  predicate Before(xs: seq<string>, v: string, q: int)
    requires 0 <= q <= |xs|
  {
    v in xs[..q]
  }

  /** The requested slugs that are not available: each once, in the order of their
      first occurrence among the requested ones (a `Set` keeps insertion order). */
  function MissingSlugs(requested: seq<string>, available: seq<string>): (r: seq<string>)
    ensures forall v :: v in r <==> v in requested && v !in available
    ensures forall i, j :: 0 <= i < j < |r| ==> r[i] != r[j]
    ensures forall i, j, q :: 0 <= i < j < |r| && 0 <= q < |requested| && requested[q] == r[j] ==> Before(requested, r[i], q)
  {
    if requested == [] then []
    else
      var n := |requested| - 1;
      var init := requested[..n];
      var x := requested[n];
      assert requested == init + [x];
      var rest := MissingSlugs(init, available);
      if x in init || x in available then
        assert forall q :: 0 <= q < n ==> requested[..q] == init[..q];
        rest
      else
        assert forall q :: 0 <= q < n ==> requested[..q] == init[..q];
        assert forall v :: v in rest ==> v in requested[..n];
        rest + [x]
  }

  function MissingMessage(missing: seq<string>): string {
    MissingToolsPrefix + Join(missing, ", ")
  }

  /** The tools of every requested toolkit, concatenated in request order; a null
      answer contributes nothing. */
  function FetchedTools(composio: Tools.Composio, userId: UserId, slugs: seq<string>): seq<Tools.ToolHandle> {
    if slugs == [] then []
    else
      var n := |slugs| - 1;
      FetchedTools(composio, userId, slugs[..n]) + composio.getTools(userId, slugs[n]).GetOr([])
  }

  /** The collaborators of the action. `engine` is the agent run; `shutdownAfterRun`
      and `shutdownInCatch` the outcomes of the two calls flushing the telemetry client
      (after the `success` write, and at the end of the `catch`); `today` the locale
      date; `now` the clock. */
  datatype Env = Env(
    authIds: Tools.AuthConfigIds,
    composio: Tools.Composio,
    cipher: Encryption.Cipher,
    storageUrl: string -> Option<string>,
    engine: (AgentConfig, RunInput) -> EngineOutcome,
    shutdownAfterRun: Outcome,
    shutdownInCatch: Outcome,
    today: string,
    now: int)

  /** The `tools` handed to the engine: undefined for an agent without tools, an error
      when some requested toolkit is not connected, else the fetched tools (undefined
      when there are none). */
  function ResolveTools(env: Env, agent: Agent): Result<Option<seq<Tools.ToolHandle>>> {
    var slugs := Slugs(agent.tools, RefSlug);
    if |slugs| == 0 then Ok(None)
    else
      var available := Slugs(Tools.ToolsBySlugsForUser(env.authIds, env.composio, agent.userId, slugs), EntrySlug);
      var missing := MissingSlugs(slugs, available);
      if |missing| > 0 then Err(MissingMessage(missing))
      else
        var all := FetchedTools(env.composio, agent.userId, slugs);
        Ok(if |all| > 0 then Some(all) else None)
  }

  /** An agent without tools needs no platform at all: whatever the platform would
      answer, it runs with `tools` undefined. A tool-using agent fails exactly when a
      requested slug is not among the returned ones, and then with the missing slugs
      joined by ", ". */
  lemma ResolveToolsSpec(env: Env, agent: Agent, other: Tools.Composio)
    ensures agent.tools == [] ==> ResolveTools(env, agent) == ResolveTools(env.(composio := other), agent) == Ok(None)
    ensures agent.tools != [] ==>
      var slugs := Slugs(agent.tools, RefSlug);
      var available := Slugs(Tools.ToolsBySlugsForUser(env.authIds, env.composio, agent.userId, slugs), EntrySlug);
      && (ResolveTools(env, agent).Err? <==> exists i :: 0 <= i < |agent.tools| && agent.tools[i].slug !in available)
      && (ResolveTools(env, agent).Err? ==> ResolveTools(env, agent).msg == MissingMessage(MissingSlugs(slugs, available)))
  {
    if agent.tools != [] {
      var slugs := Slugs(agent.tools, RefSlug);
      var available := Slugs(Tools.ToolsBySlugsForUser(env.authIds, env.composio, agent.userId, slugs), EntrySlug);
      var missing := MissingSlugs(slugs, available);
      if exists i :: 0 <= i < |agent.tools| && agent.tools[i].slug !in available {
        var i :| 0 <= i < |agent.tools| && agent.tools[i].slug !in available;
        assert slugs[i] in missing;
      }
      if |missing| > 0 {
        assert missing[0] in slugs;
      }
    }
  }

  // ----- Model -----

  /** The settings a provider factory is created with. */
  datatype ProviderConfig = ProviderConfig(provider: string, modelId: string, apiKey: Option<string>, baseUrl: Option<string>)

  predicate KnownProvider(p: string) {
    p == "openrouter" || p == "openai" || p == "anthropic" || p == "xai"
  }

  /** The provider settings of a model snapshot: a platform model brings no key and no
      base URL, a custom model both; the key is decrypted only when non-empty, and the
      base URL is used only by the OpenAI provider and only when non-empty. */
  function ResolveModel(c: Encryption.Cipher, m: ModelDoc): (r: Result<ProviderConfig>)
    ensures m.kind != "model" && m.kind != "customModel" ==> r == Err(InvalidModelType)
    ensures (m.kind == "model" || m.kind == "customModel") && !KnownProvider(m.provider) ==> r == Err(InvalidModelProvider)
    ensures m.kind == "model" && KnownProvider(m.provider) ==> r == Ok(ProviderConfig(m.provider, m.modelId, None, None))
    ensures r.Ok? ==> r.value.provider == m.provider && r.value.modelId == m.modelId && KnownProvider(m.provider)
    ensures r.Ok? && r.value.baseUrl.Some? ==>
      m.kind == "customModel" && m.provider == "openai" && r.value.baseUrl == m.baseUrl && m.baseUrl.value != []
    ensures r.Ok? && m.kind == "customModel" && m.provider == "openai" && m.baseUrl.Some? && m.baseUrl.value != [] ==>
      r.value.baseUrl == m.baseUrl
    ensures m.kind == "customModel" && KnownProvider(m.provider) ==>
      var key := m.encryptedApiKey.GetOr([]);
      && (key == [] ==> r.Ok? && r.value.apiKey.None?)
      && (key != [] ==> (r.Ok? <==> Encryption.DecryptApiKey(c, key).Ok?))
      && (key != [] && r.Ok? ==> r.value.apiKey == Some(Encryption.DecryptApiKey(c, key).value))
      && (key != [] && r.Err? ==> r.msg == Encryption.DecryptApiKey(c, key).msg)
  {
    if m.kind != "model" && m.kind != "customModel" then Err(InvalidModelType)
    else
      var key := if m.kind == "model" then None else m.encryptedApiKey;
      var url := if m.kind == "model" then None else m.baseUrl;
      if !KnownProvider(m.provider) then Err(InvalidModelProvider)
      else
        var decrypted := if key.Some? && key.value != [] then Encryption.DecryptApiKey(c, key.value) else Ok([]);
        if decrypted.Err? then Err(decrypted.msg)
        else
          var apiKey := if decrypted.value != [] then Some(decrypted.value) else None;
          var baseUrl := if m.provider == "openai" && url.Some? && url.value != [] then url else None;
          Ok(ProviderConfig(m.provider, m.modelId, apiKey, baseUrl))
  }

  // ----- Instructions -----

  /** The goal in the instructions: the agent's goal trimmed, or the default when blank. */
  function Goal(goal: string): (r: string)
    ensures IsBlank(goal) ==> r == DefaultGoal
    ensures !IsBlank(goal) ==> r == Trim(goal) && r != [] && !IsSpace(r[0]) && !IsSpace(r[|r| - 1])
  {
    TrimEmptyIffBlank(goal);
    var trimmed := Trim(goal);
    if trimmed == "" then DefaultGoal else trimmed
  }

  function Instructions(goal: string, today: string): string {
    InstructionsHead + Goal(goal) + ".\nCurrent date is: " + today + ". Respond in user language."
  }

  /** Step number `n` (one-based) with its text. */
  function StepLine(n: nat, value: string): string {
    Decimal(n) + ". " + value
  }

  /** The numbered step lines. */
  function StepLines(steps: seq<Step>): seq<string> {
    if steps == [] then []
    else
      var n := |steps| - 1;
      StepLines(steps[..n]) + [StepLine(n + 1, steps[n].value)]
  }

  /** There is one line per step, in step order, numbered from 1. */
  lemma {:induction false} StepLinesSpec(steps: seq<Step>)
    ensures |StepLines(steps)| == |steps|
    ensures forall i :: 0 <= i < |steps| ==> StepLines(steps)[i] == StepLine(i + 1, steps[i].value)
  {
    if steps != [] {
      var n := |steps| - 1;
      StepLinesSpec(steps[..n]);
    }
  }

  /** A step line starts with the decimal digits of its number, which read back as that
      number, followed by ". " and the step's text. */
  lemma StepLineNumber(n: nat, value: string)
    ensures var d := Decimal(n); var line := StepLine(n, value);
      && line[..|d|] == d && line[|d|..] == ". " + value
      && (forall i :: 0 <= i < |d| ==> IsDigit(d[i])) && DigitsValue(line[..|d|]) == n
  {
    DecimalRoundTrip(n);
    var d := Decimal(n);
    assert StepLine(n, value)[..|d|] == d;
  }

  function BaseInstruction(steps: seq<Step>): string {
    StepsHeader + Join(StepLines(steps), "\n")
  }

  /** Adding a step appends one line to the instruction: after a newline, unless it is
      the first step, the new step's text numbered one past the previous steps. */
  lemma {:induction false} BaseInstructionSnoc(steps: seq<Step>, x: Step)
    ensures steps == [] ==> BaseInstruction(steps + [x]) == StepsHeader + StepLine(1, x.value)
    ensures steps != [] ==>
      BaseInstruction(steps + [x]) == BaseInstruction(steps) + "\n" + StepLine(|steps| + 1, x.value)
  {
    var all := steps + [x];
    var line := StepLine(|steps| + 1, x.value);
    assert all[..|steps|] == steps;
    assert StepLines(all) == StepLines(steps) + [line];
    if steps == [] {
      assert StepLines(all) == [line];
    } else {
      StepLinesSpec(steps);
      JoinSnoc(StepLines(steps), line, "\n");
    }
  }

  // ----- Files -----

  /** One item of a message's `content`; `filename` is the provider data. */
  datatype InputItem =
    | InputText(text: string)
    | InputImage(image: string, filename: Option<string>)
    | InputFile(file: string, filename: Option<string>)

  /** The run input: the instruction text, or one user message with content items. */
  datatype RunInput = Plain(text: string) | UserMessage(content: seq<InputItem>)

  /** The content item of a file with its URL. */
  function FileItem(f: AgentFile, url: string): (r: InputItem)
    ensures r.InputImage? <==> f.kind == Image
    ensures r.InputImage? ==> r.image == url
    ensures r.InputFile? ==> r.file == url
    ensures !r.InputText? && (r.filename.Some? <==> f.name != []) && (r.filename.Some? ==> r.filename.value == f.name)
  {
    var filename := if f.name != [] then Some(f.name) else None;
    match f.kind
    case Image => InputImage(url, filename)
    case File => InputFile(url, filename)
  }

  /** The content items of the files, in file order; the first file without a URL fails. */
  function FileItems(storageUrl: string -> Option<string>, files: seq<AgentFile>): (r: Result<seq<InputItem>>)
    ensures r.Ok? <==> forall i :: 0 <= i < |files| ==> storageUrl(files[i].storageId).Some?
    ensures r.Ok? ==> |r.value| == |files|
    ensures r.Ok? ==> forall i :: 0 <= i < |files| ==> r.value[i] == FileItem(files[i], storageUrl(files[i].storageId).value)
    ensures r.Err? ==> exists k :: 0 <= k < |files| && FirstWithoutUrl(storageUrl, files, k) && r.msg == FileNotFound(files[k].storageId)
  {
    if files == [] then Ok([])
    else
      var n := |files| - 1;
      var init := files[..n];
      assert forall i :: 0 <= i < n ==> files[i] == init[i];
      match FileItems(storageUrl, init)
      case Err(e) =>
        var k :| 0 <= k < n && FirstWithoutUrl(storageUrl, init, k) && e == FileNotFound(init[k].storageId);
        assert FirstWithoutUrl(storageUrl, files, k);
        Err(e)
      case Ok(items) =>
        match storageUrl(files[n].storageId)
        case None =>
          assert FirstWithoutUrl(storageUrl, files, n);
          Err(FileNotFound(files[n].storageId))
        case Some(url) => Ok(items + [FileItem(files[n], url)])
  }

  /** File `k` is the first one storage has no URL for. */
  predicate FirstWithoutUrl(storageUrl: string -> Option<string>, files: seq<AgentFile>, k: int)
    requires 0 <= k < |files|
  {
    storageUrl(files[k].storageId).None? && forall j :: 0 <= j < k ==> storageUrl(files[j].storageId).Some?
  }

  /** The run input: the instruction text alone when there are no files, else one user
      message whose first item is that text followed by one item per file. An agent
      without the `files` field fails on reading its length. */
  function BuildInput(storageUrl: string -> Option<string>, agent: Agent): (r: Result<RunInput>)
    ensures agent.files.None? ==> r == Err(FilesUndefined)
    ensures agent.files == Some([]) ==> r == Ok(Plain(BaseInstruction(agent.steps)))
    ensures r.Ok? && r.value.UserMessage? ==>
      && agent.files.Some? && |r.value.content| == |agent.files.value| + 1
      && r.value.content[0] == InputText(BaseInstruction(agent.steps))
    ensures agent.files.Some? && agent.files.value != [] ==>
      var items := FileItems(storageUrl, agent.files.value);
      && (r.Ok? <==> items.Ok?)
      && (items.Ok? ==> r == Ok(UserMessage([InputText(BaseInstruction(agent.steps))] + items.value)))
      && (items.Err? ==> r == Err(items.msg))
  {
    match agent.files
    case None => Err(FilesUndefined)
    case Some(files) =>
      if |files| == 0 then Ok(Plain(BaseInstruction(agent.steps)))
      else
        match FileItems(storageUrl, files)
        case Err(e) => Err(e)
        case Ok(items) => Ok(UserMessage([InputText(BaseInstruction(agent.steps))] + items))
  }

  // ----- The run -----

  datatype AgentConfig = AgentConfig(instructions: string, name: string, tools: Option<seq<Tools.ToolHandle>>, model: ProviderConfig)

  /** What `run` does: produces a final output (possibly none) or throws. */
  datatype EngineOutcome = Completed(finalOutput: Option<string>) | Threw(msg: string)

  datatype Prepared = Prepared(config: AgentConfig, input: RunInput)

  /** Everything the action computes before the `running` write, or the first error. */
  function Prepare(task: ExecutionTask, env: Env): Result<Prepared> {
    match ResolveTools(env, task.agent)
    case Err(e) => Err(e)
    case Ok(tools) =>
      match ResolveModel(env.cipher, task.model)
      case Err(e) => Err(e)
      case Ok(model) =>
        var config := AgentConfig(Instructions(task.agent.goal, env.today), AgentName, tools, model);
        match BuildInput(env.storageUrl, task.agent)
        case Err(e) => Err(e)
        case Ok(input) => Ok(Prepared(config, input))
  }

  /** The pre-flight checks fail in source order: tools first, then the model, then the
      files; an invalid model type or provider fails whatever the files are. */
  lemma PrepareOrder(task: ExecutionTask, env: Env)
    ensures ResolveTools(env, task.agent).Err? ==> Prepare(task, env) == Err(ResolveTools(env, task.agent).msg)
    ensures ResolveTools(env, task.agent).Ok? && ResolveModel(env.cipher, task.model).Err? ==>
      Prepare(task, env) == Err(ResolveModel(env.cipher, task.model).msg)
    ensures ResolveTools(env, task.agent).Ok? && ResolveModel(env.cipher, task.model).Ok? ==>
      (Prepare(task, env).Ok? <==> BuildInput(env.storageUrl, task.agent).Ok?)
    ensures Prepare(task, env).Ok? ==>
      && Prepare(task, env).value.config.tools == ResolveTools(env, task.agent).value
      && Prepare(task, env).value.config.model == ResolveModel(env.cipher, task.model).value
      && Prepare(task, env).value.input == BuildInput(env.storageUrl, task.agent).value
  {
  }

  /** The state writes the action performs, whether `run` was called, and the error that
      escapes the action (when the error write or the shutdown in the `catch` throws). */
  datatype Execution = Execution(writes: seq<TaskState>, ran: bool, escaped: Option<string>)

  /** The `catch` block after `done` writes: writes the error, then shuts down telemetry
      a second time.
      When the task document is gone the error write itself throws. */
  function Catch(msg: string, env: Env, present: bool, done: seq<TaskState>, ran: bool): Execution {
    if !present then Execution(done, ran, Some(MissingDocument))
    else Execution(done + [Error(msg)], ran, if env.shutdownInCatch.Fail? then Some(env.shutdownInCatch.msg) else None)
  }

  /** The action after the pre-flight steps gave `pre`, on a task whose document exists
      (`present`) or not. */
  function Run(pre: Result<Prepared>, env: Env, present: bool): Execution {
    match pre
    case Err(e) => Catch(e, env, present, [], false)
    case Ok(p) =>
      if !present then Catch(MissingDocument, env, false, [], false)
      else
        match env.engine(p.config, p.input)
        case Threw(e) => Catch(e, env, true, [Running], true)
        case Completed(output) =>
          var done := [Running, Success(output.GetOr(NoResult))];
          match env.shutdownAfterRun
          case Pass => Execution(done, true, None)
          case Fail(e) => Catch(e, env, true, done, true)
  }

  /** The action's behaviour on a task whose document exists (`present`) or not. */
  function Handle(task: ExecutionTask, env: Env, present: bool): Execution {
    Run(Prepare(task, env), env, present)
  }

  /** The only write sequences are [error], [running, error], [running, success] and
      [running, success, error]; a task whose document is gone gets no write at all. */
  lemma WriteShapes(pre: Result<Prepared>, env: Env, present: bool)
    ensures var w := Run(pre, env, present).writes;
      && (!present ==> w == [] && Run(pre, env, present).escaped == Some(MissingDocument))
      && (present ==>
          || (|w| == 1 && w[0].Error?)
          || (|w| == 2 && w[0] == Running && w[1].Error?)
          || (|w| == 2 && w[0] == Running && w[1].Success?)
          || (|w| == 3 && w[0] == Running && w[1].Success? && w[2].Error?))
  {
  }

  /** Every pre-flight failure happens before the `running` write: the task goes from
      `registered` straight to `error` with that failure's message, and the engine is
      never called. Conversely the engine runs exactly when pre-flight succeeds. */
  lemma PreFlightFailureSkipsRun(pre: Result<Prepared>, env: Env)
    ensures pre.Err? ==> Run(pre, env, true).writes == [Error(pre.msg)] && !Run(pre, env, true).ran
    ensures Run(pre, env, true).ran <==> pre.Ok?
    ensures Run(pre, env, true).writes[0] == Running <==> pre.Ok?
  {
  }

  /** A completed run writes `success` with the final output, or "No result" only when
      there is none; the success is not final: when the shutdown after it throws, the
      `catch` overwrites it with `error`, and the action still completes unless the
      second shutdown throws too. */
  lemma SuccessThenShutdown(p: Prepared, env: Env, output: Option<string>)
    requires env.engine(p.config, p.input) == Completed(output)
    ensures Run(Ok(p), env, true).writes[..2] == [Running, Success(output.GetOr(NoResult))]
    ensures output.Some? ==> Run(Ok(p), env, true).writes[1] == Success(output.value)
    ensures output.None? ==> Run(Ok(p), env, true).writes[1] == Success(NoResult)
    ensures env.shutdownAfterRun.Pass? ==> Run(Ok(p), env, true) == Execution([Running, Success(output.GetOr(NoResult))], true, None)
    ensures env.shutdownAfterRun.Fail? ==>
      Run(Ok(p), env, true).writes == [Running, Success(output.GetOr(NoResult)), Error(env.shutdownAfterRun.msg)]
    ensures env.shutdownAfterRun.Fail? ==>
      Run(Ok(p), env, true).escaped == if env.shutdownInCatch.Fail? then Some(env.shutdownInCatch.msg) else None
  {
  }

  /** A run that throws leaves the task in `error` with the engine's message. */
  lemma EngineFailure(p: Prepared, env: Env, msg: string)
    requires env.engine(p.config, p.input) == Threw(msg)
    ensures Run(Ok(p), env, true).writes == [Running, Error(msg)] && Run(Ok(p), env, true).ran
  {
  }

  /** The tool check and lookup as the action performs it: `tools` is assigned in
      either branch, and the missing-tools `throw` is an early return of the error. */
  method ToolsStep(env: Env, agent: Agent) returns (r: Result<Option<seq<Tools.ToolHandle>>>)
    ensures r == ResolveTools(env, agent)
  {
    var tools: Option<seq<Tools.ToolHandle>>;
    var requested := Slugs(agent.tools, RefSlug);
    if |requested| == 0 {
      tools := None;
    } else {
      var available := Slugs(Tools.ToolsBySlugsForUser(env.authIds, env.composio, agent.userId, requested), EntrySlug);
      var missing := MissingSlugs(requested, available);
      if |missing| > 0 {
        return Err(MissingMessage(missing));
      }
      var aggregated: seq<Tools.ToolHandle> := [];
      for i := 0 to |requested|
        invariant aggregated == FetchedTools(env.composio, agent.userId, requested[..i])
      {
        assert requested[..i + 1][..i] == requested[..i];
        aggregated := aggregated + env.composio.getTools(agent.userId, requested[i]).GetOr([]);
      }
      assert requested[..|requested|] == requested;
      tools := if |aggregated| > 0 then Some(aggregated) else None;
    }
    r := Ok(tools);
  }

  /** The two switches on the model snapshot as the action performs them: the key and
      base URL are assigned per model type, then the provider settings per provider. */
  method ModelStep(c: Encryption.Cipher, m: ModelDoc) returns (r: Result<ProviderConfig>)
    ensures r == ResolveModel(c, m)
  {
    var encryptedApiKey: Option<string>;
    var baseUrl: Option<string>;
    if m.kind == "model" {
      encryptedApiKey, baseUrl := None, None;
    } else if m.kind == "customModel" {
      encryptedApiKey, baseUrl := m.encryptedApiKey, m.baseUrl;
    } else {
      return Err(InvalidModelType);
    }
    if !KnownProvider(m.provider) {
      return Err(InvalidModelProvider);
    }
    var apiKey: Option<string> := None;
    if encryptedApiKey.Some? && encryptedApiKey.value != [] {
      var decrypted := Encryption.DecryptApiKey(c, encryptedApiKey.value);
      if decrypted.Err? {
        return Err(decrypted.msg);
      }
      if decrypted.value != [] {
        apiKey := Some(decrypted.value);
      }
    }
    if m.provider != "openai" || baseUrl.None? || baseUrl.value == [] {
      baseUrl := None;
    }
    r := Ok(ProviderConfig(m.provider, m.modelId, apiKey, baseUrl));
  }

  /** The run input as the action builds it: the plain instruction, replaced by one user
      message when there are files, whose URLs are looked up in file order. */
  method InputStep(storageUrl: string -> Option<string>, agent: Agent) returns (r: Result<RunInput>)
    ensures r == BuildInput(storageUrl, agent)
  {
    var base := BaseInstruction(agent.steps);
    var input := Plain(base);
    if agent.files.None? {
      return Err(FilesUndefined);
    }
    var files := agent.files.value;
    if |files| > 0 {
      var items: seq<InputItem> := [];
      for i := 0 to |files|
        invariant FileItems(storageUrl, files[..i]) == Ok(items)
      {
        assert files[..i + 1][..i] == files[..i];
        var url := storageUrl(files[i].storageId);
        if url.None? {
          assert FileItems(storageUrl, files[..i + 1]).Err?;
          FileItemsPrefix(storageUrl, files, i + 1);
          return Err(FileNotFound(files[i].storageId));
        }
        items := items + [FileItem(files[i], url.value)];
      }
      assert files[..|files|] == files;
      input := UserMessage([InputText(base)] + items);
    }
    r := Ok(input);
  }

  /** Once a prefix of the files fails, the whole list fails with the same error. */
  lemma {:induction false} FileItemsPrefix(storageUrl: string -> Option<string>, files: seq<AgentFile>, k: nat)
    requires k <= |files|
    requires FileItems(storageUrl, files[..k]).Err?
    ensures FileItems(storageUrl, files) == FileItems(storageUrl, files[..k])
    decreases |files| - k
  {
    if k < |files| {
      assert files[..k + 1][..k] == files[..k];
      FileItemsPrefix(storageUrl, files, k + 1);
    } else {
      assert files[..k] == files;
    }
  }

  /** The pre-flight steps in the action's order; a `throw` is an early return. */
  method PreFlight(task: ExecutionTask, env: Env) returns (r: Result<Prepared>)
    ensures r == Prepare(task, env)
  {
    var tools := ToolsStep(env, task.agent);
    if tools.Err? {
      return Err(tools.msg);
    }
    var model := ModelStep(env.cipher, task.model);
    if model.Err? {
      return Err(model.msg);
    }
    var config := AgentConfig(Instructions(task.agent.goal, env.today), AgentName, tools.value, model.value);
    var input := InputStep(env.storageUrl, task.agent);
    if input.Err? {
      return Err(input.msg);
    }
    r := Ok(Prepared(config, input.value));
  }

  /** The action after its pre-flight steps: writes `running`, runs the engine, writes
      `success` and shuts telemetry down, with every error of that sequence caught and
      written as `error`. Only the task's row changes, and it ends with the last state
      written. */
  method RunSteps(s: Store, id: ExecutionTaskId, pre: Result<Prepared>, env: Env) returns (e: Execution)
    requires s.Valid()
    modifies s
    ensures s.Valid()
    ensures e == Run(pre, env, id in old(s.executionTasks))
    ensures id !in old(s.executionTasks) ==> s.Snapshot() == old(s.Snapshot())
    ensures id in old(s.executionTasks) ==>
      && |e.writes| > 0
      && s.Snapshot() == old(s.Snapshot()).(executionTasks := old(s.executionTasks)[id :=
           ExecutionTasks.Patched(old(s.executionTasks)[id], e.writes[|e.writes| - 1], env.now)])
  {
    var writes: seq<TaskState> := [];
    var ran := false;
    var failure: string;
    match pre {
      case Err(m) =>
        failure := m;
      case Ok(p) =>
        var running := ExecutionTasks.UpdateTask(s, id, Running, env.now);
        match running {
          case Fail(m) =>
            failure := m;
          case Pass =>
            writes := [Running];
            ran := true;
            var result := env.engine(p.config, p.input);
            match result {
              case Threw(m) =>
                failure := m;
              case Completed(output) =>
                var success := ExecutionTasks.UpdateTask(s, id, Success(output.GetOr(NoResult)), env.now);
                match success {
                  case Fail(m) =>
                    failure := m;
                  case Pass =>
                    writes := writes + [Success(output.GetOr(NoResult))];
                    match env.shutdownAfterRun {
                      case Pass =>
                        return Execution(writes, ran, None);
                      case Fail(m) =>
                        failure := m;
                    }
                }
            }
        }
    }
    var error := ExecutionTasks.UpdateTask(s, id, Error(failure), env.now);
    match error {
      case Fail(m) =>
        return Execution(writes, ran, Some(m));
      case Pass =>
        writes := writes + [Error(failure)];
    }
    e := Execution(writes, ran, if env.shutdownInCatch.Fail? then Some(env.shutdownInCatch.msg) else None);
  }

  /** `executeWithId`: the pre-flight steps, then the run with its state writes; the
      action behaves as `Handle` says. */
  method ExecuteWithId(s: Store, job: QueuedExecution, env: Env) returns (e: Execution)
    requires s.Valid()
    modifies s
    ensures s.Valid()
    ensures e == Handle(job.task, env, job.taskId in old(s.executionTasks))
    ensures job.taskId !in old(s.executionTasks) ==> s.Snapshot() == old(s.Snapshot())
    ensures job.taskId in old(s.executionTasks) ==>
      && |e.writes| > 0
      && s.Snapshot() == old(s.Snapshot()).(executionTasks := old(s.executionTasks)[job.taskId :=
           ExecutionTasks.Patched(old(s.executionTasks)[job.taskId], e.writes[|e.writes| - 1], env.now)])
  {
    var prepared := PreFlight(job.task, env);
    e := RunSteps(s, job.taskId, prepared, env);
  }
}
