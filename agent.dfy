/**
 * One call of `transform_agent` as a function of what the environment does:
 * the files it reads, each attempt of each backend call, the YAML parser, and
 * whether writing the result and saving the progress succeed.
 */
module Agent {
  import opened Wrappers
  import opened Selection
  import opened Fence
  import opened Retry
  import opened State

  /** What the environment does during one `transform_agent` call. */
  datatype AgentEnv = AgentEnv(
    v1Content: Option<string>,          // the v1 definition, or None when reading it raised
    templateRead: bool,                 // reading the v2 template succeeded
    ollamaReplies: seq<OllamaReply>,    // one outcome per attempt of the local call
    openaiReplies: seq<OpenAIReply>,    // one outcome per attempt of the (direct or fallback) cloud call
    writeError: Option<string>,         // message of the exception writing the v2 file, if it raised
    saveError: Option<string>,          // message of the exception saving the progress, if it raised
    invalidCopySaved: bool)             // writing the ".invalid" copy succeeded

  /** Every attempt the default retry budget can make has an outcome. */
  predicate WellFormed(env: AgentEnv)
  {
    |env.ollamaReplies| >= MaxRetries && |env.openaiReplies| >= MaxRetries
  }

  /** One invocation of `call_ollama` or `call_openai`, with the model name passed. */
  datatype Call = Call(kind: Backend, model: string)

  datatype Dispatch = Dispatch(content: Option<string>, stats: Stats, calls: seq<Call>)

  datatype Step = Step(ok: bool, world: World, calls: seq<Call>)

  /** The backend `transform_agent` selects for a v1 definition. */
  function Selected(cfg: Config, v1Content: string): Choice
  {
    ModelChoice(AnalyzeComplexity(v1Content), cfg.ollamaAvailable, cfg.ollamaModels)
  }

  /** "Call model with fallback": local first when selected, then the cloud when the local answer is falsy and a client exists. */
  function DispatchSpec(cfg: Config, stats: Stats, choice: Choice, env: AgentEnv): (r: Dispatch)
    requires WellFormed(env)
    ensures 1 <= |r.calls| <= 2 && r.calls[0] == Call(choice.kind, choice.name)
    ensures |r.calls| == 2 <==> choice.kind == Ollama && cfg.openaiClient &&
                                !Truthy(OllamaRun(env.ollamaReplies, MaxRetries).content)
    ensures |r.calls| == 2 ==> r.calls[1] == Call(OpenAI, CloudModel)
  {
    if choice.kind == Ollama then
      var local := OllamaRun(env.ollamaReplies, MaxRetries);
      var afterLocal := AddLocal(stats, local.hits);
      if !Truthy(local.content) && cfg.openaiClient then
        var cloud := OpenAIRun(true, env.openaiReplies, MaxRetries);
        Dispatch(cloud.content, AddCloud(afterLocal, cloud.hits), [Call(Ollama, choice.name), Call(OpenAI, CloudModel)])
      else
        Dispatch(local.content, afterLocal, [Call(Ollama, choice.name)])
    else
      assert choice.kind == OpenAI;
      var cloud := OpenAIRun(cfg.openaiClient, env.openaiReplies, MaxRetries);
      Dispatch(cloud.content, AddCloud(stats, cloud.hits), [Call(OpenAI, choice.name)])
  }

  /** Cleaning, validating and saving a non-empty answer. */
  function Finish(w: World, category: string, agentName: string, answer: string,
                  env: AgentEnv, parse: string -> Option<string>): (r: (bool, World))
    ensures r.1.stats == w.stats && r.1.progress.skipped == w.progress.skipped
    ensures r.0 <==> parse(StripFence(answer)).None? && env.writeError.None? && env.saveError.None?
    ensures r.0 ==> r.1.progress == w.progress.(completed := w.progress.completed + [AgentId(category, agentName)]) &&
                    r.1.disk == w.disk[V2Path(category, agentName) := StripFence(answer)]
  {
    var id := AgentId(category, agentName);
    var path := V2Path(category, agentName);
    var cleaned := StripFence(answer);
    match parse(cleaned)
    case Some(err) =>
      var failed := AppendFailed(w, FailRecord(id, InvalidMessage(err)));
      (false, if env.invalidCopySaved then failed.(disk := failed.disk[path + ".invalid" := cleaned]) else failed)
    case None =>
      match env.writeError
      case Some(e) => (false, AppendFailed(w, FailRecord(id, e)))
      case None =>
        var written := w.(disk := w.disk[path := cleaned],
                          progress := w.progress.(completed := w.progress.completed + [id]));
        match env.saveError
        case None => (true, written)
        case Some(e) => (false, AppendFailed(written, FailRecord(id, e)))
  }

  /** `transform_agent(agent_name, category)`. */
  function AgentStep(cfg: Config, w: World, category: string, agentName: string,
                     env: AgentEnv, parse: string -> Option<string>): (r: Step)
    requires WellFormed(env)
    ensures r.ok ==> AgentId(category, agentName) in r.world.progress.completed
    ensures r.world.progress.skipped == w.progress.skipped
    ensures |r.calls| <= 2 && (r.calls != [] <==> Dispatches(w, category, agentName, env))
  {
    var id := AgentId(category, agentName);
    if id in w.progress.completed then Step(true, w, [])
    else match env.v1Content
      case None => Step(false, AppendFailed(w, FailRecord(id, ReadError)), [])
      case Some(v1) =>
        if !env.templateRead then Step(false, w, [])
        else
          var d := DispatchSpec(cfg, w.stats, Selected(cfg, v1), env);
          var w1 := w.(stats := d.stats);
          if !Truthy(d.content) then Step(false, AppendFailed(w1, FailRecord(id, AllModelsFailed)), d.calls)
          else
            var (ok, w2) := Finish(w1, category, agentName, d.content.value, env, parse);
            Step(ok, w2, d.calls)
  }

  /** The dispatch only happens once both files were read for an agent not yet completed. */
  predicate Dispatches(w: World, category: string, agentName: string, env: AgentEnv)
  {
    AgentId(category, agentName) !in w.progress.completed && env.v1Content.Some? && env.templateRead
  }

  // ----- Properties of one transformation -----

  /** An agent already completed is reported done and nothing changes. */
  lemma SkipCompleted(cfg: Config, w: World, category: string, agentName: string,
                      env: AgentEnv, parse: string -> Option<string>)
    requires WellFormed(env)
    requires AgentId(category, agentName) in w.progress.completed
    ensures AgentStep(cfg, w, category, agentName, env, parse) == Step(true, w, [])
  {
  }

  /**
   * `completed` gains the agent's id at most once and otherwise is untouched; a success
   * leaves the id in it; the only failure that changes it is a failed progress save after
   * the v2 file was written.
   */
  lemma CompletedChanges(cfg: Config, w: World, category: string, agentName: string,
                         env: AgentEnv, parse: string -> Option<string>)
    requires WellFormed(env)
    ensures var id := AgentId(category, agentName);
      var s := AgentStep(cfg, w, category, agentName, env, parse);
      var before := w.progress.completed; var after := s.world.progress.completed;
      (after == before || (id !in before && after == before + [id])) &&
      (s.ok ==> id in after) &&
      (!s.ok && env.saveError.None? ==> after == before) &&
      (after != before ==> (Dispatches(w, category, agentName, env) &&
        var d := DispatchSpec(cfg, w.stats, Selected(cfg, env.v1Content.value), env);
        Truthy(d.content) &&
        s.world.disk == w.disk[V2Path(category, agentName) := StripFence(d.content.value)]))
  {
  }

  /**
   * `failed` gains at most one record, always about this agent; a success adds none,
   * and a failure to read the template returns False with nothing changed.
   */
  lemma FailedChanges(cfg: Config, w: World, category: string, agentName: string,
                      env: AgentEnv, parse: string -> Option<string>)
    requires WellFormed(env)
    ensures var id := AgentId(category, agentName);
      var s := AgentStep(cfg, w, category, agentName, env, parse);
      var before := w.progress.failed; var after := s.world.progress.failed;
      (after == before ||
        (|after| == |before| + 1 && after[..|before|] == before && after[|before|].agent == id)) &&
      (s.ok ==> after == before) &&
      (id !in w.progress.completed && env.v1Content.Some? && !env.templateRead ==>
         !s.ok && s.world == w && s.calls == [])
  {
    var s := AgentStep(cfg, w, category, agentName, env, parse);
    var before := w.progress.failed;
    if s.world.progress.failed != before {
      assert (before + [s.world.progress.failed[|before|]])[..|before|] == before;
    }
  }

  /** An unreadable v1 file returns False, records a read error, and calls no backend. */
  lemma ReadFailure(cfg: Config, w: World, category: string, agentName: string,
                    env: AgentEnv, parse: string -> Option<string>)
    requires WellFormed(env)
    requires AgentId(category, agentName) !in w.progress.completed && env.v1Content.None?
    ensures AgentStep(cfg, w, category, agentName, env, parse) ==
      Step(false, AppendFailed(w, FailRecord(AgentId(category, agentName), ReadError)), [])
  {
  }

  /**
   * The selected backend is called first; a cloud fallback happens exactly when a local
   * model was selected, its answer was falsy and a client exists; a cloud selection
   * never falls back to a local model.
   */
  lemma FallbackRule(cfg: Config, stats: Stats, choice: Choice, env: AgentEnv)
    requires WellFormed(env)
    ensures var d := DispatchSpec(cfg, stats, choice, env);
      1 <= |d.calls| <= 2 && d.calls[0] == Call(choice.kind, choice.name) &&
      (|d.calls| == 2 <==>
         choice.kind == Ollama && !Truthy(OllamaRun(env.ollamaReplies, MaxRetries).content) && cfg.openaiClient) &&
      (|d.calls| == 2 ==> d.calls[1] == Call(OpenAI, CloudModel)) &&
      (choice.kind == OpenAI ==> forall c :: c in d.calls ==> c.kind == OpenAI)
  {
  }

  /** When no backend produced content, exactly one "all models failed" record is added and nothing is written. */
  lemma NoContentFails(cfg: Config, w: World, category: string, agentName: string,
                       env: AgentEnv, parse: string -> Option<string>)
    requires WellFormed(env) && Dispatches(w, category, agentName, env)
    requires !Truthy(DispatchSpec(cfg, w.stats, Selected(cfg, env.v1Content.value), env).content)
    ensures var s := AgentStep(cfg, w, category, agentName, env, parse);
      !s.ok &&
      s.world.progress.failed == w.progress.failed + [FailRecord(AgentId(category, agentName), AllModelsFailed)] &&
      s.world.progress.completed == w.progress.completed && s.world.disk == w.disk
  {
  }

  /** A valid answer that is written and saved completes the agent, and the file holds the fence-stripped answer. */
  lemma SuccessWritesCleaned(cfg: Config, w: World, category: string, agentName: string,
                             env: AgentEnv, parse: string -> Option<string>)
    requires WellFormed(env) && Dispatches(w, category, agentName, env)
    requires var d := DispatchSpec(cfg, w.stats, Selected(cfg, env.v1Content.value), env);
      Truthy(d.content) && parse(StripFence(d.content.value)).None?
    requires env.writeError.None? && env.saveError.None?
    ensures var s := AgentStep(cfg, w, category, agentName, env, parse);
      var d := DispatchSpec(cfg, w.stats, Selected(cfg, env.v1Content.value), env);
      s.ok && s.world.progress.completed == w.progress.completed + [AgentId(category, agentName)] &&
      s.world.progress.failed == w.progress.failed &&
      s.world.disk == w.disk[V2Path(category, agentName) := StripFence(d.content.value)]
  {
  }

  /** Finishing never changes the counters or `skipped`. */
  lemma FinishFrame(w: World, category: string, agentName: string, answer: string,
                    env: AgentEnv, parse: string -> Option<string>)
    ensures var r := Finish(w, category, agentName, answer, env, parse);
      r.1.stats == w.stats && r.1.progress.skipped == w.progress.skipped
  {
  }

  /** The dispatch only adds to the counters, two cents per counted cloud call, and no cloud call is counted without a client. */
  lemma DispatchStats(cfg: Config, stats: Stats, choice: Choice, env: AgentEnv)
    requires WellFormed(env)
    ensures var a := DispatchSpec(cfg, stats, choice, env).stats;
      a.localUsed >= stats.localUsed && a.cloudUsed >= stats.cloudUsed &&
      a.totalCostCents - stats.totalCostCents == CloudCallCents * (a.cloudUsed - stats.cloudUsed) &&
      (!cfg.openaiClient ==> a.cloudUsed == stats.cloudUsed)
  {
  }

  /**
   * A transformation never touches `skipped`, never lowers a counter, adds exactly two
   * cents per cloud call counted, and without a client counts no cloud call.
   */
  lemma StatsAndSkipped(cfg: Config, w: World, category: string, agentName: string,
                        env: AgentEnv, parse: string -> Option<string>)
    requires WellFormed(env)
    ensures var s := AgentStep(cfg, w, category, agentName, env, parse);
      var a := s.world.stats; var b := w.stats;
      s.world.progress.skipped == w.progress.skipped &&
      a.localUsed >= b.localUsed && a.cloudUsed >= b.cloudUsed &&
      a.totalCostCents - b.totalCostCents == CloudCallCents * (a.cloudUsed - b.cloudUsed) &&
      (!cfg.openaiClient ==> a.cloudUsed == b.cloudUsed)
  {
    if Dispatches(w, category, agentName, env) {
      var d := DispatchSpec(cfg, w.stats, Selected(cfg, env.v1Content.value), env);
      DispatchStats(cfg, w.stats, Selected(cfg, env.v1Content.value), env);
      if Truthy(d.content) {
        FinishFrame(w.(stats := d.stats), category, agentName, d.content.value, env, parse);
      }
    }
  }
}
