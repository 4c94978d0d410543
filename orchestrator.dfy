/**
 * `FastOrchestrator`: the object whose methods transform v1 agent definitions,
 * updating its usage counters, its progress record and the v2 files in place.
 * Each method is proved to do what the matching specification function says.
 */
module Orchestrator {
  import opened Wrappers
  import opened Selection
  import opened Fence
  import opened Retry
  import opened State
  import opened Agent
  import opened Tally

  class FastOrchestrator {
    /** Whether an OpenAI client was created (an API key was set). */
    const openaiClient: bool
    /** Whether Ollama answered at start-up. */
    const ollamaAvailable: bool
    /** The local models Ollama listed; empty when it is not available. */
    const ollamaModels: seq<string>

    var stats: Stats
    var progress: Progress
    /** The v2 files written so far, by path. */
    var disk: map<string, string>

    function Cfg(): Config
    {
      Config(openaiClient, ollamaAvailable, ollamaModels)
    }

    function Snapshot(): World
      reads this
    {
      World(stats, progress, disk)
    }

    /** `__init__`, with the environment variable, Ollama's answers and the progress file given. */
    constructor (apiKeySet: bool, ollamaUp: bool, listed: seq<string>, saved: Option<Progress>,
                 files: map<string, string>)
      ensures openaiClient == apiKeySet && ollamaAvailable == ollamaUp
      ensures ollamaModels == (if ollamaUp then listed else [])
      ensures stats == NoStats
      ensures progress == (if saved.Some? then saved.value else EmptyProgress)
      ensures disk == files
    {
      openaiClient := apiKeySet;
      ollamaAvailable := ollamaUp;
      ollamaModels := if ollamaUp then listed else [];
      stats := NoStats;
      progress := if saved.Some? then saved.value else EmptyProgress;
      disk := files;
    }

    /** `select_model`. */
    method SelectModel(complexity: real) returns (name: string, kind: Backend)
      ensures Choice(name, kind) == ModelChoice(complexity, ollamaAvailable, ollamaModels)
    {
      if complexity < LocalThreshold && ollamaAvailable && |ollamaModels| > 0 {
        var i := 0;
        while i < |Preferred|
          invariant 0 <= i <= |Preferred|
          invariant FirstPreferred(ollamaModels, i) == FirstPreferred(ollamaModels, 0)
        {
          if Preferred[i] in ollamaModels {
            return Preferred[i], Ollama;
          }
          i := i + 1;
        }
      }
      return CloudModel, OpenAI;
    }

    /**
     * `call_openai`: returns the answer, the number of requests sent and the sleeps
     * between them; counts a cloud call and its cost for every request that returned.
     */
    method CallOpenAI(model: string, replies: seq<OpenAIReply>, maxRetries: int)
      returns (content: Option<string>, attempts: nat, backoff: seq<nat>)
      requires Budget(maxRetries) <= |replies|
      modifies this
      ensures var r := OpenAIRun(openaiClient, replies, maxRetries);
        content == r.content && attempts == r.attempts && backoff == r.backoff &&
        stats == AddCloud(old(stats), r.hits)
      ensures progress == old(progress) && disk == old(disk)
    {
      if !openaiClient {
        return None, 0, [];
      }
      var n := Budget(maxRetries);
      var attempt := 0;
      backoff := [];
      ghost var hits := 0;
      while attempt < n
        invariant 0 <= attempt <= n
        invariant var rest := OpenAIFrom(replies, n, attempt);
          OpenAIFrom(replies, n, 0) ==
            Run(rest.content, hits + rest.hits, attempt + rest.attempts, backoff + rest.backoff)
        invariant stats == AddCloud(old(stats), hits)
        invariant progress == old(progress) && disk == old(disk)
      {
        // The counters are bumped as soon as the request returns, before the answer is read.
        if replies[attempt].Answered? {
          stats := AddCloud(stats, 1);
          return replies[attempt].content, attempt + 1, backoff;
        }
        OpenAIFromFailure(replies, n, attempt);
        ghost var rest := OpenAIFrom(replies, n, attempt + 1);
        if replies[attempt].ExtractFailed? {
          stats := AddCloud(stats, 1);
          hits := hits + 1;
        }
        // Every failure here is an exception: back off unless this was the last attempt.
        if attempt < n - 1 {
          assert (backoff + [Pow2(attempt)]) + rest.backoff == backoff + ([Pow2(attempt)] + rest.backoff);
          backoff := backoff + [Pow2(attempt)];
        }
        attempt := attempt + 1;
      }
      return None, n, backoff;
    }

    /**
     * `call_ollama`: returns the response, the number of requests sent and the sleeps
     * between them; counts a local call for every 200 response.
     */
    method CallOllama(model: string, replies: seq<OllamaReply>, maxRetries: int)
      returns (content: Option<string>, attempts: nat, backoff: seq<nat>)
      requires Budget(maxRetries) <= |replies|
      modifies this
      ensures var r := OllamaRun(replies, maxRetries);
        content == r.content && attempts == r.attempts && backoff == r.backoff &&
        stats == AddLocal(old(stats), r.hits)
      ensures progress == old(progress) && disk == old(disk)
    {
      var n := Budget(maxRetries);
      var attempt := 0;
      backoff := [];
      ghost var hits := 0;
      while attempt < n
        invariant 0 <= attempt <= n
        invariant var rest := OllamaFrom(replies, n, attempt);
          OllamaFrom(replies, n, 0) ==
            Run(rest.content, hits + rest.hits, attempt + rest.attempts, backoff + rest.backoff)
        invariant stats == AddLocal(old(stats), hits)
        invariant progress == old(progress) && disk == old(disk)
      {
        if replies[attempt].Generated? {
          stats := AddLocal(stats, 1);
          return replies[attempt].response, attempt + 1, backoff;
        }
        // A 200 bumps the counter before its body is read.
        OllamaFromFailure(replies, n, attempt);
        ghost var rest := OllamaFrom(replies, n, attempt + 1);
        if replies[attempt].BadBody? {
          stats := AddLocal(stats, 1);
          hits := hits + 1;
        }
        // A non-200 status raises nothing and so retries at once; an exception backs off.
        if attempt < n - 1 && !replies[attempt].BadStatus? {
          assert (backoff + [1]) + rest.backoff == backoff + ([1] + rest.backoff);
          backoff := backoff + [1];
        }
        attempt := attempt + 1;
      }
      return None, n, backoff;
    }

    /** The model call of `transform_agent`: the selected backend, then the cloud when a local answer is falsy. */
    method CallWithFallback(choice: Choice, env: AgentEnv) returns (transformed: Option<string>, ghost calls: seq<Call>)
      requires WellFormed(env)
      modifies this
      ensures var d := DispatchSpec(Cfg(), old(stats), choice, env);
        transformed == d.content && stats == d.stats && calls == d.calls
      ensures progress == old(progress) && disk == old(disk)
    {
      var attempts: nat, backoff: seq<nat>;
      if choice.kind == Ollama {
        transformed, attempts, backoff := CallOllama(choice.name, env.ollamaReplies, MaxRetries);
        calls := [Call(Ollama, choice.name)];
        if !Truthy(transformed) && openaiClient {
          transformed, attempts, backoff := CallOpenAI(CloudModel, env.openaiReplies, MaxRetries);
          calls := calls + [Call(OpenAI, CloudModel)];
        }
      } else {
        transformed, attempts, backoff := CallOpenAI(choice.name, env.openaiReplies, MaxRetries);
        calls := [Call(OpenAI, choice.name)];
      }
    }

    /** `transform_agent`; `calls` records the backend calls made, in order. */
    method TransformAgent(agentName: string, category: string, env: AgentEnv,
                          parse: string -> Option<string>)
      returns (ok: bool, ghost calls: seq<Call>)
      requires WellFormed(env)
      modifies this
      ensures var s := AgentStep(Cfg(), old(Snapshot()), category, agentName, env, parse);
        ok == s.ok && Snapshot() == s.world && calls == s.calls
    {
      var agentId := AgentId(category, agentName);
      calls := [];
      if agentId in progress.completed {
        return true, calls;
      }
      var v2File := V2Path(category, agentName);
      if env.v1Content.None? {
        progress := progress.(failed := progress.failed + [FailRecord(agentId, ReadError)]);
        return false, calls;
      }
      var v1Content := env.v1Content.value;
      if !env.templateRead {
        return false, calls;
      }
      var complexity := AnalyzeComplexity(v1Content);
      var modelName, modelType := SelectModel(complexity);
      var transformed;
      transformed, calls := CallWithFallback(Choice(modelName, modelType), env);
      if !Truthy(transformed) {
        progress := progress.(failed := progress.failed + [FailRecord(agentId, AllModelsFailed)]);
        return false, calls;
      }
      var content := StripFence(transformed.value);
      match parse(content)
      case Some(err) =>
        progress := progress.(failed := progress.failed + [FailRecord(agentId, InvalidMessage(err))]);
        if env.invalidCopySaved {
          disk := disk[v2File + ".invalid" := content];
        }
        return false, calls;
      case None =>
      match env.writeError
      case Some(e) =>
        progress := progress.(failed := progress.failed + [FailRecord(agentId, e)]);
        return false, calls;
      case None =>
      disk := disk[v2File := content];
      progress := progress.(completed := progress.completed + [agentId]);
      match env.saveError
      case Some(e) =>
        progress := progress.(failed := progress.failed + [FailRecord(agentId, e)]);
        return false, calls;
      case None =>
      return true, calls;
    }

    /** `transform_category`, with the agents processed one after another in the order found. */
    method TransformCategory(category: string, input: CategoryInput, parse: string -> Option<string>)
      returns (results: Tally)
      requires InputOk(input)
      modifies this
      ensures CategoryResult(results, Snapshot()) == CategoryRun(Cfg(), old(Snapshot()), category, input, parse)
    {
      if !input.dirExists {
        return Zero;
      }
      var agents, envs := input.agents, input.envs;
      results := Zero;
      var i := 0;
      while i < |agents|
        invariant 0 <= i <= |agents|
        invariant CategoryResult(results, Snapshot()) ==
          CategoryFold(Cfg(), old(Snapshot()), category, agents[..i], envs[..i], parse)
      {
        var success, calls := TransformAgent(agents[i], category, envs[i], parse);
        var verdict := Classify(success, AgentId(category, agents[i]), progress.skipped);
        results := Count(results, verdict);
        assert agents[..i + 1][..i] == agents[..i] && envs[..i + 1][..i] == envs[..i];
        i := i + 1;
      }
      assert agents[..i] == agents && envs[..i] == envs;
    }

    /** `main --all`: every category in turn, the key-wise totals and the exit code. */
    method RunAll(inputs: seq<CategoryInput>, parse: string -> Option<string>)
      returns (total: Tally, exitCode: int)
      requires |inputs| == |Categories| && AllInputsOk(inputs)
      modifies this
      ensures var r := AllFold(Cfg(), old(Snapshot()), Categories, inputs, parse);
        total == Total(r.tallies) && Snapshot() == r.world
      ensures exitCode == ExitCode(total)
    {
      total := Zero;
      ghost var tallies: seq<Tally> := [];
      var i := 0;
      while i < |Categories|
        invariant 0 <= i <= |Categories|
        invariant AllFold(Cfg(), old(Snapshot()), Categories[..i], inputs[..i], parse) == AllResult(tallies, Snapshot())
        invariant total == Total(tallies)
      {
        AllFoldStep(Cfg(), old(Snapshot()), Categories, inputs, parse, i);
        var results := TransformCategory(Categories[i], inputs[i], parse);
        tallies := tallies + [results];
        total := Add(total, results);
        i := i + 1;
      }
      assert Categories[..i] == Categories && inputs[..i] == inputs;
      exitCode := if total.failed == 0 then 0 else 1;
    }

    /** `main --category C`: one category and its exit code. */
    method RunCategory(category: string, input: CategoryInput, parse: string -> Option<string>)
      returns (results: Tally, exitCode: int)
      requires InputOk(input)
      modifies this
      ensures CategoryResult(results, Snapshot()) == CategoryRun(Cfg(), old(Snapshot()), category, input, parse)
      ensures exitCode == ExitCode(results)
    {
      results := TransformCategory(category, input, parse);
      exitCode := if results.failed == 0 then 0 else 1;
    }
  }
}
