/**
 * The per-category result tally of `transform_category` and the totals and
 * exit code of `main`, with the thread pool taken as a sequential loop over
 * the agents in the order they were found.
 */
module Tally {
  import opened Wrappers
  import opened State
  import opened Agent

  /** The `results` dictionary. */
  datatype Tally = Tally(success: nat, failed: nat, skipped: nat)

  const Zero := Tally(0, 0, 0)

  /** The categories `main --all` transforms, in order. */
  const Categories: seq<string> := [
    "cloud-agent", "business-review-agent", "content-agent",
    "context-agent", "engineering-agent", "google-apps-script-agent",
    "product-agents", "project-agent", "public-relations-agent", "ux-agent"]

  datatype Verdict = Succeeded | Failed | Skipped

  function Sum(t: Tally): nat
  {
    t.success + t.failed + t.skipped
  }

  function Add(a: Tally, b: Tally): Tally
  {
    Tally(a.success + b.success, a.failed + b.failed, a.skipped + b.skipped)
  }

  /**
   * The ids listed in `progress['skipped']` (an object stands for its "agent" value),
   * or None when an object lacks that key, which raises inside the tally's `try`.
   */
  function SkippedIds(entries: seq<SkipEntry>): (ids: Option<seq<string>>)
    ensures ids.None? <==> exists j :: 0 <= j < |entries| && entries[j] == SkipRecord(None)
    ensures ids.Some? ==> (|ids.value| == |entries| &&
      forall j :: 0 <= j < |entries| ==>
        ids.value[j] == (match entries[j] case SkipId(x) => x case SkipRecord(a) => a.value))
  {
    if |entries| == 0 then Some([])
    else
      var rest := SkippedIds(entries[1..]);
      assert forall j :: 1 <= j < |entries| ==> entries[1..][j - 1] == entries[j];
      match entries[0]
      case SkipRecord(None) => None
      case SkipRecord(Some(a)) => if rest.None? then None else Some([a] + rest.value)
      case SkipId(x) => if rest.None? then None else Some([x] + rest.value)
  }

  /** How one finished agent is counted. */
  function Classify(ok: bool, id: string, skipped: seq<SkipEntry>): (v: Verdict)
    ensures v == Skipped <==> ok && SkippedIds(skipped).Some? && id in SkippedIds(skipped).value
    ensures v == Succeeded <==> ok && SkippedIds(skipped).Some? && id !in SkippedIds(skipped).value
  {
    if !ok then Failed
    else match SkippedIds(skipped)
      case None => Failed
      case Some(ids) => if id in ids then Skipped else Succeeded
  }

  function Count(t: Tally, v: Verdict): Tally
  {
    match v
    case Succeeded => t.(success := t.success + 1)
    case Failed => t.(failed := t.failed + 1)
    case Skipped => t.(skipped := t.skipped + 1)
  }

  /** The agents found in one category and what the environment does for each. */
  datatype CategoryInput = CategoryInput(dirExists: bool, agents: seq<string>, envs: seq<AgentEnv>)

  predicate AllWellFormed(envs: seq<AgentEnv>)
  {
    forall i :: 0 <= i < |envs| ==> WellFormed(envs[i])
  }

  predicate InputOk(input: CategoryInput)
  {
    |input.agents| == |input.envs| && AllWellFormed(input.envs)
  }

  datatype CategoryResult = CategoryResult(tally: Tally, world: World)

  /** Transforming and counting the agents one after another. */
  function CategoryFold(cfg: Config, w: World, category: string, agents: seq<string>,
                        envs: seq<AgentEnv>, parse: string -> Option<string>): (r: CategoryResult)
    requires |agents| == |envs| && AllWellFormed(envs)
    ensures r.world.progress.skipped == w.progress.skipped
    decreases |agents|
  {
    if |agents| == 0 then CategoryResult(Zero, w)
    else
      var n := |agents| - 1;
      assert AllWellFormed(envs[..n]) by {
        forall i | 0 <= i < n ensures WellFormed(envs[..n][i]) { assert envs[..n][i] == envs[i]; }
      }
      var prev := CategoryFold(cfg, w, category, agents[..n], envs[..n], parse);
      var step := AgentStep(cfg, prev.world, category, agents[n], envs[n], parse);
      CategoryResult(Count(prev.tally, Classify(step.ok, AgentId(category, agents[n]), step.world.progress.skipped)),
                     step.world)
  }

  /** `transform_category`: a missing category directory yields all zeros. */
  function CategoryRun(cfg: Config, w: World, category: string, input: CategoryInput,
                       parse: string -> Option<string>): (r: CategoryResult)
    requires InputOk(input)
    ensures !input.dirExists ==> r == CategoryResult(Zero, w)
    ensures r.world.progress.skipped == w.progress.skipped
  {
    if !input.dirExists then CategoryResult(Zero, w)
    else CategoryFold(cfg, w, category, input.agents, input.envs, parse)
  }

  predicate AllInputsOk(inputs: seq<CategoryInput>)
  {
    forall i :: 0 <= i < |inputs| ==> InputOk(inputs[i])
  }

  datatype AllResult = AllResult(tallies: seq<Tally>, world: World)

  /** The loop of `main --all` over the categories, keeping each category's results. */
  function AllFold(cfg: Config, w: World, categories: seq<string>, inputs: seq<CategoryInput>,
                   parse: string -> Option<string>): (r: AllResult)
    requires |categories| == |inputs| && AllInputsOk(inputs)
    ensures |r.tallies| == |categories|
    ensures r.world.progress.skipped == w.progress.skipped
    decreases |categories|
  {
    if |categories| == 0 then AllResult([], w)
    else
      var n := |categories| - 1;
      assert AllInputsOk(inputs[..n]) by {
        forall i | 0 <= i < n ensures InputOk(inputs[..n][i]) { assert inputs[..n][i] == inputs[i]; }
      }
      var prev := AllFold(cfg, w, categories[..n], inputs[..n], parse);
      var r := CategoryRun(cfg, prev.world, categories[n], inputs[n], parse);
      AllResult(prev.tallies + [r.tally], r.world)
  }

  /** One more category of the loop of `main --all`: its tally is appended and its world carried on. */
  lemma AllFoldStep(cfg: Config, w: World, categories: seq<string>, inputs: seq<CategoryInput>,
                    parse: string -> Option<string>, i: nat)
    requires |categories| == |inputs| && AllInputsOk(inputs) && i < |categories|
    ensures AllInputsOk(inputs[..i]) && AllInputsOk(inputs[..i + 1])
    ensures var prev := AllFold(cfg, w, categories[..i], inputs[..i], parse);
      var r := CategoryRun(cfg, prev.world, categories[i], inputs[i], parse);
      AllFold(cfg, w, categories[..i + 1], inputs[..i + 1], parse) == AllResult(prev.tallies + [r.tally], r.world)
  {
    assert forall j :: 0 <= j < i + 1 ==> inputs[..i + 1][j] == inputs[j];
    assert categories[..i + 1][..i] == categories[..i] && inputs[..i + 1][..i] == inputs[..i];
  }

  /** Appending the last category's tally to the tallies of the others keeps each one counting its own category. */
  lemma CountsSnoc(ts: seq<Tally>, t: Tally, inputs: seq<CategoryInput>)
    requires |ts| + 1 == |inputs|
    requires forall i :: 0 <= i < |ts| ==> Sum(ts[i]) == Found(inputs[..|ts|][i])
    requires Sum(t) == Found(inputs[|ts|])
    ensures forall i :: 0 <= i < |inputs| ==> Sum((ts + [t])[i]) == Found(inputs[i])
  {
    forall i | 0 <= i < |inputs|
      ensures Sum((ts + [t])[i]) == Found(inputs[i])
    {
      if i < |ts| { assert inputs[..|ts|][i] == inputs[i]; }
    }
  }

  /** Key-wise sum of the category results. */
  function Total(ts: seq<Tally>): (r: Tally)
    ensures forall i :: 0 <= i < |ts| ==>
      ts[i].success <= r.success && ts[i].failed <= r.failed && ts[i].skipped <= r.skipped
  {
    if |ts| == 0 then Zero
    else
      var n := |ts| - 1;
      assert forall i :: 0 <= i < n ==> ts[..n][i] == ts[i];
      Add(Total(ts[..n]), ts[n])
  }

  /** `sys.exit(0 if failed == 0 else 1)`. */
  function ExitCode(t: Tally): (code: int)
    ensures code == 0 || code == 1
    ensures code == 0 <==> t.failed == 0
  {
    if t.failed == 0 then 0 else 1
  }

  /** Number of agents found in one category: none when its directory is missing. */
  function Found(input: CategoryInput): nat
  {
    if input.dirExists then |input.agents| else 0
  }

  /** Number of agents found over the categories. */
  function AgentsFound(inputs: seq<CategoryInput>): nat
  {
    if |inputs| == 0 then 0 else AgentsFound(inputs[..|inputs| - 1]) + Found(inputs[|inputs| - 1])
  }

  // ----- Properties of the tally and the totals -----

  /** Every agent counts once, in exactly one of the three counters. */
  lemma CountOne(t: Tally, v: Verdict)
    ensures Sum(Count(t, v)) == Sum(t) + 1
    ensures var c := Count(t, v);
      (c.success - t.success) + (c.failed - t.failed) + (c.skipped - t.skipped) == 1 &&
      c.success >= t.success && c.failed >= t.failed && c.skipped >= t.skipped
  {
  }

  /** The counters of a category add up to the number of agents found, and to zero when the directory is missing. */
  lemma {:induction false} CategoryFoldSum(cfg: Config, w: World, category: string, agents: seq<string>,
                                           envs: seq<AgentEnv>, parse: string -> Option<string>)
    requires |agents| == |envs| && AllWellFormed(envs)
    ensures Sum(CategoryFold(cfg, w, category, agents, envs, parse).tally) == |agents|
    decreases |agents|
  {
    if |agents| > 0 {
      var n := |agents| - 1;
      assert AllWellFormed(envs[..n]) by {
        forall i | 0 <= i < n ensures WellFormed(envs[..n][i]) { assert envs[..n][i] == envs[i]; }
      }
      CategoryFoldSum(cfg, w, category, agents[..n], envs[..n], parse);
    }
  }

  /** The counters of a category add up to the number of agents found in it. */
  lemma CategoryRunSum(cfg: Config, w: World, category: string, input: CategoryInput,
                       parse: string -> Option<string>)
    requires InputOk(input)
    ensures Sum(CategoryRun(cfg, w, category, input, parse).tally) == Found(input)
  {
    if input.dirExists {
      CategoryFoldSum(cfg, w, category, input.agents, input.envs, parse);
    }
  }

  /**
   * An agent completed in an earlier run is counted as a success, not as skipped,
   * unless `skipped` itself lists it; a `skipped` object without "agent" makes it a failure.
   */
  lemma CompletedCountsAsSuccess(cfg: Config, w: World, category: string, agentName: string,
                                 env: AgentEnv, parse: string -> Option<string>)
    requires WellFormed(env)
    requires AgentId(category, agentName) in w.progress.completed
    ensures var s := AgentStep(cfg, w, category, agentName, env, parse);
      var v := Classify(s.ok, AgentId(category, agentName), s.world.progress.skipped);
      match SkippedIds(w.progress.skipped)
      case None => v == Failed
      case Some(ids) => v == (if AgentId(category, agentName) in ids then Skipped else Succeeded)
  {
    SkipCompleted(cfg, w, category, agentName, env, parse);
  }

  /** A failed transformation is always counted as failed. */
  lemma FailureCountsAsFailed(ok: bool, id: string, skipped: seq<SkipEntry>)
    requires !ok
    ensures Classify(ok, id, skipped) == Failed
  {
  }

  /** The totals are the key-wise sums: the failed total is zero exactly when every category had no failure. */
  lemma {:induction false} TotalFailedZero(ts: seq<Tally>)
    ensures Total(ts).failed == 0 <==> forall i :: 0 <= i < |ts| ==> ts[i].failed == 0
  {
    if |ts| > 0 {
      var n := |ts| - 1;
      TotalFailedZero(ts[..n]);
      assert forall i :: 0 <= i < n ==> ts[..n][i] == ts[i];
    }
  }

  /** `main --all` exits with 0 exactly when no category had a failure. */
  lemma ExitCodeAll(ts: seq<Tally>)
    ensures ExitCode(Total(ts)) == 0 <==> forall i :: 0 <= i < |ts| ==> ts[i].failed == 0
    ensures ExitCode(Total(ts)) == 0 || ExitCode(Total(ts)) == 1
  {
    TotalFailedZero(ts);
  }

  /** Key-wise totals of tallies that each count their category's agents count all of them. */
  lemma {:induction false} TotalSum(ts: seq<Tally>, inputs: seq<CategoryInput>)
    requires |ts| == |inputs|
    requires forall i :: 0 <= i < |ts| ==> Sum(ts[i]) == Found(inputs[i])
    ensures Sum(Total(ts)) == AgentsFound(inputs)
  {
    if |ts| > 0 {
      var n := |ts| - 1;
      assert forall i :: 0 <= i < n ==> ts[..n][i] == ts[i] && inputs[..n][i] == inputs[i];
      TotalSum(ts[..n], inputs[..n]);
    }
  }

  /** Each category's tally counts exactly the agents found in that category. */
  lemma {:induction false} AllFoldCounts(cfg: Config, w: World, categories: seq<string>, inputs: seq<CategoryInput>,
                                         parse: string -> Option<string>)
    requires |categories| == |inputs| && AllInputsOk(inputs)
    ensures var ts := AllFold(cfg, w, categories, inputs, parse).tallies;
      forall i :: 0 <= i < |categories| ==> Sum(ts[i]) == Found(inputs[i])
    decreases |categories|
  {
    if |categories| > 0 {
      var n := |categories| - 1;
      AllFoldStep(cfg, w, categories, inputs, parse, n);
      AllFoldCounts(cfg, w, categories[..n], inputs[..n], parse);
      var prev := AllFold(cfg, w, categories[..n], inputs[..n], parse);
      var r := CategoryRun(cfg, prev.world, categories[n], inputs[n], parse);
      assert categories[..n + 1] == categories && inputs[..n + 1] == inputs;
      CategoryRunSum(cfg, prev.world, categories[n], inputs[n], parse);
      CountsSnoc(prev.tallies, r.tally, inputs);
    }
  }

  /** The number of agents counted over all categories is the number found. */
  lemma AllFoldSum(cfg: Config, w: World, categories: seq<string>, inputs: seq<CategoryInput>,
                   parse: string -> Option<string>)
    requires |categories| == |inputs| && AllInputsOk(inputs)
    ensures Sum(Total(AllFold(cfg, w, categories, inputs, parse).tallies)) == AgentsFound(inputs)
  {
    AllFoldCounts(cfg, w, categories, inputs, parse);
    TotalSum(AllFold(cfg, w, categories, inputs, parse).tallies, inputs);
  }
}
