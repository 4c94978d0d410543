/**
 * The orchestrator's bookkeeping: usage counters (`self.stats`), the progress
 * record (`self.progress`), the configuration discovered at start-up, and the
 * v2 output files.
 */
module State {
  import opened Wrappers

  /** `self.stats` without `start_time`; the cost is kept in whole cents. */
  datatype Stats = Stats(localUsed: nat, cloudUsed: nat, totalCostCents: nat)

  /** Estimated cost of one cloud call: 0.02 dollars. */
  const CloudCallCents: nat := 2

  const NoStats := Stats(0, 0, 0)

  /** One entry of `progress['failed']`. */
  datatype FailRecord = FailRecord(agent: string, reason: string)

  /**
   * One entry of `progress['skipped']`, as loaded from a saved progress file: either a
   * plain agent id or an object, which may lack its "agent" key.
   */
  datatype SkipEntry = SkipId(id: string) | SkipRecord(agent: Option<string>)

  datatype Progress = Progress(completed: seq<string>, failed: seq<FailRecord>, skipped: seq<SkipEntry>)

  /** The progress used when no progress file exists. */
  const EmptyProgress := Progress([], [], [])

  /** What `__init__` found: an OpenAI client, a running Ollama and its model names. */
  datatype Config = Config(openaiClient: bool, ollamaAvailable: bool, ollamaModels: seq<string>)

  /** Everything one transformation can change: counters, progress and the v2 files on disk. */
  datatype World = World(stats: Stats, progress: Progress, disk: map<string, string>)

  const ReadError: string := "read error"
  const AllModelsFailed: string := "all models failed"

  function AgentId(category: string, agentName: string): string
  {
    category + "/" + agentName
  }

  /** Path of the v2 definition, relative to the repository root. */
  function V2Path(category: string, agentName: string): string
  {
    "Agents-v2/" + category + "/yaml/" + agentName + ".yaml"
  }

  /** The failure reason `validate_yaml` reports: a prefix and at most 200 characters of the parser's message. */
  function InvalidMessage(parserError: string): (m: string)
    ensures 9 <= |m| <= 9 + 200
    ensures m[..9] == "Invalid: "
    ensures |m| - 9 <= |parserError| && m[9..] == parserError[..|m| - 9]
    ensures |parserError| <= 200 ==> m[9..] == parserError
    ensures |parserError| > 200 ==> |m| == 9 + 200
  {
    "Invalid: " + (if |parserError| <= 200 then parserError else parserError[..200])
  }

  function AddLocal(s: Stats, hits: nat): Stats
  {
    s.(localUsed := s.localUsed + hits)
  }

  function AddCloud(s: Stats, hits: nat): Stats
  {
    s.(cloudUsed := s.cloudUsed + hits, totalCostCents := s.totalCostCents + CloudCallCents * hits)
  }

  function AppendFailed(w: World, r: FailRecord): World
  {
    w.(progress := w.progress.(failed := w.progress.failed + [r]))
  }
}
