/**
 * What one run of the retry loop of `call_openai` or `call_ollama` does, as a
 * function of the outcome of each attempt: the answer returned, how many attempts
 * bumped the usage counter, how many requests were sent, and the `time.sleep`
 * durations (seconds) between attempts.
 */
module Retry {
  import opened Wrappers

  /** Default `max_retries` of both calls. */
  const MaxRetries: nat := 2

  /** Outcome of one `chat.completions.create` attempt. */
  datatype OpenAIReply =
    | CreateFailed                      // the request raised
    | Answered(content: Option<string>) // the request returned; the first choice's message content
    | ExtractFailed                     // the request returned but reading the first choice raised

  /** Outcome of one POST to Ollama's generate endpoint. */
  datatype OllamaReply =
    | PostFailed                         // the request raised (connection error, timeout)
    | BadStatus                          // a response whose status is not 200
    | Generated(response: Option<string>) // status 200; the value under "response" in the body
    | BadBody                            // status 200 but reading the body raised

  datatype Run = Run(content: Option<string>, hits: nat, attempts: nat, backoff: seq<nat>)

  /** Python's `range(max_retries)` is empty for a non-positive budget. */
  function Budget(maxRetries: int): nat
  {
    if maxRetries < 0 then 0 else maxRetries
  }

  function Pow2(k: nat): nat
  {
    if k == 0 then 1 else 2 * Pow2(k - 1)
  }

  /** Attempts `i` to `n - 1` of `call_openai`'s loop; an exception sleeps `2 ** attempt` unless it is the last attempt. */
  function OpenAIFrom(replies: seq<OpenAIReply>, n: nat, i: nat): (r: Run)
    requires i <= n <= |replies|
    ensures r.hits <= r.attempts <= n - i
    decreases n - i
  {
    if i == n then Run(None, 0, 0, [])
    else match replies[i]
      case Answered(c) => Run(c, 1, 1, [])
      case _ =>
        var rest := OpenAIFrom(replies, n, i + 1);
        Run(rest.content,
            rest.hits + (if replies[i].ExtractFailed? then 1 else 0),
            rest.attempts + 1,
            (if i < n - 1 then [Pow2(i)] else []) + rest.backoff)
  }

  /** `call_openai`: nothing happens without a client. */
  function OpenAIRun(hasClient: bool, replies: seq<OpenAIReply>, maxRetries: int): (r: Run)
    requires Budget(maxRetries) <= |replies|
    ensures r.hits <= r.attempts <= Budget(maxRetries)
    ensures !hasClient ==> r.attempts == 0 && r.content == None
  {
    if !hasClient then Run(None, 0, 0, []) else OpenAIFrom(replies, Budget(maxRetries), 0)
  }

  /** Attempts `i` to `n - 1` of `call_ollama`'s loop; only an exception sleeps, one second, and not after the last attempt. */
  function OllamaFrom(replies: seq<OllamaReply>, n: nat, i: nat): (r: Run)
    requires i <= n <= |replies|
    ensures r.hits <= r.attempts <= n - i
    decreases n - i
  {
    if i == n then Run(None, 0, 0, [])
    else match replies[i]
      case Generated(r) => Run(r, 1, 1, [])
      case _ =>
        var rest := OllamaFrom(replies, n, i + 1);
        Run(rest.content,
            rest.hits + (if replies[i].BadBody? then 1 else 0),
            rest.attempts + 1,
            (if i < n - 1 && !replies[i].BadStatus? then [1] else []) + rest.backoff)
  }

  /** `call_ollama`. */
  function OllamaRun(replies: seq<OllamaReply>, maxRetries: int): (r: Run)
    requires Budget(maxRetries) <= |replies|
    ensures r.hits <= r.attempts <= Budget(maxRetries)
    ensures maxRetries <= 0 ==> r == Run(None, 0, 0, [])
  {
    OllamaFrom(replies, Budget(maxRetries), 0)
  }

  /** One failed attempt of `call_ollama`'s loop followed by the rest of the loop. */
  lemma OllamaFromFailure(replies: seq<OllamaReply>, n: nat, i: nat)
    requires i < n <= |replies| && !replies[i].Generated?
    ensures var rest := OllamaFrom(replies, n, i + 1);
      OllamaFrom(replies, n, i) ==
        Run(rest.content, rest.hits + (if replies[i].BadBody? then 1 else 0), rest.attempts + 1,
            (if i < n - 1 && !replies[i].BadStatus? then [1] else []) + rest.backoff)
  {
  }

  /** One failed attempt of `call_openai`'s loop followed by the rest of the loop. */
  lemma OpenAIFromFailure(replies: seq<OpenAIReply>, n: nat, i: nat)
    requires i < n <= |replies| && !replies[i].Answered?
    ensures var rest := OpenAIFrom(replies, n, i + 1);
      OpenAIFrom(replies, n, i) ==
        Run(rest.content, rest.hits + (if replies[i].ExtractFailed? then 1 else 0), rest.attempts + 1,
            (if i < n - 1 then [Pow2(i)] else []) + rest.backoff)
  {
  }

  // ----- Independent description of the loops -----

  /** Index of the first answered attempt in `[i, n)`, or `n` when there is none. */
  function FirstAnswered(replies: seq<OpenAIReply>, n: nat, i: nat): (k: nat)
    requires i <= n <= |replies|
    ensures i <= k <= n
    ensures forall j :: i <= j < k ==> !replies[j].Answered?
    ensures k < n ==> replies[k].Answered?
    decreases n - i
  {
    if i == n || replies[i].Answered? then i else FirstAnswered(replies, n, i + 1)
  }

  /** Number of attempts in `[lo, hi)` that raised after the request returned. */
  function ExtractFailures(replies: seq<OpenAIReply>, lo: nat, hi: nat): (c: nat)
    requires lo <= hi <= |replies|
    ensures c <= hi - lo
    ensures (forall j :: lo <= j < hi ==> !replies[j].ExtractFailed?) ==> c == 0
    decreases hi - lo
  {
    if lo == hi then 0 else (if replies[lo].ExtractFailed? then 1 else 0) + ExtractFailures(replies, lo + 1, hi)
  }

  /** Index of the first attempt in `[i, n)` that got a 200 with a readable body, or `n`. */
  function FirstGenerated(replies: seq<OllamaReply>, n: nat, i: nat): (k: nat)
    requires i <= n <= |replies|
    ensures i <= k <= n
    ensures forall j :: i <= j < k ==> !replies[j].Generated?
    ensures k < n ==> replies[k].Generated?
    decreases n - i
  {
    if i == n || replies[i].Generated? then i else FirstGenerated(replies, n, i + 1)
  }

  /** Number of attempts in `[lo, hi)` that got a 200 whose body could not be read. */
  function BadBodies(replies: seq<OllamaReply>, lo: nat, hi: nat): (c: nat)
    requires lo <= hi <= |replies|
    ensures c <= hi - lo
    ensures (forall j :: lo <= j < hi ==> !replies[j].BadBody?) ==> c == 0
    decreases hi - lo
  {
    if lo == hi then 0 else (if replies[lo].BadBody? then 1 else 0) + BadBodies(replies, lo + 1, hi)
  }

  /**
   * Number of attempts in `[lo, hi)` that did not get a non-200 status. The range is
   * only ever one before the first readable 200, where these are exactly the attempts
   * that raised (a failed request or an unreadable body), each followed by a sleep.
   */
  function NonStatusReplies(replies: seq<OllamaReply>, lo: nat, hi: nat): (c: nat)
    requires lo <= hi <= |replies|
    ensures c <= hi - lo
    decreases hi - lo
  {
    if lo == hi then 0 else (if !replies[lo].BadStatus? then 1 else 0) + NonStatusReplies(replies, lo + 1, hi)
  }

  /**
   * Closed form of `call_openai`'s loop from attempt `i`: it stops at the first answer;
   * every attempt that got a response bumps the counter; the sleeps double from
   * `2 ** i` and one follows every failed attempt except the last of the budget.
   */
  lemma {:induction false} OpenAIFromShape(replies: seq<OpenAIReply>, n: nat, i: nat)
    requires i <= n <= |replies|
    ensures var r := OpenAIFrom(replies, n, i); var k := FirstAnswered(replies, n, i);
      (k < n ==> r.content == replies[k].content && r.attempts == k + 1 - i &&
                 r.hits == ExtractFailures(replies, i, k) + 1 && |r.backoff| == k - i) &&
      (k == n ==> r.content == None && r.attempts == n - i &&
                  r.hits == ExtractFailures(replies, i, n) &&
                  |r.backoff| == (if n > i then n - 1 - i else 0)) &&
      (forall j :: 0 <= j < |r.backoff| ==> r.backoff[j] == Pow2(i + j))
    decreases n - i
  {
    if i < n && !replies[i].Answered? {
      OpenAIFromShape(replies, n, i + 1);
      var rest := OpenAIFrom(replies, n, i + 1);
      var r := OpenAIFrom(replies, n, i);
      if i < n - 1 {
        assert r.backoff == [Pow2(i)] + rest.backoff;
        forall j | 0 <= j < |r.backoff| ensures r.backoff[j] == Pow2(i + j) {
          if j > 0 { assert r.backoff[j] == rest.backoff[j - 1]; }
        }
      } else {
        assert r.backoff == rest.backoff;
      }
    }
  }

  /**
   * Closed form of `call_ollama`'s loop from attempt `i`: it stops at the first 200
   * with a readable body; a 200 with an unreadable body still bumps the counter; a
   * one-second sleep follows every attempt that raised, except the last of the budget,
   * and never one that got a non-200 status.
   */
  lemma {:induction false} OllamaFromShape(replies: seq<OllamaReply>, n: nat, i: nat)
    requires i <= n <= |replies|
    ensures var r := OllamaFrom(replies, n, i); var k := FirstGenerated(replies, n, i);
      (k < n ==> r.content == replies[k].response && r.attempts == k + 1 - i &&
                 r.hits == BadBodies(replies, i, k) + 1 && |r.backoff| == NonStatusReplies(replies, i, k)) &&
      (k == n ==> r.content == None && r.attempts == n - i &&
                  r.hits == BadBodies(replies, i, n) &&
                  |r.backoff| == (if n > i then NonStatusReplies(replies, i, n - 1) else 0)) &&
      (forall j :: 0 <= j < |r.backoff| ==> r.backoff[j] == 1)
    decreases n - i
  {
    if i < n && !replies[i].Generated? {
      OllamaFromShape(replies, n, i + 1);
      var rest := OllamaFrom(replies, n, i + 1);
      var r := OllamaFrom(replies, n, i);
      if i < n - 1 && !replies[i].BadStatus? {
        assert r.backoff == [1] + rest.backoff;
        forall j | 0 <= j < |r.backoff| ensures r.backoff[j] == 1 {
          if j > 0 { assert r.backoff[j] == rest.backoff[j - 1]; }
        }
      } else {
        assert r.backoff == rest.backoff;
      }
    }
  }

  // ----- Properties of one call -----

  /**
   * `call_openai` without a client makes no attempt; with one it makes at most
   * `max_retries` attempts, counts at most one hit per attempt, and sleeps
   * 1, 2, 4, ... seconds between attempts but never after the last one.
   */
  lemma OpenAIRunBounds(hasClient: bool, replies: seq<OpenAIReply>, maxRetries: int)
    requires Budget(maxRetries) <= |replies|
    ensures var r := OpenAIRun(hasClient, replies, maxRetries);
      r.attempts <= Budget(maxRetries) && r.hits <= r.attempts &&
      (r.attempts > 0 ==> |r.backoff| == r.attempts - 1) &&
      (r.attempts == 0 ==> r.backoff == []) &&
      (forall j :: 0 <= j < |r.backoff| ==> r.backoff[j] == Pow2(j)) &&
      (!hasClient ==> r == Run(None, 0, 0, []))
  {
    if hasClient {
      OpenAIFromShape(replies, Budget(maxRetries), 0);
    }
  }

  /**
   * A answer is returned exactly when some attempt within the budget got one, and it is
   * the first such answer; when no attempt raised after a response came back, a returned
   * answer counts exactly one hit and a run without an answer counts none.
   */
  lemma OpenAIRunOutcome(replies: seq<OpenAIReply>, maxRetries: int)
    requires Budget(maxRetries) <= |replies|
    ensures var n := Budget(maxRetries); var r := OpenAIRun(true, replies, maxRetries);
      var k := FirstAnswered(replies, n, 0);
      (k < n ==> r.content == replies[k].content && r.attempts == k + 1) &&
      (k == n ==> r.content == None && r.attempts == n) &&
      ((forall j :: 0 <= j < n ==> !replies[j].ExtractFailed?) ==>
         r.hits == (if k < n then 1 else 0))
  {
    var n := Budget(maxRetries);
    OpenAIFromShape(replies, n, 0);
  }

  /** A run in which every request raised returns None, counts nothing and sleeps between attempts only. */
  lemma OpenAIAllFailed(replies: seq<OpenAIReply>, maxRetries: int)
    requires Budget(maxRetries) <= |replies|
    requires forall j :: 0 <= j < Budget(maxRetries) ==> replies[j] == CreateFailed
    ensures var r := OpenAIRun(true, replies, maxRetries);
      r.content == None && r.hits == 0 && r.attempts == Budget(maxRetries) &&
      |r.backoff| == (if Budget(maxRetries) > 0 then Budget(maxRetries) - 1 else 0)
  {
    var n := Budget(maxRetries);
    OpenAIFromShape(replies, n, 0);
  }

  /**
   * `call_ollama` makes at most `max_retries` attempts, counts at most one hit per
   * attempt, sleeps one second at a time and never after its last attempt.
   */
  lemma OllamaRunBounds(replies: seq<OllamaReply>, maxRetries: int)
    requires Budget(maxRetries) <= |replies|
    ensures var r := OllamaRun(replies, maxRetries);
      r.attempts <= Budget(maxRetries) && r.hits <= r.attempts &&
      (r.attempts > 0 ==> |r.backoff| <= r.attempts - 1) &&
      (r.attempts == 0 ==> r.backoff == []) &&
      (forall j :: 0 <= j < |r.backoff| ==> r.backoff[j] == 1)
  {
    OllamaFromShape(replies, Budget(maxRetries), 0);
  }

  /**
   * A response is returned exactly when some attempt within the budget got a readable
   * 200, and it is the first one; without unreadable 200s, a returned response counts
   * exactly one hit and a run without one counts none.
   */
  lemma OllamaRunOutcome(replies: seq<OllamaReply>, maxRetries: int)
    requires Budget(maxRetries) <= |replies|
    ensures var n := Budget(maxRetries); var r := OllamaRun(replies, maxRetries);
      var k := FirstGenerated(replies, n, 0);
      (k < n ==> r.content == replies[k].response && r.attempts == k + 1) &&
      (k == n ==> r.content == None && r.attempts == n) &&
      ((forall j :: 0 <= j < n ==> !replies[j].BadBody?) ==>
         r.hits == (if k < n then 1 else 0))
  {
    OllamaFromShape(replies, Budget(maxRetries), 0);
  }

  /** A run in which every request raised or got a non-200 status returns None and counts nothing. */
  lemma OllamaAllFailed(replies: seq<OllamaReply>, maxRetries: int)
    requires Budget(maxRetries) <= |replies|
    requires forall j :: 0 <= j < Budget(maxRetries) ==> replies[j] == PostFailed || replies[j] == BadStatus
    ensures var r := OllamaRun(replies, maxRetries);
      r.content == None && r.hits == 0 && r.attempts == Budget(maxRetries)
  {
    var n := Budget(maxRetries);
    OllamaFromShape(replies, n, 0);
  }
}
