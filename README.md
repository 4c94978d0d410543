# Fast agent-transformation orchestrator, modelled in Dafny

This project models the decision and bookkeeping core of `FastOrchestrator`
(`Agents-v2/orchestrate_fast.py`). The orchestrator rewrites v1 agent
definitions into v2 YAML. For each agent it does the following:

- it rates the v1 definition's complexity by its size;
- it picks a local Ollama model or the cloud model `gpt-4o-mini`;
- it calls that backend with a small retry budget, and falls back from local to cloud;
- it strips a Markdown code fence from the answer and validates it as YAML;
- it writes the v2 file and records the agent in the `completed` or `failed` progress lists.

Per category it tallies successes, failures and skips. Over all categories it
sums the tallies and derives the process exit code.

Everything external is an input of the model:

- what the environment variable and Ollama reported at start-up;
- the saved progress file;
- whether each file read or write succeeds;
- the outcome of every single backend attempt;
- the YAML parser, a function from text to an optional error message.

Layout, one module per file:

| file | module | what it holds |
|---|---|---|
| `wrappers.dfy` | `Wrappers` | `Option` and Python truthiness of an optional string |
| `selection.dfy` | `Selection` | `analyze_complexity`, the `select_model` rule (`ModelChoice`) and its properties |
| `fence.dfy` | `Fence` | `split`/`join`/`strip`/`startswith` on strings, the code-fence clean-up and its properties |
| `retry.dfy` | `Retry` | per-attempt outcomes, the retry loops as functions (`OpenAIRun`, `OllamaRun`), closed forms and bounds |
| `state.dfy` | `State` | `stats`, `progress`, configuration, failure reasons, paths |
| `agent.dfy` | `Agent` | one `transform_agent` call as a function (`AgentStep`) and its properties |
| `tally.dfy` | `Tally` | the tally of `transform_category`, the totals and exit code of `main`, and their properties |
| `orchestrator.dfy` | `Orchestrator` | class `FastOrchestrator`: fields updated in place, methods with loops, each proved equal to its specification function |

Some behaviour of the code is easy to miss. The model keeps it as the code has it:

- `call_openai` counts the call and its cost as soon as the request returns. This happens before the answer is read (lines 145-147). If reading the first choice then raises, the call is counted and retried anyway.
- `call_ollama` counts a 200 response before reading its body (lines 175-176). A non-200 status raises nothing, so the next attempt follows with no sleep.
- The answer returned can be `None` or empty. That counts as "no content", which is what triggers the cloud fallback and the "all models failed" record.
- When `save_progress` raises after the v2 file was written (lines 318-326), the agent id stays in `completed`. A failure record is added as well, and the call returns False.
- An entry of `progress['skipped']` that is an object without an `"agent"` key raises inside the tally's `try` (lines 362-370). Every successful agent of that category is then counted as failed.
- The wider model-selection design is not in this file and is not part of this model. That design has a capability registry, a scorer, consensus groups and a usage tracker. This model follows `Agents-v2/orchestrate_fast.py` only.

## Model

| member | source | states |
|---|---|---|
| Selection.AnalyzeComplexity | Agents-v2/orchestrate_fast.py:102-112 | the complexity is always one of the three levels 0.2, 0.5, 0.8 |
| Selection.ComplexityThresholds | Agents-v2/orchestrate_fast.py:104-112 | the complexity is exactly 0.2 below 2000 characters, exactly 0.5 from 2000 to 4999, and exactly 0.8 from 5000 on |
| Selection.ComplexityMonotone | Agents-v2/orchestrate_fast.py:104-112 | longer content never gets a lower complexity |
| Selection.FirstPreferred | Agents-v2/orchestrate_fast.py:122-124 | the preference search only ever returns a model that is both installed and in the preference list at or after the starting position |
| Selection.ModelChoice | Agents-v2/orchestrate_fast.py:114-127 | the cloud kind always comes with the name "gpt-4o-mini" and only with it; a local choice needs complexity below 0.7 and Ollama up, and names an installed preferred model |
| Selection.FirstPreferredIsEarliest | Agents-v2/orchestrate_fast.py:122-124 | the preference search finds nothing exactly when no preferred model is installed, and otherwise returns the earliest installed preferred model |
| Selection.LocalChoice | Agents-v2/orchestrate_fast.py:120-124 | a local model is chosen if and only if complexity < 0.7, Ollama is available, its list is non-empty and a preferred model is installed; the name is then the first installed preferred model |
| Selection.CloudDefault | Agents-v2/orchestrate_fast.py:120-127 | every non-local choice is exactly ("gpt-4o-mini", openai), also when models are installed but none is preferred |
| Selection.LongContentGoesToCloud | Agents-v2/orchestrate_fast.py:107-127 | content of 5000 characters or more always goes to the cloud model |
| Fence.Split | Agents-v2/orchestrate_fast.py:291 | `split('\n')` always yields at least one line |
| Fence.TrimLeft | Agents-v2/orchestrate_fast.py:294 | the left half of `strip()` returns a suffix of its input, removing only white space and stopping at the first other character |
| Fence.TrimRight | Agents-v2/orchestrate_fast.py:294 | the right half of `strip()` returns a prefix of its input, removing only white space and stopping at the last other character |
| Fence.Strip | Agents-v2/orchestrate_fast.py:294 | `strip()` returns a contiguous slice of its input that neither starts nor ends with white space, and everything outside the slice is white space |
| Fence.Join | Agents-v2/orchestrate_fast.py:296 | `'\n'.join` starts with the first line, followed by a newline when there is a second line |
| Fence.JoinSplit | Agents-v2/orchestrate_fast.py:291-296 | joining the split lines with newlines gives the text back |
| Fence.SplitJoin | Agents-v2/orchestrate_fast.py:291-296 | splitting the join of a non-empty list of newline-free lines gives the lines back |
| Fence.FirstLineFenced | Agents-v2/orchestrate_fast.py:290-293 | when the answer starts with a fence its first line does too, so the first line is always dropped |
| Fence.DropClosing | Agents-v2/orchestrate_fast.py:294-295 | the closing-fence step either keeps the lines or drops exactly the last one, and then only when it strips to a fence |
| Fence.StripFence | Agents-v2/orchestrate_fast.py:290 | the clean-up leaves an answer that does not start with a fence unchanged |
| Fence.StripFenceUnfenced | Agents-v2/orchestrate_fast.py:290 | an answer not starting with a fence is left unchanged |
| Fence.StripFenceLines | Agents-v2/orchestrate_fast.py:290-296 | a fenced answer becomes the join of its lines from the second up to the last, or up to the one before the last exactly when there are at least two lines and that last line strips to a fence; when that slice is non-empty the result splits back into it, one or two lines shorter than the original |
| Retry.OpenAIFrom | Agents-v2/orchestrate_fast.py:134-152 | the cloud loop from an attempt on sends at most the attempts left and counts at most one call per attempt |
| Retry.OllamaFrom | Agents-v2/orchestrate_fast.py:158-181 | the local loop from an attempt on sends at most the attempts left and counts at most one call per attempt |
| Retry.OpenAIRun | Agents-v2/orchestrate_fast.py:129-152 | `call_openai` sends at most max_retries requests, counts at most one call per request, and without a client sends nothing and returns None |
| Retry.OllamaRun | Agents-v2/orchestrate_fast.py:154-181 | `call_ollama` sends at most max_retries requests and counts at most one call per request; a budget of zero or less does nothing and returns None |
| Retry.OpenAIFromShape | Agents-v2/orchestrate_fast.py:134-152 | closed form of the cloud retry loop: it stops at the first answer, counts every request that returned, and sleeps 2^attempt after every exception except on the last attempt |
| Retry.OllamaFromShape | Agents-v2/orchestrate_fast.py:158-181 | closed form of the local retry loop: it stops at the first readable 200, counts every 200, and sleeps one second after every exception except on the last attempt, never after a non-200 status |
| Retry.OpenAIRunBounds | Agents-v2/orchestrate_fast.py:129-152 | without a client there is no attempt and no change; otherwise there are at most max_retries attempts and at most one hit per attempt, the sleeps run 1, 2, 4, ..., and there is one sleep fewer than attempts, so none after the last |
| Retry.OpenAIRunOutcome | Agents-v2/orchestrate_fast.py:134-152 | the answer returned is the first one received within the budget, or None when no attempt got one; if no attempt raised while reading its answer, a returned answer counts exactly one call and None counts none |
| Retry.OpenAIAllFailed | Agents-v2/orchestrate_fast.py:134-152 | when every request raises, the result is None after max_retries attempts, nothing is counted, and max_retries - 1 sleeps happen |
| Retry.OllamaRunBounds | Agents-v2/orchestrate_fast.py:154-181 | at most max_retries attempts and at most one hit per attempt; every sleep lasts one second, and there are fewer sleeps than attempts |
| Retry.OllamaRunOutcome | Agents-v2/orchestrate_fast.py:158-181 | the response returned is that of the first readable 200 within the budget, or None; without unreadable 200s, a returned response counts exactly one local call and None counts none |
| Retry.OllamaAllFailed | Agents-v2/orchestrate_fast.py:158-181 | when every attempt raises or gets a non-200 status, the result is None after max_retries attempts and nothing is counted |
| State.InvalidMessage | Agents-v2/orchestrate_fast.py:216-222 | the YAML failure reason is "Invalid: " followed by a prefix of the parser's message: all of it when it has at most 200 characters, and exactly its first 200 otherwise |
| Agent.DispatchSpec | Agents-v2/orchestrate_fast.py:273-282 | the selected backend and model are called first; a second call, to the cloud with "gpt-4o-mini", happens exactly when a local model was selected, a client exists and the local answer was falsy |
| Agent.Finish | Agents-v2/orchestrate_fast.py:289-326 | cleaning and saving leaves the counters and `skipped` alone, succeeds exactly when the cleaned answer parses and neither the write nor the progress save raises, and then appends the id to `completed` and stores the cleaned answer at the v2 path |
| Agent.AgentStep | Agents-v2/orchestrate_fast.py:224-326 | a True result leaves the id in `completed`; `skipped` never changes; a backend is called, at most twice, exactly when the agent is not yet completed and both files were read |
| Agent.SkipCompleted | Agents-v2/orchestrate_fast.py:227-232 | an agent already in `completed` returns True, changes nothing and calls no backend |
| Agent.ReadFailure | Agents-v2/orchestrate_fast.py:243-249 | an unreadable v1 file returns False after exactly one "read error" record, with no backend call |
| Agent.CompletedChanges | Agents-v2/orchestrate_fast.py:227-326 | `completed` is unchanged or gains this agent's id once; a success leaves the id in it; a failure leaves it unchanged unless the progress save raised; when it grows, the backends were called, answered something truthy, and the files changed only by the fence-stripped answer written at the v2 path |
| Agent.FailedChanges | Agents-v2/orchestrate_fast.py:243-326 | `failed` gains at most one record, always for this agent; a success adds none; a template-read failure returns False with nothing changed and no backend called |
| Agent.FallbackRule | Agents-v2/orchestrate_fast.py:273-282 | the selected backend is called first; a second, cloud call with "gpt-4o-mini" happens if and only if a local model was selected, its answer was falsy and a client exists; a cloud selection never calls a local model |
| Agent.NoContentFails | Agents-v2/orchestrate_fast.py:284-287 | with no content from any backend, the call returns False after exactly one "all models failed" record, leaving `completed` and the files unchanged |
| Agent.SuccessWritesCleaned | Agents-v2/orchestrate_fast.py:289-322 | a valid answer that is written and saved returns True, appends the id to `completed` once, adds no failure, and stores the fence-stripped answer at the v2 path |
| Agent.DispatchStats | Agents-v2/orchestrate_fast.py:273-282 | the backend calls only raise the counters, add two cents per counted cloud call, and count no cloud call without a client |
| Agent.StatsAndSkipped | Agents-v2/orchestrate_fast.py:224-326 | a transformation never touches `skipped` and never lowers a counter; the cost grows by two cents per counted cloud call; without a client no cloud call is counted |
| Tally.SkippedIds | Agents-v2/orchestrate_fast.py:362-363 | the ids read from `skipped` are each plain entry or each object's "agent" value, in order; there are none (the read raises) exactly when some object lacks "agent" |
| Tally.Classify | Agents-v2/orchestrate_fast.py:356-370 | an agent counts as skipped exactly when it succeeded and `skipped` can be read and lists it, as a success exactly when it succeeded and `skipped` can be read and does not list it, and as failed otherwise |
| Tally.CountOne | Agents-v2/orchestrate_fast.py:361-370 | each finished agent raises exactly one of the three counters by one |
| Tally.CategoryRun | Agents-v2/orchestrate_fast.py:336-371 | a missing category directory yields all zeros and changes nothing; a category never changes `skipped` |
| Tally.CategoryRunSum | Agents-v2/orchestrate_fast.py:337-371 | success + failed + skipped equals the number of agents found, none when the directory is missing |
| Tally.CompletedCountsAsSuccess | Agents-v2/orchestrate_fast.py:356-366 | an agent completed earlier is counted as a success unless `skipped` lists it (then skipped), or as failed when reading `skipped` raises |
| Tally.FailureCountsAsFailed | Agents-v2/orchestrate_fast.py:367-368 | a transformation that returned False is counted as failed |
| Tally.Total | Agents-v2/orchestrate_fast.py:406-411 | each key of the totals is at least that key of every category |
| Tally.ExitCode | Agents-v2/orchestrate_fast.py:420-424 | the exit code is 0 or 1, and 0 exactly when the failed count is 0 |
| Tally.TotalFailedZero | Agents-v2/orchestrate_fast.py:406-411 | the total failed count, a key-wise sum, is zero if and only if every category's failed count is zero |
| Tally.ExitCodeAll | Agents-v2/orchestrate_fast.py:420 | `main --all` exits with 0 if and only if no category had a failure, and otherwise with 1 |
| Tally.AllFold | Agents-v2/orchestrate_fast.py:406-411 | the loop over the categories keeps one tally per category and never changes `skipped` |
| Tally.AllFoldCounts | Agents-v2/orchestrate_fast.py:406-411 | each category's tally adds up to the number of agents found in that category |
| Tally.TotalSum | Agents-v2/orchestrate_fast.py:406-411 | key-wise totals of tallies that each count their category's agents add up to the number of agents found overall |
| Tally.AllFoldSum | Agents-v2/orchestrate_fast.py:406-411 | the totals over all categories add up to the number of agents found in the categories that exist |
| Orchestrator.FastOrchestrator.constructor | Agents-v2/orchestrate_fast.py:46-68 | start-up: counters zero, progress loaded or empty, the local model list empty when Ollama is not running |
| Orchestrator.FastOrchestrator.SelectModel | Agents-v2/orchestrate_fast.py:114-127 | the loop over the preference list returns exactly the choice `ModelChoice` describes |
| Orchestrator.FastOrchestrator.CallOpenAI | Agents-v2/orchestrate_fast.py:129-152 | the loop's answer, number of attempts and sleeps are those of `OpenAIRun`; the counters change by its hits, and progress and files do not change |
| Orchestrator.FastOrchestrator.CallOllama | Agents-v2/orchestrate_fast.py:154-181 | the loop's response, number of attempts and sleeps are those of `OllamaRun`; the local counter changes by its hits, and nothing else changes |
| Orchestrator.FastOrchestrator.CallWithFallback | Agents-v2/orchestrate_fast.py:273-282 | the answer, the new counters and the calls made are those of `DispatchSpec`, and progress and files do not change |
| Orchestrator.FastOrchestrator.TransformAgent | Agents-v2/orchestrate_fast.py:224-326 | the result, the new counters, progress and files, and the backend calls made are those of `AgentStep` |
| Orchestrator.FastOrchestrator.TransformCategory | Agents-v2/orchestrate_fast.py:328-384 | the tally and the new state are those of transforming and counting the agents one after another (`CategoryRun`) |
| Orchestrator.FastOrchestrator.RunAll | Agents-v2/orchestrate_fast.py:399-420 | the totals are the key-wise sum of the category tallies, the state is that after all ten categories in order, and the exit code is 0 exactly when the failed total is 0 |
| Orchestrator.FastOrchestrator.RunCategory | Agents-v2/orchestrate_fast.py:422-424 | one category's tally and state as in `CategoryRun`; the exit code is 0 exactly when it has no failure |

## Left out

- Network and disk I/O are not modelled. This covers the OpenAI client, the requests to Ollama on localhost:11434, and `check_ollama` / `get_available_ollama_models` (lines 70-87). Their results are inputs: constructor arguments, and one outcome per attempt.
- `load_progress` and `save_progress` (lines 89-100) are inputs too. The loaded progress is a constructor argument. Saving is modelled only by whether it raises; the saved file's contents are not modelled.
- Reading the v1 definition and the template is modelled only by success or failure. The research file and its `cloud-agent` special case (lines 237-240, 258-262) are not modelled, because they only feed the prompt.
- `generate_prompt` (lines 183-214) is text construction with no decisions. The backend outcomes stand for the answers to whatever prompt was sent, so the model name passed to a call does not influence its outcome.
- `validate_yaml` / `yaml.safe_load` (lines 216-222) are a foreign parser, taken as a function parameter. An exception from it other than a YAML error is not modelled.
- Directory creation and the `.invalid` copy are modelled only by whether the copy got written. The agent list is taken as given: `glob` and the `stem.replace('-definition', '')` renaming (lines 342-343) are file-system data.
- The thread pool (lines 350-371) is a sequential loop over the agents in the order found, so `max_workers` plays no part. The unlocked sharing of `progress` and `stats` between worker threads is not modelled. Neither is an exception escaping `transform_agent` through `future.result()`, other than the `skipped` read modelled in `Tally.SkippedIds`.
- Time is not modelled: `start_time`, the elapsed time and rate summary (lines 374-375), and logging. A sleep appears only as its duration in seconds, returned by the call methods.
- `total_cost` is kept in whole cents, two per counted cloud call, instead of a float sum of 0.02.
- Argument parsing, and the help branch that exits with 1 (lines 426-428), are not modelled.
- `Agents-v2/verify_yaml.py` is not part of this model. It is a script over `glob`, `open`, `print` and the YAML library.
- Entries of `skipped` that are neither strings nor objects are not modelled.
- Agent.CompletedChanges: does not claim that every failure leaves `completed` unchanged. A `save_progress` that raises (lines 318-326) fails after the id was appended.
- Fence.StripFence: its own contract covers only the unfenced case; the fenced case is stated by `Fence.StripFenceLines`.
- Retry.OpenAIRunOutcome: claims "exactly one call counted on success" only for runs with no attempt that raised while reading its answer. Such an attempt is counted as well (lines 145-148).
- Retry.OllamaRunOutcome: claims "exactly one call counted on success" only for runs with no 200 whose body could not be read. Such a response is counted as well (lines 175-177).
