# Night Shift Agent: build-verification-gated task loop

This project models the core of the Night Shift Agent (`agent_gemini.py`).
The agent is an autonomous coding assistant. It reads tasks from `tasks.txt`
and works on each one in a conversation with a remote model. The model asks
for four tools: read a file, write a file, list files, and run a shell
command. A task counts as done only when the model stops asking for tools
while the build state is verified. Verified means that a build-like or
test-like shell command has passed since the last successful write (or the
reset at the start of the task), and that the last such command since then
whose run returned an exit code exited with 0. A command that timed out or
raised (it could not be started, or its output could not be decoded)
changes nothing. The task line is then
rewritten in place as `[x] ...` on success or `[!] ...` on failure.

The model is organised as the program is:

- `Text` (`text.dfy`) holds the Python string operations the code relies on. These are `strip`, `lstrip`, `rstrip` with the `str.isspace` character set, `startswith`, `endswith`, substring `in`, ASCII `lower`, `s[-n:]`, `"\n".join` and `os.path.join`.
- `BuildVerification` (`build_state.dfy`) holds the `BuildState` class with its mutable flags. It also has a value snapshot, `Snapshot`, that the pure specifications work on.
- `Tools` (`tools.dfy`) holds:
  - tool-result truncation;
  - `list_files`, as a walk over a directory tree with its filters and 100-entry cap;
  - the `read_file`, `write_file` and `run_shell` replies and their effect on the build state;
  - the `available_functions` dispatch.
- `RetryPolicy` (`retry.dfy`) holds `call_api_with_retry`.
- `Agent` (`agent.dfy`) holds `process_task`'s conversation loop.
- `TaskQueue` (`task_queue.dfy`) holds `main`'s scan, run and mark loop over `tasks.txt`.

Each loop of the source is a Dafny method with a `while` loop. Each method is proved to compute a pure specification function:

| method | specification function |
|---|---|
| `CollectFiles` | `Listing` |
| `CallApiWithRetry` | `Retry` |
| `RunToolCalls` | `RunCalls` |
| `Iterate` | `NextStep` |
| `Conduct` | `Converse` |
| `ServeTasks` | `Drain` |

The properties are proved as lemmas about those functions.

External effects become inputs to the model:

- **Remote model.** The remote model is an oracle `api: nat -> Attempt<Reply>`. It is indexed by the number of API attempts made so far in the task. Each attempt either fails or returns a reply: the reply's text plus its tool calls. Each call has an id, a name, and arguments that are invalid JSON, a JSON value that is not an object, or an object.
- **Tool results.** File contents, write errors, the directory tree and shell outcomes come from an oracle `world: nat -> World`. It is indexed by the number of tools executed so far in the task.
- **`main`.** What `main` reads comes in as parameters: `tasks.txt` (absent, or its lines), `ARCHITECTURE.md`, and the project tree. Its run uses a finite sequence of such oracles, one per task run.

## Model

| member | source | states |
|---|---|---|
| BuildVerification.Initial | agent_gemini.py:70-76 | a fresh or reset state has all four flags false and no last error; it is consistent (`build_passed ⇒ build_attempted`) and not verified |
| BuildVerification.Invalidated | agent_gemini.py:117-119 | a successful write clears both build flags and keeps the test flags and the last error; the result is consistent and not verified |
| BuildVerification.AfterShellCharacterized | agent_gemini.py:172-200 | `run_shell` keeps the state consistent; a timeout, an error or an unclassified command changes nothing; a classified command sets `build_attempted`, and sets `build_passed` exactly when it exits with 0; a passing test-like command also sets both test flags; a failing classified command keeps the test flags and stores the last min(2000, n) characters of stdout+stderr |
| BuildVerification.ShellDecidesVerification | agent_gemini.py:80-84 | after a shell command the build is verified exactly when the command was classified and exited with 0, or when it was not classified and the build was already verified |
| BuildVerification.GradlewBuildIsClassified | agent_gemini.py:172-188 | `./gradlew build` is build-like; it marks the build attempted and passed exactly on exit 0, and on failure records the tail of its output |
| BuildVerification.ApplyVerified | agent_gemini.py:80-84 | one tool event verifies the build exactly when it is a classified command that exits with 0; a successful write or a classified failure loses verification, and any other event keeps it as it was |
| BuildVerification.ReplayVerified | agent_gemini.py:117-187 | after any sequence of tool events the build is verified exactly when the last decisive event (a successful write, or a classified command that finished) is a command that exited with 0; with no decisive event, verification is as before |
| BuildVerification.WriteBuildThenFailingTest | agent_gemini.py:117-187 | after a successful write, a passing `./gradlew build` verifies the build, and a later failing `make test` makes it unverified again |
| BuildVerification.BuildThenUnfinishedStaysVerified | agent_gemini.py:195-200 | after a successful write and a passing `./gradlew build`, a `./gradlew test` that times out, or a `./gradlew build` that raises, leaves the build verified |
| BuildVerification.BuildState.constructor | agent_gemini.py:70-76 | a new `BuildState` is in the initial state |
| BuildVerification.BuildState.Reset | agent_gemini.py:77-78 | `reset` returns to the initial state |
| BuildVerification.BuildState.InvalidateBuild | agent_gemini.py:117-119 | the fields become the invalidated snapshot of the old fields |
| BuildVerification.BuildState.RecordCommand | agent_gemini.py:177-187 | the field updates of a classified command: attempted, passed iff exit 0, test flags on a passing test-like command, tail of output on failure |
| Tools.TruncateCharacterized | agent_gemini.py:379-380 | a result of at most 10000 characters is unchanged; a longer one has exactly 10023 characters: its first 5000, the marker `\n\n... [truncated] ...\n\n`, and its last 5000 |
| Tools.CappedCharacterized | agent_gemini.py:147-150 | at most 101 lines; fewer than 100 paths are kept as they are; otherwise the first 100 paths followed by the marker `... (truncated, 100+ files)` |
| Tools.WalkSound | agent_gemini.py:133-145 | every entry the walk lists is a file of the tree, its name does not start with `.` or end with an ignored extension, and every directory on its way is neither ignored nor dot-prefixed |
| Tools.WalkComplete | agent_gemini.py:133-145 | every file of the tree that passes the file filters and lies only under directories the walk may enter is listed |
| Tools.ListingCharacterized | agent_gemini.py:127-152 | the listing's first 100 lines are, in walk order, the joined paths of files that pass the filters and lie in the tree; the marker line exists exactly when 100 such files were found; with fewer than 100, every such file is listed |
| Tools.ListFiles | agent_gemini.py:127-152 | `list_files` returns the lines of `Listing` joined with newlines |
| Tools.CollectFiles | agent_gemini.py:133-152 | the nested loop over directories and file names, with the early return at the cap, computes `Listing` |
| Tools.ShellReplyCharacterized | agent_gemini.py:189-200 | exit 0 returns the output; a non-zero exit returns `Command failed with exit code …` ending in `:\n` and the output; a timeout and an exception return their error texts |
| Tools.WriteFile | agent_gemini.py:108-124 | a write that does not raise invalidates the build state and reports success; a write that raises changes nothing and reports the error |
| Tools.RunShell | agent_gemini.py:155-200 | the new build state is `AfterShell` of the old one, and the reply is `ShellReply` of the outcome |
| Tools.Lookup | agent_gemini.py:263-268 | a name is a tool exactly when it is one of `read_file`, `write_file`, `list_files`, `run_shell` |
| Tools.ExecuteEffects | agent_gemini.py:96-200 | reading and listing leave the build state unchanged; a write that does not raise invalidates the build; a shell command updates the state as `run_shell` does; every tool keeps the state consistent |
| Tools.ReadReplyCharacterized | agent_gemini.py:96-106 | a successful read returns the file's contents unchanged; a failed read returns `Error reading file <path>`, ending with `: ` and the error |
| Tools.ExecuteApplies | agent_gemini.py:96-200 | running a tool changes the build state exactly as its event does: a write as `Wrote`, a shell command as `Ran`, a read or listing not at all |
| Tools.Invoke | agent_gemini.py:375-376 | calling the bound tool yields the state and reply of `Execute` |
| RetryPolicy.RetryFromFacts | agent_gemini.py:276-293 | from attempt k, the retry loop makes between k+1 and 3 attempts; all but the last fail; it answers with the last attempt's value on success and gives up only after failing attempt 3; it sleeps `2·2^j` after each failed attempt j except the last |
| RetryPolicy.RetryCharacterized | agent_gemini.py:274-293 | 1 to 3 attempts, all but the last failed; an answer exactly when the last attempt succeeded, and then its value; no answer exactly when all three attempts failed; the sleeps are `[2, 4, …]`, one per failure before the last attempt |
| RetryPolicy.ThreeFailures | agent_gemini.py:285-293 | three failures give no answer after three attempts with sleeps `[2, 4]` |
| RetryPolicy.CallApiWithRetry | agent_gemini.py:274-293 | the `for attempt` loop with its early return and final re-raise computes `Retry` |
| Agent.RunCallsFacts | agent_gemini.py:348-387 | the tool calls of one reply only append to the transcript, only tool messages, at most one per call |
| Agent.RunCallsConsistent | agent_gemini.py:362-376 | running the tool calls keeps `build_passed ⇒ build_attempted` |
| Agent.RunCallsCount | agent_gemini.py:352-387 | when no call raises, exactly one message is appended per call with a known name, so none for an unknown name |
| Agent.RunCallsReplays | agent_gemini.py:353-387 | the calls of one reply change the build state exactly as replaying, in order, the events of the tools they run, so `ReplayVerified` decides whether the state after them is verified |
| Agent.RunCallsAnswers | agent_gemini.py:353-387 | when nothing raises, the call at index i with a known name is answered by the tool message at position (known calls before it) past the old transcript; it carries the call's id and name; its content is `Error: Invalid JSON arguments: ` and the error for invalid JSON, and otherwise the truncated result of the tool run on the state the earlier calls left, at most 10023 characters |
| Agent.HarmlessCallsDoNotRaise | agent_gemini.py:352-376 | calls with unknown names, invalid JSON or arguments that bind never raise |
| Agent.StepBounds | agent_gemini.py:338-346 | one iteration counts one more iteration, makes at most 3 API attempts and never ends on the ceiling |
| Agent.ConverseBounds | agent_gemini.py:336-415 | the loop ends within 50 iterations and with at most 3 attempts per iteration; it fails on the ceiling only at iteration 50 |
| Agent.ConverseExtends | agent_gemini.py:331-387 | the transcript is append-only |
| Agent.ConverseConsistent | agent_gemini.py:336-415 | the loop keeps `build_passed ⇒ build_attempted` |
| Agent.ConverseCompletes | agent_gemini.py:389-397 | the loop completes only while the build is verified, on a reply without tool calls that is the last message |
| Agent.TaskGate | agent_gemini.py:299-415 | from the start of a task (the state reset, the system prompt and `TASK: …`): at most 50 iterations and 150 attempts, the transcript starts with those two messages, the state stays consistent, and success implies `build_attempted ∧ build_passed` |
| Agent.UnverifiedFinishIsCorrected | agent_gemini.py:396-409 | a reply without tool calls while unverified appends exactly the reply and one corrective user message, then the loop continues with the next iteration |
| Agent.BusyModelHitsCeiling | agent_gemini.py:338-415 | a model that always answers with tool calls that do not raise makes the task fail on the ceiling at iteration exactly 50 |
| Agent.RunToolCalls | agent_gemini.py:348-387 | the `for tool_call` loop computes `RunCalls` on the build state and transcript |
| Agent.Iterate | agent_gemini.py:338-409 | one pass of the `while` loop computes `NextStep` |
| Agent.Conduct | agent_gemini.py:331-415 | the `while iteration < MAX_ITERATIONS` loop from the reset state computes `Converse` from the start of the task |
| Agent.ProcessTask | agent_gemini.py:299-415 | `process_task` computes `Converse`, ends within 50 iterations with a consistent state, and succeeds only with `is_verified()`, `build_attempted` and `build_passed` |
| TaskQueue.FirstPendingCharacterized | agent_gemini.py:466-474 | the scan selects the least index of a line that, stripped, is non-empty and starts with neither `[x]` nor `#`; it gives -1 exactly when there is none |
| TaskQueue.FindPending | agent_gemini.py:466-474 | the `for i, line` loop returns that index and the stripped line, or -1 and the empty task |
| TaskQueue.MarkedTaskText | agent_gemini.py:488-498 | a marked line, stripped, is `[x] ` or `[!] ` followed by the stripped task |
| TaskQueue.MarkingAndPending | agent_gemini.py:471 | a pending line marked done is no longer pending; one marked failed still is |
| TaskQueue.DrainRewritesOnlyPending | agent_gemini.py:461-500 | the queue keeps the number of lines and never changes a line that is not pending |
| TaskQueue.DrainCounts | agent_gemini.py:461-486 | at most one task runs per round; running out of rounds means every round ran a task |
| TaskQueue.DrainSuccesses | agent_gemini.py:484-494 | the queue counts no more successes than tasks processed |
| TaskQueue.DrainEnds | agent_gemini.py:476-478 | the queue ends with all tasks done exactly when the scan finds no line |
| TaskQueue.QueueEndsWithNothingPending | agent_gemini.py:466-478 | when `main` ends with all tasks done, no line of `tasks.txt` is pending |
| TaskQueue.FailedTaskReselected | agent_gemini.py:469-498 | after a failure the `[!]`-marked line is still the first pending line, so the next round selects it again |
| TaskQueue.FailingTaskNeverDrains | agent_gemini.py:461-504 | as written, a single task with the remote service down is re-run in every round, and the queue never finishes |
| TaskQueue.FirstOpen | agent_gemini.py:469-474 | the intended scan returns the least index of a line that is pending and not `[!]`-marked, or -1 exactly when there is none |
| TaskQueue.MarkingCloses | agent_gemini.py:488-498 | a marked line, done or failed, is not selected by the intended scan |
| TaskQueue.IntendedQueueDrains | agent_gemini.py:461-504 | with the intended scan, as many rounds as there are open lines always suffice |
| TaskQueue.FailingTaskDrainsWhenIntended | agent_gemini.py:461-504 | with the intended scan, the same failing task is marked once and the queue is done |
| TaskQueue.ScanExample | agent_gemini.py:469-474 | on `[x] a`, `b`, `# c`, `[!] d`, blank, the scan selects index 1, and `[!] d` counts as pending |
| TaskQueue.ServeTasks | agent_gemini.py:461-504 | the `while True` loop of `main` computes `Drain` with the scan as written |
| TaskQueue.RunQueue | agent_gemini.py:437-504 | `main` loads the guide (empty without `ARCHITECTURE.md`) and the listing of `.`; it ends at once without `tasks.txt`, and otherwise computes `Drain` |

The source behaves differently from what one might expect in four places. The model follows the code:

- `[!]`-marked lines count as pending (line 471), although line 501 logs "Skipping to next task..." after marking one; see Findings.
- A tool call with an unknown name appends no tool message (lines 358-360).
- A failing test-like command does not set `test_attempted` (lines 181-187).
- Arguments that are not a JSON object, or do not bind to the tool's parameters, are not reported back as an error result. `function_to_call(**function_args)` raises `TypeError`, nothing catches it (line 376), and it ends the whole run. The model has the outcome `Crashed` for this, and `main` stops with `Aborted`.

## Left out

- I/O. The OpenAI/OpenRouter client, `subprocess.run`, file reads and writes, and `os.walk` are left out; their results are the oracle inputs described above. Directory creation in `write_file` is folded into the write error.
- JSON parsing. Decoded arguments are a map from names to strings; argument values of other JSON types are not modelled.
- Object message fields and prompt text. The system prompt is kept as the guide and file list it embeds. The prompt text and the tool schema literal are constant data.
- Logging, `load_dotenv`, the banner, the session summary and `sys.exit` on a missing API key. These are plumbing.
- `time.sleep`. The retry sleeps are recorded as data. The 2-second pause between tasks is not recorded.
- Re-reading `tasks.txt` at the start of each round. The model assumes nothing else edits the file, so the lines read back are the lines last written.
- Symbolic links and the order `os.walk` yields entries. The tree gives both directly.
- Text.Lower: lowercases ASCII letters only, not the full Unicode mapping of `str.lower`.
- TaskQueue.RunQueue: the `while True` loop of `main` is run over a finite sequence of per-task oracles, so the model also ends with `OutOfRounds` when they run out. The source has no such bound; under the scan as written it can loop forever (see Findings).
- Fork, branch and pull-request creation and CI polling and remediation are not in `agent_gemini.py`. They are not modelled.

## Findings

| source | as written | input that shows it | evidently intended | confidence | as-written member | corrected member |
|---|---|---|---|---|---|---|
| agent_gemini.py:471 | the scan skips only `[x]` and `#` lines, so a line marked `[!] ` after a failure is still pending | `tasks.txt` = `a` with every API attempt failing: round 1 writes `[!] a`, round 2 selects it again and writes `[!] [!] a`, and so on without end | a failed task is marked and skipped for the rest of the session ("Skipping to next task...", line 501) | not executed | TaskQueue.FailingTaskNeverDrains | TaskQueue.IntendedQueueDrains |

`Drain` takes the scan as a parameter: the code as written (`FirstPending`) or the intended scan (`FirstOpen`, which also skips `[!]` lines). `RunQueue` follows the code as written. Under the intended scan, every round closes one open line (`MarkingCloses`), so the queue ends once it has had as many rounds as there are open lines.
