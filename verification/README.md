# Agent-Anvil, modelled and proved

Agent-Anvil runs coding agents as Kubernetes tasks and records every run as a trace of events.
This project models three parts of it in Dafny and proves what holds of them for all inputs,
all runs and all interleavings. `dafny verify dfyconfig.toml` checks everything.

## The agent loop and its trace

`Loop.Run` is the loop as it runs: LLM calls, tool calls on a disk, an event writer, and a clock
that is either the operating system's or a recording. `Plan` is the same loop without a clock: a
list of actions that depends on the task, the model's answers and the tools only. `Loop.Run` is
proved to carry out its plan, exceptions included, and everything else is proved about plans:

- `Replay`: a recorded clock is never read out of range and reproduces the trace event by event.
  Latencies are not reproduced, because a recorded clock only moves when an event is written:
  the model gives the exact latency a replay logs, when it equals the recorded one, a run in which
  it does not, and what happens with a recording that is too short.
- `Telling`: what the trace and the next request say is what the model answered and the tools did.
- `Monitor`, `Acceptance`: an automaton that reads events only accepts every trace. It checks brackets,
  step numbers, ids, hashes, costs, and that `agent_done` is what the other events imply; it shares
  with the loop only the prices.
- `Audit`: the `file_mutation` events explain the workspace exactly.
- `Budget`, `Conversation`, `Scripted`: time, message history, and the closed form of a scripted run.

The model is an oracle by call number and request; `bash` and `web_search` are an oracle on the
workspace. Both may raise. The loop's docstring lists `file_mutation` after `tool_call_end`; the code
writes it before, and so does the model.

## The operator

`Cluster` is the Reconcile protocol: any number of calls at once, each from any past version of its
task, one atomic step per API call, stops between any two steps, users editing and deleting, pods
changing on their own. Looking for a ConfigMap or policy and creating it is one step: looking changes
nothing, these objects stay, and a creation that finds its object in place fails and ends the call
(in `Reconciler` they are two API calls, shown to amount to that step). A status write commits only
from the current version. The theorems hold for every list of actions from the empty cluster;
`ClusterPhases` alone assumes that pods age (Pending, Running, Succeeded or Failed, gone), that a
failed pod stays evicted or not evicted, and that lookups see pods in that order. `Reconciler.Reconcile` is the code of one call, with arbitrary steps of others
before each of its API calls; it is proved to make, together with them, a run of the protocol, so that
the theorems hold while calls overlap in any way. `Lifecycle` follows a task to the end of its pod.

SHA-256 is any function to 64 characters. It is not assumed injective (no function of fixed width is);
where the code relies on it, the theorem says that digests agree.

## The file tools

Text is a sequence of Unicode scalar values, files are bytes. `FileEdit` gives exact conditions under
which `file_edit` changes only its range, can be undone, and commutes; the conditions are not always
met: replacing lines before a blank last line by other text drops that line (`BlankLastLineIsLost`).
`FileRead` says exactly when `file_read` and `file_edit` number the same lines. `Utf8` has encoder,
strict decoder and replacing decoder for all byte strings, and the exact shape of a truncated result.

## Model

| member | source | states |
|---|---|---|
| Loop.Run | sdk/python/src/agent_anvil/loop.py:82-215 | For every task, model, tool set, disk and clock, the log, clock, step and files after `run` are those of carrying out the clock-free plan; `run` raises exactly when the clock does, and otherwise returns the data of the last event |
| Loop.RunTurn | sdk/python/src/agent_anvil/loop.py:130-197 | One turn of the while loop carries out its plan; tokens, cost and messages are updated as planned, and a turn raises only on an exhausted clock |
| Loop.RunOneTool | sdk/python/src/agent_anvil/loop.py:218-291 | Missing tools and raising tools become error results with exit codes 127 and 1; only the clock can raise |
| Loop.BuildAssistantMessage | sdk/python/src/agent_anvil/loop.py:73-79 | The two loops build the text blocks followed by the tool-use blocks, in order |
| Telling.RunIsTold | sdk/python/src/agent_anvil/loop.py:107-215 | The story of every run: agent_start with the task's own data, the tools it names that exist and its limit (25 if none is given), then the turns from step 0 on, each told as below, then agent_error with the exception if the last call raised one, and agent_done |
| Telling.TurnIsTold | sdk/python/src/agent_anvil/loop.py:130-197 | One turn: the request carries the task's system prompt, parameters and tools and the history so far; llm_call_start and llm_call_end carry its hash, the answer's own tokens, stop reason and hash and its cost; the next history is the old one, the answer's texts and tool uses, and the tool results; "max_tokens" and "error" end the run as failed, everything else as completed |
| Telling.ToolsTold | sdk/python/src/agent_anvil/loop.py:218-291 | For every tool use, in order and in the workspace the one before it left: tool_call_start with its name and arguments, and tool_call_end and result block with the same content under its id: the tool's content, exit code, truncation and error flag, or the text of its exception with exit code 1, or "Tool not available" with 127 |
| Events.EventWriter.Emit | sdk/python/src/agent_anvil/events.py:105-125 | Stamps with two readings, appends exactly one event, then ticks; on an exhausted recording it raises and changes nothing |
| Events.EventStamps | sdk/python/src/agent_anvil/events.py:105-125 | An event is stamped with two readings, first the time of day, then the monotonic one; a recording answers both from one pair and moves to the next |
| Events.LatencyExact | sdk/python/src/agent_anvil/loop.py:169-169 | The logged latency is the number of whole milliseconds between the readings, and 0 if time runs backwards |
| Events.Ticker.Tick | sdk/python/src/agent_anvil/deterministic.py:56-77 | Moves a recorded clock by one pair, raises past the end, leaves the operating-system clock alone |
| Trace.ExecLogs | sdk/python/src/agent_anvil/events.py:105-125 | Whatever the clock says, a run logs the events of its plan in order: all of them, or a first part if the clock gave out |
| Replay.ReplayReproduces | sdk/python/src/agent_anvil/deterministic.py:44-77 | With the recorded pairs (or more), a replay never reads out of range, ends at index n, logs the same n events with the latency given by Replayed, and leaves the same files |
| Replay.ExactReplayIff | sdk/python/src/agent_anvil/loop.py:146-169 | The replayed trace equals the recorded one to the last digit if and only if every LLM latency was 0 and every tool latency was the time since its file_mutation, or 0 |
| Replay.ReplayCompletesIff | sdk/python/src/agent_anvil/deterministic.py:56-77 | For every recording, a replay completes if and only if it has at least as many pairs as the run has events; a shorter one stops with one event per pair, a prefix of the story |
| Replay.ReplayLosesLatency | sdk/python/src/agent_anvil/loop.py:146-169 | Whenever the model answers the first call and at least a millisecond passes between the two readings around it, the recorded event has that latency, the replayed one has 0, and the traces differ |
| Replay.LatencyLost | sdk/python/src/agent_anvil/loop.py:146-169 | A concrete task, answer and clock for which the replayed trace is not the recorded one |
| Replay.ReplayIdempotent | sdk/python/src/agent_anvil/deterministic.py:44-77 | For every recording, too short ones included, a run from the pairs of a replay's trace logs that trace again to the last digit, with the same files and the same end |
| Acceptance.StoryAccepted | sdk/python/src/agent_anvil/loop.py:107-215 | Every run, with raising models and tools, produces a trace in the language of the monitor: brackets, consecutive step numbers, matching ids and hashes, costs, 2k+1 messages at step k, and at most one crash, inside the last step |
| Acceptance.TraceAccepted | sdk/python/src/agent_anvil/loop.py:201-215 | The same for the stamped log of every run its clock does not cut short, with agent_done last |
| Monitor.DoneIsReconstructible | sdk/python/src/agent_anvil/loop.py:206-215 | An accepted trace begins with agent_start and ends with agent_done, whose five fields follow from the events before: total_steps counts agent_step_end, token totals are sums over llm_call_end, the cost is the price of those totals for the model in agent_start, and the outcome is "failed" after an agent_error, "max_steps" if no step closed or the last one used tools, and otherwise what the last stop reason means |
| Monitor.OutcomeInWords | sdk/python/src/agent_anvil/loop.py:189-204 | In an accepted trace the outcome is "failed" after an agent_error, "max_steps" if no step closed or the last answer had its tools called, and otherwise "failed" if and only if the last stop reason is "max_tokens" or "error", and "completed" if and only if it is anything else |
| Monitor.TotalStepsIff | sdk/python/src/agent_anvil/trace.py:24-26 | Trace.total_steps is the number of started steps, at least 1, and agrees with agent_done if and only if there is no agent_error and at least one step |
| Acceptance.NoStepsCountAsOne | sdk/python/src/agent_anvil/trace.py:24-26 | With a limit of zero or less, agent_done reports 0 steps and Trace.total_steps 1 |
| Monitor.CostDrift | sdk/python/src/agent_anvil/pricing.py:13-30 | Over k calls the logged costs differ from the reported total by at most (k+1)/2 micro-dollars, and not at all if the model in agent_start is priced in whole dollars |
| Pricing.MillionTokens | sdk/python/src/agent_anvil/pricing.py:13-30 | What a million input tokens and a million output tokens cost for each model of the table; 0 for every other model |
| Pricing.RoundsToNearest | sdk/python/src/agent_anvil/loop.py:168-168 | Rounding gives the nearest micro-dollar, the even one of two |
| Budget.LatenciesFitTheSpan | sdk/python/src/agent_anvil/loop.py:146-169 | With a clock that never runs backwards, and wherever it gives out, event stamps are in order and all latencies together are at most the span from agent_start to the last event |
| Conversation.HistoryOfEveryCall | sdk/python/src/agent_anvil/loop.py:120-182 | Call k of a run logs the hash of a request with 2k+1 messages; every earlier tool use is answered in the next user turn, once, in order and under its id; later histories extend earlier ones |
| Conversation.RequestsAreDistinct | sdk/python/src/agent_anvil/loop.py:54-61 | No two calls of a run send the same request, and the logged request hashes are the hashes of those requests, so two equal ones would be a SHA-256 collision |
| Scripted.ScriptedTraceEnds | sdk/python/src/agent_anvil/loop.py:129-204 | The outcome and step count in the trace of a run against a script that its clock does not cut short, in closed form over the script and the limit |
| Scripted.ScriptedRunEnds | sdk/python/src/agent_anvil/loop.py:129-204 | The same for the plan, for every task and script, with limits of zero and less |
| Scripted.ScriptedClient.Complete | sdk/python/src/agent_anvil/client/mock.py:30-45 | Answers call number idx as the oracle does and advances only on an answer |
| Audit.LogExplainsFiles | sdk/python/src/agent_anvil/tools/base.py:84-107 | For every run in which no shell call changes files, and every clock, also one that gives out in the middle: an auditor who starts from sizes and hashes and follows the file_mutation events never objects and ends with the sizes and hashes of the files as they are left |
| Audit.FileToolsLogAll | sdk/python/src/agent_anvil/tools/base.py:84-107 | With file tools only, no call of any run changes files without logging it |
| Audit.FollowedChain | sdk/python/src/agent_anvil/tools/file_write.py:49-64 | Per path: "create" exactly first and only for a new file, each size_before is the previous size_after, the last event carries the final size and hash |
| Tools.ErrorsChangeNothing | sdk/python/src/agent_anvil/tools/file_edit.py:57-171 | File tools never raise; error answers change neither files nor log, and successful writes and edits change both |
| Tools.RunFileWrite | sdk/python/src/agent_anvil/tools/file_write.py:29-67 | Performs exactly the planned effect on disk and log, the write before the event |
| Tools.RunFileEdit | sdk/python/src/agent_anvil/tools/file_edit.py:57-109 | The argument, path and decoding checks in order, then the edit; performs exactly the planned effect |
| Tools.RunEdit | sdk/python/src/agent_anvil/tools/file_edit.py:111-171 | Split, splice, join, newline repair and write, as planned |
| Tools.RunTool | sdk/python/src/agent_anvil/tools/base.py:65-74 | Dispatch and clamp; the answer of a tool is told apart from an exception of the clock |
| ToolRoundTrips.WriteCallIff | sdk/python/src/agent_anvil/tools/file_write.py:29-67 | file_write writes if and only if a path and a text are given and the path stays in the workspace; then the file it resolves to holds the text, no other file changes, and the event says create or edit, both sizes and the SHA-256 |
| ToolRoundTrips.EditCallIff | sdk/python/src/agent_anvil/tools/file_edit.py:57-171 | file_edit edits if and only if all its checks pass (path, integers in order, text, existing UTF-8 file, start at most one past the last line); then exactly that file holds the edited text, and the event matches |
| ToolRoundTrips.ReadCallRefuses | sdk/python/src/agent_anvil/tools/file_read.py:44-98 | file_read refuses a missing path, one that leaves the workspace or leads nowhere, more than 1 MiB, bytes that are not UTF-8, and line numbers that are no integers |
| ToolRoundTrips.LineNumbers | sdk/python/src/agent_anvil/tools/file_edit.py:65-70 | Which arguments count as line numbers and as texts; booleans count as 0 and 1 |
| ToolRoundTrips.WriteSays | sdk/python/src/agent_anvil/tools/file_write.py:29-67 | The text of every answer of file_write, by the first check that fails |
| ToolRoundTrips.EditSays | sdk/python/src/agent_anvil/tools/file_edit.py:57-171 | The text of every answer of file_edit, by the first check that fails; a success names the lines replaced, at most up to the last one, and both sizes |
| ToolRoundTrips.ReadSays | sdk/python/src/agent_anvil/tools/file_read.py:44-98 | The text of every refusal of file_read, by the first check that fails |
| ToolRoundTrips.AnswersAreBounded | sdk/python/src/agent_anvil/tools/base.py:65-74 | Any other tool: an exception passes through, an answer of up to 65536 bytes is not touched, a longer one is cut to at most 65550 bytes and flagged, exit code and error flag unchanged |
| ToolRoundTrips.WrittenTextIsRead | sdk/python/src/agent_anvil/tools/file_write.py:53-54 | What file_write stores decodes to the content given, and no other file changes |
| ToolRoundTrips.WriteThenRead | sdk/python/src/agent_anvil/tools/file_read.py:76-110 | A file_read of the path just written lists the lines of the content, is refused if and only if that is more than 1 MiB, and is complete unless it says truncated |
| ToolRoundTrips.UndoOnDiskIff | sdk/python/src/agent_anvil/tools/file_edit.py:100-154 | Undoing an edit with the tool restores every byte of the workspace if and only if the text-level condition holds |
| FileEdit.EditWrites | sdk/python/src/agent_anvil/tools/file_edit.py:77-153 | Every call: refused if and only if the range is invalid or starts past the line after the last; otherwise the text is lines before the range, new lines, lines after the range (ends past the last line clamped, a start right after the last line appending) joined, with the final newline kept |
| FileEdit.EndIsClamped | sdk/python/src/agent_anvil/tools/file_edit.py:146-148 | Every end past the last line writes the same text as the last line |
| FileEdit.AppendIgnoresEnd | sdk/python/src/agent_anvil/tools/file_edit.py:134-144 | Appending writes the same text for every end |
| FileEdit.LinesMakeText | sdk/python/src/agent_anvil/tools/file_edit.py:111-121 | The addressable lines hold no newline and, joined, with the final newline, are the text |
| FileEdit.NewLines | sdk/python/src/agent_anvil/tools/file_edit.py:143-147 | The new lines are none for empty content, and otherwise the lines of the content |
| FileEdit.ResplitIff | sdk/python/src/agent_anvil/tools/file_edit.py:111-153 | Re-splitting the written text yields prefix + replacement + suffix if and only if that list is non-empty and has one line or a non-blank last line |
| FileEdit.FinalNewlineIff | sdk/python/src/agent_anvil/tools/file_edit.py:115-152 | A terminated file stays terminated; an unterminated one becomes terminated if and only if the spliced list has a blank tail |
| FileEdit.BlankLastLineIsLost | sdk/python/src/agent_anvil/tools/file_edit.py:150-152 | Replacing line 1 of "a\n\n" by "b" leaves "b\n" |
| FileEdit.UndoIff | sdk/python/src/agent_anvil/tools/file_edit.py:123-153 | For every text, range and non-empty replacement, putting the old text back restores the file if and only if the stated condition on the inputs holds |
| FileEdit.UndoCanFail | sdk/python/src/agent_anvil/tools/file_edit.py:123-153 | Replacing line 1 of "a\n\n" and putting it back does not restore the file |
| FileEdit.DisjointEditsCommuteIff | sdk/python/src/agent_anvil/tools/file_edit.py:123-153 | For every text and every two disjoint ranges and replacements, both orders (the later range shifted by the growth) are accepted, and they write the same file if and only if the later range stops before the last line or a condition on the blank ends of the pieces holds |
| FileEdit.DisjointEditsCommute | sdk/python/src/agent_anvil/tools/file_edit.py:123-153 | Corollary: disjoint edits commute when the later range stops before the last line, and when the file and the later edit are stable |
| FileEdit.UnstableEditsNeedNotCommute | sdk/python/src/agent_anvil/tools/file_edit.py:123-153 | Two disjoint edits whose order shows in the result |
| FileRead.SameNumberingIff | sdk/python/src/agent_anvil/tools/file_read.py:83-91 | file_read and file_edit number the same lines if and only if the text is non-empty and its only line boundary is "\n" |
| FileRead.ReadAfterEditIff | sdk/python/src/agent_anvil/tools/file_read.py:91-110 | After any accepted edit, file_read lists the old prefix, the replacement and the old suffix if and only if the edit is stable, leaves some text and no line with another boundary in it, or leaves no lines and no text |
| FileRead.ListingParsesBack | sdk/python/src/agent_anvil/tools/file_read.py:91-110 | For every text and range, the listing parses back to exactly the clamped lines under their numbers; empty ranges are refused |
| FileRead.ListingShows | sdk/python/src/agent_anvil/tools/file_read.py:91-110 | For every text, start and end: a number is a row of the listing if and only if it is the number of a line and lies between start and end, rows come in order without gaps and carry their lines; a range is refused if and only if the file has lines and none was asked for |
| FileRead.ReadLinesCons | sdk/python/src/agent_anvil/tools/file_read.py:83-91 | Which lines file_read sees: a line ends at the first boundary, "\r\n" counts as one, and the rest follows; text without a boundary is one line, or none if empty |
| FileRead.BoundaryCodes | sdk/python/src/agent_anvil/tools/file_read.py:91-91 | The line boundaries of str.splitlines by code point |
| ToolRoundTrips.ReadCallParsesIff | sdk/python/src/agent_anvil/tools/base.py:65-74 | The answer of a file_read call, from the bytes on disk to what the model is given: it parses to the selected lines if and only if the listing fits in 65536 bytes; otherwise it ends with the marker and all rows but the last two parse |
| ToolRoundTrips.ReadCallShows | sdk/python/src/agent_anvil/tools/file_read.py:91-110 | The answer of the file_read call itself: exactly the lines asked for unless it says truncated; an error if and only if the file has lines and none was asked for |
| Lines.SplitJoin | sdk/python/src/agent_anvil/tools/file_edit.py:111-150 | Splitting undoes joining for every non-empty list of newline-free lines |
| Lines.JoinSplit | sdk/python/src/agent_anvil/tools/file_edit.py:111-150 | Joining undoes splitting for every text |
| Utf8.TruncationExact | sdk/python/src/agent_anvil/tools/base.py:65-74 | Content over 65536 bytes becomes the longest whole-character prefix that fits, one U+FFFD exactly if a character was cut, and the marker: at most 65550 bytes; `truncated` if and only if over the limit |
| Utf8.CutDecodes | sdk/python/src/agent_anvil/tools/base.py:71-72 | Cutting any encoding at any byte and decoding with replacement |
| Utf8.EncodingTable | sdk/python/src/agent_anvil/tools/base.py:69-70 | The table in section 3 of RFC 3629: number of bytes, marker bits and payload bits of every character |
| Utf8.DecodeEncode | sdk/python/src/agent_anvil/tools/file_edit.py:102-103 | Strict decoding undoes encoding |
| Utf8.EncodeDecode | sdk/python/src/agent_anvil/tools/file_edit.py:102-103 | Bytes that decode strictly are the encoding of their text |
| TaskStatus.UpdateFromPod | internal/controller/agenttask_controller.go:188-299 | The switch over the pod phase computes the observed status; the dirty flag is set if and only if the status changed, and a status is always sent for an unexpected phase |
| TaskStatus.CallStores | internal/controller/agenttask_controller.go:83-299 | The status one undisturbed call stores, field by field, for every status and pod state: phase, pod name, reason, start and finish; times once set stay, and other fields are unchanged |
| TaskStatus.DecideCases | internal/controller/agenttask_controller.go:78-300 | A call does nothing if and only if the task is being deleted, a live pod has no readable reference, or the status is right already; it provisions if and only if the task is pending without a pod |
| TaskStatus.FreshSettles | internal/controller/agenttask_controller.go:83-299 | Where a fresh task settles, from the third call on, for every pod state: Completed, Failed, Evicted, Running or Provisioning with the reason and times |
| Lifecycle.TaskFollowsPod | internal/controller/agenttask_controller.go:83-299 | For every task, spec and pod status, a run of the protocol from the empty cluster in which the task gets its pod and one more call sees that status ends with the stored status it calls for |
| TaskStatus.SettlesInThree | internal/controller/agenttask_controller.go:83-299 | Against a fixed pod state all calls after the third leave every valid status alone, whatever the call times |
| TaskStatus.InvalidNeverSettles | internal/controller/agenttask_controller.go:142-156 | A status without pod name beyond Pending stays so through every run of calls, never settles, and carries the time of the last call as its finishing time |
| ClusterHistory.WriteOnce | internal/controller/agenttask_controller.go:83-141 | Under every interleaving, pod name and start time are written once, and no version is in the invalid state |
| ClusterHistory.RunExtends | internal/controller/agenttask_controller.go:134-137 | Later states only append versions |
| Cluster.OthersAct | internal/controller/agenttask_controller.go:68-81 | What users and pods do: new tasks start fresh, edits and deletions make new versions with the status kept, lookups see the pod's new state |
| ClusterPods.PodsAreAccounted | internal/controller/agenttask_controller.go:111-141 | The pods of a task are exactly the one its status names and those whose creation was not followed by a committed write: at most one more pod than uncommitted creations |
| ClusterPods.RetryAddsPod | internal/controller/agenttask_controller.go:124-137 | From every state in which a call is about to create a pod: if it stops between creating and reporting it, a retry from the same snapshot creates a second one, and the first is abandoned |
| ClusterPods.RetryDuplicatesPod | internal/controller/agenttask_controller.go:83-141 | For every task and spec, a run from the empty cluster after which the task has exactly two pods, its status naming the second |
| ClusterObjects.EveryPodIsEquipped | internal/controller/agenttask_controller.go:101-127 | In every reachable state every pod was built from a stored version of its task, mounts an existing ConfigMap of that task with the digest of that version's spec, and is selected by a policy that denies all egress |
| ClusterPhases.PhasesOnlyClimb | internal/controller/agenttask_controller.go:158-300 | With pods whose phases only move on, under every interleaving: phases climb, terminal statuses are final with a finishing time, at most four status changes commit |
| Reconciler.Reconcile | internal/controller/agenttask_controller.go:62-303 | Whatever fails and whatever others do before each API call, the call and the others together make a run of the protocol, in which the others do exactly what they did and the call ends; a failed fetch is an error and a missing task is not; a call that returns no error leaves no unreported pod behind, and one that provisioned has the stored status name its pod; undisturbed, without faults and from the current version the stored status becomes the reconciled one |
| Reconciler.Provision | internal/controller/agenttask_controller.go:98-141 | ConfigMap, policy, pod and status write in this order with others acting in between, each failure ending the call; without an error the stored status names the created pod |
| Reconciler.Observe | internal/controller/agenttask_controller.go:157-300 | Looks up the pod and follows it; without an error, a status to be written is the one the lookup called for, whatever others do before the write |
| Reconciler.FollowPod | internal/controller/agenttask_controller.go:157-300 | Missing pod, unreadable reference, or the switch over the phase: the decision and the error |
| Reconciler.Commit | internal/controller/agenttask_controller.go:134-137 | Fails exactly on a fault or an outdated version; otherwise the status sent is the one stored, under the spec and deletion mark that were current |
| Reconciler.EnsureConfigMapForPod | internal/controller/agenttask_controller.go:348-389 | Lookup and creation with others acting before each: on success the ConfigMap is stored under its computed name; undisturbed, it succeeds exactly if the lookup works and either sees the object that is there or creates the missing one |
| Reconciler.EnsureNetworkPolicyForPod | internal/controller/agenttask_controller.go:416-448 | The same for the deny-all policy |
| Reconciler.ApiServer.UpdateStatus | internal/controller/agenttask_controller.go:134-137 | Commits only from the version that is current when it is answered |
| Objects.GetConfigMapFromPod | internal/controller/agenttask_controller.go:392-413 | Returns the first match in reading order, or none if there is none |
| Objects.BuiltPodReference | internal/controller/pod_builder.go:130-166 | Looking up the reference in a built pod finds the builder's ConfigMap name |
| Objects.ConfigMapNameIff | internal/controller/agenttask_controller.go:460-472 | Two ConfigMap names are equal if and only if task names and spec digests are equal |
| Objects.PolicyNameInjective | internal/controller/network_policy.go:8-12 | Different tasks have different policy names |

## Left out

- Task id and schema in the event envelope: constants of a run. `wall_clock_seconds` in agent_done: read from `time.time()`, not from the clock.
- JSON and YAML text: events, requests and specs are values; hashes are functions of the values. `read_events` and `load_trace` are not modelled.
- Floating point: costs are exact integers in units of 1e-7 USD, rounded half to even where the code rounds.
- Lone surrogates in Python strings; messages of decoder errors, which are an oracle; Python booleans given as line numbers count as 0 and 1, and are printed as numbers.
- Directories, symbolic links, file-system errors and real path resolution: the workspace holds regular files by resolved path; `file_read`'s refusal of non-regular files is not modelled.
- The anthropic client, the inside of bash and web_search, config loading, the command line, `ReplayRNG`, `EchoClient`.
- Kubernetes: one namespace; removal of tasks and garbage collection of their objects; container details of the pod; objects of the same name created by others; marshalling failures; status fields the controller never writes.
- ClusterPhases.PhasesOnlyClimb: excludes pod phase Unknown, a failed pod whose reason turns to or from Evicted, and lookups that miss a pod just created, which the other cluster theorems allow.
- `SetupWithManager`, `cmd/main.go`, manifests, generated code, and the proxy, replay engine, fork and eval harness that the plans describe.
