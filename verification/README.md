# Verified models of the agent loop, prompts, proxy stream, Slack channel and fuzzy matcher

This project models the parts of the monorepo whose correctness is not visible from any one
function, and proves what they promise. Check everything with

    dafny verify --resource-limit 2000000 --verification-time-limit 0 dfyconfig.toml

## The components

**Agent loop** (`AgentTypes`, `AgentTrace`, `ToolRuntime`, `AgentWorkers`, `AgentLiveness`, `AgentInterleaving`,
`Mailboxes`, `ToolScheduler`, `AgentLoop`, `AgentRuns`, `AgentSession`, with `Reordering`). A tool call is a sequence of
atomic stretches between awaits on a shared, opaque world. The worker pool is a state machine driven by a
schedule that names the worker to resume, so "for every schedule" is "for every interleaving".
`LoopRun.RunLoop` is the nested loop over an append-only event log; it returns a list of `Turn` records, and
`WellRun` says how the records hang together. The theorems of `AgentRuns` are about all lists of records that
are well run. The provider is a script of response streams. Other code acts on the queues through
`arrivals(k)`, the operations performed before the k-th poll, so every timing of steering messages, follow-ups
and mode switches is covered, and the queues are tied to exactly those operations over the whole run. A run
that needs more responses than the script has stops at that point with `ended == false`; that is how "at every
moment of a run" is stated. The bracket automaton of `AgentTrace` knows nothing of the loop whose log it
judges. `Agent` is the class around the loop that folds the events into its state.

**Prompt templates** (`Strings`, `TemplateTokens`, `TemplateParser`, `TemplatePrinter`, `TemplateLeaves`,
`TemplateHeads`, `TemplateWritten`, `TemplateExact`, `TemplateTags`, `TemplateEval`, `TemplateMeaning`,
`TemplateCompose`, `TemplateConcat`, `TemplateClosed`). Each loop of the renderer is a method proved against a
function; the lemmas are about the functions. `WriteNodes` gives the tokens the text of an AST should become:
those of its tags, and its texts, where a text that is one closed tag of a kind that does not belong where it
stands is that tag. `TemplateCompose.OpenBlocks` counts open blocks with a stack of its own, independent of the
parser.

**Prompt registry** (`RegistryVariables`, `RegistryResolution`, `RegistryPlacements`, `RegistryCache`).
`Resolve` does what `resolveWithInheritance` does. Its meaning is a tree of followed references whose resolved
body is the list of raw bodies joined with newlines.

**Proxy stream** (`ProxyLines`, `ProxyMessage`, `ProxyDecoder`, `ProxyConsumer`). Chunks of decoded text to lines
to events to a message, and what the consumer is told of it.

**Slack channel** (`ChannelLine`, `SlackQueues`, `LogTexts`, `LogSync`, with `StableSort`). The queue and the
handler's flags of a channel as a state machine over the stretches between awaits, and the sync of the channel
log into the session.

**Fuzzy matcher** (`Fuzzy`). Scores are multiplied by ten, so they are whole numbers.

`Wrappers` and `Sequences` hold shared datatypes and sequence facts.

## Where the code and its documentation or intent differ

- `renderer.ts` has no escape for text that looks like a tag, so printing and parsing does not give every AST
  back. `TemplateExact.RoundTripIff` says exactly when it does: the tags can carry the leaves of the AST, and
  the tokens its text should become are lexically well formed. The text `{{x}}` does not come back
  (`TemplateExact.LetterText`); a text such as `{{else}}` outside an if block does, although it is read from a
  tag (`TemplateExact.ElseText`).
- `registry.ts:120-121` puts a child's body below its parent's as text. `TemplateClosed.RenderConcatIff` says
  exactly for which parents the child is not affected by that.
- `registry.ts:165-186` announces that includes without a manual placement are not lost. In the code any
  placement in the body, even of an unrelated name, keeps all includes from being appended, and registry and
  renderer do not read the same tags: `{{>` followed by anything but a plain space and a name is a placement
  and a variable, so the include is lost (`RegistryPlacements.MarkLoses`, `RegistryPlacements.TabLoses`);
  `{{ > name}}` is a partial and no placement, so the include appears twice (`RegistryPlacements.SpaceDoubles`);
  and `{{> other}}` loses every include of another name (`RegistryPlacements.OtherNameLoses`).
  `RegistryPlacements.NothingLostIff`, `SomeTwiceIff` and `IncludedOnceIff` give the exact conditions for every
  prompt that resolves, `RegistryPlacements.AgreeIff` the one on which tags are read alike.
- `registry.ts:256-279` drops only direct dependents. `RegistryCache.InvalidateIff` gives the exact condition
  under which that suffices and `RegistryCache.TwoHopsGoStale` a chain of three prompts for which it does not.
- `types.ts:76` calls `maxExtendsDepth` a bound on inheritance; the code counts every prompt on a path of
  parents and includes. With a bound of one, a prompt without a parent resolves exactly when it follows no
  include, and a first include that exists is refused as too deep (`RegistryResolution.IncludesCountIff`).
- `agent-loop.ts` appends a response that failed and asked for tools without results for its calls.
  `AgentRuns.ConversationPaired` shows that this is the only way a conversation becomes unpaired, and
  `AgentRuns.FailedCallUnpaired` that one such turn is enough.
- `agent-loop.ts` adds a message for every `start` event of a stream; `AgentLoop.StreamAddsResponse` shows that
  a response is appended exactly once if and only if there is at most one, `AgentLoop.TwoStarts` what two leave.
- `context.ts` compares normal forms of session texts with raw log texts. `LogSync.SyncTwiceIff` says for which
  logs a second sync appends nothing; every later sync repeats what the second appends (`LogSync.LaterSyncs`);
  and a line that spells the opening of an attachment section is appended by every sync, whatever the session
  holds (`LogSync.MarkedReturns`, `LogSync.SectionReturns`). A live message is not recognised if it spells one or
  its user's name is not known (`LogSync.LiveIsRecognised`, `LogSync.NamelessIsNew`).
- `proxy.ts` continues a tool call whose `toolcall_end` has been seen with the text `undefined` in front of the
  next delta (`ProxyMessage.UndefinedInFront`). `ProxyMessage.ToolTextIff` gives the exact condition under which
  the text is what the deltas make up; it includes the odd case that what had come by the end was `undefined`.

## Model

| member | source | states |
|---|---|---|
| AgentWorkers.PoolSafety | packages/agent/src/agent-loop.ts:406-424 | at every point of every schedule the claimed items are exactly the first `nextIndex`, started in order, each held by one worker or stored in its slot and never both; there are exactly `max(1, min(concurrency, n))` workers and no more calls than that are in flight |
| AgentWorkers.PoolComplete | packages/agent/src/agent-loop.ts:451-464 | once all workers have returned every slot holds the result of its own call, the messages that ended are a permutation of the results, all tool brackets are closed, and read-only calls have the results and the world of one-by-one execution |
| AgentInterleaving.PoolShowsEachCall | packages/agent/src/agent-loop.ts:347-424 | however the read-only calls of a pool with distinct ids are interleaved, the events of each, taken out of the log, are exactly those it pushes when it runs alone, in the same order |
| AgentWorkers.ExecuteWithConcurrencyLimit | packages/agent/src/agent-loop.ts:406-424 | the pool driven by any schedule that lets all workers return delivers what PoolComplete says |
| AgentWorkers.SharedPool.Resume | packages/agent/src/agent-loop.ts:414-421 | one atomic stretch of one worker on the shared index, slots, world and log is one step of the state machine |
| AgentLiveness.PoolReturns | packages/agent/src/agent-loop.ts:410-423 | if every call of a group ends within a bound, however the others interfere, all workers return under every schedule that resumes each of them often enough |
| AgentLiveness.ReadOnlyPoolReturns | packages/agent/src/agent-loop.ts:410-423 | the same for read-only calls that finish when run alone |
| AgentLiveness.SchedulesExist | packages/agent/src/agent-loop.ts:406-424 | for honest tools whose calls finish alone there are schedules under which every pool and every call completes |
| AgentLiveness.WidthIsUsed | packages/agent/src/agent-loop.ts:406-424 | there is a schedule after which every worker of a pool runs a call of its own |
| AgentTypes.CallsInPlace | packages/agent/src/agent-loop.ts:152 | every call in a content counts once and in its place, and nothing else counts |
| AgentTypes.ReadOnlyIff | packages/agent/src/agent-loop.ts:314-316 | a call counts as read-only if and only if the first tool of its name is declared `sideEffects: false`; unknown and undeclared tools do not |
| ToolRuntime.ReturnsOnce | packages/agent/src/agent-loop.ts:339-401 | a call run alone has at most one outcome, so one-by-one execution is a well-defined reference |
| ToolRuntime.SequentiallyOnce | packages/agent/src/agent-loop.ts:465-483 | a list of calls run one by one has at most one result list and one final world |
| ToolRuntime.AloneAccepted | packages/agent/src/agent-loop.ts:347-400 | a finished call pushed one well-bracketed start, updates and end, and then its result message |
| ToolRuntime.DoneReturns | packages/agent/src/agent-loop.ts:357-400 | a call whose tool ends with a result returns exactly its output and details, without the error flag, and leaves the world the tool left |
| ToolRuntime.ThrownReturns | packages/agent/src/agent-loop.ts:371-400 | a call whose tool throws in the end returns exactly the error text with empty details and the error flag, and the world as the tool left it |
| ToolRuntime.UnknownReturns | packages/agent/src/agent-loop.ts:345-377 | a call of a tool that does not exist returns exactly `Tool NAME not found` with the error flag and leaves the world unchanged |
| ToolRuntime.ReturnsOnTrail | packages/agent/src/agent-loop.ts:357-377 | a call returns only if its tool has ended with a result or thrown |
| ToolRuntime.PushedOnTrail | packages/agent/src/agent-loop.ts:347-400 | the whole log of a call: its start, one update for each partial result in order, its end, and the start and end of its result message |
| ToolRuntime.PushedUnknown | packages/agent/src/agent-loop.ts:347-400 | the whole log of a call of a tool that does not exist |
| ToolScheduler.GroupToolCalls | packages/agent/src/agent-loop.ts:306-334 | the groups concatenate to the calls, parallel groups are maximal runs of read-only calls and every other call is alone |
| ToolScheduler.GroupingUnique | packages/agent/src/agent-loop.ts:301-305 | there is exactly one such grouping, so the previous row determines the result |
| ToolScheduler.ParallelIff | packages/agent/src/agent-loop.ts:313-333 | a call is in a parallel group if and only if the first tool of its name is declared read-only; every other call, of an undeclared or unknown tool, is alone in its group |
| ToolScheduler.SameGroupIff | packages/agent/src/agent-loop.ts:306-334 | neighbouring calls share a group if and only if both are declared read-only |
| ToolScheduler.PooledIff | packages/agent/src/agent-loop.ts:439-451 | a call belongs to a pool if and only if it and a neighbour are declared read-only and `maxParallelTools`, if given, is more than one |
| ToolScheduler.PoolWidth | packages/agent/src/agent-loop.ts:411-439 | a pool has as many workers as `maxParallelTools` says, five by default, but at least one and at most one per call |
| ToolScheduler.ExecuteSingleToolCall | packages/agent/src/agent-loop.ts:339-401 | the result and the world are those of the call run alone; unknown and throwing tools give an error result |
| ToolScheduler.SkipToolCall | packages/agent/src/agent-loop.ts:506-543 | a skipped call gets an error result with its id under a well-bracketed log |
| ToolScheduler.ExecuteInTurn | packages/agent/src/agent-loop.ts:465-483 | a prefix of the calls runs in order with one poll after each; all polls but the last take nothing from the queue as the arrivals before them left it, and a last one that takes something ends the prefix |
| ToolScheduler.ExecuteToolCalls | packages/agent/src/agent-loop.ts:430-504 | one result per call in call order; the executed calls are a prefix and the rest are skipped; all polls but the last take nothing from the queue as the arrivals before them left it, and one that takes something ends the execution; without it nothing is skipped; the batches are those of the groups that ran, one per pool and one per other call, and a pool runs as a whole; for tools that keep their `sideEffects: false` promise the prefix equals one-by-one execution whatever the interleaving and the limit |
| ToolScheduler.NoPoolsRanIff | packages/agent/src/agent-loop.ts:449-462 | all batches are single calls if and only if no group with several read-only calls ran under a limit above one |
| ToolScheduler.SharedReadOnly | packages/agent/src/agent-loop.ts:445-464 | a call that shares its batch with another is declared read-only |
| ToolScheduler.HandledAppend | packages/agent/src/agent-loop.ts:448-501 | two stretches of calls compose: the batch sizes are put one after the other, results are permuted only inside a batch, and only read-only calls share one |
| AgentLoop.StreamAddsResponse | packages/agent/src/agent-loop.ts:240-286 | a stream that finishes leaves exactly its response on the context if and only if it has at most one start |
| AgentLoop.TwoStarts | packages/agent/src/agent-loop.ts:240-249 | a stream with two starts leaves a partial message and its response |
| AgentLoop.LoopRun.StreamAssistantResponse | packages/agent/src/agent-loop.ts:205-290 | the context and the log grow by exactly what the stream determines, also for streams that are not well formed or have no terminal event |
| AgentLoop.StreamLogAccepted | packages/agent/src/agent-loop.ts:245-284 | the events of a stream open and close exactly one message and end exactly the response |
| AgentLoop.StartedLog | packages/agent/src/agent-loop.ts:245-284 | a stream that starts pushes its start, every update behind it in order, and the end with the response; updates before the start push nothing |
| AgentLoop.UnstartedLog | packages/agent/src/agent-loop.ts:270-284 | a stream that never starts pushes the start and the end of its response alone |
| AgentLoop.BrokenOffAdds | packages/agent/src/agent-loop.ts:245-290 | a stream that starts and breaks off leaves its last partial message on the context |
| AgentLoop.LastTurnEnd | packages/agent/src/agent-loop.ts:145-174 | every turn is closed with its response and its tool results |
| AgentLoop.LoopRun.TakeTurn | packages/agent/src/agent-loop.ts:122-182 | one turn appends the injected messages, the response and the results to context, new messages and log, and takes exactly its batch from the queue, by the first of its polls that finds one |
| AgentLoop.LoopRun.RunLoop | packages/agent/src/agent-loop.ts:104-199 | every run is a well-linked list of turns that ends only on a failed response or with both polls empty after a turn without tools, and then pushes agent_end with the new messages and leaves no follow-up queued; what was queued meanwhile is exactly the arrivals between its first poll and its last |
| AgentRuns.ContextInvariant | packages/agent/src/agent-loop.ts:122-141 | at every provider call the context is the initial context, everything appended since, and the pending batch; all contexts are paired if and only if every injected batch is |
| AgentRuns.PairedMeans | packages/agent/src/agent-loop.ts:151-172 | in a paired context the k-th call of a message is answered k + 1 messages later by the result with its id and name |
| AgentRuns.OnlyAnswers | packages/agent/src/agent-loop.ts:151-172 | every tool result in a paired context answers a call of a message before it in that way |
| AgentRuns.ConversationPaired | packages/agent/src/agent-loop.ts:141-172 | the conversation answers every call directly, once and in order, if and only if it does not end in a failed response with calls |
| AgentRuns.Conservation | packages/agent/src/agent-loop.ts:114-191 | over any run the messages dequeued are those injected, in order, plus the batch still waiting; at the end, also after an error, each is in the conversation exactly once |
| AgentRuns.QueuesConserved | packages/agent/src/agent-loop.ts:114-191 | over any run, whatever arrives at whatever poll: what waited in each queue followed by what arrived is what the run dequeued followed by what waits at the end |
| AgentRuns.TurnBound | packages/agent/src/agent-loop.ts:117-195 | at most one turn more than responses with tools plus non-empty batches, and a run whose script is longer than that has ended |
| AgentRuns.CausesAre | packages/agent/src/agent-loop.ts:117-195 | what that bound counts, as sets of turns: those whose response asked for tools and did not fail, and those followed by a non-empty batch of either queue |
| AgentRuns.FollowUpsWait | packages/agent/src/agent-loop.ts:176-191 | follow-ups are dequeued only after a turn without tools whose steering poll was empty |
| AgentRuns.FailureEndsRun | packages/agent/src/agent-loop.ts:144-149 | in every run a response with the stop reason `error` or `aborted` is the last: none of its calls run and no queue is polled after it |
| AgentRuns.OthersGoOn | packages/agent/src/agent-loop.ts:151-191 | after a response with the stop reason `stop`, `length` or `toolUse` its calls are executed, and there is a next turn only for calls or for queued messages, which it injects |
| AgentRuns.RunEndsIff | packages/agent/src/agent-loop.ts:144-199 | a run has ended if and only if its last response failed or was aborted, or asked for no tool and was followed by empty polls of both queues |
| AgentRuns.TraceWellBracketed | packages/agent/src/agent-loop.ts:44-49 | the event stream is accepted by the bracket automaton at every turn boundary and complete at the end; a side-effecting tool never overlaps another |
| AgentTrace.Discipline | packages/agent/src/agent-loop.ts:44-49 | what the automaton accepts, by counting starts and ends: every event stands inside the agent bracket, messages and tools inside a turn, updates and ends inside their own brackets, and turns start and end with nothing open |
| AgentTrace.NoOverlap | packages/agent/src/agent-loop.ts:301-305 | in an accepted trace a call ends before another starts unless both tools are declared read-only |
| AgentRuns.SideEffectsAlone | packages/agent/src/agent-loop.ts:301-305 | the same for the trace of every run |
| AgentRuns.TurnsEndWithResponses | packages/agent/src/agent-loop.ts:141-174 | the turn ends of a run carry its responses, one per turn and in order; nothing a tool or a stream pushes ends a turn |
| AgentRuns.LoopLogEnded | packages/agent/src/agent-loop.ts:379-400 | the messages that end are the conversation cut into segments, one per pool and one per other message, in place and in order, each pool's permuted in itself; without pools they are exactly the conversation |
| AgentRuns.NoPoolsIff | packages/agent/src/agent-loop.ts:439-462 | a run has no pools if and only if no group of any of its responses ran in one, which calls, limit and number of executed calls decide |
| AgentRuns.SequentialInOrder | packages/agent/src/agent-loop.ts:439-462 | with `maxParallelTools` at most one the messages end exactly in the order of the conversation |
| AgentRuns.FailedCallUnpaired | packages/agent/src/agent-loop.ts:141-153 | one turn with a failed response and a call leaves the conversation unpaired |
| AgentSession.FoldMessages | packages/agent/src/agent.ts:456-503 | folding a log appends exactly the messages that end, in that order |
| AgentSession.PendingIff | packages/agent/src/agent.ts:475-487 | after any log a call id is pending if and only if a start of it has no end behind it |
| AgentSession.StreamingIff | packages/agent/src/agent.ts:459-473 | after any log the message shown is the one started or updated last, if it has not ended |
| AgentSession.ShownWhileOpen | packages/agent/src/agent.ts:459-473 | after a well-bracketed log a message is shown if and only if one is open |
| AgentSession.StreamingUntilEnd | packages/agent/src/agent.ts:495-498 | the streaming flag falls with `agent_end` and with nothing else |
| AgentSession.FoldError | packages/agent/src/agent.ts:489-493 | folding a log leaves the error of the last turn that ended with a non-empty one, else the error there was |
| AgentSession.LastErrorIs | packages/agent/src/agent.ts:489-493 | the error left by some responses is the last one that is there and not empty |
| AgentSession.NothingPendingAtTurnEnd | packages/agent/src/agent.ts:475-487 | at every turn end of a well-bracketed trace no tool call is pending and no message is streaming, even if ids repeat |
| AgentSession.Agent.Launch | packages/agent/src/agent.ts:406-520 | the state holds the old messages followed by the new ones, with results permuted only inside their own pool; the flags are reset and the error is that of the last response that carries one; queues, arrivals and what the run took balance |
| AgentSession.Agent.Prompt | packages/agent/src/agent.ts:335-368 | refused exactly while streaming, without effect |
| AgentSession.Agent.Continue | packages/agent/src/agent.ts:373-399 | refused exactly when streaming, without messages, or behind an assistant message with empty queues; what it dequeues itself is placed once, with the initial poll skipped for steering |
| Mailboxes.Mailbox.DequeueSteeringMessages | packages/agent/src/agent.ts:282-295 | a batch is a FIFO prefix of the queue, at most one message or everything, and empty only for an empty queue |
| Mailboxes.Mailbox.DequeueFollowUpMessages | packages/agent/src/agent.ts:297-310 | the same for follow-ups |
| Mailboxes.LoopConfig.GetSteeringMessages | packages/agent/src/agent.ts:439-445 | the first poll after a skip is empty and takes nothing; every later poll takes a batch after the arrivals before it |
| TemplateTokens.Tokenize | packages/prompt/src/renderer.ts:32-66 | the loop computes the tokens of the template |
| TemplateTokens.TokensLoseNothing | packages/prompt/src/renderer.ts:28-66 | the raw fields concatenate to the template, for every string |
| TemplateTokens.RetokenizesIff | packages/prompt/src/renderer.ts:32-100 | a token list is what its own text tokenizes to if and only if it is lexically well formed |
| TemplateTags.KindIff | packages/prompt/src/renderer.ts:71-101 | what the trimmed content of a tag begins with, or is, decides its kind, for every content |
| TemplateTags.ValueIs | packages/prompt/src/renderer.ts:71-101 | the value of a tag is what follows its keyword, trimmed; a variable tag keeps its whole content |
| TemplateTags.TrimIs | packages/prompt/src/renderer.ts:59 | trimming takes white space from both ends and leaves none there |
| TemplateTags.EqualsIff | packages/prompt/src/renderer.ts:159-167 | a condition compares for equality if and only if its first `==` has no `!` before it; its sides are what stands around it, trimmed and without quotes |
| TemplateTags.DiffersIff | packages/prompt/src/renderer.ts:169-178 | otherwise it compares for difference at the first `!=`, and without one the whole expression is a name |
| TemplateTags.QuotesIff | packages/prompt/src/renderer.ts:180-185 | a pair of equal quotes is taken off a value and nothing else is |
| TemplateTags.EachIs | packages/prompt/src/renderer.ts:295-307 | a loop is split at the first " as "; without one its items are called `item` |
| TemplateTags.StrayIsText | packages/prompt/src/renderer.ts:238-241 | a tag that ends or continues a block is text where it is met outside of it |
| TemplateParser.ParserState.ReadNodes | packages/prompt/src/renderer.ts:200-246 | the mutually recursive parser over the cursor terminates on every token list and leaves exactly the rest |
| TemplateParser.ParserState.ReadBranches | packages/prompt/src/renderer.ts:256-278 | the loop over else-if, else and end of an if block |
| TemplateParser.ParseConsumesAll | packages/prompt/src/renderer.ts:431-436 | however badly nested, all tokens are consumed |
| TemplatePrinter.ParsedIsShaped | packages/prompt/src/renderer.ts:200-318 | every AST the parser produces has the shape the printer needs |
| TemplateLeaves.ConditionKeptIff | packages/prompt/src/renderer.ts:159-185 | a printed condition is read back unchanged exactly under the stated conditions on variable and value |
| TemplateLeaves.EachKeptIff | packages/prompt/src/renderer.ts:295-307 | the same for the head of an each block |
| TemplateWritten.HeadIff | packages/prompt/src/renderer.ts:71-185 | the head of a node is read from its tag as that head if and only if tag, path, condition or name satisfy the stated conditions |
| TemplateWritten.CutHeadDiffers | packages/prompt/src/renderer.ts:46-58 | a head with a closing inside it, which ends the tag early, is never read as the same head |
| TemplateExact.SyncNodes | packages/prompt/src/renderer.ts:32-318 | tokens that parse to an AST and begin with its printed text begin with exactly the tokens that AST should have |
| TemplateExact.RoundTripIff | packages/prompt/src/renderer.ts:32-318 | for every AST of the parser's shape: printing, tokenizing and parsing gives it back if and only if its tags carry its leaves and the tokens it should become are lexically well formed |
| TemplateExact.LetterText | packages/prompt/src/renderer.ts:51-63 | the text of a variable tag does not come back |
| TemplateExact.ElseText | packages/prompt/src/renderer.ts:237-240 | the text of a stray tag comes back although no text token has that form |
| TemplateEval.RenderTemplate | packages/prompt/src/renderer.ts:431-436 | tokenize, parse and evaluate compute the rendering, failing with the first failing partial |
| TemplateEval.EvalAppend | packages/prompt/src/renderer.ts:365-421 | evaluation of concatenated node lists is concatenation of evaluations |
| TemplateEval.IfRendersChosen | packages/prompt/src/renderer.ts:388-396 | an if block renders the first branch that holds or is an else branch |
| TemplateEval.IfRendersNothing | packages/prompt/src/renderer.ts:388-396 | without such a branch it renders nothing |
| TemplateEval.EachAppend | packages/prompt/src/renderer.ts:406-416 | a loop over a concatenated list renders the two loops one after the other |
| TemplateEval.LoopShadows | packages/prompt/src/renderer.ts:410-412 | inside a loop an outer variable of the item's name is invisible |
| TemplateMeaning.EqualsRenders | packages/prompt/src/renderer.ts:342-352 | an if block on `V == t` renders its body if and only if the text of the value is `t`, where undefined and null have the empty text |
| TemplateMeaning.DiffersRenders | packages/prompt/src/renderer.ts:342-352 | an if block on `V != t` renders its body if and only if the text of the value is another |
| TemplateMeaning.TruthyRenders | packages/prompt/src/renderer.ts:356-360 | an if block on a bare name renders its body unless the value is undefined, null, false, 0, the empty text or the empty list |
| TemplateMeaning.UnlessRenders | packages/prompt/src/renderer.ts:398-404 | an unless block renders its body if and only if the variable of that very name, dots included, is missing or counts as false |
| TemplateMeaning.EachRenders | packages/prompt/src/renderer.ts:406-416 | a loop renders nothing for what is no list, and its body once for each item of a list, with the item bound |
| TemplateMeaning.LeavesRender | packages/prompt/src/renderer.ts:370-386 | text renders as itself, a variable as the text of its value, a partial as what it resolves to |
| TemplateMeaning.NodesRender | packages/prompt/src/renderer.ts:365-421 | the texts of the nodes are put one after the other |
| TemplateMeaning.FirstFailure | packages/prompt/src/renderer.ts:431-441 | the first node that fails fails the template with its own error |
| TemplateMeaning.PathGoesOn | packages/prompt/src/renderer.ts:328-337 | a path goes on key by key through objects and lists only: fields, the length, and indices within the list |
| TemplateMeaning.IndexIff | packages/prompt/src/renderer.ts:328-337 | a key is an index if and only if it is that number in decimal without leading zeros |
| TemplateMeaning.TextOfList | packages/prompt/src/renderer.ts:374-378 | a list is shown as its items joined by commas |
| TemplateMeaning.TextOfOne | packages/prompt/src/renderer.ts:374-378 | the text of every other value, and of a list of none or one |
| TemplateCompose.ParseConcatIff | packages/prompt/src/renderer.ts:200-318 | tokens parse independently of whatever follows if and only if they close all their blocks |
| TemplateConcat.TokensJoin | packages/prompt/src/renderer.ts:32-66 | up to the fusing of neighbouring texts, closed tags tokenize independently of what follows |
| TemplateConcat.RenderJoin | packages/prompt/src/renderer.ts:365-441 | what follows a closed template renders as if it stood alone |
| TemplateConcat.RenderConcat | packages/prompt/src/registry.ts:120-121 | parent, newline, child renders as the parent's rendering, a newline, the child's rendering; closedness is inherited |
| TemplateClosed.NodesHide | packages/prompt/src/renderer.ts:200-318 | for some variables an open block hides a text put behind it |
| TemplateClosed.UnclosedTag | packages/prompt/src/renderer.ts:51-57 | a tag left open is closed by the first closing in what follows, and takes up everything before it |
| TemplateClosed.RenderConcatIff | packages/prompt/src/registry.ts:120-121 | a parent renders in front of every child, for all variables and partials, as if each stood alone if and only if it closes all its tags and blocks |
| RegistryVariables.MergeVariables | packages/prompt/src/registry.ts:148-157 | the two loops over an insertion-ordered map compute the merge |
| RegistryVariables.MergeOverrides | packages/prompt/src/registry.ts:144-157 | the child's definition wins, otherwise the parent's, and each name is defined once |
| RegistryVariables.MergeOrder | packages/prompt/src/registry.ts:148-157 | merged variables stand in the order of first occurrence, the parent's first; an overridden one keeps its place |
| RegistryVariables.ApplyDefaults | packages/prompt/src/registry.ts:215-223 | a provided value wins, otherwise the first default counts, and nothing else changes |
| RegistryVariables.DefaultedIs | packages/prompt/src/registry.ts:215-223 | a provided value stays; a variable without one takes the first default its definitions give, and without a default stays undefined |
| RegistryVariables.MissingVariable | packages/prompt/src/registry.ts:225-231 | the first required variable without a value, if any |
| RegistryVariables.MissingIff | packages/prompt/src/registry.ts:225-231 | only a required variable that is not defined at all is missing; null, false and the empty text are values |
| RegistryResolution.ResolveIff | packages/prompt/src/registry.ts:99-142 | resolution terminates on every graph and succeeds if and only if the followed references form a finite tree with at most `maxExtendsDepth` prompts and no repeated name per path; the result is what the tree means |
| RegistryResolution.ResolveFiledIff | packages/prompt/src/registry.ts:102-110 | with prompts filed under their names, existence and depth alone decide; the cycle check adds nothing but its error |
| RegistryResolution.IncludesCountIff | packages/prompt/src/registry.ts:107-142 | with a bound of one, a prompt without a parent resolves if and only if no include is followed; an existing first include of another name gives the depth error |
| RegistryResolution.TreeUnique | packages/prompt/src/registry.ts:115-130 | a prompt has at most one such tree |
| RegistryResolution.ErrorsAreTrue | packages/prompt/src/registry.ts:81-110 | every error is justified by a trail of references: a missing name, a real cycle, or a path of distinct prompts one too long |
| RegistryResolution.ResolvedVariables | packages/prompt/src/registry.ts:113-125 | each variable is defined as in the nearest declaring prompt of the extends chain |
| RegistryResolution.ResolvedRenders | packages/prompt/src/registry.ts:120-183 | with closed raw bodies a resolved prompt renders as its ancestors, itself and its includes, one below the other |
| RegistryPlacements.PartialAfterMarkIff | packages/prompt/src/renderer.ts:96-99 | a tag that begins with the mark is a partial if and only if a plain space and more than white space follow, and otherwise a variable |
| RegistryPlacements.PlacementWithoutSpace | packages/prompt/src/registry.ts:166-175 | every other tag with the mark in front suppresses the includes but is no partial |
| RegistryPlacements.HasPlacementIff | packages/prompt/src/registry.ts:166-167 | a body has a placement if and only if `{{>`, a non-empty text without `}`, and `}}` follow one another in it |
| RegistryPlacements.AgreeIff | packages/prompt/src/registry.ts:166-167 | registry and renderer agree on whether a tag places a prompt if and only if the stated condition on white space around the mark holds |
| RegistryPlacements.AppendedIff | packages/prompt/src/registry.ts:166-185 | the inherited body is left as it is if and only if it has a placement or nothing is included |
| RegistryPlacements.EachAppendedIff | packages/prompt/src/registry.ts:166-185 | what an include resolves to stands behind the inherited body if and only if that body has no placement, of whatever name |
| RegistryPlacements.NothingLostIff | packages/prompt/src/registry.ts:160-186 | for every prompt that resolves: every include is placed or appended if and only if the inherited body has no placement or a partial of each include |
| RegistryPlacements.SomeTwiceIff | packages/prompt/src/registry.ts:160-186 | some include is both if and only if the body has a partial of it and no placement |
| RegistryPlacements.IncludedOnceIff | packages/prompt/src/registry.ts:160-186 | every include is placed or appended, and none both, if and only if the body has a partial of each of them with a placement, and of none of them without |
| RegistryPlacements.OtherNameLoses | packages/prompt/src/registry.ts:169-175 | a placement of one name loses an include of another |
| RegistryPlacements.MarkLoses | packages/prompt/src/registry.ts:169-175 | without a plain space and a name behind the mark the resolved body has no include in any form |
| RegistryPlacements.SpaceDoubles | packages/prompt/src/registry.ts:177-185 | with a space before the mark the include is placed by a partial and appended as well |
| RegistryCache.PromptRegistry.ResolvePrompt | packages/prompt/src/registry.ts:89-97 | cached answers equal fresh resolution, errors are not cached, and agreement is kept |
| RegistryCache.PromptRegistry.Invalidate | packages/prompt/src/registry.ts:256-279 | the exact new caches; agreement is kept by a full reload, and by a partial one under the one-hop condition |
| RegistryCache.PromptRegistry.LoadAll | packages/prompt/src/registry.ts:38-72 | of several scanned files with one name the last wins, nothing else is in the cache, and the resolved cache is empty |
| RegistryCache.InvalidateIff | packages/prompt/src/registry.ts:268-274 | the surviving cache agrees with fresh resolution, whatever the file now holds, if and only if every cached prompt that visits the name refers to it directly |
| RegistryCache.TwoHopsGoStale | packages/prompt/src/registry.ts:269-274 | the one-hop condition cannot be dropped |
| RegistryCache.FollowsFrame | packages/prompt/src/registry.ts:99-186 | a resolution depends only on the prompts it visits |
| RegistryCache.PromptRegistry.Render | packages/prompt/src/registry.ts:192-213 | render is fresh resolution, defaults, the required check and rendering, in that order of failure; the check names the first required variable without a value |
| ProxyLines.LinesAppend | packages/agent/src/proxy.ts:164-166 | the lines of a text and a further chunk are those of the text, then those of its tail with the chunk |
| ProxyLines.LinesAndTail | packages/agent/src/proxy.ts:165-166 | lines and tail lose nothing and the tail has no newline |
| ProxyDecoder.Decoder.ReadAll | packages/agent/src/proxy.ts:156-197 | the outcome depends only on the concatenation of the chunks, also when a line fails; the buffer is the unterminated tail |
| ProxyDecoder.Decoder.ProcessEvent | packages/agent/src/proxy.ts:211-340 | an event is rejected exactly when it is out of kind, and then nothing changes; otherwise only its block or the final fields change |
| ProxyConsumer.ConsumerFollows | packages/agent/src/proxy.ts:163-178 | for every stream, well formed or not and also up to a failure: the events pushed for a block show its kind and its text as the message has them |
| ProxyConsumer.EndIsPushed | packages/agent/src/proxy.ts:211-340 | the end of a block is pushed with the block as it is then, that of a call only for a call, and `start`, `done` and `error` with their reason |
| ProxyConsumer.RejectedIff | packages/agent/src/proxy.ts:223-320 | an event is rejected if and only if it is a delta or an end for a block of another kind or for none |
| ProxyConsumer.ArgumentsAre | packages/agent/src/proxy.ts:293-305 | after a delta the arguments of a call are what the streaming parser makes of the held text, or empty |
| ProxyConsumer.RejectedWith | packages/agent/src/proxy.ts:223-307 | a delta or an end for a block of another kind stops the decoding with its own message and changes nothing |
| ProxyConsumer.FailureSettles | packages/agent/src/proxy.ts:187-197 | a failure is pushed as an error and recorded in the message, which keeps its content |
| ProxyConsumer.DataIff | packages/agent/src/proxy.ts:169-171 | a line counts if and only if it begins with `data: ` and something other than white space follows |
| ProxyConsumer.LineDecides | packages/agent/src/proxy.ts:168-178 | a line without data changes nothing; data that cannot be parsed stops the decoding with its error |
| ProxyMessage.FoldIsLocal | packages/agent/src/proxy.ts:211-321 | blocks do not interfere: a fold succeeds if and only if every block's own events do, and each block is what its own events make it |
| ProxyMessage.StreamedRebuilds | packages/agent/src/proxy.ts:219-321 | however a block is cut into deltas its events rebuild it |
| ProxyMessage.MessageRebuilt | packages/agent/src/proxy.ts:208-340 | any shuffle of the blocks' events and the closing event, an end or an error, rebuild content, signatures, stop reason, error message and usage |
| ProxyMessage.ToolTextIff | packages/agent/src/proxy.ts:283-322 | after a delta the text parsed for a tool call's arguments is what the deltas since its start make up if and only if the call had not ended since, or what had come by its last end was `undefined` |
| ProxyMessage.MessageTextIff | packages/agent/src/proxy.ts:283-322 | the same for a call among the other blocks of a message |
| ProxyMessage.UndefinedInFront | packages/agent/src/proxy.ts:293-312 | a call that starts, ends and goes on has `undefined` in front |
| ProxyDecoder.StreamRebuilt | packages/agent/src/proxy.ts:152-180 | the same from the text of the stream, with any lines that carry no data in between |
| ChannelLine.AlwaysSerial | packages/mom/src/slack.ts:94-119 | over all interleavings works start in the order accepted, each once, one at a time even if some throw; the running flag is up exactly while a handler runs; an idle queue is empty |
| ChannelLine.EventAccepted | packages/mom/src/slack.ts:248-257 | an event is accepted exactly when fewer than five wait, and leaves at most five waiting |
| ChannelLine.MessageAccepted | packages/mom/src/slack.ts:322-327 | a user message is accepted if and only if no handler runs |
| ChannelLine.StopIff | packages/mom/src/main.ts:287-304 | a stop is requested if and only if one came while a handler ran and no handler has begun after it |
| ChannelLine.DrainsAll | packages/mom/src/slack.ts:107-118 | if every handler ends, everything accepted is handled in order and the queue comes to rest |
| SlackQueues.ChannelQueue.ProcessNextWork | packages/mom/src/slack.ts:107-110 | processNext up to its await is one transition of the state machine |
| SlackQueues.ChannelQueue.HandleEvent | packages/mom/src/main.ts:299-304 | the handler up to its first await raises the flag and clears the stop request |
| SlackQueues.ChannelQueue.EndHandler | packages/mom/src/main.ts:326-330 | the handler lowers the flag however it ends |
| SlackQueues.ChannelQueue.Resume | packages/mom/src/slack.ts:116-117 | the queue resumes after its await and starts the next work |
| SlackQueues.SlackBot.EnqueueEvent | packages/mom/src/slack.ts:248-270 | an event moves its own channel only |
| SlackQueues.SlackBot.OnMessage | packages/mom/src/slack.ts:311-327 | a message is taken exactly when it is no stop and the handler is not running, and moves its own channel only |
| SlackQueues.SlackBot.EveryChannelSerial | packages/mom/src/slack.ts:136 | every channel of a bot is in a serial state, whatever happened on all of them |
| LogSync.SyncExactlyOnce | packages/mom/src/context.ts:92-141 | a sync appends exactly the unknown texts of eligible lines, each once, with the time of its first line, ordered by time and stable |
| LogSync.EveryLineRepresented | packages/mom/src/context.ts:96-130 | after a sync every eligible line is known or was appended |
| LogSync.OneLine | packages/mom/src/context.ts:99-126 | what one line of the log adds, with every reason for adding nothing and the text under the best name it has |
| LogSync.TimeIs | packages/mom/src/context.ts:118 | the time of a line; an invalid date counts as now |
| LogSync.KnownIff | packages/mom/src/context.ts:52-97 | a text is known if and only if it is what is left of a text of some user entry |
| LogSync.SyncTwiceIff | packages/mom/src/context.ts:51-130 | a second sync appends nothing if and only if no eligible line that is new to the session has a text with a stamp in front or the opening of an attachment section in it |
| LogSync.LaterSyncs | packages/mom/src/context.ts:51-130 | every later sync appends what the second appends |
| LogSync.MarkedReturns | packages/mom/src/context.ts:62-118 | an eligible line whose text opens an attachment section is appended by every sync, whatever the session holds |
| LogSync.NamelessIsNew | packages/mom/src/context.ts:112-118 | a live message of a user with an id and no name is not recognised |
| LogSync.StableUnlessMarked | packages/mom/src/context.ts:62-67 | texts of people without a closing bracket in their names are unstable only by an attachment section of their own |
| LogSync.LiveIsRecognised | packages/mom/src/context.ts:112-116 | a message prompted live is recognised in the log if and only if no attachment section opens in it and the user's name was known, or log and prompt fall back to the same name |
| LogSync.Session.Sync | packages/mom/src/context.ts:42-142 | the loops compute the synced session, old entries first |
| LogTexts.LiveInverseIff | packages/mom/src/agent.ts:604-631 | stripping prefix and attachment section inverts adding them if and only if no such section opens in the text |
| LogTexts.StampedIff | packages/mom/src/context.ts:62 | the stamp that is stripped: date, time and offset in brackets, and a space |
| LogTexts.StampIsStripped | packages/mom/src/agent.ts:604 | the stamp of a live message, date, time and offset, has the form that is stripped |
| LogTexts.LiveIs | packages/mom/src/agent.ts:604-631 | a live message: stamp, name, text, and the paths of attachments on lines of their own |
| LogTexts.LinesJoined | packages/mom/src/agent.ts:630 | the paths of attachments are joined by newlines |
| StableSort.SortSpec | packages/mom/src/context.ts:134-135 | an ordered permutation in which equal keys keep their order |
| Fuzzy.MatchQuery | packages/tui/src/fuzzy.ts:16-64 | the greedy loop computes the match |
| Fuzzy.MatchIffSubsequence | packages/tui/src/fuzzy.ts:30-63 | the greedy scan succeeds if and only if the query is a subsequence of the text |
| Fuzzy.MatchScore | packages/tui/src/fuzzy.ts:25-63 | the greedy scan finds the leftmost embedding of the query, and the score is what the stretches, gaps, word starts and positions of that embedding are worth |
| Fuzzy.MatchScoreBound | packages/tui/src/fuzzy.ts:34-52 | a match of length n scores at least ten times -(5n(n+1)/2 + 10n) + n(n-1)/20 |
| Fuzzy.BestIsReached | packages/tui/src/fuzzy.ts:34-52 | the bound is reached for every length |
| Fuzzy.GapScore | packages/tui/src/fuzzy.ts:34-52 | two characters with any number of others between them: what a word start, a stretch, a gap and lateness are worth |
| Fuzzy.BoundaryIff | packages/tui/src/fuzzy.ts:32 | a word starts at the beginning and behind white space, hyphen, underscore, dot, slash and colon |
| Fuzzy.MatchLowerIff | packages/tui/src/fuzzy.ts:66-88 | a query matches if and only if it or its letters-and-digits swap is a subsequence |
| Fuzzy.SwapsBack | packages/tui/src/fuzzy.ts:71-77 | swapping twice gives the query back |
| Fuzzy.SwapExchanges | packages/tui/src/fuzzy.ts:71-77 | letters followed by digits change places with them, in either order |
| Fuzzy.OnlySuchSwap | packages/tui/src/fuzzy.ts:71-77 | no other query has a swap |
| Fuzzy.SwapCosts | packages/tui/src/fuzzy.ts:66-88 | a match of the query counts as it is; a match of the swap counts 5 more |
| Fuzzy.FilterSpec | packages/tui/src/fuzzy.ts:95-133 | a filter returns a permutation of the items that match all tokens, ordered by total score |
| Fuzzy.FilterStable | packages/tui/src/fuzzy.ts:131-132 | items of equal score keep their order |
| Fuzzy.WordsAre | packages/tui/src/fuzzy.ts:100-103 | the tokens are what stands between white space |
| Fuzzy.FuzzyFilter | packages/tui/src/fuzzy.ts:95-133 | the loops compute the filter; a blank query returns the items as they are |

## Left out

- Provider calls, `fetch`, API keys, `AbortSignal`, timestamps of messages, thinking levels and `TextDecoder`: a
  response is a given stream, and an aborted one is a response with that stop reason.
- `convertToLlm` and `transformContext`: the context is stated before they are applied.
- Runs with streams that end without a terminal event, and callbacks and listeners that throw or start a run
  from inside an event: the loop does not handle them, so runs with them are not claimed anything about.
- Tools that never return: `Completes` assumes that every call finishes, alone or in a pool of read-only calls,
  and that updates stop with it; `AgentLiveness` shows when that can be had.
- Tool arguments are opaque text and `validateToolArguments` is part of what a tool may throw.
- Sharing of message objects between context, events and state: messages are values.
- `AgentSession.Agent.Launch`: the events are folded after the loop has run, not while it runs; what listeners
  do meanwhile is part of the arrivals.
- `agent.ts:505-546`, the handling of a partial message left over by a failing stream, and `reset` and the
  clear operations during a run (`AgentSession.Agent.Reset` is modelled between runs, but not as an arrival).
- Properties inherited from `Object.prototype`, and numbers as other than their printed text, in template values.
- Rendering of partials by the registry has no cycle check; partials are an arbitrary function from names to
  texts or failures.
- YAML and front matter, directory scanning and `validate`: a registry is given its parsed files.
- A file that changes its name makes `invalidate` file it under the old one, and names of files in additional
  directories are derived from the wrong root; the theorems that need prompts under their own names say so.
- `parseStreamingJson` and `JSON.parse` are uninterpreted functions; content indices are natural numbers; the
  cost field of the usage is omitted.
- Aliasing of the proxy's partial message with the events that carry it.
- The queue object and the handler's state of a Slack channel are kept in one object; messages logged before
  startup, attachments and posting to Slack are not modelled.
- The 32-bit and floating-point representation of scores: they are exact, in tenths.
- `toLowerCase` and `getText` are arbitrary functions.
- `packages/mom/src/events.ts`, transcript splitting, message truncation, cost calculation, kill ring, model
  tables and command lines: input and output, or members without a property that spans functions.
