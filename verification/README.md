# A verified model of the workflow engine and its neighbours

This project models the parts of an agent platform whose behaviour is hardest to see from a single function, and
proves what they are meant to guarantee. `dafny verify dfyconfig.toml` checks everything.

## What is modelled

**The workflow engine** (`backend/dag_executor.py`). `Graph`, `WorkflowSteps` and `TopologicalValidate` hold the
dependency graph and the three-colour search that rejects cycles. `WorkflowBuild` turns steps into the edge groups of
the execution library: fan-in groups, switches, fan-outs and single edges. `Messages` is the run message that steps
mutate in place and joins merge. `Supersteps` is the execution library as the code relies on it, an assumption of this
model: within a superstep steps start and finish in any order; a fan-in group delivers once all its sources have sent;
fan-out and single edges deliver every message; a switch delivers to the first case whose label was chosen, else to
its default; messages are shared objects, so steps that are at work on the same one see each other's outputs; a failed
step still forwards and an end step never does. On top of it stand
`Sends`, `Ranks`, `RunOrder`, `PlainWorkflows` and `RunTheorems` (every step runs once, in order, in as many supersteps
as the longest path has steps, and the run is complete exactly if the superstep limit allows that path). `MapNode` is
the concurrent map step, `Routing` has conditions, and `SwitchEdges` what a condition delivers besides what its
dependents ask for. `Verdict` goes from the events of a run to the reported status and outputs. `BranchSends`,
`BranchRuns` and `BranchPaths` are about runs of workflows with conditions: who is passed over, where branches meet
again, and when such a run is reported as completed. `Defaulting` fills in missing ids and dependencies and finds the
last steps of a workflow.

**Which outputs a step finds.** A step that waits for one step only works on that step's message object, which others
may be writing to at the same time; a step that waits for several merges theirs into a new one. `MessageObjects` says
from the graph alone whose outputs a step finds in every schedule, and whose in some; `ObjectRuns` and `Views` prove
that runs keep to this, and `TimedRuns` that both extremes occur. `RunResults` and `SiblingReads` draw the conclusion:
what steps read makes the results depend on the schedule exactly if some step reads an output that it finds in one
schedule and not in another. Reading only what a step waits for, directly or not, is safe, and gives the results of
answering one after the other; it is not necessary, since a step may also be sure to find an output it does not wait
for. Reading the output of a sibling, a step that waits for the same single step, is never safe. `StepExecutors` has
retries, approvals and the prompts, whose mentions of outputs are what makes this matter: the code looks a mention up in
whatever the message holds at that moment.

A *plain* workflow is one with unique ids, no repeated dependencies, no conditions or branch labels, nothing waiting for
an end step, and every step waiting, directly or not, for the start. The run theorems are about these. The library may
decline a fan-in group, which the builder passes over; the edge theorem covers that case, the run theorems assume it
does not happen.

**Reading a model's answer** (`backend/llm/openai_provider.py`). `TextSearch`, `ThinkSplitter` and `ModelStream` are the
incremental parser that separates reasoning between think tags from content and reassembles tool calls; `ThinkStrip` is
the one-shot version. The two are proved to agree exactly if removing the blocks leaves no opening tag to be found (or
one with nothing after it but a newline that the text had left unclosed); two short texts show how they differ
otherwise. The code's documentation says that unclosed tags are handled; the streaming parser lets the last eight
characters of an unclosed thought out as content, and that is what is modelled. `ToolCalls` has the reassembly of
fragments and the table of sanitized tool names.

**The chat bridge** (`wa-bridge/index.js`). `ChatBridge` has the per-chat buffers, their timers and the set of seen ids,
driven by arrivals, decryptions, voice notes and timers of one socket. Voice notes are marked when they arrive and
buffered when they have been transcribed. An update that is decrypted without a readable text marks its id all the
same, and a later readable one is then dropped.

**Keys** (`backend/encryption.py`). `UserKeys` has find, insert and refetch for one caller under interference, and for
any number of callers in any interleaving; the store admits one document for a user, as the unique index does.
Ciphers are functions with inverse laws. One result is negative: a caller whose insert fails for any other reason than
an existing key, and who then finds none, comes back with a key that is never stored; it is shown that nothing else
goes wrong.

**Background jobs** (`backend/async_job_poller.py`, `backend/main.py`). `JobPoller` has both pollers, the restart hook
and whole runs. The two pollers differ in one case: when setting up the judging model raises an error, the document
store forgets the poll, and the bound on tool calls is lost. Whole runs are proved to part exactly when that happens.
The judge's answer is searched for the word of a status, so an answer that denies completion affirms it; it is shown
which answers are taken for what they say.

**Smaller parts.** `TurnBuilders` (the message builders for Anthropic and Gemini, with the ids made up for calls),
`Versions` (the history of an agent's settings) and `Chunker` (overlapping chunks, which come to an end exactly if the
text is blank or a chunk is longer than its overlap). `Sequences` and `Wrappers` hold what several modules share.

Ids, payloads, keys, snapshots and texts of which only identity matters are abstract types. Clocks, random keys,
answers of models and tools, and failures are parameters or events.

## Model

| member | source | states |
|---|---|---|
| TopologicalValidate.Validate | backend/dag_executor.py:78-103 | accepts exactly the graphs without a cycle among known ids, self-loops included; the order in which steps turned black is then a dependency order; a rejection names a step that lies on a cycle |
| TopologicalValidate.Colouring.Dfs | backend/dag_executor.py:87-99 | visiting a white step either finds a step that waits for itself or leaves it black, with finished steps in dependency order and no step losing its colour |
| TopologicalValidate.ClosesCycle | backend/dag_executor.py:92-96 | meeting a grey dependency from the top of the stack closes a cycle through it |
| Graph.TopologicalIsAcyclic | backend/dag_executor.py:78-103 | a graph with a dependency order has no cycle |
| WorkflowBuild.FanInPass | backend/dag_executor.py:774-790 | the groups count one delivery for each known dependency of each joining step, and the recorded edges are exactly those |
| WorkflowBuild.JoinIff | backend/dag_executor.py:777-784 | a step joins exactly if it lists several known steps, none of them with a branch label, and the library does not refuse |
| WorkflowBuild.DownstreamPass | backend/dag_executor.py:793-798 | collects, for each known source in order of first mention, the steps that list it |
| WorkflowBuild.CollectCollects | backend/dag_executor.py:793-798 | the sources are distinct and exactly the known ids that are listed; each one's list holds each step that lists it once |
| WorkflowBuild.BranchCases | backend/dag_executor.py:811-823 | every case leads to a step carrying its label that no fan-in group serves, and every such step is led to |
| WorkflowBuild.LinkSource | backend/dag_executor.py:800-843 | a condition gets one switch whose default is the first step not led to by a case, else the first output; any other source gets an edge to exactly the steps not yet linked |
| WorkflowBuild.LinkPass | backend/dag_executor.py:800-843 | after the first n sources the groups deliver exactly the edges of those sources and of the joins, and each condition among them has its one switch |
| WorkflowBuild.BuildWorkflow | backend/dag_executor.py:744-846 | succeeds exactly on non-empty acyclic steps that all have an id; with unique ids and no repeated dependencies, just those steps are gathered by a fan-in group, each by one only and with all known steps it lists, that list several known steps, none with a branch label, and are not refused; leaving switches aside, every known non-condition dependency is delivered exactly once and nothing else is; every condition with steps below it, and no other step, has a switch, and exactly one |
| WorkflowBuild.EndsInOrder | backend/dag_executor.py:762-763 | the outputs are named in the order of the end steps |
| WorkflowBuild.ListingInOrder | backend/dag_executor.py:793-798 | the steps below a source are kept in their order, so that the first one without a case is the default |
| WorkflowBuild.LinkedExact | backend/dag_executor.py:772-843 | the three passes together leave, switches aside, one delivery for each listed dependency on anything but a condition and none besides, and a switch for each condition, built on the steps listed below it |
| SwitchEdges.SwitchRoutes | backend/dag_executor.py:805-832 | a label with a case leads to a step that carries it and waits for the condition; any other to the first step waiting for the condition that has no case, or, if all have one, to the first output |
| SwitchEdges.DeliveriesAre | backend/dag_executor.py:800-832 | counting switches too, a message of a condition arrives once at every fan-in group that gathers it and once where the switch leads, and nowhere else |
| SwitchEdges.StraysIff | backend/dag_executor.py:824-829 | a condition can deliver to a step that does not wait for it exactly if some label it can choose has no case, every step waiting for it has one, and the first output does not wait for it |
| SwitchEdges.DoublesIff | backend/dag_executor.py:824-827 | a condition can reach one step twice with one message exactly if some label it can choose has no case and the first step without a case is gathered by a fan-in group |
| SwitchEdges.JoinIsDoubled | backend/dag_executor.py:824-827 | an unlabelled join of a condition and another step gets the message through its fan-in group and through the default |
| SwitchEdges.OutputIsReached | backend/dag_executor.py:828-829 | with a step for one of two labels only, choosing the other runs the end step, which waits for something else |
| Messages.StateMessage.Update | backend/dag_executor.py:694-703 | the new state of a merged message is the old one with the other absorbed |
| Messages.MergeMessages | backend/dag_executor.py:691-704 | yields a new message equal to the merge of the given ones, which stay as they were |
| Messages.MergeKeeps | backend/dag_executor.py:691-704 | merging messages that agree loses nothing any of them says |
| Messages.MergeBelow | backend/dag_executor.py:691-704 | a merge says nothing beyond what bounds every message |
| Messages.MergeOrderIrrelevant | backend/dag_executor.py:691-704 | messages that agree where they overlap merge alike in every order and with any repetition |
| Messages.MergeTakesLast | backend/dag_executor.py:694-694 | the merge has an output of a step exactly if some message has, and takes it from the last such one |
| Messages.MergeTakesFirstUser | backend/dag_executor.py:700-701 | the merge has a user input exactly if some message has, and takes it from the first such one |
| Messages.MergeTakesLastChoice | backend/dag_executor.py:695-695 | so does a choice: the last message that has one of a condition decides |
| Messages.MergeTakesFirstRun | backend/dag_executor.py:702-703 | the run id is that of the first message that has one |
| Messages.MergeUnites | backend/dag_executor.py:696-699 | a step is skipped, failed or completed in the merge exactly if it is so in some message |
| Messages.MergeCommutesIff | backend/dag_executor.py:691-704 | two messages merge alike in both orders exactly if they agree |
| Sends.SendPlain | backend/dag_executor.py:834-843 | a step no fan-in group or switch leads to gets one message for each edge from the sender |
| Sends.SendGathered | backend/dag_executor.py:774-790 | a fan-in group's target gets nothing until all sources have sent, and then one gathered batch, with the buffer emptied |
| Ranks.RanksExist | backend/dag_executor.py:78-103 | every accepted graph can be ranked by the longest chain below each step |
| PlainWorkflows.PlanDelivers | backend/dag_executor.py:744-846 | what the builder makes of a plain acyclic workflow delivers along its dependencies, with the start as the only step that waits for nothing |
| RunOrder.FinishInv | backend/dag_executor.py:345-367 | finishing a step, failed or not, keeps the invariant that a step is queued or begun once, exactly when all it waits for has ended, and that a fan-in buffer holds just the sources that have ended |
| RunOrder.EndSendsNothing | backend/dag_executor.py:679-688 | that an end step does not forward leaves every station and every fan-in buffer as forwarding would |
| RunOrder.RunInv | backend/dag_executor.py:849-988 | every schedule keeps that invariant |
| RunTheorems.BuildRunnable | backend/dag_executor.py:744-846 | a plain workflow is built exactly if it is acyclic, and can then be run |
| RunTheorems.StepsRunOnceInOrder | backend/dag_executor.py:849-988 | at every moment of every schedule each step has begun and ended at most once, only after all it waits for had ended, and in the superstep given by the longest path below it |
| RunTheorems.RunsAreShort | backend/dag_executor.py:765-770 | a run takes at most two actions for each step and one for each superstep, and no more supersteps than some path has steps |
| RunTheorems.CompleteIffPathsFit | backend/dag_executor.py:765-770 | a run that can go no further has run every step exactly once if and only if no path is longer than the superstep limit; it then took exactly as many supersteps as the longest path has steps |
| RunTheorems.SmallWorkflowsComplete | backend/dag_executor.py:29-29 | a plain workflow of at most 50 steps is always run to its end |
| MessageObjects.AncestorSeen | backend/dag_executor.py:223-223 | whatever the schedule, a step finds the outputs of all steps it waits for, directly or not |
| MessageObjects.SiblingsVary | backend/dag_executor.py:834-838 | of two steps that wait for the same single step each finds the other's output in some schedules only |
| MessageObjects.UncleSeen | backend/dag_executor.py:834-838 | a step that waits for one of them alone always finds the other's output, without waiting for it |
| ObjectRuns.FinishObj | backend/dag_executor.py:364-367 | sending hands a step's own message object to whoever waits for it alone, and to a join the objects of all it waits for |
| Views.BeginViewed | backend/dag_executor.py:691-704 | merging gives a join a new object that holds what it must and only what it can, and what a step then reads is bounded in the same way |
| Views.FinishViewed | backend/dag_executor.py:313-323 | so does writing a result into an object that others may hold too |
| Views.RunViewed | backend/dag_executor.py:849-988 | in every run, at every moment, each message holds every output that must be there and none that cannot, all of them true, and each result is the step's answer to what it can have found |
| RunResults.ResultsAreAnswers | backend/dag_executor.py:691-704 | if steps read only outputs of steps they wait for, every complete run, however interleaved, gives each step the result it would have answering one after the other in any dependency order, and no message says anything else |
| RunResults.ResultsDoNotDependOnSchedule | backend/dag_executor.py:691-704 | so any two complete runs give every step the same result and end with the same outputs |
| RunResults.SteadyIsConfluent | backend/dag_executor.py:223-225 | that is so whenever each output that a step reads is found by it in every schedule or in none |
| TimedRuns.TimedRun | backend/dag_executor.py:849-988 | for every step of a plain workflow there is a complete run in which it ends before any other step of its rank begins, and one in which it ends after all of them have begun |
| SiblingReads.ConfluentIffSteady | backend/dag_executor.py:223-225 | all behaviours that read only the listed outputs come to the same results in all schedules if and only if each listed output is found in every schedule or in none |
| SiblingReads.PeekingConfluentIff | backend/dag_executor.py:223-225 | one step may look for one output exactly if whether it finds that does not vary |
| SiblingReads.ReadingASiblingIsNotConfluent | backend/dag_executor.py:223-225 | in every plain workflow, of two steps that wait for the same single step neither may look for the other's output: whether it succeeds depends on the schedule |
| SiblingReads.ReadingAnUncleIsConfluent | backend/dag_executor.py:223-225 | but whoever waits for one of them alone may look for the other's, although it does not wait for it |
| SiblingReads.SiblingsAreRunnable | backend/dag_executor.py:834-838 | two agents after one start are such a workflow, whose only group is a fan-out |
| StepExecutors.Resolve | backend/dag_executor.py:132-152 | every mention in a task is replaced by what its path takes from the output, or by nothing if there is no output, and all else stays |
| StepExecutors.MentionedAncestorsAreLocal | backend/dag_executor.py:223-225 | tasks that mention only steps their own step waits for, directly or not, and so all tasks without mentions, read only what it waits for |
| StepExecutors.SteadyMentionsAreConfluent | backend/dag_executor.py:223-225 | a workflow comes to the same results in every schedule if no task mentions an output that its step finds in one schedule and not in another |
| StepExecutors.ProcessAgent | backend/dag_executor.py:307-347 | makes attempts up to the first that succeeds, fails with an error that is not on the list, or is the last allowed, at least one, and records just its outcome |
| StepExecutors.UpstreamInOrder | backend/dag_executor.py:223-223 | a step reads the outputs of its listed dependencies in the order of the list |
| StepExecutors.ProcessApproval | backend/dag_executor.py:435-492 | succeeds only if approvals are supported, the run has an id and the decision, or the default on a time-out, is approval |
| MapNode.AllComeBack | backend/dag_executor.py:575-609 | in every interleaving at most the limit of items is inside, nothing gets stuck, and an interleaving that cannot go on has let every item through |
| MapNode.MapDoesNotDependOnInterleaving | backend/dag_executor.py:609-613 | the outcomes, put back in order, are those of the items in input order for every interleaving |
| MapNode.ValuesAreSuccesses | backend/dag_executor.py:612-622 | the reduced outputs are exactly the values of the successful items in input order |
| MapNode.Reduce | backend/dag_executor.py:612-622 | fails exactly if errors are not passed over and some item failed, with the first error in input order |
| Routing.SelectBranch | backend/scheduler_executor.py:325-358 | returns a member of every non-empty list: the first branch named by the answer, else the first that overlaps with it, else the first |
| Routing.ProcessCondition | backend/dag_executor.py:378-414 | the message holds the choice, or the first branch if evaluating failed, and the steps labelled otherwise as skipped |
| Routing.SwitchPicks | backend/dag_executor.py:805-832 | the switch leads from a label to the one step that carries it |
| Routing.SendRouted | backend/dag_executor.py:816-832 | a step no fan-in group leads to gets one message for each plain edge and each switch that picks it |
| Routing.RoutingAndSkippingAgree | backend/dag_executor.py:397-405 | with one step per label, the step of the chosen label gets the message and is not skipped, every other labelled step gets nothing and is skipped |
| BranchSends.BuildBranching | backend/dag_executor.py:744-846 | what the builder makes of well-formed steps meets the hypothesis of the next results |
| BranchSends.MergeGetsOne | backend/dag_executor.py:777-784 | a step that lists a labelled step gets one message whenever a step it lists sends, and is not left waiting for a branch that is not taken |
| BranchPaths.PassedOverNeverBegins | backend/dag_executor.py:805-832 | in every run a step that waits for a condition under a label that is never chosen gets nothing and never begins |
| BranchPaths.OneArrivalPerEnding | backend/dag_executor.py:834-843 | in every run a step that is not gathered, below steps that are no conditions, has got just as many messages as the steps it lists have ended |
| BranchPaths.BranchesMeetOnce | backend/dag_executor.py:777-784 | where the branches of a condition meet again and one label is chosen, the step there is reached once for each ending of that branch's step, and the steps of the other branches never begin |
| Verdict.Follow | backend/dag_executor.py:911-988 | if events and message speak of the workflow's steps only, the report is completed exactly if there was no crash, no error was announced, the message knows of no failure, and every step was announced as completed or is completed or skipped in the message; in general the count decides; outputs are those last announced, then those of the message |
| Verdict.LogTells | backend/dag_executor.py:320-356 | the events of a schedule tell exactly which step has ended with what |
| Verdict.RunTrue | backend/dag_executor.py:313-323 | no message of any schedule claims a completion, failure or output that has not happened |
| Verdict.CompletedIffAllSucceeded | backend/dag_executor.py:962-988 | a run of a plain workflow is reported as completed exactly if every step has ended with success, whichever of its messages it comes to |
| BranchRuns.RunFair | backend/dag_executor.py:378-414 | in every run with conditions no message claims what has not happened, a message skips only steps that a choice passes over, and all of those of a choice it knows, unless they are completed |
| BranchRuns.CompletedIffDoneOrSkipped | backend/dag_executor.py:962-988 | such a run is reported as completed exactly if no step has failed and every step has succeeded or is skipped in its last message; if that message knows all choices, exactly if no step has failed and every step has succeeded or been passed over |
| Verdict.ReportedAreFinal | backend/dag_executor.py:911-972 | the outputs reported, from the events and whichever message the run comes to, are those with which the steps have ended |
| Verdict.ReportsDoNotDependOnSchedule | backend/dag_executor.py:911-972 | so two complete runs of a confluent workflow report the same outputs, whatever their interleavings and the messages they come to |
| Defaulting.FillIn | backend/builtin_tools.py:575-579 | a missing id is made up from the place, a step other than the first that lists nothing waits for the one just before it as filled in, and all else stays |
| Defaulting.ChainAncestors | backend/builtin_tools.py:575-579 | in a workflow written down without dependencies every step waits for all that stand before it |
| Defaulting.ChainRunsInOrder | backend/builtin_tools.py:575-579 | its step number i runs in superstep i, and a run that can go no further has run all of them in just as many supersteps, if it was allowed as many |
| Defaulting.FilledIsAccepted | backend/builtin_tools.py:575-579 | with unique ids and explicit dependencies on earlier steps the result is acyclic, its first step is the only one that waits for nothing, and every other step waits for it in the end |
| Defaulting.FilledIsPlain | backend/builtin_tools.py:575-579 | and the run theorems apply to it |
| Defaulting.Sinks | backend/builtin_tools.py:665-665 | finds exactly the steps nothing waits for, at least one in an accepted non-empty workflow |
| Defaulting.ReachesSink | backend/scheduler_executor.py:382-385 | from every step of an accepted workflow the waiting leads on to one of them |
| ThinkSplitter.TagFound | backend/llm/openai_provider.py:291-304 | a tag that is found is taken out, whatever text follows |
| ThinkSplitter.ThoughtSafe | backend/llm/openai_provider.py:299-304 | all but the last eight characters of an unfinished thought can be let out, whatever follows |
| ThinkSplitter.ContentSafe | backend/llm/openai_provider.py:312-326 | content can be let out up to the start of a tag it ends in, whatever follows, because the opening tag has no border |
| ThinkSplitter.Drain | backend/llm/openai_provider.py:289-326 | lets out pieces after which continuing from the kept buffer is as good as starting over, and keeps no more than a tag's length |
| ThinkSplitter.MarksRebuild | backend/llm/openai_provider.py:289-326 | putting the tags back where they were taken out gives the text: nothing is lost, repeated or moved |
| ModelStream.ParseStream | backend/llm/openai_provider.py:224-338 | up to the end mark, the content shown depends only on the whole text and not on how it was cut; the reasoning shown is the declared reasoning of each line, whole and in order, woven with the reasoning found in the text, line by line; without an end mark at most a tag's length is missing; the calls emitted are, by increasing index, what the fragments of each say: arguments, id and name |
| ModelStream.ToldTexts | backend/llm/openai_provider.py:285-338 | what is told as content and as reasoning is the content of the whole text and a weaving of declared and found reasoning; with none declared it is the reading of the text, character by character |
| ModelStream.CutsDoNotMatter | backend/llm/openai_provider.py:285-326 | two ways of cutting the same text show the same content, whatever reasoning is declared between, and with none declared the same content and reasoning in the same order |
| ThinkStrip.StripThinkTags | backend/llm/openai_provider.py:15-28 | removes the blocks, then what follows an opening tag that is left |
| ThinkStrip.StripIs | backend/llm/openai_provider.py:28-28 | stripping takes off space at both ends, all of it and nothing else |
| ThinkStrip.LinesAre | backend/llm/openai_provider.py:24-28 | thoughts are joined by newlines, and an unclosed one loses a newline at its very end |
| ThinkStrip.SplitterIs | backend/llm/openai_provider.py:289-326 | streaming gives the text outside the blocks and the thoughts in them, and splits an unclosed last thought into reasoning and its last characters as content |
| ThinkStrip.StreamedIsStrippedIff | backend/llm/openai_provider.py:15-28 | streaming and stripping give the same content and reasoning exactly if removing the blocks leaves no opening tag, or one the text left unclosed with nothing but a newline after it |
| ThinkStrip.UnclosedTailDiffers | backend/llm/openai_provider.py:238-241 | an unclosed thought of one character comes out as content when streamed |
| ThinkStrip.JoinedTagDiffers | backend/llm/openai_provider.py:22-27 | removing a block can join its surroundings to a tag that only the one-shot version sees |
| ToolCalls.AbsorbAll | backend/llm/openai_provider.py:328-338 | the accumulator is what the fragments so far come to |
| ToolCalls.GatheredIs | backend/llm/openai_provider.py:328-338 | however fragments are interleaved, each call's arguments are the concatenation of its own in order of arrival, with the last id and name given |
| ToolCalls.PassOn | backend/llm/openai_provider.py:243-253 | emits every call once, by increasing index: its arguments are those of its own fragments joined, its id the last one given, or a made-up one if there is none, its name the last one given, read back from the table |
| ToolCalls.AnnouncedIsCalled | backend/llm/openai_provider.py:118-120 | if no two tools look alike once sanitized, a call that names an announced tool is emitted under the tool's own name |
| ToolCalls.ToolNames.Prepare | backend/llm/openai_provider.py:104-116 | tools are announced under their sanitized names, and the table remembers the changed ones |
| ToolCalls.Sanitize | backend/llm/openai_provider.py:99-102 | the first 64 characters, each that is not allowed replaced by an underscore, and so unchanged exactly if the name is valid already |
| ToolCalls.RestoredIffInjective | backend/llm/openai_provider.py:99-120 | every announced tool gets its own name back exactly if no two names look alike once sanitized |
| ChatBridge.Socket.Push | wa-bridge/index.js:427-442 | the entry joins its chat's buffer, whose old timer is cleared and a new one set |
| ChatBridge.Socket.Mark | wa-bridge/index.js:408-415 | the id is added once, and the oldest gives way above the limit |
| ChatBridge.Socket.OnMessage | wa-bridge/index.js:289-442 | a readable message not seen yet is marked and buffered, any other changes nothing |
| ChatBridge.Socket.OnUpdate | wa-bridge/index.js:448-501 | a decrypted message not seen yet is marked without evicting, and buffered if readable |
| ChatBridge.Socket.FlushChat | wa-bridge/index.js:241-264 | the whole buffer of the timer's chat goes out and is gone |
| ChatBridge.RunTimed | wa-bridge/index.js:427-442 | in every run a chat has a buffer exactly when it has a live timer, and only one |
| ChatBridge.RunConserved | wa-bridge/index.js:241-264 | in every run a chat's flushed batches and its buffer together are its accepted entries in order of acceptance |
| ChatBridge.FlushedAfterQuiet | wa-bridge/index.js:239-264 | a batch goes out only 3000 ms or more after the last entry accepted for its chat, and is what the buffer held |
| ChatBridge.RunRecent | wa-bridge/index.js:405-415 | the seen ids are always the most recently marked ones, without repetition, and at least 500 once any has given way |
| ChatBridge.SeenIsBounded | wa-bridge/index.js:408-415 | in every run at most 500 ids are seen, besides those marked without making room |
| ChatBridge.LetInAgain | wa-bridge/index.js:293-294 | a marked id is let in again only after at least 500 other ids have been marked since |
| ChatBridge.RunMarksApart | wa-bridge/index.js:293-296 | in every run at least 500 other marks lie between one mark of an id and the next |
| ChatBridge.RunTakenMarked | wa-bridge/index.js:405-415 | in every run no message is buffered more often than its id has been marked, voice notes under transcription included |
| ChatBridge.TakenOnce | wa-bridge/index.js:453-455 | before 500 further ids are marked, a marked message is not buffered again |
| ChatBridge.UpdateTakenOnceIff | wa-bridge/index.js:448-501 | a readable update is buffered, and its message not again in that window, exactly if its id is not marked and no voice note with it is being transcribed |
| ChatBridge.DecryptedIsTakenOnce | wa-bridge/index.js:405-465 | a message that arrives unreadable and is decrypted later, whatever happens in between, is buffered exactly once if its id is unmarked and not being transcribed at that moment, however often it comes again in that window |
| ChatBridge.UnreadableUpdateLoses | wa-bridge/index.js:453-465 | a message whose update is decrypted without a readable text is marked, and not buffered by any later update in that window |
| UserKeys.KeyStore.GetOrCreate | backend/encryption.py:94-115 | whatever others store meanwhile, the key returned is the stored one, unless the insert was lost and none is there at the second look |
| UserKeys.AllGetTheStoredKey | backend/encryption.py:94-115 | in every interleaving of any number of callers all get the one stored key, if inserts fail only over an existing key or store theirs nevertheless |
| UserKeys.KeyStays | backend/encryption.py:136-138 | a stored key never changes |
| UserKeys.AllHoldStoredIff | backend/encryption.py:106-115 | if new keys differ, all callers have the stored key exactly if no second look after a failed insert comes while no key is stored |
| UserKeys.EncryptedIsDecrypted | backend/encryption.py:118-133 | what any caller has encrypted any later caller decrypts, and older tokens still take the older path |
| JobPoller.JobRecord.PollSqlite | backend/async_job_poller.py:52-127 | one poll does what a poll is meant to do, and stores every change |
| JobPoller.JobRecord.PollMongo | backend/async_job_poller.py:153-229 | the same, except that an error while setting up the judge loses the count and the result |
| JobPoller.PollDecides | backend/async_job_poller.py:52-127 | a poll of a pending job, in either store: out of polls it expires; without its server it fails; otherwise the judge's word on the tool's answer decides, COMPLETE before FAILED, and without either the job stays pending |
| JobPoller.PollTells | backend/async_job_poller.py:130-150 | a job that ends posts one message, with its status and the tool's last answer cut to 8000 characters, or the reason for failing if there was none |
| JobPoller.JobRecord.Restart | backend/main.py:1005-1053 | after a restart exactly the pending jobs, and those still known, are scheduled |
| JobPoller.RunSound | backend/async_job_poller.py:52-142 | in every run a pending job is scheduled and has no message, and an ended one has at most one, whose status is the job's |
| JobPoller.EndedStays | backend/async_job_poller.py:58-60 | the status leaves pending at most once; after that status, messages and tool calls stay |
| JobPoller.SqliteEnds | backend/async_job_poller.py:62-69 | every poll of a pending job counts, so it ends at poll max_polls + 1 at the latest with at most max_polls tool calls |
| JobPoller.EndedIsAnnounced | backend/async_job_poller.py:130-150 | as long as messages can be stored, a job has one and is off the schedule exactly if it has ended |
| JobPoller.StoresRunAlikeIff | backend/async_job_poller.py:153-229 | on the same polls, restarts and answers the two pollers come to the same job and messages if and only if no poll that reaches the judge finds that it cannot be set up |
| JobPoller.MongoCalls | backend/async_job_poller.py:153-229 | the document store makes at most max_polls tool calls and one more for every poll lost in this way |
| JobPoller.MongoNeverEnds | backend/async_job_poller.py:195-216 | with a judge that cannot be set up the document store calls the tool any number of times |
| JobPoller.ClassifiedAsMeantIff | backend/async_job_poller.py:36-46 | an answer is taken as the prompt asks for it, the very word for its status and anything else as pending, exactly if it is one of the two words or holds neither of them |
| JobPoller.IncompleteCountsAsComplete | backend/async_job_poller.py:40-46 | an answer that denies completion is taken to affirm it |
| TurnBuilders.BuildMessages | backend/llm/anthropic_provider.py:88-106 | the built messages are the messages' turns joined one by one, empty user ones left out |
| TurnBuilders.BuildMessagesKeeps | backend/llm/anthropic_provider.py:88-106 | roles strictly alternate, the blocks of all turns are those of all messages in order and on the same side, and a concatenation builds to the two builds glued together |
| TurnBuilders.TurnSays | backend/llm/anthropic_provider.py:37-106 | a tool's answer goes back under the id of its call; any other message is its pieces of content, then, for an assistant, every call under its id or one made up from its place; an empty one of the user's is left out, any other says an empty text |
| TurnBuilders.BuildContents | backend/llm/google_provider.py:25-92 | the built contents are every message's turn, with names resolved over the whole conversation, joined one by one |
| TurnBuilders.BuildContentsKeeps | backend/llm/google_provider.py:86-90 | roles strictly alternate and the parts of all turns are those of all messages in order |
| TurnBuilders.ContentSays | backend/llm/google_provider.py:34-84 | a tool's answer goes back under a name; any other message is its pieces of content, then, unless it is the user's, every call under its name; an empty one says an empty text |
| TurnBuilders.AnswerCarriesName | backend/llm/google_provider.py:37-41 | if ids tell names, the answer to a call goes back under the name of the tool called |
| TurnBuilders.UnknownAnswer | backend/llm/google_provider.py:39-41 | an answer to no known call goes back under what its id says after the mark of made-up ones, else under the id |
| TurnBuilders.MadeUpIdTellsName | backend/llm/google_provider.py:147-151 | a made-up id determines the name in it, whatever underscores and digits that holds |
| TurnBuilders.AnswersNamedIff | backend/llm/google_provider.py:25-46 | every answer to a call is given back under the name of the tool called exactly if ids tell names, calls without an id or a name, which are passed over, aside |
| TurnBuilders.MadeUpAnswersNamed | backend/llm/google_provider.py:205-207 | with made-up ids that is so even when the same ids come up again in later rounds, or a call has no name |
| Versions.Agent.TakeSnapshot | backend/routers/agents_router.py:61-84 | adds the next version unless the newest one already holds the present settings |
| Versions.Agent.Update | backend/routers/agents_router.py:342-347 | the settings are snapshotted and then replaced |
| Versions.Agent.PublishVersion | backend/routers/agent_api_router.py:199-208 | the version published holds the present settings |
| Versions.Agent.PruneOld | backend/main.py:935-945 | rows older than 72 hours go, except one with the greatest number, all others stay, and in their order |
| Versions.HistoryIsInOrder | backend/routers/agents_router.py:61-84 | over every history with a clock that never goes back, versions are numbered one by one and never again, neighbours differ, and the rows kept are an unbroken end of them with the newest |
| Versions.EditIsRecorded | backend/routers/agents_router.py:342-347 | after each edit the newest version holds the settings from before it |
| Chunker.ChunkText | backend/rag_service.py:652-661 | a blank text gives no chunks, any other the slices that start a step apart |
| Chunker.ChunkCount | backend/rag_service.py:656-660 | there are exactly length divided by step, rounded up, of them |
| Chunker.ChunksRejoin | backend/rag_service.py:656-660 | leaving out what each later chunk shares with the one before gives the text again |
| Chunker.WithinOneChunk | backend/rag_service.py:656-660 | every stretch no longer than the overlap and one character lies within one chunk |
| Chunker.EndsIff | backend/rag_service.py:652-661 | the cutting of a text ends exactly if the text is blank or chunks are longer than their overlap |

## Left out

- The execution library itself: `Supersteps` states what the code relies on; its sources are not part of this model.
- Update: does not merge the status records (`step_results_by_id`), which nothing that is modelled reads.
- MergeMessages: for the same reason leaves those records out.
- Trace spans, time stamps and the wording of prompts: outputs and texts are abstract.
- Resolve: what a path takes from an output is a function, so the parsing of JSON is not modelled.
- Skipping beyond the direct dependents of a condition: the code marks no others, so a step below one that is passed
  over counts as missing; several steps with one label: the code connects only the first.
- PassedOverNeverBegins: like the two results after it, is about steps that no stray default of a condition leads to.
- CompletedIffDoneOrSkipped: a condition that runs twice may choose twice; its second half is about runs in which it
  does not change its mind, and whose last message has passed every condition.
- StepsRunOnceInOrder: is about plain workflows only, because steps below a condition run or not depending on the choice.
- ConfluentIffSteady: like all results on schedules, does not cover conditions, whose choices would be further outputs.
- Follow: the final message is any message of the run, because which one the library hands back is not visible.
- ProcessAgent: leaves out the waiting times between attempts and the tool rounds within one.
- ProcessApproval: leaves out the wait itself and its event table; what came of it is a parameter.
- Sinks: the scheduler's variant also leaves out skipped steps; this one is the list before that.
- Legacy linear workflows in the scheduler: one loop that stops at the first failure, an easy member.
- ParseStream: usage figures and finish reasons are passed through and not modelled; lines that are no data or no valid
  JSON are one kind of line without effect.
- StripThinkTags: regular expressions are modelled by what they match here, and lone surrogates cannot occur in a text.
- Group chats, reconnection and stopping of the chat bridge, and its caches of messages for quoting: in groups the code
  waits between looking an id up and marking it, so the claims about seen ids would not hold.
- AllGetTheStoredKey: is about one user; keys of different users do not meet.
- Encryption itself: ciphers are functions that can be inverted.
- Deleting a job while it is polled, and errors of the database driver other than while posting a message.
- ChunkText: requires chunks of a text that is not blank to be longer than their overlap, since the code's loop does not
  end otherwise (see `EndsIff`).
- PublishVersion: leaves out the schema versions that are pinned on the published row.
- Pruning of versions in the document store and of optimisation runs.
- Converting tools and schemas for the providers, message starts and stops, HTTP, and everything else that only moves
  data along.
