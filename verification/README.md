# Aegora verification model

A Dafny model of the planner runtime, its approval gate, its embedding index and the parts of the
control plane whose behaviour spans many calls, with proofs of what they promise.

- **Planner** (`Planner`, `LangGraph`, `PlannerStore`): a turn is a run of nodes — load context, load
  skills, pre-guard, think, execute tool, self-check — wired once as PocoFlow edges and once as a
  LangGraph graph that strips runtime data from its checkpoint after every node. Context and skill
  loaders, guard, model, tools and self-check are oracles that may answer differently at every visit
  and may raise. `PlannerBounds`, `PlannerTrace`, `EngineEquivalence`, `ApprovalBudget` and
  `RetryBudget` prove bounds, what the trace holds, the equivalence of the two wirings and the budget
  of a turn; `NodeLaws` says what single nodes do. `ConfiguredPlanner`, `ConfiguredRuns`, `ParseLaws`,
  `ContentLaws` and `ReplanningBound` are about the configured runner: what it reads from the model's
  JSON, what counts as usable output, and when it stops replanning.
- **Approvals** (`Approvals`, `GatedRuns`, `ApprovalSafety`, `ApprovalStore`, `ResumeLaws`): the gate
  in front of a batch, the approval records, every history of runs and decisions on them, and what a
  decided turn starts from, logs and records.
- **Embedding index** (`EmbeddingIndex`, `FaqHash`, `FaqIndex`, `SkillIndex`, `DrainLoop`,
  `Versions`): content tables and an index of vectors tagged by content hash and version, changed by
  imports and by workers whose transactions interleave, for any kind of content; the worker loop
  itself; the content hashes of FAQs and skills; the version counters.
- **Workflow versions** (`Workflow`, `WorkflowLocks`): publish and retire, first as atomic
  transactions and then statement by statement under locks.
- **Algorithms** (`RankedMerge`, `Usage`, `Holdout`, `Scopes` with `SortedLists`, `Metrics`,
  `EvalCache`; `Filters` defines filtering once for all laws).

Code that changes things in place is a class or a loop proved equal to a specification function;
the properties are proved about that function, among them laws that say what it does without naming
it. Some promises hold only under a condition. There the
lemma states the condition both ways:

- The two engines agree only if the loaded context is the one the adapter restores. An empty runtime
  context is not.
- A turn stays within its iteration budget only while no resume fails, on either engine: a failed one
  may be approved again, and its calls are not counted.
- The index is truthful only if equal hashes mean equal vectors. The FAQ hash joins its fields with
  newlines, so an FAQ with a line break between two words shares its hash with one that reads the
  break as the end of a field.
- `validate_isolation` raises for any knowledge row without question or answer text, although the
  grouping passes such rows over.
- A reply without an answer is recorded as two calls.
- The catalogue shows the active workflow version's own definition only if supplied manifest hashes
  are honest.
- A cached item under a key that is no string is lost when the cache is reloaded.

`dafny verify dfyconfig.toml` checks the project.

## Model

| member | source | states |
|---|---|---|
| EngineEquivalence.EnginesAgree | services/runtime/src/aegora_runtime/langgraph_engine.py:175-244 | For every request, oracles, iteration limit and recursion limit of at least 2·max_iterations + 5, the LangGraph run makes the same visits on the same states as the PocoFlow run and ends alike, up to the runtime context a checkpoint does not carry, provided the loaded context is restored by stripping and re-injecting; at an approval the graph stops where the flow still self-checks the pending state |
| EngineEquivalence.EnginesDiffer | services/runtime/src/aegora_runtime/langgraph_engine.py:213-236 | The proviso is necessary: whenever the loaded context is not restored, there is a model that makes the two wirings end with different answers |
| EngineEquivalence.RoundTripsExactly | services/runtime/src/aegora_runtime/langgraph_engine.py:219-236 | Which contexts are restored: exactly those whose runtime context is the engine's own, or that have none when the engine has none |
| EngineEquivalence.EmptyRuntimeContextIsLost | services/runtime/src/aegora_runtime/langgraph_engine.py:219-222 | An empty runtime context counts as none and is lost, so the wirings may differ on it |
| EngineEquivalence.Bisimulation | services/runtime/src/aegora_runtime/langgraph_engine.py:213-244 | From any live state behind load_context, the checkpointed graph and the flow correspond step by step |
| EngineEquivalence.SameEdges | services/runtime/src/aegora_runtime/agent_loop.py:149-159 | Action edges and checkpoint edges lead to the same node, except that a pending batch leads to the approval interrupt |
| PlannerBounds.PlannerRunBound | services/runtime/src/aegora_runtime/agent_loop.py:149-171 | Every run makes at most 2·max_iterations + 5 visits, ends in self-check unless a call raised, and any step cap from that bound on gives the same run, so the cap never stops one |
| PlannerBounds.PlannerRunBoundIsTight | services/runtime/src/aegora_runtime/agent_loop.py:149-171 | A model that never stops asking for tools reaches the bound exactly |
| PlannerBounds.FlowBound | services/runtime/src/aegora_runtime/agent_loop.py:149-171 | From any node, the visits left are bounded by the node and the remaining iterations, and every action on the way has a successor |
| PlannerBounds.VisitSpends | services/runtime/src/aegora_runtime/agent_loop.py:403-414 | Each visit strictly lowers the number of visits that can still follow |
| PlannerTrace.FlowTraces | services/runtime/src/aegora_runtime/agent_loop.py:587-590 | The trace of a PocoFlow run has grown by exactly one entry per visit, in order, behind the entries before |
| PlannerTrace.GraphTraces | services/runtime/src/aegora_runtime/langgraph_engine.py:213-228 | So has that of a LangGraph run: no checkpoint loses an entry |
| ApprovalBudget.TurnBudget | services/runtime/src/aegora_runtime/agent_loop.py:403-414 | Over a whole turn, first run and every approval resume together, retries of failed resumes included, the model is called at most max_iterations times plus the calls of the resumes that failed, on either engine; without a failed resume at most max_iterations times |
| ApprovalBudget.FlowTurnBudget | services/runtime/src/aegora_runtime/configured_runner.py:721-738 | A PocoFlow turn with any number of pauses and of approved retries from the same snapshot spends at most max_iterations calls apart from those of failed resumes, and each failed resume at most max_iterations - 1 |
| ApprovalBudget.GraphResumeBudget | services/runtime/src/aegora_runtime/langgraph_engine.py:247-282 | Resumes of a LangGraph turn, retries from whatever checkpoint a failed one reached included, call the model at most as often as iterations remained, apart from the calls of those that failed, by raising or at the recursion limit |
| ApprovalBudget.GraphTurnBudget | services/runtime/src/aegora_runtime/langgraph_engine.py:75-119 | A LangGraph turn spends at most max_iterations calls apart from those of failed resumes, and each failed resume at most max_iterations - 1, for every recursion limit and wherever retries pick up |
| ApprovalBudget.GraphPauseCounts | services/runtime/src/aegora_runtime/langgraph_engine.py:247-282 | A graph run that stopped at an approval has used at least one iteration |
| RetryBudget.RetryBudgetExactly | services/runtime/src/aegora_runtime/configured_runner.py:637-643 | On PocoFlow, with up to a number of failed resumes, the budget of max_iterations calls holds for every request and all oracles if and only if no resume may fail or max_iterations is at most one: a failed resume may be approved again and starts from the same snapshot |
| RetryBudget.OneRetryExceeds | services/runtime/src/aegora_runtime/configured_runner.py:637-643 | For every limit of at least two, a PocoFlow turn with one failed resume that makes max_iterations + 1 model calls |
| RetryBudget.GraphRetryBudgetExactly | services/runtime/src/aegora_runtime/configured_runner.py:637-643 | The same on LangGraph, under every recursion limit of at least 2·max_iterations + 5: the budget holds for all engines and attempts if and only if no resume may fail or max_iterations is at most one |
| RetryBudget.GraphRetryExceeds | services/runtime/src/aegora_runtime/configured_runner.py:707-719 | For every limit of at least two, a LangGraph turn with one failed resume that makes max_iterations + 1 model calls |
| ApprovalBudget.PauseCounts | services/runtime/src/aegora_runtime/configured_runner.py:142-164 | The loop count in an approval snapshot is the one the paused run had reached, and the run has asked the model: pausing refunds nothing |
| ApprovalBudget.GraphSpends | services/runtime/src/aegora_runtime/langgraph_engine.py:175-205 | Every graph run calls the model at most as often as iterations remain and counts each call |
| GatedRuns.FlowIsGated | services/runtime/src/aegora_runtime/configured_runner.py:83-118 | A PocoFlow run behind the gate executes only harmless calls, asks for at most one approval, of a call that is not harmless, and is pending exactly when it asked |
| GatedRuns.GraphIsGated | services/runtime/src/aegora_runtime/configured_runner.py:83-118 | The same for a LangGraph run |
| GatedRuns.GatedVisit | services/runtime/src/aegora_runtime/agent_loop.py:476-501 | One batch is all or nothing: it waits for approval exactly when one of its calls needs it, and raises only when none does |
| GatedRuns.RejectedRunExecutesNothing | services/runtime/src/aegora_runtime/configured_runner.py:793-821 | Resuming a LangGraph turn with a rejection executes no tool and asks for nothing |
| Approvals.GatedRunnerGates | services/runtime/src/aegora_runtime/configured_runner.py:83-139 | Wrapping a runner in `run_many` puts every batch behind the gate |
| Approvals.FirstGated | services/runtime/src/aegora_runtime/configured_runner.py:94-118 | The call an approval is asked for is one of the batch whose tool is not harmless, and none is found exactly when all are: the gate's law below says which tools that is |
| Approvals.GateExactly | apps/control-plane/backend/app/models.py:192-195 | The gate holds a tool back exactly when it is of the runtime context and requires approval or has, of the levels tools can be published with, any but none and external_read |
| ApprovalSafety.HistorySafe | services/runtime/src/aegora_runtime/configured_runner.py:625-741 | Over every history of runs and non-overlapping decisions: each execution was of a call that needs no approval, or of the recorded call of a granted approval whose tool was still in the refreshed set; executions, failures and recorded results of an approval balance; records and taken decisions stay |
| ApprovalSafety.SafeFromTheStart | services/runtime/src/aegora_runtime/configured_runner.py:83-139 | From the empty store on, without any hypothesis on the state, every execution in every history is justified in that sense; no call logged without an approval was of a tool with required approval or with a writing or destructive level |
| ApprovalSafety.RejectedNeverExecutes | services/runtime/src/aegora_runtime/configured_runner.py:648-653 | A rejected approval is never executed, whatever happens before or after |
| ApprovalSafety.RecordedResultIsReplayed | services/runtime/src/aegora_runtime/configured_runner.py:637-647 | Once a result is recorded, in its JSON form, every later approval, after any history, returns that result, executes nothing and changes nothing; a later rejection is refused |
| ApprovalSafety.SecondExecutionNeedsFailure | services/runtime/src/aegora_runtime/configured_runner.py:739-741 | An approved call was executed exactly once per failed resume, plus once if a result is recorded: only a failure before recording allows a second execution |
| ApprovalSafety.DecideKeeps | services/runtime/src/aegora_runtime/configured_runner.py:625-653 | One decision keeps the safety invariant and every record already there |
| ApprovalSafety.AlreadyProcessed | services/runtime/src/aegora_runtime/runtime_approvals.py:76-84 | The store answers "already processed" exactly for records that no longer wait, and then changes nothing |
| ApprovalSafety.DecidedOnce | services/runtime/src/aegora_runtime/runtime_approvals.py:49-89 | A created record can be decided once and only before it expires; what is decided is the recorded call; whatever the first decision came to, a second one is refused and changes nothing |
| ApprovalStore.Store.Decide | services/runtime/src/aegora_runtime/runtime_approvals.py:76-89 | Moves a waiting record to approved or rejected exactly when it has not expired, marks a late one expired, and otherwise fails without a change |
| ApprovalStore.Store.PendingResult | services/runtime/src/aegora_runtime/configured_runner.py:94-118 | A batch waits exactly when one of its calls is to a tool of the runtime context that requires approval or has a level other than none and external_read; the first such call is recorded with the state's observations and loop count, and is the pending result's one observation |
| ApprovalStore.Store.Resume | services/runtime/src/aegora_runtime/configured_runner.py:676-741 | Recheck, execute, continue and record, step by step, equal the specified resume in answer, records and executions; the resume laws below say what it starts from, logs and records |
| ApprovalStore.Store.DecideApproval | services/runtime/src/aegora_runtime/configured_runner.py:625-653 | The decision procedure equals its specification in answer, records and executions; the decision law below says what it comes to for each record it meets |
| ResumeLaws.ApprovedFlowStarts | services/runtime/src/aegora_runtime/configured_runner.py:720-738 | An approved PocoFlow turn goes on from the snapshot's loop count and observations, then one observation of the recorded call with the decision and the approval's id, then exactly the executed results; no later visit loses any of them |
| ResumeLaws.ApprovedGraphStarts | services/runtime/src/aegora_runtime/configured_runner.py:707-719 | An approved LangGraph turn goes on at think, from its checkpoint's observations, the decision, and the objects among the executed results in order; no later checkpoint loses any of them |
| ResumeLaws.RejectedGraphStarts | services/runtime/src/aegora_runtime/configured_runner.py:793-821 | A rejected LangGraph turn goes on at self-check with the decision observed and the fixed answer |
| ResumeLaws.RejectedFlowAnswers | services/runtime/src/aegora_runtime/configured_runner.py:656-673 | A rejected PocoFlow turn is answered at once, with the decision as its one observation |
| ResumeLaws.FlowGrows | services/runtime/src/aegora_runtime/agent_loop.py:476-548 | No visit of a PocoFlow run loses an observation of the state it started in |
| ResumeLaws.GraphGrowsFrom | services/runtime/src/aegora_runtime/langgraph_engine.py:213-228 | Neither does a checkpoint of a LangGraph run |
| ResumeLaws.AskedIsRecorded | services/runtime/src/aegora_runtime/configured_runner.py:120-164 | A run that asked leaves one waiting record: a call of the batch it paused at, with the observations and loop count from before that batch; any other run leaves the records alone |
| ResumeLaws.OneMoreAsked | services/runtime/src/aegora_runtime/configured_runner.py:94-118 | A run asks once for each batch that waits and has a call that is not harmless |
| ResumeLaws.OneMoreVisit | services/runtime/src/aegora_runtime/configured_runner.py:83-92 | The log of a run holds the calls of each batch that was run, in order, each with its tool's policy |
| ResumeLaws.RaisedBatchIsLogged | services/runtime/src/aegora_runtime/configured_runner.py:83-92 | A batch that raised is logged as well |
| ResumeLaws.ResumingExactly | services/runtime/src/aegora_runtime/configured_runner.py:676-741 | A granted call is executed once if its tool is still allowed; what follows is logged behind it; the result is recorded in JSON form exactly when nothing failed |
| ResumeLaws.DecidingExactly | services/runtime/src/aegora_runtime/configured_runner.py:625-653 | What a decision comes to for each record it can meet: missing, expired, granted, rejected on either engine, granted without a result, executed, processed otherwise |
| ConfiguredPlanner.DecisionsAreActionable | services/runtime/src/aegora_runtime/configured_runner.py:508-566 | Whatever object the model returns, the decision is one to eight authorised calls whose first is the decision's own tool, or an answer that is not blank |
| ConfiguredPlanner.ParseRuntimeToolCalls | services/runtime/src/aegora_runtime/configured_runner.py:547-566 | The loop over the first eight items equals the specified reading of them, which the round trips below pin down |
| ParseLaws.CallsRoundTrip | services/runtime/src/aegora_runtime/configured_runner.py:547-566 | A list that writes authorised calls, as tool_name/tool_args or name/args, with or without ids and reasons, is read back as exactly those calls; items that are no objects are skipped but keep their number, items behind the eighth are ignored |
| ParseLaws.OneUnauthorisedDiscardsAll | services/runtime/src/aegora_runtime/configured_runner.py:553-556 | One call of a tool that is not authorised discards all of them |
| ParseLaws.ListedDecision | services/runtime/src/aegora_runtime/configured_runner.py:508-545 | A tool_call object with such a list becomes the decision with these calls, led by the first |
| ParseLaws.SingleDecision | services/runtime/src/aegora_runtime/configured_runner.py:513-530 | A tool_call object with a single tool becomes its one call with its arguments, or names the tool that is not authorised |
| ParseLaws.TerminalDecision | services/runtime/src/aegora_runtime/configured_runner.py:536-545 | Any other route keeps its answer, stripped; without one the run asks back |
| ParseLaws.DecisionRoundTrip | services/runtime/src/aegora_runtime/configured_runner.py:508-566 | Every actionable decision but an FAQ answer, written as an object, is read back unchanged |
| ParseLaws.StripExactly | services/runtime/src/aegora_runtime/configured_runner.py:536-545 | Stripping takes blanks off both ends and nothing else |
| ConfiguredPlanner.TrailingUnusableToolCount | services/runtime/src/aegora_runtime/configured_runner.py:589-597 | The backwards loop counts the observations at the end that are unusable, in the sense of the content laws below |
| ContentLaws.ContentExactly | services/runtime/src/aegora_runtime/configured_runner.py:607-622 | Output has content if and only if a path of list positions and object keys other than elapsed_ms and mcp_tool leads to a number, a truth value, or a text that is not blank |
| ContentLaws.UsableExactly | services/runtime/src/aegora_runtime/configured_runner.py:600-604 | An observation is usable exactly when it succeeded and its output has such a path |
| ContentLaws.TrailingExactly | services/runtime/src/aegora_runtime/configured_runner.py:589-597 | The count is that of the unusable objects behind the last observation that is none |
| ContentLaws.StopsExactly | services/runtime/src/aegora_runtime/configured_runner.py:569-586 | Planning stops exactly when two iterations have passed and the last two observations are both unusable |
| ContentLaws.ThinkExactly | services/runtime/src/aegora_runtime/configured_runner.py:396-413 | A configured think answers without a runtime context, stops by that rule, else follows the model's object, and apologises when the model fails |
| ContentLaws.SkillsStartEmpty | services/runtime/src/aegora_runtime/configured_runner.py:353-364 | A configured turn starts without skills and keeps the index of those it could load |
| ConfiguredPlanner.ThinkIsActionable | services/runtime/src/aegora_runtime/configured_runner.py:396-413 | Every decision of a configured think is actionable, and none asks for tools after two unusable observations in a row |
| ConfiguredRuns.ConfiguredRunCompletes | services/runtime/src/aegora_runtime/configured_runner.py:508-566 | Every configured run ends completed with a non-empty answer or paused for approval, never raises, and every batch it ran was one to eight authorised calls |
| ConfiguredRuns.ConfiguredGraphCompletes | services/runtime/src/aegora_runtime/langgraph_engine.py:75-98 | The same for the first LangGraph run, given that recursion limit |
| ConfiguredRuns.ConfiguredResumeCompletes | services/runtime/src/aegora_runtime/langgraph_engine.py:247-285 | A resumed LangGraph run, approved or rejected, never raises and runs only such batches; with a recursion limit of at least 2·max_iterations + 5 it ends completed with a non-empty answer or stops at the next approval |
| ConfiguredRuns.VisitArrives | services/runtime/src/aegora_runtime/agent_loop.py:451-473 | A configured run never raises at a node, so it never reaches the missing-tool-call error, and arrives at self-check with an answer |
| ReplanningBound.NoThreeFruitlessBatches | services/runtime/src/aegora_runtime/configured_runner.py:569-604 | From a fresh state, when every batch reports at least one observation and all of them are objects, no three consecutive batches are without usable output |
| ReplanningBound.GraphNoThreeFruitlessBatches | services/runtime/src/aegora_runtime/configured_runner.py:569-604 | The same for a LangGraph run, up to an approval or any recursion limit |
| ContentLaws.ThreeBatchesShowSomething | services/runtime/src/aegora_runtime/configured_runner.py:569-622 | Of any three consecutive batches of a PocoFlow run one has an observation that succeeded and shows such a path |
| ContentLaws.ThreeGraphBatchesShowSomething | services/runtime/src/aegora_runtime/configured_runner.py:569-622 | And of a LangGraph run |
| ContentLaws.OneMoreBatch | services/runtime/src/aegora_runtime/agent_loop.py:476-482 | A batch is what one visit of execute_tool added to the observations |
| RankedMerge.MergeRankedResults | services/runtime/src/aegora_runtime/agent_loop.py:696-719 | The nested loops over ranks and queries, with their positions dictionary, compute the specified merge |
| RankedMerge.MergeKeys | services/runtime/src/aegora_runtime/agent_loop.py:696-719 | No key appears twice, exactly the input keys appear, in the order of their first occurrence by rank and then by query |
| RankedMerge.MergeEntry | services/runtime/src/aegora_runtime/agent_loop.py:696-719 | Each item is the first input item of its key, relabelled with exactly the distinct non-empty queries whose list holds the key, in the order in which they first found it |
| RankedMerge.SameKeyExactly | services/runtime/src/aegora_runtime/agent_loop.py:709 | Items are the same when they share an id, or, both without one, their title and response |
| PlannerStore.Store.PostLoadSkills | services/runtime/src/aegora_runtime/agent_loop.py:315-331 | Loaded skills, empty if none are listed, are put into the store and shown in its context, whose other keys stay; one trace entry is added |
| PlannerStore.Store.PostThink | services/runtime/src/aegora_runtime/agent_loop.py:413-448 | Counts the iteration, stores the decision with its calls, sets the route and an answer that is not empty, changes nothing else, and picks the edge |
| PlannerStore.Store.MergeLoadedSkill | services/runtime/src/aegora_runtime/agent_loop.py:631-641 | A newly loaded skill is added at the end, marked as loaded by a tool; no other skill keeps its id, the others keep their order, and the context shows the same skills; any other result changes nothing |
| PlannerStore.Store.MergeBatch | services/runtime/src/aegora_runtime/agent_loop.py:504-516 | The loop over a batch merges its loaded skills one by one and its FAQ searches together, as the batch laws below describe |
| NodeLaws.BatchLoadsSkills | services/runtime/src/aegora_runtime/agent_loop.py:631-641 | After a batch the state holds, under each id the batch has loaded, the skill loaded last and no other, and under every other id what it held before; the context shows the same skills |
| NodeLaws.OneLoadedSkill | services/runtime/src/aegora_runtime/agent_loop.py:504-508 | A result that newly loads a skill puts it at the end in place of any of its id; any other changes nothing |
| NodeLaws.SearchesOfABatch | services/runtime/src/aegora_runtime/agent_loop.py:509-516 | The searches of a batch are its FAQ search results that list what they found, in order, each with the query it ran |
| NodeLaws.BatchIsMerged | services/runtime/src/aegora_runtime/agent_loop.py:476-548 | A visit of execute_tool that was not held back adds its results to the observations, holds the last loaded skill of each id, and replaces the retrieved FAQs by the merge of all its searches, if there was one |
| NodeLaws.BatchRunsTheCalls | services/runtime/src/aegora_runtime/agent_loop.py:455-474 | A batch runner gets the decision's calls; without one each is run in order; a decision without calls raises |
| NodeLaws.ToolResultNamesItsCall | services/runtime/src/aegora_runtime/agent_loop.py:676-693 | A result says which call it answers; a raise becomes an error result |
| NodeLaws.ModelDecidesExactly | services/runtime/src/aegora_runtime/agent_loop.py:403-411 | The model decides while iterations remain; then the run is handed off without asking it |
| PlannerStore.Store.PostExecuteTool | services/runtime/src/aegora_runtime/agent_loop.py:476-548 | Observations are appended and traced; a pending result pauses the run with its answer and approval, any other batch only changes skills, context and retrieved FAQs, and leads on with an error exactly when an observation reports one |
| PlannerStore.Store.PostSelfCheck | services/runtime/src/aegora_runtime/agent_loop.py:560-584 | A pending run stays pending; any other is completed, or failed with its reason as an error, with a revised answer if there is one |
| PlannerStore.Store.RunNode | services/runtime/src/aegora_runtime/agent_loop.py:275-584 | One node run on the store has the effect of the specified visit, and a raising node leaves the store as it was |
| PlannerStore.Store.RunFlow | services/runtime/src/aegora_runtime/agent_loop.py:134-177 | The flow loop ends in the state and for the reason of the specified run |
| PlannerStore.RunAdapted | services/runtime/src/aegora_runtime/langgraph_engine.py:213-228 | Filling a new store, injecting the runtime context, running the node and persisting equal the specified checkpoint step |
| PlannerStore.AnswerInterrupt | services/runtime/src/aegora_runtime/langgraph_engine.py:247-282 | The resumed checkpoint carries the answered interrupt's observations and the route of the decision |
| EmbeddingIndex.TruthfulExactly | services/runtime/scripts/embed_faqs.py:67-126 | For FAQs and skills alike: in every interleaving of imports, claims, saves, failures and resets by any workers, under one storage model, a row that counts as up to date holds its current content's vector, if and only if equal hashes mean equal vectors among the imported contents |
| EmbeddingIndex.HistoryIsHonest | services/runtime/scripts/embed_faqs.py:166-197 | In every such history a vector is the encoding of a content that hashes to its tag, jobs in flight carry the text of their tag, and attempts never exceed the retry limit |
| EmbeddingIndex.StepStaysHonest | services/runtime/scripts/import_faqs.py:115-194 | Each transaction, imports and late saves included, keeps that honesty |
| EmbeddingIndex.RelabelMisleads | services/runtime/scripts/import_faqs.py:167-175 | With a second storage model the promise fails: an import relabels the old model's vector |
| EmbeddingIndex.CollisionMisleads | services/runtime/scripts/import_faqs.py:172-175 | Two contents with one hash leave the first one's vector marked as up to date for the second |
| EmbeddingIndex.ChangedContentIsClaimable | services/runtime/scripts/import_faqs.py:172-183 | Content with a new hash can be claimed at once, however often encoding the old one failed |
| EmbeddingIndex.UnchangedImportStaysUpToDate | services/runtime/scripts/skills.py:162-194 | Writing unchanged content again keeps an up-to-date vector |
| EmbeddingIndex.SaveSettlesExactly | services/runtime/scripts/skills.py:313-338 | A saved vector is up to date exactly when the row has not changed since it was claimed; otherwise a live row can be claimed again at once |
| EmbeddingIndex.ResetFreesExactly | services/runtime/scripts/embed_faqs.py:216-231 | Resetting failed entries frees a stale live row exactly when it had attempts left or was marked failed with enough attempts (FAQs: the retry limit, skills: none): one whose worker died on its last attempt stays out of reach |
| EmbeddingIndex.TaggingExactly | services/runtime/scripts/import_faqs.py:167-183 | Under a changed hash the vector goes and the attempts start anew, under the same one both stay; label and tag are the written ones; no other entry changes |
| EmbeddingIndex.WorkerSteps | services/runtime/scripts/embed_faqs.py:103-126 | A claim takes the current text and stamp of its rows into flight and counts an attempt for each; a save settles each of its rows by its last job for it, a failure marks them, and both land the worker; rows, other entries and other workers stay |
| EmbeddingIndex.HistoryEvolves | services/runtime/scripts/sync_strapi_content.py:94-95 | Over any history rows stay, versions never go down, and a row with the version it had has the hash it had |
| EmbeddingIndex.HistoryIsIndexed | services/runtime/scripts/import_faqs.py:115-194 | Over any history every content row has its entry in the index |
| FaqHash.ImportableExactly | services/runtime/scripts/import_faqs.py:199-226 | The contents FAQs can have are exactly those with stripped fields and a question and an answer |
| FaqHash.OneLineIsUnique | services/runtime/scripts/import_faqs.py:199-209 | An FAQ with single-line fields shares its hashed payload with no other content of any kind |
| FaqHash.TextTellsExactly | services/runtime/src/aegora_runtime/embeddings.py:151-164 | Single-line FAQs have the same embedding text exactly when they agree on title, question, keywords and answer |
| FaqIndex.UnbrokenIsUnique | services/runtime/scripts/import_faqs.py:199-209 | Neither does an FAQ in whose fields no run of newlines stands between two words, with any other FAQ |
| FaqIndex.RivalsExactly | services/runtime/scripts/import_faqs.py:199-209 | Cutting the payload at its line breaks finds exactly the other FAQs with the same payload: the hash is an FAQ's own if and only if that search finds none |
| FaqIndex.BreakHasRival | services/runtime/scripts/import_faqs.py:199-209 | A newline between two words gives an FAQ such a rival, which reads the break as the end of its field: always in title, question, answer and keywords, in the intention if there are keywords or a category, in the category if there are keywords or an intention |
| FaqIndex.OnlyBreakExactly | services/runtime/scripts/import_faqs.py:199-209 | An FAQ with a single such break has a rival if and only if the break is in one of those places |
| FaqIndex.OtherReadingExactly | services/runtime/scripts/import_faqs.py:199-209 | Reading a break as the end of its field and joining two neighbouring parts elsewhere yields a rival exactly when neither of them is empty and a question and an answer remain |
| FaqIndex.MovedBreakExactly | services/runtime/scripts/import_faqs.py:199-226 | The line behind a break in a question may begin the answer instead exactly when the break stands between two words |
| FaqIndex.FaqIndexTruthfulExactly | services/runtime/scripts/import_faqs.py:115-209 | With a collision-free digest the FAQ index is truthful in every interleaving if and only if rivals that may both be imported have the same vector |
| FaqIndex.UnbrokenIndexIsTruthful | services/runtime/scripts/import_faqs.py:115-209 | So it is for all FAQs without a newline between two words |
| FaqIndex.LineBreaksMislead | services/runtime/scripts/import_faqs.py:199-209 | It is not if an FAQ with such a break in one of those places may be imported beside the one that reads the break otherwise, and their vectors differ |
| SkillIndex.SkillIndexIsTruthful | services/runtime/scripts/skills.py:162-338 | With a collision-free digest the skill index is truthful in every interleaving, for all skills |
| SkillIndex.HashedDecidesText | services/runtime/src/aegora_runtime/skills.py:21-52 | A skill's hash covers every field its embedding text is built from |
| SkillIndex.TextTellsExactly | services/runtime/src/aegora_runtime/skills.py:21-32 | Skills shown on single lines have the same embedding text exactly when they agree on title, description, domain and examples |
| SkillIndex.ListedConcat | services/runtime/src/aegora_runtime/skills.py:30-31 | Every example is shown, in order |
| DrainLoop.Database.Drain | services/runtime/scripts/embed_faqs.py:38-56 | The loop ends even when every encoding fails; processed is succeeded plus failed and within the limit; succeeded counts exactly the rows brought up to date; attempts stay within the retry limit; without a limit nothing is left to claim, so every live row of an index that covers all rows ends up to date or out of attempts; rows not claimable at the start are untouched; honesty is kept |
| DrainLoop.Database.Embed | services/runtime/scripts/skills.py:245-273 | The embedding script, with or without resetting failed entries first: it drains an index that covers all rows, succeeded counts the rows brought up to date since the reset, and honesty is kept |
| DrainLoop.Database.DrainBatch | services/runtime/scripts/skills.py:259-272 | One round claims distinct claimable rows, and either brings all of them up to date or costs each one attempt |
| DrainLoop.Database.ClaimJobs | services/runtime/scripts/embed_faqs.py:67-126 | Claims the first claimable rows by size and then id, all of them if there are no more, each with its current text and version, counts one attempt for each and touches no other entry |
| DrainLoop.Database.SaveVectors | services/runtime/scripts/embed_faqs.py:166-197 | Saves all vectors or, on a wrong count or dimension, none |
| DrainLoop.FailedBatch | services/runtime/scripts/embed_faqs.py:200-213 | A batch that fails costs each claimed row one attempt and marks it failed, keeps its vector and tag, and leaves all other entries alone |
| DrainLoop.DrainedExactly | services/runtime/scripts/embed_faqs.py:129-150 | When every row is indexed, nothing is left to claim exactly when every live row is up to date or out of attempts |
| DrainLoop.EncodeWithRetry | services/runtime/scripts/embed_faqs.py:153-163 | The first answer of the encoder, or the last failure when every attempt raised |
| DrainLoop.Database.ImportRows | services/runtime/scripts/import_faqs.py:52-196 | Imports every row into both tables in order, or, when a row cannot be read (an FAQ without question or answer text), changes nothing |
| DrainLoop.ImportFaqs | services/runtime/scripts/import_faqs.py:52-196 | Imports FAQs exactly when all have question and answer text; every imported id is then served with importable content, and an index that covered all rows still does |
| DrainLoop.BatchKeeps | services/runtime/scripts/embed_faqs.py:38-56 | A round strictly lowers the sum of remaining attempts over stale rows |
| Versions.VersionsAreFaithful | services/runtime/scripts/import_faqs.py:128-131 | Over any writes of one row versions never go down, rise by at most one per write, and one version goes with one hash |
| Versions.VersionCountsChanges | services/runtime/scripts/sync_strapi_content.py:94-95 | The version is one more than the number of writes that changed the hash |
| Versions.Connections.Upsert | apps/control-plane/backend/app/db.py:628-665 | An MCP connection's stored hash and version follow the version rule; the other fields are the request's |
| Workflow.LifecycleSound | apps/control-plane/backend/app/db.py:796-956 | Over every history of publishes and retires: at most one active version per workflow; active exactly when its retired fields are null; the catalogue carries the active version and hash; an enabled catalogue entry is the active version's; manifests and authors of published versions never change |
| Workflow.PublishSound | apps/control-plane/backend/app/db.py:796-886 | A publish keeps all of that, and its version is active unless it was refused |
| Workflow.RetireSound | apps/control-plane/backend/app/db.py:906-956 | A retire keeps all of that, and its version is not active afterwards |
| Workflow.ShowsExactly | apps/control-plane/backend/app/db.py:802-826 | Publishing trusts a given manifest hash: the catalogue always shows the active version's own definition if and only if the hash decides the definition |
| Workflow.Store.PublishVersion | apps/control-plane/backend/app/db.py:796-886 | Unless refused, a publish activates its version, retires every other active one of the workflow, leaves all other rows alone and puts the definition into the catalogue; it fails exactly for tools that are no workflows and for changed content under a published version, and then changes nothing |
| Workflow.Store.RetireVersion | apps/control-plane/backend/app/db.py:906-956 | Retires one row, keeping who retired it first, and disables its catalogue entry exactly when it was active and shown there; a version that is not there yields nothing |
| WorkflowLocks.Serialisable | apps/control-plane/backend/app/db.py:796-956 | Every interleaving of publishes and retires at statement level, under the advisory lock and row locks, leaves the committed tables exactly as the calls of the committed transactions do, run one by one as atomic steps in commit order |
| WorkflowLocks.InterleavingsAreSound | apps/control-plane/backend/app/db.py:796-956 | So the committed tables of every interleaving satisfy the lifecycle invariants |
| WorkflowLocks.ManifestsNeverChange | apps/control-plane/backend/app/db.py:839-878 | From any point of any interleaving on, published versions stay, with the manifest and the author they were created with |
| WorkflowLocks.CommitIsAtomic | apps/control-plane/backend/app/db.py:796-886 | At its commit a transaction has exactly the effect its call has as one atomic step |
| WorkflowLocks.NotFoundIsAtomic | apps/control-plane/backend/app/db.py:906-923 | A retire that finds no row would have changed nothing when it looked |
| WorkflowLocks.KnowsOn | apps/control-plane/backend/app/db.py:815-839 | What an open transaction has read stays true when another one commits |
| WorkflowLocks.IndexNeverRejects | apps/control-plane/backend/app/db.py:162-168 | The table as a transaction sees it between its statements never holds two active versions of a workflow, so the unique index rejects none of its statements |
| WorkflowLocks.NoDeadlock | apps/control-plane/backend/app/db.py:813-830 | While a transaction is open, one can run its next statement or commit, even when advisory lock hashes collide |
| Usage.TotalsAreSums | services/runtime/src/aegora_runtime/deepseek.py:128-149 | After any recorded calls the totals equal the sums over the models and count the records |
| Usage.CallsCountRequestsExactly | services/runtime/src/aegora_runtime/deepseek.py:117-126 | The call counter counts requests exactly when no reply lacked its answer: such a reply is recorded twice |
| Usage.CountersAreSums | services/runtime/src/aegora_runtime/deepseek.py:128-149 | Every counter of every model is the sum over its own records |
| Usage.FailuresAreUnanswered | services/runtime/src/aegora_runtime/deepseek.py:95-126 | Failed calls of a model are its requests that were not answered |
| Usage.TokensAreOfReplies | services/runtime/src/aegora_runtime/deepseek.py:117-126 | Token counts of a model are those of its readable replies, answered or not |
| Usage.ReportsAddUp | services/runtime/src/aegora_runtime/hooks.py:94-145 | The usage deltas of a run's nodes, repeated nodes included, add up to the delta of the run |
| Usage.RunReportsItsCalls | services/runtime/src/aegora_runtime/agent_loop.py:722-738 | What a run reports is the usage of its own calls, however much the client was used before |
| Usage.Telescopes | services/runtime/src/aegora_runtime/hooks.py:130-145 | Differences of consecutive snapshots add up |
| Usage.TrimmedSame | services/runtime/src/aegora_runtime/agent_loop.py:722-738 | Dropping models without a difference loses nothing: reports are equal exactly when all numbers are |
| Usage.Client.RecordUsage | services/runtime/src/aegora_runtime/deepseek.py:128-149 | One record adds to the totals and to its model's counters only |
| Usage.Client.Chat | services/runtime/src/aegora_runtime/deepseek.py:93-126 | What a request records for each way it can end |
| Usage.Hooks.RunNode | services/runtime/src/aegora_runtime/hooks.py:23-40 | Between its hooks a node reports exactly the usage of its own calls, whatever an earlier run of the node left behind |
| Usage.Hooks.RunNodes | services/runtime/src/aegora_runtime/hooks.py:23-40 | Through the hooks every node of a run reports its own delta, in order |
| Holdout.GroupRows | services/runtime/scripts/generate_retrieval_holdout.py:99-104 | One group per content hash, holding exactly the rows with text and that hash, in order |
| Holdout.WithHashIsFiltered | services/runtime/scripts/generate_retrieval_holdout.py:99-104 | A group is the rows with text and its hash, in row order |
| Holdout.CollapsedExactly | services/runtime/scripts/generate_retrieval_holdout.py:102 | Collapsing keeps every character that is not blank, in order; its only blanks are single spaces |
| Holdout.CategoriesExactly | services/runtime/scripts/generate_retrieval_holdout.py:116-119 | A group's category is that of its first row, or the one for rows without |
| Holdout.StratifiedSample | services/runtime/scripts/generate_retrieval_holdout.py:107-133 | For any shuffles the sample has exactly min(size, groups) groups with distinct hashes, all of them given ones, and every category fills its quota when the quotas fit into the size |
| Holdout.BuildHoldout | services/runtime/scripts/generate_retrieval_holdout.py:58-96 | Succeeds exactly when the sizes are positive and enough groups are untouched by the development set; each case then expects all ids of a group in order, under the query of its least row, no hash twice and no development row |
| Holdout.ChooseQuery | services/runtime/scripts/generate_retrieval_holdout.py:136-148 | Chooses the first variant that asks something else than the first, else a long enough title that does, else the first variant |
| Holdout.ChosenOnce | services/runtime/scripts/generate_retrieval_holdout.py:136-148 | That choice is unique, and marked as the original query exactly when it asks the same as the first variant |
| Holdout.HoldoutIsIsolated | services/runtime/scripts/generate_retrieval_holdout.py:67-76 | No holdout row shares its id or its content hash with a development row |
| Holdout.ValidateIsolation | services/runtime/scripts/generate_retrieval_holdout.py:159-177 | Accepts exactly when every row has text, all ids are known, and neither ids nor hashes overlap |
| Holdout.OverlapIsRejected | services/runtime/scripts/generate_retrieval_holdout.py:171-172 | Any id or hash the two sets share makes the validation raise |
| Holdout.ValidationExactly | services/runtime/scripts/generate_retrieval_holdout.py:159-177 | For unique ids, validating a built holdout succeeds if and only if every knowledge row has question and answer text and every development id is a row's; overlap is never the reason it raises |
| Holdout.BlankRowRaises | services/runtime/scripts/generate_retrieval_holdout.py:164 | A blank row that the grouping passes over makes the validation raise |
| Holdout.NormalizedEmpty | services/runtime/scripts/generate_retrieval_holdout.py:102 | The grouping and the hash agree on which fields count as empty |
| Scopes.NormalizeScope | apps/control-plane/backend/app/authz.py:4-17 | Raises exactly for scopes with a value that is no list of texts; else yields the same keys with exactly their texts, sorted and without repetition |
| Scopes.ScopeIsSubset | apps/control-plane/backend/app/authz.py:33-40 | Holds exactly when each text requested under a key is allowed under it; raises exactly on malformed scopes |
| Scopes.BelowExactly | apps/control-plane/backend/app/authz.py:33-40 | One scope is below another exactly when every text it lists under a key is listed there under that key |
| Scopes.BelowIsAPreorder | apps/control-plane/backend/app/authz.py:33-40 | The order is a preorder, and scopes below each other grant the same values for every key |
| Scopes.MergeToolScopes | apps/control-plane/backend/app/authz.py:20-30 | The loop over role rows yields the sorted lists of the specified merge and raises exactly when a row is malformed |
| Scopes.MergedRawExactly | apps/control-plane/backend/app/authz.py:20-30 | The merge holds a text for a tool and key exactly when some row of the tool lists it |
| Scopes.MergeIsLeastUpperBound | apps/control-plane/backend/app/authz.py:20-30 | Per tool the merge is below a scope exactly when every row of the tool is |
| Scopes.MergeIgnoresOrder | apps/control-plane/backend/app/authz.py:20-30 | Rows in another order, or repeated, merge to the same scopes |
| Scopes.MergedListsIgnoreOrder | apps/control-plane/backend/app/authz.py:20-30 | So are the sorted lists the merge returns |
| Scopes.RequestPassesExactly | apps/control-plane/backend/app/authz.py:33-40 | A request passes against the merge exactly when each requested value is granted by at least one row |
| Metrics.EvalStats.ScoreRow | services/runtime/scripts/run_eval.py:145-152 | A row with expected ids counts once, adds its first hit among the five best to the recall and its reciprocal place to the ranks, and a hit at first place to the top hits; other rows change nothing |
| Metrics.EvalStats.EvaluateDataset | services/runtime/scripts/run_eval.py:89-115 | Scoring a dataset row by row from fresh counters yields the evaluation the order is stated about |
| Metrics.MetricsAreOrdered | services/runtime/scripts/run_eval.py:145-152 | For every dataset top1 <= mrr_sum <= recall <= scored, and mrr_sum equals recall exactly when every hit is at first place |
| Metrics.PercentileBounds | services/runtime/scripts/run_perf_eval.py:144-153 | Interpolated percentiles of a sorted list lie between its ends and reach them at 0 and 100 |
| Metrics.PercentileMonotone | services/runtime/scripts/run_perf_eval.py:144-153 | They grow with the percentage |
| Metrics.PercentileInterpolates | services/runtime/scripts/run_perf_eval.py:144-153 | Between the two neighbouring values of its rank a percentile is interpolated linearly |
| EvalCache.CacheIsItsFileExactly | services/runtime/scripts/eval_answer_quality.py:137-173 | After any puts the map equals a replay of its file if and only if no item was put under a key that is no string |
| EvalCache.PutsReplay | services/runtime/scripts/eval_answer_quality.py:164-173 | The string-keyed part of the map is always a replay of the file, which only grows |
| EvalCache.LaterLinesWin | services/runtime/scripts/eval_answer_quality.py:146-156 | A key is found with the item of its last line in the file, and only if there is one |
| EvalCache.Cache.constructor | services/runtime/scripts/eval_answer_quality.py:146-156 | Loading the file line by line yields its replay |
| EvalCache.Cache.Put | services/runtime/scripts/eval_answer_quality.py:164-173 | The first item of a key stays; a new one is stored, appended to the file and counted; a missing or unhashable key raises and changes nothing |
| EvalCache.Cache.Find | services/runtime/scripts/eval_answer_quality.py:158-162 | Returns the cached item of a key and counts the read |

## Left out

- Observability events, stream events, logging, trace identifiers, elapsed times and Langfuse spans: effects without influence on a run.
- Derived fields of trace entries (previews, copied status, latency) and the FAQ category table an import also writes.
- Request and dependency handles, tool catalogue and loop mode in the store: constant during a run and never persisted.
- LangGraph itself: its recursion limit is a parameter, and its checkpointer is taken to return the last checkpoint.
- Where a retried LangGraph resume continues is up to the checkpointer; the budget holds for every checkpoint the failed one reached.
- Failures of the approval store itself, and overlapping decisions on one approval: the code gives no promise for them.
- Equality of the two engines beyond an approval: their observations differ there, as the PocoFlow snapshot is taken before the pending observation is appended.
- The descriptive fields of approval records and pending results (policy, redacted arguments, actor, release).
- Names of tools are taken to be tool ids, as the gate looks them up, and a batch runner is taken not to report a pending approval of its own.
- Tool adapters, memory, retrieval and MCP sessions: oracles of the planner, not part of this model.
- How Python shows a value that is no string (`str`) is a parameter.
- The wording of the answer that lists unusable tools.
- PlannerStore.Store.MergeBatch: reads FAQ items that are no objects as empty ones, where the code raises, because retrieval only returns objects.
- The JSON conversion of recorded results is any function on states.
- DrainLoop.Database.Drain: positive batch size and retry limit are required, as the settings check demands; a negative batch size given on the command line is not covered.
- Changing the embedding model, apart from showing that an import relabels vectors.
- FAQ fields that are neither strings nor missing, skill validation and procedural-memory checks before a skill import.
- Deleting FAQs and skills for good, and status changes of skills beyond whether they are live.
- Other writers of the `tools` table (tool upserts, status changes, MCP discovery, deletion): the projection invariants are about publishes and retires.
- WorkflowLocks.Serialisable: takes each statement as atomic once all the rows it needs are free, as there is at most one other active row to wait for.
- Skipped usage snapshots: a provider that is missing or raises reports nothing; a node that raises ends the run without a report.
- LangGraph's own `diff_usage`: it does not look into the counters per model.
- Token counts that are not numbers in a model reply.
- Holdout.BuildHoldout: leaves out case numbers, tags and difficulty; the patterns that split and compare questions are parameters.
- Holdout.StratifiedSample: categories are visited in any order instead of the sorted one, and shuffles are arbitrary permutations.
- Scopes.NormalizeScope: scope keys are strings, as in JSON, and dictionaries carry no order.
- Metrics.PercentileBounds: is about exact numbers, not floating-point ones.
- EvalCache.CacheIsItsFileExactly: takes one process to write the file, JSON to read back as written, and numbers and booleans never to be equal keys.
- Route, answer and failure-sample counters of the evaluation, agents, roles, users, releases, channels and HTTP endpoints: easy members or I/O.
