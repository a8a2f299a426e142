/** What an approval records of a run, and what the continued run starts from. */
module ResumeLaws {
  import opened Json
  import opened Planner
  import opened PlannerBounds
  import opened LangGraph
  import opened Approvals
  import opened Filters

  // ---------- Observations only grow ----------

  /** The run starts in this state, and never loses an observation of it. */
  ghost predicate GrowsFrom(run: Run, s: State) {
    && (run.visits == [] ==> run.final == s)
    && (run.visits != [] ==> run.visits[0].before == s)
    && (forall v | v in run.visits :: s.toolObservations <= v.before.toolObservations && s.toolObservations <= v.after.toolObservations)
    && s.toolObservations <= run.final.toolObservations
  }

  lemma VisitGrows(env: Env, tick: nat, node: Node, s: State)
    requires node != AwaitApproval && Visit(env, tick, node, s).Ok?
    ensures s.toolObservations <= Visit(env, tick, node, s).value.state.toolObservations
  {
    if node == ExecuteTool {
      var results := BatchResults(ExecuteToolExec(env, tick, s).value);
      MergeKeepsLoop(s.(toolObservations := s.toolObservations + results), results);
    }
  }

  lemma GrowsThen(v: Visited, rest: Run)
    requires v.before.toolObservations <= v.after.toolObservations && GrowsFrom(rest, v.after)
    ensures GrowsFrom(Then(v, rest), v.before)
  {
    forall u | u in Then(v, rest).visits
      ensures v.before.toolObservations <= u.before.toolObservations && v.before.toolObservations <= u.after.toolObservations
    {
      assert u == v || u in rest.visits;
    }
  }

  lemma {:induction false} FlowGrows(env: Env, tick: nat, node: Node, s: State, cap: nat)
    requires node != AwaitApproval
    ensures GrowsFrom(Flow(env, tick, node, s, cap), s)
    decreases cap
  {
    hide Visit, GrowsFrom;
    if cap == 0 || Visit(env, tick, node, s).Raise? {
      GrowsStopped(s, node, Flow(env, tick, node, s, cap).end);
    } else {
      VisitGrows(env, tick, node, s);
      var step := Visit(env, tick, node, s).value;
      var v := Visited(node, s, step.state);
      var next := Successor(node, step.action);
      if next.None? {
        GrowsStopped(step.state, node, Ended);
        GrowsThen(v, Run([], step.state, node, Ended));
        assert [v] + [] == [v];
      } else {
        FlowGrows(env, tick + 1, next.value, step.state, cap - 1);
        GrowsThen(v, Flow(env, tick + 1, next.value, step.state, cap - 1));
      }
    }
  }

  lemma GrowsStopped(s: State, node: Node, end: End)
    ensures GrowsFrom(Run([], s, node, end), s)
  {
  }

  lemma {:induction false} GraphGrowsFrom(e: Engine, tick: nat, node: Node, p: State, limit: nat)
    ensures GrowsFrom(Graph(e, tick, node, p, limit), p)
    decreases limit
  {
    hide Visit, GrowsFrom;
    if limit == 0 || node == AwaitApproval || AdaptedVisit(e, tick, node, p).Raise? {
      GrowsStopped(p, node, Graph(e, tick, node, p, limit).end);
    } else {
      VisitGrows(e.env, tick, node, Rehydrated(e, p));
      var p' := AdaptedVisit(e, tick, node, p).value;
      var v := Visited(node, p, p');
      var next := GraphSuccessor(node, p');
      if next.None? {
        GrowsStopped(p', node, Ended);
        GrowsThen(v, Run([], p', node, Ended));
        assert [v] + [] == [v];
      } else {
        GraphGrowsFrom(e, tick + 1, next.value, p', limit - 1);
        GrowsThen(v, Graph(e, tick + 1, next.value, p', limit - 1));
      }
    }
  }

  // ---------- What a resumed run starts from ----------

  /** The observation that a call was decided on. */
  predicate Decision(o: Json, call: ToolCall, id: string, status: string) {
    && o.Obj? && Get(o, "status") == Str(status) && Get(o, "approval_id") == Str(id)
    && Get(o, "call_id") == Str(call.callId) && Get(o, "tool_name") == Str(call.toolName) && Get(o, "args") == call.toolArgs
  }

  lemma DecisionIsObserved(call: ToolCall, id: string, status: string)
    ensures Decision(ApprovalObservation(call, id, status), call, id, status)
  {
  }

  /** `before`, then the decision on a call, then exactly these results. */
  predicate Decides(observations: seq<Json>, before: seq<Json>, call: ToolCall, id: string, status: string, results: seq<Json>) {
    && |observations| == |before| + 1 + |results| && before <= observations
    && Decision(observations[|before|], call, id, status)
    && observations[|before| + 1..] == results
  }

  lemma DecidesSum(before: seq<Json>, call: ToolCall, id: string, status: string, results: seq<Json>)
    ensures Decides(before + [ApprovalObservation(call, id, status)] + results, before, call, id, status, results)
  {
    hide ApprovalObservation, Decision;
    DecisionIsObserved(call, id, status);
  }

  function StartOf(run: Run): State {
    if run.visits == [] then run.final else run.visits[0].before
  }

  lemma Grown(run: Run, s: State)
    requires GrowsFrom(run, s)
    ensures StartOf(run) == s && GrowsFrom(run, StartOf(run))
  {
  }

  /** An approved PocoFlow turn goes on from the snapshot's observations and loop count, with the decision
      and then exactly the executed results added; no later visit loses any of them. */
  lemma ApprovedFlowStarts(d: Decide, s: Snapshot, results: seq<Json>)
    requires !s.langGraph
    ensures var start := StartOf(ResumedRun(d, s, results));
            && Decides(start.toolObservations, s.observations, s.call, d.id, "approval_approved", results)
            && start.loopCount == s.loopCount && start.status == Running
            && GrowsFrom(ResumedRun(d, s, results), start)
  {
    hide Flow, GrowsFrom, StartOf, Decides;
    var decision := ApprovalObservation(s.call, d.id, "approval_approved");
    DecidesSum(s.observations, s.call, d.id, "approval_approved", results);
    var start := Fresh(s.observations + [decision] + results, s.loopCount);
    FlowGrows(d.env, 0, LoadContext, start, MaxSteps(d.env.maxIterations));
    Grown(ResumedRun(d, s, results), start);
  }

  function IsObject(): Json -> bool {
    (v: Json) => v.Obj?
  }

  lemma {:induction false} ObjectsAreFiltered(items: seq<Json>)
    ensures Objects(items) == Filter(items, IsObject())
    decreases |items|
  {
    if items != [] { ObjectsAreFiltered(items[1..]); }
  }

  lemma PayloadKeys()
    ensures "decision" != "approval_observation" && "decision" != "tool_results" && "approval_observation" != "tool_results"
    ensures "decision" != "answer" && "approval_observation" != "answer" && "tool_results" != "answer"
  {
    assert |"decision"| == 8 && |"approval_observation"| == 20 && |"tool_results"| == 12 && |"answer"| == 6;
  }

  lemma ApprovedStart(d: Decide, call: ToolCall, results: seq<Json>)
    ensures var start := Resumed(d.paused, ApprovedPayload(d, call, results));
            && start.toolObservations == d.paused.toolObservations + [ApprovalObservation(call, d.id, "approval_approved")] + Filter(results, IsObject())
            && start.loopCount == d.paused.loopCount && start.status == Running && start.answer.None? && start.approvalRequests == Arr([])
            && RouteAfterApproval(start) == Think
  {
    PayloadKeys();
    ObjectsAreFiltered(results);
    var payload := ApprovedPayload(d, call, results);
    assert Get(payload, "decision") == Str("approved") && Get(payload, "approval_observation") == ApprovalObservation(call, d.id, "approval_approved");
    assert Get(payload, "tool_results") == Arr(results);
  }

  lemma RejectedStart(d: Decide, call: ToolCall)
    ensures var start := Resumed(d.paused, RejectedPayload(d, call));
            && start.toolObservations == d.paused.toolObservations + [ApprovalObservation(call, d.id, "approval_rejected")] + []
            && start.answer == Some("审批已拒绝，本次工具调用不会执行。") && start.status == Running && start.approvalRequests == Arr([])
            && RouteAfterApproval(start) == SelfCheck
  {
    PayloadKeys();
    var payload := RejectedPayload(d, call);
    assert Get(payload, "decision") == Str("rejected") && Get(payload, "approval_observation") == ApprovalObservation(call, d.id, "approval_rejected");
    assert Get(payload, "tool_results") == Null;
  }

  lemma GraphStartsAt(e: Engine, node: Node, p: State, limit: nat)
    ensures var run := Graph(e, 0, node, p, limit);
            StartOf(run) == p && GrowsFrom(run, p) && (run.visits != [] ==> run.visits[0].node == node)
  {
    GraphGrowsFrom(e, 0, node, p, limit);
    hide Visit, GrowsFrom, StartOf;
    Grown(Graph(e, 0, node, p, limit), p);
  }

  /** An approved LangGraph turn goes on from its checkpoint, with the decision and then the objects
      among the executed results added, at the think node. */
  lemma ApprovedGraphStarts(d: Decide, s: Snapshot, results: seq<Json>)
    requires s.langGraph
    ensures var run := ResumedRun(d, s, results); var start := StartOf(run);
            && Decides(start.toolObservations, d.paused.toolObservations, s.call, d.id, "approval_approved", Filter(results, IsObject()))
            && start.loopCount == d.paused.loopCount && start.status == Running && start.answer.None? && start.approvalRequests == Arr([])
            && GrowsFrom(run, start) && (run.visits != [] ==> run.visits[0].node == Think)
  {
    hide Graph, GrowsFrom, StartOf, Decides, Resumed, RouteAfterApproval, ApprovedPayload;
    ApprovedStart(d, s.call, results);
    DecidesSum(d.paused.toolObservations, s.call, d.id, "approval_approved", Filter(results, IsObject()));
    GraphStartsAt(Engine(d.env, d.runtimeContext), Think, Resumed(d.paused, ApprovedPayload(d, s.call, results)), d.limit);
  }

  /** A rejected LangGraph turn goes to its self-check with the decision added and the fixed answer. */
  lemma RejectedGraphStarts(d: Decide, s: Snapshot)
    ensures var run := RejectedRun(d, s); var start := StartOf(run);
            && Decides(start.toolObservations, d.paused.toolObservations, s.call, d.id, "approval_rejected", [])
            && start.answer == Some("审批已拒绝，本次工具调用不会执行。") && start.status == Running && start.approvalRequests == Arr([])
            && GrowsFrom(run, start) && (run.visits != [] ==> run.visits[0].node == SelfCheck)
  {
    hide Graph, GrowsFrom, StartOf, Decides, Resumed, RouteAfterApproval, RejectedPayload;
    RejectedStart(d, s.call);
    DecidesSum(d.paused.toolObservations, s.call, d.id, "approval_rejected", []);
    GraphStartsAt(Engine(d.env, d.runtimeContext), SelfCheck, Resumed(d.paused, RejectedPayload(d, s.call)), d.limit);
  }

  /** A rejected PocoFlow turn is answered at once: completed, with the decision as its one observation. */
  lemma RejectedFlowAnswers(call: ToolCall, id: string)
    ensures var s := RejectedState(call, id);
            Decides(s.toolObservations, [], call, id, "approval_rejected", []) && s.answer == Some("审批已拒绝，本次工具调用不会执行。") && s.status == Completed && s.route == Decided(Answer)
  {
    hide ApprovalObservation;
    DecidesSum([], call, id, "approval_rejected", []);
    assert [] + [ApprovalObservation(call, id, "approval_rejected")] + [] == [ApprovalObservation(call, id, "approval_rejected")];
  }

  // ---------- What a run records ----------

  lemma {:induction false} AskedVisit(gate: Gate, visits: seq<Visited>, k: nat)
    requires k < |Asked(gate, visits)|
    ensures exists v :: v in visits && v.node == ExecuteTool && v.after.status == PendingApproval
                        && Asked(gate, visits)[k].1 == v.before && Asked(gate, visits)[k].0 in StoredCalls(v.before)
    decreases |visits|
  {
    hide StoredCalls;
    var v := visits[0];
    var gated := FirstGated(gate, StoredCalls(v.before));
    var asks := v.node == ExecuteTool && v.after.status == PendingApproval && gated.Some?;
    if asks && k == 0 {
      assert Asked(gate, visits)[0] == (gated.value, v.before);
    } else {
      var rest := Asked(gate, visits[1..]);
      assert Asked(gate, visits)[k] == rest[if asks then k - 1 else k];
      AskedVisit(gate, visits[1..], if asks then k - 1 else k);
      var u :| u in visits[1..] && u.node == ExecuteTool && u.after.status == PendingApproval
               && rest[if asks then k - 1 else k].1 == u.before && rest[if asks then k - 1 else k].0 in StoredCalls(u.before);
      assert u in visits;
    }
  }

  /** The log of a run grows batch by batch: a batch that was run adds its calls in order, each with what
      the gate knows of its tool; a visit of another node, or a batch that waits, adds nothing. */
  lemma OneMoreVisit(gate: Gate, visits: seq<Visited>, v: Visited)
    ensures var before, after, calls := ExecutedBatches(gate, visits), ExecutedBatches(gate, visits + [v]), StoredCalls(v.before);
            if v.node == ExecuteTool && v.after.status != PendingApproval then
              |after| == |before| + |calls| && before <= after
              && forall i | 0 <= i < |calls| :: after[|before| + i] == Ran(calls[i], PolicyOf(gate, calls[i].toolName))
                    else after == before
  {
    ExecutedSnoc(gate, visits, v);
  }

  lemma {:induction false} ExecutedSnoc(gate: Gate, visits: seq<Visited>, v: Visited)
    ensures ExecutedBatches(gate, visits + [v]) == ExecutedBatches(gate, visits)
              + if v.node == ExecuteTool && v.after.status != PendingApproval then RanAll(gate, StoredCalls(v.before)) else []
    decreases |visits|
  {
    hide StoredCalls, RanAll;
    if visits == [] {
      assert [] + [v] == [v] && [v][1..] == [];
      assert ExecutedBatches(gate, [v][1..]) == [];
    } else {
      assert (visits + [v])[1..] == visits[1..] + [v] && (visits + [v])[0] == visits[0];
      ExecutedSnoc(gate, visits[1..], v);
    }
  }

  /** A batch that raised is logged as well: some of its calls may have taken effect. */
  lemma RaisedBatchIsLogged(gate: Gate, run: Run)
    ensures var batches, all, calls := ExecutedBatches(gate, run.visits), Executions(gate, run), StoredCalls(run.final);
            if run.end.Raised? && run.at == ExecuteTool then
              |all| == |batches| + |calls| && batches <= all
              && forall i | 0 <= i < |calls| :: all[|batches| + i] == Ran(calls[i], PolicyOf(gate, calls[i].toolName))
            else all == batches
  {
    hide StoredCalls;
  }

  /** A batch that waits for the approval of one of its calls. */
  predicate Waits(gate: Gate, v: Visited) {
    v.node == ExecuteTool && v.after.status == PendingApproval
    && exists k :: 0 <= k < |StoredCalls(v.before)| && !Harmless(PolicyOf(gate, StoredCalls(v.before)[k].toolName))
  }

  /** A run asks once for each batch that waits. */
  lemma {:induction false} OneMoreAsked(gate: Gate, visits: seq<Visited>, v: Visited)
    ensures |Asked(gate, visits + [v])| == |Asked(gate, visits)| + (if Waits(gate, v) then 1 else 0)
    ensures Asked(gate, visits) <= Asked(gate, visits + [v])
    decreases |visits|
  {
    hide StoredCalls;
    if visits == [] {
      assert [v][1..] == [];
      forall k | 0 <= k < |StoredCalls(v.before)| { GateExactly(gate, StoredCalls(v.before)[k].toolName); }
    } else {
      assert (visits + [v])[1..] == visits[1..] + [v];
      OneMoreAsked(gate, visits[1..], v);
    }
  }

  /** A run that asked leaves one waiting record: a call of the batch it paused at, with the observations
      and the loop count from before that batch. A run that did not ask leaves the records alone. */
  lemma AskedIsRecorded(w: World, gate: Gate, run: Run, langGraph: bool, newId: string, expiresAt: int)
    ensures var after := AfterRun(w, gate, run, langGraph, newId, expiresAt);
            if Asked(gate, run.visits) == [] then after.records == w.records
            else
              && newId in after.records && after.records == w.records[newId := after.records[newId]]
              && var r := after.records[newId];
                 r.status == Waiting && r.result.None? && r.expiresAt == expiresAt && r.snapshot.langGraph == langGraph
                 && exists v :: v in run.visits && v.node == ExecuteTool && v.after.status == PendingApproval
                                && r.snapshot.call in StoredCalls(v.before)
                                && r.snapshot.observations == v.before.toolObservations && r.snapshot.loopCount == v.before.loopCount
  {
    hide StoredCalls;
    if Asked(gate, run.visits) != [] {
      AskedVisit(gate, run.visits, 0);
    }
  }

  /** A recorded result is what the continued run ended in; nothing else of a world is touched. */
  lemma RecordingExactly(w: World, id: string, result: State)
    ensures var after := MarkExecuted(w, id, result);
            && after.log == w.log && after.records.Keys == w.records.Keys
            && (forall other | other in w.records && other != id :: after.records[other] == w.records[other])
            && (id in w.records ==>
                  after.records[id].status == Executed && after.records[id].result == Some(result)
                  && after.records[id].snapshot == w.records[id].snapshot && after.records[id].expiresAt == w.records[id].expiresAt)
  {
  }

  // ---------- What a decision does ----------

  /** A granted call is run once, if its tool is still allowed; what follows is logged after it. The
      result is recorded, in the form that is safe to store, unless something failed. */
  lemma ResumingExactly(w: World, d: Decide, record: Record)
    ensures var (answer, after) := ResumeApproved(w, d, record);
            var call := record.snapshot.call;
            if d.allowed.None? || call.toolName !in d.allowed.value then answer.Raise? && after == w
            else
              var log := w.log + [RanApproved(d.id, call, d.allowed.value)];
              match d.results
              case Raise(error) => answer == Raise(error) && after == World(w.records, log + [Aborted(d.id)])
              case Ok(results) =>
                var run := ResumedRun(d, record.snapshot, results);
                var ran := Executions(d.gate, run);
                if run.end in {Ended, Interrupted} then
                  && answer == Ok(run.final) && after.log == log + ran
                  && (d.id in w.records ==>
                        d.id in after.records && after.records[d.id].status == Executed && after.records[d.id].result == Some(d.jsonSafe(run.final)))
                else
                  && answer.Raise? && after.log == log + ran + [Aborted(d.id)]
                  && (d.id in w.records && d.id != d.newId ==> d.id in after.records && after.records[d.id] == w.records[d.id])
  {
    hide Executions, Asked, ResumedRun, SnapshotOf;
  }

  /** What a decision comes to, by the record it meets. */
  lemma DecidingExactly(w: World, d: Decide)
    ensures var (answer, after) := DecideApproval(w, d);
            if d.id !in w.records then answer.Raise? && after == w
            else
              var r := w.records[d.id];
              if r.status == Waiting && d.now >= r.expiresAt then
                answer.Raise? && after == w.(records := w.records[d.id := r.(status := Expired)])
              else if r.status == Waiting && d.approve then
                var granted := r.(status := Approved);
                (answer, after) == ResumeApproved(w.(records := w.records[d.id := granted]), d, granted)
              else if r.status == Waiting && r.snapshot.langGraph && d.allowed.Some? then
                var run := RejectedRun(d, r.snapshot);
                && (answer == Ok(run.final) <==> run.end in {Ended, Interrupted})
                && after == AfterRun(w.(records := w.records[d.id := r.(status := Rejected)]), d.gate, run, true, d.newId, d.newExpiry)
              else if r.status == Waiting then
                answer == Ok(RejectedState(r.snapshot.call, d.id)) && after == w.(records := w.records[d.id := r.(status := Rejected)])
              else if d.approve && r.status == Approved && r.result.None? then (answer, after) == ResumeApproved(w, d, r)
              else if d.approve && r.status == Executed && r.result.Some? then answer == Ok(r.result.value) && after == w
              else answer.Raise? && after == w
  {
    hide AfterRun, ResumeApproved, RejectedRun, RejectedState;
    assert w.(records := w.records) == w;
  }
}
