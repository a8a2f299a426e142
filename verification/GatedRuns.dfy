/** Runs behind the approval gate: what they execute, and that they ask for one approval at most. */
module GatedRuns {
  import opened Json
  import opened Planner
  import opened LangGraph
  import opened Approvals

  /** Only calls of harmless tools have been executed; the run asked for at most one approval, for a
      call of a tool that is not harmless, and it is paused exactly when it asked. */
  ghost predicate GatedRun(gate: Gate, run: Run) {
    && OnlyUngated(Executions(gate, run))
    && |Asked(gate, run.visits)| <= 1
    && (forall a | a in Asked(gate, run.visits) :: !Harmless(PolicyOf(gate, a.0.toolName)))
    && (|Asked(gate, run.visits)| == 1 <==> run.final.status == PendingApproval)
  }

  ghost predicate OnlyUngated(log: seq<Event>) {
    forall e | e in log :: e.Ran? && Harmless(e.policy)
  }

  lemma UngatedBatch(gate: Gate, calls: seq<ToolCall>)
    requires FirstGated(gate, calls).None?
    ensures OnlyUngated(RanAll(gate, calls))
  {
    forall c | c in calls ensures Harmless(PolicyOf(gate, c.toolName)) { GateExactly(gate, c.toolName); }
  }

  lemma GatedIsHarmful(gate: Gate, calls: seq<ToolCall>)
    ensures FirstGated(gate, calls).Some? ==> !Harmless(PolicyOf(gate, FirstGated(gate, calls).value.toolName))
  {
    if FirstGated(gate, calls).Some? { GateExactly(gate, FirstGated(gate, calls).value.toolName); }
  }

  lemma {:induction false} MergesKeepStatus(s: State, results: seq<Json>, searches: seq<(string, seq<map<string, Json>>)>)
    ensures MergeFaqs(MergeLoadedSkills(s, results), searches).status == s.status
  {
    if results != [] { MergesKeepStatus(s, results[..|results| - 1], searches); }
  }

  lemma GatedVisit(env: Env, gate: Gate, id: string, tick: nat, s: State)
    requires Gated(env, gate, id) && s.status != PendingApproval
    ensures var visit := Visit(env, tick, ExecuteTool, s);
            var gated := FirstGated(gate, StoredCalls(s)).Some?;
            && (visit.Raise? ==> !gated)
            && (visit.Ok? ==> (visit.value.action == PendingAction <==> gated) && (visit.value.state.status == PendingApproval <==> gated))
  {
    hide PendingExec, FirstGated, FaqSearches, MergeLoadedSkills, MergeFaqs, DecisionToolCalls;
    var calls := StoredCalls(s);
    if calls != [] {
      var outcome := env.deps.runTools.value(tick, env.request, calls, s);
      match FirstGated(gate, calls)
      case Some(call) => PendingExecIsPending(id, call);
      case None =>
        if outcome.Ok? {
          var results := BatchResults(outcome.value);
          MergesKeepStatus(s.(toolObservations := s.toolObservations + results), results, FaqSearches(results));
        }
    }
  }

  lemma PendingExecIsPending(id: string, call: ToolCall)
    ensures Pending(PendingExec(id, call))
  {
  }

  lemma OtherVisitsKeepStatus(env: Env, tick: nat, node: Node, s: State)
    requires node !in {AwaitApproval, ExecuteTool, SelfCheck} && Visit(env, tick, node, s).Ok?
    ensures Visit(env, tick, node, s).value.state.status == s.status
    ensures Visit(env, tick, node, s).value.action != PendingAction
  {
  }

  lemma SelfCheckVisit(env: Env, tick: nat, s: State)
    ensures var visit := Visit(env, tick, SelfCheck, s);
            && (s.status == PendingApproval ==> visit.Ok? && visit.value.state.status == PendingApproval)
            && (s.status != PendingApproval && visit.Ok? ==> visit.value.state.status in {Completed, Failed})
            && (visit.Ok? ==> visit.value.action == DoneAction)
  {
  }

  lemma GatedThen(gate: Gate, v: Visited, rest: Run)
    ensures Executions(gate, Then(v, rest)) ==
            (if v.node == ExecuteTool && v.after.status != PendingApproval then RanAll(gate, StoredCalls(v.before)) else []) + Executions(gate, rest)
    ensures Asked(gate, Then(v, rest).visits) ==
            (if v.node == ExecuteTool && v.after.status == PendingApproval && FirstGated(gate, StoredCalls(v.before)).Some?
             then [(FirstGated(gate, StoredCalls(v.before)).value, v.before)] else []) + Asked(gate, rest.visits)
  {
  }

  lemma LastVisit(gate: Gate, v: Visited)
    ensures var run := Run([v], v.after, v.node, Ended);
            && Executions(gate, run) == (if v.node == ExecuteTool && v.after.status != PendingApproval then RanAll(gate, StoredCalls(v.before)) else [])
            && Asked(gate, run.visits) == (if v.node == ExecuteTool && v.after.status == PendingApproval && FirstGated(gate, StoredCalls(v.before)).Some?
                                           then [(FirstGated(gate, StoredCalls(v.before)).value, v.before)] else [])
  {
    hide RanAll, StoredCalls, FirstGated;
    GatedThen(gate, v, Run([], v.after, v.node, Ended));
    assert [v] + [] == [v];
  }

  /** One visit and the gated rest of the run make a gated run. */
  lemma GatedStep(gate: Gate, v: Visited, rest: Run)
    requires v.node == ExecuteTool && v.after.status != PendingApproval ==> OnlyUngated(RanAll(gate, StoredCalls(v.before)))
    requires v.after.status == PendingApproval <==> v.node == ExecuteTool && FirstGated(gate, StoredCalls(v.before)).Some?
    requires if v.after.status == PendingApproval
             then Executions(gate, rest) == [] && Asked(gate, rest.visits) == [] && rest.final.status == PendingApproval
             else GatedRun(gate, rest)
    ensures GatedRun(gate, Then(v, rest))
  {
  }

  lemma GatedLast(gate: Gate, v: Visited)
    requires v.node == ExecuteTool && v.after.status != PendingApproval ==> OnlyUngated(RanAll(gate, StoredCalls(v.before)))
    requires v.after.status == PendingApproval <==> v.node == ExecuteTool && FirstGated(gate, StoredCalls(v.before)).Some?
    ensures GatedRun(gate, Run([v], v.after, v.node, Ended))
  {
    GatedIsHarmful(gate, StoredCalls(v.before));
    hide RanAll, StoredCalls, FirstGated, Executions, Asked, Harmless;
    LastVisit(gate, v);
  }

  // ---------- PocoFlow ----------

  lemma PausedFlowStops(env: Env, gate: Gate, tick: nat, s: State, cap: nat)
    requires s.status == PendingApproval
    ensures var run := Flow(env, tick, SelfCheck, s, cap);
            Executions(gate, run) == [] && Asked(gate, run.visits) == [] && run.final.status == PendingApproval
  {
    hide Visit;
    if cap > 0 {
      SelfCheckVisit(env, tick, s);
      LastVisit(gate, Visited(SelfCheck, s, Visit(env, tick, SelfCheck, s).value.state));
    }
  }

  lemma {:induction false} FlowIsGated(env: Env, gate: Gate, id: string, tick: nat, node: Node, s: State, cap: nat)
    requires Gated(env, gate, id) && node != AwaitApproval && s.status != PendingApproval
    ensures GatedRun(gate, Flow(env, tick, node, s, cap))
    decreases cap
  {
    hide Visit, Gated, StoredCalls, FirstGated, RanAll, Executions, Asked, GatedRun;
    if cap == 0 || Visit(env, tick, node, s).Raise? {
      if cap > 0 { NodeVisit(env, gate, id, tick, node, s); }
      StoppedIsGated(gate, Flow(env, tick, node, s, cap));
    } else {
      NodeVisit(env, gate, id, tick, node, s);
      var step := Visit(env, tick, node, s).value;
      var v := Visited(node, s, step.state);
      var next := Successor(node, step.action);
      if next.None? {
        GatedLast(gate, v);
      } else {
        if step.state.status == PendingApproval {
          PausedFlowStops(env, gate, tick + 1, step.state, cap - 1);
        } else {
          FlowIsGated(env, gate, id, tick + 1, next.value, step.state, cap - 1);
        }
        GatedStep(gate, v, Flow(env, tick + 1, next.value, step.state, cap - 1));
      }
    }
  }

  /** A run that stops before its first visit is done. */
  lemma StoppedIsGated(gate: Gate, run: Run)
    requires run.visits == [] && run.final.status != PendingApproval
    requires run.end.Raised? && run.at == ExecuteTool ==> OnlyUngated(RanAll(gate, StoredCalls(run.final)))
    ensures GatedRun(gate, run)
  {
  }

  /** One visit under the gate, from a state that waits for nothing. */
  lemma NodeVisit(env: Env, gate: Gate, id: string, tick: nat, node: Node, s: State)
    requires Gated(env, gate, id) && node != AwaitApproval && s.status != PendingApproval
    ensures var visit := Visit(env, tick, node, s);
            && (visit.Raise? && node == ExecuteTool ==> OnlyUngated(RanAll(gate, StoredCalls(s))))
            && (visit.Ok? ==>
                  && (visit.value.state.status == PendingApproval <==> node == ExecuteTool && FirstGated(gate, StoredCalls(s)).Some?)
                  && (visit.value.state.status == PendingApproval ==> visit.value.action == PendingAction)
                  && (node == ExecuteTool && visit.value.state.status != PendingApproval ==> OnlyUngated(RanAll(gate, StoredCalls(s)))))
  {
    hide Visit, Gated, StoredCalls, FirstGated, RanAll;
    if node == ExecuteTool {
      GatedVisit(env, gate, id, tick, s);
      if FirstGated(gate, StoredCalls(s)).None? { UngatedBatch(gate, StoredCalls(s)); }
    } else if node == SelfCheck {
      SelfCheckVisit(env, tick, s);
    } else if Visit(env, tick, node, s).Ok? {
      OtherVisitsKeepStatus(env, tick, node, s);
    }
  }

  // ---------- LangGraph ----------

  lemma {:induction false} GraphIsGated(e: Engine, gate: Gate, id: string, tick: nat, node: Node, p: State, limit: nat)
    requires Gated(e.env, gate, id) && node != AwaitApproval && p.status != PendingApproval
    ensures GatedRun(gate, Graph(e, tick, node, p, limit))
    decreases limit
  {
    hide Visit, Gated, StoredCalls, FirstGated, RanAll, Rehydrated, Executions, Asked, GatedRun;
    RehydratedKeeps(e, p);
    if limit > 0 { NodeVisit(e.env, gate, id, tick, node, Rehydrated(e, p)); }
    if limit == 0 || AdaptedVisit(e, tick, node, p).Raise? {
      StoppedIsGated(gate, Graph(e, tick, node, p, limit));
    } else {
      var p' := AdaptedVisit(e, tick, node, p).value;
      var v := Visited(node, p, p');
      var next := GraphSuccessor(node, p');
      if next.None? {
        GatedLast(gate, v);
      } else {
        if p'.status != PendingApproval {
          GraphIsGated(e, gate, id, tick + 1, next.value, p', limit - 1);
        } else {
          PausedGraphStops(e, gate, tick + 1, p', limit - 1);
        }
        GatedStep(gate, v, Graph(e, tick + 1, next.value, p', limit - 1));
      }
    }
  }

  lemma PausedGraphStops(e: Engine, gate: Gate, tick: nat, p: State, limit: nat)
    requires p.status == PendingApproval
    ensures var run := Graph(e, tick, AwaitApproval, p, limit);
            Executions(gate, run) == [] && Asked(gate, run.visits) == [] && run.final.status == PendingApproval
  {
  }

  lemma RehydratedKeeps(e: Engine, p: State)
    ensures Rehydrated(e, p).status == p.status && StoredCalls(Rehydrated(e, p)) == StoredCalls(p)
  {
  }

  lemma ResumedGraphIsGated(e: Engine, gate: Gate, id: string, paused: State, payload: Json, limit: nat)
    requires Gated(e.env, gate, id)
    ensures GatedRun(gate, ResumeGraph(e, 0, paused, payload, limit))
  {
    hide Gated;
    var p := Resumed(paused, payload);
    GraphIsGated(e, gate, id, 0, RouteAfterApproval(p), p, limit);
  }

  /** A rejected LangGraph turn goes straight to the self-check: nothing is executed or asked. */
  lemma RejectedRunExecutesNothing(d: Decide, snapshot: Snapshot)
    ensures var run := RejectedRun(d, snapshot);
            Executions(d.gate, run) == [] && Asked(d.gate, run.visits) == []
  {
    hide Visit;
    var payload := RejectedPayload(d, snapshot.call);
    assert Get(payload, "decision") == Str("rejected");
    var e := Engine(d.env, d.runtimeContext);
    var p := Resumed(d.paused, payload);
    assert RouteAfterApproval(p) == SelfCheck;
    var run := Graph(e, 0, SelfCheck, p, d.limit);
    if d.limit > 0 && AdaptedVisit(e, 0, SelfCheck, p).Ok? {
      LastVisit(d.gate, Visited(SelfCheck, p, run.final));
      SelfCheckVisit(e.env, 0, Rehydrated(e, p));
    }
  }
}
