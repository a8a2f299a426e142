/** The trace of a run: one entry per visit, in order, on both wirings. */
module PlannerTrace {
  import opened Json
  import opened Planner
  import opened LangGraph

  function VisitedNodes(visits: seq<Visited>): seq<Node> {
    seq(|visits|, i requires 0 <= i < |visits| => visits[i].node)
  }

  function TracedNodes(trace: seq<TraceEntry>): seq<Node> {
    seq(|trace|, i requires 0 <= i < |trace| => trace[i].node)
  }

  /** From a state with this trace, the run has added exactly its visits to it. */
  ghost predicate Traces(run: Run, trace: seq<TraceEntry>) {
    trace <= run.final.trace && TracedNodes(run.final.trace[|trace|..]) == VisitedNodes(run.visits)
  }

  lemma {:induction false} MergesKeepTrace(s: State, results: seq<Json>, searches: seq<(string, seq<map<string, Json>>)>)
    ensures MergeFaqs(MergeLoadedSkills(s, results), searches).trace == s.trace
  {
    if results != [] { MergesKeepTrace(s, results[..|results| - 1], searches); }
  }

  lemma VisitTraces(env: Env, tick: nat, node: Node, s: State)
    requires node != AwaitApproval && Visit(env, tick, node, s).Ok?
    ensures var trace := Visit(env, tick, node, s).value.state.trace;
            |trace| == |s.trace| + 1 && trace[..|s.trace|] == s.trace && trace[|s.trace|].node == node
  {
    hide BatchResults, FaqSearches, CallIds, MergeFaqs, MergeLoadedSkills, GetOrEmpty, Get;
    if node == ExecuteTool {
      var exec := ExecuteToolExec(env, tick, s).value;
      var results := BatchResults(exec);
      MergesKeepTrace(s.(toolObservations := s.toolObservations + results), results, FaqSearches(results));
    }
  }

  lemma TracesThen(v: Visited, rest: Run)
    requires |v.after.trace| == |v.before.trace| + 1 && v.after.trace[..|v.before.trace|] == v.before.trace
    requires v.after.trace[|v.before.trace|].node == v.node && Traces(rest, v.after.trace)
    ensures Traces(Then(v, rest), v.before.trace)
  {
    var n, trace := |v.before.trace|, rest.final.trace;
    assert trace[..n + 1][..n] == v.before.trace && trace[..n + 1] == v.after.trace;
    assert trace[n..] == [trace[n]] + trace[n + 1..];
    assert VisitedNodes(Then(v, rest).visits) == [v.node] + VisitedNodes(rest.visits);
    assert TracedNodes(trace[n..]) == [trace[n].node] + TracedNodes(trace[n + 1..]);
  }

  lemma TracesStop(s: State, node: Node, end: End)
    ensures Traces(Run([], s, node, end), s.trace)
  {
    assert s.trace[|s.trace|..] == [];
  }

  /** A PocoFlow run appends one trace entry per visit, in order, and keeps the entries before. */
  lemma {:induction false} FlowTraces(env: Env, tick: nat, node: Node, s: State, cap: nat)
    requires node != AwaitApproval
    ensures Traces(Flow(env, tick, node, s, cap), s.trace)
    decreases cap
  {
    hide Visit, Traces;
    if cap == 0 || Visit(env, tick, node, s).Raise? {
      TracesStop(s, node, Flow(env, tick, node, s, cap).end);
    } else {
      VisitTraces(env, tick, node, s);
      var step := Visit(env, tick, node, s).value;
      var v := Visited(node, s, step.state);
      var next := Successor(node, step.action);
      if next.None? {
        TracesStop(step.state, node, Ended);
        TracesThen(v, Run([], step.state, node, Ended));
        assert [v] + [] == [v];
      } else {
        FlowTraces(env, tick + 1, next.value, step.state, cap - 1);
        TracesThen(v, Flow(env, tick + 1, next.value, step.state, cap - 1));
      }
    }
  }

  /** So does a LangGraph run: the checkpoints never lose an entry. */
  lemma {:induction false} GraphTraces(e: Engine, tick: nat, node: Node, p: State, limit: nat)
    ensures Traces(Graph(e, tick, node, p, limit), p.trace)
    decreases limit
  {
    hide Visit, Traces;
    if limit == 0 || node == AwaitApproval || AdaptedVisit(e, tick, node, p).Raise? {
      TracesStop(p, node, Graph(e, tick, node, p, limit).end);
    } else {
      VisitTraces(e.env, tick, node, Rehydrated(e, p));
      var p' := AdaptedVisit(e, tick, node, p).value;
      var v := Visited(node, p, p');
      var next := GraphSuccessor(node, p');
      if next.None? {
        TracesStop(p', node, Ended);
        TracesThen(v, Run([], p', node, Ended));
        assert [v] + [] == [v];
      } else {
        GraphTraces(e, tick + 1, next.value, p', limit - 1);
        TracesThen(v, Graph(e, tick + 1, next.value, p', limit - 1));
      }
    }
  }
}
