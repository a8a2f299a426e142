/** A configured run never goes through three tool batches in a row without usable output. */
module ReplanningBound {
  import opened Json
  import opened Planner
  import opened PlannerBounds
  import opened LangGraph
  import opened ConfiguredPlanner
  import opened ConfiguredRuns
  import EngineEquivalence

  /** The observations a batch added. */
  function Batch(v: Visited): seq<Json> {
    if |v.before.toolObservations| <= |v.after.toolObservations|
    then v.after.toolObservations[|v.before.toolObservations|..] else []
  }

  function Batches(visits: seq<Visited>): seq<seq<Json>> {
    if visits == [] then []
    else (if visits[0].node == ExecuteTool then [Batch(visits[0])] else []) + Batches(visits[1..])
  }

  predicate Fruitless(batch: seq<Json>) {
    forall o | o in batch :: !Usable(o)
  }

  /** A batch that reports something, in objects. */
  predicate Reports(batch: seq<Json>) {
    batch != [] && forall o | o in batch :: o.Obj?
  }

  /** No three fruitless batches in a row, when `streak` of them have just gone by. */
  predicate NoThree(streak: nat, batches: seq<seq<Json>>)
    decreases |batches|
  {
    batches == [] ||
    if Fruitless(batches[0]) then streak < 2 && NoThree(streak + 1, batches[1..]) else NoThree(0, batches[1..])
  }

  lemma {:induction false} NoThreeMeans(streak: nat, batches: seq<seq<Json>>, i: nat)
    requires NoThree(streak, batches) && i + 2 < |batches|
    ensures !(Fruitless(batches[i]) && Fruitless(batches[i + 1]) && Fruitless(batches[i + 2]))
    decreases i
  {
    if i > 0 {
      NoThreeMeans(if Fruitless(batches[0]) then streak + 1 else 0, batches[1..], i - 1);
    } else if Fruitless(batches[0]) && Fruitless(batches[1]) {
      var later := batches[1..][1..];
      assert NoThree(streak + 1, batches[1..]);
      assert NoThree(streak + 2, later) && later[0] == batches[2];
    }
  }

  lemma {:induction false} TrailingAppend(observations: seq<Json>, batch: seq<Json>)
    requires Fruitless(batch) && forall o | o in batch :: o.Obj?
    ensures TrailingUnusable(observations + batch) == TrailingUnusable(observations) + |batch|
  {
    if batch == [] {
      assert observations + batch == observations;
    } else {
      var n := |batch| - 1;
      assert (observations + batch)[..|observations + batch| - 1] == observations + batch[..n];
      TrailingAppend(observations, batch[..n]);
    }
  }

  /** What the state shows when `streak` fruitless batches have just gone by. */
  predicate Shows(node: Node, s: State, streak: nat) {
    && TrailingUnusable(s.toolObservations) >= streak
    && match node
       case ExecuteTool => streak < 2 && s.loopCount >= streak + 1
       case Think => streak <= 2 && s.loopCount >= streak
       case SelfCheck => true
       case _ => streak == 0
  }

  lemma ExecuteToolAdds(env: Env, c: Config, tick: nat, s: State)
    requires Configured(env, c) && Arrived(ExecuteTool, s, c)
    ensures Visit(env, tick, ExecuteTool, s).Ok?
    ensures var s' := Visit(env, tick, ExecuteTool, s).value.state;
            && s'.loopCount == s.loopCount
            && s.toolObservations <= s'.toolObservations
  {
    hide ConfiguredThink;
    var exec := c.runTools(tick, env.request, StoredCalls(s), s);
    var with := s.(toolObservations := s.toolObservations + BatchResults(exec));
    BatchKeepsLoop(s, exec);
    MergeKeepsLoop(with, BatchResults(exec));
  }

  function After(node: Node, v: Visited, streak: nat): nat {
    if node != ExecuteTool then streak else if Fruitless(Batch(v)) then streak + 1 else 0
  }

  lemma VisitShows(env: Env, c: Config, tick: nat, node: Node, s: State, streak: nat)
    requires Configured(env, c) && node != AwaitApproval && Arrived(node, s, c) && Shows(node, s, streak)
    requires Visit(env, tick, node, s).Ok?
    requires node == ExecuteTool ==> Reports(Batch(Visited(node, s, Visit(env, tick, node, s).value.state)))
    ensures var step := Visit(env, tick, node, s).value;
            var next := Successor(node, step.action);
            next.Some? ==> Shows(next.value, step.state, After(node, Visited(node, s, step.state), streak))
  {
    match node
    case Think => ThinkShows(env, c, tick, s, streak);
    case ExecuteTool => ExecuteToolShows(env, c, tick, s, streak);
    case _ => OtherShows(env, tick, node, s, streak);
  }

  lemma OtherShows(env: Env, tick: nat, node: Node, s: State, streak: nat)
    requires node !in {AwaitApproval, Think, ExecuteTool} && Shows(node, s, streak) && Visit(env, tick, node, s).Ok?
    ensures var step := Visit(env, tick, node, s).value;
            var next := Successor(node, step.action);
            next.Some? ==> Shows(next.value, step.state, streak)
  {
    hide ThinkPost, ExecuteToolExec, TrailingUnusable;
  }

  lemma ExecuteToolShows(env: Env, c: Config, tick: nat, s: State, streak: nat)
    requires Configured(env, c) && Arrived(ExecuteTool, s, c) && Shows(ExecuteTool, s, streak)
    requires Visit(env, tick, ExecuteTool, s).Ok?
    requires Reports(Batch(Visited(ExecuteTool, s, Visit(env, tick, ExecuteTool, s).value.state)))
    ensures var step := Visit(env, tick, ExecuteTool, s).value;
            var next := Successor(ExecuteTool, step.action);
            next.Some? ==> Shows(next.value, step.state, After(ExecuteTool, Visited(ExecuteTool, s, step.state), streak))
  {
    hide Visit, Configured, Arrived, TrailingUnusable, Fruitless, Successor;
    ExecuteToolAdds(env, c, tick, s);
    var step := Visit(env, tick, ExecuteTool, s).value;
    var v := Visited(ExecuteTool, s, step.state);
    assert s.toolObservations + Batch(v) == step.state.toolObservations;
    if Fruitless(Batch(v)) { TrailingAppend(s.toolObservations, Batch(v)); }
    ExecuteToolSuccessors(step.action);
  }

  lemma ThinkShows(env: Env, c: Config, tick: nat, s: State, streak: nat)
    requires Configured(env, c) && Arrived(Think, s, c) && Shows(Think, s, streak)
    ensures Visit(env, tick, Think, s).Ok?
    ensures var step := Visit(env, tick, Think, s).value;
            var next := Successor(Think, step.action);
            next.Some? ==> Shows(next.value, step.state, streak)
  {
    hide Strip, ThinkExec, Configured, TrailingUnusable, Actionable;
    ThinkDecides(env, c, tick, s);
  }

  lemma ExecuteToolSuccessors(action: Action)
    ensures Successor(ExecuteTool, action).Some? ==> Successor(ExecuteTool, action).value in {Think, SelfCheck}
  {
  }

  lemma {:induction false} FlowNoThree(env: Env, c: Config, tick: nat, node: Node, s: State, streak: nat, cap: nat)
    requires Configured(env, c) && node != AwaitApproval && Arrived(node, s, c) && Shows(node, s, streak)
    requires forall b | b in Batches(Flow(env, tick, node, s, cap).visits) :: Reports(b)
    ensures NoThree(streak, Batches(Flow(env, tick, node, s, cap).visits))
    decreases cap
  {
    hide Visit, Successor, StoredCalls, Configured, Shows;
    if cap > 0 {
      VisitArrives(env, c, tick, node, s);
      var step := Visit(env, tick, node, s).value;
      var v := Visited(node, s, step.state);
      var next := Successor(node, step.action);
      SuccessorIsNode(node, step.action);
      var rest := if next.None? then Run([], step.state, node, Ended) else Flow(env, tick + 1, next.value, step.state, cap - 1);
      assert Flow(env, tick, node, s, cap).visits == [v] + rest.visits;
      assert ([v] + rest.visits)[1..] == rest.visits;
      if node == ExecuteTool {
        assert Batches(Flow(env, tick, node, s, cap).visits)[0] == Batch(v);
        assert Batches(Flow(env, tick, node, s, cap).visits)[1..] == Batches(rest.visits);
        StreakBelowTwo(s, streak);
      } else {
        assert Batches(Flow(env, tick, node, s, cap).visits) == Batches(rest.visits);
      }
      VisitShows(env, c, tick, node, s, streak);
      if next.Some? { FlowNoThree(env, c, tick + 1, next.value, step.state, After(node, v, streak), cap - 1); }
    }
  }

  lemma StreakBelowTwo(s: State, streak: nat)
    requires Shows(ExecuteTool, s, streak)
    ensures streak < 2
  {
  }

  /** From a fresh state, when every batch reports something, no three batches in a row are fruitless. */
  lemma NoThreeFruitlessBatches(env: Env, c: Config, i: nat)
    requires Configured(env, c)
    requires forall b | b in Batches(RunPlanner(env, [], 0).visits) :: Reports(b)
    requires i + 2 < |Batches(RunPlanner(env, [], 0).visits)|
    ensures var bs := Batches(RunPlanner(env, [], 0).visits);
            !(Fruitless(bs[i]) && Fruitless(bs[i + 1]) && Fruitless(bs[i + 2]))
  {
    hide Flow, Configured;
    FlowNoThree(env, c, 0, LoadContext, Fresh([], 0), 0, MaxSteps(env.maxIterations));
    NoThreeMeans(0, Batches(RunPlanner(env, [], 0).visits), i);
  }

  // ---------- LangGraph ----------

  lemma ShowsThrough(e: Engine, node: Node, p: State, s: State, streak: nat)
    ensures Shows(node, Rehydrated(e, p), streak) <==> Shows(node, p, streak)
    ensures Shows(node, Persisted(s), streak) <==> Shows(node, s, streak)
  {
  }

  /** One visit of the graph, with the batch it adds. */
  lemma AdaptedVisitShows(e: Engine, c: Config, tick: nat, node: Node, p: State, streak: nat)
    requires Configured(e.env, c) && node != AwaitApproval && Arrived(node, p, c) && p.status == Running && Shows(node, p, streak)
    requires AdaptedVisit(e, tick, node, p).Ok?
    requires node == ExecuteTool ==> Reports(Batch(Visited(node, p, AdaptedVisit(e, tick, node, p).value)))
    ensures var p' := AdaptedVisit(e, tick, node, p).value;
            var next := GraphSuccessor(node, p');
            next.Some? && next.value != AwaitApproval ==> Shows(next.value, p', After(node, Visited(node, p, p'), streak))
  {
    hide Visit, Successor, GraphSuccessor, Configured, Arrived, Shows, Fruitless, Reports;
    var s := Rehydrated(e, p);
    var step := Visit(e.env, tick, node, s).value;
    RehydratedArrives(e, c, node, p);
    ShowsThrough(e, node, p, step.state, streak);
    assert Batch(Visited(node, s, step.state)) == Batch(Visited(node, p, Persisted(step.state)));
    VisitShows(e.env, c, tick, node, s, streak);
    EngineEquivalence.SameEdges(e.env, tick, node, s);
    var next := Successor(node, step.action);
    if next.Some? { ShowsThrough(e, next.value, p, step.state, After(node, Visited(node, s, step.state), streak)); }
  }

  lemma {:induction false} GraphNoThree(e: Engine, c: Config, tick: nat, node: Node, p: State, streak: nat, limit: nat)
    requires Configured(e.env, c) && node != AwaitApproval && Arrived(node, p, c) && p.status == Running && Shows(node, p, streak)
    requires forall b | b in Batches(Graph(e, tick, node, p, limit).visits) :: Reports(b)
    ensures NoThree(streak, Batches(Graph(e, tick, node, p, limit).visits))
    decreases limit
  {
    hide AdaptedVisit, GraphSuccessor, StoredCalls, Configured, Shows, Fruitless, Batch, Reports;
    if limit > 0 {
      AdaptedVisitArrives(e, c, tick, node, p);
      var p' := AdaptedVisit(e, tick, node, p).value;
      var v := Visited(node, p, p');
      var next := GraphSuccessor(node, p');
      var rest := if next.None? then Run([], p', node, Ended) else Graph(e, tick + 1, next.value, p', limit - 1);
      assert Graph(e, tick, node, p, limit).visits == [v] + rest.visits;
      assert ([v] + rest.visits)[1..] == rest.visits;
      if node == ExecuteTool {
        assert Batches(Graph(e, tick, node, p, limit).visits)[0] == Batch(v);
        assert Batches(Graph(e, tick, node, p, limit).visits)[1..] == Batches(rest.visits);
        StreakBelowTwo(p, streak);
      } else {
        assert Batches(Graph(e, tick, node, p, limit).visits) == Batches(rest.visits);
      }
      AdaptedVisitShows(e, c, tick, node, p, streak);
      if next.Some? && next.value != AwaitApproval { GraphNoThree(e, c, tick + 1, next.value, p', After(node, v, streak), limit - 1); }
    }
  }

  /** The same on LangGraph, up to an approval or any recursion limit. */
  lemma GraphNoThreeFruitlessBatches(e: Engine, c: Config, limit: nat, i: nat)
    requires Configured(e.env, c)
    requires forall b | b in Batches(RunGraph(e, [], 0, limit).visits) :: Reports(b)
    requires i + 2 < |Batches(RunGraph(e, [], 0, limit).visits)|
    ensures var bs := Batches(RunGraph(e, [], 0, limit).visits);
            !(Fruitless(bs[i]) && Fruitless(bs[i + 1]) && Fruitless(bs[i + 2]))
  {
    hide Graph, Configured;
    GraphNoThree(e, c, 0, LoadContext, Persisted(Fresh([], 0)), 0, limit);
    NoThreeMeans(0, Batches(RunGraph(e, [], 0, limit).visits), i);
  }
}
