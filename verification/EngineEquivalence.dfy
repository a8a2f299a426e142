/** The two wirings compute the same run, exactly when the runtime context that `load_context`
    put into the state is the one the LangGraph adapter puts back. */
module EngineEquivalence {
  import opened Json
  import opened Planner
  import opened PlannerBounds
  import opened LangGraph

  /** Stripping the runtime context and putting the engine's back gives the context again. */
  ghost predicate RoundTrips(runtimeContext: Option<Json>, context: Context) {
    LiveContext(runtimeContext, context - {RUNTIME_CONTEXT}) == context
  }

  ghost predicate SameRuntimeContext(a: Context, b: Context) {
    && (RUNTIME_CONTEXT in a <==> RUNTIME_CONTEXT in b)
    && (RUNTIME_CONTEXT in a ==> a[RUNTIME_CONTEXT] == b[RUNTIME_CONTEXT])
  }

  lemma RoundTripsExactly(runtimeContext: Option<Json>, context: Context)
    ensures RoundTrips(runtimeContext, context) <==>
            if runtimeContext.Some? && Truthy(runtimeContext.value)
            then RUNTIME_CONTEXT in context && context[RUNTIME_CONTEXT] == runtimeContext.value
            else RUNTIME_CONTEXT !in context
  {
  }

  lemma {:induction false} MergeKeepsRuntimeContext(s: State, results: seq<Json>)
    ensures SameRuntimeContext(s.context, MergeLoadedSkills(s, results).context)
  {
    if results != [] { MergeKeepsRuntimeContext(s, results[..|results| - 1]); }
  }

  /** Only `load_context` touches the runtime context. */
  lemma VisitKeepsRuntimeContext(env: Env, tick: nat, node: Node, s: State)
    requires node != AwaitApproval && node != LoadContext && Visit(env, tick, node, s).Ok?
    ensures SameRuntimeContext(s.context, Visit(env, tick, node, s).value.state.context)
  {
    if node == ExecuteTool {
      var results := BatchResults(ExecuteToolExec(env, tick, s).value);
      MergeKeepsRuntimeContext(s.(toolObservations := s.toolObservations + results), results);
    }
  }

  // ---------- The relation between the two runs ----------

  ghost predicate SameVisits(graph: seq<Visited>, poco: seq<Visited>) {
    |graph| == |poco| && forall i | 0 <= i < |graph| :: SameVisit(graph[i], poco[i])
  }

  /** The graph made the same visit, on the checkpoints of the flow's states. */
  ghost predicate SameVisit(graph: Visited, poco: Visited) {
    && graph.node == poco.node
    && graph.before == Persisted(poco.before)
    && graph.after == Persisted(poco.after)
  }

  /** Equal runs up to persistence; at an approval the graph stops where the flow still runs its
      self-check on the pending state. */
  ghost predicate Corresponds(graph: Run, poco: Run) {
    if graph.end == Interrupted then
      && poco.end == Ended && poco.visits != []
      && var last := poco.visits[|poco.visits| - 1];
      && SameVisits(graph.visits, poco.visits[..|poco.visits| - 1])
      && last.node == SelfCheck && last.before.status == PendingApproval
      && graph.final == Persisted(last.before)
      && poco.final == SelfCheckPost(last.before, CheckResult(true, Some("pending_approval"), None))
    else
      && graph.end == poco.end && graph.at == poco.at
      && graph.final == Persisted(poco.final)
      && SameVisits(graph.visits, poco.visits)
  }

  lemma CorrespondsThen(gv: Visited, graph: Run, pv: Visited, poco: Run)
    requires Corresponds(graph, poco) && SameVisit(gv, pv)
    ensures Corresponds(Then(gv, graph), Then(pv, poco))
  {
    if graph.end == Interrupted {
      var n := |poco.visits|;
      assert ([pv] + poco.visits)[..n] == [pv] + poco.visits[..n - 1];
    }
  }

  /** Edges on actions and edges on the checkpoint lead to the same node while a run is live. */
  lemma SameEdges(env: Env, tick: nat, node: Node, s: State)
    requires node != AwaitApproval && s.status == Running && Visit(env, tick, node, s).Ok?
    ensures var step := Visit(env, tick, node, s).value;
            var next := Successor(node, step.action);
            if node == ExecuteTool && step.state.status == PendingApproval then
              next == Some(SelfCheck) && GraphSuccessor(node, Persisted(step.state)) == Some(AwaitApproval)
            else
              next == GraphSuccessor(node, Persisted(step.state)) && (next.Some? ==> step.state.status == Running)
  {
    if node == ExecuteTool {
      BatchKeepsLoop(s, ExecuteToolExec(env, tick, s).value);
    }
  }

  lemma AfterPending(e: Engine, tick: nat, s: State, n: nat)
    requires s.status == PendingApproval && n > 0
    ensures Corresponds(Graph(e, tick, AwaitApproval, Persisted(s), n), Flow(e.env, tick, SelfCheck, s, n))
  {
    var poco := Flow(e.env, tick, SelfCheck, s, n);
    assert Visit(e.env, tick, SelfCheck, s).Ok?;
    assert poco.visits[..|poco.visits| - 1] == [];
  }

  lemma GraphStep(e: Engine, tick: nat, node: Node, s: State, n: nat)
    requires node != AwaitApproval && n > 0 && Rehydrated(e, Persisted(s)) == s
    requires Visit(e.env, tick, node, s).Ok?
    ensures var s' := Visit(e.env, tick, node, s).value.state;
            var v := Visited(node, Persisted(s), Persisted(s'));
            match GraphSuccessor(node, Persisted(s'))
            case None => Graph(e, tick, node, Persisted(s), n) == Run([v], Persisted(s'), node, Ended)
            case Some(next) =>
              Graph(e, tick, node, Persisted(s), n) == Then(v, Graph(e, tick + 1, next, Persisted(s'), n - 1))
  {
  }

  lemma PocoStep(env: Env, tick: nat, node: Node, s: State, n: nat)
    requires node != AwaitApproval && n > 0 && Visit(env, tick, node, s).Ok?
    ensures var step := Visit(env, tick, node, s).value;
            var v := Visited(node, s, step.state);
            match Successor(node, step.action)
            case None => Flow(env, tick, node, s, n) == Run([v], step.state, node, Ended)
            case Some(next) =>
              next != AwaitApproval && Flow(env, tick, node, s, n) == Then(v, Flow(env, tick + 1, next, step.state, n - 1))
  {
  }

  lemma RaisedStep(e: Engine, tick: nat, node: Node, s: State, n: nat)
    requires node != AwaitApproval && n > 0 && Rehydrated(e, Persisted(s)) == s
    requires Visit(e.env, tick, node, s).Raise?
    ensures Corresponds(Graph(e, tick, node, Persisted(s), n), Flow(e.env, tick, node, s, n))
  {
  }

  lemma EndedStep(s: State, s': State, node: Node)
    ensures Corresponds(Run([Visited(node, Persisted(s), Persisted(s'))], Persisted(s'), node, Ended),
                        Run([Visited(node, s, s')], s', node, Ended))
  {
  }

  /** The bisimulation, from any live state behind `load_context`. */
  lemma {:induction false} Bisimulation(e: Engine, tick: nat, node: Node, s: State, n: nat)
    requires node != AwaitApproval && node != LoadContext && s.status == Running
    requires RoundTrips(e.runtimeContext, s.context)
    requires n >= VisitsLeft(node, s.loopCount, e.env.maxIterations)
    ensures Corresponds(Graph(e, tick, node, Persisted(s), n), Flow(e.env, tick, node, s, n))
    decreases n
  {
    hide Flow, Graph, Visit, Successor, GraphSuccessor, VisitsLeft, Corresponds;
    VisitsLeftPositive(node, s.loopCount, e.env.maxIterations);
    if Visit(e.env, tick, node, s).Raise? {
      RaisedStep(e, tick, node, s, n);
    } else {
      var step := Visit(e.env, tick, node, s).value;
      VisitKeepsRuntimeContext(e.env, tick, node, s);
      GraphStep(e, tick, node, s, n);
      PocoStep(e.env, tick, node, s, n);
      SameEdges(e.env, tick, node, s);
      VisitSpends(e.env, tick, node, s);
      var next := Successor(node, step.action);
      SuccessorIsNode(node, step.action);
      var gv, pv := Visited(node, Persisted(s), Persisted(step.state)), Visited(node, s, step.state);
      if next.None? {
        EndedStep(s, step.state, node);
      } else if node == ExecuteTool && step.state.status == PendingApproval {
        VisitsLeftPositive(next.value, step.state.loopCount, e.env.maxIterations);
        AfterPending(e, tick + 1, step.state, n - 1);
        CorrespondsThen(gv, Graph(e, tick + 1, AwaitApproval, Persisted(step.state), n - 1),
                        pv, Flow(e.env, tick + 1, SelfCheck, step.state, n - 1));
      } else {
        Bisimulation(e, tick + 1, next.value, step.state, n - 1);
        CorrespondsThen(gv, Graph(e, tick + 1, next.value, Persisted(step.state), n - 1),
                        pv, Flow(e.env, tick + 1, next.value, step.state, n - 1));
      }
    }
  }

  /** `load_context` replaces the context, so the first visit agrees whatever was injected before it. */
  lemma FirstVisit(e: Engine, observations: seq<Json>, loopCount: nat, n: nat)
    requires n > 0
    ensures var s := Fresh(observations, loopCount);
            match e.env.deps.loadContext(0, e.env.request)
            case Raise(error) =>
              Corresponds(Graph(e, 0, LoadContext, Persisted(s), n), Flow(e.env, 0, LoadContext, s, n))
            case Ok(context) =>
              var s' := LoadContextPost(s, context);
              && Graph(e, 0, LoadContext, Persisted(s), n) ==
                 Then(Visited(LoadContext, Persisted(s), Persisted(s')), Graph(e, 1, LoadSkills, Persisted(s'), n - 1))
              && Flow(e.env, 0, LoadContext, s, n) ==
                 Then(Visited(LoadContext, s, s'), Flow(e.env, 1, LoadSkills, s', n - 1))
  {
    assert Persisted(Fresh(observations, loopCount)) == Fresh(observations, loopCount);
  }

  /** Engine equivalence: with the engine's own runtime context in the loaded context, both
      wirings make the same visits on the same states and end alike; the only difference kept is
      that a checkpoint carries no runtime context. Any recursion limit of at least
      `2 * max_iterations + 5` is enough for the graph. */
  lemma EnginesAgree(e: Engine, observations: seq<Json>, loopCount: nat, limit: nat)
    requires var loaded := e.env.deps.loadContext(0, e.env.request); loaded.Ok? ==> RoundTrips(e.runtimeContext, loaded.value)
    requires limit >= 2 * e.env.maxIterations + 5
    ensures Corresponds(RunGraph(e, observations, loopCount, limit), RunPlanner(e.env, observations, loopCount))
  {
    var s := Fresh(observations, loopCount);
    PlannerRunBound(e.env, observations, loopCount);
    assert Flow(e.env, 0, LoadContext, s, limit) == RunPlanner(e.env, observations, loopCount);
    FirstVisit(e, observations, loopCount, limit);
    AgreeFromFirst(e, s, limit);
  }

  lemma AgreeFromFirst(e: Engine, s: State, limit: nat)
    requires exists observations, loopCount :: s == Fresh(observations, loopCount)
    requires var loaded := e.env.deps.loadContext(0, e.env.request); loaded.Ok? ==> RoundTrips(e.runtimeContext, loaded.value)
    requires limit >= VisitsLeft(LoadContext, s.loopCount, e.env.maxIterations)
    ensures Corresponds(Graph(e, 0, LoadContext, Persisted(s), limit), Flow(e.env, 0, LoadContext, s, limit))
  {
    hide Flow, Graph, Visit, Corresponds;
    var observations, loopCount :| s == Fresh(observations, loopCount);
    FirstVisit(e, observations, loopCount, limit);
    var loaded := e.env.deps.loadContext(0, e.env.request);
    if loaded.Ok? {
      var s' := LoadContextPost(s, loaded.value);
      Bisimulation(e, 1, LoadSkills, s', limit - 1);
      CorrespondsThen(Visited(LoadContext, Persisted(s), Persisted(s')), Graph(e, 1, LoadSkills, Persisted(s'), limit - 1),
                      Visited(LoadContext, s, s'), Flow(e.env, 1, LoadSkills, s', limit - 1));
    }
  }

  // ---------- The condition is necessary ----------

  ghost function Says(answer: string): Decision {
    Decision(Answer, Some(answer), None, Null, Null, [])
  }

  /** A model that only looks at the runtime context it is shown. */
  ghost function ProbeDeps(load: (nat, Request) -> Outcome<Context>, loaded: Context): Deps {
    Deps(load, None, None,
         (t, r, s: State) => Ok(Says(if SameRuntimeContext(s.context, loaded) then "as loaded" else "changed")),
         None, (t, i, r, c, s) => Ok(map[]), (t, r, s) => Ok(CheckResult(true, None, None)))
  }

  ghost predicate Probing(env: Env, loaded: Context) {
    && env.maxIterations >= 1
    && env.deps == ProbeDeps(env.deps.loadContext, loaded)
  }

  lemma ProbeSkills(env: Env, loaded: Context, tick: nat, s: State) returns (s': State)
    requires Probing(env, loaded) && s.status == Running && s.loopCount == 0
    ensures Visit(env, tick, LoadSkills, s) == Ok(Step(s', OkAction))
    ensures s'.status == Running && s'.loopCount == 0 && SameRuntimeContext(s'.context, s.context)
  {
    s' := LoadSkillsPost(s, SkippedSkills(env.request.query, "no_skill_loader"));
  }

  lemma ProbeGuard(env: Env, loaded: Context, tick: nat, s: State) returns (s': State)
    requires Probing(env, loaded) && s.status == Running && s.loopCount == 0
    ensures Visit(env, tick, PreGuard, s) == Ok(Step(s', OkAction))
    ensures s'.status == Running && s'.loopCount == 0 && s'.context == s.context
  {
    s' := PreGuardPost(s, PreGuardExec(env, tick, s.context).value);
  }

  lemma ProbeThink(env: Env, loaded: Context, tick: nat, s: State) returns (s': State)
    requires Probing(env, loaded) && s.status == Running && s.loopCount == 0
    ensures Visit(env, tick, Think, s) == Ok(Step(s', Go(Answer)))
    ensures s'.route == Decided(Answer)
    ensures s'.answer == Some(if SameRuntimeContext(s.context, loaded) then "as loaded" else "changed")
  {
    s' := ThinkPost(s, Says(if SameRuntimeContext(s.context, loaded) then "as loaded" else "changed"));
  }

  lemma ProbeFlow(env: Env, loaded: Context, s: State, n: nat)
    requires Probing(env, loaded) && s.status == Running && s.loopCount == 0 && n >= 4
    requires s.context == loaded
    ensures var run := Flow(env, 1, LoadSkills, s, n); run.end == Ended && run.final.answer == Some("as loaded")
  {
    hide Flow, Visit, Probing;
    var s2 := ProbeSkills(env, loaded, 1, s);
    PocoStep(env, 1, LoadSkills, s, n);
    var s3 := ProbeGuard(env, loaded, 2, s2);
    PocoStep(env, 2, PreGuard, s2, n - 1);
    var s4 := ProbeThink(env, loaded, 3, s3);
    PocoStep(env, 3, Think, s3, n - 2);
    ProbeEnd(env, loaded, s4, n - 3);
  }

  lemma ProbeEnd(env: Env, loaded: Context, s: State, n: nat)
    requires Probing(env, loaded) && n > 0
    ensures Visit(env, 4, SelfCheck, s).Ok?
    ensures var run := Flow(env, 4, SelfCheck, s, n); run.end == Ended && run.final.answer == s.answer
  {
  }

  /** What the adapter shows of the runtime context does not depend on the checkpoint. */
  lemma LiveContextIsTheEngines(runtimeContext: Option<Json>, a: Context, b: Context)
    ensures SameRuntimeContext(LiveContext(runtimeContext, a - {RUNTIME_CONTEXT}), LiveContext(runtimeContext, b - {RUNTIME_CONTEXT}))
  {
  }

  lemma GraphStepFrom(e: Engine, tick: nat, node: Node, p: State, n: nat, s': State, action: Action)
    requires node != AwaitApproval && n > 0
    requires Visit(e.env, tick, node, Rehydrated(e, p)) == Ok(Step(s', action))
    requires GraphSuccessor(node, Persisted(s')).Some?
    ensures Graph(e, tick, node, p, n) ==
            Then(Visited(node, p, Persisted(s')), Graph(e, tick + 1, GraphSuccessor(node, Persisted(s')).value, Persisted(s'), n - 1))
  {
  }

  lemma ProbeGraphEnd(e: Engine, loaded: Context, p: State, n: nat)
    requires Probing(e.env, loaded) && n > 0
    ensures var run := Graph(e, 4, SelfCheck, p, n); run.end == Ended && run.final.answer == p.answer
  {
  }

  lemma ProbeGraph(e: Engine, loaded: Context, s: State, n: nat)
    requires Probing(e.env, loaded) && s.status == Running && s.loopCount == 0 && n >= 4
    requires !SameRuntimeContext(LiveContext(e.runtimeContext, s.context - {RUNTIME_CONTEXT}), loaded)
    ensures var run := Graph(e, 1, LoadSkills, Persisted(s), n); run.end == Ended && run.final.answer == Some("changed")
  {
    hide Graph, Visit, Probing, LiveContext;
    var s2 := ProbeSkills(e.env, loaded, 1, Rehydrated(e, Persisted(s)));
    GraphStepFrom(e, 1, LoadSkills, Persisted(s), n, s2, OkAction);
    var s3 := ProbeGuard(e.env, loaded, 2, Rehydrated(e, Persisted(s2)));
    GraphStepFrom(e, 2, PreGuard, Persisted(s2), n - 1, s3, OkAction);
    LiveContextIsTheEngines(e.runtimeContext, s.context, s3.context);
    var s4 := ProbeThink(e.env, loaded, 3, Rehydrated(e, Persisted(s3)));
    GraphStepFrom(e, 3, Think, Persisted(s3), n - 2, s4, Go(Answer));
    ProbeGraphEnd(e, loaded, Persisted(s4), n - 3);
  }

  /** Whenever the loaded context does not round-trip, some model tells the wirings apart: same
      request, same context loader, but different final answers. */
  lemma EnginesDiffer(e: Engine, loaded: Context, limit: nat) returns (deps: Deps)
    requires e.env.maxIterations >= 1 && limit >= 5
    requires e.env.deps.loadContext(0, e.env.request) == Ok(loaded)
    requires !RoundTrips(e.runtimeContext, loaded)
    ensures deps.loadContext == e.env.deps.loadContext
    ensures var e' := e.(env := e.env.(deps := deps));
            var graph, poco := RunGraph(e', [], 0, limit), RunPlanner(e'.env, [], 0);
            && graph.end == poco.end == Ended
            && graph.final.answer == Some("changed") && poco.final.answer == Some("as loaded")
  {
    hide Flow, Graph, Visit;
    deps := ProbeDeps(e.env.deps.loadContext, loaded);
    var e' := e.(env := e.env.(deps := deps));
    var s := LoadContextPost(Fresh([], 0), loaded);
    FirstVisit(e', [], 0, limit);
    FirstVisit(e', [], 0, MaxSteps(e'.env.maxIterations));
    ProbeFlow(e'.env, loaded, s, MaxSteps(e'.env.maxIterations) - 1);
    NotRoundTrip(e.runtimeContext, loaded);
    ProbeGraph(e', loaded, s, limit - 1);
  }

  lemma NotRoundTrip(runtimeContext: Option<Json>, context: Context)
    requires !RoundTrips(runtimeContext, context)
    ensures !SameRuntimeContext(LiveContext(runtimeContext, context - {RUNTIME_CONTEXT}), context)
  {
  }

  /** A configured run with an empty runtime context: `load_configured_context` stores it, the
      adapter does not put it back. */
  lemma EmptyRuntimeContextIsLost()
    ensures !RoundTrips(Some(Obj(map[])), map[RUNTIME_CONTEXT := Obj(map[])])
  {
  }
}
