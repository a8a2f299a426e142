/** When retried resumes can break the iteration budget: a failed resume is paid for again. */
module RetryBudget {
  import opened Json
  import opened Planner
  import opened PlannerBounds
  import opened LangGraph
  import opened EngineEquivalence
  import opened ApprovalBudget

  /** Oracles that load nothing; only the model and the tools differ below. */
  ghost predicate LoadsNothing(env: Env) {
    env.deps.loadContext(0, env.request) == Ok(map[]) && env.deps.loadSkills.None? && env.deps.preGuard.None?
  }

  ghost predicate AlwaysAsks(env: Env) {
    forall tick: nat, s :: env.deps.think(tick, env.request, s) == Ok(AlwaysTool())
  }

  lemma StepInto(env: Env, tick: nat, node: Node, s: State, cap: nat, s': State, action: Action, next: Node)
    requires node != AwaitApproval && cap > 0
    requires Visit(env, tick, node, s) == Ok(Step(s', action)) && Successor(node, action) == Some(next)
    ensures next != AwaitApproval
    ensures var run, rest := Flow(env, tick, node, s, cap), Flow(env, tick + 1, next, s', cap - 1);
            && run.end == rest.end && run.final == rest.final
            && ModelCalls(run, env.maxIterations) ==
               (if AsksModel(node, s, env.maxIterations) then 1 else 0) + ModelCalls(rest, env.maxIterations)
  {
    hide Visit;
    var v := Visited(node, s, s');
    assert ([v] + Flow(env, tick + 1, next, s', cap - 1).visits)[1..] == Flow(env, tick + 1, next, s', cap - 1).visits;
  }

  /** The three visits before the first think cost nothing. */
  lemma FromStart(env: Env, observations: seq<Json>, loopCount: nat) returns (s: State)
    requires LoadsNothing(env)
    ensures s.status == Running && s.loopCount == loopCount
    ensures var run, rest := RunPlanner(env, observations, loopCount), Flow(env, 3, Think, s, MaxSteps(env.maxIterations) - 3);
            && run.end == rest.end && run.final == rest.final
            && ModelCalls(run, env.maxIterations) == ModelCalls(rest, env.maxIterations)
  {
    hide Flow, ModelCalls, Visit;
    var s0, cap := Fresh(observations, loopCount), MaxSteps(env.maxIterations);
    var s1, s2, s3 := StartVisits(env, s0);
    s := s3;
    StepInto(env, 0, LoadContext, s0, cap, s1, OkAction, LoadSkills);
    StepInto(env, 1, LoadSkills, s1, cap - 1, s2, OkAction, PreGuard);
    StepInto(env, 2, PreGuard, s2, cap - 2, s, OkAction, Think);
  }

  lemma StartVisits(env: Env, s: State) returns (s1: State, s2: State, s3: State)
    requires LoadsNothing(env)
    ensures Visit(env, 0, LoadContext, s) == Ok(Step(s1, OkAction))
    ensures Visit(env, 1, LoadSkills, s1) == Ok(Step(s2, OkAction))
    ensures Visit(env, 2, PreGuard, s2) == Ok(Step(s3, OkAction))
    ensures s3.status == s.status && s3.loopCount == s.loopCount
  {
    hide LoadSkillsExec;
    s1 := LoadContextPost(s, map[]);
    s2 := LoadSkillsPost(s1, LoadSkillsExec(env, 1, s1.context));
    s3 := PreGuardPost(s2, PreGuardExec(env, 2, s2.context).value);
  }

  // ---------- A run that pauses at its first batch ----------

  const WAITING: Context := map["status" := Str("pending_approval")]

  ghost predicate Pauses(env: Env) {
    env.deps.runTools.Some? && forall tick: nat, calls, s :: env.deps.runTools.value(tick, env.request, calls, s) == Ok(WAITING)
  }

  lemma AskedTool(env: Env, tick: nat, s: State) returns (asked: State)
    requires AlwaysAsks(env) && s.status == Running && s.loopCount < env.maxIterations
    ensures Visit(env, tick, Think, s) == Ok(Step(asked, Go(ToolUse)))
    ensures asked.status == Running && asked.loopCount == s.loopCount + 1 && StoredCalls(asked) != []
  {
    asked := ThinkPost(s, AlwaysTool());
    assert StoredCalls(asked) == [ToolCall("tool-call-1", "tool", Null, Null)];
  }

  lemma PausingRun(env: Env)
    requires LoadsNothing(env) && AlwaysAsks(env) && Pauses(env) && env.maxIterations > 0
    ensures var run := RunPlanner(env, [], 0);
            ModelCalls(run, env.maxIterations) == 1 && PausedFlow(run) && SnapshotState(run).loopCount == 1
  {
    hide Flow, SnapshotState, PausedFlow, ModelCalls, Visit, Pauses, AlwaysAsks, LoadsNothing, PendingPost;
    var s := FromStart(env, [], 0);
    var cap := MaxSteps(env.maxIterations) - 3;
    var asked := AskedTool(env, 3, s);
    var paused := PendingPost(asked, WAITING);
    PausedVisit(env, 4, asked, paused);
    StepInto(env, 3, Think, s, cap, asked, Go(ToolUse), ExecuteTool);
    StepInto(env, 4, ExecuteTool, asked, cap - 1, paused, PendingAction, SelfCheck);
    PausedEnd(env, 5, paused, cap - 2);
    PauseCounts(env, 0, LoadContext, Fresh([], 0), MaxSteps(env.maxIterations));
  }

  lemma PausedVisit(env: Env, tick: nat, asked: State, paused: State)
    requires Pauses(env) && StoredCalls(asked) != [] && paused == PendingPost(asked, WAITING)
    ensures Visit(env, tick, ExecuteTool, asked) == Ok(Step(paused, PendingAction))
    ensures paused.status == PendingApproval && paused.loopCount == asked.loopCount
  {
    assert Pending(WAITING);
  }

  lemma PausedEnd(env: Env, tick: nat, s: State, cap: nat)
    requires s.status == PendingApproval && cap > 0
    ensures var run := Flow(env, tick, SelfCheck, s, cap);
            && run.end == Ended && run.final.status == PendingApproval && run.final.loopCount == s.loopCount
            && ModelCalls(run, env.maxIterations) == 0
  {
    NoCallAtTheEnd(s, Flow(env, tick, SelfCheck, s, cap).final, env.maxIterations);
  }

  lemma NoCallAtTheEnd(s: State, final: State, maxIterations: nat)
    ensures CallsInVisits([Visited(SelfCheck, s, final)], maxIterations) == 0
  {
    assert [Visited(SelfCheck, s, final)][1..] == [];
  }

  // ---------- A resume whose first model call raises ----------

  lemma RaisingRun(env: Env, observations: seq<Json>, loopCount: nat)
    requires LoadsNothing(env) && loopCount < env.maxIterations
    requires forall tick: nat, s :: env.deps.think(tick, env.request, s).Raise?
    ensures var run := RunPlanner(env, observations, loopCount);
            run.end.Raised? && ModelCalls(run, env.maxIterations) == 1
  {
    hide RunPlanner;
    var s := FromStart(env, observations, loopCount);
    var run := Flow(env, 3, Think, s, MaxSteps(env.maxIterations) - 3);
    assert Visit(env, 3, Think, s).Raise?;
    assert run == Run([], s, Think, Raised(Visit(env, 3, Think, s).error));
  }

  // ---------- A resume that uses up its iterations ----------

  lemma {:induction false} RestlessCalls(env: Env, tick: nat, s: State, cap: nat)
    requires env.deps == RestlessDeps() && s.status == Running && cap >= ThinkVisits(s.loopCount, env.maxIterations)
    ensures var run := Flow(env, tick, Think, s, cap);
            run.end == Ended && ModelCalls(run, env.maxIterations) == Remaining(s.loopCount, env.maxIterations)
    decreases cap
  {
    hide Flow, ModelCalls, Visit;
    if s.loopCount >= env.maxIterations {
      RestlessLast(env, tick, s, cap);
    } else {
      var asked, ran, action := RestlessRound(env, tick, s);
      StepInto(env, tick, Think, s, cap, asked, Go(ToolUse), ExecuteTool);
      StepInto(env, tick + 1, ExecuteTool, asked, cap - 1, ran, action, Think);
      RestlessCalls(env, tick + 2, ran, cap - 2);
    }
  }

  lemma RestlessLast(env: Env, tick: nat, s: State, cap: nat)
    requires env.deps == RestlessDeps() && s.status == Running && cap >= 2 && s.loopCount >= env.maxIterations
    ensures var run := Flow(env, tick, Think, s, cap);
            run.end == Ended && ModelCalls(run, env.maxIterations) == 0
  {
    hide Flow, ModelCalls;
    var done := ThinkPost(s, Exhausted());
    StepInto(env, tick, Think, s, cap, done, Go(Handoff), SelfCheck);
    LastCheck(env, tick + 1, done, cap - 1);
  }

  lemma LastCheck(env: Env, tick: nat, s: State, cap: nat)
    requires env.deps == RestlessDeps() && s.status == Running && cap > 0
    ensures var run := Flow(env, tick, SelfCheck, s, cap);
            run.end == Ended && ModelCalls(run, env.maxIterations) == 0
  {
    assert Visit(env, tick, SelfCheck, s).Ok?;
    NoCallAtTheEnd(s, Flow(env, tick, SelfCheck, s, cap).final, env.maxIterations);
  }

  lemma RestlessRun(env: Env, observations: seq<Json>, loopCount: nat)
    requires env.deps == RestlessDeps()
    ensures var run := RunPlanner(env, observations, loopCount);
            run.end == Ended && ModelCalls(run, env.maxIterations) == Remaining(loopCount, env.maxIterations)
  {
    hide Flow, ModelCalls;
    var s := FromStart(env, observations, loopCount);
    RestlessCalls(env, 3, s, MaxSteps(env.maxIterations) - 3);
  }

  // ---------- Exactly when the budget holds ----------

  ghost predicate SameLimit(first: Env, attempts: seq<Attempt>, maxIterations: nat) {
    first.maxIterations == maxIterations && forall a | a in attempts :: a.env.maxIterations == maxIterations
  }

  /** One failed resume is enough: the turn makes `max_iterations + 1` model calls. */
  lemma OneRetryExceeds(request: Request, maxIterations: nat) returns (first: Env, attempts: seq<Attempt>)
    requires maxIterations >= 2
    ensures SameLimit(first, attempts, maxIterations)
    ensures FlowTurn(first, attempts).failed == 1 && FlowTurn(first, attempts).calls == maxIterations + 1
  {
    hide RunPlanner, ModelCalls, PausedFlow, SnapshotState;
    var restless := RestlessDeps();
    first := Env(request, restless.(runTools := Some((t: nat, r: Request, calls: seq<ToolCall>, s: State) => Ok(WAITING))), maxIterations);
    var failing := Env(request, restless.(think := (t: nat, r: Request, s: State) => Raise("model down")), maxIterations);
    var again := Env(request, restless, maxIterations);
    attempts := [Attempt(failing, []), Attempt(again, [])];
    PausingRun(first);
    var q := SnapshotState(RunPlanner(first, [], 0));
    RaisingRun(failing, q.toolObservations + [], 1);
    RestlessRun(again, q.toolObservations + [], 1);
    assert attempts[1..] == [Attempt(again, [])] && attempts[1..][1..] == [];
    assert FlowResumes([], q.toolObservations, 1) == NOTHING;
    assert FlowResumes(attempts[1..], q.toolObservations, 1).calls == maxIterations - 1;
  }

  /** The iteration budget of a PocoFlow turn with up to `retries` failed resumes holds, for every
      request and all oracles, if and only if no resume may fail or at most one iteration is allowed. */
  lemma RetryBudgetExactly(maxIterations: nat, retries: nat)
    ensures (forall first: Env, attempts: seq<Attempt> |
               SameLimit(first, attempts, maxIterations) && FlowTurn(first, attempts).failed <= retries ::
               FlowTurn(first, attempts).calls <= maxIterations)
            <==> retries == 0 || maxIterations <= 1
  {
    hide FlowTurn;
    if retries == 0 || maxIterations <= 1 {
      forall first: Env, attempts: seq<Attempt> | SameLimit(first, attempts, maxIterations) && FlowTurn(first, attempts).failed <= retries
        ensures FlowTurn(first, attempts).calls <= maxIterations
      {
        FlowTurnBudget(first, attempts);
      }
    } else {
      var first, attempts := OneRetryExceeds(Request("", Null, "", ""), maxIterations);
    }
  }

  // ---------- LangGraph ----------

  lemma {:induction false} SameCallsInVisits(graph: seq<Visited>, poco: seq<Visited>, maxIterations: nat)
    requires SameVisits(graph, poco)
    ensures CallsInVisits(graph, maxIterations) == CallsInVisits(poco, maxIterations)
    decreases |graph|
  {
    if graph != [] {
      assert SameVisit(graph[0], poco[0]);
      assert forall i | 0 <= i < |graph[1..]| :: graph[1..][i] == graph[i + 1] && poco[1..][i] == poco[i + 1];
      assert forall i | 1 <= i < |graph| :: SameVisit(graph[i], poco[i]);
      SameCallsInVisits(graph[1..], poco[1..], maxIterations);
    }
  }

  lemma {:induction false} CallsInLast(visits: seq<Visited>, maxIterations: nat)
    requires visits != [] && visits[|visits| - 1].node == SelfCheck
    ensures CallsInVisits(visits[..|visits| - 1], maxIterations) == CallsInVisits(visits, maxIterations)
    decreases |visits|
  {
    var n := |visits| - 1;
    if n > 0 {
      assert visits[1..][..n - 1] == visits[..n][1..];
      CallsInLast(visits[1..], maxIterations);
    } else {
      assert visits[1..] == [];
    }
  }

  /** Corresponding runs call the model equally often. */
  lemma SameModelCalls(graph: Run, poco: Run, maxIterations: nat)
    requires Corresponds(graph, poco)
    ensures ModelCalls(graph, maxIterations) == ModelCalls(poco, maxIterations)
  {
    hide CallsInVisits, SameVisits;
    if graph.end == Interrupted {
      SameCallsInVisits(graph.visits, poco.visits[..|poco.visits| - 1], maxIterations);
      CallsInLast(poco.visits, maxIterations);
    } else {
      SameCallsInVisits(graph.visits, poco.visits, maxIterations);
    }
  }

  /** A graph run ends only where it does not wait for an approval. */
  lemma {:induction false} GraphEndsSettled(e: Engine, tick: nat, node: Node, p: State, limit: nat)
    requires node != AwaitApproval && p.status == Running && Graph(e, tick, node, p, limit).end == Ended
    ensures Graph(e, tick, node, p, limit).final.status != PendingApproval
    decreases limit
  {
    hide Visit, Rehydrated, Graph;
    GraphUnfolds(e, tick, node, p, limit);
    RehydratedStatus(e, p);
    VisitStatus(e.env, tick, node, Rehydrated(e, p));
    var p' := AdaptedVisit(e, tick, node, p).value;
    var next := GraphSuccessor(node, p');
    if next.Some? { GraphEndsSettled(e, tick + 1, next.value, p', limit - 1); }
  }

  lemma RehydratedStatus(e: Engine, p: State)
    ensures Rehydrated(e, p).status == p.status
  {
  }

  lemma GraphUnfolds(e: Engine, tick: nat, node: Node, p: State, limit: nat)
    requires node != AwaitApproval && Graph(e, tick, node, p, limit).end == Ended
    ensures limit > 0 && AdaptedVisit(e, tick, node, p).Ok?
    ensures var p' := AdaptedVisit(e, tick, node, p).value;
            var next := GraphSuccessor(node, p');
            var run := Graph(e, tick, node, p, limit);
            if next.None? then run.final == p' && node == SelfCheck
            else next.value != AwaitApproval && Graph(e, tick + 1, next.value, p', limit - 1).end == Ended
                 && run.final == Graph(e, tick + 1, next.value, p', limit - 1).final
  {
    hide AdaptedVisit;
  }

  /** The pausing run on the graph: it stops at the approval with one iteration used. */
  lemma PausingGraphRun(env: Env, limit: nat)
    requires LoadsNothing(env) && AlwaysAsks(env) && Pauses(env) && env.maxIterations > 0 && limit >= 2 * env.maxIterations + 5
    ensures var run := RunGraph(Engine(env, None), [], 0, limit);
            && run.end == Interrupted && run.final.loopCount == 1 && RUNTIME_CONTEXT !in run.final.context
            && ModelCalls(run, env.maxIterations) == 1
  {
    hide Flow, Graph, Pauses, AlwaysAsks, ModelCalls, SnapshotState, SameVisits;
    var e := Engine(env, None);
    var graph, poco := RunGraph(e, [], 0, limit), RunPlanner(env, [], 0);
    assert RoundTrips(None, map[]);
    EnginesAgree(e, [], 0, limit);
    SameModelCalls(graph, poco, env.maxIterations);
    PausingRun(env);
    PausedEnds(env);
    if graph.end == Ended { GraphEndsSettled(e, 0, LoadContext, Persisted(Fresh([], 0)), limit); }
  }

  lemma PausedEnds(env: Env)
    requires PausedFlow(RunPlanner(env, [], 0)) && SnapshotState(RunPlanner(env, [], 0)).loopCount == 1
    ensures var run := RunPlanner(env, [], 0);
            run.end == Ended && run.final.status == PendingApproval && run.final.loopCount == 1
  {
    hide Flow, SnapshotState;
    PauseCounts(env, 0, LoadContext, Fresh([], 0), MaxSteps(env.maxIterations));
  }

  const APPROVED := Obj(map["decision" := Str("approved")])

  /** Behind an approval the graph goes on to think. */
  lemma ApprovedGoesOn(paused: State)
    ensures var q := Resumed(paused, APPROVED);
            q.status == Running && q.loopCount == paused.loopCount && q.context == paused.context && RouteAfterApproval(q) == Think
  {
    assert Get(APPROVED, "decision") == Str("approved");
  }

  lemma RaisingGraphResume(env: Env, paused: State, limit: nat)
    requires limit > 0 && paused.loopCount < env.maxIterations
    requires forall tick: nat, s :: env.deps.think(tick, env.request, s).Raise?
    ensures var run := ResumeGraph(Engine(env, None), 0, paused, APPROVED, limit);
            run.end.Raised? && ModelCalls(run, env.maxIterations) == 1
  {
    ApprovedGoesOn(paused);
    hide Resumed;
    var e, q := Engine(env, None), Resumed(paused, APPROVED);
    assert Visit(env, 0, Think, Rehydrated(e, q)).Raise?;
    var error := Visit(env, 0, Think, Rehydrated(e, q)).error;
    assert ResumeGraph(e, 0, paused, APPROVED, limit) == Run([], q, Think, Raised(error));
  }

  lemma RestlessGraphResume(env: Env, paused: State, limit: nat)
    requires env.deps == RestlessDeps() && RUNTIME_CONTEXT !in paused.context
    requires limit >= 2 * env.maxIterations + 5
    ensures var run := ResumeGraph(Engine(env, None), 0, paused, APPROVED, limit);
            Failure(run.end).None? && ModelCalls(run, env.maxIterations) == Remaining(paused.loopCount, env.maxIterations)
  {
    hide Flow, Graph, ModelCalls, SameVisits;
    ApprovedGoesOn(paused);
    hide Resumed;
    var e, q := Engine(env, None), Resumed(paused, APPROVED);
    assert q.context - {RUNTIME_CONTEXT} == q.context;
    assert Persisted(q) == q;
    Bisimulation(e, 0, Think, q, limit);
    RestlessCalls(env, 0, q, limit);
    SameModelCalls(Graph(e, 0, Think, q, limit), Flow(env, 0, Think, q, limit), env.maxIterations);
  }

  ghost predicate SameGraphLimit(first: Engine, attempts: seq<GraphAttempt>, maxIterations: nat) {
    first.env.maxIterations == maxIterations && forall a | a in attempts :: a.engine.env.maxIterations == maxIterations
  }

  /** One failed resume is enough on the graph too. */
  lemma GraphRetryExceeds(request: Request, maxIterations: nat, limit: nat) returns (first: Engine, attempts: seq<GraphAttempt>)
    requires maxIterations >= 2 && limit >= 2 * maxIterations + 5
    ensures SameGraphLimit(first, attempts, maxIterations)
    ensures GraphTurn(first, attempts, limit).failed == 1 && GraphTurn(first, attempts, limit).calls == maxIterations + 1
  {
    hide RunGraph, ResumeGraph, ModelCalls;
    var restless := RestlessDeps();
    var pausing := Env(request, restless.(runTools := Some((t: nat, r: Request, calls: seq<ToolCall>, s: State) => Ok(WAITING))), maxIterations);
    var failing := Env(request, restless.(think := (t: nat, r: Request, s: State) => Raise("model down")), maxIterations);
    var again := Env(request, restless, maxIterations);
    first := Engine(pausing, None);
    attempts := [GraphAttempt(Engine(failing, None), APPROVED, 0), GraphAttempt(Engine(again, None), APPROVED, 0)];
    PausingGraphRun(pausing, limit);
    var paused := RunGraph(first, [], 0, limit).final;
    RaisingGraphResume(failing, paused, limit);
    RestlessGraphResume(again, paused, limit);
    var point := AtInterrupt(paused);
    assert attempts[1..] == [attempts[1]] && attempts[1..][1..] == [];
    LastAttempt(attempts[1], point, limit);
    assert GraphResumes(attempts[1..], point, limit).calls == maxIterations - 1;
  }

  lemma LastAttempt(a: GraphAttempt, point: Point, limit: nat)
    requires Failure(RunFrom(a, point, limit).end).None?
    ensures GraphResumes([a], point, limit) == Spent(ModelCalls(RunFrom(a, point, limit), a.engine.env.maxIterations), 0, 0)
  {
    hide RunFrom, ModelCalls;
    assert [a][1..] == [];
    var run := RunFrom(a, point, limit);
    assert GraphResumes([], AtInterrupt(run.final), limit) == NOTHING;
  }

  /** The iteration budget of a LangGraph turn with up to `retries` failed resumes, under any recursion
      limit a run may need, holds for every request and all oracles if and only if no resume may fail
      or at most one iteration is allowed. */
  lemma GraphRetryBudgetExactly(maxIterations: nat, retries: nat, limit: nat)
    requires limit >= 2 * maxIterations + 5
    ensures (forall first: Engine, attempts: seq<GraphAttempt> |
               SameGraphLimit(first, attempts, maxIterations) && GraphTurn(first, attempts, limit).failed <= retries ::
               GraphTurn(first, attempts, limit).calls <= maxIterations)
            <==> retries == 0 || maxIterations <= 1
  {
    hide GraphTurn;
    if retries == 0 || maxIterations <= 1 {
      forall first: Engine, attempts: seq<GraphAttempt>
        | SameGraphLimit(first, attempts, maxIterations) && GraphTurn(first, attempts, limit).failed <= retries
        ensures GraphTurn(first, attempts, limit).calls <= maxIterations
      {
        GraphTurnBudget(first, attempts, limit);
      }
    } else {
      var first, attempts := GraphRetryExceeds(Request("", Null, "", ""), maxIterations, limit);
    }
  }
}
