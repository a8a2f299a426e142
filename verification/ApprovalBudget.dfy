/** The iteration budget of a whole turn: the first run and every approval resume together call
    the model at most `max_iterations` times, on either engine. */
module ApprovalBudget {
  import opened Json
  import opened Planner
  import opened PlannerBounds
  import opened LangGraph

  function Remaining(loopCount: nat, maxIterations: nat): nat {
    if loopCount >= maxIterations then 0 else maxIterations - loopCount
  }

  predicate AsksModel(node: Node, before: State, maxIterations: nat) {
    node == Think && before.loopCount < maxIterations
  }

  function CallsInVisits(visits: seq<Visited>, maxIterations: nat): nat {
    if visits == [] then 0
    else (if AsksModel(visits[0].node, visits[0].before, maxIterations) then 1 else 0) + CallsInVisits(visits[1..], maxIterations)
  }

  /** Model calls of a run, with the call that raised, if one did. */
  function ModelCalls(run: Run, maxIterations: nat): nat {
    CallsInVisits(run.visits, maxIterations) +
    if run.end.Raised? && AsksModel(run.at, run.final, maxIterations) then 1 else 0
  }

  /** Each visit adds one to the loop count exactly when it is a `think`. */
  lemma VisitCounts(env: Env, tick: nat, node: Node, s: State)
    requires node != AwaitApproval && Visit(env, tick, node, s).Ok?
    ensures Visit(env, tick, node, s).value.state.loopCount == s.loopCount + if node == Think then 1 else 0
  {
    if node == ExecuteTool { BatchKeepsLoop(s, ExecuteToolExec(env, tick, s).value); }
  }

  lemma AdaptedVisitCounts(e: Engine, tick: nat, node: Node, p: State)
    requires node != AwaitApproval && AdaptedVisit(e, tick, node, p).Ok?
    ensures AdaptedVisit(e, tick, node, p).value.loopCount == p.loopCount + if node == Think then 1 else 0
  {
    hide Visit;
    VisitCounts(e.env, tick, node, Rehydrated(e, p));
  }

  /** What a run spends from loop count `from` on: no more than remained, and all of it counted. */
  ghost predicate Spends(run: Run, from: nat, maxIterations: nat) {
    && ModelCalls(run, maxIterations) <= Remaining(from, maxIterations)
    && (!run.end.Raised? ==> from + ModelCalls(run, maxIterations) <= run.final.loopCount)
  }

  lemma {:induction false} FlowSpends(env: Env, tick: nat, node: Node, s: State, cap: nat)
    requires node != AwaitApproval
    ensures Spends(Flow(env, tick, node, s, cap), s.loopCount, env.maxIterations)
    decreases cap
  {
    hide Visit, Successor;
    if cap > 0 && Visit(env, tick, node, s).Ok? {
      SuccessorIsNode(node, Visit(env, tick, node, s).value.action);
      var step := Visit(env, tick, node, s).value;
      VisitCounts(env, tick, node, s);
      var v := Visited(node, s, step.state);
      var next := Successor(node, step.action);
      var rest := if next.None? then Run([], step.state, node, Ended) else Flow(env, tick + 1, next.value, step.state, cap - 1);
      if next.Some? { FlowSpends(env, tick + 1, next.value, step.state, cap - 1); }
      assert Flow(env, tick, node, s, cap) == Then(v, rest);
    }
  }

  lemma {:induction false} GraphSpends(e: Engine, tick: nat, node: Node, p: State, limit: nat)
    ensures Spends(Graph(e, tick, node, p, limit), p.loopCount, e.env.maxIterations)
    decreases limit
  {
    hide AdaptedVisit, GraphSuccessor;
    if limit > 0 && node != AwaitApproval && AdaptedVisit(e, tick, node, p).Ok? {
      var p' := AdaptedVisit(e, tick, node, p).value;
      AdaptedVisitCounts(e, tick, node, p);
      var v := Visited(node, p, p');
      var next := GraphSuccessor(node, p');
      var rest := if next.None? then Run([], p', node, Ended) else Graph(e, tick + 1, next.value, p', limit - 1);
      if next.Some? { GraphSpends(e, tick + 1, next.value, p', limit - 1); }
      assert Graph(e, tick, node, p, limit) == Then(v, rest);
    }
  }

  // ---------- Turns ----------

  predicate PausedFlow(run: Run) {
    run.end == Ended && run.final.status == PendingApproval && |run.visits| >= 2
  }

  /** The state the approval snapshot was taken from: before the batch that asked for approval. */
  function SnapshotState(run: Run): State
    requires PausedFlow(run)
  {
    run.visits[|run.visits| - 2].before
  }

  /** Model calls of resumes: all of them, those of attempts that failed, and how many attempts did. */
  datatype Spent = Spent(calls: nat, wasted: nat, failed: nat)

  const NOTHING := Spent(0, 0, 0)

  function AndThen(calls: nat, failed: bool, rest: Spent): Spent {
    Spent(calls + rest.calls, rest.wasted + (if failed then calls else 0), rest.failed + (if failed then 1 else 0))
  }

  /** One attempt to resume: the environment it meets and what the approval, with the tool's results
      this time, adds to the observations. */
  datatype Attempt = Attempt(env: Env, added: seq<Json>)

  /** PocoFlow resumes from a snapshot. An attempt that failed may be approved again, and starts from
      the same snapshot; one that pauses leaves a new snapshot; any other ends the turn. */
  function FlowResumes(attempts: seq<Attempt>, observations: seq<Json>, loopCount: nat): Spent
    decreases |attempts|
  {
    if attempts == [] then NOTHING
    else
      var run := RunPlanner(attempts[0].env, observations + attempts[0].added, loopCount);
      AndThen(ModelCalls(run, attempts[0].env.maxIterations), Failure(run.end).Some?,
              if Failure(run.end).Some? then FlowResumes(attempts[1..], observations, loopCount)
              else if PausedFlow(run) then FlowResumes(attempts[1..], SnapshotState(run).toolObservations, SnapshotState(run).loopCount)
              else NOTHING)
  }

  /** A whole PocoFlow turn: the first run and every resume of its approvals. */
  function FlowTurn(first: Env, attempts: seq<Attempt>): Spent {
    var run := RunPlanner(first, [], 0);
    AndThen(ModelCalls(run, first.maxIterations), false,
            if PausedFlow(run) then FlowResumes(attempts, SnapshotState(run).toolObservations, SnapshotState(run).loopCount) else NOTHING)
  }

  /** Where a LangGraph resume starts: at the answered interrupt, or at the node an earlier attempt
      that failed had reached in the checkpoints. */
  datatype Point = AtInterrupt(paused: State) | AtNode(node: Node, state: State)

  /** One attempt to resume a graph: its engine, the answer to the interrupt, and how many visits its
      checkpoints keep should it fail. */
  datatype GraphAttempt = GraphAttempt(engine: Engine, payload: Json, kept: nat)

  function StateAt(point: Point): State {
    if point.AtInterrupt? then point.paused else point.state
  }

  function RunFrom(a: GraphAttempt, point: Point, limit: nat): Run {
    match point
    case AtInterrupt(paused) => ResumeGraph(a.engine, 0, paused, a.payload, limit)
    case AtNode(node, p) => Graph(a.engine, 0, node, p, limit)
  }

  function Reached(run: Run, point: Point, kept: nat): Point {
    if kept == 0 || kept > |run.visits| then point
    else
      var v := run.visits[kept - 1];
      var next := GraphSuccessor(v.node, v.after);
      if next.None? then point else AtNode(next.value, v.after)
  }

  function GraphResumes(attempts: seq<GraphAttempt>, point: Point, limit: nat): Spent
    decreases |attempts|
  {
    if attempts == [] then NOTHING
    else
      var run := RunFrom(attempts[0], point, limit);
      AndThen(ModelCalls(run, attempts[0].engine.env.maxIterations), Failure(run.end).Some?,
              if Failure(run.end).Some? then GraphResumes(attempts[1..], Reached(run, point, attempts[0].kept), limit)
              else if run.end == Interrupted then GraphResumes(attempts[1..], AtInterrupt(run.final), limit)
              else NOTHING)
  }

  function GraphTurn(first: Engine, attempts: seq<GraphAttempt>, limit: nat): Spent {
    var run := RunGraph(first, [], 0, limit);
    AndThen(ModelCalls(run, first.env.maxIterations), false,
            if run.end == Interrupted then GraphResumes(attempts, AtInterrupt(run.final), limit) else NOTHING)
  }

  /** A live run turns pending only in `execute_tool`; everything else leaves it running or ends it. */
  lemma VisitStatus(env: Env, tick: nat, node: Node, s: State)
    requires node != AwaitApproval && s.status == Running && Visit(env, tick, node, s).Ok?
    ensures var step := Visit(env, tick, node, s).value;
            if node == SelfCheck then step.state.status == Completed || step.state.status == Failed
            else step.state.status == Running || (step.state.status == PendingApproval && node == ExecuteTool && step.action == PendingAction)
  {
    if node == ExecuteTool { BatchKeepsLoop(s, ExecuteToolExec(env, tick, s).value); }
  }

  lemma PendingSelfCheck(env: Env, tick: nat, s: State, cap: nat)
    requires s.status == PendingApproval && cap > 0
    ensures var run := Flow(env, tick, SelfCheck, s, cap);
            |run.visits| == 1 && run.visits[0].before == s && run.final.loopCount == s.loopCount
  {
  }

  lemma FlowUnfolds(env: Env, tick: nat, node: Node, s: State, cap: nat)
    requires node != AwaitApproval && Flow(env, tick, node, s, cap).end == Ended
    ensures cap > 0 && Visit(env, tick, node, s).Ok?
    ensures var step := Visit(env, tick, node, s).value;
            var v := Visited(node, s, step.state);
            match Successor(node, step.action)
            case None => Flow(env, tick, node, s, cap) == Run([v], step.state, node, Ended) && node == SelfCheck
            case Some(next) =>
              && next != AwaitApproval && node != SelfCheck
              && Flow(env, tick, node, s, cap) == Then(v, Flow(env, tick + 1, next, step.state, cap - 1))
  {
  }

  /** At a pause nothing is refunded: the snapshot's loop count is the one the run had reached, and a
      run that paused has asked the model at least once. */
  lemma {:induction false} PauseCounts(env: Env, tick: nat, node: Node, s: State, cap: nat)
    requires node != AwaitApproval && s.status == Running
    requires var run := Flow(env, tick, node, s, cap); run.end == Ended && run.final.status == PendingApproval
    ensures var run := Flow(env, tick, node, s, cap);
            PausedFlow(run) && SnapshotState(run).loopCount == run.final.loopCount >= s.loopCount + if node == ExecuteTool then 0 else 1
    decreases cap
  {
    hide Flow, Visit, Successor;
    FlowUnfolds(env, tick, node, s, cap);
    VisitStatus(env, tick, node, s);
    VisitCounts(env, tick, node, s);
    var step := Visit(env, tick, node, s).value;
    var next := Successor(node, step.action).value;
    OnlyThinkLeadsToTools(node, step.action);
    if step.state.status == PendingApproval {
      PendingNext();
      FlowUnfolds(env, tick + 1, next, step.state, cap - 1);
      PendingSelfCheck(env, tick + 1, step.state, cap - 1);
    } else {
      PauseCounts(env, tick + 1, next, step.state, cap - 1);
    }
  }

  lemma OnlyThinkLeadsToTools(node: Node, action: Action)
    ensures Successor(node, action) == Some(ExecuteTool) ==> node == Think
  {
  }

  lemma PendingNext()
    ensures Successor(ExecuteTool, PendingAction) == Some(SelfCheck)
  {
  }

  // ---------- Budgets ----------

  /** Apart from the calls of attempts that failed, no more than remained is spent; and each of those
      attempts made no more calls than remained either. */
  ghost predicate WithinBudget(spent: Spent, remaining: nat) {
    spent.calls <= remaining + spent.wasted && spent.wasted <= spent.failed * remaining
  }

  lemma FailedWithin(calls: nat, rest: Spent, remaining: nat)
    requires calls <= remaining && WithinBudget(rest, remaining)
    ensures WithinBudget(AndThen(calls, true, rest), remaining)
  {
  }

  lemma PausedWithin(calls: nat, rest: Spent, remaining: nat, left: nat)
    requires calls + left <= remaining && WithinBudget(rest, left)
    ensures WithinBudget(AndThen(calls, false, rest), remaining)
  {
    assert rest.failed * left <= rest.failed * remaining;
  }

  /** Resumes of a PocoFlow turn, retries included. */
  lemma {:induction false} FlowResumeBudget(attempts: seq<Attempt>, observations: seq<Json>, loopCount: nat, maxIterations: nat)
    requires forall a | a in attempts :: a.env.maxIterations == maxIterations
    ensures WithinBudget(FlowResumes(attempts, observations, loopCount), Remaining(loopCount, maxIterations))
    decreases |attempts|
  {
    hide Flow, SnapshotState, ModelCalls, WithinBudget, AndThen;
    NothingWithin(0, Remaining(loopCount, maxIterations));
    if attempts != [] {
      var env := attempts[0].env;
      var s := Fresh(observations + attempts[0].added, loopCount);
      var run := RunPlanner(env, observations + attempts[0].added, loopCount);
      var calls := ModelCalls(run, maxIterations);
      FlowSpends(env, 0, LoadContext, s, MaxSteps(env.maxIterations));
      NothingWithin(calls, Remaining(loopCount, maxIterations));
      if Failure(run.end).Some? {
        FlowResumeBudget(attempts[1..], observations, loopCount, maxIterations);
        FailedWithin(calls, FlowResumes(attempts[1..], observations, loopCount), Remaining(loopCount, maxIterations));
      } else if PausedFlow(run) {
        PauseCounts(env, 0, LoadContext, s, MaxSteps(env.maxIterations));
        var q := SnapshotState(run);
        FlowResumeBudget(attempts[1..], q.toolObservations, q.loopCount, maxIterations);
        PausedWithin(calls, FlowResumes(attempts[1..], q.toolObservations, q.loopCount),
                     Remaining(loopCount, maxIterations), Remaining(q.loopCount, maxIterations));
      }
    }
  }

  lemma NothingWithin(calls: nat, remaining: nat)
    requires calls <= remaining
    ensures WithinBudget(NOTHING, remaining) && WithinBudget(AndThen(calls, false, NOTHING), remaining)
  {
  }

  /** The budget of a PocoFlow turn: `max_iterations` calls, plus those of resumes that failed; each of
      these made at most `max_iterations - 1`. */
  lemma FlowTurnBudget(first: Env, attempts: seq<Attempt>)
    requires forall a | a in attempts :: a.env.maxIterations == first.maxIterations
    ensures var spent, max := FlowTurn(first, attempts), first.maxIterations;
            && spent.calls <= max + spent.wasted
            && spent.wasted <= spent.failed * if max == 0 then 0 else max - 1
  {
    hide Flow, SnapshotState, ModelCalls;
    var max := first.maxIterations;
    var run := RunPlanner(first, [], 0);
    FlowSpends(first, 0, LoadContext, Fresh([], 0), MaxSteps(max));
    if PausedFlow(run) {
      PauseCounts(first, 0, LoadContext, Fresh([], 0), MaxSteps(max));
      var q := SnapshotState(run);
      FlowResumeBudget(attempts, q.toolObservations, q.loopCount, max);
      var rest := FlowResumes(attempts, q.toolObservations, q.loopCount);
      Monotone(rest.failed, Remaining(q.loopCount, max), if max == 0 then 0 else max - 1);
    }
  }

  lemma Monotone(n: nat, a: nat, b: nat)
    requires a <= b
    ensures n * a <= n * b
  {
  }

  // ---------- LangGraph ----------

  lemma {:induction false} GraphGrows(e: Engine, tick: nat, node: Node, p: State, limit: nat)
    ensures forall v | v in Graph(e, tick, node, p, limit).visits :: v.after.loopCount >= p.loopCount
    decreases limit
  {
    hide AdaptedVisit, GraphSuccessor;
    if limit > 0 && node != AwaitApproval && AdaptedVisit(e, tick, node, p).Ok? {
      var p' := AdaptedVisit(e, tick, node, p).value;
      AdaptedVisitCounts(e, tick, node, p);
      var next := GraphSuccessor(node, p');
      if next.Some? { GraphGrows(e, tick + 1, next.value, p', limit - 1); }
    }
  }

  lemma RunFromSpends(a: GraphAttempt, point: Point, limit: nat)
    ensures Spends(RunFrom(a, point, limit), StateAt(point).loopCount, a.engine.env.maxIterations)
    ensures StateAt(Reached(RunFrom(a, point, limit), point, a.kept)).loopCount >= StateAt(point).loopCount
  {
    hide Graph, Spends, GraphSuccessor;
    match point
    case AtInterrupt(paused) =>
      var q := Resumed(paused, a.payload);
      GraphSpends(a.engine, 0, RouteAfterApproval(q), q, limit);
      GraphGrows(a.engine, 0, RouteAfterApproval(q), q, limit);
    case AtNode(node, p) =>
      GraphSpends(a.engine, 0, node, p, limit);
      GraphGrows(a.engine, 0, node, p, limit);
  }

  lemma LessRemaining(spent: Spent, left: nat, remaining: nat)
    requires left <= remaining && WithinBudget(spent, left)
    ensures WithinBudget(spent, remaining)
  {
    Monotone(spent.failed, left, remaining);
  }

  /** Resumes of a LangGraph turn, retries from any checkpoint included. */
  lemma {:induction false} GraphResumeBudget(attempts: seq<GraphAttempt>, point: Point, limit: nat, maxIterations: nat)
    requires forall a | a in attempts :: a.engine.env.maxIterations == maxIterations
    ensures WithinBudget(GraphResumes(attempts, point, limit), Remaining(StateAt(point).loopCount, maxIterations))
    decreases |attempts|
  {
    hide RunFrom, Reached, ModelCalls, WithinBudget, AndThen;
    var remaining := Remaining(StateAt(point).loopCount, maxIterations);
    NothingWithin(0, remaining);
    if attempts != [] {
      var run := RunFrom(attempts[0], point, limit);
      var calls := ModelCalls(run, maxIterations);
      RunFromSpends(attempts[0], point, limit);
      NothingWithin(calls, remaining);
      if Failure(run.end).Some? {
        var next := Reached(run, point, attempts[0].kept);
        GraphResumeBudget(attempts[1..], next, limit, maxIterations);
        LessRemaining(GraphResumes(attempts[1..], next, limit), Remaining(StateAt(next).loopCount, maxIterations), remaining);
        FailedWithin(calls, GraphResumes(attempts[1..], next, limit), remaining);
      } else if run.end == Interrupted {
        GraphResumeBudget(attempts[1..], AtInterrupt(run.final), limit, maxIterations);
        PausedWithin(calls, GraphResumes(attempts[1..], AtInterrupt(run.final), limit), remaining,
                     Remaining(run.final.loopCount, maxIterations));
      }
    }
  }

  /** A graph run that stopped at an approval has asked the model at least once. */
  lemma {:induction false} GraphPauseCounts(e: Engine, tick: nat, node: Node, p: State, limit: nat)
    requires node != AwaitApproval && Graph(e, tick, node, p, limit).end == Interrupted
    ensures Graph(e, tick, node, p, limit).final.loopCount >= p.loopCount + if node == ExecuteTool then 0 else 1
    decreases limit
  {
    hide AdaptedVisit;
    if limit > 0 && AdaptedVisit(e, tick, node, p).Ok? {
      var p' := AdaptedVisit(e, tick, node, p).value;
      AdaptedVisitCounts(e, tick, node, p);
      var next := GraphSuccessor(node, p');
      if next.Some? && next.value != AwaitApproval { GraphPauseCounts(e, tick + 1, next.value, p', limit - 1); }
    }
  }

  /** The budget of a LangGraph turn: the same, wherever a retried resume picks up. */
  lemma GraphTurnBudget(first: Engine, attempts: seq<GraphAttempt>, limit: nat)
    requires forall a | a in attempts :: a.engine.env.maxIterations == first.env.maxIterations
    ensures var spent, max := GraphTurn(first, attempts, limit), first.env.maxIterations;
            && spent.calls <= max + spent.wasted
            && spent.wasted <= spent.failed * if max == 0 then 0 else max - 1
  {
    hide Graph, ModelCalls, GraphResumes;
    var max := first.env.maxIterations;
    var run := RunGraph(first, [], 0, limit);
    GraphSpends(first, 0, LoadContext, Persisted(Fresh([], 0)), limit);
    if run.end == Interrupted {
      GraphPauseCounts(first, 0, LoadContext, Persisted(Fresh([], 0)), limit);
      GraphResumeBudget(attempts, AtInterrupt(run.final), limit, max);
      var rest := GraphResumes(attempts, AtInterrupt(run.final), limit);
      Monotone(rest.failed, Remaining(run.final.loopCount, max), if max == 0 then 0 else max - 1);
    }
  }

  /** Over a whole turn in which no resume failed the model is called at most `max_iterations` times,
      whatever was approved or rejected in between and whichever oracles answered each segment. */
  lemma TurnBudget(flow: Env, attempts: seq<Attempt>, graph: Engine, resumes: seq<GraphAttempt>, limit: nat, maxIterations: nat)
    requires flow.maxIterations == maxIterations && forall a | a in attempts :: a.env.maxIterations == maxIterations
    requires graph.env.maxIterations == maxIterations && forall a | a in resumes :: a.engine.env.maxIterations == maxIterations
    ensures FlowTurn(flow, attempts).calls <= maxIterations + FlowTurn(flow, attempts).wasted
    ensures FlowTurn(flow, attempts).failed == 0 ==> FlowTurn(flow, attempts).calls <= maxIterations
    ensures GraphTurn(graph, resumes, limit).calls <= maxIterations + GraphTurn(graph, resumes, limit).wasted
    ensures GraphTurn(graph, resumes, limit).failed == 0 ==> GraphTurn(graph, resumes, limit).calls <= maxIterations
  {
    hide FlowTurn, GraphTurn;
    FlowTurnBudget(flow, attempts);
    GraphTurnBudget(graph, resumes, limit);
  }
}
