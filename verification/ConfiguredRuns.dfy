/** What holds of every configured run: it completes with an answer or pauses for approval, it
    only ever executes authorised batches, and it does not keep calling tools that return nothing. */
module ConfiguredRuns {
  import opened Json
  import opened Planner
  import opened PlannerBounds
  import opened LangGraph
  import opened ConfiguredPlanner
  import EngineEquivalence

  ghost predicate Configured(env: Env, c: Config) {
    env.deps == ConfiguredDeps(c)
  }

  predicate GoodBatch(calls: seq<ToolCall>, allowed: set<string>) {
    1 <= |calls| <= MAX_CALLS && forall call | call in calls :: call.toolName in allowed
  }

  /** What a configured run has established when it arrives at a node. */
  predicate Arrived(node: Node, s: State, c: Config) {
    match node
    case SelfCheck => s.status == PendingApproval || (s.status == Running && Named(s.answer))
    case ExecuteTool => s.status == Running && GoodBatch(StoredCalls(s), c.allowed)
    case _ => s.status == Running
  }

  predicate Settled(s: State) {
    s.status == PendingApproval || (s.status == Completed && Named(s.answer))
  }

  lemma ThinkDecides(env: Env, c: Config, tick: nat, s: State)
    requires Configured(env, c)
    ensures ThinkExec(env, tick, s).Ok?
    ensures var d := ThinkExec(env, tick, s).value;
            Actionable(d, c.allowed) && (d.route != ToolUse ==> Named(d.answer)) && (StopsReplanning(s) ==> d.route != ToolUse)
  {
    hide ConfiguredThink, Strip, StopsReplanning, UnknownToolAnswer;
    ThinkIsActionable(c, tick, env.request, s);
    FixedAnswersAreNotBlank();
    var d := ThinkExec(env, tick, s).value;
    if d.route != ToolUse { NotBlankIsNamed(d.answer.value); }
  }

  /** One visit of a configured run: nothing raises, and the run arrives well at the next node. */
  lemma VisitArrives(env: Env, c: Config, tick: nat, node: Node, s: State)
    requires Configured(env, c) && node != AwaitApproval && Arrived(node, s, c)
    ensures Visit(env, tick, node, s).Ok?
    ensures var step := Visit(env, tick, node, s).value;
            match Successor(node, step.action)
            case None => Settled(step.state)
            case Some(next) => Arrived(next, step.state, c)
  {
    match node
    case Think => ThinkArrives(env, c, tick, s);
    case ExecuteTool =>
      hide ConfiguredThink;
      BatchKeepsLoop(s, c.runTools(tick, env.request, StoredCalls(s), s));
    case _ =>
      hide ConfiguredThink, ThinkPost, ExecuteToolExec;
  }

  lemma ThinkArrives(env: Env, c: Config, tick: nat, s: State)
    requires Configured(env, c) && Arrived(Think, s, c)
    ensures Visit(env, tick, Think, s).Ok?
    ensures var step := Visit(env, tick, Think, s).value;
            var next := Successor(Think, step.action);
            next.Some? && Arrived(next.value, step.state, c)
  {
    hide Strip, ThinkExec, Configured, StopsReplanning;
    ThinkDecides(env, c, tick, s);
  }

  /** Every batch that ran was one to eight authorised calls. */
  ghost predicate GoodBatches(visits: seq<Visited>, c: Config) {
    forall v | v in visits && v.node == ExecuteTool :: GoodBatch(StoredCalls(v.before), c.allowed)
  }

  lemma {:induction false} FlowSettles(env: Env, c: Config, tick: nat, node: Node, s: State, cap: nat)
    requires Configured(env, c) && node != AwaitApproval && Arrived(node, s, c)
    ensures var run := Flow(env, tick, node, s, cap);
            && !run.end.Raised?
            && (run.end == Ended ==> Settled(run.final))
            && GoodBatches(run.visits, c)
    decreases cap
  {
    hide Visit, Successor, StoredCalls, Configured;
    if cap > 0 {
      VisitArrives(env, c, tick, node, s);
      var step := Visit(env, tick, node, s).value;
      var next := Successor(node, step.action);
      SuccessorIsNode(node, step.action);
      if next.Some? { FlowSettles(env, c, tick + 1, next.value, step.state, cap - 1); }
    }
  }

  /** Every configured run ends completed with a non-empty answer, or paused for approval. */
  lemma ConfiguredRunCompletes(env: Env, c: Config, observations: seq<Json>, loopCount: nat)
    requires Configured(env, c)
    ensures var run := RunPlanner(env, observations, loopCount);
            run.end == Ended && Settled(run.final) && GoodBatches(run.visits, c)
  {
    hide Flow, Configured;
    PlannerRunBound(env, observations, loopCount);
    FlowSettles(env, c, 0, LoadContext, Fresh(observations, loopCount), MaxSteps(env.maxIterations));
  }

  // ---------- The same on the LangGraph wiring, resumes included ----------

  lemma AdaptedVisitArrives(e: Engine, c: Config, tick: nat, node: Node, p: State)
    requires Configured(e.env, c) && node != AwaitApproval && Arrived(node, p, c) && p.status == Running
    ensures AdaptedVisit(e, tick, node, p).Ok?
    ensures var p' := AdaptedVisit(e, tick, node, p).value;
            match GraphSuccessor(node, p')
            case None => Settled(p')
            case Some(AwaitApproval) => p'.status == PendingApproval
            case Some(next) => Arrived(next, p', c) && p'.status == Running
  {
    hide Visit, Successor, GraphSuccessor, Rehydrated, Configured;
    var s := Rehydrated(e, p);
    RehydratedArrives(e, c, node, p);
    VisitArrives(e.env, c, tick, node, s);
    EngineEquivalence.SameEdges(e.env, tick, node, s);
    var step := Visit(e.env, tick, node, s).value;
    SuccessorIsNode(node, step.action);
    var next := Successor(node, step.action);
    if next.Some? { PersistedArrives(c, next.value, step.state); }
  }

  lemma RehydratedArrives(e: Engine, c: Config, node: Node, p: State)
    ensures Arrived(node, Rehydrated(e, p), c) <==> Arrived(node, p, c)
    ensures Rehydrated(e, p).status == p.status
  {
  }

  lemma PersistedArrives(c: Config, node: Node, s: State)
    ensures Arrived(node, Persisted(s), c) <==> Arrived(node, s, c)
  {
  }

  /** One visit of the graph uses up at least one of the visits left; waiting counts as one. */
  lemma AdaptedVisitSpends(e: Engine, tick: nat, node: Node, p: State)
    requires node != AwaitApproval && p.status == Running && AdaptedVisit(e, tick, node, p).Ok?
    ensures var p' := AdaptedVisit(e, tick, node, p).value;
            var next := GraphSuccessor(node, p');
            next.Some? ==> VisitsLeft(next.value, p'.loopCount, e.env.maxIterations) < VisitsLeft(node, p.loopCount, e.env.maxIterations)
  {
    hide Visit, Successor, GraphSuccessor;
    var s := Rehydrated(e, p);
    VisitSpends(e.env, tick, node, s);
    EngineEquivalence.SameEdges(e.env, tick, node, s);
  }

  lemma {:induction false} GraphSettles(e: Engine, c: Config, tick: nat, node: Node, p: State, limit: nat)
    requires Configured(e.env, c) && node != AwaitApproval && Arrived(node, p, c)
    requires p.status == Running
    ensures var run := Graph(e, tick, node, p, limit);
            && !run.end.Raised?
            && (run.end == Ended ==> Settled(run.final))
            && (run.end == Interrupted ==> run.final.status == PendingApproval)
            && (limit >= VisitsLeft(node, p.loopCount, e.env.maxIterations) ==> run.end == Ended || run.end == Interrupted)
            && GoodBatches(run.visits, c)
    decreases limit
  {
    hide AdaptedVisit, GraphSuccessor, StoredCalls, Configured, VisitsLeft;
    VisitsLeftPositive(node, p.loopCount, e.env.maxIterations);
    if limit > 0 {
      AdaptedVisitArrives(e, c, tick, node, p);
      AdaptedVisitSpends(e, tick, node, p);
      var p' := AdaptedVisit(e, tick, node, p).value;
      var next := GraphSuccessor(node, p');
      if next.Some? {
        VisitsLeftPositive(next.value, p'.loopCount, e.env.maxIterations);
        if next != Some(AwaitApproval) { GraphSettles(e, c, tick + 1, next.value, p', limit - 1); }
      }
    }
  }

  /** A configured graph run, given the recursion limit it may need, ends completed with a non-empty
      answer or stops at an approval, whatever the model and the tools return. */
  lemma ConfiguredGraphCompletes(e: Engine, c: Config, observations: seq<Json>, loopCount: nat, limit: nat)
    requires Configured(e.env, c)
    ensures var run := RunGraph(e, observations, loopCount, limit);
            && !run.end.Raised? && GoodBatches(run.visits, c)
            && (limit >= 2 * e.env.maxIterations + 5 ==>
                  (run.end == Ended && Settled(run.final)) || (run.end == Interrupted && run.final.status == PendingApproval))
  {
    hide Graph, Configured;
    GraphSettles(e, c, 0, LoadContext, Persisted(Fresh(observations, loopCount)), limit);
  }

  /** So does a resumed one: approved it plans on, rejected it answers. */
  lemma ConfiguredResumeCompletes(e: Engine, c: Config, tick: nat, paused: State, payload: Json, limit: nat)
    requires Configured(e.env, c)
    ensures var run := ResumeGraph(e, tick, paused, payload, limit);
            && !run.end.Raised? && GoodBatches(run.visits, c)
            && (run.end == Ended ==> Settled(run.final))
            && (limit >= 2 * e.env.maxIterations + 5 ==>
                  (run.end == Ended && Settled(run.final)) || (run.end == Interrupted && run.final.status == PendingApproval))
  {
    hide Graph, Configured;
    var p := Resumed(paused, payload);
    GraphSettles(e, c, tick, RouteAfterApproval(p), p, limit);
  }
}
