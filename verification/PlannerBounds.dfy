/** How long a planner run on the PocoFlow wiring can be, and where it can stop. */
module PlannerBounds {
  import opened Json
  import opened Planner

  /** Visits still possible once the run reaches `think`. */
  function ThinkVisits(loopCount: nat, maxIterations: nat): nat {
    if loopCount >= maxIterations then 2 else 2 * (maxIterations - loopCount) + 2
  }

  function VisitsLeft(node: Node, loopCount: nat, maxIterations: nat): nat {
    match node
    case LoadContext => 3 + ThinkVisits(loopCount, maxIterations)
    case LoadSkills => 2 + ThinkVisits(loopCount, maxIterations)
    case PreGuard => 1 + ThinkVisits(loopCount, maxIterations)
    case Think => ThinkVisits(loopCount, maxIterations)
    case ExecuteTool => 1 + ThinkVisits(loopCount, maxIterations)
    case _ => 1
  }

  lemma MergeKeepsLoop(s: State, results: seq<Json>)
    ensures MergeLoadedSkills(s, results).loopCount == s.loopCount
    ensures MergeLoadedSkills(s, results).status == s.status
    ensures MergeLoadedSkills(s, results).route == s.route
    ensures MergeLoadedSkills(s, results).answer == s.answer
    ensures MergeLoadedSkills(s, results).toolObservations == s.toolObservations
  {
  }

  lemma BatchKeepsLoop(s: State, exec: Context)
    ensures BatchPost(s, exec).loopCount == s.loopCount && BatchPost(s, exec).status == s.status
  {
    MergeKeepsLoop(s.(toolObservations := s.toolObservations + BatchResults(exec)), BatchResults(exec));
  }

  /** One visit uses up at least one of the visits left; only self-check lacks a successor. */
  lemma VisitSpends(env: Env, tick: nat, node: Node, s: State)
    requires node != AwaitApproval
    requires Visit(env, tick, node, s).Ok?
    ensures var step := Visit(env, tick, node, s).value;
            match Successor(node, step.action)
            case None => node == SelfCheck
            case Some(next) =>
              next != AwaitApproval &&
              VisitsLeft(next, step.state.loopCount, env.maxIterations) < VisitsLeft(node, s.loopCount, env.maxIterations)
  {
    if node == ExecuteTool { BatchKeepsLoop(s, ExecuteToolExec(env, tick, s).value); }
  }

  lemma SuccessorIsNode(node: Node, action: Action)
    ensures Successor(node, action) != Some(AwaitApproval) && Successor(node, action) != Some(LoadContext)
  {
  }

  lemma VisitsLeftPositive(node: Node, loopCount: nat, maxIterations: nat)
    ensures VisitsLeft(node, loopCount, maxIterations) > 0
  {
  }

  /** A run that is allowed `VisitsLeft` visits is never cut off, and can only end in self-check. */
  lemma {:induction false} FlowBound(env: Env, tick: nat, node: Node, s: State, cap: nat)
    requires node != AwaitApproval
    requires cap >= VisitsLeft(node, s.loopCount, env.maxIterations)
    ensures var run := Flow(env, tick, node, s, cap);
            && run.end != Capped && run.end != Interrupted
            && |run.visits| <= VisitsLeft(node, s.loopCount, env.maxIterations)
            && (run.end == Ended ==> run.at == SelfCheck && run.visits != [] && run.visits[|run.visits| - 1].node == SelfCheck)
    decreases cap
  {
    hide Visit, Successor, VisitsLeft;
    VisitsLeftPositive(node, s.loopCount, env.maxIterations);
    var visit := Visit(env, tick, node, s);
    if visit.Ok? {
      VisitSpends(env, tick, node, s);
      var next := Successor(node, visit.value.action);
      if next.Some? {
        FlowBound(env, tick + 1, next.value, visit.value.state, cap - 1);
      }
    }
  }

  /** Once a run is not cut off, a larger allowance changes nothing. */
  lemma {:induction false} CapIsIrrelevant(env: Env, tick: nat, node: Node, s: State, cap: nat, cap': nat)
    requires node != AwaitApproval && cap <= cap'
    requires Flow(env, tick, node, s, cap).end != Capped
    ensures Flow(env, tick, node, s, cap') == Flow(env, tick, node, s, cap)
    decreases cap
  {
    hide Visit, Successor;
    var visit := Visit(env, tick, node, s);
    if visit.Ok? { VisitSpends(env, tick, node, s); }
    if visit.Ok? && Successor(node, visit.value.action).Some? {
      CapIsIrrelevant(env, tick + 1, Successor(node, visit.value.action).value, visit.value.state, cap - 1, cap' - 1);
    }
  }

  /** Every planner run makes at most `2 * max_iterations + 5` visits, ends in self-check unless a
      call raised, and is never stopped by the flow's step limit. */
  lemma PlannerRunBound(env: Env, observations: seq<Json>, loopCount: nat)
    ensures var run := RunPlanner(env, observations, loopCount);
            && |run.visits| <= 2 * env.maxIterations + 5
            && (run.end == Ended || run.end.Raised?)
            && (run.end == Ended ==> run.visits != [] && run.visits[|run.visits| - 1].node == SelfCheck)
            && (forall cap | cap >= 2 * env.maxIterations + 5 ::
                  Flow(env, 0, LoadContext, Fresh(observations, loopCount), cap) == run)
  {
    var s := Fresh(observations, loopCount);
    var bound := 2 * env.maxIterations + 5;
    FlowBound(env, 0, LoadContext, s, MaxSteps(env.maxIterations));
    FlowBound(env, 0, LoadContext, s, bound);
    CapIsIrrelevant(env, 0, LoadContext, s, bound, MaxSteps(env.maxIterations));
    forall cap | cap >= bound
      ensures Flow(env, 0, LoadContext, s, cap) == RunPlanner(env, observations, loopCount)
    {
      CapIsIrrelevant(env, 0, LoadContext, s, bound, cap);
    }
  }

  // ---------- The bound is attained ----------

  function AlwaysTool(): Decision {
    Decision(ToolUse, None, Some("tool"), Null, Null, [])
  }

  /** Dependencies whose model never stops asking for a tool. */
  function RestlessDeps(): Deps {
    Deps((t, r) => Ok(map[]), None, None, (t, r, s) => Ok(AlwaysTool()), None,
         (t, i, r, c, s) => Ok(map[]), (t, r, s) => Ok(CheckResult(true, None, None)))
  }

  lemma FlowStep(env: Env, tick: nat, node: Node, s: State, cap: nat, s': State, action: Action, next: Node)
    requires node != AwaitApproval && cap > 0
    requires Visit(env, tick, node, s) == Ok(Step(s', action)) && Successor(node, action) == Some(next)
    ensures next != AwaitApproval
    ensures |Flow(env, tick, node, s, cap).visits| == 1 + |Flow(env, tick + 1, next, s', cap - 1).visits|
  {
  }

  /** With iterations left, the restless model costs a think and a tool batch. */
  lemma RestlessRound(env: Env, tick: nat, s: State) returns (asked: State, ran: State, action: Action)
    requires env.deps == RestlessDeps() && s.status == Running && s.loopCount < env.maxIterations
    ensures Visit(env, tick, Think, s) == Ok(Step(asked, Go(ToolUse)))
    ensures Visit(env, tick + 1, ExecuteTool, asked) == Ok(Step(ran, action))
    ensures Successor(ExecuteTool, action) == Some(Think)
    ensures ran.status == Running && ran.loopCount == s.loopCount + 1
  {
    hide BatchPost, LoadSkillsPost, SelfCheckPost, PendingPost, RunToolSafely;
    asked := ThinkPost(s, AlwaysTool());
    assert StoredCalls(asked) == [ToolCall("tool-call-1", "tool", Null, Null)];
    var exec := ExecuteToolExec(env, tick + 1, asked).value;
    ran, action := BatchPost(asked, exec), BatchAction(BatchResults(exec));
    BatchKeepsLoop(asked, exec);
  }

  lemma RestlessTwoVisits(env: Env, tick: nat, s: State, cap: nat) returns (ran: State)
    requires env.deps == RestlessDeps() && s.status == Running && s.loopCount < env.maxIterations && cap >= 2
    ensures ran.status == Running && ran.loopCount == s.loopCount + 1
    ensures |Flow(env, tick, Think, s, cap).visits| == 2 + |Flow(env, tick + 2, Think, ran, cap - 2).visits|
  {
    var asked, ran', action := RestlessRound(env, tick, s);
    ran := ran';
    FlowStep(env, tick, Think, s, cap, asked, Go(ToolUse), ExecuteTool);
    FlowStep(env, tick + 1, ExecuteTool, asked, cap - 1, ran, action, Think);
  }

  lemma RestlessEnd(env: Env, tick: nat, s: State, cap: nat)
    requires env.deps == RestlessDeps() && s.status == Running && s.loopCount >= env.maxIterations && cap >= 2
    ensures |Flow(env, tick, Think, s, cap).visits| == 2
  {
    var done := ThinkPost(s, Exhausted());
    FlowStep(env, tick, Think, s, cap, done, Go(Handoff), SelfCheck);
    assert Visit(env, tick + 1, SelfCheck, done).Ok?;
  }

  lemma {:induction false} RestlessFromThink(env: Env, tick: nat, s: State, cap: nat)
    requires env.deps == RestlessDeps() && s.status == Running
    requires cap >= ThinkVisits(s.loopCount, env.maxIterations)
    ensures |Flow(env, tick, Think, s, cap).visits| == ThinkVisits(s.loopCount, env.maxIterations)
    decreases cap
  {
    hide Flow;
    if s.loopCount >= env.maxIterations {
      RestlessEnd(env, tick, s, cap);
    } else {
      var ran := RestlessTwoVisits(env, tick, s, cap);
      RestlessFromThink(env, tick + 2, ran, cap - 2);
    }
  }

  /** The three visits before the first `think`. */
  lemma RestlessStart(env: Env) returns (s1: State, s2: State, s3: State)
    requires env.deps == RestlessDeps()
    ensures Visit(env, 0, LoadContext, Fresh([], 0)) == Ok(Step(s1, OkAction))
    ensures Visit(env, 1, LoadSkills, s1) == Ok(Step(s2, OkAction))
    ensures Visit(env, 2, PreGuard, s2) == Ok(Step(s3, OkAction))
    ensures s3.status == Running && s3.loopCount == 0
  {
    s1 := LoadContextPost(Fresh([], 0), map[]);
    s2 := LoadSkillsPost(s1, LoadSkillsExec(env, 1, s1.context));
    s3 := PreGuardPost(s2, PreGuardExec(env, 2, s2.context).value);
  }

  /** No smaller bound holds. */
  lemma PlannerRunBoundIsTight(env: Env)
    requires env.deps == RestlessDeps()
    ensures |RunPlanner(env, [], 0).visits| == 2 * env.maxIterations + 5
  {
    hide Flow, Visit;
    var cap := MaxSteps(env.maxIterations);
    var s1, s2, s3 := RestlessStart(env);
    FlowStep(env, 0, LoadContext, Fresh([], 0), cap, s1, OkAction, LoadSkills);
    FlowStep(env, 1, LoadSkills, s1, cap - 1, s2, OkAction, PreGuard);
    FlowStep(env, 2, PreGuard, s2, cap - 2, s3, OkAction, Think);
    RestlessFromThink(env, 3, s3, cap - 3);
  }
}
