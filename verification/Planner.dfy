/** The planner's nodes and their PocoFlow wiring: what one visit of each node does to the
    run's state, and the run that the action edges produce. External calls (context and skill
    loaders, guard, model, tools, self-check) are oracles; each receives the number of node
    visits made so far, so it may answer differently every time, and may raise. */
module Planner {
  import opened Json
  import RankedMerge

  datatype Outcome<+T> = Ok(value: T) | Raise(error: string)

  datatype Route = FaqAnswer | Answer | ToolUse | Clarify | Handoff | Chat
  datatype RouteField = NoRoute | Decided(route: Route) | ApprovalRequired
  datatype Status = Running | PendingApproval | Completed | Failed
  datatype ToolCall = ToolCall(callId: string, toolName: string, toolArgs: Json, reason: Json)
  datatype Decision = Decision(
    route: Route,
    answer: Option<string>,
    toolName: Option<string>,
    toolArgs: Json,
    reason: Json,
    toolCalls: seq<ToolCall>)
  datatype CheckResult = CheckResult(passed: bool, reason: Option<string>, revisedAnswer: Option<string>)
  datatype Request = Request(query: string, history: Json, sessionId: string, userId: string)
  type Context = map<string, Json>

  datatype Node = LoadContext | LoadSkills | PreGuard | Think | ExecuteTool | AwaitApproval | SelfCheck

  /** What a node's `post` returns to the flow. */
  datatype Action = OkAction | ErrorAction | PendingAction | Go(route: Route) | DoneAction

  datatype Payload =
    | NoPayload
    | SkillPayload(result: Context, skills: seq<Json>)
    | GuardPayload(guard: Json, history: Json)
    | DecisionPayload(decision: Decision)
    | BatchPayload(reason: Json, mode: Json, calls: nat, observationCount: nat, callIds: seq<Json>, approvals: Json)
    | CheckPayload(passed: bool, why: Option<string>)
  datatype TraceEntry = TraceEntry(node: Node, action: Action, payload: Payload)

  datatype State = State(
    context: Context,
    skills: seq<Json>,
    autoSkills: Json,
    sessionSkills: Json,
    skillRetrieval: Json,
    intent: Json,
    retrievedFaqs: seq<RankedMerge.Item>,
    toolObservations: seq<Json>,
    loopCount: nat,
    route: RouteField,
    answer: Option<string>,
    status: Status,
    errors: seq<string>,
    decision: Option<Decision>,
    selfCheck: Option<CheckResult>,
    approvalRequests: Json,
    trace: seq<TraceEntry>)

  datatype Deps = Deps(
    loadContext: (nat, Request) -> Outcome<Context>,
    loadSkills: Option<(nat, Request, Context) -> Outcome<Context>>,
    preGuard: Option<(nat, Request, Context) -> Outcome<Json>>,
    think: (nat, Request, State) -> Outcome<Decision>,
    runTools: Option<(nat, Request, seq<ToolCall>, State) -> Outcome<Context>>,
    runTool: (nat, nat, Request, ToolCall, State) -> Outcome<Context>,
    selfCheck: (nat, Request, State) -> Outcome<CheckResult>)

  datatype Env = Env(request: Request, deps: Deps, maxIterations: nat)

  /** `make_store` overlaid with the initial observations and loop count of a resumed turn. */
  function Fresh(observations: seq<Json>, loopCount: nat): State {
    State(map[], [], Arr([]), Arr([]), Obj(map[]), Obj(map[]), [], observations, loopCount, NoRoute, None, Running, [],
          None, None, Arr([]), [])
  }

  function Traced(s: State, node: Node, action: Action, payload: Payload): State {
    s.(trace := s.trace + [TraceEntry(node, action, payload)])
  }

  // ---------- load_context ----------

  function LoadContextPost(s: State, context: Context): State {
    Traced(s.(context := context), LoadContext, OkAction, NoPayload)
  }

  // ---------- load_skills ----------

  function SkippedSkills(query: string, reason: string): Context {
    map["query" := Str(query), "candidates" := Arr([]), "skills" := Arr([]), "skipped" := Bool(true), "reason" := Str(reason)]
  }

  /** A missing loader and a raising loader both degrade to an empty result. */
  function LoadSkillsExec(env: Env, tick: nat, context: Context): Context {
    match env.deps.loadSkills
    case None => SkippedSkills(env.request.query, "no_skill_loader")
    case Some(load) =>
      match load(tick, env.request, context)
      case Ok(result) => result
      case Raise(error) => SkippedSkills(env.request.query, "skill_loader_error")["error" := Str(error)]
  }

  function LoadSkillsPost(s: State, result: Context): State {
    var found := Get(Obj(result), "skills");
    var skills := if found.Arr? then found.items else [];
    var auto := GetOrEmpty(Obj(result), "auto_skills");
    var session := GetOrEmpty(Obj(result), "session_skills");
    var context := s.context["skills" := Arr(skills)]["auto_skills" := auto]["session_skills" := session]
                   ["skill_index" := GetOrEmpty(Obj(result), "skill_index")];
    Traced(s.(skills := skills, autoSkills := auto, sessionSkills := session, skillRetrieval := Obj(result), context := context),
           LoadSkills, OkAction, SkillPayload(result, skills))
  }

  // ---------- pre_guard ----------

  function PreGuardExec(env: Env, tick: nat, context: Context): Outcome<Json> {
    match env.deps.preGuard
    case None => Ok(Obj(map["route_hint" := Str("planner"), "reason" := Str("no_pre_guard")]))
    case Some(guard) => guard(tick, env.request, context)
  }

  function PreGuardPost(s: State, guard: Json): State {
    Traced(s.(intent := guard), PreGuard, OkAction, GuardPayload(guard, GetOrEmpty(Obj(s.context), "history")))
  }

  // ---------- think ----------

  const HANDOFF_ANSWER := "当前问题需要人工进一步处理。"

  function Exhausted(): Decision {
    Decision(Handoff, Some(HANDOFF_ANSWER), None, Obj(map[]), Str("max_iterations_exceeded"), [])
  }

  function ThinkExec(env: Env, tick: nat, s: State): Outcome<Decision> {
    if s.loopCount + 1 > env.maxIterations then Ok(Exhausted()) else env.deps.think(tick, env.request, s)
  }

  predicate Named(name: Option<string>) {
    name.Some? && name.value != ""
  }

  function DecisionToolCalls(d: Decision): seq<ToolCall> {
    if d.toolCalls != [] then d.toolCalls
    else if Named(d.toolName) then [ToolCall("tool-call-1", d.toolName.value, d.toolArgs, d.reason)]
    else []
  }

  function ThinkPost(s: State, d: Decision): State {
    var stored := d.(toolCalls := DecisionToolCalls(d));
    Traced(s.(loopCount := s.loopCount + 1,
              decision := Some(stored),
              route := Decided(d.route),
              answer := if Named(d.answer) then d.answer else s.answer),
           Think, Go(d.route), DecisionPayload(stored))
  }

  /** The two FAQ-style answer routes share one edge. */
  function ThinkAction(d: Decision): Action {
    if d.route == FaqAnswer then Go(Answer) else Go(d.route)
  }

  // ---------- execute_tool ----------

  function RunToolSafely(env: Env, tick: nat, index: nat, call: ToolCall, s: State): Json {
    var header := map["call_id" := Str(call.callId), "tool_name" := Str(call.toolName), "args" := call.toolArgs];
    match env.deps.runTool(tick, index, env.request, call, s)
    case Ok(result) => Obj(header + result)
    case Raise(error) => Obj(header["status" := Str("error")]["error" := Str(error)])
  }

  function RunSequentially(env: Env, tick: nat, calls: seq<ToolCall>, s: State): seq<Json> {
    seq(|calls|, i requires 0 <= i < |calls| => RunToolSafely(env, tick, i, calls[i], s))
  }

  function StoredCalls(s: State): seq<ToolCall> {
    if s.decision.None? then [] else DecisionToolCalls(s.decision.value)
  }

  function ExecuteToolExec(env: Env, tick: nat, s: State): Outcome<Context> {
    var calls := StoredCalls(s);
    if calls == [] then Raise("tool_call decision missing tool call")
    else if env.deps.runTools.Some? then env.deps.runTools.value(tick, env.request, calls, s)
    else Ok(map["execution_mode" := Str("sequential"), "results" := Arr(RunSequentially(env, tick, calls, s))])
  }

  function BatchResults(exec: Context): seq<Json> {
    var results := Get(Obj(exec), "results");
    if results.Arr? then results.items else [Obj(exec)]
  }

  predicate NamedTool(result: Json, name: string) {
    var tool := Get(result, "tool_name");
    tool.Str? && (tool.text == name || EndsWith(tool.text, "." + name))
  }

  predicate EndsWith(s: string, suffix: string) {
    |suffix| <= |s| && s[|s| - |suffix|..] == suffix
  }

  function WithoutSkill(skills: seq<Json>, id: Json): seq<Json> {
    if skills == [] then []
    else if Get(skills[0], "id") == id then WithoutSkill(skills[1..], id)
    else [skills[0]] + WithoutSkill(skills[1..], id)
  }

  function MergeToolLoadedSkill(s: State, result: Json): State {
    var output := Get(result, "output");
    var skill := Get(output, "skill");
    if !skill.Obj? || !Truthy(Get(output, "loaded")) || Truthy(Get(output, "already_loaded")) then s
    else
      var item := Obj(skill.fields["availability" := Str("tool_loaded")]);
      var skills := WithoutSkill(s.skills, Get(item, "id")) + [item];
      s.(skills := skills, context := s.context["skills" := Arr(skills)])
  }

  function MergeLoadedSkills(s: State, results: seq<Json>): State {
    if results == [] then s
    else
      var s' := MergeLoadedSkills(s, results[..|results| - 1]);
      var last := results[|results| - 1];
      if NamedTool(last, "load_skill") then MergeToolLoadedSkill(s', last) else s'
  }

  /** The FAQ searches of a batch, each with the query it ran. */
  function FaqSearches(results: seq<Json>): seq<(string, seq<RankedMerge.Item>)> {
    if results == [] then []
    else
      var before := FaqSearches(results[..|results| - 1]);
      var last := results[|results| - 1];
      var found := Get(Get(last, "output"), "results");
      if NamedTool(last, "search_faq") && found.Arr? then before + [(SearchQuery(last), AsItems(found.items))] else before
  }

  function SearchQuery(result: Json): string {
    var asked := Get(Get(result, "output"), "query");
    var given := Get(Get(result, "args"), "query");
    if asked.Str? && asked.text != "" then asked.text else if given.Str? then given.text else ""
  }

  function AsItems(items: seq<Json>): seq<RankedMerge.Item> {
    seq(|items|, i requires 0 <= i < |items| => if items[i].Obj? then items[i].fields else map[])
  }

  function MergeFaqs(s: State, searches: seq<(string, seq<RankedMerge.Item>)>): State {
    if searches == [] then s
    else
      var queries := seq(|searches|, i requires 0 <= i < |searches| => searches[i].0);
      var sets := seq(|searches|, i requires 0 <= i < |searches| => searches[i].1);
      s.(retrievedFaqs := RankedMerge.Merge(queries, sets))
  }

  predicate Pending(exec: Context) {
    Get(Obj(exec), "status") == Str("pending_approval")
  }

  predicate AnyError(results: seq<Json>) {
    exists i | 0 <= i < |results| :: Get(results[i], "status") == Str("error")
  }

  function CallIds(results: seq<Json>): seq<Json> {
    seq(|results|, i requires 0 <= i < |results| => Get(results[i], "call_id"))
  }

  const PENDING_ANSWER := "该操作需要审批后继续执行。"

  function PendingPost(s: State, exec: Context): State {
    var results := BatchResults(exec);
    var observations := s.toolObservations + results;
    var shown := Get(Obj(exec), "answer");
    var approvals := GetOrEmpty(Obj(exec), "approval_requests");
    Traced(s.(toolObservations := observations,
              status := PendingApproval,
              route := ApprovalRequired,
              answer := Some(if shown.Str? && shown.text != "" then shown.text else PENDING_ANSWER),
              approvalRequests := approvals),
           ExecuteTool, PendingAction,
           BatchPayload(DecisionReason(s), Get(Obj(exec), "execution_mode"), |results|, |observations|, CallIds(results), approvals))
  }

  function DecisionReason(s: State): Json {
    if s.decision.Some? then s.decision.value.reason else Null
  }

  function BatchPost(s: State, exec: Context): State {
    var results := BatchResults(exec);
    var observations := s.toolObservations + results;
    var merged := MergeFaqs(MergeLoadedSkills(s.(toolObservations := observations), results), FaqSearches(results));
    Traced(merged, ExecuteTool, BatchAction(results),
           BatchPayload(DecisionReason(s), Get(Obj(exec), "execution_mode"), |results|, |observations|, CallIds(results), Null))
  }

  function BatchAction(results: seq<Json>): Action {
    if AnyError(results) then ErrorAction else OkAction
  }

  // ---------- self_check ----------

  function SelfCheckExec(env: Env, tick: nat, s: State): Outcome<CheckResult> {
    if s.status == PendingApproval then Ok(CheckResult(true, Some("pending_approval"), None))
    else env.deps.selfCheck(tick, env.request, s)
  }

  function SelfCheckPost(s: State, check: CheckResult): State {
    if s.status == PendingApproval then
      Traced(s.(selfCheck := Some(CheckResult(true, Some("pending_approval"), None))),
             SelfCheck, PendingAction, CheckPayload(true, Some("pending_approval")))
    else
      var answered := if Named(check.revisedAnswer) then s.(answer := check.revisedAnswer) else s;
      var checked := answered.(selfCheck := Some(check.(revisedAnswer := None)));
      var settled :=
        if check.passed then checked.(status := Completed)
        else checked.(status := Failed,
                      errors := s.errors + [if Named(check.reason) then check.reason.value else "self_check_failed"]);
      Traced(settled, SelfCheck, DoneAction, CheckPayload(check.passed, check.reason))
  }

  // ---------- one visit ----------

  datatype Step = Step(state: State, action: Action)

  /** `prep`, `exec` and `post` of one node. Awaiting approval is no PocoFlow node. */
  function Visit(env: Env, tick: nat, node: Node, s: State): Outcome<Step>
    requires node != AwaitApproval
  {
    match node
    case LoadContext =>
      (match env.deps.loadContext(tick, env.request)
       case Raise(e) => Raise(e)
       case Ok(context) => Ok(Step(LoadContextPost(s, context), OkAction)))
    case LoadSkills => Ok(Step(LoadSkillsPost(s, LoadSkillsExec(env, tick, s.context)), OkAction))
    case PreGuard =>
      (match PreGuardExec(env, tick, s.context)
       case Raise(e) => Raise(e)
       case Ok(guard) => Ok(Step(PreGuardPost(s, guard), OkAction)))
    case Think =>
      (match ThinkExec(env, tick, s)
       case Raise(e) => Raise(e)
       case Ok(d) => Ok(Step(ThinkPost(s, d), ThinkAction(d))))
    case ExecuteTool =>
      (match ExecuteToolExec(env, tick, s)
       case Raise(e) => Raise(e)
       case Ok(exec) =>
         if Pending(exec) then Ok(Step(PendingPost(s, exec), PendingAction))
         else Ok(Step(BatchPost(s, exec), BatchAction(BatchResults(exec)))))
    case SelfCheck =>
      (match SelfCheckExec(env, tick, s)
       case Raise(e) => Raise(e)
       case Ok(check) => Ok(Step(SelfCheckPost(s, check), DoneAction)))
  }

  // ---------- PocoFlow wiring ----------

  /** The edges declared with `then`. */
  function Successor(node: Node, action: Action): Option<Node> {
    match (node, action)
    case (LoadContext, OkAction) => Some(LoadSkills)
    case (LoadSkills, OkAction) => Some(PreGuard)
    case (PreGuard, OkAction) => Some(Think)
    case (Think, Go(ToolUse)) => Some(ExecuteTool)
    case (Think, Go(Answer)) => Some(SelfCheck)
    case (Think, Go(Clarify)) => Some(SelfCheck)
    case (Think, Go(Handoff)) => Some(SelfCheck)
    case (Think, Go(Chat)) => Some(SelfCheck)
    case (ExecuteTool, OkAction) => Some(Think)
    case (ExecuteTool, ErrorAction) => Some(Think)
    case (ExecuteTool, PendingAction) => Some(SelfCheck)
    case _ => None
  }

  datatype Visited = Visited(node: Node, before: State, after: State)
  datatype End = Ended | Capped | Raised(error: string) | Interrupted

  const STEP_LIMIT := "step limit reached"

  /** The error a caller sees: a call that raised, or a step limit that stopped the run. */
  function Failure(end: End): Option<string> {
    match end
    case Raised(error) => Some(error)
    case Capped => Some(STEP_LIMIT)
    case _ => None
  }

  /** A run: the visits that completed, the state it left, the node it was at, and why it stopped. */
  datatype Run = Run(visits: seq<Visited>, final: State, at: Node, end: End)

  function Then(v: Visited, rest: Run): Run {
    rest.(visits := [v] + rest.visits)
  }

  /** The flow from `node` on, allowed `cap` more visits. */
  function Flow(env: Env, tick: nat, node: Node, s: State, cap: nat): Run
    requires node != AwaitApproval
    decreases cap
  {
    if cap == 0 then Run([], s, node, Capped)
    else
      match Visit(env, tick, node, s)
      case Raise(e) => Run([], s, node, Raised(e))
      case Ok(step) =>
        var v := Visited(node, s, step.state);
        match Successor(node, step.action)
        case None => Run([v], step.state, node, Ended)
        case Some(next) => Then(v, Flow(env, tick + 1, next, step.state, cap - 1))
  }

  function MaxSteps(maxIterations: int): nat {
    var steps := maxIterations * 4 + 8;
    if steps < 8 then 8 else steps
  }

  /** `run_agent` on the PocoFlow wiring. */
  function RunPlanner(env: Env, observations: seq<Json>, loopCount: nat): Run {
    Flow(env, 0, LoadContext, Fresh(observations, loopCount), MaxSteps(env.maxIterations))
  }
}
