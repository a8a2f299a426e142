/** The same nodes as a checkpointed LangGraph graph: runtime-only data is put back before every
    node and stripped from the checkpoint after it, and edges read the checkpoint instead of the
    node's action. */
module LangGraph {
  import opened Json
  import opened Planner

  /** The planner's environment and the runtime context handed to the engine. */
  datatype Engine = Engine(env: Env, runtimeContext: Option<Json>)

  const RUNTIME_CONTEXT := "runtime_context"

  /** `persisted_state`. Request and dependencies are no part of `State` to begin with. */
  function Persisted(s: State): State {
    s.(context := s.context - {RUNTIME_CONTEXT})
  }

  /** The context a node sees: an empty runtime context counts as none. */
  function LiveContext(runtimeContext: Option<Json>, context: Context): Context {
    if runtimeContext.Some? && Truthy(runtimeContext.value) then context[RUNTIME_CONTEXT := runtimeContext.value] else context
  }

  function Rehydrated(e: Engine, p: State): State {
    p.(context := LiveContext(e.runtimeContext, p.context))
  }

  /** `_node_adapter`. */
  function AdaptedVisit(e: Engine, tick: nat, node: Node, p: State): Outcome<State>
    requires node != AwaitApproval
  {
    match Visit(e.env, tick, node, Rehydrated(e, p))
    case Raise(error) => Raise(error)
    case Ok(step) => Ok(Persisted(step.state))
  }

  function RouteAfterThink(p: State): Node {
    if p.route == Decided(ToolUse) then ExecuteTool else SelfCheck
  }

  function RouteAfterTool(p: State): Node {
    if p.status == PendingApproval then AwaitApproval else Think
  }

  function RouteAfterApproval(p: State): Node {
    if p.route == Decided(ToolUse) then Think else SelfCheck
  }

  function GraphSuccessor(node: Node, p: State): Option<Node> {
    match node
    case LoadContext => Some(LoadSkills)
    case LoadSkills => Some(PreGuard)
    case PreGuard => Some(Think)
    case Think => Some(RouteAfterThink(p))
    case ExecuteTool => Some(RouteAfterTool(p))
    case AwaitApproval => Some(RouteAfterApproval(p))
    case SelfCheck => None
  }

  /** The graph from `node` on, allowed `limit` more nodes; it stops at an approval interrupt. */
  function Graph(e: Engine, tick: nat, node: Node, p: State, limit: nat): Run
    decreases limit
  {
    if limit == 0 then Run([], p, node, Capped)
    else if node == AwaitApproval then Run([], p, node, Interrupted)
    else
      match AdaptedVisit(e, tick, node, p)
      case Raise(error) => Run([], p, node, Raised(error))
      case Ok(p') =>
        var v := Visited(node, p, p');
        match GraphSuccessor(node, p')
        case None => Run([v], p', node, Ended)
        case Some(next) => Then(v, Graph(e, tick + 1, next, p', limit - 1))
  }

  /** `LangGraphEngine.start`. */
  function RunGraph(e: Engine, observations: seq<Json>, loopCount: nat, limit: nat): Run {
    Graph(e, 0, LoadContext, Persisted(Fresh(observations, loopCount)), limit)
  }

  const REJECTED_ANSWER := "审批已拒绝，本次工具调用不会执行。"

  function Objects(items: seq<Json>): seq<Json> {
    if items == [] then []
    else if items[0].Obj? then [items[0]] + Objects(items[1..])
    else Objects(items[1..])
  }

  /** `await_approval` once its interrupt has been answered with `payload`. */
  function Resumed(p: State, payload: Json): State {
    var observation := Get(payload, "approval_observation");
    var results := Get(payload, "tool_results");
    var observations :=
      p.toolObservations + (if observation.Obj? then [observation] else [])
      + (if results.Arr? then Objects(results.items) else []);
    var shown := Get(payload, "answer");
    var p' := p.(toolObservations := observations, approvalRequests := Arr([]), status := Running);
    if Get(payload, "decision") == Str("approved") then p'.(route := Decided(ToolUse), answer := None)
    else p'.(route := Decided(Answer), answer := Some(if shown.Str? && shown.text != "" then shown.text else REJECTED_ANSWER))
  }

  /** `LangGraphEngine.resume`: the graph continues behind the answered interrupt. */
  function ResumeGraph(e: Engine, tick: nat, paused: State, payload: Json, limit: nat): Run {
    var p := Resumed(paused, payload);
    Graph(e, tick, RouteAfterApproval(p), p, limit)
  }
}
