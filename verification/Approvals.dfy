/** Tool approvals: the gate in front of a tool batch, the approval records, and what a decision
    on a record executes. A world is the approval records plus the log of what has been executed. */
module Approvals {
  import opened Json
  import opened Planner
  import opened LangGraph

  // ---------- The gate ----------

  datatype Policy = Policy(requiresApproval: bool, sideEffectLevel: string)
  type Gate = map<string, Policy>

  /** `tool_requires_approval`, for a tool of the runtime context. */
  predicate NeedsApproval(gate: Gate, toolName: string) {
    toolName in gate &&
    (gate[toolName].requiresApproval || gate[toolName].sideEffectLevel in {"internal_write", "external_write", "destructive"})
  }

  /** The levels a tool can be published with. */
  const LEVELS := {"none", "external_read", "internal_write", "external_write", "destructive"}

  /** What the gate knows of a tool: nothing, if it is not in the runtime context. */
  function PolicyOf(gate: Gate, toolName: string): Option<Policy> {
    if toolName in gate then Some(gate[toolName]) else None
  }

  /** A tool that changes nothing and asks for nothing: it is not in the context, or asks for no approval
      and has, of the levels there are, none or external reads. */
  predicate Harmless(policy: Option<Policy>) {
    policy.Some? ==> !policy.value.requiresApproval && policy.value.sideEffectLevel !in LEVELS - {"none", "external_read"}
  }

  /** The gate's law: only harmless tools pass. */
  lemma GateExactly(gate: Gate, toolName: string)
    ensures NeedsApproval(gate, toolName) <==> !Harmless(PolicyOf(gate, toolName))
  {
    LevelsApart();
  }

  lemma LevelsApart()
    ensures LEVELS - {"none", "external_read"} == {"internal_write", "external_write", "destructive"}
  {
    assert |"none"| == 4 && |"external_read"| == 13 && |"internal_write"| == 14 && |"external_write"| == 14 && |"destructive"| == 11;
  }

  /** The first call of a batch that needs approval. */
  function FirstGated(gate: Gate, calls: seq<ToolCall>): (r: Option<ToolCall>)
    ensures r.None? <==> forall c | c in calls :: !NeedsApproval(gate, c.toolName)
    ensures r.Some? ==> r.value in calls && NeedsApproval(gate, r.value.toolName)
  {
    if calls == [] then None
    else if NeedsApproval(gate, calls[0].toolName) then Some(calls[0])
    else FirstGated(gate, calls[1..])
  }

  function PendingExec(id: string, call: ToolCall): Context {
    map["status" := Str("pending_approval"),
        "execution_mode" := Str("approval_required"),
        "answer" := Str(PENDING_ANSWER),
        "approval_requests" := Arr([Obj(map["approval_id" := Str(id)])]),
        "results" := Arr([Obj(map["call_id" := Str(call.callId), "tool_name" := Str(call.toolName), "args" := call.toolArgs,
                                  "status" := Str("pending_approval"), "approval_id" := Str(id)])])]
  }

  type Runner = (nat, Request, seq<ToolCall>, State) -> Outcome<Context>

  /** `ApprovalGate.run_many` with an approval store attached. */
  function GatedRunner(gate: Gate, id: string, run: Runner): Runner {
    (tick: nat, request: Request, calls: seq<ToolCall>, s: State) =>
      var gated := FirstGated(gate, calls);
      if gated.Some? then Ok(PendingExec(id, gated.value)) else run(tick, request, calls, s)
  }

  /** The planner's runner is behind the gate: a batch with a call that needs approval only asks
      for it, any other batch is executed and does not end up waiting for an approval. */
  ghost predicate Gated(env: Env, gate: Gate, id: string) {
    env.deps.runTools.Some? &&
    forall tick: nat, request, calls, s ::
      var outcome := env.deps.runTools.value(tick, request, calls, s);
      match FirstGated(gate, calls)
      case Some(call) => outcome == Ok(PendingExec(id, call))
      case None => outcome.Ok? ==> !Pending(outcome.value)
  }

  lemma GatedRunnerGates(env: Env, gate: Gate, id: string, run: Runner)
    requires env.deps.runTools == Some(GatedRunner(gate, id, run))
    requires forall tick: nat, request, calls, s :: run(tick, request, calls, s).Ok? ==> !Pending(run(tick, request, calls, s).value)
    ensures Gated(env, gate, id)
  {
  }

  // ---------- Records and events ----------

  datatype RecordStatus = Waiting | Approved | Rejected | Executed | Expired

  /** The recorded call and what a resume starts from. */
  datatype Snapshot = Snapshot(call: ToolCall, observations: seq<Json>, loopCount: nat, langGraph: bool)
  datatype Record = Record(status: RecordStatus, snapshot: Snapshot, expiresAt: int, result: Option<State>)

  datatype Event =
    | Ran(call: ToolCall, policy: Option<Policy>)
    | RanApproved(id: string, call: ToolCall, allowed: set<string>)
    | Aborted(id: string)

  datatype World = World(records: map<string, Record>, log: seq<Event>)

  // ---------- What a run does to the world ----------

  function RanAll(gate: Gate, calls: seq<ToolCall>): seq<Event> {
    seq(|calls|, i requires 0 <= i < |calls| => Ran(calls[i], PolicyOf(gate, calls[i].toolName)))
  }

  /** Batches a run has executed: those that did not end up waiting for an approval. */
  function ExecutedBatches(gate: Gate, visits: seq<Visited>): seq<Event> {
    if visits == [] then []
    else
      (if visits[0].node == ExecuteTool && visits[0].after.status != PendingApproval
       then RanAll(gate, StoredCalls(visits[0].before)) else [])
      + ExecutedBatches(gate, visits[1..])
  }

  /** With the batch that raised, if one did: some of its calls may have taken effect. */
  function Executions(gate: Gate, run: Run): seq<Event> {
    ExecutedBatches(gate, run.visits)
    + if run.end.Raised? && run.at == ExecuteTool then RanAll(gate, StoredCalls(run.final)) else []
  }

  /** The approvals a run asks for: the gated call and the state the snapshot is taken from. */
  function Asked(gate: Gate, visits: seq<Visited>): seq<(ToolCall, State)> {
    if visits == [] then []
    else
      var gated := FirstGated(gate, StoredCalls(visits[0].before));
      (if visits[0].node == ExecuteTool && visits[0].after.status == PendingApproval && gated.Some?
       then [(gated.value, visits[0].before)] else [])
      + Asked(gate, visits[1..])
  }

  function SnapshotOf(asked: (ToolCall, State), langGraph: bool): Snapshot {
    Snapshot(asked.0, asked.1.toolObservations, asked.1.loopCount, langGraph)
  }

  /** A run under the gate: its executions are logged, an approval it asks for is recorded. */
  function AfterRun(w: World, gate: Gate, run: Run, langGraph: bool, newId: string, expiresAt: int): World {
    var asked := Asked(gate, run.visits);
    World(if asked == [] then w.records
          else w.records[newId := Record(Waiting, SnapshotOf(asked[0], langGraph), expiresAt, None)],
          w.log + Executions(gate, run))
  }

  // ---------- The store ----------

  /** `decide` of the approval store: one decision while waiting, then "already processed". */
  function StoreDecide(records: map<string, Record>, id: string, approve: bool, now: int): (Outcome<Record>, map<string, Record>) {
    if id !in records then (Raise(NOT_FOUND), records)
    else if records[id].status != Waiting then (Raise(ALREADY_PROCESSED), records)
    else if now >= records[id].expiresAt then (Raise(EXPIRED), records[id := records[id].(status := Expired)])
    else
      var decided := records[id].(status := if approve then Approved else Rejected);
      (Ok(decided), records[id := decided])
  }

  const NOT_FOUND := "审批请求不存在"
  const ALREADY_PROCESSED := "审批请求已处理"
  const EXPIRED := "审批请求已过期"
  const NO_LONGER_ALLOWED := "审批通过后工具已不可用或无权限"

  // ---------- Decisions ----------

  /** One decision, with the oracles it meets: the refreshed tool set (none when it cannot be
      resolved), the tool's results, the environment of the resumed run, on LangGraph the checkpoint
      it continues from, and what `json_safe` makes of a result that is recorded. */
  datatype Decide = Decide(
    id: string, approve: bool, now: int,
    allowed: Option<set<string>>, gate: Gate, results: Outcome<seq<Json>>,
    env: Env, runtimeContext: Option<Json>, paused: State, limit: nat,
    newId: string, newExpiry: int, jsonSafe: State -> State)

  function ApprovalObservation(call: ToolCall, id: string, status: string): Json {
    Obj(map["call_id" := Str(call.callId), "tool_name" := Str(call.toolName), "args" := call.toolArgs,
            "status" := Str(status), "approval_id" := Str(id)])
  }

  function ApprovedPayload(d: Decide, call: ToolCall, results: seq<Json>): Json {
    Obj(map["decision" := Str("approved"),
            "approval_observation" := ApprovalObservation(call, d.id, "approval_approved"),
            "tool_results" := Arr(results)])
  }

  function RejectedPayload(d: Decide, call: ToolCall): Json {
    Obj(map["decision" := Str("rejected"),
            "approval_observation" := ApprovalObservation(call, d.id, "approval_rejected"),
            "answer" := Str(REJECTED_ANSWER)])
  }

  /** The run that follows an approved call, on the engine the approval came from. */
  function ResumedRun(d: Decide, s: Snapshot, results: seq<Json>): Run {
    if s.langGraph then ResumeGraph(Engine(d.env, d.runtimeContext), 0, d.paused, ApprovedPayload(d, s.call, results), d.limit)
    else RunPlanner(d.env, s.observations + [ApprovalObservation(s.call, d.id, "approval_approved")] + results, s.loopCount)
  }

  function RejectedRun(d: Decide, s: Snapshot): Run {
    ResumeGraph(Engine(d.env, d.runtimeContext), 0, d.paused, RejectedPayload(d, s.call), d.limit)
  }

  /** `resume_approved_approval`: recheck the tool, execute the recorded call without the gate,
      continue under the gate, record the result unless the continuation failed. */
  function ResumeApproved(w: World, d: Decide, record: Record): (Outcome<State>, World) {
    var call := record.snapshot.call;
    if d.allowed.None? then (Raise("runtime context unavailable"), w)
    else if call.toolName !in d.allowed.value then (Raise(NO_LONGER_ALLOWED), w)
    else
      var executed := w.(log := w.log + [RanApproved(d.id, call, d.allowed.value)]);
      match d.results
      case Raise(e) => (Raise(e), executed.(log := executed.log + [Aborted(d.id)]))
      case Ok(results) =>
        var run := ResumedRun(d, record.snapshot, results);
        var after := AfterRun(executed, d.gate, run, record.snapshot.langGraph, d.newId, d.newExpiry);
        match Failure(run.end)
        case Some(e) => (Raise(e), after.(log := after.log + [Aborted(d.id)]))
        case None => (Ok(run.final), MarkExecuted(after, d.id, d.jsonSafe(run.final)))
  }

  function MarkExecuted(w: World, id: string, result: State): World {
    if id in w.records then w.(records := w.records[id := w.records[id].(status := Executed, result := Some(result))]) else w
  }

  function RejectedState(call: ToolCall, id: string): State {
    Fresh([ApprovalObservation(call, id, "approval_rejected")], 0)
      .(answer := Some(REJECTED_ANSWER), route := Decided(Answer), status := Completed)
  }

  /** `decide_approval`. */
  function DecideApproval(w: World, d: Decide): (Outcome<State>, World) {
    var (decided, records) := StoreDecide(w.records, d.id, d.approve, d.now);
    var w' := w.(records := records);
    match decided
    case Ok(record) =>
      if d.approve then ResumeApproved(w', d, record)
      else if record.snapshot.langGraph && d.allowed.Some? then
        var run := RejectedRun(d, record.snapshot);
        (if Failure(run.end).Some? then Raise(Failure(run.end).value) else Ok(run.final), AfterRun(w', d.gate, run, true, d.newId, d.newExpiry))
      else (Ok(RejectedState(record.snapshot.call, d.id)), w')
    case Raise(error) =>
      if !d.approve || error != ALREADY_PROCESSED then (Raise(error), w')
      else
        var existing := w.records[d.id];
        if existing.status == Approved && existing.result.None? then ResumeApproved(w', d, existing)
        else if existing.status == Executed && existing.result.Some? then (Ok(existing.result.value), w')
        else (Raise(error), w')
  }

  // ---------- Histories ----------

  datatype Op =
    | StartFlow(env: Env, gate: Gate, id: string, expiry: int)
    | StartGraph(engine: Engine, gate: Gate, id: string, expiry: int, limit: nat)
    | DecideOp(decide: Decide)

  function Apply(w: World, op: Op): World {
    match op
    case StartFlow(env, gate, id, expiry) => AfterRun(w, gate, RunPlanner(env, [], 0), false, id, expiry)
    case StartGraph(e, gate, id, expiry, limit) => AfterRun(w, gate, RunGraph(e, [], 0, limit), true, id, expiry)
    case DecideOp(d) => DecideApproval(w, d).1
  }

  function NewId(op: Op): string {
    if op.DecideOp? then op.decide.newId else op.id
  }

  function Play(w: World, ops: seq<Op>): World
    decreases |ops|
  {
    if ops == [] then w else Play(Apply(w, ops[0]), ops[1..])
  }

  /** Every run an operation starts is behind its gate, and the approval id it would hand out is
      new: the store draws ids at random. */
  ghost predicate Admissible(w: World, op: Op) {
    NewId(op) !in w.records &&
    match op
    case StartFlow(env, gate, id, _) => Gated(env, gate, id)
    case StartGraph(e, gate, id, _, _) => Gated(e.env, gate, id)
    case DecideOp(d) => Gated(d.env, d.gate, d.newId)
  }

  ghost predicate Legal(w: World, ops: seq<Op>)
    decreases |ops|
  {
    ops != [] ==> Admissible(w, ops[0]) && Legal(Apply(w, ops[0]), ops[1..])
  }

  // ---------- Counting ----------

  function ExecutionsOf(log: seq<Event>, id: string): nat {
    if log == [] then 0
    else ExecutionsOf(log[..|log| - 1], id) + if log[|log| - 1].RanApproved? && log[|log| - 1].id == id then 1 else 0
  }

  function AbortsOf(log: seq<Event>, id: string): nat {
    if log == [] then 0
    else AbortsOf(log[..|log| - 1], id) + if log[|log| - 1] == Aborted(id) then 1 else 0
  }
}
