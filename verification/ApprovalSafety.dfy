/** What approvals guarantee over every history of runs and decisions. */
module ApprovalSafety {
  import opened Json
  import opened Planner
  import opened LangGraph
  import opened Approvals
  import opened GatedRuns

  // ---------- The invariant ----------

  /** An execution is allowed when the call's tool was harmless, or when it is the recorded call of
      an approval that was granted and its tool was in the refreshed tool set. */
  predicate Justified(e: Event, records: map<string, Record>) {
    match e
    case Ran(call, policy) => Harmless(policy)
    case RanApproved(id, call, allowed) =>
      && id in records && records[id].status in {Approved, Executed}
      && call == records[id].snapshot.call && call.toolName in allowed
    case Aborted(id) => true
  }

  /** Every approved execution was either recorded or followed by a failure; `open` is the one
      still under way. */
  predicate Accounted(w: World, id: string, open: Option<string>) {
    ExecutionsOf(w.log, id) ==
    AbortsOf(w.log, id)
    + (if id in w.records && w.records[id].status == Executed then 1 else 0)
    + (if open == Some(id) then 1 else 0)
  }

  ghost predicate Inv(w: World, open: Option<string>) {
    && (forall e | e in w.log :: Justified(e, w.records))
    && (forall id :: Accounted(w, id, open))
    && (forall id | id in w.records :: w.records[id].status == Executed <==> w.records[id].result.Some?)
  }

  lemma {:induction false} CountAppend(log: seq<Event>, more: seq<Event>, id: string)
    ensures ExecutionsOf(log + more, id) == ExecutionsOf(log, id) + ExecutionsOf(more, id)
    ensures AbortsOf(log + more, id) == AbortsOf(log, id) + AbortsOf(more, id)
  {
    if more == [] {
      assert log + more == log;
    } else {
      var n := |more| - 1;
      assert (log + more)[..|log + more| - 1] == log + more[..n];
      CountAppend(log, more[..n], id);
    }
  }

  // ---------- Runs ----------

  lemma {:induction false} RansCountNothing(log: seq<Event>, id: string)
    requires forall e | e in log :: e.Ran?
    ensures ExecutionsOf(log, id) == 0 && AbortsOf(log, id) == 0
  {
    if log != [] {
      assert log[|log| - 1].Ran?;
      RansCountNothing(log[..|log| - 1], id);
    }
  }

  lemma AfterRunKeepsInv(w: World, gate: Gate, run: Run, langGraph: bool, newId: string, expiresAt: int, open: Option<string>)
    requires Inv(w, open) && newId !in w.records && open != Some(newId) && OnlyUngated(Executions(gate, run))
    ensures Inv(AfterRun(w, gate, run, langGraph, newId, expiresAt), open)
  {
    var w' := AfterRun(w, gate, run, langGraph, newId, expiresAt);
    var more := Executions(gate, run);
    forall id ensures Accounted(w', id, open) {
      assert Accounted(w, id, open);
      CountAppend(w.log, more, id);
      RansCountNothing(more, id);
    }
    forall e | e in w'.log ensures Justified(e, w'.records) {
      assert e in w.log || e in more;
    }
  }

  // ---------- Decisions ----------

  /** Records outlive every operation; a decision taken is final, a result recorded is kept. */
  ghost predicate Keeps(before: map<string, Record>, after: map<string, Record>) {
    forall id | id in before ::
      && id in after && after[id].snapshot == before[id].snapshot
      && (before[id].status in {Rejected, Executed} ==> after[id] == before[id])
      && (before[id].status == Approved ==> after[id].status in {Approved, Executed})
  }

  lemma AfterRunKeepsRecords(w: World, gate: Gate, run: Run, langGraph: bool, newId: string, expiresAt: int)
    requires newId !in w.records
    ensures Keeps(w.records, AfterRun(w, gate, run, langGraph, newId, expiresAt).records)
  {
  }

  lemma LogApproved(w: World, id: string, call: ToolCall, allowed: set<string>)
    requires Inv(w, None) && id in w.records && w.records[id].status == Approved
    requires call == w.records[id].snapshot.call && call.toolName in allowed
    ensures Inv(w.(log := w.log + [RanApproved(id, call, allowed)]), Some(id))
  {
    var e := RanApproved(id, call, allowed);
    var w' := w.(log := w.log + [e]);
    forall i ensures Accounted(w', i, Some(id)) {
      assert Accounted(w, i, None);
      CountAppend(w.log, [e], i);
      assert [e][..0] == [];
    }
  }

  lemma LogAborted(w: World, id: string)
    requires Inv(w, Some(id))
    ensures Inv(w.(log := w.log + [Aborted(id)]), None)
  {
    var w' := w.(log := w.log + [Aborted(id)]);
    forall i ensures Accounted(w', i, None) {
      assert Accounted(w, i, Some(id));
      CountAppend(w.log, [Aborted(id)], i);
      assert [Aborted(id)][..0] == [];
    }
  }

  lemma MarkKeepsInv(w: World, id: string, result: State)
    requires Inv(w, Some(id)) && id in w.records && w.records[id].status == Approved
    ensures Inv(MarkExecuted(w, id, result), None)
  {
    var w' := MarkExecuted(w, id, result);
    forall i ensures Accounted(w', i, None) {
      assert Accounted(w, i, Some(id));
    }
  }

  lemma ResumedRunIsGated(d: Decide, s: Snapshot, results: seq<Json>)
    requires Gated(d.env, d.gate, d.newId)
    ensures OnlyUngated(Executions(d.gate, ResumedRun(d, s, results)))
  {
    hide Gated, OnlyUngated, ApprovedPayload, ApprovalObservation, Executions;
    if s.langGraph {
      ResumedGraphIsGated(Engine(d.env, d.runtimeContext), d.gate, d.newId, d.paused, ApprovedPayload(d, s.call, results), d.limit);
    } else {
      var observations := s.observations + [ApprovalObservation(s.call, d.id, "approval_approved")] + results;
      FlowIsGated(d.env, d.gate, d.newId, 0, LoadContext, Fresh(observations, s.loopCount), MaxSteps(d.env.maxIterations));
    }
  }

  lemma ResumeKeepsInv(w: World, d: Decide, record: Record)
    requires Inv(w, None) && d.id in w.records && w.records[d.id] == record && record.status == Approved
    requires d.newId !in w.records && Gated(d.env, d.gate, d.newId)
    ensures Inv(ResumeApproved(w, d, record).1, None)
    ensures Keeps(w.records, ResumeApproved(w, d, record).1.records)
  {
    hide Inv, AfterRun, ResumedRun, Gated, Executions;
    var call := record.snapshot.call;
    if d.allowed.Some? && call.toolName in d.allowed.value {
      var executed := w.(log := w.log + [RanApproved(d.id, call, d.allowed.value)]);
      LogApproved(w, d.id, call, d.allowed.value);
      if d.results.Raise? {
        LogAborted(executed, d.id);
      } else {
        var run := ResumedRun(d, record.snapshot, d.results.value);
        var langGraph := record.snapshot.langGraph;
        ResumedRunIsGated(d, record.snapshot, d.results.value);
        AfterRunKeepsInv(executed, d.gate, run, langGraph, d.newId, d.newExpiry, Some(d.id));
        AfterRunKeepsRecords(executed, d.gate, run, langGraph, d.newId, d.newExpiry);
        OtherRecords(executed, d.gate, run, langGraph, d.newId, d.newExpiry, d.id);
        var after := AfterRun(executed, d.gate, run, langGraph, d.newId, d.newExpiry);
        if Failure(run.end).Some? {
          LogAborted(after, d.id);
        } else {
          MarkKeepsInv(after, d.id, d.jsonSafe(run.final));
        }
      }
    }
  }

  lemma OtherRecords(w: World, gate: Gate, run: Run, langGraph: bool, newId: string, expiresAt: int, id: string)
    requires id in w.records && id != newId
    ensures var after := AfterRun(w, gate, run, langGraph, newId, expiresAt);
            id in after.records && after.records[id] == w.records[id]
  {
  }

  lemma StoreDecideKeeps(w: World, id: string, approve: bool, now: int)
    requires Inv(w, None)
    ensures var (decided, records) := StoreDecide(w.records, id, approve, now);
            && Inv(w.(records := records), None)
            && Keeps(w.records, records) && records.Keys == w.records.Keys
            && (decided.Ok? ==> id in records && records[id] == decided.value && decided.value.status == if approve then Approved else Rejected)
  {
    var (decided, records) := StoreDecide(w.records, id, approve, now);
    var w' := w.(records := records);
    forall i ensures Accounted(w', i, None) { assert Accounted(w, i, None); }
    forall e | e in w.log ensures Justified(e, records) { assert Justified(e, w.records); }
  }

  lemma DecideKeeps(w: World, d: Decide)
    requires Inv(w, None) && d.newId !in w.records && Gated(d.env, d.gate, d.newId)
    ensures Inv(DecideApproval(w, d).1, None)
    ensures Keeps(w.records, DecideApproval(w, d).1.records)
  {
    hide Inv, AfterRun, ResumedRun, RejectedRun, StoreDecide, ResumeApproved, Gated, Executions;
    var (decided, records) := StoreDecide(w.records, d.id, d.approve, d.now);
    var w' := w.(records := records);
    StoreDecideKeeps(w, d.id, d.approve, d.now);
    if decided.Ok? {
      if d.approve {
        ResumeKeepsInv(w', d, decided.value);
      } else if decided.value.snapshot.langGraph && d.allowed.Some? {
        var run := RejectedRun(d, decided.value.snapshot);
        RejectedRunExecutesNothing(d, decided.value.snapshot);
        AfterRunKeepsInv(w', d.gate, run, true, d.newId, d.newExpiry, None);
        AfterRunKeepsRecords(w', d.gate, run, true, d.newId, d.newExpiry);
      }
    } else {
      AlreadyProcessed(w.records, d.id, d.approve, d.now);
      if d.approve && decided.error == ALREADY_PROCESSED && w.records[d.id].status == Approved && w.records[d.id].result.None? {
        ResumeKeepsInv(w', d, w.records[d.id]);
      }
    }
  }

  /** A created record can be decided once, before it expires; what is decided is the recorded call,
      and whatever the first decision came to, a second one is refused and changes nothing. */
  lemma DecidedOnce(records: map<string, Record>, id: string, snapshot: Snapshot, expiresAt: int,
                    approve: bool, now: int, approve': bool, now': int)
    ensures var created := records[id := Record(Waiting, snapshot, expiresAt, None)];
            var (first, once) := StoreDecide(created, id, approve, now);
            && (first.Ok? <==> now < expiresAt)
            && (first.Ok? ==> first.value.snapshot == snapshot && first.value.status == if approve then Approved else Rejected)
            && StoreDecide(once, id, approve', now') == (Raise(ALREADY_PROCESSED), once)
  {
  }

  lemma AlreadyProcessed(records: map<string, Record>, id: string, approve: bool, now: int)
    ensures var (decided, records') := StoreDecide(records, id, approve, now);
            decided == Raise(ALREADY_PROCESSED) <==> id in records && records[id].status != Waiting
    ensures StoreDecide(records, id, approve, now).0 == Raise(ALREADY_PROCESSED) ==> StoreDecide(records, id, approve, now).1 == records
  {
  }

  // ---------- Histories ----------

  lemma KeepsTransitive(a: map<string, Record>, b: map<string, Record>, c: map<string, Record>)
    requires Keeps(a, b) && Keeps(b, c)
    ensures Keeps(a, c)
  {
  }

  lemma ApplyKeeps(w: World, op: Op)
    requires Inv(w, None) && Admissible(w, op)
    ensures Inv(Apply(w, op), None)
    ensures Keeps(w.records, Apply(w, op).records)
  {
    hide Inv, AfterRun, Gated, Executions, DecideApproval, Keeps;
    match op
    case StartFlow(env, gate, id, expiry) =>
      var run := RunPlanner(env, [], 0);
      FlowIsGated(env, gate, id, 0, LoadContext, Fresh([], 0), MaxSteps(env.maxIterations));
      AfterRunKeepsInv(w, gate, run, false, id, expiry, None);
      AfterRunKeepsRecords(w, gate, run, false, id, expiry);
    case StartGraph(e, gate, id, expiry, limit) =>
      var run := RunGraph(e, [], 0, limit);
      GraphIsGated(e, gate, id, 0, LoadContext, Persisted(Fresh([], 0)), limit);
      AfterRunKeepsInv(w, gate, run, true, id, expiry, None);
      AfterRunKeepsRecords(w, gate, run, true, id, expiry);
    case DecideOp(d) => DecideKeeps(w, d);
  }

  /** Approval safety, over every history: each execution was of a call that needs no approval, or
      of the recorded call of a granted approval whose tool was still allowed; and an approval was
      executed once more than its resumes failed if a result is recorded, as often as they failed
      otherwise. */
  lemma {:induction false} HistorySafe(w: World, ops: seq<Op>)
    requires Inv(w, None) && Legal(w, ops)
    ensures Inv(Play(w, ops), None)
    ensures Keeps(w.records, Play(w, ops).records)
    decreases |ops|
  {
    hide Inv, Apply, Admissible, Keeps;
    if ops == [] {
      KeepsReflexive(w.records);
    } else {
      ApplyKeeps(w, ops[0]);
      HistorySafe(Apply(w, ops[0]), ops[1..]);
      KeepsTransitive(w.records, Apply(w, ops[0]).records, Play(w, ops).records);
    }
  }

  lemma KeepsReflexive(records: map<string, Record>)
    ensures Keeps(records, records)
  {
  }

  // ---------- From the empty world ----------

  const EMPTY := World(map[], [])

  /** Approval safety from the first run on, without any hypothesis on the state. */
  lemma SafeFromTheStart(ops: seq<Op>)
    requires Legal(EMPTY, ops)
    ensures Inv(Play(EMPTY, ops), None)
    ensures forall e | e in Play(EMPTY, ops).log :: Justified(e, Play(EMPTY, ops).records)
    ensures forall e | e in Play(EMPTY, ops).log && e.Ran? && e.policy.Some? ::
              !e.policy.value.requiresApproval && e.policy.value.sideEffectLevel !in {"internal_write", "external_write", "destructive"}
  {
    assert Inv(EMPTY, None);
    HistorySafe(EMPTY, ops);
    LevelsApart();
  }

  /** A rejected approval is never executed, whatever happens before or after. */
  lemma RejectedNeverExecutes(before: seq<Op>, more: seq<Op>, id: string)
    requires Legal(EMPTY, before) && Legal(Play(EMPTY, before), more)
    requires id in Play(EMPTY, before).records && Play(EMPTY, before).records[id].status == Rejected
    ensures forall e | e in Play(Play(EMPTY, before), more).log :: !(e.RanApproved? && e.id == id)
  {
    hide Play, Legal;
    SafeFromTheStart(before);
    HistorySafe(Play(EMPTY, before), more);
    var after := Play(Play(EMPTY, before), more);
    forall e | e in after.log ensures !(e.RanApproved? && e.id == id) {
      assert Justified(e, after.records);
    }
  }

  /** Replay: once a result is recorded, every later approval, after any history, returns that
      result, executes nothing and changes nothing; a later rejection is refused. */
  lemma RecordedResultIsReplayed(before: seq<Op>, more: seq<Op>, d: Decide)
    requires Legal(EMPTY, before) && Legal(Play(EMPTY, before), more)
    requires d.id in Play(EMPTY, before).records && Play(EMPTY, before).records[d.id].status == Executed
    ensures var recorded, after := Play(EMPTY, before).records[d.id].result, Play(Play(EMPTY, before), more);
            && recorded.Some?
            && DecideApproval(after, d) == (if d.approve then Ok(recorded.value) else Raise(ALREADY_PROCESSED), after)
  {
    hide Play, Legal, ResumeApproved, RejectedRun, AfterRun;
    SafeFromTheStart(before);
    HistorySafe(Play(EMPTY, before), more);
    var w, after := Play(EMPTY, before), Play(Play(EMPTY, before), more);
    assert after.records[d.id] == w.records[d.id];
    assert after.(records := after.records) == after;
  }

  /** Only a failure before recording lets an approved call be executed again. */
  lemma SecondExecutionNeedsFailure(ops: seq<Op>, id: string)
    requires Legal(EMPTY, ops)
    ensures var after := Play(EMPTY, ops);
            ExecutionsOf(after.log, id) == AbortsOf(after.log, id)
                                           + if id in after.records && after.records[id].status == Executed then 1 else 0
  {
    hide Play, Legal;
    SafeFromTheStart(ops);
    assert Accounted(Play(EMPTY, ops), id, None);
  }
}
