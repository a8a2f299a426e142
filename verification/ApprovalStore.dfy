/** The approval store and the decision procedure, changing their records step by step. */
module ApprovalStore {
  import opened Json
  import opened Planner
  import opened LangGraph
  import opened Approvals

  /** A call whose tool is in the runtime context and asks for approval, or writes or destroys. */
  predicate Held(gate: Gate, call: ToolCall) {
    call.toolName in gate
    && (gate[call.toolName].requiresApproval
        || (gate[call.toolName].sideEffectLevel in LEVELS
            && gate[call.toolName].sideEffectLevel != "none" && gate[call.toolName].sideEffectLevel != "external_read"))
  }

  lemma HeldExactly(gate: Gate, calls: seq<ToolCall>)
    ensures forall k | 0 <= k < |calls| :: Held(gate, calls[k]) <==> NeedsApproval(gate, calls[k].toolName)
  {
    forall k | 0 <= k < |calls| ensures Held(gate, calls[k]) <==> NeedsApproval(gate, calls[k].toolName) {
      GateExactly(gate, calls[k].toolName);
    }
  }

  /** A pending result: it waits, under this approval, with the call as its one observation. */
  predicate AsksFor(pending: Context, id: string, call: ToolCall) {
    && Get(Obj(pending), "status") == Str("pending_approval")
    && Get(Obj(pending), "answer") == Str("该操作需要审批后继续执行。")
    && Get(Obj(pending), "execution_mode") == Str("approval_required")
    && Get(Obj(pending), "approval_requests").Arr? && |Get(Obj(pending), "approval_requests").items| == 1
    && Get(Get(Obj(pending), "approval_requests").items[0], "approval_id") == Str(id)
    && Get(Obj(pending), "results").Arr? && |Get(Obj(pending), "results").items| == 1
    && var o := Get(Obj(pending), "results").items[0];
       Get(o, "status") == Str("pending_approval") && Get(o, "approval_id") == Str(id)
       && Get(o, "call_id") == Str(call.callId) && Get(o, "tool_name") == Str(call.toolName) && Get(o, "args") == call.toolArgs
  }

  lemma AsksForCall(id: string, call: ToolCall)
    ensures AsksFor(PendingExec(id, call), id, call)
  {
    assert |"status"| == 6 && |"answer"| == 6 && "status"[0] == 's' && "answer"[0] == 'a';
  }

  class Store {
    var records: map<string, Record>
    /** What has been executed under this store. */
    var log: seq<Event>

    constructor ()
      ensures ToWorld() == World(map[], [])
    {
      records, log := map[], [];
    }

    function ToWorld(): World
      reads this
    {
      World(records, log)
    }

    method CreatePending(id: string, snapshot: Snapshot, expiresAt: int)
      modifies this`records
      ensures records == old(records)[id := Record(Waiting, snapshot, expiresAt, None)]
    {
      records := records[id := Record(Waiting, snapshot, expiresAt, None)];
    }

    /** One decision while the record waits; a late one marks the record expired. */
    method Decide(id: string, approve: bool, now: int) returns (decided: Outcome<Record>)
      modifies this`records
      ensures (decided, records) == StoreDecide(old(records), id, approve, now)
      ensures decided.Ok? <==> id in old(records) && old(records)[id].status == Waiting && now < old(records)[id].expiresAt
      ensures decided.Ok? ==>
                && decided.value == old(records)[id].(status := if approve then Approved else Rejected)
                && records == old(records)[id := decided.value]
      ensures decided.Raise? ==>
                records == if id in old(records) && old(records)[id].status == Waiting then old(records)[id := old(records)[id].(status := Expired)] else old(records)
    {
      if id !in records { return Raise(NOT_FOUND); }
      var record := records[id];
      if record.status != Waiting { return Raise(ALREADY_PROCESSED); }
      if now >= record.expiresAt {
        records := records[id := record.(status := Expired)];
        return Raise(EXPIRED);
      }
      record := record.(status := if approve then Approved else Rejected);
      records := records[id := record];
      return Ok(record);
    }

    method MarkExecuted(id: string, result: State)
      modifies this`records
      ensures ToWorld() == Approvals.MarkExecuted(old(ToWorld()), id, result)
    {
      if id in records {
        records := records[id := records[id].(status := Executed, result := Some(result))];
      }
    }

    /** `pending_result`: the first call of the batch that needs approval is recorded and answered
        with a pending result; later calls of the batch are not looked at. */
    method PendingResult(gate: Gate, calls: seq<ToolCall>, s: State, langGraph: bool, id: string, expiresAt: int)
      returns (pending: Option<Context>)
      modifies this`records
      ensures pending == match FirstGated(gate, calls) case None => None case Some(call) => Some(PendingExec(id, call))
      ensures records == match FirstGated(gate, calls)
                         case None => old(records)
                         case Some(call) => old(records)[id := Record(Waiting, SnapshotOf((call, s), langGraph), expiresAt, None)]
      ensures pending.Some? <==> exists k :: 0 <= k < |calls| && Held(gate, calls[k])
      ensures pending.None? ==> records == old(records)
      ensures pending.Some? ==>
                exists k :: 0 <= k < |calls| && Held(gate, calls[k]) && (forall j | 0 <= j < k :: !Held(gate, calls[j]))
                            && records == old(records)[id := Record(Waiting, Snapshot(calls[k], s.toolObservations, s.loopCount, langGraph), expiresAt, None)]
                            && AsksFor(pending.value, id, calls[k])
    {
      HeldExactly(gate, calls);
      var i := 0;
      while i < |calls|
        invariant 0 <= i <= |calls|
        invariant FirstGated(gate, calls) == FirstGated(gate, calls[i..])
        invariant forall j | 0 <= j < i :: !Held(gate, calls[j])
        invariant records == old(records)
      {
        if NeedsApproval(gate, calls[i].toolName) {
          AsksForCall(id, calls[i]);
          CreatePending(id, SnapshotOf((calls[i], s), langGraph), expiresAt);
          return Some(PendingExec(id, calls[i]));
        }
        assert calls[i..][1..] == calls[i + 1..];
        i := i + 1;
      }
      return None;
    }

    /** What a run leaves behind: its executions, and the approval it asked for. */
    method Absorb(gate: Gate, run: Run, langGraph: bool, newId: string, expiresAt: int)
      modifies this
      ensures ToWorld() == AfterRun(old(ToWorld()), gate, run, langGraph, newId, expiresAt)
    {
      log := log + Executions(gate, run);
      var asked := Asked(gate, run.visits);
      if asked != [] {
        CreatePending(newId, SnapshotOf(asked[0], langGraph), expiresAt);
      }
    }

    /** `resume_approved_approval`. */
    method Resume(d: Decide, record: Record) returns (answer: Outcome<State>)
      modifies this
      ensures (answer, ToWorld()) == ResumeApproved(old(ToWorld()), d, record)
    {
      var call := record.snapshot.call;
      if d.allowed.None? { return Raise("runtime context unavailable"); }
      if call.toolName !in d.allowed.value { return Raise(NO_LONGER_ALLOWED); }
      log := log + [RanApproved(d.id, call, d.allowed.value)];
      if d.results.Raise? {
        log := log + [Aborted(d.id)];
        return Raise(d.results.error);
      }
      var run := ResumedRun(d, record.snapshot, d.results.value);
      Absorb(d.gate, run, record.snapshot.langGraph, d.newId, d.newExpiry);
      if Failure(run.end).Some? {
        log := log + [Aborted(d.id)];
        return Raise(Failure(run.end).value);
      }
      MarkExecuted(d.id, d.jsonSafe(run.final));
      return Ok(run.final);
    }

    /** `decide_approval`: a second approval replays a recorded result, or resumes an approval
        whose resume never got as far as recording one. */
    method DecideApproval(d: Decide) returns (answer: Outcome<State>)
      modifies this
      ensures (answer, ToWorld()) == Approvals.DecideApproval(old(ToWorld()), d)
    {
      var decided := Decide(d.id, d.approve, d.now);
      var record: Record;
      if decided.Raise? {
        if !d.approve || decided.error != ALREADY_PROCESSED { return Raise(decided.error); }
        var existing := records[d.id];
        if existing.status == Approved && existing.result.None? {
          record := existing;
        } else if existing.status == Executed && existing.result.Some? {
          return Ok(existing.result.value);
        } else {
          return Raise(decided.error);
        }
      } else {
        record := decided.value;
      }
      if d.approve {
        answer := Resume(d, record);
        return;
      }
      if record.snapshot.langGraph && d.allowed.Some? {
        var run := RejectedRun(d, record.snapshot);
        Absorb(d.gate, run, true, d.newId, d.newExpiry);
        return if Failure(run.end).Some? then Raise(Failure(run.end).value) else Ok(run.final);
      }
      return Ok(RejectedState(record.snapshot.call, d.id));
    }
  }
}
