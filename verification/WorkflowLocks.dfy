/** Publishes and retires as the database runs them: statement by statement, with an advisory lock,
    row locks held to the end, and writes that only their own transaction sees before it commits.
    Every commit has the effect of one atomic publish or retire, and no state is a deadlock. */
module WorkflowLocks {
  import opened Json
  import opened Planner
  import opened Workflow

  datatype Lock = Advisory(slot: int) | VersionRow(key: Key) | ToolRow(id: string)

  /** How far a transaction has come. A publish: Begun, (advisory lock) Serialized, (own row) Looked,
      (others retired) Cleared, (own row written) Settled, (catalogue written) Projected. A retire:
      Begun, (own row) Looked, (own row written) Settled, (catalogue written) Projected. */
  datatype Phase = Begun | Serialized | Looked | Cleared | Settled | Projected

  datatype Tx = Tx(call: Call, phase: Phase, seen: Option<Version>, versions: map<Key, Version>, tools: map<string, Tool>, locks: set<Lock>)

  datatype System = System(db: Db, txs: map<nat, Tx>)

  function KeyOf(call: Call): Key {
    match call
    case Publish(tool, _, _) => (tool.id, tool.version)
    case Retire(workflow, version, _, _) => (workflow, version)
  }

  // ---------- Statements ----------

  /** The rows that are there: only those can be locked. */
  function RowLock(db: Db, k: Key): set<Lock> {
    if k in db.versions then {VersionRow(k)} else {}
  }

  /** The other active versions of a workflow, as an `UPDATE … WHERE` finds them. */
  function Others(db: Db, k: Key): set<Key> {
    set k' | k' in db.versions && k'.0 == k.0 && k'.1 != k.1 && db.versions[k'].life == Active
  }

  function OtherLocks(db: Db, k: Key): set<Lock> {
    set k' | k' in Others(db, k) :: VersionRow(k')
  }

  /** Locks the next statement needs on top of those held; `slot` is the advisory lock's hash. */
  function Wanted(db: Db, tx: Tx, slot: string -> int): set<Lock> {
    var k := KeyOf(tx.call);
    match tx.phase
    case Begun => if tx.call.Publish? then {Advisory(slot(k.0))} else RowLock(db, k)
    case Serialized => RowLock(db, k)
    case Looked => if tx.call.Publish? then OtherLocks(db, k) else {}
    case Cleared => {VersionRow(k)}
    case Settled => if tx.call.Publish? || Disables(db, tx) then {ToolRow(k.0)} else {}
    case Projected => {}
  }

  predicate Disables(db: Db, tx: Tx) {
    tx.call.Retire? && tx.seen.Some? && tx.seen.value.life == Active && Projects(db.tools, tx.call.workflow, tx.call.version)
  }

  /** The transaction's next statement, once its locks are free. A refused publish and a retire of a
      version that is not there have nothing more to do than end. */
  function Statement(db: Db, tx: Tx): Tx {
    var k := KeyOf(tx.call);
    match tx.call
    case Publish(tool, actor, now) =>
      (match tx.phase
       case Begun => tx.(phase := Serialized)
       case Serialized => tx.(phase := Looked, seen := Lookup(db.versions, k))
       case Looked => tx.(phase := Cleared, versions := Displaced(db.versions, k.0, k.1, actor, now))
       case Cleared => tx.(phase := Settled, versions := tx.versions[k := Placed(tx.seen, tool, actor, now)])
       case Settled => tx.(phase := Projected, tools := map[k.0 := tool])
       case Projected => tx)
    case Retire(_, _, actor, now) =>
      (match tx.phase
       case Begun => tx.(phase := Looked, seen := Lookup(db.versions, k))
       case Looked => tx.(phase := Settled, versions := if tx.seen.Some? then map[k := RetiredAgain(tx.seen.value, actor, now)] else map[])
       case Settled => tx.(phase := Projected, tools := if Disables(db, tx) then map[k.0 := db.tools[k.0].(status := "disabled")] else map[])
       case _ => tx)
  }

  /** Nothing more to do: the statements are through, the publish was refused, or the version to
      retire was not there. */
  predicate Finished(tx: Tx) {
    tx.phase == Projected || (tx.phase == Looked && (RefusedSeen(tx) || (tx.call.Retire? && tx.seen.None?)))
  }

  predicate RefusedSeen(tx: Tx) {
    tx.call.Publish? && tx.seen.Some? && tx.seen.value.manifest.hash != tx.call.tool.hash
  }

  predicate Free(sys: System, i: nat, locks: set<Lock>) {
    forall j | j in sys.txs && j != i :: sys.txs[j].locks !! locks
  }

  predicate CanRun(sys: System, i: nat, slot: string -> int) {
    i in sys.txs && !Finished(sys.txs[i]) && Free(sys, i, Wanted(sys.db, sys.txs[i], slot))
  }

  datatype Move = Begin(i: nat, call: Call) | Run(i: nat) | Commit(i: nat) | Abort(i: nat)

  predicate Enabled(sys: System, move: Move, slot: string -> int) {
    match move
    case Begin(i, call) => i !in sys.txs && (call.Publish? ==> call.tool.source == "workflow")
    case Run(i) => CanRun(sys, i, slot)
    case Commit(i) => i in sys.txs && Finished(sys.txs[i])
    case Abort(i) => i in sys.txs
  }

  function Moved(sys: System, move: Move, slot: string -> int): System
    requires Enabled(sys, move, slot)
  {
    match move
    case Begin(i, call) => sys.(txs := sys.txs[i := Tx(call, Begun, None, map[], map[], {})])
    case Run(i) =>
      var tx := sys.txs[i];
      sys.(txs := sys.txs[i := Statement(sys.db, tx).(locks := tx.locks + Wanted(sys.db, tx, slot))])
    case Commit(i) =>
      var tx := sys.txs[i];
      System(Db(sys.db.versions + tx.versions, sys.db.tools + tx.tools), sys.txs - {i})
    case Abort(i) => sys.(txs := sys.txs - {i})
  }

  predicate Legal(sys: System, moves: seq<Move>, slot: string -> int)
    decreases |moves|
  {
    moves != [] ==> Enabled(sys, moves[0], slot) && Legal(Moved(sys, moves[0], slot), moves[1..], slot)
  }

  function PlayMoves(sys: System, moves: seq<Move>, slot: string -> int): System
    requires Legal(sys, moves, slot)
    decreases |moves|
  {
    if moves == [] then sys else PlayMoves(Moved(sys, moves[0], slot), moves[1..], slot)
  }

  // ---------- What a transaction knows ----------

  predicate Past(tx: Tx, phase: Phase) {
    Rank(tx.phase) >= Rank(phase)
  }

  function Rank(phase: Phase): nat {
    match phase case Begun => 0 case Serialized => 1 case Looked => 2 case Cleared => 3 case Settled => 4 case Projected => 5
  }

  /** What is still true of the committed tables, phase by phase, because of the locks held. */
  ghost predicate KnowsPublish(db: Db, tx: Tx, slot: string -> int)
    requires tx.call.Publish?
  {
    var k, tool, actor, now := KeyOf(tx.call), tx.call.tool, tx.call.actor, tx.call.now;
    && tool.source == "workflow"
    && (Past(tx, Serialized) ==> Advisory(slot(k.0)) in tx.locks)
    && (Past(tx, Looked) ==> tx.seen == Lookup(db.versions, k) && RowLock(db, k) <= tx.locks)
    && (Past(tx, Cleared) ==> !RefusedSeen(tx) && OtherLocks(db, k) <= tx.locks)
    && (Past(tx, Settled) ==> VersionRow(k) in tx.locks)
    && (Past(tx, Projected) ==> ToolRow(k.0) in tx.locks)
    && tx.versions == (if Past(tx, Settled) then Displaced(db.versions, k.0, k.1, actor, now)[k := Placed(tx.seen, tool, actor, now)]
                       else if Past(tx, Cleared) then Displaced(db.versions, k.0, k.1, actor, now) else map[])
    && tx.tools == (if Past(tx, Projected) then map[k.0 := tool] else map[])
  }

  ghost predicate KnowsRetire(db: Db, tx: Tx)
    requires tx.call.Retire?
  {
    var k, actor, now := KeyOf(tx.call), tx.call.actor, tx.call.now;
    && tx.phase !in {Serialized, Cleared}
    && (Past(tx, Looked) ==> RetireSaw(db, tx, k))
    && tx.versions == (if Past(tx, Settled) && tx.seen.Some? then map[k := RetiredAgain(tx.seen.value, actor, now)] else map[])
    && (Past(tx, Projected) && Disables(db, tx) ==> ToolRow(k.0) in tx.locks)
    && tx.tools == (if Past(tx, Projected) && Disables(db, tx) then map[k.0 := db.tools[k.0].(status := "disabled")] else map[])
  }

  /** A retire that found no row holds no lock: the row may be inserted behind its back. */
  predicate RetireSaw(db: Db, tx: Tx, k: Key) {
    tx.seen.Some? ==> tx.seen == Lookup(db.versions, k) && VersionRow(k) in tx.locks
  }

  ghost predicate Knows(db: Db, tx: Tx, slot: string -> int) {
    if tx.call.Publish? then KnowsPublish(db, tx, slot) else KnowsRetire(db, tx)
  }

  ghost predicate Inv(sys: System, slot: string -> int) {
    && (forall i | i in sys.txs :: Knows(sys.db, sys.txs[i], slot))
    && (forall i, j | i in sys.txs && j in sys.txs && i != j :: sys.txs[i].locks !! sys.txs[j].locks)
  }

  // ---------- What a commit changes ----------

  function Committed(db: Db, tx: Tx): Db {
    Db(db.versions + tx.versions, db.tools + tx.tools)
  }

  /** A commit only touches rows it holds, activates only its own version, and only its own version
      comes to be projected. */
  ghost predicate ChangesOnly(db: Db, db': Db, tx: Tx, slot: string -> int) {
    && (forall k | VersionRow(k) !in tx.locks :: Lookup(db'.versions, k) == Lookup(db.versions, k))
    && (forall k | k in db'.versions && (k !in db.versions || (IsActive(db', k) && !IsActive(db, k))) :: Advisory(slot(k.0)) in tx.locks)
    && (forall w | ToolRow(w) !in tx.locks :: w in db'.tools <==> w in db.tools)
    && (forall w | ToolRow(w) !in tx.locks && w in db.tools :: db'.tools[w] == db.tools[w])
    && (forall w, v | Projects(db'.tools, w, v) && !Projects(db.tools, w, v) :: VersionRow((w, v)) in tx.locks)
  }

  lemma PublishedRow(db: Db, tx: Tx, slot: string -> int, k': Key)
    requires tx.call.Publish? && KnowsPublish(db, tx, slot) && Finished(tx)
    ensures var k := KeyOf(tx.call);
            var versions := Committed(db, tx).versions;
            && (k' in Others(db, k) ==> k'.0 == k.0)
            && (tx.phase == Projected && k' in Others(db, k) ==> VersionRow(k') in tx.locks && k' in versions && versions[k'].life == Retired)
            && (tx.phase == Projected && k' == k ==> VersionRow(k) in tx.locks)
            && (!(tx.phase == Projected && (k' == k || k' in Others(db, k))) ==> Lookup(versions, k') == Lookup(db.versions, k'))
  {
  }

  lemma PublishChanges(db: Db, tx: Tx, slot: string -> int)
    requires tx.call.Publish? && KnowsPublish(db, tx, slot) && Finished(tx)
    ensures ChangesOnly(db, Committed(db, tx), tx, slot)
  {
    var k := KeyOf(tx.call);
    var db' := Committed(db, tx);
    hide Placed, RetiredRow, Displaced, Others, OtherLocks, RowLock;
    forall k' ensures (VersionRow(k') !in tx.locks ==> Lookup(db'.versions, k') == Lookup(db.versions, k'))
    {
      PublishedRow(db, tx, slot, k');
    }
    forall k' | k' in db'.versions && (k' !in db.versions || (IsActive(db', k') && !IsActive(db, k'))) ensures Advisory(slot(k'.0)) in tx.locks {
      PublishedRow(db, tx, slot, k');
      PublisherIsSerialized(db, tx, slot, k');
    }
    PublishProjects(db, tx, slot);
  }

  lemma PublisherIsSerialized(db: Db, tx: Tx, slot: string -> int, k': Key)
    requires tx.call.Publish? && KnowsPublish(db, tx, slot) && Finished(tx) && k'.0 == KeyOf(tx.call).0
    ensures Advisory(slot(k'.0)) in tx.locks
  {
  }

  lemma PublishProjects(db: Db, tx: Tx, slot: string -> int)
    requires tx.call.Publish? && KnowsPublish(db, tx, slot) && Finished(tx)
    ensures var db' := Committed(db, tx);
            && (forall w | ToolRow(w) !in tx.locks :: w in db'.tools <==> w in db.tools)
            && (forall w | ToolRow(w) !in tx.locks && w in db.tools :: db'.tools[w] == db.tools[w])
            && (forall w, v | Projects(db'.tools, w, v) && !Projects(db.tools, w, v) :: VersionRow((w, v)) in tx.locks)
  {
    hide Placed, RetiredRow, Displaced, OtherLocks, RowLock;
  }

  lemma RetireChanges(db: Db, tx: Tx, slot: string -> int)
    requires tx.call.Retire? && KnowsRetire(db, tx) && Finished(tx)
    ensures ChangesOnly(db, Committed(db, tx), tx, slot)
  {
  }

  // ---------- Commits are atomic ----------

  /** At its commit a transaction has exactly the effect its call has as one atomic step. */
  lemma CommitIsAtomic(db: Db, tx: Tx, slot: string -> int)
    requires Knows(db, tx, slot) && Finished(tx)
    ensures Committed(db, tx) == if tx.call.Retire? && tx.seen.None? then db else After(db, tx.call)
  {
    hide KnowsPublish, KnowsRetire, Finished, After, Committed;
    if tx.call.Publish? { PublishIsAtomic(db, tx, slot); } else { RetireIsAtomic(db, tx); }
  }

  lemma PublishIsAtomic(db: Db, tx: Tx, slot: string -> int)
    requires tx.call.Publish? && KnowsPublish(db, tx, slot) && Finished(tx)
    ensures Committed(db, tx) == After(db, tx.call)
  {
    hide Placed, RetiredRow, RowLock, OtherLocks, Displaced;
    var k := KeyOf(tx.call);
    if tx.phase == Projected {
      var d := Displaced(db.versions, k.0, k.1, tx.call.actor, tx.call.now);
      var row := Placed(tx.seen, tx.call.tool, tx.call.actor, tx.call.now);
      assert (db.versions + d)[k := row] == db.versions + d[k := row];
      assert db.tools + map[k.0 := tx.call.tool] == db.tools[k.0 := tx.call.tool];
    } else {
      assert db.versions + map[] == db.versions && db.tools + map[] == db.tools;
    }
  }

  lemma RetireIsAtomic(db: Db, tx: Tx)
    requires tx.call.Retire? && KnowsRetire(db, tx) && Finished(tx)
    ensures Committed(db, tx) == if tx.seen.None? then db else After(db, tx.call)
  {
    hide RetiredAgain;
    var k := KeyOf(tx.call);
    assert db.versions + map[] == db.versions && db.tools + map[] == db.tools;
    if tx.seen.Some? {
      var row := RetiredAgain(tx.seen.value, tx.call.actor, tx.call.now);
      assert db.versions + map[k := row] == db.versions[k := row];
      if Disables(db, tx) {
        var tool := db.tools[k.0].(status := "disabled");
        assert db.tools + map[k.0 := tool] == db.tools[k.0 := tool];
      }
    }
  }

  /** A retire that finds no row would have changed nothing at the moment it looked. */
  lemma NotFoundIsAtomic(db: Db, tx: Tx)
    requires tx.call.Retire? && tx.phase == Begun && Statement(db, tx).seen.None?
    ensures After(db, tx.call) == db
  {
  }

  // ---------- The unique index ----------

  /** The table as a transaction sees it between its statements never holds two active versions of
      a workflow, so the unique index on them rejects none of its statements. */
  lemma IndexNeverRejects(db: Db, tx: Tx, slot: string -> int)
    requires Knows(db, tx, slot) && OneActive(db)
    ensures OneActive(Committed(db, tx))
  {
    var seen := Committed(db, tx);
    forall k | IsActive(seen, k) ensures ActiveFrom(db, tx, k) { ActiveComesFrom(db, tx, slot, k); }
    hide Committed, Knows;
    forall k, k' | IsActive(seen, k) && IsActive(seen, k') && k.0 == k'.0 ensures k == k' {
      assert ActiveFrom(db, tx, k) && ActiveFrom(db, tx, k');
    }
  }

  /** Where an active version comes from: it was active before, or is the one being published once
      the others have been retired. */
  predicate ActiveFrom(db: Db, tx: Tx, k: Key) {
    if tx.call.Publish? && Past(tx, Settled) then k == KeyOf(tx.call) || (IsActive(db, k) && k.0 != KeyOf(tx.call).0)
    else IsActive(db, k)
  }

  lemma ActiveComesFrom(db: Db, tx: Tx, slot: string -> int, k: Key)
    requires Knows(db, tx, slot) && IsActive(Committed(db, tx), k)
    ensures ActiveFrom(db, tx, k)
  {
    hide Placed, OtherLocks, RowLock;
  }

  // ---------- What others know survives a commit ----------

  lemma OthersStay(db: Db, db': Db, tx: Tx, other: Tx, k: Key, slot: string -> int)
    requires ChangesOnly(db, db', tx, slot) && tx.locks !! other.locks
    requires Advisory(slot(k.0)) in other.locks && OtherLocks(db, k) <= other.locks
    ensures Others(db', k) == Others(db, k)
    ensures forall k' | k' in Others(db, k) :: db'.versions[k'] == db.versions[k']
  {
    forall k' ensures k' in Others(db, k) ==> k' in Others(db', k) && db'.versions[k'] == db.versions[k'] {
      if k' in Others(db, k) {
        assert VersionRow(k') in OtherLocks(db, k);
        assert Lookup(db'.versions, k') == Lookup(db.versions, k');
      }
    }
    forall k' | k' in Others(db', k) ensures k' in Others(db, k) {
      assert IsActive(db', k') && Advisory(slot(k'.0)) !in tx.locks;
    }
  }

  lemma PublishKnowsOn(db: Db, db': Db, tx: Tx, other: Tx, slot: string -> int)
    requires ChangesOnly(db, db', tx, slot) && tx.locks !! other.locks
    requires other.call.Publish? && KnowsPublish(db, other, slot)
    ensures KnowsPublish(db', other, slot)
  {
    var k := KeyOf(other.call);
    if Past(other, Looked) {
      assert Lookup(db'.versions, k) == Lookup(db.versions, k) by {
        if k in db.versions { assert VersionRow(k) in RowLock(db, k); }
      }
    }
    if Past(other, Cleared) {
      OthersStay(db, db', tx, other, k, slot);
      var actor, now := other.call.actor, other.call.now;
      DisplacedByOthers(db, db', k, actor, now);
    }
  }

  lemma DisplacedByOthers(db: Db, db': Db, k: Key, actor: string, now: int)
    requires Others(db', k) == Others(db, k) && forall k' | k' in Others(db, k) :: db'.versions[k'] == db.versions[k']
    ensures Displaced(db'.versions, k.0, k.1, actor, now) == Displaced(db.versions, k.0, k.1, actor, now)
  {
  }

  lemma RetireKnowsOn(db: Db, db': Db, tx: Tx, other: Tx, slot: string -> int)
    requires ChangesOnly(db, db', tx, slot) && tx.locks !! other.locks
    requires other.call.Retire? && KnowsRetire(db, other)
    ensures KnowsRetire(db', other)
  {
  }

  lemma KnowsOn(db: Db, tx: Tx, other: Tx, slot: string -> int)
    requires Knows(db, tx, slot) && Finished(tx) && Knows(db, other, slot) && tx.locks !! other.locks
    ensures Knows(Committed(db, tx), other, slot)
  {
    hide KnowsPublish, KnowsRetire, ChangesOnly, Committed, Finished;
    if tx.call.Publish? { PublishChanges(db, tx, slot); } else { RetireChanges(db, tx, slot); }
    var db' := Committed(db, tx);
    if other.call.Publish? { PublishKnowsOn(db, db', tx, other, slot); } else { RetireKnowsOn(db, db', tx, other, slot); }
  }

  // ---------- Every move keeps the invariant ----------

  lemma StatementKnows(db: Db, tx: Tx, slot: string -> int)
    requires Knows(db, tx, slot) && !Finished(tx)
    ensures Knows(db, Statement(db, tx).(locks := tx.locks + Wanted(db, tx, slot)), slot)
  {
    hide KnowsPublish, KnowsRetire, Statement, Wanted, Finished;
    KeepsCall(db, tx);
    if tx.call.Publish? { PublishStatementKnows(db, tx, slot); } else { RetireStatementKnows(db, tx, slot); }
  }

  lemma KeepsCall(db: Db, tx: Tx)
    ensures Statement(db, tx).call == tx.call
  {
  }

  lemma PublishStatementKnows(db: Db, tx: Tx, slot: string -> int)
    requires tx.call.Publish? && KnowsPublish(db, tx, slot) && !Finished(tx)
    ensures Statement(db, tx).call == tx.call && KnowsPublish(db, Statement(db, tx).(locks := tx.locks + Wanted(db, tx, slot)), slot)
  {
    hide Placed, RetiredRow, Displaced, Projects, Disables, Lookup, OtherLocks, RowLock;
  }

  lemma RetireStatementKnows(db: Db, tx: Tx, slot: string -> int)
    requires tx.call.Retire? && KnowsRetire(db, tx) && !Finished(tx)
    ensures Statement(db, tx).call == tx.call && KnowsRetire(db, Statement(db, tx).(locks := tx.locks + Wanted(db, tx, slot)))
  {
    hide RetiredAgain, Projects, OtherLocks;
  }

  lemma MoveKeepsInv(sys: System, move: Move, slot: string -> int)
    requires Inv(sys, slot) && Enabled(sys, move, slot)
    ensures Inv(Moved(sys, move, slot), slot)
    ensures Moved(sys, move, slot).db ==
            if move.Commit? && !FoundNothing(sys.txs[move.i]) then After(sys.db, sys.txs[move.i].call) else sys.db
  {
    hide Knows, Statement, Wanted, Finished, After;
    var sys' := Moved(sys, move, slot);
    match move
    case Begin(i, call) => BeginKnows(sys.db, call, slot);
    case Run(i) => StatementKnows(sys.db, sys.txs[i], slot);
    case Commit(i) =>
      CommitIsAtomic(sys.db, sys.txs[i], slot);
      assert sys'.db == Committed(sys.db, sys.txs[i]);
      forall j | j in sys'.txs ensures Knows(sys'.db, sys'.txs[j], slot) {
        KnowsOn(sys.db, sys.txs[i], sys.txs[j], slot);
      }
    case Abort(i) =>
  }

  lemma BeginKnows(db: Db, call: Call, slot: string -> int)
    requires call.Publish? ==> call.tool.source == "workflow"
    ensures Knows(db, Tx(call, Begun, None, map[], map[], {}), slot)
  {
  }

  // ---------- Serialisability ----------

  /** The calls of the transactions that commit, in commit order. A retire that found no row takes
      its place where it looked, and changes nothing there. */
  function CommittedCalls(sys: System, moves: seq<Move>, slot: string -> int): seq<Call>
    requires Legal(sys, moves, slot)
    decreases |moves|
  {
    if moves == [] then []
    else
      var rest := CommittedCalls(Moved(sys, moves[0], slot), moves[1..], slot);
      if moves[0].Commit? && !FoundNothing(sys.txs[moves[0].i]) then [sys.txs[moves[0].i].call] + rest else rest
  }

  predicate FoundNothing(tx: Tx) {
    tx.call.Retire? && tx.seen.None?
  }

  /** Every interleaving of statements, commits and aborts leaves the tables exactly as the committed
      calls do, run one after the other as atomic steps in commit order. */
  lemma {:induction false} Serialisable(sys: System, moves: seq<Move>, slot: string -> int)
    requires Inv(sys, slot) && Legal(sys, moves, slot)
    ensures Inv(PlayMoves(sys, moves, slot), slot)
    ensures PlayMoves(sys, moves, slot).db == Play(sys.db, CommittedCalls(sys, moves, slot))
    decreases |moves|
  {
    hide Inv, Moved, Enabled, After;
    if moves != [] {
      MoveKeepsInv(sys, moves[0], slot);
      var next := Moved(sys, moves[0], slot);
      Serialisable(next, moves[1..], slot);
      var calls := CommittedCalls(sys, moves, slot);
      CommitInRange(sys, moves[0], slot);
      if moves[0].Commit? && !FoundNothing(sys.txs[moves[0].i]) {
        assert calls[1..] == CommittedCalls(next, moves[1..], slot);
      }
    }
  }

  lemma CommitInRange(sys: System, move: Move, slot: string -> int)
    requires Enabled(sys, move, slot)
    ensures move.Commit? ==> move.i in sys.txs
  {
  }

  /** Workflow lifecycle at statement level: whatever publishes and retires interleave, the committed
      tables are always sound. */
  lemma InterleavingsAreSound(moves: seq<Move>, slot: string -> int)
    requires Legal(System(EMPTY, map[]), moves, slot)
    ensures Sound(PlayMoves(System(EMPTY, map[]), moves, slot).db)
  {
    Serialisable(System(EMPTY, map[]), moves, slot);
    LifecycleSound(EMPTY, CommittedCalls(System(EMPTY, map[]), moves, slot));
  }

  lemma {:induction false} MovesConcat(sys: System, a: seq<Move>, b: seq<Move>, slot: string -> int)
    requires Legal(sys, a + b, slot)
    ensures Legal(sys, a, slot) && Legal(PlayMoves(sys, a, slot), b, slot)
    ensures PlayMoves(sys, a + b, slot) == PlayMoves(PlayMoves(sys, a, slot), b, slot)
    decreases |a|
  {
    hide Enabled, Moved;
    if a == [] {
      assert [] + b == b;
    } else {
      assert (a + b)[1..] == a[1..] + b && (a + b)[0] == a[0];
      MovesConcat(Moved(sys, a[0], slot), a[1..], b, slot);
    }
  }

  /** Whatever interleaves from any point of an interleaving on, published versions stay, with the
      manifest and the author they were created with. */
  lemma ManifestsNeverChange(a: seq<Move>, b: seq<Move>, slot: string -> int)
    requires Legal(System(EMPTY, map[]), a + b, slot)
    ensures Legal(System(EMPTY, map[]), a, slot)
    ensures Keeps(PlayMoves(System(EMPTY, map[]), a, slot).db, PlayMoves(System(EMPTY, map[]), a + b, slot).db)
  {
    hide PlayMoves, Legal, Keeps, Sound;
    var start := System(EMPTY, map[]);
    MovesConcat(start, a, b, slot);
    Serialisable(start, a, slot);
    InterleavingsAreSound(a, slot);
    var sys := PlayMoves(start, a, slot);
    Serialisable(sys, b, slot);
    LifecycleSound(sys.db, CommittedCalls(sys, b, slot));
  }

  // ---------- Deadlock ----------

  predicate CanMove(sys: System, i: nat, slot: string -> int) {
    i in sys.txs && (Finished(sys.txs[i]) || CanRun(sys, i, slot))
  }

  /** A blocked transaction waits for a lock another one holds. */
  lemma Blocker(sys: System, i: nat, slot: string -> int) returns (j: nat, l: Lock)
    requires i in sys.txs && !CanMove(sys, i, slot)
    ensures j in sys.txs && j != i && l in Wanted(sys.db, sys.txs[i], slot) && l in sys.txs[j].locks
  {
    hide Wanted, Finished;
    var locks := Wanted(sys.db, sys.txs[i], slot);
    j :| j in sys.txs && j != i && !(sys.txs[j].locks !! locks);
    if exists x :: x in sys.txs[j].locks && x in locks {
      l :| l in sys.txs[j].locks && l in locks;
    }
  }

  /** What a lock tells about its holder. */
  ghost predicate HeldFor(tx: Tx, slot: string -> int) {
    && (forall n | Advisory(n) in tx.locks :: tx.call.Publish? && Past(tx, Serialized))
    && (forall k | VersionRow(k) in tx.locks :: k.0 == KeyOf(tx.call).0 && Past(tx, Looked))
    && (forall w | ToolRow(w) in tx.locks :: tx.phase == Projected)
    && (tx.call.Publish? && Past(tx, Serialized) ==> Advisory(slot(KeyOf(tx.call).0)) in tx.locks)
    && (tx.phase in {Serialized, Cleared} ==> tx.call.Publish?)
  }

  ghost predicate AllHeldFor(sys: System, slot: string -> int) {
    && (forall i | i in sys.txs :: HeldFor(sys.txs[i], slot))
    && (forall i, j | i in sys.txs && j in sys.txs && i != j :: sys.txs[i].locks !! sys.txs[j].locks)
  }

  lemma StatementHeldFor(db: Db, tx: Tx, slot: string -> int)
    requires HeldFor(tx, slot) && !Finished(tx)
    ensures HeldFor(Statement(db, tx).(locks := tx.locks + Wanted(db, tx, slot)), slot)
  {
    hide Placed, RetiredRow, RetiredAgain, Displaced, Disables, OtherLocks, RowLock, Lookup;
    RowLocksOnly(db, KeyOf(tx.call));
  }

  lemma RowLocksOnly(db: Db, k: Key)
    ensures forall l | l in RowLock(db, k) :: l == VersionRow(k)
    ensures forall l | l in OtherLocks(db, k) :: l.VersionRow? && l.key.0 == k.0
  {
  }

  lemma {:induction false} LocksAreHeldFor(sys: System, moves: seq<Move>, slot: string -> int)
    requires AllHeldFor(sys, slot) && Legal(sys, moves, slot)
    ensures AllHeldFor(PlayMoves(sys, moves, slot), slot)
    decreases |moves|
  {
    hide HeldFor, Statement, Wanted, Finished;
    if moves != [] {
      match moves[0] {
        case Run(i) => StatementHeldFor(sys.db, sys.txs[i], slot);
        case Begin(_, call) => NoLocksYet(call, slot);
        case _ =>
      }
      LocksAreHeldFor(Moved(sys, moves[0], slot), moves[1..], slot);
    }
  }

  lemma NoLocksYet(call: Call, slot: string -> int)
    ensures HeldFor(Tx(call, Begun, None, map[], map[], {}), slot)
  {
  }

  /** Whoever holds a version's row can move, unless it is a publish waiting for another version of
      the workflow, which only a retire can hold; retires wait for nobody who waits. */
  lemma RetireHolderMoves(sys: System, i: nat, slot: string -> int) returns (m: nat)
    requires AllHeldFor(sys, slot) && i in sys.txs && sys.txs[i].call.Retire? && Past(sys.txs[i], Looked)
    ensures CanMove(sys, m, slot)
  {
    m := i;
    if !CanMove(sys, i, slot) {
      var l;
      m, l := Blocker(sys, i, slot);
      assert l.ToolRow?;
      assert sys.txs[m].phase == Projected;
    }
  }

  lemma PublishHolderMoves(sys: System, i: nat, slot: string -> int) returns (m: nat)
    requires AllHeldFor(sys, slot) && i in sys.txs && sys.txs[i].call.Publish? && Past(sys.txs[i], Serialized)
    ensures CanMove(sys, m, slot)
  {
    m := i;
    if !CanMove(sys, i, slot) {
      var j, l := Blocker(sys, i, slot);
      if l.ToolRow? {
        m := j;
      } else {
        assert l.VersionRow? && l.key.0 == KeyOf(sys.txs[i].call).0;
        assert sys.txs[j].call.Retire? by {
          assert Advisory(slot(l.key.0)) in sys.txs[i].locks && Advisory(slot(l.key.0)) !in sys.txs[j].locks;
        }
        m := RetireHolderMoves(sys, j, slot);
      }
    }
  }

  /** No deadlock: while any transaction is open, one of them can run its next statement or commit. */
  lemma NoDeadlock(moves: seq<Move>, slot: string -> int) returns (m: nat)
    requires Legal(System(EMPTY, map[]), moves, slot)
    requires PlayMoves(System(EMPTY, map[]), moves, slot).txs != map[]
    ensures CanMove(PlayMoves(System(EMPTY, map[]), moves, slot), m, slot)
  {
    var sys := PlayMoves(System(EMPTY, map[]), moves, slot);
    LocksAreHeldFor(System(EMPTY, map[]), moves, slot);
    var i := SomeOpen(sys);
    m := SomeoneMoves(sys, i, slot);
  }

  lemma SomeOpen(sys: System) returns (i: nat)
    requires sys.txs != map[]
    ensures i in sys.txs
  {
    if exists x :: x in sys.txs {
      i :| i in sys.txs;
    }
  }

  lemma SomeoneMoves(sys: System, i: nat, slot: string -> int) returns (m: nat)
    requires AllHeldFor(sys, slot) && i in sys.txs
    ensures CanMove(sys, m, slot)
  {
    m := i;
    if !CanMove(sys, i, slot) {
      var j, l := Blocker(sys, i, slot);
      if sys.txs[j].call.Publish? {
        m := PublishHolderMoves(sys, j, slot);
      } else {
        m := RetireHolderMoves(sys, j, slot);
      }
    }
  }
}
