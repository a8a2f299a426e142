/** The embedding worker: tables changed transaction by transaction, and the loop that claims,
    encodes and writes back until nothing is left to claim. */
module DrainLoop {
  import opened Json
  import opened Planner
  import opened Versions
  import opened EmbeddingIndex
  import FaqHash

  /** The encoder's answer may differ from call to call; it may raise or return anything. */
  type Encoder = (nat, nat, seq<string>) -> Outcome<seq<Vector>>

  function Texts(jobs: seq<Job>): seq<string> {
    seq(|jobs|, i requires 0 <= i < |jobs| => jobs[i].text)
  }

  function Ids(jobs: seq<Job>): seq<int> {
    seq(|jobs|, i requires 0 <= i < |jobs| => jobs[i].id)
  }

  predicate Distinct(ids: seq<int>) {
    forall i, j | 0 <= i < j < |ids| :: ids[i] != ids[j]
  }

  /** An encoder that does answer answers with the model's encodings. */
  ghost predicate Faithful<C>(k: Kernel<C>, encoder: Encoder, model: string) {
    forall tick: nat, attempt: nat, texts: seq<string> ::
      encoder(tick, attempt, texts).Ok? ==> encoder(tick, attempt, texts).value == seq(|texts|, i requires 0 <= i < |texts| => k.encode(model, texts[i]))
  }

  predicate Fits(vectors: seq<Vector>, count: nat, dimension: nat) {
    |vectors| == count && forall i | 0 <= i < |vectors| :: |vectors[i]| == dimension
  }

  // ---------- What is left to try ----------

  function AttemptsLeft<C>(k: Kernel<C>, ix: Index<C>, id: int, model: string): nat {
    if Claimable(k, ix, id, model) then k.maxRetries - ix.entries[id].attempts else 0
  }

  function SumLeft<C>(k: Kernel<C>, ix: Index<C>, ids: seq<int>, model: string): nat {
    if ids == [] then 0 else AttemptsLeft(k, ix, ids[0], model) + SumLeft(k, ix, ids[1..], model)
  }

  lemma {:induction false} SumLeftShrinks<C>(k: Kernel<C>, a: Index<C>, b: Index<C>, ids: seq<int>, model: string)
    requires forall id | id in ids :: AttemptsLeft(k, b, id, model) <= AttemptsLeft(k, a, id, model)
    ensures SumLeft(k, b, ids, model) <= SumLeft(k, a, ids, model)
    ensures (exists x :: x in ids && AttemptsLeft(k, b, x, model) < AttemptsLeft(k, a, x, model))
            ==> SumLeft(k, b, ids, model) < SumLeft(k, a, ids, model)
  {
    hide AttemptsLeft;
    if ids != [] {
      SumLeftShrinks(k, a, b, ids[1..], model);
      assert AttemptsLeft(k, b, ids[0], model) <= AttemptsLeft(k, a, ids[0], model);
      if x :| x in ids && AttemptsLeft(k, b, x, model) < AttemptsLeft(k, a, x, model) {
        assert x == ids[0] || x in ids[1..];
      }
    }
  }

  lemma Listed(ids: set<int>) returns (order: seq<int>)
    ensures forall id :: id in order <==> id in ids
  {
    if exists id :: id in ids {
      var id :| id in ids;
      var rest := Listed(ids - {id});
      order := [id] + rest;
    } else {
      order := [];
    }
  }

  // ---------- One batch ----------

  /** Jobs as they are claimed: distinct claimable rows, each with its current text and stamp. */
  predicate Claimed<C>(k: Kernel<C>, ix: Index<C>, jobs: seq<Job>, model: string) {
    && Distinct(Ids(jobs))
    && forall i | 0 <= i < |jobs| :: Claimable(k, ix, jobs[i].id, model) && jobs[i] == JobFor(k, ix, jobs[i].id)
  }

  lemma ClaimedMore<C>(k: Kernel<C>, ix: Index<C>, jobs: seq<Job>, id: int, model: string)
    requires Claimed(k, ix, jobs, model) && Claimable(k, ix, id, model) && !JobOf(jobs, id)
    ensures var more := jobs + [JobFor(k, ix, id)];
            Claimed(k, ix, more, model) && forall x :: JobOf(more, x) <==> JobOf(jobs, x) || x == id
  {
    var more := jobs + [JobFor(k, ix, id)];
    assert forall i | 0 <= i < |jobs| :: Ids(more)[i] == Ids(jobs)[i] == jobs[i].id && more[i] == jobs[i];
    forall x ensures JobOf(more, x) <==> JobOf(jobs, x) || x == id {
      if JobOf(jobs, x) { var j :| 0 <= j < |jobs| && jobs[j].id == x; assert more[j].id == x; }
      assert more[|jobs|].id == id;
    }
    forall i, j | 0 <= i < j < |more| ensures Ids(more)[i] != Ids(more)[j] {
      if j < |jobs| { assert Ids(jobs)[i] != Ids(jobs)[j]; } else { assert jobs[i].id != id; }
    }
  }

  lemma {:induction false} Unsaved(entries: map<int, Entry>, jobs: seq<Job>, vectors: seq<Vector>, model: string, id: int)
    requires |jobs| == |vectors| && !JobOf(jobs, id) && id in entries
    ensures id in SavedAll(entries, jobs, vectors, model) && SavedAll(entries, jobs, vectors, model)[id] == entries[id]
  {
    if jobs != [] {
      var n := |jobs| - 1;
      assert jobs[n].id != id && forall i | 0 <= i < n :: jobs[..n][i] == jobs[i];
      Unsaved(entries, jobs[..n], vectors[..n], model, id);
    }
  }

  lemma {:induction false} SavedAt(entries: map<int, Entry>, jobs: seq<Job>, vectors: seq<Vector>, model: string, i: nat)
    requires |jobs| == |vectors| && Distinct(Ids(jobs)) && i < |jobs| && jobs[i].id in entries
    ensures var saved := SavedAll(entries, jobs, vectors, model);
            jobs[i].id in saved && saved[jobs[i].id] == Entry(Some(vectors[i]), model, jobs[i].tag, Done, 0)
  {
    var n := |jobs| - 1;
    SaveStaysIndexed(entries, jobs[..n], vectors[..n], model);
    if i < n {
      DistinctBut(jobs);
      SavedAt(entries, jobs[..n], vectors[..n], model, i);
      assert Ids(jobs)[i] != Ids(jobs)[n];
    }
  }

  lemma DistinctBut(jobs: seq<Job>)
    requires jobs != [] && Distinct(Ids(jobs))
    ensures Distinct(Ids(jobs[..|jobs| - 1]))
  {
    assert Ids(jobs[..|jobs| - 1]) == Ids(jobs)[..|jobs| - 1];
  }

  /** What a batch does to one entry: its row is up to date, or has one attempt less. */
  ghost predicate Handled<C>(k: Kernel<C>, a: Index<C>, b: Index<C>, jobs: seq<Job>, saved: bool, model: string) {
    && b.rows == a.rows && b.entries.Keys == a.entries.Keys
    && forall id | id in a.entries ::
         if !JobOf(jobs, id) then b.entries[id] == a.entries[id]
         else if saved then UpToDate(b, id, model) && b.entries[id].attempts == 0
         else b.entries[id] == a.entries[id].(status := JobStatus.Failed, attempts := a.entries[id].attempts + 1)
  }

  lemma SavedBatch<C>(k: Kernel<C>, a: Index<C>, jobs: seq<Job>, vectors: seq<Vector>, model: string)
    requires Claimed(k, a, jobs, model) && |vectors| == |jobs|
    ensures var b := a.(entries := SavedAll(Attempted(a.entries, Ids(jobs)), jobs, vectors, model));
            Handled(k, a, b, jobs, true, model)
  {
    var entries := Attempted(a.entries, Ids(jobs));
    var b := a.(entries := SavedAll(entries, jobs, vectors, model));
    SaveStaysIndexed(entries, jobs, vectors, model);
    forall id | id in a.entries
      ensures if !JobOf(jobs, id) then b.entries[id] == a.entries[id] else UpToDate(b, id, model) && b.entries[id].attempts == 0
    {
      NotAmongIds(jobs, id);
      if JobOf(jobs, id) {
        var j :| 0 <= j < |jobs| && jobs[j].id == id;
        assert Claimable(k, a, jobs[j].id, model);
        SavedAt(entries, jobs, vectors, model, j);
      } else {
        Unsaved(entries, jobs, vectors, model, id);
      }
    }
  }

  lemma NotAmongIds(jobs: seq<Job>, id: int)
    ensures id in Ids(jobs) <==> JobOf(jobs, id)
  {
    if id in Ids(jobs) {
      var i :| 0 <= i < |jobs| && Ids(jobs)[i] == id;
      assert jobs[i].id == id;
    }
    if JobOf(jobs, id) {
      var j :| 0 <= j < |jobs| && jobs[j].id == id;
      assert Ids(jobs)[j] == id;
    }
  }

  lemma FailedBatch<C>(k: Kernel<C>, a: Index<C>, jobs: seq<Job>, model: string)
    requires Claimed(k, a, jobs, model)
    ensures var b := a.(entries := MarkedFailed(Attempted(a.entries, Ids(jobs)), jobs));
            Handled(k, a, b, jobs, false, model)
  {
    forall id | id in a.entries ensures id in Ids(jobs) <==> JobOf(jobs, id) { NotAmongIds(jobs, id); }
  }

  lemma BatchShrinks<C>(k: Kernel<C>, a: Index<C>, b: Index<C>, jobs: seq<Job>, saved: bool, model: string, order: seq<int>)
    requires Claimed(k, a, jobs, model) && jobs != [] && Handled(k, a, b, jobs, saved, model)
    requires forall id :: id in order <==> id in a.entries
    ensures SumLeft(k, b, order, model) < SumLeft(k, a, order, model)
    ensures forall id | Claimable(k, b, id, model) :: Claimable(k, a, id, model)
  {
    forall id | id in a.entries
      ensures AttemptsLeft(k, b, id, model) <= AttemptsLeft(k, a, id, model)
      ensures JobOf(jobs, id) ==> AttemptsLeft(k, b, id, model) < AttemptsLeft(k, a, id, model)
      ensures Claimable(k, b, id, model) ==> Claimable(k, a, id, model)
    {
      if JobOf(jobs, id) {
        var j :| 0 <= j < |jobs| && jobs[j].id == id;
        assert Claimable(k, a, jobs[j].id, model);
      }
    }
    var x := jobs[0].id;
    assert Claimable(k, a, x, model) && JobOf(jobs, x);
    SumLeftShrinks(k, a, b, order, model);
  }

  // ---------- What the counters count ----------

  /** Rows of the first index that have since been brought up to date. */
  function Refreshed<C>(k: Kernel<C>, first: Index<C>, now: Index<C>, model: string): set<int> {
    set id | id in first.entries && Claimable(k, first, id, model) && UpToDate(now, id, model)
  }

  lemma {:induction false} CountIds(jobs: seq<Job>)
    requires Distinct(Ids(jobs))
    ensures |set id | id in Ids(jobs)| == |jobs|
  {
    if jobs == [] {
      assert Ids(jobs) == [];
    } else {
      var n := |jobs| - 1;
      assert Ids(jobs) == Ids(jobs[..n]) + [jobs[n].id];
      assert forall i | 0 <= i < n :: Ids(jobs)[i] == Ids(jobs[..n])[i];
      CountIds(jobs[..n]);
      assert Ids(jobs)[n] == jobs[n].id;
      assert jobs[n].id !in Ids(jobs[..n]);
      assert (set id | id in Ids(jobs)) == (set id | id in Ids(jobs[..n])) + {jobs[n].id};
    }
  }

  lemma BatchRefreshes<C>(k: Kernel<C>, first: Index<C>, a: Index<C>, b: Index<C>, jobs: seq<Job>, saved: bool, model: string)
    requires first.entries.Keys == a.entries.Keys
    requires Claimed(k, a, jobs, model) && Handled(k, a, b, jobs, saved, model)
    requires forall id | Claimable(k, a, id, model) :: Claimable(k, first, id, model)
    ensures |Refreshed(k, first, b, model)| == |Refreshed(k, first, a, model)| + if saved then |jobs| else 0
  {
    var done := set id | id in Ids(jobs);
    var before, after := Refreshed(k, first, a, model), Refreshed(k, first, b, model);
    CountIds(jobs);
    forall id | id in first.entries
      ensures id in done <==> JobOf(jobs, id)
      ensures id in after <==> id in before || (saved && JobOf(jobs, id))
      ensures JobOf(jobs, id) ==> id !in before
    {
      NotAmongIds(jobs, id);
    }
    hide *;
    GrownBy(before, after, if saved then done else {}, first.entries.Keys);
  }

  lemma GrownBy(before: set<int>, after: set<int>, more: set<int>, whole: set<int>)
    requires before <= whole && after <= whole && more <= whole
    requires forall id | id in whole :: id in after <==> id in before || id in more
    requires forall id | id in more :: id !in before
    ensures |after| == |before| + |more|
  {
    forall id ensures id in after <==> id in before + more {
      assert id in after || id in before || id in more ==> id in whole;
    }
    assert after == before + more;
    forall id | id in before ensures id !in more {}
    assert before !! more;
  }

  // ---------- Keeping the loop's promises ----------

  /** Only rows claimable at the start are touched, none becomes claimable, no entry exceeds the
      retry limit that kept it at the start. */
  ghost predicate Kept<C>(k: Kernel<C>, first: Index<C>, now: Index<C>, model: string) {
    && now.rows == first.rows && now.entries.Keys == first.entries.Keys
    && (forall id | Claimable(k, now, id, model) :: Claimable(k, first, id, model))
    && (forall id | id in now.entries && !Claimable(k, first, id, model) :: now.entries[id] == first.entries[id])
    && (WithinLimit(k, first) ==> WithinLimit(k, now))
  }

  predicate WithinLimit<C>(k: Kernel<C>, ix: Index<C>) {
    forall id | id in ix.entries :: ix.entries[id].attempts <= k.maxRetries
  }

  /** Whatever contents the index was honest about, it still is. */
  ghost predicate HonestyKept<C(!new)>(k: Kernel<C>, model: string, a: Index<C>, b: Index<C>) {
    forall contents | Honest(k, model, contents, a) :: Honest(k, model, contents, b)
  }

  lemma HonestyTransitive<C(!new)>(k: Kernel<C>, model: string, a: Index<C>, b: Index<C>, c: Index<C>)
    requires HonestyKept(k, model, a, b) && HonestyKept(k, model, b, c)
    ensures HonestyKept(k, model, a, c)
  {
    hide Honest;
  }

  /** Every live row is up to date or out of attempts. */
  predicate Drained<C>(k: Kernel<C>, ix: Index<C>, model: string) {
    forall id | id in ix.rows && ix.rows[id].live ::
      UpToDate(ix, id, model) || (id in ix.entries && ix.entries[id].attempts >= k.maxRetries)
  }

  ghost predicate NothingClaimable<C>(k: Kernel<C>, ix: Index<C>, model: string) {
    forall id :: !Claimable(k, ix, id, model)
  }

  lemma BatchKeeps<C>(k: Kernel<C>, first: Index<C>, a: Index<C>, b: Index<C>, jobs: seq<Job>, saved: bool, model: string, order: seq<int>)
    requires Claimed(k, a, jobs, model) && jobs != [] && Handled(k, a, b, jobs, saved, model) && Kept(k, first, a, model)
    requires forall id :: id in order <==> id in a.entries
    ensures SumLeft(k, b, order, model) < SumLeft(k, a, order, model)
    ensures Kept(k, first, b, model)
    ensures |Refreshed(k, first, b, model)| == |Refreshed(k, first, a, model)| + if saved then |jobs| else 0
  {
    BatchShrinks(k, a, b, jobs, saved, model, order);
    BatchRefreshes(k, first, a, b, jobs, saved, model);
    forall id | id in b.entries && JobOf(jobs, id) ensures Claimable(k, a, id, model) {
      var j :| 0 <= j < |jobs| && jobs[j].id == id;
      assert Claimable(k, a, jobs[j].id, model);
    }
  }

  /** With every row indexed, nothing claimable means drained. */
  lemma DrainedExactly<C>(k: Kernel<C>, ix: Index<C>, model: string)
    requires Indexed(ix)
    ensures NothingClaimable(k, ix, model) <==> Drained(k, ix, model)
  {
    if NothingClaimable(k, ix, model) {
      forall id | id in ix.rows && ix.rows[id].live
        ensures UpToDate(ix, id, model) || (id in ix.entries && ix.entries[id].attempts >= k.maxRetries)
      {
        assert !Claimable(k, ix, id, model);
      }
    }
  }

  lemma NoneAttempted(entries: map<int, Entry>)
    ensures Attempted(entries, Ids([])) == entries
  {
  }

  lemma FailedStaysHonest<C>(k: Kernel<C>, model: string, contents: iset<C>, ix: Index<C>, jobs: seq<Job>)
    requires Honest(k, model, contents, ix) && Claimed(k, ix, jobs, model)
    ensures HonestEntries(k, model, contents, MarkedFailed(Attempted(ix.entries, Ids(jobs)), jobs))
    ensures HonestEntries(k, model, contents, Attempted(ix.entries, Ids(jobs))) && HonestJobs(k, contents, jobs)
  {
  }

  /** `encode_with_retry`: the first answer, or the last failure. */
  method EncodeWithRetry(encoder: Encoder, tick: nat, texts: seq<string>, tries: nat) returns (vectors: Outcome<seq<Vector>>)
    requires tries > 0
    ensures vectors.Ok? ==> exists a | 0 <= a < tries ::
              encoder(tick, a, texts) == vectors && forall b | 0 <= b < a :: encoder(tick, b, texts).Raise?
    ensures vectors.Raise? ==> vectors == encoder(tick, tries - 1, texts) && forall b | 0 <= b < tries :: encoder(tick, b, texts).Raise?
  {
    var attempt := 0;
    vectors := Raise("");
    while attempt < tries
      invariant 0 <= attempt <= tries
      invariant forall b | 0 <= b < attempt :: encoder(tick, b, texts).Raise?
      invariant attempt > 0 ==> vectors == encoder(tick, attempt - 1, texts)
    {
      vectors := encoder(tick, attempt, texts);
      if vectors.Ok? { return; }
      attempt := attempt + 1;
    }
  }

  // ---------- The claim order ----------

  /** The order of the claiming query: short contents first, then by id. Skills, all of size zero,
      are claimed by id. */
  predicate Earlier<C>(k: Kernel<C>, ix: Index<C>, a: int, b: int) {
    a in ix.rows && b in ix.rows &&
    var m, n := k.size(ix.rows[a].content), k.size(ix.rows[b].content);
    m < n || (m == n && a < b)
  }

  predicate InOrder<C>(k: Kernel<C>, ix: Index<C>, jobs: seq<Job>) {
    forall i, j | 0 <= i < j < |jobs| :: Earlier(k, ix, jobs[i].id, jobs[j].id)
  }

  lemma SomeOf(ids: set<int>) returns (id: int)
    requires ids != {}
    ensures id in ids
  {
    if exists x :: x in ids { id :| id in ids; }
  }

  // ---------- Reading rows ----------

  function AllRead<R, C>(batch: seq<R>, read: R -> Option<Imported<C>>): seq<Imported<C>>
    requires forall i | 0 <= i < |batch| :: read(batch[i]).Some?
  {
    seq(|batch|, i requires 0 <= i < |batch| => read(batch[i]).value)
  }

  lemma NextRead<R, C>(k: Kernel<C>, ix: Index<C>, batch: seq<R>, i: nat, read: R -> Option<Imported<C>>, model: string)
    requires i < |batch| && forall j | 0 <= j <= i :: read(batch[j]).Some?
    ensures ImportAll(k, ix, AllRead(batch[..i + 1], read), model)
         == WriteOne(k, ImportAll(k, ix, AllRead(batch[..i], read), model), read(batch[i]).value, model)
  {
    hide ImportOne;
    var all := AllRead(batch[..i + 1], read);
    assert all[..|all| - 1] == AllRead(batch[..i], read) && all[|all| - 1] == read(batch[i]).value;
  }

  /** One row written to both tables. */
  function WriteOne<C>(k: Kernel<C>, ix: Index<C>, row: Imported<C>, model: string): Index<C> {
    ImportOne(k, ix, row.id, row.content, row.live, model)
  }

  /** An FAQ row with question and answer text, ready to be imported. */
  function ReadFaq(row: FaqHash.FaqRow): Option<Imported<FaqHash.Content>> {
    if FaqHash.HasText(row) then Some(Imported(row.id, FaqHash.ContentOf(row), true)) else None
  }

  // ---------- The database ----------

  class Database<C(!new)> {
    var rows: map<int, Row<C>>
    var entries: map<int, Entry>

    constructor ()
      ensures ToIndex() == Empty<C>()
    {
      rows, entries := map[], map[];
    }

    /** One worker at a time has no jobs in flight between transactions. */
    function ToIndex(): Index<C>
      reads this
    {
      Index(rows, entries, map[])
    }

    /** `import_rows`: one transaction; a row that cannot be read undoes all of it. */
    method ImportRows<R>(k: Kernel<C>, batch: seq<R>, read: R -> Option<Imported<C>>, model: string) returns (imported: Outcome<nat>)
      modifies this
      ensures imported.Ok? <==> forall i | 0 <= i < |batch| :: read(batch[i]).Some?
      ensures imported.Ok? ==> imported.value == |batch| && ToIndex() == ImportAll(k, old(ToIndex()), AllRead(batch, read), model)
      ensures imported.Raise? ==> ToIndex() == old(ToIndex())
    {
      var newRows, newEntries := rows, entries;
      var i := 0;
      while i < |batch|
        invariant 0 <= i <= |batch|
        invariant forall j | 0 <= j < i :: read(batch[j]).Some?
        invariant ToIndex() == old(ToIndex())
        invariant Index(newRows, newEntries, map[]) == ImportAll(k, ToIndex(), AllRead(batch[..i], read), model)
      {
        var row := read(batch[i]);
        if row.None? { return Raise("unreadable row"); }
        var Imported(id, content, live) := row.value;
        NextRead(k, ToIndex(), batch, i, read, model);
        var stamp := Written(StoredStamp(newRows, id), k.hash(content));
        newRows := newRows[id := Row(content, stamp, live)];
        newEntries := Tagged(newEntries, id, stamp, model);
        i := i + 1;
      }
      assert batch[..i] == batch;
      rows, entries := newRows, newEntries;
      return Ok(i);
    }

    /** `claim_jobs`: the first `limit` rows in the order of the query, all of them when there are no
        more. */
    method ClaimJobs(k: Kernel<C>, limit: nat, model: string) returns (jobs: seq<Job>)
      modifies this`entries
      ensures Claimed(k, old(ToIndex()), jobs, model) && |jobs| <= limit
      ensures entries == Attempted(old(entries), Ids(jobs))
      ensures InOrder(k, old(ToIndex()), jobs)
      ensures forall i | 0 <= i < |jobs| ::
                && jobs[i].id in rows && rows[jobs[i].id].live && jobs[i].tag == rows[jobs[i].id].stamp && jobs[i].text == k.text(rows[jobs[i].id].content)
                && jobs[i].id in entries && entries[jobs[i].id] == old(entries)[jobs[i].id].(status := Processing, attempts := entries[jobs[i].id].attempts)
                && entries[jobs[i].id].attempts == old(entries)[jobs[i].id].attempts + 1
      ensures forall i, j | 0 <= i < j < |jobs| ::
                var a, b := k.size(rows[jobs[i].id].content), k.size(rows[jobs[j].id].content);
                a < b || (a == b && jobs[i].id < jobs[j].id)
      ensures entries.Keys == old(entries).Keys && forall id | id in entries && !JobOf(jobs, id) :: entries[id] == old(entries)[id]
      ensures forall id | Claimable(k, old(ToIndex()), id, model) :: JobOf(jobs, id) ||
                (|jobs| == limit && forall i | 0 <= i < |jobs| :: Earlier(k, old(ToIndex()), jobs[i].id, id))
    {
      var ix := ToIndex();
      var open := set id | id in entries && Claimable(k, ix, id, model);
      jobs := [];
      while |jobs| < limit && open != {}
        invariant |jobs| <= limit
        invariant ToIndex() == ix && Claimed(k, ix, jobs, model) && InOrder(k, ix, jobs)
        invariant forall id | id in entries && Claimable(k, ix, id, model) :: id in open || JobOf(jobs, id)
        invariant forall id | id in open :: Claimable(k, ix, id, model) && !JobOf(jobs, id)
        invariant forall i, id | 0 <= i < |jobs| && id in open :: Earlier(k, ix, jobs[i].id, id)
        decreases open
      {
        var id := First(k, ix, open);
        open := open - {id};
        ClaimedMore(k, ix, jobs, id, model);
        jobs := jobs + [JobFor(k, ix, id)];
      }
      forall id ensures id in Ids(jobs) <==> JobOf(jobs, id) { NotAmongIds(jobs, id); }
      forall i | 0 <= i < |jobs| ensures Claimable(k, ix, jobs[i].id, model) && JobOf(jobs, jobs[i].id) {}
      entries := Attempted(entries, Ids(jobs));
    }

    /** The claimable row the query lists first. */
    method First(k: Kernel<C>, ix: Index<C>, open: set<int>) returns (first: int)
      requires open != {} && forall id | id in open :: id in ix.rows
      ensures first in open && forall id | id in open - {first} :: Earlier(k, ix, first, id)
    {
      ghost var some := SomeOf(open);
      first :| first in open;
      var rest := open - {first};
      while rest != {}
        invariant first in open && rest <= open - {first}
        invariant forall id | id in open - rest - {first} :: Earlier(k, ix, first, id)
        decreases rest
      {
        ghost var other := SomeOf(rest);
        var id :| id in rest;
        ghost var before := first;
        rest := rest - {id};
        if Earlier(k, ix, id, first) { first := id; }
        assert forall x | x in open - rest - {first} :: x == before || x == id || Earlier(k, ix, before, x);
      }
    }

    /** `save_vectors`: one transaction, undone when a vector does not have the right dimension. */
    method SaveVectors(jobs: seq<Job>, vectors: seq<Vector>, dimension: nat, model: string) returns (saved: bool)
      modifies this`entries
      ensures saved <==> Fits(vectors, |jobs|, dimension)
      ensures entries == if saved then SavedAll(old(entries), jobs, vectors, model) else old(entries)
    {
      if |jobs| != |vectors| { return false; }
      var written := entries;
      var i := 0;
      while i < |jobs|
        invariant 0 <= i <= |jobs|
        invariant forall j | 0 <= j < i :: |vectors[j]| == dimension
        invariant written == SavedAll(entries, jobs[..i], vectors[..i], model)
      {
        if |vectors[i]| != dimension { return false; }
        assert jobs[..i + 1][..i] == jobs[..i] && vectors[..i + 1][..i] == vectors[..i];
        written := SavedOne(written, jobs[i], vectors[i], model);
        i := i + 1;
      }
      assert jobs[..i] == jobs && vectors[..i] == vectors;
      entries := written;
      return true;
    }

    method MarkFailed(jobs: seq<Job>)
      modifies this`entries
      ensures entries == MarkedFailed(old(entries), jobs)
    {
      entries := MarkedFailed(entries, jobs);
    }

    method ResetFailed(least: nat)
      modifies this`entries
      ensures entries == FailedReset(old(entries), least)
    {
      entries := FailedReset(entries, least);
    }

    /** One round of the loop: claim, encode, save, or mark the whole batch failed when encoding or
        saving raised. No answer when there was nothing to claim. */
    method DrainBatch(k: Kernel<C>, encoder: Encoder, tick: nat, size: nat, tries: nat, dimension: nat, model: string)
      returns (jobs: seq<Job>, outcome: Option<bool>)
      requires size > 0 && tries > 0
      modifies this`entries
      ensures Claimed(k, old(ToIndex()), jobs, model) && |jobs| <= size && (outcome.None? <==> jobs == [])
      ensures outcome.None? ==> entries == old(entries) && NothingClaimable(k, ToIndex(), model)
      ensures outcome.Some? ==> Handled(k, old(ToIndex()), ToIndex(), jobs, outcome.value, model)
      ensures Faithful(k, encoder, model) ==> HonestyKept(k, model, old(ToIndex()), ToIndex())
    {
      hide Refreshed, Attempted, MarkedFailed, SavedAll, HonestEntries, HonestJobs, HonestRows;
      ghost var before := ToIndex();
      jobs := ClaimJobs(k, size, model);
      ghost var attempted := entries;
      if jobs == [] {
        NoneAttempted(before.entries);
        assert forall id :: !JobOf(jobs, id);
        return jobs, None;
      }
      var vectors := EncodeWithRetry(encoder, tick, Texts(jobs), tries);
      var saved := false;
      if vectors.Ok? {
        saved := SaveVectors(jobs, vectors.value, dimension, model);
      }
      outcome := Some(saved);
      if saved {
        SavedBatch(k, before, jobs, vectors.value, model);
        forall contents | Honest(k, model, contents, before) && Faithful(k, encoder, model) ensures Honest(k, model, contents, ToIndex()) {
          FailedStaysHonest(k, model, contents, before, jobs);
          assert vectors.value == Encoded(k, model, jobs);
          SaveStaysHonest(k, model, contents, attempted, jobs);
        }
      } else {
        MarkFailed(jobs);
        FailedBatch(k, before, jobs, model);
        forall contents | Honest(k, model, contents, before) ensures Honest(k, model, contents, ToIndex()) {
          FailedStaysHonest(k, model, contents, before, jobs);
        }
      }
    }

    /** The drain loop. FAQs encode with up to `tries` attempts, skills with one. It ends even when
        every encoding fails; only rows that were claimable at the start are touched. */
    method Drain(k: Kernel<C>, encoder: Encoder, limit: Option<int>, batchSize: nat, tries: nat, dimension: nat, model: string)
      returns (processed: nat, succeeded: nat, failed: nat)
      requires batchSize > 0 && tries > 0
      modifies this`entries
      ensures processed == succeeded + failed
      ensures limit.Some? ==> processed <= if limit.value < 0 then 0 else limit.value
      ensures limit.None? || processed < limit.value ==> NothingClaimable(k, ToIndex(), model)
      ensures Indexed(old(ToIndex())) ==> Indexed(ToIndex())
      ensures Indexed(old(ToIndex())) && (limit.None? || processed < limit.value) ==> Drained(k, ToIndex(), model)
      ensures Kept(k, old(ToIndex()), ToIndex(), model)
      ensures succeeded == |Refreshed(k, old(ToIndex()), ToIndex(), model)|
      ensures Faithful(k, encoder, model) ==> HonestyKept(k, model, old(ToIndex()), ToIndex())
    {
      hide HonestyKept, Faithful, Refreshed, Kept, Handled, Drained, Claimed, NothingClaimable, Indexed;
      processed, succeeded, failed := 0, 0, 0;
      ghost var first := ToIndex();
      NothingYet(k, first, model);
      ghost var order := Listed(entries.Keys);
      var tick := 0;
      while limit.None? || processed < limit.value
        invariant processed == succeeded + failed
        invariant limit.Some? ==> processed <= if limit.value < 0 then 0 else limit.value
        invariant Kept(k, first, ToIndex(), model)
        invariant succeeded == |Refreshed(k, first, ToIndex(), model)|
        invariant Faithful(k, encoder, model) ==> HonestyKept(k, model, first, ToIndex())
        invariant forall id :: id in order <==> id in entries
        decreases SumLeft(k, ToIndex(), order, model)
      {
        var size := if limit.Some? && limit.value - processed < batchSize then limit.value - processed else batchSize;
        ghost var before := ToIndex();
        var jobs, saved := DrainBatch(k, encoder, tick, size, tries, dimension, model);
        if saved.None? { break; }
        BatchKeeps(k, first, before, ToIndex(), jobs, saved.value, model, order);
        if Faithful(k, encoder, model) { HonestyTransitive(k, model, first, before, ToIndex()); }
        if saved.value { succeeded := succeeded + |jobs|; } else { failed := failed + |jobs|; }
        processed := processed + |jobs|;
        tick := tick + 1;
      }
      KeptIndexed(k, first, ToIndex(), model);
      if Indexed(first) { DrainedExactly(k, ToIndex(), model); }
    }

    /** The embedding script: with `retry`, entries that failed often enough are reset first; then the
        index is drained. FAQs reset from the retry limit on and retry each batch, skills reset every
        failed entry. */
    method Embed(k: Kernel<C>, encoder: Encoder, retry: bool, least: nat, limit: Option<int>, batchSize: nat, tries: nat, dimension: nat, model: string)
      returns (processed: nat, succeeded: nat, failed: nat)
      requires batchSize > 0 && tries > 0
      modifies this`entries
      ensures processed == succeeded + failed
      ensures Indexed(old(ToIndex())) && (limit.None? || processed < limit.value) ==> Drained(k, ToIndex(), model)
      ensures Kept(k, AsFound(old(ToIndex()), retry, least), ToIndex(), model)
      ensures succeeded == |Refreshed(k, AsFound(old(ToIndex()), retry, least), ToIndex(), model)|
      ensures Faithful(k, encoder, model) ==> HonestyKept(k, model, old(ToIndex()), ToIndex())
    {
      hide Honest, Kept, Refreshed, Faithful, Drained, HonestyKept;
      ghost var first := ToIndex();
      if retry { ResetFailed(least); }
      ghost var start := ToIndex();
      AsFoundKeeps(k, first, retry, least, model);
      processed, succeeded, failed := Drain(k, encoder, limit, batchSize, tries, dimension, model);
      if Faithful(k, encoder, model) { HonestyTransitive(k, model, first, start, ToIndex()); }
    }
  }

  /** The index as the drain loop finds it. */
  function AsFound<C>(ix: Index<C>, retry: bool, least: nat): Index<C> {
    if retry then ix.(entries := FailedReset(ix.entries, least)) else ix
  }

  lemma AsFoundKeeps<C(!new)>(k: Kernel<C>, ix: Index<C>, retry: bool, least: nat, model: string)
    ensures Indexed(AsFound(ix, retry, least)) <==> Indexed(ix)
    ensures HonestyKept(k, model, ix, AsFound(ix, retry, least))
  {
  }

  lemma KeptIndexed<C>(k: Kernel<C>, first: Index<C>, now: Index<C>, model: string)
    requires Kept(k, first, now, model)
    ensures Indexed(first) <==> Indexed(now)
  {
  }

  lemma NothingYet<C(!new)>(k: Kernel<C>, first: Index<C>, model: string)
    ensures Kept(k, first, first, model) && Refreshed(k, first, first, model) == {} && HonestyKept(k, model, first, first)
  {
  }

  /** `import_rows` for FAQs: rows with question and answer text, which are served from then on. */
  method ImportFaqs(db: Database<FaqHash.Content>, k: Kernel<FaqHash.Content>, rows: seq<FaqHash.FaqRow>, model: string) returns (imported: Outcome<nat>)
    modifies db
    ensures imported.Ok? <==> forall i | 0 <= i < |rows| :: FaqHash.HasText(rows[i])
    ensures imported.Raise? ==> db.ToIndex() == old(db.ToIndex())
    ensures imported.Ok? ==> forall i | 0 <= i < |rows| ::
              rows[i].id in db.rows && db.rows[rows[i].id].live && FaqHash.Importable(db.rows[rows[i].id].content)
    ensures imported.Ok? && Indexed(old(db.ToIndex())) ==> Indexed(db.ToIndex())
  {
    ghost var before := db.ToIndex();
    imported := db.ImportRows(k, rows, ReadFaq, model);
    if imported.Ok? {
      var batch := AllRead(rows, ReadFaq);
      forall i | 0 <= i < |rows|
        ensures rows[i].id in db.rows && db.rows[rows[i].id].live && FaqHash.Importable(db.rows[rows[i].id].content)
      {
        forall j | 0 <= j < |batch| ensures batch[j].live && FaqHash.Importable(batch[j].content) { FaqHash.RowsAreImportable(rows[j]); }
        ImportedRow(k, before, batch, model, i);
      }
      if Indexed(before) { ImportStaysIndexed(k, before, batch, model); }
    }
  }

  /** An imported row is one of the batch: the last one with its id. */
  lemma {:induction false} ImportedRow<C>(k: Kernel<C>, ix: Index<C>, batch: seq<Imported<C>>, model: string, i: nat)
    requires i < |batch|
    ensures var after := ImportAll(k, ix, batch, model);
            && batch[i].id in after.rows
            && exists j :: i <= j < |batch| && batch[j].id == batch[i].id
                           && after.rows[batch[i].id].content == batch[j].content && after.rows[batch[i].id].live == batch[j].live
    decreases |batch|
  {
    var n := |batch| - 1;
    if batch[n].id == batch[i].id {
      assert i <= n;
    } else {
      ImportedRow(k, ix, batch[..n], model, i);
      var before := ImportAll(k, ix, batch[..n], model);
      var j :| i <= j < n && batch[..n][j].id == batch[..n][i].id
               && before.rows[batch[i].id].content == batch[..n][j].content && before.rows[batch[i].id].live == batch[..n][j].live;
      assert batch[j] == batch[..n][j];
    }
  }
}
