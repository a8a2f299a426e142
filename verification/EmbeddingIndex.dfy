/** The embedding index as a cache over versioned content. Every SQL transaction is one atomic step;
    any number of workers claim rows, encode outside the transaction, and write back tagged with
    the hash and version they claimed, while imports change the content in between. */
module EmbeddingIndex {
  import opened Json
  import opened Versions

  type Vector = seq<real>

  /** A content row: an FAQ or a skill, with its version and whether it is served. */
  datatype Row<C> = Row(content: C, stamp: Versioned, live: bool)
  datatype JobStatus = Waiting | Processing | Done | Failed
  datatype Entry = Entry(vector: Option<Vector>, model: string, tag: Versioned, status: JobStatus, attempts: nat)
  datatype Job = Job(id: int, tag: Versioned, text: string)
  datatype Index<C> = Index(rows: map<int, Row<C>>, entries: map<int, Entry>, inFlight: map<nat, seq<Job>>)

  /** What the index depends on: the content's hash, the text that is encoded, its place in the claim
      order, the encoder of each model, the retry limit. */
  datatype Kernel<!C> = Kernel(hash: C -> string, text: C -> string, size: C -> nat, encode: (string, string) -> Vector, maxRetries: nat)

  /** A row as an import writes it. */
  datatype Imported<C> = Imported(id: int, content: C, live: bool)

  // ---------- Transactions ----------

  /** Tagging an entry with the content it should hold: a changed hash drops the vector and the
      attempts, an unchanged one keeps both. The model label changes in any case. */
  function Tagged(entries: map<int, Entry>, id: int, tag: Versioned, model: string): map<int, Entry> {
    entries[id := if id in entries && entries[id].tag.hash == tag.hash
                  then entries[id].(model := model, tag := tag)
                  else Entry(None, model, tag, Waiting, 0)]
  }

  function StoredStamp<C>(rows: map<int, Row<C>>, id: int): Option<Versioned> {
    if id in rows then Some(rows[id].stamp) else None
  }

  function ImportOne<C>(k: Kernel<C>, ix: Index<C>, id: int, content: C, live: bool, model: string): Index<C> {
    var stamp := Written(StoredStamp(ix.rows, id), k.hash(content));
    ix.(rows := ix.rows[id := Row(content, stamp, live)], entries := Tagged(ix.entries, id, stamp, model))
  }

  function ImportAll<C>(k: Kernel<C>, ix: Index<C>, batch: seq<Imported<C>>, model: string): Index<C> {
    if batch == [] then ix
    else
      var last := batch[|batch| - 1];
      ImportOne(k, ImportAll(k, ix, batch[..|batch| - 1], model), last.id, last.content, last.live, model)
  }

  predicate UpToDate<C>(ix: Index<C>, id: int, model: string) {
    id in ix.rows && id in ix.entries
    && ix.entries[id].vector.Some? && ix.entries[id].model == model && ix.entries[id].tag == ix.rows[id].stamp
  }

  predicate Claimable<C>(k: Kernel<C>, ix: Index<C>, id: int, model: string) {
    id in ix.rows && id in ix.entries && ix.rows[id].live && !UpToDate(ix, id, model) && ix.entries[id].attempts < k.maxRetries
  }

  function JobFor<C>(k: Kernel<C>, ix: Index<C>, id: int): Job
    requires id in ix.rows
  {
    Job(id, ix.rows[id].stamp, k.text(ix.rows[id].content))
  }

  function Jobs<C>(k: Kernel<C>, ix: Index<C>, ids: seq<int>): seq<Job>
    requires forall id | id in ids :: id in ix.rows
  {
    seq(|ids|, i requires 0 <= i < |ids| => JobFor(k, ix, ids[i]))
  }

  /** Marks claimed entries as processing and counts the attempt. */
  function Attempted(entries: map<int, Entry>, ids: seq<int>): map<int, Entry> {
    map id | id in entries :: if id in ids then entries[id].(status := Processing, attempts := entries[id].attempts + 1) else entries[id]
  }

  /** One vector written back: tagged as the job was when it was claimed, whatever happened since. */
  function SavedOne(entries: map<int, Entry>, job: Job, vector: Vector, model: string): map<int, Entry> {
    if job.id in entries then entries[job.id := Entry(Some(vector), model, job.tag, Done, 0)] else entries
  }

  function SavedAll(entries: map<int, Entry>, jobs: seq<Job>, vectors: seq<Vector>, model: string): map<int, Entry>
    requires |jobs| == |vectors|
  {
    if jobs == [] then entries
    else
      var n := |jobs| - 1;
      SavedOne(SavedAll(entries, jobs[..n], vectors[..n], model), jobs[n], vectors[n], model)
  }

  function MarkedFailed(entries: map<int, Entry>, jobs: seq<Job>): map<int, Entry> {
    map id | id in entries :: if exists j | 0 <= j < |jobs| :: jobs[j].id == id then entries[id].(status := Failed) else entries[id]
  }

  /** `--retry-failed`: FAQs only reset entries with at least `least` attempts, skills all failed ones. */
  function FailedReset(entries: map<int, Entry>, least: nat): map<int, Entry> {
    map id | id in entries ::
      if entries[id].status == Failed && entries[id].attempts >= least then entries[id].(status := Waiting, attempts := 0) else entries[id]
  }

  function Encoded<C>(k: Kernel<C>, model: string, jobs: seq<Job>): seq<Vector> {
    seq(|jobs|, i requires 0 <= i < |jobs| => k.encode(model, jobs[i].text))
  }

  // ---------- Interleavings ----------

  datatype Step<C> =
    | Import(batch: seq<Imported<C>>, model: string)
    | Retag(id: int, tag: Versioned, model: string)
    | SetLive(id: int, live: bool)
    | Claim(worker: nat, ids: seq<int>, model: string)
    | Save(worker: nat, model: string)
    | Fail(worker: nat)
    | Reset(least: nat)

  predicate Enabled<C>(k: Kernel<C>, ix: Index<C>, step: Step<C>) {
    match step
    case Claim(_, ids, model) => forall id | id in ids :: Claimable(k, ix, id, model)
    case SetLive(id, _) => id in ix.rows
    case Retag(id, _, _) => id in ix.rows
    case Save(worker, _) => worker in ix.inFlight
    case Fail(worker) => worker in ix.inFlight
    case _ => true
  }

  function Taken<C>(k: Kernel<C>, ix: Index<C>, step: Step<C>): Index<C>
    requires Enabled(k, ix, step)
  {
    match step
    case Import(batch, model) => ImportAll(k, ix, batch, model)
    case Retag(id, tag, model) => ix.(entries := Tagged(ix.entries, id, tag, model))
    case SetLive(id, live) => ix.(rows := ix.rows[id := ix.rows[id].(live := live)])
    case Claim(worker, ids, model) =>
      ix.(entries := Attempted(ix.entries, ids), inFlight := ix.inFlight[worker := Jobs(k, ix, ids)])
    case Save(worker, model) =>
      var jobs := ix.inFlight[worker];
      ix.(entries := SavedAll(ix.entries, jobs, Encoded(k, model, jobs), model), inFlight := ix.inFlight - {worker})
    case Fail(worker) =>
      ix.(entries := MarkedFailed(ix.entries, ix.inFlight[worker]), inFlight := ix.inFlight - {worker})
    case Reset(least) => ix.(entries := FailedReset(ix.entries, least))
  }

  predicate Legal<C>(k: Kernel<C>, ix: Index<C>, steps: seq<Step<C>>)
    decreases |steps|
  {
    steps != [] ==> Enabled(k, ix, steps[0]) && Legal(k, Taken(k, ix, steps[0]), steps[1..])
  }

  function Play<C>(k: Kernel<C>, ix: Index<C>, steps: seq<Step<C>>): Index<C>
    requires Legal(k, ix, steps)
    decreases |steps|
  {
    if steps == [] then ix else Play(k, Taken(k, ix, steps[0]), steps[1..])
  }

  function Empty<C>(): Index<C> {
    Index(map[], map[], map[])
  }

  // ---------- Truthfulness ----------

  /** The storage model is fixed, and only contents of interest are imported. */
  ghost predicate Uses<C>(step: Step<C>, model: string, contents: iset<C>) {
    match step
    case Import(batch, m) => m == model && forall i | 0 <= i < |batch| :: batch[i].content in contents
    case Retag(_, _, m) => m == model
    case Claim(_, _, m) => m == model
    case Save(_, m) => m == model
    case _ => true
  }

  ghost predicate AllUse<C>(steps: seq<Step<C>>, model: string, contents: iset<C>) {
    forall i | 0 <= i < |steps| :: Uses(steps[i], model, contents)
  }

  ghost predicate Backed<C>(k: Kernel<C>, model: string, contents: iset<C>, hash: string, vector: Vector) {
    exists c :: c in contents && k.hash(c) == hash && k.encode(model, k.text(c)) == vector
  }

  ghost predicate HonestRows<C>(k: Kernel<C>, contents: iset<C>, rows: map<int, Row<C>>) {
    forall id | id in rows :: rows[id].content in contents && rows[id].stamp.hash == k.hash(rows[id].content)
  }

  /** A vector is always the encoding of a content that hashes to its tag; the retry limit holds. */
  ghost predicate HonestEntries<C>(k: Kernel<C>, model: string, contents: iset<C>, entries: map<int, Entry>) {
    forall id | id in entries ::
      && entries[id].attempts <= k.maxRetries
      && (entries[id].vector.Some? ==> Backed(k, model, contents, entries[id].tag.hash, entries[id].vector.value))
  }

  ghost predicate HonestJob<C>(k: Kernel<C>, contents: iset<C>, job: Job) {
    exists c :: c in contents && k.hash(c) == job.tag.hash && k.text(c) == job.text
  }

  ghost predicate HonestJobs<C>(k: Kernel<C>, contents: iset<C>, jobs: seq<Job>) {
    forall i | 0 <= i < |jobs| :: HonestJob(k, contents, jobs[i])
  }

  ghost predicate Honest<C>(k: Kernel<C>, model: string, contents: iset<C>, ix: Index<C>) {
    && HonestRows(k, contents, ix.rows)
    && HonestEntries(k, model, contents, ix.entries)
    && (forall w | w in ix.inFlight :: HonestJobs(k, contents, ix.inFlight[w]))
  }

  lemma {:induction false} ImportStaysHonest<C>(k: Kernel<C>, model: string, contents: iset<C>, ix: Index<C>, batch: seq<Imported<C>>)
    requires Honest(k, model, contents, ix) && forall i | 0 <= i < |batch| :: batch[i].content in contents
    ensures Honest(k, model, contents, ImportAll(k, ix, batch, model))
  {
    if batch != [] { ImportStaysHonest(k, model, contents, ix, batch[..|batch| - 1]); }
  }

  lemma {:induction false} SaveStaysHonest<C>(k: Kernel<C>, model: string, contents: iset<C>, entries: map<int, Entry>, jobs: seq<Job>)
    requires HonestEntries(k, model, contents, entries) && HonestJobs(k, contents, jobs)
    ensures HonestEntries(k, model, contents, SavedAll(entries, jobs, Encoded(k, model, jobs), model))
  {
    if jobs != [] {
      var n := |jobs| - 1;
      assert Encoded(k, model, jobs)[..n] == Encoded(k, model, jobs[..n]);
      SaveStaysHonest(k, model, contents, entries, jobs[..n]);
      assert HonestJob(k, contents, jobs[n]);
      var saved := SavedAll(entries, jobs[..n], Encoded(k, model, jobs[..n]), model);
      assert Backed(k, model, contents, jobs[n].tag.hash, k.encode(model, jobs[n].text));
    }
  }

  lemma ClaimStaysHonest<C>(k: Kernel<C>, model: string, contents: iset<C>, ix: Index<C>, ids: seq<int>)
    requires Honest(k, model, contents, ix) && forall id | id in ids :: id in ix.rows && Claimable(k, ix, id, model)
    ensures HonestEntries(k, model, contents, Attempted(ix.entries, ids))
    ensures HonestJobs(k, contents, Jobs(k, ix, ids))
  {
  }

  lemma StepStaysHonest<C>(k: Kernel<C>, model: string, contents: iset<C>, ix: Index<C>, step: Step<C>)
    requires Honest(k, model, contents, ix) && Enabled(k, ix, step) && Uses(step, model, contents)
    ensures Honest(k, model, contents, Taken(k, ix, step))
  {
    match step
    case Import(batch, _) => ImportStaysHonest(k, model, contents, ix, batch);
    case Claim(_, ids, _) => ClaimStaysHonest(k, model, contents, ix, ids);
    case Save(worker, _) => SaveStaysHonest(k, model, contents, ix.entries, ix.inFlight[worker]);
    case _ =>
  }

  lemma {:induction false} HistoryIsHonest<C>(k: Kernel<C>, model: string, contents: iset<C>, ix: Index<C>, steps: seq<Step<C>>)
    requires Honest(k, model, contents, ix) && Legal(k, ix, steps) && AllUse(steps, model, contents)
    ensures Honest(k, model, contents, Play(k, ix, steps))
    decreases |steps|
  {
    hide Honest, Taken, Enabled;
    if steps != [] {
      StepStaysHonest(k, model, contents, ix, steps[0]);
      HistoryIsHonest(k, model, contents, Taken(k, ix, steps[0]), steps[1..]);
    }
  }

  /** Every row the workers consider up to date holds the vector of the row's current content. */
  predicate Truthful<C>(k: Kernel<C>, model: string, ix: Index<C>) {
    forall id | id in ix.rows && UpToDate(ix, id, model) ::
      ix.entries[id].vector.value == k.encode(model, k.text(ix.rows[id].content))
  }

  ghost predicate AlwaysTruthful<C(!new)>(k: Kernel<C>, model: string, contents: iset<C>) {
    forall steps | Legal(k, Empty<C>(), steps) && AllUse(steps, model, contents) :: Truthful(k, model, Play(k, Empty<C>(), steps))
  }

  /** Contents with the same hash have the same vector. */
  ghost predicate HashDecides<C>(k: Kernel<C>, model: string, contents: iset<C>) {
    forall c, c' | c in contents && c' in contents && k.hash(c) == k.hash(c') :: k.encode(model, k.text(c)) == k.encode(model, k.text(c'))
  }

  lemma HonestIsTruthful<C>(k: Kernel<C>, model: string, contents: iset<C>, ix: Index<C>)
    requires Honest(k, model, contents, ix) && HashDecides(k, model, contents)
    ensures Truthful(k, model, ix)
  {
  }

  /** Two contents with one hash: the second is imported over the first one's vector. */
  lemma CollisionMisleads<C>(k: Kernel<C>, model: string, contents: iset<C>, c: C, c': C) returns (steps: seq<Step<C>>)
    requires c in contents && c' in contents && k.hash(c) == k.hash(c') && k.encode(model, k.text(c)) != k.encode(model, k.text(c'))
    requires k.maxRetries > 0
    ensures Legal(k, Empty<C>(), steps) && AllUse(steps, model, contents) && !Truthful(k, model, Play(k, Empty<C>(), steps))
  {
    var s1, s2, s3, s4 := Import([Imported(0, c, true)], model), Claim(0, [0], model), Save(0, model), Import([Imported(0, c', true)], model);
    steps := [s1, s2, s3, s4];
    var x1 := ImportedOne(k, Empty<C>(), 0, c, model);
    assert Claimable(k, x1, 0, model);
    var x2 := Taken(k, x1, s2);
    assert x2.inFlight[0] == [JobFor(k, x1, 0)];
    var x3 := SavedFirst(k, x2, JobFor(k, x1, 0), model);
    var x4 := ImportedOne(k, x3, 0, c', model);
    FourSteps(k, Empty<C>(), s1, s2, s3, s4);
    assert UpToDate(x4, 0, model);
    assert x4.entries[0].vector.value == k.encode(model, k.text(c));
  }

  lemma ImportedOne<C>(k: Kernel<C>, ix: Index<C>, id: int, c: C, model: string) returns (next: Index<C>)
    ensures Enabled(k, ix, Import([Imported(id, c, true)], model)) && next == Taken(k, ix, Import([Imported(id, c, true)], model))
    ensures next == ImportOne(k, ix, id, c, true, model)
  {
    var batch := [Imported(id, c, true)];
    assert batch[..0] == [];
    assert ImportAll(k, ix, batch[..0], model) == ix;
    next := ImportOne(k, ix, id, c, true, model);
  }

  lemma SavedFirst<C>(k: Kernel<C>, ix: Index<C>, job: Job, model: string) returns (next: Index<C>)
    requires 0 in ix.inFlight && ix.inFlight[0] == [job]
    ensures next == Taken(k, ix, Save(0, model))
    ensures next.rows == ix.rows && next.entries == SavedOne(ix.entries, job, k.encode(model, job.text), model)
  {
    next := Taken(k, ix, Save(0, model));
    var jobs, vectors := [job], Encoded(k, model, [job]);
    assert jobs[..0] == [] && SavedAll(ix.entries, jobs[..0], vectors[..0], model) == ix.entries;
  }

  lemma FourSteps<C>(k: Kernel<C>, ix: Index<C>, s1: Step<C>, s2: Step<C>, s3: Step<C>, s4: Step<C>)
    requires Enabled(k, ix, s1)
    requires var x1 := Taken(k, ix, s1); Enabled(k, x1, s2)
    requires var x2 := Taken(k, Taken(k, ix, s1), s2); Enabled(k, x2, s3)
    requires var x3 := Taken(k, Taken(k, Taken(k, ix, s1), s2), s3); Enabled(k, x3, s4)
    ensures Legal(k, ix, [s1, s2, s3, s4])
    ensures Play(k, ix, [s1, s2, s3, s4]) == Taken(k, Taken(k, Taken(k, Taken(k, ix, s1), s2), s3), s4)
  {
    hide Enabled, Taken;
    assert [s1, s2, s3, s4][1..] == [s2, s3, s4];
    assert [s2, s3, s4][1..] == [s3, s4];
    assert [s3, s4][1..] == [s4];
    assert [s4][1..] == [];
    var x1 := Taken(k, ix, s1);
    var x2 := Taken(k, x1, s2);
    var x3 := Taken(k, x2, s3);
    assert Legal(k, Taken(k, x3, s4), []);
    assert Legal(k, x3, [s4]);
    assert Legal(k, x2, [s3, s4]);
    assert Legal(k, x1, [s2, s3, s4]);
    assert Play(k, x3, [s4]) == Play(k, Taken(k, x3, s4), []);
    assert Play(k, x2, [s3, s4]) == Play(k, x3, [s4]);
    assert Play(k, x1, [s2, s3, s4]) == Play(k, x2, [s3, s4]);
  }

  /** Index truthfulness over every interleaving, and exactly when it holds: the index never shows
      a live row as up to date with another content's vector if and only if equal hashes mean equal
      vectors for the contents that are imported. */
  lemma TruthfulExactly<C(!new)>(k: Kernel<C>, model: string, contents: iset<C>)
    requires k.maxRetries > 0
    ensures AlwaysTruthful(k, model, contents) <==> HashDecides(k, model, contents)
  {
    if HashDecides(k, model, contents) {
      forall steps | Legal(k, Empty<C>(), steps) && AllUse(steps, model, contents) ensures Truthful(k, model, Play(k, Empty<C>(), steps)) {
        HistoryIsHonest(k, model, contents, Empty<C>(), steps);
        HonestIsTruthful(k, model, contents, Play(k, Empty<C>(), steps));
      }
    } else {
      var c, c' :| c in contents && c' in contents && k.hash(c) == k.hash(c') && k.encode(model, k.text(c)) != k.encode(model, k.text(c'));
      var steps := CollisionMisleads(k, model, contents, c, c');
    }
  }

  /** With a second storage model the promise is gone: an import relabels the old model's vector. */
  lemma RelabelMisleads<C>(k: Kernel<C>, model: string, model': string, c: C) returns (steps: seq<Step<C>>)
    requires k.encode(model, k.text(c)) != k.encode(model', k.text(c)) && k.maxRetries > 0
    ensures Legal(k, Empty<C>(), steps) && !Truthful(k, model', Play(k, Empty<C>(), steps))
  {
    var s1, s2, s3, s4 := Import([Imported(0, c, true)], model), Claim(0, [0], model), Save(0, model), Import([Imported(0, c, true)], model');
    steps := [s1, s2, s3, s4];
    var x1 := ImportedOne(k, Empty<C>(), 0, c, model);
    assert Claimable(k, x1, 0, model);
    var x2 := Taken(k, x1, s2);
    assert x2.inFlight[0] == [JobFor(k, x1, 0)];
    var x3 := SavedFirst(k, x2, JobFor(k, x1, 0), model);
    var x4 := ImportedOne(k, x3, 0, c, model');
    FourSteps(k, Empty<C>(), s1, s2, s3, s4);
    assert UpToDate(x4, 0, model');
    assert x4.entries[0].vector.value == k.encode(model, k.text(c));
  }

  // ---------- Staleness heals ----------

  /** A write to the index: under a changed hash the vector goes and the attempts start anew, under the
      same one both stay; the label and the tag are the written ones; no other entry changes. */
  lemma TaggingExactly(entries: map<int, Entry>, id: int, tag: Versioned, model: string)
    ensures var after := Tagged(entries, id, tag, model);
            && after.Keys == entries.Keys + {id} && after[id].model == model && after[id].tag == tag
            && (forall other | other in entries && other != id :: after[other] == entries[other])
            && (if id in entries && entries[id].tag.hash == tag.hash
                then after[id].vector == entries[id].vector && after[id].attempts == entries[id].attempts && after[id].status == entries[id].status
                else after[id].vector.None? && after[id].attempts == 0 && after[id].status == Waiting)
  {
  }

  /** What can be claimed: a served row with attempts left whose entry has no vector, one of another
      model, one of another hash, or one of another version. */
  lemma ClaimableExactly<C>(k: Kernel<C>, ix: Index<C>, id: int, model: string)
    requires id in ix.rows && id in ix.entries
    ensures Claimable(k, ix, id, model) <==>
            var row, entry := ix.rows[id], ix.entries[id];
            && row.live && entry.attempts < k.maxRetries
            && (entry.vector.None? || entry.model != model || entry.tag.hash != row.stamp.hash || entry.tag.version != row.stamp.version)
  {
  }

  /** Changed content can be claimed for every model, however often encoding the old one failed. */
  lemma ChangedContentIsClaimable<C>(k: Kernel<C>, ix: Index<C>, id: int, content: C, written: string, model: string)
    requires k.maxRetries > 0 && (id in ix.entries ==> ix.entries[id].tag.hash != k.hash(content))
    ensures Claimable(k, ImportOne(k, ix, id, content, true, written), id, model)
  {
  }

  /** Importing a row again without a change costs no encoding. */
  lemma UnchangedImportStaysUpToDate<C>(k: Kernel<C>, ix: Index<C>, id: int, content: C, live: bool, model: string)
    requires UpToDate(ix, id, model) && k.hash(content) == ix.rows[id].stamp.hash
    ensures UpToDate(ImportOne(k, ix, id, content, live, model), id, model)
  {
  }

  /** A saved vector counts as up to date exactly when the row has not changed since it was claimed;
      a live row that has changed can be claimed again at once. */
  lemma SaveSettlesExactly<C>(k: Kernel<C>, ix: Index<C>, job: Job, vector: Vector, model: string)
    requires job.id in ix.rows && job.id in ix.entries && k.maxRetries > 0
    ensures var after := ix.(entries := SavedOne(ix.entries, job, vector, model));
            && after.entries[job.id].vector == Some(vector) && after.entries[job.id].attempts == 0 && after.entries[job.id].status == Done
            && (UpToDate(after, job.id, model) <==> job.tag == ix.rows[job.id].stamp)
            && (ix.rows[job.id].live && !UpToDate(after, job.id, model) ==> Claimable(k, after, job.id, model))
  {
  }

  /** Resetting failed entries frees a stale live row exactly when it has attempts left or was marked
      failed with enough attempts: one whose worker died on its last attempt stays out of reach. FAQs
      reset from the retry limit on, skills from zero. */
  lemma ResetFreesExactly<C>(k: Kernel<C>, ix: Index<C>, id: int, least: nat, model: string)
    requires id in ix.rows && id in ix.entries && ix.rows[id].live && !UpToDate(ix, id, model) && k.maxRetries > 0
    ensures ix.entries[id].status == Failed && ix.entries[id].attempts >= least ==>
              FailedReset(ix.entries, least)[id] == ix.entries[id].(status := Waiting, attempts := 0)
    ensures !(ix.entries[id].status == Failed && ix.entries[id].attempts >= least) ==> FailedReset(ix.entries, least)[id] == ix.entries[id]
    ensures Claimable(k, ix.(entries := FailedReset(ix.entries, least)), id, model)
            <==> ix.entries[id].attempts < k.maxRetries || (ix.entries[id].status == Failed && ix.entries[id].attempts >= least)
  {
  }

  // ---------- What a transaction changes ----------

  predicate JobOf(jobs: seq<Job>, id: int) {
    exists j | 0 <= j < |jobs| :: jobs[j].id == id
  }

  /** The last job for a row decides its entry. */
  ghost predicate SettledBy<C>(k: Kernel<C>, model: string, jobs: seq<Job>, j: int, entry: Entry) {
    && 0 <= j < |jobs| && (forall i | j < i < |jobs| :: jobs[i].id != jobs[j].id)
    && entry == Entry(Some(k.encode(model, jobs[j].text)), model, jobs[j].tag, Done, 0)
  }

  lemma {:induction false} SavedExactly<C>(k: Kernel<C>, model: string, entries: map<int, Entry>, jobs: seq<Job>, id: int)
    requires id in entries
    ensures var saved := SavedAll(entries, jobs, Encoded(k, model, jobs), model);
            && id in saved
            && (!JobOf(jobs, id) ==> saved[id] == entries[id])
            && (JobOf(jobs, id) ==> exists j :: SettledBy(k, model, jobs, j, saved[id]) && jobs[j].id == id)
    decreases |jobs|
  {
    if jobs != [] {
      var n := |jobs| - 1;
      assert Encoded(k, model, jobs)[..n] == Encoded(k, model, jobs[..n]);
      SavedExactly(k, model, entries, jobs[..n], id);
      SaveStaysIndexed(entries, jobs[..n], Encoded(k, model, jobs[..n]), model);
      var saved := SavedAll(entries, jobs, Encoded(k, model, jobs), model);
      assert forall i | 0 <= i < n :: jobs[..n][i] == jobs[i];
      if jobs[n].id == id {
        assert SettledBy(k, model, jobs, n, saved[id]);
      } else if JobOf(jobs, id) {
        var i :| 0 <= i < |jobs| && jobs[i].id == id;
        assert jobs[..n][i].id == id;
        var j :| SettledBy(k, model, jobs[..n], j, saved[id]) && jobs[..n][j].id == id;
        assert SettledBy(k, model, jobs, j, saved[id]);
      }
    }
  }

  /** What the transactions of a worker change: a claim takes the current text and stamp of its rows into
      flight and counts an attempt for each; a save settles each of them and a failure marks them, both
      land the worker; rows stay, and so do all other entries and workers. */
  lemma WorkerSteps<C>(k: Kernel<C>, ix: Index<C>, step: Step<C>, id: int)
    requires Enabled(k, ix, step) && (step.Claim? || step.Save? || step.Fail?) && id in ix.entries
    ensures var after, w := Taken(k, ix, step), step.worker;
            && after.rows == ix.rows && id in after.entries
            && after.inFlight.Keys == (if step.Claim? then ix.inFlight.Keys + {w} else ix.inFlight.Keys - {w})
            && (forall v | v in ix.inFlight && v != w :: after.inFlight[v] == ix.inFlight[v])
            && match step
               case Claim(_, ids, _) =>
                 && |after.inFlight[w]| == |ids|
                 && (forall i | 0 <= i < |ids| ::
                       ids[i] in ix.rows && after.inFlight[w][i] == Job(ids[i], ix.rows[ids[i]].stamp, k.text(ix.rows[ids[i]].content)))
                 && after.entries[id] == (if id in ids then ix.entries[id].(status := Processing, attempts := ix.entries[id].attempts + 1) else ix.entries[id])
               case Save(_, model) =>
                 if JobOf(ix.inFlight[w], id) then
                   exists j :: SettledBy(k, model, ix.inFlight[w], j, after.entries[id]) && ix.inFlight[w][j].id == id
                 else after.entries[id] == ix.entries[id]
               case _ =>
                 after.entries[id] == if JobOf(ix.inFlight[w], id) then ix.entries[id].(status := Failed) else ix.entries[id]
  {
    match step
    case Save(w, model) => SavedExactly(k, model, ix.entries, ix.inFlight[w], id);
    case Fail(w) =>
      var jobs := ix.inFlight[w];
      if JobOf(jobs, id) { var j :| 0 <= j < |jobs| && jobs[j].id == id; }
      assert MarkedFailed(ix.entries, jobs)[id] == if JobOf(jobs, id) then ix.entries[id].(status := Failed) else ix.entries[id];
    case Claim(w, ids, _) =>
      forall i | 0 <= i < |ids| ensures ids[i] in ix.rows && Jobs(k, ix, ids)[i] == JobFor(k, ix, ids[i]) {
        assert ids[i] in ids && Claimable(k, ix, ids[i], step.model);
      }
  }

  /** What the other transactions change: serving a row or not, the tag of an entry, the failed entries;
      no import, tag or reset touches what workers have in flight. */
  lemma OtherSteps<C>(k: Kernel<C>, ix: Index<C>, step: Step<C>)
    requires Enabled(k, ix, step) && !step.Claim? && !step.Save? && !step.Fail?
    ensures var after := Taken(k, ix, step);
            && after.inFlight == ix.inFlight
            && match step
               case SetLive(id, live) =>
                 after.entries == ix.entries && after.rows == ix.rows[id := Row(ix.rows[id].content, ix.rows[id].stamp, live)]
               case Retag(id, tag, model) =>
                 && after.rows == ix.rows && id in after.entries && after.entries[id].tag == tag && after.entries[id].model == model
                 && forall other | other in ix.entries && other != id :: other in after.entries && after.entries[other] == ix.entries[other]
               case Reset(_) => after.rows == ix.rows && after.entries.Keys == ix.entries.Keys
               case _ => true
  {
    if step.Import? { ImportKeepsFlight(k, ix, step.batch, step.model); }
  }

  lemma {:induction false} ImportKeepsFlight<C>(k: Kernel<C>, ix: Index<C>, batch: seq<Imported<C>>, model: string)
    ensures ImportAll(k, ix, batch, model).inFlight == ix.inFlight
  {
    if batch != [] { ImportKeepsFlight(k, ix, batch[..|batch| - 1], model); }
  }

  // ---------- Every row is indexed ----------

  /** Every content row has its entry in the index. */
  predicate Indexed<C>(ix: Index<C>) {
    ix.rows.Keys <= ix.entries.Keys
  }

  lemma {:induction false} ImportStaysIndexed<C>(k: Kernel<C>, ix: Index<C>, batch: seq<Imported<C>>, model: string)
    requires Indexed(ix)
    ensures Indexed(ImportAll(k, ix, batch, model))
  {
    if batch != [] { ImportStaysIndexed(k, ix, batch[..|batch| - 1], model); }
  }

  lemma {:induction false} SaveStaysIndexed(entries: map<int, Entry>, jobs: seq<Job>, vectors: seq<Vector>, model: string)
    requires |jobs| == |vectors|
    ensures SavedAll(entries, jobs, vectors, model).Keys == entries.Keys
    decreases |jobs|
  {
    if jobs != [] {
      var n := |jobs| - 1;
      SaveStaysIndexed(entries, jobs[..n], vectors[..n], model);
    }
  }

  lemma {:induction false} HistoryIsIndexed<C>(k: Kernel<C>, ix: Index<C>, steps: seq<Step<C>>)
    requires Indexed(ix) && Legal(k, ix, steps)
    ensures Indexed(Play(k, ix, steps))
    decreases |steps|
  {
    if steps != [] {
      StepStaysIndexed(k, ix, steps[0]);
      HistoryIsIndexed(k, Taken(k, ix, steps[0]), steps[1..]);
    }
  }

  lemma StepStaysIndexed<C>(k: Kernel<C>, ix: Index<C>, step: Step<C>)
    requires Indexed(ix) && Enabled(k, ix, step)
    ensures Indexed(Taken(k, ix, step))
  {
    match step
    case Import(batch, model) => ImportStaysIndexed(k, ix, batch, model);
    case Save(worker, model) => SaveStaysIndexed(ix.entries, ix.inFlight[worker], Encoded(k, model, ix.inFlight[worker]), model);
    case _ =>
  }

  // ---------- Versions ----------

  lemma {:induction false} ImportEvolves<C>(k: Kernel<C>, ix: Index<C>, batch: seq<Imported<C>>, model: string, id: int)
    requires id in ix.rows
    ensures var after := ImportAll(k, ix, batch, model);
            id in after.rows && Evolves(ix.rows[id].stamp, after.rows[id].stamp)
  {
    if batch != [] { ImportEvolves(k, ix, batch[..|batch| - 1], model, id); }
  }

  /** Rows are never lost, and a row that still has the version it had has the hash it had. */
  lemma {:induction false} HistoryEvolves<C>(k: Kernel<C>, ix: Index<C>, steps: seq<Step<C>>, id: int)
    requires Legal(k, ix, steps) && id in ix.rows
    ensures var after := Play(k, ix, steps);
            id in after.rows && Evolves(ix.rows[id].stamp, after.rows[id].stamp)
    decreases |steps|
  {
    if steps != [] {
      if steps[0].Import? { ImportEvolves(k, ix, steps[0].batch, steps[0].model, id); }
      HistoryEvolves(k, Taken(k, ix, steps[0]), steps[1..], id);
    }
  }
}
