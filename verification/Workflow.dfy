/** The lifecycle of workflow versions and their projection into the tool catalogue, with each
    publish and retire as one transaction. */
module Workflow {
  import opened Json
  import opened Planner

  datatype Tool = Tool(id: string, version: string, status: string, source: string, body: Json, hash: string)
  datatype Life = Active | Retired
  type Key = (string, string)

  datatype Version = Version(
    life: Life, manifest: Tool,
    createdBy: string, activatedBy: string, activatedAt: int,
    retiredBy: Option<string>, retiredAt: Option<int>)

  datatype Db = Db(versions: map<Key, Version>, tools: map<string, Tool>)

  datatype Call =
    | Publish(tool: Tool, actor: string, now: int)
    | Retire(workflow: string, version: string, actor: string, now: int)

  /** The definition as published: a missing manifest hash is computed. */
  function Hashed(compute: Tool -> string, tool: Tool): Tool {
    if tool.hash != "" then tool else tool.(hash := compute(tool))
  }

  function RetiredRow(row: Version, actor: string, now: int): Version {
    row.(life := Retired, retiredBy := Some(actor), retiredAt := Some(now))
  }

  /** Every other active version of the workflow, retired. */
  function Displaced(versions: map<Key, Version>, workflow: string, version: string, actor: string, now: int): map<Key, Version> {
    map k | k in versions && k.0 == workflow && k.1 != version && versions[k].life == Active :: RetiredRow(versions[k], actor, now)
  }

  /** The published version's row: reactivated if it exists, else new. */
  function Placed(existing: Option<Version>, tool: Tool, actor: string, now: int): Version {
    match existing
    case Some(row) => row.(life := Active, activatedBy := actor, activatedAt := now, retiredBy := None, retiredAt := None)
    case None => Version(Active, tool, actor, actor, now, None, None)
  }

  function Lookup(versions: map<Key, Version>, k: Key): Option<Version> {
    if k in versions then Some(versions[k]) else None
  }

  predicate Refused(versions: map<Key, Version>, tool: Tool) {
    (tool.id, tool.version) in versions && versions[(tool.id, tool.version)].manifest.hash != tool.hash
  }

  /** `publish_workflow_version` of a hashed workflow tool. */
  function AfterPublish(db: Db, tool: Tool, actor: string, now: int): Db {
    if Refused(db.versions, tool) then db
    else
      var k := (tool.id, tool.version);
      Db((db.versions + Displaced(db.versions, tool.id, tool.version, actor, now))[k := Placed(Lookup(db.versions, k), tool, actor, now)],
         db.tools[tool.id := tool])
  }

  /** Retiring keeps who retired a version first, and when. */
  function RetiredAgain(row: Version, actor: string, now: int): Version {
    row.(life := Retired,
         retiredBy := if row.retiredBy.Some? then row.retiredBy else Some(actor),
         retiredAt := if row.retiredAt.Some? then row.retiredAt else Some(now))
  }

  /** The tool row that retiring an active version disables. */
  predicate Projects(tools: map<string, Tool>, workflow: string, version: string) {
    workflow in tools && tools[workflow].source == "workflow" && tools[workflow].version == version
  }

  function Disabled(tools: map<string, Tool>, workflow: string): map<string, Tool>
    requires workflow in tools
  {
    tools[workflow := tools[workflow].(status := "disabled")]
  }

  /** `retire_workflow_version`. */
  function AfterRetire(db: Db, workflow: string, version: string, actor: string, now: int): Db {
    var k := (workflow, version);
    if k !in db.versions then db
    else
      Db(db.versions[k := RetiredAgain(db.versions[k], actor, now)],
         if db.versions[k].life == Active && Projects(db.tools, workflow, version) then Disabled(db.tools, workflow) else db.tools)
  }

  function After(db: Db, call: Call): Db {
    match call
    case Publish(tool, actor, now) => if tool.source != "workflow" then db else AfterPublish(db, tool, actor, now)
    case Retire(workflow, version, actor, now) => AfterRetire(db, workflow, version, actor, now)
  }

  function Play(db: Db, calls: seq<Call>): Db
    decreases |calls|
  {
    if calls == [] then db else Play(After(db, calls[0]), calls[1..])
  }

  const EMPTY := Db(map[], map[])

  // ---------- The invariant ----------

  predicate IsActive(db: Db, k: Key) {
    k in db.versions && db.versions[k].life == Active
  }

  ghost predicate OneActive(db: Db) {
    forall k, k' | IsActive(db, k) && IsActive(db, k') && k.0 == k'.0 :: k == k'
  }

  predicate RetiredFields(row: Version) {
    (row.life == Active <==> row.retiredBy.None?) && (row.life == Active <==> row.retiredAt.None?)
  }

  /** The catalogue carries the active version: same version, same hash. */
  predicate Carries(tool: Tool, k: Key, row: Version) {
    tool.id == k.0 && tool.version == k.1 && tool.source == "workflow" && tool.hash == row.manifest.hash
  }

  ghost predicate Carried(db: Db) {
    forall k | IsActive(db, k) :: k.0 in db.tools && Carries(db.tools[k.0], k, db.versions[k])
  }

  ghost predicate EnabledIsActive(db: Db) {
    forall w | w in db.tools && db.tools[w].status == "active" :: IsActive(db, (w, db.tools[w].version))
  }

  ghost predicate Sound(db: Db) {
    && OneActive(db)
    && (forall k | k in db.versions :: RetiredFields(db.versions[k]))
    && Carried(db)
    && EnabledIsActive(db)
  }

  /** Published versions stay, with the manifest and the author they were created with. */
  predicate Keeps(before: Db, after: Db) {
    forall k | k in before.versions ::
      k in after.versions && after.versions[k].manifest == before.versions[k].manifest && after.versions[k].createdBy == before.versions[k].createdBy
  }

  /** A version after a publish: the published one is placed, other active ones of the workflow
      are retired, the rest is untouched. */
  lemma PublishedVersion(db: Db, tool: Tool, actor: string, now: int, k: Key)
    requires !Refused(db.versions, tool)
    ensures var after := AfterPublish(db, tool, actor, now);
            && (k in after.versions <==> k in db.versions || k == (tool.id, tool.version))
            && (k == (tool.id, tool.version) ==> after.versions[k] == Placed(Lookup(db.versions, k), tool, actor, now))
            && (k != (tool.id, tool.version) && k in db.versions && k.0 == tool.id && db.versions[k].life == Active ==>
                  after.versions[k] == RetiredRow(db.versions[k], actor, now))
            && (k != (tool.id, tool.version) && k in db.versions && !(k.0 == tool.id && db.versions[k].life == Active) ==>
                  after.versions[k] == db.versions[k])
  {
  }

  /** Active versions after a publish: the published one, and those of other workflows. */
  ghost predicate OnlyPlaced(before: Db, after: Db, placed: Key) {
    forall k | IsActive(after, k) && k != placed ::
      k.0 != placed.0 && IsActive(before, k) && after.versions[k] == before.versions[k]
  }

  lemma PublishedRows(db: Db, tool: Tool, actor: string, now: int)
    requires Sound(db) && !Refused(db.versions, tool)
    ensures var after := AfterPublish(db, tool, actor, now);
            && (forall k | k in after.versions :: RetiredFields(after.versions[k]))
            && Keeps(db, after)
            && OnlyPlaced(db, after, (tool.id, tool.version))
  {
    hide OneActive, Carried, EnabledIsActive;
    var after := AfterPublish(db, tool, actor, now);
    hide AfterPublish, Displaced;
    forall k | k in after.versions || k in db.versions
      ensures k in after.versions && RetiredFields(after.versions[k])
      ensures k in db.versions ==>
                after.versions[k].manifest == db.versions[k].manifest && after.versions[k].createdBy == db.versions[k].createdBy
      ensures IsActive(after, k) && k != (tool.id, tool.version) ==>
                k.0 != tool.id && IsActive(db, k) && after.versions[k] == db.versions[k]
    {
      PublishedVersion(db, tool, actor, now, k);
    }
  }

  lemma PlacedKeepsOneActive(db: Db, after: Db, placed: Key)
    requires OneActive(db) && OnlyPlaced(db, after, placed)
    ensures OneActive(after)
  {
  }

  lemma PlacedIsCarried(db: Db, after: Db, placed: Key)
    requires Carried(db) && OnlyPlaced(db, after, placed)
    requires placed.0 in after.tools && placed in after.versions && Carries(after.tools[placed.0], placed, after.versions[placed])
    requires after.tools == db.tools[placed.0 := after.tools[placed.0]]
    ensures Carried(after)
  {
  }

  lemma PublishSound(db: Db, tool: Tool, actor: string, now: int)
    requires Sound(db) && tool.source == "workflow"
    ensures Sound(AfterPublish(db, tool, actor, now)) && Keeps(db, AfterPublish(db, tool, actor, now))
    ensures !Refused(db.versions, tool) ==> IsActive(AfterPublish(db, tool, actor, now), (tool.id, tool.version))
  {
    var after := AfterPublish(db, tool, actor, now);
    var k := (tool.id, tool.version);
    hide Keeps, OneActive, Carried, EnabledIsActive, OnlyPlaced;
    if Refused(db.versions, tool) {
      assert after == db;
      KeepsItself(db);
    } else {
      assert after.tools == db.tools[tool.id := tool];
      hide AfterPublish, Displaced, RetiredFields;
      PublishedRows(db, tool, actor, now);
      PublishedVersion(db, tool, actor, now, k);
      PublishedCatalogue(db, after, tool, actor, now);
      PlacedKeepsOneActive(db, after, k);
      PlacedIsCarried(db, after, k);
    }
  }

  lemma PublishedCatalogue(db: Db, after: Db, tool: Tool, actor: string, now: int)
    requires Sound(db) && !Refused(db.versions, tool) && after == AfterPublish(db, tool, actor, now)
    ensures EnabledIsActive(after)
  {
  }

  lemma RetiredRows(db: Db, workflow: string, version: string, actor: string, now: int)
    requires Sound(db)
    ensures var after := AfterRetire(db, workflow, version, actor, now);
            && Keeps(db, after) && (forall k | k in after.versions :: RetiredFields(after.versions[k]))
            && (forall k | IsActive(after, k) :: IsActive(db, k) && after.versions[k] == db.versions[k] && k != (workflow, version))
            && (forall k | IsActive(db, k) && k != (workflow, version) :: IsActive(after, k))
  {
    hide OneActive, Carried, EnabledIsActive;
  }

  lemma RetireSound(db: Db, workflow: string, version: string, actor: string, now: int)
    requires Sound(db)
    ensures Sound(AfterRetire(db, workflow, version, actor, now)) && Keeps(db, AfterRetire(db, workflow, version, actor, now))
    ensures !IsActive(AfterRetire(db, workflow, version, actor, now), (workflow, version))
  {
    var after := AfterRetire(db, workflow, version, actor, now);
    RetiredRows(db, workflow, version, actor, now);
    forall w | w in after.tools ensures w in db.tools && after.tools[w].(status := "") == db.tools[w].(status := "") {}
    hide AfterRetire, RetiredFields, Keeps;
  }

  lemma StepSound(db: Db, call: Call)
    requires Sound(db)
    ensures Sound(After(db, call)) && Keeps(db, After(db, call))
  {
    hide Sound, Keeps, AfterPublish, AfterRetire;
    match call
    case Publish(tool, actor, now) => if tool.source == "workflow" { PublishSound(db, tool, actor, now); } else { KeepsItself(db); }
    case Retire(workflow, version, actor, now) => RetireSound(db, workflow, version, actor, now);
  }

  lemma KeepsItself(db: Db)
    ensures Keeps(db, db)
  {
  }

  /** Workflow lifecycle over every history of publishes and retires: at most one active version per
      workflow, active exactly when its retired fields are null, carried by the catalogue with its
      hash; an enabled catalogue entry is always that of the active version; and manifests never
      change. */
  lemma {:induction false} LifecycleSound(db: Db, calls: seq<Call>)
    requires Sound(db)
    ensures Sound(Play(db, calls)) && Keeps(db, Play(db, calls))
    decreases |calls|
  {
    hide Sound, Keeps, After;
    if calls == [] {
      KeepsItself(db);
    } else {
      StepSound(db, calls[0]);
      LifecycleSound(After(db, calls[0]), calls[1..]);
      KeepsTransitive(db, After(db, calls[0]), Play(db, calls));
    }
  }

  lemma KeepsTransitive(a: Db, b: Db, c: Db)
    requires Keeps(a, b) && Keeps(b, c)
    ensures Keeps(a, c)
  {
  }

  // ---------- What the hash is worth ----------

  /** The catalogue holds the active version's own definition, apart from its status. */
  ghost predicate Shows(db: Db) {
    forall k | IsActive(db, k) && k.0 in db.tools :: db.tools[k.0].(status := "") == db.versions[k].manifest.(status := "")
  }

  predicate Publishes(calls: seq<Call>, tools: iset<Tool>) {
    forall i | 0 <= i < |calls| && calls[i].Publish? :: calls[i].tool in tools
  }

  /** One definition per identity, version and hash, apart from its status. */
  ghost predicate HashDecides(tools: iset<Tool>) {
    forall t, t' | t in tools && t' in tools && t.source == t'.source == "workflow"
                   && t.id == t'.id && t.version == t'.version && t.hash == t'.hash ::
      t.(status := "") == t'.(status := "")
  }

  ghost predicate Published(db: Db, tools: iset<Tool>) {
    && (forall k | k in db.versions ::
          db.versions[k].manifest in tools && db.versions[k].manifest.source == "workflow"
          && db.versions[k].manifest.id == k.0 && db.versions[k].manifest.version == k.1)
    && (forall w | w in db.tools :: exists t :: t in tools && t.source == "workflow" && t.id == w && t.(status := "") == db.tools[w].(status := ""))
  }

  lemma {:induction false} AllPublished(db: Db, calls: seq<Call>, tools: iset<Tool>)
    requires Published(db, tools) && Publishes(calls, tools)
    ensures Published(Play(db, calls), tools)
    decreases |calls|
  {
    if calls != [] {
      var next := After(db, calls[0]);
      forall w | w in next.tools
        ensures exists t :: t in tools && t.source == "workflow" && t.id == w && t.(status := "") == next.tools[w].(status := "")
      {
        if w in db.tools && next.tools[w].(status := "") == db.tools[w].(status := "") {
          var t :| t in tools && t.source == "workflow" && t.id == w && t.(status := "") == db.tools[w].(status := "");
        } else {
          assert calls[0].tool in tools;
        }
      }
      AllPublished(next, calls[1..], tools);
    }
  }

  /** Publishing trusts the hash it is given: the catalogue always shows the active version's own
      manifest exactly when the hash decides the definition. */
  lemma ShowsExactly(tools: iset<Tool>)
    ensures (forall calls | Publishes(calls, tools) :: Shows(Play(EMPTY, calls))) <==> HashDecides(tools)
  {
    if HashDecides(tools) {
      forall calls | Publishes(calls, tools) ensures Shows(Play(EMPTY, calls)) {
        LifecycleSound(EMPTY, calls);
        AllPublished(EMPTY, calls, tools);
        var db := Play(EMPTY, calls);
        forall k | IsActive(db, k) && k.0 in db.tools
          ensures db.tools[k.0].(status := "") == db.versions[k].manifest.(status := "")
        {
          var t :| t in tools && t.source == "workflow" && t.id == k.0 && t.(status := "") == db.tools[k.0].(status := "");
          assert Carries(db.tools[k.0], k, db.versions[k]);
        }
      }
    } else {
      var t, t' :| t in tools && t' in tools && t.source == t'.source == "workflow"
                   && t.id == t'.id && t.version == t'.version && t.hash == t'.hash && t.(status := "") != t'.(status := "");
      var calls := Republished(t, t');
    }
  }

  lemma Republished(t: Tool, t': Tool) returns (calls: seq<Call>)
    requires t.source == t'.source == "workflow" && t.id == t'.id && t.version == t'.version && t.hash == t'.hash
    requires t.(status := "") != t'.(status := "")
    ensures calls == [Publish(t, "", 0), Publish(t', "", 0)] && !Shows(Play(EMPTY, calls))
  {
    calls := [Publish(t, "", 0), Publish(t', "", 0)];
    assert calls[1..] == [Publish(t', "", 0)] && calls[1..][1..] == [];
    var k := (t.id, t.version);
    var one := After(EMPTY, calls[0]);
    PublishedVersion(EMPTY, t, "", 0, k);
    assert one.versions[k].manifest == t;
    var two := After(one, calls[1]);
    PublishedVersion(one, t', "", 0, k);
    assert two.versions[k].manifest == t && IsActive(two, k) && two.tools[k.0] == t';
    assert Play(one, calls[1..]) == Play(two, []);
  }

  // ---------- The database ----------

  class Store {
    var versions: map<Key, Version>
    var tools: map<string, Tool>

    constructor ()
      ensures ToDb() == EMPTY
    {
      versions, tools := map[], map[];
    }

    function ToDb(): Db
      reads this
    {
      Db(versions, tools)
    }

    /** Statement by statement: refuse changed content, retire the others, insert or reactivate,
        project into the catalogue. */
    method PublishVersion(compute: Tool -> string, definition: Tool, actor: string, now: int) returns (row: Outcome<Version>)
      modifies this
      ensures var tool := Hashed(compute, definition);
              && ToDb() == After(old(ToDb()), Publish(tool, actor, now))
              && (row.Ok? <==> tool.source == "workflow" && !Refused(old(versions), tool))
              && (row.Ok? ==> Lookup(versions, (tool.id, tool.version)) == Some(row.value) && row.value.life == Active && tools[tool.id] == tool)
      ensures row.Raise? ==> versions == old(versions) && tools == old(tools)
      ensures row.Ok? ==>
                var tool := if definition.hash != "" then definition else definition.(hash := compute(definition));
                var k := (tool.id, tool.version);
                && tools == old(tools)[tool.id := tool]
                && versions.Keys == old(versions).Keys + {k}
                && versions[k] == (if k in old(versions)
                                   then old(versions)[k].(life := Active, activatedBy := actor, activatedAt := now, retiredBy := None, retiredAt := None)
                                   else Version(Active, tool, actor, actor, now, None, None))
                && forall other | other in old(versions) && other != k ::
                     versions[other] == if other.0 == tool.id && old(versions)[other].life == Active
                                        then old(versions)[other].(life := Retired, retiredBy := Some(actor), retiredAt := Some(now))
                                        else old(versions)[other]
    {
      if definition.source != "workflow" { return Raise("only workflow tools have versions"); }
      var tool := Hashed(compute, definition);
      var k := (tool.id, tool.version);
      var existing := Lookup(versions, k);
      if existing.Some? && existing.value.manifest.hash != tool.hash { return Raise("published content is immutable"); }
      versions := versions + Displaced(versions, tool.id, tool.version, actor, now);
      if existing.None? {
        versions := versions[k := Version(Active, tool, actor, actor, now, None, None)];
      } else {
        versions := versions[k := versions[k].(life := Active, activatedBy := actor, activatedAt := now, retiredBy := None, retiredAt := None)];
      }
      tools := tools[tool.id := tool];
      return Ok(versions[k]);
    }

    method RetireVersion(workflow: string, version: string, actor: string, now: int) returns (row: Option<Version>)
      modifies this
      ensures ToDb() == After(old(ToDb()), Retire(workflow, version, actor, now))
      ensures row == Lookup(versions, (workflow, version)) && (row.None? <==> (workflow, version) !in old(versions))
      ensures row.None? ==> versions == old(versions) && tools == old(tools)
      ensures row.Some? ==>
                var k, was := (workflow, version), old(versions)[(workflow, version)];
                && versions == old(versions)[k := row.value]
                && row.value == was.(life := Retired,
                                     retiredBy := if was.retiredBy.Some? then was.retiredBy else Some(actor),
                                     retiredAt := if was.retiredAt.Some? then was.retiredAt else Some(now))
                && (if was.life == Active && workflow in old(tools)
                       && old(tools)[workflow].source == "workflow" && old(tools)[workflow].version == version
                    then tools == old(tools)[workflow := old(tools)[workflow].(status := "disabled")]
                    else tools == old(tools))
    {
      var k := (workflow, version);
      if k !in versions { return None; }
      var found := versions[k];
      versions := versions[k := RetiredAgain(found, actor, now)];
      if found.life == Active && Projects(tools, workflow, version) {
        tools := tools[workflow := tools[workflow].(status := "disabled")];
      }
      return Some(versions[k]);
    }
  }
}
