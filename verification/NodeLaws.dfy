/** What single planner nodes do, said about their inputs and the state they leave. */
module NodeLaws {
  import opened Json
  import RankedMerge
  import opened Planner
  import opened Filters
  import PlannerStore

  /** Python's truth: all but these. */
  lemma TruthyExactly(v: Json)
    ensures Truthy(v) <==> v !in {Null, Bool(false), Num(0.0), Str(""), Arr([]), Obj(map[])}
  {
  }

  // ---------- Before the first think ----------

  /** A turn starts undecided and running, with nothing but the observations and the loop count it is
      resumed with. */
  lemma NewTurn(observations: seq<Json>, loopCount: nat)
    ensures var s := Fresh(observations, loopCount);
            && s.toolObservations == observations && s.loopCount == loopCount && s.status == Running && s.route == NoRoute
            && s.answer.None? && s.decision.None? && s.selfCheck.None? && s.approvalRequests == Arr([])
            && s.context == map[] && s.skills == [] && s.retrievedFaqs == [] && s.errors == [] && s.trace == []
            && s.autoSkills == Arr([]) && s.sessionSkills == Arr([]) && s.skillRetrieval == s.intent == Obj(map[])
  {
  }

  /** The nodes ask their oracles about the request, and load_context takes what it is given. */
  lemma ContextIsLoaded(env: Env, tick: nat, s: State)
    ensures match env.deps.loadContext(tick, env.request)
            case Raise(error) => Visit(env, tick, LoadContext, s) == Raise(error)
            case Ok(context) => Visit(env, tick, LoadContext, s).Ok? && Visit(env, tick, LoadContext, s).value.state.context == context
  {
  }

  /** Skills are optional: a missing loader, like one that raises, skips them and says why; the run
      goes on. */
  lemma SkillLoadingDegrades(env: Env, tick: nat, context: Context)
    ensures var result := LoadSkillsExec(env, tick, context);
            && (env.deps.loadSkills.None? ==>
                  Get(Obj(result), "skipped") == Bool(true) && Get(Obj(result), "skills") == Arr([]) && Get(Obj(result), "reason") == Str("no_skill_loader"))
            && (env.deps.loadSkills.Some? ==>
                  match env.deps.loadSkills.value(tick, env.request, context)
                  case Ok(loaded) => result == loaded
                  case Raise(error) =>
                    Get(Obj(result), "skipped") == Bool(true) && Get(Obj(result), "skills") == Arr([])
                    && Get(Obj(result), "reason") == Str("skill_loader_error") && Get(Obj(result), "error") == Str(error))
  {
  }

  /** Without a guard the planner goes on; a guard that raises does not let it. */
  lemma GuardDecides(env: Env, tick: nat, context: Context)
    ensures env.deps.preGuard.None? ==>
              PreGuardExec(env, tick, context).Ok? && Get(PreGuardExec(env, tick, context).value, "route_hint") == Str("planner")
    ensures env.deps.preGuard.Some? ==> PreGuardExec(env, tick, context) == env.deps.preGuard.value(tick, env.request, context)
  {
  }

  // ---------- think ----------

  /** The model decides while iterations remain; then the run is handed off without asking it. */
  lemma ModelDecidesExactly(env: Env, tick: nat, s: State)
    ensures if s.loopCount < env.maxIterations then ThinkExec(env, tick, s) == env.deps.think(tick, env.request, s)
            else ThinkExec(env, tick, s).Ok?
                 && var d := ThinkExec(env, tick, s).value;
                    d.route == Handoff && d.answer == Some("当前问题需要人工进一步处理。") && d.toolCalls == [] && d.toolName.None?
  {
  }

  // ---------- execute_tool ----------

  /** One tool, run safely: its own fields win, a raise becomes an error result, and either way the
      result says which call it answers. */
  lemma ToolResultNamesItsCall(env: Env, tick: nat, index: nat, call: ToolCall, s: State)
    ensures var result := RunToolSafely(env, tick, index, call, s);
            match env.deps.runTool(tick, index, env.request, call, s)
            case Ok(fields) =>
              && result.Obj?
              && (forall k | k in fields :: k in result.fields && result.fields[k] == fields[k])
              && ("call_id" !in fields ==> Get(result, "call_id") == Str(call.callId))
              && ("tool_name" !in fields ==> Get(result, "tool_name") == Str(call.toolName))
              && ("args" !in fields ==> Get(result, "args") == call.toolArgs)
              && (forall k | k in result.fields :: k in fields || k in {"call_id", "tool_name", "args"})
            case Raise(error) =>
              && Get(result, "status") == Str("error") && Get(result, "error") == Str(error)
              && Get(result, "call_id") == Str(call.callId) && Get(result, "tool_name") == Str(call.toolName) && Get(result, "args") == call.toolArgs
  {
  }

  /** A batch runner gets the decision's calls; without one each call is run, in order; a decision
      without calls raises. */
  lemma BatchRunsTheCalls(env: Env, tick: nat, s: State)
    ensures var calls := StoredCalls(s);
            var exec := ExecuteToolExec(env, tick, s);
            && (calls == [] ==> exec.Raise?)
            && (calls != [] && env.deps.runTools.Some? ==> exec == env.deps.runTools.value(tick, env.request, calls, s))
            && (calls != [] && env.deps.runTools.None? ==>
                  exec.Ok? && Get(Obj(exec.value), "results").Arr?
                  && var results := Get(Obj(exec.value), "results").items;
                     |results| == |calls| && forall i | 0 <= i < |calls| :: results[i] == RunToolSafely(env, tick, i, calls[i], s))
  {
  }

  /** The calls of a decision: those listed, else its single tool, else none. */
  lemma CallsOfADecision(d: Decision)
    ensures d.toolCalls != [] ==> DecisionToolCalls(d) == d.toolCalls
    ensures d.toolCalls == [] && d.toolName.Some? && d.toolName.value != "" ==>
              DecisionToolCalls(d) == [ToolCall("tool-call-1", d.toolName.value, d.toolArgs, d.reason)]
    ensures d.toolCalls == [] && (d.toolName.None? || d.toolName.value == "") ==> DecisionToolCalls(d) == []
  {
  }

  /** A tool goes by its name, alone or behind any prefix and a dot. */
  lemma NamedExactly(result: Json, name: string)
    ensures NamedTool(result, name) <==> Get(result, "tool_name") == Str(name) || exists prefix :: Get(result, "tool_name") == Str(prefix + "." + name)
  {
    var tool := Get(result, "tool_name");
    if tool.Str? && EndsWith(tool.text, "." + name) {
      var prefix := tool.text[..|tool.text| - |"." + name|];
      assert tool.text == prefix + ("." + name) == prefix + "." + name;
    }
    if prefix :| Get(result, "tool_name") == Str(prefix + "." + name) {
      assert prefix + "." + name == prefix + ("." + name);
      assert (prefix + ("." + name))[|prefix|..] == "." + name;
    }
  }

  // ---------- Skills loaded by a batch ----------

  function LoadedSkill(result: Json): Json {
    Get(Get(result, "output"), "skill")
  }

  /** The result of a tool that has newly loaded a skill. */
  predicate Loads(result: Json) {
    && NamedTool(result, "load_skill") && LoadedSkill(result).Obj?
    && Truthy(Get(Get(result, "output"), "loaded")) && !Truthy(Get(Get(result, "output"), "already_loaded"))
  }

  predicate AnyLoads(results: seq<Json>) {
    exists i :: 0 <= i < |results| && Loads(results[i])
  }

  function LoadedId(result: Json): Json {
    Get(LoadedSkill(result), "id")
  }

  /** A loaded skill as the state holds it. */
  function AsLoaded(result: Json): Json {
    var fields := if LoadedSkill(result).Obj? then LoadedSkill(result).fields else map[];
    Obj(fields["availability" := Str("tool_loaded")])
  }

  /** One result: a newly loaded skill goes to the end, in place of any other of its id. */
  lemma OneLoadedSkill(s: State, result: Json)
    ensures var after := MergeLoadedSkills(s, [result]);
            if Loads(result) then
              && after.skills == Filter(s.skills, PlannerStore.OtherThan(LoadedId(result))) + [AsLoaded(result)]
              && after.context == s.context["skills" := Arr(after.skills)]
            else after == s
  {
    assert [result][..0] == [] && MergeLoadedSkills(s, [result][..0]) == s;
    if Loads(result) {
      assert Get(AsLoaded(result), "id") == LoadedId(result);
      PlannerStore.WithoutIsFiltered(s.skills, LoadedId(result));
    }
  }

  /** Results are merged one after the other. */
  lemma {:induction false} SkillsOneByOne(s: State, a: seq<Json>, b: seq<Json>)
    ensures MergeLoadedSkills(s, a + b) == MergeLoadedSkills(MergeLoadedSkills(s, a), b)
    decreases |b|
  {
    if b == [] {
      assert a + b == a;
    } else {
      assert (a + b)[..|a + b| - 1] == a + b[..|b| - 1];
      SkillsOneByOne(s, a, b[..|b| - 1]);
    }
  }

  /** Where a batch last loads a skill of this id. */
  function LastLoaded(results: seq<Json>, id: Json): (i: Option<nat>)
    ensures i.Some? ==>
              && i.value < |results| && Loads(results[i.value]) && LoadedId(results[i.value]) == id
              && forall j | i.value < j < |results| && Loads(results[j]) :: LoadedId(results[j]) != id
    ensures i.None? ==> forall j | 0 <= j < |results| && Loads(results[j]) :: LoadedId(results[j]) != id
  {
    if results == [] then None
    else
      var n := |results| - 1;
      if Loads(results[n]) && LoadedId(results[n]) == id then Some(n)
      else
        assert forall j | 0 <= j < n :: results[..n][j] == results[j];
        LastLoaded(results[..n], id)
  }

  function WithId(id: Json): Json -> bool {
    (skill: Json) => Get(skill, "id") == id
  }

  function SkillsOf(s: State, id: Json): seq<Json> {
    Filter(s.skills, WithId(id))
  }

  lemma ReplacedSkill(skills: seq<Json>, item: Json, replaced: Json, id: Json)
    requires Get(item, "id") == replaced
    ensures Filter(Filter(skills, PlannerStore.OtherThan(replaced)) + [item], WithId(id)) ==
            if id == replaced then [item] else Filter(skills, WithId(id))
  {
    var others := Filter(skills, PlannerStore.OtherThan(replaced));
    FilterSnoc(others, item, WithId(id));
    FilterTwice(skills, WithId(id), PlannerStore.OtherThan(replaced));
    hide Filter, Get;
    if id == replaced {
      assert forall x :: WithId(id)(x) ==> !PlannerStore.OtherThan(replaced)(x);
    } else {
      assert forall x :: WithId(id)(x) ==> PlannerStore.OtherThan(replaced)(x);
    }
  }

  lemma LoadedOf(s: State, result: Json, id: Json)
    ensures var after := MergeLoadedSkills(s, [result]);
            && SkillsOf(after, id) == (if Loads(result) && LoadedId(result) == id then [AsLoaded(result)] else SkillsOf(s, id))
            && (if Loads(result) then after.context == s.context["skills" := Arr(after.skills)] else after == s)
  {
    hide Loads, MergeLoadedSkills, LoadedId, AsLoaded, Filter, WithId, Get;
    OneLoadedSkill(s, result);
    if Loads(result) {
      AsLoadedId(result);
      ReplacedSkill(s.skills, AsLoaded(result), LoadedId(result), id);
    }
  }

  lemma AsLoadedId(result: Json)
    requires Loads(result)
    ensures Get(AsLoaded(result), "id") == LoadedId(result)
  {
  }

  /** After a batch the state holds, under each id the batch has loaded, the skill loaded last and no
      other, and under every other id what it held before; the context lists the same skills. */
  lemma {:induction false} BatchLoadsSkills(s: State, results: seq<Json>, id: Json)
    ensures var after := MergeLoadedSkills(s, results);
            && SkillsOf(after, id) == (match LastLoaded(results, id) case Some(i) => [AsLoaded(results[i])] case None => SkillsOf(s, id))
            && (if AnyLoads(results) then after.context == s.context["skills" := Arr(after.skills)] else after == s)
    decreases |results|
  {
    hide *;
    if results == [] {
      NothingMerged(s, id);
    } else {
      var n := |results| - 1;
      BatchLoadsSkills(s, results[..n], id);
      assert results == results[..n] + [results[n]];
      SkillsOneByOne(s, results[..n], [results[n]]);
      LoadedOf(MergeLoadedSkills(s, results[..n]), results[n], id);
      LastLoadedStep(results, id);
    }
  }

  lemma LastLoadedStep(results: seq<Json>, id: Json)
    requires results != []
    ensures var n := |results| - 1;
            && LastLoaded(results, id) == (if Loads(results[n]) && LoadedId(results[n]) == id then Some(n) else LastLoaded(results[..n], id))
            && (LastLoaded(results[..n], id).Some? ==> results[..n][LastLoaded(results[..n], id).value] == results[LastLoaded(results[..n], id).value])
            && (AnyLoads(results) <==> AnyLoads(results[..n]) || Loads(results[n]))
  {
    var n := |results| - 1;
    assert forall j | 0 <= j < n :: results[..n][j] == results[j];
  }

  lemma NothingMerged(s: State, id: Json)
    ensures MergeLoadedSkills(s, []) == s && LastLoaded([], id).None? && !AnyLoads([])
  {
  }

  // ---------- FAQs found by a batch ----------

  /** The result of an FAQ search that lists what it found. */
  predicate Searches(result: Json) {
    NamedTool(result, "search_faq") && Get(Get(result, "output"), "results").Arr?
  }

  function Searching(): Json -> bool {
    (result: Json) => Searches(result)
  }

  /** What a search asked: its output's query, else its argument's, else nothing. */
  predicate Asked(result: Json, query: string) {
    var asked, given := Get(Get(result, "output"), "query"), Get(Get(result, "args"), "query");
    if asked.Str? && asked.text != "" then query == asked.text
    else if given.Str? then query == given.text
    else query == ""
  }

  /** What a search found, item by item. */
  predicate Found(result: Json, items: seq<RankedMerge.Item>) {
    var found := Get(Get(result, "output"), "results");
    found.Arr? && |items| == |found.items| && forall i | 0 <= i < |items| && found.items[i].Obj? :: items[i] == found.items[i].fields
  }

  /** The searches of a batch are those of its results that searched, in order. */
  lemma {:induction false} SearchesOfABatch(results: seq<Json>)
    ensures var hits, searches := Filter(results, Searching()), FaqSearches(results);
            |searches| == |hits| && forall i | 0 <= i < |hits| :: Asked(hits[i], searches[i].0) && Found(hits[i], searches[i].1)
    decreases |results|
  {
    hide NamedTool;
    if results != [] {
      var n := |results| - 1;
      SearchesOfABatch(results[..n]);
      assert results == results[..n] + [results[n]];
      FilterSnoc(results[..n], results[n], Searching());
    }
  }

  // ---------- A whole visit of execute_tool ----------

  /** A batch that was run: its results join the observations; per id the last loaded skill is held;
      with any search the retrieved FAQs become the merge of all of the batch's searches. */
  lemma BatchIsMerged(env: Env, tick: nat, s: State, id: Json)
    requires Visit(env, tick, ExecuteTool, s).Ok? && Visit(env, tick, ExecuteTool, s).value.action != PendingAction
    ensures var after := Visit(env, tick, ExecuteTool, s).value.state;
            && s.toolObservations <= after.toolObservations
            && var results := after.toolObservations[|s.toolObservations|..];
               && SkillsOf(after, id) == (match LastLoaded(results, id) case Some(i) => [AsLoaded(results[i])] case None => SkillsOf(s, id))
               && (AnyLoads(results) ==> after.context == s.context["skills" := Arr(after.skills)])
               && (Filter(results, Searching()) == [] ==> after.retrievedFaqs == s.retrievedFaqs)
               && (Filter(results, Searching()) != [] ==>
                     exists queries, sets :: IsMerge(Filter(results, Searching()), queries, sets, after.retrievedFaqs))
  {
    hide Loads, LastLoaded, LoadedId, AsLoaded, SkillsOf, AnyLoads, Filter, IsMerge, MergeLoadedSkills, MergeFaqs, FaqSearches;
    RanBatch(env, tick, s);
    var results := BatchResults(ExecuteToolExec(env, tick, s).value);
    var start := s.(toolObservations := s.toolObservations + results);
    var merged := MergeLoadedSkills(start, results);
    var after := Visit(env, tick, ExecuteTool, s).value.state;
    hide Visit;
    BatchLoadsSkills(start, results, id);
    MergedFaqs(merged, results);
    OnlySkillsMerged(start, results);
    assert after.toolObservations[|s.toolObservations|..] == results;
    SameSkills(s, start, id); SameSkills(merged, after, id);
  }

  lemma {:induction false} OnlySkillsMerged(s: State, results: seq<Json>)
    ensures var merged := MergeLoadedSkills(s, results);
            merged == s.(skills := merged.skills, context := merged.context)
    decreases |results|
  {
    if results != [] { OnlySkillsMerged(s, results[..|results| - 1]); }
  }

  lemma RanBatch(env: Env, tick: nat, s: State)
    requires Visit(env, tick, ExecuteTool, s).Ok? && Visit(env, tick, ExecuteTool, s).value.action != PendingAction
    ensures ExecuteToolExec(env, tick, s).Ok?
    ensures var results := BatchResults(ExecuteToolExec(env, tick, s).value);
            var merged := MergeFaqs(MergeLoadedSkills(s.(toolObservations := s.toolObservations + results), results), FaqSearches(results));
            var after := Visit(env, tick, ExecuteTool, s).value.state;
            after == merged.(trace := after.trace)
  {
    hide FaqSearches, MergeFaqs, MergeLoadedSkills, CallIds, AnyError, ExecuteToolExec, Get;
  }

  /** The lists of some searches, merged. */
  ghost predicate IsMerge(hits: seq<Json>, queries: seq<string>, sets: seq<seq<RankedMerge.Item>>, merged: seq<RankedMerge.Item>) {
    && |queries| == |sets| == |hits|
    && (forall i | 0 <= i < |hits| :: Asked(hits[i], queries[i]) && Found(hits[i], sets[i]))
    && merged == RankedMerge.Merge(queries, sets)
  }

  lemma SameSkills(a: State, b: State, id: Json)
    requires a.skills == b.skills
    ensures SkillsOf(a, id) == SkillsOf(b, id)
  {
  }

  lemma MergedFaqs(s: State, results: seq<Json>)
    ensures var after, hits := MergeFaqs(s, FaqSearches(results)), Filter(results, Searching());
            && (hits == [] ==> after == s)
            && (hits != [] ==> after == s.(retrievedFaqs := after.retrievedFaqs)
                               && exists queries, sets :: IsMerge(hits, queries, sets, after.retrievedFaqs))
  {
    hide Searches, Asked, Found, FaqSearches;
    SearchesOfABatch(results);
    var searches := FaqSearches(results);
    if searches != [] {
      var queries := seq(|searches|, i requires 0 <= i < |searches| => searches[i].0);
      var sets := seq(|searches|, i requires 0 <= i < |searches| => searches[i].1);
      assert IsMerge(Filter(results, Searching()), queries, sets, MergeFaqs(s, searches).retrievedFaqs);
    }
  }
}
