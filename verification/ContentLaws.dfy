/** What counts as usable tool output, said by where in the output it is found. */
module ContentLaws {
  import opened Json
  import opened Planner
  import opened LangGraph
  import opened ConfiguredPlanner
  import opened ConfiguredRuns
  import opened ReplanningBound

  // ---------- Paths into a value ----------

  datatype Hop = Item(i: nat) | Field(key: string)

  function Follow(v: Json, path: seq<Hop>): Option<Json> {
    if path == [] then Some(v)
    else
      match path[0]
      case Item(i) => if v.Arr? && i < |v.items| then Follow(v.items[i], path[1..]) else None
      case Field(key) => if v.Obj? && key in v.fields then Follow(v.fields[key], path[1..]) else None
  }

  /** A path that does not go through bookkeeping. */
  predicate Visible(path: seq<Hop>) {
    forall k | 0 <= k < |path| && path[k].Field? :: path[k].key != "elapsed_ms" && path[k].key != "mcp_tool"
  }

  /** A number, a truth value, or a text with a character that is not blank. */
  predicate Substance(v: Json) {
    v.Num? || v.Bool? || (v.Str? && exists i :: 0 <= i < |v.text| && !Blank(v.text[i]))
  }

  ghost predicate Shown(v: Json, path: seq<Hop>) {
    Visible(path) && Follow(v, path).Some? && Substance(Follow(v, path).value)
  }

  lemma StepDown(v: Json, inner: Json, step: Hop, path: seq<Hop>)
    requires Follow(v, [step]) == Some(inner) && (step.Field? ==> step.key != "elapsed_ms" && step.key != "mcp_tool")
    ensures Shown(v, [step] + path) <==> Shown(inner, path)
  {
    assert [step][1..] == [] && ([step] + path)[1..] == path;
    assert ([step] + path)[0] == step;
    assert forall k | 0 <= k < |path| :: ([step] + path)[k + 1] == path[k];
    if Visible([step] + path) {
      forall k | 0 <= k < |path| && path[k].Field? ensures path[k].key != "elapsed_ms" && path[k].key != "mcp_tool" {
        assert ([step] + path)[k + 1] == path[k];
      }
    }
  }

  lemma {:induction false} FindSubstance(v: Json) returns (path: seq<Hop>)
    requires HasContent(v)
    ensures Shown(v, path)
  {
    path := [];
    match v
    case Str(text) => StripEmpty(text);
    case Arr(items) =>
      var i :| 0 <= i < |items| && HasContent(items[i]);
      var rest := FindSubstance(items[i]);
      assert Follow(v, [Item(i)]) == Follow(items[i], [Item(i)][1..]);
      StepDown(v, items[i], Item(i), rest);
      path := [Item(i)] + rest;
    case Obj(fields) =>
      var key := ContentKey(fields);
      var rest := FindSubstance(fields[key]);
      assert Follow(v, [Field(key)]) == Follow(fields[key], [Field(key)][1..]);
      StepDown(v, fields[key], Field(key), rest);
      path := [Field(key)] + rest;
    case _ =>
  }

  lemma ContentKey(fields: map<string, Json>) returns (key: string)
    requires HasContent(Obj(fields))
    ensures key in fields && HasContent(fields[key]) && key != "elapsed_ms" && key != "mcp_tool"
  {
    assert |"result"| == 6 && |"results"| == 7 && |"elapsed_ms"| == 10 && |"mcp_tool"| == 8;
    if "result" in fields && HasContent(fields["result"]) {
      key := "result";
    } else if "results" in fields && HasContent(fields["results"]) {
      key := "results";
    } else {
      key :| key in fields && key !in IGNORED_KEYS && HasContent(fields[key]);
    }
  }

  lemma {:induction false} SubstanceIsContent(v: Json, path: seq<Hop>)
    requires Shown(v, path)
    ensures HasContent(v)
    decreases |path|
  {
    if path == [] {
      if v.Str? { StripEmpty(v.text); }
    } else {
      var step := path[0];
      assert path == [step] + path[1..] && [step][1..] == [];
      var inner := if step.Item? then v.items[step.i] else v.fields[step.key];
      StepDown(v, inner, step, path[1..]);
      SubstanceIsContent(inner, path[1..]);
    }
  }

  /** Output has content exactly when some path of positions and keys other than the bookkeeping ones
      leads to a number, a truth value, or a text that is not blank. */
  lemma ContentExactly(v: Json)
    ensures HasContent(v) <==> exists path :: Shown(v, path)
  {
    if HasContent(v) { var path := FindSubstance(v); }
    if path :| Shown(v, path) { SubstanceIsContent(v, path); }
  }

  /** An observation is usable exactly when it succeeded and its output shows something. */
  lemma UsableExactly(observation: Json)
    ensures Usable(observation) <==>
            Get(observation, "status") == Str("ok") && exists path :: Shown(Get(observation, "output"), path)
  {
    ContentExactly(Get(observation, "output"));
  }

  // ---------- The stop rule ----------

  /** An object that is no success, or whose output shows nothing. */
  ghost predicate Unusable(observation: Json) {
    observation.Obj? && !(Get(observation, "status") == Str("ok") && exists path :: Shown(Get(observation, "output"), path))
  }

  lemma {:induction false} TrailingExactly(observations: seq<Json>)
    ensures TrailingUnusable(observations) <= |observations|
    ensures forall k | |observations| - TrailingUnusable(observations) <= k < |observations| :: Unusable(observations[k])
    ensures TrailingUnusable(observations) < |observations| ==> !Unusable(observations[|observations| - TrailingUnusable(observations) - 1])
    decreases |observations|
  {
    if observations != [] {
      var n := |observations| - 1;
      UsableExactly(observations[n]);
      TrailingExactly(observations[..n]);
      assert forall k | 0 <= k < n :: observations[..n][k] == observations[k];
    }
  }

  /** Planning stops exactly when two iterations have passed and the last two observations are both
      unusable. */
  lemma StopsExactly(s: State)
    ensures StopsReplanning(s) <==>
            var n := |s.toolObservations|;
            s.loopCount >= 2 && n >= 2 && Unusable(s.toolObservations[n - 1]) && Unusable(s.toolObservations[n - 2])
  {
    hide Unusable;
    TrailingExactly(s.toolObservations);
  }

  /** A configured think: without a runtime context it answers, after two unusable observations it
      stops, else the model's object decides, or an apology where the model fails. */
  lemma ThinkExactly(c: Config, tick: nat, request: Request, s: State)
    ensures var d := ConfiguredThink(c, tick, request, s);
            var n := |s.toolObservations|;
            if !Get(Obj(s.context), "runtime_context").Obj? then
              d.route == Answer && d.answer == Some("运行上下文不合法，无法执行。") && d.toolCalls == []
            else if s.loopCount >= 2 && n >= 2 && Unusable(s.toolObservations[n - 1]) && Unusable(s.toolObservations[n - 2]) then
              d.route == Answer && d.answer == Some(STOPPED_ANSWER) && d.toolCalls == [] && d.reason == Str("tool_unusable_replanning_stopped")
            else
              match c.model(tick, request, s)
              case Some(data) => d == ParseConfiguredDecision(c.show, data, c.allowed)
              case None => d.route == Answer && d.answer == Some("模型暂时无法完成本次请求。") && d.toolCalls == []
  {
    StopsExactly(s);
    hide StopsReplanning, ParseConfiguredDecision, Unusable;
  }

  /** A configured turn starts without skills and keeps the index of those it could load. */
  lemma SkillsStartEmpty(env: Env, c: Config, tick: nat, s: State)
    requires Configured(env, c)
    ensures var result := LoadSkillsExec(env, tick, s.context);
            && Get(Obj(result), "skills") == Arr([]) && Get(Obj(result), "skipped") == Bool(true)
            && var index := Get(Obj(s.context), "skill_index");
               Get(Obj(result), "skill_index") == (if index.Arr? then index else Arr([])) && Get(Obj(result), "candidates") == Get(Obj(result), "skill_index")
    ensures Visit(env, tick, LoadSkills, s).Ok? && Visit(env, tick, LoadSkills, s).value.state.skills == []
  {
  }

  /** A configured run loads its context, guards nothing, and hands each batch as it is to its tools; its
      self-check passes exactly the states with an answer that is not empty. */
  lemma ConfiguredOracles(env: Env, c: Config, tick: nat, s: State, calls: seq<ToolCall>)
    requires Configured(env, c)
    ensures env.deps.loadContext(tick, env.request) == Ok(c.context(tick, env.request))
    ensures PreGuardExec(env, tick, s.context).Ok? && Get(PreGuardExec(env, tick, s.context).value, "route_hint") == Str("planner")
    ensures env.deps.runTools.Some? && env.deps.runTools.value(tick, env.request, calls, s) == Ok(c.runTools(tick, env.request, calls, s))
    ensures s.status != PendingApproval ==>
              SelfCheckExec(env, tick, s) == Ok(if s.answer.Some? && s.answer.value != "" then CheckResult(true, None, None)
                                                else CheckResult(false, Some("missing_answer"), None))
    ensures s.status == PendingApproval ==> SelfCheckExec(env, tick, s).Ok? && SelfCheckExec(env, tick, s).value.passed
  {
    hide ConfiguredThink, ConfiguredSkills;
    assert |"route_hint"| == 10 && |"reason"| == 6;
  }

  // ---------- The replanning bound ----------

  /** Each visit of execute_tool is a batch, of the observations it added. */
  lemma {:induction false} OneMoreBatch(visits: seq<Visited>, v: Visited)
    ensures v.node != ExecuteTool ==> Batches(visits + [v]) == Batches(visits)
    ensures v.node == ExecuteTool && v.before.toolObservations <= v.after.toolObservations ==>
              var batches, n := Batches(visits + [v]), |Batches(visits)|;
              |batches| == n + 1 && batches[..n] == Batches(visits) && v.before.toolObservations + batches[n] == v.after.toolObservations
  {
    BatchesSnoc(visits, v);
  }

  lemma {:induction false} BatchesSnoc(visits: seq<Visited>, v: Visited)
    ensures Batches(visits + [v]) == Batches(visits) + if v.node == ExecuteTool then [Batch(v)] else []
    decreases |visits|
  {
    hide Batch;
    if visits == [] {
      assert [v][1..] == [] && [] + [v] == [v];
      assert Batches([v][1..]) == [];
    } else {
      assert (visits + [v])[1..] == visits[1..] + [v] && (visits + [v])[0] == visits[0];
      BatchesSnoc(visits[1..], v);
    }
  }

  /** Among a batch's observations one succeeded with output that shows something. */
  ghost predicate ShowsSomething(batch: seq<Json>) {
    exists o, path :: o in batch && Get(o, "status") == Str("ok") && Shown(Get(o, "output"), path)
  }

  lemma FruitlessExactly(batch: seq<Json>)
    ensures Fruitless(batch) <==> !ShowsSomething(batch)
  {
    forall o | o in batch ensures Usable(o) <==> Get(o, "status") == Str("ok") && exists path :: Shown(Get(o, "output"), path) {
      UsableExactly(o);
    }
  }

  /** Of any three consecutive batches of a PocoFlow run from a fresh state one shows something. */
  lemma ThreeBatchesShowSomething(env: Env, c: Config, i: nat)
    requires Configured(env, c)
    requires forall b | b in Batches(RunPlanner(env, [], 0).visits) :: Reports(b)
    requires i + 2 < |Batches(RunPlanner(env, [], 0).visits)|
    ensures var bs := Batches(RunPlanner(env, [], 0).visits);
            ShowsSomething(bs[i]) || ShowsSomething(bs[i + 1]) || ShowsSomething(bs[i + 2])
  {
    hide RunPlanner, Configured, Fruitless, ShowsSomething;
    var bs := Batches(RunPlanner(env, [], 0).visits);
    NoThreeFruitlessBatches(env, c, i);
    FruitlessExactly(bs[i]); FruitlessExactly(bs[i + 1]); FruitlessExactly(bs[i + 2]);
  }

  /** And of a LangGraph run. */
  lemma ThreeGraphBatchesShowSomething(e: Engine, c: Config, limit: nat, i: nat)
    requires Configured(e.env, c)
    requires forall b | b in Batches(RunGraph(e, [], 0, limit).visits) :: Reports(b)
    requires i + 2 < |Batches(RunGraph(e, [], 0, limit).visits)|
    ensures var bs := Batches(RunGraph(e, [], 0, limit).visits);
            ShowsSomething(bs[i]) || ShowsSomething(bs[i + 1]) || ShowsSomething(bs[i + 2])
  {
    hide RunGraph, Configured, Fruitless, ShowsSomething;
    var bs := Batches(RunGraph(e, [], 0, limit).visits);
    GraphNoThreeFruitlessBatches(e, c, limit, i);
    FruitlessExactly(bs[i]); FruitlessExactly(bs[i + 1]); FruitlessExactly(bs[i + 2]);
  }
}
