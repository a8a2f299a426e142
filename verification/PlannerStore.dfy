/** The run's store as the nodes change it, key by key: `post` methods, the flow loop, and the
    LangGraph adapter that fills a new store from the checkpoint around every node. */
module PlannerStore {
  import opened Json
  import RankedMerge
  import opened Planner
  import opened LangGraph
  import opened Filters

  class Store {
    var data: State

    /** `make_store`, then every given key copied over it. */
    constructor (given: State)
      ensures data == given
    {
      data := given;
    }

    method AppendTrace(node: Node, action: Action, payload: Payload)
      modifies this
      ensures data == old(data).(trace := old(data.trace) + [TraceEntry(node, action, payload)])
    {
      data := data.(trace := data.trace + [TraceEntry(node, action, payload)]);
    }

    method PostLoadContext(loaded: Context) returns (action: Action)
      modifies this
      ensures data == LoadContextPost(old(data), loaded) && action == OkAction
      ensures data == old(data).(context := loaded, trace := old(data.trace) + [TraceEntry(LoadContext, OkAction, NoPayload)])
    {
      data := data.(context := loaded);
      AppendTrace(LoadContext, OkAction, NoPayload);
      return OkAction;
    }

    method PostLoadSkills(result: Context) returns (action: Action)
      modifies this
      ensures data == LoadSkillsPost(old(data), result) && action == OkAction
      ensures var found := Get(Obj(result), "skills");
              && data.skills == (if found.Arr? then found.items else [])
              && data.autoSkills == GetOrEmpty(Obj(result), "auto_skills") && data.sessionSkills == GetOrEmpty(Obj(result), "session_skills")
              && data.skillRetrieval == Obj(result)
      ensures data.trace == old(data.trace) + [TraceEntry(LoadSkills, OkAction, SkillPayload(result, data.skills))]
      ensures ShowsSkills(data.context, data, GetOrEmpty(Obj(result), "skill_index"))
      ensures forall k | k !in {"skills", "auto_skills", "session_skills", "skill_index"} ::
                (k in data.context <==> k in old(data.context)) && (k in data.context ==> data.context[k] == old(data.context)[k])
    {
      hide Get, GetOrEmpty;
      var found := Get(Obj(result), "skills");
      data := data.(skills := if found.Arr? then found.items else []);
      data := data.(autoSkills := GetOrEmpty(Obj(result), "auto_skills"));
      data := data.(sessionSkills := GetOrEmpty(Obj(result), "session_skills"));
      data := data.(skillRetrieval := Obj(result));
      var context := data.context;
      context := context["skills" := Arr(data.skills)];
      context := context["auto_skills" := data.autoSkills];
      context := context["session_skills" := data.sessionSkills];
      context := context["skill_index" := GetOrEmpty(Obj(result), "skill_index")];
      data := data.(context := context);
      AppendTrace(LoadSkills, OkAction, SkillPayload(result, data.skills));
      return OkAction;
    }

    method PostPreGuard(guard: Json) returns (action: Action)
      modifies this
      ensures data == PreGuardPost(old(data), guard) && action == OkAction
      ensures data.intent == guard && data == old(data).(intent := guard, trace := data.trace)
      ensures data.trace == old(data.trace) + [TraceEntry(PreGuard, OkAction, GuardPayload(guard, GetOrEmpty(Obj(data.context), "history")))]
    {
      data := data.(intent := guard);
      AppendTrace(PreGuard, OkAction, GuardPayload(guard, GetOrEmpty(Obj(data.context), "history")));
      return OkAction;
    }

    method PostThink(d: Decision) returns (action: Action)
      modifies this
      ensures data == ThinkPost(old(data), d) && action == ThinkAction(d)
      ensures data.loopCount == old(data.loopCount) + 1 && data.route == Decided(d.route)
      ensures data.answer == if d.answer.Some? && d.answer.value != "" then d.answer else old(data.answer)
      ensures data.decision == Some(d.(toolCalls :=
                if d.toolCalls != [] then d.toolCalls
                else if d.toolName.Some? && d.toolName.value != "" then [ToolCall("tool-call-1", d.toolName.value, d.toolArgs, d.reason)]
                else []))
      ensures data == old(data).(loopCount := data.loopCount, route := data.route, answer := data.answer, decision := data.decision, trace := data.trace)
      ensures data.trace == old(data.trace) + [TraceEntry(Think, Go(d.route), DecisionPayload(data.decision.value))]
      ensures action == match d.route case FaqAnswer => Go(Answer) case _ => Go(d.route)
    {
      data := data.(loopCount := data.loopCount + 1);
      var stored := d.(toolCalls := DecisionToolCalls(d));
      data := data.(decision := Some(stored));
      data := data.(route := Decided(d.route));
      if Named(d.answer) { data := data.(answer := d.answer); }
      AppendTrace(Think, Go(d.route), DecisionPayload(stored));
      if d.route == ToolUse { return Go(ToolUse); }
      if d.route in {FaqAnswer, Answer} { return Go(Answer); }
      return Go(d.route);
    }

    /** A skill a tool loaded replaces the loaded one of the same id, and moves to the end. */
    method MergeLoadedSkill(result: Json)
      modifies this
      ensures data == MergeToolLoadedSkill(old(data), result)
      ensures var output := Get(result, "output");
              var skill := Get(output, "skill");
              if skill.Obj? && Truthy(Get(output, "loaded")) && !Truthy(Get(output, "already_loaded")) then
                && data.skills == Filter(old(data.skills), OtherThan(Get(skill, "id")))
                                  + [Obj(skill.fields["availability" := Str("tool_loaded")])]
                && data == old(data).(skills := data.skills, context := old(data.context)["skills" := Arr(data.skills)])
              else data == old(data)
    {
      var output := Get(result, "output");
      var skill := Get(output, "skill");
      if !skill.Obj? || !Truthy(Get(output, "loaded")) || Truthy(Get(output, "already_loaded")) { return; }
      var item := Obj(skill.fields["availability" := Str("tool_loaded")]);
      assert Get(item, "id") == Get(skill, "id");
      WithoutIsFiltered(data.skills, Get(item, "id"));
      var skills := WithoutSkill(data.skills, Get(item, "id")) + [item];
      data := data.(skills := skills);
      data := data.(context := data.context["skills" := Arr(skills)]);
    }

    method PostExecuteTool(exec: Context) returns (action: Action)
      modifies this
      ensures data == if Pending(exec) then PendingPost(old(data), exec) else BatchPost(old(data), exec)
      ensures action == if Pending(exec) then PendingAction else BatchAction(BatchResults(exec))
      ensures Get(Obj(exec), "status") == Str("pending_approval") ==>
                && data.status == PendingApproval && data.route == ApprovalRequired && action == PendingAction
                && data.approvalRequests == GetOrEmpty(Obj(exec), "approval_requests")
                && data.answer == (match Get(Obj(exec), "answer") case Str(text) => Some(if text != "" then text else PENDING_ANSWER) case _ => Some(PENDING_ANSWER))
                && data == old(data).(toolObservations := data.toolObservations, status := data.status, route := data.route,
                                      answer := data.answer, approvalRequests := data.approvalRequests, trace := data.trace)
      ensures Get(Obj(exec), "status") != Str("pending_approval") ==>
                && data == old(data).(toolObservations := data.toolObservations, skills := data.skills, context := data.context,
                                      retrievedFaqs := data.retrievedFaqs, trace := data.trace)
                && action == (if exists o :: o in Added(old(data), data) && Get(o, "status") == Str("error") then ErrorAction else OkAction)
      ensures data.toolObservations == old(data.toolObservations) + match Get(Obj(exec), "results") case Arr(items) => items case _ => [Obj(exec)]
      ensures data.trace == old(data.trace) + [BatchEntry(old(data), data, exec, action)]
    {
      hide Get, GetOrEmpty, CallIds, MergeFaqs, MergeLoadedSkills, FaqSearches, AnyError, Added, BatchEntry;
      ghost var before := data;
      var reason := DecisionReason(data);
      var results := BatchResults(exec);
      var observations := data.toolObservations + results;
      data := data.(toolObservations := observations);
      var mode, ids := Get(Obj(exec), "execution_mode"), CallIds(results);
      if Pending(exec) {
        data := data.(status := PendingApproval);
        data := data.(route := ApprovalRequired);
        var shown := Get(Obj(exec), "answer");
        data := data.(answer := Some(if shown.Str? && shown.text != "" then shown.text else PENDING_ANSWER));
        data := data.(approvalRequests := GetOrEmpty(Obj(exec), "approval_requests"));
        AppendTrace(ExecuteTool, PendingAction, BatchPayload(reason, mode, |results|, |observations|, ids, data.approvalRequests));
        EntryOfBatch(before, data, exec, results, PendingAction);
        return PendingAction;
      }
      MergesFrame(data, results, FaqSearches(results));
      MergeBatch(results);
      action := BatchAction(results);
      AppendTrace(ExecuteTool, action, BatchPayload(reason, mode, |results|, |observations|, ids, Null));
      AddedByBatch(before, data, results);
      EntryOfBatch(before, data, exec, results, action);
    }

    /** Loaded skills are merged one by one; FAQ searches are collected and merged together. */
    method MergeBatch(results: seq<Json>)
      modifies this
      ensures data == MergeFaqs(MergeLoadedSkills(old(data), results), FaqSearches(results))
    {
      hide Get, Truthy, NamedTool, MergeToolLoadedSkill, OtherThan, Filter, SearchQuery, AsItems, MergeLoadedSkills, FaqSearches;
      assert MergeLoadedSkills(data, results[..0]) == data && FaqSearches(results[..0]) == [] by { NothingMerged(data, results); }
      var queries: seq<string>, sets: seq<seq<RankedMerge.Item>> := [], [];
      var i := 0;
      while i < |results|
        invariant 0 <= i <= |results|
        invariant data == MergeLoadedSkills(old(data), results[..i])
        invariant |queries| == |sets| == |FaqSearches(results[..i])|
        invariant forall k | 0 <= k < |queries| :: (queries[k], sets[k]) == FaqSearches(results[..i])[k]
      {
        var result := results[i];
        MergedStep(old(data), results, i);
        if NamedTool(result, "load_skill") { MergeLoadedSkill(result); }
        var found := Get(Get(result, "output"), "results");
        if NamedTool(result, "search_faq") && found.Arr? {
          queries := queries + [SearchQuery(result)];
          sets := sets + [AsItems(found.items)];
        }
        i := i + 1;
      }
      assert results[..i] == results;
      if sets != [] {
        var searches := FaqSearches(results);
        assert queries == seq(|searches|, k requires 0 <= k < |searches| => searches[k].0);
        assert sets == seq(|searches|, k requires 0 <= k < |searches| => searches[k].1);
        var merged := RankedMerge.MergeRankedResults(queries, sets);
        data := data.(retrievedFaqs := merged);
      }
    }

    method PostSelfCheck(check: CheckResult) returns (action: Action)
      modifies this
      ensures data == SelfCheckPost(old(data), check) && action == DoneAction
      ensures old(data.status) == PendingApproval ==>
                data == old(data).(selfCheck := Some(CheckResult(true, Some("pending_approval"), None)),
                                   trace := old(data.trace) + [TraceEntry(SelfCheck, PendingAction, CheckPayload(true, Some("pending_approval")))])
      ensures old(data.status) != PendingApproval ==>
                && data.status == (if check.passed then Completed else Failed)
                && data.answer == (if check.revisedAnswer.Some? && check.revisedAnswer.value != "" then check.revisedAnswer else old(data.answer))
                && data.selfCheck == Some(CheckResult(check.passed, check.reason, None))
                && (if check.passed then data.errors == old(data.errors)
                    else data.errors == old(data.errors) + [if check.reason.Some? && check.reason.value != "" then check.reason.value else "self_check_failed"])
                && data == old(data).(status := data.status, answer := data.answer, selfCheck := data.selfCheck, errors := data.errors, trace := data.trace)
                && data.trace == old(data.trace) + [TraceEntry(SelfCheck, DoneAction, CheckPayload(check.passed, check.reason))]
    {
      if data.status == PendingApproval {
        data := data.(selfCheck := Some(CheckResult(true, Some("pending_approval"), None)));
        AppendTrace(SelfCheck, PendingAction, CheckPayload(true, Some("pending_approval")));
        return DoneAction;
      }
      if Named(check.revisedAnswer) { data := data.(answer := check.revisedAnswer); }
      data := data.(selfCheck := Some(check.(revisedAnswer := None)));
      if check.passed {
        data := data.(status := Completed);
      } else {
        data := data.(status := Failed);
        data := data.(errors := data.errors + [if Named(check.reason) then check.reason.value else "self_check_failed"]);
      }
      AppendTrace(SelfCheck, DoneAction, CheckPayload(check.passed, check.reason));
      return DoneAction;
    }

    /** `prep`, `exec` and `post` of one node; a raising `exec` leaves the store as it was. */
    method RunNode(env: Env, tick: nat, node: Node) returns (outcome: Outcome<Action>)
      requires node != AwaitApproval
      modifies this
      ensures match Visit(env, tick, node, old(data))
              case Raise(error) => outcome == Raise(error) && data == old(data)
              case Ok(step) => outcome == Ok(step.action) && data == step.state
    {
      hide LoadContextPost, LoadSkillsPost, PreGuardPost, ThinkPost, PendingPost, BatchPost, SelfCheckPost;
      hide LoadSkillsExec, PreGuardExec, ThinkExec, ExecuteToolExec, SelfCheckExec;
      var action: Action;
      match node {
        case LoadContext =>
          var loaded := env.deps.loadContext(tick, env.request);
          if loaded.Raise? { return Raise(loaded.error); }
          action := PostLoadContext(loaded.value);
        case LoadSkills =>
          action := PostLoadSkills(LoadSkillsExec(env, tick, data.context));
        case PreGuard =>
          var guard := PreGuardExec(env, tick, data.context);
          if guard.Raise? { return Raise(guard.error); }
          action := PostPreGuard(guard.value);
        case Think =>
          var d := ThinkExec(env, tick, data);
          if d.Raise? { return Raise(d.error); }
          action := PostThink(d.value);
        case ExecuteTool =>
          var exec := ExecuteToolExec(env, tick, data);
          if exec.Raise? { return Raise(exec.error); }
          action := PostExecuteTool(exec.value);
        case SelfCheck =>
          var check := SelfCheckExec(env, tick, data);
          if check.Raise? { return Raise(check.error); }
          action := PostSelfCheck(check.value);
      }
      return Ok(action);
    }

    /** The PocoFlow loop: run a node, follow its action's edge, until there is none. */
    method RunFlow(env: Env, maxSteps: nat) returns (end: End)
      modifies this
      ensures var run := Flow(env, 0, LoadContext, old(data), maxSteps);
              data == run.final && end == run.end
    {
      hide Visit;
      var node, steps := LoadContext, 0;
      while steps < maxSteps
        invariant 0 <= steps <= maxSteps && node != AwaitApproval
        invariant var whole := Flow(env, 0, LoadContext, old(data), maxSteps);
                  var rest := Flow(env, steps, node, data, maxSteps - steps);
                  whole.final == rest.final && whole.end == rest.end
      {
        var outcome := RunNode(env, steps, node);
        if outcome.Raise? { return Raised(outcome.error); }
        var next := Successor(node, outcome.value);
        if next.None? { return Ended; }
        node := next.value;
        steps := steps + 1;
      }
      return Capped;
    }
  }

  /** The observations a node added. */
  function Added(before: State, after: State): seq<Json> {
    if before.toolObservations <= after.toolObservations then after.toolObservations[|before.toolObservations|..] else []
  }

  /** What a batch leaves in the trace, read off the states before and after it. */
  function BatchEntry(before: State, after: State, exec: Context, action: Action): TraceEntry {
    var added := Added(before, after);
    TraceEntry(ExecuteTool, action, BatchPayload(
      if before.decision.Some? then before.decision.value.reason else Null,
      Get(Obj(exec), "execution_mode"), |added|, |after.toolObservations|,
      seq(|added|, i requires 0 <= i < |added| => Get(added[i], "call_id")),
      if action == PendingAction then after.approvalRequests else Null))
  }

  lemma AddedByBatch(before: State, after: State, results: seq<Json>)
    requires after.toolObservations == before.toolObservations + results
    ensures Added(before, after) == results
    ensures AnyError(results) <==> exists o :: o in Added(before, after) && Get(o, "status") == Str("error")
  {
    if AnyError(results) {
      var i :| 0 <= i < |results| && Get(results[i], "status") == Str("error");
      assert results[i] in results;
    }
  }

  lemma EntryOfBatch(before: State, after: State, exec: Context, results: seq<Json>, action: Action)
    requires after.toolObservations == before.toolObservations + results
    ensures BatchEntry(before, after, exec, action) == TraceEntry(ExecuteTool, action,
              BatchPayload(DecisionReason(before), Get(Obj(exec), "execution_mode"), |results|, |before.toolObservations + results|, CallIds(results),
                           if action == PendingAction then after.approvalRequests else Null))
  {
    AddedByBatch(before, after, results);
  }

  lemma MergedStep(s: State, results: seq<Json>, i: nat)
    requires i < |results|
    ensures var before, result := MergeLoadedSkills(s, results[..i]), results[i];
            MergeLoadedSkills(s, results[..i + 1]) == if NamedTool(result, "load_skill") then MergeToolLoadedSkill(before, result) else before
    ensures var before, result, found := FaqSearches(results[..i]), results[i], Get(Get(results[i], "output"), "results");
            FaqSearches(results[..i + 1]) ==
            if NamedTool(result, "search_faq") && found.Arr? then before + [(SearchQuery(result), AsItems(found.items))] else before
  {
    hide Get, NamedTool, MergeToolLoadedSkill, SearchQuery, AsItems;
    assert results[..i + 1][..i] == results[..i];
  }

  lemma NothingMerged(s: State, results: seq<Json>)
    ensures MergeLoadedSkills(s, results[..0]) == s && FaqSearches(results[..0]) == []
  {
  }

  lemma {:induction false} MergesFrame(s: State, results: seq<Json>, searches: seq<(string, seq<RankedMerge.Item>)>)
    ensures var m := MergeFaqs(MergeLoadedSkills(s, results), searches);
            m == s.(skills := m.skills, context := m.context, retrievedFaqs := m.retrievedFaqs)
    decreases |results|
  {
    if results != [] { MergesFrame(s, results[..|results| - 1], searches); }
  }

  /** The context lists what the state holds of skills. */
  predicate ShowsSkills(context: Context, s: State, index: Json) {
    && "skills" in context && context["skills"] == Arr(s.skills)
    && "auto_skills" in context && context["auto_skills"] == s.autoSkills
    && "session_skills" in context && context["session_skills"] == s.sessionSkills
    && "skill_index" in context && context["skill_index"] == index
  }

  function OtherThan(id: Json): Json -> bool {
    (skill: Json) => Get(skill, "id") != id
  }

  lemma {:induction false} WithoutIsFiltered(skills: seq<Json>, id: Json)
    ensures WithoutSkill(skills, id) == Filter(skills, OtherThan(id))
    decreases |skills|
  {
    if skills != [] { WithoutIsFiltered(skills[1..], id); }
  }

  /** `_node_adapter`: a new store is filled from the checkpoint, the runtime context is put into
      it, the node runs on it, and what may be kept is returned as the next checkpoint. */
  method RunAdapted(e: Engine, tick: nat, node: Node, p: State) returns (outcome: Outcome<State>)
    requires node != AwaitApproval
    ensures outcome == AdaptedVisit(e, tick, node, p)
  {
    hide Visit;
    var store := new Store(p);
    if e.runtimeContext.Some? && Truthy(e.runtimeContext.value) {
      store.data := store.data.(context := store.data.context[RUNTIME_CONTEXT := e.runtimeContext.value]);
    }
    var action := store.RunNode(e.env, tick, node);
    if action.Raise? { return Raise(action.error); }
    return Ok(Persisted(store.data));
  }

  /** `await_approval`'s own list of observations, grown from the answered interrupt. */
  method AnswerInterrupt(p: State, payload: Json) returns (resumed: State)
    ensures resumed == Resumed(p, payload)
  {
    var observations := p.toolObservations;
    var observation, results := Get(payload, "approval_observation"), Get(payload, "tool_results");
    if observation.Obj? { observations := observations + [observation]; }
    if results.Arr? {
      var i := 0;
      while i < |results.items|
        invariant 0 <= i <= |results.items|
        invariant observations + Objects(results.items[i..])
               == p.toolObservations + (if observation.Obj? then [observation] else []) + Objects(results.items)
      {
        assert results.items[i..][1..] == results.items[i + 1..];
        if results.items[i].Obj? { observations := observations + [results.items[i]]; }
        i := i + 1;
      }
    }
    resumed := p.(toolObservations := observations, approvalRequests := Arr([]), status := Running);
    if Get(payload, "decision") == Str("approved") {
      resumed := resumed.(route := Decided(ToolUse), answer := None);
    } else {
      var shown := Get(payload, "answer");
      resumed := resumed.(route := Decided(Answer), answer := Some(if shown.Str? && shown.text != "" then shown.text else REJECTED_ANSWER));
    }
  }
}
