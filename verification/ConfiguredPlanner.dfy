/** The configuration-driven planner: how a model's JSON becomes a decision, when replanning is
    stopped, and what follows for every run. */
module ConfiguredPlanner {
  import opened Json
  import opened Planner

  // ---------- Strings ----------

  /** `str.isspace` of one character. */
  predicate Blank(c: char) {
    var n := c as int;
    || 0x09 <= n <= 0x0D || 0x1C <= n <= 0x20 || n == 0x85 || n == 0xA0 || n == 0x1680
    || 0x2000 <= n <= 0x200A || n == 0x2028 || n == 0x2029 || n == 0x202F || n == 0x205F || n == 0x3000
  }

  /** `str.strip`. */
  function Strip(s: string): string {
    if s != "" && Blank(s[0]) then Strip(s[1..])
    else if s != "" && Blank(s[|s| - 1]) then Strip(s[..|s| - 1])
    else s
  }

  predicate AllBlank(s: string) {
    forall i | 0 <= i < |s| :: Blank(s[i])
  }

  lemma {:induction false} StripEmpty(s: string)
    ensures Strip(s) == "" <==> AllBlank(s)
    decreases |s|
  {
    if s != "" && Blank(s[0]) {
      StripEmpty(s[1..]);
      assert forall i | 1 <= i < |s| :: s[i] == s[1..][i - 1];
    } else if s != "" && Blank(s[|s| - 1]) {
      assert !AllBlank(s);
      StripEmpty(s[..|s| - 1]);
      assert s[..|s| - 1][0] == s[0];
    }
  }

  /** `str(value)`; how Python shows a value that is no string is left to `show`. */
  function PyStr(show: Json -> string, v: Json): string {
    if v.Str? then v.text else show(v)
  }

  function Or(a: Json, b: Json): Json {
    if Truthy(a) then a else b
  }

  // ---------- parse_runtime_tool_calls ----------

  const MAX_CALLS := 8

  function CallName(show: Json -> string, item: Json): string {
    PyStr(show, Or(Get(item, "tool_name"), Or(Get(item, "name"), Str(""))))
  }

  function CallOf(show: Json -> string, index: nat, item: Json): ToolCall
    requires index < MAX_CALLS
  {
    var args := if Get(item, "tool_args").Obj? then Get(item, "tool_args") else Get(item, "args");
    ToolCall(PyStr(show, Or(Get(item, "call_id"), Str("tool-call-" + ["12345678"[index]]))),
             CallName(show, item),
             if args.Obj? then args else Obj(map[]),
             if Get(item, "reason").Str? then Get(item, "reason") else Null)
  }

  function FirstEight(value: Json): seq<Json> {
    if !value.Arr? then [] else if |value.items| <= MAX_CALLS then value.items else value.items[..MAX_CALLS]
  }

  predicate AllAuthorised(show: Json -> string, items: seq<Json>, allowed: set<string>) {
    forall i | 0 <= i < |items| && items[i].Obj? :: CallName(show, items[i]) in allowed
  }

  /** The calls of the objects among the items; anything else is skipped but keeps its number. */
  function CallsOf(show: Json -> string, items: seq<Json>): seq<ToolCall>
    requires |items| <= MAX_CALLS
  {
    if items == [] then []
    else
      var n := |items| - 1;
      CallsOf(show, items[..n]) + if items[n].Obj? then [CallOf(show, n, items[n])] else []
  }

  /** One unauthorised call among the first eight discards them all. */
  function RuntimeToolCalls(show: Json -> string, value: Json, allowed: set<string>): seq<ToolCall> {
    var items := FirstEight(value);
    if AllAuthorised(show, items, allowed) then CallsOf(show, items) else []
  }

  lemma NextItem(show: Json -> string, items: seq<Json>, i: nat, allowed: set<string>)
    requires i < |items| <= MAX_CALLS
    ensures CallsOf(show, items[..i + 1]) == CallsOf(show, items[..i]) + if items[i].Obj? then [CallOf(show, i, items[i])] else []
    ensures AllAuthorised(show, items[..i + 1], allowed) <==>
            AllAuthorised(show, items[..i], allowed) && (items[i].Obj? ==> CallName(show, items[i]) in allowed)
    ensures items[i].Obj? && CallName(show, items[i]) !in allowed ==> !AllAuthorised(show, items, allowed)
  {
    hide CallOf, CallName;
    assert items[..i + 1][..i] == items[..i];
    assert forall j | 0 <= j < i :: items[..i + 1][j] == items[..i][j];
  }

  method ParseRuntimeToolCalls(show: Json -> string, value: Json, allowed: set<string>) returns (calls: seq<ToolCall>)
    ensures calls == RuntimeToolCalls(show, value, allowed)
  {
    hide CallName, CallOf, CallsOf, AllAuthorised;
    var items := FirstEight(value);
    calls := [];
    NoItems(show, allowed);
    for index := 0 to |items|
      invariant calls == CallsOf(show, items[..index]) && AllAuthorised(show, items[..index], allowed)
    {
      var item := items[index];
      NextItem(show, items, index, allowed);
      if item.Obj? {
        if CallName(show, item) !in allowed { return []; }
        calls := calls + [CallOf(show, index, item)];
      }
    }
    assert items[..|items|] == items;
  }

  lemma NoItems(show: Json -> string, allowed: set<string>)
    ensures CallsOf(show, []) == [] && AllAuthorised(show, [], allowed)
  {
  }

  lemma {:induction false} CallsAreAuthorised(show: Json -> string, items: seq<Json>, allowed: set<string>)
    requires |items| <= MAX_CALLS && AllAuthorised(show, items, allowed)
    ensures |CallsOf(show, items)| <= |items|
    ensures forall c | c in CallsOf(show, items) :: c.toolName in allowed
  {
    if items != [] {
      var n := |items| - 1;
      assert AllAuthorised(show, items[..n], allowed);
      CallsAreAuthorised(show, items[..n], allowed);
    }
  }

  // ---------- parse_configured_decision ----------

  function Terminal(route: Route, answer: string, reason: Json): Decision {
    Decision(route, Some(answer), None, Obj(map[]), reason, [])
  }

  const EMPTY_CALL_ANSWER := "未提供可执行工具调用。"
  const CLARIFY_ANSWER := "我需要更多信息才能继续处理。"

  function UnknownToolAnswer(name: string): string {
    "工具 " + name + " 未获授权，无法执行该操作。"
  }

  /** The requested route; anything not listed reads as an answer. */
  function RequestedRoute(show: Json -> string, data: Context): Route {
    var name := PyStr(show, Or(Get(Obj(data), "route"), Str("answer")));
    if name == "tool_call" then ToolUse
    else if name == "clarify" then Clarify
    else if name == "handoff" then Handoff
    else if name == "chat" then Chat
    else Answer
  }

  function TextOrNull(v: Json): Json {
    if v.Str? then v else Null
  }

  function ParseConfiguredDecision(show: Json -> string, data: Context, allowed: set<string>): Decision {
    var route := RequestedRoute(show, data);
    var listed := RuntimeToolCalls(show, Get(Obj(data), "tool_calls"), allowed);
    var name := Get(Obj(data), "tool_name");
    var reason := Get(Obj(data), "reason");
    if route == ToolUse && listed == [] && name.Str? && name.text !in allowed then
      Terminal(Answer, UnknownToolAnswer(name.text), Str("unknown_tool_requested:" + name.text))
    else if route == ToolUse then
      var args := if Get(Obj(data), "tool_args").Obj? then Get(Obj(data), "tool_args") else Obj(map[]);
      var calls := if listed == [] && name.Str? then [ToolCall("tool-call-1", name.text, args, reason)] else listed;
      if calls == [] then Terminal(Answer, EMPTY_CALL_ANSWER, Str("empty_tool_call"))
      else Decision(ToolUse, None, Some(calls[0].toolName), calls[0].toolArgs, TextOrNull(reason), calls)
    else
      var answer := Get(Obj(data), "answer");
      if !answer.Str? || Strip(answer.text) == "" then Terminal(Clarify, CLARIFY_ANSWER, TextOrNull(reason))
      else Terminal(route, Strip(answer.text), TextOrNull(reason))
  }

  /** One to eight authorised calls led by the decision's own tool, or an answer that is not blank. */
  predicate Actionable(d: Decision, allowed: set<string>) {
    if d.route == ToolUse then
      && 1 <= |d.toolCalls| <= MAX_CALLS
      && (forall c | c in d.toolCalls :: c.toolName in allowed)
      && d.toolName == Some(d.toolCalls[0].toolName) && d.toolArgs == d.toolCalls[0].toolArgs
    else
      d.toolCalls == [] && d.toolName.None? && d.answer.Some? && Strip(d.answer.value) != ""
  }

  lemma {:induction false} StripKeepsInside(s: string)
    ensures Strip(Strip(s)) == Strip(s)
    decreases |s|
  {
    if s != "" && Blank(s[0]) {
      StripKeepsInside(s[1..]);
    } else if s != "" && Blank(s[|s| - 1]) {
      StripKeepsInside(s[..|s| - 1]);
    }
  }

  lemma NotBlankIsNamed(answer: string)
    requires Strip(answer) != ""
    ensures answer != ""
  {
  }

  lemma FixedAnswersAreNotBlank()
    ensures Strip(EMPTY_CALL_ANSWER) != "" && Strip(CLARIFY_ANSWER) != "" && Strip(STOPPED_ANSWER) != ""
    ensures Strip(INVALID_CONTEXT_ANSWER) != "" && Strip(MODEL_DOWN_ANSWER) != "" && Strip(HANDOFF_ANSWER) != ""
    ensures forall name :: Strip(UnknownToolAnswer(name)) != ""
  {
    StripOuter(EMPTY_CALL_ANSWER); StripOuter(CLARIFY_ANSWER); StripOuter(STOPPED_ANSWER);
    StripOuter(INVALID_CONTEXT_ANSWER); StripOuter(MODEL_DOWN_ANSWER); StripOuter(HANDOFF_ANSWER);
    forall name ensures Strip(UnknownToolAnswer(name)) != "" { StripOuter(UnknownToolAnswer(name)); }
  }

  lemma StripOuter(s: string)
    requires s != "" && !Blank(s[0]) && !Blank(s[|s| - 1])
    ensures Strip(s) == s
  {
  }

  /** Whatever JSON object the model returns, the decision is actionable. */
  lemma DecisionsAreActionable(show: Json -> string, data: Context, allowed: set<string>)
    ensures Actionable(ParseConfiguredDecision(show, data, allowed), allowed)
  {
    hide Strip, UnknownToolAnswer, CallsOf, AllAuthorised, RequestedRoute;
    var items := FirstEight(Get(Obj(data), "tool_calls"));
    if AllAuthorised(show, items, allowed) { CallsAreAuthorised(show, items, allowed); }
    FixedAnswersAreNotBlank();
    var answer := Get(Obj(data), "answer");
    if answer.Str? { StripKeepsInside(answer.text); }
  }

  // ---------- Usable tool output ----------

  const IGNORED_KEYS := {"elapsed_ms", "mcp_tool"}

  /** `output_has_content`. */
  predicate HasContent(v: Json) {
    match v
    case Null => false
    case Str(s) => Strip(s) != ""
    case Num(_) => true
    case Bool(_) => true
    case Arr(items) => exists i | 0 <= i < |items| :: HasContent(items[i])
    case Obj(fields) =>
      || ("result" in fields && HasContent(fields["result"]))
      || ("results" in fields && HasContent(fields["results"]))
      || exists k | k in fields && k !in IGNORED_KEYS :: HasContent(fields[k])
  }

  predicate Usable(observation: Json) {
    Get(observation, "status") == Str("ok") && HasContent(Get(observation, "output"))
  }

  /** How many observations at the end are objects without usable output. */
  function TrailingUnusable(observations: seq<Json>): nat {
    if observations == [] then 0
    else
      var last := observations[|observations| - 1];
      if !last.Obj? || Usable(last) then 0 else 1 + TrailingUnusable(observations[..|observations| - 1])
  }

  method TrailingUnusableToolCount(observations: seq<Json>) returns (count: nat)
    ensures count == TrailingUnusable(observations)
  {
    count := 0;
    var i := |observations|;
    assert observations[..i] == observations;
    while i > 0
      invariant 0 <= i <= |observations|
      invariant TrailingUnusable(observations) == count + TrailingUnusable(observations[..i])
    {
      var item := observations[i - 1];
      assert observations[..i][..i - 1] == observations[..i - 1];
      if !item.Obj? || Usable(item) {
        return;
      }
      count := count + 1;
      i := i - 1;
    }
  }

  // ---------- configured_planner_think ----------

  const STOPPED_ANSWER := "连续没有返回可用结果，暂时无法继续完成该操作。请稍后重试或补充更精确的信息。"
  const INVALID_CONTEXT_ANSWER := "运行上下文不合法，无法执行。"
  const MODEL_DOWN_ANSWER := "模型暂时无法完成本次请求。"

  predicate StopsReplanning(s: State) {
    s.loopCount >= 2 && TrailingUnusable(s.toolObservations) >= 2
  }

  /** What a configured run is built from. The model yields a JSON object or fails; the tool
      batch runner reports its failures inside the batch. */
  datatype Config = Config(
    show: Json -> string,
    allowed: set<string>,
    context: (nat, Request) -> Context,
    model: (nat, Request, State) -> Option<Context>,
    runTools: (nat, Request, seq<ToolCall>, State) -> Context)

  function ConfiguredThink(c: Config, tick: nat, request: Request, s: State): Decision {
    if !Get(Obj(s.context), "runtime_context").Obj? then
      Terminal(Answer, INVALID_CONTEXT_ANSWER, Str("invalid_runtime_context"))
    else if StopsReplanning(s) then
      Terminal(Answer, STOPPED_ANSWER, Str("tool_unusable_replanning_stopped"))
    else
      match c.model(tick, request, s)
      case None => Terminal(Answer, MODEL_DOWN_ANSWER, Str("configured_llm_fallback"))
      case Some(data) => ParseConfiguredDecision(c.show, data, c.allowed)
  }

  /** `default_self_check`. */
  function DefaultSelfCheck(s: State): CheckResult {
    if Named(s.answer) then CheckResult(true, None, None) else CheckResult(false, Some("missing_answer"), None)
  }

  function ConfiguredSkills(request: Request, context: Context): Context {
    var index := Get(Obj(context), "skill_index");
    var listed := if index.Arr? then index else Arr([]);
    map["query" := Str(request.query), "candidates" := listed, "skills" := Arr([]), "auto_skills" := Arr([]),
        "session_skills" := Arr([]), "skill_index" := listed, "skipped" := Bool(true),
        "reason" := Or(Get(Obj(context), "skill_index_source"), Str("configured_scope_index"))]
  }

  function ConfiguredDeps(c: Config): Deps {
    Deps((t: nat, r: Request) => Ok(c.context(t, r)),
         Some((t: nat, r: Request, context: Context) => Ok(ConfiguredSkills(r, context))),
         Some((t: nat, r: Request, context: Context) => Ok(Obj(map["route_hint" := Str("planner"), "reason" := Str("configured_runner")]))),
         (t: nat, r: Request, s: State) => Ok(ConfiguredThink(c, t, r, s)),
         Some((t: nat, r: Request, calls: seq<ToolCall>, s: State) => Ok(c.runTools(t, r, calls, s))),
         (t, i, r, call, s) => Ok(map[]),
         (t, r, s) => Ok(DefaultSelfCheck(s)))
  }

  lemma ThinkIsActionable(c: Config, tick: nat, request: Request, s: State)
    ensures Actionable(ConfiguredThink(c, tick, request, s), c.allowed)
    ensures StopsReplanning(s) ==> ConfiguredThink(c, tick, request, s).route != ToolUse
  {
    hide Strip, ParseConfiguredDecision, UnknownToolAnswer;
    FixedAnswersAreNotBlank();
    var data := c.model(tick, request, s);
    if data.Some? { DecisionsAreActionable(c.show, data.value, c.allowed); }
  }
}
