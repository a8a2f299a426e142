/** Reading the model's JSON: what is written comes back, and everything else is told apart. */
module ParseLaws {
  import opened Json
  import opened Planner
  import opened ConfiguredPlanner
  import FaqHash

  // ---------- Blanks ----------

  /** The characters Python counts as blank, one by one. */
  lemma BlankExactly(c: char)
    ensures Blank(c) <==> c as int in {
              9, 10, 11, 12, 13, 28, 29, 30, 31, 32, 133, 160, 5760, 8192, 8193, 8194, 8195, 8196, 8197, 8198, 8199, 8200,
              8201, 8202, 8232, 8233, 8239, 8287, 12288}
  {
  }

  /** Stripping takes blanks off both ends, and nothing else. */
  lemma StripExactly(s: string) returns (before: string, after: string)
    ensures s == before + Strip(s) + after && AllBlank(before) && AllBlank(after)
    ensures Strip(s) != "" ==> !Blank(Strip(s)[0]) && !Blank(Strip(s)[|Strip(s)| - 1])
  {
    hide Blank, Strip;
    before, after := StripParts(s);
    FaqHash.StripTrims(s);
  }

  lemma {:induction false} StripParts(s: string) returns (before: string, after: string)
    ensures s == before + Strip(s) + after && AllBlank(before) && AllBlank(after)
    decreases |s|
  {
    hide Blank, AllBlank;
    before, after := "", "";
    BlankConcat("", "");
    if s != "" && Blank(s[0]) {
      before, after := StripParts(s[1..]);
      BlankConcat([s[0]], before);
      assert s == [s[0]] + s[1..];
      before := [s[0]] + before;
    } else if s != "" && Blank(s[|s| - 1]) {
      var n := |s| - 1;
      before, after := StripParts(s[..n]);
      BlankConcat(after, [s[n]]);
      assert s == s[..n] + [s[n]];
      after := after + [s[n]];
    }
  }

  lemma BlankConcat(s: string, t: string)
    ensures AllBlank("") && (AllBlank(s) && AllBlank(t) ==> AllBlank(s + t))
    ensures |s| == 1 ==> (AllBlank(s) <==> Blank(s[0]))
    ensures |t| == 1 ==> (AllBlank(t) <==> Blank(t[0]))
  {
  }

  // ---------- One call ----------

  /** The call id an item is given when it names none. */
  function Numbered(index: nat): string
    requires index < 8
  {
    match index
    case 0 => "tool-call-1" case 1 => "tool-call-2" case 2 => "tool-call-3" case 3 => "tool-call-4"
    case 4 => "tool-call-5" case 5 => "tool-call-6" case 6 => "tool-call-7" case _ => "tool-call-8"
  }

  predicate Absent(item: Json, key: string) {
    item.Obj? && key !in item.fields
  }

  /** The item writes this call: under its id or none, its name as `tool_name` or `name`, its arguments
      as `tool_args` or `args`, its reason if it has one. */
  predicate Writes(item: Json, index: nat, c: ToolCall)
    requires index < 8
  {
    && item.Obj?
    && (if Absent(item, "call_id") then c.callId == Numbered(index) else Get(item, "call_id") == Str(c.callId) && c.callId != "")
    && (Get(item, "tool_name") == Str(c.toolName) || (Absent(item, "tool_name") && Get(item, "name") == Str(c.toolName)))
    && c.toolArgs.Obj?
    && (Get(item, "tool_args") == c.toolArgs || (Absent(item, "tool_args") && Get(item, "args") == c.toolArgs)
        || (Absent(item, "tool_args") && Absent(item, "args") && c.toolArgs == Obj(map[])))
    && (if Absent(item, "reason") then c.reason == Null else Get(item, "reason") == c.reason && c.reason.Str?)
  }

  lemma WrittenCall(show: Json -> string, item: Json, index: nat, c: ToolCall)
    requires index < 8 && Writes(item, index, c) && c.toolName != ""
    ensures CallName(show, item) == c.toolName && CallOf(show, index, item) == c
  {
    assert "tool-call-" + ["12345678"[index]] == Numbered(index);
  }

  // ---------- The list of calls ----------

  /** The objects among the items, each with the call it writes, in order; anything else is skipped,
      but keeps its number. */
  ghost predicate WritesAll(items: seq<Json>, calls: seq<ToolCall>)
    decreases |items|
  {
    |items| <= 8 &&
    if items == [] then calls == []
    else
      var n := |items| - 1;
      if items[n].Obj? then
        calls != [] && Writes(items[n], n, calls[|calls| - 1]) && calls[|calls| - 1].toolName != "" && WritesAll(items[..n], calls[..|calls| - 1])
      else WritesAll(items[..n], calls)
  }

  lemma {:induction false} WrittenCalls(show: Json -> string, items: seq<Json>, calls: seq<ToolCall>, allowed: set<string>)
    requires WritesAll(items, calls) && forall c | c in calls :: c.toolName in allowed
    ensures CallsOf(show, items) == calls && AllAuthorised(show, items, allowed)
    decreases |items|
  {
    if items != [] {
      var n := |items| - 1;
      if items[n].Obj? {
        var m := |calls| - 1;
        WrittenCall(show, items[n], n, calls[m]);
        WrittenCalls(show, items[..n], calls[..m], allowed);
        assert calls == calls[..m] + [calls[m]];
        assert calls[m] in calls;
      } else {
        WrittenCalls(show, items[..n], calls, allowed);
      }
      assert forall i | 0 <= i < n :: items[..n][i] == items[i];
    }
  }

  /** Round trip: a list that writes authorised calls is read back as exactly these calls, whatever
      follows its first eight items. */
  lemma CallsRoundTrip(show: Json -> string, items: seq<Json>, calls: seq<ToolCall>, allowed: set<string>)
    requires WritesAll(if |items| <= 8 then items else items[..8], calls) && forall c | c in calls :: c.toolName in allowed
    ensures RuntimeToolCalls(show, Arr(items), allowed) == calls
  {
    WrittenCalls(show, if |items| <= 8 then items else items[..8], calls, allowed);
  }

  /** One call of a tool that is not authorised, among the first eight items, discards them all. */
  lemma OneUnauthorisedDiscardsAll(show: Json -> string, items: seq<Json>, i: nat, c: ToolCall, allowed: set<string>)
    requires i < |items| && i < 8 && Writes(items[i], i, c) && c.toolName != "" && c.toolName !in allowed
    ensures RuntimeToolCalls(show, Arr(items), allowed) == []
  {
    WrittenCall(show, items[i], i, c);
    hide CallName, CallOf;
    assert FirstEight(Arr(items))[i] == items[i];
  }

  /** What is no list holds no calls. */
  lemma NoListNoCalls(show: Json -> string, value: Json, allowed: set<string>)
    requires !value.Arr?
    ensures RuntimeToolCalls(show, value, allowed) == []
  {
  }

  /** A call as an object, and calls as a list. */
  function CallObject(c: ToolCall): Json {
    var fields := map["call_id" := Str(c.callId), "tool_name" := Str(c.toolName), "tool_args" := c.toolArgs];
    Obj(if c.reason.Str? then fields["reason" := c.reason] else fields)
  }

  function CallList(calls: seq<ToolCall>): seq<Json> {
    seq(|calls|, i requires 0 <= i < |calls| => CallObject(calls[i]))
  }

  predicate Plain(c: ToolCall) {
    c.callId != "" && c.toolName != "" && c.toolArgs.Obj? && (c.reason.Str? || c.reason == Null)
  }

  lemma {:induction false} CallListWrites(calls: seq<ToolCall>)
    requires |calls| <= 8 && forall c | c in calls :: Plain(c)
    ensures WritesAll(CallList(calls), calls)
    decreases |calls|
  {
    if calls != [] {
      var n := |calls| - 1;
      CallListWrites(calls[..n]);
      assert CallList(calls)[..n] == CallList(calls[..n]);
      assert calls[n] in calls;
      CallObjectWrites(calls[n], n);
      hide Writes, CallObject, Plain;
      assert CallList(calls)[n] == CallObject(calls[n]);
    }
  }

  lemma CallObjectWrites(c: ToolCall, index: nat)
    requires Plain(c) && index < 8
    ensures CallObject(c).Obj? && Writes(CallObject(c), index, c) && c.toolName != ""
  {
  }

  // ---------- Decisions ----------

  /** The text for a route. */
  function RouteText(route: Route): string {
    match route
    case FaqAnswer => "faq_answer" case Answer => "answer" case ToolUse => "tool_call"
    case Clarify => "clarify" case Handoff => "handoff" case Chat => "chat"
  }

  /** A route text is read as its route, FAQ answers as answers; a missing or unknown one as an answer. */
  lemma RouteRead(show: Json -> string, data: Context, route: Route)
    ensures "route" in data && data["route"] == Str(RouteText(route)) ==>
              RequestedRoute(show, data) == if route == FaqAnswer then Answer else route
    ensures "route" !in data ==> RequestedRoute(show, data) == Answer
    ensures "route" in data && data["route"].Str? && data["route"].text !in {"tool_call", "clarify", "handoff", "chat"} ==>
              RequestedRoute(show, data) == Answer
  {
    assert |"tool_call"| == 9 && |"clarify"| == 7 && |"handoff"| == 7 && |"chat"| == 4 && |"answer"| == 6 && |"faq_answer"| == 10;
    assert "clarify"[0] == 'c' && "handoff"[0] == 'h';
  }

  function ReasonOf(data: Context): Json {
    if "reason" in data && data["reason"].Str? then data["reason"] else Null
  }

  /** A tool call object with a list becomes the decision for these calls, led by the first. */
  lemma ListedDecision(show: Json -> string, data: Context, items: seq<Json>, calls: seq<ToolCall>, allowed: set<string>)
    requires "route" in data && data["route"] == Str("tool_call") && "tool_calls" in data && data["tool_calls"] == Arr(items)
    requires WritesAll(if |items| <= 8 then items else items[..8], calls) && calls != [] && forall c | c in calls :: c.toolName in allowed
    ensures ParseConfiguredDecision(show, data, allowed) ==
            Decision(ToolUse, None, Some(calls[0].toolName), calls[0].toolArgs, ReasonOf(data), calls)
  {
    CallsRoundTrip(show, items, calls, allowed);
    RouteRead(show, data, ToolUse);
    hide RuntimeToolCalls, RequestedRoute;
  }

  /** A tool call object with a single tool becomes the one call with its arguments. */
  lemma SingleDecision(show: Json -> string, data: Context, name: string, args: Json, allowed: set<string>)
    requires "route" in data && data["route"] == Str("tool_call") && "tool_calls" !in data
    requires "tool_name" in data && data["tool_name"] == Str(name)
    requires args.Obj? && (if "tool_args" in data then data["tool_args"] == args else args == Obj(map[]))
    ensures var d := ParseConfiguredDecision(show, data, allowed);
            if name in allowed then
              d == Decision(ToolUse, None, Some(name), args, ReasonOf(data),
                            [ToolCall("tool-call-1", name, args, if "reason" in data then data["reason"] else Null)])
            else
              d.route == Answer && d.toolCalls == [] && d.toolName.None?
              && d.answer == Some("工具 " + name + " 未获授权，无法执行该操作。") && d.reason == Str("unknown_tool_requested:" + name)
  {
    NoListNoCalls(show, Null, allowed);
    RouteRead(show, data, ToolUse);
    hide RuntimeToolCalls, RequestedRoute;
  }

  /** A tool call object without any call is an answer that says so. */
  lemma EmptyDecision(show: Json -> string, data: Context, allowed: set<string>)
    requires "route" in data && data["route"] == Str("tool_call") && "tool_calls" !in data
    requires "tool_name" in data ==> !data["tool_name"].Str?
    ensures var d := ParseConfiguredDecision(show, data, allowed);
            d.route == Answer && d.toolCalls == [] && d.answer == Some("未提供可执行工具调用。") && d.reason == Str("empty_tool_call")
  {
    NoListNoCalls(show, Null, allowed);
    RouteRead(show, data, ToolUse);
    hide RuntimeToolCalls, RequestedRoute;
  }

  /** Any other route keeps its answer, stripped; without one the run asks back. */
  lemma TerminalDecision(show: Json -> string, data: Context, route: Route, allowed: set<string>)
    requires route != ToolUse && "route" in data && data["route"] == Str(RouteText(route))
    ensures var d := ParseConfiguredDecision(show, data, allowed);
            && d.toolCalls == [] && d.toolName.None? && d.reason == ReasonOf(data)
            && if "answer" in data && data["answer"].Str? && !AllBlank(data["answer"].text) then
                 d.route == (if route == FaqAnswer then Answer else route) && d.answer == Some(Strip(data["answer"].text))
               else d.route == Clarify && d.answer == Some("我需要更多信息才能继续处理。")
  {
    RouteRead(show, data, route);
    if "answer" in data && data["answer"].Str? { StripEmpty(data["answer"].text); }
    hide RuntimeToolCalls, RequestedRoute, Strip;
  }

  /** A decision as the object a model would send for it. */
  function DecisionObject(d: Decision): Context {
    var base := if d.reason.Str? then map["route" := Str(RouteText(d.route)), "reason" := d.reason] else map["route" := Str(RouteText(d.route))];
    if d.route == ToolUse then base["tool_calls" := Arr(CallList(d.toolCalls))]
    else base["answer" := Str(if d.answer.Some? then d.answer.value else "")]
  }

  /** Round trip: every actionable decision but an FAQ answer, written as an object, is read back. */
  lemma DecisionRoundTrip(show: Json -> string, d: Decision, allowed: set<string>)
    requires Actionable(d, allowed) && d.route != FaqAnswer && (d.reason.Str? || d.reason == Null)
    requires d.route == ToolUse ==> d.answer.None? && forall c | c in d.toolCalls :: Plain(c)
    requires d.route != ToolUse ==> d.toolArgs == Obj(map[]) && Strip(d.answer.value) == d.answer.value
    ensures ParseConfiguredDecision(show, DecisionObject(d), allowed) == d
  {
    hide ParseConfiguredDecision, Strip, CallList, WritesAll, Plain;
    var data := DecisionObject(d);
    DistinctKeys();
    if d.route == ToolUse {
      CallListWrites(d.toolCalls);
      ListLength(d.toolCalls);
      ListedDecision(show, data, CallList(d.toolCalls), d.toolCalls, allowed);
    } else {
      StripEmpty(d.answer.value);
      TerminalParts(show, data, d, allowed);
    }
  }

  lemma ListLength(calls: seq<ToolCall>)
    ensures |CallList(calls)| == |calls|
  {
  }

  lemma DistinctKeys()
    ensures "route" != "reason" && "route" != "tool_calls" && "route" != "answer" && "reason" != "tool_calls" && "reason" != "answer"
  {
    assert |"route"| == 5 && |"reason"| == 6 && |"tool_calls"| == 10 && |"answer"| == 6 && "reason"[0] == 'r' && "answer"[0] == 'a';
  }

  lemma TerminalParts(show: Json -> string, data: Context, d: Decision, allowed: set<string>)
    requires Actionable(d, allowed) && d.route != FaqAnswer && d.route != ToolUse && (d.reason.Str? || d.reason == Null)
    requires d.toolArgs == Obj(map[]) && Strip(d.answer.value) == d.answer.value && data == DecisionObject(d)
    requires !AllBlank(d.answer.value)
    ensures ParseConfiguredDecision(show, data, allowed) == d
  {
    DistinctKeys();
    RouteRead(show, data, d.route);
    StripEmpty(d.answer.value);
    hide RuntimeToolCalls, RequestedRoute, Strip;
  }
}
