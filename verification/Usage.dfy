/** Model usage: counters kept per model and in total, and the differences between snapshots that
    nodes and runs report. */
module Usage {
  import opened Json

  datatype Counts = Counts(calls: int, failedCalls: int, promptTokens: int, completionTokens: int, totalTokens: int)
  datatype Usage = Usage(totalCalls: int, failedCalls: int, byModel: map<string, Counts>)

  /** One recorded call; a failed one has no token counts. */
  datatype Record = Record(model: string, failed: bool, tokens: Option<Tokens>)
  datatype Tokens = Tokens(prompt: int, completion: int, total: int)

  const ZERO := Counts(0, 0, 0, 0, 0)
  const UNUSED := Usage(0, 0, map[])

  function At(u: Usage, model: string): Counts {
    if model in u.byModel then u.byModel[model] else ZERO
  }

  function Plus(a: Counts, b: Counts): Counts {
    Counts(a.calls + b.calls, a.failedCalls + b.failedCalls, a.promptTokens + b.promptTokens,
           a.completionTokens + b.completionTokens, a.totalTokens + b.totalTokens)
  }

  function Minus(a: Counts, b: Counts): Counts {
    Counts(a.calls - b.calls, a.failedCalls - b.failedCalls, a.promptTokens - b.promptTokens,
           a.completionTokens - b.completionTokens, a.totalTokens - b.totalTokens)
  }

  /** What one record adds to its model. */
  function CountsOf(r: Record): Counts {
    var tokens := if r.tokens.Some? then r.tokens.value else Tokens(0, 0, 0);
    Counts(1, if r.failed then 1 else 0, tokens.prompt, tokens.completion, tokens.total)
  }

  /** `_record_usage`. */
  function Recorded(u: Usage, r: Record): Usage {
    Usage(u.totalCalls + 1, u.failedCalls + if r.failed then 1 else 0, u.byModel[r.model := Plus(At(u, r.model), CountsOf(r))])
  }

  function After(u: Usage, records: seq<Record>): Usage
    decreases |records|
  {
    if records == [] then u else Recorded(After(u, records[..|records| - 1]), records[|records| - 1])
  }

  lemma AtRecorded(u: Usage, r: Record, m: string)
    ensures At(Recorded(u, r), m) == if m == r.model then Plus(At(u, m), CountsOf(r)) else At(u, m)
  {
  }

  lemma Algebra(a: Counts, b: Counts, c: Counts)
    ensures Plus(Plus(a, b), c) == Plus(Plus(a, c), b) == Plus(a, Plus(b, c))
    ensures Plus(Minus(b, a), Minus(c, b)) == Minus(c, a)
    ensures Minus(Plus(a, c), b) == Plus(Minus(a, b), c)
  {
  }

  // ---------- Totals ----------

  predicate Distinct(models: seq<string>) {
    forall i, j | 0 <= i < j < |models| :: models[i] != models[j]
  }

  function SumOver(u: Usage, models: seq<string>): Counts
    decreases |models|
  {
    if models == [] then ZERO else Plus(SumOver(u, models[..|models| - 1]), At(u, models[|models| - 1]))
  }

  lemma {:induction false} SumOverRecorded(u: Usage, r: Record, models: seq<string>)
    requires Distinct(models)
    ensures SumOver(Recorded(u, r), models) == if r.model in models then Plus(SumOver(u, models), CountsOf(r)) else SumOver(u, models)
    decreases |models|
  {
    hide At, Recorded, Plus, CountsOf;
    if models != [] {
      var n := |models| - 1;
      SumOverRecorded(u, r, models[..n]);
      AtRecorded(u, r, models[n]);
      Algebra(SumOver(u, models[..n]), CountsOf(r), At(u, models[n]));
      Algebra(SumOver(u, models[..n]), At(u, models[n]), CountsOf(r));
      assert r.model in models <==> r.model in models[..n] || r.model == models[n];
      assert r.model == models[n] ==> r.model !in models[..n];
    }
  }

  ghost predicate Balanced(u: Usage) {
    forall models | Distinct(models) && (forall m | m in u.byModel :: m in models) ::
      SumOver(u, models).calls == u.totalCalls && SumOver(u, models).failedCalls == u.failedCalls
  }

  lemma {:induction false} UnusedBalanced(models: seq<string>)
    ensures SumOver(UNUSED, models) == ZERO
    decreases |models|
  {
    if models != [] { UnusedBalanced(models[..|models| - 1]); }
  }

  lemma RecordedKeys(u: Usage, r: Record)
    ensures var u' := Recorded(u, r);
            && r.model in u'.byModel && (forall m | m in u.byModel :: m in u'.byModel)
            && u'.totalCalls == u.totalCalls + 1 && u'.failedCalls == u.failedCalls + if r.failed then 1 else 0
  {
  }

  lemma PlusCalls(a: Counts, r: Record)
    ensures Plus(a, CountsOf(r)).calls == a.calls + 1
    ensures Plus(a, CountsOf(r)).failedCalls == a.failedCalls + if r.failed then 1 else 0
  {
  }

  /** After any records the totals are the sums over the models, whatever order they are listed in,
      and count the records. */
  lemma {:induction false} TotalsAreSums(records: seq<Record>)
    ensures Balanced(After(UNUSED, records)) && After(UNUSED, records).totalCalls == |records|
    decreases |records|
  {
    hide Balanced, Recorded;
    if records == [] {
      UnusedIsBalanced();
    } else {
      var n := |records| - 1;
      TotalsAreSums(records[..n]);
      RecordedBalanced(After(UNUSED, records[..n]), records[n]);
      RecordedKeys(After(UNUSED, records[..n]), records[n]);
    }
  }

  lemma UnusedIsBalanced()
    ensures Balanced(UNUSED)
  {
    forall models ensures SumOver(UNUSED, models) == ZERO { UnusedBalanced(models); }
  }

  lemma RecordedBalanced(u: Usage, r: Record)
    requires Balanced(u)
    ensures Balanced(Recorded(u, r))
  {
    RecordedKeys(u, r);
    hide At, Recorded, Plus, CountsOf, SumOver;
    var u' := Recorded(u, r);
    forall models | Distinct(models) && (forall m | m in u'.byModel :: m in models)
      ensures SumOver(u', models).calls == u'.totalCalls && SumOver(u', models).failedCalls == u'.failedCalls
    {
      SumOverRecorded(u, r, models);
      PlusCalls(SumOver(u, models), r);
    }
  }

  /** How many calls of a model were recorded, how many of them failed, and the tokens they reported. */
  function CallsOf(records: seq<Record>, model: string): int {
    if records == [] then 0 else CallsOf(records[1..], model) + if records[0].model == model then 1 else 0
  }

  function FailuresOf(records: seq<Record>, model: string): int {
    if records == [] then 0 else FailuresOf(records[1..], model) + if records[0].model == model && records[0].failed then 1 else 0
  }

  function TokensOf(records: seq<Record>, model: string, count: Tokens -> int): int {
    if records == [] then 0
    else TokensOf(records[1..], model, count) + match records[0].tokens
                                                case Some(tokens) => if records[0].model == model then count(tokens) else 0
                                                case None => 0
  }

  function Prompt(): Tokens -> int { (tokens: Tokens) => tokens.prompt }
  function Completion(): Tokens -> int { (tokens: Tokens) => tokens.completion }
  function AllTokens(): Tokens -> int { (tokens: Tokens) => tokens.total }

  /** Every counter of every model is the sum over its own records, and the totals are over all. */
  lemma {:induction false} CountersAreSums(records: seq<Record>, model: string)
    ensures var u := After(UNUSED, records);
            && At(u, model).calls == CallsOf(records, model) && At(u, model).failedCalls == FailuresOf(records, model)
            && At(u, model).promptTokens == TokensOf(records, model, Prompt())
            && At(u, model).completionTokens == TokensOf(records, model, Completion())
            && At(u, model).totalTokens == TokensOf(records, model, AllTokens())
            && (model in u.byModel <==> exists r :: r in records && r.model == model)
    decreases |records|
  {
    if records != [] {
      var n := |records| - 1;
      CountersAreSums(records[..n], model);
      assert records == records[..n] + [records[n]];
      SumsSnoc(records[..n], records[n], model);
    }
  }

  lemma {:induction false} SumsSnoc(records: seq<Record>, r: Record, model: string)
    ensures CallsOf(records + [r], model) == CallsOf(records, model) + CallsOf([r], model)
    ensures FailuresOf(records + [r], model) == FailuresOf(records, model) + FailuresOf([r], model)
    ensures TokensOf(records + [r], model, Prompt()) == TokensOf(records, model, Prompt()) + TokensOf([r], model, Prompt())
    ensures TokensOf(records + [r], model, Completion()) == TokensOf(records, model, Completion()) + TokensOf([r], model, Completion())
    ensures TokensOf(records + [r], model, AllTokens()) == TokensOf(records, model, AllTokens()) + TokensOf([r], model, AllTokens())
    decreases |records|
  {
    assert [r][1..] == [];
    if records == [] {
      assert [] + [r] == [r];
    } else {
      assert (records + [r])[1..] == records[1..] + [r];
      SumsSnoc(records[1..], r, model);
    }
  }

  // ---------- Differences ----------

  /** `_usage_delta`: every model either snapshot knows. */
  function Delta(before: Usage, after: Usage): Usage {
    Usage(after.totalCalls - before.totalCalls, after.failedCalls - before.failedCalls,
          map m | m in before.byModel.Keys + after.byModel.Keys :: Minus(At(after, m), At(before, m)))
  }

  /** `diff_model_usage`: models without any difference are dropped. */
  function Trimmed(u: Usage): Usage {
    u.(byModel := map m | m in u.byModel && u.byModel[m] != ZERO :: u.byModel[m])
  }

  function Added(a: Usage, b: Usage): Usage {
    Usage(a.totalCalls + b.totalCalls, a.failedCalls + b.failedCalls,
          map m | m in a.byModel.Keys + b.byModel.Keys :: Plus(At(a, m), At(b, m)))
  }

  lemma AtDelta(before: Usage, after: Usage, m: string)
    ensures At(Delta(before, after), m) == Minus(At(after, m), At(before, m))
  {
  }

  lemma AtAdded(a: Usage, b: Usage, m: string)
    ensures At(Added(a, b), m) == Plus(At(a, m), At(b, m))
  {
  }

  lemma TotalsOf(a: Usage, b: Usage)
    ensures Delta(a, b).totalCalls == b.totalCalls - a.totalCalls && Delta(a, b).failedCalls == b.failedCalls - a.failedCalls
    ensures Added(a, b).totalCalls == a.totalCalls + b.totalCalls && Added(a, b).failedCalls == a.failedCalls + b.failedCalls
  {
  }

  /** The same numbers: an absent model reads as all zeros. */
  ghost predicate Same(a: Usage, b: Usage) {
    a.totalCalls == b.totalCalls && a.failedCalls == b.failedCalls && forall m :: At(a, m) == At(b, m)
  }

  /** What is reported depends only on the numbers. */
  lemma TrimmedSame(a: Usage, b: Usage)
    ensures Same(a, b) <==> Trimmed(a) == Trimmed(b)
  {
    forall m ensures At(a, m) == At(Trimmed(a), m) && At(b, m) == At(Trimmed(b), m) {}
    if Same(a, b) {
      forall m ensures m in Trimmed(a).byModel <==> m in Trimmed(b).byModel {
        assert At(a, m) == At(b, m);
      }
      forall m | m in Trimmed(a).byModel ensures Trimmed(a).byModel[m] == Trimmed(b).byModel[m] {
        assert At(a, m) == At(b, m);
      }
    }
  }

  lemma Telescopes(a: Usage, b: Usage, c: Usage)
    ensures Same(Added(Delta(a, b), Delta(b, c)), Delta(a, c))
  {
    hide At, Delta, Added, Plus, Minus;
    TotalsOf(a, b); TotalsOf(b, c); TotalsOf(a, c); TotalsOf(Delta(a, b), Delta(b, c));
    forall m ensures At(Added(Delta(a, b), Delta(b, c)), m) == At(Delta(a, c), m) {
      AtAdded(Delta(a, b), Delta(b, c), m);
      AtDelta(a, b, m); AtDelta(b, c, m); AtDelta(a, c, m);
      Algebra(At(a, m), At(b, m), At(c, m));
    }
  }

  lemma AddedSame(a: Usage, b: Usage, b': Usage)
    requires Same(b, b')
    ensures Same(Added(a, b), Added(a, b'))
  {
    hide At, Added, Plus;
    TotalsOf(a, b); TotalsOf(a, b');
    forall m ensures At(Added(a, b), m) == At(Added(a, b'), m) {
      AtAdded(a, b, m); AtAdded(a, b', m);
    }
  }

  // ---------- Nodes of a run ----------

  datatype NodeRun = NodeRun(node: string, calls: seq<Record>)

  function UsageAfter(u: Usage, nodes: seq<NodeRun>): Usage
    decreases |nodes|
  {
    if nodes == [] then u else UsageAfter(After(u, nodes[0].calls), nodes[1..])
  }

  /** What each node reports at its end. */
  function Reports(u: Usage, nodes: seq<NodeRun>): seq<Usage>
    decreases |nodes|
  {
    if nodes == [] then []
    else
      var u' := After(u, nodes[0].calls);
      [Delta(u, u')] + Reports(u', nodes[1..])
  }

  function Total(reports: seq<Usage>): Usage
    decreases |reports|
  {
    if reports == [] then UNUSED else Added(reports[0], Total(reports[1..]))
  }

  /** The calls made while the nodes ran. */
  function AllCalls(nodes: seq<NodeRun>): seq<Record>
    decreases |nodes|
  {
    if nodes == [] then [] else nodes[0].calls + AllCalls(nodes[1..])
  }

  /** Usage conservation: when calls are made only inside nodes, the reports of the nodes of a run,
      repeated ones included, add up to what the run reports. */
  lemma {:induction false} ReportsAddUp(u: Usage, nodes: seq<NodeRun>)
    ensures Same(Total(Reports(u, nodes)), Delta(u, UsageAfter(u, nodes)))
    ensures Trimmed(Total(Reports(u, nodes))) == Trimmed(Delta(u, UsageAfter(u, nodes)))
    decreases |nodes|
  {
    if nodes != [] {
      var u', end := After(u, nodes[0].calls), UsageAfter(u, nodes);
      ReportsAddUp(u', nodes[1..]);
      assert Reports(u, nodes)[1..] == Reports(u', nodes[1..]);
      AddedSame(Delta(u, u'), Total(Reports(u', nodes[1..])), Delta(u', end));
      Telescopes(u, u', end);
    }
    TrimmedSame(Total(Reports(u, nodes)), Delta(u, UsageAfter(u, nodes)));
  }

  lemma {:induction false} AfterConcat(u: Usage, a: seq<Record>, b: seq<Record>)
    ensures After(u, a + b) == After(After(u, a), b)
    decreases |b|
  {
    if b == [] {
      assert a + b == a;
    } else {
      assert (a + b)[..|a + b| - 1] == a + b[..|b| - 1];
      AfterConcat(u, a, b[..|b| - 1]);
    }
  }

  lemma {:induction false} DeltaIsOwnCalls(u: Usage, calls: seq<Record>)
    ensures Same(Delta(u, After(u, calls)), After(UNUSED, calls))
    decreases |calls|
  {
    hide At, Delta, Recorded, Plus, Minus, CountsOf;
    if calls == [] {
      TotalsOf(u, u);
      forall m ensures At(Delta(u, u), m) == At(UNUSED, m) {
        AtDelta(u, u, m);
        NothingUsed(u, m);
      }
    } else {
      var n := |calls| - 1;
      DeltaIsOwnCalls(u, calls[..n]);
      var a, b := After(u, calls[..n]), After(UNUSED, calls[..n]);
      DeltaRecorded(u, a, b, calls[n]);
    }
  }

  lemma NothingUsed(u: Usage, m: string)
    ensures At(UNUSED, m) == ZERO == Minus(At(u, m), At(u, m))
  {
  }

  lemma DeltaRecorded(u: Usage, a: Usage, b: Usage, r: Record)
    requires Same(Delta(u, a), b)
    ensures Same(Delta(u, Recorded(a, r)), Recorded(b, r))
  {
    RecordedKeys(a, r); RecordedKeys(b, r);
    hide At, Delta, Recorded, Plus, Minus, CountsOf;
    TotalsOf(u, a); TotalsOf(u, Recorded(a, r));
    forall m ensures At(Delta(u, Recorded(a, r)), m) == At(Recorded(b, r), m) {
      AtDelta(u, a, m); AtDelta(u, Recorded(a, r), m);
      AtRecorded(a, r, m); AtRecorded(b, r, m);
      Algebra(At(a, m), At(u, m), CountsOf(r));
      assert At(Delta(u, a), m) == At(b, m);
    }
  }

  lemma {:induction false} UsageAfterIsAllCalls(u: Usage, nodes: seq<NodeRun>)
    ensures UsageAfter(u, nodes) == After(u, AllCalls(nodes))
    decreases |nodes|
  {
    if nodes != [] {
      UsageAfterIsAllCalls(After(u, nodes[0].calls), nodes[1..]);
      AfterConcat(u, nodes[0].calls, AllCalls(nodes[1..]));
    }
  }

  /** What a run reports is the usage of its own calls, however much the client was used before. */
  lemma RunReportsItsCalls(u: Usage, nodes: seq<NodeRun>)
    ensures Trimmed(Delta(u, UsageAfter(u, nodes))) == Trimmed(After(UNUSED, AllCalls(nodes)))
  {
    UsageAfterIsAllCalls(u, nodes);
    DeltaIsOwnCalls(u, AllCalls(nodes));
    TrimmedSame(Delta(u, UsageAfter(u, nodes)), After(UNUSED, AllCalls(nodes)));
  }

  // ---------- Requests ----------

  /** How a request ends: without a readable body, with a body that lacks the answer, or answered. */
  datatype Reply = Unreadable | WithoutAnswer(tokens: Option<Tokens>) | Answered(tokens: Option<Tokens>)

  /** A reply that lacks the answer has been recorded as a success before it is found to fail. */
  function RecordsOf(model: string, reply: Reply): seq<Record> {
    match reply
    case Unreadable => [Record(model, true, None)]
    case WithoutAnswer(tokens) => [Record(model, false, tokens), Record(model, true, None)]
    case Answered(tokens) => [Record(model, false, tokens)]
  }

  function RequestRecords(requests: seq<(string, Reply)>): seq<Record>
    decreases |requests|
  {
    if requests == [] then [] else RecordsOf(requests[0].0, requests[0].1) + RequestRecords(requests[1..])
  }

  lemma {:induction false} RequestsAreRecorded(requests: seq<(string, Reply)>)
    ensures |RequestRecords(requests)| >= |requests|
    ensures |RequestRecords(requests)| == |requests| <==> forall i | 0 <= i < |requests| :: !requests[i].1.WithoutAnswer?
    decreases |requests|
  {
    if requests != [] {
      RequestsAreRecorded(requests[1..]);
      assert forall i | 1 <= i < |requests| :: requests[i] == requests[1..][i - 1];
      if requests[0].1.WithoutAnswer? { assert exists i :: 0 <= i < |requests| && requests[i].1.WithoutAnswer?; }
    }
  }

  /** The call counter counts requests exactly when no reply lacked its answer: such a reply counts
      twice. */
  lemma CallsCountRequestsExactly(requests: seq<(string, Reply)>)
    ensures After(UNUSED, RequestRecords(requests)).totalCalls == |requests|
            <==> forall i | 0 <= i < |requests| :: !requests[i].1.WithoutAnswer?
  {
    TotalsAreSums(RequestRecords(requests));
    RequestsAreRecorded(requests);
  }

  /** Failed calls are the requests that were not answered, and each request's calls go to its model. */
  lemma {:induction false} FailuresAreUnanswered(requests: seq<(string, Reply)>, model: string)
    ensures FailuresOf(RequestRecords(requests), model) == Unanswered(requests, model)
    decreases |requests|
  {
    if requests != [] {
      FailuresAreUnanswered(requests[1..], model);
      FailuresConcat(RecordsOf(requests[0].0, requests[0].1), RequestRecords(requests[1..]), model);
      OneRequest(requests[0].0, requests[0].1, model);
    }
  }

  function Unanswered(requests: seq<(string, Reply)>, model: string): int {
    if requests == [] then 0
    else Unanswered(requests[1..], model) + if requests[0].0 == model && !requests[0].1.Answered? then 1 else 0
  }

  /** The token counts of a model are those of the replies it gave, whether or not they held an answer. */
  lemma {:induction false} TokensAreOfReplies(requests: seq<(string, Reply)>, model: string, count: Tokens -> int)
    ensures TokensOf(RequestRecords(requests), model, count) == Replied(requests, model, count)
    decreases |requests|
  {
    if requests != [] {
      var (asked, reply) := requests[0];
      TokensAreOfReplies(requests[1..], model, count);
      TokensConcat(RecordsOf(asked, reply), RequestRecords(requests[1..]), model, count);
      TokensOfRequest(asked, reply, model, count);
    }
  }

  function Replied(requests: seq<(string, Reply)>, model: string, count: Tokens -> int): int {
    if requests == [] then 0
    else
      var (asked, reply) := requests[0];
      Replied(requests[1..], model, count) + if asked == model && !reply.Unreadable? && reply.tokens.Some? then count(reply.tokens.value) else 0
  }

  lemma TokensOfRequest(asked: string, reply: Reply, model: string, count: Tokens -> int)
    ensures TokensOf(RecordsOf(asked, reply), model, count) == if asked == model && !reply.Unreadable? && reply.tokens.Some? then count(reply.tokens.value) else 0
  {
    var failed := Record(asked, true, None);
    assert TokensOf([failed], model, count) == 0;
    if !reply.Unreadable? {
      var answered := Record(asked, false, reply.tokens);
      assert [answered, failed][1..] == [failed] && [answered][1..] == [];
    }
  }

  lemma {:induction false} TokensConcat(a: seq<Record>, b: seq<Record>, model: string, count: Tokens -> int)
    ensures TokensOf(a + b, model, count) == TokensOf(a, model, count) + TokensOf(b, model, count)
    decreases |a|
  {
    if a == [] {
      assert a + b == b;
    } else {
      assert (a + b)[1..] == a[1..] + b;
      TokensConcat(a[1..], b, model, count);
    }
  }

  lemma OneRequest(asked: string, reply: Reply, model: string)
    ensures FailuresOf(RecordsOf(asked, reply), model) == if asked == model && !reply.Answered? then 1 else 0
  {
    var failed := Record(asked, true, None);
    assert FailuresOf([failed], model) == if asked == model then 1 else 0;
    if !reply.Unreadable? {
      var answered := Record(asked, false, reply.tokens);
      assert [answered, failed][1..] == [failed] && [answered][1..] == [];
    }
  }

  lemma {:induction false} FailuresConcat(a: seq<Record>, b: seq<Record>, model: string)
    ensures FailuresOf(a + b, model) == FailuresOf(a, model) + FailuresOf(b, model)
    decreases |a|
  {
    if a == [] {
      assert a + b == b;
    } else {
      assert (a + b)[1..] == a[1..] + b;
      FailuresConcat(a[1..], b, model);
    }
  }

  // ---------- The client and the hooks ----------

  class Client {
    var totalCalls: int
    var failedCalls: int
    var byModel: map<string, Counts>

    constructor ()
      ensures Snapshot() == UNUSED
    {
      totalCalls, failedCalls, byModel := 0, 0, map[];
    }

    /** `usage_snapshot`: a copy. */
    function Snapshot(): Usage
      reads this
    {
      Usage(totalCalls, failedCalls, byModel)
    }

    method RecordUsage(model: string, tokens: Option<Tokens>, failed: bool)
      modifies this
      ensures Snapshot() == Recorded(old(Snapshot()), Record(model, failed, tokens))
    {
      totalCalls := totalCalls + 1;
      if failed { failedCalls := failedCalls + 1; }
      var item := if model in byModel then byModel[model] else ZERO;
      item := item.(calls := item.calls + 1);
      if failed { item := item.(failedCalls := item.failedCalls + 1); }
      if tokens.Some? {
        item := item.(promptTokens := item.promptTokens + tokens.value.prompt);
        item := item.(completionTokens := item.completionTokens + tokens.value.completion);
        item := item.(totalTokens := item.totalTokens + tokens.value.total);
      }
      byModel := byModel[model := item];
    }

    /** The recording part of `chat_text`. */
    method Chat(model: string, reply: Reply) returns (answered: bool)
      modifies this
      ensures Snapshot() == After(old(Snapshot()), RecordsOf(model, reply)) && (answered <==> reply.Answered?)
    {
      hide Recorded, At, Plus, CountsOf;
      ghost var u := Snapshot();
      if reply.Unreadable? {
        RecordUsage(model, None, true);
        AfterOne(u, Record(model, true, None));
        return false;
      }
      RecordUsage(model, reply.tokens, false);
      AfterOne(u, Record(model, false, reply.tokens));
      if reply.WithoutAnswer? {
        RecordUsage(model, None, true);
        AfterTwo(u, Record(model, false, reply.tokens), Record(model, true, None));
        return false;
      }
      return true;
    }
  }

  lemma AfterTwo(u: Usage, r: Record, r': Record)
    ensures After(u, [r, r']) == Recorded(Recorded(u, r), r')
  {
    hide Recorded;
    assert [r, r'][..1] == [r];
    AfterOne(u, r);
  }

  lemma AfterOne(u: Usage, r: Record)
    ensures After(u, [r]) == Recorded(u, r)
  {
  }

  /** The hooks' part of the store: snapshots by node name, a repeated node overwriting its own. */
  class Hooks {
    var before: map<string, Usage>
    var reports: seq<Usage>

    constructor ()
      ensures before == map[] && reports == []
    {
      before, reports := map[], [];
    }

    method OnNodeStart(node: string, client: Client)
      modifies this
      ensures before == old(before)[node := client.Snapshot()] && reports == old(reports)
    {
      before := before[node := client.Snapshot()];
    }

    method OnNodeEnd(node: string, client: Client)
      modifies this
      ensures before == old(before)
      ensures reports == if node in before then old(reports) + [Delta(before[node], client.Snapshot())] else old(reports)
    {
      if node in before {
        reports := reports + [Delta(before[node], client.Snapshot())];
      }
    }

    /** One node between its hooks. */
    method RunNode(node: NodeRun, client: Client)
      modifies this, client
      ensures client.Snapshot() == After(old(client.Snapshot()), node.calls)
      ensures reports == old(reports) + [Delta(old(client.Snapshot()), client.Snapshot())]
    {
      hide Recorded, Delta;
      ghost var u := client.Snapshot();
      OnNodeStart(node.node, client);
      var c := 0;
      while c < |node.calls|
        invariant 0 <= c <= |node.calls|
        invariant node.node in before && before[node.node] == u && reports == old(reports)
        invariant client.Snapshot() == After(u, node.calls[..c])
      {
        var call := node.calls[c];
        client.RecordUsage(call.model, call.tokens, call.failed);
        assert node.calls[..c + 1][..c] == node.calls[..c];
        c := c + 1;
      }
      assert node.calls[..c] == node.calls;
      OnNodeEnd(node.node, client);
    }

    /** The nodes of a run one after the other, each with the calls it makes. */
    method RunNodes(nodes: seq<NodeRun>, client: Client)
      modifies this, client
      ensures reports == old(reports) + Reports(old(client.Snapshot()), nodes)
      ensures client.Snapshot() == UsageAfter(old(client.Snapshot()), nodes)
    {
      hide Recorded, Delta, After;
      var i := 0;
      while i < |nodes|
        invariant 0 <= i <= |nodes|
        invariant reports + Reports(client.Snapshot(), nodes[i..]) == old(reports) + Reports(old(client.Snapshot()), nodes)
        invariant UsageAfter(client.Snapshot(), nodes[i..]) == UsageAfter(old(client.Snapshot()), nodes)
      {
        assert nodes[i..][1..] == nodes[i + 1..];
        RunNode(nodes[i], client);
        i := i + 1;
      }
    }
  }
}
