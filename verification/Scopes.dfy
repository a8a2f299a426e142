/** Tool scopes: lists of allowed values by key, merged over the rows that grant them. A normalised
    list is sorted and free of repetition, so the set it lists decides it. */
module Scopes {
  import opened Json
  import opened Planner
  import opened SortedLists

  type RawScope = Option<map<string, Json>>
  type Scope = map<string, set<string>>
  type ListScope = map<string, seq<string>>

  const MALFORMED := "scope 只支持 dict[str, list[str]]"

  // ---------- Normalisation ----------

  predicate WellFormed(raw: RawScope) {
    raw.Some? ==> forall key | key in raw.value :: raw.value[key].Arr? && AllText(raw.value[key].items)
  }

  predicate AllText(items: seq<Json>) {
    forall i | 0 <= i < |items| :: items[i].Str?
  }

  function TextSet(items: seq<Json>): set<string> {
    set i | 0 <= i < |items| && items[i].Str? :: items[i].text
  }

  /** What a well-formed scope normalises to; none and the empty scope alike to nothing. */
  function Normal(raw: RawScope): Scope {
    if raw.None? then map[]
    else map key | key in raw.value && raw.value[key].Arr? :: TextSet(raw.value[key].items)
  }

  /** The sorted lists of a scope's sets. */
  ghost predicate Lists(lists: ListScope, scope: Scope) {
    lists.Keys == scope.Keys && forall key | key in scope :: Sorted(lists[key]) && Elements(lists[key]) == scope[key]
  }

  /** A scope is listed in one way. */
  lemma ListedOnce(a: ListScope, b: ListScope, scope: Scope)
    requires Lists(a, scope) && Lists(b, scope)
    ensures a == b
  {
    hide Sorted;
    forall key | key in scope ensures a[key] == b[key] {
      SameElements(a[key], b[key]);
      SortedUnique(a[key], b[key]);
    }
  }

  lemma SameElements(a: seq<string>, b: seq<string>)
    requires Elements(a) == Elements(b)
    ensures forall x :: x in a <==> x in b
  {
    forall x ensures x in a <==> x in b {
      assert x in a <==> x in Elements(a);
      assert x in b <==> x in Elements(b);
    }
  }

  /** A value that is no list, or a list with anything but texts. */
  predicate Malformed(value: Json) {
    !value.Arr? || exists i :: 0 <= i < |value.items| && !value.items[i].Str?
  }

  /** A scope as given lists this text under this key. */
  predicate Requests(raw: RawScope, key: string, text: string) {
    raw.Some? && key in raw.value && raw.value[key].Arr? && Str(text) in raw.value[key].items
  }

  lemma WellFormedExactly(raw: RawScope)
    ensures WellFormed(raw) <==> !(raw.Some? && exists key :: key in raw.value && Malformed(raw.value[key]))
  {
    if raw.Some? {
      forall key | key in raw.value ensures Malformed(raw.value[key]) <==> !(raw.value[key].Arr? && AllText(raw.value[key].items)) {}
    }
  }

  lemma TextSetExactly(items: seq<Json>, text: string)
    ensures text in TextSet(items) <==> Str(text) in items
  {
    if Str(text) in items { var i :| 0 <= i < |items| && items[i] == Str(text); assert items[i].text == text; }
  }

  /** What a scope lists is in its normal form. */
  lemma NormalExactly(raw: RawScope, key: string, text: string)
    ensures text in Values(Normal(raw), key) <==> Requests(raw, key, text)
    ensures WellFormed(raw) ==> (key in Normal(raw) <==> raw.Some? && key in raw.value)
  {
    if raw.Some? && key in raw.value && raw.value[key].Arr? { TextSetExactly(raw.value[key].items, text); }
  }

  /** These are the lists of a scope as given: its keys, and the texts it lists under each. */
  ghost predicate ListsRequests(lists: ListScope, raw: RawScope) {
    && (forall key :: key in lists <==> raw.Some? && key in raw.value)
    && forall key, text | key in lists :: text in lists[key] <==> Requests(raw, key, text)
  }

  /** `normalize_scope`. */
  method NormalizeScope(raw: RawScope) returns (scope: Outcome<ListScope>)
    ensures scope.Ok? <==> WellFormed(raw)
    ensures scope.Ok? ==> Lists(scope.value, Normal(raw)) && ListsRequests(scope.value, raw)
    ensures scope.Raise? <==> raw.Some? && exists key :: key in raw.value && Malformed(raw.value[key])
  {
    scope := NormalizeLists(raw);
    WellFormedExactly(raw);
    if scope.Ok? { NormalizedHolds(raw, scope.value); }
  }

  method NormalizeLists(raw: RawScope) returns (scope: Outcome<ListScope>)
    ensures scope.Ok? <==> WellFormed(raw)
    ensures scope.Ok? ==> Lists(scope.value, Normal(raw))
  {
    hide Sorted;
    if raw.None? || raw.value == map[] { return Ok(map[]); }
    var normalized: ListScope := map[];
    var keys := raw.value.Keys;
    while keys != {}
      invariant keys <= raw.value.Keys && normalized.Keys == raw.value.Keys - keys
      invariant forall key | key in normalized ::
                  raw.value[key].Arr? && AllText(raw.value[key].items)
                  && Sorted(normalized[key]) && Elements(normalized[key]) == TextSet(raw.value[key].items)
      decreases |keys|
    {
      var key :| key in keys;
      if !raw.value[key].Arr? { return Raise(MALFORMED); }
      var items := raw.value[key].items;
      var values: set<string> := {};
      var i := 0;
      while i < |items|
        invariant 0 <= i <= |items| && AllText(items[..i]) && values == TextSet(items[..i])
      {
        if !items[i].Str? { return Raise(MALFORMED); }
        values := values + {items[i].text};
        i := i + 1;
      }
      assert items[..i] == items;
      var list := SortSet(values);
      normalized := normalized[key := list];
      keys := keys - {key};
    }
    return Ok(normalized);
  }

  lemma NormalizedHolds(raw: RawScope, lists: ListScope)
    requires WellFormed(raw) && Lists(lists, Normal(raw))
    ensures ListsRequests(lists, raw)
  {
    hide Sorted, Requests, Normal;
    forall key ensures key in lists <==> raw.Some? && key in raw.value { NormalExactly(raw, key, ""); }
    forall key, text | key in lists ensures text in lists[key] <==> Requests(raw, key, text) {
      NormalExactly(raw, key, text);
      assert text in lists[key] <==> text in Elements(lists[key]);
    }
  }

  // ---------- The order ----------

  function Values(scope: Scope, key: string): set<string> {
    if key in scope then scope[key] else {}
  }

  /** `scope_is_subset`, on normalised scopes: a key without values asks for nothing. */
  predicate Below(a: Scope, b: Scope) {
    forall key | key in a :: a[key] <= Values(b, key)
  }

  lemma BelowIsAPreorder(a: Scope, b: Scope, c: Scope)
    ensures Below(a, a)
    ensures Below(a, b) && Below(b, c) ==> Below(a, c)
    ensures Below(a, b) && Below(b, a) <==> forall key :: Values(a, key) == Values(b, key)
  {
  }

  lemma BelowExactly(requested: RawScope, allowed: RawScope)
    ensures Below(Normal(requested), Normal(allowed)) <==> forall key, text | Requests(requested, key, text) :: Requests(allowed, key, text)
  {
    var a, b := Normal(requested), Normal(allowed);
    forall key, text
      ensures (text in Values(a, key) <==> Requests(requested, key, text)) && (text in Values(b, key) <==> Requests(allowed, key, text))
    {
      NormalExactly(requested, key, text); NormalExactly(allowed, key, text);
    }
    if forall key, text | Requests(requested, key, text) :: Requests(allowed, key, text) {
      forall key, text | key in a && text in a[key] ensures text in Values(b, key) { assert text in Values(a, key); }
    }
    if Below(a, b) {
      forall key, text | Requests(requested, key, text) ensures Requests(allowed, key, text) {
        assert text in Values(a, key);
        assert key in a && a[key] <= Values(b, key);
      }
    }
  }

  method ScopeIsSubset(requested: RawScope, allowed: RawScope) returns (subset: Outcome<bool>)
    ensures subset.Ok? <==> WellFormed(requested) && WellFormed(allowed)
    ensures subset.Ok? ==> (subset.value <==> Below(Normal(requested), Normal(allowed)))
    ensures subset.Ok? ==>
              (subset.value <==> forall key, text | Requests(requested, key, text) :: Requests(allowed, key, text))
  {
    hide Requests, ListsRequests, Malformed, Sorted;
    BelowExactly(requested, allowed);
    var wanted := NormalizeScope(requested);
    if wanted.Raise? { return Raise(wanted.error); }
    var granted := NormalizeScope(allowed);
    if granted.Raise? { return Raise(granted.error); }
    var keys := wanted.value.Keys;
    while keys != {}
      invariant keys <= wanted.value.Keys
      invariant forall key | key in wanted.value && key !in keys :: Normal(requested)[key] <= Values(Normal(allowed), key)
      decreases |keys|
    {
      var key :| key in keys;
      var values := if key in granted.value then Elements(granted.value[key]) else {};
      assert Elements(wanted.value[key]) == Normal(requested)[key] && values == Values(Normal(allowed), key);
      if !(Elements(wanted.value[key]) <= values) { return Ok(false); }
      keys := keys - {key};
    }
    return Ok(true);
  }

  // ---------- Merging ----------

  type Grant = (string, Scope)

  function Union(a: Scope, b: Scope): Scope {
    map key | key in a.Keys + b.Keys :: Values(a, key) + Values(b, key)
  }

  function Of(merged: map<string, Scope>, tool: string): Scope {
    if tool in merged then merged[tool] else map[]
  }

  /** The merge of normalised rows. */
  function Merged(rows: seq<Grant>): map<string, Scope> {
    if rows == [] then map[]
    else
      var before := Merged(rows[..|rows| - 1]);
      var last := rows[|rows| - 1];
      before[last.0 := Union(Of(before, last.0), last.1)]
  }

  predicate Mentions(rows: seq<Grant>, tool: string) {
    exists i | 0 <= i < |rows| :: rows[i].0 == tool
  }

  predicate HasKey(rows: seq<Grant>, tool: string, key: string) {
    exists i | 0 <= i < |rows| :: rows[i].0 == tool && key in rows[i].1
  }

  /** Some row grants the value to the tool. */
  predicate Granted(rows: seq<Grant>, tool: string, key: string, value: string) {
    exists i | 0 <= i < |rows| :: rows[i].0 == tool && value in Values(rows[i].1, key)
  }

  /** The merge holds exactly what some row grants. */
  lemma {:induction false} MergedExactly(rows: seq<Grant>, tool: string, key: string)
    ensures tool in Merged(rows) <==> Mentions(rows, tool)
    ensures key in Of(Merged(rows), tool) <==> HasKey(rows, tool, key)
    ensures forall value :: value in Values(Of(Merged(rows), tool), key) <==> Granted(rows, tool, key, value)
  {
    if rows != [] {
      var n := |rows| - 1;
      MergedExactly(rows[..n], tool, key);
      MentionsSnoc(rows, tool, key);
    }
  }

  lemma MentionsSnoc(rows: seq<Grant>, tool: string, key: string)
    requires rows != []
    ensures var n := |rows| - 1;
            && (Mentions(rows, tool) <==> Mentions(rows[..n], tool) || rows[n].0 == tool)
            && (HasKey(rows, tool, key) <==> HasKey(rows[..n], tool, key) || (rows[n].0 == tool && key in rows[n].1))
            && forall value :: Granted(rows, tool, key, value) <==>
                 Granted(rows[..n], tool, key, value) || (rows[n].0 == tool && value in Values(rows[n].1, key))
  {
  }

  /** Per tool the merge is the least upper bound of its rows. */
  lemma MergeIsLeastUpperBound(rows: seq<Grant>, tool: string, bound: Scope)
    ensures (forall i | 0 <= i < |rows| && rows[i].0 == tool :: Below(rows[i].1, bound)) <==> Below(Of(Merged(rows), tool), bound)
  {
    var merged := Of(Merged(rows), tool);
    if forall i | 0 <= i < |rows| && rows[i].0 == tool :: Below(rows[i].1, bound) {
      forall key | key in merged ensures merged[key] <= Values(bound, key) {
        MergedExactly(rows, tool, key);
        forall value | value in merged[key] ensures value in Values(bound, key) {
          assert Granted(rows, tool, key, value);
          var i :| 0 <= i < |rows| && rows[i].0 == tool && value in Values(rows[i].1, key);
          assert Below(rows[i].1, bound);
        }
      }
    }
    if Below(merged, bound) {
      forall i, key | 0 <= i < |rows| && rows[i].0 == tool && key in rows[i].1 ensures rows[i].1[key] <= Values(bound, key) {
        MergedExactly(rows, tool, key);
        forall value | value in rows[i].1[key] ensures value in Values(bound, key) {
          assert Granted(rows, tool, key, value);
          assert merged[key] <= Values(bound, key);
        }
      }
    }
  }

  /** Neither the order of the rows nor their repetition matters. */
  lemma MergeIgnoresOrder(rows: seq<Grant>, rows': seq<Grant>)
    requires forall row :: row in rows <==> row in rows'
    ensures Merged(rows) == Merged(rows')
  {
    hide Mentions, HasKey, Granted, Merged, Values, Of;
    forall tool ensures tool in Merged(rows) <==> tool in Merged(rows') {
      MergedExactly(rows, tool, ""); MergedExactly(rows', tool, "");
      SameMentions(rows, rows', tool, ""); SameMentions(rows', rows, tool, "");
    }
    assert Merged(rows).Keys == Merged(rows').Keys;
    forall tool | tool in Merged(rows) ensures Merged(rows)[tool] == Merged(rows')[tool] {
      OfMerged(Merged(rows), tool); OfMerged(Merged(rows'), tool);
      SameTool(rows, rows', tool);
    }
  }

  lemma OfMerged(merged: map<string, Scope>, tool: string)
    requires tool in merged
    ensures Of(merged, tool) == merged[tool]
  {
  }

  lemma SameTool(rows: seq<Grant>, rows': seq<Grant>, tool: string)
    requires forall row :: row in rows <==> row in rows'
    ensures Of(Merged(rows), tool) == Of(Merged(rows'), tool)
  {
    hide Mentions, HasKey, Granted, Merged, Values, Of;
    var a, b := Of(Merged(rows), tool), Of(Merged(rows'), tool);
    forall key ensures (key in a <==> key in b) && Values(a, key) == Values(b, key) {
      MergedExactly(rows, tool, key); MergedExactly(rows', tool, key);
      SameMentions(rows, rows', tool, key); SameMentions(rows', rows, tool, key);
    }
    SameScope(a, b);
  }

  lemma SameScope(a: Scope, b: Scope)
    requires forall key :: (key in a <==> key in b) && Values(a, key) == Values(b, key)
    ensures a == b
  {
  }

  lemma SameMentions(rows: seq<Grant>, rows': seq<Grant>, tool: string, key: string)
    requires forall row :: row in rows ==> row in rows'
    ensures Mentions(rows, tool) ==> Mentions(rows', tool)
    ensures HasKey(rows, tool, key) ==> HasKey(rows', tool, key)
    ensures forall value :: Granted(rows, tool, key, value) ==> Granted(rows', tool, key, value)
  {
    forall i | 0 <= i < |rows| ensures exists j :: 0 <= j < |rows'| && rows'[j] == rows[i] {
      assert rows[i] in rows';
    }
  }

  /** A request passes against the merge exactly when each of its values is granted by some row. */
  lemma RequestPassesExactly(requested: Scope, rows: seq<Grant>, tool: string)
    ensures Below(requested, Of(Merged(rows), tool)) <==>
            forall key, value | key in requested && value in requested[key] :: Granted(rows, tool, key, value)
  {
    forall key | key in requested
      ensures requested[key] <= Values(Of(Merged(rows), tool), key) <==> forall value | value in requested[key] :: Granted(rows, tool, key, value)
    {
      MergedExactly(rows, tool, key);
    }
  }

  /** The merge of raw rows holds a value exactly when some row of the tool lists it. */
  lemma MergedRawExactly(rows: seq<(string, RawScope)>, tool: string, key: string, text: string)
    ensures text in Values(Of(Merged(NormalRows(rows)), tool), key)
            <==> exists i :: 0 <= i < |rows| && rows[i].0 == tool && Requests(rows[i].1, key, text)
  {
    hide Merged, Normal, Requests;
    var normal := NormalRows(rows);
    MergedExactly(normal, tool, key);
    forall i | 0 <= i < |rows| ensures text in Values(normal[i].1, key) <==> Requests(rows[i].1, key, text) {
      NormalExactly(rows[i].1, key, text);
    }
    if i :| 0 <= i < |rows| && rows[i].0 == tool && Requests(rows[i].1, key, text) {
      assert normal[i].0 == tool && text in Values(normal[i].1, key);
    }
    if Granted(normal, tool, key, text) {
      var i :| 0 <= i < |normal| && normal[i].0 == tool && text in Values(normal[i].1, key);
      assert rows[i].0 == tool;
    }
  }

  function NormalRows(rows: seq<(string, RawScope)>): seq<Grant> {
    seq(|rows|, i requires 0 <= i < |rows| => (rows[i].0, Normal(rows[i].1)))
  }

  ghost predicate AllLists(lists: map<string, ListScope>, merged: map<string, Scope>) {
    lists.Keys == merged.Keys && forall tool | tool in merged :: Lists(lists[tool], merged[tool])
  }

  /** Whatever the order and repetition of the rows, the merged lists are the same. */
  lemma MergedListsIgnoreOrder(rows: seq<Grant>, rows': seq<Grant>, a: map<string, ListScope>, b: map<string, ListScope>)
    requires forall row :: row in rows <==> row in rows'
    requires AllLists(a, Merged(rows)) && AllLists(b, Merged(rows'))
    ensures a == b
  {
    hide Lists, Merged;
    MergeIgnoresOrder(rows, rows');
    forall tool | tool in a ensures a[tool] == b[tool] { ListedOnce(a[tool], b[tool], Merged(rows)[tool]); }
  }

  /** `merge_tool_scopes`. */
  method MergeToolScopes(rows: seq<(string, RawScope)>) returns (merged: Outcome<map<string, ListScope>>)
    ensures merged.Ok? <==> forall i | 0 <= i < |rows| :: WellFormed(rows[i].1)
    ensures merged.Ok? ==> AllLists(merged.value, Merged(NormalRows(rows)))
  {
    hide Lists, Sorted, ListsRequests, Malformed, WellFormed, Normal;
    var scopes: map<string, Scope> := map[];
    var i := 0;
    while i < |rows|
      invariant 0 <= i <= |rows| && forall j | 0 <= j < i :: WellFormed(rows[j].1)
      invariant scopes == Merged(NormalRows(rows[..i]))
    {
      var tool := rows[i].0;
      var scope := NormalizeScope(rows[i].1);
      if scope.Raise? { return Raise(scope.error); }
      var toolScope := MergeInto(Of(scopes, tool), scope.value, Normal(rows[i].1));
      assert NormalRows(rows[..i + 1]) == NormalRows(rows[..i]) + [(tool, Normal(rows[i].1))];
      scopes := scopes[tool := toolScope];
      i := i + 1;
    }
    assert rows[..i] == rows;
    var lists := ListAll(scopes);
    return Ok(lists);
  }

  /** `sorted` of every set. */
  method ListAll(scopes: map<string, Scope>) returns (lists: map<string, ListScope>)
    ensures AllLists(lists, scopes)
  {
    hide Lists;
    lists := map[];
    var tools := scopes.Keys;
    while tools != {}
      invariant tools <= scopes.Keys && lists.Keys == scopes.Keys - tools
      invariant forall tool | tool in lists :: Lists(lists[tool], scopes[tool])
      decreases |tools|
    {
      var tool :| tool in tools;
      var list := ListScopeOf(scopes[tool]);
      lists := lists[tool := list];
      tools := tools - {tool};
    }
  }

  method ListScopeOf(scope: Scope) returns (lists: ListScope)
    ensures Lists(lists, scope)
  {
    hide Sorted;
    lists := map[];
    var keys := scope.Keys;
    while keys != {}
      invariant keys <= scope.Keys && lists.Keys == scope.Keys - keys
      invariant forall key | key in lists :: Sorted(lists[key]) && Elements(lists[key]) == scope[key]
      decreases |keys|
    {
      var key :| key in keys;
      var list := SortSet(scope[key]);
      lists := lists[key := list];
      keys := keys - {key};
    }
  }

  /** The union, but for the keys still to come. */
  function UnionBut(a: Scope, b: Scope, open: set<string>): Scope {
    map key | key in a.Keys + (b.Keys - open) :: if key in open then Values(a, key) else Values(a, key) + Values(b, key)
  }

  lemma UnionButStep(a: Scope, b: Scope, open: set<string>, key: string)
    requires open <= b.Keys && key in open
    ensures UnionBut(a, b, open - {key}) == UnionBut(a, b, open)[key := Values(UnionBut(a, b, open), key) + b[key]]
  {
  }

  lemma UnionButStart(a: Scope, b: Scope)
    ensures UnionBut(a, b, b.Keys) == a
  {
    var none := UnionBut(a, b, b.Keys);
    assert none.Keys == a.Keys;
    forall key | key in a ensures none[key] == a[key] {
      if key !in b { assert Values(b, key) == {}; }
    }
  }

  lemma UnionButEnd(a: Scope, b: Scope)
    ensures UnionBut(a, b, {}) == Union(a, b)
  {
  }

  /** Adds one row's values key by key. */
  method MergeInto(toolScope: Scope, lists: ListScope, ghost scope: Scope) returns (result: Scope)
    requires Lists(lists, scope)
    ensures result == Union(toolScope, scope)
  {
    hide UnionBut, Union, Values, Sorted;
    result := toolScope;
    var keys := lists.Keys;
    UnionButStart(toolScope, scope);
    UnionButEnd(toolScope, scope);
    while keys != {}
      invariant keys <= scope.Keys && result == UnionBut(toolScope, scope, keys)
      decreases |keys|
    {
      var key :| key in keys;
      UnionButStep(toolScope, scope, keys, key);
      result := result[key := Values(result, key) + Elements(lists[key])];
      keys := keys - {key};
    }
  }
}
