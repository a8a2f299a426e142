/** `merge_ranked_results`: several ranked result lists, one per query, interleaved rank by
    rank into one list without repeated keys, each item remembering which queries found it. */
module RankedMerge {
  import opened Json

  type Item = map<string, Json>
  datatype Key = ById(id: Json) | ByText(title: Json, response: Json)
  datatype Hit = Hit(query: string, item: Item)

  function KeyOf(item: Item): Key {
    if Get(Obj(item), "faq_id") != Null then ById(Get(Obj(item), "faq_id"))
    else ByText(Get(Obj(item), "title"), Get(Obj(item), "response"))
  }

  /** Items are the same when they share an id, or, both without one, their title and response. */
  lemma SameKeyExactly(a: Item, b: Item)
    ensures KeyOf(a) == KeyOf(b) <==>
            var i, j := Get(Obj(a), "faq_id"), Get(Obj(b), "faq_id");
            if i == Null && j == Null then
              Get(Obj(a), "title") == Get(Obj(b), "title") && Get(Obj(a), "response") == Get(Obj(b), "response")
            else i == j
  {
  }

  // ---------- The order in which the lists are read ----------

  function RankHits(queries: seq<string>, sets: seq<seq<Item>>, rank: nat, upto: nat): seq<Hit>
    requires |queries| == |sets| && upto <= |sets|
  {
    if upto == 0 then []
    else
      var rest := RankHits(queries, sets, rank, upto - 1);
      if rank < |sets[upto - 1]| then rest + [Hit(queries[upto - 1], sets[upto - 1][rank])] else rest
  }

  function Hits(queries: seq<string>, sets: seq<seq<Item>>, ranks: nat): seq<Hit>
    requires |queries| == |sets|
  {
    if ranks == 0 then []
    else Hits(queries, sets, ranks - 1) + RankHits(queries, sets, ranks - 1, |sets|)
  }

  function Longest(sets: seq<seq<Item>>): (n: nat)
    ensures forall j | 0 <= j < |sets| :: |sets[j]| <= n
  {
    if sets == [] then 0
    else
      var n := Longest(sets[..|sets| - 1]);
      var k := |sets[|sets| - 1]|;
      if n < k then k else n
  }

  // ---------- What a merged list is, read off the hits ----------

  /** The distinct keys, each at its first occurrence. */
  function Keys(hits: seq<Hit>): seq<Key> {
    if hits == [] then []
    else
      var ks := Keys(hits[..|hits| - 1]);
      var k := KeyOf(hits[|hits| - 1].item);
      if k in ks then ks else ks + [k]
  }

  /** The distinct non-empty queries among the hits on key k, each at its first occurrence. */
  function Matched(hits: seq<Hit>, k: Key): seq<string> {
    if hits == [] then []
    else
      var qs := Matched(hits[..|hits| - 1], k);
      var h := hits[|hits| - 1];
      if KeyOf(h.item) == k && h.query != "" && h.query !in qs then qs + [h.query] else qs
  }

  /** The item of the first hit on key k (the empty item when there is none). */
  function First(hits: seq<Hit>, k: Key): Item {
    if hits == [] then map[]
    else if k in Keys(hits[..|hits| - 1]) then First(hits[..|hits| - 1], k)
    else if KeyOf(hits[|hits| - 1].item) == k then hits[|hits| - 1].item
    else map[]
  }

  function Strings(qs: seq<string>): Json {
    Arr(seq(|qs|, i requires 0 <= i < |qs| => Str(qs[i])))
  }

  function Entry(hits: seq<Hit>, k: Key): Item {
    First(hits, k)["matched_queries" := Strings(Matched(hits, k))]
  }

  function MergedHits(hits: seq<Hit>): (r: seq<Item>)
    ensures |r| == |Keys(hits)|
  {
    seq(|Keys(hits)|, i requires 0 <= i < |Keys(hits)| => Entry(hits, Keys(hits)[i]))
  }

  function Merge(queries: seq<string>, sets: seq<seq<Item>>): seq<Item>
    requires |queries| == |sets|
  {
    MergedHits(Hits(queries, sets, Longest(sets)))
  }

  // ---------- The loop ----------

  ghost predicate Indexes(positions: map<Key, nat>, ks: seq<Key>) {
    && (forall k :: k in positions <==> k in ks)
    && (forall k | k in positions :: positions[k] < |ks| && ks[positions[k]] == k)
  }

  lemma SnocSlices<T>(s: seq<T>, x: T)
    ensures (s + [x])[..|s + [x]| - 1] == s && (s + [x])[|s + [x]| - 1] == x
  {
  }

  lemma {:induction false} KeysAreDistinct(hits: seq<Hit>)
    ensures forall i, j | 0 <= i < j < |Keys(hits)| :: Keys(hits)[i] != Keys(hits)[j]
  {
    if hits != [] { KeysAreDistinct(hits[..|hits| - 1]); }
  }

  lemma MergeRepeated(hits: seq<Hit>, h: Hit, p: nat)
    requires p < |Keys(hits)| && Keys(hits)[p] == KeyOf(h.item)
    ensures Keys(hits + [h]) == Keys(hits)
    ensures MergedHits(hits + [h]) == MergedHits(hits)[p := Entry(hits + [h], KeyOf(h.item))]
    ensures First(hits + [h], KeyOf(h.item)) == First(hits, KeyOf(h.item))
  {
    SnocSlices(hits, h);
    KeysAreDistinct(hits);
    forall i | 0 <= i < |Keys(hits)| && i != p
      ensures Entry(hits + [h], Keys(hits)[i]) == Entry(hits, Keys(hits)[i])
    {
      assert Keys(hits)[i] != KeyOf(h.item);
    }
  }

  lemma MergeNew(hits: seq<Hit>, h: Hit)
    requires KeyOf(h.item) !in Keys(hits)
    ensures Keys(hits + [h]) == Keys(hits) + [KeyOf(h.item)]
    ensures MergedHits(hits + [h]) == MergedHits(hits) + [h.item["matched_queries" := Strings(if h.query != "" then [h.query] else [])]]
  {
    SnocSlices(hits, h);
    var k := KeyOf(h.item);
    MatchedOnlyOnKeys(hits, k);
    assert First(hits + [h], k) == h.item;
    assert Matched(hits + [h], k) == if h.query != "" then [h.query] else [];
    assert MergedHits(hits + [h])[|Keys(hits)|] == Entry(hits + [h], k);
    forall i | 0 <= i < |Keys(hits)|
      ensures Entry(hits + [h], Keys(hits)[i]) == Entry(hits, Keys(hits)[i])
    {
      assert Keys(hits)[i] != KeyOf(h.item);
    }
  }

  lemma {:induction false} MatchedOnlyOnKeys(hits: seq<Hit>, k: Key)
    ensures k !in Keys(hits) ==> Matched(hits, k) == []
  {
    if hits != [] { MatchedOnlyOnKeys(hits[..|hits| - 1], k); }
  }

  lemma StringsInjective(qs: seq<string>, q: string)
    ensures (Str(q) in Strings(qs).items) == (q in qs)
    ensures Strings(qs + [q]) == Arr(Strings(qs).items + [Str(q)])
  {
    if q in qs {
      var i :| 0 <= i < |qs| && qs[i] == q;
      assert Strings(qs).items[i] == Str(q);
    }
  }

  /** One pass of the inner loop: the hit on `item` enters the merged list. */
  method AddHit(merged: seq<Item>, positions: map<Key, nat>, query: string, item: Item, ghost hits: seq<Hit>)
    returns (merged': seq<Item>, positions': map<Key, nat>)
    requires merged == MergedHits(hits) && Indexes(positions, Keys(hits))
    ensures merged' == MergedHits(hits + [Hit(query, item)])
    ensures Indexes(positions', Keys(hits + [Hit(query, item)]))
  {
    var key := KeyOf(item);
    ghost var h := Hit(query, item);
    if key in positions {
      var p := positions[key];
      MergeRepeated(hits, h, p);
      SnocSlices(hits, h);
      var existing := merged[p];
      ghost var before := Matched(hits, key);
      assert existing == Entry(hits, key);
      var matched := Get(Obj(existing), "matched_queries").items;
      assert matched == Strings(before).items;
      StringsInjective(before, query);
      if query != "" && Str(query) !in matched {
        matched := matched + [Str(query)];
      }
      assert Arr(matched) == Strings(Matched(hits + [h], key));
      merged' := merged[p := existing["matched_queries" := Arr(matched)]];
      assert merged'[p] == Entry(hits + [h], key);
      positions' := positions;
    } else {
      MergeNew(hits, h);
      merged' := merged + [item["matched_queries" := Strings(if query != "" then [query] else [])]];
      positions' := positions[key := |merged|];
    }
  }

  lemma Empty()
    ensures MergedHits([]) == [] && Indexes(map[], Keys([]))
  {
  }

  method MergeRankedResults(queries: seq<string>, sets: seq<seq<Item>>) returns (merged: seq<Item>)
    requires |queries| == |sets|
    ensures merged == Merge(queries, sets)
  {
    merged := [];
    var positions: map<Key, nat> := map[];
    hide MergedHits, Indexes, Keys;
    Empty();
    for rank := 0 to Longest(sets)
      invariant merged == MergedHits(Hits(queries, sets, rank))
      invariant Indexes(positions, Keys(Hits(queries, sets, rank)))
    {
      ghost var before := Hits(queries, sets, rank);
      assert before + RankHits(queries, sets, rank, 0) == before;
      for j := 0 to |sets|
        invariant merged == MergedHits(before + RankHits(queries, sets, rank, j))
        invariant Indexes(positions, Keys(before + RankHits(queries, sets, rank, j)))
      {
        if rank < |sets[j]| {
          ghost var hits := before + RankHits(queries, sets, rank, j);
          merged, positions := AddHit(merged, positions, queries[j], sets[j][rank], hits);
          assert before + RankHits(queries, sets, rank, j + 1) == hits + [Hit(queries[j], sets[j][rank])];
        }
      }
    }
  }

  // ---------- What the merge promises about its inputs ----------

  ghost predicate Occurs(sets: seq<seq<Item>>, r: int, j: int, k: Key) {
    0 <= j < |sets| && 0 <= r < |sets[j]| && KeyOf(sets[j][r]) == k
  }

  /** Rank-then-query order. */
  predicate Before(r1: int, j1: int, r2: int, j2: int) {
    r1 < r2 || (r1 == r2 && j1 < j2)
  }

  function Prefix(queries: seq<string>, sets: seq<seq<Item>>, rank: nat, upto: nat): seq<Hit>
    requires |queries| == |sets| && upto <= |sets|
  {
    Hits(queries, sets, rank) + RankHits(queries, sets, rank, upto)
  }

  lemma {:induction false} RankHitsContents(queries: seq<string>, sets: seq<seq<Item>>, rank: nat, upto: nat, h: Hit)
    requires |queries| == |sets| && upto <= |sets|
    ensures h in RankHits(queries, sets, rank, upto) <==>
            exists j :: 0 <= j < upto && rank < |sets[j]| && h == Hit(queries[j], sets[j][rank])
  {
    if upto > 0 { RankHitsContents(queries, sets, rank, upto - 1, h); }
  }

  lemma {:induction false} HitsContents(queries: seq<string>, sets: seq<seq<Item>>, ranks: nat, h: Hit)
    requires |queries| == |sets|
    ensures h in Hits(queries, sets, ranks) <==>
            exists j, r :: 0 <= j < |sets| && 0 <= r < ranks && r < |sets[j]| && h == Hit(queries[j], sets[j][r])
  {
    hide RankHits;
    if ranks > 0 {
      HitsContents(queries, sets, ranks - 1, h);
      RankHitsContents(queries, sets, ranks - 1, |sets|, h);
    }
  }

  lemma PrefixContents(queries: seq<string>, sets: seq<seq<Item>>, rank: nat, upto: nat, h: Hit)
    requires |queries| == |sets| && upto <= |sets|
    ensures h in Prefix(queries, sets, rank, upto) <==>
            exists j, r :: 0 <= j < |sets| && 0 <= r < |sets[j]| && Before(r, j, rank, upto) && h == Hit(queries[j], sets[j][r])
  {
    HitsContents(queries, sets, rank, h);
    RankHitsContents(queries, sets, rank, upto, h);
  }

  lemma {:induction false} KeysContents(hits: seq<Hit>, k: Key)
    ensures k in Keys(hits) <==> exists h :: h in hits && KeyOf(h.item) == k
  {
    if hits != [] {
      KeysContents(hits[..|hits| - 1], k);
      assert hits == hits[..|hits| - 1] + [hits[|hits| - 1]];
    }
  }

  lemma {:induction false} MatchedContents(hits: seq<Hit>, k: Key, q: string)
    ensures q in Matched(hits, k) <==> q != "" && exists h :: h in hits && KeyOf(h.item) == k && h.query == q
  {
    if hits != [] {
      MatchedContents(hits[..|hits| - 1], k, q);
      assert hits == hits[..|hits| - 1] + [hits[|hits| - 1]];
    }
  }

  lemma {:induction false} MatchedAreDistinct(hits: seq<Hit>, k: Key)
    ensures forall a, b | 0 <= a < b < |Matched(hits, k)| :: Matched(hits, k)[a] != Matched(hits, k)[b]
  {
    if hits != [] { MatchedAreDistinct(hits[..|hits| - 1], k); }
  }

  /** A key seen in a prefix has an occurrence there; a key not seen has all of its later. */
  lemma KeyInPrefix(queries: seq<string>, sets: seq<seq<Item>>, rank: nat, upto: nat, k: Key)
    requires |queries| == |sets| && upto <= |sets|
    ensures k in Keys(Prefix(queries, sets, rank, upto)) <==> exists r, j :: Occurs(sets, r, j, k) && Before(r, j, rank, upto)
  {
    var p := Prefix(queries, sets, rank, upto);
    KeysContents(p, k);
    if k in Keys(p) {
      var h :| h in p && KeyOf(h.item) == k;
      PrefixContents(queries, sets, rank, upto, h);
      var j, r :| 0 <= j < |sets| && 0 <= r < |sets[j]| && Before(r, j, rank, upto) && h == Hit(queries[j], sets[j][r]);
      assert Occurs(sets, r, j, k);
    }
    if r, j :| Occurs(sets, r, j, k) && Before(r, j, rank, upto) {
      PrefixContents(queries, sets, rank, upto, Hit(queries[j], sets[j][r]));
    }
  }

  /** k1 is seen, at some place, before every place where k2 is seen. */
  ghost predicate SeenFirst(sets: seq<seq<Item>>, k1: Key, k2: Key) {
    exists r1, j1 :: Occurs(sets, r1, j1, k1) && forall r2, j2 | Occurs(sets, r2, j2, k2) :: Before(r1, j1, r2, j2)
  }

  lemma PrefixStep(queries: seq<string>, sets: seq<seq<Item>>, rank: nat, upto: nat)
    requires |queries| == |sets| && upto <= |sets|
    ensures upto == 0 && rank > 0 ==> Prefix(queries, sets, rank, 0) == Prefix(queries, sets, rank - 1, |sets|)
    ensures upto == 0 && rank == 0 ==> Prefix(queries, sets, rank, 0) == []
    ensures upto > 0 ==>
              var p, q := Prefix(queries, sets, rank, upto), Prefix(queries, sets, rank, upto - 1);
              p == q || (p != [] && p[..|p| - 1] == q)
  {
  }

  /** A key already seen before (rank, j) precedes one not seen there. */
  lemma SeenBefore(queries: seq<string>, sets: seq<seq<Item>>, rank: nat, upto: nat, k1: Key, k2: Key)
    requires |queries| == |sets| && upto <= |sets|
    requires k1 in Keys(Prefix(queries, sets, rank, upto)) && k2 !in Keys(Prefix(queries, sets, rank, upto))
    ensures SeenFirst(sets, k1, k2)
  {
    hide Keys, Prefix, Occurs;
    KeyInPrefix(queries, sets, rank, upto, k1);
    KeyInPrefix(queries, sets, rank, upto, k2);
    var r1, j1 :| Occurs(sets, r1, j1, k1) && Before(r1, j1, rank, upto);
    forall r2, j2 | Occurs(sets, r2, j2, k2) ensures Before(r1, j1, r2, j2) {
    }
  }

  lemma {:induction false} KeysInOrder(queries: seq<string>, sets: seq<seq<Item>>, rank: nat, upto: nat, a: nat, b: nat)
    requires |queries| == |sets| && upto <= |sets|
    requires a < b < |Keys(Prefix(queries, sets, rank, upto))|
    ensures var ks := Keys(Prefix(queries, sets, rank, upto)); SeenFirst(sets, ks[a], ks[b])
    decreases rank, upto
  {
    hide Prefix, SeenFirst;
    PrefixStep(queries, sets, rank, upto);
    var p := Prefix(queries, sets, rank, upto);
    if upto == 0 {
      KeysInOrder(queries, sets, rank - 1, |sets|, a, b);
    } else {
      var q := Prefix(queries, sets, rank, upto - 1);
      if b < |Keys(q)| {
        KeysInOrder(queries, sets, rank, upto - 1, a, b);
      } else {
        KeysAreDistinct(p);
        SeenBefore(queries, sets, rank, upto - 1, Keys(p)[a], Keys(p)[b]);
      }
    }
  }

  /** Some list of query q holds the key k. */
  ghost predicate FoundBy(queries: seq<string>, sets: seq<seq<Item>>, q: string, k: Key)
    requires |queries| == |sets|
  {
    exists r, j :: Occurs(sets, r, j, k) && queries[j] == q
  }

  ghost predicate InputKey(sets: seq<seq<Item>>, k: Key) {
    exists r, j :: Occurs(sets, r, j, k)
  }

  ghost predicate HasKey(m: seq<Item>, k: Key) {
    exists a :: 0 <= a < |m| && KeyOf(m[a]) == k
  }

  lemma PrefixOfAll(queries: seq<string>, sets: seq<seq<Item>>)
    requires |queries| == |sets|
    ensures Hits(queries, sets, Longest(sets)) == Prefix(queries, sets, Longest(sets), 0)
  {
  }

  lemma MergedKey(hits: seq<Hit>, i: nat)
    requires i < |Keys(hits)|
    ensures KeyOf(MergedHits(hits)[i]) == Keys(hits)[i]
  {
  }

  /** No key twice, exactly the input keys, in order of first occurrence. */
  lemma MergeKeys(queries: seq<string>, sets: seq<seq<Item>>)
    requires |queries| == |sets|
    ensures var m := Merge(queries, sets);
            && (forall a, b | 0 <= a < b < |m| :: KeyOf(m[a]) != KeyOf(m[b]) && SeenFirst(sets, KeyOf(m[a]), KeyOf(m[b])))
            && (forall k :: HasKey(m, k) <==> InputKey(sets, k))
  {
    var n := Longest(sets);
    var hits := Hits(queries, sets, n);
    var m := Merge(queries, sets);
    PrefixOfAll(queries, sets);
    KeysAreDistinct(hits);
    forall a | 0 <= a < |m| ensures KeyOf(m[a]) == Keys(hits)[a] { MergedKey(hits, a); }
    forall a, b | 0 <= a < b < |m|
      ensures KeyOf(m[a]) != KeyOf(m[b]) && SeenFirst(sets, KeyOf(m[a]), KeyOf(m[b]))
    {
      KeysInOrder(queries, sets, n, 0, a, b);
    }
    forall k
      ensures HasKey(m, k) <==> InputKey(sets, k)
    {
      KeyInPrefix(queries, sets, n, 0, k);
      if r, j :| Occurs(sets, r, j, k) {
        assert Before(r, j, n, 0);
        var a :| 0 <= a < |Keys(hits)| && Keys(hits)[a] == k;
        assert KeyOf(m[a]) == k;
      }
      if a :| 0 <= a < |m| && KeyOf(m[a]) == k {
        assert k in Keys(hits);
      }
    }
  }

  /** q1 finds k, at some place, before every place where q2 finds k. */
  ghost predicate FindsFirst(queries: seq<string>, sets: seq<seq<Item>>, k: Key, q1: string, q2: string)
    requires |queries| == |sets|
  {
    exists r1, j1 :: Occurs(sets, r1, j1, k) && queries[j1] == q1 &&
                     forall r2, j2 | Occurs(sets, r2, j2, k) && queries[j2] == q2 :: Before(r1, j1, r2, j2)
  }

  lemma MatchInPrefix(queries: seq<string>, sets: seq<seq<Item>>, rank: nat, upto: nat, k: Key, q: string)
    requires |queries| == |sets| && upto <= |sets|
    ensures q in Matched(Prefix(queries, sets, rank, upto), k) <==>
            q != "" && exists r, j :: Occurs(sets, r, j, k) && Before(r, j, rank, upto) && queries[j] == q
  {
    var p := Prefix(queries, sets, rank, upto);
    MatchedContents(p, k, q);
    if q in Matched(p, k) {
      var h :| h in p && KeyOf(h.item) == k && h.query == q;
      PrefixContents(queries, sets, rank, upto, h);
      var j, r :| 0 <= j < |sets| && 0 <= r < |sets[j]| && Before(r, j, rank, upto) && h == Hit(queries[j], sets[j][r]);
      assert Occurs(sets, r, j, k);
    }
    if r, j :| Occurs(sets, r, j, k) && Before(r, j, rank, upto) && queries[j] == q {
      PrefixContents(queries, sets, rank, upto, Hit(q, sets[j][r]));
    }
  }

  lemma FoundBefore(queries: seq<string>, sets: seq<seq<Item>>, rank: nat, upto: nat, k: Key, q1: string, q2: string)
    requires |queries| == |sets| && upto <= |sets| && q2 != ""
    requires q1 in Matched(Prefix(queries, sets, rank, upto), k) && q2 !in Matched(Prefix(queries, sets, rank, upto), k)
    ensures FindsFirst(queries, sets, k, q1, q2)
  {
    hide Matched, Prefix;
    MatchInPrefix(queries, sets, rank, upto, k, q1);
    MatchInPrefix(queries, sets, rank, upto, k, q2);
    var r1, j1 :| Occurs(sets, r1, j1, k) && Before(r1, j1, rank, upto) && queries[j1] == q1;
    forall r2, j2 | Occurs(sets, r2, j2, k) && queries[j2] == q2 ensures Before(r1, j1, r2, j2) {
    }
  }

  lemma {:induction false} MatchesInOrder(queries: seq<string>, sets: seq<seq<Item>>, rank: nat, upto: nat, k: Key, a: nat, b: nat)
    requires |queries| == |sets| && upto <= |sets|
    requires a < b < |Matched(Prefix(queries, sets, rank, upto), k)|
    ensures var qs := Matched(Prefix(queries, sets, rank, upto), k); FindsFirst(queries, sets, k, qs[a], qs[b])
    decreases rank, upto
  {
    hide Prefix, FindsFirst;
    PrefixStep(queries, sets, rank, upto);
    var p := Prefix(queries, sets, rank, upto);
    if upto == 0 {
      MatchesInOrder(queries, sets, rank - 1, |sets|, k, a, b);
    } else {
      var q := Prefix(queries, sets, rank, upto - 1);
      if b < |Matched(q, k)| {
        MatchesInOrder(queries, sets, rank, upto - 1, k, a, b);
      } else {
        MatchedAreDistinct(p, k);
        MatchedContents(p, k, Matched(p, k)[b]);
        FoundBefore(queries, sets, rank, upto - 1, k, Matched(p, k)[a], Matched(p, k)[b]);
      }
    }
  }

  /** The matched queries of a key are those whose lists hold it. */
  lemma MatchedExactly(queries: seq<string>, sets: seq<seq<Item>>, k: Key, q: string)
    requires |queries| == |sets|
    ensures q in Matched(Hits(queries, sets, Longest(sets)), k) <==> q != "" && FoundBy(queries, sets, q, k)
  {
    hide Matched, Prefix;
    PrefixOfAll(queries, sets);
    MatchInPrefix(queries, sets, Longest(sets), 0, k, q);
    if FoundBy(queries, sets, q, k) {
      var r, j :| Occurs(sets, r, j, k) && queries[j] == q;
      assert Before(r, j, Longest(sets), 0);
    }
  }

  /** (r, j) is where k occurs first. */
  ghost predicate OccursFirst(sets: seq<seq<Item>>, r: int, j: int, k: Key) {
    Occurs(sets, r, j, k) && forall r2, j2 | Occurs(sets, r2, j2, k) :: (r2, j2) == (r, j) || Before(r, j, r2, j2)
  }

  lemma NewHit(queries: seq<string>, sets: seq<seq<Item>>, rank: nat, upto: nat)
    requires |queries| == |sets| && 0 < upto <= |sets|
    requires Prefix(queries, sets, rank, upto) != Prefix(queries, sets, rank, upto - 1)
    ensures var p := Prefix(queries, sets, rank, upto);
            rank < |sets[upto - 1]| && p != [] && p[|p| - 1] == Hit(queries[upto - 1], sets[upto - 1][rank])
  {
  }

  lemma {:induction false} FirstOccurrence(queries: seq<string>, sets: seq<seq<Item>>, rank: nat, upto: nat, k: Key) returns (r: nat, j: nat)
    requires |queries| == |sets| && upto <= |sets| && k in Keys(Prefix(queries, sets, rank, upto))
    ensures OccursFirst(sets, r, j, k) && sets[j][r] == First(Prefix(queries, sets, rank, upto), k)
    decreases rank, upto
  {
    hide Prefix;
    PrefixStep(queries, sets, rank, upto);
    if upto == 0 {
      r, j := FirstOccurrence(queries, sets, rank - 1, |sets|, k);
    } else {
      var q := Prefix(queries, sets, rank, upto - 1);
      if k in Keys(q) {
        r, j := FirstOccurrence(queries, sets, rank, upto - 1, k);
      } else {
        NewHit(queries, sets, rank, upto);
        KeyInPrefix(queries, sets, rank, upto - 1, k);
        r, j := rank, upto - 1;
      }
    }
  }

  /** Item a is the first input item of its key, relabelled with the distinct non-empty queries that found its key,
      in the order in which they first found it. */
  lemma MergeEntry(queries: seq<string>, sets: seq<seq<Item>>, a: nat) returns (qs: seq<string>, r: nat, j: nat)
    requires |queries| == |sets| && a < |Merge(queries, sets)|
    ensures var item := Merge(queries, sets)[a];
            && OccursFirst(sets, r, j, KeyOf(item))
            && item == sets[j][r]["matched_queries" := Strings(qs)]
            && (forall x, y | 0 <= x < y < |qs| :: qs[x] != qs[y] && FindsFirst(queries, sets, KeyOf(item), qs[x], qs[y]))
            && (forall q :: q in qs <==> q != "" && FoundBy(queries, sets, q, KeyOf(item)))
  {
    hide Hits, Keys, First, Matched, Prefix, Occurs, OccursFirst, FindsFirst, FoundBy, Strings;
    var n := Longest(sets);
    var hits := Hits(queries, sets, n);
    var k := Keys(hits)[a];
    MergedKey(hits, a);
    PrefixOfAll(queries, sets);
    r, j := FirstOccurrence(queries, sets, n, 0, k);
    qs := Matched(hits, k);
    MatchedAreDistinct(hits, k);
    forall x, y | 0 <= x < y < |qs| ensures FindsFirst(queries, sets, k, qs[x], qs[y]) {
      MatchesInOrder(queries, sets, n, 0, k, x, y);
    }
    forall q ensures q in qs <==> q != "" && FoundBy(queries, sets, q, k) {
      MatchedExactly(queries, sets, k, q);
    }
  }
}
