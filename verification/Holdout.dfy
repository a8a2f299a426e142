/** The retrieval holdout: knowledge rows grouped by content hash, a stratified sample of the groups
    the development set does not touch, and the check that the two sets are isolated. */
module Holdout {
  import opened Json
  import opened Planner
  import opened FaqHash
  import ConfiguredPlanner
  import opened Filters

  /** Rows with the same content hash, in row order. */
  datatype Group = Group(hash: string, rows: seq<FaqRow>)

  type Digest = string -> string
  type Shuffle = (nat, seq<Group>) -> seq<Group>
  type Listing = set<string> -> seq<string>

  function HashOf(digest: Digest, row: FaqRow): string {
    digest(FaqHash.Payload(ContentOf(row)))
  }

  // ---------- normalize_text ----------

  /** Every run of blanks as one space. */
  function Collapsed(s: string): string {
    if s == "" then ""
    else if !ConfiguredPlanner.Blank(s[0]) then [s[0]] + Collapsed(s[1..])
    else if |s| > 1 && ConfiguredPlanner.Blank(s[1]) then Collapsed(s[1..])
    else " " + Collapsed(s[1..])
  }

  /** Runs of blanks become one, outer ones go. */
  function Normalized(value: Option<string>): string {
    if value.None? then "" else ConfiguredPlanner.Strip(Collapsed(value.value))
  }

  lemma {:induction false} CollapsedBlank(s: string)
    ensures ConfiguredPlanner.AllBlank(Collapsed(s)) <==> ConfiguredPlanner.AllBlank(s)
    decreases |s|
  {
    if s != "" {
      CollapsedBlank(s[1..]);
      assert forall i | 1 <= i < |s| :: s[i] == s[1..][i - 1];
      var c := Collapsed(s);
      if !ConfiguredPlanner.Blank(s[0]) {
        assert c[0] == s[0];
      } else if !(|s| > 1 && ConfiguredPlanner.Blank(s[1])) {
        assert c[0] == ' ' && c[1..] == Collapsed(s[1..]);
        assert forall i | 1 <= i < |c| :: c[i] == c[1..][i - 1];
      }
    }
  }

  function IsWord(): char -> bool {
    (c: char) => !ConfiguredPlanner.Blank(c)
  }

  /** Collapsing keeps every character that is not blank, in order; its only blanks are single spaces. */
  lemma {:induction false} CollapsedExactly(s: string)
    ensures Filter(Collapsed(s), IsWord()) == Filter(s, IsWord())
    ensures forall i | 0 <= i < |Collapsed(s)| && ConfiguredPlanner.Blank(Collapsed(s)[i]) :: Collapsed(s)[i] == ' '
    ensures forall i | 0 <= i < |Collapsed(s)| - 1 :: !(ConfiguredPlanner.Blank(Collapsed(s)[i]) && ConfiguredPlanner.Blank(Collapsed(s)[i + 1]))
    ensures s != "" ==> Collapsed(s) != "" && (ConfiguredPlanner.Blank(Collapsed(s)[0]) <==> ConfiguredPlanner.Blank(s[0]))
    decreases |s|
  {
    if s != "" {
      CollapsedExactly(s[1..]);
      var c, rest := Collapsed(s), Collapsed(s[1..]);
      if !ConfiguredPlanner.Blank(s[0]) || !(|s| > 1 && ConfiguredPlanner.Blank(s[1])) {
        assert c == [c[0]] + rest && c[1..] == rest;
        assert forall i | 1 <= i < |c| :: c[i] == rest[i - 1];
      }
    }
  }

  /** The grouping and the hash agree on which fields are empty. */
  lemma NormalizedEmpty(value: Option<string>)
    ensures Normalized(value) == "" <==> Clean(value) == ""
  {
    if value.Some? {
      ConfiguredPlanner.StripEmpty(value.value);
      ConfiguredPlanner.StripEmpty(Collapsed(value.value));
      CollapsedBlank(value.value);
    }
  }

  // ---------- Groups ----------

  /** The rows with text and this hash. */
  function WithHash(digest: Digest, rows: seq<FaqRow>, hash: string): seq<FaqRow> {
    if rows == [] then []
    else
      var last := rows[|rows| - 1];
      WithHash(digest, rows[..|rows| - 1], hash) + if HasText(last) && HashOf(digest, last) == hash then [last] else []
  }

  function WithText(digest: Digest, hash: string): FaqRow -> bool {
    (row: FaqRow) => HasText(row) && HashOf(digest, row) == hash
  }

  /** A group is what filtering the rows leaves, in row order. */
  lemma {:induction false} WithHashIsFiltered(digest: Digest, rows: seq<FaqRow>, hash: string)
    ensures WithHash(digest, rows, hash) == Filter(rows, WithText(digest, hash))
    decreases |rows|
  {
    hide HashOf, HasText;
    if rows != [] {
      var n := |rows| - 1;
      WithHashIsFiltered(digest, rows[..n], hash);
      assert rows == rows[..n] + [rows[n]];
      FilterSnoc(rows[..n], rows[n], WithText(digest, hash));
    }
  }

  lemma {:induction false} WithHashContents(digest: Digest, rows: seq<FaqRow>, hash: string, row: FaqRow)
    ensures row in WithHash(digest, rows, hash) <==> row in rows && HasText(row) && HashOf(digest, row) == hash
  {
    if rows != [] { WithHashContents(digest, rows[..|rows| - 1], hash, row); }
  }

  predicate DistinctHashes(groups: seq<Group>) {
    forall i, j | 0 <= i < j < |groups| :: groups[i].hash != groups[j].hash
  }

  predicate HasGroup(groups: seq<Group>, hash: string) {
    exists i | 0 <= i < |groups| :: groups[i].hash == hash
  }

  /** One group per hash, holding all its rows. */
  ghost predicate Grouping(digest: Digest, rows: seq<FaqRow>, groups: seq<Group>) {
    && DistinctHashes(groups)
    && (forall i | 0 <= i < |groups| :: groups[i].rows == WithHash(digest, rows, groups[i].hash) != [])
    && (forall i | 0 <= i < |rows| && HasText(rows[i]) :: HasGroup(groups, HashOf(digest, rows[i])))
  }

  lemma RowsHaveGroup(digest: Digest, rows: seq<FaqRow>, groups: seq<Group>, hash: string)
    requires Grouping(digest, rows, groups)
    ensures WithHash(digest, rows, hash) != [] ==> HasGroup(groups, hash)
  {
    var found := WithHash(digest, rows, hash);
    if found != [] {
      WithHashContents(digest, rows, hash, found[0]);
      var i :| 0 <= i < |rows| && rows[i] == found[0];
      assert HasGroup(groups, HashOf(digest, rows[i]));
    }
  }

  lemma WithHashSnoc(digest: Digest, rows: seq<FaqRow>, row: FaqRow, hash: string)
    ensures WithHash(digest, rows + [row], hash) == WithHash(digest, rows, hash) + if HasText(row) && HashOf(digest, row) == hash then [row] else []
  {
  }

  /** The groups once the next row has joined the group at `p`, or founded one there. */
  function WithRow(groups: seq<Group>, p: nat, hash: string, row: FaqRow): seq<Group>
    requires p <= |groups|
  {
    if p < |groups| then groups[p := Group(hash, groups[p].rows + [row])] else groups + [Group(hash, [row])]
  }

  lemma JoinedGrouping(digest: Digest, rows: seq<FaqRow>, groups: seq<Group>, p: nat, row: FaqRow)
    requires Grouping(digest, rows, groups) && HasText(row) && p <= |groups|
    requires if p < |groups| then groups[p].hash == HashOf(digest, row) else !HasGroup(groups, HashOf(digest, row))
    ensures Grouping(digest, rows + [row], WithRow(groups, p, HashOf(digest, row), row))
    ensures forall h :: HasGroup(WithRow(groups, p, HashOf(digest, row), row), h) <==> HasGroup(groups, h) || h == HashOf(digest, row)
  {
    hide HashOf, HasText, WithHash;
    var hash := HashOf(digest, row);
    var after := WithRow(groups, p, hash, row);
    RowsHaveGroup(digest, rows, groups, hash);
    forall h ensures HasGroup(after, h) <==> HasGroup(groups, h) || h == hash {
      if HasGroup(groups, h) { var i :| 0 <= i < |groups| && groups[i].hash == h; assert after[i].hash == h; }
      assert after[p].hash == hash;
    }
    forall i | 0 <= i < |after| ensures after[i].rows == WithHash(digest, rows + [row], after[i].hash) != [] {
      WithHashSnoc(digest, rows, row, after[i].hash);
      if i != p { assert groups[i].hash != hash by { if p < |groups| {} else { assert !HasGroup(groups, hash); } } }
    }
  }

  lemma SkippedGrouping(digest: Digest, rows: seq<FaqRow>, groups: seq<Group>, row: FaqRow)
    requires Grouping(digest, rows, groups) && !HasText(row)
    ensures Grouping(digest, rows + [row], groups)
  {
  }

  /** `group_knowledge_rows`. */
  method GroupRows(digest: Digest, rows: seq<FaqRow>) returns (groups: seq<Group>)
    ensures Grouping(digest, rows, groups)
  {
    hide WithHash, HashOf, Normalized, Grouping;
    groups := [];
    var positions: map<string, nat> := map[];
    NothingGrouped(digest);
    var i := 0;
    while i < |rows|
      invariant 0 <= i <= |rows|
      invariant Grouping(digest, rows[..i], groups)
      invariant forall h :: h in positions <==> HasGroup(groups, h)
      invariant forall h | h in positions :: positions[h] < |groups| && groups[positions[h]].hash == h
    {
      var row := rows[i];
      NormalizedEmpty(row.faq); NormalizedEmpty(row.response);
      assert rows[..i + 1] == rows[..i] + [row];
      if Normalized(row.faq) != "" && Normalized(row.response) != "" {
        var h := HashOf(digest, row);
        var p := if h in positions then positions[h] else |groups|;
        JoinedGrouping(digest, rows[..i], groups, p, row);
        groups := WithRow(groups, p, h, row);
        positions := positions[h := p];
      } else {
        SkippedGrouping(digest, rows[..i], groups, row);
      }
      i := i + 1;
    }
    assert rows[..i] == rows;
  }

  lemma NothingGrouped(digest: Digest)
    ensures Grouping(digest, [], []) && forall h :: !HasGroup([], h)
  {
  }

  // ---------- Sampling ----------

  const UNCATEGORISED := "未分类"

  function Category(g: Group): string {
    if g.rows == [] || Normalized(g.rows[0].category) == "" then UNCATEGORISED else Normalized(g.rows[0].category)
  }

  function OfCategory(groups: seq<Group>, category: string): seq<Group> {
    if groups == [] then []
    else OfCategory(groups[..|groups| - 1], category) + if Category(groups[|groups| - 1]) == category then [groups[|groups| - 1]] else []
  }

  function WithoutHashes(groups: seq<Group>, hashes: set<string>): seq<Group> {
    if groups == [] then []
    else WithoutHashes(groups[..|groups| - 1], hashes) + if groups[|groups| - 1].hash in hashes then [] else [groups[|groups| - 1]]
  }

  function Hashes(groups: seq<Group>): set<string> {
    set i | 0 <= i < |groups| :: groups[i].hash
  }

  function Take(groups: seq<Group>, count: int): seq<Group> {
    if count <= 0 then [] else if count < |groups| then groups[..count] else groups
  }

  ghost predicate Shuffles(shuffle: Shuffle) {
    forall n: nat, s :: multiset(shuffle(n, s)) == multiset(s)
  }

  /** Lists a set without repetition, as `sorted` does. */
  ghost predicate Lists(listing: Listing) {
    forall s :: (forall i, j | 0 <= i < j < |listing(s)| :: listing(s)[i] != listing(s)[j]) && forall x :: x in listing(s) <==> x in s
  }

  function InCategory(category: string): Group -> bool {
    (g: Group) => Category(g) == category
  }

  function HashOutside(hashes: set<string>): Group -> bool {
    (g: Group) => g.hash !in hashes
  }

  /** A group's category is that of its first row, read with its blanks collapsed; without one it is
      uncategorised. Categories and the rest are filtered, in order. */
  lemma {:induction false} CategoriesExactly(groups: seq<Group>, category: string, hashes: set<string>)
    ensures forall g | g in groups && g.rows != [] ::
              Category(g) == (if Normalized(g.rows[0].category) != "" then Normalized(g.rows[0].category) else "未分类")
    ensures OfCategory(groups, category) == Filter(groups, InCategory(category))
    ensures WithoutHashes(groups, hashes) == Filter(groups, HashOutside(hashes))
    decreases |groups|
  {
    if groups != [] {
      var n := |groups| - 1;
      CategoriesExactly(groups[..n], category, hashes);
      assert groups == groups[..n] + [groups[n]];
      hide Category, Normalized;
      FilterSnoc(groups[..n], groups[n], InCategory(category));
      FilterSnoc(groups[..n], groups[n], HashOutside(hashes));
    }
  }

  lemma TakenFewer(groups: seq<Group>, count: int)
    ensures multiset(Take(groups, count)) <= multiset(groups)
  {
    if 0 < count < |groups| { assert groups == groups[..count] + groups[count..]; }
  }

  lemma {:induction false} OfCategoryCounts(groups: seq<Group>, category: string, g: Group)
    ensures multiset(OfCategory(groups, category))[g] == if Category(g) == category then multiset(groups)[g] else 0
  {
    if groups != [] {
      OfCategoryCounts(groups[..|groups| - 1], category, g);
      assert groups == groups[..|groups| - 1] + [groups[|groups| - 1]];
    }
  }

  lemma {:induction false} WithoutHashesCounts(groups: seq<Group>, hashes: set<string>, g: Group)
    ensures multiset(WithoutHashes(groups, hashes))[g] == if g.hash in hashes then 0 else multiset(groups)[g]
  {
    if groups != [] {
      WithoutHashesCounts(groups[..|groups| - 1], hashes, g);
      assert groups == groups[..|groups| - 1] + [groups[|groups| - 1]];
    }
  }

  lemma {:induction false} OnceEach(groups: seq<Group>, g: Group)
    requires DistinctHashes(groups)
    ensures multiset(groups)[g] <= 1
  {
    if groups != [] {
      var n := |groups| - 1;
      OnceEach(groups[..n], g);
      assert groups == groups[..n] + [groups[n]];
      if groups[n] == g { assert g !in groups[..n]; }
    }
  }

  lemma Twice(groups: seq<Group>, i: nat, j: nat)
    requires i < j < |groups| && groups[i] == groups[j]
    ensures multiset(groups)[groups[i]] >= 2
  {
    assert groups == groups[..j] + groups[j..];
    assert groups[i] == groups[..j][i] && groups[j] == groups[j..][0];
  }

  /** A part of groups with distinct hashes has distinct hashes. */
  lemma PartIsDistinct(part: seq<Group>, groups: seq<Group>)
    requires DistinctHashes(groups) && multiset(part) <= multiset(groups)
    ensures DistinctHashes(part)
  {
    forall i, j | 0 <= i < j < |part| ensures part[i].hash != part[j].hash {
      assert part[i] in multiset(part) && part[j] in multiset(part);
      assert part[i] in groups && part[j] in groups;
      OnceEach(groups, part[i]);
      OnceEach(groups, part[j]);
      if part[i] == part[j] { Twice(part, i, j); }
    }
  }

  /** The groups left out of a selection are those whose hash was not selected. */
  lemma RestCounts(groups: seq<Group>, selected: seq<Group>)
    requires DistinctHashes(groups) && multiset(selected) <= multiset(groups)
    ensures multiset(selected) + multiset(WithoutHashes(groups, Hashes(selected))) == multiset(groups)
  {
    var rest := WithoutHashes(groups, Hashes(selected));
    forall g ensures multiset(selected)[g] + multiset(rest)[g] == multiset(groups)[g] {
      WithoutHashesCounts(groups, Hashes(selected), g);
      OnceEach(groups, g);
      if g in selected {
        var i :| 0 <= i < |selected| && selected[i] == g;
        assert selected[i].hash in Hashes(selected);
      }
      if g.hash in Hashes(selected) && g in groups {
        var i :| 0 <= i < |selected| && selected[i].hash == g.hash;
        assert selected[i] in multiset(selected);
        assert selected[i] in groups;
        assert selected[i] == g;
      }
    }
  }

  /** Adding a sample of one more category keeps the selection a part of the groups. */
  lemma OneMoreCategory(groups: seq<Group>, selected: seq<Group>, done: set<string>, category: string, sample: seq<Group>)
    requires category !in done && multiset(sample) <= multiset(OfCategory(groups, category))
    requires PartOf(selected, groups, done)
    ensures PartOf(selected + sample, groups, done + {category})
  {
    hide Category;
    forall g ensures multiset(selected + sample)[g] <= if Category(g) in done + {category} then multiset(groups)[g] else 0 {
      assert multiset(selected)[g] <= if Category(g) in done then multiset(groups)[g] else 0;
      OfCategoryCounts(groups, category, g);
      assert multiset(sample)[g] <= multiset(OfCategory(groups, category))[g];
    }
  }

  // ---------- Strata ----------

  function Categories(groups: seq<Group>): set<string> {
    set i | 0 <= i < |groups| :: Category(groups[i])
  }

  /** How many groups of a category the first stage picks. */
  function Quota(groups: seq<Group>, category: string, perCategory: nat): nat {
    if category == UNCATEGORISED then 0
    else if |OfCategory(groups, category)| < perCategory then |OfCategory(groups, category)| else perCategory
  }

  function Quotas(groups: seq<Group>, categories: seq<string>, perCategory: nat): nat {
    if categories == [] then 0
    else Quotas(groups, categories[..|categories| - 1], perCategory) + Quota(groups, categories[|categories| - 1], perCategory)
  }

  lemma {:induction false} OfCategoryConcat(a: seq<Group>, b: seq<Group>, category: string)
    ensures OfCategory(a + b, category) == OfCategory(a, category) + OfCategory(b, category)
  {
    if b == [] {
      assert a + b == a;
    } else {
      assert (a + b)[..|a + b| - 1] == a + b[..|b| - 1];
      OfCategoryConcat(a, b[..|b| - 1], category);
    }
  }

  lemma {:induction false} OfCategoryAll(groups: seq<Group>, category: string)
    requires forall i | 0 <= i < |groups| :: Category(groups[i]) == category
    ensures OfCategory(groups, category) == groups
  {
    if groups != [] {
      OfCategoryAll(groups[..|groups| - 1], category);
      assert groups == groups[..|groups| - 1] + [groups[|groups| - 1]];
    }
  }

  lemma {:induction false} OfCategoryNone(groups: seq<Group>, category: string)
    requires category !in Categories(groups)
    ensures OfCategory(groups, category) == []
  {
    if groups != [] {
      assert Category(groups[|groups| - 1]) in Categories(groups);
      var before := groups[..|groups| - 1];
      assert forall i | 0 <= i < |before| :: before[i] == groups[i];
      assert category !in Categories(before);
      OfCategoryNone(before, category);
    }
  }

  /** What the first stage picks from a shuffled category fills its quota with its own groups. */
  lemma PickFillsQuota(groups: seq<Group>, category: string, shuffled: seq<Group>, perCategory: nat)
    requires multiset(shuffled) == multiset(OfCategory(groups, category)) && category != UNCATEGORISED
    ensures |Take(shuffled, perCategory)| == Quota(groups, category, perCategory)
    ensures OfCategory(Take(shuffled, perCategory), category) == Take(shuffled, perCategory)
  {
    hide Category, OfCategory;
    assert |shuffled| == |multiset(shuffled)| == |OfCategory(groups, category)|;
    forall i | 0 <= i < |Take(shuffled, perCategory)| ensures Category(Take(shuffled, perCategory)[i]) == category {
      var g := shuffled[i];
      assert g in multiset(shuffled);
      OfCategoryCounts(groups, category, g);
    }
    OfCategoryAll(Take(shuffled, perCategory), category);
  }

  /** Every category seen so far has its quota. */
  ghost predicate Stratified(selected: seq<Group>, groups: seq<Group>, categories: set<string>, perCategory: nat) {
    forall category | category in categories :: |OfCategory(selected, category)| >= Quota(groups, category, perCategory)
  }

  lemma PickStratifies(groups: seq<Group>, selected: seq<Group>, done: set<string>, category: string, pick: seq<Group>, perCategory: nat)
    requires Stratified(selected, groups, done, perCategory)
    requires |pick| == Quota(groups, category, perCategory) && OfCategory(pick, category) == pick
    ensures Stratified(selected + pick, groups, done + {category}, perCategory)
  {
    hide OfCategory, Quota;
    forall x | x in done + {category} ensures |OfCategory(selected + pick, x)| >= Quota(groups, x, perCategory) {
      OfCategoryConcat(selected, pick, x);
    }
  }

  lemma MoreStaysStratified(groups: seq<Group>, selected: seq<Group>, more: seq<Group>, categories: set<string>, perCategory: nat)
    requires Stratified(selected, groups, categories, perCategory)
    ensures Stratified(selected + more, groups, categories, perCategory)
  {
    hide OfCategory, Quota;
    forall x | x in categories ensures |OfCategory(selected + more, x)| >= Quota(groups, x, perCategory) {
      OfCategoryConcat(selected, more, x);
    }
  }

  lemma StratifiedEverywhere(groups: seq<Group>, selected: seq<Group>, perCategory: nat)
    requires Stratified(selected, groups, Categories(groups), perCategory)
    ensures forall category :: |OfCategory(selected, category)| >= Quota(groups, category, perCategory)
  {
    hide OfCategory;
    forall category ensures |OfCategory(selected, category)| >= Quota(groups, category, perCategory) {
      if category !in Categories(groups) { OfCategoryNone(groups, category); }
    }
  }

  /** `stratified_sample`: exactly as many distinct groups as asked for or as there are, whatever
      the shuffles; and every category fills its quota when the quotas fit into the sample. */
  method StratifiedSample(groups: seq<Group>, size: nat, perCategory: nat, shuffle: Shuffle, listing: Listing)
    returns (sample: seq<Group>)
    requires DistinctHashes(groups) && Shuffles(shuffle) && Lists(listing)
    ensures |sample| == if size < |groups| then size else |groups|
    ensures DistinctHashes(sample) && multiset(sample) <= multiset(groups)
    ensures Quotas(groups, listing(Categories(groups)), perCategory) <= size ==>
              forall category :: |OfCategory(sample, category)| >= Quota(groups, category, perCategory)
  {
    hide Category, OfCategory, WithoutHashes, DistinctHashes, PartOf, Prefix, Stratified, Quota, Quotas, Categories;
    var categories := listing(Categories(groups));
    var selected: seq<Group> := [];
    var c, draws := 0, 0;
    NothingSelected(groups, categories, perCategory);
    while c < |categories|
      invariant 0 <= c <= |categories|
      invariant PartOf(selected, groups, Prefix(categories, c))
      invariant |selected| == Quotas(groups, categories[..c], perCategory)
      invariant Stratified(selected, groups, Prefix(categories, c), perCategory)
    {
      var category := categories[c];
      NextPrefix(categories, c);
      NextQuota(groups, categories, c, perCategory);
      if category != UNCATEGORISED {
        var shuffled := shuffle(draws, OfCategory(groups, category));
        var pick := Take(shuffled, perCategory);
        TakenFewer(shuffled, perCategory);
        OneMoreCategory(groups, selected, Prefix(categories, c), category, pick);
        PickFillsQuota(groups, category, shuffled, perCategory);
        PickStratifies(groups, selected, Prefix(categories, c), category, pick, perCategory);
        selected := selected + pick;
        draws := draws + 1;
      } else {
        SkippedCategory(groups, selected, Prefix(categories, c), category, perCategory);
      }
      c := c + 1;
    }
    PartIsPart(groups, selected, Prefix(categories, c));
    AllCategories(categories, groups);
    assert categories[..c] == categories;
    RestCounts(groups, selected);
    var remaining := shuffle(draws, WithoutHashes(groups, Hashes(selected)));
    sample := TopUp(groups, selected, remaining, size);
    if |selected| <= size {
      MoreStaysStratified(groups, selected, Take(remaining, size - |selected|), Categories(groups), perCategory);
      StratifiedEverywhere(groups, sample, perCategory);
    }
  }

  /** Fills the selection up from the remaining groups, and cuts it to size. */
  method TopUp(groups: seq<Group>, selected: seq<Group>, remaining: seq<Group>, size: nat) returns (sample: seq<Group>)
    requires DistinctHashes(groups) && multiset(selected) + multiset(remaining) == multiset(groups)
    ensures |sample| == if size < |groups| then size else |groups|
    ensures DistinctHashes(sample) && multiset(sample) <= multiset(groups)
    ensures |selected| <= size ==> sample == selected + Take(remaining, size - |selected|)
  {
    SameLength(selected, remaining, groups);
    TakenFewer(remaining, size - |selected|);
    var all := selected + Take(remaining, size - |selected|);
    TakenFewer(all, size);
    sample := Take(all, size);
    PartIsDistinct(sample, groups);
  }

  lemma NextQuota(groups: seq<Group>, categories: seq<string>, c: nat, perCategory: nat)
    requires c < |categories|
    ensures Quotas(groups, categories[..c + 1], perCategory) == Quotas(groups, categories[..c], perCategory) + Quota(groups, categories[c], perCategory)
    ensures categories[c] == UNCATEGORISED ==> Quota(groups, categories[c], perCategory) == 0
  {
    assert categories[..c + 1][..c] == categories[..c];
  }

  lemma AllCategories(categories: seq<string>, groups: seq<Group>)
    requires forall x :: x in categories <==> x in Categories(groups)
    ensures Prefix(categories, |categories|) == Categories(groups)
  {
  }

  /** A selection from the groups of some categories only. */
  ghost predicate PartOf(selected: seq<Group>, groups: seq<Group>, categories: set<string>) {
    forall g :: multiset(selected)[g] <= if Category(g) in categories then multiset(groups)[g] else 0
  }

  lemma PartIsPart(groups: seq<Group>, selected: seq<Group>, categories: set<string>)
    requires PartOf(selected, groups, categories)
    ensures multiset(selected) <= multiset(groups)
  {
  }

  lemma NothingSelected(groups: seq<Group>, categories: seq<string>, perCategory: nat)
    ensures PartOf([], groups, Prefix(categories, 0)) && Stratified([], groups, Prefix(categories, 0), perCategory)
    ensures Quotas(groups, categories[..0], perCategory) == 0
  {
  }

  lemma SkippedCategory(groups: seq<Group>, selected: seq<Group>, done: set<string>, category: string, perCategory: nat)
    requires PartOf(selected, groups, done) && Stratified(selected, groups, done, perCategory) && category == UNCATEGORISED
    ensures PartOf(selected, groups, done + {category}) && Stratified(selected, groups, done + {category}, perCategory)
  {
  }

  lemma NextPrefix(categories: seq<string>, n: nat)
    requires n < |categories| && forall i, j | 0 <= i < j < |categories| :: categories[i] != categories[j]
    ensures Prefix(categories, n + 1) == Prefix(categories, n) + {categories[n]} && categories[n] !in Prefix(categories, n)
  {
  }

  function Prefix(categories: seq<string>, n: nat): set<string>
    requires n <= |categories|
  {
    set i | 0 <= i < n :: categories[i]
  }

  lemma SameLength(a: seq<Group>, b: seq<Group>, whole: seq<Group>)
    requires multiset(a) + multiset(b) == multiset(whole)
    ensures |a| + |b| == |whole|
  {
    assert |multiset(a)| == |a| && |multiset(b)| == |b| && |multiset(whole)| == |whole|;
  }

  // ---------- Building the holdout ----------

  function IdsOf(rows: seq<FaqRow>): set<int> {
    set i | 0 <= i < |rows| :: rows[i].id
  }

  /** Groups without a development row. */
  function Untouched(groups: seq<Group>, dev: set<int>): seq<Group> {
    if groups == [] then []
    else Untouched(groups[..|groups| - 1], dev) + if IdsOf(groups[|groups| - 1].rows) !! dev then [groups[|groups| - 1]] else []
  }

  /** Holdout cases, as the ids each expects: all the rows of one content hash, no hash twice, no
      development row among them. */
  ghost predicate HoldoutOf(digest: Digest, rows: seq<FaqRow>, dev: set<int>, cases: seq<set<int>>) {
    exists hashes: seq<string> :: CasesFor(digest, rows, dev, cases, hashes)
  }

  ghost predicate CasesFor(digest: Digest, rows: seq<FaqRow>, dev: set<int>, cases: seq<set<int>>, hashes: seq<string>) {
    && |hashes| == |cases|
    && (forall i, j | 0 <= i < j < |hashes| :: hashes[i] != hashes[j])
    && forall i | 0 <= i < |cases| ::
         cases[i] == IdsOf(WithHash(digest, rows, hashes[i])) && WithHash(digest, rows, hashes[i]) != [] && cases[i] !! dev
  }

  lemma {:induction false} UntouchedContents(groups: seq<Group>, dev: set<int>, g: Group)
    ensures multiset(Untouched(groups, dev))[g] == if IdsOf(g.rows) !! dev then multiset(groups)[g] else 0
  {
    if groups != [] {
      UntouchedContents(groups[..|groups| - 1], dev, g);
      assert groups == groups[..|groups| - 1] + [groups[|groups| - 1]];
    }
  }

  lemma UntouchedIsPart(groups: seq<Group>, dev: set<int>)
    ensures multiset(Untouched(groups, dev)) <= multiset(groups)
  {
    forall g ensures multiset(Untouched(groups, dev))[g] <= multiset(groups)[g] { UntouchedContents(groups, dev, g); }
  }

  lemma SampledGroup(groups: seq<Group>, dev: set<int>, sample: seq<Group>, i: nat)
    requires multiset(sample) <= multiset(Untouched(groups, dev)) && i < |sample|
    ensures sample[i] in groups && IdsOf(sample[i].rows) !! dev
  {
    assert sample[i] in multiset(sample);
    UntouchedContents(groups, dev, sample[i]);
    assert sample[i] in multiset(groups);
  }

  // ---------- Cases ----------

  datatype QuerySource = OriginalQuery | AlternateQuery | TitleQuery

  /** How questions are split into variants and compared; the patterns themselves are not modelled. */
  datatype Texts = Texts(split: string -> seq<string>, canonical: string -> string)

  datatype Case = Case(ids: seq<int>, query: string, source: QuerySource, category: string)

  function Variants(texts: Texts, row: FaqRow): seq<string> {
    texts.split(if row.faq.Some? then row.faq.value else "")
  }

  function FirstVariant(texts: Texts, row: FaqRow): string {
    if Variants(texts, row) == [] then Normalized(row.faq) else Variants(texts, row)[0]
  }

  predicate Differs(texts: Texts, row: FaqRow, query: string) {
    texts.canonical(query) != texts.canonical(FirstVariant(texts, row))
  }

  /** The first variant that asks something else, else a long enough title that does, else the first. */
  ghost predicate Chosen(texts: Texts, row: FaqRow, query: string, source: QuerySource) {
    var variants, title := Variants(texts, row), Normalized(row.title);
    match source
    case AlternateQuery =>
      exists i :: 1 <= i < |variants| && query == variants[i] && Differs(texts, row, query)
                  && forall j | 1 <= j < i :: !Differs(texts, row, variants[j])
    case TitleQuery =>
      (forall j | 1 <= j < |variants| :: !Differs(texts, row, variants[j]))
      && query == title && |title| >= 4 && Differs(texts, row, title)
    case OriginalQuery =>
      (forall j | 1 <= j < |variants| :: !Differs(texts, row, variants[j]))
      && query == FirstVariant(texts, row) && (|title| < 4 || !Differs(texts, row, title))
  }

  /** The choice is unique, and a query is marked as its FAQ's own wording exactly when it asks the
      same as the first variant. */
  lemma ChosenOnce(texts: Texts, row: FaqRow, q: string, s: QuerySource, q': string, s': QuerySource)
    requires Chosen(texts, row, q, s) && Chosen(texts, row, q', s')
    ensures q == q' && s == s' && (s == OriginalQuery <==> !Differs(texts, row, q))
  {
    var variants := Variants(texts, row);
    if s == AlternateQuery && s' == AlternateQuery {
      var i :| 1 <= i < |variants| && q == variants[i] && Differs(texts, row, q) && forall j | 1 <= j < i :: !Differs(texts, row, variants[j]);
      var k :| 1 <= k < |variants| && q' == variants[k] && Differs(texts, row, q') && forall j | 1 <= j < k :: !Differs(texts, row, variants[j]);
      assert !(i < k) && !(k < i);
    }
  }

  /** `choose_holdout_query`. */
  method ChooseQuery(texts: Texts, row: FaqRow) returns (query: string, source: QuerySource)
    ensures Chosen(texts, row, query, source)
  {
    var variants := Variants(texts, row);
    var i := 1;
    while i < |variants|
      invariant 1 <= i && (i <= |variants| || i == 1)
      invariant forall j | 1 <= j < i && j < |variants| :: !Differs(texts, row, variants[j])
    {
      if Differs(texts, row, variants[i]) { return variants[i], AlternateQuery; }
      i := i + 1;
    }
    var title := Normalized(row.title);
    if |title| >= 4 && Differs(texts, row, title) { return title, TitleQuery; }
    return FirstVariant(texts, row), OriginalQuery;
  }

  predicate SortedIds(ids: seq<int>) {
    forall i, j | 0 <= i < j < |ids| :: ids[i] <= ids[j]
  }

  function IdSeq(rows: seq<FaqRow>): seq<int> {
    seq(|rows|, i requires 0 <= i < |rows| => rows[i].id)
  }

  function InsertedId(ids: seq<int>, id: int): seq<int> {
    if ids == [] || id <= ids[0] then [id] + ids else [ids[0]] + InsertedId(ids[1..], id)
  }

  lemma {:induction false} InsertedIdAdds(ids: seq<int>, id: int)
    ensures multiset(InsertedId(ids, id)) == multiset(ids) + multiset{id}
    ensures forall x | x in InsertedId(ids, id) :: x == id || x in ids
  {
    if ids != [] && id > ids[0] {
      InsertedIdAdds(ids[1..], id);
      assert ids == [ids[0]] + ids[1..];
    }
  }

  lemma {:induction false} InsertedIdSorts(ids: seq<int>, id: int)
    requires SortedIds(ids)
    ensures SortedIds(InsertedId(ids, id))
  {
    if ids != [] && id > ids[0] {
      var tail := ids[1..];
      var rest := InsertedId(tail, id);
      assert SortedIds(tail) && forall x | x in tail :: ids[0] <= x;
      InsertedIdSorts(tail, id);
      InsertedIdAdds(tail, id);
      forall i | 0 <= i < |rest| ensures ids[0] <= rest[i] { assert rest[i] in rest; }
    }
  }

  method SortIds(rows: seq<FaqRow>) returns (ids: seq<int>)
    ensures SortedIds(ids) && multiset(ids) == multiset(IdSeq(rows))
  {
    ids := [];
    var i := 0;
    while i < |rows|
      invariant 0 <= i <= |rows| && SortedIds(ids) && multiset(ids) == multiset(IdSeq(rows[..i]))
    {
      InsertedIdSorts(ids, rows[i].id);
      InsertedIdAdds(ids, rows[i].id);
      assert IdSeq(rows[..i + 1]) == IdSeq(rows[..i]) + [rows[i].id];
      ids := InsertedId(ids, rows[i].id);
      i := i + 1;
    }
    assert rows[..i] == rows;
  }

  /** The first row with the least id. */
  ghost predicate LeastAt(rows: seq<FaqRow>, i: int) {
    0 <= i < |rows| && forall j | 0 <= j < |rows| :: rows[i].id <= rows[j].id && (j < i ==> rows[i].id < rows[j].id)
  }

  method LeastRow(rows: seq<FaqRow>) returns (least: nat)
    requires rows != []
    ensures LeastAt(rows, least)
  {
    least := 0;
    var i := 1;
    while i < |rows|
      invariant 1 <= i <= |rows| && least < i && LeastAt(rows[..i], least)
    {
      if rows[i].id < rows[least].id { least := i; }
      i := i + 1;
    }
    assert rows[..i] == rows;
  }

  /** The case of a group: all its ids in order, and the query of its least row. */
  ghost predicate CaseOf(texts: Texts, c: Case, rows: seq<FaqRow>) {
    && SortedIds(c.ids) && multiset(c.ids) == multiset(IdSeq(rows))
    && exists i :: LeastAt(rows, i) && Chosen(texts, rows[i], c.query, c.source)
                   && c.category == if Normalized(rows[i].category) == "" then UNCATEGORISED else Normalized(rows[i].category)
  }

  method MakeCase(texts: Texts, rows: seq<FaqRow>) returns (c: Case)
    requires rows != []
    ensures CaseOf(texts, c, rows)
  {
    var least := LeastRow(rows);
    var query, source := ChooseQuery(texts, rows[least]);
    var ids := SortIds(rows);
    c := Case(ids, query, source, if Normalized(rows[least].category) == "" then UNCATEGORISED else Normalized(rows[least].category));
  }

  function IdSet(c: Case): set<int> {
    set i | 0 <= i < |c.ids| :: c.ids[i]
  }

  function IdSets(cases: seq<Case>): seq<set<int>> {
    seq(|cases|, i requires 0 <= i < |cases| => IdSet(cases[i]))
  }

  lemma CaseIds(texts: Texts, c: Case, rows: seq<FaqRow>)
    requires CaseOf(texts, c, rows)
    ensures IdSet(c) == IdsOf(rows)
  {
    forall id ensures id in IdSet(c) <==> id in IdsOf(rows) {
      assert id in c.ids <==> id in multiset(c.ids);
      assert id in IdSeq(rows) <==> id in multiset(IdSeq(rows));
      if id in IdsOf(rows) { var i :| 0 <= i < |rows| && rows[i].id == id; assert IdSeq(rows)[i] == id; }
      if id in IdSeq(rows) { var i :| 0 <= i < |rows| && IdSeq(rows)[i] == id; assert rows[i].id == id; }
    }
  }

  /** Each case is that of one of the groups. */
  ghost predicate CasesOf(texts: Texts, cases: seq<Case>, groups: seq<Group>) {
    forall i | 0 <= i < |cases| :: exists g :: g in groups && CaseOf(texts, cases[i], g.rows)
  }

  /** `build_holdout`. It succeeds exactly when the sizes are positive and enough groups are untouched. */
  method BuildHoldout(digest: Digest, texts: Texts, rows: seq<FaqRow>, dev: set<int>, size: int, perCategory: int, shuffle: Shuffle, listing: Listing)
    returns (cases: Outcome<seq<Case>>, groups: seq<Group>)
    requires Shuffles(shuffle) && Lists(listing)
    ensures size > 0 && perCategory > 0 ==> Grouping(digest, rows, groups)
    ensures cases.Ok? <==> size > 0 && perCategory > 0 && size <= |Untouched(groups, dev)|
    ensures cases.Ok? ==> |cases.value| == size && CasesOf(texts, cases.value, groups)
    ensures cases.Ok? ==> HoldoutOf(digest, rows, dev, IdSets(cases.value))
  {
    hide WithHash, Untouched, CaseOf, IdsOf, IdSet;
    if size <= 0 || perCategory <= 0 { return Raise("size and per_category must be greater than 0"), []; }
    groups := GroupRows(digest, rows);
    var candidates := Untouched(groups, dev);
    UntouchedIsPart(groups, dev);
    PartIsDistinct(candidates, groups);
    var sample := StratifiedSample(candidates, size, perCategory, shuffle, listing);
    if |sample| != size { return Raise("not enough groups"), groups; }
    ghost var hashes := seq(|sample|, i requires 0 <= i < |sample| => sample[i].hash);
    forall i | 0 <= i < |sample|
      ensures sample[i] in groups && sample[i].rows == WithHash(digest, rows, hashes[i]) != [] && IdsOf(sample[i].rows) !! dev
    {
      SampledGroup(groups, dev, sample, i);
    }
    var made := MakeCases(texts, sample);
    forall i | 0 <= i < |made| ensures IdSets(made)[i] == IdsOf(sample[i].rows) { CaseIds(texts, made[i], sample[i].rows); }
    assert CasesFor(digest, rows, dev, IdSets(made), hashes);
    return Ok(made), groups;
  }

  method MakeCases(texts: Texts, sample: seq<Group>) returns (cases: seq<Case>)
    requires forall i | 0 <= i < |sample| :: sample[i].rows != []
    ensures |cases| == |sample| && forall i | 0 <= i < |sample| :: CaseOf(texts, cases[i], sample[i].rows)
  {
    hide CaseOf;
    cases := [];
    while |cases| < |sample|
      invariant |cases| <= |sample| && forall i | 0 <= i < |cases| :: CaseOf(texts, cases[i], sample[i].rows)
    {
      var c := MakeCase(texts, sample[|cases|].rows);
      cases := cases + [c];
    }
  }

  // ---------- Validation ----------

  /** `{id: hash}`, a repeated id keeping its last hash. */
  function IdHashes(digest: Digest, rows: seq<FaqRow>): map<int, string> {
    if rows == [] then map[]
    else IdHashes(digest, rows[..|rows| - 1])[rows[|rows| - 1].id := HashOf(digest, rows[|rows| - 1])]
  }

  predicate AllHaveText(rows: seq<FaqRow>) {
    forall i | 0 <= i < |rows| :: HasText(rows[i])
  }

  function HashesOf(idHashes: map<int, string>, ids: set<int>): set<string>
    requires ids <= idHashes.Keys
  {
    set id | id in ids :: idHashes[id]
  }

  /** What `validate_isolation` accepts. */
  predicate Accepted(digest: Digest, rows: seq<FaqRow>, dev: set<int>, holdout: set<int>) {
    var idHashes := IdHashes(digest, rows);
    && AllHaveText(rows)
    && dev <= idHashes.Keys && holdout <= idHashes.Keys
    && dev !! holdout
    && HashesOf(idHashes, dev) !! HashesOf(idHashes, holdout)
  }

  lemma HashedRow(digest: Digest, row: FaqRow)
    ensures FaqHash.FaqHash(digest, row).Ok? <==> HasText(row)
    ensures HasText(row) ==> FaqHash.FaqHash(digest, row).value == HashOf(digest, row)
  {
  }

  /** `validate_isolation`: every row is hashed first, so one without text raises. */
  method ValidateIsolation(digest: Digest, rows: seq<FaqRow>, dev: set<int>, holdout: set<int>) returns (unique: Outcome<nat>)
    ensures unique.Ok? <==> Accepted(digest, rows, dev, holdout)
    ensures unique.Ok? ==> unique.value == |HashesOf(IdHashes(digest, rows), holdout)|
  {
    hide HashOf, HasText, FaqHash.FaqHash, HashesOf;
    var idHashes: map<int, string> := map[];
    var i := 0;
    while i < |rows|
      invariant 0 <= i <= |rows| && AllHaveText(rows[..i])
      invariant idHashes == IdHashes(digest, rows[..i])
    {
      var hash := FaqHash.FaqHash(digest, rows[i]);
      HashedRow(digest, rows[i]);
      if hash.Raise? { return Raise(hash.error); }
      assert rows[..i + 1][..i] == rows[..i];
      idHashes := idHashes[rows[i].id := hash.value];
      i := i + 1;
    }
    assert rows[..i] == rows;
    if !(dev <= idHashes.Keys && holdout <= idHashes.Keys) { return Raise("unknown id"); }
    var hashes := HashesOf(idHashes, holdout);
    if !(dev !! holdout) || !(HashesOf(idHashes, dev) !! hashes) { return Raise("holdout overlaps development set"); }
    return Ok(|hashes|);
  }

  // ---------- Isolation ----------

  predicate UniqueIds(rows: seq<FaqRow>) {
    forall i, j | 0 <= i < j < |rows| :: rows[i].id != rows[j].id
  }

  function ExpectedIds(cases: seq<set<int>>): set<int> {
    set i, id | 0 <= i < |cases| && id in cases[i] :: id
  }

  lemma {:induction false} IdHashesAt(digest: Digest, rows: seq<FaqRow>)
    requires UniqueIds(rows)
    ensures IdHashes(digest, rows).Keys == IdsOf(rows)
    ensures forall i | 0 <= i < |rows| :: rows[i].id in IdHashes(digest, rows) && IdHashes(digest, rows)[rows[i].id] == HashOf(digest, rows[i])
  {
    hide HashOf;
    if rows != [] {
      var n := |rows| - 1;
      IdHashesAt(digest, rows[..n]);
      var before := IdHashes(digest, rows[..n]);
      assert rows[..n] + [rows[n]] == rows;
      IdsOfSnoc(rows[..n], rows[n]);
      forall i | 0 <= i < |rows| ensures rows[i].id in IdHashes(digest, rows) && IdHashes(digest, rows)[rows[i].id] == HashOf(digest, rows[i]) {
        if i < n { assert rows[..n][i] == rows[i] && rows[i].id in before; }
      }
    }
  }

  lemma IdsOfSnoc(rows: seq<FaqRow>, row: FaqRow)
    ensures IdsOf(rows + [row]) == IdsOf(rows) + {row.id}
  {
    var all := rows + [row];
    forall id ensures id in IdsOf(all) <==> id in IdsOf(rows) || id == row.id {
      if id in IdsOf(rows) { var i :| 0 <= i < |rows| && rows[i].id == id; assert all[i].id == id; }
      assert all[|rows|].id == row.id;
    }
  }

  /** No holdout id is a development id, and no development row has the content of a holdout row. */
  lemma HoldoutIsIsolated(digest: Digest, rows: seq<FaqRow>, dev: set<int>, cases: seq<set<int>>, d: int, h: int)
    requires HoldoutOf(digest, rows, dev, cases) && UniqueIds(rows)
    requires 0 <= d < |rows| && rows[d].id in dev && HasText(rows[d])
    requires 0 <= h < |rows| && rows[h].id in ExpectedIds(cases)
    ensures rows[d].id != rows[h].id && HashOf(digest, rows[d]) != HashOf(digest, rows[h])
  {
    var hashes :| CasesFor(digest, rows, dev, cases, hashes);
    var i :| 0 <= i < |cases| && rows[h].id in cases[i];
    CaseRow(digest, rows, hashes[i], h);
    if HashOf(digest, rows[d]) == hashes[i] {
      WithHashContents(digest, rows, hashes[i], rows[d]);
    }
  }

  /** An id expected from a hash belongs to a row with that hash. */
  lemma CaseRow(digest: Digest, rows: seq<FaqRow>, hash: string, h: int)
    requires UniqueIds(rows) && 0 <= h < |rows| && rows[h].id in IdsOf(WithHash(digest, rows, hash))
    ensures HasText(rows[h]) && HashOf(digest, rows[h]) == hash
  {
    hide HashOf;
    var found := WithHash(digest, rows, hash);
    var j :| 0 <= j < |found| && found[j].id == rows[h].id;
    WithHashContents(digest, rows, hash, found[j]);
    var k :| 0 <= k < |rows| && rows[k] == found[j];
    assert k == h;
  }

  lemma ExpectedIdsAreRows(digest: Digest, rows: seq<FaqRow>, dev: set<int>, cases: seq<set<int>>)
    requires HoldoutOf(digest, rows, dev, cases)
    ensures ExpectedIds(cases) <= IdsOf(rows) && ExpectedIds(cases) !! dev
  {
    var hashes :| CasesFor(digest, rows, dev, cases, hashes);
    forall id | id in ExpectedIds(cases) ensures id in IdsOf(rows) && id !in dev {
      var i :| 0 <= i < |cases| && id in cases[i];
      var found := WithHash(digest, rows, hashes[i]);
      var j :| 0 <= j < |found| && found[j].id == id;
      WithHashContents(digest, rows, hashes[i], found[j]);
    }
  }

  /** For unique ids, validating a built holdout succeeds exactly when every knowledge row has
      question and answer text and every development id is a row's: overlap is never the reason it
      raises. */
  lemma ValidationExactly(digest: Digest, rows: seq<FaqRow>, dev: set<int>, cases: seq<set<int>>)
    requires UniqueIds(rows) && HoldoutOf(digest, rows, dev, cases)
    ensures Accepted(digest, rows, dev, ExpectedIds(cases)) <==> AllHaveText(rows) && dev <= IdsOf(rows)
  {
    var idHashes, holdout := IdHashes(digest, rows), ExpectedIds(cases);
    IdHashesAt(digest, rows);
    ExpectedIdsAreRows(digest, rows, dev, cases);
    hide HashOf, HoldoutOf, ExpectedIds;
    if AllHaveText(rows) && dev <= IdsOf(rows) {
      forall a, b | a in dev && b in holdout ensures idHashes[a] != idHashes[b] {
        var d :| 0 <= d < |rows| && rows[d].id == a;
        var h :| 0 <= h < |rows| && rows[h].id == b;
        HoldoutIsIsolated(digest, rows, dev, cases, d, h);
      }
    }
  }

  /** A set that shares an id or a content hash with the development set is never accepted, nor is any
      set while a row lacks text. */
  lemma OverlapIsRejected(digest: Digest, rows: seq<FaqRow>, dev: set<int>, holdout: set<int>, d: int, h: int)
    requires UniqueIds(rows) && 0 <= d < |rows| && 0 <= h < |rows| && rows[d].id in dev && rows[h].id in holdout
    ensures rows[d].id == rows[h].id || HashOf(digest, rows[d]) == HashOf(digest, rows[h]) ==> !Accepted(digest, rows, dev, holdout)
    ensures !HasText(rows[d]) || !HasText(rows[h]) ==> !Accepted(digest, rows, dev, holdout)
  {
    hide HashOf, HasText;
    IdHashesAt(digest, rows);
    var idHashes := IdHashes(digest, rows);
    if dev <= idHashes.Keys && holdout <= idHashes.Keys {
      assert idHashes[rows[d].id] in HashesOf(idHashes, dev) && idHashes[rows[h].id] in HashesOf(idHashes, holdout);
    }
  }

  /** Any row without text, which the grouping passes over, still makes the validation raise. */
  lemma BlankRowRaises(digest: Digest, blank: FaqRow, row: FaqRow)
    requires !HasText(blank) && HasText(row) && blank.id != row.id
    ensures HoldoutOf(digest, [blank, row], {}, [{row.id}])
    ensures !Accepted(digest, [blank, row], {}, {row.id})
  {
    var rows, hash := [blank, row], HashOf(digest, row);
    hide HashOf, HasText;
    WithHashSnoc(digest, [], blank, hash);
    WithHashSnoc(digest, [blank], row, hash);
    assert [] + [blank] == [blank] && [blank] + [row] == rows;
    assert WithHash(digest, rows, hash) == [row];
    assert IdsOf([row]) == {row.id};
    assert CasesFor(digest, rows, {}, [{row.id}], [hash]);
    assert !HasText(rows[0]);
  }
}
