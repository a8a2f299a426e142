/** What the FAQ hash means for the index: which FAQs share a hash, and when the index is truthful. */
module FaqIndex {
  import opened Json
  import opened EmbeddingIndex
  import opened FaqHash
  import ConfiguredPlanner

  // ---------- FAQs with the same payload ----------

  /** An FAQ without a clean break in any field shares its payload with no other FAQ. */
  lemma UnbrokenIsUnique(c: Content, c': Content)
    requires Importable(c) && Importable(c') && AllUnbroken(Parts(c)) && Payload(c') == Payload(c)
    ensures c' == c
  {
    hide Joined, Unbroken;
    CutsNoFiner(Parts(c), Parts(c'));
    SameParts(c, c');
  }

  /** Every way to cut a string at newlines into `n` parts, the first of them at least `from` long. */
  function Cuts(s: string, n: nat, from: nat): set<seq<string>>
    requires n > 0 && from <= |s|
    decreases n, |s| - from
  {
    if n == 1 then {[s]}
    else if from == |s| then {}
    else (if s[from] == '\n' then set p | p in Cuts(s[from + 1..], n - 1, 0) :: [s[..from]] + p else {}) + Cuts(s, n, from + 1)
  }

  lemma {:induction false} CutsExactly(s: string, n: nat, from: nat, p: seq<string>)
    requires n > 0 && from <= |s|
    ensures p in Cuts(s, n, from) <==> |p| == n && Joined(p) == s && (n > 1 ==> |p[0]| >= from)
    decreases n, |s| - from
  {
    if n == 1 {
      assert p == [s] <==> |p| == 1 && p[0] == s;
    } else if from < |s| {
      CutsExactly(s, n, from + 1, p);
      if p != [] {
        CutsExactly(s[from + 1..], n - 1, 0, p[1..]);
        CutHere(s, n, from, p);
      }
    } else if |p| == n && Joined(p) == s {
      JoinedIsLonger(p);
    }
  }

  lemma JoinedIsLonger(p: seq<string>)
    requires |p| > 1
    ensures |Joined(p)| > |p[0]| && Joined(p)[|p[0]|] == '\n' && Joined(p)[..|p[0]|] == p[0] && Joined(p)[|p[0]| + 1..] == Joined(p[1..])
  {
  }

  /** The cuts whose first part ends at `from`. */
  lemma CutHere(s: string, n: nat, from: nat, p: seq<string>)
    requires n > 1 && from < |s| && p != []
    requires p[1..] in Cuts(s[from + 1..], n - 1, 0) <==> |p[1..]| == n - 1 && Joined(p[1..]) == s[from + 1..]
    ensures (s[from] == '\n' && p in (set q | q in Cuts(s[from + 1..], n - 1, 0) :: [s[..from]] + q))
            <==> |p| == n && Joined(p) == s && |p[0]| == from
  {
    var rest := Cuts(s[from + 1..], n - 1, 0);
    assert p == [p[0]] + p[1..];
    if s[from] == '\n' && p in (set q | q in rest :: [s[..from]] + q) {
      var q :| q in rest && p == [s[..from]] + q;
      assert p[1..] == q;
      JoinedTail(s[..from], q);
      assert s == s[..from] + [s[from]] + s[from + 1..];
    }
    if |p| == n && Joined(p) == s && |p[0]| == from {
      JoinedIsLonger(p);
      assert p == [s[..from]] + p[1..];
    }
  }

  function FromParts(p: seq<string>): Content
    requires |p| == 6
  {
    Content(p[0], p[1], p[2], p[3], p[4], p[5])
  }

  /** The other FAQs with the same payload, found by cutting it at its line breaks. */
  function Rivals(c: Content): set<Content> {
    set p | p in Cuts(Payload(c), 6, 0) && |p| == 6 && Importable(FromParts(p)) && FromParts(p) != c :: FromParts(p)
  }

  /** The search is exact: what it finds are the FAQs that share the hash, so an FAQ's hash is its own
      if and only if it finds none. */
  lemma RivalsExactly(c: Content)
    ensures forall c' :: c' in Rivals(c) <==> Importable(c') && c' != c && Payload(c') == Payload(c)
    ensures Rivals(c) == {} <==> forall c' | Importable(c') && Payload(c') == Payload(c) :: c' == c
  {
    forall c' ensures c' in Rivals(c) <==> Importable(c') && c' != c && Payload(c') == Payload(c) {
      hide Cuts, Joined, Importable;
      CutsExactly(Payload(c), 6, 0, Parts(c'));
      assert FromParts(Parts(c')) == c';
      if c' in Rivals(c) {
        var p :| p in Cuts(Payload(c), 6, 0) && |p| == 6 && Importable(FromParts(p)) && FromParts(p) != c && FromParts(p) == c';
        assert Parts(c') == p;
      }
    }
  }

  // ---------- One line break ----------

  /** A newline between two characters that are no blanks. */
  predicate BetweenWords(x: string, y: string) {
    x != "" && y != "" && !ConfiguredPlanner.Blank(x[|x| - 1]) && !ConfiguredPlanner.Blank(y[0])
  }

  /** The parts of an FAQ with one field cut in two. */
  function Pieces(c: Content, field: nat, x: string, y: string): seq<string>
    requires field < 6
  {
    Parts(c)[..field] + [x, y] + Parts(c)[field + 1..]
  }

  /** Two neighbouring parts made one. */
  function Merged(p: seq<string>, i: nat): seq<string>
    requires i + 1 < |p|
  {
    p[..i] + [p[i] + "\n" + p[i + 1]] + p[i + 2..]
  }

  lemma {:induction false} MergedJoins(p: seq<string>, i: nat)
    requires i + 1 < |p|
    ensures Joined(Merged(p, i)) == Joined(p)
    decreases |p|
  {
    var m := Merged(p, i);
    assert p == [p[0]] + p[1..];
    if i > 0 {
      assert m == [p[0]] + Merged(p[1..], i - 1);
      MergedJoins(p[1..], i - 1);
      JoinedTail(p[0], Merged(p[1..], i - 1));
      JoinedTail(p[0], p[1..]);
    } else {
      assert p[1..] == [p[1]] + p[2..] && m == [p[0] + "\n" + p[1]] + p[2..];
      JoinedTail(p[0], p[1..]);
      if |p| > 2 {
        JoinedTail(p[1], p[2..]);
        JoinedTail(p[0] + "\n" + p[1], p[2..]);
        assert p[0] + "\n" + (p[1] + "\n" + Joined(p[2..])) == (p[0] + "\n" + p[1]) + "\n" + Joined(p[2..]);
      }
    }
  }

  /** The FAQ that reads the break in a field as its end, and joins two other neighbouring parts. */
  function ReadOtherwise(c: Content, field: nat, x: string, y: string, i: nat): Content
    requires field < 6 && i < 6
  {
    FromParts(Merged(Pieces(c, field, x, y), i))
  }

  /** What stays an FAQ when the parts at `i` are joined: neither is empty, and a question and an
      answer remain. */
  predicate CanJoin(p: seq<string>, i: nat)
    requires |p| == 7 && i < 6
  {
    p[i] != "" && p[i + 1] != "" && Merged(p, i)[1] != "" && Merged(p, i)[2] != ""
  }

  lemma TrimmedPieces(x: string, y: string)
    requires BetweenWords(x, y) && Trimmed(x + "\n" + y)
    ensures Trimmed(x) && Trimmed(y)
  {
    var s := x + "\n" + y;
    assert s[0] == x[0] && s[|s| - 1] == y[|y| - 1];
  }

  lemma TrimmedJoin(x: string, y: string)
    requires Trimmed(x) && Trimmed(y)
    ensures Trimmed(x + "\n" + y) <==> x != "" && y != ""
  {
    var s := x + "\n" + y;
    assert s[0] == (if x == "" then '\n' else x[0]) && s[|s| - 1] == if y == "" then '\n' else y[|y| - 1];
  }

  lemma PiecesTrimmed(c: Content, field: nat, x: string, y: string)
    requires Importable(c) && field < 6 && Parts(c)[field] == x + "\n" + y && BetweenWords(x, y)
    ensures AllTrimmed(Pieces(c, field, x, y)) && Merged(Pieces(c, field, x, y), field) == Parts(c)
  {
    hide Trimmed;
    TrimmedPieces(x, y);
    var p := Pieces(c, field, x, y);
    forall i | 0 <= i < |p| ensures Trimmed(p[i]) {
      if i < field { assert p[i] == Parts(c)[i]; } else if i > field + 1 { assert p[i] == Parts(c)[i - 1]; }
    }
  }

  lemma MergedTrimmed(p: seq<string>, i: nat)
    requires i + 1 < |p| && AllTrimmed(p)
    ensures AllTrimmed(Merged(p, i)) <==> p[i] != "" && p[i + 1] != ""
  {
    hide Trimmed;
    TrimmedJoin(p[i], p[i + 1]);
    var m := Merged(p, i);
    assert m[i] == p[i] + "\n" + p[i + 1];
    forall j | 0 <= j < |m| && j != i ensures Trimmed(m[j]) {
      assert m[j] == if j < i then p[j] else p[j + 1];
    }
  }

  /** Another reading of a break between two words is a rival exactly when it can be joined up. */
  lemma OtherReadingExactly(c: Content, field: nat, x: string, y: string, i: nat)
    requires Importable(c) && field < 6 && Parts(c)[field] == x + "\n" + y && BetweenWords(x, y) && i < 6 && i != field
    ensures ReadOtherwise(c, field, x, y, i) in Rivals(c) <==> CanJoin(Pieces(c, field, x, y), i)
  {
    hide Joined, Trimmed;
    var p := Pieces(c, field, x, y);
    var c' := ReadOtherwise(c, field, x, y, i);
    PiecesTrimmed(c, field, x, y);
    MergedJoins(p, i); MergedJoins(p, field);
    MergedTrimmed(p, i);
    assert Parts(c') == Merged(p, i);
    MergesDiffer(p, i, field);
    RivalsExactly(c);
  }

  lemma MergesDiffer(p: seq<string>, i: nat, j: nat)
    requires i + 1 < |p| && j + 1 < |p| && i != j
    ensures Merged(p, i) != Merged(p, j)
  {
    var least := if i < j then i else j;
    assert Merged(p, least)[least] == p[least] + "\n" + p[least + 1];
    assert Merged(p, i + j - least)[least] == p[least];
  }

  /** A break in the last two fields needs another optional field to be joined into. */
  predicate Movable(c: Content, field: nat) {
    || field < 4
    || (field == 4 && (c.keywords != "" || c.category != ""))
    || (field == 5 && (c.keywords != "" || c.intention != ""))
  }

  /** Where the parts are joined when the break becomes the end of its field. */
  function JoinAt(c: Content, field: nat): nat {
    if field == 0 || field == 1 then 2
    else if field == 4 && c.category != "" then 5
    else if field == 5 && c.intention != "" then 4
    else 1
  }

  lemma CanJoinThere(c: Content, field: nat, x: string, y: string)
    requires Importable(c) && field < 6 && x != "" && y != "" && Movable(c, field)
    requires Parts(c)[field] == x + "\n" + y
    ensures JoinAt(c, field) != field && CanJoin(Pieces(c, field, x, y), JoinAt(c, field))
  {
    hide Trimmed;
  }

  /** A break between two words gives the FAQ a rival: always in title, question, answer and keywords,
      in the intention beside keywords or a category, in the category beside keywords or an intention. */
  lemma BreakHasRival(c: Content, field: nat, x: string, y: string)
    requires Importable(c) && field < 6 && Parts(c)[field] == x + "\n" + y && BetweenWords(x, y) && Movable(c, field)
    ensures ReadOtherwise(c, field, x, y, JoinAt(c, field)) in Rivals(c)
  {
    hide Rivals, Importable, CanJoin, Movable;
    CanJoinThere(c, field, x, y);
    OtherReadingExactly(c, field, x, y, JoinAt(c, field));
  }

  /** Trimmed parts without clean breaks can be cut into one part less only by joining two of them. */
  lemma {:induction false} CutsOneCoarser(p: seq<string>, q: seq<string>) returns (i: nat)
    requires |q| + 1 == |p| && q != [] && AllTrimmed(p) && AllUnbroken(p)
    requires EndTrimmed(q[0]) && AllTrimmed(q[1..]) && Joined(p) == Joined(q)
    ensures i + 1 < |p| && q == Merged(p, i)
    decreases |p|
  {
    if |q| == 1 {
      i := 0;
      assert p == [p[0]] + [p[1]];
    } else if |q[0]| <= |p[0]| {
      SameFirst(p, q);
      hide Joined, Unbroken, Trimmed;
      var j := CutsOneCoarser(p[1..], q[1..]);
      i := j + 1;
      assert Merged(p, i) == [p[0]] + Merged(p[1..], j);
      assert q == [q[0]] + q[1..];
    } else {
      i := 0;
      JoinsFirst(p, q);
    }
  }

  lemma SameFirst(p: seq<string>, q: seq<string>)
    requires |p| > 1 && |q| > 1 && AllTrimmed(p) && AllUnbroken(p)
    requires EndTrimmed(q[0]) && AllTrimmed(q[1..]) && Joined(p) == Joined(q) && |q[0]| <= |p[0]|
    ensures q[0] == p[0] && Joined(q[1..]) == Joined(p[1..])
  {
    var s := Joined(p);
    assert s[..|p[0]|] == p[0] && s[|p[0]| + 1..] == Joined(p[1..]);
    assert s[..|q[0]|] == q[0] && s[|q[0]| + 1..] == Joined(q[1..]);
    if |q[0]| < |p[0]| { CutIsCleanBreak(p[0], q[0], q[1..], s); }
  }

  lemma JoinsFirst(p: seq<string>, q: seq<string>)
    requires |q| + 1 == |p| && |q| > 1 && AllTrimmed(p) && AllUnbroken(p)
    requires EndTrimmed(q[0]) && AllTrimmed(q[1..]) && Joined(p) == Joined(q) && |q[0]| > |p[0]|
    ensures q == Merged(p, 0)
  {
    var r := Overhang(p[0], Joined(p[1..]), q[0], Joined(q[1..]));
    var q' := [r] + q[1..];
    assert q'[1..] == q[1..];
    JoinedTail(r, q[1..]);
    hide Joined, Unbroken;
    CutsNoFiner(p[1..], q');
    assert p[1..] == q' && p[1] == r && p[2..] == q[1..];
    assert q == [q[0]] + q[1..];
  }

  /** An FAQ with a single clean break, between two words, has a rival exactly when the break is in the
      title, the question, the answer or the keywords, or another of the last three fields is there to
      take a line: its keywords, or its category beside the intention, its intention beside the category. */
  lemma OnlyBreakExactly(c: Content, field: nat, x: string, y: string)
    requires Importable(c) && field < 6 && Parts(c)[field] == x + "\n" + y && BetweenWords(x, y)
    requires AllUnbroken(Pieces(c, field, x, y))
    ensures Rivals(c) != {} <==> Movable(c, field)
  {
    hide Joined, Unbroken, Trimmed;
    if Movable(c, field) {
      BreakHasRival(c, field, x, y);
    } else {
      forall c' ensures c' !in Rivals(c) {
        RivalsExactly(c);
        if Importable(c') && Payload(c') == Payload(c) { ImmovableIsAlone(c, field, x, y, c'); }
      }
    }
  }

  lemma ImmovableIsAlone(c: Content, field: nat, x: string, y: string, c': Content)
    requires Importable(c) && field < 6 && Parts(c)[field] == x + "\n" + y && BetweenWords(x, y)
    requires AllUnbroken(Pieces(c, field, x, y)) && !Movable(c, field) && Importable(c') && Payload(c') == Payload(c)
    ensures c' == c
  {
    hide Joined, Unbroken;
    var p := Pieces(c, field, x, y);
    PiecesTrimmed(c, field, x, y);
    MergedJoins(p, field);
    var i := CutsOneCoarser(p, Parts(c'));
    MergedTrimmed(p, i);
    assert Parts(c')[1] == c'.faq && Parts(c')[2] == c'.response;
    assert i == field by {
      assert Merged(p, i)[2] != "" && p[i] != "" && p[i + 1] != "";
    }
    SameParts(c, c');
  }

  /** The line that follows a break in a question may begin the answer instead exactly when the break
      stands between two words. */
  lemma MovedBreakExactly(c: Content, x: string, y: string)
    requires Importable(c) && c.faq == x + "\n" + y
    ensures c.(faq := x, response := y + "\n" + c.response) in Rivals(c) <==> BetweenWords(x, y)
  {
    var c' := c.(faq := x, response := y + "\n" + c.response);
    assert Parts(c)[1] == c.faq && Parts(c)[2] == c.response;
    assert Merged(Pieces(c, 1, x, y), 2) == Parts(c');
    assert c.faq[0] == if x == "" then '\n' else x[0];
    assert c.faq[|c.faq| - 1] == if y == "" then '\n' else y[|y| - 1];
    if BetweenWords(x, y) {
      BreakHasRival(c, 1, x, y);
    }
    if c' in Rivals(c) {
      RivalsExactly(c);
      assert Parts(c')[1] == x && Parts(c')[2] == y + "\n" + c.response;
      assert (y + "\n" + c.response)[0] == y[0];
    }
  }

  // ---------- The index ----------

  /** The index's kernel for FAQs: the hash is a collision-free digest of the payload. */
  ghost predicate Hashes(k: Kernel<Content>, digest: string -> string) {
    && (forall c: Content :: k.hash(c) == digest(Payload(c)) && k.text(c) == Text(c))
    && (forall s, s' | digest(s) == digest(s') :: s == s')
  }

  /** The FAQ index is truthful in every interleaving exactly when rivals that may both be imported
      have the same vector. */
  lemma FaqIndexTruthfulExactly(k: Kernel<Content>, digest: string -> string, model: string, contents: iset<Content>)
    requires Hashes(k, digest) && k.maxRetries > 0 && forall c | c in contents :: Importable(c)
    ensures AlwaysTruthful(k, model, contents) <==>
            forall c, c' | c in contents && c' in contents && c' in Rivals(c) :: k.encode(model, Text(c)) == k.encode(model, Text(c'))
  {
    hide Importable, Rivals, Payload, Text, AlwaysTruthful;
    TruthfulExactly(k, model, contents);
    forall c, c' | c in contents && c' in contents
      ensures k.hash(c) == k.hash(c') <==> c == c' || c' in Rivals(c)
    {
      RivalsExactly(c);
      assert k.hash(c) == digest(Payload(c)) && k.hash(c') == digest(Payload(c'));
    }
    assert forall c :: k.text(c) == Text(c);
  }

  /** Without clean breaks in their fields all FAQs may be imported together. */
  lemma UnbrokenIndexIsTruthful(k: Kernel<Content>, digest: string -> string, model: string, contents: iset<Content>)
    requires Hashes(k, digest) && k.maxRetries > 0
    requires forall c | c in contents :: Importable(c) && AllUnbroken(Parts(c))
    ensures AlwaysTruthful(k, model, contents)
  {
    hide Importable, Rivals, Payload, Text, AlwaysTruthful, AllUnbroken;
    forall c, c' | c in contents && c' in contents ensures c' !in Rivals(c) {
      RivalsExactly(c);
      if Payload(c') == Payload(c) { UnbrokenIsUnique(c, c'); }
    }
    FaqIndexTruthfulExactly(k, digest, model, contents);
  }

  /** Any FAQ with such a break between two words misleads an index that may also hold the FAQ which
      reads the break otherwise, if their vectors differ. */
  lemma LineBreaksMislead(k: Kernel<Content>, digest: string -> string, model: string, contents: iset<Content>,
                          c: Content, field: nat, x: string, y: string)
    requires Hashes(k, digest) && k.maxRetries > 0 && forall c | c in contents :: Importable(c)
    requires field < 6 && Parts(c)[field] == x + "\n" + y && BetweenWords(x, y) && Movable(c, field)
    requires c in contents && ReadOtherwise(c, field, x, y, JoinAt(c, field)) in contents
    requires k.encode(model, Text(c)) != k.encode(model, Text(ReadOtherwise(c, field, x, y, JoinAt(c, field))))
    ensures !AlwaysTruthful(k, model, contents)
  {
    hide Importable, Rivals, Payload, Text, AlwaysTruthful, ReadOtherwise, BetweenWords, Movable;
    BreakHasRival(c, field, x, y);
    FaqIndexTruthfulExactly(k, digest, model, contents);
  }
}
