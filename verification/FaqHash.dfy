/** The content hash of an FAQ is a digest of its parts joined by newlines. What the join can tell
    apart decides what the embedding index can promise. */
module FaqHash {
  import opened Json
  import opened Planner
  import opened EmbeddingIndex
  import ConfiguredPlanner

  /** A knowledge row as parsed; a missing field is `None`. */
  datatype FaqRow = FaqRow(id: int, title: Option<string>, faq: Option<string>, response: Option<string>,
                           keywords: Option<string>, intention: Option<string>, category: Option<string>)

  /** An FAQ's text fields; a missing optional field is the empty string. */
  datatype Content = Content(title: string, faq: string, response: string, keywords: string, intention: string, category: string)

  /** `build_embedding_text`. */
  function Text(c: Content): string {
    (if c.title != "" then "标题：" + c.title + "\n" else "")
    + "问题：" + c.faq + "\n"
    + (if c.keywords != "" then "关键词：" + c.keywords + "\n" else "")
    + "回答：" + c.response
  }

  /** `clean`, with the empty string for a missing or blank value. */
  function Clean(value: Option<string>): string {
    if value.None? then "" else ConfiguredPlanner.Strip(value.value)
  }

  predicate HasText(row: FaqRow) {
    Clean(row.faq) != "" && Clean(row.response) != ""
  }

  function ContentOf(row: FaqRow): Content {
    Content(Clean(row.title), Clean(row.faq), Clean(row.response), Clean(row.keywords), Clean(row.intention), Clean(row.category))
  }

  function Parts(c: Content): seq<string> {
    [c.title, c.faq, c.response, c.keywords, c.intention, c.category]
  }

  /** `"\n".join(parts)`. */
  function Joined(parts: seq<string>): string {
    if parts == [] then ""
    else if |parts| == 1 then parts[0]
    else parts[0] + "\n" + Joined(parts[1..])
  }

  function Payload(c: Content): string {
    Joined(Parts(c))
  }

  /** `faq_hash`: a row without question or answer text has no hash. */
  function FaqHash(digest: string -> string, row: FaqRow): Outcome<string> {
    if Clean(row.faq) == "" then Raise("missing required field FAQ")
    else if Clean(row.response) == "" then Raise("missing required field Response")
    else Ok(digest(Payload(ContentOf(row))))
  }

  // ---------- Which contents there are ----------

  /** No blank at either end. */
  predicate Trimmed(s: string) {
    s == "" || (!ConfiguredPlanner.Blank(s[0]) && !ConfiguredPlanner.Blank(s[|s| - 1]))
  }

  predicate AllTrimmed(parts: seq<string>) {
    forall i | 0 <= i < |parts| :: Trimmed(parts[i])
  }

  /** What an imported row can hold: stripped fields, with a question and an answer. */
  predicate Importable(c: Content) {
    AllTrimmed(Parts(c)) && c.faq != "" && c.response != ""
  }

  lemma {:induction false} StripTrims(s: string)
    ensures Trimmed(ConfiguredPlanner.Strip(s)) && |ConfiguredPlanner.Strip(s)| <= |s|
    ensures ConfiguredPlanner.Strip(s) == s <==> Trimmed(s)
    decreases |s|
  {
    if s != "" && ConfiguredPlanner.Blank(s[0]) {
      StripTrims(s[1..]);
    } else if s != "" && ConfiguredPlanner.Blank(s[|s| - 1]) {
      StripTrims(s[..|s| - 1]);
    }
  }

  /** Importable contents are exactly those of rows with text. */
  lemma ImportableExactly(c: Content)
    ensures Importable(c) <==> exists row: FaqRow :: HasText(row) && ContentOf(row) == c
  {
    hide ConfiguredPlanner.Strip, Trimmed;
    if Importable(c) {
      var row := FaqRow(0, Some(c.title), Some(c.faq), Some(c.response), Some(c.keywords), Some(c.intention), Some(c.category));
      assert Parts(c)[0] == c.title && Parts(c)[1] == c.faq && Parts(c)[2] == c.response;
      assert Parts(c)[3] == c.keywords && Parts(c)[4] == c.intention && Parts(c)[5] == c.category;
      StripTrims(c.title); StripTrims(c.faq); StripTrims(c.response);
      StripTrims(c.keywords); StripTrims(c.intention); StripTrims(c.category);
      assert HasText(row) && ContentOf(row) == c;
    }
    if exists row: FaqRow :: HasText(row) && ContentOf(row) == c {
      var row: FaqRow :| HasText(row) && ContentOf(row) == c;
      RowsAreImportable(row);
    }
  }

  lemma RowsAreImportable(row: FaqRow)
    ensures HasText(row) ==> Importable(ContentOf(row))
  {
    hide ConfiguredPlanner.Strip, Trimmed, Clean;
    CleanTrims(row.title); CleanTrims(row.faq); CleanTrims(row.response);
    CleanTrims(row.keywords); CleanTrims(row.intention); CleanTrims(row.category);
  }

  lemma CleanTrims(value: Option<string>)
    ensures Trimmed(Clean(value))
  {
    if value.Some? { StripTrims(value.value); }
  }

  // ---------- Single lines ----------

  function Lines(s: string): nat {
    if s == "" then 0 else Lines(s[1..]) + if s[0] == '\n' then 1 else 0
  }

  predicate OneLine(parts: seq<string>) {
    forall i | 0 <= i < |parts| :: Lines(parts[i]) == 0
  }

  lemma {:induction false} LinesConcat(s: string, t: string)
    ensures Lines(s + t) == Lines(s) + Lines(t)
  {
    if s == "" {
      assert s + t == t;
    } else {
      assert (s + t)[1..] == s[1..] + t;
      LinesConcat(s[1..], t);
    }
  }

  function TotalLines(parts: seq<string>): nat {
    if parts == [] then 0 else Lines(parts[0]) + TotalLines(parts[1..])
  }

  lemma {:induction false} JoinedLines(parts: seq<string>)
    requires parts != []
    ensures Lines(Joined(parts)) == TotalLines(parts) + |parts| - 1
  {
    if |parts| > 1 {
      JoinedLines(parts[1..]);
      LinesConcat(parts[0] + "\n", Joined(parts[1..]));
      LinesConcat(parts[0], "\n");
    } else {
      assert TotalLines(parts[1..]) == 0;
    }
  }

  lemma {:induction false} NoLinesMeansOneLine(parts: seq<string>)
    ensures TotalLines(parts) == 0 <==> OneLine(parts)
  {
    if parts != [] {
      NoLinesMeansOneLine(parts[1..]);
      assert forall i | 1 <= i < |parts| :: parts[i] == parts[1..][i - 1];
      if OneLine(parts) { assert Lines(parts[0]) == 0; }
    }
  }

  /** Where the first newline of `s + "\n" + …` is, when `s` has none. */
  lemma {:induction false} FirstNewline(s: string, t: string, s': string, t': string)
    requires Lines(s) == 0 && Lines(s') == 0 && s + "\n" + t == s' + "\n" + t'
    ensures s == s' && t == t'
  {
    var whole, whole' := s + "\n" + t, s' + "\n" + t';
    if s == "" || s' == "" {
      assert whole[0] == whole'[0];
      assert s == s' == "";
      assert t == whole[1..] && t' == whole'[1..];
    } else {
      assert whole[0] == s[0] && whole'[0] == s'[0];
      assert s[1..] + "\n" + t == whole[1..] == s'[1..] + "\n" + t';
      FirstNewline(s[1..], t, s'[1..], t');
    }
  }

  lemma {:induction false} JoinedApart(parts: seq<string>, parts': seq<string>)
    requires |parts| == |parts'| && OneLine(parts) && OneLine(parts') && Joined(parts) == Joined(parts')
    ensures parts == parts'
  {
    if |parts| > 1 {
      FirstNewline(parts[0], Joined(parts[1..]), parts'[0], Joined(parts'[1..]));
      JoinedApart(parts[1..], parts'[1..]);
      assert parts == [parts[0]] + parts[1..];
    }
  }

  lemma SameParts(c: Content, c': Content)
    requires Parts(c) == Parts(c')
    ensures c == c'
  {
    assert Parts(c)[0] == Parts(c')[0] && Parts(c)[1] == Parts(c')[1] && Parts(c)[2] == Parts(c')[2];
    assert Parts(c)[3] == Parts(c')[3] && Parts(c)[4] == Parts(c')[4] && Parts(c)[5] == Parts(c')[5];
  }

  /** The payload lists the six fields in this order. */
  lemma PayloadInOrder(c: Content)
    ensures Payload(c) == c.title + "\n" + c.faq + "\n" + c.response + "\n" + c.keywords + "\n" + c.intention + "\n" + c.category
  {
    hide Joined;
    OneJoined(c.category);
    JoinedTail(c.intention, [c.category]);
    JoinedTail(c.keywords, [c.intention, c.category]);
    JoinedTail(c.response, [c.keywords, c.intention, c.category]);
    JoinedTail(c.faq, [c.response, c.keywords, c.intention, c.category]);
    JoinedTail(c.title, [c.faq, c.response, c.keywords, c.intention, c.category]);
    assert Parts(c) == [c.title] + [c.faq, c.response, c.keywords, c.intention, c.category];
    assert [c.faq] + [c.response, c.keywords, c.intention, c.category] == [c.faq, c.response, c.keywords, c.intention, c.category];
    assert [c.response] + [c.keywords, c.intention, c.category] == [c.response, c.keywords, c.intention, c.category];
    assert [c.keywords] + [c.intention, c.category] == [c.keywords, c.intention, c.category];
    assert [c.intention] + [c.category] == [c.intention, c.category];
  }

  /** An FAQ whose fields are single lines shares its payload with no other content of any kind. */
  lemma OneLineIsUnique(c: Content, c': Content)
    requires OneLine(Parts(c)) && Payload(c') == Payload(c)
    ensures c' == c
  {
    JoinedLines(Parts(c)); JoinedLines(Parts(c'));
    NoLinesMeansOneLine(Parts(c)); NoLinesMeansOneLine(Parts(c'));
    JoinedApart(Parts(c), Parts(c'));
    SameParts(c, c');
  }

  /** The labelled lines an embedding text is made of. */
  function TextLines(c: Content): seq<string> {
    (if c.title == "" then [] else ["标题：" + c.title])
    + ["问题：" + c.faq]
    + (if c.keywords == "" then [] else ["关键词：" + c.keywords])
    + ["回答：" + c.response]
  }

  lemma TextIsJoined(c: Content)
    ensures Text(c) == Joined(TextLines(c))
  {
    var answered := "回答：" + c.response;
    var rest := (if c.keywords == "" then [] else ["关键词：" + c.keywords]) + [answered];
    assert Joined(rest) == (if c.keywords == "" then "" else "关键词：" + c.keywords + "\n") + answered by {
      Headed(c.keywords, "关键词：", [answered]);
      OneJoined(answered);
    }
    Asked(c, rest);
  }

  lemma Asked(c: Content, rest: seq<string>)
    requires rest == (if c.keywords == "" then [] else ["关键词：" + c.keywords]) + ["回答：" + c.response]
    requires Joined(rest) == (if c.keywords == "" then "" else "关键词：" + c.keywords + "\n") + "回答：" + c.response
    ensures Text(c) == Joined(TextLines(c))
  {
    hide Joined;
    var asked := "问题：" + c.faq;
    JoinedTail(asked, rest);
    Headed(c.title, "标题：", [asked] + rest);
    assert TextLines(c) == (if c.title == "" then [] else ["标题：" + c.title]) + ([asked] + rest);
    Regroup(if c.title != "" then "标题：" + c.title + "\n" else "", "问题：", c.faq, "\n",
            if c.keywords != "" then "关键词：" + c.keywords + "\n" else "", "回答：", c.response);
  }

  lemma Regroup(titled: string, asks: string, faq: string, end: string, keyed: string, answers: string, response: string)
    ensures titled + asks + faq + end + keyed + answers + response == titled + ((asks + faq) + end + (keyed + answers + response))
  {
  }

  lemma OneJoined(part: string)
    ensures Joined([part]) == part
  {
  }

  lemma Headed(value: string, tag: string, rest: seq<string>)
    requires rest != []
    ensures Joined((if value == "" then [] else [tag + value]) + rest) == (if value == "" then "" else tag + value + "\n") + Joined(rest)
  {
    if value == "" { assert [] + rest == rest; } else { JoinedTail(tag + value, rest); }
  }

  /** Single-line FAQs have the same embedding text exactly when they agree on title, question, keywords
      and answer: the text shows those four and nothing else. */
  lemma TextTellsExactly(c: Content, c': Content)
    requires OneLine(TextLines(c)) && OneLine(TextLines(c'))
    ensures Text(c) == Text(c') <==> c.title == c'.title && c.faq == c'.faq && c.keywords == c'.keywords && c.response == c'.response
  {
    TextIsJoined(c); TextIsJoined(c');
    if Text(c) == Text(c') {
      var l, l' := TextLines(c), TextLines(c');
      hide Text, Joined, OneLine;
      JoinedLines(l); JoinedLines(l');
      NoLinesMeansOneLine(l); NoLinesMeansOneLine(l');
      JoinedApart(l, l');
      LabelsTell(c, c');
    }
  }

  lemma LabelsTell(c: Content, c': Content)
    requires TextLines(c) == TextLines(c')
    ensures c.title == c'.title && c.faq == c'.faq && c.keywords == c'.keywords && c.response == c'.response
  {
    var l, l' := TextLines(c), TextLines(c');
    assert l[0][0] == l'[0][0] && |l| == |l'|;
    assert c.title == "" <==> c'.title == "";
    var k := if c.title == "" then 0 else 1;
    assert c.title != "" ==> l[0][3..] == c.title && l'[0][3..] == c'.title;
    assert l[k] == "问题：" + c.faq && l'[k] == "问题：" + c'.faq && l[k][3..] == c.faq && l'[k][3..] == c'.faq;
    var n := |l| - 1;
    assert l[n] == "回答：" + c.response && l'[n] == "回答：" + c'.response && l[n][3..] == c.response && l'[n][3..] == c'.response;
    if c.keywords != "" { assert l[k + 1] == "关键词：" + c.keywords && l[k + 1][4..] == c.keywords; }
    if c'.keywords != "" { assert l'[k + 1] == "关键词：" + c'.keywords && l'[k + 1][4..] == c'.keywords; }
  }

  // ---------- Breaks at which an FAQ could be read otherwise ----------

  /** Newlines from `i` to `j`, between two characters that are no blanks. */
  predicate CleanBreak(s: string, i: int, j: int) {
    && 0 < i <= j && j + 1 < |s|
    && (forall k | i <= k <= j :: s[k] == '\n')
    && !ConfiguredPlanner.Blank(s[i - 1]) && !ConfiguredPlanner.Blank(s[j + 1])
  }

  ghost predicate Unbroken(s: string) {
    forall i, j :: !CleanBreak(s, i, j)
  }

  ghost predicate AllUnbroken(parts: seq<string>) {
    forall i | 0 <= i < |parts| :: Unbroken(parts[i])
  }

  predicate EndTrimmed(s: string) {
    s == "" || !ConfiguredPlanner.Blank(s[|s| - 1])
  }

  lemma JoinedTail(part: string, rest: seq<string>)
    requires rest != []
    ensures Joined([part] + rest) == part + "\n" + Joined(rest)
  {
  }

  /** Where the run of newlines that starts at `j` ends, when what follows it is cut into trimmed parts. */
  lemma {:induction false} RunEnds(p: string, s: string, j: nat, rest: seq<string>) returns (end: nat)
    requires Trimmed(p) && j < |p| <= |s| && s[..|p|] == p && s[j] == '\n'
    requires rest != [] && AllTrimmed(rest) && s[j + 1..] == Joined(rest)
    ensures j <= end && end + 1 < |p| && !ConfiguredPlanner.Blank(p[end + 1])
    ensures forall k | j <= k <= end :: p[k] == '\n'
    decreases |rest|
  {
    assert p[j] == '\n' && j + 1 < |p|;
    assert s[j + 1..][0] == s[j + 1] == p[j + 1];
    if rest[0] != "" {
      assert Joined(rest)[0] == rest[0][0];
      end := j;
    } else {
      assert |rest| > 1;
      assert Joined(rest) == "\n" + Joined(rest[1..]);
      assert s[j + 2..] == s[j + 1..][1..];
      end := RunEnds(p, s, j + 1, rest[1..]);
    }
  }

  /** A cut inside a trimmed part is a clean break of it. */
  lemma CutIsCleanBreak(p: string, first: string, rest: seq<string>, s: string)
    requires Trimmed(p) && EndTrimmed(first) && rest != [] && AllTrimmed(rest)
    requires |first| < |p| <= |s| && s[..|p|] == p && s == first + "\n" + Joined(rest)
    ensures !Unbroken(p)
  {
    assert p[|first|] == '\n';
    assert s[|first| + 1..] == Joined(rest);
    if first != "" {
      assert p[|first| - 1] == first[|first| - 1];
      var end := RunEnds(p, s, |first|, rest);
      assert CleanBreak(p, |first|, end);
    }
  }

  /** Parts without clean breaks can be cut into no more trimmed parts, and into as many in one way. */
  lemma {:induction false} CutsNoFiner(p: seq<string>, q: seq<string>)
    requires p != [] && q != [] && AllTrimmed(p) && AllUnbroken(p)
    requires EndTrimmed(q[0]) && AllTrimmed(q[1..]) && Joined(p) == Joined(q)
    ensures |q| <= |p| && (|q| == |p| ==> q == p)
    decreases |p|
  {
    var s := Joined(p);
    assert s[..|p[0]|] == p[0];
    if |q| > 1 {
      if |q[0]| < |p[0]| {
        CutIsCleanBreak(p[0], q[0], q[1..], s);
      } else if |p| > 1 {
        var tail := Joined(p[1..]);
        assert s[|p[0]|] == '\n' && s[|p[0]| + 1..] == tail;
        if |q[0]| == |p[0]| {
          assert q[0] == s[..|q[0]|] && s[|q[0]| + 1..] == Joined(q[1..]);
          CutsNoFiner(p[1..], q[1..]);
          assert p == [p[0]] + p[1..] && q == [q[0]] + q[1..];
        } else {
          Longer(p, q);
        }
      }
    }
  }

  lemma Longer(p: seq<string>, q: seq<string>)
    requires |p| > 1 && |q| > 1 && AllTrimmed(p) && AllUnbroken(p)
    requires EndTrimmed(q[0]) && AllTrimmed(q[1..]) && Joined(p) == Joined(q) && |q[0]| > |p[0]|
    ensures |q| < |p|
    decreases |p|, 0
  {
    var r := Overhang(p[0], Joined(p[1..]), q[0], Joined(q[1..]));
    var q' := [r] + q[1..];
    assert q'[1..] == q[1..];
    JoinedTail(r, q[1..]);
    hide Joined;
    CutsNoFiner(p[1..], q');
  }

  /** The longer first part holds the shorter one, its newline, and the start of the rest. */
  lemma Overhang(a: string, tail: string, b: string, tail': string) returns (r: string)
    requires a + "\n" + tail == b + "\n" + tail' && |b| > |a|
    ensures b == a + "\n" + r && tail == r + "\n" + tail'
  {
    var s := a + "\n" + tail;
    r := b[|a| + 1..];
    assert s[..|b|] == b && s[..|a|] == a && s[|a|] == '\n' && s[|a| + 1..] == tail;
    assert b[..|a|] == a && b[|a|] == '\n';
    assert b == b[..|a|] + [b[|a|]] + b[|a| + 1..];
  }
}
