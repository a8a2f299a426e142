/** The skill index: a skill's hash covers every field its embedding text is built from. */
module SkillIndex {
  import opened Json
  import opened EmbeddingIndex
  import FaqHash
  import ConfiguredPlanner

  type Skill = map<string, Json>

  const HASHED := {"name", "title", "description", "content", "product_id", "domain", "skill_type", "source", "priority", "trigger_rules"}

  /** What `skill_content_hash` digests; a missing field counts as null. */
  function Hashed(skill: Skill): Json {
    Obj(map key | key in HASHED :: Get(Obj(skill), key))
  }

  /** `str(value or "")`, stripped. */
  function Field(show: Json -> string, skill: Skill, key: string): string {
    ConfiguredPlanner.Strip(ConfiguredPlanner.PyStr(show, ConfiguredPlanner.Or(Get(Obj(skill), key), Str(""))))
  }

  /** Rules arrive as an object, or as the JSON text a file import hashes; the database keeps the object. */
  function Rules(parse: string -> Json, skill: Skill): Json {
    var rules := Get(Obj(skill), "trigger_rules");
    if rules.Str? then parse(rules.text) else rules
  }

  function Listed(show: Json -> string, items: seq<Json>): string {
    if items == [] then ""
    else if |items| == 1 then ConfiguredPlanner.PyStr(show, items[0])
    else ConfiguredPlanner.PyStr(show, items[0]) + "；" + Listed(show, items[1..])
  }

  /** The labelled lines of a skill's embedding text. */
  function TextLines(show: Json -> string, parse: string -> Json, skill: Skill): seq<string> {
    var domain := Get(Obj(skill), "domain");
    var examples := Get(Rules(parse, skill), "trigger_examples");
    ["标题：" + Field(show, skill, "title"), "描述：" + Field(show, skill, "description")]
    + (if Truthy(domain) then ["领域：" + ConfiguredPlanner.PyStr(show, domain)] else [])
    + if examples.Arr? && examples.items != [] then ["触发示例：" + Listed(show, examples.items)] else []
  }

  /** `build_skill_embedding_text`. */
  function Text(show: Json -> string, parse: string -> Json, skill: Skill): string {
    FaqHash.Joined(TextLines(show, parse, skill))
  }

  /** The hash covers these ten fields and no other. */
  lemma HashedExactly(a: Skill, b: Skill)
    ensures Hashed(a) == Hashed(b) <==>
            forall key | key in {"name", "title", "description", "content", "product_id", "domain", "skill_type", "source", "priority", "trigger_rules"} ::
              Get(Obj(a), key) == Get(Obj(b), key)
  {
    hide Get;
    if Hashed(a) == Hashed(b) {
      forall key | key in HASHED ensures Get(Obj(a), key) == Get(Obj(b), key) {
        assert Hashed(a).fields[key] == Hashed(b).fields[key];
      }
    }
    if forall key | key in HASHED :: Get(Obj(a), key) == Get(Obj(b), key) {
      assert Hashed(a) == Hashed(b);
    }
  }

  /** Every example is shown, in order. */
  lemma {:induction false} ListedConcat(show: Json -> string, a: seq<Json>, b: seq<Json>)
    ensures a != [] && b != [] ==> Listed(show, a + b) == Listed(show, a) + "；" + Listed(show, b)
    ensures |a| == 1 ==> Listed(show, a) == ConfiguredPlanner.PyStr(show, a[0])
    decreases |a|
  {
    if a != [] && b != [] {
      assert (a + b)[1..] == a[1..] + b;
      if |a| > 1 { ListedConcat(show, a[1..], b); } else { assert a[1..] + b == b; }
    }
  }

  /** The domain and the examples a text can show. */
  function ShownDomain(show: Json -> string, skill: Skill): Option<string> {
    var domain := Get(Obj(skill), "domain");
    if !Truthy(domain) then None else Some(ConfiguredPlanner.PyStr(show, domain))
  }

  function ShownExamples(show: Json -> string, parse: string -> Json, skill: Skill): Option<string> {
    match Get(Rules(parse, skill), "trigger_examples")
    case Arr(items) => if items == [] then None else Some(Listed(show, items))
    case _ => None
  }

  /** Skills shown on single lines have the same embedding text exactly when they agree on the four
      things it shows: title, description, domain and examples. */
  lemma TextTellsExactly(show: Json -> string, parse: string -> Json, a: Skill, b: Skill)
    requires FaqHash.OneLine(TextLines(show, parse, a)) && FaqHash.OneLine(TextLines(show, parse, b))
    ensures Text(show, parse, a) == Text(show, parse, b) <==>
            && Field(show, a, "title") == Field(show, b, "title") && Field(show, a, "description") == Field(show, b, "description")
            && ShownDomain(show, a) == ShownDomain(show, b) && ShownExamples(show, parse, a) == ShownExamples(show, parse, b)
  {
    var l, l' := TextLines(show, parse, a), TextLines(show, parse, b);
    LinesOf(show, parse, a); LinesOf(show, parse, b);
    hide TextLines, ShownDomain, ShownExamples, FaqHash.Joined, FaqHash.OneLine, Field;
    if Text(show, parse, a) == Text(show, parse, b) {
      FaqHash.JoinedLines(l); FaqHash.JoinedLines(l');
      FaqHash.NoLinesMeansOneLine(l); FaqHash.NoLinesMeansOneLine(l');
      FaqHash.JoinedApart(l, l');
      LabelsTell(Field(show, a, "title"), Field(show, a, "description"), ShownDomain(show, a), ShownExamples(show, parse, a),
                 Field(show, b, "title"), Field(show, b, "description"), ShownDomain(show, b), ShownExamples(show, parse, b));
    }
  }

  function Lines(title: string, description: string, domain: Option<string>, examples: Option<string>): seq<string> {
    ["标题：" + title, "描述：" + description]
    + (if domain.Some? then ["领域：" + domain.value] else [])
    + if examples.Some? then ["触发示例：" + examples.value] else []
  }

  lemma LinesOf(show: Json -> string, parse: string -> Json, skill: Skill)
    ensures TextLines(show, parse, skill) == Lines(Field(show, skill, "title"), Field(show, skill, "description"), ShownDomain(show, skill), ShownExamples(show, parse, skill))
    ensures TextLines(show, parse, skill) != []
  {
    hide Field, Listed;
  }

  lemma LabelsTell(t: string, d: string, o: Option<string>, e: Option<string>, t': string, d': string, o': Option<string>, e': Option<string>)
    requires Lines(t, d, o, e) == Lines(t', d', o', e')
    ensures t == t' && d == d' && o == o' && e == e'
  {
    var l, l' := Lines(t, d, o, e), Lines(t', d', o', e');
    assert l[0][3..] == t && l'[0][3..] == t' && l[1][3..] == d && l'[1][3..] == d';
    if |l| > 2 {
      assert l[2][0] == l'[2][0] && (o.Some? <==> o'.Some?);
      if o.Some? { assert l[2][3..] == o.value && l'[2][3..] == o'.value; }
      var n := |l| - 1;
      if e.Some? { assert l[n][5..] == e.value && l'[n][5..] == e'.value; }
    }
  }

  lemma HashedDecidesText(show: Json -> string, parse: string -> Json, a: Skill, b: Skill)
    requires Hashed(a) == Hashed(b)
    ensures Text(show, parse, a) == Text(show, parse, b)
  {
    forall key | key in HASHED ensures Get(Obj(a), key) == Get(Obj(b), key) {
      assert Hashed(a).fields[key] == Hashed(b).fields[key];
    }
  }

  /** With a collision-free digest the skill index is truthful in every interleaving, for all skills. */
  lemma SkillIndexIsTruthful(k: Kernel<Skill>, digest: Json -> string, show: Json -> string, parse: string -> Json,
                             model: string, skills: iset<Skill>)
    requires k.maxRetries > 0 && forall s: Skill :: k.hash(s) == digest(Hashed(s)) && k.text(s) == Text(show, parse, s)
    requires forall a, b | digest(a) == digest(b) :: a == b
    ensures AlwaysTruthful(k, model, skills)
  {
    hide Text, Hashed, AlwaysTruthful;
    forall a, b | a in skills && b in skills && k.hash(a) == k.hash(b)
      ensures k.encode(model, k.text(a)) == k.encode(model, k.text(b))
    {
      assert k.hash(a) == digest(Hashed(a)) && k.hash(b) == digest(Hashed(b));
      HashedDecidesText(show, parse, a, b);
      assert k.text(a) == Text(show, parse, a) && k.text(b) == Text(show, parse, b);
    }
    TruthfulExactly(k, model, skills);
  }
}
