/** The evaluation cache: a map in memory, and a file of JSON lines it appends to and is loaded from. */
module EvalCache {
  import opened Json
  import opened Planner

  type Item = map<string, Json>
  datatype Line = Blank | Entry(item: Item)

  function KeyOf(item: Item): Json {
    Get(Obj(item), "key")
  }

  predicate Hashable(key: Json) {
    !key.Arr? && !key.Obj?
  }

  /** What loading a file yields: later lines win, items whose key is no string are passed over. */
  function Replay(file: seq<Line>): map<Json, Item> {
    if file == [] then map[]
    else
      var last := file[|file| - 1];
      var before := Replay(file[..|file| - 1]);
      if last.Entry? && KeyOf(last.item).Str? then before[KeyOf(last.item) := last.item] else before
  }

  /** A key is found with the item of its last line, and only if there is one. */
  lemma {:induction false} LaterLinesWin(file: seq<Line>, key: string)
    ensures Str(key) in Replay(file) <==> exists i :: 0 <= i < |file| && Holds(file[i], key)
    ensures forall i | 0 <= i < |file| && Holds(file[i], key) && (forall j | i < j < |file| :: !Holds(file[j], key)) ::
              Str(key) in Replay(file) && Replay(file)[Str(key)] == file[i].item
    decreases |file|
  {
    if file != [] {
      var n := |file| - 1;
      LaterLinesWin(file[..n], key);
      assert forall j | 0 <= j < n :: file[..n][j] == file[j];
    }
  }

  predicate Holds(line: Line, key: string) {
    line.Entry? && Get(Obj(line.item), "key") == Str(key)
  }

  datatype Cached = Cached(items: map<Json, Item>, file: seq<Line>)

  /** `put`: the first item of a key stays. An item without a key, or with one that cannot be a
      dictionary key, raises and changes nothing. */
  function AfterPut(c: Cached, item: Item): Cached {
    if "key" !in item || !Hashable(item["key"]) || item["key"] in c.items then c
    else Cached(c.items[item["key"] := item], c.file + [Entry(item)])
  }

  function AfterPuts(c: Cached, puts: seq<Item>): Cached {
    if puts == [] then c else AfterPut(AfterPuts(c, puts[..|puts| - 1]), puts[|puts| - 1])
  }

  /** The part of the map that survives a reload. */
  function TextKeys(items: map<Json, Item>): map<Json, Item> {
    map key | key in items && key.Str? :: items[key]
  }

  /** An item that can be stored under a key that is no string. */
  predicate OddKey(item: Item) {
    "key" in item && Hashable(item["key"]) && !item["key"].Str?
  }

  lemma {:induction false} ReplayKeys(file: seq<Line>, key: Json)
    ensures key in Replay(file) ==> key.Str? && KeyOf(Replay(file)[key]) == key
  {
    if file != [] { ReplayKeys(file[..|file| - 1], key); }
  }

  /** What the cache keeps true: its text-keyed part is a replay of its file. */
  ghost predicate Mirrors(c: Cached) {
    TextKeys(c.items) == Replay(c.file)
  }

  lemma PutMirrors(c: Cached, item: Item)
    requires Mirrors(c)
    ensures Mirrors(AfterPut(c, item)) && c.file <= AfterPut(c, item).file
  {
  }

  /** Keys that are no strings come from puts only. */
  ghost predicate OddOnesPut(c: Cached, puts: seq<Item>) {
    forall key | key in c.items && !key.Str? :: OddKey(c.items[key]) && c.items[key] in puts
  }

  lemma {:induction false} PutsReplay(file: seq<Line>, puts: seq<Item>)
    ensures var c := AfterPuts(Cached(Replay(file), file), puts);
            Mirrors(c) && file <= c.file && OddOnesPut(c, puts)
  {
    var start := Cached(Replay(file), file);
    if puts == [] {
      forall key | key in start.items ensures key.Str? { ReplayKeys(file, key); }
      assert TextKeys(start.items) == start.items;
    } else {
      var before := puts[..|puts| - 1];
      PutsReplay(file, before);
      PutMirrors(AfterPuts(start, before), puts[|puts| - 1]);
      assert forall x | x in before :: x in puts;
    }
  }

  lemma {:induction false} OddKeysStay(c: Cached, puts: seq<Item>, i: nat)
    requires i < |puts| && OddKey(puts[i])
    ensures puts[i]["key"] in AfterPuts(c, puts).items
  {
    if i < |puts| - 1 {
      assert puts[..|puts| - 1][i] == puts[i];
      OddKeysStay(c, puts[..|puts| - 1], i);
    }
  }

  /** After any puts the map equals a replay of its file exactly when no item was put under a key
      that JSON keeps but loading does not accept. */
  lemma CacheIsItsFileExactly(file: seq<Line>, puts: seq<Item>)
    ensures var c := AfterPuts(Cached(Replay(file), file), puts);
            c.items == Replay(c.file) <==> forall i | 0 <= i < |puts| :: !OddKey(puts[i])
  {
    var c := AfterPuts(Cached(Replay(file), file), puts);
    PutsReplay(file, puts);
    if forall i | 0 <= i < |puts| :: !OddKey(puts[i]) {
      forall key | key in c.items ensures key.Str? {
        if c.items[key] in puts {
          var i :| 0 <= i < |puts| && puts[i] == c.items[key];
          assert !OddKey(puts[i]);
        }
      }
      assert TextKeys(c.items) == c.items;
    } else {
      var i :| 0 <= i < |puts| && OddKey(puts[i]);
      OddKeysStay(Cached(Replay(file), file), puts, i);
      ReplayKeys(c.file, puts[i]["key"]);
    }
  }

  class Cache {
    var items: map<Json, Item>
    var file: seq<Line>
    var read_count: nat
    var write_count: nat

    function ToCached(): Cached
      reads this
    {
      Cached(items, file)
    }

    /** `_load`. */
    constructor (lines: seq<Line>)
      ensures ToCached() == Cached(Replay(lines), lines) && read_count == write_count == 0
    {
      items, file, read_count, write_count := map[], lines, 0, 0;
      new;
      var i := 0;
      while i < |lines|
        invariant 0 <= i <= |lines| && file == lines && read_count == write_count == 0
        invariant items == Replay(lines[..i])
      {
        assert lines[..i + 1][..i] == lines[..i];
        if lines[i].Entry? {
          var key := KeyOf(lines[i].item);
          if key.Str? { items := items[key := lines[i].item]; }
        }
        i := i + 1;
      }
      assert lines[..i] == lines;
    }

    method Find(key: string) returns (item: Option<Item>)
      modifies this`read_count
      ensures item == if Str(key) in items then Some(items[Str(key)]) else None
      ensures read_count == old(read_count) + if item.Some? && item.value != map[] then 1 else 0
    {
      if Str(key) !in items { return None; }
      item := Some(items[Str(key)]);
      if item.value != map[] { read_count := read_count + 1; }
    }

    method Put(item: Item) returns (stored: Outcome<bool>)
      modifies this`items, this`file, this`write_count
      ensures ToCached() == AfterPut(old(ToCached()), item)
      ensures stored.Raise? <==> "key" !in item || !Hashable(item["key"])
      ensures stored.Ok? ==> stored.value == (item["key"] !in old(items)) && item["key"] in items
      ensures write_count - old(write_count) == |file| - |old(file)|
      ensures stored == Ok(true) ==> file == old(file) + [Entry(item)] && items == old(items)[item["key"] := item]
      ensures stored != Ok(true) ==> file == old(file) && items == old(items)
    {
      if "key" !in item { return Raise("key"); }
      var key := item["key"];
      if !Hashable(key) { return Raise("unhashable key"); }
      if key in items { return Ok(false); }
      file := file + [Entry(item)];
      items := items[key := item];
      write_count := write_count + 1;
      return Ok(true);
    }
  }
}
