/** Version counters kept by content hash: FAQs, skills and MCP connections count a version up
    exactly when a write changes the stored hash. */
module Versions {
  import opened Json

  datatype Versioned = Versioned(hash: string, version: nat)

  /** The `version = CASE WHEN hash changed THEN version + 1 ELSE version END` of every upsert. */
  function Written(stored: Option<Versioned>, hash: string): Versioned {
    match stored
    case None => Versioned(hash, 1)
    case Some(v) => Versioned(hash, if v.hash != hash then v.version + 1 else v.version)
  }

  /** The stored state after each of a series of writes. */
  function After(stored: Option<Versioned>, hashes: seq<string>): Option<Versioned> {
    if hashes == [] then stored
    else Some(Written(After(stored, hashes[..|hashes| - 1]), hashes[|hashes| - 1]))
  }

  /** How often consecutive elements differ. */
  function Changes(hashes: seq<string>): nat {
    if |hashes| < 2 then 0
    else Changes(hashes[..|hashes| - 1]) + if hashes[|hashes| - 2] != hashes[|hashes| - 1] then 1 else 0
  }

  /** A later state of the same row: its version did not go down, and an equal version means an
      unchanged hash. */
  predicate Evolves(a: Versioned, b: Versioned) {
    a.version <= b.version && (a.version == b.version ==> a.hash == b.hash)
  }

  /** The counter counts: after any writes to a new row the version is one more than the number of
      writes that changed the hash. */
  lemma {:induction false} VersionCountsChanges(hashes: seq<string>)
    requires hashes != []
    ensures After(None, hashes) == Some(Versioned(hashes[|hashes| - 1], 1 + Changes(hashes)))
  {
    var before := hashes[..|hashes| - 1];
    if before != [] {
      VersionCountsChanges(before);
      assert before[|before| - 1] == hashes[|hashes| - 2];
    }
  }

  /** Over any history of one row, the states after `i` and after `j` writes: versions never go
      down, rise by at most one per write, and only one hash goes with a version. */
  lemma {:induction false} VersionsAreFaithful(stored: Option<Versioned>, hashes: seq<string>, i: nat, j: nat)
    requires i <= j <= |hashes| && After(stored, hashes[..i]).Some?
    ensures After(stored, hashes[..j]).Some?
    ensures var a, b := After(stored, hashes[..i]).value, After(stored, hashes[..j]).value;
            Evolves(a, b) && b.version <= a.version + (j - i)
    decreases j
  {
    if i < j {
      VersionsAreFaithful(stored, hashes, i, j - 1);
      assert hashes[..j][..j - 1] == hashes[..j - 1];
    }
  }

  // ---------- MCP connections ----------

  datatype Connection = Connection(name: string, status: string, transport: string, config: Json, config_version: nat, config_hash: string)

  class Connections {
    var rows: map<string, Connection>

    constructor ()
      ensures rows == map[]
    {
      rows := map[];
    }

    function Stored(id: string): Option<Versioned>
      reads this
    {
      if id in rows then Some(Versioned(rows[id].config_hash, rows[id].config_version)) else None
    }

    /** `upsert_mcp_connection`, for a request whose configuration hashes to `hash`. */
    method Upsert(id: string, name: string, status: string, transport: string, config: Json, hash: string) returns (row: Connection)
      modifies this
      ensures Stored(id) == Some(Written(old(Stored(id)), hash))
      ensures rows == old(rows)[id := row]
      ensures (row.name, row.status, row.transport, row.config) == (name, status, transport, config)
    {
      var version := 1;
      if id in rows {
        version := if rows[id].config_hash == hash then rows[id].config_version else rows[id].config_version + 1;
      }
      row := Connection(name, status, transport, config, version, hash);
      rows := rows[id := row];
    }
  }
}
