/**
 * The metrics string indexer backed by one database table: every row pairs
 * a string with an integer id, both columns unique. `bulk_record` looks the
 * strings up, inserts only the missing ones and answers with the id of each;
 * `resolve` and `reverse_resolve` read the table in either direction.
 *
 * The table is a `map<string, int>` from string to id whose ids are pairwise
 * distinct; `nextId` is the id sequence of the primary-key column.
 */
module StringIndexer {
  import opened Wrappers

  /** No two strings share an id. */
  ghost predicate Injective(table: map<string, int>)
  {
    forall s, t :: s in table && t in table && s != t ==> table[s] != table[t]
  }

  /** Adding a string under an id above every id in use keeps the table injective. */
  lemma InsertFreshKeepsInjective(table: map<string, int>, s: string, id: int)
    requires Injective(table) && s !in table
    requires forall t :: t in table ==> table[t] < id
    ensures Injective(table[s := id])
  {
  }

  /** The row holding id `id`, found by searching the string column. */
  function ReverseLookup(table: map<string, int>, id: int): (r: Option<string>)
    requires Injective(table)
    ensures r.None? <==> forall s :: s in table ==> table[s] != id
    ensures r.Some? ==> r.value in table && table[r.value] == id
  {
    if exists s :: s in table && table[s] == id then
      var s :| s in table && table[s] == id; Some(s)
    else None
  }

  /** In an injective table the reverse lookup of a string's id is that string. */
  lemma ReverseLookupInverts(table: map<string, int>, s: string)
    requires Injective(table) && s in table
    ensures ReverseLookup(table, table[s]) == Some(s)
  {
    var r := ReverseLookup(table, table[s]);
    assert r.Some?;
    assert table[r.value] == table[s];
  }

  class PGStringIndexer {
    var table: map<string, int>
    var nextId: int

    ghost predicate Valid()
      reads this
    {
      && nextId >= 1
      && (forall s :: s in table ==> 1 <= table[s] < nextId)
      && Injective(table)
    }

    constructor ()
      ensures Valid() && table == map[] && nextId == 1
    {
      table := map[];
      nextId := 1;
    }

    /**
     * `_bulk_record`: inserts a row for each string of `unmapped` not yet in
     * the table (a conflicting insert is ignored), each taking the next id,
     * then re-reads the rows of `unmapped`.
     */
    method BulkRecordMissing(unmapped: set<string>) returns (newMapped: map<string, int>)
      requires Valid()
      modifies this
      ensures Valid()
      ensures table.Keys == old(table).Keys + unmapped
      ensures forall s :: s in old(table) ==> table[s] == old(table)[s]
      ensures forall s :: s in table && s !in old(table) ==> old(nextId) <= table[s]
      ensures nextId >= old(nextId)
      ensures unmapped <= old(table).Keys ==> nextId == old(nextId)
      ensures newMapped.Keys == unmapped
      ensures forall s :: s in newMapped ==> newMapped[s] == table[s]
    {
      var rest := unmapped;
      while rest != {}
        invariant rest <= unmapped
        invariant Valid()
        invariant table.Keys == old(table).Keys + (unmapped - rest)
        invariant forall s :: s in old(table) ==> table[s] == old(table)[s]
        invariant forall s :: s in table && s !in old(table) ==> old(nextId) <= table[s]
        invariant nextId >= old(nextId)
        invariant unmapped <= old(table).Keys ==> nextId == old(nextId)
        decreases rest
      {
        var s :| s in rest;
        if s !in table {
          InsertFreshKeepsInjective(table, s, nextId);
          table := table[s := nextId];
          nextId := nextId + 1;
        }
        rest := rest - {s};
      }
      newMapped := map s | s in unmapped :: table[s];
    }

    /**
     * `bulk_record`: the ids of strings already in the table are kept; the
     * missing strings are inserted, and their fresh ids merged into the answer.
     */
    method BulkRecord(strings: seq<string>) returns (mappedResult: map<string, int>)
      requires Valid()
      modifies this
      ensures Valid()
      ensures mappedResult.Keys == set s | s in strings
      ensures forall s :: s in mappedResult ==> s in table && mappedResult[s] == table[s]
      ensures forall s :: s in strings && s in old(table) ==> mappedResult[s] == old(table)[s]
      ensures table.Keys == old(table).Keys + set s | s in strings
      ensures forall s :: s in old(table) ==> table[s] == old(table)[s]
      ensures forall s :: s in table && s !in old(table) ==> old(nextId) <= table[s]
      ensures (forall s :: s in strings ==> s in old(table)) ==> table == old(table) && nextId == old(nextId)
    {
      var cacheResults := map s | s in strings && s in table :: table[s];
      mappedResult := cacheResults;
      var unmapped := (set s | s in strings) - mappedResult.Keys;
      var newMapped := BulkRecordMissing(unmapped);
      mappedResult := MergeRows(mappedResult, newMapped, table);
      if forall s :: s in strings ==> s in old(table) {
        assert table.Keys == old(table).Keys;
        assert table == old(table);
      }
    }

    /** The loop of `bulk_record` that adds each newly inserted row to the answer. */
    static method MergeRows(found: map<string, int>, newMapped: map<string, int>, rows: map<string, int>)
      returns (merged: map<string, int>)
      requires forall s :: s in found ==> s in rows && found[s] == rows[s]
      requires forall s :: s in newMapped ==> s in rows && newMapped[s] == rows[s]
      ensures merged.Keys == found.Keys + newMapped.Keys
      ensures forall s :: s in merged ==> s in rows && merged[s] == rows[s]
    {
      merged := found;
      var pending := newMapped.Keys;
      while pending != {}
        invariant pending <= newMapped.Keys
        invariant merged.Keys == found.Keys + (newMapped.Keys - pending)
        invariant forall s :: s in merged ==> s in rows && merged[s] == rows[s]
        decreases pending
      {
        var s :| s in pending;
        merged := merged[s := newMapped[s]];
        pending := pending - {s};
      }
    }

    /** `record`: the id of one string, inserting it when missing. */
    method Record(s: string) returns (id: int)
      requires Valid()
      modifies this
      ensures Valid()
      ensures s in table && table[s] == id
      ensures s in old(table) ==> id == old(table)[s] && table == old(table) && nextId == old(nextId)
      ensures s !in old(table) ==> table == old(table)[s := id] && old(nextId) <= id
    {
      var result := BulkRecord([s]);
      id := result[s];
      if s !in old(table) {
        assert table.Keys == old(table).Keys + {s};
        assert table == old(table)[s := id];
      }
    }

    /** `resolve`: the id of `s`, or None when no row holds it. */
    method Resolve(s: string) returns (r: Option<int>)
      ensures r.None? <==> s !in table
      ensures r.Some? ==> s in table && r.value == table[s]
    {
      if s in table {
        r := Some(table[s]);
      } else {
        r := None;
      }
    }

    /** `reverse_resolve`: the string of row `id`, or None when no row has it. */
    method ReverseResolve(id: int) returns (r: Option<string>)
      requires Valid()
      ensures r.None? <==> forall s :: s in table ==> table[s] != id
      ensures r.Some? ==> r.value in table && table[r.value] == id
      ensures r == ReverseLookup(table, id)
    {
      r := ReverseLookup(table, id);
    }
  }

  /**
   * After `record(s)` returns `n`, `resolve(s)` gives `n` and
   * `reverse_resolve(n)` gives `s`, and recording `s` again returns `n`.
   */
  method RecordThenResolve(indexer: PGStringIndexer, s: string) returns (n: int, again: int)
    requires indexer.Valid()
    modifies indexer
    ensures indexer.Valid()
    ensures s in indexer.table && indexer.table[s] == n
    ensures ReverseLookup(indexer.table, n) == Some(s)
    ensures again == n
    ensures forall t :: t in old(indexer.table) ==> t in indexer.table && indexer.table[t] == old(indexer.table)[t]
  {
    n := indexer.Record(s);
    var byString := indexer.Resolve(s);
    assert byString == Some(n);
    var byId := indexer.ReverseResolve(n);
    ReverseLookupInverts(indexer.table, s);
    assert byId == Some(s);
    again := indexer.Record(s);
  }
}
