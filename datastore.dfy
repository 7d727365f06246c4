/** The web app's JSON record store: named tables of records keyed by id,
    held in memory and written back to one file after every change. */
module Datastore {
  import opened Common

  /** A stored record: its id and the rest of its JSON value. */
  datatype Record = Record(id: string, body: string)

  type Table = map<string, Record>
  type Tables = map<string, Table>

  /** `ensureTable`: a missing table is created empty. */
  function WithTable(tables: Tables, table: string): (r: Tables)
    ensures table in r && r.Keys == tables.Keys + {table}
    ensures table in tables ==> r == tables
  {
    if table in tables then tables else tables[table := map[]]
  }

  /** The tables after `upsertRecord(table, record)`. */
  function Upserted(tables: Tables, table: string, record: Record): Tables
  {
    var ts := WithTable(tables, table);
    ts[table := ts[table][record.id := record]]
  }

  /** Whether `removeRecord(table, id)` finds something to delete. */
  predicate Present(tables: Tables, table: string, id: string)
  {
    table in tables && id in tables[table]
  }

  /** The tables after `removeRecord(table, id)`. */
  function Removed(tables: Tables, table: string, id: string): Tables
  {
    if !Present(tables, table, id) then tables else tables[table := tables[table] - {id}]
  }

  /** `getRecord`: null for a missing table or a missing id. */
  function Lookup(tables: Tables, table: string, id: string): Option<Record>
  {
    if table !in tables then None
    else if id !in tables[table] then None
    else Some(tables[table][id])
  }

  /** After an upsert the record is found under its id, and every other
      table and id reads as before. */
  lemma UpsertThenGet(tables: Tables, table: string, record: Record, t: string, id: string)
    ensures Lookup(Upserted(tables, table, record), table, record.id) == Some(record)
    ensures (t != table || id != record.id) ==>
              Lookup(Upserted(tables, table, record), t, id) == Lookup(tables, t, id)
    ensures Upserted(tables, table, record).Keys == tables.Keys + {table}
  {
  }

  /** After a removal the id is gone from its table, and every other table
      and id reads as before; removing an absent record changes nothing. */
  lemma RemoveThenGet(tables: Tables, table: string, id: string, t: string, other: string)
    ensures Lookup(Removed(tables, table, id), table, id) == None
    ensures (t != table || other != id) ==> Lookup(Removed(tables, table, id), t, other) == Lookup(tables, t, other)
    ensures !Present(tables, table, id) ==> Removed(tables, table, id) == tables
  {
  }

  /** Removing what was just upserted into an existing table gives back the
      table without that record. */
  lemma UpsertThenRemove(tables: Tables, table: string, record: Record)
    requires table in tables
    ensures Removed(Upserted(tables, table, record), table, record.id)
            == tables[table := tables[table] - {record.id}]
  {
    var ts := Upserted(tables, table, record);
    assert ts[table] - {record.id} == tables[table] - {record.id};
  }

  /** The store. `tables` is the module's `cache`; `disk` is what the last
      `persist` wrote. */
  class RecordStore {
    var tables: Tables
    var disk: Tables

    /** `load`: the parsed file, or no tables when the file is missing or
        does not parse. */
    constructor (file: Option<Tables>)
      ensures tables == file.OrElse(map[]) && disk == tables
    {
      tables := file.OrElse(map[]);
      disk := tables;
    }

    /** `persist`: the tables as they now are go to disk. */
    method Persist()
      modifies this
      ensures tables == old(tables) && disk == tables
    {
      disk := tables;
    }

    method EnsureTable(table: string)
      modifies this
      ensures tables == WithTable(old(tables), table) && disk == old(disk)
    {
      if table !in tables {
        tables := tables[table := map[]];
      }
    }

    /** `upsertRecord`. */
    method Upsert(table: string, record: Record) returns (r: Record)
      modifies this
      ensures r == record
      ensures tables == Upserted(old(tables), table, record) && disk == tables
    {
      EnsureTable(table);
      tables := tables[table := tables[table][record.id := record]];
      Persist();
      return record;
    }

    /** `removeRecord`: nothing is written when there is nothing to
        remove. */
    method Remove(table: string, id: string)
      modifies this
      ensures tables == Removed(old(tables), table, id)
      ensures Present(old(tables), table, id) ==> disk == tables
      ensures !Present(old(tables), table, id) ==> disk == old(disk)
    {
      if table !in tables || id !in tables[table] {
        return;
      }
      tables := tables[table := tables[table] - {id}];
      Persist();
    }

    /** `getRecord`. */
    function Get(table: string, id: string): Option<Record>
      reads this
    {
      Lookup(tables, table, id)
    }

    /** `listRecords`: [] for a missing table, otherwise each record of the
        table once; `keys` gives the id each one is stored under. The order
        of `Object.values` is not modelled. */
    method List(table: string) returns (r: seq<Record>, ghost keys: seq<string>)
      ensures table !in tables ==> r == []
      ensures table in tables ==>
                && |keys| == |r| == |tables[table]|
                && (forall i, j :: 0 <= i < j < |keys| ==> keys[i] != keys[j])
                && (forall i :: 0 <= i < |keys| ==> keys[i] in tables[table] && r[i] == tables[table][keys[i]])
                && (forall k :: k in tables[table] ==> k in keys)
    {
      r, keys := [], [];
      if table !in tables {
        return;
      }
      var t := tables[table];
      var left := t.Keys;
      while left != {}
        invariant left <= t.Keys
        invariant forall k :: k in t.Keys ==> (k in left <==> k !in keys)
        invariant |keys| == |r| && |keys| + |left| == |t|
        invariant forall i, j :: 0 <= i < j < |keys| ==> keys[i] != keys[j]
        invariant forall i :: 0 <= i < |keys| ==> keys[i] in t && r[i] == t[keys[i]]
        decreases left
      {
        var k :| k in left;
        r, keys := r + [t[k]], keys + [k];
        left := left - {k};
      }
      assert |t| == |t.Keys|;
    }

    /** `resetTable`: the table is emptied (or created empty). */
    method Reset(table: string)
      modifies this
      ensures tables == old(tables)[table := map[]] && disk == tables
    {
      tables := tables[table := map[]];
      Persist();
    }
  }

  /** A reset table lists nothing, and reads nothing under any id. */
  lemma ResetEmpties(tables: Tables, table: string, id: string)
    ensures table in tables[table := map[]] && |tables[table := map[]][table]| == 0
    ensures Lookup(tables[table := map[]], table, id) == None
  {
  }
}
