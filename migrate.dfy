/** The migration driver of migrate/migrate.go. UpToDate does no introspection: it queues every
    schema table as new. Migrate then creates each queued table through the generic dialect and
    ignores whatever the creation reports. */
module Migrate {
  import opened Strings
  import opened Schema
  import opened Naming
  import opened Catalog
  import opened Systems

  datatype System = Generic | MySQL | Sqlite | Postgres

  /** The dialects for which CreateTable issues DDL. */
  predicate CreatesTables(dbms: System)
  {
    dbms == Generic || dbms == Sqlite
  }

  /** The tables of `m` listed in the order `keys`. */
  function TablesInOrder(m: map<string, Table>, keys: seq<string>): (r: seq<Table>)
    requires forall k :: k in keys ==> k in m
    ensures |r| == |keys|
    ensures forall i :: 0 <= i < |keys| ==> r[i] == m[keys[i]]
  {
    seq(|keys|, i requires 0 <= i < |keys| => m[keys[i]])
  }

  /** `keys` lists every key of a map exactly once: a map iteration order. */
  ghost predicate IsIterationOrder(keys: seq<string>, domain: set<string>)
  {
    && |keys| == |domain|
    && (forall k :: k in keys <==> k in domain)
    && (forall i, j :: 0 <= i < j < |keys| ==> keys[i] != keys[j])
  }

  /** The statement CreateTable sends for each table of `ts`, with its effect on the catalog. */
  function Creations(conv: Translator, ts: seq<Table>): seq<(string, Stmt)>
    requires forall t :: t in ts ==> ParentsHaveKeys(t)
  {
    seq(|ts|, i requires 0 <= i < |ts| => (CreateTableSQL(conv, ts[i]), CreateTableEffect(conv, ts[i])))
  }

  /** Executing `stmts` in order: the catalog afterwards and the statements sent. Every statement
      is sent whatever happened to the ones before it. */
  function ExecEach(rejects: set<string>, stmts: seq<(string, Stmt)>, tables: Tables): (r: (Tables, seq<string>))
    decreases |stmts|
  {
    if stmts == [] then (tables, [])
    else
      var prev := ExecEach(rejects, stmts[..|stmts| - 1], tables);
      var last := stmts[|stmts| - 1];
      (Run(rejects, prev.0, last.0, last.1).0, prev.1 + [last.0])
  }

  /** ExecEach runs one more statement the way one further Exec does. */
  lemma ExecEachNext(rejects: set<string>, stmts: seq<(string, Stmt)>, i: nat, tables: Tables)
    requires i < |stmts|
    ensures var prev := ExecEach(rejects, stmts[..i], tables);
      ExecEach(rejects, stmts[..i + 1], tables) == (Run(rejects, prev.0, stmts[i].0, stmts[i].1).0, prev.1 + [stmts[i].0])
  {
    assert stmts[..i + 1][..i] == stmts[..i];
  }

  /** Every statement is sent, in order. */
  lemma {:induction false} ExecEachSendsAll(rejects: set<string>, stmts: seq<(string, Stmt)>, tables: Tables)
    ensures ExecEach(rejects, stmts, tables).1 == StatementTexts(stmts)
    decreases |stmts|
  {
    if stmts != [] {
      ExecEachSendsAll(rejects, stmts[..|stmts| - 1], tables);
      assert StatementTexts(stmts) == StatementTexts(stmts[..|stmts| - 1]) + [stmts[|stmts| - 1].0];
    }
  }

  function StatementTexts(stmts: seq<(string, Stmt)>): (r: seq<string>)
    ensures |r| == |stmts|
    ensures forall i :: 0 <= i < |stmts| ==> r[i] == stmts[i].0
  {
    seq(|stmts|, i requires 0 <= i < |stmts| => stmts[i].0)
  }

  /** Table creations never remove a table or change an existing table's columns. */
  lemma {:induction false} CreationsMonotone(rejects: set<string>, stmts: seq<(string, Stmt)>, tables: Tables)
    requires forall i :: 0 <= i < |stmts| ==> stmts[i].1.CreateTableStmt?
    ensures forall k :: k in tables ==>
              k in ExecEach(rejects, stmts, tables).0 && ExecEach(rejects, stmts, tables).0[k] == tables[k]
    decreases |stmts|
  {
    if stmts != [] {
      CreationsMonotone(rejects, stmts[..|stmts| - 1], tables);
    }
  }

  /** After the creations every table exists, unless the database refuses its statement. */
  lemma {:induction false} CreationsCover(rejects: set<string>, stmts: seq<(string, Stmt)>, tables: Tables)
    requires forall i :: 0 <= i < |stmts| ==> stmts[i].1.CreateTableStmt?
    ensures forall i :: 0 <= i < |stmts| ==>
              stmts[i].1.table in ExecEach(rejects, stmts, tables).0 || stmts[i].0 in rejects
    decreases |stmts|
  {
    if stmts != [] {
      var init := stmts[..|stmts| - 1];
      var prev := ExecEach(rejects, init, tables);
      CreationsCover(rejects, init, tables);
      CreationsMonotone(rejects, [stmts[|stmts| - 1]], prev.0);
      assert ExecEach(rejects, [stmts[|stmts| - 1]], prev.0).0 == ExecEach(rejects, stmts, tables).0 by {
        assert [stmts[|stmts| - 1]][..0] == [];
      }
    }
  }

  /** When every table to create exists already, or its statement is refused, the creations leave
      the catalog as it was: each CREATE TABLE fails. */
  lemma {:induction false} CreationsIdle(rejects: set<string>, stmts: seq<(string, Stmt)>, tables: Tables)
    requires forall i :: 0 <= i < |stmts| ==> stmts[i].1.CreateTableStmt?
    requires forall i :: 0 <= i < |stmts| ==> stmts[i].1.table in tables || stmts[i].0 in rejects
    ensures ExecEach(rejects, stmts, tables).0 == tables
    decreases |stmts|
  {
    if stmts != [] {
      CreationsIdle(rejects, stmts[..|stmts| - 1], tables);
    }
  }

  /** Migrating a second time changes nothing in the catalog, although every CREATE TABLE statement
      is sent again. */
  lemma CreationsTwice(rejects: set<string>, stmts: seq<(string, Stmt)>, tables: Tables)
    requires forall i :: 0 <= i < |stmts| ==> stmts[i].1.CreateTableStmt?
    ensures var once := ExecEach(rejects, stmts, tables).0;
      && ExecEach(rejects, stmts, once).0 == once
      && ExecEach(rejects, stmts, once).1 == StatementTexts(stmts)
  {
    var once := ExecEach(rejects, stmts, tables).0;
    CreationsCover(rejects, stmts, tables);
    CreationsIdle(rejects, stmts, once);
    ExecEachSendsAll(rejects, stmts, once);
  }

  class Database {
    const db: SqlDB
    const schema: Schema
    const translator: Translator
    var newTables: seq<Table>
    var modifiedTables: seq<Table>
    const dbms: System

    constructor (db: SqlDB, schema: Schema, translator: Translator, dbms: System)
      ensures this.db == db && this.schema == schema && this.translator == translator && this.dbms == dbms
      ensures newTables == [] && modifiedTables == []
    {
      this.db := db;
      this.schema := schema;
      this.translator := translator;
      this.dbms := dbms;
      newTables := [];
      modifiedTables := [];
    }

    /** Appends every schema table to NewTables, in some iteration order of the map, and reports
        that the database is not up to date. `order` is the iteration order taken. */
    method UpToDate() returns (current: bool, err: Option<Error>, ghost order: seq<string>)
      modifies this`newTables
      ensures !current && err == None
      ensures IsIterationOrder(order, schema.tables.Keys)
      ensures newTables == old(newTables) + TablesInOrder(schema.tables, order)
    {
      current, err := false, None;
      var remaining := schema.tables.Keys;
      order := [];
      while remaining != {}
        invariant remaining <= schema.tables.Keys
        invariant forall k :: k in order ==> k in schema.tables && k !in remaining
        invariant forall k :: k in schema.tables ==> k in remaining || k in order
        invariant |order| + |remaining| == |schema.tables.Keys|
        invariant forall i, j :: 0 <= i < j < |order| ==> order[i] != order[j]
        invariant newTables == old(newTables) + TablesInOrder(schema.tables, order)
        decreases |remaining|
      {
        var name :| name in remaining;
        assert TablesInOrder(schema.tables, order + [name]) == TablesInOrder(schema.tables, order) + [schema.tables[name]];
        newTables := newTables + [schema.tables[name]];
        remaining := remaining - {name};
        order := order + [name];
      }
    }

    /** Creates the table through the generic dialect when the dialect is Generic or Sqlite; the
        creation's error is dropped. Only that path looks up the parents' primary keys, so only
        there must every parent have a column. */
    method CreateTable(table: Table)
      requires CreatesTables(dbms) ==> ParentsHaveKeys(table)
      modifies db`tables, db`log
      ensures CreatesTables(dbms) ==>
                && db.log == old(db.log) + [CreateTableSQL(translator, table)]
                && db.tables == Run(db.rejects, old(db.tables), CreateTableSQL(translator, table),
                                    CreateTableEffect(translator, table)).0
      ensures !CreatesTables(dbms) ==> db.log == old(db.log) && db.tables == old(db.tables)
    {
      if dbms == Generic || dbms == Sqlite {
        var generic := new GenericDB(db, translator);
        var _ := generic.CreateTable(table);
      }
    }

    /** Reserved: does nothing. */
    method ModifyTable(table: Table)
    {
    }

    method PareFields() returns (err: Option<Error>)
      ensures err == None
    {
      return None;
    }

    /** The first loop of Migrate: one CreateTable per queued table, in queue order. */
    method CreateQueued()
      requires CreatesTables(dbms) ==> forall t :: t in newTables ==> ParentsHaveKeys(t)
      modifies db`tables, db`log
      ensures CreatesTables(dbms) ==>
                && db.tables == ExecEach(db.rejects, Creations(translator, newTables), old(db.tables)).0
                && db.log == old(db.log) + ExecEach(db.rejects, Creations(translator, newTables), old(db.tables)).1
      ensures !CreatesTables(dbms) ==> db.log == old(db.log) && db.tables == old(db.tables)
    {
      ghost var plan := if CreatesTables(dbms) then Creations(translator, newTables) else [];
      var i := 0;
      while i < |newTables|
        invariant 0 <= i <= |newTables|
        invariant CreatesTables(dbms) ==> |plan| == |newTables|
        invariant CreatesTables(dbms) ==>
                    && db.tables == ExecEach(db.rejects, plan[..i], old(db.tables)).0
                    && db.log == old(db.log) + ExecEach(db.rejects, plan[..i], old(db.tables)).1
        invariant !CreatesTables(dbms) ==> db.log == old(db.log) && db.tables == old(db.tables)
      {
        if CreatesTables(dbms) {
          ExecEachNext(db.rejects, plan, i, old(db.tables));
        }
        CreateTable(newTables[i]);
        i := i + 1;
      }
      assert CreatesTables(dbms) ==> plan[..i] == plan;
    }

    /** UpToDate, then one CreateTable per queued table in queue order, then one ModifyTable per
        modified table; `pare` stands for the -pare command-line flag. */
    method Migrate(pare: bool) returns (err: Option<Error>, ghost order: seq<string>)
      requires CreatesTables(dbms) ==> forall t :: t in newTables ==> ParentsHaveKeys(t)
      requires CreatesTables(dbms) ==> forall k :: k in schema.tables ==> ParentsHaveKeys(schema.tables[k])
      modifies this`newTables, db`tables, db`log
      ensures err == None
      ensures IsIterationOrder(order, schema.tables.Keys)
      ensures newTables == old(newTables) + TablesInOrder(schema.tables, order)
      ensures CreatesTables(dbms) ==> forall t :: t in newTables ==> ParentsHaveKeys(t)
      ensures CreatesTables(dbms) ==>
                && db.tables == ExecEach(db.rejects, Creations(translator, newTables), old(db.tables)).0
                && db.log == old(db.log) + ExecEach(db.rejects, Creations(translator, newTables), old(db.tables)).1
      ensures !CreatesTables(dbms) ==> db.log == old(db.log) && db.tables == old(db.tables)
    {
      var current, e;
      current, e, order := UpToDate();
      if e.Some? || current {
        return e, order;
      }
      CreateQueued();
      ghost var created, sent, queued := db.tables, db.log, newTables;
      var k := 0;
      while k < |modifiedTables|
        invariant 0 <= k <= |modifiedTables|
        invariant db.tables == created && db.log == sent && newTables == queued
      {
        ModifyTable(modifiedTables[k]);
        k := k + 1;
      }
      err := None;
      if pare {
        err := PareFields();
      }
    }
  }
}
