/** The per-dialect DDL code of migrate/systems.go: the generic dialect renders and executes
    CREATE/ALTER/DROP statements but cannot introspect; the SQLite dialect adds introspection over
    the catalog and column-by-column table updates. */
module Systems {
  import opened Strings
  import opened Schema
  import opened Naming
  import opened Catalog

  const UnsupportedCheck: string := "Need a RDBMS-specific for schema check functionality"
  const TableCountQuery: string := "SELECT COUNT(name) FROM sqlite_master WHERE type='table' AND name=?"

  function PragmaQuery(physicalTable: string): string
  {
    "PRAGMA table_info(" + physicalTable + ")"
  }

  /** `<col> <TYPE>` with `(<length>)` appended when the length is not zero. */
  function ColumnDef(conv: Translator, table: string, col: Column): string
  {
    conv.sqlColumn(table, col.name) + " " + ToUpper(col.typ)
      + (if col.length != 0 then "(" + IntToString(col.length) + ")" else "")
  }

  /** `<col> INTEGER PRIMARY KEY ASC`: no length suffix whatever the column's Length. */
  function PrimaryKeyDef(conv: Translator, table: string, col: Column): string
  {
    conv.sqlColumn(table, col.name) + " INTEGER PRIMARY KEY ASC"
  }

  /** The definition of the column at position `i`: only a first column of type "integer" is
      rendered as the primary key. */
  function ColumnDefAt(conv: Translator, table: string, i: nat, col: Column): string
  {
    if i == 0 && col.typ == "integer" then PrimaryKeyDef(conv, table, col) else ColumnDef(conv, table, col)
  }

  function ColumnDefs(conv: Translator, table: string, cols: seq<Column>): seq<string>
  {
    seq(|cols|, i requires 0 <= i < |cols| => ColumnDefAt(conv, table, i, cols[i]))
  }

  /** `FOREIGN KEY(<child col>) REFERENCES <parent table>(<parent's first column>)`. */
  function ForeignKeyDef(conv: Translator, table: string, childColumn: Column, parent: Table): string
    requires |parent.columns| > 0
  {
    "FOREIGN KEY(" + conv.sqlColumn(table, childColumn.name) + ") REFERENCES "
      + conv.sqlTable(parent.name) + "(" + conv.sqlColumn(parent.name, parent.PrimaryKeyColumn().name) + ")"
  }

  function ChildOfDefs(conv: Translator, table: string, rels: seq<ManyRelationship>): seq<string>
    requires forall x :: x in rels ==> |x.parent.columns| > 0
  {
    if rels == [] then []
    else [ForeignKeyDef(conv, table, rels[0].childColumn, rels[0].parent)] + ChildOfDefs(conv, table, rels[1..])
  }

  function BelongsToDefs(conv: Translator, table: string, rels: seq<OneRelationship>): seq<string>
    requires forall x :: x in rels ==> |x.parent.columns| > 0
  {
    if rels == [] then []
    else [ForeignKeyDef(conv, table, rels[0].childColumn, rels[0].parent)] + BelongsToDefs(conv, table, rels[1..])
  }

  /** One FOREIGN KEY definition per ChildOf relationship, in order. */
  lemma {:induction false} ChildOfDefsShape(conv: Translator, table: string, rels: seq<ManyRelationship>)
    requires forall x :: x in rels ==> |x.parent.columns| > 0
    ensures |ChildOfDefs(conv, table, rels)| == |rels|
    ensures forall i :: 0 <= i < |rels| ==>
              ChildOfDefs(conv, table, rels)[i] == ForeignKeyDef(conv, table, rels[i].childColumn, rels[i].parent)
  {
    if rels != [] {
      ChildOfDefsShape(conv, table, rels[1..]);
      forall i | 1 <= i < |rels|
        ensures ChildOfDefs(conv, table, rels)[i] == ForeignKeyDef(conv, table, rels[i].childColumn, rels[i].parent)
      {
        assert rels[1..][i - 1] == rels[i];
      }
    }
  }

  /** One FOREIGN KEY definition per BelongsTo relationship, in order. */
  lemma {:induction false} BelongsToDefsShape(conv: Translator, table: string, rels: seq<OneRelationship>)
    requires forall x :: x in rels ==> |x.parent.columns| > 0
    ensures |BelongsToDefs(conv, table, rels)| == |rels|
    ensures forall i :: 0 <= i < |rels| ==>
              BelongsToDefs(conv, table, rels)[i] == ForeignKeyDef(conv, table, rels[i].childColumn, rels[i].parent)
  {
    if rels != [] {
      BelongsToDefsShape(conv, table, rels[1..]);
      forall i | 1 <= i < |rels|
        ensures BelongsToDefs(conv, table, rels)[i] == ForeignKeyDef(conv, table, rels[i].childColumn, rels[i].parent)
      {
        assert rels[1..][i - 1] == rels[i];
      }
    }
  }

  /** All definitions of CREATE TABLE: the columns, then the ChildOf keys, then the BelongsTo keys. */
  function TableDefs(conv: Translator, t: Table): seq<string>
    requires ParentsHaveKeys(t)
  {
    ColumnDefs(conv, t.name, t.columns) + ChildOfDefs(conv, t.name, t.childOf) + BelongsToDefs(conv, t.name, t.belongsTo)
  }

  function CreateTableSQL(conv: Translator, t: Table): string
    requires ParentsHaveKeys(t)
  {
    "CREATE TABLE " + conv.sqlTable(t.name) + "(" + Join(TableDefs(conv, t), ", ") + ")"
  }

  /** The physical names of a table's columns, in declaration order. */
  function PhysicalColumns(conv: Translator, table: string, cols: seq<Column>): (r: seq<string>)
    ensures |r| == |cols|
    ensures forall i :: 0 <= i < |cols| ==> r[i] == conv.sqlColumn(table, cols[i].name)
  {
    seq(|cols|, i requires 0 <= i < |cols| => conv.sqlColumn(table, cols[i].name))
  }

  function CreateTableEffect(conv: Translator, t: Table): Stmt
  {
    CreateTableStmt(conv.sqlTable(t.name), PhysicalColumns(conv, t.name, t.columns))
  }

  function AddColumnSQL(conv: Translator, table: string, col: Column): string
  {
    "ALTER TABLE " + conv.sqlTable(table) + " ADD COLUMN " + ColumnDef(conv, table, col)
  }

  function DropTableSQL(conv: Translator, table: string): string
  {
    "DROP TABLE " + conv.sqlTable(table)
  }

  /** The old name is used as given; only the new one is translated. */
  function RenameTableSQL(conv: Translator, table: string, oldName: string): string
  {
    "ALTER TABLE " + oldName + " RENAME TO " + conv.sqlTable(table)
  }

  /** How many definitions CREATE TABLE holds, and what each position says. */
  lemma {:induction false} TableDefsShape(conv: Translator, t: Table)
    requires ParentsHaveKeys(t)
    ensures |TableDefs(conv, t)| == |t.columns| + |t.childOf| + |t.belongsTo|
    ensures forall i :: 0 <= i < |t.columns| ==> TableDefs(conv, t)[i] == ColumnDefAt(conv, t.name, i, t.columns[i])
    ensures forall i :: 0 <= i < |t.childOf| ==>
              TableDefs(conv, t)[|t.columns| + i] == ForeignKeyDef(conv, t.name, t.childOf[i].childColumn, t.childOf[i].parent)
    ensures forall i :: 0 <= i < |t.belongsTo| ==>
              TableDefs(conv, t)[|t.columns| + |t.childOf| + i]
                == ForeignKeyDef(conv, t.name, t.belongsTo[i].childColumn, t.belongsTo[i].parent)
  {
    ChildOfDefsShape(conv, t.name, t.childOf);
    BelongsToDefsShape(conv, t.name, t.belongsTo);
    var c := ColumnDefs(conv, t.name, t.columns);
    var m := ChildOfDefs(conv, t.name, t.childOf);
    var o := BelongsToDefs(conv, t.name, t.belongsTo);
    assert TableDefs(conv, t) == c + m + o;
  }

  /** A first column of type integer is the primary key and never carries a length suffix; every
      other column carries `(<Length>)` exactly when its Length is not zero. */
  lemma LengthSuffixPolicy(conv: Translator, table: string, i: nat, col: Column)
    ensures i == 0 && col.typ == "integer" ==>
              ColumnDefAt(conv, table, i, col) == conv.sqlColumn(table, col.name) + " INTEGER PRIMARY KEY ASC"
    ensures !(i == 0 && col.typ == "integer") && col.length == 0 ==>
              ColumnDefAt(conv, table, i, col) == conv.sqlColumn(table, col.name) + " " + ToUpper(col.typ)
    ensures !(i == 0 && col.typ == "integer") && col.length != 0 ==>
              ColumnDefAt(conv, table, i, col)
                == conv.sqlColumn(table, col.name) + " " + ToUpper(col.typ) + "(" + IntToString(col.length) + ")"
  {
  }

  /** The generic dialect. It renders DDL but cannot answer existence questions. */
  class GenericDB {
    const db: SqlDB
    const convert: Translator

    constructor (db: SqlDB, convert: Translator)
      ensures this.db == db && this.convert == convert
    {
      this.db := db;
      this.convert := convert;
    }

    method HasTable(table: Table) returns (found: bool, err: Option<Error>)
      ensures !found && err == Some(Unsupported(UnsupportedCheck))
    {
      return false, Some(Unsupported(UnsupportedCheck));
    }

    method HasColumn(table: Table, col: Column) returns (found: bool, err: Option<Error>)
      ensures !found && err == Some(Unsupported(UnsupportedCheck))
    {
      return false, Some(Unsupported(UnsupportedCheck));
    }

    /** The column definitions of CREATE TABLE, one per column in order. */
    method BuildColumnDefs(table: string, cols: seq<Column>) returns (defs: seq<string>)
      ensures defs == ColumnDefs(convert, table, cols)
    {
      defs := [];
      var i := 0;
      while i < |cols|
        invariant 0 <= i <= |cols|
        invariant defs == ColumnDefs(convert, table, cols)[..i]
      {
        var column := cols[i];
        if i == 0 && column.typ == "integer" {
          defs := defs + [PrimaryKeyDef(convert, table, column)];
        } else {
          defs := defs + [ColumnDef(convert, table, column)];
        }
        TakeNext(ColumnDefs(convert, table, cols), i);
        i := i + 1;
      }
    }

    /** The FOREIGN KEY definitions of CREATE TABLE for the tables `table` is a child of. */
    method BuildChildOfDefs(table: string, rels: seq<ManyRelationship>) returns (defs: seq<string>)
      requires forall x :: x in rels ==> |x.parent.columns| > 0
      ensures defs == ChildOfDefs(convert, table, rels)
    {
      ghost var m := ChildOfDefs(convert, table, rels);
      ChildOfDefsShape(convert, table, rels);
      defs := [];
      var k := 0;
      while k < |rels|
        invariant 0 <= k <= |rels|
        invariant defs == m[..k]
      {
        defs := defs + [ForeignKeyDef(convert, table, rels[k].childColumn, rels[k].parent)];
        TakeNext(m, k);
        k := k + 1;
      }
    }

    /** The FOREIGN KEY definitions of CREATE TABLE for the tables `table` belongs to. */
    method BuildBelongsToDefs(table: string, rels: seq<OneRelationship>) returns (defs: seq<string>)
      requires forall x :: x in rels ==> |x.parent.columns| > 0
      ensures defs == BelongsToDefs(convert, table, rels)
    {
      ghost var o := BelongsToDefs(convert, table, rels);
      BelongsToDefsShape(convert, table, rels);
      defs := [];
      var k := 0;
      while k < |rels|
        invariant 0 <= k <= |rels|
        invariant defs == o[..k]
      {
        defs := defs + [ForeignKeyDef(convert, table, rels[k].childColumn, rels[k].parent)];
        TakeNext(o, k);
        k := k + 1;
      }
    }

    /** Builds the column definitions, then the ChildOf keys, then the BelongsTo keys, joins them
        and executes the statement. */
    method CreateTable(table: Table) returns (err: Option<Error>)
      requires ParentsHaveKeys(table)
      modifies db`tables, db`log
      ensures db.log == old(db.log) + [CreateTableSQL(convert, table)]
      ensures (db.tables, err) == Run(db.rejects, old(db.tables), CreateTableSQL(convert, table), CreateTableEffect(convert, table))
    {
      ghost var expected := TableDefs(convert, table);
      var effect := CreateTableEffect(convert, table);
      var columns := BuildColumnDefs(table.name, table.columns);
      var children := BuildChildOfDefs(table.name, table.childOf);
      var belongings := BuildBelongsToDefs(table.name, table.belongsTo);
      assert columns + children + belongings == expected;
      var sql := "CREATE TABLE " + convert.sqlTable(table.name) + "(" + Join(columns + children + belongings, ", ") + ")";
      err := db.Exec(sql, effect);
    }

    method RemoveTable(table: Table) returns (err: Option<Error>)
      modifies db`tables, db`log
      ensures db.log == old(db.log) + [DropTableSQL(convert, table.name)]
      ensures (db.tables, err)
                == Run(db.rejects, old(db.tables), DropTableSQL(convert, table.name), DropTableStmt(convert.sqlTable(table.name)))
    {
      err := db.Exec("DROP TABLE " + convert.sqlTable(table.name), DropTableStmt(convert.sqlTable(table.name)));
    }

    method RenameTable(table: Table, oldName: string) returns (err: Option<Error>)
      modifies db`tables, db`log
      ensures db.log == old(db.log) + [RenameTableSQL(convert, table.name, oldName)]
      ensures (db.tables, err)
                == Run(db.rejects, old(db.tables), RenameTableSQL(convert, table.name, oldName),
                       RenameTableStmt(oldName, convert.sqlTable(table.name)))
    {
      err := db.Exec("ALTER TABLE " + oldName + " RENAME TO " + convert.sqlTable(table.name),
                     RenameTableStmt(oldName, convert.sqlTable(table.name)));
    }

    method CreateColumn(table: Table, col: Column) returns (err: Option<Error>)
      modifies db`tables, db`log
      ensures db.log == old(db.log) + [AddColumnSQL(convert, table.name, col)]
      ensures (db.tables, err)
                == Run(db.rejects, old(db.tables), AddColumnSQL(convert, table.name, col),
                       AddColumnStmt(convert.sqlTable(table.name), convert.sqlColumn(table.name, col.name)))
    {
      var sql := "ALTER TABLE " + convert.sqlTable(table.name) + " ADD COLUMN " + ColumnDef(convert, table.name, col);
      err := db.Exec(sql, AddColumnStmt(convert.sqlTable(table.name), convert.sqlColumn(table.name, col.name)));
    }

    /** Reserved members: they execute nothing (no modifies clause) and report success. */
    method RenameColumn(table: Table, col: Column) returns (err: Option<Error>)
      ensures err == None
    {
      return None;
    }

    method RemoveColumn(table: Table, col: Column) returns (err: Option<Error>)
      ensures err == None
    {
      return None;
    }

    method ModifyColumn(table: Table, col: Column) returns (err: Option<Error>)
      ensures err == None
    {
      return None;
    }

    method UpdateTable(table: Table) returns (err: Option<Error>)
      ensures err == None
    {
      return None;
    }
  }

  /** What SQLite's catalog query answers for "does this table exist": the COUNT query fails for a
      broken table, and otherwise the answer is count == 1. */
  function TableCount(db: SqlDB, physicalTable: string): (r: Option<int>)
    reads db
    ensures r.Some? ==> (r.value == 1 <==> physicalTable in db.tables)
  {
    if physicalTable in db.broken then None
    else Some(if physicalTable in db.tables then 1 else 0)
  }

  /** UpdateTable as a function of the catalog: the new catalog, the statements sent, and the first
      error. A column is added only when its physical name is not among the table's rows at the
      moment it is checked. */
  function UpdatePlan(rejects: set<string>, broken: set<string>, conv: Translator, table: string,
                      cols: seq<Column>, tables: Tables): (r: (Tables, seq<string>, Option<Error>))
    decreases |cols|
  {
    if cols == [] then (tables, [], None)
    else if conv.sqlTable(table) in broken then (tables, [], Some(DriverError(PragmaQuery(conv.sqlTable(table)))))
    else if conv.sqlColumn(table, cols[0].name) in ColumnRows(tables, conv.sqlTable(table)) then
      UpdatePlan(rejects, broken, conv, table, cols[1..], tables)
    else
      var text := AddColumnSQL(conv, table, cols[0]);
      var step := Run(rejects, tables, text, AddColumnStmt(conv.sqlTable(table), conv.sqlColumn(table, cols[0].name)));
      if step.1.Some? then (tables, [text], step.1)
      else
        var rest := UpdatePlan(rejects, broken, conv, table, cols[1..], step.0);
        (rest.0, [text] + rest.1, rest.2)
  }

  /** The columns UpdateTable adds, given the physical names already present: each missing one,
      in column order, counting the ones added before it as present. */
  function MissingColumns(conv: Translator, table: string, cols: seq<Column>, present: seq<string>): seq<Column>
    decreases |cols|
  {
    if cols == [] then []
    else if conv.sqlColumn(table, cols[0].name) in present then MissingColumns(conv, table, cols[1..], present)
    else [cols[0]] + MissingColumns(conv, table, cols[1..], present + [conv.sqlColumn(table, cols[0].name)])
  }

  function AddColumnSQLs(conv: Translator, table: string, cols: seq<Column>): (r: seq<string>)
    ensures |r| == |cols|
    ensures forall i :: 0 <= i < |cols| ==> r[i] == AddColumnSQL(conv, table, cols[i])
  {
    seq(|cols|, i requires 0 <= i < |cols| => AddColumnSQL(conv, table, cols[i]))
  }

  /** After a successful UpdateTable every declared column exists, the columns that were there
      are still there in front, the other tables are untouched, and exactly the missing columns
      were added, in order. */
  lemma {:induction false} UpdatePlanSucceeds(rejects: set<string>, broken: set<string>, conv: Translator,
                                             table: string, cols: seq<Column>, tables: Tables)
    requires UpdatePlan(rejects, broken, conv, table, cols, tables).2.None?
    requires |cols| > 0
    ensures var r := UpdatePlan(rejects, broken, conv, table, cols, tables);
      && conv.sqlTable(table) in r.0
      && (forall c :: c in cols ==> conv.sqlColumn(table, c.name) in r.0[conv.sqlTable(table)])
      && ColumnRows(tables, conv.sqlTable(table)) <= r.0[conv.sqlTable(table)]
      && (forall t :: t in tables && t != conv.sqlTable(table) ==> t in r.0 && r.0[t] == tables[t])
      && r.1 == AddColumnSQLs(conv, table, MissingColumns(conv, table, cols, ColumnRows(tables, conv.sqlTable(table))))
    decreases |cols|
  {
    var phys := conv.sqlTable(table);
    var r := UpdatePlan(rejects, broken, conv, table, cols, tables);
    var name := conv.sqlColumn(table, cols[0].name);
    if name in ColumnRows(tables, phys) {
      assert phys in tables;
      if |cols| > 1 {
        UpdatePlanSucceeds(rejects, broken, conv, table, cols[1..], tables);
        forall c | c in cols ensures conv.sqlColumn(table, c.name) in r.0[phys] {
          if c != cols[0] { assert c in cols[1..]; }
        }
      }
    } else {
      var step := Run(rejects, tables, AddColumnSQL(conv, table, cols[0]), AddColumnStmt(phys, name));
      assert step.1.None?;
      var t2 := step.0;
      assert phys in tables && t2 == tables[phys := tables[phys] + [name]];
      assert ColumnRows(t2, phys) == ColumnRows(tables, phys) + [name];
      if |cols| > 1 {
        UpdatePlanSucceeds(rejects, broken, conv, table, cols[1..], t2);
        forall c | c in cols ensures conv.sqlColumn(table, c.name) in r.0[phys] {
          if c != cols[0] { assert c in cols[1..]; } else {
            assert name in ColumnRows(t2, phys);
          }
        }
      } else {
        assert cols[1..] == [];
      }
    }
  }

  /** UpdateTable on a table whose every column already exists sends nothing and changes nothing. */
  lemma {:induction false} UpdatePlanIdle(rejects: set<string>, broken: set<string>, conv: Translator,
                                         table: string, cols: seq<Column>, tables: Tables)
    requires conv.sqlTable(table) !in broken
    requires forall c :: c in cols ==> conv.sqlColumn(table, c.name) in ColumnRows(tables, conv.sqlTable(table))
    ensures UpdatePlan(rejects, broken, conv, table, cols, tables) == (tables, [], None)
    decreases |cols|
  {
    if cols != [] {
      assert cols[0] in cols;
      UpdatePlanIdle(rejects, broken, conv, table, cols[1..], tables);
    }
  }

  /** A table just created by CreateTable already has every declared column, so an UpdateTable right
      after it sends nothing. */
  lemma CreateThenUpdateIdle(rejects: set<string>, broken: set<string>, conv: Translator, t: Table, tables: Tables)
    requires ParentsHaveKeys(t)
    requires conv.sqlTable(t.name) !in broken
    requires Run(rejects, tables, CreateTableSQL(conv, t), CreateTableEffect(conv, t)).1.None?
    ensures var after := Run(rejects, tables, CreateTableSQL(conv, t), CreateTableEffect(conv, t)).0;
      UpdatePlan(rejects, broken, conv, t.name, t.columns, after) == (after, [], None)
  {
    var after := Run(rejects, tables, CreateTableSQL(conv, t), CreateTableEffect(conv, t)).0;
    var phys := conv.sqlTable(t.name);
    assert ColumnRows(after, phys) == PhysicalColumns(conv, t.name, t.columns);
    forall c | c in t.columns ensures conv.sqlColumn(t.name, c.name) in ColumnRows(after, phys) {
      var i :| 0 <= i < |t.columns| && t.columns[i] == c;
      assert ColumnRows(after, phys)[i] == conv.sqlColumn(t.name, c.name);
    }
    UpdatePlanIdle(rejects, broken, conv, t.name, t.columns, after);
  }

  /** The SQLite dialect: the generic DDL plus catalog introspection. */
  class SqliteDB {
    const generic: GenericDB

    constructor (generic: GenericDB)
      ensures this.generic == generic
    {
      this.generic := generic;
    }

    method HasTable(table: Table) returns (found: bool, err: Option<Error>)
      ensures var phys := generic.convert.sqlTable(table.name);
        && (err.Some? <==> phys in generic.db.broken)
        && (err.Some? ==> !found && err == Some(DriverError(TableCountQuery)))
        && (err.None? ==> (found <==> phys in generic.db.tables))
    {
      var cnt := TableCount(generic.db, generic.convert.sqlTable(table.name));
      if cnt.None? {
        return false, Some(DriverError(TableCountQuery));
      }
      return cnt.value == 1, None;
    }

    /** Scans the PRAGMA rows and stops at the first row whose name is the translated column. */
    method HasColumn(table: Table, col: Column) returns (found: bool, err: Option<Error>)
      ensures var phys := generic.convert.sqlTable(table.name);
        && (err.Some? <==> phys in generic.db.broken)
        && (err.Some? ==> !found && err == Some(DriverError(PragmaQuery(phys))))
        && (err.None? ==> (found <==> generic.convert.sqlColumn(table.name, col.name) in ColumnRows(generic.db.tables, phys)))
    {
      var phys := generic.convert.sqlTable(table.name);
      if phys in generic.db.broken {
        return false, Some(DriverError(PragmaQuery(phys)));
      }
      var rows := ColumnRows(generic.db.tables, phys);
      var wanted := generic.convert.sqlColumn(table.name, col.name);
      var k := 0;
      while k < |rows|
        invariant 0 <= k <= |rows|
        invariant wanted !in rows[..k]
      {
        if rows[k] == wanted {
          return true, None;
        }
        assert rows[..k + 1] == rows[..k] + [rows[k]];
        k := k + 1;
      }
      assert rows[..k] == rows;
      return false, None;
    }

    /** Adds the missing columns one by one; the first error stops the loop and is returned. */
    method UpdateTable(table: Table) returns (err: Option<Error>)
      modifies generic.db`tables, generic.db`log
      ensures var r := UpdatePlan(generic.db.rejects, generic.db.broken, generic.convert, table.name, table.columns, old(generic.db.tables));
        && generic.db.tables == r.0
        && generic.db.log == old(generic.db.log) + r.1
        && err == r.2
    {
      var db := generic.db;
      ghost var start := db.tables;
      var i := 0;
      while i < |table.columns|
        invariant 0 <= i <= |table.columns|
        invariant var whole := UpdatePlan(db.rejects, db.broken, generic.convert, table.name, table.columns, start);
          var rest := UpdatePlan(db.rejects, db.broken, generic.convert, table.name, table.columns[i..], db.tables);
          && rest.0 == whole.0 && rest.2 == whole.2
          && old(db.log) + whole.1 == db.log + rest.1
      {
        assert table.columns[i..][1..] == table.columns[i + 1..];
        var col := table.columns[i];
        var found, e := HasColumn(table, col);
        if e.Some? {
          return e;
        }
        if !found {
          e := generic.CreateColumn(table, col);
          if e.Some? {
            return e;
          }
        }
        i := i + 1;
      }
      return None;
    }
  }
}
