/** The live database as the migrator sees it: a catalog of physical tables and their physical
    column names, and the log of statements sent to it. SQL is not parsed; each statement the
    migrator sends is handed over together with its effect on the catalog (`Stmt`). */
module Catalog {
  import opened Strings

  datatype Error =
    | Unsupported(message: string)  // an error the code itself constructs with fmt.Errorf
    | DriverError(statement: string) // the driver refused this statement or query

  type Tables = map<string, seq<string>>

  datatype Stmt =
    | CreateTableStmt(table: string, columns: seq<string>)
    | AddColumnStmt(table: string, column: string)
    | DropTableStmt(table: string)
    | RenameTableStmt(from: string, to: string)

  /** What a statement does to the catalog, or None when the database refuses it: a table that
      already exists cannot be created, a missing one cannot be altered, dropped or renamed, and a
      column that exists cannot be added again. */
  function Apply(tables: Tables, s: Stmt): (r: Option<Tables>)
    ensures r.Some? && s.CreateTableStmt? ==> s.table in r.value && r.value[s.table] == s.columns
    ensures r.Some? && s.AddColumnStmt? ==> s.table in tables && s.table in r.value
                                             && r.value[s.table] == tables[s.table] + [s.column]
  {
    match s
    case CreateTableStmt(t, cols) =>
      if t in tables then None else Some(tables[t := cols])
    case AddColumnStmt(t, c) =>
      if t !in tables || c in tables[t] then None else Some(tables[t := tables[t] + [c]])
    case DropTableStmt(t) =>
      if t in tables then Some(tables - {t}) else None
    case RenameTableStmt(f, to) =>
      if f in tables && to !in tables then Some((tables - {f})[to := tables[f]]) else None
  }

  /** One Exec: the statement text is refused outright when it is in `rejects`, otherwise the
      catalog rules of Apply decide. A refused statement leaves the catalog as it was. */
  function Run(rejects: set<string>, tables: Tables, text: string, s: Stmt): (r: (Tables, Option<Error>))
    ensures r.1.None? <==> text !in rejects && Apply(tables, s).Some?
    ensures r.1.Some? ==> r.0 == tables && r.1 == Some(DriverError(text))
    ensures r.1.None? ==> r.0 == Apply(tables, s).value
  {
    if text in rejects then (tables, Some(DriverError(text)))
    else match Apply(tables, s)
      case None => (tables, Some(DriverError(text)))
      case Some(t) => (t, None)
  }

  class SqlDB {
    var tables: Tables
    var log: seq<string>
    /** Statements this database refuses whatever the catalog holds. */
    const rejects: set<string>
    /** Physical tables whose catalog queries fail. */
    const broken: set<string>

    constructor (tables: Tables, rejects: set<string>, broken: set<string>)
      ensures this.tables == tables && log == [] && this.rejects == rejects && this.broken == broken
    {
      this.tables := tables;
      log := [];
      this.rejects := rejects;
      this.broken := broken;
    }

    /** DB.Exec: the statement is logged as sent, then applied or refused. */
    method Exec(text: string, s: Stmt) returns (err: Option<Error>)
      modifies this`tables, this`log
      ensures log == old(log) + [text]
      ensures (tables, err) == Run(rejects, old(tables), text, s)
    {
      log := log + [text];
      var r := Run(rejects, tables, text, s);
      tables := r.0;
      err := r.1;
    }
  }

  /** The rows PRAGMA table_info yields: the table's columns, or none for a missing table. */
  function ColumnRows(tables: Tables, table: string): seq<string>
  {
    if table in tables then tables[table] else []
  }
}
