/** Naming translators: the Translator interface the migrator is given (migrate/migrate.go) and the
    configurations the generated library ships (the "config" block of parse/lib.go). A Go interface
    value becomes a pair of functions. */
module Naming {
  import opened Strings

  datatype Translator = Translator(sqlTable: string -> string, sqlColumn: (string, string) -> string)

  type NameMap = map<string, string>

  /** AppConfig: per-name overrides first, then the Normal translator, or the name itself. */
  datatype AppConfig = AppConfig(specialTables: NameMap, specialColumns: map<string, NameMap>, normal: Option<Translator>)
  {
    function SQLTable(table: string): (r: string)
      ensures table in specialTables ==> r == specialTables[table]
      ensures table !in specialTables && normal.None? ==> r == table
      ensures table !in specialTables && normal.Some? ==> r == normal.value.sqlTable(table)
    {
      if table in specialTables then specialTables[table]
      else if normal.None? then table
      else normal.value.sqlTable(table)
    }

    function SQLColumn(table: string, column: string): (r: string)
      ensures Overridden(table, column) ==> r == specialColumns[table][column]
      ensures !Overridden(table, column) && normal.None? ==> r == column
      ensures !Overridden(table, column) && normal.Some? ==> r == normal.value.sqlColumn(table, column)
    {
      if table in specialColumns && column in specialColumns[table] then specialColumns[table][column]
      else if normal.None? then column
      else normal.value.sqlColumn(table, column)
    }

    predicate Overridden(table: string, column: string)
    {
      table in specialColumns && column in specialColumns[table]
    }

    /** The configuration as the interface value the rest of the program holds. */
    function AsTranslator(): Translator
    {
      Translator(t => SQLTable(t), (t, c) => SQLColumn(t, c))
    }
  }

  /** NewAppConfig: no overrides and no Normal translator; the driver name is not consulted. */
  function NewAppConfig(driverName: string): (c: AppConfig)
    ensures forall t :: c.SQLTable(t) == t
    ensures forall t, col :: c.SQLColumn(t, col) == col
  {
    AppConfig(map[], map[], None)
  }

  /** LowerConfig lower-cases every name; the table is ignored for columns. */
  function LowerConfig(): Translator
  {
    Translator(t => ToLower(t), (t, c) => ToLower(c))
  }

  datatype PrefixConfig = PrefixConfig(tablePrefix: string, columnPrefix: string)
  {
    function SQLTable(table: string): (r: string)
      ensures tablePrefix <= r && r[|tablePrefix|..] == table
    {
      tablePrefix + table
    }

    function SQLColumn(table: string, column: string): (r: string)
      ensures columnPrefix <= r && r[|columnPrefix|..] == column
    {
      columnPrefix + column
    }

    function AsTranslator(): Translator
    {
      Translator(t => SQLTable(t), (t, c) => SQLColumn(t, c))
    }
  }

  /** An override in an AppConfig wins over whatever Normal translator it delegates to, and a name
      without an override is whatever Normal makes of it. */
  lemma {:induction false} OverrideWins(c: AppConfig, n: Translator, table: string, column: string)
    ensures table in c.specialTables ==> c.(normal := Some(n)).SQLTable(table) == c.specialTables[table]
    ensures table !in c.specialTables ==> c.(normal := Some(n)).SQLTable(table) == n.sqlTable(table)
    ensures c.Overridden(table, column) ==> c.(normal := Some(n)).SQLColumn(table, column) == c.specialColumns[table][column]
    ensures !c.Overridden(table, column) ==> c.(normal := Some(n)).SQLColumn(table, column) == n.sqlColumn(table, column)
  {
  }

  /** Lower-casing is idempotent, so translating an already translated name changes nothing. */
  lemma LowerIdempotent(s: string)
    ensures LowerConfig().sqlTable(LowerConfig().sqlTable(s)) == LowerConfig().sqlTable(s)
  {
    var once := ToLower(s);
    assert ToLower(once) == once by {
      forall i | 0 <= i < |once| ensures ToLower(once)[i] == once[i] {
        assert once[i] == LowerChar(s[i]);
      }
    }
  }

  /** Lower-cased names contain no upper-case letter. */
  lemma LowerHasNoUpper(t: string, c: string)
    ensures forall i :: 0 <= i < |LowerConfig().sqlColumn(t, c)| ==> !IsUpperAscii(LowerConfig().sqlColumn(t, c)[i])
  {
  }
}
