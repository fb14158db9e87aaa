/** The declared schema that the migrator reads (schema/structs.go). Tables are objects because
    relationships point at them and AddIndex updates one through its pointer. Index is the only
    field any modelled code writes, so it is the only mutable one; the others are fixed when the
    table is built. */
module Schema {
  import opened Strings

  datatype Column = Column(name: string, previously: string, typ: string, length: int, includeName: string)

  datatype Index = Index(columns: seq<string>, unique: bool)

  /** A one-to-many link. `childColumn` is the column of the child that holds the key; the Go
      field is a pointer which the modelled code always dereferences. */
  datatype ManyRelationship = ManyRelationship(parent: Table, child: Table, childColumn: Column)

  datatype OneRelationship = OneRelationship(parent: Table, child: Table, childColumn: Column)

  datatype View = View(sql: string)

  datatype Schema = Schema(tables: map<string, Table>, views: seq<View>, dbms: string)

  class Table {
    const name: string
    const columns: seq<Column>
    var index: seq<Index>
    const hasMany: seq<ManyRelationship>
    const childOf: seq<ManyRelationship>
    const hasOne: seq<OneRelationship>
    const belongsTo: seq<OneRelationship>

    constructor (name: string, columns: seq<Column>, index: seq<Index>,
                 hasMany: seq<ManyRelationship>, childOf: seq<ManyRelationship>,
                 hasOne: seq<OneRelationship>, belongsTo: seq<OneRelationship>)
      ensures this.name == name && this.columns == columns && this.index == index
      ensures this.hasMany == hasMany && this.childOf == childOf
      ensures this.hasOne == hasOne && this.belongsTo == belongsTo
    {
      this.name := name;
      this.columns := columns;
      this.index := index;
      this.hasMany := hasMany;
      this.childOf := childOf;
      this.hasOne := hasOne;
      this.belongsTo := belongsTo;
    }

    /** Appends the given indexes, in argument order, and hands back the same table; every other
        field is immutable. */
    method AddIndex(i: seq<Index>) returns (t: Table)
      modifies this`index
      ensures t == this
      ensures index == old(index) + i
    {
      index := index + i;
      t := this;
    }

    /** The first column called `name`, or None (Go's nil). A nil receiver is fatal in Go; here the
        receiver is a non-null reference. */
    method FindColumn(name: string) returns (c: Option<Column>)
      ensures c == ColumnNamed(columns, name)
    {
      var k := 0;
      while k < |columns|
        invariant 0 <= k <= |columns|
        invariant ColumnNamed(columns, name) == ColumnNamed(columns[k..], name)
      {
        if columns[k].name == name {
          return Some(columns[k]);
        }
        assert columns[k..][1..] == columns[k + 1..];
        k := k + 1;
      }
      c := None;
    }

    /** The first column; an empty column list is an index-out-of-range panic in Go. */
    function PrimaryKeyColumn(): Column
      requires |columns| > 0
    {
      columns[0]
    }
  }

  /** The first column of `cols` whose name is `name`. */
  function ColumnNamed(cols: seq<Column>, name: string): (r: Option<Column>)
    ensures r.Some? ==> exists k :: 0 <= k < |cols| && cols[k] == r.value && r.value.name == name
                                   && forall j :: 0 <= j < k ==> cols[j].name != name
    ensures r.None? <==> forall j :: 0 <= j < |cols| ==> cols[j].name != name
  {
    if |cols| == 0 then None
    else if cols[0].name == name then Some(cols[0])
    else
      var r := ColumnNamed(cols[1..], name);
      assert forall j :: 1 <= j < |cols| ==> cols[1..][j - 1] == cols[j];
      r
  }

  /** The primary key is what FindColumn answers for its own name. */
  lemma PrimaryKeyFound(t: Table)
    requires |t.columns| > 0
    ensures ColumnNamed(t.columns, t.PrimaryKeyColumn().name) == Some(t.PrimaryKeyColumn())
  {
  }

  /** The tables that `t` references through a foreign key. */
  function Parents(t: Table): set<Table>
  {
    (set r | r in t.childOf :: r.parent) + (set r | r in t.belongsTo :: r.parent)
  }

  /** Every table `t` references has a first column, so PrimaryKeyColumn does not panic. */
  predicate ParentsHaveKeys(t: Table)
  {
    && (forall r :: r in t.childOf ==> |r.parent.columns| > 0)
    && (forall r :: r in t.belongsTo ==> |r.parent.columns| > 0)
  }
}
