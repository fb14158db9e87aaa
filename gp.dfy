/** The schema-description types of package gp (gp/column.go, gp/relationship.go, gp/table.go,
    gp/active_file.go). parse/package.go repeats the same Column, Relationship and Table code in
    package parse; the parse model reuses these definitions and adds only what differs there.
    A struct tag is an abstract key-to-value lookup, and a struct field is its names, its type as
    fmt.Sprint prints it, the kind of that type expression and its tag. */
module Gp {
  import opened Strings

  /** reflect.StructTag.Get: the value of a key, or "" when the key is absent. */
  type Tag = map<string, string>

  function TagGet(tag: Tag, key: string): string
  {
    if key in tag then tag[key] else ""
  }

  /** The kind of a field's type expression, with fmt.Sprint of the part the column code keeps:
      the target of a pointer (*ast.StarExpr), the element of a slice (*ast.ArrayType). */
  datatype TypeExpr = Pointer(target: string) | Slice(elem: string) | Plain

  /** A struct field: its names (none for an embedded field), fmt.Sprint of its type, the kind of
      that type and its tag (empty when the field has none). */
  datatype Field = Field(names: seq<string>, typeText: string, kind: TypeExpr, tag: Tag)

  datatype Subrecord = Subrecord(name: string)

  datatype Index = Index(columns: seq<string>)

  /** The Go types a column can hold without being a subrecord. */
  const SimpleTypes: set<string> :=
    {"int", "int32", "int64", "int16", "string", "&{time Time}", "float32", "float64", "bool", "[]byte"}

  /** The Go types whose columns get a database default. "&{time.Time}" is kept as the source
      spells it, although fmt.Sprint never prints a selector that way. */
  const PresetTypes: set<string> := {"int", "string", "bool", "&{time.Time}", "&{time Time}"}

  /** The SQL column type for a Go type; a string with the tag type:"text" is a text column. */
  function SqlType(goType: string, tag: Tag): (r: string)
    ensures r == "text" <==> goType == "string" && TagGet(tag, "type") == "text"
    ensures r == "blob" <==> goType == "[]byte"
    ensures goType !in SimpleTypes ==> r == "varchar"
  {
    if goType == "int" then "integer"
    else if goType == "string" then (if TagGet(tag, "type") == "text" then "text" else "varchar")
    else if goType == "&{time Time}" then "timestamp"
    else if goType == "float32" then "real"
    else if goType == "float64" then "double precision"
    else if goType == "bool" then "boolean"
    else if goType == "[]byte" then "blob"
    else "varchar"
  }

  /** The SQL type of each Go type the switch names. */
  lemma SqlTypeCases(tag: Tag)
    ensures SqlType("int", tag) == "integer"
    ensures SqlType("string", tag) == (if TagGet(tag, "type") == "text" then "text" else "varchar")
    ensures SqlType("&{time Time}", tag) == "timestamp"
    ensures SqlType("float32", tag) == "real"
    ensures SqlType("float64", tag) == "double precision"
    ensures SqlType("bool", tag) == "boolean"
    ensures SqlType("[]byte", tag) == "blob"
  {
  }

  /** The tag decides the SQL type of a string column only; every other type maps the same way
      whatever its tag. */
  lemma TypeTagOnlyForStrings(goType: string, t1: Tag, t2: Tag)
    requires goType != "string"
    ensures SqlType(goType, t1) == SqlType(goType, t2)
  {
  }

  /** The sized integer types int16, int32 and int64 are simple types, yet they have no case of
      their own and get the "varchar" of unknown types, like a subrecord does. */
  lemma SizedIntsAreVarchar(goType: string, tag: Tag)
    requires goType in {"int16", "int32", "int64"}
    ensures goType in SimpleTypes && SqlType(goType, tag) == "varchar"
  {
  }

  /** The length a column has without a usable length tag. */
  function DefaultLength(goType: string, tag: Tag): int
  {
    if goType == "int" then 10
    else if goType == "string" then (if TagGet(tag, "type") == "text" then 0 else 255)
    else 0
  }

  /** The column length: a length tag that strconv.ParseInt(s, 10, 32) accepts, else the default. */
  function SqlLength(goType: string, tag: Tag): (r: int)
    ensures ParseInt32(TagGet(tag, "length")).Some? ==> r == ParseInt32(TagGet(tag, "length")).value
    ensures ParseInt32(TagGet(tag, "length")).None? ==> r == DefaultLength(goType, tag)
  {
    var s := TagGet(tag, "length");
    if s != "" then
      match ParseInt32(s)
      case Some(l) => l
      case None => DefaultLength(goType, tag)
    else DefaultLength(goType, tag)
  }

  /** A length tag holding a printed 32-bit integer overrides every default. */
  lemma LengthTagOverrides(goType: string, tag: Tag, n: int)
    requires MinInt32 <= n <= MaxInt32 && TagGet(tag, "length") == IntToString(n)
    ensures SqlLength(goType, tag) == n
  {
    ParseInt32RoundTrip(n);
  }

  /** Without a length tag the defaults are 10 for int, 255 for string, 0 for a text string and 0
      for everything else. */
  lemma LengthDefaults(goType: string, tag: Tag)
    requires TagGet(tag, "length") == ""
    ensures goType == "int" ==> SqlLength(goType, tag) == 10
    ensures goType == "string" ==> SqlLength(goType, tag) == (if SqlType(goType, tag) == "text" then 0 else 255)
    ensures goType != "int" && goType != "string" ==> SqlLength(goType, tag) == 0
  {
    assert ParseInt32("").None?;
  }

  datatype Column = Column(goType: string, name: string, tag: Tag, mustNull: bool, isArray: bool,
                           includeName: string)
  {
    /** The Go expression suffix that tests the field for its zero value. */
    function NonZeroCheck(): (r: string)
      ensures r == "" <==> goType == "bool"
      ensures r == " != nil" <==> goType !in SimpleTypes || goType == "[]byte"
    {
      if goType in {"int", "int32", "int64", "int16"} then " != 0"
      else if goType == "string" then " != \"\""
      else if goType == "&{time Time}" then ".IsZero()"
      else if goType in {"float32", "float64"} then " != 0.0"
      else if goType == "bool" then ""
      else " != nil"
    }

    /** The column takes a database default: one of the preset types with neither a length nor a
        type tag. */
    predicate Preset()
    {
      goType in PresetTypes && TagGet(tag, "length") == "" && TagGet(tag, "type") == ""
    }

    predicate SimpleType()
    {
      goType in SimpleTypes
    }

    function Type(): string
    {
      SqlType(goType, tag)
    }

    function Length(): int
    {
      SqlLength(goType, tag)
    }

    /** The subrecord the column holds: none for a simple type, else the first one of
        `subrecords` named like the column's Go type. */
    method Subrecord(subrecords: seq<Subrecord>) returns (r: Option<Subrecord>)
      ensures r == if SimpleType() then None else SubrecordNamed(subrecords, goType)
    {
      if SimpleType() {
        return None;
      }
      var k := 0;
      while k < |subrecords|
        invariant 0 <= k <= |subrecords|
        invariant SubrecordNamed(subrecords, goType) == SubrecordNamed(subrecords[k..], goType)
      {
        if goType == subrecords[k].name {
          return Some(subrecords[k]);
        }
        assert subrecords[k..][1..] == subrecords[k + 1..];
        k := k + 1;
      }
      r := None;
    }
  }

  /** The zero-value test of each Go type the switch names. */
  lemma NonZeroCheckCases(c: Column)
    ensures c.goType in {"int", "int32", "int64", "int16"} ==> c.NonZeroCheck() == " != 0"
    ensures c.goType == "string" ==> c.NonZeroCheck() == " != \"\""
    ensures c.goType == "&{time Time}" ==> c.NonZeroCheck() == ".IsZero()"
    ensures c.goType in {"float32", "float64"} ==> c.NonZeroCheck() == " != 0.0"
    ensures c.goType == "bool" ==> c.NonZeroCheck() == ""
    ensures c.goType !in SimpleTypes || c.goType == "[]byte" ==> c.NonZeroCheck() == " != nil"
  {
  }

  /** A preset column carries no tag, so its type and length are the untagged defaults. */
  lemma PresetUsesDefaults(c: Column)
    requires c.Preset()
    ensures c.Length() == DefaultLength(c.goType, c.tag)
    ensures c.Type() == SqlType(c.goType, map[])
  {
    assert ParseInt32("").None?;
  }

  /** Every preset type but the dotted time spelling is simple. */
  lemma PresetIsSimple(c: Column)
    requires c.Preset() && c.goType != "&{time.Time}"
    ensures c.SimpleType()
  {
  }

  /** The first subrecord called `name`; a subrecord is nothing but its name, so that is the
      subrecord `name` itself. */
  function SubrecordNamed(subrecords: seq<Subrecord>, name: string): (r: Option<Subrecord>)
    ensures r.Some? <==> exists k :: 0 <= k < |subrecords| && subrecords[k].name == name
    ensures r.Some? ==> r.value == Subrecord(name) && r.value in subrecords
  {
    if |subrecords| == 0 then None
    else if subrecords[0].name == name then Some(subrecords[0])
    else
      var t := subrecords[1..];
      assert forall j :: 1 <= j < |subrecords| ==> t[j - 1] == subrecords[j];
      SubrecordNamed(t, name)
  }

  // ---------------------------------------------------------------------------------------------
  // Relationships

  /** A relationship of a table. `parent` is the name of the Parent table; ParentName, ChildName
      and OperativeColumn are filled in when relations are linked. */
  datatype Relationship = Relationship(table: string, typ: string, isArray: bool, alias: string,
                                       parent: string, parentName: string, childName: string,
                                       operativeColumn: string)
  {
    predicate IsHasMany() { typ == "ParentHasMany" }
    predicate IsChildHasMany() { typ == "ChildHasMany" }
    predicate IsHasOne() { typ == "HasOne" }
    predicate IsBelongsTo() { typ == "BelongsTo" }

    /** The foreign-key column: the alias first, then the parent's name for the parent-side kinds
        and the target table's name for the child-side kinds, each followed by "ID". */
    function ColumnName(): (r: string)
      ensures alias != "" ==> r == alias + "ID"
      ensures alias == "" && (IsHasMany() || IsHasOne()) ==> r == parent + "ID"
      ensures alias == "" && (IsChildHasMany() || IsBelongsTo()) ==> r == table + "ID"
      ensures r == "" <==> alias == "" && !IsHasMany() && !IsChildHasMany() && !IsHasOne() && !IsBelongsTo()
    {
      if alias != "" then alias + "ID"
      else if typ == "ParentHasMany" then parent + "ID"
      else if typ == "ChildHasMany" then table + "ID"
      else if typ == "HasOne" then parent + "ID"
      else if typ == "BelongsTo" then table + "ID"
      else ""
    }

    function Name(): (r: string)
      ensures alias != "" ==> r == alias
      ensures alias == "" ==> r == table
    {
      if alias != "" then alias else table
    }
  }

  /** The four kinds exclude each other. */
  lemma AtMostOneKind(r: Relationship)
    ensures r.IsHasMany() ==> !r.IsChildHasMany() && !r.IsHasOne() && !r.IsBelongsTo()
    ensures r.IsChildHasMany() ==> !r.IsHasOne() && !r.IsBelongsTo()
    ensures r.IsHasOne() ==> !r.IsBelongsTo()
  {
  }

  /** With an alias, the column is the relationship's name followed by "ID". */
  lemma AliasColumnIsName(r: Relationship)
    requires r.alias != ""
    ensures r.ColumnName() == r.Name() + "ID"
  {
  }

  const ZeroColumn := Column("", "", map[], false, false, "")
  const ZeroRelationship := Relationship("", "", false, "", "", "", "", "")

  // ---------------------------------------------------------------------------------------------
  // Columns of a table

  /** The column of an embedded field: no name; a pointer makes it nullable and holds its target. */
  function EmbeddedColumn(f: Field): Column
  {
    match f.kind
    case Pointer(target) => Column(target, "", f.tag, true, false, "")
    case _ => Column(f.typeText, "", f.tag, false, false, "")
  }

  /** The column of one name of a named field: a pointer makes it nullable and holds its target,
      a slice makes it an array of "[]" and its element. */
  function NamedColumn(f: Field, name: string): Column
  {
    match f.kind
    case Pointer(target) => Column(target, name, f.tag, true, false, "")
    case Slice(elem) => Column("[]" + elem, name, f.tag, false, true, "")
    case Plain => Column(f.typeText, name, f.tag, false, false, "")
  }

  /** The columns of one field: one for an embedded field, else one per name, in order. */
  function FieldColumnsOf(f: Field): (r: seq<Column>)
    ensures |f.names| == 0 ==> |r| == 1 && r[0].name == ""
    ensures |f.names| > 0 ==> |r| == |f.names| && forall k :: 0 <= k < |r| ==> r[k].name == f.names[k]
    ensures forall k :: 0 <= k < |r| ==> (r[k].mustNull <==> f.kind.Pointer?) && r[k].tag == f.tag
    ensures forall k :: 0 <= k < |r| ==> (r[k].isArray <==> f.kind.Slice? && |f.names| > 0)
    ensures forall k :: 0 <= k < |r| ==>
              r[k].goType == (if f.kind.Pointer? then f.kind.target
                              else if f.kind.Slice? && |f.names| > 0 then "[]" + f.kind.elem
                              else f.typeText)
    ensures forall k :: 0 <= k < |r| ==> r[k].includeName == ""
  {
    if |f.names| == 0 then [EmbeddedColumn(f)]
    else seq(|f.names|, k requires 0 <= k < |f.names| => NamedColumn(f, f.names[k]))
  }

  /** The columns of a struct's fields, field by field. */
  function FieldColumns(fields: seq<Field>): seq<Column>
  {
    if fields == [] then [] else FieldColumns(fields[..|fields| - 1]) + FieldColumnsOf(fields[|fields| - 1])
  }

  /** The names a struct's fields contribute: "" for an embedded field, else its names. */
  function FieldNames(fields: seq<Field>): seq<string>
  {
    if fields == [] then []
    else
      var f := fields[|fields| - 1];
      FieldNames(fields[..|fields| - 1]) + (if |f.names| == 0 then [""] else f.names)
  }

  function ColumnNames(cols: seq<Column>): (r: seq<string>)
    ensures |r| == |cols|
  {
    seq(|cols|, k requires 0 <= k < |cols| => cols[k].name)
  }

  /** The columns carry the fields' names, in field order. */
  lemma {:induction false} ColumnNamesInOrder(fields: seq<Field>)
    ensures ColumnNames(FieldColumns(fields)) == FieldNames(fields)
    decreases |fields|
  {
    if fields != [] {
      var init, f := fields[..|fields| - 1], fields[|fields| - 1];
      ColumnNamesInOrder(init);
      var a, b := FieldColumns(init), FieldColumnsOf(f);
      assert ColumnNames(a + b) == ColumnNames(a) + ColumnNames(b);
      assert ColumnNames(b) == (if |f.names| == 0 then [""] else f.names);
    }
  }

  /** The loop of Table.Columns over the fields of the struct. */
  method BuildColumns(fields: seq<Field>) returns (cols: seq<Column>)
    ensures cols == FieldColumns(fields)
  {
    cols := [];
    var i := 0;
    while i < |fields|
      invariant 0 <= i <= |fields|
      invariant cols == FieldColumns(fields[..i])
    {
      var field := fields[i];
      ghost var before := cols;
      if |field.names| == 0 {
        cols := cols + [EmbeddedColumn(field)];
      }
      var j := 0;
      while j < |field.names|
        invariant 0 <= j <= |field.names|
        invariant |field.names| > 0 ==> cols == before + FieldColumnsOf(field)[..j]
        invariant |field.names| == 0 ==> cols == before + FieldColumnsOf(field)
      {
        cols := cols + [NamedColumn(field, field.names[j])];
        assert FieldColumnsOf(field)[..j + 1] == FieldColumnsOf(field)[..j] + [NamedColumn(field, field.names[j])];
        j := j + 1;
      }
      assert |field.names| > 0 ==> FieldColumnsOf(field)[..j] == FieldColumnsOf(field);
      assert fields[..i + 1][..i] == fields[..i];
      i := i + 1;
    }
    assert fields[..i] == fields;
  }

  /** The first column called `name`. */
  function ColumnNamed(cols: seq<Column>, name: string): (r: Option<Column>)
    ensures r.Some? <==> exists k :: 0 <= k < |cols| && cols[k].name == name
    ensures r.Some? ==> exists k :: 0 <= k < |cols| && cols[k] == r.value && r.value.name == name
                                   && forall j :: 0 <= j < k ==> cols[j].name != name
  {
    if |cols| == 0 then None
    else if cols[0].name == name then Some(cols[0])
    else
      var t := cols[1..];
      var r := ColumnNamed(t, name);
      assert r.Some? ==> exists k :: 0 <= k < |cols| && cols[k] == r.value
                                    && forall j :: 0 <= j < k ==> cols[j].name != name by {
        if r.Some? {
          var k :| 0 <= k < |t| && t[k] == r.value && forall j :: 0 <= j < k ==> t[j].name != name;
          assert cols[k + 1] == t[k];
          forall j | 0 <= j < k + 1
            ensures cols[j].name != name
          {
            if j > 0 {
              assert cols[j] == t[j - 1];
            }
          }
        }
      }
      r
  }

  /** The first relationship to the table `name`. */
  function RelationNamed(rels: seq<Relationship>, name: string): (r: Option<Relationship>)
    ensures r.Some? <==> exists k :: 0 <= k < |rels| && rels[k].table == name
    ensures r.Some? ==> exists k :: 0 <= k < |rels| && rels[k] == r.value && r.value.table == name
                                   && forall j :: 0 <= j < k ==> rels[j].table != name
  {
    if |rels| == 0 then None
    else if rels[0].table == name then Some(rels[0])
    else
      var t := rels[1..];
      var r := RelationNamed(t, name);
      assert r.Some? ==> exists k :: 0 <= k < |rels| && rels[k] == r.value
                                    && forall j :: 0 <= j < k ==> rels[j].table != name by {
        if r.Some? {
          var k :| 0 <= k < |t| && t[k] == r.value && forall j :: 0 <= j < k ==> t[j].table != name;
          assert rels[k + 1] == t[k];
          forall j | 0 <= j < k + 1
            ensures rels[j].table != name
          {
            if j > 0 {
              assert rels[j] == t[j - 1];
            }
          }
        }
      }
      r
  }

  class Table {
    const name: string
    const fields: seq<Field>
    var cols: seq<Column>
    var relations: seq<Relationship>
    const indexes: seq<Index>

    constructor (name: string, fields: seq<Field>, relations: seq<Relationship>, indexes: seq<Index>)
      ensures this.name == name && this.fields == fields && this.relations == relations
      ensures this.indexes == indexes && cols == []
    {
      this.name := name;
      this.fields := fields;
      this.relations := relations;
      this.indexes := indexes;
      cols := [];
    }

    /** What Columns returns: the cached columns, or those of the fields when nothing is cached. */
    function ColumnsOf(): seq<Column>
      reads this`cols
    {
      if |cols| == 0 then FieldColumns(fields) else cols
    }

    /** Columns, memoised in `cols`. */
    method Columns() returns (r: seq<Column>)
      modifies this`cols
      ensures r == old(ColumnsOf()) && cols == r
    {
      if |cols| == 0 {
        cols := BuildColumns(fields);
      }
      r := cols;
    }

    /** The first column called `colName`, or the zero column and false. The receiver is a copy,
        so the table's own cache is not filled. */
    method ColumnByName(colName: string) returns (c: Column, ok: bool)
      ensures ok <==> ColumnNamed(ColumnsOf(), colName).Some?
      ensures ok ==> c == ColumnNamed(ColumnsOf(), colName).value
      ensures !ok ==> c == ZeroColumn
    {
      var all := cols;
      if |all| == 0 {
        all := BuildColumns(fields);
      }
      var k := 0;
      while k < |all|
        invariant 0 <= k <= |all|
        invariant ColumnNamed(all, colName) == ColumnNamed(all[k..], colName)
      {
        if all[k].name == colName {
          return all[k], true;
        }
        assert all[k..][1..] == all[k + 1..];
        k := k + 1;
      }
      return ZeroColumn, false;
    }

    /** The first relationship to `tableName`, or the zero relationship and false. */
    method RelationshipTo(tableName: string) returns (r: Relationship, ok: bool)
      ensures ok <==> RelationNamed(relations, tableName).Some?
      ensures ok ==> r == RelationNamed(relations, tableName).value
      ensures !ok ==> r == ZeroRelationship
    {
      var k := 0;
      while k < |relations|
        invariant 0 <= k <= |relations|
        invariant RelationNamed(relations, tableName) == RelationNamed(relations[k..], tableName)
      {
        if relations[k].table == tableName {
          return relations[k], true;
        }
        assert relations[k..][1..] == relations[k + 1..];
        k := k + 1;
      }
      return ZeroRelationship, false;
    }

    /** The first column; an empty column list is an index-out-of-range panic in Go. */
    method PrimaryKeyColumn() returns (c: Column)
      requires |ColumnsOf()| > 0
      modifies this`cols
      ensures c == old(ColumnsOf())[0] && cols == old(ColumnsOf())
    {
      var all := Columns();
      c := all[0];
    }

    /** Some relationship has the kind `relate`. */
    method HasRelationship(relate: string) returns (b: bool)
      ensures b <==> exists k :: 0 <= k < |relations| && relations[k].typ == relate
    {
      var k := 0;
      while k < |relations|
        invariant 0 <= k <= |relations|
        invariant forall j :: 0 <= j < k ==> relations[j].typ != relate
      {
        if relations[k].typ == relate {
          return true;
        }
        k := k + 1;
      }
      return false;
    }
  }

  // ---------------------------------------------------------------------------------------------
  // Generated file names

  datatype ActiveFile = ActiveFile(srcName: string, packageName: string)
  {
    /** The file the processed source is written to: the first ".gp" replaced by "_def.go". */
    function DefName(): (r: string)
      ensures !Contains(srcName, ".gp") ==> r == srcName
      ensures Contains(srcName, ".gp") ==>
                var i := IndexOf(srcName, ".gp").value;
                && OccursAt(srcName, ".gp", i)
                && (forall j :: 0 <= j < i ==> !OccursAt(srcName, ".gp", j))
                && r == srcName[..i] + "_def.go" + srcName[i + 3..]
                && |r| == |srcName| + 4
    {
      ReplaceFirst(srcName, ".gp", "_def.go")
    }
  }
}
