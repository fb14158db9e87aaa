/** The earlier version of package parse kept at the top of the repository (package.go). Its
    columns know the column of the parent table that points at them (ParentCol), []byte is not a
    simple type there, and only named fields become columns. Tags, fields, lengths and generated
    file names are those of module Gp. */
module RootPackage {
  import opened Strings
  import Gp

  /** A column; `parentCol` is the column of the parent table whose ChildColumn linked this one. */
  datatype Column = Column(goType: string, name: string, tag: Gp.Tag, mustNull: bool, isArray: bool,
                           parentCol: Option<Column>, childHasMany: bool)
  {
    /** []byte is not simple in this version. */
    predicate SimpleType()
    {
      goType in Gp.SimpleTypes - {"[]byte"}
    }

    /** The SQL type; []byte has no blob case here and falls to varchar. */
    function Type(): (r: string)
      ensures goType != "[]byte" ==> r == Gp.SqlType(goType, tag)
      ensures goType == "[]byte" ==> r == "varchar"
    {
      if goType == "int" then "integer"
      else if goType == "string" then (if Gp.TagGet(tag, "type") == "text" then "text" else "varchar")
      else if goType == "&{time Time}" then "timestamp"
      else if goType == "float32" then "real"
      else if goType == "float64" then "double precision"
      else if goType == "bool" then "boolean"
      else "varchar"
    }

    function Length(): int
    {
      Gp.SqlLength(goType, tag)
    }

    predicate IsHasMany()
    {
      !SimpleType() && isArray && Gp.TagGet(tag, "through") == ""
    }

    predicate IsChildHasMany()
    {
      parentCol.Some? && childHasMany
    }

    predicate IsHasOne()
    {
      !SimpleType() && !isArray && Gp.TagGet(tag, "through") == ""
    }

    predicate IsBelongsTo()
    {
      parentCol.Some? && !childHasMany
    }

    predicate IsHasManyThrough()
    {
      !SimpleType() && isArray && Gp.TagGet(tag, "through") != ""
    }
  }

  /** The parent-side kinds hold only for non-simple columns and exclude each other; a non-simple
      column has none of them only when it is not an array but has a through tag. */
  lemma ParentKinds(c: Column)
    ensures c.SimpleType() ==> !c.IsHasMany() && !c.IsHasOne() && !c.IsHasManyThrough()
    ensures !c.SimpleType() ==>
              (c.IsHasMany() || c.IsHasOne() || c.IsHasManyThrough() <==> c.isArray || Gp.TagGet(c.tag, "through") == "")
    ensures !(c.IsHasMany() && c.IsHasOne()) && !(c.IsHasMany() && c.IsHasManyThrough())
    ensures !(c.IsHasOne() && c.IsHasManyThrough())
  {
  }

  /** A column has a child-side kind exactly when it has a parent column, and then exactly one. */
  lemma ChildKinds(c: Column)
    ensures c.IsChildHasMany() || c.IsBelongsTo() <==> c.parentCol.Some?
    ensures !(c.IsChildHasMany() && c.IsBelongsTo())
  {
  }

  /** Column lengths follow the rules of package gp. */
  lemma LengthAsGp(c: Column, g: Gp.Column)
    requires c.goType == g.goType && c.tag == g.tag
    ensures c.Length() == g.Length()
  {
  }

  /** The column of one name of a field: a pointer makes it nullable and holds its target, a
      slice makes it an array of its element (kept without "[]"). */
  function NamedColumn(f: Gp.Field, name: string): (c: Column)
    ensures c.name == name && c.parentCol.None? && OfField(c, f)
  {
    if f.kind.Pointer? then Column(f.kind.target, name, f.tag, true, false, None, false)
    else if f.kind.Slice? then Column(f.kind.elem, name, f.tag, false, true, None, false)
    else Column(f.typeText, name, f.tag, false, false, None, false)
  }

  /** A column has the type of its field, with a pointer's target and a slice's bare element; a
      pointer makes it nullable and a slice an array; it carries the field's tag. */
  predicate OfField(c: Column, f: Gp.Field)
  {
    && c.goType == (if f.kind.Pointer? then f.kind.target else if f.kind.Slice? then f.kind.elem else f.typeText)
    && (c.mustNull <==> f.kind.Pointer?) && (c.isArray <==> f.kind.Slice?)
    && c.tag == f.tag && !c.childHasMany
  }

  /** The columns of a struct's fields: one per name, embedded fields giving none, each made from
      the field its name belongs to. */
  function FieldColumns(fields: seq<Gp.Field>): (r: seq<Column>)
    ensures |r| == |NamesOf(fields)| == |OwnersOf(fields)|
    ensures forall k :: 0 <= k < |r| ==> r[k].name == NamesOf(fields)[k] && r[k].parentCol.None?
    ensures forall k :: 0 <= k < |r| ==> OfField(r[k], OwnersOf(fields)[k])
  {
    if fields == [] then []
    else
      var init, f := fields[..|fields| - 1], fields[|fields| - 1];
      var front := FieldColumns(init);
      var back := seq(|f.names|, k requires 0 <= k < |f.names| => NamedColumn(f, f.names[k]));
      assert NamesOf(fields) == NamesOf(init) + f.names;
      assert OwnersOf(fields) == OwnersOf(init) + seq(|f.names|, _ => f);
      front + back
  }

  /** The names of the fields, in order. */
  function NamesOf(fields: seq<Gp.Field>): seq<string>
  {
    if fields == [] then [] else NamesOf(fields[..|fields| - 1]) + fields[|fields| - 1].names
  }

  /** The field each name comes from, one entry per name. */
  function OwnersOf(fields: seq<Gp.Field>): (r: seq<Gp.Field>)
    ensures |r| == |NamesOf(fields)|
  {
    if fields == [] then []
    else
      var f := fields[|fields| - 1];
      OwnersOf(fields[..|fields| - 1]) + seq(|f.names|, _ => f)
  }

  /** With only embedded fields there are no columns. */
  lemma {:induction false} EmbeddedGiveNone(fields: seq<Gp.Field>)
    requires forall k :: 0 <= k < |fields| ==> fields[k].names == []
    ensures FieldColumns(fields) == []
    decreases |fields|
  {
    if fields != [] {
      EmbeddedGiveNone(fields[..|fields| - 1]);
      assert fields[|fields| - 1].names == [];
    }
  }

  /** The loop of Table.Columns over the fields of the struct, with the columns appended in turn. */
  method BuildColumns(fields: seq<Gp.Field>) returns (cols: seq<Column>)
    ensures cols == FieldColumns(fields)
  {
    cols := [];
    var i := 0;
    while i < |fields|
      invariant 0 <= i <= |fields|
      invariant cols == FieldColumns(fields[..i])
    {
      var field := fields[i];
      ghost var before := cols;
      ghost var all := seq(|field.names|, k requires 0 <= k < |field.names| => NamedColumn(field, field.names[k]));
      var j := 0;
      while j < |field.names|
        invariant 0 <= j <= |field.names|
        invariant cols == before + all[..j]
      {
        cols := cols + [NamedColumn(field, field.names[j])];
        assert all[..j + 1] == all[..j] + [all[j]];
        j := j + 1;
      }
      assert all[..j] == all;
      assert fields[..i + 1][..i] == fields[..i];
      i := i + 1;
    }
    assert fields[..i] == fields;
  }

  class Table {
    const name: string
    const fields: seq<Gp.Field>
    var cols: seq<Column>

    constructor (name: string, fields: seq<Gp.Field>)
      ensures this.name == name && this.fields == fields && cols == []
    {
      this.name := name;
      this.fields := fields;
      cols := [];
    }

    function ColumnsOf(): seq<Column>
      reads this`cols
    {
      if |cols| == 0 then FieldColumns(fields) else cols
    }

    /** Columns, memoised in `cols`. */
    method Columns() returns (r: seq<Column>)
      modifies this`cols
      ensures r == old(ColumnsOf()) && cols == r
    {
      if |cols| == 0 {
        cols := BuildColumns(fields);
      }
      r := cols;
    }

    /** The first column; an empty column list is an index-out-of-range panic in Go. */
    method PrimaryKeyColumn() returns (c: Column)
      requires |ColumnsOf()| > 0
      modifies this`cols
      ensures c == old(ColumnsOf())[0] && cols == old(ColumnsOf())
    {
      var all := Columns();
      c := all[0];
    }
  }

  class Package {
    const tables: seq<Table>
    const activeFiles: seq<Gp.ActiveFile>

    constructor (tables: seq<Table>, activeFiles: seq<Gp.ActiveFile>)
      ensures this.tables == tables && this.activeFiles == activeFiles
    {
      this.tables := tables;
      this.activeFiles := activeFiles;
    }

    /** The package clause of the first active file; without one Go panics. */
    function Name(): (r: string)
      requires |activeFiles| > 0
      ensures r == activeFiles[0].packageName
    {
      activeFiles[0].packageName
    }
  }

  // ---------------------------------------------------------------------------------------------
  // ChildColumn

  /** A column a parent column can link: by the column tag, the column of that name; otherwise a
      column whose name starts with the parent table's name and whose type is not that table. */
  predicate Candidate(col: Column, byTag: bool, colname: string, owner: string)
  {
    if byTag then col.name == colname else owner <= col.name && col.goType != owner
  }

  /** The first candidate among `cols`. */
  function FirstCandidate(cols: seq<Column>, byTag: bool, colname: string, owner: string): (r: Option<nat>)
    ensures r.Some? ==> r.value < |cols| && Candidate(cols[r.value], byTag, colname, owner)
    ensures r.Some? ==> forall i :: 0 <= i < r.value ==> !Candidate(cols[i], byTag, colname, owner)
    ensures r.None? ==> forall i :: 0 <= i < |cols| ==> !Candidate(cols[i], byTag, colname, owner)
  {
    if |cols| == 0 then None
    else if Candidate(cols[0], byTag, colname, owner) then Some(0)
    else match FirstCandidate(cols[1..], byTag, colname, owner)
      case None => None
      case Some(i) => Some(i + 1)
  }

  /** The names and cached columns of the package's tables. */
  function View(tables: seq<Table>): (v: seq<(string, seq<Column>)>)
    reads tables
    ensures |v| == |tables|
    ensures forall k :: 0 <= k < |tables| ==> v[k] == (tables[k].name, tables[k].cols)
  {
    seq(|tables|, k requires 0 <= k < |tables| reads tables => (tables[k].name, tables[k].cols))
  }

  /** A table named `goType` with a candidate column. */
  predicate Hit(t: (string, seq<Column>), goType: string, byTag: bool, colname: string, owner: string)
  {
    t.0 == goType && FirstCandidate(t.1, byTag, colname, owner).Some?
  }

  /** The first table named `goType` holding a candidate, and its first candidate. */
  function Target(view: seq<(string, seq<Column>)>, goType: string, byTag: bool, colname: string, owner: string)
    : (r: Option<(nat, nat)>)
    ensures r.Some? ==> && r.value.0 < |view| && Hit(view[r.value.0], goType, byTag, colname, owner)
                        && FirstCandidate(view[r.value.0].1, byTag, colname, owner) == Some(r.value.1)
                        && forall k :: 0 <= k < r.value.0 ==> !Hit(view[k], goType, byTag, colname, owner)
    ensures r.None? ==> forall k :: 0 <= k < |view| ==> !Hit(view[k], goType, byTag, colname, owner)
  {
    if |view| == 0 then None
    else if Hit(view[0], goType, byTag, colname, owner) then
      Some((0, FirstCandidate(view[0].1, byTag, colname, owner).value))
    else match Target(view[1..], goType, byTag, colname, owner)
      case None => None
      case Some(p) => Some((p.0 + 1, p.1))
  }

  /** The column ChildColumn links, searched by tag first when the column tag is set, else (or
      when that finds nothing) by the parent table's name. */
  function ChildTarget(view: seq<(string, seq<Column>)>, c: Column, owner: string): (r: Option<(nat, nat)>)
  {
    var colname := Gp.TagGet(c.tag, "column");
    var byTag := if colname != "" then Target(view, c.goType, true, colname, owner) else None;
    if byTag.Some? then byTag else Target(view, c.goType, false, colname, owner)
  }

  /** A child column linked to the parent column `c`; an array parent makes it a has-many child. */
  function Marked(col: Column, c: Column): (m: Column)
    ensures m.IsChildHasMany() <==> c.isArray || col.childHasMany
    ensures m.IsBelongsTo() <==> !c.isArray && !col.childHasMany
    ensures m.name == col.name && m.goType == col.goType && m.tag == col.tag
  {
    col.(parentCol := Some(c), childHasMany := if c.isArray then true else col.childHasMany)
  }

  /** The first table named `goType` with a candidate among its cached columns: links that column
      to `c` in place and returns its name. */
  method LinkFirst(pkg: Package, c: Column, byTag: bool, colname: string, owner: string)
    returns (found: bool, name: string)
    modifies pkg.tables
    ensures var t := Target(old(View(pkg.tables)), c.goType, byTag, colname, owner);
            && (found <==> t.Some?)
            && (found ==> var k, i := t.value.0, t.value.1;
                  && name == old(pkg.tables[k].cols[i].name)
                  && pkg.tables[k].cols == old(pkg.tables[k].cols)[i := Marked(old(pkg.tables[k].cols[i]), c)]
                  && forall u :: u in pkg.tables && u != pkg.tables[k] ==> u.cols == old(u.cols))
            && (!found ==> name == "" && forall u :: u in pkg.tables ==> u.cols == old(u.cols))
  {
    ghost var view := View(pkg.tables);
    var k := 0;
    while k < |pkg.tables|
      invariant 0 <= k <= |pkg.tables|
      invariant forall u :: u in pkg.tables ==> u.cols == old(u.cols)
      invariant forall j :: 0 <= j < k ==> !Hit(view[j], c.goType, byTag, colname, owner)
    {
      var tbl := pkg.tables[k];
      if tbl.name == c.goType {
        var i := 0;
        while i < |tbl.cols|
          invariant 0 <= i <= |tbl.cols|
          invariant forall j :: 0 <= j < i ==> !Candidate(tbl.cols[j], byTag, colname, owner)
        {
          var col := tbl.cols[i];
          if Candidate(col, byTag, colname, owner) {
            assert FirstCandidate(view[k].1, byTag, colname, owner) == Some(i) by {
              FirstCandidateAt(view[k].1, byTag, colname, owner, i);
            }
            TargetAt(view, c.goType, byTag, colname, owner, k, i);
            tbl.cols := tbl.cols[i := Marked(col, c)];
            return true, col.name;
          }
          i := i + 1;
        }
      }
      k := k + 1;
    }
    return false, "";
  }

  lemma {:induction false} FirstCandidateAt(cols: seq<Column>, byTag: bool, colname: string, owner: string, i: nat)
    requires i < |cols| && Candidate(cols[i], byTag, colname, owner)
    requires forall j :: 0 <= j < i ==> !Candidate(cols[j], byTag, colname, owner)
    ensures FirstCandidate(cols, byTag, colname, owner) == Some(i)
  {
  }

  lemma TargetAt(view: seq<(string, seq<Column>)>, goType: string, byTag: bool, colname: string, owner: string,
                 k: nat, i: nat)
    requires k < |view| && Hit(view[k], goType, byTag, colname, owner)
    requires FirstCandidate(view[k].1, byTag, colname, owner) == Some(i)
    requires forall j :: 0 <= j < k ==> !Hit(view[j], goType, byTag, colname, owner)
    ensures Target(view, goType, byTag, colname, owner) == Some((k, i))
  {
  }

  /** Column.ChildColumn for the column `c` of the table called `owner`: links the child column
      in the related table's cached columns, which the package's tables share, and returns its
      name, or "" when there is none. */
  method ChildColumn(pkg: Package, c: Column, owner: string) returns (name: string)
    modifies pkg.tables
    ensures var t := ChildTarget(old(View(pkg.tables)), c, owner);
            && (t.Some? ==> var k, i := t.value.0, t.value.1;
                  && name == old(pkg.tables[k].cols[i].name)
                  && pkg.tables[k].cols == old(pkg.tables[k].cols)[i := Marked(old(pkg.tables[k].cols[i]), c)]
                  && forall u :: u in pkg.tables && u != pkg.tables[k] ==> u.cols == old(u.cols))
            && (t.None? ==> name == "" && forall u :: u in pkg.tables ==> u.cols == old(u.cols))
  {
    ghost var view := View(pkg.tables);
    var colname := Gp.TagGet(c.tag, "column");
    if colname != "" {
      var found, n := LinkFirst(pkg, c, true, colname, owner);
      if found {
        return n;
      }
      assert View(pkg.tables) == view;
    }
    var _, n := LinkFirst(pkg, c, false, colname, owner);
    name := n;
  }
}
