/** The Package of package parse (parse/package.go). Its Column, Relationship, Table and
    ActiveFile code is the same as package gp's and is taken from module Gp; what differs is the
    memoised package name and a Preset that ignores the type tag. */
module ParsePackage {
  import opened Strings
  import opened Gp

  class Package {
    var tables: seq<Table>
    const subrecords: seq<Subrecord>
    const activeFiles: seq<ActiveFile>
    /** The cached package name; None is Go's nil pointer. */
    var name: Option<string>

    constructor (tables: seq<Table>, subrecords: seq<Subrecord>, activeFiles: seq<ActiveFile>)
      ensures this.tables == tables && this.subrecords == subrecords
      ensures this.activeFiles == activeFiles && name == None
    {
      this.tables := tables;
      this.subrecords := subrecords;
      this.activeFiles := activeFiles;
      name := None;
    }

    /** The package name: the one set or cached before, else the package clause of the first
        active file, which is then cached. Without either, Go indexes an empty slice and panics. */
    method Name() returns (r: string)
      requires name.Some? || |activeFiles| > 0
      modifies this`name
      ensures old(name).Some? ==> r == old(name).value
      ensures old(name).None? ==> r == activeFiles[0].packageName
      ensures name == Some(r)
    {
      if name.None? {
        name := Some(activeFiles[0].packageName);
      }
      r := name.value;
    }

    /** Overrides the package name; every later Name returns `n`. */
    method SetName(n: string)
      modifies this`name
      ensures name == Some(n)
    {
      name := Some(n);
    }

    /** The first table called `tableName`. */
    function TableNamed(tableName: string): Option<Table>
      reads this`tables
    {
      TableIn(tables, tableName)
    }

    /** The first table called `tableName`, or null and false (Go's zero Table). */
    method TableByName(tableName: string) returns (t: Table?, ok: bool)
      ensures ok <==> TableNamed(tableName).Some?
      ensures ok ==> t == TableNamed(tableName).value
      ensures !ok ==> t == null
    {
      var k := 0;
      while k < |tables|
        invariant 0 <= k <= |tables|
        invariant TableIn(tables, tableName) == TableIn(tables[k..], tableName)
      {
        if tables[k].name == tableName {
          return tables[k], true;
        }
        assert tables[k..][1..] == tables[k + 1..];
        k := k + 1;
      }
      return null, false;
    }
  }

  /** The first table of `tables` called `tableName`. */
  function TableIn(tables: seq<Table>, tableName: string): (r: Option<Table>)
    ensures r.Some? ==> r.value in tables
    ensures r.Some? <==> exists k :: 0 <= k < |tables| && tables[k].name == tableName
    ensures r.Some? ==> exists k :: 0 <= k < |tables| && tables[k] == r.value && r.value.name == tableName
                                   && forall j :: 0 <= j < k ==> tables[j].name != tableName
  {
    if |tables| == 0 then None
    else if tables[0].name == tableName then Some(tables[0])
    else
      var t := tables[1..];
      var r := TableIn(t, tableName);
      assert r.Some? ==> exists k :: 0 <= k < |tables| && tables[k] == r.value
                                    && forall j :: 0 <= j < k ==> tables[j].name != tableName by {
        if r.Some? {
          var k :| 0 <= k < |t| && t[k] == r.value && forall j :: 0 <= j < k ==> t[j].name != tableName;
          assert tables[k + 1] == t[k];
          forall j | 0 <= j < k + 1
            ensures tables[j].name != tableName
          {
            if j > 0 {
              assert tables[j] == t[j - 1];
            }
          }
        }
      }
      r
  }

  /** Package parse's Preset: one of the preset types without a length tag; a type tag does not
      matter here. */
  predicate Preset(c: Column)
  {
    c.goType in PresetTypes && TagGet(c.tag, "length") == ""
  }

  /** Package parse's Preset accepts everything package gp's does, and more exactly the columns
      with a type tag. */
  lemma PresetWiderThanGp(c: Column)
    ensures c.Preset() ==> Preset(c)
    ensures Preset(c) && !c.Preset() <==> Preset(c) && TagGet(c.tag, "type") != ""
  {
  }
}
