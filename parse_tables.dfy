/** Two passes of parse/tables.go: linking the relationships of a table once every table is
    known (linkRelations) and the line rewriting that turns a .gp source into Go (the scanning
    loop of processFile). */
module ParseTables {
  import opened Strings
  import opened Gp
  import opened ParsePackage

  datatype Result<T> = Ok(value: T) | Failure(error: string)

  // ---------------------------------------------------------------------------------------------
  // Linking relationships

  /** A relationship with its kind and both table names filled in, and its operative column
      computed from the relationship as updated. */
  function Assign(relate: Relationship, typ: string, parentName: string, childName: string): Relationship
  {
    var r := relate.(typ := typ, parentName := parentName, childName := childName);
    r.(operativeColumn := r.ColumnName())
  }

  /** The message linkRelations panics with when a relationship names an unknown table. */
  function MissingTable(name: string): string
  {
    "Table named " + name + " doesn't exist"
  }

  /** Linking one relationship of the table `self`. `hasIdColumn` says whether `self` has a column
      named after the related table plus "ID"; `parentRels` holds the related table's
      relationships, or None when the package has no such table. */
  function Link(relate: Relationship, self: string, hasIdColumn: bool, parentRels: Option<seq<Relationship>>)
    : Result<Relationship>
  {
    if relate.isArray then Ok(Assign(relate, "ParentHasMany", self, relate.table))
    else if !hasIdColumn then Ok(Assign(relate, "HasOne", self, relate.table))
    else match parentRels
      case None => Failure(MissingTable(relate.table))
      case Some(rels) =>
        var back := RelationNamed(rels, self);
        if back.None? || back.value.isArray then Ok(Assign(relate, "ChildHasMany", relate.table, self))
        else Ok(Assign(relate, "BelongsTo", relate.table, self))
  }

  /** The rules of linking: arrays make the parent side of a has-many; without a column named
      after the related table the relationship is a has-one; with one the related table must
      exist, and its relationship back decides between the child side of a has-many (no
      relationship back, or an array) and a belongs-to. Only the kind, the two names and the
      operative column change, and the operative column is the updated relationship's column. */
  lemma LinkRules(relate: Relationship, self: string, hasIdColumn: bool, parentRels: Option<seq<Relationship>>)
    ensures var r := Link(relate, self, hasIdColumn, parentRels);
            && (r.Failure? <==> !relate.isArray && hasIdColumn && parentRels.None?)
            && (r.Failure? ==> r.error == MissingTable(relate.table))
    ensures var r := Link(relate, self, hasIdColumn, parentRels);
            r.Ok? ==> && r.value.table == relate.table && r.value.isArray == relate.isArray
                      && r.value.alias == relate.alias && r.value.parent == relate.parent
                      && r.value.operativeColumn == r.value.ColumnName()
    ensures var r := Link(relate, self, hasIdColumn, parentRels);
            var back := if parentRels.Some? then RelationNamed(parentRels.value, self) else None;
            r.Ok? ==> && (r.value.IsHasMany() <==> relate.isArray)
                      && (r.value.IsHasOne() <==> !relate.isArray && !hasIdColumn)
                      && (r.value.IsChildHasMany() <==>
                            !relate.isArray && hasIdColumn && parentRels.Some? && (back.None? || back.value.isArray))
                      && (r.value.IsBelongsTo() <==>
                            !relate.isArray && hasIdColumn && back.Some? && !back.value.isArray)
    ensures var r := Link(relate, self, hasIdColumn, parentRels);
            r.Ok? ==> && (r.value.IsHasMany() || r.value.IsHasOne() ==>
                            r.value.parentName == self && r.value.childName == relate.table)
                      && (r.value.IsChildHasMany() || r.value.IsBelongsTo() ==>
                            r.value.parentName == relate.table && r.value.childName == self)
  {
  }

  /** Two lists of relationships to the same tables with the same arrayness. */
  predicate SameShape(a: seq<Relationship>, b: seq<Relationship>)
  {
    |a| == |b| && forall k :: 0 <= k < |a| ==> a[k].table == b[k].table && a[k].isArray == b[k].isArray
  }

  /** The first relationship to a table is found at the same place in lists of the same shape. */
  lemma {:induction false} RelationNamedShape(a: seq<Relationship>, b: seq<Relationship>, name: string)
    requires SameShape(a, b)
    ensures RelationNamed(a, name).Some? == RelationNamed(b, name).Some?
    ensures RelationNamed(a, name).Some? ==> RelationNamed(a, name).value.isArray == RelationNamed(b, name).value.isArray
    decreases |a|
  {
    if |a| > 0 && a[0].table != name {
      assert SameShape(a[1..], b[1..]) by {
        forall k | 0 <= k < |a| - 1 ensures a[1..][k].table == b[1..][k].table && a[1..][k].isArray == b[1..][k].isArray {
          assert a[1..][k] == a[k + 1] && b[1..][k] == b[k + 1];
        }
      }
      RelationNamedShape(a[1..], b[1..], name);
    }
  }

  /** Linking looks at the related table's relationships only through their shape. */
  lemma LinkShape(relate: Relationship, self: string, hasIdColumn: bool, p: Option<seq<Relationship>>, q: Option<seq<Relationship>>)
    requires p.Some? == q.Some? && (p.Some? ==> SameShape(p.value, q.value))
    ensures Link(relate, self, hasIdColumn, p) == Link(relate, self, hasIdColumn, q)
  {
    if p.Some? {
      RelationNamedShape(p.value, q.value, self);
    }
  }

  /** The relationships of the table called `name`, if the package has one. */
  function ParentRelations(pkg: Package, name: string): (r: Option<seq<Relationship>>)
    reads pkg, pkg.tables
  {
    match pkg.TableNamed(name)
    case None => None
    case Some(p) => Some(p.relations)
  }

  /** Linking `relate` as a relationship of `table` in the current state of the package. */
  function LinkIn(pkg: Package, table: Table, relate: Relationship): Result<Relationship>
    reads pkg, pkg.tables, table
  {
    Link(relate, table.name, ColumnNamed(table.ColumnsOf(), relate.table + "ID").Some?,
         ParentRelations(pkg, relate.table))
  }

  /** The body of linkRelations' loop for one relationship. */
  method LinkOne(pkg: Package, table: Table, relate: Relationship) returns (r: Result<Relationship>)
    ensures r == LinkIn(pkg, table, relate)
  {
    if relate.isArray {
      return Ok(Assign(relate, "ParentHasMany", table.name, relate.table));
    }
    var _, ok := table.ColumnByName(relate.table + "ID");
    if !ok {
      return Ok(Assign(relate, "HasOne", table.name, relate.table));
    }
    var parent, found := pkg.TableByName(relate.table);
    if !found {
      return Failure(MissingTable(relate.table));
    }
    var pRelate, has := parent.RelationshipTo(table.name);
    if !has || pRelate.isArray {
      return Ok(Assign(relate, "ChildHasMany", relate.table, table.name));
    }
    return Ok(Assign(relate, "BelongsTo", relate.table, table.name));
  }

  datatype Outcome = Linked | Panicked(message: string)

  /** The first relationship whose linking fails. */
  function FirstFailure(plan: seq<Result<Relationship>>): (r: Option<nat>)
    ensures r.Some? ==> r.value < |plan| && plan[r.value].Failure? && forall j :: 0 <= j < r.value ==> plan[j].Ok?
    ensures r.None? ==> forall j :: 0 <= j < |plan| ==> plan[j].Ok?
  {
    if |plan| == 0 then None
    else if plan[0].Failure? then Some(0)
    else match FirstFailure(plan[1..])
      case None => None
      case Some(k) => Some(k + 1)
  }

  /** How far the loop gets: to the first failure, or through every relationship. */
  function Reached(plan: seq<Result<Relationship>>): (n: nat)
    ensures n <= |plan|
  {
    match FirstFailure(plan)
    case None => |plan|
    case Some(k) => k
  }

  /** The relationships after the loop: the linked ones up to where it stopped, the rest as they were. */
  function Applied(plan: seq<Result<Relationship>>, rels: seq<Relationship>): (r: seq<Relationship>)
    requires |plan| == |rels|
    ensures |r| == |rels|
  {
    seq(|rels|, k requires 0 <= k < |rels| => if k < Reached(plan) then plan[k].value else rels[k])
  }

  function OutcomeOf(plan: seq<Result<Relationship>>): Outcome
  {
    match FirstFailure(plan)
    case None => Linked
    case Some(k) => Panicked(plan[k].error)
  }

  /** What linking each relationship of `table` would give in the current state. */
  function Plan(pkg: Package, table: Table): (p: seq<Result<Relationship>>)
    reads pkg, pkg.tables, table
    ensures |p| == |table.relations|
  {
    seq(|table.relations|, k requires 0 <= k < |table.relations| reads pkg, pkg.tables, table =>
      LinkIn(pkg, table, table.relations[k]))
  }

  /** linkRelations: every relationship of `table`, in order, is given its kind, its parent and
      child names and its operative column, written back into the table's own list, which the
      package shares. A relationship naming an unknown table panics; the model returns the panic
      message, with the relationships before it already written. */
  method LinkRelations(pkg: Package, table: Table) returns (outcome: Outcome)
    modifies table`relations
    ensures table.relations == Applied(old(Plan(pkg, table)), old(table.relations))
    ensures outcome == OutcomeOf(old(Plan(pkg, table)))
  {
    ghost var plan := Plan(pkg, table);
    ghost var rels0 := table.relations;
    var i := 0;
    while i < |table.relations|
      invariant 0 <= i <= |rels0| && |table.relations| == |rels0|
      invariant forall j :: 0 <= j < i ==> plan[j].Ok?
      invariant forall j :: 0 <= j < |rels0| ==> table.relations[j] == if j < i then plan[j].value else rels0[j]
      invariant SameShape(table.relations, rels0)
    {
      var relate := table.relations[i];
      var r := LinkOne(pkg, table, relate);
      assert r == plan[i] by {
        assert plan[i] == old(LinkIn(pkg, table, rels0[i]));
        var now, before := ParentRelations(pkg, relate.table), old(ParentRelations(pkg, relate.table));
        assert pkg.TableNamed(relate.table) == old(pkg.TableNamed(relate.table));
        if now.Some? {
          var p := pkg.TableNamed(relate.table).value;
          assert p.relations == table.relations || p.relations == old(p.relations);
        }
        LinkShape(relate, table.name, ColumnNamed(table.ColumnsOf(), relate.table + "ID").Some?, now, before);
      }
      if r.Failure? {
        FirstFailureAt(plan, i);
        AppliedUpTo(plan, rels0, table.relations, i);
        return Panicked(r.error);
      }
      table.relations := table.relations[i := r.value];
      i := i + 1;
    }
    AppliedUpTo(plan, rels0, table.relations, i);
    outcome := Linked;
  }

  /** The relationships linked up to `n`, where the loop stops, are the applied plan. */
  lemma AppliedUpTo(plan: seq<Result<Relationship>>, rels: seq<Relationship>, cur: seq<Relationship>, n: nat)
    requires |plan| == |rels| == |cur| && Reached(plan) == n
    requires forall j :: 0 <= j < |rels| ==> cur[j] == if j < n then plan[j].value else rels[j]
    ensures cur == Applied(plan, rels)
  {
  }

  lemma {:induction false} FirstFailureAt(plan: seq<Result<Relationship>>, i: nat)
    requires i < |plan| && plan[i].Failure? && forall j :: 0 <= j < i ==> plan[j].Ok?
    ensures FirstFailure(plan) == Some(i)
    decreases i
  {
    if i > 0 {
      assert plan[1..][i - 1] == plan[i];
      assert forall j :: 0 <= j < i - 1 ==> plan[1..][j] == plan[j + 1];
      FirstFailureAt(plan[1..], i - 1);
    }
  }

  /** Once linking reaches the end, every relationship holds its linked form, in its old place,
      still naming the same table with the same alias and arrayness. */
  lemma LinkedKeepsEach(plan: seq<Result<Relationship>>, rels: seq<Relationship>)
    requires |plan| == |rels| && OutcomeOf(plan) == Linked
    ensures forall k :: 0 <= k < |rels| ==> plan[k].Ok? && Applied(plan, rels)[k] == plan[k].value
  {
    assert FirstFailure(plan).None?;
    assert Reached(plan) == |plan|;
  }

  /** A panic leaves the relationships from the failing one on as they were. */
  lemma PanicKeepsRest(plan: seq<Result<Relationship>>, rels: seq<Relationship>)
    requires |plan| == |rels| && OutcomeOf(plan).Panicked?
    ensures var k := FirstFailure(plan).value;
            OutcomeOf(plan).message == plan[k].error &&
            Applied(plan, rels)[k..] == rels[k..] &&
            forall j :: 0 <= j < k ==> Applied(plan, rels)[j] == plan[j].value
  {
    var k := FirstFailure(plan).value;
    assert Reached(plan) == k;
    var a := Applied(plan, rels);
    assert a[k..] == rels[k..] by {
      forall j | 0 <= j < |rels| - k ensures a[k..][j] == rels[k..][j] {
        assert a[k + j] == rels[k + j];
      }
    }
  }

  // ---------------------------------------------------------------------------------------------
  // Rewriting the source lines

  predicate IsAlnum(c: char)
  {
    IsLetter(c) || IsDigit(c)
  }

  /** The length of the run of ASCII letters and digits that `s` starts with. */
  function AlnumLen(s: string): (n: nat)
    ensures n <= |s| && (forall i :: 0 <= i < n ==> IsAlnum(s[i])) && (n < |s| ==> !IsAlnum(s[n]))
  {
    if |s| == 0 || !IsAlnum(s[0]) then 0 else 1 + AlnumLen(s[1..])
  }

  /** The regexp `type ([a-zA-Z0-9]+) KEYWORD {` matched at position p of `text`: the name it
      captures. Since the name is followed by a space, it is the whole run of letters and digits. */
  function HeaderAt(text: string, keyword: string, p: nat): (r: Option<string>)
    requires p <= |text|
    ensures r.Some? ==> |r.value| > 0 && forall i :: 0 <= i < |r.value| ==> IsAlnum(r.value[i])
  {
    var rest := text[p..];
    if !("type " <= rest) then None
    else
      var n := AlnumLen(rest[5..]);
      if n > 0 && " " + keyword + " {" <= rest[5 + n..] then Some(rest[5..5 + n]) else None
  }

  /** The leftmost match of the header regexp at or after position p, as FindStringSubmatch
      reports it; None is a failed MatchString. */
  function FindHeader(text: string, keyword: string, p: nat): (r: Option<string>)
    requires p <= |text|
    ensures r.Some? ==> exists q :: p <= q <= |text| && HeaderAt(text, keyword, q) == r
    ensures r.None? ==> forall q :: p <= q <= |text| ==> HeaderAt(text, keyword, q).None?
    decreases |text| - p
  {
    if HeaderAt(text, keyword, p).Some? then HeaderAt(text, keyword, p)
    else if p == |text| then None
    else FindHeader(text, keyword, p + 1)
  }

  /** The regexp `^[a-zA-Z\[]`. */
  predicate CodeStart(s: string)
  {
    |s| > 0 && (IsLetter(s[0]) || s[0] == '[')
  }

  /** The scanning state of processFile: the names of the tables, mixins and subrecords seen, the
      lines written and the relation counter (0 outside a relation block). */
  datatype Scan = Scan(tables: seq<string>, mixins: seq<string>, subrecords: seq<string>,
                       output: seq<string>, inRelation: nat)

  const Start := Scan([], [], [], [], 0)

  /** Which case of processFile's switch a line falls in; the first that matches wins. */
  datatype LineKind =
    | SubrecordHeader(name: string)
    | MixinHeader(name: string)
    | TableHeader(name: string)
    | RelationOpen
    | RelationClose
    | Related(token: string)
    | Other

  function KindOf(text: string, inRelation: nat): (k: LineKind)
    ensures k.Related? ==> k.token == TrimSpace(text)
  {
    var stripped := TrimSpace(text);
    match FindHeader(text, "subrecord", 0)
    case Some(n) => SubrecordHeader(n)
    case None =>
      match FindHeader(text, "mixin", 0)
      case Some(n) => MixinHeader(n)
      case None =>
        match FindHeader(text, "table", 0)
        case Some(n) => TableHeader(n)
        case None =>
          if Contains(text, "relation {") then RelationOpen
          else if inRelation > 0 && stripped == "}" then RelationClose
          else if inRelation > 0 && CodeStart(stripped) && |SplitChar(stripped, ' ')| == 1 then Related(stripped)
          else Other
  }

  /** The line written for `text` when the relation counter is `inRelation`. A code line of a
      relation block with more than one token is written unchanged. */
  function Written(text: string, inRelation: nat): string
  {
    match KindOf(text, inRelation)
    case SubrecordHeader(_) => ReplaceFirst(text, " subrecord ", " struct ")
    case MixinHeader(_) => ReplaceFirst(text, " mixin ", " struct ")
    case TableHeader(_) => ReplaceFirst(text, " table ", " struct ")
    case RelationOpen => "DRRelation struct {"
    case RelationClose => text
    case Related(token) => "DRRelated" + NatToString(inRelation) + " " + token
    case Other => text
  }

  /** One pass of the scanning loop: the case of the switch the line falls in, then the line is
      written. */
  function Step(s: Scan, text: string): (r: Scan)
    ensures r.output == s.output + [Written(text, s.inRelation)]
  {
    var out := s.output + [Written(text, s.inRelation)];
    match KindOf(text, s.inRelation)
    case SubrecordHeader(n) => s.(subrecords := s.subrecords + [n], output := out)
    case MixinHeader(n) => s.(mixins := s.mixins + [n], output := out)
    case TableHeader(n) => s.(tables := s.tables + [n], output := out)
    case RelationOpen => s.(output := out, inRelation := 1)
    case RelationClose => s.(output := out, inRelation := 0)
    case Related(_) => s.(output := out, inRelation := s.inRelation + 1)
    case Other => s.(output := out)
  }

  /** The state after scanning `lines` from `s`. */
  function Run(s: Scan, lines: seq<string>): Scan
  {
    if lines == [] then s else Step(Run(s, lines[..|lines| - 1]), lines[|lines| - 1])
  }

  /** The scanning loop of processFile over the lines bufio.Scanner yields. */
  method ProcessLines(lines: seq<string>) returns (tables: seq<string>, mixins: seq<string>,
                                                   subrecords: seq<string>, output: seq<string>)
    ensures Run(Start, lines) == Scan(tables, mixins, subrecords, output, Run(Start, lines).inRelation)
  {
    tables, mixins, subrecords, output := [], [], [], [];
    var inRelation := 0;
    var k := 0;
    while k < |lines|
      invariant 0 <= k <= |lines|
      invariant Run(Start, lines[..k]) == Scan(tables, mixins, subrecords, output, inRelation)
    {
      var text := lines[k];
      match KindOf(text, inRelation) {
      case SubrecordHeader(n) =>
        subrecords := subrecords + [n];
        text := ReplaceFirst(text, " subrecord ", " struct ");
      case MixinHeader(n) =>
        mixins := mixins + [n];
        text := ReplaceFirst(text, " mixin ", " struct ");
      case TableHeader(n) =>
        tables := tables + [n];
        text := ReplaceFirst(text, " table ", " struct ");
      case RelationOpen =>
        text := "DRRelation struct {";
        inRelation := 1;
      case RelationClose =>
        inRelation := 0;
      case Related(token) =>
        text := "DRRelated" + NatToString(inRelation) + " " + token;
        inRelation := inRelation + 1;
      case Other =>
      }
      output := output + [text];
      assert lines[..k + 1][..k] == lines[..k];
      k := k + 1;
    }
    assert lines[..k] == lines;
  }

  /** Every line read gives exactly one line written, in order. */
  lemma {:induction false} OneLinePerLine(s: Scan, lines: seq<string>)
    ensures |Run(s, lines).output| == |s.output| + |lines|
    ensures Run(s, lines).output[..|s.output|] == s.output
    decreases |lines|
  {
    if lines != [] {
      OneLinePerLine(s, lines[..|lines| - 1]);
    }
  }

  /** Line i of the output is line i of the input as rewritten under the counter the lines before
      it leave. */
  lemma {:induction false} OutputAt(lines: seq<string>, i: nat)
    requires i < |lines|
    ensures |Run(Start, lines).output| == |lines|
    ensures Run(Start, lines).output[i] == Written(lines[i], Run(Start, lines[..i]).inRelation)
    decreases |lines|
  {
    var init := lines[..|lines| - 1];
    var before := Run(Start, init);
    var last := Written(lines[|lines| - 1], before.inRelation);
    assert Run(Start, lines).output == before.output + [last] by {
      assert Run(Start, lines) == Step(before, lines[|lines| - 1]);
    }
    OneLinePerLine(Start, init);
    if i < |lines| - 1 {
      OutputAt(init, i);
      assert init[..i] == lines[..i];
      assert init[i] == lines[i];
      assert (before.output + [last])[i] == before.output[i];
    } else {
      assert init == lines[..i];
    }
  }

  /** A line of a relation block that gets numbered: one token starting with a letter or '[',
      not a header, not a relation opener and not the closing brace. */
  predicate NumberedLine(text: string)
  {
    && FindHeader(text, "subrecord", 0).None? && FindHeader(text, "mixin", 0).None?
    && FindHeader(text, "table", 0).None? && !Contains(text, "relation {")
    && TrimSpace(text) != "}" && CodeStart(TrimSpace(text)) && CountChar(TrimSpace(text), ' ') == 0
  }

  /** Every line of `toks` is a NumberedLine. */
  predicate AllNumbered(toks: seq<string>)
  {
    toks != [] ==> AllNumbered(toks[..|toks| - 1]) && NumberedLine(toks[|toks| - 1])
  }

  /** The numbered names of a relation block's lines, counting from `first`. */
  function Numbered(toks: seq<string>, first: nat): (r: seq<string>)
    ensures |r| == |toks|
  {
    if toks == [] then []
    else
      Numbered(toks[..|toks| - 1], first)
        + ["DRRelated" + NatToString(first + |toks| - 1) + " " + TrimSpace(toks[|toks| - 1])]
  }

  /** Inside a relation block the one-token lines become DRRelated1, DRRelated2, ... in order. */
  lemma {:induction false} BlockNumbering(s: Scan, toks: seq<string>)
    requires s.inRelation == 1
    requires AllNumbered(toks)
    ensures Run(s, toks).output == s.output + Numbered(toks, 1)
    ensures Run(s, toks).inRelation == |toks| + 1
    decreases |toks|
  {
    if toks != [] {
      var init, t := toks[..|toks| - 1], toks[|toks| - 1];
      BlockNumbering(s, init);
      var before := Run(s, init);
      NumberedKind(t, before.inRelation);
      StepRelated(before, t);
    }
  }

  /** A numbered line gets the current count and advances it. */
  lemma StepRelated(s: Scan, text: string)
    requires KindOf(text, s.inRelation) == Related(TrimSpace(text))
    ensures Step(s, text).output == s.output + ["DRRelated" + NatToString(s.inRelation) + " " + TrimSpace(text)]
    ensures Step(s, text).inRelation == s.inRelation + 1
  {
  }

  lemma NumberedKind(text: string, inRelation: nat)
    requires NumberedLine(text) && inRelation > 0
    ensures KindOf(text, inRelation) == Related(TrimSpace(text))
  {
    SplitCharJoin(TrimSpace(text), ' ');
  }

  /** A relation opener line is replaced by the DRRelation struct header and starts the count at 1. */
  lemma RelationOpens(s: Scan, text: string)
    requires FindHeader(text, "subrecord", 0).None? && FindHeader(text, "mixin", 0).None?
    requires FindHeader(text, "table", 0).None? && Contains(text, "relation {")
    ensures Step(s, text).output == s.output + ["DRRelation struct {"] && Step(s, text).inRelation == 1
    ensures Step(s, text).tables == s.tables && Step(s, text).mixins == s.mixins
    ensures Step(s, text).subrecords == s.subrecords
  {
  }

  /** The closing brace of a relation block is written unchanged and ends the block. */
  lemma RelationCloses(s: Scan, text: string)
    requires FindHeader(text, "subrecord", 0).None? && FindHeader(text, "mixin", 0).None?
    requires FindHeader(text, "table", 0).None? && !Contains(text, "relation {")
    requires s.inRelation > 0 && TrimSpace(text) == "}"
    ensures Step(s, text).output == s.output + [text] && Step(s, text).inRelation == 0
  {
  }

  /** A subrecord header records the subrecord's name and declares a struct instead. The
      subrecord case comes first, so this holds whatever the mixin and table patterns find. */
  lemma SubrecordHeaderLine(s: Scan, text: string, name: string)
    requires FindHeader(text, "subrecord", 0) == Some(name)
    ensures Step(s, text).subrecords == s.subrecords + [name]
    ensures Step(s, text).tables == s.tables && Step(s, text).mixins == s.mixins
    ensures Step(s, text).output == s.output + [ReplaceFirst(text, " subrecord ", " struct ")]
    ensures Step(s, text).inRelation == s.inRelation
  {
  }

  /** A mixin header that is not a subrecord header records the mixin's name and declares a
      struct instead, whatever the table pattern finds. */
  lemma MixinHeaderLine(s: Scan, text: string, name: string)
    requires FindHeader(text, "subrecord", 0).None? && FindHeader(text, "mixin", 0) == Some(name)
    ensures Step(s, text).mixins == s.mixins + [name]
    ensures Step(s, text).tables == s.tables && Step(s, text).subrecords == s.subrecords
    ensures Step(s, text).output == s.output + [ReplaceFirst(text, " mixin ", " struct ")]
    ensures Step(s, text).inRelation == s.inRelation
  {
  }

  /** A table header that is neither a subrecord nor a mixin header records the table's name and
      declares a struct instead. */
  lemma TableHeaderLine(s: Scan, text: string, name: string)
    requires FindHeader(text, "subrecord", 0).None? && FindHeader(text, "mixin", 0).None?
    requires FindHeader(text, "table", 0) == Some(name)
    ensures Step(s, text).tables == s.tables + [name]
    ensures Step(s, text).mixins == s.mixins && Step(s, text).subrecords == s.subrecords
    ensures Step(s, text).output == s.output + [ReplaceFirst(text, " table ", " struct ")]
    ensures Step(s, text).inRelation == s.inRelation
  {
  }

  /** A line `type NAME KEYWORD {` is found as a header of NAME by the pattern of KEYWORD
      (table, mixin or subrecord). */
  lemma HeaderFound(name: string, keyword: string, rest: string)
    requires |name| > 0 && forall i :: 0 <= i < |name| ==> IsAlnum(name[i])
    ensures FindHeader("type " + name + " " + keyword + " {" + rest, keyword, 0) == Some(name)
  {
    var key := " " + keyword + " {";
    var tail := key + rest;
    var text := "type " + (name + tail);
    assert "type " + name + " " + keyword + " {" + rest == text by {
      AppendAssoc(" ", keyword, " {");
      assert " " + keyword + " {" == key;
      AppendAssoc("type " + name, " " + keyword, " {");
      AppendAssoc("type " + name, key, rest);
      AppendAssoc("type ", name, tail);
    }
    HeaderAtStart(name, keyword, tail);
  }

  /** A header at the start of the text is matched there. */
  lemma HeaderAtStart(name: string, keyword: string, tail: string)
    requires |name| > 0 && forall i :: 0 <= i < |name| ==> IsAlnum(name[i])
    requires " " + keyword + " {" <= tail
    ensures HeaderAt("type " + (name + tail), keyword, 0) == Some(name)
  {
    var after := name + tail;
    var text := "type " + after;
    assert text[0..] == text;
    assert text[5..] == after;
    AlnumRun(name, tail);
    assert after[|name|..] == tail && after[..|name|] == name;
    assert text[5 + |name|..] == tail;
    assert text[5..5 + |name|] == name;
    assert HeaderAt(text, keyword, 0) == Some(name);
  }

  lemma {:induction false} AlnumRun(name: string, rest: string)
    requires forall i :: 0 <= i < |name| ==> IsAlnum(name[i])
    requires |rest| > 0 && !IsAlnum(rest[0])
    ensures AlnumLen(name + rest) == |name|
    decreases |name|
  {
    if |name| > 0 {
      assert (name + rest)[1..] == name[1..] + rest;
      AlnumRun(name[1..], rest);
    } else {
      assert name + rest == rest;
    }
  }
}
