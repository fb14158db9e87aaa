/** The runtime library that the generator emits with every package (the libTemplate text of
    parse/lib.go): placeholder rewriting, the condition builders of a scope, SELECT assembly, and
    the INSERT/UPDATE/DELETE statements of the record helpers. */
module Lib {
  import opened Strings
  import opened Schema
  import opened Naming
  import opened Systems

  /** A Go interface{} argument: nil, or one of the values the builders pass along unchanged. */
  datatype Value = Nil | IntV(i: int) | StrV(s: string) | ListV(items: seq<Value>)

  /** The generated Conn as lib.go uses it: whether to rewrite `?` placeholders, whether inserts
      return the new key, and the naming configuration. */
  datatype Conn = Conn(reformat: bool, returning: bool, config: Translator)

  // ---------------------------------------------------------------- placeholders

  /** The k-th `?` of `s` (counted from `next`) becomes `$k`; everything else is kept. */
  function Placeholders(s: string, next: nat): string
    decreases |s|
  {
    if |s| == 0 then ""
    else if s[0] == '?' then "$" + NatToString(next) + Placeholders(s[1..], next + 1)
    else [s[0]] + Placeholders(s[1..], next)
  }

  /** The pieces between the `?`s, each but the last followed by `$k`. */
  function Assemble(parts: seq<string>, next: nat): string
    requires |parts| > 0
    decreases |parts|
  {
    if |parts| == 1 then parts[0]
    else parts[0] + "$" + NatToString(next) + Assemble(parts[1..], next + 1)
  }

  /** Assembling from a piece that is not the last: the piece, its `$k`, then the rest. */
  lemma AssembleStep(parts: seq<string>, i: nat)
    requires i + 1 < |parts|
    ensures Assemble(parts[i..], i + 1)
              == parts[i] + "$" + NatToString(i + 1) + Assemble(parts[i + 1..], i + 2)
  {
    assert parts[i..][1..] == parts[i + 1..];
  }

  lemma {:induction false} AssembleSplit(s: string, next: nat)
    ensures Assemble(SplitChar(s, '?'), next) == Placeholders(s, next)
    decreases |s|
  {
    if |s| > 0 {
      var rest := SplitChar(s[1..], '?');
      if s[0] == '?' {
        AssembleSplit(s[1..], next + 1);
        var parts := [""] + rest;
        assert SplitChar(s, '?') == parts;
        assert parts[1..] == rest;
        assert Assemble(parts, next) == "" + "$" + NatToString(next) + Assemble(rest, next + 1);
      } else {
        AssembleSplit(s[1..], next);
        var head := [s[0]] + rest[0];
        var parts := [head] + rest[1..];
        assert SplitChar(s, '?') == parts;
        if |rest| > 1 {
          assert parts[1..] == rest[1..];
          assert Assemble(parts, next) == head + "$" + NatToString(next) + Assemble(rest[1..], next + 1);
          assert Assemble(rest, next) == rest[0] + "$" + NatToString(next) + Assemble(rest[1..], next + 1);
        }
      }
    }
  }

  /** Conn.FormatQuery: splits at `?`, appends `$<i+1>` to every piece but the last and joins. */
  method FormatQuery(c: Conn, query: string) returns (r: string)
    ensures !c.reformat ==> r == query
    ensures c.reformat ==> r == Placeholders(query, 1)
  {
    if !c.reformat {
      return query;
    }
    var parts := SplitChar(query, '?');
    var newQuery: seq<string> := [];
    var i := 0;
    while i < |parts| - 1
      invariant 0 <= i <= |parts| - 1
      invariant Join(newQuery, "") + Assemble(parts[i..], i + 1) == Assemble(parts, 1)
    {
      var piece := parts[i] + "$" + NatToString(i + 1);
      AssembleStep(parts, i);
      JoinNoSep(newQuery, piece);
      AppendAssoc(Join(newQuery, ""), piece, Assemble(parts[i + 1..], i + 2));
      newQuery := newQuery + [piece];
      i := i + 1;
    }
    assert Assemble(parts[i..], i + 1) == parts[|parts| - 1];
    JoinNoSep(newQuery, parts[|parts| - 1]);
    newQuery := newQuery + [parts[|parts| - 1]];
    r := Join(newQuery, "");
    AssembleSplit(query, 1);
  }

  /** After rewriting no `?` is left. */
  lemma {:induction false} PlaceholdersLeaveNoQuestionMark(s: string, next: nat)
    ensures CountChar(Placeholders(s, next), '?') == 0
    decreases |s|
  {
    if |s| > 0 {
      PlaceholdersLeaveNoQuestionMark(s[1..], next + (if s[0] == '?' then 1 else 0));
      if s[0] == '?' {
        CountCharAbsent("$" + NatToString(next), '?');
        CountCharAppend("$" + NatToString(next), Placeholders(s[1..], next + 1), '?');
      } else {
        CountCharAppend([s[0]], Placeholders(s[1..], next), '?');
      }
    }
  }

  /** A query without `?` is sent unchanged. */
  lemma {:induction false} PlaceholdersIdentity(s: string, next: nat)
    requires CountChar(s, '?') == 0
    ensures Placeholders(s, next) == s
    decreases |s|
  {
    if |s| > 0 {
      PlaceholdersIdentity(s[1..], next);
      assert s == [s[0]] + s[1..];
    }
  }

  /** Rewriting a concatenation: the second half continues the numbering of the first. */
  lemma {:induction false} PlaceholdersAppend(a: string, b: string, next: nat)
    ensures Placeholders(a + b, next) == Placeholders(a, next) + Placeholders(b, next + CountChar(a, '?'))
    decreases |a|
  {
    if |a| == 0 {
      assert a + b == b;
    } else {
      var after := if a[0] == '?' then next + 1 else next;
      var head := if a[0] == '?' then "$" + NatToString(next) else [a[0]];
      assert (a + b)[0] == a[0] && (a + b)[1..] == a[1..] + b;
      assert Placeholders(a + b, next) == head + Placeholders(a[1..] + b, after);
      assert Placeholders(a, next) == head + Placeholders(a[1..], after);
      assert after + CountChar(a[1..], '?') == next + CountChar(a, '?');
      PlaceholdersAppend(a[1..], b, after);
      AppendAssoc(head, Placeholders(a[1..], after), Placeholders(b, next + CountChar(a, '?')));
    }
  }

  /** The `?` that follows `before` becomes `$k` with k one more than the number of `?`s in
      `before` (counted from `next`), and the text on either side is rewritten independently. */
  lemma PlaceholderNumbering(before: string, after: string, next: nat)
    ensures Placeholders(before + "?" + after, next)
              == Placeholders(before, next) + "$" + NatToString(next + CountChar(before, '?'))
                 + Placeholders(after, next + CountChar(before, '?') + 1)
  {
    var k := next + CountChar(before, '?');
    var rest := "?" + after;
    PlaceholdersAppend(before, rest, next);
    AppendAssoc(before, "?", after);
    PlaceholderFirst(after, k);
    var p := Placeholders(before, next);
    AppendAssoc(p, "$" + NatToString(k), Placeholders(after, k + 1));
    AppendAssoc(p, "$", NatToString(k));
  }

  lemma PlaceholderFirst(after: string, next: nat)
    ensures Placeholders("?" + after, next) == "$" + NatToString(next) + Placeholders(after, next + 1)
  {
    assert ("?" + after)[0] == '?';
    assert ("?" + after)[1..] == after;
  }

  // ---------------------------------------------------------------- questions

  /** `?` repeated n times with `,` between them, without spaces. */
  function QuestionList(n: nat): string
    requires n >= 1
  {
    if n == 1 then "?" else QuestionList(n - 1) + ",?"
  }

  lemma {:induction false} QuestionListShape(n: nat)
    requires n >= 1
    ensures |QuestionList(n)| == 2 * n - 1
    ensures forall i :: 0 <= i < 2 * n - 1 ==> QuestionList(n)[i] == (if i % 2 == 0 then '?' else ',')
  {
    if n > 1 {
      QuestionListShape(n - 1);
    }
  }

  /** questions(n) holds exactly n `?`, one per value of the statement it is part of. */
  lemma {:induction false} QuestionListCount(n: nat)
    requires n >= 1
    ensures CountChar(QuestionList(n), '?') == n
  {
    if n > 1 {
      QuestionListCount(n - 1);
      assert ",?" == "," + "?";
      NoMarks(",");
      MarkAtEnd(",");
      CountCharAppend(QuestionList(n - 1), ",?", '?');
    }
  }

  /** questions(n) fills a byte array of length 2n-1: `?` at even positions, `,` at odd ones.
      n = 0 makes a negative-length array, a panic in Go. */
  method Questions(n: int) returns (r: string)
    requires n >= 1
    ensures r == QuestionList(n)
  {
    var chars := new char[n * 2 - 1];
    var i := 0;
    while i < chars.Length
      invariant 0 <= i <= chars.Length
      invariant forall j :: 0 <= j < i ==> chars[j] == (if j % 2 == 0 then '?' else ',')
    {
      if i % 2 == 0 {
        chars[i] := '?';
      } else {
        chars[i] := ',';
      }
      i := i + 1;
    }
    r := chars[..];
    QuestionListShape(n);
  }

  // ---------------------------------------------------------------- conditions

  datatype Condition = Condition(column: string, cond: string, vals: seq<Value>)
  {
    function ToSQL(): string
    {
      if column == "" then cond else column + " " + cond
    }
  }

  /** The rendered condition ends with its operator text, and is prefixed by `<column> ` exactly
      when a column is set. */
  lemma ToSQLShape(c: Condition)
    ensures |c.ToSQL()| >= |c.cond| && c.ToSQL()[|c.ToSQL()| - |c.cond|..] == c.cond
    ensures c.column == "" <==> c.ToSQL() == c.cond
    ensures c.column != "" ==> c.ToSQL()[..|c.column| + 1] == c.column + " "
  {
  }

  /** A condition whose text has one `?` per value. */
  predicate Balanced(c: Condition)
  {
    CountChar(c.ToSQL(), '?') == |c.vals|
  }

  function CondTexts(conds: seq<Condition>): seq<string>
  {
    seq(|conds|, i requires 0 <= i < |conds| => conds[i].ToSQL())
  }

  /** The values of the conditions, in condition order. */
  function CondValues(conds: seq<Condition>): seq<Value>
  {
    if conds == [] then [] else CondValues(conds[..|conds| - 1]) + conds[|conds| - 1].vals
  }

  /** `IN (?, ?, ?)`: one `?` per value, separated by ", ". */
  function ListPlaceholders(n: nat): string
  {
    Join(seq(n, i => ""), "?, ") + "?"
  }

  /** `(n - 1)` separators and one more `?`: n marks, except that zero values still render one. */
  lemma ListPlaceholdersCount(n: nat)
    ensures CountChar(ListPlaceholders(n), '?') == if n == 0 then 1 else n
  {
    var empties := seq(n, i => "");
    if n == 0 {
      assert empties == [];
    } else {
      CountAllNone(empties, '?');
      CountJoin(empties, "?, ", '?');
      assert "?, " == "?" + ", ";
      CountCharAbsent(", ", '?');
      CountCharAppend("?", ", ", '?');
      CountCharAppend(Join(empties, "?, "), "?", '?');
    }
  }

  /** The values In passes on: a single list argument is spread into its elements. */
  function InValues(vals: seq<Value>): seq<Value>
  {
    if |vals| == 1 && vals[0].ListV? then vals[0].items else vals
  }

  /** The SELECT a scope builds (internalScope). Order, having, joins and columns are taken as the
      strings the caller supplied. */
  datatype Scope = Scope(
    table: string,
    columns: seq<string>,
    order: seq<string>,
    joins: seq<string>,
    conditions: seq<Condition>,
    having: seq<string>,
    havevals: seq<Value>,
    currentColumn: string,
    limit: Option<int>,
    offset: Option<int>)
  {
    /** The scope with one more condition; nothing else changes. */
    function Add(c: Condition): (r: Scope)
      ensures r.conditions == conditions + [c]
      ensures r.(conditions := conditions) == this
    {
      this.(conditions := conditions + [c])
    }

    function Eq(val: Value): Scope
    {
      if val.Nil? then Add(Condition(currentColumn, "IS NULL", []))
      else Add(Condition(currentColumn, "= ?", [val]))
    }

    function Neq(val: Value): Scope
    {
      if val.Nil? then Add(Condition(currentColumn, "IS NOT NULL", []))
      else Add(Condition(currentColumn, "<> ?", [val]))
    }

    function Gt(val: Value): Scope { Add(Condition(currentColumn, "> ?", [val])) }
    function Gte(val: Value): Scope { Add(Condition(currentColumn, ">= ?", [val])) }
    function Lt(val: Value): Scope { Add(Condition(currentColumn, "< ?", [val])) }
    function Lte(val: Value): Scope { Add(Condition(currentColumn, "<= ?", [val])) }

    function Between(lower: Value, upper: Value): Scope
    {
      Add(Condition(currentColumn, "BETWEEN ? AND ?", [lower, upper]))
    }

    /** In as written: the guard that should spread a single list argument tests for zero
        arguments, where indexing the first argument panics; with one or more arguments the
        arguments are used as they are. */
    function InAsWritten(vals: seq<Value>): Scope
      requires |vals| >= 1
    {
      Add(Condition(currentColumn, "IN (" + ListPlaceholders(|vals|) + ")", vals))
    }

    /** In with the guard it evidently meant: a single list argument is spread into its elements. */
    function In(vals: seq<Value>): Scope
    {
      Add(Condition(currentColumn, "IN (" + ListPlaceholders(|InValues(vals)|) + ")", InValues(vals)))
    }

    function NotIn(vals: seq<Value>): Scope
    {
      Add(Condition(currentColumn, "NOT IN (" + ListPlaceholders(|vals|) + ")", vals))
    }

    function Like(str: string): Scope
    {
      Add(Condition(currentColumn, "LIKE ?", [StrV(str)]))
    }

    /** Raw SQL: no column, whatever text and values the caller gives. */
    function Where(sql: string, vals: seq<Value>): Scope
    {
      Add(Condition("", sql, vals))
    }
  }

  /** `r` is `s` with one more condition at the end. */
  predicate AppendsOne(s: Scope, r: Scope)
  {
    && |r.conditions| == |s.conditions| + 1
    && r.conditions[..|s.conditions|] == s.conditions
    && r.(conditions := s.conditions) == s
  }

  /** Every builder appends exactly one condition and changes nothing else; all but Where put it
      on the current column, Where on no column. Eq and Neq of nil compare with NULL and carry no
      value; In and NotIn carry the values they are given (In as written does not spread a list). */
  lemma BuildersAppendOne(s: Scope, v: Value, w: Value, vals: seq<Value>, str: string, sql: string)
    ensures AppendsOne(s, s.Eq(v)) && AppendsOne(s, s.Neq(v)) && AppendsOne(s, s.Gt(v)) && AppendsOne(s, s.Gte(v))
    ensures AppendsOne(s, s.Lt(v)) && AppendsOne(s, s.Lte(v)) && AppendsOne(s, s.Between(v, w))
    ensures AppendsOne(s, s.In(vals)) && AppendsOne(s, s.NotIn(vals)) && AppendsOne(s, s.Like(str))
    ensures AppendsOne(s, s.Where(sql, vals))
    ensures |vals| >= 1 ==> AppendsOne(s, s.InAsWritten(vals))
    ensures v.Nil? ==> s.Eq(v).conditions[|s.conditions|] == Condition(s.currentColumn, "IS NULL", [])
    ensures v.Nil? ==> s.Neq(v).conditions[|s.conditions|] == Condition(s.currentColumn, "IS NOT NULL", [])
    ensures !v.Nil? ==> s.Eq(v).conditions[|s.conditions|] == Condition(s.currentColumn, "= ?", [v])
    ensures !v.Nil? ==> s.Neq(v).conditions[|s.conditions|] == Condition(s.currentColumn, "<> ?", [v])
    ensures s.Between(v, w).conditions[|s.conditions|].vals == [v, w]
    ensures s.Like(str).conditions[|s.conditions|].vals == [StrV(str)]
    ensures s.NotIn(vals).conditions[|s.conditions|].vals == vals
    ensures s.In(vals).conditions[|s.conditions|].vals == InValues(vals)
    ensures s.Where(sql, vals).conditions[|s.conditions|] == Condition("", sql, vals)
  {
  }

  /** A condition has the `?`s of its operator text when its column has none. */
  lemma ConditionCount(col: string, op: string, vals: seq<Value>)
    requires CountChar(col, '?') == 0
    ensures CountChar(Condition(col, op, vals).ToSQL(), '?') == CountChar(op, '?')
  {
    if col != "" {
      CountCharAbsent(" ", '?');
      CountCharAppend(col, " ", '?');
      CountCharAppend(col + " ", op, '?');
    }
  }

  lemma MarkAtEnd(p: string)
    requires '?' !in p
    ensures CountChar(p + "?", '?') == 1
  {
    CountCharAbsent(p, '?');
    CountCharAppend(p, "?", '?');
  }

  /** The fixed SQL fragments with a single placeholder. */
  lemma OneMark(op: string)
    requires op in ["= ?", "<> ?", "> ?", ">= ?", "< ?", "<= ?", "LIKE ?", " = ?", "=?"]
    ensures CountChar(op, '?') == 1
  {
    if op == "= ?" {
      assert op == "= " + "?";
      MarkAtEnd("= ");
    } else if op == "<> ?" {
      assert op == "<> " + "?";
      MarkAtEnd("<> ");
    } else if op == "> ?" {
      assert op == "> " + "?";
      MarkAtEnd("> ");
    } else if op == ">= ?" {
      assert op == ">= " + "?";
      MarkAtEnd(">= ");
    } else if op == "< ?" {
      assert op == "< " + "?";
      MarkAtEnd("< ");
    } else if op == "<= ?" {
      assert op == "<= " + "?";
      MarkAtEnd("<= ");
    } else if op == "LIKE ?" {
      assert op == "LIKE " + "?";
      MarkAtEnd("LIKE ");
    } else if op == " = ?" {
      assert op == " = " + "?";
      MarkAtEnd(" = ");
    } else {
      assert op == "=" + "?";
      MarkAtEnd("=");
    }
  }

  /** The fixed SQL fragments without a placeholder. */
  lemma NoMarks(s: string)
    requires s in ["IS NULL", "IS NOT NULL", "INSERT INTO ", " (", ") VALUES (", ")", " RETURNING ", ", ",
                   "UPDATE ", " SET ", " WHERE ", "DELETE FROM ", "", " ", ","]
    ensures CountChar(s, '?') == 0
  {
    if s in ["IS NULL", "IS NOT NULL", "INSERT INTO ", " (", ") VALUES (", ")", " RETURNING "] {
      NoMarksFirst(s);
    } else {
      NoMarksSecond(s);
    }
  }

  lemma NoMarksFirst(s: string)
    requires s in ["IS NULL", "IS NOT NULL", "INSERT INTO ", " (", ") VALUES (", ")", " RETURNING "]
    ensures CountChar(s, '?') == 0
  {
    if s == "IS NULL" {
      CountCharAbsent("IS NULL", '?');
    } else if s == "IS NOT NULL" {
      CountCharAbsent("IS NOT NULL", '?');
    } else if s == "INSERT INTO " {
      CountCharAbsent("INSERT INTO ", '?');
    } else if s == " (" {
      CountCharAbsent(" (", '?');
    } else if s == ") VALUES (" {
      CountCharAbsent(") VALUES (", '?');
    } else if s == ")" {
      CountCharAbsent(")", '?');
    } else if s == " RETURNING " {
      CountCharAbsent(" RETURNING ", '?');
    }
  }

  lemma NoMarksSecond(s: string)
    requires s in [", ", "UPDATE ", " SET ", " WHERE ", "DELETE FROM ", "", " ", ","]
    ensures CountChar(s, '?') == 0
  {
    if s == ", " {
      CountCharAbsent(", ", '?');
    } else if s == "UPDATE " {
      CountCharAbsent("UPDATE ", '?');
    } else if s == " SET " {
      CountCharAbsent(" SET ", '?');
    } else if s == " WHERE " {
      CountCharAbsent(" WHERE ", '?');
    } else if s == "DELETE FROM " {
      CountCharAbsent("DELETE FROM ", '?');
    } else if s == " " {
      CountCharAbsent(" ", '?');
    } else if s == "," {
      CountCharAbsent(",", '?');
    }
  }

  lemma BetweenMarks()
    ensures CountChar("BETWEEN ? AND ?", '?') == 2
  {
    MarkAtEnd("BETWEEN ");
    MarkAtEnd(" AND ");
    assert "BETWEEN ? AND ?" == ("BETWEEN " + "?") + (" AND " + "?");
    CountCharAppend("BETWEEN " + "?", " AND " + "?", '?');

  }

  /** `<pre><mid>)` has the marks of `mid` when `pre` has none. */
  lemma Enclosed(pre: string, mid: string)
    requires '?' !in pre
    ensures CountChar(pre + mid + ")", '?') == CountChar(mid, '?')
  {
    CountCharAbsent(pre, '?');
    CountCharAbsent(")", '?');
    CountCharAppend(pre, mid, '?');
    CountCharAppend(pre + mid, ")", '?');
  }

  /** When the column name has no `?`, Eq and Neq render one `?` per value they carry: none for
      nil, one otherwise. */
  lemma EqualityBalanced(s: Scope, v: Value)
    requires CountChar(s.currentColumn, '?') == 0
    ensures Balanced(s.Eq(v).conditions[|s.conditions|]) && Balanced(s.Neq(v).conditions[|s.conditions|])
  {
    var col := s.currentColumn;
    if v.Nil? {
      NoMarks("IS NULL");
      NoMarks("IS NOT NULL");
      ConditionCount(col, "IS NULL", []);
      ConditionCount(col, "IS NOT NULL", []);
    } else {
      OneMark("= ?");
      OneMark("<> ?");
      ConditionCount(col, "= ?", [v]);
      ConditionCount(col, "<> ?", [v]);
    }
  }

  /** Gt, Gte, Lt and Lte render one `?` for their one value. */
  lemma ComparisonsBalanced(s: Scope, v: Value)
    requires CountChar(s.currentColumn, '?') == 0
    ensures Balanced(s.Gt(v).conditions[|s.conditions|]) && Balanced(s.Gte(v).conditions[|s.conditions|])
    ensures Balanced(s.Lt(v).conditions[|s.conditions|]) && Balanced(s.Lte(v).conditions[|s.conditions|])
  {
    var col := s.currentColumn;
    OneMark("> ?");
    OneMark(">= ?");
    OneMark("< ?");
    OneMark("<= ?");
    ConditionCount(col, "> ?", [v]);
    ConditionCount(col, ">= ?", [v]);
    ConditionCount(col, "< ?", [v]);
    ConditionCount(col, "<= ?", [v]);
  }

  /** Between renders two `?` for its two bounds, Like one for its pattern. */
  lemma RangeAndLikeBalanced(s: Scope, lower: Value, upper: Value, str: string)
    requires CountChar(s.currentColumn, '?') == 0
    ensures Balanced(s.Between(lower, upper).conditions[|s.conditions|])
    ensures Balanced(s.Like(str).conditions[|s.conditions|])
  {
    var col := s.currentColumn;
    BetweenMarks();
    OneMark("LIKE ?");
    ConditionCount(col, "BETWEEN ? AND ?", [lower, upper]);
    ConditionCount(col, "LIKE ?", [StrV(str)]);
  }

  /** In and NotIn render one `?` per value they carry, except that with no value they still
      render `(?)`. */
  lemma {:induction false} ListBuildersBalanced(s: Scope, vals: seq<Value>)
    requires CountChar(s.currentColumn, '?') == 0
    ensures Balanced(s.NotIn(vals).conditions[|s.conditions|]) <==> |vals| >= 1
    ensures Balanced(s.In(vals).conditions[|s.conditions|]) <==> |InValues(vals)| >= 1
  {
    var col := s.currentColumn;
    var k := |s.conditions|;
    assert Balanced(s.NotIn(vals).conditions[k]) <==> |vals| >= 1 by {
      ListPlaceholdersCount(|vals|);
      Enclosed("NOT IN (", ListPlaceholders(|vals|));
      ConditionCount(col, "NOT IN (" + ListPlaceholders(|vals|) + ")", vals);
    }
    var spread := InValues(vals);
    ListPlaceholdersCount(|spread|);
    Enclosed("IN (", ListPlaceholders(|spread|));
    ConditionCount(col, "IN (" + ListPlaceholders(|spread|) + ")", spread);
  }

  /** The discrepancy in In: one list argument is not spread, so `IN (?)` is rendered with the
      whole list as its single value. */
  lemma InAsWrittenKeepsList(s: Scope)
    ensures var vals := [ListV([IntV(1), IntV(2)])];
      && s.InAsWritten(vals).conditions[|s.conditions|].vals == vals
      && s.In(vals).conditions[|s.conditions|].vals == [IntV(1), IntV(2)]
      && s.InAsWritten(vals).conditions[|s.conditions|].cond == "IN (?)"
      && s.In(vals).conditions[|s.conditions|].cond == "IN (?, ?)"
  {
    var one := seq(1, i => "");
    assert one == [""];
    var two := seq(2, i => "");
    assert two == ["", ""];
    assert Join(two, "?, ") == "" + "?, " + "";
  }

  /** The condition texts joined with " AND " have one `?` per collected value when every
      condition is balanced. */
  lemma {:induction false} ConditionsBalanced(conds: seq<Condition>)
    requires forall i :: 0 <= i < |conds| ==> Balanced(conds[i])
    ensures CountChar(Join(CondTexts(conds), " AND "), '?') == |CondValues(conds)|
    decreases |conds|
  {
    if |conds| > 0 {
      var init := conds[..|conds| - 1];
      var last := conds[|conds| - 1];
      assert CondTexts(conds) == CondTexts(init) + [last.ToSQL()];
      assert Balanced(last);
      forall i | 0 <= i < |init| ensures Balanced(init[i]) {
        assert init[i] == conds[i];
      }
      ConditionsBalanced(init);
      if |init| == 0 {
        assert CondTexts(conds) == [last.ToSQL()];
        assert CondValues(conds) == [] + last.vals;
      } else {
        JoinAppend(CondTexts(init), last.ToSQL(), " AND ");
        CountCharAppend(Join(CondTexts(init), " AND "), " AND ", '?');
        CountCharAppend(Join(CondTexts(init), " AND ") + " AND ", last.ToSQL(), '?');
      }
    }
  }

  /** conditionSQL: the conditions' texts joined with " AND ", and their values in order. */
  method ConditionSQL(s: Scope) returns (text: string, vals: seq<Value>)
    ensures text == Join(CondTexts(s.conditions), " AND ")
    ensures vals == CondValues(s.conditions)
  {
    vals := [];
    var conds: seq<string> := [];
    var i := 0;
    while i < |s.conditions|
      invariant 0 <= i <= |s.conditions|
      invariant conds == CondTexts(s.conditions[..i])
      invariant vals == CondValues(s.conditions[..i])
    {
      assert s.conditions[..i + 1][..i] == s.conditions[..i];
      assert CondTexts(s.conditions[..i + 1]) == CondTexts(s.conditions[..i]) + [s.conditions[i].ToSQL()];
      conds := conds + [s.conditions[i].ToSQL()];
      vals := vals + s.conditions[i].vals;
      i := i + 1;
    }
    assert s.conditions[..i] == s.conditions;
    text := Join(conds, " AND ");
  }

  /** The words of the SELECT, clause by clause: SELECT, FROM, joins, WHERE, HAVING, ORDER BY,
      LIMIT, OFFSET. */
  function SelectWords(s: Scope): seq<string>
  {
    ["SELECT", if |s.columns| == 0 then s.table + ".*" else Join(s.columns, ", "), "FROM", s.table] + s.joins
  }

  function WhereWords(s: Scope): seq<string>
  {
    if |s.conditions| > 0 then ["WHERE", Join(CondTexts(s.conditions), " AND ")] else []
  }

  function HavingWords(s: Scope): seq<string>
  {
    if |s.having| > 0 then ["HAVING"] + s.having else []
  }

  function OrderWords(s: Scope): seq<string>
  {
    if |s.order| > 0 then ["ORDER BY"] + s.order else []
  }

  function LimitWords(s: Scope): seq<string>
  {
    match s.limit case Some(l) => ["LIMIT", IntToString(l)] case None => []
  }

  function OffsetWords(s: Scope): seq<string>
  {
    match s.offset case Some(o) => ["OFFSET", IntToString(o)] case None => []
  }

  function QueryWords(s: Scope): seq<string>
  {
    SelectWords(s) + WhereWords(s) + HavingWords(s) + OrderWords(s) + LimitWords(s) + OffsetWords(s)
  }

  /** query(): the words joined with single spaces, and the condition values followed by the
      HAVING values; the HAVING values are dropped when there is no HAVING clause. */
  method Query(s: Scope) returns (text: string, vals: seq<Value>)
    ensures text == Join(QueryWords(s), " ")
    ensures vals == CondValues(s.conditions) + (if |s.having| > 0 then s.havevals else [])
  {
    var sql: seq<string> := [];
    vals := [];
    if |s.columns| == 0 {
      sql := sql + ["SELECT", s.table + ".*"];
    } else {
      sql := sql + ["SELECT", Join(s.columns, ", ")];
    }
    sql := sql + ["FROM", s.table];
    sql := sql + s.joins;
    ghost var words := SelectWords(s);
    assert sql == words;
    if |s.conditions| > 0 {
      var cs, cv := ConditionSQL(s);
      sql := sql + ["WHERE", cs];
      vals := vals + cv;
    } else {
      assert CondValues(s.conditions) == [];
    }
    words := words + WhereWords(s);
    assert sql == words;
    if |s.having| > 0 {
      sql := sql + ["HAVING"];
      sql := sql + s.having;
      vals := vals + s.havevals;
    }
    words := words + HavingWords(s);
    assert sql == words;
    if |s.order| > 0 {
      sql := sql + ["ORDER BY"];
      sql := sql + s.order;
    }
    words := words + OrderWords(s);
    assert sql == words;
    if s.limit.Some? {
      sql := sql + ["LIMIT", IntToString(s.limit.value)];
    }
    words := words + LimitWords(s);
    assert sql == words;
    if s.offset.Some? {
      sql := sql + ["OFFSET", IntToString(s.offset.value)];
    }
    words := words + OffsetWords(s);
    assert sql == words == QueryWords(s);
    text := Join(sql, " ");
  }

  /** A scope with nothing but a table selects all of its columns. */
  lemma PlainQuery(s: Scope)
    requires s.columns == [] && s.joins == [] && s.conditions == [] && s.having == [] && s.order == []
    requires s.limit.None? && s.offset.None?
    ensures Join(QueryWords(s), " ") == "SELECT " + s.table + ".* FROM " + s.table
  {
    var w := QueryWords(s);
    assert w == ["SELECT", s.table + ".*", "FROM", s.table];
    JoinCons("SELECT", [s.table + ".*", "FROM", s.table], " ");
    JoinCons(s.table + ".*", ["FROM", s.table], " ");
    JoinCons("FROM", [s.table], " ");
    assert Join([s.table], " ") == s.table;
  }

  /** The words begin with what is selected and from where, then the joins, then the WHERE
      clause holding the conditions' text. */
  lemma QueryBeginning(s: Scope)
    ensures QueryWords(s)[..4] == ["SELECT", if |s.columns| == 0 then s.table + ".*" else Join(s.columns, ", "), "FROM", s.table]
    ensures QueryWords(s)[4..4 + |s.joins|] == s.joins
    ensures |s.conditions| > 0 ==>
              QueryWords(s)[4 + |s.joins|] == "WHERE" && QueryWords(s)[5 + |s.joins|] == Join(CondTexts(s.conditions), " AND ")
  {
    var sel := SelectWords(s);
    var w1 := sel + WhereWords(s);
    var w2 := w1 + HavingWords(s);
    var w3 := w2 + OrderWords(s);
    var w4 := w3 + LimitWords(s);
    var w := QueryWords(s);
    assert w == w4 + OffsetWords(s);
    var n := |sel|;
    var m := if |s.conditions| > 0 then n + 2 else n;
    SliceOfAppend(w4, OffsetWords(s), 0, m);
    SliceOfAppend(w3, LimitWords(s), 0, m);
    SliceOfAppend(w2, OrderWords(s), 0, m);
    SliceOfAppend(w1, HavingWords(s), 0, m);
    assert w[..m] == w1[..m];
    SliceOfAppend(sel, WhereWords(s), 0, 4);
    SliceOfAppend(sel, WhereWords(s), 4, n);
    assert w[..4] == w[..m][..4];
    assert w[4..n] == w[..m][4..n];
  }

  /** OFFSET, when set, is last, preceded by LIMIT when that is set too. */
  lemma QueryEnding(s: Scope)
    ensures s.offset.Some? ==>
              QueryWords(s)[|QueryWords(s)| - 2..] == ["OFFSET", IntToString(s.offset.value)]
    ensures s.limit.Some? && s.offset.None? ==>
              QueryWords(s)[|QueryWords(s)| - 2..] == ["LIMIT", IntToString(s.limit.value)]
    ensures s.limit.Some? && s.offset.Some? ==>
              QueryWords(s)[|QueryWords(s)| - 4..] == ["LIMIT", IntToString(s.limit.value), "OFFSET", IntToString(s.offset.value)]
  {
    var front := SelectWords(s) + WhereWords(s) + HavingWords(s) + OrderWords(s);
    assert QueryWords(s) == front + LimitWords(s) + OffsetWords(s);
  }

  /** drStringArray.Includes: a linear scan that stops at the first equal element. */
  method Includes(sa: seq<string>, s: string) returns (found: bool)
    ensures found <==> s in sa
  {
    var i := 0;
    while i < |sa|
      invariant 0 <= i <= |sa|
      invariant s !in sa[..i]
    {
      if sa[i] == s {
        return true;
      }
      assert sa[..i + 1] == sa[..i] + [sa[i]];
      i := i + 1;
    }
    assert sa[..i] == sa;
    return false;
  }

  // ---------------------------------------------------------------- record statements

  /** The INSERT of createRecord for a physical table and key: one `?` per column, and the key
      returned when the connection asks for it. */
  function InsertSQL(table: string, cols: seq<string>, returning: bool, key: string): string
    requires |cols| >= 1
  {
    "INSERT INTO " + table + " (" + Join(cols, ", ") + ") VALUES (" + QuestionList(|cols|) + ")"
      + (if returning then " RETURNING " + key else "")
  }

  /** The UPDATE of updateRecord: `<col> = ?` per column, then the key. */
  function UpdateSQL(table: string, cols: seq<string>, key: string): string
  {
    "UPDATE " + table + " SET " + Join(cols, " = ?, ") + " = ?" + " WHERE " + key + "=?"
  }

  /** The DELETE of deleteRecord. */
  function DeleteSQL(table: string, key: string): string
  {
    "DELETE FROM " + table + " WHERE " + key + " = ?"
  }

  /** The statement createRecord sends (before FormatQuery), with the names translated by the
      connection's configuration; an empty column list makes questions panic. */
  method CreateRecordSQL(c: Conn, cols: seq<string>, name: string, pkname: string) returns (sql: string)
    requires |cols| >= 1
    ensures sql == InsertSQL(c.config.sqlTable(name), cols, c.returning, c.config.sqlColumn(name, pkname))
  {
    var marks := Questions(|cols|);
    sql := "INSERT INTO " + c.config.sqlTable(name) + " (" + Join(cols, ", ") + ") VALUES (" + marks + ")";
    if c.returning {
      sql := sql + " RETURNING " + c.config.sqlColumn(name, pkname);
    }
  }

  /** The statement updateRecord sends. */
  function UpdateRecordSQL(c: Conn, cols: seq<string>, name: string, pkname: string): string
  {
    UpdateSQL(c.config.sqlTable(name), cols, c.config.sqlColumn(name, pkname))
  }

  /** The statement deleteRecord sends. */
  function DeleteRecordSQL(c: Conn, name: string, pkname: string): string
  {
    DeleteSQL(c.config.sqlTable(name), c.config.sqlColumn(name, pkname))
  }

  lemma NoMark(s: string)
    requires '?' !in s
    ensures CountChar(s, '?') == 0
  {
    CountCharAbsent(s, '?');
  }

  /** No column name holds a `?`. */
  predicate PlainColumns(cols: seq<string>)
  {
    forall i :: 0 <= i < |cols| ==> CountChar(cols[i], '?') == 0
  }

  lemma ColumnListMarks(cols: seq<string>)
    requires |cols| >= 1 && PlainColumns(cols)
    ensures CountChar(Join(cols, ", "), '?') == 0
  {
    NoMarks(", ");
    CountAllNone(cols, '?');
    CountJoin(cols, ", ", '?');
  }

  lemma ReturningMarks(returning: bool, key: string)
    requires CountChar(key, '?') == 0
    ensures CountChar(if returning then " RETURNING " + key else "", '?') == 0
  {
    if returning {
      NoMarks(" RETURNING ");
      CountCharAppend(" RETURNING ", key, '?');
    } else {
      NoMarks("");
    }
  }

  /** When no name holds a `?`, the INSERT has one `?` per column, matching the values
      createRecord passes. */
  lemma InsertPlaceholders(table: string, cols: seq<string>, returning: bool, key: string)
    requires |cols| >= 1 && PlainColumns(cols)
    requires CountChar(table, '?') == 0 && CountChar(key, '?') == 0
    ensures CountChar(InsertSQL(table, cols, returning, key), '?') == |cols|
  {
    var names, marks := Join(cols, ", "), QuestionList(|cols|);
    var tail := if returning then " RETURNING " + key else "";
    assert CountChar(names, '?') == 0 by {
      ColumnListMarks(cols);
    }
    assert CountChar(marks, '?') == |cols| by {
      QuestionListCount(|cols|);
    }
    assert CountChar(tail, '?') == 0 by {
      ReturningMarks(returning, key);
    }
    InsertShapeMarks(table, names, marks, tail);
  }

  /** The fixed words of the INSERT add no `?` of their own. */
  lemma InsertShapeMarks(table: string, names: string, marks: string, tail: string)
    requires CountChar(table, '?') == 0 && CountChar(names, '?') == 0 && CountChar(tail, '?') == 0
    ensures CountChar("INSERT INTO " + table + " (" + names + ") VALUES (" + marks + ")" + tail, '?')
              == CountChar(marks, '?')
  {
    var into, open, values, close := "INSERT INTO ", " (", ") VALUES (", ")";
    NoMarks(into);
    NoMarks(open);
    NoMarks(values);
    NoMarks(close);
    CountChar8(into, table, open, names, values, marks, close, tail, '?');
  }

  /** The UPDATE has one `?` per column and one for the key, matching updateRecord's values
      (the new fields, then the key). */
  lemma UpdatePlaceholders(table: string, cols: seq<string>, key: string)
    requires |cols| >= 1 && PlainColumns(cols)
    requires CountChar(table, '?') == 0 && CountChar(key, '?') == 0
    ensures CountChar(UpdateSQL(table, cols, key), '?') == |cols| + 1
  {
    var sep := " = ?, ";
    SetSeparatorMark();
    SetListMarks(cols, sep);
    UpdateShapeMarks(table, Join(cols, sep), key);
  }

  /** The separator of the SET list holds one `?`. */
  lemma SetSeparatorMark()
    ensures CountChar(" = ?, ", '?') == 1
  {
    var eq, comma := " = ?", ", ";
    NoMarks(comma);
    OneMark(eq);
    assert " = ?, " == eq + comma;
    CountCharAppend(eq, comma, '?');
  }

  /** Columns joined by a separator with one `?` hold one `?` between each two columns. */
  lemma SetListMarks(cols: seq<string>, sep: string)
    requires |cols| >= 1 && PlainColumns(cols) && CountChar(sep, '?') == 1
    ensures CountChar(Join(cols, sep), '?') == |cols| - 1
  {
    CountAllNone(cols, '?');
    CountJoin(cols, sep, '?');
  }

  /** The fixed words of the UPDATE add two `?`: the last column's and the key's. */
  lemma UpdateShapeMarks(table: string, u: string, key: string)
    requires CountChar(table, '?') == 0 && CountChar(key, '?') == 0
    ensures CountChar("UPDATE " + table + " SET " + u + " = ?" + " WHERE " + key + "=?", '?')
              == CountChar(u, '?') + 2
  {
    var update, setWord, eq, where, keyEq := "UPDATE ", " SET ", " = ?", " WHERE ", "=?";
    NoMarks(update);
    NoMarks(setWord);
    NoMarks(where);
    OneMark(eq);
    OneMark(keyEq);
    CountChar8(update, table, setWord, u, eq, where, key, keyEq, '?');
  }

  /** The DELETE has a single `?`, for the key deleteRecord passes. */
  lemma DeletePlaceholders(table: string, key: string)
    requires CountChar(table, '?') == 0 && CountChar(key, '?') == 0
    ensures CountChar(DeleteSQL(table, key), '?') == 1
  {
    NoMarks("DELETE FROM ");
    NoMarks(" WHERE ");
    OneMark(" = ?");
    CountChar5("DELETE FROM ", table, " WHERE ", key, " = ?", '?');
  }

  // ---------------------------------------------------------------- default columns

  function DefaultInt(col: string): Column { Column(col, "", "integer", 10, "") }
  function DefaultString(col: string): Column { Column(col, "", "varchar", 255, "") }
  function DefaultBool(col: string): Column { Column(col, "", "bool", 0, "") }
  function DefaultTime(col: string): Column { Column(col, "", "timestamp", 0, "") }

  /** How the default columns render in CREATE TABLE: an integer key first, a varchar with its
      length, and the length-less boolean and timestamp. */
  lemma DefaultColumnsRender(conv: Translator, table: string, col: string)
    ensures ColumnDefAt(conv, table, 0, DefaultInt(col)) == conv.sqlColumn(table, col) + " INTEGER PRIMARY KEY ASC"
    ensures ColumnDefAt(conv, table, 1, DefaultInt(col)) == conv.sqlColumn(table, col) + " INTEGER(10)"
    ensures ColumnDefAt(conv, table, 1, DefaultString(col)) == conv.sqlColumn(table, col) + " VARCHAR(255)"
    ensures ColumnDefAt(conv, table, 1, DefaultBool(col)) == conv.sqlColumn(table, col) + " BOOL"
    ensures ColumnDefAt(conv, table, 1, DefaultTime(col)) == conv.sqlColumn(table, col) + " TIMESTAMP"
  {
    DefaultTypeWords();
    DefaultLengths();
  }

  /** The type names of the default columns, upper-cased. */
  lemma DefaultTypeWords()
    ensures ToUpper("integer") == "INTEGER" && ToUpper("varchar") == "VARCHAR"
    ensures ToUpper("bool") == "BOOL" && ToUpper("timestamp") == "TIMESTAMP"
  {
  }

  /** The lengths of the default columns, written out. */
  lemma DefaultLengths()
    ensures IntToString(10) == "10" && IntToString(255) == "255"
  {
    assert NatToString(10) == NatToString(1) + ['0'];
    assert NatToString(255) == NatToString(25) + ['5'];
    assert NatToString(25) == NatToString(2) + ['5'];
  }
}
