/** The index declaration rewriter of index.go. A block such as

      index(
      Name User
      Login, APIKey
      )

    becomes a call of doc.RegisterIndexes: the first column line also names the table, which is
    emitted as `User{},`, and every column line becomes a []string literal of its column names. */
module Indexes {
  import opened Strings

  // ---------------------------------------------------------------------------------------------
  // The four line patterns

  /** The character class [a-zA-Z0-9-_]. The `-` after the range 0-9 cannot open another range,
      so it stands for itself: the class is the ASCII letters and digits, '-' and '_'. */
  predicate IsNameChar(c: char)
  {
    IsLetter(c) || IsDigit(c) || c == '-' || c == '_'
  }

  /** The class \s of Go's regexp package: tab, newline, form feed, carriage return, space. */
  predicate IsBlankChar(c: char)
  {
    c == '\t' || c == '\n' || c == '\U{000C}' || c == '\r' || c == ' '
  }

  /** A match of [a-zA-Z0-9-_]+. */
  predicate IsName(s: string)
  {
    |s| > 0 && forall i :: 0 <= i < |s| ==> IsNameChar(s[i])
  }

  /** A match of \s*. */
  predicate IsBlank(s: string)
  {
    forall i :: 0 <= i < |s| ==> IsBlankChar(s[i])
  }

  /** The length of the longest run of name characters that `s` starts with. */
  function NameLen(s: string): (n: nat)
    ensures n <= |s|
    ensures forall i :: 0 <= i < n ==> IsNameChar(s[i])
    ensures n < |s| ==> !IsNameChar(s[n])
    decreases |s|
  {
    if |s| > 0 && IsNameChar(s[0]) then 1 + NameLen(s[1..]) else 0
  }

  /** The length of the longest run of \s characters that `s` starts with. */
  function BlankLen(s: string): (n: nat)
    ensures n <= |s|
    ensures forall i :: 0 <= i < n ==> IsBlankChar(s[i])
    ensures n < |s| ==> !IsBlankChar(s[n])
    decreases |s|
  {
    if |s| > 0 && IsBlankChar(s[0]) then 1 + BlankLen(s[1..]) else 0
  }

  /** The length of the longest run of \s characters that `s` ends with. */
  function TrailingBlankLen(s: string): (n: nat)
    ensures n <= |s|
    ensures forall i :: |s| - n <= i < |s| ==> IsBlankChar(s[i])
    ensures n < |s| ==> !IsBlankChar(s[|s| - n - 1])
    decreases |s|
  {
    if |s| > 0 && IsBlankChar(s[|s| - 1]) then 1 + TrailingBlankLen(s[..|s| - 1]) else 0
  }

  /** `line` without the blank runs at either end that the patterns' ^\s* and \s*$ absorb. Every
      pattern begins and ends with a name, so nothing else can match those runs. */
  function Core(line: string): string
  {
    var t := line[BlankLen(line)..];
    t[..|t| - TrailingBlankLen(t)]
  }

  /** singleIndex without its blank runs at either end: a name. */
  function NamePattern(t: string): (r: Option<string>)
    ensures r.Some? ==> IsName(r.value)
  {
    if |t| > 0 && NameLen(t) == |t| then Some(t) else None
  }

  /** singleIndexWithTable without its blank runs at either end: a name, a blank run, a table. */
  function NameTablePattern(t: string): (r: Option<(string, string)>)
    ensures r.Some? ==> IsName(r.value.0) && IsName(r.value.1)
  {
    var n := NameLen(t);
    var gap := BlankLen(t[n..]);
    var table := t[n + gap..];
    if n > 0 && gap > 0 && |table| > 0 && NameLen(table) == |table| then Some((t[..n], table))
    else None
  }

  /** The repeated group (,\s*[a-zA-Z0-9-_]+)+ matched against the whole of `s`. As with Go's
      submatches, only the text of its last iteration is reported. */
  function LastRepeat(s: string): (r: Option<string>)
    decreases |s|
  {
    if |s| == 0 || s[0] != ',' then None
    else
      var gap := BlankLen(s[1..]);
      var n := NameLen(s[1 + gap..]);
      if n == 0 then None
      else if 1 + gap + n == |s| then Some(s)
      else LastRepeat(s[1 + gap + n..])
  }

  /** multiIndex without its blank runs at either end: the first name and the last iteration of
      the repeated group, comma and blanks included. */
  function ListPattern(t: string): (r: Option<(string, string)>)
  {
    var n := NameLen(t);
    if n == 0 then None
    else match LastRepeat(t[n..])
      case None => None
      case Some(last) => Some((t[..n], last))
  }

  /** The part (,\s[a-zA-Z0-9-_]+)+\s+([a-zA-Z0-9-_]+) of multiIndexWithTable matched against the
      whole of `s`: the last iteration of the group (exactly one \s after each comma) and the table. */
  function LastRepeatAndTable(s: string): (r: Option<(string, string)>)
    decreases |s|
  {
    if |s| < 2 || s[0] != ',' || !IsBlankChar(s[1]) then None
    else
      var n := NameLen(s[2..]);
      var rest := s[2 + n..];
      if n == 0 then None
      else if |rest| > 0 && rest[0] == ',' then LastRepeatAndTable(rest)
      else
        var gap := BlankLen(rest);
        var table := rest[gap..];
        if gap > 0 && |table| > 0 && NameLen(table) == |table| then Some((s[..2 + n], table))
        else None
  }

  /** multiIndexWithTable without its blank runs at either end: the first name, the last iteration
      of the repeated group and the table. */
  function ListTablePattern(t: string): (r: Option<(string, string, string)>)
  {
    var n := NameLen(t);
    if n == 0 then None
    else match LastRepeatAndTable(t[n..])
      case None => None
      case Some(p) => Some((t[..n], p.0, p.1))
  }

  /** singleIndex, ^\s*([a-zA-Z0-9-_]+)\s*$: the name on a column line. */
  function SingleIndex(line: string): Option<string>
  {
    NamePattern(Core(line))
  }

  /** singleIndexWithTable, ^\s*([a-zA-Z0-9-_]+)\s+([a-zA-Z0-9-_]+)\s*$: the name and the table. */
  function SingleIndexWithTable(line: string): Option<(string, string)>
  {
    NameTablePattern(Core(line))
  }

  /** multiIndex, ^\s*([a-zA-Z0-9-_]+)(,\s*[a-zA-Z0-9-_]+)+\s*$. */
  function MultiIndex(line: string): Option<(string, string)>
  {
    ListPattern(Core(line))
  }

  /** multiIndexWithTable, ^\s*([a-zA-Z0-9-_]+)(,\s[a-zA-Z0-9-_]+)+\s+([a-zA-Z0-9-_]+)\s*$. */
  function MultiIndexWithTable(line: string): Option<(string, string, string)>
  {
    ListTablePattern(Core(line))
  }

  // ---------------------------------------------------------------------------------------------
  // What each line becomes

  /** What the first "index" of the opening line is replaced by. */
  const RegisterCall := "var _ = doc.RegisterIndexes"

  function TableEntry(table: string): string
  {
    table + "{},"
  }

  function SingleEntry(name: string): string
  {
    "[]string{\"" + name + "\"},"
  }

  /** The pieces the comma-list loop appends for the submatches `ms`: each one without a leading
      ", ", quoted, and followed by ", " or, after the last, by the closing "},". */
  function ListPieces(ms: seq<string>): (r: seq<string>)
    ensures |r| == |ms|
  {
    seq(|ms|, i requires 0 <= i < |ms| =>
      "\"" + TrimPrefix(ms[i], ", ") + (if i < |ms| - 1 then "\", " else "\"},"))
  }

  function ListEntry(ms: seq<string>): string
  {
    "[]string{" + Join(ListPieces(ms), "")
  }

  /** The loop of index.go that builds `cols` from the submatches of a comma-list line. */
  method ColumnList(matches: seq<string>) returns (cols: string)
    ensures cols == ListEntry(matches)
  {
    ghost var pieces := ListPieces(matches);
    cols := "[]string{";
    var i := 0;
    while i < |matches|
      invariant 0 <= i <= |matches|
      invariant cols == "[]string{" + Join(pieces[..i], "")
    {
      var piece;
      if i < |matches| - 1 {
        piece := "\"" + TrimPrefix(matches[i], ", ") + "\", ";
      } else {
        piece := "\"" + TrimPrefix(matches[i], ", ") + "\"},";
      }
      assert piece == pieces[i];
      JoinPrefixStep(pieces, i);
      AppendAssoc("[]string{", Join(pieces[..i], ""), piece);
      cols := cols + piece;
      i := i + 1;
    }
    assert pieces[..i] == pieces;
  }

  /** The two submatches of a comma-list line give the two quoted names, without their ", ". */
  lemma ListEntryPair(first: string, last: string)
    ensures ListEntry([first, last])
         == "[]string{\"" + TrimPrefix(first, ", ") + "\", \"" + TrimPrefix(last, ", ") + "\"},"
  {
    var p := ListPieces([first, last]);
    assert Join(p, "") == p[0] + "" + Join(p[1..], "");
  }

  /** A line that can open the index list: a column line that also names the table. */
  predicate IsTableLine(line: string)
  {
    SingleIndexWithTable(line).Some? || MultiIndexWithTable(line).Some?
  }

  /** The two lines the first table line yields: the table, then its columns. */
  function TableLineOutput(line: string): (r: seq<string>)
    requires IsTableLine(line)
    ensures |r| == 2
  {
    match SingleIndexWithTable(line)
    case Some(m) => [TableEntry(m.1), SingleEntry(m.0)]
    case None =>
      var m := MultiIndexWithTable(line).value;
      [TableEntry(m.2), ListEntry([m.0, m.1])]
  }

  /** The line that a line after the table line yields. */
  function BodyLineOutput(line: string): string
  {
    match SingleIndex(line)
    case Some(name) => SingleEntry(name)
    case None =>
      match MultiIndex(line)
      case Some(m) => ListEntry([m.0, m.1])
      case None => line
  }

  /** A source line as the two loops see it: its text, whether it is a table line, the two lines
      it yields if it is the first table line, and the line it yields once the table is known. */
  datatype Line = Line(text: string, opens: bool, opening: seq<string>, later: string)

  function Classify(line: string): (l: Line)
  {
    var opens := IsTableLine(line);
    Line(line, opens, if opens then TableLineOutput(line) else [], BodyLineOutput(line))
  }

  /** Each line of `src` classified, in order. */
  function Classified(src: seq<string>): (ls: seq<Line>)
    ensures |ls| == |src|
    ensures forall j {:trigger Classify(src[j])} :: 0 <= j < |src| ==> ls[j] == Classify(src[j])
    decreases |src|
  {
    if src == [] then []
    else
      var init := src[..|src| - 1];
      assert forall j :: 0 <= j < |init| ==> init[j] == src[j];
      Classified(init) + [Classify(src[|src| - 1])]
  }

  /** The texts of `ls`. */
  function Texts(ls: seq<Line>): (r: seq<string>)
    ensures |r| == |ls|
  {
    seq(|ls|, j requires 0 <= j < |ls| => ls[j].text)
  }

  /** What the lines `ls` yield once the table is known: one line each. */
  function Later(ls: seq<Line>): (r: seq<string>)
    ensures |r| == |ls|
  {
    seq(|ls|, j requires 0 <= j < |ls| => ls[j].later)
  }

  /** Some line at or after position `i` is a table line. */
  predicate Opens(ls: seq<Line>, i: nat)
  {
    exists j :: i <= j < |ls| && ls[j].opens
  }

  /** The position of the first table line at or after `i`. */
  function FirstOpening(ls: seq<Line>, i: nat): (t: nat)
    requires Opens(ls, i)
    ensures i <= t < |ls| && ls[t].opens
    ensures forall j :: i <= j < t ==> !ls[j].opens
    decreases |ls| - i
  {
    if ls[i].opens then i else FirstOpening(ls, i + 1)
  }

  /** What the two loops of ParseIndexes append from position `i` on, while the table line is
      still ahead: a line that is not a table line as it is, the table line's two lines, then one
      line per remaining line. */
  function StartOutput(ls: seq<Line>, i: nat): (r: seq<string>)
    requires Opens(ls, i)
    decreases |ls| - i
  {
    if ls[i].opens then ls[i].opening + Later(ls[i + 1..])
    else [ls[i].text] + StartOutput(ls, i + 1)
  }

  /** Some line after the opening line is a table line. */
  predicate HasTableLine(src: seq<string>)
  {
    exists j {:trigger IsTableLine(src[j])} :: 1 <= j < |src| && IsTableLine(src[j])
  }

  lemma HasTableLineOpens(src: seq<string>)
    requires HasTableLine(src)
    ensures Opens(Classified(src), 1)
  {
    var j :| 1 <= j < |src| && IsTableLine(src[j]);
    assert Classified(src)[j] == Classify(src[j]);
  }

  /** The position of the first table line after the opening line. */
  function FirstTableLine(src: seq<string>): (t: nat)
    requires HasTableLine(src)
    ensures 1 <= t < |src| && IsTableLine(src[t])
    ensures forall j {:trigger IsTableLine(src[j])} :: 1 <= j < t ==> !IsTableLine(src[j])
    ensures Opens(Classified(src), 1) && t == FirstOpening(Classified(src), 1)
  {
    HasTableLineOpens(src);
    ClassifiedOpens(src);
    FirstOpening(Classified(src), 1)
  }

  /** A line is classified as a table line exactly when it is one. */
  lemma ClassifiedOpens(src: seq<string>)
    ensures forall j {:trigger IsTableLine(src[j])} :: 0 <= j < |src| ==> Classified(src)[j].opens == IsTableLine(src[j])
  {
    forall j | 0 <= j < |src|
      ensures Classified(src)[j].opens == IsTableLine(src[j])
    {
      ClassifiedAt(src, j);
    }
  }

  /** The lines ParseIndexes joins: the opening line with its first "index" replaced, then what
      the loops append for the lines after it. */
  function IndexOutput(src: seq<string>): seq<string>
    requires HasTableLine(src)
  {
    HasTableLineOpens(src);
    [ReplaceFirst(src[0], "index", RegisterCall)] + StartOutput(Classified(src), 1)
  }

  /** The body of the first loop for one line: the table line's two lines and true, or the line
      itself and false. */
  method StartLine(line: string) returns (out: seq<string>, started: bool)
    ensures started == IsTableLine(line)
    ensures out == if started then TableLineOutput(line) else [line]
  {
    var single := SingleIndexWithTable(line);
    if single.Some? {
      out := [TableEntry(single.value.1), SingleEntry(single.value.0)];
      started := true;
    } else {
      var multi := MultiIndexWithTable(line);
      if multi.Some? {
        var cols := ColumnList([multi.value.0, multi.value.1]);
        out := [TableEntry(multi.value.2), cols];
        started := true;
      } else {
        out := [line];
        started := false;
      }
    }
  }

  /** The body of the second loop for one line. */
  method BodyLine(line: string) returns (out: string)
    ensures out == BodyLineOutput(line)
  {
    var single := SingleIndex(line);
    if single.Some? {
      out := SingleEntry(single.value);
    } else {
      var multi := MultiIndex(line);
      if multi.Some? {
        out := ColumnList([multi.value.0, multi.value.1]);
      } else {
        out := line;
      }
    }
  }

  /** One step of the first loop, at position `i`. */
  lemma StartStep(ls: seq<Line>, i: nat, out: seq<string>, started: bool)
    requires Opens(ls, i)
    requires started == ls[i].opens
    requires out == if started then ls[i].opening else [ls[i].text]
    ensures started ==> StartOutput(ls, i) == out + Later(ls[i + 1..])
    ensures !started ==> Opens(ls, i + 1) && StartOutput(ls, i) == out + StartOutput(ls, i + 1)
  {
  }

  /** One step of the second loop, on the lines still to read. */
  lemma LaterStep(ls: seq<Line>, i: nat)
    requires i < |ls|
    ensures Later(ls[i..]) == [ls[i].later] + Later(ls[i + 1..])
  {
  }

  /** ParseIndexes. Without a table line after the opening line the first loop indexes past the
      end of the slice, and an empty slice fails at once; both are excluded. The error result is
      always nil and is not modelled. */
  method ParseIndexes(src: seq<string>) returns (r: string)
    requires HasTableLine(src)
    ensures r == Join(IndexOutput(src), "\n")
  {
    ghost var ls := Classified(src);
    HasTableLineOpens(src);
    var results := [ReplaceFirst(src[0], "index", RegisterCall)];
    var lines := src[1..];
    ghost var k := 1;

    var started := false;
    while !started
      invariant 1 <= k <= |src| && lines == src[k..]
      invariant !started ==> Opens(ls, k) && results + StartOutput(ls, k) == IndexOutput(src)
      invariant started ==> results + Later(ls[k..]) == IndexOutput(src)
      decreases |lines|
    {
      var out;
      SliceTail(src, k);
      out, started := StartLine(lines[0]);
      assert ls[k] == Classify(src[k]);
      StartStep(ls, k, out, started);
      AppendAssoc(results, out, if started then Later(ls[k + 1..]) else StartOutput(ls, k + 1));
      results := results + out;
      lines := lines[1..];
      k := k + 1;
    }

    while |lines| > 0
      invariant k <= |src| && lines == src[k..]
      invariant results + Later(ls[k..]) == IndexOutput(src)
      decreases |lines|
    {
      SliceTail(src, k);
      var out := BodyLine(lines[0]);
      assert ls[k] == Classify(src[k]);
      LaterStep(ls, k);
      AppendAssoc(results, [out], Later(ls[k + 1..]));
      results := results + [out];
      lines := lines[1..];
      k := k + 1;
    }
    assert results == IndexOutput(src);
    r := Join(results, "\n");
  }

  // ---------------------------------------------------------------------------------------------
  // What the patterns match

  lemma NameLenIs(s: string, n: nat)
    requires n <= |s|
    requires forall i :: 0 <= i < n ==> IsNameChar(s[i])
    requires n < |s| ==> !IsNameChar(s[n])
    ensures NameLen(s) == n
  {
  }

  lemma BlankLenIs(s: string, n: nat)
    requires n <= |s|
    requires forall i :: 0 <= i < n ==> IsBlankChar(s[i])
    requires n < |s| ==> !IsBlankChar(s[n])
    ensures BlankLen(s) == n
  {
  }

  lemma TrailingBlankLenIs(s: string, n: nat)
    requires n <= |s|
    requires forall i :: |s| - n <= i < |s| ==> IsBlankChar(s[i])
    requires n < |s| ==> !IsBlankChar(s[|s| - n - 1])
    ensures TrailingBlankLen(s) == n
  {
  }

  /** Blank runs around a text that starts and ends with a non-blank character are what the
      patterns' ^\s* and \s*$ absorb. */
  lemma CoreOf(lead: string, mid: string, trail: string)
    requires IsBlank(lead) && IsBlank(trail)
    requires |mid| > 0 && !IsBlankChar(mid[0]) && !IsBlankChar(mid[|mid| - 1])
    ensures Core(lead + mid + trail) == mid
  {
    var line := lead + mid + trail;
    BlankLenIs(line, |lead|);
    var t := line[|lead|..];
    assert t == mid + trail;
    TrailingBlankLenIs(t, |trail|);
    assert t[..|t| - |trail|] == mid;
  }

  /** A name is a column line. */
  lemma NamePatternOf(name: string)
    requires IsName(name)
    ensures NamePattern(name) == Some(name)
  {
    NameLenIs(name, |name|);
  }

  /** A name, a blank run and a table name is a table line. */
  lemma NameTablePatternOf(name: string, gap: string, table: string)
    requires IsName(name) && |gap| > 0 && IsBlank(gap) && IsName(table)
    ensures NameTablePattern(name + gap + table) == Some((name, table))
  {
    var t := name + gap + table;
    NameLenIs(t, |name|);
    assert t[|name|..] == gap + table;
    BlankLenIs(gap + table, |gap|);
    assert t[|name| + |gap|..] == table;
    NameLenIs(table, |table|);
    assert t[..|name|] == name;
  }

  /** ", n1, n2, ...": the names of a comma list after the first, each after a comma and a space. */
  function CommaList(ns: seq<string>): (r: string)
    decreases |ns|
  {
    if ns == [] then "" else ", " + ns[0] + CommaList(ns[1..])
  }

  lemma {:induction false} CommaListSnoc(ns: seq<string>)
    requires |ns| > 0
    ensures CommaList(ns) == CommaList(ns[..|ns| - 1]) + ", " + ns[|ns| - 1]
    decreases |ns|
  {
    if |ns| == 1 {
      assert ns[..0] == [];
      assert CommaList(ns[1..]) == "";
    } else {
      CommaListSnoc(ns[1..]);
      assert ns[1..][..|ns| - 2] == ns[..|ns| - 1][1..];
      assert ns[1..][|ns| - 2] == ns[|ns| - 1];
      assert CommaList(ns[..|ns| - 1]) == ", " + ns[0] + CommaList(ns[..|ns| - 1][1..]);
    }
  }

  /** A comma list whose last name ends it ends with a name character. */
  lemma CommaListEnd(first: string, ns: seq<string>)
    requires IsName(first) && |ns| > 0 && IsName(ns[|ns| - 1])
    ensures var mid := first + CommaList(ns); |mid| > 0 && IsNameChar(mid[|mid| - 1])
  {
    CommaListSnoc(ns);
  }

  /** The single blank of ", " is the whole blank run when a name follows it. */
  lemma OneBlankBefore(name: string, rest: string)
    requires IsName(name)
    ensures var s := ", " + name + rest;
      s[2..] == name + rest && BlankLen(s[1..]) == 1 && s[1 + 1..] == name + rest
  {
    var s := ", " + name + rest;
    AppendAssoc(", ", name, rest);
    assert s[2..] == name + rest;
    assert s[1..][0] == ' ' && s[1..][1] == name[0];
    BlankLenIs(s[1..], 1);
  }

  /** A group ", name" followed by another comma hands the rest to the next iteration. */
  lemma LastRepeatSkip(name: string, rest: string)
    requires IsName(name) && |rest| > 0 && rest[0] == ','
    ensures LastRepeat(", " + name + rest) == LastRepeat(rest)
  {
    var s := ", " + name + rest;
    OneBlankBefore(name, rest);
    NameThen(name, rest);
    assert s[1 + 1 + |name|..] == rest;
  }

  /** A last group ", name" is reported whole. */
  lemma LastRepeatLast(name: string)
    requires IsName(name)
    ensures LastRepeat(", " + name) == Some(", " + name)
  {
    var s := ", " + name;
    OneBlankBefore(name, "");
    assert s == ", " + name + "";
    NameThen(name, "");
    assert name + "" == name;
  }

  /** Against a comma list the repeated group reports only its last iteration. */
  lemma {:induction false} LastRepeatOf(ns: seq<string>)
    requires |ns| > 0 && forall i :: 0 <= i < |ns| ==> IsName(ns[i])
    ensures LastRepeat(CommaList(ns)) == Some(", " + ns[|ns| - 1])
    decreases |ns|
  {
    var tail := CommaList(ns[1..]);
    assert CommaList(ns) == ", " + ns[0] + tail;
    if |ns| == 1 {
      assert tail == [];
      assert CommaList(ns) == ", " + ns[0];
      LastRepeatLast(ns[0]);
    } else {
      assert tail == ", " + ns[1] + CommaList(ns[2..]);
      assert tail[0] == ',';
      LastRepeatSkip(ns[0], tail);
      LastRepeatOf(ns[1..]);
      assert ns[1..][|ns| - 2] == ns[|ns| - 1];
    }
  }

  /** A name in front of a string that does not go on with a name character is the whole name run. */
  lemma NameThen(name: string, rest: string)
    requires IsName(name) && (|rest| > 0 ==> !IsNameChar(rest[0]))
    ensures NameLen(name + rest) == |name|
    ensures (name + rest)[|name|..] == rest
  {
    var t := name + rest;
    assert forall i :: 0 <= i < |name| ==> t[i] == name[i];
    assert |name| < |t| ==> t[|name|] == rest[0];
    NameLenIs(t, |name|);
  }

  /** A group ", name" followed by another comma hands the rest to the next iteration. */
  lemma LastRepeatAndTableSkip(name: string, rest: string)
    requires IsName(name) && |rest| > 0 && rest[0] == ','
    ensures LastRepeatAndTable(", " + name + rest) == LastRepeatAndTable(rest)
  {
    var s := ", " + name + rest;
    AppendAssoc(", ", name, rest);
    assert s[2..] == name + rest;
    NameThen(name, rest);
    assert s[2 + |name|..] == rest;
  }

  /** The last group ", name", a blank run and a table name give that group and the table. */
  lemma LastRepeatAndTableEnd(name: string, gap: string, table: string)
    requires IsName(name) && |gap| > 0 && IsBlank(gap) && IsName(table)
    ensures LastRepeatAndTable(", " + name + (gap + table)) == Some((", " + name, table))
  {
    var rest := gap + table;
    var s := ", " + name + rest;
    BlankThenTable(gap, table);
    AppendAssoc(", ", name, rest);
    assert s[2..] == name + rest;
    NameThen(name, rest);
    assert s[2 + |name|..] == rest;
    assert s[..2 + |name|] == ", " + name;
  }

  /** A blank run in front of a table name is the whole blank run, and the name follows it. */
  lemma BlankThenTable(gap: string, table: string)
    requires |gap| > 0 && IsBlank(gap) && IsName(table)
    ensures var rest := gap + table;
      !IsNameChar(rest[0]) && BlankLen(rest) == |gap| && rest[|gap|..] == table
      && NameLen(table) == |table|
  {
    var rest := gap + table;
    assert rest[0] == gap[0];
    assert forall i :: 0 <= i < |gap| ==> rest[i] == gap[i];
    assert rest[|gap|] == table[0];
    BlankLenIs(rest, |gap|);
    NameLenIs(table, |table|);
  }

  /** Against a comma list, a blank run and a table name, the repeated group again reports only its
      last iteration. */
  lemma {:induction false} LastRepeatAndTableOf(ns: seq<string>, gap: string, table: string)
    requires |ns| > 0 && forall i :: 0 <= i < |ns| ==> IsName(ns[i])
    requires |gap| > 0 && IsBlank(gap) && IsName(table)
    ensures LastRepeatAndTable(CommaList(ns) + gap + table) == Some((", " + ns[|ns| - 1], table))
    decreases |ns|
  {
    var tail := CommaList(ns[1..]);
    assert CommaList(ns) + gap + table == ", " + ns[0] + (tail + gap + table);
    if |ns| == 1 {
      assert tail == [];
      assert tail + gap + table == gap + table;
      LastRepeatAndTableEnd(ns[0], gap, table);
    } else {
      assert tail == ", " + ns[1] + CommaList(ns[2..]);
      assert (tail + gap + table)[0] == ',';
      LastRepeatAndTableSkip(ns[0], tail + gap + table);
      LastRepeatAndTableOf(ns[1..], gap, table);
      assert ns[1..][|ns| - 2] == ns[|ns| - 1];
    }
  }

  /** A comma list is a column line; only its first and last names are reported. */
  lemma ListPatternOf(first: string, ns: seq<string>)
    requires IsName(first) && |ns| > 0 && forall i :: 0 <= i < |ns| ==> IsName(ns[i])
    ensures ListPattern(first + CommaList(ns)) == Some((first, ", " + ns[|ns| - 1]))
    ensures NamePattern(first + CommaList(ns)) == None
  {
    var rest := CommaList(ns);
    assert rest == ", " + ns[0] + CommaList(ns[1..]);
    assert rest[0] == ',';
    ListStart(first, rest);
    LastRepeatOf(ns);
  }

  /** A comma list, a blank run and a table name is a table line; only the first and last names
      of the list are reported. */
  lemma ListTablePatternOf(first: string, ns: seq<string>, gap: string, table: string)
    requires IsName(first) && |ns| > 0 && forall i :: 0 <= i < |ns| ==> IsName(ns[i])
    requires |gap| > 0 && IsBlank(gap) && IsName(table)
    ensures ListTablePattern(first + (CommaList(ns) + gap + table)) == Some((first, ", " + ns[|ns| - 1], table))
  {
    var rest := CommaList(ns) + gap + table;
    var t := first + rest;
    ListStart(first, rest);
    LastRepeatAndTableOf(ns, gap, table);
  }

  /** The same line is not a single-name table line. */
  lemma ListTableNotNameTable(first: string, ns: seq<string>, gap: string, table: string)
    requires IsName(first) && |ns| > 0
    ensures NameTablePattern(first + (CommaList(ns) + gap + table)) == None
  {
    var rest := CommaList(ns) + gap + table;
    ListStart(first, rest);
    BlankLenIs(rest, 0);
  }

  /** A name followed by a comma: the name ends at the comma. */
  lemma ListStart(first: string, rest: string)
    requires IsName(first) && |rest| > 0 && rest[0] == ','
    ensures var t := first + rest; NameLen(t) == |first| && t[..|first|] == first && t[|first|..] == rest
  {
    var t := first + rest;
    assert t[|first|] == ',';
    NameLenIs(t, |first|);
    assert t[|first|..] == rest;
    assert t[..|first|] == first;
  }

  // ---------------------------------------------------------------------------------------------
  // What each kind of line becomes

  /** A line whose text does not start with a name character (a comment, a closing parenthesis)
      matches no pattern and is copied as it is, before and after the table line. */
  lemma PassThrough(line: string)
    requires Core(line) == [] || !IsNameChar(Core(line)[0])
    ensures !IsTableLine(line)
    ensures BodyLineOutput(line) == line
  {
    NameLenIs(Core(line), 0);
  }

  /** A later line holding one name becomes the one-name list. CoreOf gives `Core(line)` for a
      line with blank runs at either end. */
  lemma BodyLineOfName(line: string, name: string)
    requires IsName(name) && Core(line) == name
    ensures BodyLineOutput(line) == "[]string{\"" + name + "\"},"
  {
    NamePatternOf(name);
  }

  /** A later line holding a comma list becomes the list of its first and last names. */
  lemma BodyLineOfList(line: string, first: string, ns: seq<string>)
    requires IsName(first) && |ns| > 0 && forall i :: 0 <= i < |ns| ==> IsName(ns[i])
    requires Core(line) == first + CommaList(ns)
    ensures BodyLineOutput(line) == "[]string{\"" + first + "\", \"" + ns[|ns| - 1] + "\"},"
  {
    ListPatternOf(first, ns);
    ListEntryOfList(first, ns[|ns| - 1]);
  }

  /** The first line holding a name and a table gives the table, then the one-name list. */
  lemma TableLineOfName(line: string, name: string, gap: string, table: string)
    requires IsName(name) && |gap| > 0 && IsBlank(gap) && IsName(table)
    requires Core(line) == name + gap + table
    ensures IsTableLine(line)
    ensures TableLineOutput(line) == [table + "{},", "[]string{\"" + name + "\"},"]
  {
    NameTablePatternOf(name, gap, table);
  }

  /** The first line holding a comma list and a table gives the table, then the list of the first
      and last names. */
  lemma TableLineOfList(line: string, first: string, ns: seq<string>, gap: string, table: string)
    requires IsName(first) && |ns| > 0 && forall i :: 0 <= i < |ns| ==> IsName(ns[i])
    requires |gap| > 0 && IsBlank(gap) && IsName(table)
    requires Core(line) == first + (CommaList(ns) + gap + table)
    ensures IsTableLine(line)
    ensures TableLineOutput(line) == [table + "{},", "[]string{\"" + first + "\", \"" + ns[|ns| - 1] + "\"},"]
  {
    ListTablePatternOf(first, ns, gap, table);
    ListTableNotNameTable(first, ns, gap, table);
    ListEntryOfList(first, ns[|ns| - 1]);
  }

  /** The submatches of a comma-list line give the quoted first and last names. */
  lemma ListEntryOfList(first: string, last: string)
    requires IsName(first)
    ensures ListEntry([first, ", " + last]) == "[]string{\"" + first + "\", \"" + last + "\"},"
  {
    ListEntryPair(first, ", " + last);
    assert TrimPrefix(first, ", ") == first by {
      assert first[0] != ',';
    }
    assert TrimPrefix(", " + last, ", ") == last;
  }

  // ---------------------------------------------------------------------------------------------
  // Comma lists: every name kept

  /** The repeated group (,\s*[a-zA-Z0-9-_]+)+ matched against the whole of `s`, reporting the
      name of every iteration rather than the text of the last one. */
  function RepeatNames(s: string): (r: Option<seq<string>>)
    ensures r.Some? <==> LastRepeat(s).Some?
    ensures r.Some? ==> |r.value| > 0 && forall i :: 0 <= i < |r.value| ==> IsName(r.value[i])
    decreases |s|
  {
    if |s| == 0 || s[0] != ',' then None
    else
      var gap := BlankLen(s[1..]);
      var n := NameLen(s[1 + gap..]);
      var name := s[1 + gap..][..n];
      if n == 0 then None
      else if 1 + gap + n == |s| then Some([name])
      else
        match RepeatNames(s[1 + gap + n..])
        case None => None
        case Some(ns) => Some([name] + ns)
  }

  /** multiIndex without its blank runs at either end, reporting every name of the list. It
      accepts exactly the texts ListPattern accepts, with the same first name. */
  function ListNames(t: string): (r: Option<seq<string>>)
    ensures r.Some? <==> ListPattern(t).Some?
    ensures r.Some? ==> |r.value| >= 2 && r.value[0] == ListPattern(t).value.0
    ensures r.Some? ==> forall i :: 0 <= i < |r.value| ==> IsName(r.value[i])
  {
    var n := NameLen(t);
    if n == 0 then None
    else
      match RepeatNames(t[n..])
      case None => None
      case Some(ns) => Some([t[..n]] + ns)
  }

  /** What a line after the table line would yield if a comma list kept all its names. */
  function IntendedBodyLineOutput(line: string): string
  {
    match SingleIndex(line)
    case Some(name) => SingleEntry(name)
    case None =>
      match ListNames(Core(line))
      case Some(ns) => ListEntry(ns)
      case None => line
  }

  lemma {:induction false} RepeatNamesOf(ns: seq<string>)
    requires |ns| > 0 && forall i :: 0 <= i < |ns| ==> IsName(ns[i])
    ensures RepeatNames(CommaList(ns)) == Some(ns)
    decreases |ns|
  {
    CommaListCons(ns);
    if |ns| == 1 {
      RepeatNamesLast(ns[0]);
      assert ns == [ns[0]];
    } else {
      RepeatNamesOf(ns[1..]);
      RepeatNamesSkip(ns[0], CommaList(ns[1..]), ns[1..]);
      assert [ns[0]] + ns[1..] == ns;
    }
  }

  /** A comma list is its first group ", name" before the list of the rest, which, when there is
      one, starts with its comma. */
  lemma CommaListCons(ns: seq<string>)
    requires |ns| > 0
    ensures CommaList(ns) == ", " + ns[0] + CommaList(ns[1..])
    ensures |ns| == 1 ==> CommaList(ns) == ", " + ns[0]
    ensures |ns| > 1 ==> |CommaList(ns[1..])| > 0 && CommaList(ns[1..])[0] == ','
  {
    var tail := CommaList(ns[1..]);
    if |ns| > 1 {
      assert tail == ", " + ns[1] + CommaList(ns[2..]);
    } else {
      assert tail == [];
    }
  }

  /** A group ", name" followed by another comma puts the name in front of the later ones. */
  lemma RepeatNamesSkip(name: string, rest: string, later: seq<string>)
    requires IsName(name) && |rest| > 0 && rest[0] == ',' && RepeatNames(rest) == Some(later)
    ensures RepeatNames(", " + name + rest) == Some([name] + later)
  {
    var s := ", " + name + rest;
    OneBlankBefore(name, rest);
    NameThen(name, rest);
    assert (name + rest)[..|name|] == name;
    assert s[1 + 1 + |name|..] == rest;
  }

  /** A last group ", name" yields that one name. */
  lemma RepeatNamesLast(name: string)
    requires IsName(name)
    ensures RepeatNames(", " + name) == Some([name])
  {
    var s := ", " + name;
    OneBlankBefore(name, "");
    assert s == ", " + name + "";
    NameThen(name, "");
    assert name + "" == name;
    assert (name + "")[..|name|] == name;
  }

  /** Quoting a name leaves it whole: the names of a list are quoted as they are. */
  lemma ListPiecesOfNames(ms: seq<string>, i: nat)
    requires i < |ms| && IsName(ms[i])
    ensures ListPieces(ms)[i] == "\"" + ms[i] + (if i < |ms| - 1 then "\", " else "\"},")
  {
    assert ms[i][0] != ',';
  }

  /** With every name kept, a later comma-list line yields the list of all its names. */
  lemma IntendedBodyLineOfList(line: string, first: string, ns: seq<string>)
    requires IsName(first) && |ns| > 0 && forall i :: 0 <= i < |ns| ==> IsName(ns[i])
    requires Core(line) == first + CommaList(ns)
    ensures IntendedBodyLineOutput(line) == ListEntry([first] + ns)
  {
    ListPatternOf(first, ns);
    ListNamesOf(first, ns);
  }

  lemma ListNamesOf(first: string, ns: seq<string>)
    requires IsName(first) && |ns| > 0 && forall i :: 0 <= i < |ns| ==> IsName(ns[i])
    ensures ListNames(first + CommaList(ns)) == Some([first] + ns)
  {
    ListStart(first, CommaList(ns));
    RepeatNamesOf(ns);
  }

  /** On a pair of names separated by ", " the intended reading agrees with the code. */
  lemma IntendedAgreesOnPairs(line: string, first: string, second: string)
    requires IsName(first) && IsName(second)
    requires Core(line) == first + CommaList([second])
    ensures IntendedBodyLineOutput(line) == BodyLineOutput(line)
  {
    IntendedBodyLineOfList(line, first, [second]);
    BodyLineOfList(line, first, [second]);
    assert [first] + [second] == [first, second];
    ListEntryOfNames(first, second);
  }

  /** The list entry of two names quotes them as they are. */
  lemma ListEntryOfNames(first: string, second: string)
    requires IsName(first) && IsName(second)
    ensures ListEntry([first, second]) == "[]string{\"" + first + "\", \"" + second + "\"},"
  {
    ListEntryPair(first, second);
    assert TrimPrefix(first, ", ") == first by {
      assert first[0] != ',';
    }
    assert TrimPrefix(second, ", ") == second by {
      assert second[0] != ',';
    }
  }

  /** As written, a later line "a, b, c" yields the list of a and c: b is lost. */
  lemma ThreeNamesLoseMiddle(line: string, a: string, b: string, c: string)
    requires IsName(a) && IsName(b) && IsName(c)
    requires Core(line) == a + ", " + b + ", " + c
    ensures BodyLineOutput(line) == "[]string{\"" + a + "\", \"" + c + "\"},"
  {
    assert CommaList([b, c]) == ", " + b + (", " + c + CommaList([])) by {
      assert [b, c][1..] == [c];
      assert [c][1..] == [];
    }
    assert a + ", " + b + ", " + c == a + CommaList([b, c]);
    BodyLineOfList(line, a, [b, c]);
  }

  /** With every name kept, a later line "a, b, c" yields the list of a, b and c. */
  lemma ThreeNamesKept(line: string, a: string, b: string, c: string)
    requires IsName(a) && IsName(b) && IsName(c)
    requires Core(line) == a + ", " + b + ", " + c
    ensures IntendedBodyLineOutput(line) == "[]string{\"" + a + "\", \"" + b + "\", \"" + c + "\"},"
  {
    assert CommaList([b, c]) == ", " + b + (", " + c + CommaList([])) by {
      assert [b, c][1..] == [c];
      assert [c][1..] == [];
    }
    assert a + ", " + b + ", " + c == a + CommaList([b, c]);
    IntendedBodyLineOfList(line, a, [b, c]);
    assert [a] + [b, c] == [a, b, c];
    ListEntryTriple(a, b, c);
  }

  lemma ListEntryTriple(a: string, b: string, c: string)
    requires IsName(a) && IsName(b) && IsName(c)
    ensures ListEntry([a, b, c]) == "[]string{\"" + a + "\", \"" + b + "\", \"" + c + "\"},"
  {
    var p := ListPieces([a, b, c]);
    ListPiecesOfNames([a, b, c], 0);
    ListPiecesOfNames([a, b, c], 1);
    ListPiecesOfNames([a, b, c], 2);
    var q0, q1, q2 := p[0], p[1], p[2];
    assert p == [q0, q1] + [q2];
    assert [q0, q1] == [q0] + [q1];
    JoinNoSep([q0], q1);
    JoinNoSep([q0, q1], q2);
    var l := "[]string{";
    assert l + (q0 + q1 + q2) == l + q0 + q1 + q2 by {
      AppendAssoc(l, q0 + q1, q2);
      AppendAssoc(l, q0, q1);
    }
    QuotedAfter(l, a, "\", ");
    QuotedAfter(l + "\"" + a + "\", ", b, "\", ");
    QuotedAfter(l + "\"" + a + "\", " + "\"" + b + "\", ", c, "\"},");
    var sep := "\", ";
    assert "[]string{\"" == l + "\"";
    assert "\", \"" == sep + "\"";
    var x := l + "\"" + a;
    AppendAssoc(x, sep, "\"");
    var y := x + sep + "\"" + b;
    AppendAssoc(y, sep, "\"");
  }

  /** Appending a quoted piece is appending its three parts in turn. */
  lemma QuotedAfter(x: string, m: string, close: string)
    ensures x + ("\"" + m + close) == x + "\"" + m + close
  {
    AppendAssoc(x, "\"" + m, close);
    AppendAssoc(x, "\"", m);
  }

  // ---------------------------------------------------------------------------------------------
  // The output as a whole

  /** The lines from position `i` on: those before the first table line unchanged, the table
      line's two lines, then one line for each later line. */
  lemma {:induction false} StartOutputSplit(ls: seq<Line>, i: nat)
    requires Opens(ls, i)
    ensures var t := FirstOpening(ls, i);
      StartOutput(ls, i) == Texts(ls[i..t]) + ls[t].opening + Later(ls[t + 1..])
    decreases |ls| - i
  {
    var t := FirstOpening(ls, i);
    if ls[i].opens {
      assert Texts(ls[i..i]) == [];
      assert [] + ls[i].opening == ls[i].opening;
    } else {
      assert Opens(ls, i + 1) by {
        var j :| i <= j < |ls| && ls[j].opens;
        assert j != i;
      }
      assert t == FirstOpening(ls, i + 1);
      StartOutputSplit(ls, i + 1);
      assert StartOutput(ls, i) == [ls[i].text] + StartOutput(ls, i + 1);
      PrependText(ls, i, t, StartOutput(ls, i + 1));
    }
  }

  /** A line that is not the table line goes in front of the texts of the lines before it. */
  lemma PrependText(ls: seq<Line>, i: nat, t: nat, out: seq<string>)
    requires i < t < |ls|
    requires out == Texts(ls[i + 1..t]) + ls[t].opening + Later(ls[t + 1..])
    ensures [ls[i].text] + out == Texts(ls[i..t]) + ls[t].opening + Later(ls[t + 1..])
  {
    var a, b, c := Texts(ls[i + 1..t]), ls[t].opening, Later(ls[t + 1..]);
    AppendAssoc([ls[i].text], a + b, c);
    AppendAssoc([ls[i].text], a, b);
    TextsCons(ls, i, t);
  }

  /** The texts of a run of lines are its first line's text and the texts of the others. */
  lemma TextsCons(ls: seq<Line>, i: nat, t: nat)
    requires i < t <= |ls|
    ensures Texts(ls[i..t]) == [ls[i].text] + Texts(ls[i + 1..t])
  {
    var r, r' := Texts(ls[i..t]), Texts(ls[i + 1..t]);
    assert forall j :: 0 <= j < |r'| ==> r'[j] == ls[i + 1 + j].text;
    assert forall j :: 0 <= j < |r| ==> r[j] == ls[i + j].text;
  }

  /** Before the first table line from `i` on, each line is copied in place. */
  lemma StartOutputBefore(ls: seq<Line>, i: nat, j: nat)
    requires Opens(ls, i) && i <= j < FirstOpening(ls, i)
    ensures j - i < |StartOutput(ls, i)| && StartOutput(ls, i)[j - i] == ls[j].text
  {
    StartOutputSplit(ls, i);
    assert Texts(ls[i..FirstOpening(ls, i)])[j - i] == ls[j].text;
  }

  /** The first table line from `i` on yields its lines in its own place. */
  lemma StartOutputAt(ls: seq<Line>, i: nat)
    requires Opens(ls, i)
    ensures var t := FirstOpening(ls, i);
      && t - i + |ls[t].opening| <= |StartOutput(ls, i)|
      && StartOutput(ls, i)[t - i..t - i + |ls[t].opening|] == ls[t].opening
  {
    StartOutputSplit(ls, i);
  }

  /** After the first table line from `i` on, each line yields one line, shifted by what the
      table line yields beyond one. */
  lemma StartOutputAfter(ls: seq<Line>, i: nat, j: nat, k: nat)
    requires Opens(ls, i) && FirstOpening(ls, i) < j < |ls|
    requires k == j - i + |ls[FirstOpening(ls, i)].opening| - 1
    ensures k < |StartOutput(ls, i)| && StartOutput(ls, i)[k] == ls[j].later
  {
    var t := FirstOpening(ls, i);
    StartOutputSplit(ls, i);
    assert Later(ls[t + 1..])[j - t - 1] == ls[j].later;
  }

  /** The length of what the loops append from `i` on. */
  lemma StartOutputLength(ls: seq<Line>, i: nat)
    requires Opens(ls, i)
    ensures |StartOutput(ls, i)| == |ls| - i + |ls[FirstOpening(ls, i)].opening| - 1
  {
    StartOutputSplit(ls, i);
  }

  /** What the classification of one line of `src` records about it. */
  lemma ClassifiedAt(src: seq<string>, j: nat)
    requires j < |src|
    ensures var l := Classified(src)[j];
      && l.text == src[j] && l.opens == IsTableLine(src[j]) && l.later == BodyLineOutput(src[j])
      && (l.opens ==> l.opening == TableLineOutput(src[j]))
  {
    assert Classified(src)[j] == Classify(src[j]);
  }

  /** The classification of one line of `src` keeps its text. */
  lemma ClassifiedText(src: seq<string>, j: nat)
    requires j < |src|
    ensures Classified(src)[j].text == src[j]
  {
    ClassifiedAt(src, j);
  }

  /** ParseIndexes yields one line more than it reads, the first being the opening line with its
      first "index" replaced. */
  lemma IndexOutputLength(src: seq<string>)
    requires HasTableLine(src)
    ensures |IndexOutput(src)| == |src| + 1
    ensures IndexOutput(src)[0] == ReplaceFirst(src[0], "index", RegisterCall)
  {
    var ls := Classified(src);
    var t := FirstTableLine(src);
    ClassifiedAt(src, t);
    StartOutputLength(ls, 1);
    assert IndexOutput(src) == [ReplaceFirst(src[0], "index", RegisterCall)] + StartOutput(ls, 1);
  }

  /** The lines between the opening line and the first table line are copied as they are. */
  lemma BeforeTableLine(src: seq<string>, j: nat)
    requires HasTableLine(src)
    requires 1 <= j < FirstTableLine(src)
    ensures j < |IndexOutput(src)| && IndexOutput(src)[j] == src[j]
  {
    var ls := Classified(src);
    var t := FirstTableLine(src);
    ClassifiedText(src, j);
    StartOutputBefore(ls, 1, j);
    ConsShift(ReplaceFirst(src[0], "index", RegisterCall), StartOutput(ls, 1), j - 1, src[j]);
  }

  /** The first table line yields the table entry and its column list, in its own place. */
  lemma AtTableLine(src: seq<string>)
    requires HasTableLine(src)
    ensures var t := FirstTableLine(src);
      && t + 1 < |IndexOutput(src)|
      && IndexOutput(src)[t] == TableLineOutput(src[t])[0]
      && IndexOutput(src)[t + 1] == TableLineOutput(src[t])[1]
  {
    var ls := Classified(src);
    var t := FirstTableLine(src);
    ClassifiedAt(src, t);
    var head := ReplaceFirst(src[0], "index", RegisterCall);
    OutputAtOpening(head, ls, t);
    assert IndexOutput(src) == [head] + StartOutput(ls, 1);
  }

  /** Behind the opening line, the first table line's two lines take its place and the next. */
  lemma OutputAtOpening(head: string, ls: seq<Line>, t: nat)
    requires Opens(ls, 1) && t == FirstOpening(ls, 1) && |ls[t].opening| == 2
    ensures t + 1 < |[head] + StartOutput(ls, 1)|
    ensures ([head] + StartOutput(ls, 1))[t] == ls[t].opening[0]
    ensures ([head] + StartOutput(ls, 1))[t + 1] == ls[t].opening[1]
  {
    StartOutputAt(ls, 1);
    var out := StartOutput(ls, 1);
    var o := ls[t].opening;
    assert out[t - 1..t + 1] == o;
    assert out[t - 1] == o[0] && out[t] == o[1];
    var whole := [head] + out;
    assert whole[t] == out[t - 1] && whole[t + 1] == out[t];
  }

  /** Every line after the first table line yields one line, one place further on. */
  lemma AfterTableLine(src: seq<string>, j: nat)
    requires HasTableLine(src)
    requires FirstTableLine(src) < j < |src|
    ensures j + 1 < |IndexOutput(src)| && IndexOutput(src)[j + 1] == BodyLineOutput(src[j])
  {
    var ls := Classified(src);
    var t := FirstTableLine(src);
    ClassifiedAt(src, t);
    ClassifiedAt(src, j);
    StartOutputAfter(ls, 1, j, j);
    ConsShift(ReplaceFirst(src[0], "index", RegisterCall), StartOutput(ls, 1), j, BodyLineOutput(src[j]));
  }
}
