/** The line classifiers of parse.go: comment lines, the start and end of block comments, and a
    prefix consumer that never consumes. */
module Comments {
  import opened Strings

  /** The line, without surrounding white space, starts with "//". */
  predicate IsComment(line: string)
  {
    "//" <= TrimSpace(line)
  }

  /** The line, without surrounding white space, starts with the block-comment opener. */
  predicate StartsMultilineComment(line: string)
  {
    "/*" <= TrimSpace(line)
  }

  /** Whether the line closes a block comment anywhere, and the line itself, untouched. */
  function EndsMultilineComment(line: string): (r: (bool, string))
    ensures r.0 <==> exists i :: 0 <= i <= |line| && OccursAt(line, "*/", i)
    ensures r.1 == line
  {
    (Contains(line, "*/"), line)
  }

  /** Consume consumes nothing: it reports failure and hands the line back. */
  function Consume(line: string, prefix: string): (r: (bool, string))
    ensures !r.0 && r.1 == line
  {
    (false, line)
  }

  /** A line is not both a line comment and the start of a block comment. */
  lemma CommentKindsExclusive(line: string)
    ensures !(IsComment(line) && StartsMultilineComment(line))
  {
    var t := TrimSpace(line);
    if "//" <= t {
      assert t[1] == '/';
    }
  }

  /** Leading white space does not change what TrimLeft leaves. */
  lemma {:induction false} TrimLeftIndent(ws: string, line: string)
    requires forall i :: 0 <= i < |ws| ==> IsSpace(ws[i])
    ensures TrimLeft(ws + line) == TrimLeft(line)
    decreases |ws|
  {
    if |ws| > 0 {
      assert (ws + line)[0] == ws[0];
      assert (ws + line)[1..] == ws[1..] + line;
      TrimLeftIndent(ws[1..], line);
    } else {
      assert ws + line == line;
    }
  }

  /** Indentation does not decide whether a line is a comment or opens a block comment. */
  lemma IndentIgnored(ws: string, line: string)
    requires forall i :: 0 <= i < |ws| ==> IsSpace(ws[i])
    ensures IsComment(ws + line) == IsComment(line)
    ensures StartsMultilineComment(ws + line) == StartsMultilineComment(line)
  {
    TrimLeftIndent(ws, line);
  }

  /** A line whose first two characters are "//" is a comment. */
  lemma SlashesStartComment(l: string)
    requires |l| >= 2 && l[0] == '/' && l[1] == '/'
    ensures IsComment(l)
  {
    assert TrimLeft(l) == l;
    var r := TrimRight(l);
    assert |r| >= 2 by {
      assert !IsSpace(l[1]);
    }
    assert r[0] == l[0] && r[1] == l[1];
  }

  /** A line that opens with "//" after its indentation is a comment. */
  lemma IndentedComment(ws: string, text: string)
    requires forall i :: 0 <= i < |ws| ==> IsSpace(ws[i])
    ensures IsComment(ws + "//" + text)
  {
    var l := "//" + text;
    assert ws + "//" + text == ws + l;
    SlashesStartComment(l);
    IndentIgnored(ws, l);
  }
}
