/** The pieces of Go's strings and strconv packages that the modelled code relies on,
    restricted to ASCII. Every function here is total; Go's panics do not arise. */
module Strings {

  datatype Option<T> = None | Some(value: T)

  /** Occurrences of `sub` in `s` at position `i`. */
  predicate OccursAt(s: string, sub: string, i: nat)
  {
    i + |sub| <= |s| && s[i..i + |sub|] == sub
  }

  /** strings.Index: the position of the first occurrence of `sub` in `s`. */
  function IndexOf(s: string, sub: string): (r: Option<nat>)
    ensures r.Some? ==> OccursAt(s, sub, r.value)
    ensures r.Some? ==> forall j :: 0 <= j < r.value ==> !OccursAt(s, sub, j)
    ensures r.None? ==> forall j :: 0 <= j <= |s| ==> !OccursAt(s, sub, j)
    decreases |s|
  {
    if sub <= s then Some(0)
    else if |s| == 0 then None
    else
      var rest := IndexOf(s[1..], sub);
      assert forall j :: 0 < j <= |s| ==> (OccursAt(s, sub, j) <==> OccursAt(s[1..], sub, j - 1)) by {
        forall j | 0 < j <= |s| ensures OccursAt(s, sub, j) <==> OccursAt(s[1..], sub, j - 1) {
          if j + |sub| <= |s| {
            assert s[j..j + |sub|] == s[1..][j - 1..j - 1 + |sub|];
          }
        }
      }
      match rest
      case None => None
      case Some(k) => Some(k + 1)
  }

  /** strings.Contains. */
  predicate Contains(s: string, sub: string)
  {
    IndexOf(s, sub).Some?
  }

  /** strings.Replace(s, pattern, replacement, 1): only the first occurrence of `pattern` is replaced. */
  function ReplaceFirst(s: string, pattern: string, replacement: string): (r: string)
  {
    match IndexOf(s, pattern)
    case None => s
    case Some(i) => s[..i] + replacement + s[i + |pattern|..]
  }

  /** strings.Join. */
  function Join(parts: seq<string>, sep: string): (r: string)
  {
    if |parts| == 0 then ""
    else if |parts| == 1 then parts[0]
    else parts[0] + sep + Join(parts[1..], sep)
  }

  lemma JoinCons(p: string, rest: seq<string>, sep: string)
    requires |rest| > 0
    ensures Join([p] + rest, sep) == p + sep + Join(rest, sep)
  {
    assert ([p] + rest)[1..] == rest;
  }

  lemma JoinAppend(parts: seq<string>, last: string, sep: string)
    requires |parts| > 0
    ensures Join(parts + [last], sep) == Join(parts, sep) + sep + last
  {
    if |parts| == 1 {
      assert (parts + [last])[1..] == [last];
    } else {
      assert (parts + [last])[1..] == parts[1..] + [last];
      JoinAppend(parts[1..], last, sep);
    }
  }

  /** Appending one more piece to strings joined without a separator. */
  lemma JoinNoSep(parts: seq<string>, last: string)
    ensures Join(parts + [last], "") == Join(parts, "") + last
  {
    if |parts| == 0 {
      assert parts + [last] == [last];
    } else {
      JoinAppend(parts, last, "");
    }
  }

  /** Joining one more element of `parts` without a separator. */
  lemma JoinPrefixStep(parts: seq<string>, i: nat)
    requires i < |parts|
    ensures Join(parts[..i + 1], "") == Join(parts[..i], "") + parts[i]
  {
    assert parts[..i + 1] == parts[..i] + [parts[i]];
    JoinNoSep(parts[..i], parts[i]);
  }

  lemma AppendAssoc<T>(a: seq<T>, b: seq<T>, c: seq<T>)
    ensures a + b + c == a + (b + c)
  {
  }

  /** A slice that ends inside the first part of a concatenation is a slice of that part. */
  lemma SliceOfAppend<T>(a: seq<T>, b: seq<T>, i: nat, j: nat)
    requires i <= j <= |a|
    ensures (a + b)[i..j] == a[i..j] && (a + b)[..j] == a[..j]
  {
  }

  lemma SliceTail<T>(s: seq<T>, k: nat)
    requires k < |s|
    ensures s[k..][0] == s[k] && s[k..][1..] == s[k + 1..]
  {
  }

  lemma ConsShift<T>(x: T, s: seq<T>, k: nat, v: T)
    requires k < |s| && s[k] == v
    ensures k + 1 < |[x] + s| && ([x] + s)[k + 1] == v
  {
  }

  lemma ConsRange<T>(s: seq<T>, i: nat, t: nat)
    requires i < t <= |s|
    ensures [s[i]] + s[i + 1..t] == s[i..t]
  {
  }

  /** strings.TrimPrefix: `s` without the leading `prefix`, or `s` when it does not start with it. */
  function TrimPrefix(s: string, prefix: string): (r: string)
    ensures prefix <= s ==> prefix + r == s
    ensures !(prefix <= s) ==> r == s
  {
    if prefix <= s then s[|prefix|..] else s
  }

  /** strings.Split with a one-character separator: the pieces between the occurrences of `c`. */
  function SplitChar(s: string, c: char): (r: seq<string>)
    ensures |r| > 0
  {
    if |s| == 0 then [""]
    else
      var rest := SplitChar(s[1..], c);
      if s[0] == c then [""] + rest else [[s[0]] + rest[0]] + rest[1..]
  }

  /** Splitting and joining back with the separator gives the string again; there is one piece
      more than there are separators, and no piece holds one. */
  lemma {:induction false} SplitCharJoin(s: string, c: char)
    ensures Join(SplitChar(s, c), [c]) == s
    ensures |SplitChar(s, c)| == CountChar(s, c) + 1
    ensures forall i :: 0 <= i < |SplitChar(s, c)| ==> CountChar(SplitChar(s, c)[i], c) == 0
  {
    if |s| > 0 {
      var rest := SplitChar(s[1..], c);
      SplitCharJoin(s[1..], c);
      assert s == [s[0]] + s[1..];
      if s[0] == c {
        SplitAtSeparator(s[1..], c, rest);
      } else {
        SplitAtOther(s[0], s[1..], c, rest);
      }
    }
  }

  /** A separator in front starts a new, empty piece. */
  lemma SplitAtSeparator(t: string, c: char, rest: seq<string>)
    requires |rest| > 0 && Join(rest, [c]) == t && |rest| == CountChar(t, c) + 1
    requires forall i :: 0 <= i < |rest| ==> CountChar(rest[i], c) == 0
    ensures var r := [""] + rest;
      && Join(r, [c]) == [c] + t && |r| == CountChar([c] + t, c) + 1
      && forall i :: 0 <= i < |r| ==> CountChar(r[i], c) == 0
  {
    var r := [""] + rest;
    JoinCons("", rest, [c]);
    assert ([c] + t)[1..] == t;
    forall i | 0 <= i < |r| ensures CountChar(r[i], c) == 0 {
      if i > 0 {
        assert r[i] == rest[i - 1];
      }
    }
  }

  /** Any other character in front joins the first piece. */
  lemma SplitAtOther(x: char, t: string, c: char, rest: seq<string>)
    requires x != c
    requires |rest| > 0 && Join(rest, [c]) == t && |rest| == CountChar(t, c) + 1
    requires forall i :: 0 <= i < |rest| ==> CountChar(rest[i], c) == 0
    ensures var r := [[x] + rest[0]] + rest[1..];
      && Join(r, [c]) == [x] + t && |r| == CountChar([x] + t, c) + 1
      && forall i :: 0 <= i < |r| ==> CountChar(r[i], c) == 0
  {
    var head := [x] + rest[0];
    var r := [head] + rest[1..];
    assert head[1..] == rest[0];
    assert ([x] + t)[1..] == t;
    if |rest| == 1 {
      assert Join(rest, [c]) == rest[0];
      assert Join(r, [c]) == head;
    } else {
      assert rest == [rest[0]] + rest[1..];
      JoinCons(head, rest[1..], [c]);
      JoinCons(rest[0], rest[1..], [c]);
      AppendAssoc([x], rest[0] + [c], Join(rest[1..], [c]));
      AppendAssoc([x], rest[0], [c]);
    }
    forall i | 0 <= i < |r| ensures CountChar(r[i], c) == 0 {
      if i > 0 {
        assert r[i] == rest[i];
      }
    }
  }

  /** Extending a prefix of `s` by one element. */
  lemma TakeNext<T>(s: seq<T>, k: nat)
    requires k < |s|
    ensures s[..k + 1] == s[..k] + [s[k]]
  {
  }

  /** The number of occurrences of the character `c` in `s`. */
  function CountChar(s: string, c: char): nat
  {
    if |s| == 0 then 0 else (if s[0] == c then 1 else 0) + CountChar(s[1..], c)
  }

  lemma CountCharAppend(a: string, b: string, c: char)
    ensures CountChar(a + b, c) == CountChar(a, c) + CountChar(b, c)
  {
    if |a| == 0 {
      assert a + b == b;
    } else {
      assert (a + b)[1..] == a[1..] + b;
      CountCharAppend(a[1..], b, c);
    }
  }

  /** Counting over a concatenation of five pieces. */
  lemma CountChar5(a: string, b: string, c: string, d: string, e: string, ch: char)
    ensures CountChar(a + b + c + d + e, ch)
              == CountChar(a, ch) + CountChar(b, ch) + CountChar(c, ch) + CountChar(d, ch) + CountChar(e, ch)
  {
    CountCharAppend(a, b, ch);
    CountCharAppend(a + b, c, ch);
    CountCharAppend(a + b + c, d, ch);
    CountCharAppend(a + b + c + d, e, ch);
  }

  /** Counting over a concatenation of eight pieces. */
  lemma CountChar8(a: string, b: string, c: string, d: string, e: string, f: string, g: string, h: string, ch: char)
    ensures CountChar(a + b + c + d + e + f + g + h, ch)
              == CountChar(a, ch) + CountChar(b, ch) + CountChar(c, ch) + CountChar(d, ch)
                 + CountChar(e, ch) + CountChar(f, ch) + CountChar(g, ch) + CountChar(h, ch)
  {
    CountCharAppend(a, b, ch);
    CountCharAppend(a + b, c, ch);
    CountCharAppend(a + b + c, d, ch);
    CountCharAppend(a + b + c + d, e, ch);
    CountCharAppend(a + b + c + d + e, f, ch);
    CountCharAppend(a + b + c + d + e + f, g, ch);
    CountCharAppend(a + b + c + d + e + f + g, h, ch);
  }

  lemma CountCharAbsent(s: string, c: char)
    requires c !in s
    ensures CountChar(s, c) == 0
  {
    if |s| > 0 {
      assert s[0] != c;
      assert c !in s[1..] by {
        forall i | 0 <= i < |s[1..]| ensures s[1..][i] != c {
          assert s[1..][i] == s[i + 1];
        }
      }
      CountCharAbsent(s[1..], c);
    }
  }

  /** The occurrences of `ch` in all the pieces. */
  function CountAll(parts: seq<string>, ch: char): nat
  {
    if parts == [] then 0 else CountChar(parts[0], ch) + CountAll(parts[1..], ch)
  }

  lemma {:induction false} CountJoin(parts: seq<string>, sep: string, ch: char)
    requires |parts| >= 1
    ensures CountChar(Join(parts, sep), ch) == CountAll(parts, ch) + (|parts| - 1) * CountChar(sep, ch)
    decreases |parts|
  {
    if |parts| > 1 {
      CountJoin(parts[1..], sep, ch);
      CountCharAppend(parts[0], sep, ch);
      CountCharAppend(parts[0] + sep, Join(parts[1..], sep), ch);
    } else {
      assert parts[1..] == [];
    }
  }

  lemma {:induction false} CountAllNone(parts: seq<string>, ch: char)
    requires forall i :: 0 <= i < |parts| ==> CountChar(parts[i], ch) == 0
    ensures CountAll(parts, ch) == 0
    decreases |parts|
  {
    if parts != [] {
      CountAllNone(parts[1..], ch);
    }
  }

  predicate IsUpperAscii(c: char) { 'A' <= c <= 'Z' }
  predicate IsLowerAscii(c: char) { 'a' <= c <= 'z' }
  predicate IsLetter(c: char) { IsUpperAscii(c) || IsLowerAscii(c) }
  predicate IsDigit(c: char) { '0' <= c <= '9' }

  function UpperChar(c: char): char
  {
    if IsLowerAscii(c) then (c as int - 32) as char else c
  }

  function LowerChar(c: char): char
  {
    if IsUpperAscii(c) then (c as int + 32) as char else c
  }

  /** strings.ToUpper, ASCII letters only. */
  function ToUpper(s: string): (r: string)
    ensures |r| == |s|
    ensures forall i :: 0 <= i < |s| ==> r[i] == UpperChar(s[i])
  {
    seq(|s|, i requires 0 <= i < |s| => UpperChar(s[i]))
  }

  /** strings.ToLower, ASCII letters only. */
  function ToLower(s: string): (r: string)
    ensures |r| == |s|
    ensures forall i :: 0 <= i < |s| ==> r[i] == LowerChar(s[i])
  {
    seq(|s|, i requires 0 <= i < |s| => LowerChar(s[i]))
  }

  /** The ASCII characters unicode.IsSpace accepts, as strings.TrimSpace uses them. */
  predicate IsSpace(c: char)
  {
    c == ' ' || c == '\t' || c == '\n' || c == '\r' || c == '\U{000B}' || c == '\U{000C}'
  }

  function TrimLeft(s: string): (r: string)
    ensures |r| <= |s| && r == s[|s| - |r|..]
    ensures |r| > 0 ==> !IsSpace(r[0])
    ensures forall i :: 0 <= i < |s| - |r| ==> IsSpace(s[i])
  {
    if |s| > 0 && IsSpace(s[0]) then TrimLeft(s[1..]) else s
  }

  function TrimRight(s: string): (r: string)
    ensures |r| <= |s| && r == s[..|r|]
    ensures |r| > 0 ==> !IsSpace(r[|r| - 1])
    ensures forall i :: |r| <= i < |s| ==> IsSpace(s[i])
  {
    if |s| > 0 && IsSpace(s[|s| - 1]) then TrimRight(s[..|s| - 1]) else s
  }

  /** strings.TrimSpace (ASCII white space only). */
  function TrimSpace(s: string): string
  {
    TrimRight(TrimLeft(s))
  }

  /** The characters of a decimal number, most significant first. */
  function NatToString(n: nat): (r: string)
    ensures |r| > 0
    ensures forall i :: 0 <= i < |r| ==> IsDigit(r[i])
  {
    if n < 10 then [('0' as int + n) as char]
    else NatToString(n / 10) + [('0' as int + n % 10) as char]
  }

  /** fmt's %d and %v on an integer. */
  function IntToString(n: int): (r: string)
  {
    if n < 0 then "-" + NatToString(-n) else NatToString(n)
  }

  function DigitsValue(s: string): nat
    requires forall i :: 0 <= i < |s| ==> IsDigit(s[i])
  {
    if |s| == 0 then 0
    else
      assert IsDigit(s[|s| - 1]);
      DigitsValue(s[..|s| - 1]) * 10 + (s[|s| - 1] as int - '0' as int)
  }

  const MinInt32: int := -0x8000_0000
  const MaxInt32: int := 0x7FFF_FFFF

  /** strconv.ParseInt(s, 10, 32): an optional sign, at least one decimal digit, and a value
      that fits in 32 bits; anything else is a syntax or range error (None). */
  function ParseInt32(s: string): (r: Option<int>)
    ensures r.Some? ==> MinInt32 <= r.value <= MaxInt32
  {
    var neg := |s| > 0 && s[0] == '-';
    var body := if |s| > 0 && (s[0] == '-' || s[0] == '+') then s[1..] else s;
    if |body| == 0 || exists i :: 0 <= i < |body| && !IsDigit(body[i]) then None
    else
      var v: int := if neg then 0 - DigitsValue(body) as int else DigitsValue(body);
      if MinInt32 <= v <= MaxInt32 then Some(v) else None
  }

  lemma DigitsOfNat(n: nat)
    ensures DigitsValue(NatToString(n)) == n
  {
    if n >= 10 {
      DigitsOfNat(n / 10);
      var s := NatToString(n);
      assert s[..|s| - 1] == NatToString(n / 10);
    }
  }

  /** Every 32-bit integer survives printing with %d and parsing back. */
  lemma {:induction false} ParseInt32RoundTrip(n: int)
    requires MinInt32 <= n <= MaxInt32
    ensures ParseInt32(IntToString(n)) == Some(n)
  {
    var s := IntToString(n);
    if n < 0 {
      DigitsOfNat(-n);
      assert s[1..] == NatToString(-n);
    } else {
      DigitsOfNat(n);
    }
  }
}
