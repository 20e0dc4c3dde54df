// Python string operations the fujin sources rely on, stated over seq<char>.

module Strs {
  import opened Wrappers

  /** `s.startswith(p)` */
  predicate StartsWith(s: string, p: string) {
    p <= s
  }

  /** `s.endswith(p)` */
  predicate EndsWith(s: string, p: string) {
    |p| <= |s| && s[|s| - |p|..] == p
  }

  /** `p in s` for strings: some position of `s` starts with `p`. */
  predicate Contains(s: string, p: string)
    decreases |s|
  {
    p <= s || (s != [] && Contains(s[1..], p))
  }

  /** `s.removesuffix(p)` */
  function RemoveSuffix(s: string, p: string): (r: string)
    ensures EndsWith(s, p) ==> r + p == s
    ensures !EndsWith(s, p) ==> r == s
  {
    if EndsWith(s, p) then s[..|s| - |p|] else s
  }

  /** `s.replace(pat, rep)`: every non-overlapping occurrence, scanning left to right. */
  function ReplaceAll(s: string, pat: string, rep: string): string
    requires pat != []
    decreases |s|
  {
    if |s| < |pat| then s
    else if pat <= s then rep + ReplaceAll(s[|pat|..], pat, rep)
    else [s[0]] + ReplaceAll(s[1..], pat, rep)
  }

  /** `sep.join(parts)` */
  function Join(parts: seq<string>, sep: string): string {
    if parts == [] then ""
    else if |parts| == 1 then parts[0]
    else parts[0] + sep + Join(parts[1..], sep)
  }

  /**
   * The characters `str.strip()` removes, those `str.isspace()` accepts:
   * tab to carriage return, the four separators 0x1C-0x1F, space, NEL,
   * no-break space and the Unicode spaces and line separators.
   */
  predicate IsSpace(c: char) {
    var n := c as int;
    (9 <= n <= 13) || (28 <= n <= 32) || n == 0x85 || n == 0xA0 || n == 0x1680
    || (0x2000 <= n <= 0x200A) || n == 0x2028 || n == 0x2029 || n == 0x202F || n == 0x205F || n == 0x3000
  }

  function StripLeft(s: string): (r: string)
    ensures |r| <= |s| && r == s[|s| - |r|..]
    ensures r == [] || !IsSpace(r[0])
    decreases |s|
  {
    if s != [] && IsSpace(s[0]) then StripLeft(s[1..]) else s
  }

  function StripRight(s: string): (r: string)
    ensures |r| <= |s| && r == s[..|r|]
    ensures r == [] || !IsSpace(r[|r| - 1])
    decreases |s|
  {
    if s != [] && IsSpace(s[|s| - 1]) then StripRight(s[..|s| - 1]) else s
  }

  /** `s.strip()` */
  function Strip(s: string): (r: string)
    ensures |r| <= |s|
    ensures r == [] || (!IsSpace(r[0]) && !IsSpace(r[|r| - 1]))
  {
    StripRight(StripLeft(s))
  }

  /** `s.split(sep)` for a one-character separator: never empty, pieces free of `sep`. */
  function Split(s: string, sep: char): (r: seq<string>)
    ensures |r| >= 1
    ensures forall i :: 0 <= i < |r| ==> sep !in r[i]
    decreases |s|
  {
    if s == [] then [""]
    else if s[0] == sep then [""] + Split(s[1..], sep)
    else
      var rest := Split(s[1..], sep);
      [[s[0]] + rest[0]] + rest[1..]
  }

  /** `s.strip().split("\n") if s.strip() else []`: no line at all for blank output. */
  function StrippedLines(s: string): (r: seq<string>)
    ensures r == [] <==> Strip(s) == []
    ensures forall i :: 0 <= i < |r| ==> '\n' !in r[i]
  {
    if Strip(s) == "" then [] else Split(Strip(s), '\n')
  }

  /** `s.splitlines()` for text whose only line break is `\n`: no final empty line, none at all for "". */
  function SplitLines(s: string): (r: seq<string>)
    ensures r == [] <==> s == []
    ensures forall i :: 0 <= i < |r| ==> '\n' !in r[i]
  {
    if s == [] then []
    else if s[|s| - 1] == '\n' then Split(s[..|s| - 1], '\n')
    else Split(s, '\n')
  }

  /** Joining the lines back gives the text, less one final line break. */
  lemma SplitLinesJoin(s: string)
    ensures Join(SplitLines(s), "\n") + (if s != [] && s[|s| - 1] == '\n' then "\n" else "") == s
  {
    if s != [] {
      if s[|s| - 1] == '\n' {
        JoinSplit(s[..|s| - 1], '\n');
        assert s[..|s| - 1] + "\n" == s;
      } else {
        JoinSplit(s, '\n');
      }
    }
  }

  /** Lines that hold no break, the last of them non-empty, come back from their join. */
  lemma SplitLinesOfJoin(lines: seq<string>)
    requires forall i :: 0 <= i < |lines| ==> '\n' !in lines[i]
    requires lines != [] ==> lines[|lines| - 1] != ""
    ensures SplitLines(Join(lines, "\n")) == lines
  {
    if lines != [] {
      JoinLast(lines, "\n");
      SplitJoin(lines, '\n');
    }
  }

  /** The join ends with the last part. */
  lemma {:induction false} JoinLast(parts: seq<string>, sep: string)
    requires parts != []
    ensures EndsWith(Join(parts, sep), parts[|parts| - 1])
    decreases |parts|
  {
    if |parts| > 1 {
      JoinLast(parts[1..], sep);
      var j := Join(parts[1..], sep);
      assert Join(parts, sep) == parts[0] + sep + j;
      var l := parts[|parts| - 1];
      assert (parts[0] + sep + j)[|parts[0] + sep + j| - |l|..] == j[|j| - |l|..];
    }
  }

  /** `sep.join(s.split(sep)) == s` */
  lemma {:induction false} JoinSplit(s: string, sep: char)
    ensures Join(Split(s, sep), [sep]) == s
    decreases |s|
  {
    if s != [] {
      JoinSplit(s[1..], sep);
      var rest := Split(s[1..], sep);
      if s[0] == sep {
        assert Split(s, sep) == [""] + rest;
        assert ([""] + rest)[1..] == rest;
      } else {
        JoinFirst([s[0]], rest, [sep]);
        assert s == [s[0]] + s[1..];
      }
    }
  }

  /** Concatenation is associative (stated once, for any element type). */
  lemma AppendAssoc<T>(x: seq<T>, y: seq<T>, z: seq<T>)
    ensures x + (y + z) == (x + y) + z
  {
  }

  /** A non-empty sequence is its front followed by its last element. */
  lemma LastSplit<T>(s: seq<T>)
    requires s != []
    ensures s == s[..|s| - 1] + [s[|s| - 1]]
  {
  }

  /** A part in front of others comes first, then the separator. */
  lemma JoinCons(x: string, rest: seq<string>, sep: string)
    requires rest != []
    ensures Join([x] + rest, sep) == x + sep + Join(rest, sep)
  {
    assert ([x] + rest)[1..] == rest;
  }

  /** Joining two non-empty lists: each joined, with one separator between. */
  lemma {:induction false} JoinAppend(a: seq<string>, b: seq<string>, sep: string)
    requires a != [] && b != []
    ensures Join(a + b, sep) == Join(a, sep) + sep + Join(b, sep)
    decreases |a|
  {
    if |a| == 1 {
      JoinCons(a[0], b, sep);
      assert a + b == [a[0]] + b;
    } else {
      JoinAppend(a[1..], b, sep);
      assert (a + b)[1..] == a[1..] + b;
    }
  }

  /** Text glued to the front of the first part comes first in the join. */
  lemma JoinFirst(x: string, parts: seq<string>, sep: string)
    requires parts != []
    ensures Join([x + parts[0]] + parts[1..], sep) == x + Join(parts, sep)
  {
    var t := [x + parts[0]] + parts[1..];
    assert t[1..] == parts[1..];
  }

  /** `s.split(sep)` undoes `sep.join(parts)` when no part holds `sep`. */
  lemma {:induction false} SplitJoin(parts: seq<string>, sep: char)
    requires parts != []
    requires forall i :: 0 <= i < |parts| ==> sep !in parts[i]
    ensures Split(Join(parts, [sep]), sep) == parts
    decreases |parts|
  {
    if |parts| == 1 {
      SplitNoSep(parts[0], sep);
    } else {
      SplitJoin(parts[1..], sep);
      SplitAt(parts[0], Join(parts[1..], [sep]), sep);
      assert parts == [parts[0]] + parts[1..];
    }
  }

  /** Text that neither starts nor ends with whitespace is its own strip. */
  lemma StripNoEdges(s: string)
    requires s == [] || (!IsSpace(s[0]) && !IsSpace(s[|s| - 1]))
    ensures Strip(s) == s
  {
  }

  /** Index of the first occurrence of `c` in `s`, if any. */
  function IndexOf(s: string, c: char): (r: int)
    ensures -1 <= r < |s|
    ensures r == -1 <==> c !in s
    ensures r >= 0 ==> s[r] == c && c !in s[..r]
    decreases |s|
  {
    if s == [] then -1
    else if s[0] == c then 0
    else var k := IndexOf(s[1..], c); if k == -1 then -1 else k + 1
  }

  function DigitChar(d: nat): char
    requires d < 10
  {
    "0123456789"[d]
  }

  /** `str(n)` for a non-negative integer. */
  function NatToString(n: nat): (r: string)
    ensures |r| >= 1
    decreases n
  {
    if n < 10 then [DigitChar(n)] else NatToString(n / 10) + [DigitChar(n % 10)]
  }

  /** ASCII `str.lower()` on one character. */
  function LowerChar(c: char): char {
    if 'A' <= c <= 'Z' then (c as int + 32) as char else c
  }

  function Lower(s: string): (r: string)
    ensures |r| == |s|
    ensures forall i :: 0 <= i < |s| ==> r[i] == LowerChar(s[i])
  {
    seq(|s|, i requires 0 <= i < |s| => LowerChar(s[i]))
  }

  /** `s.replace(c, d)` for single characters. */
  function ReplaceChar(s: string, c: char, d: char): (r: string)
    ensures |r| == |s|
    ensures forall i :: 0 <= i < |s| ==> r[i] == (if s[i] == c then d else s[i])
  {
    seq(|s|, i requires 0 <= i < |s| => if s[i] == c then d else s[i])
  }

  lemma {:induction false} ReplaceAllAbsent(s: string, pat: string, rep: string)
    requires pat != []
    requires !Contains(s, pat)
    ensures ReplaceAll(s, pat, rep) == s
    decreases |s|
  {
    if |s| < |pat| {
    } else {
      assert !(pat <= s);
      ReplaceAllAbsent(s[1..], pat, rep);
    }
  }

  /** `str(n)` for any integer. */
  function IntToString(n: int): (r: string)
    ensures |r| >= 1
  {
    if n < 0 then "-" + NatToString(-n) else NatToString(n)
  }

  predicate IsDigit(c: char) {
    '0' <= c <= '9'
  }

  predicate AllDigits(s: string) {
    forall i :: 0 <= i < |s| ==> IsDigit(s[i])
  }

  function DigitsValue(s: string): nat
    requires AllDigits(s)
    decreases |s|
  {
    if s == [] then 0 else DigitsValue(s[..|s| - 1]) * 10 + (s[|s| - 1] as int - '0' as int)
  }

  /** `int(s)` on a plain decimal numeral; None where the text is not one. */
  function ParseNat(s: string): (r: Option<nat>)
    ensures r.Some? <==> s != [] && AllDigits(s)
  {
    if s != [] && AllDigits(s) then Some(DigitsValue(s)) else None
  }

  lemma {:induction false} NatToStringValue(n: nat)
    ensures AllDigits(NatToString(n))
    ensures DigitsValue(NatToString(n)) == n
    decreases n
  {
    if n >= 10 {
      NatToStringValue(n / 10);
      var s := NatToString(n);
      assert s[..|s| - 1] == NatToString(n / 10);
    }
  }

  /** Printing a count and reading it back gives the count. */
  lemma ParseNatToString(n: nat)
    ensures ParseNat(NatToString(n)) == Some(n)
  {
    NatToStringValue(n);
  }

  /** `s.split(sep)` of text without the separator is the text itself. */
  lemma {:induction false} SplitNoSep(s: string, sep: char)
    requires sep !in s
    ensures Split(s, sep) == [s]
    decreases |s|
  {
    if s != [] {
      SplitNoSep(s[1..], sep);
      assert s == [s[0]] + s[1..];
    }
  }

  /** Splitting at the first separator: the piece before it, then the rest split. */
  lemma {:induction false} SplitAt(a: string, b: string, sep: char)
    requires sep !in a
    ensures Split(a + [sep] + b, sep) == [a] + Split(b, sep)
    decreases |a|
  {
    if a == [] {
      assert a + [sep] + b == [sep] + b;
      assert ([sep] + b)[1..] == b;
    } else {
      SplitAt(a[1..], b, sep);
      assert (a + [sep] + b)[1..] == a[1..] + [sep] + b;
      assert a == [a[0]] + a[1..];
    }
  }

  /** Splitting two texts joined by the separator: the pieces of each, in order. */
  lemma {:induction false} SplitConcat(a: string, b: string, sep: char)
    ensures Split(a + [sep] + b, sep) == Split(a, sep) + Split(b, sep)
    decreases |a|
  {
    if a == [] {
      assert a + [sep] + b == [sep] + b;
      SplitCons(sep, b, sep);
    } else {
      assert a + [sep] + b == [a[0]] + (a[1..] + [sep] + b);
      assert a == [a[0]] + a[1..];
      SplitConcat(a[1..], b, sep);
      SplitCons(a[0], a[1..] + [sep] + b, sep);
      SplitCons(a[0], a[1..], sep);
      if a[0] != sep {
        ConsHeadConcat(a[0], Split(a[1..], sep), Split(b, sep));
      }
    }
  }

  /** Splitting text that starts with one character. */
  lemma SplitCons(c: char, s: string, sep: char)
    ensures Split([c] + s, sep) ==
      if c == sep then [""] + Split(s, sep) else [[c] + Split(s, sep)[0]] + Split(s, sep)[1..]
  {
    assert ([c] + s)[0] == c && ([c] + s)[1..] == s;
  }

  lemma ConsHeadConcat(c: char, pieces: seq<string>, more: seq<string>)
    requires |pieces| >= 1
    ensures [[c] + (pieces + more)[0]] + (pieces + more)[1..] == ([[c] + pieces[0]] + pieces[1..]) + more
  {
    assert (pieces + more)[0] == pieces[0];
    assert (pieces + more)[1..] == pieces[1..] + more;
  }

  /** `s.split(sep, 1)` on text that holds the separator: before and after its first occurrence. */
  function SplitOnce(s: string, sep: char): (r: (string, string))
    requires sep in s
    ensures r.0 + [sep] + r.1 == s
    ensures sep !in r.0
  {
    var i := IndexOf(s, sep);
    assert s == s[..i] + [sep] + s[i + 1..];
    (s[..i], s[i + 1..])
  }

  /** The key of `key=value` is everything before the first `=`. */
  lemma SplitOnceAt(a: string, b: string, sep: char)
    requires sep !in a
    ensures SplitOnce(a + [sep] + b, sep) == (a, b)
  {
    var s := a + [sep] + b;
    IndexOfAt(a, b, sep);
    assert s[..|a|] == a;
    assert s[|a| + 1..] == b;
  }

  lemma IndexOfAt(a: string, b: string, c: char)
    requires c !in a
    ensures IndexOf(a + [c] + b, c) == |a|
  {
    var s := a + [c] + b;
    assert s[|a|] == c;
    assert forall j :: 0 <= j < |a| ==> s[j] == a[j];
    assert forall j :: 0 <= j < |a| ==> s[j] != c;
  }

  /** For a one-character pattern, `replace` works character by character. */
  lemma {:induction false} ReplaceCharConcat(x: string, y: string, c: char, rep: string)
    ensures ReplaceAll(x + y, [c], rep) == ReplaceAll(x, [c], rep) + ReplaceAll(y, [c], rep)
    decreases |x|
  {
    if x != [] {
      ReplaceCharConcat(x[1..], y, c, rep);
      var head := if x[0] == c then rep else [x[0]];
      ReplaceCharStep(x + y, c, rep);
      ReplaceCharStep(x, c, rep);
      assert (x + y)[1..] == x[1..] + y;
      assert (x + y)[0] == x[0];
      calc {
        ReplaceAll(x + y, [c], rep);
        head + ReplaceAll(x[1..] + y, [c], rep);
        head + (ReplaceAll(x[1..], [c], rep) + ReplaceAll(y, [c], rep));
        (head + ReplaceAll(x[1..], [c], rep)) + ReplaceAll(y, [c], rep);
      }
    } else {
      assert x + y == y;
    }
  }

  lemma ReplaceCharStep(x: string, c: char, rep: string)
    requires x != []
    ensures ReplaceAll(x, [c], rep) == (if x[0] == c then rep else [x[0]]) + ReplaceAll(x[1..], [c], rep)
  {
    assert [c] <= x <==> x[0] == c;
  }

  /** Replacing a character by a non-empty text never shortens the text. */
  lemma {:induction false} ReplaceCharLength(x: string, c: char, rep: string)
    requires rep != []
    ensures |ReplaceAll(x, [c], rep)| >= |x|
    decreases |x|
  {
    if x != [] {
      ReplaceCharStep(x, c, rep);
      ReplaceCharLength(x[1..], c, rep);
    }
  }

  /** Replacing in `a c rest` where `a` holds no `c`: `a`, the replacement, then the rest replaced. */
  lemma ReplaceCharFirst(a: string, rest: string, c: char, rep: string)
    requires c !in a
    ensures ReplaceAll(a + [c] + rest, [c], rep) == a + rep + ReplaceAll(rest, [c], rep)
  {
    ReplaceCharConcat(a, [c] + rest, c, rep);
    ReplaceCharAbsent(a, c, rep);
    ReplaceCharStep([c] + rest, c, rep);
    assert ([c] + rest)[1..] == rest;
    assert a + [c] + rest == a + ([c] + rest);
  }

  lemma {:induction false} ReplaceCharAbsent(x: string, c: char, rep: string)
    requires c !in x
    ensures ReplaceAll(x, [c], rep) == x
    decreases |x|
  {
    if x != [] {
      ReplaceCharAbsent(x[1..], c, rep);
      assert x == [x[0]] + x[1..];
    }
  }

  /** No character `a` is immediately followed by `b`. */
  predicate NoPair(s: string, a: char, b: char) {
    forall i :: 0 <= i < |s| - 1 ==> !(s[i] == a && s[i + 1] == b)
  }

  /**
   * Deleting every `pq` from a text with no `pp` leaves no `pp`, no `pq`,
   * and no `pr` that the text did not already lack.
   */
  lemma {:induction false} RemovePairLeaves(s: string, p: char, q: char, r: char)
    requires p != q && NoPair(s, p, p)
    requires r == q || NoPair(s, p, r)
    ensures NoPair(ReplaceAll(s, [p, q], []), p, r)
    decreases |s|
  {
    var t := ReplaceAll(s, [p, q], []);
    if |s| < 2 {
    } else if [p, q] <= s {
      assert t == ReplaceAll(s[2..], [p, q], []);
      RemovePairLeaves(s[2..], p, q, r);
    } else {
      var u := ReplaceAll(s[1..], [p, q], []);
      assert t == [s[0]] + u;
      RemovePairLeaves(s[1..], p, q, r);
      if s[0] == p && u != [] {
        assert s[1] != p && s[1] != q && s[1] != r;
        assert u[0] == s[1];
      }
      forall i | 0 <= i < |t| - 1 ensures !(t[i] == p && t[i + 1] == r) {
        if i > 0 {
          assert t[i] == u[i - 1] && t[i + 1] == u[i];
        }
      }
    }
  }

  /** Replacing an occurring pattern leaves the replacement in the text. */
  lemma {:induction false} ReplaceAllIntroduces(s: string, pat: string, rep: string)
    requires pat != [] && Contains(s, pat)
    ensures Contains(ReplaceAll(s, pat, rep), rep)
    decreases |s|
  {
    var t := ReplaceAll(s, pat, rep);
    if |s| < |pat| {
      assert !(pat <= s);
      ContainsShorter(s[1..], pat);
    } else if pat <= s {
      assert t == rep + ReplaceAll(s[|pat|..], pat, rep);
      assert rep <= t;
    } else {
      ReplaceAllIntroduces(s[1..], pat, rep);
      assert t == [s[0]] + ReplaceAll(s[1..], pat, rep);
      assert t[1..] == ReplaceAll(s[1..], pat, rep);
    }
  }

  /** A match starting `k` characters in is a match. */
  lemma {:induction false} ContainsAt(s: string, p: string, k: nat)
    requires k <= |s| && p <= s[k..]
    ensures Contains(s, p)
    decreases k
  {
    if k > 0 {
      assert s[1..][k - 1..] == s[k..];
      ContainsAt(s[1..], p, k - 1);
    }
  }

  /** A text containing `q` contains every piece of `q`. */
  lemma {:induction false} ContainsPart(s: string, q: string, p: string, k: nat)
    requires k + |p| <= |q| && q[k..k + |p|] == p && Contains(s, q)
    ensures Contains(s, p)
    decreases |s|
  {
    if q <= s {
      assert s[k..][..|p|] == q[k..k + |p|];
      ContainsAt(s, p, k);
    } else {
      ContainsPart(s[1..], q, p, k);
    }
  }

  lemma {:induction false} ContainsShorter(s: string, pat: string)
    requires |s| < |pat|
    ensures !Contains(s, pat)
    decreases |s|
  {
    if s != [] {
      ContainsShorter(s[1..], pat);
    }
  }
}
