// Tolerant placeholder substitution (`safe_format`): every match of the
// pattern `\{+([a-zA-Z0-9_]+)\}+` is replaced by the bound value of its
// identifier, or left verbatim when the identifier is not bound.

module Formatting {
  import opened Wrappers

  /** The character classes the pattern is built from. */
  datatype Class = OpenBrace | IdentChar | CloseBrace

  /** The character class `[a-zA-Z0-9_]` (ASCII only). */
  predicate IsIdentChar(c: char) {
    ('a' <= c <= 'z') || ('A' <= c <= 'Z') || ('0' <= c <= '9') || c == '_'
  }

  predicate In(k: Class, c: char) {
    match k
    case OpenBrace => c == '{'
    case IdentChar => IsIdentChar(c)
    case CloseBrace => c == '}'
  }

  /** A character that can take no part in a placeholder. */
  predicate IsSeparator(c: char) {
    c != '{' && c != '}' && !IsIdentChar(c)
  }

  predicate IsIdent(k: string) {
    k != [] && forall i :: 0 <= i < |k| ==> IsIdentChar(k[i])
  }

  /** Length of the maximal prefix of `s` whose characters belong to class `k`. */
  function Run(s: string, k: Class): (n: nat)
    ensures n <= |s|
    decreases |s|
  {
    if s != [] && In(k, s[0]) then 1 + Run(s[1..], k) else 0
  }

  lemma {:induction false} RunMembers(s: string, k: Class)
    ensures forall i :: 0 <= i < Run(s, k) ==> In(k, s[i])
    decreases |s|
  {
    if s != [] && In(k, s[0]) {
      RunMembers(s[1..], k);
    }
  }

  lemma {:induction false} RunOfMembers(s: string, k: Class, n: nat)
    requires n <= |s| && forall i :: 0 <= i < n ==> In(k, s[i])
    requires n < |s| ==> !In(k, s[n])
    ensures Run(s, k) == n
    decreases n
  {
    if n > 0 {
      RunOfMembers(s[1..], k, n - 1);
    }
  }

  /** A match of the pattern at the start of the text: the identifier and the length consumed. */
  datatype Placeholder = Placeholder(key: string, len: nat)

  /**
   * What the regular expression matches at the start of `s`. Greedy matching
   * with backtracking reduces to: the maximal run of `{`, then the maximal
   * identifier (at least one character), then the maximal run of `}` (at least one).
   */
  function MatchAt(s: string): Option<Placeholder> {
    var b := Run(s, OpenBrace);
    var k := Run(s[b..], IdentChar);
    var c := Run(s[b + k..], CloseBrace);
    if b == 0 || k == 0 || c == 0 then None
    else Some(Placeholder(s[b..b + k], b + k + c))
  }

  /** `safe_format(template, **kwargs)`; values are given in their `str()` form. */
  function SafeFormat(s: string, ctx: map<string, string>): string
    decreases |s|
  {
    if s == [] then ""
    else match MatchAt(s)
      case Some(m) =>
        (if m.key in ctx then ctx[m.key] else s[..m.len]) + SafeFormat(s[m.len..], ctx)
      case None => [s[0]] + SafeFormat(s[1..], ctx)
  }

  lemma MatchShape(s: string)
    requires MatchAt(s).Some?
    ensures var m := MatchAt(s).value;
      |m.key| + 2 <= m.len <= |s| && IsIdent(m.key) && s[0] == '{'
  {
    var b := Run(s, OpenBrace);
    var k := Run(s[b..], IdentChar);
    RunMembers(s, OpenBrace);
    RunMembers(s[b..], IdentChar);
    assert forall i :: 0 <= i < k ==> s[b..b + k][i] == s[b..][i];
  }

  function Opens(n: nat): (r: string)
    ensures |r| == n && forall i :: 0 <= i < n ==> r[i] == '{'
  {
    seq(n, i => '{')
  }

  function Closes(n: nat): (r: string)
    ensures |r| == n && forall i :: 0 <= i < n ==> r[i] == '}'
  {
    seq(n, i => '}')
  }

  // ---------------------------------------------------------------------------
  // Runs and matches are not affected by what follows a blocking character.

  lemma {:induction false} RunConcat(a: string, b: string, k: Class)
    requires a != [] && !In(k, a[|a| - 1])
    ensures Run(a + b, k) == Run(a, k) < |a|
    decreases |a|
  {
    if In(k, a[0]) {
      assert (a + b)[1..] == a[1..] + b;
      RunConcat(a[1..], b, k);
    }
  }

  lemma MatchConcat(a: string, b: string)
    requires a != [] && IsSeparator(a[|a| - 1])
    ensures MatchAt(a + b) == MatchAt(a)
    ensures MatchAt(a).Some? ==> MatchAt(a).value.len < |a|
  {
    var s := a + b;
    RunConcat(a, b, OpenBrace);
    var n := Run(a, OpenBrace);
    StageConcat(a, b, n, IdentChar);
    var k := Run(a[n..], IdentChar);
    StageConcat(a, b, n + k, CloseBrace);
    var c := Run(a[n + k..], CloseBrace);
    assert n + k + c < |a|;
    SliceOfConcat(a, b, n, n + k);
    MatchOfRuns(a, n, k, c);
    MatchOfRuns(s, n, k, c);
  }

  lemma SliceOfConcat(a: string, b: string, i: nat, j: nat)
    requires i <= j <= |a|
    ensures (a + b)[i..j] == a[i..j]
  {
  }

  lemma SuffixOfConcat(a: string, b: string, i: nat)
    requires i <= |a|
    ensures (a + b)[i..] == a[i..] + b
  {
  }

  /** `MatchAt` in terms of the three runs it measures. */
  lemma MatchOfRuns(s: string, n: nat, k: nat, c: nat)
    requires n == Run(s, OpenBrace) && k == Run(s[n..], IdentChar) && c == Run(s[n + k..], CloseBrace)
    ensures MatchAt(s) == if n == 0 || k == 0 || c == 0 then None else Some(Placeholder(s[n..n + k], n + k + c))
  {
  }

  /** One stage of the match, started at offset `j` of text that ends in a separator. */
  lemma StageConcat(a: string, b: string, j: nat, k: Class)
    requires j < |a| && IsSeparator(a[|a| - 1])
    ensures (a + b)[j..] == a[j..] + b
    ensures Run((a + b)[j..], k) == Run(a[j..], k) < |a| - j
  {
    var t := a[j..];
    SuffixOfConcat(a, b, j);
    assert t[|t| - 1] == a[|a| - 1];
    RunConcat(t, b, k);
  }

  /** The text a match is replaced by. */
  function Replacement(s: string, m: Placeholder, ctx: map<string, string>): string
    requires m.len <= |s|
  {
    if m.key in ctx then ctx[m.key] else s[..m.len]
  }

  lemma UnfoldMatch(s: string, ctx: map<string, string>)
    requires MatchAt(s).Some?
    ensures MatchAt(s).value.len <= |s|
    ensures SafeFormat(s, ctx)
         == Replacement(s, MatchAt(s).value, ctx) + SafeFormat(s[MatchAt(s).value.len..], ctx)
  {
    MatchShape(s);
  }

  lemma UnfoldNoMatch(s: string, ctx: map<string, string>)
    requires s != [] && MatchAt(s).None?
    ensures SafeFormat(s, ctx) == [s[0]] + SafeFormat(s[1..], ctx)
  {
  }

  lemma ShiftAfterMatch(a: string, b: string, ctx: map<string, string>)
    requires a != [] && IsSeparator(a[|a| - 1]) && MatchAt(a).Some?
    ensures MatchAt(a).value.len < |a|
    ensures SafeFormat(a + b, ctx)
         == Replacement(a, MatchAt(a).value, ctx) + SafeFormat(a[MatchAt(a).value.len..] + b, ctx)
  {
    var m := MatchAt(a).value;
    MatchConcat(a, b);
    UnfoldMatch(a + b, ctx);
    SliceOfConcat(a, b, 0, m.len);
    assert (a + b)[..m.len] == (a + b)[0..m.len] && a[..m.len] == a[0..m.len];
    SuffixOfConcat(a, b, m.len);
  }

  lemma ShiftAfterChar(a: string, b: string, ctx: map<string, string>)
    requires |a| >= 2 && IsSeparator(a[|a| - 1]) && MatchAt(a).None?
    ensures SafeFormat(a + b, ctx) == [a[0]] + SafeFormat(a[1..] + b, ctx)
  {
    var s := a + b;
    assert MatchAt(s).None? by { MatchConcat(a, b); }
    SuffixOfConcat(a, b, 1);
    UnfoldNoMatch(s, ctx);
  }

  lemma ShiftSeparator(a: string, b: string, ctx: map<string, string>)
    requires |a| == 1 && IsSeparator(a[0])
    ensures SafeFormat(a + b, ctx) == SafeFormat(a, ctx) + SafeFormat(b, ctx)
  {
    var s := a + b;
    assert MatchAt(s).None? && MatchAt(a).None? by {
      assert s[0] == a[0];
      assert Run(s, OpenBrace) == 0 && Run(a, OpenBrace) == 0;
    }
    assert SafeFormat(a, ctx) == [a[0]] by {
      UnfoldNoMatch(a, ctx);
      assert a[1..] == [];
    }
    assert s[1..] == b;
    UnfoldNoMatch(s, ctx);
  }

  lemma Assoc(x: string, y: string, z: string)
    ensures x + (y + z) == (x + y) + z
  {
  }

  /** Text up to a separator character is formatted independently of what follows. */
  lemma {:induction false} SafeFormatConcat(a: string, b: string, ctx: map<string, string>)
    requires a != [] && IsSeparator(a[|a| - 1])
    ensures SafeFormat(a + b, ctx) == SafeFormat(a, ctx) + SafeFormat(b, ctx)
    decreases |a|, 1
  {
    if MatchAt(a).Some? {
      ConcatFromMatch(a, b, ctx);
    } else {
      ConcatFromChar(a, b, ctx);
    }
  }

  lemma {:induction false} ConcatFromMatch(a: string, b: string, ctx: map<string, string>)
    requires a != [] && IsSeparator(a[|a| - 1]) && MatchAt(a).Some?
    ensures SafeFormat(a + b, ctx) == SafeFormat(a, ctx) + SafeFormat(b, ctx)
    decreases |a|, 0
  {
    var m := MatchAt(a).value;
    ShiftAfterMatch(a, b, ctx);
    SafeFormatConcat(a[m.len..], b, ctx);
    UnfoldMatch(a, ctx);
    Assoc(Replacement(a, m, ctx), SafeFormat(a[m.len..], ctx), SafeFormat(b, ctx));
  }

  lemma {:induction false} ConcatFromChar(a: string, b: string, ctx: map<string, string>)
    requires a != [] && IsSeparator(a[|a| - 1]) && MatchAt(a).None?
    ensures SafeFormat(a + b, ctx) == SafeFormat(a, ctx) + SafeFormat(b, ctx)
    decreases |a|, 0
  {
    if |a| == 1 {
      ShiftSeparator(a, b, ctx);
    } else {
      ShiftAfterChar(a, b, ctx);
      SafeFormatConcat(a[1..], b, ctx);
      UnfoldNoMatch(a, ctx);
      Assoc([a[0]], SafeFormat(a[1..], ctx), SafeFormat(b, ctx));
    }
  }

  /**
   * A brace group `{...{key}...}` with a bound key is consumed entirely and
   * becomes the value; with an unbound key it is copied verbatim. Whatever
   * follows a separator character is formatted on its own.
   */
  lemma PlaceholderThen(n: nat, k: string, m: nat, rest: string, ctx: map<string, string>)
    requires n >= 1 && m >= 1 && IsIdent(k)
    requires rest == [] || IsSeparator(rest[0])
    ensures SafeFormat(Opens(n) + k + Closes(m) + rest, ctx)
         == (if k in ctx then ctx[k] else Opens(n) + k + Closes(m)) + SafeFormat(rest, ctx)
  {
    var s := Opens(n) + k + Closes(m) + rest;
    GroupMatch(n, k, m, rest);
    GroupSlices(Opens(n), k, Closes(m), rest);
    UnfoldMatch(s, ctx);
  }

  lemma GroupMatch(n: nat, k: string, m: nat, rest: string)
    requires n >= 1 && m >= 1 && IsIdent(k)
    requires rest == [] || IsSeparator(rest[0])
    ensures MatchAt(Opens(n) + k + Closes(m) + rest) == Some(Placeholder(k, n + |k| + m))
  {
    var s := Opens(n) + k + Closes(m) + rest;
    var t1 := k + Closes(m) + rest;
    var t2 := Closes(m) + rest;
    GroupSlices(Opens(n), k, Closes(m), rest);
    assert Run(s, OpenBrace) == n by { RunOfMembers(s, OpenBrace, n); }
    assert Run(t1, IdentChar) == |k| by { RunOfMembers(t1, IdentChar, |k|); }
    assert t1[|k|..] == t2;
    assert Run(t2, CloseBrace) == m by { RunOfMembers(t2, CloseBrace, m); }
  }

  lemma GroupSlices(o: string, k: string, c: string, rest: string)
    ensures var s := o + k + c + rest;
      s[..|o|] == o && s[|o|..] == k + c + rest && s[|o|..|o| + |k|] == k
      && s[|o| + |k|..] == c + rest
      && s[..|o| + |k| + |c|] == o + k + c && s[|o| + |k| + |c|..] == rest
  {
  }

  /** Formatting is single-pass: a substituted value is never expanded again. */
  lemma SinglePass(k: string, ctx: map<string, string>)
    requires IsIdent(k) && k in ctx
    ensures SafeFormat("{" + k + "}", ctx) == ctx[k]
  {
    PlaceholderThen(1, k, 1, "", ctx);
    assert Opens(1) + k + Closes(1) + "" == "{" + k + "}";
  }

  /** `{{key}}` with a bound key becomes the bare value. */
  lemma DoubleBraces(k: string, ctx: map<string, string>)
    requires IsIdent(k) && k in ctx
    ensures SafeFormat("{{" + k + "}}", ctx) == ctx[k]
  {
    PlaceholderThen(2, k, 2, "", ctx);
    assert Opens(2) + k + Closes(2) + "" == "{{" + k + "}}";
  }

  /** A brace group whose identifier is not bound is copied verbatim, braces included. */
  lemma UnboundVerbatim(n: nat, k: string, m: nat, ctx: map<string, string>)
    requires n >= 1 && m >= 1 && IsIdent(k) && k !in ctx
    ensures SafeFormat(Opens(n) + k + Closes(m), ctx) == Opens(n) + k + Closes(m)
  {
    PlaceholderThen(n, k, m, "", ctx);
    assert Opens(n) + k + Closes(m) + "" == Opens(n) + k + Closes(m);
  }

  /** A placeholder embedded in running text, between separator characters. */
  lemma PlaceholderInText(pre: string, k: string, post: string, ctx: map<string, string>)
    requires pre == [] || IsSeparator(pre[|pre| - 1])
    requires post == [] || IsSeparator(post[0])
    requires IsIdent(k)
    ensures SafeFormat(pre + "{" + k + "}" + post, ctx)
         == SafeFormat(pre, ctx) + (if k in ctx then ctx[k] else "{" + k + "}") + SafeFormat(post, ctx)
  {
    var rep := if k in ctx then ctx[k] else "{" + k + "}";
    LeadingPlaceholder(k, post, ctx);
    InTextForm(pre, k, post);
    if pre != [] {
      SafeFormatConcat(pre, "{" + k + "}" + post, ctx);
      Assoc(SafeFormat(pre, ctx), rep, SafeFormat(post, ctx));
    }
  }

  lemma LeadingPlaceholder(k: string, post: string, ctx: map<string, string>)
    requires post == [] || IsSeparator(post[0])
    requires IsIdent(k)
    ensures SafeFormat("{" + k + "}" + post, ctx)
         == (if k in ctx then ctx[k] else "{" + k + "}") + SafeFormat(post, ctx)
  {
    PlaceholderThen(1, k, 1, post, ctx);
    BracedForm(k, post);
  }

  lemma InTextForm(pre: string, k: string, post: string)
    ensures pre + "{" + k + "}" + post == pre + ("{" + k + "}" + post)
    ensures pre == [] ==> pre + "{" + k + "}" + post == "{" + k + "}" + post
  {
  }

  lemma BracedForm(k: string, post: string)
    ensures Opens(1) + k + Closes(1) + post == "{" + k + "}" + post
    ensures Opens(1) + k + Closes(1) == "{" + k + "}"
  {
  }

  /** Without a `{` there is nothing to substitute. */
  lemma {:induction false} NoOpenBraceIdentity(s: string, ctx: map<string, string>)
    requires '{' !in s
    ensures SafeFormat(s, ctx) == s
    decreases |s|
  {
    if s != [] {
      assert MatchAt(s) == None;
      UnfoldNoMatch(s, ctx);
      NoOpenBraceIdentity(s[1..], ctx);
      SplitAt(s, 1);
    }
  }

  /** With no keyword arguments, every placeholder is copied verbatim. */
  lemma {:induction false} EmptyContextIdentity(s: string)
    ensures SafeFormat(s, map[]) == s
    decreases |s|
  {
    if s != [] {
      if MatchAt(s).Some? {
        var len := MatchKeptVerbatim(s);
        EmptyContextIdentity(s[len..]);
        SplitAt(s, len);
      } else {
        UnfoldNoMatch(s, map[]);
        EmptyContextIdentity(s[1..]);
        SplitAt(s, 1);
      }
    }
  }

  /** With no keyword arguments, a match is copied as it stands. */
  lemma MatchKeptVerbatim(s: string) returns (len: nat)
    requires MatchAt(s).Some?
    ensures len == MatchAt(s).value.len <= |s|
    ensures SafeFormat(s, map[]) == s[..len] + SafeFormat(s[len..], map[])
  {
    len := MatchAt(s).value.len;
    UnfoldMatch(s, map[]);
  }

  lemma SplitAt(s: string, i: nat)
    requires i <= |s|
    ensures s == s[..i] + s[i..]
  {
  }

  /**
   * A `{` followed by a character that is neither `{` nor an identifier
   * character (a Caddy block such as `example.com {\n`) never starts a match.
   */
  lemma BlockBraceUntouched(rest: string, ctx: map<string, string>)
    requires rest != [] && rest[0] != '{' && !IsIdentChar(rest[0])
    ensures SafeFormat("{" + rest, ctx) == "{" + SafeFormat(rest, ctx)
  {
    var s := "{" + rest;
    RunOfMembers(s, OpenBrace, 1);
    assert s[1..] == rest;
    RunOfMembers(rest, IdentChar, 0);
    assert MatchAt(s) == None;
  }

  // ---------------------------------------------------------------------------
  // The names left unresolved.

  /**
   * The identifiers of the matches no keyword argument binds, in text order:
   * the second value `deploy` unpacks from every `safe_format` call.
   */
  function Unresolved(s: string, ctx: map<string, string>): (r: seq<string>)
    ensures forall k :: k in r ==> k !in ctx
    decreases |s|
  {
    if s == [] then []
    else match MatchAt(s)
      case Some(m) => (if m.key in ctx then [] else [m.key]) + Unresolved(s[m.len..], ctx)
      case None => Unresolved(s[1..], ctx)
  }

  /** `{k}` occurs in `t` at offset `i`. */
  predicate BracedIn(t: string, i: nat, k: string) {
    i + |k| + 2 <= |t| && t[i..i + |k| + 2] == "{" + k + "}"
  }

  /**
   * Every name reported unresolved is left in the output as `{name}`, at the
   * returned position, as the deployment's warning tells the user.
   */
  lemma {:induction false} UnresolvedLeftVerbatim(s: string, ctx: map<string, string>, k: string) returns (i: nat)
    requires k in Unresolved(s, ctx)
    ensures BracedIn(SafeFormat(s, ctx), i, k)
    decreases |s|, 1
  {
    var m := MatchAt(s);
    if m.Some? && m.value.key !in ctx && k == m.value.key {
      i := VerbatimAtMatch(s, ctx, k);
    } else if m.Some? {
      i := VerbatimPastMatch(s, ctx, k);
    } else {
      i := VerbatimAfterChar(s, ctx, k);
    }
  }

  lemma {:induction false} VerbatimPastMatch(s: string, ctx: map<string, string>, k: string) returns (i: nat)
    requires MatchAt(s).Some? && k in Unresolved(s, ctx)
    requires MatchAt(s).value.key in ctx || k != MatchAt(s).value.key
    ensures BracedIn(SafeFormat(s, ctx), i, k)
    decreases |s|, 0
  {
    var m := MatchAt(s).value;
    UnfoldMatch(s, ctx);
    assert k in Unresolved(s[m.len..], ctx);
    var j := UnresolvedLeftVerbatim(s[m.len..], ctx, k);
    i := BracedBehind(Replacement(s, m, ctx), SafeFormat(s[m.len..], ctx), j, k);
  }

  /** An unbound match at the head is copied, braces included. */
  lemma VerbatimAtMatch(s: string, ctx: map<string, string>, k: string) returns (i: nat)
    requires MatchAt(s).Some? && MatchAt(s).value.key == k && k !in ctx
    ensures BracedIn(SafeFormat(s, ctx), i, k)
  {
    var m := MatchAt(s).value;
    UnfoldMatch(s, ctx);
    i := BracedAt(s);
    BracedInFront(s[..m.len], SafeFormat(s[m.len..], ctx), i, m.key);
  }

  lemma {:induction false} VerbatimAfterChar(s: string, ctx: map<string, string>, k: string) returns (i: nat)
    requires s != [] && MatchAt(s).None? && k in Unresolved(s, ctx)
    ensures BracedIn(SafeFormat(s, ctx), i, k)
    decreases |s|, 0
  {
    assert Unresolved(s, ctx) == Unresolved(s[1..], ctx);
    var j := UnresolvedLeftVerbatim(s[1..], ctx, k);
    UnfoldNoMatch(s, ctx);
    i := BracedBehind([s[0]], SafeFormat(s[1..], ctx), j, k);
  }

  lemma BracedInFront(a: string, b: string, i: nat, k: string)
    requires i + |k| + 2 <= |a| && a[i..i + |k| + 2] == "{" + k + "}"
    ensures i + |k| + 2 <= |a + b| && (a + b)[i..i + |k| + 2] == "{" + k + "}"
  {
    assert (a + b)[i..i + |k| + 2] == a[i..i + |k| + 2];
  }

  lemma BracedBehind(a: string, b: string, j: nat, k: string) returns (i: nat)
    requires j + |k| + 2 <= |b| && b[j..j + |k| + 2] == "{" + k + "}"
    ensures i == |a| + j
    ensures i + |k| + 2 <= |a + b| && (a + b)[i..i + |k| + 2] == "{" + k + "}"
  {
    i := |a| + j;
    assert (a + b)[i..i + |k| + 2] == b[j..j + |k| + 2];
  }

  /** A match holds its identifier between a `{` and a `}`, starting at the returned offset. */
  lemma BracedAt(s: string) returns (i: nat)
    requires MatchAt(s).Some?
    ensures var m := MatchAt(s).value;
      i + |m.key| + 2 <= m.len <= |s| && s[i..i + |m.key| + 2] == "{" + m.key + "}"
  {
    var b := Run(s, OpenBrace);
    var k := Run(s[b..], IdentChar);
    RunMembers(s, OpenBrace);
    RunMembers(s[b + k..], CloseBrace);
    assert s[b + k..][0] == '}';
    i := b - 1;
    var key := s[b..b + k];
    assert s[i..i + k + 2] == [s[i]] + key + [s[b + k]];
  }
}
