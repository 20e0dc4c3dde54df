// `shlex.quote`, used whenever fujin puts user text into a remote shell
// command, and the reading a POSIX shell gives the quoted word.

module Shell {
  import opened Strs
  import opened Wrappers

  /** The characters `shlex.quote` leaves alone: ASCII `\w` and `@%+=:,./-`. */
  predicate SafeChar(c: char) {
    ('a' <= c <= 'z') || ('A' <= c <= 'Z') || ('0' <= c <= '9') || c == '_'
    || c == '@' || c == '%' || c == '+' || c == '=' || c == ':' || c == ',' || c == '.' || c == '/' || c == '-'
  }

  predicate Safe(s: string) {
    forall i :: 0 <= i < |s| ==> SafeChar(s[i])
  }

  /** Inside single quotes a quote is written as `'"'"'`. */
  const QuoteEscape: string := "'\"'\"'"

  function SingleQuoted(s: string): string {
    "'" + ReplaceAll(s, "'", QuoteEscape) + "'"
  }

  /** `shlex.quote(s)` */
  function Quote(s: string): (r: string)
    ensures |r| >= 1
    ensures r == s <==> s != [] && Safe(s)
  {
    if s == [] then "''"
    else if Safe(s) then s
    else
      ReplaceCharLength(s, '\'', QuoteEscape);
      SingleQuoted(s)
  }

  /**
   * The word a POSIX shell reads from `w`: safe characters stand for
   * themselves, `'...'` is literal, and `"..."` is literal when it holds no
   * `$`, backquote or backslash. None for anything else.
   */
  function Unquote(w: string): Option<string>
    decreases |w|
  {
    if w == [] then Some([])
    else if w[0] == '\'' || w[0] == '"' then
      var body := w[1..];
      var j := IndexOf(body, w[0]);
      if j < 0 then None
      else if w[0] == '"' && ('$' in body[..j] || '`' in body[..j] || '\\' in body[..j]) then None
      else match Unquote(body[j + 1..])
        case None => None
        case Some(rest) => Some(body[..j] + rest)
    else if SafeChar(w[0]) then
      match Unquote(w[1..])
      case None => None
      case Some(rest) => Some([w[0]] + rest)
    else None
  }

  lemma {:induction false} UnquoteSafe(s: string)
    requires Safe(s)
    ensures Unquote(s) == Some(s)
    decreases |s|
  {
    if s != [] {
      UnquoteSafe(s[1..]);
      assert s == [s[0]] + s[1..];
    }
  }

  /** `'a'` followed by more of the word: the literal `a`, then whatever follows. */
  lemma UnquoteSingleSegment(a: string, tail: string)
    requires '\'' !in a
    ensures Unquote("'" + a + "'" + tail) ==
      match Unquote(tail) case None => None case Some(rest) => Some(a + rest)
  {
    var w := "'" + a + "'" + tail;
    assert w[1..] == a + ['\''] + tail;
    IndexOfAt(a, tail, '\'');
    assert w[1..][..|a|] == a;
    assert w[1..][|a| + 1..] == tail;
  }

  /** `"'"` followed by more of the word: a quote, then whatever follows. */
  lemma UnquoteDoubleSegment(tail: string)
    ensures Unquote("\"'\"" + tail) ==
      match Unquote(tail) case None => None case Some(rest) => Some("'" + rest)
  {
    var w := "\"'\"" + tail;
    assert w[1..] == "'" + ['"'] + tail;
    IndexOfAt("'", tail, '"');
    assert w[1..][..1] == "'";
    assert w[1..][2..] == tail;
  }

  /** Quoting `a'rest`: `'a'`, then `"'"`, then the quoting of `rest`. */
  lemma SingleQuotedSplit(a: string, rest: string)
    requires '\'' !in a
    ensures SingleQuoted(a + "'" + rest) == "'" + a + "'" + ("\"'\"" + SingleQuoted(rest))
  {
    ReplaceCharFirst(a, rest, '\'', QuoteEscape);
    var e := ReplaceAll(rest, "'", QuoteEscape);
    assert QuoteEscape == "'" + "\"'\"" + "'";
    assert a + "'" + rest == a + ['\''] + rest;
    assert SingleQuoted(a + "'" + rest) == "'" + (a + QuoteEscape + e) + "'";
  }

  /** A single-quoted word reads back as the text that was quoted. */
  lemma {:induction false} UnquoteSingleQuoted(s: string)
    ensures Unquote(SingleQuoted(s)) == Some(s)
    decreases |s|
  {
    var i := IndexOf(s, '\'');
    if i < 0 {
      ReplaceCharAbsent(s, '\'', QuoteEscape);
      UnquoteSingleSegment(s, []);
      assert SingleQuoted(s) == "'" + s + "'" + [];
      assert Unquote([]) == Some([]);
      assert s + [] == s;
    } else {
      var a, rest := s[..i], s[i + 1..];
      assert s == a + "'" + rest;
      UnquoteSingleQuoted(rest);
      SingleQuotedSplit(a, rest);
      UnquoteEscapedQuote(a, SingleQuoted(rest), rest);
    }
  }

  /** `'a'"'"` followed by a word that reads as `rest` reads as `a'rest`. */
  lemma UnquoteEscapedQuote(a: string, q: string, rest: string)
    requires '\'' !in a
    requires Unquote(q) == Some(rest)
    ensures Unquote("'" + a + "'" + ("\"'\"" + q)) == Some(a + "'" + rest)
  {
    UnquoteDoubleSegment(q);
    UnquoteSingleSegment(a, "\"'\"" + q);
    assert a + ("'" + rest) == a + "'" + rest;
  }

  /** A POSIX shell reads `shlex.quote(s)` back as exactly `s`. */
  lemma QuoteRoundTrip(s: string)
    ensures Unquote(Quote(s)) == Some(s)
  {
    if s == [] {
      UnquoteSingleSegment([], []);
      assert Quote(s) == "''";
      assert "''" == "'" + [] + "'" + [];
      assert Unquote([]) == Some([]);
      var empty: string := [];
      assert Unquote("''") == Some(empty + empty);
      assert empty + empty == s;
    } else if Safe(s) {
      UnquoteSafe(s);
    } else {
      UnquoteSingleQuoted(s);
    }
  }
}
