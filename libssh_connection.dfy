// The second ssh2-python transport (libssh_connection.py): environment
// variables passed as a `K="v"` prefix of the command, a `while not eof`
// poll loop that keeps stdout and stderr, and a `CommandResult`.
//
// How bash reads a double-quoted word is modelled too, so that the
// escaping of environment values can be stated as a round trip.

module LibsshConnection {
  import opened Wrappers
  import opened Strs
  import opened Cli
  import opened Dicts
  import Connection

  // ---------------------------------------------------------------------------
  // Reading a double-quoted word.

  /** The characters a backslash escapes inside double quotes. */
  predicate DqEscapable(c: char) {
    c == '$' || c == '`' || c == '"' || c == '\\'
  }

  /**
   * Bash reading the inside of a double-quoted word, after the opening quote:
   * the text up to the closing quote and what follows it, or None when the
   * quote is never closed. A backslash before an escapable character stands
   * for that character, before a newline for nothing, and otherwise for
   * itself. `$` and backquote are kept as written: the expansion they start
   * happens on this text.
   */
  function DqRead(s: string): Option<(string, string)>
    decreases |s|
  {
    if s == [] then None
    else if s[0] == '"' then Some(([], s[1..]))
    else if s[0] == '\\' && |s| >= 2 && (DqEscapable(s[1]) || s[1] == '\n') then
      match DqRead(s[2..])
      case None => None
      case Some(p) => Some(((if s[1] == '\n' then [] else [s[1]]) + p.0, p.1))
    else
      match DqRead(s[1..])
      case None => None
      case Some(p) => Some(([s[0]] + p.0, p.1))
  }

  /** `v.replace('"', '\\"')`, as the environment prefix escapes values. */
  function EscapeQuotesAsWritten(v: string): string {
    ReplaceAll(v, "\"", "\\\"")
  }

  /** A backslash before every double quote and every backslash. */
  function EscapeDq(v: string): (r: string)
    ensures |r| >= |v|
  {
    if v == [] then []
    else (if v[0] == '"' || v[0] == '\\' then ['\\', v[0]] else [v[0]]) + EscapeDq(v[1..])
  }

  /** Escaping a value with no backslash in it is escaping its double quotes only. */
  lemma {:induction false} AsWrittenEscapesQuotes(v: string)
    requires '\\' !in v
    ensures EscapeQuotesAsWritten(v) == EscapeDq(v)
    decreases |v|
  {
    if v != [] {
      assert '\\' !in v[1..] by {
        assert forall i :: 0 <= i < |v[1..]| ==> v[1..][i] == v[i + 1];
      }
      AsWrittenEscapesQuotes(v[1..]);
      if v[0] == '"' {
        assert "\"" <= v;
      } else {
        assert v[0] != '"';
        assert !("\"" <= v);
      }
    }
  }

  /** A value without `$` or backquote, escaped and closed, reads back as itself and the rest. */
  lemma {:induction false} EscapeDqRoundTrip(v: string, rest: string)
    requires '$' !in v && '`' !in v
    ensures DqRead(EscapeDq(v) + "\"" + rest) == Some((v, rest))
    decreases |v|
  {
    if v == [] {
      ReadClosing(rest);
    } else {
      var tail := EscapeDq(v[1..]) + "\"" + rest;
      TailAvoids(v, '$');
      TailAvoids(v, '`');
      EscapeDqRoundTrip(v[1..], rest);
      EscapeDqCons(v, rest);
      if v[0] == '"' || v[0] == '\\' {
        ReadEscaped(v[0], tail);
      } else {
        ReadPlain(v[0], tail);
      }
      assert [v[0]] + v[1..] == v;
    }
  }

  lemma ReadClosing(rest: string)
    ensures DqRead(EscapeDq([]) + "\"" + rest) == Some(([], rest))
  {
    var s := EscapeDq([]) + "\"" + rest;
    assert s == "\"" + rest;
    assert s[1..] == rest;
  }

  lemma TailAvoids(v: string, c: char)
    requires v != [] && c !in v
    ensures c !in v[1..]
  {
    assert forall i :: 0 <= i < |v[1..]| ==> v[1..][i] == v[i + 1];
  }

  lemma EscapeDqCons(v: string, rest: string)
    requires v != []
    ensures EscapeDq(v) + "\"" + rest
         == (if v[0] == '"' || v[0] == '\\' then ['\\', v[0]] else [v[0]]) + (EscapeDq(v[1..]) + "\"" + rest)
  {
    var head := if v[0] == '"' || v[0] == '\\' then ['\\', v[0]] else [v[0]];
    AppendAssoc(head, EscapeDq(v[1..]), "\"");
    AppendAssoc(head, EscapeDq(v[1..]) + "\"", rest);
  }

  /** `\"` and `\\` stand for the character after the backslash. */
  lemma ReadEscaped(c: char, tail: string)
    requires c == '"' || c == '\\'
    ensures DqRead(['\\', c] + tail)
         == if DqRead(tail).Some? then Some(([c] + DqRead(tail).value.0, DqRead(tail).value.1)) else None
  {
    var s := ['\\', c] + tail;
    assert s[0] == '\\' && s[1] == c && s[2..] == tail;
  }

  lemma ReadPlain(c: char, tail: string)
    requires c != '"' && c != '\\'
    ensures DqRead([c] + tail)
         == if DqRead(tail).Some? then Some(([c] + DqRead(tail).value.0, DqRead(tail).value.1)) else None
  {
    var s := [c] + tail;
    assert s[0] == c && s[1..] == tail;
  }

  /** Values without backslashes survive the escaping as written. */
  lemma AsWrittenRoundTrip(v: string, rest: string)
    requires '$' !in v && '`' !in v && '\\' !in v
    ensures DqRead(EscapeQuotesAsWritten(v) + "\"" + rest) == Some((v, rest))
  {
    AsWrittenEscapesQuotes(v);
    EscapeDqRoundTrip(v, rest);
  }

  /**
   * A value ending in a backslash escapes the closing quote: `K="a\"`
   * followed by ` ls` never closes, so the variable swallows the command.
   */
  lemma AsWrittenTrailingBackslash()
    ensures DqRead(EscapeQuotesAsWritten("a\\") + "\"" + " ls") == None
    ensures DqRead(EscapeDq("a\\") + "\"" + " ls") == Some(("a\\", " ls"))
  {
    QuoteFreeKept("a\\");
    EscapedQuoteUnclosed();
    EscapeDqRoundTrip("a\\", " ls");
  }

  /** Text without a double quote is left as it is by the as-written escaping. */
  lemma {:induction false} QuoteFreeKept(v: string)
    requires '"' !in v
    ensures EscapeQuotesAsWritten(v) == v
    decreases |v|
  {
    if v != [] {
      TailAvoids(v, '"');
      QuoteFreeKept(v[1..]);
      assert v[0] != '"';
      assert !("\"" <= v);
      SplitHead(v);
    }
  }

  lemma SplitHead(v: string)
    requires v != []
    ensures v == [v[0]] + v[1..]
  {
  }

  lemma EscapedQuoteUnclosed()
    ensures DqRead("a\\" + "\"" + " ls") == None
  {
    var s := "a\\" + "\"" + " ls";
    assert s == "a\\\" ls";
    assert s[1..] == "\\\" ls";
    assert s[1..][2..] == " ls";
    Unclosed(" ls");
  }

  /** Text with neither a quote nor a backslash never closes the word. */
  lemma {:induction false} Unclosed(s: string)
    requires '"' !in s && '\\' !in s
    ensures DqRead(s) == None
    decreases |s|
  {
    if s != [] {
      TailAvoids(s, '"');
      TailAvoids(s, '\\');
      Unclosed(s[1..]);
    }
  }

  // ---------------------------------------------------------------------------
  // The command line.

  /** The two directories prepended to PATH. */
  function ExtraPaths(user: string): string {
    "/home/" + user + "/.cargo/bin:/home/" + user + "/.local/bin"
  }

  /** The environment after the PATH rewrite: an existing PATH keeps its place, otherwise one is added last. */
  function WithPath(env: Dict<string>, user: string): Dict<string> {
    Put(env, "PATH", NewPath(user, Get(env, "PATH")))
  }

  /** The rewritten PATH: the user's directories before the old value, or before `$PATH` when there was none. */
  function NewPath(user: string, prior: Option<string>): string {
    if prior.Some? then ExtraPaths(user) + ":" + prior.value else ExtraPaths(user) + ":$PATH"
  }

  /** PATH always starts with the user's directories and ends with what it was, or with `$PATH`. */
  lemma WithPathValue(env: Dict<string>, user: string)
    ensures Get(WithPath(env, user), "PATH").Some?
    ensures Get(env, "PATH").Some? ==>
      Get(WithPath(env, user), "PATH").value == ExtraPaths(user) + ":" + Get(env, "PATH").value
    ensures Get(env, "PATH").None? ==>
      Get(WithPath(env, user), "PATH").value == ExtraPaths(user) + ":$PATH"
  {
    PutEffect(env, "PATH", NewPath(user, Get(env, "PATH")), WithPath(env, user));
  }

  /** Every other variable keeps its value, and PATH is added last when it was missing. */
  lemma WithPathKeeps(env: Dict<string>, user: string)
    ensures forall k :: k != "PATH" ==> Get(WithPath(env, user), k) == Get(env, k)
    ensures Keys(WithPath(env, user)) ==
      if "PATH" in Keys(env) then Keys(env) else Keys(env) + ["PATH"]
  {
    PutEffect(env, "PATH", NewPath(user, Get(env, "PATH")), WithPath(env, user));
  }

  /** `K="escaped v"` */
  function EnvPair(k: string, v: string): string {
    k + "=\"" + EscapeDq(v) + "\""
  }

  /** `K="v"` with only the double quotes escaped, as the source builds the pair. */
  function EnvPairAsWritten(k: string, v: string): string {
    k + "=\"" + EscapeQuotesAsWritten(v) + "\""
  }

  /** On a value without a backslash the pair as written is the corrected pair. */
  lemma EnvPairAgrees(k: string, v: string)
    requires '\\' !in v
    ensures EnvPairAsWritten(k, v) == EnvPair(k, v)
  {
    AsWrittenEscapesQuotes(v);
  }

  function EnvPairs(env: Dict<string>): (r: seq<string>)
    ensures |r| == |env|
    ensures forall i :: 0 <= i < |env| ==> r[i] == EnvPair(env[i].0, env[i].1)
  {
    if env == [] then [] else [EnvPair(env[0].0, env[0].1)] + EnvPairs(env[1..])
  }

  /** The pairs space-joined, with a trailing space. */
  function EnvPrefix(env: Dict<string>): string {
    Join(EnvPairs(env), " ") + " "
  }

  /** The full command: the `cd` prefix, then the environment prefix, then the command. */
  function FullCommand(cwd: string, env: Dict<string>, command: string): string {
    Connection.CwdPrefix(cwd) + EnvPrefix(env) + command
  }

  /** After `K="` a shell reads exactly the value back, and is left at the next word. */
  lemma EnvPairReads(k: string, v: string, rest: string)
    requires '$' !in v && '`' !in v
    ensures var pair := EnvPair(k, v) + rest;
      pair[..|k| + 2] == k + "=\"" && DqRead(pair[|k| + 2..]) == Some((v, rest))
  {
    var pair := EnvPair(k, v) + rest;
    assert pair == (k + "=\"") + (EscapeDq(v) + "\"" + rest);
    assert pair[|k| + 2..] == EscapeDq(v) + "\"" + rest;
    EscapeDqRoundTrip(v, rest);
  }

  // ---------------------------------------------------------------------------
  // The poll loop.

  /**
   * One pass of `while not channel.eof()`: what `eof()` answered before it,
   * then the stdout and stderr read (empty when nothing was read).
   */
  datatype Round = Round(eof: bool, out: string, err: string)

  /** The rounds whose body runs: those before the first that saw end of file. */
  function BeforeEof(rounds: seq<Round>): (r: seq<Round>)
    ensures r <= rounds
    ensures forall i :: 0 <= i < |r| ==> !r[i].eof
    ensures |r| < |rounds| ==> rounds[|r|].eof
    decreases |rounds|
  {
    if rounds == [] || rounds[0].eof then []
    else [rounds[0]] + BeforeEof(rounds[1..])
  }

  /** The watcher responses for one stdout chunk. */
  function Responses(host: Connection.HostConfig, text: string): seq<string> {
    if host.password == "" then []
    else
      var prompts := Connection.Prompts(host.user);
      (if Contains(text, prompts[0]) then [host.password + "\n"] else [])
      + (if Contains(text, prompts[1]) then [host.password + "\n"] else [])
  }

  /** Both watchers answer the same chunks: the sudo pre-check of the other transport changes nothing. */
  lemma ResponsesAgree(host: Connection.HostConfig, text: string)
    ensures Responses(host, text) == Connection.Responses(host, text)
  {
    var prompts := Connection.Prompts(host.user);
    if !Contains(text, "sudo") && host.password != "" {
      if Contains(text, prompts[0]) {
        assert prompts[0][1..5] == "sudo";
        ContainsPart(text, prompts[0], "sudo", 1);
      }
      if Contains(text, prompts[1]) {
        assert prompts[1][1..5] == "sudo";
        ContainsPart(text, prompts[1], "sudo", 1);
      }
    }
  }

  /** The stdout chunks, the stderr chunks and what was written back. */
  datatype Buffers = Buffers(stdout: seq<string>, stderr: seq<string>, sent: seq<string>)

  function AfterRound(b: Buffers, round: Round, host: Connection.HostConfig): Buffers {
    var b1 := if round.out != "" then b.(stdout := b.stdout + [round.out], sent := b.sent + Responses(host, round.out)) else b;
    if round.err != "" then b1.(stderr := b1.stderr + [round.err]) else b1
  }

  function Collect(rounds: seq<Round>, host: Connection.HostConfig): Buffers {
    if rounds == [] then Buffers([], [], [])
    else AfterRound(Collect(rounds[..|rounds| - 1], host), rounds[|rounds| - 1], host)
  }

  /** The stdout text of every round, in order. */
  function Outs(rounds: seq<Round>): (r: seq<string>)
    ensures |r| == |rounds| && forall i :: 0 <= i < |rounds| ==> r[i] == rounds[i].out
  {
    seq(|rounds|, i requires 0 <= i < |rounds| => rounds[i].out)
  }

  /** The stdout buffer holds exactly the non-empty stdout reads, in order. */
  lemma {:induction false} CollectStdout(rounds: seq<Round>, host: Connection.HostConfig)
    ensures |Collect(rounds, host).stdout| <= |rounds|
    ensures forall i :: 0 <= i < |Collect(rounds, host).stdout| ==> Collect(rounds, host).stdout[i] != ""
    ensures (forall i :: 0 <= i < |rounds| ==> rounds[i].out != "") ==> Collect(rounds, host).stdout == Outs(rounds)
    decreases |rounds|
  {
    if rounds != [] {
      var n := |rounds| - 1;
      var init, last := rounds[..n], rounds[n];
      CollectStdout(init, host);
      var prev := Collect(init, host).stdout;
      var next := Collect(rounds, host).stdout;
      assert next == prev + (if last.out != "" then [last.out] else []);
      if forall i :: 0 <= i < |rounds| ==> rounds[i].out != "" {
        assert forall i :: 0 <= i < n ==> init[i].out != "";
        OutsSnoc(rounds);
      }
    }
  }

  lemma OutsSnoc(rounds: seq<Round>)
    requires rounds != []
    ensures Outs(rounds) == Outs(rounds[..|rounds| - 1]) + [rounds[|rounds| - 1].out]
  {
  }

  datatype CommandResult = CommandResult(stdout: string, stderr: string, returnCode: int, ok: bool)

  /** The result once the loop has ended: a non-zero status raises unless `warn`. */
  function Finish(b: Buffers, status: int, warn: bool): Result<CommandResult, Exit> {
    if status != 0 && !warn then Err(Exit(Connection.FailedMessage(status), status))
    else Ok(CommandResult(Join(b.stdout, ""), Join(b.stderr, ""), status, status == 0))
  }

  /** The exit policy is the other transport's, and the result keeps the status and both streams. */
  lemma FinishPolicy(b: Buffers, status: int, warn: bool)
    ensures Finish(b, status, warn).Err? <==> Connection.Completed(Join(b.stdout, ""), status, warn).Err?
    ensures Finish(b, status, warn).Err? ==> Finish(b, status, warn).error == Connection.Completed(Join(b.stdout, ""), status, warn).error
    ensures Finish(b, status, warn).Ok? ==>
      var r := Finish(b, status, warn).value;
      (r.stdout, r.ok) == Connection.Completed(Join(b.stdout, ""), status, warn).value
      && r.returnCode == status && r.stderr == Join(b.stderr, "")
  {
  }

  // ---------------------------------------------------------------------------
  // Opening a connection.

  /** `host_connection(host)`: every failure is a plain exception, and there is no final authenticated check. */
  function Open(host: Connection.HostConfig, connects: bool, handshakes: bool, authRaises: bool)
    : Result<Connection.Auth, string>
  {
    if !connects then Err("Failed to connect to " + Connection.IpText(host.ip) + ":" + NatToString(host.sshPort))
    else if !handshakes then Err("SSH Handshake failed")
    else if authRaises then Err("Authentication failed for " + host.user)
    else Ok(Connection.AuthMethod(host))
  }

  /** The same steps, messages and method as the other transport, minus its authenticated check. */
  lemma OpenMatches(host: Connection.HostConfig, connects: bool, handshakes: bool, authRaises: bool)
    ensures Open(host, connects, handshakes, authRaises).Ok? ==>
      Open(host, connects, handshakes, authRaises).value == Connection.Open(host, connects, handshakes, authRaises, true).value
    ensures Open(host, connects, handshakes, authRaises).Err? <==>
      Connection.Open(host, connects, handshakes, authRaises, true).Err?
    ensures !connects || !handshakes ==>
      Connection.Open(host, connects, handshakes, authRaises, true).error
        == Connection.Failure(Open(host, connects, handshakes, authRaises).error)
    ensures connects && handshakes && authRaises ==>
      Connection.Open(host, connects, handshakes, authRaises, true).error.exit.message
        == Open(host, connects, handshakes, authRaises).error
  {
  }

  // ---------------------------------------------------------------------------
  // The objects.

  /** A caller's `env` dictionary, which `run` may rewrite in place. */
  class EnvDict {
    var items: Dict<string>

    constructor(items: Dict<string>)
      ensures this.items == items
    {
      this.items := items;
    }
  }

  class LibsshConnection {
    const host: Connection.HostConfig
    var cwd: string

    constructor(host: Connection.HostConfig)
      ensures this.host == host && cwd == ""
    {
      this.host := host;
      cwd := "";
    }

    /** Entering `cd(path)`: returns the directory to restore. */
    method Cd(path: string) returns (previous: string)
      modifies this
      ensures previous == old(cwd) && cwd == Connection.CdTarget(old(cwd), path)
    {
      previous := cwd;
      if StartsWith(path, "/") {
        cwd := path;
      } else if cwd != "" {
        cwd := cwd + "/" + path;
      } else {
        cwd := path;
      }
    }

    /** Leaving `cd(path)`. */
    method Restore(previous: string)
      modifies this
      ensures cwd == previous
    {
      cwd := previous;
    }

    /**
     * `run(command, env, warn)`. `env or {}` keeps the caller's dictionary
     * when it has entries, so that one gets the PATH rewrite; an empty or
     * missing one is replaced by a fresh dictionary and left as it was.
     */
    method Run(command: string, env: EnvDict?, warn: bool, rounds: seq<Round>, status: int)
      returns (executed: string, r: Result<CommandResult, Exit>, sent: seq<string>)
      modifies env
      ensures var used := if env != null then old(env.items) else [];
        executed == FullCommand(cwd, WithPath(used, host.user), command)
      ensures env != null && old(env.items) != [] ==> env.items == WithPath(old(env.items), host.user)
      ensures env != null && old(env.items) == [] ==> env.items == []
      ensures r == Finish(Collect(BeforeEof(rounds), host), status, warn)
      ensures sent == Collect(BeforeEof(rounds), host).sent
    {
      var items: Dict<string> := [];
      if env != null && env.items != [] {
        items := WithPath(env.items, host.user);
        env.items := items;
      } else {
        items := WithPath([], host.user);
      }
      var pairs := EnvPairs(items);
      var envPrefix := Join(pairs, " ") + " ";
      var cwdPrefix := "";
      if cwd != "" {
        cwdPrefix := "cd " + cwd + " && ";
      }
      executed := cwdPrefix + envPrefix + command;
      var b := Poll(rounds);
      sent := b.sent;
      if status != 0 && !warn {
        r := Err(Exit(Connection.FailedMessage(status), status));
        return;
      }
      r := Ok(CommandResult(Join(b.stdout, ""), Join(b.stderr, ""), status, status == 0));
    }

    /** The loop: `eof()` is asked first, then stdout and stderr are read. */
    method Poll(rounds: seq<Round>) returns (b: Buffers)
      ensures b == Collect(BeforeEof(rounds), host)
    {
      b := Buffers([], [], []);
      var i := 0;
      while i < |rounds| && !rounds[i].eof
        invariant 0 <= i <= |rounds|
        invariant i <= |BeforeEof(rounds)|
        invariant b == Collect(rounds[..i], host)
      {
        var round := rounds[i];
        if round.out != "" {
          b := b.(stdout := b.stdout + [round.out]);
          b := b.(sent := b.sent + Responses(host, round.out));
        }
        if round.err != "" {
          b := b.(stderr := b.stderr + [round.err]);
        }
        assert rounds[..i + 1][..i] == rounds[..i];
        BeforeEofStep(rounds, i);
        i := i + 1;
      }
      BeforeEofEnd(rounds, i);
    }

    /** `put(local, remote)`: `os.stat` fails on a missing file; otherwise the scp call is made. */
    method Put(local: string, stat: Connection.LocalPath, remote: string)
      returns (r: Result<Connection.Scp, string>)
      ensures stat.Missing? <==> r.Err?
      ensures stat.File? ==> r == Ok(Connection.Scp(Connection.CdTarget(cwd, remote), Connection.PermissionBits(stat.mode), stat.size))
      ensures stat.NotAFile? ==> r == Ok(Connection.Scp(Connection.CdTarget(cwd, remote), 0, 0))
    {
      if stat.Missing? {
        return Err("No such file or directory: " + local);
      }
      var target := remote;
      if !StartsWith(remote, "/") && cwd != "" {
        target := cwd + "/" + remote;
      }
      Connection.RemotePathIsCd(cwd, remote);
      if stat.File? {
        r := Ok(Connection.Scp(target, Connection.PermissionBits(stat.mode), stat.size));
      } else {
        r := Ok(Connection.Scp(target, 0, 0));
      }
    }
  }

  lemma BeforeEofStep(rounds: seq<Round>, i: nat)
    requires i < |rounds| && !rounds[i].eof && i <= |BeforeEof(rounds)|
    ensures i + 1 <= |BeforeEof(rounds)|
  {
  }

  lemma BeforeEofEnd(rounds: seq<Round>, i: nat)
    requires i <= |rounds| && (i == |rounds| || rounds[i].eof) && i <= |BeforeEof(rounds)|
    ensures rounds[..i] == BeforeEof(rounds)
  {
    if i < |BeforeEof(rounds)| {
      assert false;
    }
  }
}
