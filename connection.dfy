// The ssh2-python transport (`SSH2Connection` in connection.py): the working
// directory kept by `cd`, the command line actually executed, the
// non-blocking poll loop that collects a command's output, the exit-status
// policy, uploads and the choice of authentication method.
//
// Sockets, the SSH handshake and libssh2 itself are not modelled: what the
// channel returns is an input, given as the sequence of poll rounds the loop
// goes through.

module Connection {
  import opened Wrappers
  import opened Strs
  import opened Cli

  /**
   * The host settings a connection reads. Python's truthiness is spelled out:
   * an empty `password` is no password.
   */
  datatype HostConfig = HostConfig(
    user: string,
    password: string,
    keyFilename: Option<string>,
    ip: Option<string>,
    domainName: string,
    sshPort: nat)

  // ---------------------------------------------------------------------------
  // Working directory.

  /** The working directory after `cd(path)`: absolute paths replace it, relative ones extend it. */
  function CdTarget(cwd: string, path: string): string {
    if StartsWith(path, "/") then path
    else if cwd != "" then cwd + "/" + path
    else path
  }

  /** Nested relative `cd`s land where one `cd` to the joined path would. */
  lemma CdNested(cwd: string, a: string, b: string)
    requires a != "" && !StartsWith(b, "/")
    ensures CdTarget(CdTarget(cwd, a), b) == CdTarget(cwd, a + "/" + b)
  {
    assert StartsWith(a + "/" + b, "/") <==> StartsWith(a, "/") by {
      assert (a + "/" + b)[0] == a[0];
    }
    if !StartsWith(a, "/") && cwd != "" {
      assert cwd + "/" + a + "/" + b == cwd + "/" + (a + "/" + b);
    }
  }

  /** An absolute path does not depend on where the connection was. */
  lemma CdAbsolute(cwd: string, cwd': string, path: string)
    requires StartsWith(path, "/")
    ensures CdTarget(cwd, path) == CdTarget(cwd', path) == path
  {
  }

  /** The path `put` uploads to: a relative remote path is taken inside the working directory. */
  function RemotePath(cwd: string, remote: string): string {
    if !StartsWith(remote, "/") && cwd != "" then cwd + "/" + remote else remote
  }

  /** `put` resolves a remote path exactly as `cd` resolves a directory. */
  lemma RemotePathIsCd(cwd: string, remote: string)
    ensures RemotePath(cwd, remote) == CdTarget(cwd, remote)
  {
  }

  // ---------------------------------------------------------------------------
  // The command line.

  /** `export PATH="..."`: the user's cargo and local bin directories come first. */
  function PathExport(user: string): string {
    "export PATH=\"/home/" + user + "/.cargo/bin:/home/" + user + "/.local/bin:$PATH\" && "
  }

  function CwdPrefix(cwd: string): string {
    if cwd != "" then "cd " + cwd + " && " else ""
  }

  function FullCommand(user: string, cwd: string, command: string): string {
    PathExport(user) + CwdPrefix(cwd) + command
  }

  /** The PATH export comes first and the command last; `cd` sits between them exactly when a directory is set. */
  lemma FullCommandShape(user: string, cwd: string, command: string)
    ensures var full := FullCommand(user, cwd, command);
      StartsWith(full, PathExport(user)) && EndsWith(full, command)
      && (cwd == "" ==> full == PathExport(user) + command)
      && (cwd != "" ==> full[|PathExport(user)|..|full| - |command|] == "cd " + cwd + " && ")
  {
    var full := FullCommand(user, cwd, command);
    var p, c := PathExport(user), CwdPrefix(cwd);
    assert full == p + c + command;
    assert full[..|p|] == p;
    assert full[|full| - |command|..] == command;
    assert full[|p|..|full| - |command|] == c;
    if cwd == "" {
      assert p + c == p;
    }
  }

  // ---------------------------------------------------------------------------
  // Exit status.

  /**
   * The text a `cappa.Exit` raised without a code carries; the library's
   * default code is 0.
   */
  const CappaDefaultCode := 0

  function FailedMessage(status: int): string {
    "Command failed with exit code " + IntToString(status)
  }

  /** `run`'s result once the channel has closed: the output and whether the status is 0. */
  function Completed(stdout: string, status: int, warn: bool): Result<(string, bool), Exit> {
    if status != 0 && !warn then Err(Exit(FailedMessage(status), status))
    else Ok((stdout, status == 0))
  }

  /** A non-zero status raises, carrying that status, unless `warn`; otherwise the flag says whether it was 0. */
  lemma ExitPolicy(stdout: string, status: int, warn: bool)
    ensures Completed(stdout, status, warn).Err? <==> status != 0 && !warn
    ensures Completed(stdout, status, warn).Err? ==> Completed(stdout, status, warn).error.code == status
    ensures Completed(stdout, status, warn).Ok? ==>
      Completed(stdout, status, warn).value == (stdout, status == 0)
    ensures warn ==> Completed(stdout, status, warn).Ok?
  {
  }

  // ---------------------------------------------------------------------------
  // The poll loop.

  /** One non-blocking read: would block (with the session's block directions), data, or nothing. */
  datatype Read = Again(directions: nat) | Data(text: string) | Nothing

  /** One pass of the loop: the stdout read, the stderr read, and what `eof()` answered. */
  datatype Round = Round(out: Read, err: Read, eof: bool)

  /** The lists handed to `select`: the socket in the read list, in the write list. */
  datatype Wait = Wait(read: bool, write: bool)

  /** The loop's buffers: stdout and stderr chunks, what was written to the channel, the waits. */
  datatype Polled = Polled(stdout: seq<string>, stderr: seq<string>, sent: seq<string>, waits: seq<Wait>)

  const LIBSSH2_SESSION_BLOCK_INBOUND := 1
  const LIBSSH2_SESSION_BLOCK_OUTBOUND := 2

  /** `_wait_for_socket`: nothing when no direction is blocked, else one `select` on the blocked directions. */
  function WaitFor(directions: nat): seq<Wait> {
    if directions == 0 then []
    else [Wait(directions % 2 == 1, (directions / 2) % 2 == 1)]
  }

  /** Only a zero direction skips the wait; inbound selects for reading, outbound for writing. */
  lemma WaitDirections(directions: nat)
    ensures WaitFor(directions) == [] <==> directions == 0
    ensures directions == LIBSSH2_SESSION_BLOCK_INBOUND ==> WaitFor(directions) == [Wait(true, false)]
    ensures directions == LIBSSH2_SESSION_BLOCK_OUTBOUND ==> WaitFor(directions) == [Wait(false, true)]
    ensures directions == LIBSSH2_SESSION_BLOCK_INBOUND + LIBSSH2_SESSION_BLOCK_OUTBOUND ==>
      WaitFor(directions) == [Wait(true, true)]
  {
  }

  /** The two sudo prompts the password watchers look for. */
  function Prompts(user: string): seq<string> {
    ["[sudo] password:", "[sudo] password for " + user + ":"]
  }

  /** What is written back for one stdout chunk: the password once per prompt pattern found in it. */
  function Responses(host: HostConfig, text: string): seq<string> {
    if host.password == "" || !Contains(text, "sudo") then []
    else
      var prompts := Prompts(host.user);
      (if Contains(text, prompts[0]) then [host.password + "\n"] else [])
      + (if Contains(text, prompts[1]) then [host.password + "\n"] else [])
  }

  function AfterOut(p: Polled, r: Read, host: HostConfig): Polled {
    match r
    case Again(d) => p.(waits := p.waits + WaitFor(d))
    case Data(text) => p.(stdout := p.stdout + [text], sent := p.sent + Responses(host, text))
    case Nothing => p
  }

  function AfterErr(p: Polled, r: Read): Polled {
    match r
    case Again(d) => p.(waits := p.waits + WaitFor(d))
    case Data(text) => p.(stderr := p.stderr + [text])
    case Nothing => p
  }

  function AfterRound(p: Polled, round: Round, host: HostConfig): Polled {
    AfterErr(AfterOut(p, round.out, host), round.err)
  }

  /** The buffers after the given rounds, from empty ones. */
  function PollAll(rounds: seq<Round>, host: HostConfig): Polled {
    if rounds == [] then Polled([], [], [], [])
    else AfterRound(PollAll(rounds[..|rounds| - 1], host), rounds[|rounds| - 1], host)
  }

  /** The rounds the loop actually performs: up to and including the first one that saw end of file. */
  function UpToEof(rounds: seq<Round>): (r: seq<Round>)
    ensures r <= rounds
    decreases |rounds|
  {
    if rounds == [] then []
    else if rounds[0].eof then [rounds[0]]
    else [rounds[0]] + UpToEof(rounds[1..])
  }

  /** `"".join(stdout_buffer)` */
  function Output(rounds: seq<Round>, host: HostConfig): string {
    Join(PollAll(UpToEof(rounds), host).stdout, "")
  }

  lemma {:induction false} UpToEofAt(rounds: seq<Round>, i: nat)
    requires i < |rounds| && rounds[i].eof
    requires forall j :: 0 <= j < i ==> !rounds[j].eof
    ensures UpToEof(rounds) == rounds[..i + 1]
    decreases i
  {
    if i > 0 {
      UpToEofAt(rounds[1..], i - 1);
      assert rounds[..i + 1] == [rounds[0]] + rounds[1..][..i];
    }
  }

  lemma {:induction false} UpToEofNone(rounds: seq<Round>)
    requires forall j :: 0 <= j < |rounds| ==> !rounds[j].eof
    ensures UpToEof(rounds) == rounds
    decreases |rounds|
  {
    if rounds != [] {
      UpToEofNone(rounds[1..]);
      assert rounds == [rounds[0]] + rounds[1..];
    }
  }

  /** Rounds after the first end of file are never performed. */
  lemma StopsAtEof(before: seq<Round>, last: Round, after: seq<Round>, host: HostConfig)
    requires last.eof && forall j :: 0 <= j < |before| ==> !before[j].eof
    ensures UpToEof(before + [last] + after) == before + [last]
  {
    var rounds := before + [last] + after;
    UpToEofAt(rounds, |before|);
    assert rounds[..|before| + 1] == before + [last];
  }

  /** Two rounds with the same stdout read leave the same stdout buffer and the same writes. */
  lemma SameOut(p1: Polled, p2: Polled, r1: Round, r2: Round, host: HostConfig)
    requires p1.stdout == p2.stdout && p1.sent == p2.sent && r1.out == r2.out
    ensures AfterRound(p1, r1, host).stdout == AfterRound(p2, r2, host).stdout
    ensures AfterRound(p1, r1, host).sent == AfterRound(p2, r2, host).sent
  {
  }

  /**
   * The stdout buffer and what was written to the channel depend on the stdout
   * reads alone: stderr output never reaches the result.
   */
  lemma {:induction false} StderrNeverReturned(r1: seq<Round>, r2: seq<Round>, host: HostConfig)
    requires |r1| == |r2| && forall i :: 0 <= i < |r1| ==> r1[i].out == r2[i].out
    ensures PollAll(r1, host).stdout == PollAll(r2, host).stdout
    ensures PollAll(r1, host).sent == PollAll(r2, host).sent
    decreases |r1|
  {
    if r1 != [] {
      var n := |r1| - 1;
      StderrNeverReturned(r1[..n], r2[..n], host);
      SameOut(PollAll(r1[..n], host), PollAll(r2[..n], host), r1[n], r2[n], host);
    }
  }

  /** Everything written to the channel is the password and a newline, and only with a password set. */
  lemma {:induction false} SentIsPassword(rounds: seq<Round>, host: HostConfig)
    ensures forall i :: 0 <= i < |PollAll(rounds, host).sent| ==> PollAll(rounds, host).sent[i] == host.password + "\n"
    ensures host.password == "" ==> PollAll(rounds, host).sent == []
    decreases |rounds|
  {
    if rounds != [] {
      SentIsPassword(rounds[..|rounds| - 1], host);
    }
  }

  /** A chunk without a sudo prompt is never answered. */
  lemma NoPromptNoResponse(host: HostConfig, text: string)
    requires !Contains(text, "[sudo] password:") && !Contains(text, "[sudo] password for " + host.user + ":")
    ensures Responses(host, text) == []
  {
  }

  /** The output is the stdout chunks joined in the order they were read, round after round. */
  lemma OutputAppends(rounds: seq<Round>, round: Round, host: HostConfig)
    ensures PollAll(rounds + [round], host).stdout
         == PollAll(rounds, host).stdout + (if round.out.Data? then [round.out.text] else [])
  {
    assert (rounds + [round])[..|rounds|] == rounds;
  }

  // ---------------------------------------------------------------------------
  // Uploads and authentication.

  /** What `stat` says of the local path. */
  datatype LocalPath = Missing | NotAFile | File(mode: nat, size: nat)

  datatype PutError = FileNotFound(message: string) | NotAFileError(message: string)

  /** The `scp_send64` call: remote path, permission bits, size. */
  datatype Scp = Scp(remote: string, mode: nat, size: nat)

  /** `st_mode & 0o777` */
  function PermissionBits(mode: nat): (r: nat)
    ensures r < 512
  {
    mode % 512
  }

  /** How `connection()` authenticates: the key file, else the password, else the agent. */
  datatype Auth = KeyFile(path: string) | PasswordAuth | Agent

  function AuthMethod(host: HostConfig): Auth {
    if host.keyFilename.Some? then KeyFile(host.keyFilename.value)
    else if host.password != "" then PasswordAuth
    else Agent
  }

  /** Exactly one method is tried, chosen by what the host configures, key file first. */
  lemma AuthOrder(host: HostConfig)
    ensures AuthMethod(host).KeyFile? <==> host.keyFilename.Some?
    ensures AuthMethod(host).PasswordAuth? <==> host.keyFilename.None? && host.password != ""
    ensures AuthMethod(host).Agent? <==> host.keyFilename.None? && host.password == ""
  {
  }

  /** A connection that could not be opened: a plain exception, or a `cappa.Exit`. */
  datatype OpenError = Failure(message: string) | Refused(exit: Exit)

  /** `str(host.ip)` in the connect error. */
  function IpText(ip: Option<string>): string {
    if ip.Some? then ip.value else "None"
  }

  /** Where the socket connects: the ip, else the domain name. */
  function Address(host: HostConfig): string {
    if host.ip.Some? && host.ip.value != "" then host.ip.value else host.domainName
  }

  /**
   * `connection(host)`: the outcome of each step is an input (whether the
   * socket connects, the handshake succeeds, the chosen method raises, and
   * the session reports itself authenticated).
   */
  function Open(host: HostConfig, connects: bool, handshakes: bool, authRaises: bool, authenticated: bool)
    : Result<Auth, OpenError>
  {
    if !connects then Err(Failure("Failed to connect to " + IpText(host.ip) + ":" + NatToString(host.sshPort)))
    else if !handshakes then Err(Failure("SSH Handshake failed"))
    else if authRaises then Err(Refused(Exit("Authentication failed for " + host.user, CappaDefaultCode)))
    else if !authenticated then Err(Refused(Exit("Authentication failed", CappaDefaultCode)))
    else Ok(AuthMethod(host))
  }

  /** A connection opens exactly when every step succeeds, and then uses the configured method. */
  lemma OpenSucceeds(host: HostConfig, connects: bool, handshakes: bool, authRaises: bool, authenticated: bool)
    ensures Open(host, connects, handshakes, authRaises, authenticated).Ok? <==>
      connects && handshakes && !authRaises && authenticated
    ensures Open(host, connects, handshakes, authRaises, authenticated).Ok? ==>
      Open(host, connects, handshakes, authRaises, authenticated).value == AuthMethod(host)
    ensures connects && handshakes && (authRaises || !authenticated) ==>
      Open(host, connects, handshakes, authRaises, authenticated).error.Refused?
  {
  }

  // ---------------------------------------------------------------------------
  // The connection object.

  class Ssh2Connection {
    const host: HostConfig
    var cwd: string

    constructor(host: HostConfig)
      ensures this.host == host && cwd == ""
    {
      this.host := host;
      cwd := "";
    }

    /** Entering `cd(path)`: returns the directory to restore. */
    method Cd(path: string) returns (previous: string)
      modifies this
      ensures previous == old(cwd) && cwd == CdTarget(old(cwd), path)
    {
      previous := cwd;
      if StartsWith(path, "/") {
        cwd := path;
      } else if cwd != "" {
        cwd := cwd + "/" + path;
      } else {
        cwd := path;
      }
    }

    /** Leaving `cd(path)`, normally or by an exception. */
    method Restore(previous: string)
      modifies this
      ensures cwd == previous
    {
      cwd := previous;
    }

    /** `with conn.cd(path): conn.run(command)`: the directory is restored whatever the command did. */
    method RunIn(path: string, command: string, warn: bool, rounds: seq<Round>, status: int)
      returns (executed: string, r: Result<(string, bool), Exit>)
      modifies this
      ensures executed == FullCommand(host.user, CdTarget(old(cwd), path), command)
      ensures r == Completed(Output(rounds, host), status, warn)
      ensures cwd == old(cwd)
    {
      var previous := Cd(path);
      var sent, waits;
      executed, r, sent, waits := Run(command, warn, rounds, status);
      Restore(previous);
    }

    /**
     * `run(command, warn)`: executes the composed command line, polls the
     * channel until end of file, and applies the exit policy to `status`.
     */
    method Run(command: string, warn: bool, rounds: seq<Round>, status: int)
      returns (executed: string, r: Result<(string, bool), Exit>, sent: seq<string>, waits: seq<Wait>)
      ensures executed == FullCommand(host.user, cwd, command)
      ensures r == Completed(Output(rounds, host), status, warn)
      ensures sent == PollAll(UpToEof(rounds), host).sent
      ensures waits == PollAll(UpToEof(rounds), host).waits
    {
      var cwdPrefix := "";
      if cwd != "" {
        cwdPrefix := "cd " + cwd + " && ";
      }
      executed := PathExport(host.user) + cwdPrefix + command;
      var polled := Poll(rounds);
      sent, waits := polled.sent, polled.waits;
      var stdout := Join(polled.stdout, "");
      if status != 0 && !warn {
        return executed, Err(Exit(FailedMessage(status), status)), sent, waits;
      }
      r := Ok((stdout, status == 0));
    }

    /** The `while True` loop: read stdout, read stderr, stop after the round that saw end of file. */
    method Poll(rounds: seq<Round>) returns (polled: Polled)
      ensures polled == PollAll(UpToEof(rounds), host)
    {
      polled := Polled([], [], [], []);
      var i := 0;
      while i < |rounds|
        invariant 0 <= i <= |rounds|
        invariant forall j :: 0 <= j < i ==> !rounds[j].eof
        invariant polled == PollAll(rounds[..i], host)
      {
        polled := Step(polled, rounds[i]);
        assert rounds[..i + 1][..i] == rounds[..i];
        if rounds[i].eof {
          UpToEofAt(rounds, i);
          return;
        }
        i := i + 1;
      }
      UpToEofNone(rounds);
      assert rounds[..i] == rounds;
    }

    /** One pass of the loop body. */
    method Step(polled: Polled, round: Round) returns (next: Polled)
      ensures next == AfterRound(polled, round, host)
    {
      next := polled;
      match round.out {
        case Again(d) =>
          next := next.(waits := next.waits + WaitFor(d));
        case Data(text) =>
          next := next.(stdout := next.stdout + [text]);
          next := next.(sent := next.sent + Responses(host, text));
        case Nothing =>
      }
      match round.err {
        case Again(d) =>
          next := next.(waits := next.waits + WaitFor(d));
        case Data(text) =>
          next := next.(stderr := next.stderr + [text]);
        case Nothing =>
      }
    }

    /** `put(local, remote)` */
    method Put(local: string, stat: LocalPath, remote: string) returns (r: Result<Scp, PutError>)
      ensures stat.Missing? ==> r == Err(FileNotFound("Local file not found: " + local))
      ensures stat.NotAFile? ==> r == Err(NotAFileError("Local path is not a file: " + local))
      ensures stat.File? ==> r == Ok(Scp(CdTarget(cwd, remote), PermissionBits(stat.mode), stat.size))
    {
      if stat.Missing? {
        return Err(FileNotFound("Local file not found: " + local));
      }
      if stat.NotAFile? {
        return Err(NotAFileError("Local path is not a file: " + local));
      }
      var target := remote;
      if !StartsWith(remote, "/") && cwd != "" {
        target := cwd + "/" + remote;
      }
      RemotePathIsCd(cwd, remote);
      r := Ok(Scp(target, PermissionBits(stat.mode), stat.size));
    }
  }
}
