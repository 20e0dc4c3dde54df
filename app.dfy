// `fujin app`: the process-status table, the per-service detail view, and the
// systemctl / journalctl commands issued for start, stop, restart, logs and
// cat. Remote command output is a parameter; what is modelled is how fujin
// reads it and what it sends.

module AppCommand {
  import opened Strs
  import opened Wrappers
  import opened Cli
  import opened Units
  import opened Dicts
  import CommandBase
  import Shell
  import Connection

  // ---------------------------------------------------------------------------
  // `status`: which units are asked about, and how the answers are summarised.

  /** The lines of `systemctl is-active` output; blank output gives none. */
  function StatusLines(output: string): (r: seq<string>)
    ensures Strip(output) == "" <==> r == []
  {
    StrippedLines(output)
  }

  /** `dict(zip(names, statuses))` */
  function StatusMap(names: seq<string>, output: string): (r: Dict<string>)
    ensures names == [] || Strip(output) == "" ==> r == []
  {
    Zip(names, StatusLines(output))
  }

  /**
   * A queried name gets the status printed on the line of its last
   * occurrence, and a name none of the printed lines belongs to gets none.
   */
  lemma StatusMapLookup(names: seq<string>, output: string, i: nat)
    requires i < |names| && names[i] !in names[i + 1..]
    ensures i < |StatusLines(output)| ==>
      Get(StatusMap(names, output), names[i]) == Some(StatusLines(output)[i])
    ensures names[i] !in names[..Min(|names|, |StatusLines(output)|)] ==>
      Get(StatusMap(names, output), names[i]).None?
  {
    var lines := StatusLines(output);
    var n := Min(|names|, |lines|);
    if i < |lines| {
      assert names[i] !in names[i + 1..n] by {
        assert forall j :: i + 1 <= j < n ==> names[j] == names[i + 1..][j - i - 1];
      }
      ZipPrefixAt(names, lines, n, i);
    } else if names[i] !in names[..n] {
      ZipMissing(names, lines, names[i]);
    }
  }

  /** How many of `names` are reported "active". */
  function CountActive(names: seq<string>, statuses: Dict<string>): (r: nat)
    ensures r <= |names|
  {
    if names == [] then 0
    else (if Get(statuses, names[0]) == Some("active") then 1 else 0) + CountActive(names[1..], statuses)
  }

  /** All instances are running exactly when the count reaches the total. */
  lemma {:induction false} CountActiveAll(names: seq<string>, statuses: Dict<string>)
    ensures CountActive(names, statuses) == |names| <==>
      forall i :: 0 <= i < |names| ==> Get(statuses, names[i]) == Some("active")
  {
    if names != [] {
      CountActiveAll(names[1..], statuses);
      assert forall i :: 1 <= i < |names| ==> names[i] == names[1..][i - 1];
    }
  }

  /** No instance is running exactly when the count is zero. */
  lemma {:induction false} CountActiveNone(names: seq<string>, statuses: Dict<string>)
    ensures CountActive(names, statuses) == 0 <==>
      forall i :: 0 <= i < |names| ==> Get(statuses, names[i]) != Some("active")
  {
    if names != [] {
      CountActiveNone(names[1..], statuses);
      assert forall i :: 1 <= i < |names| ==> names[i] == names[1..][i - 1];
    }
  }

  /** The status cell of a service: the raw status of a single instance, otherwise `running/total`. */
  function Summary(du: DeployedUnit, statuses: Dict<string>): string {
    var instances := ServiceInstances(du);
    if |instances| == 1 then GetOr(statuses, instances[0], "unknown")
    else NatToString(CountActive(instances, statuses)) + "/" + NatToString(|instances|)
  }

  /** The socket's status, or "" when there is no socket or no answer for it. */
  function SocketStatus(du: DeployedUnit, statuses: Dict<string>): string {
    match TemplateSocketName(du)
    case None => ""
    case Some(s) => GetOr(statuses, s, "")
  }

  /** One unit's rows of the `services` table: its summary, then its socket when it answered. */
  function UnitRows(rows: Dict<string>, du: DeployedUnit, statuses: Dict<string>): Dict<string> {
    var withService := Put(rows, du.name, Summary(du, statuses));
    var socketStatus := SocketStatus(du, statuses);
    if socketStatus != "" then Put(withService, du.name + ".socket", socketStatus) else withService
  }

  function Rows(units: seq<DeployedUnit>, statuses: Dict<string>): Dict<string>
    decreases |units|
  {
    if units == [] then [] else UnitRows(Rows(units[..|units| - 1], statuses), units[|units| - 1], statuses)
  }

  /** The loop over deployed units that fills the `services` table. */
  method ServiceRows(units: seq<DeployedUnit>, statuses: Dict<string>) returns (rows: Dict<string>)
    ensures rows == Rows(units, statuses)
  {
    rows := [];
    var i := 0;
    while i < |units|
      invariant 0 <= i <= |units|
      invariant rows == Rows(units[..i], statuses)
    {
      var du := units[i];
      RowsStep(units, i, statuses);
      ghost var before := rows;
      rows := Put(rows, du.name, Summary(du, statuses));
      if TemplateSocketName(du).Some? {
        var socketStatus := GetOr(statuses, TemplateSocketName(du).value, "");
        if socketStatus != "" {
          rows := Put(rows, du.name + ".socket", socketStatus);
        }
      }
      assert rows == UnitRows(before, du, statuses);
      i := i + 1;
    }
    assert units[..i] == units;
  }

  lemma RowsStep(units: seq<DeployedUnit>, i: nat, statuses: Dict<string>)
    requires i < |units|
    ensures Rows(units[..i + 1], statuses) == UnitRows(Rows(units[..i], statuses), units[i], statuses)
  {
    assert units[..i + 1][..i] == units[..i];
  }

  /**
   * A unit's rows: its own name gets its summary, `name.socket` gets the
   * socket's status only when the socket answered, and nothing else changes.
   */
  lemma UnitRowsContent(rows: Dict<string>, du: DeployedUnit, statuses: Dict<string>)
    ensures Get(UnitRows(rows, du, statuses), du.name) == Some(Summary(du, statuses))
    ensures SocketStatus(du, statuses) != "" ==>
      Get(UnitRows(rows, du, statuses), du.name + ".socket") == Some(SocketStatus(du, statuses))
    ensures SocketStatus(du, statuses) == "" ==>
      Get(UnitRows(rows, du, statuses), du.name + ".socket") == Get(rows, du.name + ".socket")
    ensures forall k :: k != du.name && k != du.name + ".socket" ==>
      Get(UnitRows(rows, du, statuses), k) == Get(rows, k)
    ensures !du.hasSocket ==> SocketStatus(du, statuses) == ""
  {
    assert |du.name + ".socket"| != |du.name|;
  }

  /** A service with one instance shows that instance's status, or "unknown" when it got none. */
  lemma SummarySingle(du: DeployedUnit, statuses: Dict<string>)
    requires !du.isTemplate || du.replicas == 1
    ensures Get(statuses, ServiceInstances(du)[0]).Some? ==>
      Summary(du, statuses) == Get(statuses, ServiceInstances(du)[0]).value
    ensures Get(statuses, ServiceInstances(du)[0]).None? ==> Summary(du, statuses) == "unknown"
  {
  }

  // ---------------------------------------------------------------------------
  // Colouring of the status column.

  datatype Style = Green | Red | Dim | Yellow | Plain

  /**
   * The style of a status cell. `running/total` cells are parsed back with
   * `int`; None stands for the ValueError raised on a cell that is not two
   * numbers around one `/`.
   */
  function StatusStyle(status: string): Option<Style> {
    if status == "active" then Some(Green)
    else if status == "failed" then Some(Red)
    else if status == "inactive" || status == "unknown" then Some(Dim)
    else if '/' in status then
      var parts := Split(status, '/');
      if |parts| != 2 then None
      else match (ParseNat(parts[0]), ParseNat(parts[1]))
        case (Some(running), Some(total)) =>
          Some(if running == total then Green else if running == 0 then Red else Yellow)
        case _ => None
    else Some(Plain)
  }

  function Markup(style: Style, status: string): string {
    match style
    case Green => "[bold green]" + status + "[/bold green]"
    case Red => "[bold red]" + status + "[/bold red]"
    case Dim => "[dim]" + status + "[/dim]"
    case Yellow => "[bold yellow]" + status + "[/bold yellow]"
    case Plain => status
  }

  /** A rendered `running/total` cell is green when all run, red when none run, yellow otherwise. */
  lemma CountStyle(running: nat, total: nat)
    ensures StatusStyle(NatToString(running) + "/" + NatToString(total))
         == Some(if running == total then Green else if running == 0 then Red else Yellow)
  {
    var r, t := NatToString(running), NatToString(total);
    assert '/' !in r && '/' !in t && r != [] by {
      NatToStringValue(running);
      NatToStringValue(total);
    }
    var cell := r + "/" + t;
    assert cell != "active" && cell != "failed" && cell != "inactive" && cell != "unknown" && '/' in cell by {
      assert cell[|r|] == '/';
      assert cell[0] == r[0] && r[0] != 'a' && r[0] != 'f' && r[0] != 'i' && r[0] != 'u' by {
        NatToStringValue(running);
      }
    }
    assert Split(cell, '/') == [r, t] by {
      SplitNoSep(t, '/');
      SplitAt(r, t, '/');
    }
    ParseNatToString(running);
    ParseNatToString(total);
  }

  /** The summary of a multi-instance service is coloured by how many of its instances run. */
  lemma SummaryStyle(du: DeployedUnit, statuses: Dict<string>)
    requires |ServiceInstances(du)| != 1
    ensures StatusStyle(Summary(du, statuses)) == Some(
      if forall i :: 0 <= i < |ServiceInstances(du)| ==> Get(statuses, ServiceInstances(du)[i]) == Some("active") then Green
      else if forall i :: 0 <= i < |ServiceInstances(du)| ==> Get(statuses, ServiceInstances(du)[i]) != Some("active") then Red
      else Yellow)
  {
    var instances := ServiceInstances(du);
    CountStyle(CountActive(instances, statuses), |instances|);
    CountActiveAll(instances, statuses);
    CountActiveNone(instances, statuses);
  }

  /** The cells the status tests look at. */
  lemma StyleExamples()
    ensures StatusStyle("active") == Some(Green)
    ensures StatusStyle("failed") == Some(Red)
    ensures StatusStyle("inactive") == Some(Dim)
    ensures StatusStyle("3/3") == Some(Green)
    ensures StatusStyle("2/3") == Some(Yellow)
    ensures StatusStyle("0/3") == Some(Red)
  {
    WordStyles();
    CountStyles();
  }

  lemma WordStyles()
    ensures StatusStyle("active") == Some(Green)
    ensures StatusStyle("failed") == Some(Red)
    ensures StatusStyle("inactive") == Some(Dim)
  {
  }

  lemma CountStyles()
    ensures StatusStyle("3/3") == Some(Green)
    ensures StatusStyle("2/3") == Some(Yellow)
    ensures StatusStyle("0/3") == Some(Red)
  {
    SmallNumerals();
    CountStyle(3, 3);
    CountStyle(2, 3);
    CountStyle(0, 3);
    assert "3/3" == NatToString(3) + "/" + NatToString(3);
    assert "2/3" == NatToString(2) + "/" + NatToString(3);
    assert "0/3" == NatToString(0) + "/" + NatToString(3);
  }

  lemma SmallNumerals()
    ensures NatToString(3) == "3" && NatToString(2) == "2" && NatToString(0) == "0"
  {
  }

  // ---------------------------------------------------------------------------
  // `status <service>`: reading `systemctl show` output.

  /** Each `key=value` line sets `key`; lines without `=` are skipped; a later line wins. */
  function Props(lines: seq<string>): (r: Dict<string>)
    ensures (forall i :: 0 <= i < |lines| ==> '=' !in lines[i]) ==> r == []
    decreases |lines|
  {
    if lines == [] then []
    else
      var earlier := Props(lines[..|lines| - 1]);
      var line := lines[|lines| - 1];
      if '=' in line then Put(earlier, SplitOnce(line, '=').0, SplitOnce(line, '=').1) else earlier
  }

  /** The parsing loop over `output.strip().split("\n")`. */
  method ParseProps(output: string) returns (props: Dict<string>)
    ensures props == Props(Split(Strip(output), '\n'))
  {
    var lines := Split(Strip(output), '\n');
    props := [];
    var i := 0;
    while i < |lines|
      invariant 0 <= i <= |lines|
      invariant props == Props(lines[..i])
    {
      assert lines[..i + 1][..i] == lines[..i];
      var line := lines[i];
      if '=' in line {
        var (key, value) := SplitOnce(line, '=');
        props := Put(props, key, value);
      }
      i := i + 1;
    }
    assert lines[..i] == lines;
  }

  /** A `key=value` line read last determines the key, whatever `value` holds. */
  lemma PropsLastLine(lines: seq<string>, key: string, value: string)
    requires '=' !in key
    ensures Get(Props(lines + [key + "=" + value]), key) == Some(value)
  {
    var all := lines + [key + "=" + value];
    assert all[..|all| - 1] == lines;
    assert (key + "=" + value)[|key|] == '=';
    SplitOnceAt(key, value, '=');
    assert key + "=" + value == key + ['='] + value;
  }

  predicate Mentions(line: string, key: string) {
    '=' in line && SplitOnce(line, '=').0 == key
  }

  /** A key no line sets is absent, so the detail view falls back to its default. */
  lemma {:induction false} PropsAbsent(lines: seq<string>, key: string)
    requires forall i :: 0 <= i < |lines| ==> !Mentions(lines[i], key)
    ensures Get(Props(lines), key).None?
    decreases |lines|
  {
    if lines != [] {
      PropsAbsent(lines[..|lines| - 1], key);
    }
  }

  /** The line shown for one instance in the detail view. */
  function InstanceLine(unitName: string, success: bool, output: string): string {
    if !success then "  " + unitName + ": [dim]unknown[/dim]"
    else
      var props := Props(Split(Strip(output), '\n'));
      var activeState := GetOr(props, "ActiveState", "unknown");
      var loadState := GetOr(props, "LoadState", "unknown");
      var activeSince := GetOr(props, "ActiveEnterTimestamp", "");
      var statusStr :=
        if activeState == "active" then Markup(Green, activeState)
        else if activeState == "failed" then Markup(Red, activeState)
        else Markup(Dim, activeState);
      if loadState == "not-found" then "  " + unitName + ": [dim]not deployed[/dim]"
      else
        var timeInfo := if activeSince != "" && activeState == "active" then " (since " + activeSince + ")" else "";
        "  " + unitName + ": " + statusStr + timeInfo
  }

  /**
   * A failed query reads "unknown"; a unit systemd does not know reads
   * "not deployed"; output that names no state reads as a dim "unknown".
   */
  lemma InstanceLineCases(unitName: string, success: bool, output: string)
    ensures !success ==> InstanceLine(unitName, success, output) == "  " + unitName + ": [dim]unknown[/dim]"
    ensures success && Get(Props(Split(Strip(output), '\n')), "LoadState") == Some("not-found") ==>
      InstanceLine(unitName, success, output) == "  " + unitName + ": [dim]not deployed[/dim]"
    ensures (success && Get(Props(Split(Strip(output), '\n')), "ActiveState").None?
             && Get(Props(Split(Strip(output), '\n')), "LoadState") != Some("not-found")) ==>
      InstanceLine(unitName, success, output) == "  " + unitName + ": [dim]unknown[/dim]"
  {
    if success {
      var props := Props(Split(Strip(output), '\n'));
      if Get(props, "LoadState") == Some("not-found") {
        NotFoundLine(unitName, output);
      } else if Get(props, "ActiveState").None? {
        MissingStateLine(unitName, output);
      }
    }
  }

  lemma NotFoundLine(unitName: string, output: string)
    requires Get(Props(Split(Strip(output), '\n')), "LoadState") == Some("not-found")
    ensures InstanceLine(unitName, true, output) == "  " + unitName + ": [dim]not deployed[/dim]"
  {
    var props := Props(Split(Strip(output), '\n'));
    assert GetOr(props, "LoadState", "unknown") == "not-found";
  }

  lemma MissingStateLine(unitName: string, output: string)
    requires Get(Props(Split(Strip(output), '\n')), "ActiveState").None?
    requires Get(Props(Split(Strip(output), '\n')), "LoadState") != Some("not-found")
    ensures InstanceLine(unitName, true, output) == "  " + unitName + ": [dim]unknown[/dim]"
  {
    var props := Props(Split(Strip(output), '\n'));
    assert GetOr(props, "ActiveState", "unknown") == "unknown";
    assert GetOr(props, "LoadState", "unknown") != "not-found";
    var prefix := "  " + unitName;
    assert InstanceLine(unitName, true, output) == prefix + ": " + Markup(Dim, "unknown") + "";
    DimUnknown();
    AppendAssoc(prefix, ": ", "[dim]unknown[/dim]");
  }

  lemma DimUnknown()
    ensures Markup(Dim, "unknown") + "" == "[dim]unknown[/dim]"
    ensures ": " + "[dim]unknown[/dim]" == ": [dim]unknown[/dim]"
  {
  }

  /** The timer's next run, shown only when systemd reports one other than "0". */
  function NextRun(success: bool, output: string): (r: Option<string>)
    ensures r.Some? ==> r.value != "" && r.value != "0"
    ensures r.Some? <==> success && GetOr(Props(Split(Strip(output), '\n')), "NextElapseUSecRealtime", "") !in {"", "0"}
  {
    if !success then None
    else
      var next := GetOr(Props(Split(Strip(output), '\n')), "NextElapseUSecRealtime", "");
      if next != "" && next != "0" then Some(next) else None
  }

  // ---------------------------------------------------------------------------
  // start / stop / restart

  /**
   * `stop <name>` also stops `{app}-{name}.socket` when `.fujin/systemd/{name}.socket`
   * exists locally, unless it is already in the list.
   */
  function WithStopSocket(names: seq<string>, command: string, name: string, appName: string,
                          systemdDirExists: bool, localFiles: set<string>): seq<string>
  {
    if command == "stop" && name != "" && systemdDirExists && name + ".socket" in localFiles then
      var socketUnit := appName + "-" + name + ".socket";
      if socketUnit in names then names else names + [socketUnit]
    else names
  }

  /** The socket is added after the resolved names, and appears exactly once when it was absent. */
  lemma StopSocketOnce(names: seq<string>, name: string, appName: string, localFiles: set<string>)
    requires name != "" && name + ".socket" in localFiles
    ensures var r := WithStopSocket(names, "stop", name, appName, true, localFiles);
      r[..|names|] == names
      && multiset(r)[appName + "-" + name + ".socket"] ==
         (if appName + "-" + name + ".socket" in names then multiset(names)[appName + "-" + name + ".socket"] else 1)
  {
    var su := appName + "-" + name + ".socket";
    if su !in names {
      assert multiset(names)[su] == 0;
      assert multiset(names + [su]) == multiset(names) + multiset{su};
    }
  }

  /** Other commands leave the resolved names as they are. */
  lemma OtherCommandsNoSocket(names: seq<string>, command: string, name: string, appName: string,
                              systemdDirExists: bool, localFiles: set<string>)
    requires command != "stop"
    ensures WithStopSocket(names, command, name, appName, systemdDirExists, localFiles) == names
  {
  }

  function PastTense(command: string): string {
    if command == "start" then "started"
    else if command == "restart" then "restarted"
    else if command == "stop" then "stopped"
    else command
  }

  datatype ServiceRun =
    | NoServices
    | Ran(names: seq<string>, command: string, message: string)

  /**
   * `_run_service_command`: the one `sudo systemctl` command runs without
   * `warn`, so when it exits with a non-zero `status` the connection's exit
   * ends the command before the success message.
   */
  function RunServiceCommand(units: seq<DeployedUnit>, appName: string, command: string, name: string,
                             systemdDirExists: bool, localFiles: set<string>, status: int): Result<ServiceRun, Exit>
  {
    match CommandBase.Resolve(units, name, false)
    case Err(e) => Err(e)
    case Ok(resolved) =>
      if resolved == [] then Ok(NoServices)
      else
        var names := WithStopSocket(resolved, command, name, appName, systemdDirExists, localFiles);
        var run := Connection.Completed("", status, false);
        if run.Err? then Err(run.error)
        else
          var msg := if name != "" then name + " service" else "All Services";
          Ok(Ran(names, "sudo systemctl " + command + " " + Join(names, " "),
                 msg + " " + PastTense(command) + " successfully!"))
  }

  /**
   * Without a name every runtime unit is acted on, and a failing `systemctl`
   * ends with its status; with an empty resolution nothing is run, even for
   * a stop whose socket exists.
   */
  lemma RunServiceCommandCases(units: seq<DeployedUnit>, appName: string, command: string,
                               systemdDirExists: bool, localFiles: set<string>, status: int)
    ensures SystemdUnits(units) != [] && status == 0 ==>
      RunServiceCommand(units, appName, command, "", systemdDirExists, localFiles, status)
        == Ok(Ran(SystemdUnits(units), "sudo systemctl " + command + " " + Join(SystemdUnits(units), " "),
                  "All Services " + PastTense(command) + " successfully!"))
    ensures SystemdUnits(units) != [] && status != 0 ==>
      RunServiceCommand(units, appName, command, "", systemdDirExists, localFiles, status)
        == Err(Exit(Connection.FailedMessage(status), status))
    ensures SystemdUnits(units) == [] ==>
      RunServiceCommand(units, appName, command, "", systemdDirExists, localFiles, status) == Ok(NoServices)
  {
    assert CommandBase.Resolve(units, "", false) == Ok(SystemdUnits(units));
    assert WithStopSocket(SystemdUnits(units), command, "", appName, systemdDirExists, localFiles) == SystemdUnits(units);
    assert "All Services" + " " + PastTense(command) + " successfully!"
        == "All Services " + PastTense(command) + " successfully!";
  }

  /**
   * Once something is resolved, the success message is reported exactly when
   * `systemctl` exits with 0; any other status ends the command with the
   * connection's exit carrying it.
   */
  lemma RunServiceCommandFails(units: seq<DeployedUnit>, appName: string, command: string, name: string,
                               systemdDirExists: bool, localFiles: set<string>, status: int)
    requires CommandBase.Resolve(units, name, false).Ok?
    requires CommandBase.Resolve(units, name, false).value != []
    ensures RunServiceCommand(units, appName, command, name, systemdDirExists, localFiles, status).Ok? <==> status == 0
    ensures status != 0 ==>
      RunServiceCommand(units, appName, command, name, systemdDirExists, localFiles, status)
        == Err(Exit(Connection.FailedMessage(status), status))
  {
    Connection.ExitPolicy("", status, false);
  }

  /** Every unit the name resolves to is acted on, before any added socket. */
  lemma RunServiceCommandCovers(units: seq<DeployedUnit>, appName: string, command: string, name: string,
                                systemdDirExists: bool, localFiles: set<string>)
    requires CommandBase.Resolve(units, name, false).Ok?
    requires CommandBase.Resolve(units, name, false).value != []
    ensures RunServiceCommand(units, appName, command, name, systemdDirExists, localFiles, 0).Ok?
    ensures var run := RunServiceCommand(units, appName, command, name, systemdDirExists, localFiles, 0).value;
      run.Ran? && run.names[..|CommandBase.Resolve(units, name, false).value|] == CommandBase.Resolve(units, name, false).value
  {
  }

  // ---------------------------------------------------------------------------
  // logs

  function UnitFlags(names: seq<string>): (r: seq<string>)
    ensures |r| == |names|
    ensures forall i :: 0 <= i < |r| ==> r[i] == "-u " + names[i]
  {
    if names == [] then [] else ["-u " + names[0]] + UnitFlags(names[1..])
  }

  function Opt(given: bool, part: string): seq<string> {
    if given then [part] else []
  }

  /** The options between the unit flags and `-f`. */
  function Filters(level: string, since: string, grep: string): seq<string> {
    Opt(level != "", "-p " + level)
    + Opt(since != "", "--since " + Shell.Quote(since))
    + Opt(grep != "", "-g " + Shell.Quote(grep))
  }

  /** The pieces of the journalctl command; an empty option is one not given. */
  function JournalParts(names: seq<string>, follow: bool, lines: int, level: string, since: string, grep: string)
    : seq<string>
  {
    ["sudo journalctl", Join(UnitFlags(names), " ")]
    + Opt(!follow, "-n " + IntToString(lines))
    + Filters(level, since, grep)
    + Opt(follow, "-f")
  }

  /** `logs`: the journalctl command assembled piece by piece; None when nothing resolved. */
  method LogsCommand(names: seq<string>, follow: bool, lines: int, level: string, since: string, grep: string)
    returns (cmd: Option<string>)
    ensures names == [] ==> cmd.None?
    ensures names != [] ==> cmd == Some(Join(JournalParts(names, follow, lines, level, since, grep), " "))
  {
    if names == [] {
      return None;
    }
    var parts := ["sudo journalctl", Join(UnitFlags(names), " ")];
    parts := AddPart(parts, !follow, "-n " + IntToString(lines));
    ghost var head := parts;
    parts := AddPart(parts, level != "", "-p " + level);
    parts := AddPart(parts, since != "", "--since " + Shell.Quote(since));
    parts := AddPart(parts, grep != "", "-g " + Shell.Quote(grep));
    AppendThree(head, Opt(level != "", "-p " + level), Opt(since != "", "--since " + Shell.Quote(since)),
      Opt(grep != "", "-g " + Shell.Quote(grep)));
    parts := AddPart(parts, follow, "-f");
    return Some(Join(parts, " "));
  }

  lemma AppendThree(head: seq<string>, a: seq<string>, b: seq<string>, c: seq<string>)
    ensures head + a + b + c == head + (a + b + c)
  {
  }

  /** Appends an option when it is given. */
  method AddPart(parts: seq<string>, given: bool, part: string) returns (r: seq<string>)
    ensures r == parts + Opt(given, part)
  {
    r := parts;
    if given {
      r := r + [part];
    }
  }

  /** `-f` comes last exactly when following; `-n` is given, right after the unit flags, exactly when not. */
  lemma JournalPartsOrder(names: seq<string>, follow: bool, lines: int, level: string, since: string, grep: string)
    ensures var parts := JournalParts(names, follow, lines, level, since, grep);
      parts[0] == "sudo journalctl"
      && (parts[|parts| - 1] == "-f" <==> follow)
      && (!follow ==> parts[2] == "-n " + IntToString(lines))
      && (follow ==> "-n " + IntToString(lines) !in parts)
  {
    var flags, n, filters := Join(UnitFlags(names), " "), "-n " + IntToString(lines), Filters(level, since, grep);
    FiltersShape(level, since, grep);
    UnitFlagsPrefix(names);
    LinesFlag(IntToString(lines));
    PartsOrder(JournalParts(names, follow, lines, level, since, grep), flags, n, filters, follow);
  }

  lemma LinesFlag(count: string)
    ensures |"-n " + count| >= 3 && ("-n " + count)[1] == 'n'
  {
  }

  lemma PartsOrder(parts: seq<string>, flags: string, n: string, filters: seq<string>, follow: bool)
    requires parts == ["sudo journalctl", flags] + Opt(!follow, n) + filters + Opt(follow, "-f")
    requires flags == "" || (|flags| >= 2 && flags[1] == 'u')
    requires |n| >= 3 && n[1] == 'n'
    requires forall x :: x in filters ==> |x| >= 3 && x[1] != 'n'
    ensures parts[0] == "sudo journalctl"
    ensures parts[|parts| - 1] == "-f" <==> follow
    ensures !follow ==> parts[2] == n
    ensures follow ==> n !in parts
  {
    if !follow {
      var last := parts[|parts| - 1];
      assert last in parts;
      assert last == n || last in filters || last == "sudo journalctl" || last == flags;
    }
  }

  lemma FiltersShape(level: string, since: string, grep: string)
    ensures forall x :: x in Filters(level, since, grep) ==> |x| >= 3 && x[1] != 'n'
  {
    OptShape(level != "", "-p ", level);
    OptShape(since != "", "--since ", Shell.Quote(since));
    OptShape(grep != "", "-g ", Shell.Quote(grep));
  }

  lemma OptShape(given: bool, flag: string, value: string)
    requires |flag| >= 3 && flag[1] != 'n'
    ensures forall x :: x in Opt(given, flag + value) ==> |x| >= 3 && x[1] != 'n'
  {
    assert (flag + value)[1] == flag[1];
  }

  lemma UnitFlagsPrefix(names: seq<string>)
    ensures var flags := Join(UnitFlags(names), " "); flags == "" || (|flags| >= 2 && flags[1] == 'u')
  {
    var flags := UnitFlags(names);
    if |flags| == 1 {
      assert Join(flags, " ") == flags[0];
      assert flags[0][1] == 'u';
    } else if |flags| > 1 {
      assert Join(flags, " ") == flags[0] + " " + Join(flags[1..], " ");
      assert Join(flags, " ")[1] == flags[0][1] == 'u';
    }
  }

  // ---------------------------------------------------------------------------
  // cat

  datatype CatAction =
    | ShowOptions(options: string)
    | CatCaddy
    | CatUnits(command: string)
    | NothingToCat

  /** `cat`: options, the Caddy configuration, every unit, or the templates a name resolves to. */
  function Cat(units: seq<DeployedUnit>, name: string, caddyfileExists: bool, options: string)
    : Result<CatAction, Exit>
  {
    if name == "" then Ok(ShowOptions(options))
    else if name == "caddy" && caddyfileExists then Ok(CatCaddy)
    else
      var resolved := if name == "units" then Ok(SystemdUnits(units)) else CommandBase.Resolve(units, name, true);
      match resolved
      case Err(e) => Err(e)
      case Ok(names) =>
        if names == [] then Ok(NothingToCat)
        else Ok(CatUnits("sudo systemctl cat " + Join(names, " ") + " --no-pager"))
  }

  /** `cat <service>` shows the installed unit files of that service, not its instances. */
  lemma CatServiceShowsFiles(units: seq<DeployedUnit>, du: DeployedUnit, caddyfileExists: bool, options: string)
    requires CommandBase.FindUnit(units, du.name) == Some(du) && CommandBase.PlainName(du.name)
    requires du.name != "units" && du.name != "caddy"
    ensures Cat(units, du.name, caddyfileExists, options)
         == Ok(CatUnits("sudo systemctl cat " + Join(FileNames(du), " ") + " --no-pager"))
  {
    CommandBase.ResolveKnown(units, du, du.name, CommandBase.NoSuffix, true);
    CommandBase.BareNameUnits(du);
  }
}
