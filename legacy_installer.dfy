// The older zipapp installer (`_installer/__main__.py`), its systemd and Caddy
// phases and `uninstall`. It runs as the deploy user and reaches root through
// `sudo`; its file writes and removals (`sudo tee`, `sudo rm -f`,
// `sudo mkdir -p`) are modelled by their effect on the host, and the other
// commands it runs are logged. A command run with `check=True` that fails
// raises, and `main` turns any exception into exit status 1.

module LegacyInstaller {
  import opened Wrappers
  import opened Strs
  import opened Units
  import opened Commands
  import opened SystemdHost
  import Installer

  datatype Config = Config(
    appName: string,
    appUser: string,
    units: seq<DeployedUnit>,
    webserverEnabled: bool,
    caddyConfigPath: string,
    /** `Path(caddy_config_path).parent` */
    caddyConfigDir: string,
    /** The path of the bundle's `Caddyfile`. */
    bundleCaddyfile: string)

  /** How `cp && chown && systemctl reload caddy` ends. */
  datatype CaddyInstall = CaddyInstalled | CopyFailed | FailedAfterCopy

  /** What the host answers during an install. */
  datatype Outcomes = Outcomes(
    /** stdout of the listing of installed service unit files */
    listing: string,
    enableOk: bool,
    restartCode: int,
    /** stripped stdout of `systemctl is-active`, per unit */
    status: map<string, string>,
    caddyfileValid: bool,
    caddyInstall: CaddyInstall)

  datatype Outcome = Installed | EnableFailed | RestartFailed | CaddyFailed

  /** Every failure ends the installer with status 1. */
  function ExitCode(o: Outcome): int {
    if o.Installed? then 0 else Installer.GeneralError
  }

  // ---------------------------------------------------------------------------
  // Installed and stale units.

  /** `stdout.strip().split("\n")`, or no unit at all when the stripped output is empty. */
  function InstalledUnits(stdout: string): (r: seq<string>)
    ensures r == [] <==> Strip(stdout) == []
    ensures forall i :: 0 <= i < |r| ==> '\n' !in r[i]
  {
    StrippedLines(stdout)
  }

  /** A stale template is only disabled; any other stale unit is stopped, then disabled. */
  function StopOrDisable(unit: string): Command {
    if EndsWith(unit, "@.service") then SudoDisableTemplate(unit) else SudoStopAndDisable(unit)
  }

  function DisableCommands(stale: seq<string>): seq<Command> {
    if stale == [] then []
    else
      var front, last := stale[..|stale| - 1], stale[|stale| - 1];
      DisableCommands(front) + [StopOrDisable(last), SudoResetFailed(last)]
  }

  /** Each stale unit gets its stop-or-disable command, then its reset. */
  lemma {:induction false} DisableCommandsShape(stale: seq<string>)
    ensures |DisableCommands(stale)| == 2 * |stale|
    ensures forall i :: 0 <= i < |stale| ==>
      DisableCommands(stale)[2 * i] == StopOrDisable(stale[i]) && DisableCommands(stale)[2 * i + 1] == SudoResetFailed(stale[i])
    decreases |stale|
  {
    if stale != [] {
      var front, last := stale[..|stale| - 1], stale[|stale| - 1];
      var d := DisableCommands(front);
      assert DisableCommands(stale) == d + [StopOrDisable(last), SudoResetFailed(last)];
      DisableCommandsShape(front);
      forall i | 0 <= i < |stale|
        ensures DisableCommands(stale)[2 * i] == StopOrDisable(stale[i])
        ensures DisableCommands(stale)[2 * i + 1] == SudoResetFailed(stale[i])
      {
        if i < |front| {
          assert stale[i] == front[i];
        }
      }
    }
  }

  method DisableStale(h: Host, stale: seq<string>)
    modifies h
    ensures h.commands == old(h.commands) + DisableCommands(stale)
    ensures h.system == old(h.system) && h.wants == old(h.wants) && h.dropins == old(h.dropins) && h.caddy == old(h.caddy)
  {
    for i := 0 to |stale|
      invariant h.commands == old(h.commands) + DisableCommands(stale[..i])
      invariant h.system == old(h.system) && h.wants == old(h.wants) && h.dropins == old(h.dropins) && h.caddy == old(h.caddy)
    {
      assert stale[..i + 1][..i] == stale[..i];
      DisableOne(h, stale[i]);
    }
    assert stale[..|stale|] == stale;
  }

  method DisableOne(h: Host, unit: string)
    modifies h
    ensures h.commands == old(h.commands) + [StopOrDisable(unit), SudoResetFailed(unit)]
    ensures h.system == old(h.system) && h.wants == old(h.wants) && h.dropins == old(h.dropins) && h.caddy == old(h.caddy)
  {
    if EndsWith(unit, "@.service") {
      h.Run(SudoDisableTemplate(unit));
    } else {
      h.Run(SudoStopAndDisable(unit));
    }
    h.Run(SudoResetFailed(unit));
  }

  /** The command for a stale unit stops it exactly when the unit is not a template. */
  lemma StopsUnlessTemplate(unit: string)
    ensures StartsWith(Render(StopOrDisable(unit)), "sudo systemctl stop ") <==> !EndsWith(unit, "@.service")
  {
    var text := Render(StopOrDisable(unit));
    if EndsWith(unit, "@.service") {
      assert text == "sudo systemctl disable " + unit + " --quiet";
      assert text[15] == 'd';
    } else {
      assert text == "sudo systemctl stop " + unit + " --quiet && sudo systemctl disable " + unit + " --quiet";
      assert text[..20] == "sudo systemctl stop ";
    }
  }

  // ---------------------------------------------------------------------------
  // Drop-in clean-up.

  /** How the installer names a drop-in file: `{dir}/{file}`. */
  function DropinKey(dir: string, name: string): string {
    dir + "/" + name
  }

  /** The names of the bundle's common drop-ins, as a set. */
  function CommonNames(common: seq<Conf>): set<string> {
    set c | c in common :: c.name
  }

  /** Every common drop-in, in every unit's drop-in directory. */
  function ExpectedCommon(units: seq<DeployedUnit>, names: set<string>): set<string> {
    set u, n | u in units && n in names :: DropinKey(DropinDir(u), n)
  }

  /** A service drop-in directory's files, in the directory of the first unit it matches. */
  function ExpectedService(units: seq<DeployedUnit>, dirs: seq<ServiceDropinDir>): set<string> {
    if dirs == [] then {}
    else
      var last := dirs[|dirs| - 1];
      ExpectedService(units, dirs[..|dirs| - 1])
      + match MatchingUnit(units, ServiceFileOf(last))
        case None => {}
        case Some(u) => set c | c in last.confs :: DropinKey(DropinDir(u), c.name)
  }

  /** `expected_dropins` */
  function ExpectedDropins(units: seq<DeployedUnit>, bundle: Bundle): set<string> {
    ExpectedCommon(units, CommonNames(bundle.common)) + ExpectedService(units, bundle.services)
  }

  method CollectExpected(units: seq<DeployedUnit>, bundle: Bundle) returns (expected: set<string>)
    ensures expected == ExpectedDropins(units, bundle)
  {
    var names := CommonNames(bundle.common);
    expected := {};
    for i := 0 to |units|
      invariant expected == ExpectedCommon(units[..i], names)
    {
      expected := AddCommon(expected, units[..i], units[i], names);
      assert units[..i + 1] == units[..i] + [units[i]];
    }
    assert units[..|units|] == units;
    ghost var common := expected;
    for i := 0 to |bundle.services|
      invariant expected == common + ExpectedService(units, bundle.services[..i])
    {
      var dir := bundle.services[i];
      assert bundle.services[..i + 1][..i] == bundle.services[..i];
      var found := FindMatchingUnit(units, ServiceFileOf(dir));
      if found.Some? {
        expected := AddConfs(expected, DropinDir(found.value), dir.confs);
      }
    }
    assert bundle.services[..|bundle.services|] == bundle.services;
  }

  /** Adds one unit's common drop-ins, name by name. */
  method AddCommon(expected: set<string>, seen: seq<DeployedUnit>, u: DeployedUnit, names: set<string>) returns (r: set<string>)
    requires expected == ExpectedCommon(seen, names)
    ensures r == ExpectedCommon(seen + [u], names)
  {
    r := expected;
    var rest := names;
    while rest != {}
      invariant rest <= names
      invariant r == expected + set n | n in names - rest :: DropinKey(DropinDir(u), n)
      decreases rest
    {
      var n :| n in rest;
      r := r + {DropinKey(DropinDir(u), n)};
      rest := rest - {n};
    }
    forall k | k in ExpectedCommon(seen + [u], names) ensures k in r {
      var v, n :| v in seen + [u] && n in names && k == DropinKey(DropinDir(v), n);
      if v != u {
        assert v in seen;
      }
    }
  }

  /** Adds the drop-ins of one service directory to the directory `dir`. */
  method AddConfs(expected: set<string>, dir: string, confs: seq<Conf>) returns (r: set<string>)
    ensures r == expected + set c | c in confs :: DropinKey(dir, c.name)
  {
    r := expected;
    for j := 0 to |confs|
      invariant r == expected + set c | c in confs[..j] :: DropinKey(dir, c.name)
    {
      assert forall c :: c in confs[..j + 1] <==> c in confs[..j] || c == confs[j];
      r := r + {DropinKey(dir, confs[j].name)};
    }
    assert confs[..|confs|] == confs;
  }

  /** A directory keeps its files except the `.conf` files that are not expected. */
  function CleanedDir(files: Files, dir: string, expected: set<string>): (r: Files)
    ensures forall n :: n in r ==> n in files && r[n] == files[n]
    ensures forall n :: n in r && EndsWith(n, ".conf") ==> DropinKey(dir, n) in expected
    ensures forall n :: n in files && (EndsWith(n, ".conf") ==> DropinKey(dir, n) in expected) ==> n in r
  {
    map n | n in files && (EndsWith(n, ".conf") ==> DropinKey(dir, n) in expected) :: files[n]
  }

  /**
   * Each `{app}*.d` directory loses its unexpected `.conf` files, and is
   * removed when that leaves it empty; other directories are untouched.
   */
  function Cleaned(dropins: map<string, Files>, app: string, expected: set<string>): (r: map<string, Files>)
    ensures forall d :: d in r && MatchesGlob(d, app, ".d") ==> r[d] != map[]
    ensures forall d :: d in dropins && !MatchesGlob(d, app, ".d") ==> d in r && r[d] == dropins[d]
    ensures forall d :: d in r ==> d in dropins
  {
    map d | d in dropins && CleanedEntry(dropins[d], d, app, expected).Some? :: CleanedEntry(dropins[d], d, app, expected).value
  }

  /** What becomes of one directory: None when it is removed. */
  function CleanedEntry(files: Files, d: string, app: string, expected: set<string>): Option<Files> {
    if !MatchesGlob(d, app, ".d") then Some(files)
    else if CleanedDir(files, d, expected) == map[] then None
    else Some(CleanedDir(files, d, expected))
  }

  /** Removes the unexpected `.conf` files of one directory, file by file. */
  method CleanDir(files: Files, dir: string, expected: set<string>) returns (kept: Files)
    ensures kept == CleanedDir(files, dir, expected)
  {
    kept := files;
    var rest := files.Keys;
    while rest != {}
      invariant rest <= files.Keys
      invariant forall n :: n in kept <==> n in files && (n in rest || !EndsWith(n, ".conf") || DropinKey(dir, n) in expected)
      invariant forall n :: n in kept ==> kept[n] == files[n]
      decreases rest
    {
      var n :| n in rest;
      if EndsWith(n, ".conf") && DropinKey(dir, n) !in expected {
        kept := kept - {n};
      }
      rest := rest - {n};
    }
  }

  method CleanStaleDropins(h: Host, app: string, expected: set<string>)
    modifies h
    ensures h.dropins == Cleaned(old(h.dropins), app, expected)
    ensures h.system == old(h.system) && h.wants == old(h.wants) && h.caddy == old(h.caddy) && h.commands == old(h.commands)
  {
    ghost var start := h.dropins;
    var rest := h.dropins.Keys;
    while rest != {}
      invariant rest <= start.Keys
      invariant forall d :: d in rest ==> Entry(h.dropins, d) == Entry(start, d)
      invariant forall d :: d !in start ==> Entry(h.dropins, d).None?
      invariant forall d :: d in start && d !in rest ==> CleanedEntry(start[d], d, app, expected) == Entry(h.dropins, d)
      invariant h.system == old(h.system) && h.wants == old(h.wants) && h.caddy == old(h.caddy) && h.commands == old(h.commands)
      decreases rest
    {
      var d :| d in rest;
      assert Entry(h.dropins, d) == Entry(start, d);
      CleanOne(h, app, expected, d);
      rest := rest - {d};
    }
    CleanedByEntries(h.dropins, start, app, expected);
  }

  /** A map whose every entry is the cleaned entry of `start` is the cleaned map. */
  lemma CleanedByEntries(m: map<string, Files>, start: map<string, Files>, app: string, expected: set<string>)
    requires forall d :: d !in start ==> Entry(m, d).None?
    requires forall d :: d in start ==> CleanedEntry(start[d], d, app, expected) == Entry(m, d)
    ensures m == Cleaned(start, app, expected)
  {
    var c := Cleaned(start, app, expected);
    forall d ensures d in m <==> d in c {
      if d !in start { assert Entry(m, d).None?; }
    }
    forall d | d in m ensures m[d] == c[d] {
      assert Entry(m, d) == CleanedEntry(start[d], d, app, expected);
    }
  }

  /** The directory `d` of `dropins`, if there is one. */
  function Entry(dropins: map<string, Files>, d: string): Option<Files> {
    if d in dropins then Some(dropins[d]) else None
  }

  /** Cleans the directory `d`, leaving the others alone. */
  method CleanOne(h: Host, app: string, expected: set<string>, d: string)
    requires d in h.dropins
    modifies h
    ensures Entry(h.dropins, d) == CleanedEntry(old(h.dropins)[d], d, app, expected)
    ensures forall e :: e != d ==> Entry(h.dropins, e) == Entry(old(h.dropins), e)
    ensures h.system == old(h.system) && h.wants == old(h.wants) && h.caddy == old(h.caddy) && h.commands == old(h.commands)
  {
    if MatchesGlob(d, app, ".d") {
      var kept := CleanDir(h.dropins[d], d, expected);
      ReportsEmptyExactly(kept == map[]);
      if ReportsEmpty(EmptyProbeOutput(kept == map[])) {
        h.dropins := h.dropins - {d};
      } else {
        h.dropins := h.dropins[d := kept];
      }
    }
  }

  // ---------------------------------------------------------------------------
  // The emptiness probe: `[ -z "$(ls -A dir)" ] && echo empty || echo not_empty`.

  function EmptyProbeOutput(isEmpty: bool): string {
    if isEmpty then "empty\n" else "not_empty\n"
  }

  /** As written: the directory is taken to be empty when the output contains `empty`. */
  predicate SeemsEmpty(stdout: string) {
    Contains(stdout, "empty")
  }

  /** `not_empty` contains `empty`, so `rmdir` is attempted on every directory. */
  lemma RmdirAlwaysAttempted(isEmpty: bool)
    ensures SeemsEmpty(EmptyProbeOutput(isEmpty))
  {
    if !isEmpty {
      var s := "not_empty\n";
      assert s[4..] == "empty\n" && "empty" <= s[4..];
      assert s[3..][1..] == s[4..] && Contains(s[3..], "empty");
      assert s[2..][1..] == s[3..] && Contains(s[2..], "empty");
      assert s[1..][1..] == s[2..] && Contains(s[1..], "empty");
      assert s[1..] == s[1..] && Contains(s, "empty");
    }
  }

  /** Corrected: the probe reported exactly `empty`. */
  predicate ReportsEmpty(stdout: string) {
    Strip(stdout) == "empty"
  }

  lemma {:induction false} ReportsEmptyExactly(isEmpty: bool)
    ensures ReportsEmpty(EmptyProbeOutput(isEmpty)) <==> isEmpty
  {
    assert "empty\n" == "empty" + ['\n'] && "not_empty\n" == "not_empty" + ['\n'];
    StripOf("empty", '\n');
    StripOf("not_empty", '\n');
    assert |"not_empty"| != |"empty"|;
  }

  /** Stripping a word followed by one whitespace character gives the word back. */
  lemma StripOf(w: string, c: char)
    requires IsSpace(c) && w != [] && !IsSpace(w[0]) && !IsSpace(w[|w| - 1])
    ensures Strip(w + [c]) == w
  {
    assert StripLeft(w + [c]) == w + [c];
    assert StripRight(w + [c]) == StripRight(w) by {
      assert (w + [c])[..|w + [c]| - 1] == w;
    }
    assert StripRight(w) == w;
  }

  // ---------------------------------------------------------------------------
  // Enabling and restarting.

  /**
   * The older installer's list of units to enable and restart: each unit's
   * instances, then its socket and timer. Its template and regular branches
   * add the same names.
   */
  method CollectActiveUnits(units: seq<DeployedUnit>) returns (active: seq<string>)
    ensures active == SystemdUnits(units)
  {
    active := [];
    for i := 0 to |units|
      invariant active == SystemdUnits(units[..i])
    {
      var u := units[i];
      var more := ActiveNames(u);
      SystemdUnitsStep(units, i);
      active := active + more;
    }
    assert units[..|units|] == units;
  }

  /** One unit's share of the loop: its instances, then its socket and timer, both branches alike. */
  method ActiveNames(u: DeployedUnit) returns (more: seq<string>)
    ensures more == RuntimeNames(u)
  {
    more := ServiceInstances(u);
    if !u.isTemplate {
      if TemplateSocketName(u).Some? { more := more + [TemplateSocketName(u).value]; }
      if TemplateTimerName(u).Some? { more := more + [TemplateTimerName(u).value]; }
    } else {
      if TemplateSocketName(u).Some? { more := more + [TemplateSocketName(u).value]; }
      if TemplateTimerName(u).Some? { more := more + [TemplateTimerName(u).value]; }
    }
  }

  /** After a failed restart: an `is-active` query per unit, and the journal of each one not active. */
  function Probe(active: seq<string>, status: map<string, string>): seq<Command> {
    if active == [] then []
    else
      var n := active[|active| - 1];
      Probe(active[..|active| - 1], status)
      + [SudoIsActive(n)]
      + (if Installer.IsActive(status, n) then [] else [SudoJournal(n, 30)])
  }

  method ReportFailures(h: Host, active: seq<string>, status: map<string, string>)
    modifies h
    ensures h.commands == old(h.commands) + Probe(active, status)
    ensures h.system == old(h.system) && h.wants == old(h.wants) && h.dropins == old(h.dropins) && h.caddy == old(h.caddy)
  {
    for i := 0 to |active|
      invariant h.commands == old(h.commands) + Probe(active[..i], status)
      invariant h.system == old(h.system) && h.wants == old(h.wants) && h.dropins == old(h.dropins) && h.caddy == old(h.caddy)
    {
      assert active[..i + 1][..i] == active[..i];
      h.Run(SudoIsActive(active[i]));
      if !Installer.IsActive(status, active[i]) {
        h.Run(SudoJournal(active[i], 30));
      }
    }
    assert active[..|active|] == active;
  }

  /** The journal of a unit is shown exactly when it is listed and not active. */
  lemma {:induction false} JournalsOfInactive(active: seq<string>, status: map<string, string>, n: string)
    ensures SudoJournal(n, 30) in Probe(active, status) <==> n in active && !Installer.IsActive(status, n)
    decreases |active|
  {
    if active != [] {
      var front := active[..|active| - 1];
      JournalsOfInactive(front, status, n);
      assert active == front + [active[|active| - 1]];
    }
  }

  // ---------------------------------------------------------------------------
  // Caddy.

  /** The Caddy commands: only with the webserver enabled; the copy only for a valid Caddyfile. */
  function CaddyCommands(cfg: Config, caddyfile: Option<string>, out: Outcomes): seq<Command> {
    if !cfg.webserverEnabled then []
    else
      [SudoMkdir(cfg.caddyConfigDir)]
      + if caddyfile.None? then []
        else [CaddyValidate(cfg.bundleCaddyfile)]
             + (if out.caddyfileValid then [SudoInstallCaddyfile(cfg.bundleCaddyfile, cfg.caddyConfigPath)] else [])
  }

  /** The installed Caddy configuration: the bundle's once copied, otherwise unchanged. */
  function CaddyAfter(previous: Option<string>, cfg: Config, caddyfile: Option<string>, out: Outcomes): Option<string> {
    if cfg.webserverEnabled && caddyfile.Some? && out.caddyfileValid && !out.caddyInstall.CopyFailed?
    then Some(caddyfile.value)
    else previous
  }

  method ConfigureCaddy(h: Host, cfg: Config, caddyfile: Option<string>, out: Outcomes) returns (ok: bool)
    modifies h
    ensures ok <==> !(cfg.webserverEnabled && caddyfile.Some? && out.caddyfileValid && !out.caddyInstall.CaddyInstalled?)
    ensures h.caddy == CaddyAfter(old(h.caddy), cfg, caddyfile, out)
    ensures h.commands == old(h.commands) + CaddyCommands(cfg, caddyfile, out)
    ensures h.system == old(h.system) && h.wants == old(h.wants) && h.dropins == old(h.dropins)
  {
    ok := true;
    if cfg.webserverEnabled {
      h.Run(SudoMkdir(cfg.caddyConfigDir));
      if caddyfile.Some? {
        h.Run(CaddyValidate(cfg.bundleCaddyfile));
        if out.caddyfileValid {
          h.Run(SudoInstallCaddyfile(cfg.bundleCaddyfile, cfg.caddyConfigPath));
          if !out.caddyInstall.CopyFailed? {
            h.caddy := Some(caddyfile.value);
          }
          ok := out.caddyInstall.CaddyInstalled?;
        }
      }
    }
  }

  // ---------------------------------------------------------------------------
  // `install`, systemd and Caddy phases.

  function InstallOutcome(cfg: Config, caddyfile: Option<string>, out: Outcomes): Outcome {
    if !out.enableOk then EnableFailed
    else if out.restartCode != 0 then RestartFailed
    else if cfg.webserverEnabled && caddyfile.Some? && out.caddyfileValid && !out.caddyInstall.CaddyInstalled? then CaddyFailed
    else Installed
  }

  /** After enabling: the restart, then the failure report or the Caddy commands. */
  function AfterEnableCommands(cfg: Config, caddyfile: Option<string>, out: Outcomes): seq<Command> {
    [SudoRestart(SystemdUnits(cfg.units))] + AfterRestartCommands(cfg, caddyfile, out)
  }

  function AfterRestartCommands(cfg: Config, caddyfile: Option<string>, out: Outcomes): seq<Command> {
    if out.restartCode != 0 then Probe(SystemdUnits(cfg.units), out.status) else CaddyCommands(cfg, caddyfile, out)
  }

  function RestartCommands(cfg: Config, caddyfile: Option<string>, out: Outcomes): seq<Command> {
    [SudoEnable(SystemdUnits(cfg.units))]
    + if out.enableOk then AfterEnableCommands(cfg, caddyfile, out) else []
  }

  function SyncedDropins(dropins: map<string, Files>, cfg: Config, bundle: Bundle): map<string, Files> {
    WithServiceDropins(
      WithCommon(Cleaned(dropins, cfg.appName, ExpectedDropins(cfg.units, bundle)), cfg.units, bundle.common),
      cfg.units, bundle.services)
  }

  /** The caddy state after an install. */
  function CaddyAfterInstall(previous: Option<string>, cfg: Config, caddyfile: Option<string>, out: Outcomes): Option<string> {
    if out.enableOk && out.restartCode == 0 then CaddyAfter(previous, cfg, caddyfile, out) else previous
  }

  /** `caddyfile` is the bundle's Caddyfile, when it has one. */
  method Install(h: Host, cfg: Config, bundle: Bundle, caddyfile: Option<string>, out: Outcomes) returns (o: Outcome)
    requires SourcesPresent(cfg.units, bundle.sources)
    modifies h
    ensures o == InstallOutcome(cfg, caddyfile, out)
    ensures h.system == WithUnits(Pruned(old(h.system), cfg.appName, ValidUnits(cfg.units)), cfg.units, bundle.sources)
    ensures h.wants == PrunedNames(old(h.wants), cfg.appName, ValidUnits(cfg.units))
    ensures h.dropins == SyncedDropins(old(h.dropins), cfg, bundle)
    ensures h.caddy == CaddyAfterInstall(old(h.caddy), cfg, caddyfile, out)
    ensures h.commands == old(h.commands) + [ListServiceUnitFiles(cfg.appName)]
                          + DisableCommands(Installer.Stale(InstalledUnits(out.listing), ValidUnits(cfg.units)))
                          + RestartCommands(cfg, caddyfile, out)
  {
    var valid := CollectValidUnits(cfg.units);
    h.Run(ListServiceUnitFiles(cfg.appName));
    DisableStale(h, Installer.Stale(InstalledUnits(out.listing), valid));
    h.RemoveStaleFiles(cfg.appName, valid);
    var expected := CollectExpected(cfg.units, bundle);
    CleanStaleDropins(h, cfg.appName, expected);
    h.WriteUnitFiles(cfg.units, bundle.sources);
    h.DeployCommonDropins(cfg.units, bundle.common);
    h.DeployServiceDropins(cfg.units, bundle.services);
    o := Restart(h, cfg, caddyfile, out);
  }

  method Restart(h: Host, cfg: Config, caddyfile: Option<string>, out: Outcomes) returns (o: Outcome)
    modifies h
    ensures o == InstallOutcome(cfg, caddyfile, out)
    ensures h.system == old(h.system) && h.wants == old(h.wants) && h.dropins == old(h.dropins)
    ensures h.caddy == CaddyAfterInstall(old(h.caddy), cfg, caddyfile, out)
    ensures h.commands == old(h.commands) + RestartCommands(cfg, caddyfile, out)
  {
    var active := CollectActiveUnits(cfg.units);
    h.Run(SudoEnable(active));
    if !out.enableOk {
      return EnableFailed;
    }
    ghost var enabled := h.commands;
    o := RestartAndConfigure(h, cfg, caddyfile, out);
    AppendAssoc(old(h.commands), [SudoEnable(active)], AfterEnableCommands(cfg, caddyfile, out));
  }

  method RestartAndConfigure(h: Host, cfg: Config, caddyfile: Option<string>, out: Outcomes) returns (o: Outcome)
    requires out.enableOk
    modifies h
    ensures o == InstallOutcome(cfg, caddyfile, out)
    ensures h.system == old(h.system) && h.wants == old(h.wants) && h.dropins == old(h.dropins)
    ensures h.caddy == CaddyAfterInstall(old(h.caddy), cfg, caddyfile, out)
    ensures h.commands == old(h.commands) + AfterEnableCommands(cfg, caddyfile, out)
  {
    var active := CollectActiveUnits(cfg.units);
    h.Run(SudoRestart(active));
    ghost var restarted := h.commands;
    o := AfterRestart(h, cfg, caddyfile, out, active);
    AppendAssoc(old(h.commands), [SudoRestart(active)], AfterRestartCommands(cfg, caddyfile, out));
  }

  method AfterRestart(h: Host, cfg: Config, caddyfile: Option<string>, out: Outcomes, active: seq<string>) returns (o: Outcome)
    requires out.enableOk && active == SystemdUnits(cfg.units)
    modifies h
    ensures o == InstallOutcome(cfg, caddyfile, out)
    ensures h.system == old(h.system) && h.wants == old(h.wants) && h.dropins == old(h.dropins)
    ensures h.caddy == CaddyAfterInstall(old(h.caddy), cfg, caddyfile, out)
    ensures h.commands == old(h.commands) + AfterRestartCommands(cfg, caddyfile, out)
  {
    if out.restartCode != 0 {
      ReportFailures(h, active, out.status);
      return RestartFailed;
    }
    var ok := ConfigureCaddy(h, cfg, caddyfile, out);
    o := if ok then Installed else CaddyFailed;
  }

  // ---------------------------------------------------------------------------
  // Properties of `install`.

  /** Exit status 1 exactly when enabling, the restart or the Caddy copy fails; 0 otherwise. */
  lemma ExitCodes(cfg: Config, caddyfile: Option<string>, out: Outcomes)
    ensures ExitCode(InstallOutcome(cfg, caddyfile, out)) == 1 <==>
      !out.enableOk || out.restartCode != 0
      || (cfg.webserverEnabled && caddyfile.Some? && out.caddyfileValid && !out.caddyInstall.CaddyInstalled?)
    ensures ExitCode(InstallOutcome(cfg, caddyfile, out)) == 0 || ExitCode(InstallOutcome(cfg, caddyfile, out)) == 1
  {
  }

  /** Unlike the current installer, a failed restart never exits with the start-failure status 3. */
  lemma RestartFailureIsGeneralError(cfg: Config, caddyfile: Option<string>, out: Outcomes)
    requires out.enableOk && out.restartCode != 0
    ensures ExitCode(InstallOutcome(cfg, caddyfile, out)) == Installer.GeneralError != Installer.ServiceStartFailed
  {
  }

  // ---------------------------------------------------------------------------
  // `uninstall`.

  predicate TemplateName(n: string) {
    EndsWith(n, "@.service") || EndsWith(n, "@.socket") || EndsWith(n, "@.timer")
  }

  /** The names whose suffix marks them as templates (`template`), or the others. */
  function NamesWhere(names: seq<string>, template: bool): seq<string> {
    if names == [] then []
    else
      var n := names[|names| - 1];
      NamesWhere(names[..|names| - 1], template) + (if TemplateName(n) == template then [n] else [])
  }

  lemma {:induction false} NamesWhereMembers(names: seq<string>, template: bool, n: string)
    ensures n in NamesWhere(names, template) <==> n in names && TemplateName(n) == template
    decreases |names|
  {
    if names != [] {
      var front := names[..|names| - 1];
      NamesWhereMembers(front, template, n);
      assert names == front + [names[|names| - 1]];
    }
  }

  function DisableUnitsCommands(regular: seq<string>, template: seq<string>): seq<Command> {
    (if regular != [] then [SudoDisableNow(regular)] else [])
    + (if template != [] then [SudoDisableOnly(template)] else [])
  }

  /** The commands after the Caddy step: the user check, then the removal of the user when it exists. */
  function UserCommands(user: string, userExists: bool): seq<Command> {
    [UserExists(user)]
    + (if userExists then [SudoKillProcesses(user), SudoForceKillProcesses(user), SudoDeleteUser(user)] else [])
  }

  /**
   * `caddyReloaded` is whether `rm -f && systemctl reload caddy` succeeded;
   * when it fails the installer stops there, with status 1.
   */
  function UninstallCommands(cfg: Config, caddyReloaded: bool, userExists: bool): seq<Command> {
    var valid := ValidUnits(cfg.units);
    DisableUnitsCommands(NamesWhere(valid, false), NamesWhere(valid, true))
    + [SudoReloadAndResetFailed]
    + CaddyAndUserCommands(cfg, caddyReloaded, userExists)
  }

  function CaddyAndUserCommands(cfg: Config, caddyReloaded: bool, userExists: bool): seq<Command> {
    (if cfg.webserverEnabled then [SudoRemoveCaddyfile(cfg.caddyConfigPath)] else [])
    + (if cfg.webserverEnabled && !caddyReloaded then [] else UserCommands(cfg.appUser, userExists))
  }

  method Uninstall(h: Host, cfg: Config, caddyReloaded: bool, userExists: bool) returns (code: int)
    modifies h
    ensures code == if cfg.webserverEnabled && !caddyReloaded then 1 else 0
    ensures h.system == Installer.Uninstalled(old(h.system), cfg.appName, ValidUnits(cfg.units))
    ensures h.caddy == if cfg.webserverEnabled then None else old(h.caddy)
    ensures h.commands == old(h.commands) + UninstallCommands(cfg, caddyReloaded, userExists)
    ensures h.wants == old(h.wants) && h.dropins == old(h.dropins)
  {
    var valid := CollectValidUnits(cfg.units);
    var regular := NamesWhere(valid, false);
    var template := NamesWhere(valid, true);
    DisableAndRemove(h, cfg.appName, valid, regular, template);
    code := RemoveCaddyAndUser(h, cfg, caddyReloaded, userExists);
    ghost var disabled := DisableUnitsCommands(regular, template);
    AppendAssoc(old(h.commands), disabled, [SudoReloadAndResetFailed]);
    AppendAssoc(old(h.commands), disabled + [SudoReloadAndResetFailed], CaddyAndUserCommands(cfg, caddyReloaded, userExists));
  }

  /** Disables the units, removes their files, then reloads systemd. */
  method DisableAndRemove(h: Host, app: string, valid: seq<string>, regular: seq<string>, template: seq<string>)
    modifies h
    ensures h.commands == old(h.commands) + DisableUnitsCommands(regular, template) + [SudoReloadAndResetFailed]
    ensures h.system == Installer.Uninstalled(old(h.system), app, valid)
    ensures h.caddy == old(h.caddy) && h.wants == old(h.wants) && h.dropins == old(h.dropins)
  {
    DisableUnits(h, regular, template);
    Installer.RemoveUnitFiles(h, app, valid);
    h.Run(SudoReloadAndResetFailed);
  }

  method DisableUnits(h: Host, regular: seq<string>, template: seq<string>)
    modifies h
    ensures h.commands == old(h.commands) + DisableUnitsCommands(regular, template)
    ensures h.system == old(h.system) && h.caddy == old(h.caddy) && h.wants == old(h.wants) && h.dropins == old(h.dropins)
  {
    if regular != [] {
      h.Run(SudoDisableNow(regular));
    }
    if template != [] {
      h.Run(SudoDisableOnly(template));
    }
  }

  method RemoveCaddyAndUser(h: Host, cfg: Config, caddyReloaded: bool, userExists: bool) returns (code: int)
    modifies h
    ensures code == if cfg.webserverEnabled && !caddyReloaded then 1 else 0
    ensures h.commands == old(h.commands) + CaddyAndUserCommands(cfg, caddyReloaded, userExists)
    ensures h.caddy == if cfg.webserverEnabled then None else old(h.caddy)
    ensures h.system == old(h.system) && h.wants == old(h.wants) && h.dropins == old(h.dropins)
  {
    if cfg.webserverEnabled {
      h.caddy := None;
      h.Run(SudoRemoveCaddyfile(cfg.caddyConfigPath));
      if !caddyReloaded {
        return 1;
      }
    }
    h.Run(UserExists(cfg.appUser));
    if userExists {
      h.Run(SudoKillProcesses(cfg.appUser));
      h.Run(SudoForceKillProcesses(cfg.appUser));
      h.Run(SudoDeleteUser(cfg.appUser));
    }
    return 0;
  }

  // ---------------------------------------------------------------------------
  // The suffix split agrees with the units' own template flag.

  /** `p + ext` ends in `@` + `ext` exactly when `p` ends in `@`. */
  lemma AtBeforeExtension(p: string, ext: string)
    ensures EndsWith(p + ext, "@" + ext) <==> EndsWith(p, "@")
  {
    var n := p + ext;
    if EndsWith(n, "@" + ext) {
      assert n[|n| - |ext| - 1] == '@';
      assert n[|n| - |ext| - 1] == p[|p| - 1];
      assert p[|p| - 1..] == "@";
    }
    if EndsWith(p, "@") {
      assert p[|p| - 1..] == "@";
      assert n[|n| - |ext| - 1..] == "@" + ext;
    }
  }

  /** A name ending in one unit extension does not end in another. */
  lemma ExtensionsDiffer(p: string, ext: string)
    requires ext == ".service" || ext == ".socket" || ext == ".timer"
    ensures TemplateName(p + ext) <==> EndsWith(p + ext, "@" + ext)
  {
    var n := p + ext;
    assert n[|n| - 1] == ext[|ext| - 1];
    if ext == ".service" {
      assert "@" + ext == "@.service";
      OtherEnding(n, "@.socket");
      OtherEnding(n, "@.timer");
    } else if ext == ".socket" {
      assert "@" + ext == "@.socket";
      OtherEnding(n, "@.service");
      OtherEnding(n, "@.timer");
    } else {
      assert "@" + ext == "@.timer";
      OtherEnding(n, "@.service");
      OtherEnding(n, "@.socket");
    }
  }

  /** A name does not end in a suffix whose last character it does not end in. */
  lemma OtherEnding(n: string, x: string)
    requires x != [] && n != [] && n[|n| - 1] != x[|x| - 1]
    ensures !EndsWith(n, x)
  {
    if EndsWith(n, x) {
      LastChar(n, x);
    }
  }

  lemma LastChar(n: string, x: string)
    requires x != [] && EndsWith(n, x)
    ensures n[|n| - 1] == x[|x| - 1]
  {
    assert n[|n| - |x|..][|x| - 1] == n[|n| - 1];
  }

  /** Whether the prefix of a unit's file names ends in `@`. */
  lemma UnitPrefixAt(u: DeployedUnit)
    requires !EndsWith(u.name, "@")
    ensures EndsWith(Prefix(u) + At(u.isTemplate), "@") <==> u.isTemplate
  {
    var p := Prefix(u);
    if u.isTemplate {
      assert (p + "@")[|p + "@"| - 1..] == "@";
    } else {
      assert p + At(false) == p;
      assert p[|p| - 1] != '@' by {
        if u.name == [] {
          assert p[|p| - 1] == '-';
        } else {
          assert p[|p| - 1] == u.name[|u.name| - 1];
          assert u.name[|u.name| - 1..] == [u.name[|u.name| - 1]];
        }
      }
      assert !EndsWith(p, "@") by {
        assert |p| >= 1 && p[|p| - 1..][0] == p[|p| - 1];
      }
    }
  }

  /** Every file name of a unit is a template name exactly when the unit is a template. */
  lemma FileNameTemplate(u: DeployedUnit, n: string)
    requires !EndsWith(u.name, "@")
    requires n in FileNames(u)
    ensures TemplateName(n) <==> u.isTemplate
  {
    var p := Prefix(u) + At(u.isTemplate);
    UnitPrefixAt(u);
    var ext := if n == TemplateServiceName(u) then ".service"
               else if u.hasSocket && n == TemplateSocketName(u).value then ".socket"
               else ".timer";
    assert n == p + ext;
    ExtensionsDiffer(p, ext);
    AtBeforeExtension(p, ext);
  }

  /**
   * When no unit name ends in `@`, the older installer's split by suffix
   * picks the same template names as the current installer's split by the
   * units' template flag.
   */
  lemma SplitsAgree(units: seq<DeployedUnit>, template: bool, n: string)
    requires forall u :: u in units ==> !EndsWith(u.name, "@")
    ensures n in NamesWhere(ValidUnits(units), template) <==> n in Installer.UnitsWhere(units, template)
  {
    NamesWhereMembers(ValidUnits(units), template, n);
    Installer.UnitsWhereMembers(units, template, n);
    ValidUnitsMembers(units, n);
    if n in ValidUnits(units) {
      var u :| u in units && n in FileNames(u);
      FileNameTemplate(u, n);
      if n in Installer.UnitsWhere(units, template) {
        var v :| v in units && v.isTemplate == template && n in FileNames(v);
        FileNameTemplate(v, n);
      }
    }
  }
}
