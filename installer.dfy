// The installer that ships inside every bundle (`_installer.py`): the part of
// `install` that configures systemd, checks the services' health and swaps
// the Caddy configuration (phases 3 and 4), and `uninstall`. The host is a
// `SystemdHost.Host`; the exit statuses and outputs of `systemctl` are inputs.

module Installer {
  import opened Wrappers
  import opened Strs
  import opened Units
  import opened Shell
  import opened SystemdHost
  import opened Commands

  /** `EXIT_SERVICE_START_FAILED` */
  const ServiceStartFailed := 3
  /** `main` turns any exception (a failed `check=True` command) into exit 1. */
  const GeneralError := 1

  /** The fields of `InstallConfig` these phases read. */
  datatype Config = Config(appName: string, appUser: string, units: seq<DeployedUnit>, webserverEnabled: bool)

  /** How `systemctl reload caddy` ended (it is given 20 seconds). */
  datatype CaddyReload = Reloaded | ReloadFailed | ReloadTimedOut

  /**
   * What the host answers: whether `daemon-reload && enable` succeeded, the
   * exit status of the restart, and the stripped output of
   * `systemctl is-active` per unit.
   */
  datatype Outcomes = Outcomes(enableOk: bool, restartCode: int, status: map<string, string>, caddyReload: CaddyReload)

  datatype Outcome = Installed | EnableFailed | StartFailed(failed: seq<string>)

  function ExitCode(o: Outcome): int {
    match o
    case Installed => 0
    case EnableFailed => GeneralError
    case StartFailed(_) => ServiceStartFailed
  }

  // ---------------------------------------------------------------------------
  // Stale units.

  /** The installed `{app}*` units that are no longer valid, in listing order. */
  function Stale(installed: seq<string>, valid: seq<string>): (r: seq<string>)
    ensures forall n :: n in r <==> n in installed && n !in valid
  {
    if installed == [] then []
    else
      var front, last := installed[..|installed| - 1], installed[|installed| - 1];
      assert installed == front + [last];
      Stale(front, valid) + (if last in valid then [] else [last])
  }

  /** Each stale unit is disabled, then its failed state reset. */
  function DisableCommands(stale: seq<string>): seq<Command> {
    if stale == [] then []
    else
      var front, last := stale[..|stale| - 1], stale[|stale| - 1];
      DisableCommands(front) + [DisableStaleUnit(last), ResetFailed(last)]
  }

  /** Each stale unit is disabled, then reset, in the order of the listing. */
  lemma {:induction false} DisableCommandsShape(stale: seq<string>)
    ensures |DisableCommands(stale)| == 2 * |stale|
    ensures forall i :: 0 <= i < |stale| ==>
      DisableCommands(stale)[2 * i] == DisableStaleUnit(stale[i]) && DisableCommands(stale)[2 * i + 1] == ResetFailed(stale[i])
    decreases |stale|
  {
    if stale != [] {
      var front, last := stale[..|stale| - 1], stale[|stale| - 1];
      var d := DisableCommands(front);
      assert DisableCommands(stale) == d + [DisableStaleUnit(last), ResetFailed(last)];
      DisableCommandsShape(front);
      forall i | 0 <= i < |stale|
        ensures DisableCommands(stale)[2 * i] == DisableStaleUnit(stale[i])
        ensures DisableCommands(stale)[2 * i + 1] == ResetFailed(stale[i])
      {
        if i < |front| {
          assert stale[i] == front[i];
        }
      }
    }
  }

  method DisableStale(h: Host, stale: seq<string>)
    modifies h
    ensures h.commands == old(h.commands) + DisableCommands(stale)
    ensures h.system == old(h.system) && h.wants == old(h.wants) && h.dropins == old(h.dropins) && h.caddy == old(h.caddy)
  {
    for i := 0 to |stale|
      invariant h.commands == old(h.commands) + DisableCommands(stale[..i])
      invariant h.system == old(h.system) && h.wants == old(h.wants) && h.dropins == old(h.dropins) && h.caddy == old(h.caddy)
    {
      assert stale[..i + 1][..i] == stale[..i];
      h.Run(DisableStaleUnit(stale[i]));
      h.Run(ResetFailed(stale[i]));
    }
    assert stale[..|stale|] == stale;
  }

  /** `--now` is added exactly when the stale unit is not a template. */
  lemma DisableNowUnlessTemplate(unit: string)
    ensures EndsWith(Render(DisableStaleUnit(unit)), " --now") <==> !EndsWith(unit, "@.service")
  {
    var quiet := "systemctl disable " + unit + " --quiet";
    if EndsWith(unit, "@.service") {
      assert Render(DisableStaleUnit(unit)) == quiet;
      assert quiet[|quiet| - 1] == 't';
    } else {
      assert Render(DisableStaleUnit(unit)) == quiet + " --now";
      assert (quiet + " --now")[|quiet + " --now"| - 6..] == " --now";
    }
  }

  /** `shutil.rmtree` on every directory matching `{app}*.d`. */
  function WithoutAppDropins(dropins: map<string, Files>, app: string): map<string, Files> {
    map d | d in dropins && !MatchesGlob(d, app, ".d") :: dropins[d]
  }

  method RemoveDropinDirs(h: Host, app: string)
    modifies h
    ensures h.dropins == WithoutAppDropins(old(h.dropins), app)
    ensures h.system == old(h.system) && h.wants == old(h.wants) && h.caddy == old(h.caddy) && h.commands == old(h.commands)
  {
    var rest := h.dropins.Keys;
    while rest != {}
      invariant rest <= old(h.dropins).Keys
      invariant forall d :: d in h.dropins <==> d in old(h.dropins) && (d in rest || !MatchesGlob(d, app, ".d"))
      invariant forall d :: d in h.dropins ==> h.dropins[d] == old(h.dropins)[d]
      invariant h.system == old(h.system) && h.wants == old(h.wants) && h.caddy == old(h.caddy) && h.commands == old(h.commands)
      decreases rest
    {
      var d :| d in rest;
      if MatchesGlob(d, app, ".d") {
        h.dropins := h.dropins - {d};
      }
      rest := rest - {d};
    }
  }

  // ---------------------------------------------------------------------------
  // Enabling, restarting and checking the services.

  /** The instances of the units with neither a socket nor a timer: those expected to run right away. */
  function HealthChecked(units: seq<DeployedUnit>): seq<string> {
    if units == [] then []
    else (if !units[0].hasSocket && !units[0].hasTimer then ServiceInstances(units[0]) else [])
         + HealthChecked(units[1..])
  }

  predicate IsActive(status: map<string, string>, n: string) {
    n in status && status[n] == "active"
  }

  /** The checked units whose `is-active` answer is not `active`, in order. */
  function Failed(check: seq<string>, status: map<string, string>): seq<string> {
    if check == [] then []
    else Failed(check[..|check| - 1], status) + (if IsActive(status, check[|check| - 1]) then [] else [check[|check| - 1]])
  }

  lemma {:induction false} FailedMembers(check: seq<string>, status: map<string, string>, n: string)
    ensures n in Failed(check, status) <==> n in check && !IsActive(status, n)
    decreases |check|
  {
    if check != [] {
      var front, last := check[..|check| - 1], check[|check| - 1];
      assert check == front + [last];
      FailedMembers(front, status, n);
    }
  }

  function IsActiveCommands(check: seq<string>): (r: seq<Command>)
    ensures |r| == |check|
  {
    if check == [] then []
    else IsActiveCommands(check[..|check| - 1]) + [IsActiveQuery(check[|check| - 1])]
  }

  method CheckHealth(h: Host, check: seq<string>, status: map<string, string>) returns (failed: seq<string>)
    modifies h
    ensures failed == Failed(check, status)
    ensures h.commands == old(h.commands) + IsActiveCommands(check)
    ensures h.system == old(h.system) && h.wants == old(h.wants) && h.dropins == old(h.dropins) && h.caddy == old(h.caddy)
  {
    failed := [];
    for i := 0 to |check|
      invariant failed == Failed(check[..i], status)
      invariant h.commands == old(h.commands) + IsActiveCommands(check[..i])
      invariant h.system == old(h.system) && h.wants == old(h.wants) && h.dropins == old(h.dropins) && h.caddy == old(h.caddy)
    {
      assert check[..i + 1][..i] == check[..i];
      h.Run(IsActiveQuery(check[i]));
      if !IsActive(status, check[i]) {
        failed := failed + [check[i]];
      }
    }
    assert check[..|check|] == check;
  }

  /** For each failed unit: `systemd-analyze verify` when its file exists, then its journal. */
  function Diagnostics(failed: seq<string>, system: Files): seq<Command> {
    if failed == [] then []
    else
      var n := failed[|failed| - 1];
      Diagnostics(failed[..|failed| - 1], system)
      + (if n in system then [AnalyzeVerify(n)] else [])
      + [Journal(n, 30)]
  }

  method ReportFailures(h: Host, failed: seq<string>)
    modifies h
    ensures h.commands == old(h.commands) + Diagnostics(failed, h.system)
    ensures h.system == old(h.system) && h.wants == old(h.wants) && h.dropins == old(h.dropins) && h.caddy == old(h.caddy)
  {
    for i := 0 to |failed|
      invariant h.commands == old(h.commands) + Diagnostics(failed[..i], h.system)
      invariant h.system == old(h.system) && h.wants == old(h.wants) && h.dropins == old(h.dropins) && h.caddy == old(h.caddy)
    {
      assert failed[..i + 1][..i] == failed[..i];
      var n := failed[i];
      if n in h.system {
        h.Run(AnalyzeVerify(n));
      }
      h.Run(Journal(n, 30));
    }
    assert failed[..|failed|] == failed;
  }

  // ---------------------------------------------------------------------------
  // Caddy.

  /**
   * The Caddy configuration after the new one is copied in and reloaded: on a
   * failed or timed-out reload the previous configuration comes back when it
   * was non-empty, otherwise the file is deleted.
   */
  function CaddyAfterReload(previous: Option<string>, reload: CaddyReload, config: string): Option<string> {
    if reload.Reloaded? then Some(config)
    else if previous.Some? && previous.value != "" then previous
    else None
  }

  function CaddyCommands(appUser: string, reload: CaddyReload): seq<Command> {
    [AddCaddyToGroup(appUser), ReloadCaddy]
    + (if reload.Reloaded? then [] else [Journal("caddy.service", 15)])
  }

  method ConfigureCaddy(h: Host, appUser: string, config: string, reload: CaddyReload)
    modifies h
    ensures h.caddy == CaddyAfterReload(old(h.caddy), reload, config)
    ensures h.commands == old(h.commands) + CaddyCommands(appUser, reload)
    ensures h.system == old(h.system) && h.wants == old(h.wants) && h.dropins == old(h.dropins)
  {
    h.Run(AddCaddyToGroup(appUser));
    var previous := h.caddy;
    h.caddy := Some(config);
    h.Run(ReloadCaddy);
    if !reload.Reloaded? {
      h.Run(Journal("caddy.service", 15));
      if previous.Some? && previous.value != "" {
        h.caddy := previous;
      } else {
        h.caddy := None;
      }
    }
  }

  // ---------------------------------------------------------------------------
  // `install`, phases 3 and 4.

  function InstallOutcome(units: seq<DeployedUnit>, out: Outcomes): Outcome {
    if !out.enableOk then EnableFailed
    else
      var failed := Failed(HealthChecked(units), out.status);
      if out.restartCode != 0 || failed != [] then StartFailed(failed) else Installed
  }

  function SyncedDropins(dropins: map<string, Files>, cfg: Config, bundle: Bundle): map<string, Files> {
    WithServiceDropins(WithCommon(WithoutAppDropins(dropins, cfg.appName), cfg.units, bundle.common), cfg.units, bundle.services)
  }

  /** After the health check: the failed units' diagnostics, or the Caddy commands. */
  function CheckedCommands(cfg: Config, caddyfile: Option<string>, out: Outcomes, system: Files): seq<Command> {
    var failed := Failed(HealthChecked(cfg.units), out.status);
    if out.restartCode != 0 || failed != [] then Diagnostics(failed, system)
    else if cfg.webserverEnabled && caddyfile.Some? then CaddyCommands(cfg.appUser, out.caddyReload)
    else []
  }

  /** The restart, then one `is-active` query per checked unit. */
  function ProbeCommands(cfg: Config, fullRestart: bool): seq<Command> {
    [RestartUnits(fullRestart, SystemdUnits(cfg.units))] + IsActiveCommands(HealthChecked(cfg.units))
  }

  function AfterEnableCommands(cfg: Config, caddyfile: Option<string>, fullRestart: bool, out: Outcomes, system: Files): seq<Command> {
    ProbeCommands(cfg, fullRestart) + CheckedCommands(cfg, caddyfile, out, system)
  }

  /** The commands run once the unit files are in place. */
  function RestartCommands(cfg: Config, caddyfile: Option<string>, fullRestart: bool, out: Outcomes, system: Files): seq<Command> {
    [Enable(SystemdUnits(cfg.units))]
    + if out.enableOk then AfterEnableCommands(cfg, caddyfile, fullRestart, out, system) else []
  }

  /**
   * `installed` is the directory's listing of the regular files matching
   * `{app}*`; `caddyfile` is the bundle's Caddyfile, when it has one.
   */
  method Install(h: Host, cfg: Config, installed: seq<string>, bundle: Bundle, caddyfile: Option<string>,
                 fullRestart: bool, out: Outcomes) returns (o: Outcome)
    requires SourcesPresent(cfg.units, bundle.sources)
    requires forall n :: n in installed <==> n in h.system && StartsWith(n, cfg.appName)
    modifies h
    ensures o == InstallOutcome(cfg.units, out)
    ensures h.system == WithUnits(Pruned(old(h.system), cfg.appName, ValidUnits(cfg.units)), cfg.units, bundle.sources)
    ensures h.wants == PrunedNames(old(h.wants), cfg.appName, ValidUnits(cfg.units))
    ensures h.dropins == SyncedDropins(old(h.dropins), cfg, bundle)
    ensures h.caddy == if o.Installed? && cfg.webserverEnabled && caddyfile.Some?
                       then CaddyAfterReload(old(h.caddy), out.caddyReload, caddyfile.value)
                       else old(h.caddy)
    ensures h.commands == old(h.commands) + DisableCommands(Stale(installed, ValidUnits(cfg.units)))
                          + RestartCommands(cfg, caddyfile, fullRestart, out, h.system)
  {
    var valid := CollectValidUnits(cfg.units);
    DisableStale(h, Stale(installed, valid));
    h.RemoveStaleFiles(cfg.appName, valid);
    RemoveDropinDirs(h, cfg.appName);
    h.WriteUnitFiles(cfg.units, bundle.sources);
    h.DeployCommonDropins(cfg.units, bundle.common);
    h.DeployServiceDropins(cfg.units, bundle.services);
    o := Restart(h, cfg, caddyfile, fullRestart, out);
  }

  /** Enables and restarts the units, checks their health, then configures Caddy. */
  method Restart(h: Host, cfg: Config, caddyfile: Option<string>, fullRestart: bool, out: Outcomes) returns (o: Outcome)
    modifies h
    ensures o == InstallOutcome(cfg.units, out)
    ensures h.system == old(h.system) && h.wants == old(h.wants) && h.dropins == old(h.dropins)
    ensures h.caddy == if o.Installed? && cfg.webserverEnabled && caddyfile.Some?
                       then CaddyAfterReload(old(h.caddy), out.caddyReload, caddyfile.value)
                       else old(h.caddy)
    ensures h.commands == old(h.commands) + RestartCommands(cfg, caddyfile, fullRestart, out, h.system)
  {
    EnableUnits(h, cfg.units);
    ghost var enable := [Enable(SystemdUnits(cfg.units))];
    if !out.enableOk {
      assert RestartCommands(cfg, caddyfile, fullRestart, out, h.system) == enable + [];
      return EnableFailed;
    }
    ghost var enabled := h.commands;
    o := RestartAndCheck(h, cfg, caddyfile, fullRestart, out);
    ghost var after := AfterEnableCommands(cfg, caddyfile, fullRestart, out, h.system);
    assert RestartCommands(cfg, caddyfile, fullRestart, out, h.system) == enable + after;
    AppendAssoc(old(h.commands), enable, after);
  }

  /** Reloads systemd and enables every runtime unit. */
  method EnableUnits(h: Host, units: seq<DeployedUnit>)
    modifies h
    ensures h.system == old(h.system) && h.wants == old(h.wants) && h.dropins == old(h.dropins) && h.caddy == old(h.caddy)
    ensures h.commands == old(h.commands) + [Enable(SystemdUnits(units))]
  {
    var active := CollectSystemdUnits(units);
    h.Run(Enable(active));
  }

  method RestartAndCheck(h: Host, cfg: Config, caddyfile: Option<string>, fullRestart: bool, out: Outcomes) returns (o: Outcome)
    requires out.enableOk
    modifies h
    ensures o == InstallOutcome(cfg.units, out)
    ensures h.system == old(h.system) && h.wants == old(h.wants) && h.dropins == old(h.dropins)
    ensures h.caddy == if o.Installed? && cfg.webserverEnabled && caddyfile.Some?
                       then CaddyAfterReload(old(h.caddy), out.caddyReload, caddyfile.value)
                       else old(h.caddy)
    ensures h.commands == old(h.commands) + AfterEnableCommands(cfg, caddyfile, fullRestart, out, h.system)
  {
    var failed := RestartAndProbe(h, cfg, fullRestart, out.status);
    o := AfterCheck(h, cfg, caddyfile, out, failed);
    AppendAssoc(old(h.commands), ProbeCommands(cfg, fullRestart), CheckedCommands(cfg, caddyfile, out, h.system));
  }

  /** Restarts the units, then asks systemd which of the checked ones are active. */
  method RestartAndProbe(h: Host, cfg: Config, fullRestart: bool, status: map<string, string>) returns (failed: seq<string>)
    modifies h
    ensures failed == Failed(HealthChecked(cfg.units), status)
    ensures h.system == old(h.system) && h.wants == old(h.wants) && h.dropins == old(h.dropins) && h.caddy == old(h.caddy)
    ensures h.commands == old(h.commands) + ProbeCommands(cfg, fullRestart)
  {
    h.Run(RestartUnits(fullRestart, SystemdUnits(cfg.units)));
    failed := CheckHealth(h, HealthChecked(cfg.units), status);
  }

  method AfterCheck(h: Host, cfg: Config, caddyfile: Option<string>, out: Outcomes, failed: seq<string>) returns (o: Outcome)
    requires out.enableOk && failed == Failed(HealthChecked(cfg.units), out.status)
    modifies h
    ensures o == InstallOutcome(cfg.units, out)
    ensures h.system == old(h.system) && h.wants == old(h.wants) && h.dropins == old(h.dropins)
    ensures h.caddy == if o.Installed? && cfg.webserverEnabled && caddyfile.Some?
                       then CaddyAfterReload(old(h.caddy), out.caddyReload, caddyfile.value)
                       else old(h.caddy)
    ensures h.commands == old(h.commands) + CheckedCommands(cfg, caddyfile, out, h.system)
  {
    if out.restartCode != 0 || failed != [] {
      ReportFailures(h, failed);
      return StartFailed(failed);
    }
    if cfg.webserverEnabled && caddyfile.Some? {
      ConfigureCaddy(h, cfg.appUser, caddyfile.value, out.caddyReload);
    }
    return Installed;
  }

  // ---------------------------------------------------------------------------
  // Properties of `install`.

  lemma {:induction false} HealthCheckedMembers(units: seq<DeployedUnit>, n: string)
    ensures n in HealthChecked(units) <==>
      exists u :: u in units && !u.hasSocket && !u.hasTimer && n in ServiceInstances(u)
    decreases |units|
  {
    if units != [] {
      HealthCheckedMembers(units[1..], n);
      assert forall u :: u in units <==> u == units[0] || u in units[1..];
    }
  }

  /** Every health-checked unit is among the units just enabled and restarted. */
  lemma HealthCheckedAreActive(units: seq<DeployedUnit>, n: string)
    requires n in HealthChecked(units)
    ensures n in SystemdUnits(units)
  {
    HealthCheckedMembers(units, n);
    var u :| u in units && !u.hasSocket && !u.hasTimer && n in ServiceInstances(u);
    SystemdUnitsMembers(units, n);
    assert n in RuntimeNames(u);
  }

  /**
   * The installer exits 3 exactly when the restart failed or some checked
   * unit is not active, and exits 1 when enabling failed.
   */
  lemma ExitCodes(units: seq<DeployedUnit>, out: Outcomes)
    ensures ExitCode(InstallOutcome(units, out)) == ServiceStartFailed <==>
      out.enableOk && (out.restartCode != 0 || exists n :: n in HealthChecked(units) && !IsActive(out.status, n))
    ensures ExitCode(InstallOutcome(units, out)) == GeneralError <==> !out.enableOk
    ensures ExitCode(InstallOutcome(units, out)) == 0 <==>
      out.enableOk && out.restartCode == 0 && forall n :: n in HealthChecked(units) ==> IsActive(out.status, n)
  {
    var failed := Failed(HealthChecked(units), out.status);
    if exists n :: n in HealthChecked(units) && !IsActive(out.status, n) {
      var n :| n in HealthChecked(units) && !IsActive(out.status, n);
      FailedMembers(HealthChecked(units), out.status, n);
    }
    if failed != [] {
      FailedMembers(HealthChecked(units), out.status, failed[0]);
    }
  }

  /**
   * A reload that fails never leaves the new configuration in place unless it
   * is the previous one; the file is only deleted when there was no usable
   * previous configuration.
   */
  lemma CaddyRestored(previous: Option<string>, reload: CaddyReload, config: string)
    ensures reload.Reloaded? ==> CaddyAfterReload(previous, reload, config) == Some(config)
    ensures !reload.Reloaded? && CaddyAfterReload(previous, reload, config) == Some(config) ==> previous == Some(config)
    ensures !reload.Reloaded? ==>
      (CaddyAfterReload(previous, reload, config) == None <==> previous == None || previous == Some(""))
    ensures !reload.Reloaded? && CaddyAfterReload(previous, reload, config).Some? ==>
      CaddyAfterReload(previous, reload, config) == previous
  {
  }

  /** No directory matching `{app}*.d` survives unless the bundle put it there for one of the units. */
  lemma {:induction false} StaleDropinDirsGone(dropins: map<string, Files>, cfg: Config, bundle: Bundle, d: string)
    requires d in SyncedDropins(dropins, cfg, bundle) && MatchesGlob(d, cfg.appName, ".d")
    ensures exists u :: u in cfg.units && d == DropinDir(u)
  {
    var cleaned := WithoutAppDropins(dropins, cfg.appName);
    var common := WithCommon(cleaned, cfg.units, bundle.common);
    assert d !in cleaned;
    if d in common {
      WithCommonKeys(cleaned, cfg.units, bundle.common, d);
    } else {
      ServiceDropinsTargets(common, cfg.units, bundle.services, d);
    }
  }

  lemma {:induction false} ConfToUnitsKeys(dropins: map<string, Files>, units: seq<DeployedUnit>, c: Conf, d: string)
    requires d in ConfToUnits(dropins, units, c) && d !in dropins
    ensures exists u :: u in units && d == DropinDir(u)
    decreases |units|
  {
    var front, last := units[..|units| - 1], units[|units| - 1];
    if d in ConfToUnits(dropins, front, c) {
      ConfToUnitsKeys(dropins, front, c, d);
      var u :| u in front && d == DropinDir(u);
      assert u in units by { assert units == front + [last]; }
    } else {
      assert d == DropinDir(last);
    }
  }

  lemma {:induction false} WithCommonKeys(dropins: map<string, Files>, units: seq<DeployedUnit>, common: seq<Conf>, d: string)
    requires d in WithCommon(dropins, units, common) && d !in dropins
    ensures exists u :: u in units && d == DropinDir(u)
    decreases |common|
  {
    var front := common[..|common| - 1];
    if d in WithCommon(dropins, units, front) {
      WithCommonKeys(dropins, units, front, d);
    } else {
      ConfToUnitsKeys(WithCommon(dropins, units, front), units, common[|common| - 1], d);
    }
  }

  /** An instance name ends in a digit before `.service`. */
  lemma InstanceNotTemplate(u: DeployedUnit, i: nat)
    ensures !EndsWith(InstanceName(u, i), "@.service")
  {
    var n := InstanceName(u, i);
    var digits := NatToString(i);
    NatToStringValue(i);
    assert n == (Prefix(u) + "@" + digits) + ".service";
    assert n[|n| - 9] == digits[|digits| - 1];
    assert IsDigit(digits[|digits| - 1]);
    assert !EndsWith(n, "@.service") by {
      if |n| >= 9 { assert n[|n| - 9..][0] == n[|n| - 9]; }
    }
  }

  /** The service of a regular unit ends in `@.service` only when its name ends in `@`. */
  lemma RegularNotTemplate(u: DeployedUnit)
    requires !u.isTemplate && !EndsWith(u.name, "@")
    ensures !EndsWith(TemplateServiceName(u), "@.service")
  {
    var n := TemplateServiceName(u);
    var p := Prefix(u);
    assert n == p + ".service";
    assert n[|n| - 9] == p[|p| - 1];
    if u.name == [] {
      assert p[|p| - 1] == '-';
    } else {
      assert p[|p| - 1] == u.name[|u.name| - 1];
      assert u.name[|u.name| - 1..] == [u.name[|u.name| - 1]];
    }
    assert !EndsWith(n, "@.service") by {
      assert n[|n| - 9..][0] == n[|n| - 9];
    }
  }

  /** The enable and restart list never names a bare template (`...@.service`). */
  lemma ActiveNeverTemplate(units: seq<DeployedUnit>, n: string)
    requires forall u :: u in units ==> !EndsWith(u.name, "@")
    requires n in SystemdUnits(units)
    ensures !EndsWith(n, "@.service")
  {
    SystemdUnitsMembers(units, n);
    var u :| u in units && n in RuntimeNames(u);
    if n in ServiceInstances(u) {
      if u.isTemplate {
        var i :| 0 <= i < |ServiceInstances(u)| && ServiceInstances(u)[i] == n;
        InstanceNotTemplate(u, i + 1);
      } else {
        RegularNotTemplate(u);
      }
    } else if u.hasSocket && n == TemplateSocketName(u).value {
      CompanionNotTemplate(Prefix(u) + At(u.isTemplate), ".socket");
    } else {
      assert u.hasTimer && n == TemplateTimerName(u).value;
      CompanionNotTemplate(Prefix(u) + At(u.isTemplate), ".timer");
    }
  }

  lemma CompanionNotTemplate(p: string, ext: string)
    requires ext == ".socket" || ext == ".timer"
    ensures !EndsWith(p + ext, "@.service")
  {
    var n := p + ext;
    assert n[|n| - 1] == ext[|ext| - 1];
    if |n| >= 9 {
      assert n[|n| - 9..][8] == n[|n| - 1];
    }
  }

  // ---------------------------------------------------------------------------
  // `uninstall`

  /** The installed names of the template units (`template`) or of the others, unit by unit. */
  function UnitsWhere(units: seq<DeployedUnit>, template: bool): seq<string> {
    if units == [] then []
    else (if units[0].isTemplate == template then FileNames(units[0]) else []) + UnitsWhere(units[1..], template)
  }

  /** Regular units are stopped and disabled (`--now`); templates are only disabled. */
  function DisableUnitsCommands(regular: seq<string>, template: seq<string>): seq<Command> {
    (if regular != [] then [DisableNow(regular)] else [])
    + (if template != [] then [DisableOnly(template)] else [])
  }

  function CleanupCommands(cfg: Config, userExists: bool): seq<Command> {
    (if cfg.webserverEnabled then [ReloadCaddy, RemoveCaddyFromGroup(cfg.appUser)] else [])
    + (if userExists then [KillProcesses(cfg.appUser), ForceKillProcesses(cfg.appUser), DeleteUser(cfg.appUser)] else [])
  }

  function UninstallCommands(cfg: Config, userExists: bool): seq<Command> {
    DisableUnitsCommands(UnitsWhere(cfg.units, false), UnitsWhere(cfg.units, true))
    + [ReloadAndResetFailed]
    + CleanupCommands(cfg, userExists)
  }

  /** Removes the listed names that start with the app name; the others are refused. */
  function Uninstalled(system: Files, app: string, names: seq<string>): Files {
    map n | n in system && !(n in names && StartsWith(n, app)) :: system[n]
  }

  /** `userExists` is whether `pwd.getpwnam(app_user)` finds the app user. */
  method Uninstall(h: Host, cfg: Config, userExists: bool)
    modifies h
    ensures h.system == Uninstalled(old(h.system), cfg.appName, UnitsWhere(cfg.units, false) + UnitsWhere(cfg.units, true))
    ensures h.caddy == if cfg.webserverEnabled then None else old(h.caddy)
    ensures h.commands == old(h.commands) + UninstallCommands(cfg, userExists)
    ensures h.wants == old(h.wants) && h.dropins == old(h.dropins)
  {
    var regular := UnitsWhere(cfg.units, false);
    var template := UnitsWhere(cfg.units, true);
    DisableUnits(h, regular, template);
    RemoveUnitFiles(h, cfg.appName, regular + template);
    h.Run(ReloadAndResetFailed);
    Cleanup(h, cfg, userExists);
    ghost var disabled := DisableUnitsCommands(regular, template);
    AppendAssoc(old(h.commands), disabled, [ReloadAndResetFailed]);
    AppendAssoc(old(h.commands), disabled + [ReloadAndResetFailed], CleanupCommands(cfg, userExists));
  }

  method DisableUnits(h: Host, regular: seq<string>, template: seq<string>)
    modifies h
    ensures h.commands == old(h.commands) + DisableUnitsCommands(regular, template)
    ensures h.system == old(h.system) && h.caddy == old(h.caddy) && h.wants == old(h.wants) && h.dropins == old(h.dropins)
  {
    if regular != [] {
      h.Run(DisableNow(regular));
    }
    if template != [] {
      h.Run(DisableOnly(template));
    }
  }

  /** Removes the Caddy configuration when the webserver is enabled, then the app user when it exists. */
  method Cleanup(h: Host, cfg: Config, userExists: bool)
    modifies h
    ensures h.commands == old(h.commands) + CleanupCommands(cfg, userExists)
    ensures h.caddy == if cfg.webserverEnabled then None else old(h.caddy)
    ensures h.system == old(h.system) && h.wants == old(h.wants) && h.dropins == old(h.dropins)
  {
    if cfg.webserverEnabled {
      h.caddy := None;
      h.Run(ReloadCaddy);
      h.Run(RemoveCaddyFromGroup(cfg.appUser));
    }
    if userExists {
      h.Run(KillProcesses(cfg.appUser));
      h.Run(ForceKillProcesses(cfg.appUser));
      h.Run(DeleteUser(cfg.appUser));
    }
  }

  /** Deletes each listed unit file, refusing names that do not start with the app name. */
  method RemoveUnitFiles(h: Host, app: string, names: seq<string>)
    modifies h
    ensures h.system == Uninstalled(old(h.system), app, names)
    ensures h.caddy == old(h.caddy) && h.wants == old(h.wants) && h.dropins == old(h.dropins) && h.commands == old(h.commands)
  {
    for i := 0 to |names|
      invariant h.system == Uninstalled(old(h.system), app, names[..i])
      invariant h.caddy == old(h.caddy) && h.wants == old(h.wants) && h.dropins == old(h.dropins) && h.commands == old(h.commands)
    {
      if StartsWith(names[i], app) {
        h.system := h.system - {names[i]};
      }
      assert names[..i + 1] == names[..i] + [names[i]];
    }
    assert names[..|names|] == names;
  }

  // ---------------------------------------------------------------------------
  // Properties of `uninstall`.

  /** The two lists together name exactly the installed units, and the template list only template units. */
  lemma {:induction false} UnitsWhereMembers(units: seq<DeployedUnit>, template: bool, n: string)
    ensures n in UnitsWhere(units, template) <==> exists u :: u in units && u.isTemplate == template && n in FileNames(u)
    decreases |units|
  {
    if units != [] {
      UnitsWhereMembers(units[1..], template, n);
      assert forall u :: u in units <==> u == units[0] || u in units[1..];
    }
  }

  lemma UninstallListsCover(units: seq<DeployedUnit>, n: string)
    ensures n in UnitsWhere(units, false) + UnitsWhere(units, true) <==> n in ValidUnits(units)
  {
    UnitsWhereMembers(units, false, n);
    UnitsWhereMembers(units, true, n);
    ValidUnitsMembers(units, n);
    if n in ValidUnits(units) {
      var u :| u in units && n in FileNames(u);
      if u.isTemplate { assert n in UnitsWhere(units, true); } else { assert n in UnitsWhere(units, false); }
    }
  }

  /** Uninstalling never removes a file outside the app's `{app}*` names, and removes every valid one. */
  lemma UninstallSparesOthers(system: Files, app: string, units: seq<DeployedUnit>, n: string)
    ensures !StartsWith(n, app) ==>
      (n in Uninstalled(system, app, UnitsWhere(units, false) + UnitsWhere(units, true)) <==> n in system)
    ensures StartsWith(n, app) && n in ValidUnits(units) ==>
      n !in Uninstalled(system, app, UnitsWhere(units, false) + UnitsWhere(units, true))
  {
    UninstallListsCover(units, n);
  }
}
