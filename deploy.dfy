// `fujin deploy`: builds the application, assembles the installer bundle
// with every unit file resolved against the deployment context, uploads it
// (rsync for large bundles, with a plain upload as fallback), runs the
// installer and, when the services fail to start, rolls back and removes the
// failed bundle. Commands run on the host are recorded as `Action`s.

module Deploy {
  import opened Wrappers
  import opened Strs
  import opened Dicts
  import opened Units
  import opened Cli
  import Shell
  import Sorting
  import Connection

  // ---------------------------------------------------------------------------
  // The substitution context.

  /** What the deployment reads from fujin.toml and the selected host. */
  datatype Settings = Settings(
    appName: string,
    appUser: string,
    version: string,
    appDir: string,
    installDir: string,
    user: string,
    bundleVersion: string,
    requirements: Option<string>,
    units: seq<DeployedUnit>,
    versionsToKeep: int,
    caddyfileExists: bool,
    domain: string,
    noInput: bool,
    fullRestart: bool,
    noRollback: bool,
    verbose: nat)

  function BaseContext(s: Settings): Dict<string> {
    [("app_name", s.appName), ("app_user", s.appUser), ("version", s.version),
     ("app_dir", s.appDir), ("install_dir", s.installDir), ("user", s.user)]
  }

  function SocketKey(u: DeployedUnit): string { u.name + "_socket" }

  function TimerKey(u: DeployedUnit): string { u.name + "_timer" }

  /** Only a single, standalone service is exposed under its bare name. */
  predicate ExposesService(u: DeployedUnit) {
    !u.hasSocket && !u.hasTimer && !u.isTemplate
  }

  /** The keys one unit adds to the context. */
  function UnitKeys(u: DeployedUnit): seq<string> {
    (if u.hasSocket then [SocketKey(u)] else [])
    + (if u.hasTimer then [TimerKey(u)] else [])
    + (if ExposesService(u) then [u.name] else [])
  }

  /** The context after one iteration of the unit loop. */
  function AddUnit(ctx: Dict<string>, u: DeployedUnit): Dict<string> {
    var c1 := if u.hasSocket then Put(ctx, SocketKey(u), Prefix(u) + At(u.isTemplate) + ".socket") else ctx;
    var c2 := if u.hasTimer then Put(c1, TimerKey(u), Prefix(u) + At(u.isTemplate) + ".timer") else c1;
    if ExposesService(u) then Put(c2, u.name, TemplateServiceName(u)) else c2
  }

  function UnitsContext(ctx: Dict<string>, units: seq<DeployedUnit>): Dict<string> {
    if units == [] then ctx else AddUnit(UnitsContext(ctx, units[..|units| - 1]), units[|units| - 1])
  }

  function Context(s: Settings): Dict<string> {
    UnitsContext(BaseContext(s), s.units)
  }

  /** Fills the context as the source does, unit by unit. */
  method BuildContext(s: Settings) returns (ctx: Dict<string>)
    ensures ctx == Context(s)
  {
    ctx := BaseContext(s);
    for i := 0 to |s.units|
      invariant ctx == UnitsContext(BaseContext(s), s.units[..i])
    {
      var du := s.units[i];
      assert s.units[..i + 1][..i] == s.units[..i];
      if du.hasSocket {
        ctx := Put(ctx, du.name + "_socket", Prefix(du) + At(du.isTemplate) + ".socket");
      }
      if du.hasTimer {
        ctx := Put(ctx, du.name + "_timer", Prefix(du) + At(du.isTemplate) + ".timer");
      }
      if !du.hasSocket && !du.hasTimer && !du.isTemplate {
        ctx := Put(ctx, du.name, TemplateServiceName(du));
      }
    }
    assert s.units[..|s.units|] == s.units;
  }

  /** A unit's three possible keys are pairwise different. */
  lemma UnitKeysDiffer(u: DeployedUnit)
    ensures SocketKey(u) != TimerKey(u) && SocketKey(u) != u.name && TimerKey(u) != u.name
  {
    assert SocketKey(u)[|u.name| + 1] == 's';
    assert TimerKey(u)[|u.name| + 1] == 't';
  }

  /** `{name}_socket`, `{name}_timer` and the bare name are exposed exactly as the unit's shape says. */
  lemma UnitKeysShape(u: DeployedUnit)
    ensures SocketKey(u) in UnitKeys(u) <==> u.hasSocket
    ensures TimerKey(u) in UnitKeys(u) <==> u.hasTimer
    ensures u.name in UnitKeys(u) <==> ExposesService(u)
  {
    UnitKeysDiffer(u);
  }

  /** One unit adds exactly its own keys, and binds each to its unit name. */
  lemma AddUnitBinds(ctx: Dict<string>, u: DeployedUnit)
    ensures forall k :: k in Keys(AddUnit(ctx, u)) <==> k in Keys(ctx) || k in UnitKeys(u)
    ensures u.hasSocket ==> Get(AddUnit(ctx, u), SocketKey(u)) == TemplateSocketName(u)
    ensures u.hasTimer ==> Get(AddUnit(ctx, u), TimerKey(u)) == TemplateTimerName(u)
    ensures ExposesService(u) ==> Get(AddUnit(ctx, u), u.name) == Some(TemplateServiceName(u))
  {
    UnitKeysDiffer(u);
    var c1 := if u.hasSocket then Put(ctx, SocketKey(u), Prefix(u) + At(u.isTemplate) + ".socket") else ctx;
    var c2 := if u.hasTimer then Put(c1, TimerKey(u), Prefix(u) + At(u.isTemplate) + ".timer") else c1;
    if u.hasSocket { PutKeys(ctx, SocketKey(u), Prefix(u) + At(u.isTemplate) + ".socket"); }
    if u.hasTimer { PutKeys(c1, TimerKey(u), Prefix(u) + At(u.isTemplate) + ".timer"); }
    if ExposesService(u) { PutKeys(c2, u.name, TemplateServiceName(u)); }
  }

  /** The context holds the six fixed keys and exactly the keys the units expose. */
  lemma {:induction false} ContextKeys(base: Dict<string>, units: seq<DeployedUnit>)
    ensures forall k :: k in Keys(UnitsContext(base, units)) <==>
      k in Keys(base) || exists u :: u in units && k in UnitKeys(u)
    decreases |units|
  {
    if units != [] {
      var front := units[..|units| - 1];
      var last := units[|units| - 1];
      ContextKeys(base, front);
      AddUnitBinds(UnitsContext(base, front), last);
      assert units == front + [last];
      forall k ensures (exists u :: u in units && k in UnitKeys(u)) <==>
        (exists u :: u in front && k in UnitKeys(u)) || k in UnitKeys(last)
      {
        if exists u :: u in units && k in UnitKeys(u) {
          var u :| u in units && k in UnitKeys(u);
          if u != last {
            assert u in front;
          }
        }
      }
    }
  }

  /** The last unit's entries are the ones that end up in the context. */
  lemma LastUnitBinds(base: Dict<string>, units: seq<DeployedUnit>)
    requires units != []
    ensures var u := units[|units| - 1];
      (u.hasSocket ==> Get(UnitsContext(base, units), SocketKey(u)) == TemplateSocketName(u))
      && (u.hasTimer ==> Get(UnitsContext(base, units), TimerKey(u)) == TemplateTimerName(u))
      && (ExposesService(u) ==> Get(UnitsContext(base, units), u.name) == Some(TemplateServiceName(u)))
  {
    AddUnitBinds(UnitsContext(base, units[..|units| - 1]), units[|units| - 1]);
  }

  /**
   * The warning shown when some placeholder stayed unresolved: the
   * unresolved names and the context keys, each sorted and de-duplicated.
   */
  function UnresolvedWarning(unresolved: seq<string>, ctx: Dict<string>): (r: Option<string>)
    ensures r.Some? <==> unresolved != []
  {
    if unresolved == [] then None
    else
      Some("Found unresolved variables in configuration files: " + Join(Sorting.SortedNames(unresolved), ", ")
        + "\nAvailable variables: " + Join(Sorting.SortedNames(Keys(ctx)), ", ")
        + "\nThese will be left as-is (e.g., {variable_name}) in deployed files.")
  }

  // ---------------------------------------------------------------------------
  // Remote paths and commands.

  /** Below 30 KiB (the code's value) rsync is never tried. */
  const MinRsyncSize: nat := 30 * 1024

  function BundleDir(s: Settings): string { s.installDir + "/.versions" }

  /** `{install_dir}/.versions/{app}-{version}.pyz` */
  function BundlePath(s: Settings): string {
    BundleDir(s) + "/" + s.appName + "-" + s.bundleVersion + ".pyz"
  }

  function StagingPath(s: Settings): string { BundleDir(s) + "/.staging.pyz" }

  /** The shell-quoted paths every remote command uses. */
  datatype Paths = Paths(dir: string, staging: string, bundle: string)

  function QuotedPaths(s: Settings): Paths {
    Paths(Shell.Quote(BundleDir(s)), Shell.Quote(StagingPath(s)), Shell.Quote(BundlePath(s)))
  }

  function InstallCommand(s: Settings, bundle: string): string {
    "sudo python3 " + bundle + " install"
    + (if s.fullRestart then " --full-restart" else "")
    + (if s.verbose > 0 then " --verbose " + NatToString(s.verbose) else "")
  }

  /** Keeps the newest `versions_to_keep` bundles. */
  function PruneCommand(dir: string, versionsToKeep: int): string {
    "cd " + dir + " && ls -1t | tail -n +" + IntToString(versionsToKeep + 1) + " | xargs -r rm"
  }

  /** What the deployment does on the host, in order. */
  datatype Action =
    | Run(command: string)
    | RsyncUpload(remote: string)
    | Upload(remote: string)
    | Rollback
    | LogDeploy(version: string)

  /** How the attempted rsync upload ended. */
  datatype RsyncOutcome = Synced | NoLocalRsync | RsyncFailed

  /** An answer to a confirmation prompt. */
  datatype Answer = Yes | No | Interrupted

  /** What the model does not compute: results of builds, prompts and remote commands. */
  datatype World = World(
    buildExit: int,
    requirementsExist: bool,
    unresolved: seq<string>,
    bundleSize: nat,
    proceed: Answer,
    rsyncProbe: string,
    mkdirStatus: int,
    rsync: RsyncOutcome,
    copyStatus: int,
    installExit: int,
    rollbackAnswer: Answer)

  // ---------------------------------------------------------------------------
  // Upload.

  /** rsync is tried when the bundle is large enough and the host reports an rsync. */
  predicate TriesRsync(w: World) {
    w.bundleSize >= MinRsyncSize && Strip(w.rsyncProbe) != ""
  }

  /** The first remote command: for a large bundle it also asks the host for its rsync. */
  function Mkdir(p: Paths, w: World): string {
    if w.bundleSize >= MinRsyncSize then "mkdir -p " + p.dir + " > /dev/null && command -v rsync"
    else "mkdir -p " + p.dir
  }

  function CopyCommand(p: Paths): string { "cp -f " + p.staging + " " + p.bundle }

  /** The exit a command run without `warn` raises on its status, if any. */
  function Raised(status: int): Option<Exit> {
    match Connection.Completed("", status, false)
    case Err(e) => Some(e)
    case Ok(_) => None
  }

  /**
   * The exit that ends the upload: the plain `mkdir` of a small bundle and
   * the `cp` after a successful rsync run without `warn`, and no `except`
   * clause around them names the connection's exit; the probe of a large
   * bundle runs with `warn`.
   */
  function UploadExit(w: World): Option<Exit> {
    if w.bundleSize < MinRsyncSize then Raised(w.mkdirStatus)
    else if TriesRsync(w) && w.rsync == Synced then Raised(w.copyStatus)
    else None
  }

  /** The host actions of the upload, up to and including a command that fails. */
  function UploadActions(p: Paths, w: World): seq<Action> {
    var rsync :=
      if !TriesRsync(w) then []
      else if w.rsync == Synced then [RsyncUpload(p.staging), Run(CopyCommand(p))]
      else [RsyncUpload(p.staging)];
    var plain := !(TriesRsync(w) && w.rsync == Synced) && UploadExit(w).None?;
    [Run(Mkdir(p, w))] + rsync + (if plain then [Upload(p.bundle)] else [])
  }

  /** The four shapes the upload takes. */
  lemma UploadCases(p: Paths, w: World)
    ensures !TriesRsync(w) && UploadExit(w).None? ==> UploadActions(p, w) == [Run(Mkdir(p, w)), Upload(p.bundle)]
    ensures !TriesRsync(w) && UploadExit(w).Some? ==> UploadActions(p, w) == [Run(Mkdir(p, w))]
    ensures TriesRsync(w) && w.rsync == Synced ==>
      UploadActions(p, w) == [Run(Mkdir(p, w)), RsyncUpload(p.staging), Run(CopyCommand(p))]
    ensures TriesRsync(w) && w.rsync != Synced ==>
      UploadActions(p, w) == [Run(Mkdir(p, w)), RsyncUpload(p.staging), Upload(p.bundle)]
  {
  }

  /**
   * When the upload goes through, the bundle reaches its final path exactly
   * once: by rsync and copy, or by plain upload (after a failed rsync too).
   */
  lemma UploadChoice(p: Paths, w: World)
    ensures Upload(p.bundle) in UploadActions(p, w) <==> !(TriesRsync(w) && w.rsync == Synced) && UploadExit(w).None?
    ensures RsyncUpload(p.staging) in UploadActions(p, w) <==> TriesRsync(w)
    ensures Run(CopyCommand(p)) in UploadActions(p, w) <==> TriesRsync(w) && w.rsync == Synced
    ensures UploadExit(w).None? ==>
      (Upload(p.bundle) in UploadActions(p, w) <==> Run(CopyCommand(p)) !in UploadActions(p, w))
  {
    var cp := CopyCommand(p);
    var m := Mkdir(p, w);
    assert Run(cp) != Run(m) by { assert cp[0] == 'c' && m[0] == 'm'; }
    UploadCases(p, w);
  }

  /**
   * A failed `mkdir` (small bundle) or `cp` (after rsync) ends the upload
   * with the connection's exit carrying that status, that command being the
   * last action; the probe of a large bundle and a failed rsync never do.
   */
  lemma UploadFails(p: Paths, w: World)
    ensures UploadExit(w).Some? <==>
      (w.bundleSize < MinRsyncSize && w.mkdirStatus != 0) || (TriesRsync(w) && w.rsync == Synced && w.copyStatus != 0)
    ensures w.bundleSize < MinRsyncSize && w.mkdirStatus != 0 ==>
      UploadExit(w) == Some(Exit(Connection.FailedMessage(w.mkdirStatus), w.mkdirStatus))
      && UploadActions(p, w) == [Run(Mkdir(p, w))]
    ensures TriesRsync(w) && w.rsync == Synced && w.copyStatus != 0 ==>
      UploadExit(w) == Some(Exit(Connection.FailedMessage(w.copyStatus), w.copyStatus))
      && UploadActions(p, w) == [Run(Mkdir(p, w)), RsyncUpload(p.staging), Run(CopyCommand(p))]
  {
    Connection.ExitPolicy("", w.mkdirStatus, false);
    Connection.ExitPolicy("", w.copyStatus, false);
  }

  /** `Deploy.__call__`, from the `mkdir` to the bundle at its final path. */
  method UploadBundle(p: Paths, w: World) returns (raised: Option<Exit>, actions: seq<Action>)
    ensures raised == UploadExit(w)
    ensures actions == UploadActions(p, w)
  {
    var useRsync: bool;
    actions := [Run(Mkdir(p, w))];
    if w.bundleSize >= MinRsyncSize {
      // run with `warn`: the status is not checked, only the probe's output
      useRsync := Strip(w.rsyncProbe) != "";
    } else {
      useRsync := false;
      var done := Connection.Completed("", w.mkdirStatus, false);
      if done.Err? {
        return Some(done.error), actions;
      }
    }
    if useRsync {
      actions := actions + [RsyncUpload(p.staging)];
      if w.rsync == Synced {
        actions := actions + [Run(CopyCommand(p))];
        var done := Connection.Completed("", w.copyStatus, false);
        if done.Err? {
          return Some(done.error), actions;
        }
      } else {
        useRsync := false;
      }
    }
    if !useRsync {
      actions := actions + [Upload(p.bundle)];
    }
    raised := None;
  }

  // ---------------------------------------------------------------------------
  // Install, rollback and pruning.

  datatype Failure =
    | BuildError(message: string)
    | DeploymentError(message: string)
    | Cancelled(exit: Exit)
    | AttributeError(name: string)
    | TypeError(message: string)
    | ValueError(message: string)
    | Exited(exit: Exit)

  /** A deployment that ran to its end: whether it reports success, and the URL it shows. */
  datatype Finished = Finished(success: bool, url: Option<string>)

  /**
   * The exit code the installer reports when the services fail to start;
   * every other non-zero code is a plain failure.
   */
  const ServiceStartFailed := 3

  function InstallFailed(code: int): string {
    "Installation failed with exit code " + IntToString(code)
  }

  const RollbackDisabled := "Services failed to start. Rollback disabled via --no-rollback."

  /** Whether the rollback ran, or the deployment failed, after the installer returned `code`. */
  function AfterInstall(s: Settings, w: World, remove: Action): (Result<bool, Failure>, seq<Action>) {
    if w.installExit == 0 then (Ok(false), [])
    else if w.installExit != ServiceStartFailed then (Err(DeploymentError(InstallFailed(w.installExit))), [])
    else if s.noRollback then (Err(DeploymentError(RollbackDisabled)), [])
    else
      var answer := if s.noInput then Yes else w.rollbackAnswer;
      match answer
      case Yes => (Ok(true), [Rollback, remove])
      case No => (Err(DeploymentError(InstallFailed(w.installExit))), [remove])
      case Interrupted => (Ok(false), [remove])
  }

  /**
   * Everything after the upload, with the failure handler catching the
   * connection's exit and reading its code (as written it catches
   * `CommandError`: `FinishCaughtAsWritten`): install, the failure branches,
   * pruning when no rollback ran, and the audit record. `Rollback.__call__`
   * returns `None`, so a rollback never counts as succeeded and no URL
   * follows it.
   */
  function Finish(s: Settings, w: World, p: Paths): (Result<Finished, Failure>, seq<Action>) {
    var install := [Run(InstallCommand(s, p.bundle))];
    var (after, rollbackActions) := AfterInstall(s, w, Run("rm -f " + p.bundle));
    if after.Err? then (Err(after.error), install + rollbackActions)
    else
      var rollbackRan := after.value;
      var rollbackSucceeded := false;
      var prune := if s.versionsToKeep != 0 && !rollbackRan then [Run(PruneCommand(p.dir, s.versionsToKeep))] else [];
      var url := if s.caddyfileExists && (!rollbackRan || rollbackSucceeded) && s.domain != "" then Some("https://" + s.domain) else None;
      (Ok(Finished(!rollbackRan, url)), install + rollbackActions + prune + [LogDeploy(s.bundleVersion)])
  }

  /** Everything before the connection is opened; `None` when the deployment goes ahead. */
  function Prepare(s: Settings, w: World): Option<Failure> {
    if w.buildExit != 0 then Some(BuildError("Build failed"))
    else if s.requirements.Some? && !w.requirementsExist then
      Some(BuildError("Requirements file not found: " + s.requirements.value))
    else if s.units == [] then Some(DeploymentError("No systemd units found, nothing to deploy"))
    else if !s.noInput && w.proceed == No then Some(Cancelled(Exit("Deployment cancelled", 0)))
    else if !s.noInput && w.proceed == Interrupted then Some(Cancelled(Exit("\nDeployment cancelled", 0)))
    else None
  }

  /**
   * The corrected command: the host is contacted exactly when the checks and
   * the prompt let it through, and a failed upload command ends it before
   * the installer runs.
   */
  function Deployment(s: Settings, w: World): (r: (Result<Finished, Failure>, seq<Action>))
    ensures r.1 != [] <==> Prepare(s, w).None?
    ensures Prepare(s, w).Some? ==> r.0.Err?
    ensures Prepare(s, w).None? && UploadExit(w).Some? ==>
      r == (Err(Exited(UploadExit(w).value)), UploadActions(QuotedPaths(s), w))
  {
    var stop := Prepare(s, w);
    if stop.Some? then (Err(stop.value), [])
    else
      var p := QuotedPaths(s);
      match UploadExit(w)
      case Some(e) => (Err(Exited(e)), UploadActions(p, w))
      case None =>
        var (r, rest) := Finish(s, w, p);
        (r, UploadActions(p, w) + rest)
  }

  /** `Deploy.__call__` */
  method Deploy(s: Settings, w: World) returns (r: Result<Finished, Failure>, actions: seq<Action>)
    ensures (r, actions) == Deployment(s, w)
  {
    if w.buildExit != 0 {
      return Err(BuildError("Build failed")), [];
    }
    if s.requirements.Some? && !w.requirementsExist {
      return Err(BuildError("Requirements file not found: " + s.requirements.value)), [];
    }
    if s.units == [] {
      return Err(DeploymentError("No systemd units found, nothing to deploy")), [];
    }
    var context := BuildContext(s);
    if !s.noInput {
      if w.proceed == No {
        return Err(Cancelled(Exit("Deployment cancelled", 0))), [];
      } else if w.proceed == Interrupted {
        return Err(Cancelled(Exit("\nDeployment cancelled", 0))), [];
      }
    }
    var p := QuotedPaths(s);
    var raised, upload := UploadBundle(p, w);
    if raised.Some? {
      return Err(Exited(raised.value)), upload;
    }
    var tail;
    r, tail := Install(s, w, p);
    actions := upload + tail;
  }

  /** Runs the installer and handles its exit code; the rollback flags live here. */
  method Install(s: Settings, w: World, p: Paths) returns (r: Result<Finished, Failure>, tail: seq<Action>)
    ensures (r, tail) == Finish(s, w, p)
  {
    var install := [Run(InstallCommand(s, p.bundle))];
    var remove := Run("rm -f " + p.bundle);
    var rollbackRan := false;
    var rollbackSucceeded := false;
    var rollbackActions: seq<Action> := [];
    if w.installExit != 0 {
      if w.installExit != ServiceStartFailed {
        OtherExitCodesFail(s, w, p);
        return Err(DeploymentError(InstallFailed(w.installExit))), install;
      }
      if s.noRollback {
        assert Finish(s, w, p).1 == install + [] == install;
        return Err(DeploymentError(RollbackDisabled)), install;
      }
      var answer := if s.noInput then Yes else w.rollbackAnswer;
      // the failed bundle is removed in a `finally`, whatever the answer
      if answer == Yes {
        rollbackActions := [Rollback, remove];
        rollbackRan := true;
        rollbackSucceeded := false;
      } else {
        rollbackActions := [remove];
      }
      if answer == No {
        return Err(DeploymentError(InstallFailed(w.installExit))), install + rollbackActions;
      }
    }
    var prune: seq<Action> := [];
    if s.versionsToKeep != 0 && !rollbackRan {
      prune := [Run(PruneCommand(p.dir, s.versionsToKeep))];
    }
    tail := install + rollbackActions + prune + [LogDeploy(s.bundleVersion)];
    var url := None;
    if s.caddyfileExists && (!rollbackRan || rollbackSucceeded) && s.domain != "" {
      url := Some("https://" + s.domain);
    }
    r := Ok(Finished(!rollbackRan, url));
  }

  // ---------------------------------------------------------------------------
  // Properties of the deployment.

  /** A failed build, a missing requirements file or an empty unit list stop before the host is contacted. */
  lemma FailsBeforeUpload(s: Settings, w: World)
    ensures w.buildExit != 0 ==> Deployment(s, w) == (Err(BuildError("Build failed")), [])
    ensures w.buildExit == 0 && s.requirements.Some? && !w.requirementsExist ==>
      Deployment(s, w) == (Err(BuildError("Requirements file not found: " + s.requirements.value)), [])
    ensures w.buildExit == 0 && (s.requirements.None? || w.requirementsExist) && s.units == [] ==>
      Deployment(s, w) == (Err(DeploymentError("No systemd units found, nothing to deploy")), [])
  {
  }

  /** An installer failure other than code 3 is reported as is: no rollback, no removal, no pruning. */
  lemma OtherExitCodesFail(s: Settings, w: World, p: Paths)
    requires w.installExit != 0 && w.installExit != ServiceStartFailed
    ensures Finish(s, w, p) == (Err(DeploymentError(InstallFailed(w.installExit))), [Run(InstallCommand(s, p.bundle))])
  {
    var install := [Run(InstallCommand(s, p.bundle))];
    assert install + [] == install;
  }

  /** On code 3 (with rollback allowed) the failed bundle is removed whatever the answer. */
  lemma FailedBundleRemoved(s: Settings, w: World, p: Paths)
    requires w.installExit == ServiceStartFailed && !s.noRollback
    ensures Run("rm -f " + p.bundle) in Finish(s, w, p).1
    ensures Rollback in Finish(s, w, p).1 <==> s.noInput || w.rollbackAnswer == Yes
  {
  }

  /** Old versions are pruned exactly when the deployment went on without a rollback. */
  lemma PruneOnlyWithoutRollback(s: Settings, w: World, p: Paths)
    ensures Run(PruneCommand(p.dir, s.versionsToKeep)) in Finish(s, w, p).1 <==>
      s.versionsToKeep != 0 && Finish(s, w, p).0.Ok? && Rollback !in Finish(s, w, p).1
  {
    var prune := Run(PruneCommand(p.dir, s.versionsToKeep));
    var install := Run(InstallCommand(s, p.bundle));
    var remove := Run("rm -f " + p.bundle);
    assert PruneCommand(p.dir, s.versionsToKeep)[0] == 'c';
    assert InstallCommand(s, p.bundle)[0] == 's';
    assert ("rm -f " + p.bundle)[0] == 'r';
    assert prune != install && prune != remove;
  }

  /** A deployment that rolled back reports no success and shows no URL. */
  lemma NoUrlAfterRollback(s: Settings, w: World, p: Paths)
    requires Finish(s, w, p).0.Ok? && Rollback in Finish(s, w, p).1
    ensures Finish(s, w, p).0.value == Finished(false, None)
  {
    var install := Run(InstallCommand(s, p.bundle));
    assert Rollback != install;
  }

  // ---------------------------------------------------------------------------
  // The requirements hash as written.
  //
  // `commands/deploy.py` and `commands/rollback.py` import each other at load
  // time, so as written neither command even loads. The sections below
  // describe the defects the command meets once that import cycle is broken,
  // in the order it meets them, each with the earlier ones corrected.

  /**
   * The tail of the ValueError `hashlib.file_digest` raises on an object
   * that is not a binary file; the message starts with that object's `repr`.
   */
  const NotBinaryFile := " is not a file-like object in binary reading mode."

  /**
   * The debug line after the build hashes the requirements file with
   * `hashlib.file_digest(req_file.read_bytes(), "sha256")`. Its arguments are
   * evaluated whatever the log level, and `file_digest` wants a binary file
   * object, not `bytes`: a requirements file that exists makes it raise.
   */
  function DigestAsWritten(s: Settings, w: World): (r: Option<Failure>)
    ensures r.Some? <==> s.requirements.Some? && w.requirementsExist
  {
    if s.requirements.Some? && w.requirementsExist then Some(ValueError(NotBinaryFile)) else None
  }

  /**
   * As written, a deployment with a requirements file that the build left in
   * place stops with that ValueError before the host is contacted, where the
   * corrected one goes on to the host once the unit check and the prompt let
   * it through.
   */
  lemma AsWrittenStopsAtDigest(s: Settings, w: World, rendered: seq<string>)
    requires w.buildExit == 0 && s.requirements.Some? && w.requirementsExist
    ensures DeployAsWritten(s, w, rendered) == (Err(ValueError(NotBinaryFile)), [])
    ensures Prepare(s, w).None? <==> s.units != [] && (s.noInput || w.proceed == Yes)
    ensures Prepare(s, w).None? ==> Deployment(s, w).1 != []
  {
  }

  /**
   * Corrected, the hash is only logged: once the build succeeded, a
   * requirements file that exists leaves the checks as if none were set,
   * and one that is missing stops the deployment with its BuildError.
   */
  lemma RequirementsOnlyChecked(s: Settings, w: World)
    requires w.buildExit == 0 && s.requirements.Some?
    ensures w.requirementsExist ==> Prepare(s, w) == Prepare(s.(requirements := None), w)
    ensures !w.requirementsExist <==>
      Prepare(s, w) == Some(BuildError("Requirements file not found: " + s.requirements.value))
  {
  }

  // ---------------------------------------------------------------------------
  // The bundling as written.

  /**
   * `a, b = text` where `text` is a `str`: Python unpacks its characters, so
   * only a two-character text unpacks, into two one-character strings.
   */
  function UnpackPair(text: string): (r: Result<(string, string), Failure>)
    ensures r.Ok? <==> |text| == 2
    ensures r.Ok? ==> r.value.0 + r.value.1 == text
  {
    if |text| == 2 then Ok(([text[0]], [text[1]]))
    else if |text| > 2 then Err(ValueError("too many values to unpack (expected 2)"))
    else Err(ValueError("not enough values to unpack (expected 2, got " + NatToString(|text|) + ")"))
  }

  /**
   * The bundling loop as written: each text `safe_format` renders, in the
   * order `deploy` renders them (the environment file first), is unpacked
   * into the resolved text and the unresolved names; the first that does not
   * unpack raises.
   */
  function BundlingAsWritten(rendered: seq<string>): Option<Failure> {
    if rendered == [] then None
    else if UnpackPair(rendered[0]).Err? then Some(UnpackPair(rendered[0]).error)
    else BundlingAsWritten(rendered[1..])
  }

  /** Bundling gets through exactly when every rendered text is two characters long, and otherwise stops at the first that is not. */
  lemma {:induction false} BundlingNeedsPairs(rendered: seq<string>)
    ensures BundlingAsWritten(rendered).None? <==> forall i :: 0 <= i < |rendered| ==> |rendered[i]| == 2
    ensures rendered != [] && |rendered[0]| != 2 ==> BundlingAsWritten(rendered) == Some(UnpackPair(rendered[0]).error)
    decreases |rendered|
  {
    if rendered != [] && |rendered[0]| == 2 {
      BundlingNeedsPairs(rendered[1..]);
      assert forall i :: 1 <= i < |rendered| ==> rendered[i] == rendered[1..][i - 1];
    }
  }

  /**
   * As written, the whole command: after the build, a requirements file
   * that exists raises at its hash (`DigestAsWritten`); past the
   * requirements and unit checks, bundling raises unless every rendered text
   * is two characters long; only then are the prompt and the upload
   * reached (`DeploymentAsWritten`), and the upload raises. `rendered` is what `safe_format` returns for
   * the environment file and then each unit, drop-in and Caddyfile.
   */
  function DeployAsWritten(s: Settings, w: World, rendered: seq<string>): (Result<Finished, Failure>, seq<Action>) {
    if w.buildExit != 0 then DeploymentAsWritten(s, w)
    else if DigestAsWritten(s, w).Some? then (Err(DigestAsWritten(s, w).value), [])
    else if (s.requirements.Some? && !w.requirementsExist) || s.units == [] then DeploymentAsWritten(s, w)
    else match BundlingAsWritten(rendered)
      case Some(f) => (Err(f), [])
      case None => DeploymentAsWritten(s, w)
  }

  /**
   * Without a requirements file (with one, the hash stops the command
   * first: `AsWrittenStopsAtDigest`), an environment file that does not
   * render to exactly two characters (an empty one, say) stops the
   * deployment with ValueError before the prompt and before the host is
   * contacted, where the corrected one uploads the bundle once the prompt
   * is passed.
   */
  lemma AsWrittenStopsAtBundling(s: Settings, w: World, env: string, files: seq<string>)
    requires w.buildExit == 0 && s.requirements.None? && s.units != []
    requires |env| != 2
    ensures DeployAsWritten(s, w, [env] + files) == (Err(UnpackPair(env).error), [])
    ensures UnpackPair(env).error.ValueError?
    ensures Prepare(s, w).None? ==> Deployment(s, w).1 != []
  {
    BundlingNeedsPairs([env] + files);
  }

  /** The empty environment file, and one holding a single `KEY=value` line. */
  lemma UnpackExamples()
    ensures UnpackPair("") == Err(ValueError("not enough values to unpack (expected 2, got 0)"))
    ensures UnpackPair("DEBUG=1\n") == Err(ValueError("too many values to unpack (expected 2)"))
  {
    var head := "not enough values to unpack (expected 2, got ";
    assert NatToString(0) == "0";
    assert head + "0" + ")" == "not enough values to unpack (expected 2, got 0)";
  }

  // ---------------------------------------------------------------------------
  // The upload and the install step as written.

  /** What `put(..., verify=True)` raises: the connection's `put` takes only the two paths. */
  const PutRejected := "SSH2Connection.put() got an unexpected keyword argument 'verify'"

  /**
   * The upload as written. The connection the command opens has no
   * `rsync_upload`, and its `put` takes no `verify`. Neither error is one the
   * `except` clauses name, so once the `mkdir` has passed, the first of the
   * two calls reached raises, before anything is sent.
   */
  function UploadAsWritten(p: Paths, w: World): (Failure, seq<Action>) {
    var first := [Run(Mkdir(p, w))];
    if w.bundleSize < MinRsyncSize && Raised(w.mkdirStatus).Some? then (Exited(Raised(w.mkdirStatus).value), first)
    else if TriesRsync(w) then (AttributeError("rsync_upload"), first)
    else (TypeError(PutRejected), first)
  }

  /**
   * As written, past the bundling: the checks and the prompt, then the
   * upload, which raises (`AsWrittenStopsAtUpload`).
   */
  function DeploymentAsWritten(s: Settings, w: World): (Result<Finished, Failure>, seq<Action>) {
    var stop := Prepare(s, w);
    if stop.Some? then (Err(stop.value), [])
    else
      var (f, done) := UploadAsWritten(QuotedPaths(s), w);
      (Err(f), done)
  }

  /**
   * As written no deployment sends its bundle: past the checks and the
   * prompt it runs only the `mkdir`, and stops with the `mkdir`'s exit (as
   * the corrected one does), with AttributeError when rsync is tried, and
   * with TypeError otherwise. The corrected command, once its upload goes
   * through, runs the installer.
   */
  lemma AsWrittenStopsAtUpload(s: Settings, w: World)
    ensures DeploymentAsWritten(s, w).0.Err?
    ensures var p := QuotedPaths(s);
      Prepare(s, w).None? ==>
        DeploymentAsWritten(s, w).1 == [Run(Mkdir(p, w))] == Deployment(s, w).1[..1]
    ensures Prepare(s, w).None? && w.bundleSize < MinRsyncSize && w.mkdirStatus != 0 ==>
      DeploymentAsWritten(s, w) == Deployment(s, w)
      && DeploymentAsWritten(s, w).0 == Err(Exited(Exit(Connection.FailedMessage(w.mkdirStatus), w.mkdirStatus)))
    ensures Prepare(s, w).None? && TriesRsync(w) ==>
      DeploymentAsWritten(s, w).0 == Err(AttributeError("rsync_upload"))
    ensures Prepare(s, w).None? && !TriesRsync(w) && (w.bundleSize >= MinRsyncSize || w.mkdirStatus == 0) ==>
      DeploymentAsWritten(s, w).0 == Err(TypeError(PutRejected))
    ensures Prepare(s, w).None? && UploadExit(w).None? ==>
      Run(InstallCommand(s, QuotedPaths(s).bundle)) in Deployment(s, w).1
      && Run(InstallCommand(s, QuotedPaths(s).bundle)) !in DeploymentAsWritten(s, w).1
  {
    var p := QuotedPaths(s);
    UploadFails(p, w);
    Connection.ExitPolicy("", w.mkdirStatus, false);
    if Prepare(s, w).None? {
      var upload := UploadActions(p, w);
      assert upload[..1] == [Run(Mkdir(p, w))];
      if UploadExit(w).None? {
        var rest := Finish(s, w, p).1;
        FinishStartsWithInstall(s, w, p);
        assert Deployment(s, w).1 == upload + rest;
        assert (upload + rest)[..1] == upload[..1];
        assert (upload + rest)[|upload|] == Run(InstallCommand(s, p.bundle));
        assert InstallCommand(s, p.bundle)[0] == 's' && Mkdir(p, w)[0] == 'm';
      }
    }
  }

  /**
   * With the upload corrected, the install command reads `self.verbose`, a
   * field `Deploy` does not declare: the AttributeError ends every
   * deployment whose upload went through, before the installer runs.
   */
  function InstallStepAsWritten(s: Settings, w: World): (Result<Finished, Failure>, seq<Action>) {
    var stop := Prepare(s, w);
    if stop.Some? then (Err(stop.value), [])
    else
      var p := QuotedPaths(s);
      match UploadExit(w)
      case Some(e) => (Err(Exited(e)), UploadActions(p, w))
      case None => (Err(AttributeError("verbose")), UploadActions(p, w))
  }

  /** The upload runs no command other than its `mkdir` and `cp`, and neither rolls back nor records anything. */
  lemma UploadOnlyCopies(p: Paths, w: World, c: string)
    requires c != [] && c[0] != 'm' && c[0] != 'c'
    ensures Run(c) !in UploadActions(p, w)
    ensures forall a :: a in UploadActions(p, w) ==> !a.Rollback? && !a.LogDeploy?
  {
    var m := Mkdir(p, w);
    var cp := CopyCommand(p);
    assert Run(c) != Run(m) && Run(c) != Run(cp) by { assert m[0] == 'm' && cp[0] == 'c'; }
    UploadCases(p, w);
    var shapes := {[Run(m)], [Run(m), Upload(p.bundle)], [Run(m), RsyncUpload(p.staging), Run(cp)],
                   [Run(m), RsyncUpload(p.staging), Upload(p.bundle)]};
    assert UploadActions(p, w) in shapes;
  }

  /** The corrected installer step starts by running the installer. */
  lemma FinishStartsWithInstall(s: Settings, w: World, p: Paths)
    ensures Finish(s, w, p).1 != [] && Finish(s, w, p).1[0] == Run(InstallCommand(s, p.bundle))
  {
  }

  /**
   * With the upload corrected, no deployment succeeds either: it stops where
   * the corrected one runs the installer, so nothing is installed, rolled
   * back, removed, pruned or recorded; a failed `mkdir` or `cp` stops both
   * alike. This holds with the import cycle broken, the requirements hash,
   * the bundling's unpacking and the upload calls corrected; as written the
   * command stops earlier still (`AsWrittenStopsAtDigest`,
   * `AsWrittenStopsAtBundling`, `AsWrittenStopsAtUpload`).
   */
  lemma AsWrittenNeverInstalls(s: Settings, w: World)
    ensures InstallStepAsWritten(s, w).0.Err?
    ensures Prepare(s, w).None? && UploadExit(w).None? ==> InstallStepAsWritten(s, w).0 == Err(AttributeError("verbose"))
    ensures Prepare(s, w).None? && UploadExit(w).Some? ==> InstallStepAsWritten(s, w) == Deployment(s, w)
    ensures var done := InstallStepAsWritten(s, w).1;
      Prepare(s, w).None? && UploadExit(w).None? ==>
        |done| < |Deployment(s, w).1| && Deployment(s, w).1[..|done|] == done
        && Deployment(s, w).1[|done|] == Run(InstallCommand(s, QuotedPaths(s).bundle))
    ensures forall a :: a in InstallStepAsWritten(s, w).1 ==>
      !a.Rollback? && !a.LogDeploy? && a != Run(InstallCommand(s, QuotedPaths(s).bundle))
  {
    var p := QuotedPaths(s);
    assert InstallCommand(s, p.bundle)[0] == 's';
    UploadOnlyCopies(p, w, InstallCommand(s, p.bundle));
    if Prepare(s, w).None? && UploadExit(w).None? {
      var upload := UploadActions(p, w);
      var rest := Finish(s, w, p).1;
      FinishStartsWithInstall(s, w, p);
      assert Deployment(s, w).1 == upload + rest;
      assert (upload + rest)[..|upload|] == upload;
    }
  }

  /** What `Rollback(host=..., previous=True, strict=True)` raises: `Rollback` declares only `host`. */
  const RollbackRejected := "Rollback.__init__() got an unexpected keyword argument 'previous'"

  /**
   * The installer's exit code handled as written, once the handler catches
   * the connection's exit (`FinishCaughtAsWritten`): on code 3 with rollback
   * allowed, building the rollback command raises TypeError before the
   * prompt, outside the `try` whose `finally` removes the failed bundle.
   */
  function AfterInstallAsWritten(s: Settings, w: World, remove: Action): (Result<bool, Failure>, seq<Action>) {
    if w.installExit == 0 then (Ok(false), [])
    else if w.installExit != ServiceStartFailed then (Err(DeploymentError(InstallFailed(w.installExit))), [])
    else if s.noRollback then (Err(DeploymentError(RollbackDisabled)), [])
    else (Err(TypeError(RollbackRejected)), [])
  }

  /**
   * As written a failed service start neither rolls back nor removes the
   * failed bundle, which the corrected handling always removes; on every
   * other exit code the two agree.
   */
  lemma RollbackNeverConstructed(s: Settings, w: World, remove: Action)
    ensures w.installExit == ServiceStartFailed && !s.noRollback ==>
      AfterInstallAsWritten(s, w, remove) == (Err(TypeError(RollbackRejected)), [])
      && remove in AfterInstall(s, w, remove).1
    ensures w.installExit != ServiceStartFailed || s.noRollback ==>
      AfterInstallAsWritten(s, w, remove) == AfterInstall(s, w, remove)
  {
  }

  // ---------------------------------------------------------------------------
  // The installer's failure as written.

  /** The `cappa.Exit` both connections raise for a command that exits non-zero without `warn`. */
  function CommandFailed(code: int): Exit {
    Exit(Connection.FailedMessage(code), code)
  }

  /**
   * Everything after the upload as the handler reads: it catches
   * `CommandError`, while `conn.run` raises `cappa.Exit`, which no visible
   * file relates to `CommandError`. A failed installer therefore ends the
   * deployment with that exit, past the rollback, the `finally` that
   * removes the failed bundle, the pruning and the audit record.
   */
  function FinishCaughtAsWritten(s: Settings, w: World, p: Paths): (Result<Finished, Failure>, seq<Action>) {
    if w.installExit != 0 then (Err(Exited(CommandFailed(w.installExit))), [Run(InstallCommand(s, p.bundle))])
    else Finish(s, w, p)
  }

  /**
   * As written every installer failure propagates as the connection's exit
   * with no action after the install, where the corrected handler (catching
   * that exit and reading its code) reports code 3 separately and always
   * removes the failed bundle when rollback is allowed; on success the two
   * agree.
   */
  lemma CatchMissesExit(s: Settings, w: World, p: Paths)
    ensures w.installExit == 0 ==> FinishCaughtAsWritten(s, w, p) == Finish(s, w, p)
    ensures w.installExit != 0 ==>
      FinishCaughtAsWritten(s, w, p) == (Err(Exited(CommandFailed(w.installExit))), [Run(InstallCommand(s, p.bundle))])
      && Finish(s, w, p).1[..1] == FinishCaughtAsWritten(s, w, p).1
    ensures w.installExit == ServiceStartFailed && !s.noRollback ==>
      Run("rm -f " + p.bundle) in Finish(s, w, p).1 && Run("rm -f " + p.bundle) !in FinishCaughtAsWritten(s, w, p).1
    ensures w.installExit != 0 && w.installExit != ServiceStartFailed ==>
      Finish(s, w, p).0 == Err(DeploymentError(InstallFailed(w.installExit)))
  {
    assert InstallCommand(s, p.bundle)[0] == 's';
    assert ("rm -f " + p.bundle)[0] == 'r';
  }
}
