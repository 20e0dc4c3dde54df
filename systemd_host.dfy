// The server side of an installation: the files under /etc/systemd/system
// that both installers (`_installer.py` and the older `_installer/__main__.py`)
// converge on the deployed units, and the steps they share. A directory is a
// map from file name to content; a drop-in directory is a directory of its own.

module SystemdHost {
  import opened Wrappers
  import opened Strs
  import opened Units
  import opened Dicts
  import opened Commands

  /** The regular files of one directory, by name. */
  type Files = map<string, string>

  /** A `*.conf` drop-in read from the bundle. */
  datatype Conf = Conf(name: string, content: string)

  /** A `*.service.d` directory of the bundle with its `*.conf` files, in listing order. */
  datatype ServiceDropinDir = ServiceDropinDir(name: string, confs: seq<Conf>)

  /**
   * The bundle's `systemd/` directory: the unit files by name, the
   * `*.conf` drop-ins of `common.d` (empty when `common.d` is missing) and the
   * `*.service.d` directories, each in the order the directory lists them.
   */
  datatype Bundle = Bundle(sources: Files, common: seq<Conf>, services: seq<ServiceDropinDir>)

  /** The host: what the installers read and change. */
  class Host {
    /** Regular files directly under /etc/systemd/system. */
    var system: Files
    /** Regular files under /etc/systemd/system/multi-user.target.wants. */
    var wants: set<string>
    /** Drop-in directories under /etc/systemd/system, by directory name. */
    var dropins: map<string, Files>
    /** The Caddy site configuration file, when it exists. */
    var caddy: Option<string>
    /** The shell commands run so far, in order. */
    var commands: seq<Command>

    constructor (system: Files, wants: set<string>, dropins: map<string, Files>, caddy: Option<string>)
      ensures this.system == system && this.wants == wants && this.dropins == dropins
      ensures this.caddy == caddy && this.commands == []
    {
      this.system := system;
      this.wants := wants;
      this.dropins := dropins;
      this.caddy := caddy;
      this.commands := [];
    }

    /** Runs one shell command whose effect on the host the model does not track. */
    method Run(command: Command)
      modifies this
      ensures commands == old(commands) + [command]
      ensures system == old(system) && wants == old(wants) && dropins == old(dropins) && caddy == old(caddy)
    {
      commands := commands + [command];
    }

    /**
     * Removes every file matching `{app}*` that is not a valid unit, from the
     * system directory and from the wants directory.
     */
    method RemoveStaleFiles(app: string, valid: seq<string>)
      modifies this
      ensures system == Pruned(old(system), app, valid)
      ensures wants == PrunedNames(old(wants), app, valid)
      ensures dropins == old(dropins) && caddy == old(caddy) && commands == old(commands)
    {
      var rest := system.Keys;
      ghost var before := system;
      while rest != {}
        invariant rest <= before.Keys
        invariant forall n :: n in system <==> n in before && (n in rest || Keeps(n, app, valid))
        invariant forall n :: n in system ==> system[n] == before[n]
        invariant wants == old(wants) && dropins == old(dropins) && caddy == old(caddy) && commands == old(commands)
        decreases rest
      {
        var n :| n in rest;
        if !Keeps(n, app, valid) {
          system := system - {n};
        }
        rest := rest - {n};
      }
      assert system == Pruned(old(system), app, valid);
      var names := wants;
      while names != {}
        invariant names <= old(wants)
        invariant forall n :: n in wants <==> n in old(wants) && (n in names || Keeps(n, app, valid))
        invariant system == Pruned(old(system), app, valid)
        invariant dropins == old(dropins) && caddy == old(caddy) && commands == old(commands)
        decreases names
      {
        var n :| n in names;
        if !Keeps(n, app, valid) {
          wants := wants - {n};
        }
        names := names - {n};
      }
    }

    /** Writes every unit's service, socket and timer file under its installed name. */
    method WriteUnitFiles(units: seq<DeployedUnit>, sources: Files)
      modifies this
      ensures system == WithUnits(old(system), units, sources)
      ensures wants == old(wants) && dropins == old(dropins) && caddy == old(caddy) && commands == old(commands)
    {
      for i := 0 to |units|
        invariant system == WithUnits(old(system), units[..i], sources)
        invariant wants == old(wants) && dropins == old(dropins) && caddy == old(caddy) && commands == old(commands)
      {
        var u := units[i];
        assert units[..i + 1][..i] == units[..i];
        system := system[TemplateServiceName(u) := Read(sources, ServiceFile(u))];
        if u.hasSocket {
          system := system[TemplateSocketName(u).value := Read(sources, SocketFile(u).value)];
        }
        if u.hasTimer {
          system := system[TemplateTimerName(u).value := Read(sources, TimerFile(u).value)];
        }
      }
      assert units[..|units|] == units;
    }

    /** Copies every common drop-in into every unit's drop-in directory. */
    method DeployCommonDropins(units: seq<DeployedUnit>, common: seq<Conf>)
      modifies this
      ensures dropins == WithCommon(old(dropins), units, common)
      ensures system == old(system) && wants == old(wants) && caddy == old(caddy) && commands == old(commands)
    {
      for i := 0 to |common|
        invariant dropins == WithCommon(old(dropins), units, common[..i])
        invariant system == old(system) && wants == old(wants) && caddy == old(caddy) && commands == old(commands)
      {
        assert common[..i + 1][..i] == common[..i];
        ghost var start := dropins;
        for j := 0 to |units|
          invariant dropins == ConfToUnits(start, units[..j], common[i])
          invariant system == old(system) && wants == old(wants) && caddy == old(caddy) && commands == old(commands)
        {
          assert units[..j + 1][..j] == units[..j];
          dropins := AddConf(dropins, DropinDir(units[j]), common[i]);
        }
        assert units[..|units|] == units;
      }
      assert common[..|common|] == common;
    }

    /**
     * Copies each `*.service.d` directory of the bundle into the drop-in
     * directory of the first unit whose service file it belongs to.
     */
    method DeployServiceDropins(units: seq<DeployedUnit>, dirs: seq<ServiceDropinDir>)
      modifies this
      ensures dropins == WithServiceDropins(old(dropins), units, dirs)
      ensures system == old(system) && wants == old(wants) && caddy == old(caddy) && commands == old(commands)
    {
      for i := 0 to |dirs|
        invariant dropins == WithServiceDropins(old(dropins), units, dirs[..i])
        invariant system == old(system) && wants == old(wants) && caddy == old(caddy) && commands == old(commands)
      {
        assert dirs[..i + 1][..i] == dirs[..i];
        DeployServiceDir(units, dirs[i]);
      }
      assert dirs[..|dirs|] == dirs;
    }

    /** One `*.service.d` directory: its confs go to the matching unit, if there is one. */
    method DeployServiceDir(units: seq<DeployedUnit>, d: ServiceDropinDir)
      modifies this
      ensures dropins == WithServiceDir(old(dropins), units, d)
      ensures system == old(system) && wants == old(wants) && caddy == old(caddy) && commands == old(commands)
    {
      var matching := FindMatchingUnit(units, ServiceFileOf(d));
      if matching.Some? {
        var dir := DropinDir(matching.value);
        dropins := Mkdir(dropins, dir);
        WriteConfs(dir, d.confs);
      }
    }

    /** Writes each conf of a directory into `dir`, in order. */
    method WriteConfs(dir: string, confs: seq<Conf>)
      modifies this
      ensures dropins == ConfsInto(old(dropins), dir, confs)
      ensures system == old(system) && wants == old(wants) && caddy == old(caddy) && commands == old(commands)
    {
      for j := 0 to |confs|
        invariant dropins == ConfsInto(old(dropins), dir, confs[..j])
        invariant system == old(system) && wants == old(wants) && caddy == old(caddy) && commands == old(commands)
      {
        assert confs[..j + 1][..j] == confs[..j];
        dropins := AddConf(dropins, dir, confs[j]);
      }
      assert confs[..|confs|] == confs;
    }
  }

  // ---------------------------------------------------------------------------
  // Pruning stale files.

  /** A file survives pruning unless it matches `{app}*` and is not a valid unit. */
  predicate Keeps(n: string, app: string, valid: seq<string>) {
    !StartsWith(n, app) || n in valid
  }

  function Pruned(files: Files, app: string, valid: seq<string>): Files {
    map n | n in files && Keeps(n, app, valid) :: files[n]
  }

  function PrunedNames(names: set<string>, app: string, valid: seq<string>): set<string> {
    set n | n in names && Keeps(n, app, valid)
  }

  /** `Path.glob(prefix + "*" + suffix)` on one name. */
  predicate MatchesGlob(n: string, prefix: string, suffix: string) {
    |prefix| + |suffix| <= |n| && StartsWith(n, prefix) && EndsWith(n, suffix)
  }

  // ---------------------------------------------------------------------------
  // Writing the unit files.

  /** The content of a bundle file (every unit's files are in the bundle). */
  function Read(sources: Files, name: string): string {
    if name in sources then sources[name] else ""
  }

  /** Every file a unit names is present in the bundle. */
  predicate SourcesPresent(units: seq<DeployedUnit>, sources: Files) {
    forall u :: u in units ==>
      ServiceFile(u) in sources
      && (u.hasSocket ==> SocketFile(u).value in sources)
      && (u.hasTimer ==> TimerFile(u).value in sources)
  }

  function WithUnit(system: Files, u: DeployedUnit, sources: Files): Files {
    var withService := system[TemplateServiceName(u) := Read(sources, ServiceFile(u))];
    var withSocket :=
      if u.hasSocket then withService[TemplateSocketName(u).value := Read(sources, SocketFile(u).value)]
      else withService;
    if u.hasTimer then withSocket[TemplateTimerName(u).value := Read(sources, TimerFile(u).value)]
    else withSocket
  }

  function WithUnits(system: Files, units: seq<DeployedUnit>, sources: Files): Files {
    if units == [] then system
    else WithUnit(WithUnits(system, units[..|units| - 1], sources), units[|units| - 1], sources)
  }

  // ---------------------------------------------------------------------------
  // Drop-ins.

  /** The installed drop-in directory of a unit: `{template_service_name}.d`. */
  function DropinDir(u: DeployedUnit): string {
    TemplateServiceName(u) + ".d"
  }

  /** `mkdir(parents=True, exist_ok=True)` */
  function Mkdir(dropins: map<string, Files>, dir: string): map<string, Files> {
    if dir in dropins then dropins else dropins[dir := map[]]
  }

  /** Creates the directory if needed and writes one drop-in into it. */
  function AddConf(dropins: map<string, Files>, dir: string, c: Conf): map<string, Files> {
    var d := Mkdir(dropins, dir);
    d[dir := d[dir][c.name := c.content]]
  }

  function ConfToUnits(dropins: map<string, Files>, units: seq<DeployedUnit>, c: Conf): map<string, Files> {
    if units == [] then dropins
    else AddConf(ConfToUnits(dropins, units[..|units| - 1], c), DropinDir(units[|units| - 1]), c)
  }

  function WithCommon(dropins: map<string, Files>, units: seq<DeployedUnit>, common: seq<Conf>): map<string, Files> {
    if common == [] then dropins
    else ConfToUnits(WithCommon(dropins, units, common[..|common| - 1]), units, common[|common| - 1])
  }

  /** The service file a `*.service.d` directory belongs to. */
  function ServiceFileOf(d: ServiceDropinDir): string {
    RemoveSuffix(d.name, ".d")
  }

  /** The first unit whose service file is `serviceFile`. */
  function MatchingUnit(units: seq<DeployedUnit>, serviceFile: string): (r: Option<DeployedUnit>)
    ensures r.Some? ==> r.value in units && ServiceFile(r.value) == serviceFile
    ensures r.None? <==> forall u :: u in units ==> ServiceFile(u) != serviceFile
  {
    if units == [] then None
    else if ServiceFile(units[0]) == serviceFile then Some(units[0])
    else MatchingUnit(units[1..], serviceFile)
  }

  /** The match is the first unit, in configuration order, with that service file. */
  lemma {:induction false} MatchingUnitIsFirst(units: seq<DeployedUnit>, serviceFile: string, i: nat)
    requires i < |units| && ServiceFile(units[i]) == serviceFile
    requires forall j :: 0 <= j < i ==> ServiceFile(units[j]) != serviceFile
    ensures MatchingUnit(units, serviceFile) == Some(units[i])
    decreases i
  {
    if i > 0 {
      assert ServiceFile(units[0]) != serviceFile;
      forall j | 0 <= j < i - 1 ensures ServiceFile(units[1..][j]) != serviceFile {
        assert units[1..][j] == units[j + 1];
      }
      MatchingUnitIsFirst(units[1..], serviceFile, i - 1);
    }
  }

  /** The installers' search loop, which stops at the first match. */
  method FindMatchingUnit(units: seq<DeployedUnit>, serviceFile: string) returns (found: Option<DeployedUnit>)
    ensures found == MatchingUnit(units, serviceFile)
  {
    var i := 0;
    while i < |units|
      invariant 0 <= i <= |units|
      invariant MatchingUnit(units, serviceFile) == MatchingUnit(units[i..], serviceFile)
    {
      if ServiceFile(units[i]) == serviceFile {
        return Some(units[i]);
      }
      assert units[i..][1..] == units[i + 1..];
      i := i + 1;
    }
    return None;
  }

  function ConfsInto(dropins: map<string, Files>, dir: string, confs: seq<Conf>): map<string, Files> {
    if confs == [] then dropins
    else AddConf(ConfsInto(dropins, dir, confs[..|confs| - 1]), dir, confs[|confs| - 1])
  }

  function WithServiceDir(dropins: map<string, Files>, units: seq<DeployedUnit>, d: ServiceDropinDir): map<string, Files> {
    match MatchingUnit(units, ServiceFileOf(d))
    case None => dropins
    case Some(u) => ConfsInto(Mkdir(dropins, DropinDir(u)), DropinDir(u), d.confs)
  }

  function WithServiceDropins(dropins: map<string, Files>, units: seq<DeployedUnit>, dirs: seq<ServiceDropinDir>): map<string, Files> {
    if dirs == [] then dropins
    else WithServiceDir(WithServiceDropins(dropins, units, dirs[..|dirs| - 1]), units, dirs[|dirs| - 1])
  }

  // ---------------------------------------------------------------------------
  // Properties.

  /** Writing the unit files adds exactly the valid names and touches nothing else. */
  lemma {:induction false} WithUnitsKeys(system: Files, units: seq<DeployedUnit>, sources: Files)
    ensures forall n :: n in WithUnits(system, units, sources) <==> n in system || n in ValidUnits(units)
    ensures forall n :: n in system && n !in ValidUnits(units) ==> WithUnits(system, units, sources)[n] == system[n]
    decreases |units|
  {
    if units != [] {
      var front, last := units[..|units| - 1], units[|units| - 1];
      WithUnitsKeys(system, front, sources);
      assert ValidUnits(units) == ValidUnits(front) + FileNames(last);
    }
  }

  lemma DistinctSplit(a: seq<string>, b: seq<string>)
    requires Distinct(a + b)
    ensures Distinct(a)
    ensures forall x :: x in a ==> x !in b
  {
    forall i, j | 0 <= i < j < |a| ensures a[i] != a[j] {
      assert (a + b)[i] == a[i] && (a + b)[j] == a[j];
    }
    forall i, k | 0 <= i < |a| && 0 <= k < |b| ensures a[i] != b[k] {
      assert (a + b)[i] == a[i] && (a + b)[|a| + k] == b[k];
    }
  }

  /** Each unit's installed service file carries the bundle's content when no two units share a name. */
  lemma {:induction false} UnitFilesInstalled(system: Files, units: seq<DeployedUnit>, sources: Files, u: DeployedUnit)
    requires Distinct(ValidUnits(units))
    requires u in units
    ensures TemplateServiceName(u) in WithUnits(system, units, sources)
    ensures WithUnits(system, units, sources)[TemplateServiceName(u)] == Read(sources, ServiceFile(u))
    decreases |units|
  {
    var front, last := units[..|units| - 1], units[|units| - 1];
    if u != last {
      assert u in front by { assert units == front + [last]; }
      DistinctSplit(ValidUnits(front), FileNames(last));
      UnitFilesInstalled(system, front, sources, u);
      ValidUnitsMembers(front, TemplateServiceName(u));
      assert TemplateServiceName(u) !in FileNames(last);
    }
  }

  /**
   * Convergence: after pruning and writing, the files matching `{app}*` in the
   * system directory are exactly the valid units, and every other file is as
   * it was.
   */
  lemma Converges(system: Files, app: string, units: seq<DeployedUnit>, sources: Files)
    requires forall u :: u in units ==> u.appName == app
    ensures forall n :: StartsWith(n, app) ==>
      (n in WithUnits(Pruned(system, app, ValidUnits(units)), units, sources) <==> n in ValidUnits(units))
    ensures forall n :: !StartsWith(n, app) ==>
      (n in WithUnits(Pruned(system, app, ValidUnits(units)), units, sources) <==> n in system)
    ensures forall n :: !StartsWith(n, app) && n in system ==>
      WithUnits(Pruned(system, app, ValidUnits(units)), units, sources)[n] == system[n]
  {
    var valid := ValidUnits(units);
    WithUnitsKeys(Pruned(system, app, valid), units, sources);
    forall n | n in valid ensures StartsWith(n, app) {
      ValidUnitsMembers(units, n);
      var u :| u in units && n in FileNames(u);
      NamesArePrefixed(u);
      assert Prefix(u) == app + "-" + u.name;
    }
  }

  /** A conf written to every unit reaches each unit's directory, and leaves other confs alone. */
  lemma {:induction false} ConfToUnitsEffect(dropins: map<string, Files>, units: seq<DeployedUnit>, c: Conf)
    ensures forall u :: u in units ==>
      DropinDir(u) in ConfToUnits(dropins, units, c) && c.name in ConfToUnits(dropins, units, c)[DropinDir(u)]
      && ConfToUnits(dropins, units, c)[DropinDir(u)][c.name] == c.content
    ensures forall d, f :: d in dropins && f in dropins[d] && f != c.name ==>
      d in ConfToUnits(dropins, units, c) && f in ConfToUnits(dropins, units, c)[d]
      && ConfToUnits(dropins, units, c)[d][f] == dropins[d][f]
    decreases |units|
  {
    if units != [] {
      var front, last := units[..|units| - 1], units[|units| - 1];
      var before := ConfToUnits(dropins, front, c);
      var after := ConfToUnits(dropins, units, c);
      assert after == AddConf(before, DropinDir(last), c);
      ConfToUnitsEffect(dropins, front, c);
      AddConfEffect(before, DropinDir(last), c);
      assert forall u :: u in units ==> u in front || u == last by { assert units == front + [last]; }
    }
  }

  /** Writing one conf sets that file and keeps every other file of every directory. */
  lemma AddConfEffect(dropins: map<string, Files>, dir: string, c: Conf)
    ensures dir in AddConf(dropins, dir, c) && c.name in AddConf(dropins, dir, c)[dir]
    ensures AddConf(dropins, dir, c)[dir][c.name] == c.content
    ensures forall d, f :: d in dropins && f in dropins[d] && (d != dir || f != c.name) ==>
      d in AddConf(dropins, dir, c) && f in AddConf(dropins, dir, c)[d]
      && AddConf(dropins, dir, c)[d][f] == dropins[d][f]
  {
  }

  predicate DistinctConfNames(confs: seq<Conf>) {
    forall i, j :: 0 <= i < j < |confs| ==> confs[i].name != confs[j].name
  }

  /** Every common drop-in ends up, with its content, in every unit's drop-in directory. */
  lemma {:induction false} CommonDropinsEverywhere(dropins: map<string, Files>, units: seq<DeployedUnit>, common: seq<Conf>, u: DeployedUnit, c: Conf)
    requires DistinctConfNames(common)
    requires u in units && c in common
    ensures DropinDir(u) in WithCommon(dropins, units, common)
    ensures c.name in WithCommon(dropins, units, common)[DropinDir(u)]
    ensures WithCommon(dropins, units, common)[DropinDir(u)][c.name] == c.content
    decreases |common|
  {
    var front, last := common[..|common| - 1], common[|common| - 1];
    ConfToUnitsEffect(WithCommon(dropins, units, front), units, last);
    if c != last {
      assert c in front by { assert common == front + [last]; }
      var i :| 0 <= i < |front| && front[i] == c;
      assert common[i] == c && common[|common| - 1] == last;
      CommonDropinsEverywhere(dropins, units, front, u, c);
    }
  }

  /** The directories a batch of confs writes to. */
  lemma {:induction false} ConfsIntoKeys(dropins: map<string, Files>, dir: string, confs: seq<Conf>)
    ensures forall d :: d in ConfsInto(dropins, dir, confs) ==> d in dropins || d == dir
    decreases |confs|
  {
    if confs != [] {
      ConfsIntoKeys(dropins, dir, confs[..|confs| - 1]);
    }
  }

  /**
   * A service drop-in directory only ever lands in the drop-in directory of a
   * unit that is the first match of one of the bundle's `*.service.d`
   * directories; directories with no matching unit are skipped.
   */
  lemma {:induction false} ServiceDropinsTargets(dropins: map<string, Files>, units: seq<DeployedUnit>, dirs: seq<ServiceDropinDir>, k: string)
    requires k in WithServiceDropins(dropins, units, dirs) && k !in dropins
    ensures exists i :: 0 <= i < |dirs| && MatchingUnit(units, ServiceFileOf(dirs[i])).Some?
                          && k == DropinDir(MatchingUnit(units, ServiceFileOf(dirs[i])).value)
    decreases |dirs|
  {
    var front, last := dirs[..|dirs| - 1], dirs[|dirs| - 1];
    var before := WithServiceDropins(dropins, units, front);
    if k in before {
      ServiceDropinsTargets(dropins, units, front, k);
      var i :| 0 <= i < |front| && MatchingUnit(units, ServiceFileOf(front[i])).Some?
                && k == DropinDir(MatchingUnit(units, ServiceFileOf(front[i])).value);
      assert dirs[i] == front[i];
    } else {
      var m := MatchingUnit(units, ServiceFileOf(last));
      if m.Some? {
        ConfsIntoKeys(Mkdir(before, DropinDir(m.value)), DropinDir(m.value), last.confs);
      }
      assert dirs[|dirs| - 1] == last;
    }
  }
}
