// The `new` command: scaffolding a service, timer, socket or drop-in file
// under `.fujin/systemd/`. The project directory is a set of directory paths
// and a map from file paths to contents; the unit templates are inputs.

module NewUnit {
  import opened Wrappers
  import opened Workspace

  const SystemdDir := ".fujin/systemd"

  /** The `kind` argument; cappa accepts only these four. */
  datatype Kind = Service | Timer | Socket | Dropin

  /** The template texts, each already formatted with the unit name where it takes one. */
  datatype Templates = Templates(
    service: string -> string,
    timerService: string -> string,
    timer: string -> string,
    socket: string -> string,
    dropin: string)

  /** What the command reports: the files it wrote, or the error it printed before `Exit(code=1)`. */
  datatype Outcome = Created(paths: seq<string>) | Failed(error: string)

  function ServicePath(name: string): string { SystemdDir + "/" + name + ".service" }
  function TimerPath(name: string): string { SystemdDir + "/" + name + ".timer" }
  function SocketPath(name: string): string { SystemdDir + "/" + name + ".socket" }

  /** `{service}.service.d` with `--service`, `common.d` without it (or with an empty one). */
  function DropinDir(service: Option<string>): (r: string)
    ensures service.Some? && service.value != "" ==> r == SystemdDir + "/" + service.value + ".service.d"
    ensures service.None? || service.value == "" ==> r == SystemdDir + "/common.d"
  {
    if service.Some? && service.value != "" then SystemdDir + "/" + service.value + ".service.d"
    else SystemdDir + "/common.d"
  }

  function DropinPath(service: Option<string>, name: string): string {
    DropinDir(service) + "/" + name + ".conf"
  }

  /** `_ensure_systemd_dir`: `mkdir(parents=True)` when missing. */
  function EnsureSystemdDir(fs: Fs): Fs {
    if Exists(fs, SystemdDir) then fs else Fs(fs.dirs + {".fujin", SystemdDir}, fs.files)
  }

  /** The command's effect on the project directory and what it reports. */
  function Run(fs: Fs, kind: Kind, name: string, service: Option<string>, t: Templates): (Fs, Outcome) {
    var fs1 := EnsureSystemdDir(fs);
    match kind
    case Service =>
      var p := ServicePath(name);
      if Exists(fs1, p) then (fs1, Failed(p + " already exists"))
      else (Fs(fs1.dirs, fs1.files[p := t.service(name)]), Created([p]))
    case Timer =>
      var sp, tp := ServicePath(name), TimerPath(name);
      if Exists(fs1, sp) || Exists(fs1, tp) then (fs1, Failed("Service or timer file already exists for '" + name + "'"))
      else (Fs(fs1.dirs, fs1.files[sp := t.timerService(name)][tp := t.timer(name)]), Created([sp, tp]))
    case Socket =>
      var p := SocketPath(name);
      if Exists(fs1, p) then (fs1, Failed(p + " already exists"))
      else (Fs(fs1.dirs, fs1.files[p := t.socket(name)]), Created([p]))
    case Dropin =>
      var fs2 := Fs(fs1.dirs + {DropinDir(service)}, fs1.files);
      var p := DropinPath(service, name);
      if Exists(fs2, p) then (fs2, Failed(p + " already exists"))
      else (Fs(fs2.dirs, fs2.files[p := t.dropin]), Created([p]))
  }

  /** `_ensure_systemd_dir` */
  method EnsureSystemd(p: Project)
    modifies p
    ensures p.State() == EnsureSystemdDir(old(p.State()))
  {
    if !Exists(p.State(), SystemdDir) {
      p.MakeDirs({".fujin", SystemdDir});
    }
  }

  /** `__call__`, dispatching on the kind. */
  method New(p: Project, kind: Kind, name: string, service: Option<string>, t: Templates) returns (outcome: Outcome)
    modifies p
    ensures (p.State(), outcome) == Run(old(p.State()), kind, name, service, t)
  {
    EnsureSystemd(p);
    match kind {
      case Service =>
        var f := ServicePath(name);
        if Exists(p.State(), f) {
          return Failed(f + " already exists");
        }
        p.Write(f, t.service(name));
        outcome := Created([f]);
      case Timer =>
        var sf, tf := ServicePath(name), TimerPath(name);
        if Exists(p.State(), sf) || Exists(p.State(), tf) {
          return Failed("Service or timer file already exists for '" + name + "'");
        }
        p.Write(sf, t.timerService(name));
        p.Write(tf, t.timer(name));
        outcome := Created([sf, tf]);
      case Socket =>
        var f := SocketPath(name);
        if Exists(p.State(), f) {
          return Failed(f + " already exists");
        }
        p.Write(f, t.socket(name));
        outcome := Created([f]);
      case Dropin =>
        p.MakeDirs({DropinDir(service)});
        var f := DropinPath(service, name);
        if Exists(p.State(), f) {
          return Failed(f + " already exists");
        }
        p.Write(f, t.dropin);
        outcome := Created([f]);
    }
  }

  // ---------------------------------------------------------------------------
  // What the command promises.

  /** Whatever happens, `.fujin/systemd` exists afterwards and no directory is removed. */
  lemma SystemdDirEnsured(fs: Fs, kind: Kind, name: string, service: Option<string>, t: Templates)
    ensures Exists(Run(fs, kind, name, service, t).0, SystemdDir)
    ensures fs.dirs <= Run(fs, kind, name, service, t).0.dirs
  {
  }

  /** A failure writes no file, and a success overwrites none: only the reported files are new. */
  lemma NoFileClobbered(fs: Fs, kind: Kind, name: string, service: Option<string>, t: Templates)
    ensures var (fs', outcome) := Run(fs, kind, name, service, t);
      (outcome.Failed? ==> fs'.files == fs.files)
      && (outcome.Created? ==>
            (forall p :: p in outcome.paths ==> !Exists(fs, p) && p in fs'.files)
            && fs'.files.Keys == fs.files.Keys + set p | p in outcome.paths
            && forall p :: p in fs.files ==> fs'.files[p] == fs.files[p])
  {
    var (fs', outcome) := Run(fs, kind, name, service, t);
    match kind
    case Timer =>
      TimerRule(fs, name, service, t);
      if outcome.Created? {
        TwoNewFiles(fs.files, ServicePath(name), TimerPath(name), t.timerService(name), t.timer(name));
      }
    case Service =>
      if outcome.Created? { OneNewFile(fs.files, ServicePath(name), t.service(name)); }
    case Socket =>
      if outcome.Created? { OneNewFile(fs.files, SocketPath(name), t.socket(name)); }
    case Dropin =>
      if outcome.Created? { OneNewFile(fs.files, DropinPath(service, name), t.dropin); }
  }

  lemma OneNewFile(files: map<string, string>, p: string, v: string)
    ensures files[p := v].Keys == files.Keys + set q | q in [p]
  {
    assert (set q | q in [p]) == {p};
  }

  lemma TwoNewFiles(files: map<string, string>, p1: string, p2: string, v1: string, v2: string)
    ensures files[p1 := v1][p2 := v2].Keys == files.Keys + set q | q in [p1, p2]
  {
    assert (set q | q in [p1, p2]) == {p1, p2};
  }

  /** A new service gets the service template at `.fujin/systemd/{name}.service`; an existing one is an error. */
  lemma ServiceRule(fs: Fs, name: string, service: Option<string>, t: Templates)
    ensures var (fs', outcome) := Run(fs, Service, name, service, t);
      if Exists(fs, ServicePath(name)) then outcome == Failed(ServicePath(name) + " already exists") && fs'.files == fs.files
      else outcome == Created([ServicePath(name)]) && fs'.files == fs.files[ServicePath(name) := t.service(name)]
  {
  }

  /** A timer needs neither `{name}.service` nor `{name}.timer` to exist; then it writes both. */
  lemma TimerRule(fs: Fs, name: string, service: Option<string>, t: Templates)
    ensures var (fs', outcome) := Run(fs, Timer, name, service, t);
      var sp, tp := ServicePath(name), TimerPath(name);
      (outcome.Failed? <==> Exists(fs, sp) || Exists(fs, tp))
      && (outcome.Created? ==>
            fs'.files[sp] == t.timerService(name) && fs'.files[tp] == t.timer(name))
  {
    var sp, tp := ServicePath(name), TimerPath(name);
    assert sp != tp by {
      assert sp[|sp| - 1] == 'e';
      assert tp[|tp| - 1] == 'r';
    }
  }

  /** A socket goes to `{name}.socket`; an existing one is an error. */
  lemma SocketRule(fs: Fs, name: string, service: Option<string>, t: Templates)
    ensures var (fs', outcome) := Run(fs, Socket, name, service, t);
      (outcome.Failed? <==> Exists(fs, SocketPath(name)))
      && (outcome.Created? ==> fs'.files == fs.files[SocketPath(name) := t.socket(name)])
  {
  }

  /** A drop-in goes to its directory, created even when the file already exists. */
  lemma DropinRule(fs: Fs, name: string, service: Option<string>, t: Templates)
    ensures var (fs', outcome) := Run(fs, Dropin, name, service, t);
      var p := DropinPath(service, name);
      DropinDir(service) in fs'.dirs
      && (outcome.Failed? <==> Exists(fs, p))
      && (outcome.Created? ==> fs'.files == fs.files[p := t.dropin])
  {
  }
}
