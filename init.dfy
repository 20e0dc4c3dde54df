// The `init` command: a first `fujin.toml` and a `.fujin/` directory
// (systemd units, the common drop-in and a Caddyfile) for one of four
// profiles. The systemd templates, the TOML encoder and the TOML parser are
// inputs; the Caddyfile fragments are written out.

module Init {
  import opened Wrappers
  import opened Strs
  import opened Dicts
  import opened Workspace
  import Migrate

  type Value = Migrate.Value

  const FujinToml := "fujin.toml"
  const FujinDir := ".fujin"
  const SystemdDir := ".fujin/systemd"
  const CommonDir := ".fujin/systemd/common.d"
  const WebServicePath := ".fujin/systemd/web.service"
  const WebSocketPath := ".fujin/systemd/web.socket"
  const WorkerServicePath := ".fujin/systemd/worker.service"
  const BaseConfPath := ".fujin/systemd/common.d/base.conf"
  const CaddyfilePath := ".fujin/Caddyfile"

  /** The paths the command writes differ from one another (their lengths already do). */
  lemma PathsDistinct()
    ensures |FujinToml| == 10 && |CaddyfilePath| == 16 && |WebSocketPath| == 25
    ensures |WebServicePath| == 26 && |WorkerServicePath| == 29 && |BaseConfPath| == 33
  {
  }

  /** The `--profile` choices. */
  datatype Profile = Simple | Django | Falco | Binary

  // ---------------------------------------------------------------------------
  // The application name.

  /** `s.rfind(c)`: the last index of `c`, or -1. */
  function RFind(s: string, c: char): (r: int)
    ensures -1 <= r < |s|
    ensures r == -1 ==> c !in s
    ensures 0 <= r ==> s[r] == c && forall j :: r < j < |s| ==> s[j] != c
  {
    if s == [] then -1
    else if s[|s| - 1] == c then |s| - 1
    else
      var r := RFind(s[..|s| - 1], c);
      assert r == -1 ==> s == s[..|s| - 1] + [s[|s| - 1]];
      r
  }

  /** `PurePath.stem`: the name without its last suffix; a leading or trailing dot is no suffix. */
  function Stem(name: string): (r: string)
    ensures r <= name
  {
    var i := RFind(name, '.');
    if 0 < i < |name| - 1 then name[..i] else name
  }

  /** `stem.replace("-", "_").replace(" ", "_").lower()`, on the working directory's stem. */
  function AppName(dirName: string): (r: string)
    ensures |r| == |Stem(dirName)|
    ensures forall i :: 0 <= i < |r| ==> r[i] != '-' && r[i] != ' ' && !('A' <= r[i] <= 'Z')
  {
    Lower(ReplaceChar(ReplaceChar(Stem(dirName), '-', '_'), ' ', '_'))
  }

  /** The index `RFind` reports is the separator in front of a suffix free of it. */
  lemma {:induction false} RFindAt(a: string, b: string, c: char)
    requires c !in b
    ensures RFind(a + [c] + b, c) == |a|
    decreases |b|
  {
    var s := a + [c] + b;
    if b != [] {
      assert s[..|s| - 1] == a + [c] + b[..|b| - 1];
      RFindAt(a, b[..|b| - 1], c);
    }
  }

  lemma StemWithoutDot(name: string)
    requires '.' !in name
    ensures Stem(name) == name
  {
  }

  /** A directory called `base.ext` gives `base`. */
  lemma StemDropsSuffix(base: string, ext: string)
    requires base != [] && ext != [] && '.' !in ext
    ensures Stem(base + "." + ext) == base
  {
    RFindAt(base, ext, '.');
    assert (base + "." + ext)[..|base|] == base;
  }

  /** A name that is already lower-case, dot-free and without `-` or spaces is kept as it is. */
  lemma AppNameFixed(name: string)
    requires forall i :: 0 <= i < |name| ==> name[i] != '-' && name[i] != ' ' && name[i] != '.' && !('A' <= name[i] <= 'Z')
    ensures AppName(name) == name
  {
    assert '.' !in name by {
      forall i | 0 <= i < |name| ensures name[i] != '.' { }
    }
    StemWithoutDot(name);
  }

  /** The directories `my-test-app` and `my test app` both give `my_test_app`. */
  lemma AppNameExamples()
    ensures AppName("my-test-app") == "my_test_app"
    ensures AppName("my test app") == "my_test_app"
  {
    StemWithoutDot("my-test-app");
    StemWithoutDot("my test app");
  }

  // ---------------------------------------------------------------------------
  // `fujin.toml`.

  const BuildCommand := "uv build && uv pip compile pyproject.toml -o requirements.txt > /dev/null"

  /** `InstallationMode.PY_PACKAGE`, written as its string value. */
  const PythonPackage := "python-package"

  function Aliases(): Dict<Value> {
    [("shell", Migrate.Str("exec --appenv bash")), ("status", Migrate.Str("app info")),
     ("logs", Migrate.Str("app logs")), ("restart", Migrate.Str("app restart"))]
  }

  function Distfile(app: string): string {
    "dist/" + app + "-{version}-py3-none-any.whl"
  }

  function DefaultHost(app: string): Value {
    Migrate.Table([("user", Migrate.Str("deploy")), ("address", Migrate.Str(app + ".com")),
                   ("envfile", Migrate.Str(".env.prod"))])
  }

  /** The dictionary `_generate_toml` starts from, in its key order. */
  function BaseConfig(app: string): (r: Dict<Value>)
    ensures Keys(r) == ["app", "version", "build_command", "distfile", "requirements",
                        "installation_mode", "aliases", "hosts"]
    ensures DistinctKeys(r)
  {
    ConfigKeysDistinct();
    [("app", Migrate.Str(app)), ("version", Migrate.Str("0.0.1")),
     ("build_command", Migrate.Str(BuildCommand)), ("distfile", Migrate.Str(Distfile(app))),
     ("requirements", Migrate.Str("requirements.txt")),
     ("installation_mode", Migrate.Str(PythonPackage)),
     ("aliases", Migrate.Table(Aliases())), ("hosts", Migrate.Arr([DefaultHost(app)]))]
  }

  lemma ConfigKeysDistinct()
    ensures Distinct(["app", "version", "build_command", "distfile", "requirements",
                      "installation_mode", "aliases", "hosts"])
  {
    var ks: seq<string> := ["app", "version", "build_command", "distfile", "requirements",
                            "installation_mode", "aliases", "hosts"];
    forall i, j | 0 <= i < j < |ks| ensures ks[i] != ks[j] {
      assert ks[i][0] != ks[j][0] || |ks[i]| != |ks[j]|;
    }
  }

  /** `pyproject.get("project", {})` only works when `project` is absent or a table. */
  predicate ProjectIsTable(pyproject: Dict<Value>) {
    match Get(pyproject, "project")
    case None => true
    case Some(v) => v.Table?
  }

  function ProjectTable(pyproject: Dict<Value>): Dict<Value>
    requires ProjectIsTable(pyproject)
  {
    match Get(pyproject, "project")
    case None => []
    case Some(v) => v.t
  }

  /** `project.get("version")` is truthy. */
  predicate HasVersion(project: Dict<Value>) {
    match Get(project, "version")
    case None => false
    case Some(v) => Migrate.Truthy(v)
  }

  /** The steps `_generate_toml` takes after the dictionary literal `c0`. */
  function Configure(c0: Dict<Value>, app: string, pythonVersionFile: bool, pyproject: Option<Dict<Value>>): (r: Dict<Value>)
    requires DistinctKeys(c0)
    requires pyproject.Some? ==> ProjectIsTable(pyproject.value)
    ensures DistinctKeys(r)
  {
    var c1 := if pythonVersionFile then c0 else Put(c0, "python_version", Migrate.Str("3.12"));
    PutKeepsDistinct(c0, "python_version", Migrate.Str("3.12"));
    match pyproject
    case None => c1
    case Some(py) =>
      var project := ProjectTable(py);
      var c2 := Put(c1, "app", GetOr(project, "name", Migrate.Str(app)));
      PutKeepsDistinct(c1, "app", GetOr(project, "name", Migrate.Str(app)));
      if HasVersion(project) then Remove(c2, "version") else c2
  }

  /** The configuration `_generate_toml` returns, given whether `.python-version` exists and the parsed `pyproject.toml`. */
  function TomlConfig(app: string, pythonVersionFile: bool, pyproject: Option<Dict<Value>>): Dict<Value>
    requires pyproject.Some? ==> ProjectIsTable(pyproject.value)
  {
    Configure(BaseConfig(app), app, pythonVersionFile, pyproject)
  }

  /** `_generate_toml`: the literal, then `python_version`, then the pyproject overrides. */
  method GenerateToml(app: string, pythonVersionFile: bool, pyproject: Option<Dict<Value>>) returns (config: Dict<Value>)
    requires pyproject.Some? ==> ProjectIsTable(pyproject.value)
    ensures config == TomlConfig(app, pythonVersionFile, pyproject)
  {
    config := BaseConfig(app);
    if !pythonVersionFile {
      PutKeepsDistinct(config, "python_version", Migrate.Str("3.12"));
      config := Put(config, "python_version", Migrate.Str("3.12"));
    }
    if pyproject.Some? {
      var project := ProjectTable(pyproject.value);
      var name := GetOr(project, "name", Migrate.Str(app));
      PutKeepsDistinct(config, "app", name);
      config := Put(config, "app", name);
      if HasVersion(project) {
        config := Remove(config, "version");
      }
    }
  }

  /** Each key after the steps: `version` goes when the pyproject has a version, `app` takes the
      pyproject's name, `python_version` is added without a `.python-version` file, and every other
      entry stays as the literal has it. */
  lemma ConfigureGet(c0: Dict<Value>, app: string, pythonVersionFile: bool, pyproject: Option<Dict<Value>>, k: string)
    requires DistinctKeys(c0)
    requires pyproject.Some? ==> ProjectIsTable(pyproject.value)
    ensures Get(Configure(c0, app, pythonVersionFile, pyproject), k) ==
      if k == "version" && pyproject.Some? && HasVersion(ProjectTable(pyproject.value)) then None
      else if k == "app" && pyproject.Some? then Some(GetOr(ProjectTable(pyproject.value), "name", Migrate.Str(app)))
      else if k == "python_version" && !pythonVersionFile then Some(Migrate.Str("3.12"))
      else Get(c0, k)
  {
    assert |"version"| == 7 && |"app"| == 3 && |"python_version"| == 14;
  }

  /** The entries of the starting dictionary the lemmas below read. */
  lemma BaseConfigGets(app: string)
    ensures Get(BaseConfig(app), "app") == Some(Migrate.Str(app))
    ensures Get(BaseConfig(app), "version") == Some(Migrate.Str("0.0.1"))
  {
  }

  /** The entries that carry the directory's name. */
  lemma BaseConfigNamed(app: string)
    ensures Get(BaseConfig(app), "distfile") == Some(Migrate.Str(Distfile(app)))
    ensures Get(BaseConfig(app), "hosts") == Some(Migrate.Arr([DefaultHost(app)]))
  {
    GetAt(BaseConfig(app), 3);
    GetAt(BaseConfig(app), 7);
  }

  /** Keys the starting dictionary lacks. */
  lemma BaseConfigLacks(app: string, k: string)
    requires k == "python_version" || k == "processes" || k == "sites"
    ensures Get(BaseConfig(app), k).None?
  {
    assert k !in Keys(BaseConfig(app));
  }

  /** `app` is the pyproject's `project.name` when there is a pyproject, the directory's name otherwise. */
  lemma TomlApp(app: string, pythonVersionFile: bool, pyproject: Option<Dict<Value>>)
    requires pyproject.Some? ==> ProjectIsTable(pyproject.value)
    ensures Get(TomlConfig(app, pythonVersionFile, pyproject), "app") ==
      Some(if pyproject.None? then Migrate.Str(app) else GetOr(ProjectTable(pyproject.value), "name", Migrate.Str(app)))
  {
    ConfigureGet(BaseConfig(app), app, pythonVersionFile, pyproject, "app");
    BaseConfigGets(app);
  }

  /** `version = "0.0.1"` is kept unless the pyproject has a truthy `project.version`. */
  lemma TomlVersion(app: string, pythonVersionFile: bool, pyproject: Option<Dict<Value>>)
    requires pyproject.Some? ==> ProjectIsTable(pyproject.value)
    ensures Get(TomlConfig(app, pythonVersionFile, pyproject), "version") ==
      if pyproject.Some? && HasVersion(ProjectTable(pyproject.value)) then None else Some(Migrate.Str("0.0.1"))
  {
    ConfigureGet(BaseConfig(app), app, pythonVersionFile, pyproject, "version");
    BaseConfigGets(app);
  }

  /** `python_version = "3.12"` exactly when there is no `.python-version` file. */
  lemma TomlPythonVersion(app: string, pythonVersionFile: bool, pyproject: Option<Dict<Value>>)
    requires pyproject.Some? ==> ProjectIsTable(pyproject.value)
    ensures Get(TomlConfig(app, pythonVersionFile, pyproject), "python_version") ==
      if pythonVersionFile then None else Some(Migrate.Str("3.12"))
  {
    ConfigureGet(BaseConfig(app), app, pythonVersionFile, pyproject, "python_version");
    BaseConfigLacks(app, "python_version");
  }

  /** The distfile and the host address keep the directory's name even when the pyproject renames the app,
      and no processes or sites are generated. */
  lemma TomlKeepsDirectoryName(app: string, pythonVersionFile: bool, pyproject: Option<Dict<Value>>)
    requires pyproject.Some? ==> ProjectIsTable(pyproject.value)
    ensures var r := TomlConfig(app, pythonVersionFile, pyproject);
      Get(r, "distfile") == Some(Migrate.Str(Distfile(app)))
      && Get(r, "hosts") == Some(Migrate.Arr([DefaultHost(app)]))
      && Get(r, "processes").None? && Get(r, "sites").None?
  {
    var c0 := BaseConfig(app);
    ConfigureGet(c0, app, pythonVersionFile, pyproject, "distfile");
    ConfigureGet(c0, app, pythonVersionFile, pyproject, "hosts");
    ConfigureGet(c0, app, pythonVersionFile, pyproject, "processes");
    ConfigureGet(c0, app, pythonVersionFile, pyproject, "sites");
    BaseConfigNamed(app);
    BaseConfigLacks(app, "processes");
    BaseConfigLacks(app, "sites");
  }

  // ---------------------------------------------------------------------------
  // The Caddyfile.

  /** A route's target: a table with a `static` key, a service name, or any other table. */
  datatype Target = StaticDir(root: string) | Named(name: string) | OtherTable

  /** The web socket's path. The source spells it out separately in the gunicorn command, the socket
      unit and the Caddy upstream; the three spellings agree. */
  const WebSock := "/run/{app_name}/web.sock"

  /** `unix//run/{app_name}/web.sock` */
  const WebUpstream := "unix/" + WebSock

  /** `CADDYFILE_HEADER.format(app_name, domain)`, `CADDY_HANDLE_STATIC.format(path, root)` and
      `CADDY_HANDLE_PROXY.format(name, path, upstream, extra_directives)`. */
  datatype CaddyTemplates = CaddyTemplates(
    header: (string, string) -> string,
    handleStatic: (string, string) -> string,
    handleProxy: (string, string, string, string) -> string)

  /** The upstream of a proxied route: the web socket for `web`, `localhost:8000` for anything else. */
  function Upstream(target: Target): (r: string)
    requires !target.StaticDir?
    ensures r == WebUpstream <==> target == Named("web")
  {
    if target == Named("web") then WebUpstream else "localhost:8000"
  }

  /** One route's block. */
  function Handle(c: CaddyTemplates, route: string, target: Target): string {
    match target
    case StaticDir(root) => c.handleStatic(route, root)
    case Named(name) => c.handleProxy(name, route, Upstream(target), "")
    case OtherTable => c.handleProxy("web", route, Upstream(target), "")
  }

  /** The route blocks in route order. */
  function Handles(c: CaddyTemplates, routes: seq<(string, Target)>): string {
    if routes == [] then "" else Handles(c, routes[..|routes| - 1]) + Handle(c, routes[|routes| - 1].0, routes[|routes| - 1].1)
  }

  function CaddyfileText(c: CaddyTemplates, app: string, routes: seq<(string, Target)>): string {
    c.header(app, app + ".com") + Handles(c, routes) + "}\n"
  }

  /** `_create_caddyfile`'s loop: the header, one block per route, then the closing brace. */
  method CaddyfileContent(c: CaddyTemplates, app: string, routes: seq<(string, Target)>) returns (content: string)
    ensures content == CaddyfileText(c, app, routes)
  {
    content := c.header(app, app + ".com");
    for i := 0 to |routes|
      invariant content == c.header(app, app + ".com") + Handles(c, routes[..i])
    {
      HandlesNext(c, routes, i);
      AppendAssoc(c.header(app, app + ".com"), Handles(c, routes[..i]), Handle(c, routes[i].0, routes[i].1));
      content := content + Handle(c, routes[i].0, routes[i].1);
    }
    assert routes[..|routes|] == routes;
    content := content + "}\n";
  }

  lemma HandlesNext(c: CaddyTemplates, routes: seq<(string, Target)>, i: nat)
    requires i < |routes|
    ensures Handles(c, routes[..i + 1]) == Handles(c, routes[..i]) + Handle(c, routes[i].0, routes[i].1)
  {
    assert routes[..i + 1][..i] == routes[..i];
  }

  lemma HandlesSingle(c: CaddyTemplates, x: (string, Target))
    ensures Handles(c, [x]) == Handle(c, x.0, x.1)
  {
    assert [x][..0] == [];
  }

  /** Route blocks of consecutive route lists follow one another. */
  lemma {:induction false} HandlesAppend(c: CaddyTemplates, a: seq<(string, Target)>, b: seq<(string, Target)>)
    ensures Handles(c, a + b) == Handles(c, a) + Handles(c, b)
    decreases |b|
  {
    if b == [] {
      assert a + b == a;
    } else {
      var b' := b[..|b| - 1];
      assert (a + b)[..|a + b| - 1] == a + b';
      HandlesAppend(c, a, b');
    }
  }

  /** The file opens with the header for `{app}.com` and closes the site block. */
  lemma CaddyfileFrame(c: CaddyTemplates, app: string, routes: seq<(string, Target)>)
    ensures StartsWith(CaddyfileText(c, app, routes), c.header(app, app + ".com"))
    ensures EndsWith(CaddyfileText(c, app, routes), "}\n")
  {
    var text := CaddyfileText(c, app, routes);
    assert text[..|c.header(app, app + ".com")|] == c.header(app, app + ".com");
    assert text[|text| - 2..] == "}\n";
  }

  // ---------------------------------------------------------------------------
  // Profiles.

  /** The arguments a profile passes to `SERVICE_TEMPLATE.format`, besides the `{app_name}` and `{user}` placeholders. */
  datatype ServiceArgs = ServiceArgs(description: string, descriptionSuffix: string, serviceType: string,
                                     execStartPre: string, execStart: string)

  /** The arguments passed to `SOCKET_TEMPLATE.format`, besides the placeholders and the empty suffixes. */
  datatype SocketArgs = SocketArgs(name: string, listenStream: string)

  /** The formatted systemd and Caddy templates, the TOML encoder (`tomli_w.dumps`) and parser (`tomllib.loads`). */
  datatype Templates = Templates(
    service: ServiceArgs -> string,
    socket: SocketArgs -> string,
    baseDropin: string -> string,
    caddy: CaddyTemplates,
    dumps: Dict<Value> -> string,
    loads: string -> Dict<Value>)

  const WebSocket := SocketArgs("web", WebSock)

  function Gunicorn(app: string): string {
    "{app_dir}/.venv/bin/gunicorn " + app + ".wsgi:application --bind unix:" + WebSock
  }

  /** Django's third pre-start line: copy the collected static files where Caddy serves them. */
  const StaticCopy := "ExecStartPre=/bin/bash -c 'sudo mkdir -p /var/www/{app_name}/static/ && sudo rsync -a --delete staticfiles/ /var/www/{app_name}/static/'\n"

  function DjangoPre(app: string): string {
    "ExecStartPre={app_dir}/.venv/bin/" + app + " migrate\n"
    + "ExecStartPre={app_dir}/.venv/bin/" + app + " collectstatic --no-input\n"
    + StaticCopy
  }

  /** The web service each profile writes. */
  function WebArgs(profile: Profile, app: string): ServiceArgs {
    match profile
    case Simple => ServiceArgs("Web service for " + app, "web server", "notify", "", Gunicorn(app))
    case Django => ServiceArgs("Django web service for " + app, "Django web server", "notify", DjangoPre(app), Gunicorn(app))
    case Falco => ServiceArgs("Falco web service for " + app, "Falco web server", "simple",
                              "ExecStartPre={app_dir}/.venv/bin/" + app + " setup\n",
                              "{app_dir}/.venv/bin/" + app + " prodserver")
    case Binary => ServiceArgs("Binary web service for " + app, "web server (binary)", "simple",
                               "ExecStartPre={app_dir}/" + app + " migrate\n",
                               "{app_dir}/" + app + " prodserver")
  }

  /** Falco's worker service. */
  function WorkerArgs(app: string): ServiceArgs {
    ServiceArgs("Falco worker service for " + app, "Falco database worker", "simple", "",
                "{app_dir}/.venv/bin/" + app + " db_worker")
  }

  /** The routes each profile hands to `_create_caddyfile`. */
  function ProfileRoutes(profile: Profile, app: string): seq<(string, Target)> {
    if profile == Django then [("/static/*", StaticDir("/var/www/" + app + "/static/")), ("/*", Named("web"))]
    else [("/*", Named("web"))]
  }

  /** The project after a profile generator ran. */
  function ProfileFs(fs: Fs, profile: Profile, app: string, t: Templates): Fs {
    var dirs := fs.dirs + {FujinDir, SystemdDir, CommonDir};
    var web := fs.files[WebServicePath := t.service(WebArgs(profile, app))];
    var units :=
      if profile == Simple || profile == Django then web[WebSocketPath := t.socket(WebSocket)]
      else if profile == Falco then web[WorkerServicePath := t.service(WorkerArgs(app))]
      else web;
    Fs(dirs, units[BaseConfPath := t.baseDropin(app)][CaddyfilePath := CaddyfileText(t.caddy, app, ProfileRoutes(profile, app))])
  }

  /** The paths announced with `Created`, in the order they are written. */
  function Created(profile: Profile): seq<string> {
    match profile
    case Simple => [WebServicePath, WebSocketPath, BaseConfPath, CaddyfilePath]
    case Django => [WebServicePath, WebSocketPath, BaseConfPath, CaddyfilePath]
    case Falco => [WebServicePath, WorkerServicePath, BaseConfPath, CaddyfilePath]
    case Binary => [WebServicePath, BaseConfPath, CaddyfilePath]
  }

  /** `_create_common_dropins` */
  method CreateCommonDropins(p: Project, app: string, t: Templates)
    modifies p
    ensures p.State() == Fs(old(p.dirs) + {CommonDir}, old(p.files)[BaseConfPath := t.baseDropin(app)])
  {
    p.MakeDirs({CommonDir});
    p.Write(BaseConfPath, t.baseDropin(app));
  }

  /** `_create_caddyfile` */
  method CreateCaddyfile(p: Project, c: CaddyTemplates, app: string, routes: seq<(string, Target)>)
    modifies p
    ensures p.State() == Fs(old(p.dirs), old(p.files)[CaddyfilePath := CaddyfileText(c, app, routes)])
  {
    var content := CaddyfileContent(c, app, routes);
    p.Write(CaddyfilePath, content);
  }

  /** `_generate_simple` and `_generate_django`: web service, web socket, drop-in, Caddyfile. */
  method GenerateSocketActivated(p: Project, profile: Profile, app: string, t: Templates)
    requires profile == Simple || profile == Django
    modifies p
    ensures p.State() == ProfileFs(old(p.State()), profile, app, t)
  {
    p.MakeDirs({FujinDir, SystemdDir});
    p.Write(WebServicePath, t.service(WebArgs(profile, app)));
    p.Write(WebSocketPath, t.socket(WebSocket));
    CreateCommonDropins(p, app, t);
    CreateCaddyfile(p, t.caddy, app, ProfileRoutes(profile, app));
  }

  /** `_generate_falco`: web and worker services, drop-in, Caddyfile. */
  method GenerateFalco(p: Project, app: string, t: Templates)
    modifies p
    ensures p.State() == ProfileFs(old(p.State()), Falco, app, t)
  {
    p.MakeDirs({FujinDir, SystemdDir});
    p.Write(WebServicePath, t.service(WebArgs(Falco, app)));
    p.Write(WorkerServicePath, t.service(WorkerArgs(app)));
    CreateCommonDropins(p, app, t);
    CreateCaddyfile(p, t.caddy, app, ProfileRoutes(Falco, app));
  }

  /** `_generate_binary`: web service, drop-in, Caddyfile. */
  method GenerateBinary(p: Project, app: string, t: Templates)
    modifies p
    ensures p.State() == ProfileFs(old(p.State()), Binary, app, t)
  {
    p.MakeDirs({FujinDir, SystemdDir});
    p.Write(WebServicePath, t.service(WebArgs(Binary, app)));
    CreateCommonDropins(p, app, t);
    CreateCaddyfile(p, t.caddy, app, ProfileRoutes(Binary, app));
  }

  /** `profile_generators[self.profile](app_name, fujin_dir)` */
  method GenerateProfile(p: Project, profile: Profile, app: string, t: Templates)
    modifies p
    ensures p.State() == ProfileFs(old(p.State()), profile, app, t)
  {
    match profile {
      case Simple => GenerateSocketActivated(p, Simple, app, t);
      case Django => GenerateSocketActivated(p, Django, app, t);
      case Falco => GenerateFalco(p, app, t);
      case Binary => GenerateBinary(p, app, t);
    }
  }

  /** Every profile writes `web.service`, the common drop-in and the Caddyfile; `web.socket` comes with
      simple and django only, `worker.service` with falco only. */
  lemma ProfileCreates(profile: Profile)
    ensures WebServicePath in Created(profile) && BaseConfPath in Created(profile) && CaddyfilePath in Created(profile)
    ensures WebSocketPath in Created(profile) <==> profile == Simple || profile == Django
    ensures WorkerServicePath in Created(profile) <==> profile == Falco
  {
    PathsDistinct();
  }

  /** A generator writes exactly the files it announces, with the profile's contents, and creates its directories. */
  lemma ProfileFiles(fs: Fs, profile: Profile, app: string, t: Templates)
    ensures var r := ProfileFs(fs, profile, app, t);
      (forall path :: path in r.files <==> path in fs.files || path in Created(profile))
      && r.files[WebServicePath] == t.service(WebArgs(profile, app))
      && r.files[BaseConfPath] == t.baseDropin(app)
      && r.files[CaddyfilePath] == CaddyfileText(t.caddy, app, ProfileRoutes(profile, app))
      && r.dirs == fs.dirs + {FujinDir, SystemdDir, CommonDir}
  {
    ProfileKeys(fs, profile, app, t);
    ProfileValues(fs, profile, app, t);
  }

  lemma ProfileValues(fs: Fs, profile: Profile, app: string, t: Templates)
    ensures var r := ProfileFs(fs, profile, app, t);
      r.files[WebServicePath] == t.service(WebArgs(profile, app))
      && r.files[BaseConfPath] == t.baseDropin(app)
      && r.files[CaddyfilePath] == CaddyfileText(t.caddy, app, ProfileRoutes(profile, app))
  {
    PathsDistinct();
  }

  lemma ProfileKeys(fs: Fs, profile: Profile, app: string, t: Templates)
    ensures var r := ProfileFs(fs, profile, app, t);
      forall path :: path in r.files <==> path in fs.files || path in Created(profile)
  {
    var r := ProfileFs(fs, profile, app, t);
    match profile {
      case Simple =>
      case Django =>
      case Falco =>
      case Binary =>
    }
  }

  /** Files the profile does not announce are left alone. */
  lemma ProfileKeepsOthers(fs: Fs, profile: Profile, app: string, t: Templates, path: string)
    requires path in fs.files && path !in Created(profile)
    ensures ProfileFs(fs, profile, app, t).files[path] == fs.files[path]
  {
  }

  /** Where a socket is written, gunicorn binds the path the socket listens on, and Caddy proxies every other path to it. */
  lemma SocketPathsAgree(profile: Profile, app: string)
    requires profile == Simple || profile == Django
    ensures EndsWith(WebArgs(profile, app).execStart, WebSocket.listenStream)
    ensures var routes := ProfileRoutes(profile, app);
      routes[|routes| - 1] == ("/*", Named("web")) && Upstream(Named("web")) == "unix/" + WebSocket.listenStream
  {
    EndsWithAppend("{app_dir}/.venv/bin/gunicorn " + app + ".wsgi:application --bind unix:", WebSock);
  }

  lemma EndsWithAppend(a: string, b: string)
    ensures EndsWith(a + b, b)
  {
    assert (a + b)[|a|..] == b;
  }

  /** Falco and binary write no socket unit, yet their Caddyfile still proxies every path to the web socket. */
  lemma ProxyWithoutSocket(c: CaddyTemplates, profile: Profile, app: string)
    requires profile == Falco || profile == Binary
    ensures WebSocketPath !in Created(profile)
    ensures CaddyfileText(c, app, ProfileRoutes(profile, app)) ==
      c.header(app, app + ".com") + c.handleProxy("web", "/*", WebUpstream, "") + "}\n"
  {
    PathsDistinct();
    HandlesSingle(c, ("/*", Named("web")));
  }

  /** Django serves the static route from `/var/www/{app}/static/` before proxying the rest. */
  lemma DjangoCaddyfile(c: CaddyTemplates, app: string)
    ensures CaddyfileText(c, app, ProfileRoutes(Django, app)) ==
      c.header(app, app + ".com")
      + c.handleStatic("/static/*", "/var/www/" + app + "/static/")
      + c.handleProxy("web", "/*", WebUpstream, "") + "}\n"
  {
    var routes := ProfileRoutes(Django, app);
    var header := c.header(app, app + ".com");
    var staticBlock := c.handleStatic("/static/*", "/var/www/" + app + "/static/");
    var proxy := c.handleProxy("web", "/*", WebUpstream, "");
    assert routes[..1] == [routes[0]];
    HandlesSingle(c, routes[0]);
    assert Handles(c, routes) == staticBlock + proxy;
    calc {
      CaddyfileText(c, app, routes);
      header + (staticBlock + proxy) + "}\n";
      { AppendAssoc(header, staticBlock, proxy); }
      header + staticBlock + proxy + "}\n";
    }
  }

  // ---------------------------------------------------------------------------
  // The command.

  /** What the command reports: the warning it stopped at, or the files it announced. */
  datatype Outcome = Skipped(warning: string) | Generated(created: seq<string>)

  /** The parsed `pyproject.toml`, when there is one. */
  function PyProject(fs: Fs, t: Templates): Option<Dict<Value>> {
    if "pyproject.toml" in fs.files then Some(t.loads(fs.files["pyproject.toml"])) else None
  }

  /** Past the guards, `pyproject.toml` must be a readable file whose `project` entry is a table. */
  predicate Readable(fs: Fs, t: Templates) {
    !Exists(fs, FujinToml) && !Exists(fs, FujinDir) && Exists(fs, "pyproject.toml") ==>
      "pyproject.toml" in fs.files && ProjectIsTable(t.loads(fs.files["pyproject.toml"]))
  }

  /** The command's effect on the working directory `dirName` and what it reports. */
  function RunInit(fs: Fs, dirName: string, profile: Profile, t: Templates): (r: (Fs, Outcome))
    requires Readable(fs, t)
    ensures r.1.Skipped? <==> Exists(fs, FujinToml) || Exists(fs, FujinDir)
    ensures r.1.Skipped? ==> r.0 == fs
  {
    if Exists(fs, FujinToml) then (fs, Skipped("fujin.toml file already exists, skipping generation"))
    else if Exists(fs, FujinDir) then (fs, Skipped(".fujin/ directory already exists, skipping generation"))
    else
      var app := AppName(dirName);
      var config := TomlConfig(app, Exists(fs, ".python-version"), PyProject(fs, t));
      (Fresh(fs, t.dumps(config), profile, app, t), Generated(Created(profile)))
  }

  /** A fresh project: `fujin.toml` with the text `toml`, then the profile's files. */
  function Fresh(fs: Fs, toml: string, profile: Profile, app: string, t: Templates): Fs {
    ProfileFs(Fs(fs.dirs, fs.files[FujinToml := toml]), profile, app, t)
  }

  /** `Init.__call__` */
  method Run(p: Project, dirName: string, profile: Profile, t: Templates) returns (outcome: Outcome)
    requires Readable(p.State(), t)
    modifies p
    ensures (p.State(), outcome) == RunInit(old(p.State()), dirName, profile, t)
  {
    if Exists(p.State(), FujinToml) {
      return Skipped("fujin.toml file already exists, skipping generation");
    }
    if Exists(p.State(), FujinDir) {
      return Skipped(".fujin/ directory already exists, skipping generation");
    }
    outcome := RunFresh(p, dirName, profile, t);
  }

  /** `__call__` past its guards. */
  method RunFresh(p: Project, dirName: string, profile: Profile, t: Templates) returns (outcome: Outcome)
    requires !Exists(p.State(), FujinToml) && !Exists(p.State(), FujinDir) && Readable(p.State(), t)
    modifies p
    ensures (p.State(), outcome) == RunInit(old(p.State()), dirName, profile, t)
  {
    var app := AppName(dirName);
    var config := GenerateToml(app, Exists(p.State(), ".python-version"), PyProject(p.State(), t));
    WriteProject(p, config, profile, app, t);
    outcome := Generated(Created(profile));
  }

  /** Writing `fujin.toml`, then running the profile's generator. */
  method WriteProject(p: Project, config: Dict<Value>, profile: Profile, app: string, t: Templates)
    modifies p
    ensures p.State() == Fresh(old(p.State()), t.dumps(config), profile, app, t)
  {
    p.Write(FujinToml, t.dumps(config));
    GenerateProfile(p, profile, app, t);
  }

  /** An existing `fujin.toml` or `.fujin` stops the command before it writes anything. */
  lemma ExistingProjectKept(fs: Fs, dirName: string, profile: Profile, t: Templates)
    requires Exists(fs, FujinToml) || Exists(fs, FujinDir)
    ensures RunInit(fs, dirName, profile, t).0 == fs
    ensures RunInit(fs, dirName, profile, t).1 == Skipped(
      if Exists(fs, FujinToml) then "fujin.toml file already exists, skipping generation"
      else ".fujin/ directory already exists, skipping generation")
  {
  }

  /** Otherwise the command announces the profile's files, and writes `fujin.toml` with the encoded
      configuration before the profile's files. */
  lemma FreshProjectGenerated(fs: Fs, dirName: string, profile: Profile, t: Templates)
    requires !Exists(fs, FujinToml) && !Exists(fs, FujinDir) && Readable(fs, t)
    ensures var (fs', outcome) := RunInit(fs, dirName, profile, t);
      outcome == Generated(Created(profile))
      && fs' == Fresh(fs, t.dumps(TomlConfig(AppName(dirName), Exists(fs, ".python-version"), PyProject(fs, t))), profile, AppName(dirName), t)
  {
  }

  /** In a fresh project `fujin.toml` holds its text, every announced file is there, every file the
      command does not announce keeps its contents, and the `.fujin` directories exist. */
  lemma FreshFiles(fs: Fs, toml: string, profile: Profile, app: string, t: Templates, path: string)
    ensures var r := Fresh(fs, toml, profile, app, t);
      FujinToml in r.files && r.files[FujinToml] == toml
      && (path in Created(profile) ==> path in r.files)
      && (path in fs.files && path !in Created(profile) && path != FujinToml ==> path in r.files && r.files[path] == fs.files[path])
      && {FujinDir, SystemdDir, CommonDir} <= r.dirs
  {
    var fs1 := Fs(fs.dirs, fs.files[FujinToml := toml]);
    ProfileKeys(fs1, profile, app, t);
    TomlNotCreated(profile);
    ProfileKeepsOthers(fs1, profile, app, t, FujinToml);
    if path in fs.files && path !in Created(profile) && path != FujinToml {
      ProfileKeepsOthers(fs1, profile, app, t, path);
    }
  }

  lemma TomlNotCreated(profile: Profile)
    ensures FujinToml !in Created(profile)
  {
    PathsDistinct();
  }
}
