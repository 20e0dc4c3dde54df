// Discovery of the systemd units a project ships under `.fujin/systemd/`.
//
// A directory is given by whether it exists and by its listing (file names,
// in the order the directory glob yields them). Whether a file parses as an
// INI-style unit file is not interpreted: `malformed` names the files the
// parser rejects.

module Discovery {
  import opened Strs
  import opened Wrappers
  import opened Sorting
  import Units

  /** A service file found in the directory, with the socket and timer files that go with it. */
  datatype ServiceUnit = ServiceUnit(
    name: string,
    isTemplate: bool,
    serviceFile: string,
    socketFile: Option<string>,
    timerFile: Option<string>)

  /** `ServiceDiscoveryError("Failed to parse {file}: ...")` */
  datatype DiscoveryError = ParseFailure(file: string)

  function NameOf(u: ServiceUnit): string { u.name }

  /** `_parse_service_filename`: drop `.service`, then a trailing `@` marks a template. */
  function ParseServiceFilename(filename: string): (r: (string, bool))
    ensures EndsWith(filename, ".service") ==> r.0 + Units.At(r.1) + ".service" == filename
    ensures r.1 <==> EndsWith(RemoveSuffix(filename, ".service"), "@")
  {
    var name := RemoveSuffix(filename, ".service");
    if EndsWith(name, "@") then (RemoveSuffix(name, "@"), true) else (name, false)
  }

  /** The socket (or timer) file looked up for a service: `{name}.socket` or `{name}@.socket`. */
  function Companion(name: string, isTemplate: bool, ext: string): string {
    name + Units.At(isTemplate) + ext
  }

  function Present(f: string, dir: seq<string>): Option<string> {
    if f in dir then Some(f) else None
  }

  /** The unit one `*.service` file of the directory `dir` describes. */
  function UnitFor(f: string, dir: seq<string>): ServiceUnit {
    var (name, t) := ParseServiceFilename(f);
    ServiceUnit(name, t, f,
      Present(Companion(name, t, ".socket"), dir),
      Present(Companion(name, t, ".timer"), dir))
  }

  function OptSeq(o: Option<string>): seq<string> {
    if o.Some? then [o.value] else []
  }

  /** The files validated for one service, in the order they are checked. */
  function Validated(u: ServiceUnit): seq<string> {
    [u.serviceFile] + OptSeq(u.socketFile) + OptSeq(u.timerFile)
  }

  /** The first file of `files` the parser rejects. */
  function FirstMalformed(files: seq<string>, malformed: set<string>): (r: Option<string>)
    ensures r.None? <==> forall f :: f in files ==> f !in malformed
    ensures r.Some? ==> r.value in files && r.value in malformed
    decreases |files|
  {
    if files == [] then None
    else match FirstMalformed(files[..|files| - 1], malformed)
      case Some(f) => Some(f)
      case None =>
        assert files == files[..|files| - 1] + [files[|files| - 1]];
        var last := files[|files| - 1];
        if last in malformed then Some(last) else None
  }

  /**
   * The discovery loop over the first entries `seen` of the directory `dir`,
   * before sorting: each `*.service` file is validated, then its socket and
   * timer when present; the first rejected file ends discovery.
   */
  function Collect(seen: seq<string>, dir: seq<string>, malformed: set<string>): Result<seq<ServiceUnit>, DiscoveryError>
    decreases |seen|
  {
    if seen == [] then Ok([])
    else match Collect(seen[..|seen| - 1], dir, malformed)
      case Err(e) => Err(e)
      case Ok(acc) =>
        var f := seen[|seen| - 1];
        if !EndsWith(f, ".service") then Ok(acc)
        else match FirstMalformed(Validated(UnitFor(f, dir)), malformed)
          case Some(bad) => Err(ParseFailure(bad))
          case None => Ok(acc + [UnitFor(f, dir)])
  }

  /** `discover_services`: what the directory yields, sorted by service name. */
  function DiscoverServicesSpec(present: bool, dir: seq<string>, malformed: set<string>): (r: Result<seq<ServiceUnit>, DiscoveryError>)
    ensures !present ==> r == Ok([])
    ensures r.Ok? ==> SortedBy(r.value, NameOf)
  {
    if !present then Ok([])
    else match Collect(dir, dir, malformed)
      case Err(e) => Err(e)
      case Ok(us) => Ok(SortBy(us, NameOf))
  }

  method DiscoverServices(present: bool, dir: seq<string>, malformed: set<string>)
    returns (r: Result<seq<ServiceUnit>, DiscoveryError>)
    ensures r == DiscoverServicesSpec(present, dir, malformed)
  {
    if !present {
      return Ok([]);
    }
    var services: seq<ServiceUnit> := [];
    var i := 0;
    while i < |dir|
      invariant 0 <= i <= |dir|
      invariant Collect(dir[..i], dir, malformed) == Ok(services)
    {
      var f := dir[i];
      assert dir[..i + 1][..i] == dir[..i];
      if EndsWith(f, ".service") {
        var (name, t) := ParseServiceFilename(f);
        var socket, timer := Present(Companion(name, t, ".socket"), dir), Present(Companion(name, t, ".timer"), dir);
        var bad := FirstMalformed([f] + OptSeq(socket) + OptSeq(timer), malformed);
        if bad.Some? {
          CollectErrPersists(dir, i + 1, dir, malformed);
          return Err(ParseFailure(bad.value));
        }
        services := services + [ServiceUnit(name, t, f, socket, timer)];
      }
      i := i + 1;
    }
    assert dir[..i] == dir;
    return Ok(SortBy(services, NameOf));
  }

  /** Once a file is rejected, later entries do not change the outcome. */
  lemma {:induction false} CollectErrPersists(seen: seq<string>, k: nat, dir: seq<string>, malformed: set<string>)
    requires k <= |seen| && Collect(seen[..k], dir, malformed).Err?
    ensures Collect(seen, dir, malformed) == Collect(seen[..k], dir, malformed)
    decreases |seen| - k
  {
    if k < |seen| {
      var n := |seen|;
      assert seen[..n][..n - 1] == seen[..n - 1];
      if k < n - 1 {
        assert seen[..n - 1][..k] == seen[..k];
        CollectErrPersists(seen[..n - 1], k, dir, malformed);
      }
      assert seen[..n] == seen;
    } else {
      assert seen[..k] == seen;
    }
  }

  /** Every `*.service` entry is discovered, with exactly the companions present in the directory. */
  lemma {:induction false} CollectComplete(seen: seq<string>, dir: seq<string>, malformed: set<string>)
    requires Collect(seen, dir, malformed).Ok?
    ensures var us := Collect(seen, dir, malformed).value;
      (forall f :: f in seen && EndsWith(f, ".service") ==> UnitFor(f, dir) in us) &&
      (forall u :: u in us ==> u.serviceFile in seen && EndsWith(u.serviceFile, ".service") && u == UnitFor(u.serviceFile, dir))
    decreases |seen|
  {
    if seen != [] {
      var init := seen[..|seen| - 1];
      CollectComplete(init, dir, malformed);
      assert seen == init + [seen[|seen| - 1]];
    }
  }

  /** Discovery fails exactly when one of the files it validates is rejected. */
  lemma {:induction false} CollectFailsIffMalformed(seen: seq<string>, dir: seq<string>, malformed: set<string>)
    ensures Collect(seen, dir, malformed).Ok? <==>
      forall f, g :: f in seen && EndsWith(f, ".service") && g in Validated(UnitFor(f, dir)) ==> g !in malformed
    ensures Collect(seen, dir, malformed).Err? ==>
      Collect(seen, dir, malformed).error.file in malformed
    decreases |seen|
  {
    if seen != [] {
      var init := seen[..|seen| - 1];
      CollectFailsIffMalformed(init, dir, malformed);
      assert seen == init + [seen[|seen| - 1]];
    }
  }

  /**
   * `discover_services` on an existing directory: sorted by name, one unit
   * per `*.service` file, each with the socket and timer files present.
   */
  lemma DiscoverServicesComplete(dir: seq<string>, malformed: set<string>)
    requires DiscoverServicesSpec(true, dir, malformed).Ok?
    ensures var us := DiscoverServicesSpec(true, dir, malformed).value;
      SortedBy(us, NameOf) &&
      (forall f :: f in dir && EndsWith(f, ".service") ==> UnitFor(f, dir) in us) &&
      (forall u :: u in us ==> u.serviceFile in dir && u == UnitFor(u.serviceFile, dir))
  {
    var collected := Collect(dir, dir, malformed).value;
    CollectComplete(dir, dir, malformed);
    var us := SortBy(collected, NameOf);
    assert forall u :: u in us <==> u in multiset(us);
    assert forall u :: u in collected <==> u in multiset(collected);
  }

  /** The template file `web@.service` and the regular `web.service` both give the name `web`. */
  lemma ParseServiceFilenameExamples()
    ensures ParseServiceFilename("web@.service") == ("web", true)
    ensures ParseServiceFilename("web.service") == ("web", false)
  {
    assert RemoveSuffix("web@.service", ".service") == "web@";
    assert RemoveSuffix("web@", "@") == "web";
    assert RemoveSuffix("web.service", ".service") == "web";
  }

  // ---------------------------------------------------------------------------
  // Drop-in files.

  /** The `*.conf` entries of a listing, in listing order. */
  function ConfFiles(listing: seq<string>): (r: seq<string>)
    ensures forall f :: f in r <==> f in listing && EndsWith(f, ".conf")
    decreases |listing|
  {
    if listing == [] then []
    else
      var init := listing[..|listing| - 1];
      var last := listing[|listing| - 1];
      assert listing == init + [last];
      ConfFiles(init) + (if EndsWith(last, ".conf") then [last] else [])
  }

  /** A drop-in directory's `*.conf` files, each validated, sorted by file name. */
  function DropinsSpec(present: bool, listing: seq<string>, malformed: set<string>): (r: Result<seq<string>, DiscoveryError>)
    ensures !present ==> r == Ok([])
    ensures r.Ok? ==> SortedBy(r.value, Id)
    ensures r.Ok? && present ==> forall f :: f in r.value <==> f in listing && EndsWith(f, ".conf")
    ensures r.Err? ==> r.error.file in listing && r.error.file in malformed
  {
    if !present then Ok([])
    else match FirstMalformed(ConfFiles(listing), malformed)
      case Some(bad) => Err(ParseFailure(bad))
      case None =>
        var s := SortBy(ConfFiles(listing), Id);
        assert forall f :: f in s <==> f in multiset(s);
        assert forall f :: f in ConfFiles(listing) <==> f in multiset(ConfFiles(listing));
        Ok(s)
  }

  /** The loop shared by `discover_common_dropins` and `discover_service_dropins`. */
  method DiscoverDropins(present: bool, listing: seq<string>, malformed: set<string>)
    returns (r: Result<seq<string>, DiscoveryError>)
    ensures r == DropinsSpec(present, listing, malformed)
  {
    if !present {
      return Ok([]);
    }
    var dropins: seq<string> := [];
    var i := 0;
    while i < |listing|
      invariant 0 <= i <= |listing|
      invariant dropins == ConfFiles(listing[..i])
      invariant FirstMalformed(dropins, malformed).None?
    {
      var f := listing[i];
      assert listing[..i + 1][..i] == listing[..i];
      if EndsWith(f, ".conf") {
        if f in malformed {
          FirstMalformedAfter(listing, i + 1, malformed);
          return Err(ParseFailure(f));
        }
        assert (dropins + [f])[..|dropins|] == dropins;
        dropins := dropins + [f];
      }
      i := i + 1;
    }
    assert listing[..i] == listing;
    return Ok(SortBy(dropins, Id));
  }

  /** A rejected `*.conf` entry stays the first rejected one however the listing continues. */
  lemma FirstMalformedAfter(listing: seq<string>, k: nat, malformed: set<string>)
    requires 0 < k <= |listing|
    requires FirstMalformed(ConfFiles(listing[..k - 1]), malformed).None?
    requires EndsWith(listing[k - 1], ".conf") && listing[k - 1] in malformed
    ensures FirstMalformed(ConfFiles(listing), malformed) == Some(listing[k - 1])
  {
    var s := ConfFiles(listing[..k]);
    assert listing[..k][..k - 1] == listing[..k - 1];
    assert s == ConfFiles(listing[..k - 1]) + [listing[k - 1]];
    assert s[..|s| - 1] == ConfFiles(listing[..k - 1]);
    assert FirstMalformed(s, malformed) == Some(listing[k - 1]);
    assert listing == listing[..k] + listing[k..];
    ConfFilesAppend(listing[..k], listing[k..]);
    FirstMalformedAppend(s, ConfFiles(listing[k..]), malformed);
  }

  lemma {:induction false} ConfFilesAppend(a: seq<string>, b: seq<string>)
    ensures ConfFiles(a + b) == ConfFiles(a) + ConfFiles(b)
    decreases |b|
  {
    if b == [] {
      assert a + b == a;
    } else {
      var b0 := b[..|b| - 1];
      ConfFilesAppend(a, b0);
      assert (a + b)[..|a + b| - 1] == a + b0;
      assert (a + b)[|a + b| - 1] == b[|b| - 1];
    }
  }

  lemma {:induction false} FirstMalformedAppend(a: seq<string>, b: seq<string>, malformed: set<string>)
    requires FirstMalformed(a, malformed).Some?
    ensures FirstMalformed(a + b, malformed) == FirstMalformed(a, malformed)
    decreases |b|
  {
    if b == [] {
      assert a + b == a;
    } else {
      var b0 := b[..|b| - 1];
      FirstMalformedAppend(a, b0, malformed);
      assert (a + b)[..|a + b| - 1] == a + b0;
    }
  }

  /** The directory a service's own drop-ins live in. */
  function DropinDirName(serviceName: string, isTemplate: bool): (r: string)
    ensures EndsWith(r, ".service.d")
    ensures r == Companion(serviceName, isTemplate, ".service") + ".d"
  {
    if isTemplate then serviceName + "@.service.d" else serviceName + ".service.d"
  }

  /** `discover_common_dropins`: the `common.d` subdirectory. */
  method DiscoverCommonDropins(dirs: map<string, seq<string>>, malformed: set<string>)
    returns (r: Result<seq<string>, DiscoveryError>)
    ensures r == DropinsSpec("common.d" in dirs, if "common.d" in dirs then dirs["common.d"] else [], malformed)
  {
    var present := "common.d" in dirs;
    r := DiscoverDropins(present, if present then dirs["common.d"] else [], malformed);
  }

  /** `discover_service_dropins`: the `{name}.service.d` or `{name}@.service.d` subdirectory. */
  method DiscoverServiceDropins(dirs: map<string, seq<string>>, serviceName: string, isTemplate: bool, malformed: set<string>)
    returns (r: Result<seq<string>, DiscoveryError>)
    ensures var d := DropinDirName(serviceName, isTemplate);
      r == DropinsSpec(d in dirs, if d in dirs then dirs[d] else [], malformed)
  {
    var d := DropinDirName(serviceName, isTemplate);
    var present := d in dirs;
    r := DiscoverDropins(present, if present then dirs[d] else [], malformed);
  }
}
