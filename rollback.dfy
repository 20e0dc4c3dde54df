// `fujin rollback`: lists the bundles kept in `{app_dir}/.versions`, asks
// which version to go back to, uninstalls the current version from its own
// bundle when that bundle is still there, and installs the chosen one.
//
// The host is given as what each command prints and the status it exits
// with; the two prompts are given as their answers.

module Rollback {
  import opened Wrappers
  import opened Strs
  import opened Cli
  import Connection

  datatype Settings = Settings(appName: string, appDir: string)

  // ---------------------------------------------------------------------------
  // Versions from the bundle listing.

  const BundleSuffix := ".tar.gz"

  function BundlePrefix(app: string): string { app + "-" }

  /** A file name of the form `{app}-{version}.tar.gz`. */
  predicate IsBundle(app: string, f: string) {
    StartsWith(f, BundlePrefix(app)) && EndsWith(f, BundleSuffix)
  }

  /** The prefix and the suffix of a bundle name never overlap: the prefix ends in `-`, which the suffix lacks. */
  lemma BundleLong(app: string, f: string)
    requires IsBundle(app, f)
    ensures |f| >= |app| + 1 + |BundleSuffix|
  {
    var at := |f| - |BundleSuffix|;
    assert f[|app|] == '-' by {
      assert f[..|app| + 1][|app|] == '-';
    }
    assert forall j :: at <= j < |f| ==> f[j] == BundleSuffix[j - at] != '-' by {
      assert f[at..] == BundleSuffix;
    }
  }

  /** `fname[len(prefix):-len(suffix)]` */
  function VersionOf(app: string, f: string): string
    requires IsBundle(app, f)
  {
    BundleLong(app, f);
    f[|app| + 1..|f| - |BundleSuffix|]
  }

  function BundleName(app: string, v: string): string {
    app + "-" + v + BundleSuffix
  }

  /** Every version's bundle name is a bundle name, and gives the version back. */
  lemma VersionRoundTrip(app: string, v: string)
    ensures IsBundle(app, BundleName(app, v)) && VersionOf(app, BundleName(app, v)) == v
  {
    var f := BundleName(app, v);
    assert f[..|app| + 1] == BundlePrefix(app);
    assert f[|f| - |BundleSuffix|..] == BundleSuffix;
    assert f[|app| + 1..|f| - |BundleSuffix|] == v;
  }

  /** A bundle name is the bundle name of its version. */
  lemma BundleNameOf(app: string, f: string)
    requires IsBundle(app, f)
    ensures BundleName(app, VersionOf(app, f)) == f
  {
    BundleLong(app, f);
    var v := VersionOf(app, f);
    assert f == f[..|app| + 1] + v + f[|f| - |BundleSuffix|..];
  }

  /** The versions of the listed bundles, in listing order. */
  function Versions(app: string, names: seq<string>): seq<string> {
    if names == [] then []
    else
      var last := names[|names| - 1];
      Versions(app, names[..|names| - 1]) + (if IsBundle(app, last) then [VersionOf(app, last)] else [])
  }

  /** A version is offered exactly when its bundle is in the listing. */
  lemma {:induction false} VersionsMembers(app: string, names: seq<string>, v: string)
    ensures v in Versions(app, names) <==> BundleName(app, v) in names
    decreases |names|
  {
    if names != [] {
      var n := |names| - 1;
      var last := names[n];
      VersionsMembers(app, names[..n], v);
      assert names == names[..n] + [last];
      VersionRoundTrip(app, v);
      if IsBundle(app, last) {
        BundleNameOf(app, last);
      }
    }
  }

  /** The version list never has more entries than the listing has names. */
  lemma {:induction false} VersionsCount(app: string, names: seq<string>)
    ensures |Versions(app, names)| <= |names|
    ensures (forall i :: 0 <= i < |names| ==> IsBundle(app, names[i])) ==> |Versions(app, names)| == |names|
    decreases |names|
  {
    if names != [] {
      VersionsCount(app, names[..|names| - 1]);
    }
  }

  /** The filter loop over the listing. */
  method ExtractVersions(app: string, names: seq<string>) returns (versions: seq<string>)
    ensures versions == Versions(app, names)
  {
    versions := [];
    for i := 0 to |names|
      invariant versions == Versions(app, names[..i])
    {
      var name := names[i];
      if StartsWith(name, app + "-") && EndsWith(name, BundleSuffix) {
        versions := versions + [VersionOf(app, name)];
      }
      assert names[..i + 1][..i] == names[..i];
    }
    assert names[..|names|] == names;
  }

  // ---------------------------------------------------------------------------
  // The prompt.

  datatype Prompted = Interrupted | Entered(typed: string)

  /** `Prompt.ask(choices=versions, default=versions[0])`: an empty answer takes the newest version. */
  function Chosen(versions: seq<string>, typed: string): string
    requires versions != []
  {
    if typed == "" then versions[0] else typed
  }

  /** The prompt asks again until its answer is empty or one of the choices. */
  predicate Answerable(versions: seq<string>, typed: string) {
    typed == "" || typed in versions
  }

  /** Whatever is accepted is one of the versions, and the default is the newest. */
  lemma ChosenIsOffered(versions: seq<string>, typed: string)
    requires versions != [] && Answerable(versions, typed)
    ensures Chosen(versions, typed) in versions
    ensures typed == "" ==> Chosen(versions, typed) == versions[0]
  {
  }

  // ---------------------------------------------------------------------------
  // The script.

  /** What the command does: a command run on the host, or a message shown. */
  datatype Step = Run(command: string) | Show(message: string)

  /** The host's answers: what each command prints, how it exits, and the two prompts. */
  datatype World = World(output: string -> string, status: string -> int, prompt: Prompted, confirm: bool)

  const NoTargets := "[blue]No rollback targets available"
  const AbortedMessage := "Rollback aborted by user."

  function ListCommand(s: Settings): string { "ls -1t " + s.appDir + "/.versions" }

  function CurrentCommand(s: Settings): string { "cat " + s.appDir + "/.current_version" }

  function BundlePath(s: Settings, v: string): string {
    s.appDir + "/.versions/" + BundleName(s.appName, v)
  }

  function UninstallDir(v: string): string { "/tmp/uninstall-" + v }

  function ExtractDir(s: Settings, v: string): string { "/tmp/" + s.appName + "-" + v }

  function InstallCommand(s: Settings, v: string): string {
    var dir := ExtractDir(s, v);
    "mkdir -p " + dir + " && tar -xzf " + BundlePath(s, v) + " -C " + dir
    + " && cd " + dir + " && bash install.sh && cd / && rm -rf " + dir
  }

  /** The versions offered, from the listing the host printed. */
  function Offered(s: Settings, w: World): seq<string> {
    Versions(s.appName, StrippedLines(w.output(ListCommand(s))))
  }

  /** The prompt's answer is one it accepts, whenever it is asked. */
  predicate PromptAnswerable(s: Settings, w: World) {
    w.prompt.Entered? ==> Answerable(Offered(s, w), w.prompt.typed)
  }

  /** A command run without `warn`: a non-zero status ends the command with that status. */
  function Must(w: World, command: string): Option<Exit> {
    var status := w.status(command);
    if status != 0 then Some(Exit(Connection.FailedMessage(status), status)) else None
  }

  /** Commands run without `warn` one after the other, up to the first that fails. */
  function RunAll(w: World, commands: seq<string>): (Option<Exit>, seq<Step>) {
    if commands == [] then (None, [])
    else if Must(w, commands[0]).Some? then (Must(w, commands[0]), [Run(commands[0])])
    else
      var rest := RunAll(w, commands[1..]);
      (rest.0, [Run(commands[0])] + rest.1)
  }

  /** With every command succeeding, each is run once, in order. */
  lemma {:induction false} RunAllSucceeds(w: World, commands: seq<string>)
    requires forall i :: 0 <= i < |commands| ==> w.status(commands[i]) == 0
    ensures RunAll(w, commands).0 == None && |RunAll(w, commands).1| == |commands|
    ensures forall i :: 0 <= i < |commands| ==> RunAll(w, commands).1[i] == Run(commands[i])
    decreases |commands|
  {
    if commands != [] {
      assert w.status(commands[0]) == 0;
      assert forall i :: 0 <= i < |commands| - 1 ==> commands[1..][i] == commands[i + 1];
      RunAllSucceeds(w, commands[1..]);
    }
  }

  /** The commands end normally exactly when each of them exits with 0. */
  lemma {:induction false} RunAllOutcome(w: World, commands: seq<string>)
    ensures RunAll(w, commands).0 == None <==> forall i :: 0 <= i < |commands| ==> w.status(commands[i]) == 0
    ensures RunAll(w, commands).0.Some? ==> RunAll(w, commands).0.value.code != 0
    decreases |commands|
  {
    if commands != [] {
      assert forall i :: 0 <= i < |commands| - 1 ==> commands[1..][i] == commands[i + 1];
      RunAllOutcome(w, commands[1..]);
      if RunAll(w, commands).0 == None {
        forall i | 0 < i < |commands| ensures w.status(commands[i]) == 0 {
          assert commands[i] == commands[1..][i - 1];
        }
      }
    }
  }

  /** Removing the current version with the `uninstall.sh` of its own bundle. */
  function Uninstall(s: Settings, w: World, current: string): (Option<Exit>, seq<Step>) {
    var bundle := BundlePath(s, current);
    var test := "test -f " + bundle;
    var head := [Show("[blue]Uninstalling current version " + current + "...[/blue]"), Run(test)];
    if w.status(test) != 0 then
      (None, head + [Show("[yellow]Bundle for current version " + current + " not found. Skipping uninstall.[/yellow]")])
    else
      var dir := UninstallDir(current);
      var unpack := RunAll(w, ["mkdir -p " + dir, "tar -xzf " + bundle + " -C " + dir]);
      if unpack.0.Some? then (unpack.0, head + unpack.1)
      else
        var probe := "test -f " + dir + "/uninstall.sh";
        var script :=
          if w.status(probe) == 0 then [Run("bash " + dir + "/uninstall.sh")]
          else [Show("[yellow]Warning: uninstall.sh not found in bundle for version " + current + ".[/yellow]")];
        var cleanup := RunAll(w, ["rm -rf " + dir]);
        (cleanup.0, head + unpack.1 + [Run(probe)] + script + cleanup.1)
  }

  /** Installing the chosen version from its bundle. */
  function Install(s: Settings, w: World, version: string): (Option<Exit>, seq<Step>) {
    var started := [Show("[blue]Installing version " + version + "...[/blue]")];
    var install := RunAll(w, [InstallCommand(s, version)]);
    if install.0.Some? then (install.0, started + install.1)
    else (None, started + install.1 + [Show("[green]Rollback to version " + version + " completed successfully![/green]")])
  }

  /** From the confirmation on: uninstall the current version if there is one, then install. */
  function Switch(s: Settings, w: World, current: string, version: string): (Option<Exit>, seq<Step>) {
    if current == "" then Install(s, w, version)
    else
      var removed := Uninstall(s, w, current);
      if removed.0.Some? then removed
      else
        var installed := Install(s, w, version);
        (installed.0, removed.1 + installed.1)
  }

  /** After the prompt: compare with the current version, confirm, then switch. */
  function AfterPrompt(s: Settings, w: World, version: string): (Option<Exit>, seq<Step>) {
    var current := Strip(w.output(CurrentCommand(s)));
    var asked := [Run(ListCommand(s)), Run(CurrentCommand(s))];
    if current == version then
      (None, asked + [Show("[yellow]Version " + version + " is already the current version.[/yellow]")])
    else if !w.confirm then (None, asked)
    else
      var switched := Switch(s, w, current, version);
      (switched.0, asked + switched.1)
  }

  /** `Rollback.__call__`: how the command ends (None for a normal return) and what it did. */
  function Steps(s: Settings, w: World): (r: (Option<Exit>, seq<Step>))
    requires PromptAnswerable(s, w)
    ensures r.1 != [] && r.1[0] == Run(ListCommand(s))
  {
    var listing := w.output(ListCommand(s));
    var versions := Offered(s, w);
    if listing == "" || versions == [] then (None, [Run(ListCommand(s)), Show(NoTargets)])
    else if w.prompt.Interrupted? then (Some(Exit(AbortedMessage, 0)), [Run(ListCommand(s))])
    else AfterPrompt(s, w, Chosen(versions, w.prompt.typed))
  }

  /** The same script, statement by statement. */
  method Execute(s: Settings, w: World) returns (exit: Option<Exit>, steps: seq<Step>)
    requires PromptAnswerable(s, w)
    ensures (exit, steps) == Steps(s, w)
  {
    var listing := w.output(ListCommand(s));
    steps := [Run(ListCommand(s))];
    if listing == "" {
      assert Steps(s, w) == (None, [Run(ListCommand(s)), Show(NoTargets)]);
      assert steps + [Show(NoTargets)] == [Run(ListCommand(s)), Show(NoTargets)];
      return None, steps + [Show(NoTargets)];
    }
    var versions := ExtractVersions(s.appName, StrippedLines(listing));
    assert versions == Offered(s, w);
    if versions == [] {
      assert Steps(s, w) == (None, [Run(ListCommand(s)), Show(NoTargets)]);
      assert steps + [Show(NoTargets)] == [Run(ListCommand(s)), Show(NoTargets)];
      return None, steps + [Show(NoTargets)];
    }
    if w.prompt.Interrupted? {
      return Some(Exit(AbortedMessage, 0)), steps;
    }
    var version := if w.prompt.typed == "" then versions[0] else w.prompt.typed;
    assert Steps(s, w) == AfterPrompt(s, w, version);
    var current := Strip(w.output(CurrentCommand(s)));
    steps := steps + [Run(CurrentCommand(s))];
    assert steps == [Run(ListCommand(s)), Run(CurrentCommand(s))];
    if current == version {
      return None, steps + [Show("[yellow]Version " + version + " is already the current version.[/yellow]")];
    }
    if !w.confirm {
      return None, steps;
    }
    var switched := SwitchVersion(s, w, current, version);
    exit, steps := switched.0, steps + switched.1;
  }

  /** The uninstall and install steps, in the order the source takes them. */
  method SwitchVersion(s: Settings, w: World, current: string, version: string) returns (r: (Option<Exit>, seq<Step>))
    ensures r == Switch(s, w, current, version)
  {
    var steps: seq<Step> := [];
    if current != "" {
      var removed := Uninstall(s, w, current);
      steps := removed.1;
      if removed.0.Some? {
        return removed;
      }
    }
    var installed := Install(s, w, version);
    if current == "" {
      return installed;
    }
    r := (installed.0, steps + installed.1);
  }

  // ---------------------------------------------------------------------------
  // Properties.

  /** Without a version to offer, the listing is the only command and nothing is asked. */
  lemma NoTargetsOnlyLists(s: Settings, w: World)
    requires PromptAnswerable(s, w)
    requires w.output(ListCommand(s)) == "" || Offered(s, w) == []
    ensures Steps(s, w) == (None, [Run(ListCommand(s)), Show(NoTargets)])
  {
  }

  /** Interrupting the prompt ends the command with code 0 and runs nothing more. */
  lemma InterruptExitsZero(s: Settings, w: World)
    requires PromptAnswerable(s, w) && w.prompt.Interrupted?
    requires w.output(ListCommand(s)) != "" && Offered(s, w) != []
    ensures Steps(s, w).0 == Some(Exit(AbortedMessage, 0))
    ensures Steps(s, w).1 == [Run(ListCommand(s))]
  {
  }

  /** Choosing the current version, or declining, only reads the host: no command changes it. */
  lemma NoChangeWithoutSwitch(s: Settings, w: World, version: string)
    requires Strip(w.output(CurrentCommand(s))) == version || !w.confirm
    ensures AfterPrompt(s, w, version).0 == None
    ensures AfterPrompt(s, w, version).1 == [Run(ListCommand(s)), Run(CurrentCommand(s))]
      + (if Strip(w.output(CurrentCommand(s))) == version
         then [Show("[yellow]Version " + version + " is already the current version.[/yellow]")] else [])
  {
  }

  /** Every answer to the prompt continues with the version it chose. */
  lemma PromptLeadsOn(s: Settings, w: World)
    requires PromptAnswerable(s, w) && w.prompt.Entered?
    requires w.output(ListCommand(s)) != "" && Offered(s, w) != []
    ensures Steps(s, w) == AfterPrompt(s, w, Chosen(Offered(s, w), w.prompt.typed))
  {
  }

  /** The chosen version is always one of the listed bundles. */
  lemma ChosenFromListing(s: Settings, w: World)
    requires PromptAnswerable(s, w) && w.prompt.Entered?
    requires Offered(s, w) != []
    ensures BundleName(s.appName, Chosen(Offered(s, w), w.prompt.typed)) in StrippedLines(w.output(ListCommand(s)))
  {
    ChosenIsOffered(Offered(s, w), w.prompt.typed);
    VersionsMembers(s.appName, StrippedLines(w.output(ListCommand(s))), Chosen(Offered(s, w), w.prompt.typed));
  }

  /** The old bundle is unpacked only when the existence test found it. */
  lemma UnpacksOnlyExisting(s: Settings, w: World, current: string)
    ensures w.status("test -f " + BundlePath(s, current)) != 0 ==>
      forall i :: 0 <= i < |Uninstall(s, w, current).1| ==>
        Uninstall(s, w, current).1[i] != Run("tar -xzf " + BundlePath(s, current) + " -C " + UninstallDir(current))
    ensures Uninstall(s, w, current).0 == None && w.status("test -f " + BundlePath(s, current)) == 0 ==>
      Run("tar -xzf " + BundlePath(s, current) + " -C " + UninstallDir(current)) in Uninstall(s, w, current).1
  {
    var bundle := BundlePath(s, current);
    var dir := UninstallDir(current);
    if w.status("test -f " + bundle) == 0 && Uninstall(s, w, current).0 == None {
      var cmds := ["mkdir -p " + dir, "tar -xzf " + bundle + " -C " + dir];
      RunAllOutcome(w, cmds);
      RunAllSucceeds(w, cmds);
      assert RunAll(w, cmds).1[1] == Run(cmds[1]);
    }
  }

  /** The current version's steps all come before the install, which runs only if removing it raised nothing. */
  lemma UninstallBeforeInstall(s: Settings, w: World, current: string, version: string)
    requires current != ""
    ensures Switch(s, w, current, version).0 == None ==>
      Switch(s, w, current, version).1 == Uninstall(s, w, current).1 + Install(s, w, version).1
    ensures Uninstall(s, w, current).0.Some? ==>
      Switch(s, w, current, version) == Uninstall(s, w, current)
    ensures Install(s, w, version).0 == None && Uninstall(s, w, current).0 == None ==>
      Run(InstallCommand(s, version)) in Switch(s, w, current, version).1
  {
    if Install(s, w, version).0 == None {
      assert Install(s, w, version).1[1] == Run(InstallCommand(s, version));
      var removed := Uninstall(s, w, current).1;
      assert Switch(s, w, current, version).1 == removed + Install(s, w, version).1 ==>
        Switch(s, w, current, version).1[|removed| + 1] == Run(InstallCommand(s, version));
    }
  }

  /** Without a current version nothing is uninstalled. */
  lemma NoCurrentInstallsOnly(s: Settings, w: World, version: string)
    ensures Switch(s, w, "", version) == Install(s, w, version)
  {
  }

  /** A completed switch ends with the success message for the chosen version. */
  lemma CompletedRollback(s: Settings, w: World, version: string)
    requires Strip(w.output(CurrentCommand(s))) != version && w.confirm
    requires AfterPrompt(s, w, version).0 == None
    ensures var steps := AfterPrompt(s, w, version).1;
      steps[|steps| - 1] == Show("[green]Rollback to version " + version + " completed successfully![/green]")
  {
    var current := Strip(w.output(CurrentCommand(s)));
    assert Install(s, w, version).0 == None;
  }

  // ---------------------------------------------------------------------------
  // The messages as written.
  //
  // `commands/rollback.py` and `commands/deploy.py` import each other at load
  // time, so as written the command does not load at all; what follows is
  // the script as written once that import cycle is broken.

  /** How the command ends as written: normally, through `cappa.Exit`, or with the AttributeError of `self.stdout`. */
  datatype Ending = Ends(exit: Option<Exit>) | NoStdout

  /**
   * `Rollback.__call__` as written: every message goes through
   * `self.stdout`, which `BaseCommand` does not have, so the first message
   * raises AttributeError and nothing after it happens.
   */
  function StepsAsWritten(s: Settings, w: World): (Ending, seq<Step>)
    requires PromptAnswerable(s, w)
  {
    var listing := w.output(ListCommand(s));
    var versions := Offered(s, w);
    if listing == "" || versions == [] then (NoStdout, [Run(ListCommand(s))])
    else if w.prompt.Interrupted? then (Ends(Some(Exit(AbortedMessage, 0))), [Run(ListCommand(s))])
    else
      var version := Chosen(versions, w.prompt.typed);
      var current := Strip(w.output(CurrentCommand(s)));
      var asked := [Run(ListCommand(s)), Run(CurrentCommand(s))];
      if current == version then (NoStdout, asked)
      else if !w.confirm then (Ends(None), asked)
      else (NoStdout, asked)
  }

  /**
   * As written the command never uninstalls or installs anything: it lists
   * the bundles and reads the current version at most, and it ends without
   * the AttributeError only when the prompt was interrupted or the switch
   * declined.
   */
  lemma AsWrittenNeverSwitches(s: Settings, w: World)
    requires PromptAnswerable(s, w)
    ensures StepsAsWritten(s, w).1 == [Run(ListCommand(s))]
         || StepsAsWritten(s, w).1 == [Run(ListCommand(s)), Run(CurrentCommand(s))]
    ensures StepsAsWritten(s, w).0.Ends? <==>
      w.output(ListCommand(s)) != "" && Offered(s, w) != [] &&
      (w.prompt.Interrupted?
       || (Strip(w.output(CurrentCommand(s))) != Chosen(Offered(s, w), w.prompt.typed) && !w.confirm))
  {
  }

  /**
   * The script as written is the corrected one cut right before its first
   * message: the commands up to there agree, and where the corrected script
   * shows nothing the two end alike.
   */
  lemma AsWrittenStopsAtFirstMessage(s: Settings, w: World)
    requires PromptAnswerable(s, w)
    ensures var aw := StepsAsWritten(s, w); var r := Steps(s, w);
      |aw.1| <= |r.1| && r.1[..|aw.1|] == aw.1
      && (forall i :: 0 <= i < |aw.1| ==> aw.1[i].Run?)
      && (aw.0 == NoStdout ==> |aw.1| < |r.1| && r.1[|aw.1|].Show?)
      && (aw.0 != NoStdout ==> aw == (Ends(r.0), r.1))
  {
    if w.output(ListCommand(s)) != "" && Offered(s, w) != [] && w.prompt.Entered? {
      var version := Chosen(Offered(s, w), w.prompt.typed);
      var current := Strip(w.output(CurrentCommand(s)));
      var asked := [Run(ListCommand(s)), Run(CurrentCommand(s))];
      assert Steps(s, w) == AfterPrompt(s, w, version);
      if current != version && w.confirm {
        var switched := Switch(s, w, current, version);
        SwitchShowsFirst(s, w, current, version);
        assert Steps(s, w).1 == asked + switched.1;
        assert (asked + switched.1)[..2] == asked;
      }
    }
  }

  /** Removing or installing a version always starts with a message. */
  lemma SwitchShowsFirst(s: Settings, w: World, current: string, version: string)
    ensures Switch(s, w, current, version).1 != [] && Switch(s, w, current, version).1[0].Show?
  {
    InstallShowsFirst(s, w, version);
    if current != "" {
      UninstallShowsFirst(s, w, current);
      var removed := Uninstall(s, w, current);
      if removed.0.None? {
        assert (removed.1 + Install(s, w, version).1)[0] == removed.1[0];
      }
    }
  }

  lemma UninstallShowsFirst(s: Settings, w: World, current: string)
    ensures Uninstall(s, w, current).1 != [] && Uninstall(s, w, current).1[0].Show?
  {
  }

  lemma InstallShowsFirst(s: Settings, w: World, version: string)
    ensures Install(s, w, version).1 != [] && Install(s, w, version).1[0].Show?
  {
  }
}
