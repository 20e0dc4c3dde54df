// `fujin scale SERVICE COUNT`: switches a unit between a single service file
// and a template, records the count in the `[replicas]` table of fujin.toml,
// and, when the unit already was a template, starts or stops the instances
// in between on the server.

module Scale {
  import opened Wrappers
  import opened Strs
  import opened Dicts
  import opened Units
  import opened Cli
  import CommandBase
  import Connection

  /** Why a scale stopped: a refused request, or a unit file that could not be read. */
  datatype Failure = Exited(exit: Exit) | MissingFile(name: string)

  /**
   * What a completed scale did besides editing local files: whether a unit
   * file was converted, whether the socket warning was shown, and the
   * command run on the server, if any.
   */
  datatype Report = Report(converted: bool, socketWarning: bool, serverCommand: Option<string>)

  function ZeroMessage(service: string): string {
    "Cannot scale to 0. To stop the service, use:\n  fujin app stop " + service
    + "\n\nTo remove the service entirely, delete the files manually:\n  rm .fujin/systemd/"
    + service + "*.service .fujin/systemd/" + service + "*.socket"
  }

  const NegativeMessage := "Replica count must be 1 or greater"

  function NotFoundMessage(service: string): string {
    "Service '" + service + "' not found in .fujin/systemd/\nUse 'fujin new service " + service + "' to create it first."
  }

  /** File names inside `.fujin/systemd/`. */
  function TemplateFile(service: string): string { service + "@.service" }

  function RegularFile(service: string): string { service + ".service" }

  lemma FileNamesDiffer(service: string)
    ensures TemplateFile(service) != RegularFile(service)
  {
    assert TemplateFile(service)[|service|] == '@';
    assert RegularFile(service)[|service|] == '.';
  }

  /** Removes the `%i` and `%I` instance specifiers, one pass each. */
  function StripSpecifiers(content: string): (r: string)
    ensures NoPair(content, '%', '%') ==> NoPair(r, '%', 'i') && NoPair(r, '%', 'I')
  {
    var once := ReplaceAll(content, "%i", "");
    if NoPair(content, '%', '%') then
      RemovePairLeaves(content, '%', 'i', 'i');
      RemovePairLeaves(content, '%', 'i', '%');
      RemovePairLeaves(once, '%', 'I', 'I');
      RemovePairLeaves(once, '%', 'I', 'i');
      ReplaceAll(once, "%I", "")
    else
      ReplaceAll(once, "%I", "")
  }

  /** The two passes are not a full removal: an escaped `%%` can leave a specifier behind. */
  lemma StripSpecifiersLeavesEscaped()
    ensures StripSpecifiers("%%ii") == "%i"
  {
    assert ReplaceAll("i", "%i", "") == "i";
    assert ReplaceAll("%ii", "%i", "") == "" + ReplaceAll("i", "%i", "");
    assert ReplaceAll("%%ii", "%i", "") == "%" + ReplaceAll("%ii", "%i", "");
    assert ReplaceAll("%i", "%I", "") == "%" + ReplaceAll("i", "%I", "");
  }

  /** `{{app_name}} SERVICE`, the description text that gains ` %i` in a template. */
  function DescriptionKey(service: string): string { "{{app_name}} " + service }

  /** Appends ` %i` after every occurrence of the description key. */
  function AddSpecifier(content: string, service: string): (r: string)
    ensures !Contains(content, DescriptionKey(service)) ==> r == content
    ensures Contains(content, DescriptionKey(service)) ==> Contains(r, DescriptionKey(service) + " %i")
  {
    var key := DescriptionKey(service);
    if Contains(content, key) then
      ReplaceAllIntroduces(content, key, key + " %i");
      ReplaceAll(content, key, key + " %i")
    else content
  }

  /** A conversion happens when a template goes to 1, or a single unit goes to 2 or more. */
  predicate NeedsConversion(isTemplate: bool, count: int) {
    (count == 1 && isTemplate) || (count >= 2 && !isTemplate)
  }

  /**
   * The `.fujin/systemd/` files after the conversion step: the source file
   * is replaced by the converted one, and nothing else changes. Reading a
   * missing source file fails before anything is written.
   */
  function Converted(files: map<string, string>, service: string, isTemplate: bool, count: int)
    : (r: Result<map<string, string>, Failure>)
    ensures !NeedsConversion(isTemplate, count) ==> r == Ok(files)
    ensures NeedsConversion(isTemplate, count) ==>
      var from := if isTemplate then TemplateFile(service) else RegularFile(service);
      var to := if isTemplate then RegularFile(service) else TemplateFile(service);
      if from !in files then r == Err(MissingFile(from))
      else
        r.Ok? && from !in r.value && to in r.value
        && r.value[to] == (if isTemplate then StripSpecifiers(files[from]) else AddSpecifier(files[from], service))
        && forall f :: f != from && f != to ==> (f in r.value <==> f in files) && (f in files ==> r.value[f] == files[f])
  {
    FileNamesDiffer(service);
    if !NeedsConversion(isTemplate, count) then Ok(files)
    else
      var from := if isTemplate then TemplateFile(service) else RegularFile(service);
      var to := if isTemplate then RegularFile(service) else TemplateFile(service);
      if from !in files then Err(MissingFile(from))
      else
        var content := if isTemplate then StripSpecifiers(files[from]) else AddSpecifier(files[from], service);
        Ok(files[to := content] - {from})
  }

  function TableOf(table: Option<Dict<int>>): Dict<int> {
    if table.Some? then table.value else []
  }

  /**
   * The `[replicas]` table after recording `count` for `service` (`None`
   * deletes the entry); `None` when the table ended up empty and was
   * dropped from the file.
   */
  function ReplicasAfter(table: Option<Dict<int>>, service: string, count: Option<int>): (r: Option<Dict<int>>)
    requires DistinctKeys(TableOf(table))
    ensures r.None? <==> TableOf(r) == []
    ensures DistinctKeys(TableOf(r))
    ensures Get(TableOf(r), service) == count
    ensures forall k :: k != service ==> Get(TableOf(r), k) == Get(TableOf(table), k)
  {
    var t := TableOf(table);
    if count.None? then
      var t' := if service in Keys(t) then Remove(t, service) else t;
      if t' == [] then None else Some(t')
    else
      PutKeepsDistinct(t, service, count.value);
      Some(Put(t, service, count.value))
  }

  /** The instances numbered `lo + 1` through `hi`. */
  function InstancesBetween(du: DeployedUnit, lo: nat, hi: nat): seq<string>
    requires lo <= hi
  {
    seq(hi - lo, i requires 0 <= i < hi - lo => InstanceName(du, lo + i + 1))
  }

  /** `_scale_on_server`: starts the new instances, or stops the surplus ones. */
  function ServerCommand(du: DeployedUnit, oldCount: nat, newCount: nat): Option<string> {
    if newCount > oldCount then
      var names := Join(InstancesBetween(du, oldCount, newCount), " ");
      Some("sudo systemctl start " + names + " && sudo systemctl enable " + names)
    else if newCount < oldCount then
      var names := Join(InstancesBetween(du, newCount, oldCount), " ");
      Some("sudo systemctl stop " + names + " && sudo systemctl disable " + names)
    else None
  }

  /** The server is reached only for a unit that stays a template and whose count changes. */
  function ServerAction(du: DeployedUnit, count: nat): Option<string> {
    if NeedsConversion(du.isTemplate, count) then None
    else if du.replicas != count && du.isTemplate then ServerCommand(du, du.replicas, count)
    else None
  }

  /**
   * `_scale_on_server` runs its command without `warn`, so a non-zero status
   * raises the connection's exit, carrying that status, after the local files
   * and the `[replicas]` table were already rewritten.
   */
  function ServerFailure(du: DeployedUnit, count: nat, status: int): (r: Option<Exit>)
    ensures r.Some? <==> ServerAction(du, count).Some? && status != 0
    ensures r.Some? ==> r.value == Exit(Connection.FailedMessage(status), status)
  {
    if ServerAction(du, count).None? then None
    else
      var run := Connection.Completed("", status, false);
      if run.Err? then Some(run.error) else None
  }

  /**
   * Whenever the command returns, its success flag is set: the "Failed to
   * start new instances" and "Failed to stop instances" branches are never taken.
   */
  lemma ServerFailureBranchesDead(stdout: string, status: int)
    ensures Connection.Completed(stdout, status, false).Ok? <==> status == 0
    ensures Connection.Completed(stdout, status, false).Ok? ==> Connection.Completed(stdout, status, false).value.1
  {
    Connection.ExitPolicy(stdout, status, false);
  }

  lemma ServerTouched(du: DeployedUnit, count: nat)
    requires count >= 1
    ensures ServerAction(du, count).Some? <==> du.isTemplate && count >= 2 && du.replicas != count
  {
  }

  /** Scaling up starts exactly the instances the new count adds. */
  lemma ScaleUpStartsAdded(du: DeployedUnit, oldCount: nat, newCount: nat)
    requires du.isTemplate && oldCount <= newCount
    ensures InstancesBetween(du, oldCount, newCount) == ServiceInstances(du.(replicas := newCount))[oldCount..]
    ensures forall n :: n in InstancesBetween(du, oldCount, newCount) ==> n !in ServiceInstances(du.(replicas := oldCount))
  {
    var added := InstancesBetween(du, oldCount, newCount);
    var kept := ServiceInstances(du.(replicas := oldCount));
    var all := ServiceInstances(du.(replicas := newCount));
    forall i | 0 <= i < |added| ensures added[i] == all[oldCount..][i] {
      assert all[oldCount..][i] == all[oldCount + i];
      assert Prefix(du.(replicas := newCount)) == Prefix(du);
      assert all[oldCount + i] == InstanceName(du, oldCount + i + 1);
    }
    forall n | n in added ensures n !in kept {
      var i :| 0 <= i < |added| && added[i] == n;
      forall j | 0 <= j < |kept| ensures kept[j] != n {
        InstanceNamesDistinct(du, j + 1, oldCount + i + 1);
      }
    }
  }

  /** Scaling down stops exactly the instances the new count drops. */
  lemma ScaleDownStopsDropped(du: DeployedUnit, oldCount: nat, newCount: nat)
    requires du.isTemplate && newCount <= oldCount
    ensures InstancesBetween(du, newCount, oldCount) == ServiceInstances(du.(replicas := oldCount))[newCount..]
    ensures forall n :: n in InstancesBetween(du, newCount, oldCount) ==> n !in ServiceInstances(du.(replicas := newCount))
  {
    ScaleUpStartsAdded(du, newCount, oldCount);
  }

  /** The conversion the tests perform on a template. */
  lemma StripExample()
    ensures StripSpecifiers("Description=Worker %i") == "Description=Worker "
  {
    var p := "Description=Worker ";
    assert "Description=Worker %i" == p + "%i";
    assert ReplaceAll("%i", "%i", "") == "";
    ReplaceAllPrefix(p, "%i", "%i", "");
    assert ReplaceAll("Description=Worker %i", "%i", "") == p;
    ReplaceAllPrefix(p, "", "%I", "");
    assert p + "" == p;
  }

  /** A description ending in the key gains ` %i` at its end. */
  lemma AddSpecifierAtEnd(pre: string, service: string)
    requires '{' !in pre
    ensures AddSpecifier(pre + DescriptionKey(service), service) == pre + DescriptionKey(service) + " %i"
  {
    var key := DescriptionKey(service);
    var rep := key + " %i";
    ContainsAt(pre, key);
    assert ReplaceAll(key, key, rep) == rep + ReplaceAll([], key, rep);
    ReplaceAllPrefix(pre, key, key, rep);
  }

  /** The conversion the tests perform on a single unit. */
  lemma AddExample()
    ensures AddSpecifier("Description={{app_name}} worker", "worker") == "Description={{app_name}} worker %i"
  {
    var text := "Description={{app_name}} worker";
    ExampleText(text);
    AddSpecifierAtEnd("Description=", "worker");
    assert text + " %i" == "Description={{app_name}} worker %i";
  }

  lemma ExampleText(text: string)
    requires text == "Description={{app_name}} worker"
    ensures text == "Description=" + DescriptionKey("worker")
  {
  }

  /** A prefix free of the pattern's first character is copied unchanged. */
  lemma {:induction false} ReplaceAllPrefix(a: string, b: string, pat: string, rep: string)
    requires pat != [] && pat[0] !in a
    ensures ReplaceAll(a + b, pat, rep) == a + ReplaceAll(b, pat, rep)
    decreases |a|
  {
    if a != [] {
      assert !(pat <= a + b);
      if |a + b| < |pat| {
        assert ReplaceAll(b, pat, rep) == b;
      } else {
        assert (a + b)[1..] == a[1..] + b;
        ReplaceAllPrefix(a[1..], b, pat, rep);
        calc {
          ReplaceAll(a + b, pat, rep);
          [(a + b)[0]] + ReplaceAll((a + b)[1..], pat, rep);
          [a[0]] + ReplaceAll(a[1..] + b, pat, rep);
          [a[0]] + (a[1..] + ReplaceAll(b, pat, rep));
          ([a[0]] + a[1..]) + ReplaceAll(b, pat, rep);
          { assert [a[0]] + a[1..] == a; }
          a + ReplaceAll(b, pat, rep);
        }
      }
    } else {
      assert a + b == b;
    }
  }

  lemma {:induction false} ContainsAt(a: string, p: string)
    ensures Contains(a + p, p)
    decreases |a|
  {
    if a != [] {
      assert (a + p)[1..] == a[1..] + p;
      ContainsAt(a[1..], p);
    }
  }

  /** The local project: `.fujin/systemd/` by file name, and fujin.toml's `[replicas]` table. */
  class Project {
    var files: map<string, string>
    var hasToml: bool
    var replicas: Option<Dict<int>>

    predicate Valid()
      reads this
    {
      DistinctKeys(TableOf(replicas))
    }

    constructor (files: map<string, string>, hasToml: bool, replicas: Option<Dict<int>>)
      requires DistinctKeys(TableOf(replicas))
      ensures Valid()
      ensures this.files == files && this.hasToml == hasToml && this.replicas == replicas
    {
      this.files := files;
      this.hasToml := hasToml;
      this.replicas := replicas;
    }

    /** `_update_replicas_config`: nothing happens without a fujin.toml. */
    method UpdateReplicasConfig(service: string, count: Option<int>)
      modifies this
      requires Valid()
      ensures Valid()
      ensures files == old(files) && hasToml == old(hasToml)
      ensures replicas == if hasToml then ReplicasAfter(old(replicas), service, count) else old(replicas)
    {
      if !hasToml {
        return;
      }
      replicas := ReplicasAfter(replicas, service, count);
    }

    /** `Scale.__call__`; `serverStatus` is the exit status of the server command, when one runs. */
    method Scale(units: seq<DeployedUnit>, service: string, count: int, serverStatus: int) returns (r: Result<Report, Failure>)
      modifies this
      requires Valid()
      ensures Valid()
      ensures count == 0 ==> r == Err(Exited(Exit(ZeroMessage(service), 1))) && unchanged(this)
      ensures count < 0 ==> r == Err(Exited(Exit(NegativeMessage, 1))) && unchanged(this)
      ensures count >= 1 && CommandBase.FindUnit(units, service).None? ==>
        r == Err(Exited(Exit(NotFoundMessage(service), 1))) && unchanged(this)
      ensures count >= 1 && CommandBase.FindUnit(units, service).Some? ==>
        var du := CommandBase.FindUnit(units, service).value;
        var conv := Converted(old(files), service, du.isTemplate, count);
        if conv.Err? then r == Err(conv.error) && unchanged(this)
        else
          r == (if ServerFailure(du, count, serverStatus).Some? then Err(Exited(ServerFailure(du, count, serverStatus).value))
                else Ok(Report(NeedsConversion(du.isTemplate, count), count >= 2 && du.hasSocket, ServerAction(du, count))))
          && files == conv.value && hasToml == old(hasToml)
          && replicas == (if hasToml then ReplicasAfter(old(replicas), service, if count == 1 then None else Some(count)) else old(replicas))
    {
      if count == 0 {
        return Err(Exited(Exit(ZeroMessage(service), 1)));
      }
      if count < 0 {
        return Err(Exited(Exit(NegativeMessage, 1)));
      }
      var found := CommandBase.FindService(units, service);
      if found.None? {
        return Err(Exited(Exit(NotFoundMessage(service), 1)));
      }
      r := ConvertAndRecord(found.value, service, count, serverStatus);
    }

    /**
     * The rest of `__call__` once the service is found: convert the file,
     * record the count, then contact the server, whose command exits with
     * `serverStatus`.
     */
    method ConvertAndRecord(du: DeployedUnit, service: string, count: int, serverStatus: int) returns (r: Result<Report, Failure>)
      modifies this
      requires Valid() && count >= 1
      ensures Valid()
      ensures var conv := Converted(old(files), service, du.isTemplate, count);
        if conv.Err? then r == Err(conv.error) && unchanged(this)
        else
          r == (if ServerFailure(du, count, serverStatus).Some? then Err(Exited(ServerFailure(du, count, serverStatus).value))
                else Ok(Report(NeedsConversion(du.isTemplate, count), count >= 2 && du.hasSocket, ServerAction(du, count))))
          && files == conv.value && hasToml == old(hasToml)
          && replicas == (if hasToml then ReplicasAfter(old(replicas), service, if count == 1 then None else Some(count)) else old(replicas))
    {
      var conv := Converted(files, service, du.isTemplate, count);
      if conv.Err? {
        return Err(conv.error);
      }
      files := conv.value;
      var socketWarning := false;
      if count == 1 {
        UpdateReplicasConfig(service, None);
      } else {
        socketWarning := du.hasSocket;
        UpdateReplicasConfig(service, Some(count));
      }
      var failure := ServerFailure(du, count, serverStatus);
      if failure.Some? {
        return Err(Exited(failure.value));
      }
      r := Ok(Report(NeedsConversion(du.isTemplate, count), socketWarning, ServerAction(du, count)));
    }
  }
}
