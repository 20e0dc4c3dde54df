// The deployed-unit descriptor and the systemd unit names derived from it.
// The class that defines these names lives in fujin's configuration module,
// which is not part of this model; the derivations below are those its
// callers and tests rely on: `{app}-{name}.service` for a single unit,
// `{app}-{name}@.service` for a template, `{app}-{name}@{i}.service` for its
// instances 1..replicas, and the socket and timer named like the service.

module Units {
  import opened Strs
  import opened Wrappers

  /**
   * A service found under `.fujin/systemd/` together with its deployment
   * settings. `isTemplate` comes from the file name (`name@.service`),
   * `replicas` from the configuration's replica table.
   */
  datatype DeployedUnit = DeployedUnit(
    name: string,
    appName: string,
    isTemplate: bool,
    replicas: nat,
    hasSocket: bool,
    hasTimer: bool)

  function At(isTemplate: bool): string {
    if isTemplate then "@" else ""
  }

  /** `{app}-{name}` */
  function Prefix(u: DeployedUnit): string {
    u.appName + "-" + u.name
  }

  /** The unit's file names in `.fujin/systemd/`. */
  function ServiceFile(u: DeployedUnit): string { u.name + At(u.isTemplate) + ".service" }

  function SocketFile(u: DeployedUnit): Option<string> {
    if u.hasSocket then Some(u.name + At(u.isTemplate) + ".socket") else None
  }

  function TimerFile(u: DeployedUnit): Option<string> {
    if u.hasTimer then Some(u.name + At(u.isTemplate) + ".timer") else None
  }

  /** `template_service_name`: the name the service file is installed under. */
  function TemplateServiceName(u: DeployedUnit): string {
    Prefix(u) + At(u.isTemplate) + ".service"
  }

  /** `template_socket_name` */
  function TemplateSocketName(u: DeployedUnit): Option<string> {
    if u.hasSocket then Some(Prefix(u) + At(u.isTemplate) + ".socket") else None
  }

  /** `template_timer_name` */
  function TemplateTimerName(u: DeployedUnit): Option<string> {
    if u.hasTimer then Some(Prefix(u) + At(u.isTemplate) + ".timer") else None
  }

  /** The running instance `i` of a template: `{app}-{name}@{i}.service`. */
  function InstanceName(u: DeployedUnit, i: nat): string {
    Prefix(u) + "@" + NatToString(i) + ".service"
  }

  /**
   * `service_instances` (`instance_service_names` in the older installer):
   * instances 1..replicas of a template, otherwise the single service.
   */
  function ServiceInstances(u: DeployedUnit): (r: seq<string>)
    ensures |r| == if u.isTemplate then u.replicas else 1
    ensures u.isTemplate ==> forall i :: 0 <= i < |r| ==> r[i] == InstanceName(u, i + 1)
    ensures !u.isTemplate ==> r == [TemplateServiceName(u)]
  {
    if u.isTemplate then seq(u.replicas, i requires 0 <= i => InstanceName(u, i + 1))
    else [TemplateServiceName(u)]
  }

  function OptionToSeq(o: Option<string>): seq<string> {
    if o.Some? then [o.value] else []
  }

  /** The runtime unit names of one unit: its instances, then socket, then timer. */
  function RuntimeNames(u: DeployedUnit): seq<string> {
    ServiceInstances(u) + OptionToSeq(TemplateSocketName(u)) + OptionToSeq(TemplateTimerName(u))
  }

  /** The installed file names of one unit: its service, then socket, then timer. */
  function FileNames(u: DeployedUnit): seq<string> {
    [TemplateServiceName(u)] + OptionToSeq(TemplateSocketName(u)) + OptionToSeq(TemplateTimerName(u))
  }

  /** `systemd_units`: every runtime unit name, unit by unit. */
  function SystemdUnits(units: seq<DeployedUnit>): seq<string> {
    if units == [] then [] else RuntimeNames(units[0]) + SystemdUnits(units[1..])
  }

  lemma {:induction false} SystemdUnitsAppend(us: seq<DeployedUnit>, u: DeployedUnit)
    ensures SystemdUnits(us + [u]) == SystemdUnits(us) + RuntimeNames(u)
    decreases |us|
  {
    if us == [] {
      assert [u][1..] == [];
    } else {
      assert (us + [u])[1..] == us[1..] + [u];
      SystemdUnitsAppend(us[1..], u);
    }
  }

  lemma SystemdUnitsStep(units: seq<DeployedUnit>, i: nat)
    requires i < |units|
    ensures SystemdUnits(units[..i + 1]) == SystemdUnits(units[..i]) + RuntimeNames(units[i])
  {
    assert units[..i + 1] == units[..i] + [units[i]];
    SystemdUnitsAppend(units[..i], units[i]);
  }

  /** A name is a runtime unit exactly when some unit runs it. */
  lemma {:induction false} SystemdUnitsMembers(units: seq<DeployedUnit>, n: string)
    ensures n in SystemdUnits(units) <==> exists u :: u in units && n in RuntimeNames(u)
    decreases |units|
  {
    if units != [] {
      SystemdUnitsMembers(units[1..], n);
      assert forall u :: u in units <==> u == units[0] || u in units[1..];
    }
  }

  /**
   * Collects every unit's instances, then its socket and timer, unit by
   * unit: the names `fujin app status` asks about and the names the
   * installer enables and restarts.
   */
  method CollectSystemdUnits(units: seq<DeployedUnit>) returns (names: seq<string>)
    ensures names == SystemdUnits(units)
  {
    names := [];
    for i := 0 to |units|
      invariant names == SystemdUnits(units[..i])
    {
      var du := units[i];
      var more := UnitNames(du);
      SystemdUnitsStep(units, i);
      names := names + more;
    }
    assert units[..|units|] == units;
  }

  /** One unit's share of the loop: its instances, then its socket and timer. */
  method UnitNames(du: DeployedUnit) returns (more: seq<string>)
    ensures more == RuntimeNames(du)
  {
    more := ServiceInstances(du);
    if TemplateSocketName(du).Some? {
      more := more + [TemplateSocketName(du).value];
    }
    if TemplateTimerName(du).Some? {
      more := more + [TemplateTimerName(du).value];
    }
  }

  /** `valid_units`: every unit's installed file names, unit by unit. */
  function ValidUnits(units: seq<DeployedUnit>): seq<string> {
    if units == [] then [] else ValidUnits(units[..|units| - 1]) + FileNames(units[|units| - 1])
  }

  /** The installers' loop collecting `valid_units`. */
  method CollectValidUnits(units: seq<DeployedUnit>) returns (valid: seq<string>)
    ensures valid == ValidUnits(units)
  {
    valid := [];
    for i := 0 to |units|
      invariant valid == ValidUnits(units[..i])
    {
      var du := units[i];
      assert units[..i + 1][..i] == units[..i];
      var more := [TemplateServiceName(du)];
      if TemplateSocketName(du).Some? {
        more := more + [TemplateSocketName(du).value];
      }
      if TemplateTimerName(du).Some? {
        more := more + [TemplateTimerName(du).value];
      }
      assert more == FileNames(du);
      valid := valid + more;
    }
    assert units[..|units|] == units;
  }

  /** A name is valid exactly when some unit installs a file under it. */
  lemma {:induction false} ValidUnitsMembers(units: seq<DeployedUnit>, n: string)
    ensures n in ValidUnits(units) <==> exists u :: u in units && n in FileNames(u)
    decreases |units|
  {
    if units != [] {
      var front := units[..|units| - 1];
      var last := units[|units| - 1];
      ValidUnitsMembers(front, n);
      LastSplit(units);
      SnocMembers(front, last, n);
    }
  }

  /** Some unit of `front + [last]` installs `n` exactly when `last` or some unit of `front` does. */
  lemma SnocMembers(front: seq<DeployedUnit>, last: DeployedUnit, n: string)
    ensures (exists u :: u in front + [last] && n in FileNames(u))
        <==> n in FileNames(last) || exists u :: u in front && n in FileNames(u)
  {
    if exists u :: u in front + [last] && n in FileNames(u) {
      var u :| u in front + [last] && n in FileNames(u);
      if u != last {
        assert u in front;
      }
    }
    if exists u :: u in front && n in FileNames(u) {
      var u :| u in front && n in FileNames(u);
      assert u in front + [last];
    }
  }

  // ---------------------------------------------------------------------------
  // Properties of the naming scheme.

  /** Two numbers printed alike are equal: each numeral reads back as its number. */
  lemma NatToStringInjective(a: nat, b: nat)
    requires NatToString(a) == NatToString(b)
    ensures a == b
  {
    NatToStringValue(a);
    NatToStringValue(b);
  }

  /** Distinct instance numbers give distinct unit names. */
  lemma InstanceNamesDistinct(u: DeployedUnit, i: nat, j: nat)
    requires i != j
    ensures InstanceName(u, i) != InstanceName(u, j)
  {
    if InstanceName(u, i) == InstanceName(u, j) {
      var p := Prefix(u) + "@";
      var si, sj := NatToString(i), NatToString(j);
      assert p + si + ".service" == p + sj + ".service";
      assert |si| == |sj|;
      assert si == (p + si + ".service")[|p|..|p| + |si|];
      assert sj == (p + sj + ".service")[|p|..|p| + |sj|];
      NatToStringInjective(i, j);
    }
  }

  /** The instances of a template are pairwise distinct. */
  lemma ServiceInstancesDistinct(u: DeployedUnit)
    ensures forall i, j :: 0 <= i < j < |ServiceInstances(u)| ==> ServiceInstances(u)[i] != ServiceInstances(u)[j]
  {
    forall i, j | 0 <= i < j < |ServiceInstances(u)|
      ensures ServiceInstances(u)[i] != ServiceInstances(u)[j]
    {
      InstanceNamesDistinct(u, i + 1, j + 1);
    }
  }

  /** A template's own name (`...@.service`) is never one of its instances. */
  lemma TemplateNotAnInstance(u: DeployedUnit, i: nat)
    requires u.isTemplate
    ensures TemplateServiceName(u) != InstanceName(u, i)
  {
    var p := Prefix(u) + "@";
    assert TemplateServiceName(u) == p + ".service";
    assert InstanceName(u, i) == p + NatToString(i) + ".service";
    NatToStringValue(i);
    assert InstanceName(u, i)[|p|] == NatToString(i)[0];
    assert TemplateServiceName(u)[|p|] == '.';
  }

  /** Every name derived from a unit starts with `{app}-{name}`. */
  lemma NamesArePrefixed(u: DeployedUnit)
    ensures forall n :: n in RuntimeNames(u) ==> StartsWith(n, Prefix(u))
    ensures forall n :: n in FileNames(u) ==> StartsWith(n, Prefix(u))
  {
    forall n | n in RuntimeNames(u) ensures StartsWith(n, Prefix(u)) {
      if n in ServiceInstances(u) {
        var i :| 0 <= i < |ServiceInstances(u)| && ServiceInstances(u)[i] == n;
      }
    }
  }

  /** The names used by the tests for app `testapp`. */
  lemma TestAppNames()
    ensures TemplateServiceName(DeployedUnit("web", "testapp", false, 1, false, false)) == "testapp-web.service"
    ensures TemplateServiceName(DeployedUnit("worker", "testapp", true, 3, false, false)) == "testapp-worker@.service"
    ensures TemplateSocketName(DeployedUnit("api", "testapp", false, 1, true, true)) == Some("testapp-api.socket")
    ensures TemplateTimerName(DeployedUnit("api", "testapp", false, 1, true, true)) == Some("testapp-api.timer")
  {
    var api := DeployedUnit("api", "testapp", false, 1, true, true);
    assert Prefix(api) + At(false) + ".socket" == "testapp-api.socket";
    assert Prefix(api) + At(false) + ".timer" == "testapp-api.timer";
  }

  /** The instances the tests expect for a three-replica `worker` template. */
  lemma TestAppInstances()
    ensures ServiceInstances(DeployedUnit("worker", "testapp", true, 3, false, false))
         == ["testapp-worker@1.service", "testapp-worker@2.service", "testapp-worker@3.service"]
  {
    var w := DeployedUnit("worker", "testapp", true, 3, false, false);
    var r := ServiceInstances(w);
    WorkerInstance(w, 1, "1");
    WorkerInstance(w, 2, "2");
    WorkerInstance(w, 3, "3");
    assert "testapp-worker@" + "1" + ".service" == "testapp-worker@1.service";
    assert "testapp-worker@" + "2" + ".service" == "testapp-worker@2.service";
    assert "testapp-worker@" + "3" + ".service" == "testapp-worker@3.service";
    assert r == [InstanceName(w, 1), InstanceName(w, 2), InstanceName(w, 3)];
  }

  lemma WorkerInstance(w: DeployedUnit, i: nat, digit: string)
    requires w.appName == "testapp" && w.name == "worker"
    requires 1 <= i <= 9 && digit == [DigitChar(i)]
    ensures InstanceName(w, i) == "testapp-worker@" + digit + ".service"
  {
    assert Prefix(w) + "@" == "testapp-worker@";
  }
}
