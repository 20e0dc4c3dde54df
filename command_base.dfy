// Mapping what a user types after `fujin app start|stop|logs ...` to systemd
// unit names, and the list of accepted names shown when a name is unknown.

module CommandBase {
  import opened Strs
  import opened Wrappers
  import opened Cli
  import opened Units

  /** The suffix a user may add to a service name. */
  datatype Suffix = NoSuffix | ServiceSuffix | TimerSuffix | SocketSuffix

  function SuffixText(k: Suffix): string {
    match k
    case NoSuffix => ""
    case ServiceSuffix => ".service"
    case TimerSuffix => ".timer"
    case SocketSuffix => ".socket"
  }

  /** Strips `.service`, `.timer` or `.socket` (checked in that order). */
  function SplitSuffix(name: string): (r: (string, Suffix))
    ensures r.0 + SuffixText(r.1) == name
    ensures r.1 == NoSuffix <==>
      !EndsWith(name, ".service") && !EndsWith(name, ".timer") && !EndsWith(name, ".socket")
  {
    if EndsWith(name, ".service") then (name[..|name| - 8], ServiceSuffix)
    else if EndsWith(name, ".timer") then (name[..|name| - 6], TimerSuffix)
    else if EndsWith(name, ".socket") then (name[..|name| - 7], SocketSuffix)
    else (name, NoSuffix)
  }

  /** `[n for n in names if n.endswith(ext)]` */
  function KeepEnding(names: seq<string>, ext: string): (r: seq<string>)
    ensures forall n :: n in r <==> n in names && EndsWith(n, ext)
    ensures |r| <= |names|
  {
    if names == [] then []
    else (if EndsWith(names[0], ext) then [names[0]] else []) + KeepEnding(names[1..], ext)
  }

  /** `next(u for u in units if u.name == name)`: the first unit with that name. */
  function FindUnit(units: seq<DeployedUnit>, name: string): (r: Option<DeployedUnit>)
    ensures r.None? <==> forall u :: u in units ==> u.name != name
    ensures r.Some? ==> r.value in units && r.value.name == name
  {
    if units == [] then None
    else if units[0].name == name then Some(units[0])
    else FindUnit(units[1..], name)
  }

  function Names(units: seq<DeployedUnit>): seq<string> {
    if units == [] then [] else [units[0].name] + Names(units[1..])
  }

  function UnknownService(serviceName: string, units: seq<DeployedUnit>): Exit {
    Exit("Unknown service '" + serviceName + "'. Available services: " + Join(Names(units), ", "), 1)
  }

  /** The service names a unit contributes: its template name, or its running instances. */
  function ServiceNames(du: DeployedUnit, useTemplates: bool): seq<string> {
    if useTemplates then [TemplateServiceName(du)] else ServiceInstances(du)
  }

  function NoCompanion(serviceName: string, kind: string): Exit {
    Exit("Service '" + serviceName + "' does not have a " + kind + ".", 1)
  }

  /** What `_resolve_units` gives once the unit `du` named by the user is found. */
  function ForUnit(du: DeployedUnit, suffix: Suffix, useTemplates: bool): Result<seq<string>, Exit> {
    if suffix == SocketSuffix && !du.hasSocket then Err(NoCompanion(du.name, "socket"))
    else if suffix == TimerSuffix && !du.hasTimer then Err(NoCompanion(du.name, "timer"))
    else
      Ok(ServicePart(du, suffix, useTemplates) + SocketPart(du, suffix) + TimerPart(du, suffix))
  }

  function ServicePart(du: DeployedUnit, suffix: Suffix, useTemplates: bool): seq<string> {
    if suffix == ServiceSuffix || suffix == NoSuffix then ServiceNames(du, useTemplates) else []
  }

  function SocketPart(du: DeployedUnit, suffix: Suffix): seq<string> {
    if suffix == SocketSuffix || (suffix == NoSuffix && du.hasSocket) then OptionToSeq(TemplateSocketName(du)) else []
  }

  function TimerPart(du: DeployedUnit, suffix: Suffix): seq<string> {
    if suffix == TimerSuffix || (suffix == NoSuffix && du.hasTimer) then OptionToSeq(TemplateTimerName(du)) else []
  }

  /** What `_resolve_units` returns or raises. An absent name is the empty string. */
  function Resolve(units: seq<DeployedUnit>, name: string, useTemplates: bool): Result<seq<string>, Exit> {
    if name == "" then Ok(SystemdUnits(units))
    else
      var serviceName := SplitSuffix(name).0;
      if serviceName == "timer" then Ok(KeepEnding(SystemdUnits(units), ".timer"))
      else if serviceName == "socket" then Ok(KeepEnding(SystemdUnits(units), ".socket"))
      else match FindUnit(units, serviceName)
        case None => Err(UnknownService(serviceName, units))
        case Some(du) => ForUnit(du, SplitSuffix(name).1, useTemplates)
  }

  /** `_resolve_units`: strips the suffix, looks the unit up, then builds its names. */
  method ResolveUnits(units: seq<DeployedUnit>, name: string, useTemplates: bool)
    returns (r: Result<seq<string>, Exit>)
    ensures r == Resolve(units, name, useTemplates)
  {
    var systemdUnits := SystemdUnits(units);
    if name == "" {
      return Ok(systemdUnits);
    }
    var (serviceName, suffix) := SplitSuffix(name);
    if serviceName == "timer" {
      return Ok(KeepEnding(systemdUnits, ".timer"));
    }
    if serviceName == "socket" {
      return Ok(KeepEnding(systemdUnits, ".socket"));
    }
    var found := FindService(units, serviceName);
    if found.None? {
      return Err(UnknownService(serviceName, units));
    }
    r := UnitNames(found.value, suffix, useTemplates);
  }

  /** The `next(...)` search over the deployed units. */
  method FindService(units: seq<DeployedUnit>, serviceName: string) returns (found: Option<DeployedUnit>)
    ensures found == FindUnit(units, serviceName)
  {
    found := None;
    var i := 0;
    while i < |units| && found.None?
      invariant 0 <= i <= |units|
      invariant found.None? ==> FindUnit(units, serviceName) == FindUnit(units[i..], serviceName)
      invariant found.Some? ==> found == FindUnit(units, serviceName)
      decreases |units| - i
    {
      assert units[i..] == [units[i]] + units[i + 1..];
      if units[i].name == serviceName {
        found := Some(units[i]);
      }
      i := i + 1;
    }
    if found.None? {
      assert units[i..] == [];
    }
  }

  /** The appending part of `_resolve_units`, for the unit that was found. */
  method UnitNames(du: DeployedUnit, suffix: Suffix, useTemplates: bool) returns (r: Result<seq<string>, Exit>)
    ensures r == ForUnit(du, suffix, useTemplates)
  {
    var out: seq<string> := [];
    if suffix == ServiceSuffix || suffix == NoSuffix {
      if useTemplates {
        out := out + [TemplateServiceName(du)];
      } else {
        out := out + ServiceInstances(du);
      }
    }
    assert out == ServicePart(du, suffix, useTemplates);
    if suffix == SocketSuffix || (suffix == NoSuffix && du.hasSocket) {
      if !du.hasSocket && suffix == SocketSuffix {
        return Err(NoCompanion(du.name, "socket"));
      }
      if TemplateSocketName(du).Some? {
        out := out + [TemplateSocketName(du).value];
      }
    }
    assert out == ServicePart(du, suffix, useTemplates) + SocketPart(du, suffix);
    if suffix == TimerSuffix || (suffix == NoSuffix && du.hasTimer) {
      if !du.hasTimer && suffix == TimerSuffix {
        return Err(NoCompanion(du.name, "timer"));
      }
      if TemplateTimerName(du).Some? {
        out := out + [TemplateTimerName(du).value];
      }
    }
    assert out == ServicePart(du, suffix, useTemplates) + SocketPart(du, suffix) + TimerPart(du, suffix);
    return Ok(out);
  }

  // ---------------------------------------------------------------------------
  // What resolution promises.

  /**
   * A bare name gives the unit's runtime names (instances, socket, timer);
   * with templates it gives the installed file names instead.
   */
  lemma BareNameUnits(du: DeployedUnit)
    ensures ForUnit(du, NoSuffix, false) == Ok(RuntimeNames(du))
    ensures ForUnit(du, NoSuffix, true) == Ok(FileNames(du))
  {
  }

  /** An explicit suffix selects one kind of unit, or exits with code 1 when the unit has none. */
  lemma SuffixedUnits(du: DeployedUnit, useTemplates: bool)
    ensures ForUnit(du, ServiceSuffix, useTemplates) == Ok(ServiceNames(du, useTemplates))
    ensures du.hasSocket <==> ForUnit(du, SocketSuffix, useTemplates).Ok?
    ensures du.hasSocket ==> ForUnit(du, SocketSuffix, useTemplates).value == [TemplateSocketName(du).value]
    ensures !du.hasSocket ==> ForUnit(du, SocketSuffix, useTemplates).error.code == 1
    ensures du.hasTimer <==> ForUnit(du, TimerSuffix, useTemplates).Ok?
    ensures du.hasTimer ==> ForUnit(du, TimerSuffix, useTemplates).value == [TemplateTimerName(du).value]
    ensures !du.hasTimer ==> ForUnit(du, TimerSuffix, useTemplates).error.code == 1
  {
    assert ServiceNames(du, useTemplates) + [] + [] == ServiceNames(du, useTemplates);
    assert [] + OptionToSeq(TemplateSocketName(du)) + [] == OptionToSeq(TemplateSocketName(du));
    assert [] + [] + OptionToSeq(TemplateTimerName(du)) == OptionToSeq(TemplateTimerName(du));
  }

  /** A name that is neither suffixed nor a keyword, so it can only name a service. */
  predicate PlainName(n: string) {
    n != "" && SplitSuffix(n).1 == NoSuffix && n != "timer" && n != "socket"
  }

  /** A known service name, with or without a suffix, resolves through that unit. */
  lemma ResolveKnown(units: seq<DeployedUnit>, du: DeployedUnit, name: string, k: Suffix, useTemplates: bool)
    requires FindUnit(units, du.name) == Some(du) && PlainName(du.name) && name == du.name + SuffixText(k)
    ensures Resolve(units, name, useTemplates) == ForUnit(du, k, useTemplates)
  {
    if k == NoSuffix {
      assert du.name + SuffixText(k) == du.name;
    } else {
      SuffixedName(du.name, SuffixText(k), k);
    }
  }

  lemma SuffixedName(n: string, ext: string, k: Suffix)
    requires PlainName(n) && k != NoSuffix && ext == SuffixText(k)
    ensures SplitSuffix(n + ext) == (n, k)
  {
    var s := n + ext;
    assert s[|s| - |ext|..] == ext;
    assert s[..|s| - |ext|] == n;
    // The three suffixes end in different letters, so at most one of them matches.
    assert s[|s| - 1] == ext[|ext| - 1];
  }

  /** The keywords return every timer (or socket) unit, in order. */
  lemma ResolveKeywords(units: seq<DeployedUnit>, useTemplates: bool)
    ensures Resolve(units, "timer", useTemplates) == Ok(KeepEnding(SystemdUnits(units), ".timer"))
    ensures Resolve(units, "socket", useTemplates) == Ok(KeepEnding(SystemdUnits(units), ".socket"))
  {
    assert !EndsWith("timer", ".service") && !EndsWith("timer", ".timer") && !EndsWith("timer", ".socket");
    assert !EndsWith("socket", ".service") && !EndsWith("socket", ".timer") && !EndsWith("socket", ".socket");
  }

  /** An unknown service is refused with exit code 1. */
  lemma ResolveUnknown(units: seq<DeployedUnit>, n: string, useTemplates: bool)
    requires PlainName(n) && forall u :: u in units ==> u.name != n
    ensures Resolve(units, n, useTemplates) == Err(UnknownService(n, units))
  {
  }

  /** Instance names resolved for a service are runtime units of the project. */
  lemma ResolvedAreSystemdUnits(units: seq<DeployedUnit>, du: DeployedUnit)
    requires FindUnit(units, du.name) == Some(du) && PlainName(du.name)
    ensures Resolve(units, du.name, false).Ok?
    ensures forall n :: n in Resolve(units, du.name, false).value ==> n in SystemdUnits(units)
  {
    ResolveKnown(units, du, du.name, NoSuffix, false);
    BareNameUnits(du);
    RuntimeNamesInSystemdUnits(units, du);
  }

  lemma {:induction false} RuntimeNamesInSystemdUnits(units: seq<DeployedUnit>, du: DeployedUnit)
    requires du in units
    ensures forall n :: n in RuntimeNames(du) ==> n in SystemdUnits(units)
  {
    if units[0] != du {
      RuntimeNamesInSystemdUnits(units[1..], du);
    }
  }

  // ---------------------------------------------------------------------------
  // `_get_available_options`

  function AnyTimer(units: seq<DeployedUnit>): bool {
    exists u :: u in units && u.hasTimer
  }

  function AnySocket(units: seq<DeployedUnit>): bool {
    exists u :: u in units && u.hasSocket
  }

  /** The names offered for one unit: `name`, `name.service`, then `.socket` and `.timer` when present. */
  function UnitOptions(u: DeployedUnit): seq<string> {
    [u.name, u.name + ".service"]
    + (if u.hasSocket then [u.name + ".socket"] else [])
    + (if u.hasTimer then [u.name + ".timer"] else [])
  }

  function AllUnitOptions(units: seq<DeployedUnit>): seq<string> {
    if units == [] then [] else UnitOptions(units[0]) + AllUnitOptions(units[1..])
  }

  /** The plain option list, before colouring. */
  function OptionList(units: seq<DeployedUnit>): seq<string> {
    ["env", "caddy", "units"]
    + (if AnyTimer(units) then ["timer"] else [])
    + (if AnySocket(units) then ["socket"] else [])
    + AllUnitOptions(units)
  }

  function Cyan(options: seq<string>): (r: seq<string>)
    ensures |r| == |options|
    ensures forall i :: 0 <= i < |r| ==> r[i] == "[cyan]" + options[i] + "[/cyan]"
  {
    if options == [] then [] else ["[cyan]" + options[0] + "[/cyan]"] + Cyan(options[1..])
  }

  /** `_get_available_options`: extends the option list unit by unit, then colours and joins it. */
  method AvailableOptions(units: seq<DeployedUnit>) returns (r: string)
    ensures r == Join(Cyan(OptionList(units)), " ")
  {
    var options := ["env", "caddy", "units"];
    var hasTimer := AnyTimer(units);
    var hasSocket := AnySocket(units);
    if hasTimer {
      options := options + ["timer"];
    }
    if hasSocket {
      options := options + ["socket"];
    }
    assert options == ["env", "caddy", "units"] + (if AnyTimer(units) then ["timer"] else [])
                      + (if AnySocket(units) then ["socket"] else []);
    options := AddUnitOptions(options, units);
    return Join(Cyan(options), " ");
  }

  /** Extends the list with each unit's names, unit by unit. */
  method AddUnitOptions(head: seq<string>, units: seq<DeployedUnit>) returns (options: seq<string>)
    ensures options == head + AllUnitOptions(units)
  {
    options := head;
    var i := 0;
    while i < |units|
      invariant 0 <= i <= |units|
      invariant options == head + AllUnitOptions(units[..i])
    {
      var more := NamesOf(units[i]);
      assert options + more == head + AllUnitOptions(units[..i + 1]) by {
        AllUnitOptionsAppend(units[..i], units[i]);
        assert units[..i + 1] == units[..i] + [units[i]];
      }
      options := options + more;
      i := i + 1;
    }
    assert units[..i] == units;
  }

  /** The names one unit adds to the option list. */
  method NamesOf(du: DeployedUnit) returns (more: seq<string>)
    ensures more == UnitOptions(du)
  {
    more := [du.name, du.name + ".service"];
    if du.hasSocket {
      more := more + [du.name + ".socket"];
    }
    if du.hasTimer {
      more := more + [du.name + ".timer"];
    }
  }

  lemma {:induction false} AllUnitOptionsAppend(us: seq<DeployedUnit>, u: DeployedUnit)
    ensures AllUnitOptions(us + [u]) == AllUnitOptions(us) + UnitOptions(u)
    decreases |us|
  {
    if us == [] {
      assert [u][1..] == [];
    } else {
      assert (us + [u])[1..] == us[1..] + [u];
      AllUnitOptionsAppend(us[1..], u);
    }
  }

  lemma {:induction false} AllUnitOptionsMember(units: seq<DeployedUnit>, o: string)
    requires o in AllUnitOptions(units)
    ensures exists u :: u in units && o in UnitOptions(u)
    decreases |units|
  {
    if o !in UnitOptions(units[0]) {
      AllUnitOptionsMember(units[1..], o);
      var u :| u in units[1..] && o in UnitOptions(u);
      assert u in units;
    }
  }

  predicate DistinctNames(units: seq<DeployedUnit>) {
    forall i, j :: 0 <= i < j < |units| ==> units[i].name != units[j].name
  }

  lemma FindDistinct(units: seq<DeployedUnit>, u: DeployedUnit)
    requires DistinctNames(units) && u in units
    ensures FindUnit(units, u.name) == Some(u)
  {
    var k :| 0 <= k < |units| && units[k] == u;
    FindAt(units, k);
  }

  lemma {:induction false} FindAt(units: seq<DeployedUnit>, k: nat)
    requires DistinctNames(units) && k < |units|
    ensures FindUnit(units, units[k].name) == Some(units[k])
    decreases k
  {
    if k > 0 {
      assert units[0].name != units[k].name;
      assert DistinctNames(units[1..]) by {
        forall i, j | 0 <= i < j < |units[1..]| ensures units[1..][i].name != units[1..][j].name {
          assert units[1..][i] == units[i + 1] && units[1..][j] == units[j + 1];
        }
      }
      assert units[1..][k - 1] == units[k];
      FindAt(units[1..], k - 1);
    }
  }

  lemma UnitOptionResolves(units: seq<DeployedUnit>, u: DeployedUnit, o: string, useTemplates: bool)
    requires FindUnit(units, u.name) == Some(u) && PlainName(u.name) && o in UnitOptions(u)
    ensures Resolve(units, o, useTemplates).Ok?
  {
    var k := OptionSuffix(u, o);
    ResolveKnown(units, u, o, k, useTemplates);
    SuffixedUnits(u, useTemplates);
  }

  /** Each offered name of a unit is its name with one of the suffixes. */
  lemma OptionSuffix(u: DeployedUnit, o: string) returns (k: Suffix)
    requires o in UnitOptions(u)
    ensures o == u.name + SuffixText(k)
  {
    if o == u.name {
      k := NoSuffix;
      assert o == u.name + "";
    } else if o == u.name + ".service" {
      k := ServiceSuffix;
    } else if o == u.name + ".socket" {
      k := SocketSuffix;
    } else {
      k := TimerSuffix;
    }
  }

  /**
   * When service names are distinct and plain, every name offered after
   * `env, caddy, units` is accepted by the resolver.
   */
  lemma OfferedOptionsResolve(units: seq<DeployedUnit>, o: string, useTemplates: bool)
    requires DistinctNames(units) && forall u :: u in units ==> PlainName(u.name)
    requires o in OptionList(units)[3..]
    ensures Resolve(units, o, useTemplates).Ok?
  {
    var kws := (if AnyTimer(units) then ["timer"] else []) + (if AnySocket(units) then ["socket"] else []);
    OptionListTail(units);
    if o in kws {
      assert o == "timer" || o == "socket";
      ResolveKeywords(units, useTemplates);
    } else {
      UnitNameResolves(units, o, useTemplates);
    }
  }

  lemma OptionListTail(units: seq<DeployedUnit>)
    ensures OptionList(units)[3..] ==
      (if AnyTimer(units) then ["timer"] else []) + (if AnySocket(units) then ["socket"] else []) + AllUnitOptions(units)
  {
    var fixed: seq<string> := ["env", "caddy", "units"];
    var rest := (if AnyTimer(units) then ["timer"] else []) + (if AnySocket(units) then ["socket"] else []) + AllUnitOptions(units);
    AppendAssoc(fixed, (if AnyTimer(units) then ["timer"] else []) + (if AnySocket(units) then ["socket"] else []), AllUnitOptions(units));
    AppendAssoc(fixed, if AnyTimer(units) then ["timer"] else [], if AnySocket(units) then ["socket"] else []);
    assert (fixed + rest)[3..] == rest;
  }

  lemma UnitNameResolves(units: seq<DeployedUnit>, o: string, useTemplates: bool)
    requires DistinctNames(units) && forall u :: u in units ==> PlainName(u.name)
    requires o in AllUnitOptions(units)
    ensures Resolve(units, o, useTemplates).Ok?
  {
    AllUnitOptionsMember(units, o);
    var u :| u in units && o in UnitOptions(u);
    FindDistinct(units, u);
    UnitOptionResolves(units, u, o, useTemplates);
  }
}
