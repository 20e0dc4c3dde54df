// `fujin migrate`: rewrites an old fujin.toml into the current layout. A
// single `host` becomes a `hosts` list, host fields are renamed, bare process
// commands become tables, and the `webserver` table turns into a `sites`
// entry.
//
// `migrate_config` copies only the top-level table. The host tables, the
// `processes` table and the `webserver` table are shared with the caller's
// configuration and are changed in place, so the model computes both the
// migrated configuration and the caller's configuration as the call leaves it.

module Migrate {
  import opened Wrappers
  import opened Dicts

  /** A decoded TOML value. Tables keep their keys in document order. */
  datatype Value = Str(s: string) | Num(n: int) | Flag(b: bool) | Arr(items: seq<Value>) | Table(t: Dict<Value>)

  /** Python's truthiness of a decoded value. */
  predicate Truthy(v: Value) {
    match v
    case Str(s) => s != ""
    case Num(n) => n != 0
    case Flag(b) => b
    case Arr(items) => items != []
    case Table(t) => t != []
  }

  predicate IsTable(v: Value) {
    v.Table? && DistinctKeys(v.t)
  }

  // ---------------------------------------------------------------------------
  // The shapes the code relies on. A configuration that breaks them makes the
  // source raise (a `pop` or `.get` on a non-table).

  predicate HostsShaped(c: Dict<Value>) {
    Get(c, "hosts").Some? ==>
      Get(c, "hosts").value.Arr? && forall i :: 0 <= i < |Get(c, "hosts").value.items| ==> IsTable(Get(c, "hosts").value.items[i])
  }

  predicate ProcessesShaped(c: Dict<Value>) {
    Get(c, "processes").Some? ==> Get(c, "processes").value.Table?
  }

  predicate WebserverShaped(c: Dict<Value>) {
    Get(c, "webserver").Some? ==>
      IsTable(Get(c, "webserver").value)
      && (Get(Get(c, "webserver").value.t, "statics").Some? ==> Get(Get(c, "webserver").value.t, "statics").value.Table?)
  }

  predicate Shaped(c: Dict<Value>) {
    DistinctKeys(c) && HostsShaped(c) && ProcessesShaped(c) && WebserverShaped(c)
    && (Get(c, "host").Some? && Get(c, "hosts").None? ==> IsTable(Get(c, "host").value))
  }

  // ---------------------------------------------------------------------------
  // Hosts.

  /** `t[to] = t.pop(from)`: the value moves to `to`, in place if `to` exists, else last. */
  function Rename(t: Dict<Value>, from: string, to: string): (r: Dict<Value>)
    requires DistinctKeys(t) && Get(t, from).Some?
    ensures DistinctKeys(r)
  {
    var v := Get(t, from).value;
    PutKeepsDistinct(Remove(t, from), to, v);
    Put(Remove(t, from), to, v)
  }

  /** `ip`, else `domain_name`, becomes `address`. */
  function AddressStep(t: Dict<Value>): (r: Dict<Value>)
    requires DistinctKeys(t)
    ensures DistinctKeys(r)
  {
    if Get(t, "ip").Some? then Rename(t, "ip", "address")
    else if Get(t, "domain_name").Some? then Rename(t, "domain_name", "address")
    else t
  }

  /** `ssh_port` becomes `port`. */
  function PortStep(t: Dict<Value>): (r: Dict<Value>)
    requires DistinctKeys(t)
    ensures DistinctKeys(r)
  {
    if Get(t, "ssh_port").Some? then Rename(t, "ssh_port", "port") else t
  }

  /** A host table with `ip` (else `domain_name`) renamed to `address` and `ssh_port` to `port`. */
  function MigrateHost(t: Dict<Value>): (r: Dict<Value>)
    requires DistinctKeys(t)
    ensures DistinctKeys(r)
  {
    PortStep(AddressStep(t))
  }

  /** A rename moves the value to `to`, drops `from`, and leaves every other key alone. */
  lemma RenameEffect(t: Dict<Value>, from: string, to: string)
    requires DistinctKeys(t) && Get(t, from).Some? && from != to
    ensures Get(Rename(t, from, to), to) == Get(t, from)
    ensures Get(Rename(t, from, to), from).None?
    ensures forall k :: k != from && k != to ==> Get(Rename(t, from, to), k) == Get(t, k)
  {
  }

  lemma AddressStepEffect(t: Dict<Value>)
    requires DistinctKeys(t)
    ensures var r := AddressStep(t);
      Get(r, "ip").None?
      && (Get(t, "ip").Some? ==> Get(r, "address") == Get(t, "ip") && Get(r, "domain_name") == Get(t, "domain_name"))
      && (Get(t, "ip").None? && Get(t, "domain_name").Some? ==>
            Get(r, "address") == Get(t, "domain_name") && Get(r, "domain_name").None?)
      && (Get(t, "ip").None? && Get(t, "domain_name").None? ==> Get(r, "address") == Get(t, "address"))
      && forall k :: k != "ip" && k != "domain_name" && k != "address" ==> Get(r, k) == Get(t, k)
  {
    if Get(t, "ip").Some? {
      RenameEffect(t, "ip", "address");
    } else if Get(t, "domain_name").Some? {
      RenameEffect(t, "domain_name", "address");
    }
  }

  lemma PortStepEffect(t: Dict<Value>)
    requires DistinctKeys(t)
    ensures var r := PortStep(t);
      Get(r, "ssh_port").None?
      && (Get(t, "ssh_port").Some? ==> Get(r, "port") == Get(t, "ssh_port"))
      && (Get(t, "ssh_port").None? ==> Get(r, "port") == Get(t, "port"))
      && forall k :: k != "ssh_port" && k != "port" ==> Get(r, k) == Get(t, k)
  {
    if Get(t, "ssh_port").Some? {
      RenameEffect(t, "ssh_port", "port");
    }
  }

  /** `address` comes from `ip` when there is one, else from `domain_name`, else stays as it was. */
  lemma MigrateHostAddress(t: Dict<Value>)
    requires DistinctKeys(t)
    ensures var r := MigrateHost(t);
      Get(r, "ip").None?
      && (Get(t, "ip").Some? ==> Get(r, "address") == Get(t, "ip") && Get(r, "domain_name") == Get(t, "domain_name"))
      && (Get(t, "ip").None? && Get(t, "domain_name").Some? ==>
            Get(r, "address") == Get(t, "domain_name") && Get(r, "domain_name").None?)
      && (Get(t, "ip").None? && Get(t, "domain_name").None? ==> Get(r, "address") == Get(t, "address"))
  {
    AddressStepEffect(t);
    PortStepEffect(AddressStep(t));
  }

  /** `port` comes from `ssh_port` when there is one; no key but the renamed ones changes. */
  lemma MigrateHostPort(t: Dict<Value>)
    requires DistinctKeys(t)
    ensures var r := MigrateHost(t);
      Get(r, "ssh_port").None?
      && (Get(t, "ssh_port").Some? ==> Get(r, "port") == Get(t, "ssh_port"))
      && (Get(t, "ssh_port").None? ==> Get(r, "port") == Get(t, "port"))
      && forall k :: k != "ip" && k != "domain_name" && k != "address" && k != "ssh_port" && k != "port" ==>
           Get(r, k) == Get(t, k)
  {
    AddressStepEffect(t);
    PortStepEffect(AddressStep(t));
  }

  /** A host table with none of the old fields is left exactly as it is. */
  lemma MigrateHostCurrent(t: Dict<Value>)
    requires DistinctKeys(t)
    requires Get(t, "ip").None? && Get(t, "domain_name").None? && Get(t, "ssh_port").None?
    ensures MigrateHost(t) == t
  {
  }

  /** One element of `hosts` after the loop body ran on it. */
  function MigrateHostValue(v: Value): (r: Value)
    ensures IsTable(v) ==> IsTable(r)
  {
    if IsTable(v) then Table(MigrateHost(v.t)) else v
  }

  function MigratedHosts(hosts: seq<Value>): (r: seq<Value>)
    ensures |r| == |hosts|
    ensures (forall i :: 0 <= i < |hosts| ==> IsTable(hosts[i])) ==> forall i :: 0 <= i < |r| ==> IsTable(r[i])
  {
    seq(|hosts|, i requires 0 <= i < |hosts| => MigrateHostValue(hosts[i]))
  }

  /** The host loop, changing each host table in turn. */
  method MigrateHosts(hosts: seq<Value>) returns (r: seq<Value>)
    requires forall i :: 0 <= i < |hosts| ==> IsTable(hosts[i])
    ensures r == MigratedHosts(hosts)
  {
    r := hosts;
    for i := 0 to |hosts|
      invariant |r| == |hosts|
      invariant forall j :: 0 <= j < i ==> r[j] == MigrateHostValue(hosts[j])
      invariant forall j :: i <= j < |hosts| ==> r[j] == hosts[j]
    {
      var t := MigrateHostTable(r[i].t);
      r := r[i := Table(t)];
    }
  }

  /** The loop body on one host table. */
  method MigrateHostTable(host: Dict<Value>) returns (t: Dict<Value>)
    requires DistinctKeys(host)
    ensures t == MigrateHost(host)
  {
    t := host;
    if Get(t, "ip").Some? {
      t := Rename(t, "ip", "address");
    } else if Get(t, "domain_name").Some? {
      t := Rename(t, "domain_name", "address");
    }
    assert t == AddressStep(host);
    if Get(t, "ssh_port").Some? {
      t := Rename(t, "ssh_port", "port");
    }
  }

  // ---------------------------------------------------------------------------
  // Processes.

  /** `web_listen` is used only when it is truthy. */
  predicate Listens(listen: Option<Value>) {
    listen.Some? && Truthy(listen.value)
  }

  /** One process after the migration. */
  function MigrateProcess(name: string, v: Value, listen: Option<Value>): Value {
    match v
    case Str(_) =>
      if name == "web" && Listens(listen) then Table([("command", v), ("listen", listen.value)])
      else Table([("command", v)])
    case Table(t) =>
      if name == "web" && Listens(listen) && Get(t, "listen").None? then Table(t + [("listen", listen.value)])
      else v
    case _ => v
  }

  /** The processes keep their names and order; each value is migrated. */
  function MigratedProcesses(p: Dict<Value>, listen: Option<Value>): (r: Dict<Value>)
    ensures Keys(r) == Keys(p)
  {
    var r := seq(|p|, i requires 0 <= i < |p| => (p[i].0, MigrateProcess(p[i].0, p[i].1, listen)));
    assert Keys(r) == Keys(p) by {
      assert forall i :: 0 <= i < |p| ==> Keys(r)[i] == r[i].0 == p[i].0 == Keys(p)[i];
    }
    r
  }

  /** A bare command becomes a table holding it, with `listen` only for `web` and only with a truthy upstream. */
  lemma StringProcess(name: string, command: string, listen: Option<Value>)
    ensures var r := MigrateProcess(name, Str(command), listen);
      r.Table? && Get(r.t, "command") == Some(Str(command))
      && (Get(r.t, "listen").Some? <==> name == "web" && Listens(listen))
      && (Get(r.t, "listen").Some? ==> Get(r.t, "listen") == listen)
  {
  }

  /** A `web` table gets the upstream as `listen` only when it has no `listen`; an existing one is kept. */
  lemma TableWebProcess(t: Dict<Value>, listen: Option<Value>)
    ensures var r := MigrateProcess("web", Table(t), listen);
      r.Table?
      && (Get(t, "listen").Some? ==> r == Table(t))
      && (Get(t, "listen").None? && Listens(listen) ==> r == Table(t + [("listen", listen.value)]))
      && (!Listens(listen) ==> r == Table(t))
  {
  }

  /** Other tables and other value kinds are left alone. */
  lemma OtherProcess(name: string, v: Value, listen: Option<Value>)
    requires !v.Str? && (name != "web" || !v.Table?)
    ensures MigrateProcess(name, v, listen) == v
  {
  }

  /** The process loop, rewriting entries in place. */
  method MigrateProcesses(p: Dict<Value>, listen: Option<Value>) returns (r: Dict<Value>)
    ensures r == MigratedProcesses(p, listen)
  {
    r := p;
    for i := 0 to |p|
      invariant |r| == |p|
      invariant forall j :: 0 <= j < i ==> r[j] == (p[j].0, MigrateProcess(p[j].0, p[j].1, listen))
      invariant forall j :: i <= j < |p| ==> r[j] == p[j]
    {
      var (name, value) := r[i];
      if value.Str? {
        if name == "web" && listen.Some? && Truthy(listen.value) {
          r := r[i := (name, Table([("command", value), ("listen", listen.value)]))];
        } else {
          r := r[i := (name, Table([("command", value)]))];
        }
      } else if value.Table? {
        if name == "web" && listen.Some? && Truthy(listen.value) && Get(value.t, "listen").None? {
          r := r[i := (name, Table(value.t + [("listen", listen.value)]))];
        }
      }
    }
  }

  // ---------------------------------------------------------------------------
  // Sites.

  /** `routes[path] = {"static": directory}` for each static, in order. */
  function StaticRoutes(statics: Dict<Value>): Dict<Value> {
    if statics == [] then []
    else
      var last := statics[|statics| - 1];
      Put(StaticRoutes(statics[..|statics| - 1]), last.0, Table([("static", last.1)]))
  }

  /** Exactly the static paths are routed. */
  lemma {:induction false} StaticRoutesPaths(statics: Dict<Value>, path: string)
    ensures Get(StaticRoutes(statics), path).Some? <==> path in Keys(statics)
    decreases |statics|
  {
    if statics != [] {
      var n := |statics| - 1;
      var pre, last := statics[..n], statics[n];
      assert path in Keys(statics) <==> path in Keys(pre) || path == last.0 by {
        assert Keys(statics) == Keys(pre) + [last.0];
      }
      assert Get(StaticRoutes(statics), path).Some? <==> Get(StaticRoutes(pre), path).Some? || path == last.0 by {
        assert StaticRoutes(statics) == Put(StaticRoutes(pre), last.0, Table([("static", last.1)]));
      }
      StaticRoutesPaths(pre, path);
    }
  }

  /** Each static path serves its directory. */
  lemma {:induction false} StaticRoutesServe(statics: Dict<Value>, path: string)
    requires DistinctKeys(statics) && path in Keys(statics)
    ensures Get(StaticRoutes(statics), path) == Some(Table([("static", Get(statics, path).value)]))
    decreases |statics|
  {
    var n := |statics| - 1;
    if path == statics[n].0 {
      GetLast(statics, path);
    } else {
      assert Keys(statics) == Keys(statics[..n]) + [statics[n].0];
      assert DistinctKeys(statics[..n]) by {
        assert forall i :: 0 <= i < n ==> Keys(statics[..n])[i] == Keys(statics)[i];
      }
      StaticRoutesServe(statics[..n], path);
      GetPrefix(statics, n, path);
    }
  }

  /** A key before the last entry is looked up in the entries before it. */
  lemma GetPrefix(d: Dict<Value>, n: nat, k: string)
    requires n + 1 == |d| && k != d[n].0
    ensures Get(d, k) == Get(d[..n], k)
    decreases n
  {
    if n > 0 && d[0].0 != k {
      assert d[1..][..n - 1] == d[..n][1..];
      GetPrefix(d[1..], n - 1, k);
    }
  }

  /** With distinct keys, the last entry's key finds the last entry. */
  lemma GetLast(d: Dict<Value>, k: string)
    requires d != [] && DistinctKeys(d) && k == d[|d| - 1].0
    ensures Get(d, k) == Some(d[|d| - 1].1)
    decreases |d|
  {
    if |d| > 1 {
      assert Keys(d)[0] != Keys(d)[|d| - 1];
      HeadNotInTail(d);
      GetLast(d[1..], k);
    }
  }

  /** The routes: the statics, then `/` to the web process when there is one. */
  function Routes(statics: Dict<Value>, hasWeb: bool): Dict<Value> {
    var r := StaticRoutes(statics);
    if hasWeb then Put(r, "/", Str("web")) else r
  }

  /** There are routes exactly when there is a static or a web process. */
  lemma RoutesEmpty(statics: Dict<Value>, hasWeb: bool)
    ensures Routes(statics, hasWeb) == [] <==> statics == [] && !hasWeb
  {
    if statics != [] {
      StaticRoutesPaths(statics, statics[0].0);
    }
  }

  /** The statics loop. */
  method BuildRoutes(statics: Dict<Value>, hasWeb: bool) returns (routes: Dict<Value>)
    ensures routes == Routes(statics, hasWeb)
  {
    routes := [];
    for i := 0 to |statics|
      invariant routes == StaticRoutes(statics[..i])
    {
      var (path, directory) := statics[i];
      routes := Put(routes, path, Table([("static", directory)]));
      assert statics[..i + 1][..i] == statics[..i];
    }
    assert statics[..|statics|] == statics;
    if hasWeb {
      routes := Put(routes, "/", Str("web"));
    }
  }

  function Site(domain: Value, routes: Dict<Value>): Value {
    Table([("domains", Arr([domain])), ("routes", Table(routes))])
  }

  // ---------------------------------------------------------------------------
  // The configuration, phase by phase.

  /** Phase 1: a lone `host` becomes the only element of `hosts`. */
  function MoveHost(c: Dict<Value>): (r: Dict<Value>)
    requires Shaped(c)
    ensures Staged(r)
    ensures Get(r, "processes") == Get(c, "processes")
    ensures Get(r, "webserver") == Get(c, "webserver")
    ensures Get(r, "sites") == Get(c, "sites")
  {
    if Get(c, "host").Some? && Get(c, "hosts").None? then
      PutKeepsDistinct(Remove(c, "host"), "hosts", Arr([Get(c, "host").value]));
      Put(Remove(c, "host"), "hosts", Arr([Get(c, "host").value]))
    else c
  }

  /** Phase 2: `webserver.upstream`, if any. */
  function WebListen(c: Dict<Value>): Option<Value>
    requires WebserverShaped(c)
  {
    if Get(c, "webserver").Some? then Get(Get(c, "webserver").value.t, "upstream") else None
  }

  /** Phase 3: every host table migrated, in place. */
  function WithHosts(c: Dict<Value>): Dict<Value>
    requires HostsShaped(c)
  {
    if Get(c, "hosts").Some? then Put(c, "hosts", Arr(MigratedHosts(Get(c, "hosts").value.items))) else c
  }

  /** The processes table, or a fresh empty one. */
  function ProcessesOf(c: Dict<Value>): Dict<Value>
    requires ProcessesShaped(c)
  {
    if Get(c, "processes").Some? then Get(c, "processes").value.t else []
  }

  /** Phase 4: every process migrated, in place. */
  function WithProcesses(c: Dict<Value>, listen: Option<Value>): Dict<Value>
    requires ProcessesShaped(c)
  {
    if Get(c, "processes").Some? then Put(c, "processes", Table(MigratedProcesses(ProcessesOf(c), listen))) else c
  }

  /** Phase 5: `webserver` is dropped and, when possible, turned into a site. */
  function WithSites(c: Dict<Value>, webserver: Dict<Value>, processes: Dict<Value>): Dict<Value>
    requires DistinctKeys(c) && HostsShaped(c)
    requires Get(webserver, "statics").Some? ==> Get(webserver, "statics").value.Table?
  {
    var c1 := Remove(c, "webserver");
    var hosts := Get(c1, "hosts");
    if Get(c1, "sites").Some? || hosts.None? || !Truthy(hosts.value) then c1
    else
      var routes := Routes(StaticsOf(webserver), "web" in Keys(processes));
      if routes == [] then c1
      else Put(c1, "sites", Arr([Site(FirstAddress(hosts.value.items), routes)]))
  }

  /** `webserver.get("statics", {})` */
  function StaticsOf(webserver: Dict<Value>): Dict<Value>
    requires Get(webserver, "statics").Some? ==> Get(webserver, "statics").value.Table?
  {
    if Get(webserver, "statics").Some? then Get(webserver, "statics").value.t else []
  }

  /** `hosts[0].get("address", "example.com")` */
  function FirstAddress(hosts: seq<Value>): Value
    requires hosts != [] && hosts[0].Table?
  {
    GetOr(hosts[0].t, "address", Str("example.com"))
  }

  /** The three in-place changes on every table the shapes allow. */
  predicate Staged(c: Dict<Value>) {
    DistinctKeys(c) && HostsShaped(c) && ProcessesShaped(c) && WebserverShaped(c)
  }

  /** Phase 5 applies only when there is a `webserver`. */
  function DropWebserver(c: Dict<Value>): Dict<Value>
    requires Staged(c)
  {
    if Get(c, "webserver").None? then c
    else WithSites(c, Get(c, "webserver").value.t, ProcessesOf(c))
  }

  /** Phases 2 to 4. */
  function Phase4(c: Dict<Value>): (r: Dict<Value>)
    requires Staged(c)
    ensures Staged(r)
  {
    WithHostsShaped(c);
    WithProcessesShaped(WithHosts(c), WebListen(c));
    WithProcesses(WithHosts(c), WebListen(c))
  }

  /** `migrate_config(config_dict)`: the returned configuration. */
  function Migrated(c: Dict<Value>): Dict<Value>
    requires Shaped(c)
  {
    DropWebserver(Phase4(MoveHost(c)))
  }

  /** The caller's configuration after the call: its shared tables carry the changes. */
  function CallerAfter(c: Dict<Value>): Dict<Value>
    requires Shaped(c)
  {
    var listen := WebListen(c);
    var a1 :=
      if Get(c, "host").Some? && Get(c, "hosts").None? then Put(c, "host", Table(MigrateHost(Get(c, "host").value.t)))
      else WithHosts(c);
    var a2 := if Get(c, "processes").Some? then Put(a1, "processes", Table(MigratedProcesses(ProcessesOf(c), listen))) else a1;
    if Get(c, "webserver").Some? then Put(a2, "webserver", Table(Remove(Get(c, "webserver").value.t, "type"))) else a2
  }

  lemma WithHostsShaped(c: Dict<Value>)
    requires Staged(c)
    ensures Staged(WithHosts(c))
  {
    if Get(c, "hosts").Some? {
      PutKeepsDistinct(c, "hosts", Arr(MigratedHosts(Get(c, "hosts").value.items)));
      assert Get(WithHosts(c), "webserver") == Get(c, "webserver");
      assert Get(WithHosts(c), "processes") == Get(c, "processes");
    }
  }

  lemma WithProcessesShaped(c: Dict<Value>, listen: Option<Value>)
    requires Staged(c)
    ensures Staged(WithProcesses(c, listen))
  {
    if Get(c, "processes").Some? {
      PutKeepsDistinct(c, "processes", Table(MigratedProcesses(ProcessesOf(c), listen)));
      assert Get(WithProcesses(c, listen), "webserver") == Get(c, "webserver");
      assert Get(WithProcesses(c, listen), "hosts") == Get(c, "hosts");
    }
  }

  /** Phases 2 to 4 change neither `webserver` nor `sites` nor any other key but `hosts` and `processes`. */
  lemma Phase4Other(c: Dict<Value>, k: string)
    requires Staged(c)
    requires k != "hosts" && k != "processes"
    ensures Get(Phase4(c), k) == Get(c, k)
  {
    WithHostsShaped(c);
    assert Get(WithHosts(c), k) == Get(c, k);
  }

  /** `hosts` after phase 4 is `hosts` after phase 3. */
  lemma Phase4Hosts(c: Dict<Value>)
    requires Staged(c)
    ensures Get(Phase4(c), "hosts") == Get(WithHosts(c), "hosts")
  {
    WithHostsShaped(c);
  }

  /** `processes` after phase 4 is every process migrated with the listen address. */
  lemma Phase4Processes(c: Dict<Value>)
    requires Staged(c)
    ensures Get(Phase4(c), "processes") == Get(WithProcesses(c, WebListen(c)), "processes")
  {
    WithHostsShaped(c);
    assert Get(WithHosts(c), "processes") == Get(c, "processes");
  }

  /** Phase 5 removes `webserver` and changes no other key but `sites`. */
  lemma DropWebserverOther(c: Dict<Value>, k: string)
    requires Staged(c)
    requires k != "webserver" && k != "sites"
    ensures Get(DropWebserver(c), k) == Get(c, k)
    ensures Get(DropWebserver(c), "webserver").None?
  {
  }

  // ---------------------------------------------------------------------------
  // What the migration promises.

  /** After phase 1, phases 2 to 5 touch `hosts` only through phase 3 and never touch `host`. */
  lemma HostsThroughPhase3(c: Dict<Value>)
    requires Shaped(c)
    ensures Get(Migrated(c), "host") == Get(MoveHost(c), "host")
    ensures Get(Migrated(c), "hosts") == Get(WithHosts(MoveHost(c)), "hosts")
  {
    var c1 := MoveHost(c);
    Phase4Other(c1, "host");
    DropWebserverOther(Phase4(c1), "host");
    Phase4Hosts(c1);
    DropWebserverOther(Phase4(c1), "hosts");
  }

  /** An existing `hosts` list wins over `host`, which stays; each host table is migrated. */
  lemma HostsListMigrated(c: Dict<Value>)
    requires Shaped(c) && Get(c, "hosts").Some?
    ensures Get(Migrated(c), "host") == Get(c, "host")
    ensures Get(Migrated(c), "hosts") == Some(Arr(MigratedHosts(Get(c, "hosts").value.items)))
  {
    HostsThroughPhase3(c);
  }

  /** A lone `host` becomes `hosts = [host]`, migrated; without either there are no hosts. */
  lemma LoneHostMoved(c: Dict<Value>)
    requires Shaped(c) && Get(c, "hosts").None?
    ensures Get(c, "host").Some? ==>
      Get(Migrated(c), "host").None? && Get(Migrated(c), "hosts") == Some(Arr([Table(MigrateHost(Get(c, "host").value.t))]))
    ensures Get(c, "host").None? ==> Get(Migrated(c), "hosts").None?
  {
    HostsThroughPhase3(c);
    var c1 := MoveHost(c);
    WithHostsKeys(c1);
    if Get(c, "host").Some? {
      var host := Get(c, "host").value;
      MoveLoneHost(c);
      assert MigratedHosts([host]) == [Table(MigrateHost(host.t))] by {
        assert MigratedHosts([host])[0] == MigrateHostValue(host);
      }
    }
  }

  /** Phase 1 on a lone `host`: it moves into a one-element `hosts` list. */
  lemma MoveLoneHost(c: Dict<Value>)
    requires Shaped(c) && Get(c, "hosts").None? && Get(c, "host").Some?
    ensures Get(MoveHost(c), "host").None?
    ensures Get(MoveHost(c), "hosts") == Some(Arr([Get(c, "host").value]))
  {
    var removed := Remove(c, "host");
    assert Get(removed, "host").None?;
    assert "host" != "hosts";
  }

  /** Phase 3 changes `hosts` (when there is one) and nothing else. */
  lemma WithHostsKeys(c: Dict<Value>)
    requires HostsShaped(c)
    ensures Get(WithHosts(c), "hosts") ==
      if Get(c, "hosts").Some? then Some(Arr(MigratedHosts(Get(c, "hosts").value.items))) else None
    ensures Get(WithHosts(c), "host") == Get(c, "host")
  {
    assert "host" != "hosts";
  }

  /** `webserver` never survives the migration. */
  lemma WebserverRemoved(c: Dict<Value>)
    requires Shaped(c)
    ensures Get(Migrated(c), "webserver").None?
  {
    DropWebserverOther(Phase4(MoveHost(c)), "");
  }

  /** Processes are migrated with `webserver.upstream` as the listen address for `web`. */
  lemma ProcessesRule(c: Dict<Value>)
    requires Shaped(c)
    ensures Get(c, "processes").Some? ==>
      Get(Migrated(c), "processes") == Some(Table(MigratedProcesses(Get(c, "processes").value.t, WebListen(c))))
    ensures Get(c, "processes").None? ==> Get(Migrated(c), "processes").None?
  {
    var c1 := MoveHost(c);
    Phase4Processes(c1);
    DropWebserverOther(Phase4(c1), "processes");
    assert WebListen(c1) == WebListen(c);
  }

  /** The hosts the `sites` entry looks at: those of `hosts` after phase 1. */
  function HostsAfterMove(c: Dict<Value>): (r: seq<Value>)
    requires Shaped(c)
    ensures Get(MoveHost(c), "hosts").Some? <==> r != [] || Get(c, "hosts").Some?
    ensures Get(MoveHost(c), "hosts").Some? ==> Get(MoveHost(c), "hosts").value.items == r
  {
    if Get(c, "hosts").Some? then Get(c, "hosts").value.items
    else if Get(c, "host").Some? then [Get(c, "host").value]
    else []
  }

  /** Phase 5 on its own: when `sites` is added and what it holds. */
  lemma DropWebserverSites(c3: Dict<Value>)
    requires Staged(c3)
    ensures Get(c3, "webserver").None? || Get(c3, "sites").Some? || Get(c3, "hosts").None? || !Truthy(Get(c3, "hosts").value) ==>
      Get(DropWebserver(c3), "sites") == Get(c3, "sites")
    ensures Get(c3, "webserver").Some? && Get(c3, "sites").None? && Get(c3, "hosts").Some? && Truthy(Get(c3, "hosts").value) ==>
      var routes := Routes(StaticsOf(Get(c3, "webserver").value.t), "web" in Keys(ProcessesOf(c3)));
      Get(DropWebserver(c3), "sites") ==
        if routes == [] then None else Some(Arr([Site(FirstAddress(Get(c3, "hosts").value.items), routes)]))
  {
    var c1 := Remove(c3, "webserver");
    assert Get(c1, "sites") == Get(c3, "sites") && Get(c1, "hosts") == Get(c3, "hosts");
  }

  /** What phase 5 sees of the configuration after phases 1 to 4. */
  lemma Phase5Inputs(c: Dict<Value>)
    requires Shaped(c)
    ensures var c3 := Phase4(MoveHost(c));
      Get(c3, "webserver") == Get(c, "webserver")
      && Get(c3, "sites") == Get(c, "sites")
      && (Get(c3, "hosts").Some? <==> HostsAfterMove(c) != [] || Get(c, "hosts").Some?)
      && (Get(c3, "hosts").Some? ==> Get(c3, "hosts").value.items == MigratedHosts(HostsAfterMove(c)))
      && Keys(ProcessesOf(c3)) == Keys(ProcessesOf(c))
  {
    var c1 := MoveHost(c);
    Phase4Other(c1, "webserver");
    Phase4Other(c1, "sites");
    Phase4Hosts(c1);
    Phase4Processes(c1);
  }

  /**
   * `sites` is built only from a `webserver`, when no `sites` exists, there is
   * a host and there is a route; its domain is the first host's migrated
   * address and its routes are the statics plus `/` for a web process.
   */
  lemma SitesRule(c: Dict<Value>)
    requires Shaped(c)
    ensures Get(c, "webserver").None? || Get(c, "sites").Some? || HostsAfterMove(c) == [] ==>
      Get(Migrated(c), "sites") == Get(c, "sites")
    ensures Get(c, "webserver").Some? && Get(c, "sites").None? && HostsAfterMove(c) != [] ==>
      var routes := Routes(StaticsOf(Get(c, "webserver").value.t), "web" in Keys(ProcessesOf(c)));
      Get(Migrated(c), "sites") ==
        if routes == [] then None
        else Some(Arr([Site(GetOr(MigrateHost(HostsAfterMove(c)[0].t), "address", Str("example.com")), routes)]))
  {
    if Get(c, "webserver").Some? && Get(c, "sites").None? && HostsAfterMove(c) != [] {
      SitesBuilt(c);
    } else {
      Phase5Inputs(c);
      DropWebserverSites(Phase4(MoveHost(c)));
    }
  }

  lemma SitesBuilt(c: Dict<Value>)
    requires Shaped(c)
    requires Get(c, "webserver").Some? && Get(c, "sites").None? && HostsAfterMove(c) != []
    ensures var routes := Routes(StaticsOf(Get(c, "webserver").value.t), "web" in Keys(ProcessesOf(c)));
      Get(Migrated(c), "sites") ==
        if routes == [] then None
        else Some(Arr([Site(GetOr(MigrateHost(HostsAfterMove(c)[0].t), "address", Str("example.com")), routes)]))
  {
    var c3 := Phase4(MoveHost(c));
    var hosts := HostsAfterMove(c);
    Phase5Inputs(c);
    FirstHostTable(c);
    var items := Get(c3, "hosts").value.items;
    assert items[0] == Table(MigrateHost(hosts[0].t)) by {
      assert items == MigratedHosts(hosts);
    }
    assert Truthy(Get(c3, "hosts").value);
    DropWebserverSites(c3);
  }

  lemma FirstHostTable(c: Dict<Value>)
    requires Shaped(c) && HostsAfterMove(c) != []
    ensures IsTable(HostsAfterMove(c)[0])
  {
  }

  // ---------------------------------------------------------------------------
  // The migration as the source runs it.

  /** `migrate_config`: the copy is edited key by key, host by host and process by process. */
  method MigrateConfig(c: Dict<Value>) returns (config: Dict<Value>)
    requires Shaped(c)
    ensures config == Migrated(c)
  {
    config := MoveHostOf(c);
    ghost var c1 := config;
    var webListen := WebListenOf(config);
    config := MigrateHostsOf(config);
    WithHostsShaped(c1);
    var processes;
    config, processes := MigrateProcessesOf(config, webListen);
    assert config == Phase4(c1);
    config := MigrateWebserver(config, processes);
  }

  /** Phase 2 on the copy. */
  method WebListenOf(c: Dict<Value>) returns (webListen: Option<Value>)
    requires WebserverShaped(c)
    ensures webListen == WebListen(c)
  {
    webListen := None;
    if Get(c, "webserver").Some? {
      webListen := Get(Get(c, "webserver").value.t, "upstream");
    }
  }

  /** Phase 1 on the copy. */
  method MoveHostOf(c: Dict<Value>) returns (config: Dict<Value>)
    requires Shaped(c)
    ensures config == MoveHost(c)
  {
    config := c;
    if Get(config, "host").Some? && Get(config, "hosts").None? {
      var host := Get(config, "host").value;
      config := Remove(config, "host");
      config := Put(config, "hosts", Arr([host]));
    }
  }

  /** Phase 4 on the copy; also yields the migrated processes table. */
  method MigrateProcessesOf(c: Dict<Value>, listen: Option<Value>) returns (config: Dict<Value>, processes: Dict<Value>)
    requires Staged(c)
    ensures config == WithProcesses(c, listen)
    ensures Keys(processes) == Keys(ProcessesOf(c))
  {
    processes := MigrateProcesses(ProcessesOf(c), listen);
    config := c;
    if Get(c, "processes").Some? {
      config := Put(c, "processes", Table(processes));
    }
  }

  /** Phase 3 on the copy. */
  method MigrateHostsOf(c: Dict<Value>) returns (config: Dict<Value>)
    requires Staged(c)
    ensures config == WithHosts(c)
  {
    config := c;
    if Get(c, "hosts").Some? {
      var hosts := MigrateHosts(Get(c, "hosts").value.items);
      config := Put(c, "hosts", Arr(hosts));
    }
  }

  /** Phase 5 on the copy; `processes` is the (migrated) processes table. */
  method MigrateWebserver(c: Dict<Value>, processes: Dict<Value>) returns (config: Dict<Value>)
    requires Staged(c)
    requires Keys(processes) == Keys(ProcessesOf(c))
    ensures config == DropWebserver(c)
  {
    if Get(c, "webserver").None? {
      return c;
    }
    var webserver := Get(c, "webserver").value.t;
    config := Remove(c, "webserver");
    var hosts := Get(config, "hosts");
    if Get(config, "sites").Some? || hosts.None? || !Truthy(hosts.value) {
      return;
    }
    var domain := GetOr(hosts.value.items[0].t, "address", Str("example.com"));
    var routes := BuildRoutes(StaticsOf(webserver), "web" in Keys(processes));
    if routes != [] {
      config := Put(config, "sites", Arr([Site(domain, routes)]));
    }
  }

  // ---------------------------------------------------------------------------
  // A configuration already in the current format.

  predicate LegacyHost(t: Dict<Value>) {
    Get(t, "ip").Some? || Get(t, "domain_name").Some? || Get(t, "ssh_port").Some?
  }

  /** No `webserver`, no lone `host`, no host with old field names, no bare-string process. */
  predicate Current(c: Dict<Value>)
    requires Shaped(c)
  {
    Get(c, "webserver").None?
    && (Get(c, "host").Some? ==> Get(c, "hosts").Some?)
    && (Get(c, "hosts").Some? ==>
          forall i :: 0 <= i < |Get(c, "hosts").value.items| ==> !LegacyHost(Get(c, "hosts").value.items[i].t))
    && (Get(c, "processes").Some? ==>
          forall i :: 0 <= i < |Get(c, "processes").value.t| ==> !Get(c, "processes").value.t[i].1.Str?)
  }

  /** A host table with an old field name always comes out different. */
  lemma LegacyHostChanges(t: Dict<Value>)
    requires DistinctKeys(t) && LegacyHost(t)
    ensures MigrateHost(t) != t
  {
    MigrateHostAddress(t);
    MigrateHostPort(t);
  }

  lemma CurrentHostsKept(hosts: seq<Value>)
    requires forall i :: 0 <= i < |hosts| ==> IsTable(hosts[i]) && !LegacyHost(hosts[i].t)
    ensures MigratedHosts(hosts) == hosts
  {
    forall i | 0 <= i < |hosts| ensures MigratedHosts(hosts)[i] == hosts[i] {
      MigrateHostCurrent(hosts[i].t);
    }
  }

  lemma CurrentProcessesKept(p: Dict<Value>)
    requires forall i :: 0 <= i < |p| ==> !p[i].1.Str?
    ensures MigratedProcesses(p, None) == p
  {
    forall i | 0 <= i < |p| ensures MigratedProcesses(p, None)[i] == p[i] {
      assert MigrateProcess(p[i].0, p[i].1, None) == p[i].1;
    }
  }

  /** A configuration with no old-format keys comes back equal. */
  lemma CurrentUnchanged(c: Dict<Value>)
    requires Shaped(c) && Current(c)
    ensures Migrated(c) == c
  {
    assert MoveHost(c) == c;
    assert WebListen(c) == None;
    if Get(c, "hosts").Some? {
      CurrentHostsKept(Get(c, "hosts").value.items);
      PutSame(c, "hosts", Get(c, "hosts").value);
    }
    assert WithHosts(c) == c;
    if Get(c, "processes").Some? {
      CurrentProcessesKept(ProcessesOf(c));
      PutSame(c, "processes", Get(c, "processes").value);
    }
    assert WithProcesses(c, None) == c;
  }

  lemma LegacyHostChanged(c: Dict<Value>, i: nat)
    requires Shaped(c) && Get(c, "hosts").Some?
    requires i < |Get(c, "hosts").value.items| && LegacyHost(Get(c, "hosts").value.items[i].t)
    ensures Migrated(c) != c
  {
    var items := Get(c, "hosts").value.items;
    HostsListMigrated(c);
    LegacyHostChanges(items[i].t);
    assert MigratedHosts(items)[i] != items[i];
  }

  lemma StringProcessChanged(c: Dict<Value>, i: nat)
    requires Shaped(c) && Get(c, "processes").Some?
    requires i < |ProcessesOf(c)| && ProcessesOf(c)[i].1.Str?
    ensures Migrated(c) != c
  {
    ProcessesRule(c);
    assert MigratedProcesses(ProcessesOf(c), WebListen(c))[i].1.Table?;
  }

  /** Conversely, every old-format feature leaves a trace in the result. */
  lemma LegacyChanged(c: Dict<Value>)
    requires Shaped(c) && !Current(c)
    ensures Migrated(c) != c
  {
    if Get(c, "webserver").Some? {
      WebserverRemoved(c);
    } else if Get(c, "host").Some? && Get(c, "hosts").None? {
      LoneHostMoved(c);
    } else if Get(c, "hosts").Some? && exists i :: 0 <= i < |Get(c, "hosts").value.items| && LegacyHost(Get(c, "hosts").value.items[i].t) {
      var i :| 0 <= i < |Get(c, "hosts").value.items| && LegacyHost(Get(c, "hosts").value.items[i].t);
      LegacyHostChanged(c, i);
    } else {
      var i :| 0 <= i < |ProcessesOf(c)| && ProcessesOf(c)[i].1.Str?;
      StringProcessChanged(c, i);
    }
  }

  /** The result equals the input exactly when the input is already current. */
  lemma UnchangedIffCurrent(c: Dict<Value>)
    requires Shaped(c)
    ensures Migrated(c) == c <==> Current(c)
  {
    if Current(c) {
      CurrentUnchanged(c);
    } else {
      LegacyChanged(c);
    }
  }

  /** The caller's configuration keeps its top-level keys, in order. */
  lemma CallerKeysKept(c: Dict<Value>)
    requires Shaped(c)
    ensures Keys(CallerAfter(c)) == Keys(c)
  {
    var listen := WebListen(c);
    var a1 :=
      if Get(c, "host").Some? && Get(c, "hosts").None? then Put(c, "host", Table(MigrateHost(Get(c, "host").value.t)))
      else WithHosts(c);
    if Get(c, "host").Some? && Get(c, "hosts").None? {
      PutKeys(c, "host", Table(MigrateHost(Get(c, "host").value.t)));
    } else if Get(c, "hosts").Some? {
      PutKeys(c, "hosts", Arr(MigratedHosts(Get(c, "hosts").value.items)));
    }
    var a2 := if Get(c, "processes").Some? then Put(a1, "processes", Table(MigratedProcesses(ProcessesOf(c), listen))) else a1;
    if Get(c, "processes").Some? {
      assert Get(a1, "processes") == Get(c, "processes");
      PutKeys(a1, "processes", Table(MigratedProcesses(ProcessesOf(c), listen)));
    }
    if Get(c, "webserver").Some? {
      assert Get(a2, "webserver") == Get(c, "webserver");
      PutKeys(a2, "webserver", Table(Remove(Get(c, "webserver").value.t, "type")));
    }
  }

  // ---------------------------------------------------------------------------
  // The `migrate` command's "already in the latest format" decision.

  datatype Decision = AlreadyLatest | Write(config: Dict<Value>)

  /**
   * As written: the result is compared with the caller's dictionary after the
   * call, which shares its host tables and its processes table with the copy.
   */
  function DecideAsWritten(c: Dict<Value>): Decision
    requires Shaped(c)
  {
    if Migrated(c) == CallerAfter(c) then AlreadyLatest else Write(Migrated(c))
  }

  /** Without `webserver` and without a lone `host`, the shared edits hide every change. */
  lemma AsWrittenMissesSharedEdits(c: Dict<Value>)
    requires Shaped(c) && Get(c, "webserver").None? && (Get(c, "host").Some? ==> Get(c, "hosts").Some?)
    ensures DecideAsWritten(c) == AlreadyLatest
  {
    var h := WithHosts(c);
    assert Migrated(c) == WithProcesses(h, None) by {
      assert MoveHost(c) == c;
      assert WebListen(c) == None;
      Phase4Other(c, "webserver");
    }
    assert CallerAfter(c) == WithProcesses(h, None) by {
      WithHostsShaped(c);
      assert Get(h, "processes") == Get(c, "processes");
    }
  }

  /** A configuration still using `ip` is reported as already current and left unwritten. */
  lemma AsWrittenKeepsLegacyIp()
    ensures var c := [("hosts", Arr([Table([("ip", Str("192.168.1.1"))])]))];
      Shaped(c) && !Current(c) && Migrated(c) != c && DecideAsWritten(c) == AlreadyLatest
  {
    var c := [("hosts", Arr([Table([("ip", Str("192.168.1.1"))])]))];
    assert Keys(c) == ["hosts"];
    assert LegacyHost(Get(c, "hosts").value.items[0].t);
    LegacyChanged(c);
    AsWrittenMissesSharedEdits(c);
  }

  /** Corrected: the result is compared with the configuration as it was read. */
  function Decide(c: Dict<Value>): (r: Decision)
    requires Shaped(c)
    ensures r == AlreadyLatest <==> Current(c)
    ensures r.Write? ==> r.config == Migrated(c)
  {
    UnchangedIffCurrent(c);
    if Migrated(c) == c then AlreadyLatest else Write(Migrated(c))
  }
}
