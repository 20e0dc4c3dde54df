// The `show` command: what it prints for `env`, for a unit name, and as its
// list of options. Files are given by their names and a reader function;
// rendering goes through `safe_format` (module Formatting).

module Show {
  import opened Wrappers
  import opened Strs
  import opened Cli
  import opened Discovery
  import Formatting

  // ---------------------------------------------------------------------------
  // Redacting an env file.

  /** The text that replaces a secret value, quotes included. */
  const Redacted := "\"***REDACTED***\""

  /** `re.match(r"^([^=]+)=(.*)$", line)`: a non-empty key before the first `=`. */
  predicate HasKey(line: string) {
    '=' in line && IndexOf(line, '=') > 0
  }

  /** The first group of the match: everything before the first `=`. */
  function Key(line: string): (r: string)
    requires HasKey(line)
    ensures r != [] && '=' !in r && |r| < |line| && r == line[..|r|]
  {
    line[..IndexOf(line, '=')]
  }

  /** The second group of the match: everything after the first `=`. */
  function Value(line: string): (r: string)
    requires HasKey(line)
    ensures Key(line) + "=" + r == line
  {
    var i := IndexOf(line, '=');
    assert line == line[..i] + "=" + line[i + 1..];
    line[i + 1..]
  }

  /** The value of `KEY=VALUE` looks like a secret: quoted or longer than 10 characters. */
  predicate Secret(value: string) {
    value != "" && (StartsWith(value, "\"") || |value| > 10)
  }

  /** One stripped line of `_redact_secrets`. */
  function RedactStripped(line: string): string {
    if line == "" || StartsWith(line, "#") then line
    else if HasKey(line) && Secret(Value(line)) then Key(line) + "=" + Redacted
    else line
  }

  /** One line of `_redact_secrets`. */
  function RedactLine(raw: string): string {
    RedactStripped(Strip(raw))
  }

  /** Every line redacted, in order. */
  function RedactAll(lines: seq<string>): (r: seq<string>)
    ensures |r| == |lines|
    ensures forall i :: 0 <= i < |lines| ==> r[i] == RedactLine(lines[i])
  {
    seq(|lines|, i requires 0 <= i < |lines| => RedactLine(lines[i]))
  }

  /** `_redact_secrets(env_content)` */
  function Redact(env: string): string {
    Join(RedactAll(SplitLines(env)), "\n")
  }

  /** The loop of `_redact_secrets`, appending one output line per input line. */
  method RedactSecrets(env: string) returns (out: string)
    ensures out == Redact(env)
  {
    var input := SplitLines(env);
    var lines: seq<string> := [];
    for i := 0 to |input|
      invariant |lines| == i
      invariant forall j :: 0 <= j < i ==> lines[j] == RedactLine(input[j])
    {
      var line := RedactOne(input[i]);
      lines := lines + [line];
    }
    assert lines == RedactAll(input);
    out := Join(lines, "\n");
  }

  /** The loop body on one line. */
  method RedactOne(raw: string) returns (line: string)
    ensures line == RedactLine(raw)
  {
    line := Strip(raw);
    if line == "" || StartsWith(line, "#") {
      return;
    }
    if '=' in line && IndexOf(line, '=') > 0 {
      var i := IndexOf(line, '=');
      var key, value := line[..i], line[i + 1..];
      RedactAtFirstEquals(line, i);
      if value != "" && (StartsWith(value, "\"") || |value| > 10) {
        line := key + "=" + Redacted;
      }
    }
  }

  /** A line with a key is redacted by what follows its first `=`. */
  lemma RedactAtFirstEquals(line: string, i: int)
    requires line != "" && !StartsWith(line, "#")
    requires '=' in line && i == IndexOf(line, '=') > 0
    ensures RedactStripped(line) == if Secret(line[i + 1..]) then line[..i] + "=" + Redacted else line
  {
  }

  /** Blank and comment lines are kept, stripped. */
  lemma KeepsBlankAndComments(raw: string)
    requires Strip(raw) == "" || StartsWith(Strip(raw), "#")
    ensures RedactLine(raw) == Strip(raw)
  {
  }

  /** Splitting `key=value` at its first `=` gives back `key` and `value`. */
  lemma KeyValueParts(line: string, key: string, value: string)
    requires line == key + "=" + value && key != "" && '=' !in key
    ensures HasKey(line) && Key(line) == key && Value(line) == value
  {
    assert line == key + ['='] + value;
    IndexOfAt(key, value, '=');
  }

  /** A secret-looking value is replaced; the key is the text before the first `=`. */
  lemma RedactsSecret(raw: string, key: string, value: string)
    requires Strip(raw) == key + "=" + value
    requires key != "" && '=' !in key && !StartsWith(key, "#")
    requires Secret(value)
    ensures RedactLine(raw) == key + "=" + Redacted
  {
    KeyValueParts(Strip(raw), key, value);
    assert Strip(raw)[0] == key[0];
  }

  /** A short unquoted value or an empty one is kept as written. */
  lemma KeepsPlainValue(raw: string, key: string, value: string)
    requires Strip(raw) == key + "=" + value
    requires key != "" && '=' !in key
    requires !Secret(value)
    ensures RedactLine(raw) == Strip(raw)
  {
    KeyValueParts(Strip(raw), key, value);
  }

  /** A line with no `=`, or one that starts with `=`, is kept. */
  lemma KeepsLineWithoutKey(raw: string)
    requires '=' !in Strip(raw) || StartsWith(Strip(raw), "=")
    ensures RedactLine(raw) == Strip(raw)
  {
    var line := Strip(raw);
    if '=' in line && StartsWith(line, "=") {
      assert line[0] == '=';
      assert IndexOf(line, '=') == 0;
    }
  }

  /** The output line neither starts nor ends with whitespace. */
  lemma RedactStrippedEdges(line: string)
    requires line == [] || (!IsSpace(line[0]) && !IsSpace(line[|line| - 1]))
    ensures var r := RedactStripped(line); r == [] || (!IsSpace(r[0]) && !IsSpace(r[|r| - 1]))
  {
    if line != "" && !StartsWith(line, "#") && HasKey(line) && Secret(Value(line)) {
      var key := Key(line);
      assert (key + "=" + Redacted)[0] == key[0] == line[0];
    }
  }

  /** A line the first pass kept is kept by the second. */
  lemma KeptLineFixed(line: string)
    requires line == [] || (!IsSpace(line[0]) && !IsSpace(line[|line| - 1]))
    requires RedactStripped(line) == line
    ensures RedactLine(line) == line
  {
    StripNoEdges(line);
  }

  /** A redacted line is redacted to itself. */
  lemma RedactedLineFixed(key: string)
    requires key != [] && '=' !in key && key[0] != '#' && !IsSpace(key[0])
    ensures RedactLine(key + "=" + Redacted) == key + "=" + Redacted
  {
    var r := key + "=" + Redacted;
    assert r[0] == key[0] && r[|r| - 1] == '"';
    StripNoEdges(r);
    KeyValueParts(r, key, Redacted);
    assert !StartsWith(r, "#");
  }

  /** A redacted line comes out of a second pass unchanged. */
  lemma RedactLineIdempotent(raw: string)
    ensures RedactLine(RedactLine(raw)) == RedactLine(raw)
  {
    var line := Strip(raw);
    if RedactStripped(line) == line {
      KeptLineFixed(line);
    } else {
      var key := Key(line);
      assert line[0] == key[0];
      RedactedLineFixed(key);
    }
  }

  /** Redaction works line by line and is idempotent on the lines. */
  lemma RedactAllIdempotent(lines: seq<string>)
    ensures RedactAll(RedactAll(lines)) == RedactAll(lines)
  {
    forall i | 0 <= i < |lines| ensures RedactAll(RedactAll(lines))[i] == RedactAll(lines)[i] {
      RedactLineIdempotent(lines[i]);
    }
  }

  /** On the whole text, a second pass changes nothing unless the last output line is blank. */
  lemma RedactIdempotent(env: string)
    requires var lines := RedactAll(SplitLines(env)); lines != [] ==> lines[|lines| - 1] != ""
    ensures Redact(Redact(env)) == Redact(env)
  {
    var lines := RedactAll(SplitLines(env));
    forall i | 0 <= i < |lines| ensures '\n' !in lines[i] {
      NoBreakKept(SplitLines(env)[i]);
    }
    SplitLinesOfJoin(lines);
    RedactAllIdempotent(SplitLines(env));
  }

  /** A kept line followed by a blank line comes back followed by one line break. */
  lemma TwoBreaksKept(line: string)
    requires '\n' !in line && RedactLine(line) == line
    ensures Redact(line + "\n\n") == line + "\n"
  {
    SplitLinesTwo(line);
    RedactAllPair(line, "");
    BlankLineKept();
    JoinPair(line);
  }

  lemma SplitLinesTwo(line: string)
    requires '\n' !in line
    ensures SplitLines(line + "\n\n") == [line, ""]
  {
    var s := line + "\n\n";
    assert s[..|s| - 1] == line + ['\n'] + "";
    SplitAt(line, "", '\n');
  }

  lemma RedactAllPair(a: string, b: string)
    ensures RedactAll([a, b]) == [RedactLine(a), RedactLine(b)]
  {
    var lines := [a, b];
    var r := RedactAll(lines);
    assert lines[0] == a && lines[1] == b;
    PairOf(r, RedactLine(a), RedactLine(b));
  }

  lemma PairOf(r: seq<string>, x: string, y: string)
    requires |r| == 2 && r[0] == x && r[1] == y
    ensures r == [x, y]
  {
  }

  lemma BlankLineKept()
    ensures RedactLine("") == ""
  {
    StripNoEdges("");
  }

  lemma JoinPair(line: string)
    ensures Join([line, ""], "\n") == line + "\n"
  {
    JoinCons(line, [""], "\n");
    assert [line] + [""] == [line, ""];
  }

  /** A kept line followed by one line break comes back without the break. */
  lemma OneLineKept(line: string)
    requires '\n' !in line && RedactLine(line) == line
    ensures Redact(line + "\n") == line
  {
    SplitLinesOne(line);
    RedactAllOne(line);
  }

  lemma RedactAllOne(line: string)
    ensures RedactAll([line]) == [RedactLine(line)]
  {
    assert RedactAll([line])[0] == RedactLine(line);
  }

  lemma SplitLinesOne(line: string)
    requires '\n' !in line
    ensures SplitLines(line + "\n") == [line]
  {
    assert (line + "\n")[..|line|] == line;
    SplitNoSep(line, '\n');
  }

  /** So a final blank line makes redaction not idempotent: the second pass drops the line break the first kept. */
  lemma TrailingBlankLineNotIdempotent(line: string)
    requires '\n' !in line && RedactLine(line) == line
    ensures Redact(line + "\n\n") == line + "\n"
    ensures Redact(Redact(line + "\n\n")) != Redact(line + "\n\n")
  {
    TwoBreaksKept(line);
    OneLineKept(line);
    assert |line| != |line + "\n"|;
  }

  /** A line without a break gives an output line without one. */
  lemma NoBreakKept(raw: string)
    requires '\n' !in raw
    ensures '\n' !in RedactLine(raw)
  {
    StripInside(raw);
    NoBreakStripped(Strip(raw));
  }

  lemma NoBreakStripped(line: string)
    requires '\n' !in line
    ensures '\n' !in RedactStripped(line)
  {
    if line != "" && !StartsWith(line, "#") && HasKey(line) && Secret(Value(line)) {
      var key := Key(line);
      assert '\n' !in key by {
        assert forall j :: 0 <= j < |key| ==> key[j] == line[j];
      }
      assert '\n' !in "=" + Redacted;
      assert RedactStripped(line) == key + ("=" + Redacted);
    }
  }

  /** Stripping only removes characters. */
  lemma StripInside(raw: string)
    ensures forall c :: c in Strip(raw) ==> c in raw
  {
    var l := StripLeft(raw);
    SliceInside(raw, |raw| - |l|, |raw|);
    SliceInside(l, 0, |StripRight(l)|);
  }

  lemma SliceInside(s: string, i: nat, j: nat)
    requires i <= j <= |s|
    ensures forall c :: c in s[i..j] ==> c in s
  {
    forall c | c in s[i..j] ensures c in s {
      var k :| 0 <= k < j - i && s[i..j][k] == c;
      assert s[i + k] == c;
    }
  }

  // ---------------------------------------------------------------------------
  // Choosing what to show.

  datatype Target = Options | Env | Caddy | AllUnits | Units(name: string)

  /** `__call__`: no name (or an empty one) lists the options; three names are reserved. */
  function Dispatch(name: Option<string>): (r: Target)
    ensures r.Options? <==> name.None? || name.value == ""
    ensures r.Units? ==> name == Some(r.name) && r.name !in {"", "env", "caddy", "units"}
  {
    if name.None? || name.value == "" then Options
    else if name.value == "env" then Env
    else if name.value == "caddy" then Caddy
    else if name.value == "units" then AllUnits
    else Units(name.value)
  }

  function ServiceNames(services: seq<ServiceUnit>): (r: seq<string>)
    ensures |r| == |services|
    ensures forall i :: 0 <= i < |services| ==> r[i] == services[i].name
  {
    seq(|services|, i requires 0 <= i < |services| => services[i].name)
  }

  /** `[svc for svc in services if svc.name == name]` */
  function WithName(services: seq<ServiceUnit>, name: string): (r: seq<ServiceUnit>)
    ensures forall s :: s in r <==> s in services && s.name == name
  {
    if services == [] then []
    else (if services[0].name == name then [services[0]] else []) + WithName(services[1..], name)
  }

  /** `[svc for svc in services if svc.service_file.name == name]` */
  function WithServiceFile(services: seq<ServiceUnit>, name: string): (r: seq<ServiceUnit>)
    ensures forall s :: s in r <==> s in services && s.serviceFile == name
  {
    if services == [] then []
    else (if services[0].serviceFile == name then [services[0]] else []) + WithServiceFile(services[1..], name)
  }

  datatype Shown = NoUnits | Matched(services: seq<ServiceUnit>)

  /** `_show_specific_units` up to rendering: by name, else by service file name, else Exit 1. */
  function MatchTarget(services: seq<ServiceUnit>, name: string): (r: Result<Shown, Exit>)
    ensures r.Ok? <==> services == [] || exists x :: x in services && (x.name == name || x.serviceFile == name)
    ensures r.Ok? && r.value.Matched? ==> r.value.services != []
    ensures r.Ok? && r.value.Matched? ==>
      forall x :: x in r.value.services ==> x in services && (x.name == name || x.serviceFile == name)
    ensures r.Err? ==> r.error.code == 1
  {
    if services == [] then Ok(NoUnits)
    else if WithName(services, name) != [] then
      assert WithName(services, name)[0] in WithName(services, name);
      Ok(Matched(WithName(services, name)))
    else if WithServiceFile(services, name) != [] then
      assert WithServiceFile(services, name)[0] in WithServiceFile(services, name);
      Ok(Matched(WithServiceFile(services, name)))
    else Err(Exit("Unknown target '" + name + "'. Available options: " + Join(ServiceNames(services), ", "), 1))
  }

  /** A name match wins: every service of that name, and only those, is shown. */
  lemma MatchByName(services: seq<ServiceUnit>, name: string, svc: ServiceUnit)
    requires svc in services && svc.name == name
    ensures MatchTarget(services, name).Ok?
    ensures var r := MatchTarget(services, name).value;
      r.Matched? && forall s :: s in r.services <==> s in services && s.name == name
  {
    assert svc in WithName(services, name);
  }

  /** Without a name match, a service file name (`web.service`) selects its service. */
  lemma MatchByFile(services: seq<ServiceUnit>, name: string, svc: ServiceUnit)
    requires svc in services && svc.serviceFile == name
    requires forall s :: s in services ==> s.name != name
    ensures MatchTarget(services, name).Ok?
    ensures var r := MatchTarget(services, name).value;
      r.Matched? && forall s :: s in r.services <==> s in services && s.serviceFile == name
  {
    if WithName(services, name) != [] {
      assert WithName(services, name)[0] in WithName(services, name);
    }
    assert svc in WithServiceFile(services, name);
  }

  /** An unknown target exits with code 1, naming every discovered service. */
  lemma UnknownTarget(services: seq<ServiceUnit>, name: string)
    requires services != []
    requires forall s :: s in services ==> s.name != name && s.serviceFile != name
    ensures MatchTarget(services, name) ==
      Err(Exit("Unknown target '" + name + "'. Available options: " + Join(ServiceNames(services), ", "), 1))
  {
    if WithName(services, name) != [] {
      assert WithName(services, name)[0] in WithName(services, name);
    }
    if WithServiceFile(services, name) != [] {
      assert WithServiceFile(services, name)[0] in WithServiceFile(services, name);
    }
  }

  // ---------------------------------------------------------------------------
  // Rendering the matched services.

  datatype Section = Section(header: string, content: string)

  /** The sections shown for one service: its file, socket, timer, then its drop-ins. */
  function ServiceSections(svc: ServiceUnit, dropinDirs: map<string, seq<string>>,
                           read: string -> string, ctx: map<string, string>): (r: seq<Section>)
    ensures |r| >= 1 + (if svc.socketFile.Some? then 1 else 0) + (if svc.timerFile.Some? then 1 else 0)
    ensures r[0].header == svc.serviceFile
    ensures svc.socketFile.Some? ==> r[1].header == svc.socketFile.value
  {
    var dir := DropinDirName(svc.name, svc.isTemplate);
    var confs := if dir in dropinDirs then ConfFiles(dropinDirs[dir]) else [];
    UnitSections(svc, read, ctx) + DropinSections(dir, confs, read, ctx)
  }

  /** The service file, then the socket and timer files when the service has them. */
  function UnitSections(svc: ServiceUnit, read: string -> string, ctx: map<string, string>): (r: seq<Section>)
    ensures |r| == 1 + (if svc.socketFile.Some? then 1 else 0) + (if svc.timerFile.Some? then 1 else 0)
    ensures r[0].header == svc.serviceFile
  {
    [Section(svc.serviceFile, Formatting.SafeFormat(read(svc.serviceFile), ctx))]
    + (if svc.socketFile.Some? then [Section(svc.socketFile.value, Formatting.SafeFormat(read(svc.socketFile.value), ctx))] else [])
    + (if svc.timerFile.Some? then [Section(svc.timerFile.value, Formatting.SafeFormat(read(svc.timerFile.value), ctx))] else [])
  }

  function DropinSections(dir: string, confs: seq<string>, read: string -> string, ctx: map<string, string>): (r: seq<Section>)
    ensures |r| == |confs|
    ensures forall i :: 0 <= i < |confs| ==> r[i].header == dir + "/" + confs[i]
  {
    seq(|confs|, i requires 0 <= i < |confs| => Section(dir + "/" + confs[i], Formatting.SafeFormat(read(dir + "/" + confs[i]), ctx)))
  }

  /** A template service's drop-ins come from `{name}@.service.d`, a plain one's from `{name}.service.d`. */
  lemma DropinHeaders(svc: ServiceUnit, dropinDirs: map<string, seq<string>>, read: string -> string, ctx: map<string, string>)
    ensures var secs := ServiceSections(svc, dropinDirs, read, ctx);
      var dir := if svc.isTemplate then svc.name + "@.service.d" else svc.name + ".service.d";
      var n := 1 + (if svc.socketFile.Some? then 1 else 0) + (if svc.timerFile.Some? then 1 else 0);
      secs[0].header == svc.serviceFile
      && |secs| == n + (if dir in dropinDirs then |ConfFiles(dropinDirs[dir])| else 0)
      && forall i :: n <= i < |secs| ==> StartsWith(secs[i].header, dir + "/")
  {
    var dir := DropinDirName(svc.name, svc.isTemplate);
    var confs := if dir in dropinDirs then ConfFiles(dropinDirs[dir]) else [];
    HeadersAfter(UnitSections(svc, read, ctx), DropinSections(dir, confs, read, ctx), dir, confs);
  }

  lemma HeadersAfter(head: seq<Section>, dropins: seq<Section>, dir: string, confs: seq<string>)
    requires |head| >= 1 && |dropins| == |confs|
    requires forall i :: 0 <= i < |confs| ==> dropins[i].header == dir + "/" + confs[i]
    ensures (head + dropins)[0] == head[0]
    ensures forall i :: |head| <= i < |head + dropins| ==> StartsWith((head + dropins)[i].header, dir + "/")
  {
    forall i | |head| <= i < |head + dropins| ensures StartsWith((head + dropins)[i].header, dir + "/") {
      var k := i - |head|;
      assert (head + dropins)[i] == dropins[k];
      assert (dir + "/" + confs[k])[..|dir + "/"|] == dir + "/";
    }
  }

  // ---------------------------------------------------------------------------
  // The options list.

  /** `_get_available_options` */
  function AvailableOptions(services: seq<ServiceUnit>): string {
    Join(["env", "caddy", "units"] + ServiceNames(services), ", ")
  }

  /** The fixed options, in order. */
  lemma FixedOptions()
    ensures Join(["env", "caddy", "units"], ", ") == "env, caddy, units"
  {
    JoinCons("caddy", ["units"], ", ");
    JoinCons("env", ["caddy", "units"], ", ");
    assert ["env", "caddy", "units"] == ["env"] + ["caddy", "units"];
  }

  /** The three fixed options come first, then each discovered name, comma-separated. */
  lemma AvailableOptionsShape(services: seq<ServiceUnit>)
    ensures services == [] ==> AvailableOptions(services) == "env, caddy, units"
    ensures services != [] ==> AvailableOptions(services) == "env, caddy, units" + ", " + Join(ServiceNames(services), ", ")
  {
    FixedOptions();
    if services != [] {
      JoinAppend(["env", "caddy", "units"], ServiceNames(services), ", ");
    } else {
      assert ["env", "caddy", "units"] + ServiceNames(services) == ["env", "caddy", "units"];
    }
  }

  // ---------------------------------------------------------------------------
  // `env`.

  datatype EnvView = Warning(message: string) | EnvText(text: string, redactedNote: bool)

  /**
   * `_show_env`: nothing to show gives a warning; otherwise the content, with
   * secrets resolved by the caller (`resolved`) and redacted unless `plain`.
   */
  function ShowEnv(content: string, envFileSet: bool, resolved: string, plain: bool): (r: EnvView)
    ensures content == "" <==> r.Warning?
    ensures r.EnvText? ==> (r.redactedNote <==> !plain) && r.text == (if plain then resolved else Redact(resolved))
  {
    if content == "" then
      if envFileSet then Warning("Environment file is empty") else Warning("No environment file configured")
    else if plain then EnvText(resolved, false)
    else EnvText(Redact(resolved), true)
  }
}
