// The local audit log: `log_operation` appends one JSON line per operation to
// `~/.fujin/audit.log`, `read_logs` reads the lines back most recent first, and
// the `audit` command shows the records as a table. The log file is its text
// (`None` while it does not exist); JSON encoding and decoding, the clock, the
// login name and timestamp formatting are parameters.

module Audit {
  import opened Wrappers
  import opened Strs
  import opened Dicts
  import Migrate

  type Value = Migrate.Value

  /** `--limit`'s default. */
  const DefaultLimit := 20
  const Unknown := "unknown"
  const Arrow := " \U{2192} "
  const FullMark := " (full)"

  // ---------------------------------------------------------------------------
  // Writing: `log_operation`.

  /** The record `log_operation` builds; `details` only when it is non-empty. */
  function LogRecord(timestamp: string, operation: string, user: string, host: string, details: Dict<Value>): (r: Value)
    ensures r.Table?
    ensures Keys(r.t) == ["timestamp", "operation", "user", "host"] + (if details == [] then [] else ["details"])
    ensures DistinctKeys(r.t)
  {
    RecordKeysDistinct();
    Migrate.Table([("timestamp", Migrate.Str(timestamp)), ("operation", Migrate.Str(operation)),
                   ("user", Migrate.Str(user)), ("host", Migrate.Str(host))]
                  + (if details == [] then [] else [("details", Migrate.Table(details))]))
  }

  lemma RecordKeysDistinct()
    ensures Distinct(["timestamp", "operation", "user", "host"])
    ensures Distinct(["timestamp", "operation", "user", "host", "details"])
  {
    var ks: seq<string> := ["timestamp", "operation", "user", "host", "details"];
    forall i, j | 0 <= i < j < |ks| ensures ks[i] != ks[j] {
      assert ks[i][0] != ks[j][0] || |ks[i]| != |ks[j]|;
    }
  }

  /**
   * The log file after `log_operation(operation, host, details)` at time `now`
   * by `user`: the old text (none when the file was missing), then the record
   * encoded by `dumps` and a line break.
   */
  function LogOperation(log: Option<string>, operation: string, host: string, details: Dict<Value>,
                        now: string, user: string, dumps: Value -> string): (r: string)
    ensures log.Some? ==> log.value <= r
    ensures |r| > 0 && r[|r| - 1] == '\n'
  {
    (if log.Some? then log.value else "") + (dumps(LogRecord(now, operation, user, host, details)) + "\n")
  }

  /** The record's fields, as the audit command looks them up. */
  lemma LogRecordFields(timestamp: string, operation: string, user: string, host: string, details: Dict<Value>)
    ensures var t := LogRecord(timestamp, operation, user, host, details).t;
      Get(t, "timestamp") == Some(Migrate.Str(timestamp))
      && Get(t, "operation") == Some(Migrate.Str(operation))
      && Get(t, "user") == Some(Migrate.Str(user))
      && Get(t, "host") == Some(Migrate.Str(host))
  {
    var t := LogRecord(timestamp, operation, user, host, details).t;
    GetAt(t, 0);
    GetAt(t, 1);
    GetAt(t, 2);
    GetAt(t, 3);
  }

  /** `details` is there exactly when it is non-empty. */
  lemma LogRecordDetails(timestamp: string, operation: string, user: string, host: string, details: Dict<Value>)
    ensures Get(LogRecord(timestamp, operation, user, host, details).t, "details")
         == if details == [] then None else Some(Migrate.Table(details))
  {
    var t := LogRecord(timestamp, operation, user, host, details).t;
    if details != [] {
      GetAt(t, 4);
    } else {
      assert "details" !in Keys(t);
    }
  }

  // ---------------------------------------------------------------------------
  // Reading: `read_logs`.

  /** What one line of the file contributes: nothing when blank or not decodable. */
  function Entry(line: string, parse: string -> Option<Value>): (r: seq<Value>)
    ensures |r| <= 1
  {
    var l := Strip(line);
    if l == "" || parse(l).None? then [] else [parse(l).value]
  }

  /** The decoded records of `lines`, in file order. */
  function Parsed(lines: seq<string>, parse: string -> Option<Value>): (r: seq<Value>)
    ensures |r| <= |lines|
  {
    if lines == [] then []
    else Parsed(lines[..|lines| - 1], parse) + Entry(lines[|lines| - 1], parse)
  }

  /** `list.reverse()` */
  function Reversed<T>(s: seq<T>): (r: seq<T>)
    ensures |r| == |s|
    ensures forall i :: 0 <= i < |s| ==> r[i] == s[|s| - 1 - i]
  {
    if s == [] then [] else [s[|s| - 1]] + Reversed(s[..|s| - 1])
  }

  /** Python's `s[:n]`: a negative `n` leaves out the last `-n` elements. */
  function Prefix<T>(s: seq<T>, n: int): (r: seq<T>)
    ensures r <= s
    ensures n >= 0 ==> |r| == if n < |s| then n else |s|
    ensures n < 0 ==> |r| == if |s| + n > 0 then |s| + n else 0
  {
    if n >= 0 then (if n < |s| then s[..n] else s)
    else if |s| + n > 0 then s[..|s| + n]
    else []
  }

  /** The records most recent first; a truthy limit slices. */
  function Newest(records: seq<Value>, limit: Option<int>): (r: seq<Value>)
    ensures limit.Some? && limit.value > 0 ==> |r| <= limit.value
  {
    var all := Reversed(records);
    if limit.Some? && limit.value != 0 then Prefix(all, limit.value) else all
  }

  /** `read_logs(limit)` over the log file's text. */
  function Logs(log: Option<string>, limit: Option<int>, parse: string -> Option<Value>): (r: seq<Value>)
    ensures log.None? ==> r == []
    ensures limit.Some? && limit.value > 0 ==> |r| <= limit.value
  {
    if log.None? then [] else Newest(Parsed(Split(log.value, '\n'), parse), limit)
  }

  /** The loop of `read_logs`: strip each line, skip blank ones, keep what decodes. */
  method DecodeLines(lines: seq<string>, parse: string -> Option<Value>) returns (records: seq<Value>)
    ensures records == Parsed(lines, parse)
  {
    records := [];
    var i := 0;
    while i < |lines|
      invariant 0 <= i <= |lines|
      invariant records == Parsed(lines[..i], parse)
    {
      var line := Strip(lines[i]);
      ParsedStep(lines, i, parse);
      if line != "" {
        var decoded := parse(line);
        if decoded.Some? {
          records := records + [decoded.value];
        }
      }
      i := i + 1;
    }
    assert lines[..i] == lines;
  }

  /** One more line adds its entry after the records before it. */
  lemma ParsedStep(lines: seq<string>, i: nat, parse: string -> Option<Value>)
    requires i < |lines|
    ensures Parsed(lines[..i + 1], parse) == Parsed(lines[..i], parse) + Entry(lines[i], parse)
  {
    assert lines[..i + 1][..i] == lines[..i];
  }

  /** `read_logs`: nothing without a file; otherwise decode, reverse in place and slice. */
  method ReadLogs(log: Option<string>, limit: Option<int>, parse: string -> Option<Value>) returns (records: seq<Value>)
    ensures records == Logs(log, limit, parse)
  {
    if log.None? {
      return [];
    }
    records := DecodeLines(Split(log.value, '\n'), parse);
    records := Reversed(records);
    if limit.Some? && limit.value != 0 {
      records := Prefix(records, limit.value);
    }
  }

  /** Decoding distributes over the lines: each part of the file contributes its own records. */
  lemma {:induction false} ParsedAppend(a: seq<string>, b: seq<string>, parse: string -> Option<Value>)
    ensures Parsed(a + b, parse) == Parsed(a, parse) + Parsed(b, parse)
    decreases |b|
  {
    if b != [] {
      var b', last := b[..|b| - 1], b[|b| - 1];
      ParsedAppend(a, b', parse);
      LastSplit(b);
      ParsedAppendStep(a, b', last, parse);
    } else {
      assert a + b == a;
    }
  }

  lemma ParsedAppendStep(a: seq<string>, b: seq<string>, last: string, parse: string -> Option<Value>)
    requires Parsed(a + b, parse) == Parsed(a, parse) + Parsed(b, parse)
    ensures Parsed(a + (b + [last]), parse) == Parsed(a, parse) + Parsed(b + [last], parse)
  {
    AppendAssoc(a, b, [last]);
    ParsedSnoc(a + b, last, parse);
    ParsedSnoc(b, last, parse);
    AppendAssoc(Parsed(a, parse), Parsed(b, parse), Entry(last, parse));
  }

  lemma ParsedSnoc(lines: seq<string>, line: string, parse: string -> Option<Value>)
    ensures Parsed(lines + [line], parse) == Parsed(lines, parse) + Entry(line, parse)
  {
    assert (lines + [line])[..|lines|] == lines;
  }

  /** A blank or undecodable line is skipped; the records around it are kept. */
  lemma LineSkipped(a: seq<string>, line: string, b: seq<string>, parse: string -> Option<Value>)
    requires Strip(line) == "" || parse(Strip(line)).None?
    ensures Parsed(a + [line] + b, parse) == Parsed(a, parse) + Parsed(b, parse)
  {
    var front := a + [line];
    assert Parsed(front, parse) == Parsed(a, parse) by {
      assert front[..|a|] == a;
      assert Entry(line, parse) == [];
    }
    ParsedAppend(front, b, parse);
  }

  /** A line that decodes gives its record, between the records of the lines around it. */
  lemma LineKept(a: seq<string>, line: string, b: seq<string>, parse: string -> Option<Value>, v: Value)
    requires Strip(line) != "" && parse(Strip(line)) == Some(v)
    ensures Parsed(a + [line] + b, parse) == Parsed(a, parse) + [v] + Parsed(b, parse)
  {
    var front := a + [line];
    assert Parsed(front, parse) == Parsed(a, parse) + [v] by {
      assert front[..|a|] == a;
      assert Entry(line, parse) == [v];
    }
    ParsedAppend(front, b, parse);
  }

  /** Every record read back was decoded from some non-blank stripped line. */
  lemma ParsedFromLines(lines: seq<string>, parse: string -> Option<Value>, v: Value)
    requires v in Parsed(lines, parse)
    ensures exists i :: 0 <= i < |lines| && Strip(lines[i]) != "" && parse(Strip(lines[i])) == Some(v)
  {
    var i := DecodedLine(lines, parse, v);
  }

  /** The index of a line that decodes to `v`, found from the end of the file. */
  lemma {:induction false} DecodedLine(lines: seq<string>, parse: string -> Option<Value>, v: Value) returns (i: nat)
    requires v in Parsed(lines, parse)
    ensures i < |lines| && Strip(lines[i]) != "" && parse(Strip(lines[i])) == Some(v)
    decreases |lines|
  {
    var n := |lines| - 1;
    var init, last := lines[..n], lines[n];
    LastSplit(lines);
    ParsedSnoc(init, last, parse);
    if v in Parsed(init, parse) {
      i := DecodedLine(init, parse, v);
      assert init[i] == lines[i];
    } else {
      assert v in Entry(last, parse);
      EntryDecodes(last, parse, v);
      i := n;
    }
  }

  lemma EntryDecodes(line: string, parse: string -> Option<Value>, v: Value)
    requires v in Entry(line, parse)
    ensures Strip(line) != "" && parse(Strip(line)) == Some(v)
  {
  }

  /**
   * The records come most recent first: the i-th is the i-th from the end of
   * the file; a positive limit keeps that many, a negative one leaves out that
   * many of the oldest, none or 0 keeps them all.
   */
  lemma MostRecentFirst(records: seq<Value>, limit: Option<int>)
    ensures var r := Newest(records, limit);
      (forall i :: 0 <= i < |r| ==> r[i] == records[|records| - 1 - i])
      && |r| == (if limit.None? || limit.value == 0 then |records|
                 else if limit.value > 0 then (if limit.value < |records| then limit.value else |records|)
                 else if |records| + limit.value > 0 then |records| + limit.value else 0)
  {
  }

  /** A final empty piece (after a final line break) contributes nothing. */
  lemma ParsedTrailingEmpty(lines: seq<string>, parse: string -> Option<Value>)
    ensures Parsed(lines + [""], parse) == Parsed(lines, parse)
  {
    assert (lines + [""])[..|lines|] == lines;
    assert Entry("", parse) == [];
  }

  /** A line and its break split into the line and an empty piece, which decode to the line's records. */
  lemma ParsedLine(line: string, parse: string -> Option<Value>)
    requires '\n' !in line
    ensures Parsed(Split(line + "\n", '\n'), parse) == Entry(line, parse)
  {
    assert Split(line + "\n", '\n') == [line] + [""] by {
      SplitNoSep(line, '\n');
      SplitConcat(line, "", '\n');
      assert line + "\n" == line + ['\n'] + "";
    }
    ParsedTrailingEmpty([line], parse);
    assert Parsed([line], parse) == Entry(line, parse) by { assert [line][..0] == []; }
  }

  /** After a final break, an appended line and its break add that line's records last. */
  lemma AppendedAfterBreak(x: string, line: string, parse: string -> Option<Value>)
    requires '\n' !in line
    ensures Parsed(Split(x + ['\n'] + (line + "\n"), '\n'), parse)
         == Parsed(Split(x + ['\n'], '\n'), parse) + Entry(line, parse)
  {
    var head := Split(x, '\n');
    assert Parsed(Split(x + ['\n'], '\n'), parse) == Parsed(head, parse) by {
      SplitConcat(x, "", '\n');
      assert x + ['\n'] + "" == x + ['\n'];
      ParsedTrailingEmpty(head, parse);
    }
    SplitConcat(x, line + "\n", '\n');
    ParsedAppend(head, Split(line + "\n", '\n'), parse);
    ParsedLine(line, parse);
  }

  /** Appending a line to a file that is empty or ends with a break adds that line's records last. */
  lemma AppendedLine(text: string, line: string, parse: string -> Option<Value>)
    requires text == "" || text[|text| - 1] == '\n'
    requires '\n' !in line
    ensures Parsed(Split(text + (line + "\n"), '\n'), parse) == Parsed(Split(text, '\n'), parse) + Entry(line, parse)
  {
    if text == "" {
      AppendedToEmpty(line, parse);
    } else {
      var x := text[..|text| - 1];
      assert text == x + ['\n'];
      AppendedAfterBreak(x, line, parse);
    }
  }

  lemma AppendedToEmpty(line: string, parse: string -> Option<Value>)
    requires '\n' !in line
    ensures Parsed(Split("" + (line + "\n"), '\n'), parse) == Parsed(Split("", '\n'), parse) + Entry(line, parse)
  {
    assert "" + (line + "\n") == line + "\n";
    assert Parsed(Split("", '\n'), parse) == [] by {
      assert Split("", '\n') == [""];
      ParsedTrailingEmpty([], parse);
    }
    ParsedLine(line, parse);
  }

  /** The newest record comes first, whatever the limit as long as it is not negative. */
  lemma NewestPushed(before: seq<Value>, record: Value, limit: Option<int>)
    ensures Newest(before + [record], None) == [record] + Newest(before, None)
    ensures limit.None? || limit.value >= 0 ==>
      var r := Newest(before + [record], limit); r != [] && r[0] == record
  {
    var after := before + [record];
    assert after[..|after| - 1] == before;
  }

  /** A well-formed line appended to the file is read back as the newest record. */
  lemma AppendedRecordFirst(text: string, line: string, record: Value, parse: string -> Option<Value>, limit: Option<int>)
    requires text == "" || text[|text| - 1] == '\n'
    requires line != "" && '\n' !in line && !IsSpace(line[0]) && !IsSpace(line[|line| - 1])
    requires parse(line) == Some(record)
    ensures Logs(Some(text + (line + "\n")), None, parse) == [record] + Logs(Some(text), None, parse)
    ensures limit.None? || limit.value >= 0 ==>
      var r := Logs(Some(text + (line + "\n")), limit, parse); r != [] && r[0] == record
  {
    assert Entry(line, parse) == [record] by {
      StripNoEdges(line);
    }
    AppendedLine(text, line, parse);
    NewestPushed(Parsed(Split(text, '\n'), parse), record, limit);
  }

  /**
   * What `log_operation` writes, `read_logs` gives back first: when the record
   * encodes to one line with no surrounding whitespace that decodes to the
   * record, it is the newest record, ahead of all the earlier ones.
   */
  lemma LoggedRecordReadFirst(log: Option<string>, operation: string, host: string, details: Dict<Value>,
                              now: string, user: string, dumps: Value -> string,
                              parse: string -> Option<Value>, limit: Option<int>)
    requires log.None? || log.value == "" || log.value[|log.value| - 1] == '\n'
    requires var line := dumps(LogRecord(now, operation, user, host, details));
      line != "" && '\n' !in line && !IsSpace(line[0]) && !IsSpace(line[|line| - 1])
      && parse(line) == Some(LogRecord(now, operation, user, host, details))
    ensures Logs(Some(LogOperation(log, operation, host, details, now, user, dumps)), None, parse)
         == [LogRecord(now, operation, user, host, details)] + Logs(log, None, parse)
    ensures limit.None? || limit.value >= 0 ==>
      var r := Logs(Some(LogOperation(log, operation, host, details, now, user, dumps)), limit, parse);
      r != [] && r[0] == LogRecord(now, operation, user, host, details)
  {
    var record := LogRecord(now, operation, user, host, details);
    var text := if log.Some? then log.value else "";
    AppendedRecordFirst(text, dumps(record), record, parse, limit);
    if log.None? {
      assert Logs(Some(""), None, parse) == [] by {
        assert Split("", '\n') == [""];
        ParsedTrailingEmpty([], parse);
      }
    }
  }

  // ---------------------------------------------------------------------------
  // The `audit` command.

  /** One table row: When, Operation, Host, User, Details. */
  datatype Row = Row(when: string, operation: string, host: string, user: string, details: string)

  /** What the command prints: the "No audit logs found" line, or the table. */
  datatype Display = NoLogs | Rows(rows: seq<Row>)

  /**
   * `minutes(s)` is `datetime.fromisoformat(s).strftime("%Y-%m-%d %H:%M")`,
   * `None` when `fromisoformat` raises `ValueError`; `render(v)` is `f"{v}"`
   * for a list or an object.
   */
  datatype Formats = Formats(minutes: string -> Option<string>, render: Value -> string)

  /** `f"{v}"` of a decoded JSON value. */
  function Text(v: Value, render: Value -> string): string {
    match v
    case Str(s) => s
    case Num(n) => IntToString(n)
    case Flag(b) => if b then "True" else "False"
    case _ => render(v)
  }

  predicate TextOrAbsent(t: Dict<Value>, key: string) {
    Get(t, key).None? || Get(t, key).value.Str?
  }

  /** `record.get(key, "unknown")` for a field that is text when present. */
  function Field(t: Dict<Value>, key: string): string
    requires TextOrAbsent(t, key)
  {
    if Get(t, key).None? then Unknown else Get(t, key).value.s
  }

  /**
   * A record the command can show without raising: an object whose timestamp,
   * operation, host and user are text when present, and whose details are an
   * object when the operation reads them.
   */
  predicate Displayable(record: Value) {
    record.Table?
    && TextOrAbsent(record.t, "timestamp") && TextOrAbsent(record.t, "operation")
    && TextOrAbsent(record.t, "host") && TextOrAbsent(record.t, "user")
    && (var op := Field(record.t, "operation");
        op == "deploy" || op == "rollback" || op == "down" ==>
          Get(record.t, "details").None? || Get(record.t, "details").value.Table?)
  }

  /** The When column: the formatted timestamp, else the raw one, else "unknown". */
  function When(t: Dict<Value>, f: Formats): (r: string)
    requires TextOrAbsent(t, "timestamp")
  {
    if Get(t, "timestamp").None? then Unknown
    else
      var s := Get(t, "timestamp").value.s;
      if f.minutes(s).Some? then f.minutes(s).value else s
  }

  /** The Details column for an operation and its details object. */
  function DetailsText(operation: string, details: Dict<Value>, render: Value -> string): string {
    var version := Text(GetOr(details, "version", Migrate.Str("")), render);
    if operation == "deploy" then "v" + version
    else if operation == "rollback" then
      Text(GetOr(details, "from_version", Migrate.Str("")), render) + Arrow
      + Text(GetOr(details, "to_version", Migrate.Str("")), render)
    else if operation == "down" then
      "v" + version + (if Migrate.Truthy(GetOr(details, "full", Migrate.Flag(false))) then FullMark else "")
    else ""
  }

  /** `record.get("details", {})` where it is read. */
  function DetailsOf(t: Dict<Value>): Dict<Value> {
    if Get(t, "details").Some? && Get(t, "details").value.Table? then Get(t, "details").value.t else []
  }

  /** The row the command adds for one record. */
  function RowOf(record: Value, f: Formats): Row
    requires Displayable(record)
  {
    var t := record.t;
    Row(When(t, f), Field(t, "operation"), Field(t, "host"), Field(t, "user"),
        DetailsText(Field(t, "operation"), DetailsOf(t), f.render))
  }

  /** The table-filling loop: one row per record, in order. */
  method BuildRows(records: seq<Value>, rowOf: Value --> Row) returns (rows: seq<Row>)
    requires forall i :: 0 <= i < |records| ==> rowOf.requires(records[i])
    ensures |rows| == |records|
    ensures forall i :: 0 <= i < |records| ==> rows[i] == rowOf(records[i])
  {
    rows := [];
    for i := 0 to |records|
      invariant |rows| == i
      invariant forall j :: 0 <= j < i ==> rows[j] == rowOf(records[j])
    {
      rows := rows + [rowOf(records[i])];
    }
  }

  /** `Audit.__call__`: read at most `limit` records, then one row per record in that order. */
  method ShowAudit(log: Option<string>, limit: int, parse: string -> Option<Value>, f: Formats) returns (d: Display)
    requires forall v :: v in Logs(log, Some(limit), parse) ==> Displayable(v)
    ensures var records := Logs(log, Some(limit), parse);
      (d == NoLogs <==> records == [])
      && (d.Rows? ==> |d.rows| == |records| && forall i :: 0 <= i < |records| ==> d.rows[i] == RowOf(records[i], f))
  {
    var records := ReadLogs(log, Some(limit), parse);
    if records == [] {
      return NoLogs;
    }
    var rows := BuildRows(records, (r: Value) requires Displayable(r) => RowOf(r, f));
    d := Rows(rows);
  }

  /** The limit goes to `read_logs` unchanged: a positive one bounds the rows, 0 shows every record. */
  lemma AuditLimit(log: Option<string>, limit: int, parse: string -> Option<Value>)
    ensures limit > 0 ==> |Logs(log, Some(limit), parse)| <= limit
    ensures limit == 0 ==> Logs(log, Some(limit), parse) == Logs(log, None, parse)
    ensures log.None? ==> Logs(log, Some(limit), parse) == []
  {
  }

  /** A record `log_operation` wrote shows its own operation, host and user, and its details. */
  lemma LoggedRecordRow(timestamp: string, operation: string, user: string, host: string,
                        details: Dict<Value>, f: Formats)
    ensures Displayable(LogRecord(timestamp, operation, user, host, details))
    ensures RowOf(LogRecord(timestamp, operation, user, host, details), f)
         == Row(if f.minutes(timestamp).Some? then f.minutes(timestamp).value else timestamp,
                operation, host, user, DetailsText(operation, details, f.render))
  {
    var t := LogRecord(timestamp, operation, user, host, details).t;
    LogRecordFields(timestamp, operation, user, host, details);
    LogRecordDetails(timestamp, operation, user, host, details);
    assert DetailsOf(t) == details;
    assert Field(t, "operation") == operation && Field(t, "host") == host && Field(t, "user") == user;
  }

  /** Missing fields show "unknown"; a timestamp that does not parse is shown as written. */
  lemma MissingFields(t: Dict<Value>, f: Formats)
    requires TextOrAbsent(t, "timestamp")
    ensures Get(t, "operation").None? ==> Field(t, "operation") == Unknown
    ensures Get(t, "host").None? ==> Field(t, "host") == Unknown
    ensures Get(t, "user").None? ==> Field(t, "user") == Unknown
    ensures Get(t, "timestamp").None? ==> When(t, f) == Unknown
    ensures Get(t, "timestamp").Some? && f.minutes(Get(t, "timestamp").value.s).None? ==>
      When(t, f) == Get(t, "timestamp").value.s
  {
  }

  /** With neither operation nor details the row is all "unknown" with empty details. */
  lemma EmptyRecordRow(f: Formats)
    ensures Displayable(Migrate.Table([]))
    ensures RowOf(Migrate.Table([]), f) == Row(Unknown, Unknown, Unknown, Unknown, "")
  {
  }

  /** deploy shows `v{version}`, with an empty version when there is none. */
  lemma DeployDetails(details: Dict<Value>, version: string, render: Value -> string)
    ensures Get(details, "version") == Some(Migrate.Str(version)) ==> DetailsText("deploy", details, render) == "v" + version
    ensures Get(details, "version").None? ==> DetailsText("deploy", details, render) == "v"
  {
  }

  /** rollback shows `{from_version} → {to_version}`. */
  lemma RollbackDetails(details: Dict<Value>, from: string, to: string, render: Value -> string)
    requires Get(details, "from_version") == Some(Migrate.Str(from))
    requires Get(details, "to_version") == Some(Migrate.Str(to))
    ensures DetailsText("rollback", details, render) == from + " \U{2192} " + to
  {
  }

  /** down shows `v{version}`, followed by " (full)" exactly when `full` is truthy. */
  lemma DownDetails(details: Dict<Value>, version: string, render: Value -> string)
    requires Get(details, "version") == Some(Migrate.Str(version))
    ensures var r := DetailsText("down", details, render);
      StartsWith(r, "v" + version)
      && (r == "v" + version + " (full)" <==> Get(details, "full").Some? && Migrate.Truthy(Get(details, "full").value))
      && (r == "v" + version <==> !(Get(details, "full").Some? && Migrate.Truthy(Get(details, "full").value)))
  {
    var base := "v" + version;
    assert |base + FullMark| != |base|;
  }

  /** Any other operation has empty details. */
  lemma OtherDetails(operation: string, details: Dict<Value>, render: Value -> string)
    requires operation != "deploy" && operation != "rollback" && operation != "down"
    ensures DetailsText(operation, details, render) == ""
  {
  }

  // ---------------------------------------------------------------------------
  // The call `deploy` makes.

  /** The parameters `log_operation` declares. */
  const LogParameters := ["operation", "host", "details"]

  /** The keyword arguments `deploy` passes to `log_operation`, in order. */
  const DeployKeywords := ["connection", "app_name", "operation", "host", "version", "git_commit"]

  const Unexpected := "() got an unexpected keyword argument '"

  /** Binding keyword arguments: the `TypeError` for the first one no parameter takes, if any. */
  function BindKeywords(name: string, params: seq<string>, keywords: seq<string>): (r: Option<string>)
    ensures r.None? <==> forall k :: k in keywords ==> k in params
    ensures r.Some? ==> exists k :: k in keywords && k !in params && r.value == name + Unexpected + k + "'"
  {
    if keywords == [] then None
    else if keywords[0] !in params then Some(name + Unexpected + keywords[0] + "'")
    else BindKeywords(name, params, keywords[1..])
  }

  /** As written, `deploy`'s call raises `TypeError` before any record is written. */
  lemma DeployCallRejected()
    ensures BindKeywords("log_operation", LogParameters, DeployKeywords)
         == Some("log_operation" + Unexpected + "connection" + "'")
  {
    assert DeployKeywords[0] !in LogParameters by {
      assert forall i :: 0 <= i < |LogParameters| ==> |LogParameters[i]| != |DeployKeywords[0]|;
    }
  }

  /** The record `deploy` evidently means to log: its version and commit as details. */
  function DeployRecord(now: string, user: string, host: string, version: string, gitCommit: string): (r: Value)
    ensures r.Table? && DistinctKeys(r.t)
  {
    LogRecord(now, "deploy", user, host, [("version", Migrate.Str(version)), ("git_commit", Migrate.Str(gitCommit))])
  }

  /** Passed as `operation`, `host` and `details`, the arguments bind. */
  lemma DeployCallCorrected()
    ensures BindKeywords("log_operation", LogParameters, ["operation", "host", "details"]) == None
  {
    var ks := ["operation", "host", "details"];
    assert forall k :: k in ks ==> k in LogParameters;
  }

  /** The corrected record shows as a deploy of `v{version}` on its host, by its user. */
  lemma DeployRecordShown(now: string, user: string, host: string, version: string, gitCommit: string, f: Formats)
    ensures Displayable(DeployRecord(now, user, host, version, gitCommit))
    ensures var row := RowOf(DeployRecord(now, user, host, version, gitCommit), f);
      row.operation == "deploy" && row.host == host && row.user == user && row.details == "v" + version
  {
    var details := [("version", Migrate.Str(version)), ("git_commit", Migrate.Str(gitCommit))];
    LoggedRecordRow(now, "deploy", user, host, details, f);
    assert Get(details, "version") == Some(Migrate.Str(version));
    DeployDetails(details, version, f.render);
  }
}
