# fujin, modelled in Dafny

fujin deploys Python applications (or single binaries) to a Linux server over
SSH and runs them as systemd units behind Caddy. This project models the
decision logic at its core and proves what that logic promises:

- `formatting.dfy`: `safe_format`, the tolerant `{placeholder}` substitution used on unit files.
- `units.dfy`, `discovery.dfy`: the deployed-unit descriptor, the systemd names derived from it, and the discovery of the units, sockets, timers and drop-ins a project ships under `.fujin/systemd/`.
- `command_base.dfy`, `app.dfy`: mapping a typed name to systemd units, the option list, the status table and its colours, the parsing of `systemctl show`, and the systemctl and journalctl commands `fujin app` sends.
- `scale.dfy`: converting a unit between a single service and a template, the `[replicas]` table, and the instances started or stopped on the server.
- `deploy.dfy`: the deployment context, the upload path (rsync with a fallback), the installer's exit codes, rollback, removal of the failed bundle and pruning.
- `systemd_host.dfy`, `installer.dfy`, `legacy_installer.dfy`, `commands.dfy`: both installers that run on the server. This covers stale units, converging `/etc/systemd/system` on the valid units, drop-in placement, restart and health check, Caddy restore, exit codes and `uninstall`.
- `rollback.dfy`: version extraction from the bundle listing and the rollback script.
- `migrate.dfy`, `show.dfy`, `new_unit.dfy`, `init.dfy`, `workspace.dfy`: editing the local project (`fujin.toml` migration, `show`, `new`, `init`).
- `connection.dfy`, `libssh_connection.dfy`, `shell.dfy`: the two SSH transports' bookkeeping. This covers the working directory kept by `cd`, the command line actually run, the environment prefix and its escaping, the poll loop that collects output, the exit policy and uploads.
- `audit.dfy`: the local audit log and the `audit` command.
- `strings.dfy`, `dicts.dfy`, `sorting.dfy`, `wrappers.dfy`: the Python string, ordered-dictionary and sorting operations the sources rely on, and `None`/exceptions as `Option`/`Result`.

Classes stand for the objects the source updates in place: the local project
directory, the server's systemd directory, and the two connections. Methods
that change them are proved against specification functions of the old
state. Everything outside the process is an input:
- what a remote command prints and the status it exits with;
- the answers to prompts;
- the clock and the login name;
- the JSON and TOML encoders and parsers;
- the systemd, Caddy and unit templates;
- whether a unit file parses.

Commands sent to a host are recorded as values.

Some code paths cannot run as written: `deploy`, `rollback` and the
libssh environment prefix among them (see "## Findings"). For each, the model
has the behaviour as written and the evidently intended one. The operations
and properties elsewhere describe the intended one.

`commands/deploy.py` (line 24) and `commands/rollback.py` (line 8) import each
other at load time, so as written neither `deploy` nor `rollback` loads at all.
The as-written members for those two commands describe what each would do once
that import cycle is broken. For `deploy`, every defect after the first is
described with the earlier ones corrected: the requirements hash first
(line 98), then the bundling (line 165), the install step (line 361), the
failure handler (line 364), the rollback (line 375) and the audit record
(lines 409-416).

## Model

| member | source | states |
|---|---|---|
| Formatting.MatchShape | src/fujin/formatting.py:25-27 | a match of `\{+([a-zA-Z0-9_]+)\}+` starts with `{`, captures a non-empty identifier and consumes at least the braces around it |
| Formatting.GroupMatch | src/fujin/formatting.py:25-27 | `n` opening braces, an identifier and `m` closing braces match as one group whose key is the identifier and whose length is the whole group |
| Formatting.PlaceholderThen | src/fujin/formatting.py:19-27 | a brace group with a bound key becomes the value with all its braces gone; with an unbound key it is copied verbatim; the text after it is formatted on its own |
| Formatting.SafeFormatConcat | src/fujin/formatting.py:27 | text ending in a character that cannot be part of a placeholder is formatted independently of what follows |
| Formatting.ConcatFromMatch | src/fujin/formatting.py:27 | the same split law when the text starts with a match |
| Formatting.ConcatFromChar | src/fujin/formatting.py:27 | the same split law when the text starts with a plain character |
| Formatting.SinglePass | src/fujin/formatting.py:19-22 | `{key}` with a bound key becomes exactly the value: the value is not expanded again |
| Formatting.DoubleBraces | src/fujin/formatting.py:25-27 | `{{key}}` with a bound key becomes the bare value |
| Formatting.UnboundVerbatim | src/fujin/formatting.py:21-23 | a brace group whose key is not bound is left as it was, braces included |
| Formatting.PlaceholderInText | src/fujin/formatting.py:19-27 | a placeholder between separators is replaced in place; the text before and after is formatted on its own |
| Formatting.LeadingPlaceholder | src/fujin/formatting.py:19-27 | a placeholder at the start is replaced (or kept when unbound); the rest is formatted on its own |
| Formatting.NoOpenBraceIdentity | src/fujin/formatting.py:27 | text without `{` comes back unchanged |
| Formatting.EmptyContextIdentity | src/fujin/formatting.py:21-23 | with no keyword arguments every template comes back unchanged |
| Formatting.BlockBraceUntouched | src/fujin/formatting.py:7-9 | a `{` that opens a block (followed by neither `{` nor an identifier character) is kept and never starts a placeholder |
| Formatting.Unresolved | src/fujin/formatting.py:19-27 | corrected second value of `safe_format`: it lists only placeholder names the context does not bind |
| Formatting.UnresolvedLeftVerbatim | src/fujin/commands/deploy.py:261-265 | every name reported unresolved stays in the formatted text as `{name}`, as the warning says ("left as-is") |
| Formatting.IsIdentChar | src/fujin/formatting.py:27 | the class `[a-zA-Z0-9_]`, ASCII only |
| Formatting.IsSeparator | src/fujin/formatting.py:27 | a character no match can contain; Formatting.SafeFormatConcat splits the text there |
| Formatting.IsIdent | src/fujin/formatting.py:27 | a non-empty identifier, the pattern's captured group; Formatting.MatchShape states every match captures one |
| Formatting.Run | src/fujin/formatting.py:27 | a greedy run of one character class, never longer than the text; Formatting.RunMembers and Formatting.RunOfMembers state it is the maximal run |
| Formatting.MatchAt | src/fujin/formatting.py:25-27 | what the pattern matches at the start of the text; Formatting.MatchShape and Formatting.GroupMatch state its shape |
| Formatting.Replacement | src/fujin/formatting.py:19-23 | `replace(match)`: the bound value, or the match itself when the key is unbound; stated by Formatting.SinglePass and Formatting.UnboundVerbatim |
| Formatting.SafeFormat | src/fujin/formatting.py:5-27 | `safe_format`; Formatting.PlaceholderThen, Formatting.SinglePass, Formatting.UnboundVerbatim, Formatting.NoOpenBraceIdentity and Formatting.EmptyContextIdentity state what it does |
| Units.ServiceInstances | tests/test_app.py:104-129 | a template has one instance per replica, `{app}-{name}@{i}.service` for i = 1..replicas; any other unit is its single service name |
| Units.CollectSystemdUnits | src/fujin/_installer.py:342-348 | the loop yields every unit's instances, then its socket, then its timer, unit by unit (equal to `SystemdUnits`) |
| Units.SystemdUnitsMembers | src/fujin/_installer.py:342-348 | a name is among the units restarted exactly when some deployed unit runs it |
| Units.CollectValidUnits | src/fujin/_installer.py:235-241 | the loop yields every unit's installed service, socket and timer file names in order (equal to `ValidUnits`) |
| Units.ValidUnitsMembers | src/fujin/_installer.py:235-241 | a name is valid exactly when some deployed unit installs a file under it |
| Units.InstanceNamesDistinct | src/fujin/_installer.py:39 | different instance numbers give different unit names |
| Units.ServiceInstancesDistinct | src/fujin/_installer.py:39 | the instances of one unit are pairwise distinct |
| Units.TemplateNotAnInstance | tests/test_app.py:111-129 | a template's own `@.service` name is never one of its instances |
| Units.NamesArePrefixed | src/fujin/_installer.py:243-245 | every runtime and installed name of a unit starts with `{app}-{name}`, so the `{app_name}*` scan sees them |
| Units.TestAppNames | tests/test_app.py:96-145 | the single, template, socket and timer names the tests expect for app `testapp` |
| Units.TestAppInstances | tests/test_app.py:120-129 | a three-replica `worker` template runs `testapp-worker@1.service` to `@3.service` |
| Units.ServiceFile | src/fujin/_installer.py:36 | the unit's own file name: `{name}.service`, or `{name}@.service` for a template; Discovery.ParseServiceFilename states that it splits back into the name and the template flag |
| Units.SocketFile | src/fujin/_installer.py:37 | `{name}[@].socket` exactly when the unit has a socket, otherwise none |
| Units.TimerFile | src/fujin/_installer.py:38 | `{name}[@].timer` exactly when the unit has a timer, otherwise none |
| Units.TemplateServiceName | tests/test_app.py:96-117 | `{app}-{name}.service`, or `{app}-{name}@.service` for a template; Units.TestAppNames pins the test's names and Units.TemplateNotAnInstance separates it from the instances |
| Units.TemplateSocketName | tests/test_app.py:140-145 | `{app}-{name}[@].socket` exactly when the unit has a socket, never carrying an instance number; pinned by Units.TestAppNames |
| Units.TemplateTimerName | tests/test_app.py:148-153 | `{app}-{name}[@].timer` exactly when the unit has a timer, never carrying an instance number; pinned by Units.TestAppNames |
| Units.InstanceName | tests/test_app.py:120-129 | `{app}-{name}@{i}.service`; Units.InstanceNamesDistinct states that distinct numbers give distinct names |
| Units.RuntimeNames | src/fujin/_installer.py:343-348 | one unit's instances, then its socket, then its timer; Units.UnitNames computes it and Units.NamesArePrefixed bounds its names |
| Units.FileNames | src/fujin/_installer.py:237-241 | one unit's installed service, socket and timer names; Units.ValidUnitsMembers and Units.NamesArePrefixed state its members |
| Units.SystemdUnits | src/fujin/commands/_base.py:103 | every unit's runtime names, unit by unit; Units.SystemdUnitsMembers states its members and Units.CollectSystemdUnits computes it |
| Units.UnitNames | src/fujin/_installer.py:343-348 | the loop body appends the unit's instances, then the socket and the timer when present, which is `RuntimeNames` |
| Units.ValidUnits | src/fujin/_installer.py:235-241 | every unit's installed file names, unit by unit; Units.ValidUnitsMembers states its members and Units.CollectValidUnits computes it |
| Discovery.ParseServiceFilename | src/fujin/discovery.py:165-184 | the name, `@` when a template, and `.service` put back together give the file name; the template flag holds exactly when the name before `.service` ends in `@` |
| Discovery.ParseServiceFilenameExamples | src/fujin/discovery.py:170 | `web@.service` and `web.service` both give the name `web`, as a template and as a regular service |
| Discovery.FirstMalformed | src/fujin/discovery.py:197-203 | no file is reported exactly when none is rejected by the parser; a reported file is one of the files and is rejected |
| Discovery.DiscoverServicesSpec | src/fujin/discovery.py:46-96 | a missing directory yields no units; a successful discovery is sorted by name |
| Discovery.DiscoverServices | src/fujin/discovery.py:33-96 | the loop over the `*.service` files returns the specification's result, error included |
| Discovery.CollectErrPersists | src/fujin/discovery.py:54-60 | the first rejected file ends discovery: later entries do not change the error |
| Discovery.CollectComplete | src/fujin/discovery.py:54-94 | every `*.service` entry is discovered with exactly the socket and timer present beside it, and nothing else is |
| Discovery.CollectFailsIffMalformed | src/fujin/discovery.py:60-84 | discovery fails exactly when a service file or one of its present companions is rejected, and the error names a rejected file |
| Discovery.DiscoverServicesComplete | src/fujin/discovery.py:46-96 | on an existing directory the result is sorted by name, holds one unit per `*.service` file and only those |
| Discovery.ConfFiles | src/fujin/discovery.py:118 | a listing entry is kept exactly when it ends in `.conf` |
| Discovery.DropinsSpec | src/fujin/discovery.py:112-124 | a missing directory yields none; success gives exactly the `.conf` entries, sorted; an error names a rejected `.conf` entry |
| Discovery.DiscoverDropins | src/fujin/discovery.py:117-124 | the validation loop returns the specification's result |
| Discovery.FirstMalformedAfter | src/fujin/discovery.py:118-120 | the first rejected `.conf` entry is the one reported, however the listing continues |
| Discovery.DropinDirName | src/fujin/discovery.py:145-148 | a service's drop-in directory is `{name}.service.d`, or `{name}@.service.d` for a template |
| Discovery.DiscoverCommonDropins | src/fujin/discovery.py:99-124 | `common.d` is searched, and a missing one gives no drop-ins |
| Discovery.DiscoverServiceDropins | src/fujin/discovery.py:127-162 | the service's own drop-in directory is searched, and a missing one gives no drop-ins |
| Discovery.NameOf | src/fujin/discovery.py:96 | the sort key, the service name; Discovery.DiscoverServicesSpec states the result is sorted by it |
| Discovery.Companion | src/fujin/discovery.py:66-73 | the socket or timer file looked up for a service: `{name}.ext`, or `{name}@.ext` for a template; Discovery.CollectComplete states each unit carries exactly the companions present |
| Discovery.Present | src/fujin/discovery.py:76-84 | a companion file is kept exactly when the directory lists it, otherwise none |
| Discovery.UnitFor | src/fujin/discovery.py:62-94 | the unit one `*.service` file describes: its parsed name and template flag with the companions present; Discovery.CollectComplete states every service file yields it |
| Discovery.Validated | src/fujin/discovery.py:59-84 | the files validated for one service, the service file first, then the socket and the timer when present; Discovery.CollectFailsIffMalformed states discovery fails exactly when one of them is rejected |
| Discovery.Collect | src/fujin/discovery.py:51-94 | the loop before sorting; Discovery.CollectComplete, Discovery.CollectFailsIffMalformed and Discovery.CollectErrPersists state its result, and Discovery.DiscoverServices computes it |
| Shell.Quote | src/fujin/commands/deploy.py:305-306 | `shlex.quote` leaves a word unchanged exactly when it is non-empty and made only of safe characters |
| Shell.QuoteRoundTrip | src/fujin/commands/deploy.py:305-306 | a POSIX shell reads the quoted path back as exactly the original text |
| Shell.UnquoteSingleQuoted | src/fujin/commands/deploy.py:330 | a single-quoted word, with each `'` written as `'"'"'`, reads back as the text quoted |
| Shell.SingleQuoted | src/fujin/commands/deploy.py:305-306 | the quoted form `shlex.quote` gives a word with unsafe characters; Shell.UnquoteSingleQuoted states a shell reads it back as the word |
| Commands.Render | src/fujin/_installer.py:252-258 | the text each installer command runs as; Installer.DisableNowUnlessTemplate and LegacyInstaller.StopsUnlessTemplate state how a stale template is treated |
| Sorting.SortBy | src/fujin/discovery.py:96 | `sorted(..., key=...)` gives a permutation of its input that is ordered by key |
| Sorting.SortByStable | src/fujin/discovery.py:96 | `sorted` is stable: the items with any one key come out in their input order |
| Sorting.SortedNames | src/fujin/commands/deploy.py:263 | `sorted(set)` lists each name once, in increasing order, and only names of the set |
| Workspace.Project.MakeDirs | src/fujin/commands/new.py:58-59 | creating directories adds them and leaves every file as it was |
| Workspace.Project.Write | src/fujin/commands/new.py:71-72 | writing a file sets that path's text and changes nothing else |
| NewUnit.DropinDir | src/fujin/commands/new.py:128-135 | with a non-empty `--service` the drop-in goes to `{service}.service.d`, otherwise to `common.d` |
| NewUnit.EnsureSystemd | src/fujin/commands/new.py:56-61 | `.fujin/systemd` is created (with its parent) only when it does not exist |
| NewUnit.New | src/fujin/commands/new.py:46-54 | the command's effect on the project directory and its outcome are those of `Run` for the chosen kind |
| NewUnit.SystemdDirEnsured | src/fujin/commands/new.py:56-61 | whatever the outcome, `.fujin/systemd` exists afterwards and no directory is removed |
| NewUnit.NoFileClobbered | src/fujin/commands/new.py:63-141 | a failure writes no file; a success writes only the reported files, none of which existed, and keeps every other file |
| NewUnit.ServiceRule | src/fujin/commands/new.py:63-73 | an existing `{name}.service` is the error "... already exists"; otherwise the service template is written there |
| NewUnit.TimerRule | src/fujin/commands/new.py:81-97 | the timer fails exactly when `{name}.service` or `{name}.timer` exists; otherwise both templates are written |
| NewUnit.SocketRule | src/fujin/commands/new.py:106-116 | the socket fails exactly when `{name}.socket` exists; otherwise the socket template is written |
| NewUnit.DropinRule | src/fujin/commands/new.py:125-141 | the drop-in directory is created even when the file exists; the drop-in fails exactly when the file exists |
| NewUnit.ServicePath | src/fujin/commands/new.py:66 | `.fujin/systemd/{name}.service` |
| NewUnit.TimerPath | src/fujin/commands/new.py:84 | `.fujin/systemd/{name}.timer` |
| NewUnit.SocketPath | src/fujin/commands/new.py:109 | `.fujin/systemd/{name}.socket` |
| NewUnit.DropinPath | src/fujin/commands/new.py:128-135 | `{name}.conf` in the drop-in directory |
| NewUnit.EnsureSystemdDir | src/fujin/commands/new.py:56-61 | `.fujin/systemd` and its parent exist afterwards; NewUnit.EnsureSystemd is proved against it |
| NewUnit.Run | src/fujin/commands/new.py:46-141 | the command's effect and report; NewUnit.SystemdDirEnsured, NewUnit.NoFileClobbered and the four rule lemmas state it, and NewUnit.New is proved against it |
| CommandBase.SplitSuffix | src/fujin/commands/_base.py:108-120 | the base name followed by the stripped suffix gives back the typed name; no suffix is recorded exactly when the name ends in none of `.service`, `.timer`, `.socket` |
| CommandBase.KeepEnding | src/fujin/commands/_base.py:124 | keeps exactly the names with the given ending, never more than there were |
| CommandBase.FindUnit | src/fujin/commands/_base.py:130-133 | no unit is found exactly when no deployed unit has the name; a found unit is deployed and carries the name |
| CommandBase.ResolveUnits | src/fujin/commands/_base.py:83-166 | the resolver's result or exit is the one `Resolve` specifies |
| CommandBase.FindService | src/fujin/commands/_base.py:130-133 | the search loop finds the unit `FindUnit` specifies |
| CommandBase.UnitNames | src/fujin/commands/_base.py:141-166 | the appended names, or the exit for a missing socket or timer, are those `ForUnit` specifies |
| CommandBase.BareNameUnits | src/fujin/commands/_base.py:144-164 | a bare name gives the instance, socket and timer names; with templates, the template file names |
| CommandBase.SuffixedUnits | src/fujin/commands/_base.py:144-164 | `.service` gives only service names; `.socket` (`.timer`) succeeds exactly when the unit has one, and otherwise exits with code 1 |
| CommandBase.ResolveKnown | src/fujin/commands/_base.py:108-134 | a deployed service name, with or without a suffix, resolves through that unit |
| CommandBase.SuffixedName | src/fujin/commands/_base.py:110-118 | appending one suffix to a plain name and splitting it again gives back the name and that suffix |
| CommandBase.ResolveKeywords | src/fujin/commands/_base.py:123-127 | `timer` and `socket` give every project timer or socket unit, in order |
| CommandBase.ResolveUnknown | src/fujin/commands/_base.py:134-139 | a plain name no unit has is refused with the "Unknown service" exit |
| CommandBase.ResolvedAreSystemdUnits | src/fujin/commands/_base.py:141-166 | a deployed service name resolves, and every runtime name it gives is one of the project's systemd units |
| CommandBase.RuntimeNamesInSystemdUnits | src/fujin/commands/_base.py:103 | every runtime name of a deployed unit is in the project's unit list |
| CommandBase.Cyan | src/fujin/commands/_base.py:80 | each option is wrapped in `[cyan]` markup, one for one |
| CommandBase.AvailableOptions | src/fujin/commands/_base.py:54-81 | the text is the coloured option list joined by spaces |
| CommandBase.AddUnitOptions | src/fujin/commands/_base.py:71-77 | the loop appends each unit's names in unit order |
| CommandBase.NamesOf | src/fujin/commands/_base.py:72-77 | one unit adds its name, `name.service`, then `.socket` and `.timer` when it has them |
| CommandBase.AllUnitOptionsMember | src/fujin/commands/_base.py:71-77 | every offered unit option comes from some deployed unit |
| CommandBase.FindDistinct | src/fujin/commands/_base.py:130-133 | with distinct names the search finds each deployed unit by its own name |
| CommandBase.UnitOptionResolves | src/fujin/commands/_base.py:72-77 | every option a unit offers is accepted by the resolver |
| CommandBase.OfferedOptionsResolve | src/fujin/commands/_base.py:54-166 | with distinct, plain service names, every name offered after `env caddy units` is accepted by the resolver |
| CommandBase.SuffixText | src/fujin/commands/_base.py:108-120 | the text of each recognised suffix, empty for none; CommandBase.SplitSuffix states that name plus suffix text gives the typed name |
| CommandBase.Names | src/fujin/commands/_base.py:135 | the deployed service names in unit order, as the "Available services" list joins them |
| CommandBase.UnknownService | src/fujin/commands/_base.py:134-139 | the exit with code 1 naming the unknown service and every available one; CommandBase.ResolveUnknown states when it is raised |
| CommandBase.ServiceNames | src/fujin/commands/_base.py:144-148 | the template name with `use_templates`, otherwise every instance; CommandBase.BareNameUnits states both cases |
| CommandBase.NoCompanion | src/fujin/commands/_base.py:150-162 | the exit with code 1 for a unit without the asked-for socket or timer; CommandBase.SuffixedUnits states when it is raised |
| CommandBase.ForUnit | src/fujin/commands/_base.py:141-166 | the names built for a found unit, or the missing-companion exit; CommandBase.BareNameUnits and CommandBase.SuffixedUnits state every suffix case |
| CommandBase.ServicePart | src/fujin/commands/_base.py:144-148 | service names only for `.service` or no suffix; stated through CommandBase.SuffixedUnits |
| CommandBase.SocketPart | src/fujin/commands/_base.py:150-156 | the socket for `.socket`, or for a bare name whose unit has one; stated through CommandBase.BareNameUnits and CommandBase.SuffixedUnits |
| CommandBase.TimerPart | src/fujin/commands/_base.py:158-164 | the timer for `.timer`, or for a bare name whose unit has one; stated through CommandBase.BareNameUnits and CommandBase.SuffixedUnits |
| CommandBase.Resolve | src/fujin/commands/_base.py:103-166 | the resolver's result: all units for an empty name, the keyword filters, the unknown-service exit, or the found unit's names; CommandBase.ResolveKeywords, CommandBase.ResolveUnknown and CommandBase.ResolveKnown state each branch |
| CommandBase.AnyTimer | src/fujin/commands/_base.py:62 | whether some deployed unit has a timer, which adds the `timer` keyword |
| CommandBase.AnySocket | src/fujin/commands/_base.py:63 | whether some deployed unit has a socket, which adds the `socket` keyword |
| CommandBase.UnitOptions | src/fujin/commands/_base.py:72-77 | one unit's options; CommandBase.NamesOf computes it and CommandBase.UnitOptionResolves states every one resolves |
| CommandBase.AllUnitOptions | src/fujin/commands/_base.py:71-77 | every unit's options in unit order; CommandBase.AllUnitOptionsMember states each comes from a deployed unit |
| CommandBase.OptionList | src/fujin/commands/_base.py:56-77 | `env, caddy, units`, then `timer` and `socket` when some unit has one, then the unit options; CommandBase.OptionListTail states the order |
| CommandBase.OptionListTail | src/fujin/commands/_base.py:59-77 | after the three fixed entries come `timer` exactly when some unit has a timer, `socket` exactly when some unit has a socket, then every unit's options |
| AppCommand.StatusLines | src/fujin/commands/app.py:60-62 | blank `is-active` output gives no status lines, and only blank output does |
| AppCommand.StatusMapLookup | src/fujin/commands/app.py:55-63 | a queried name gets the status on the line of its last occurrence; a name no printed line belongs to gets none |
| AppCommand.CountActive | src/fujin/commands/app.py:77-81 | the running count never exceeds the number of instances |
| AppCommand.CountActiveAll | src/fujin/commands/app.py:77-112 | the count reaches the total exactly when every instance reports "active" |
| AppCommand.CountActiveNone | src/fujin/commands/app.py:77-114 | the count is zero exactly when no instance reports "active" |
| AppCommand.ServiceRows | src/fujin/commands/app.py:75-94 | the loop over deployed units fills the table `Rows` specifies |
| AppCommand.UnitRowsContent | src/fujin/commands/app.py:84-94 | a unit's name gets its summary; `name.socket` gets the socket's status only when it answered; other rows are untouched |
| AppCommand.SummarySingle | src/fujin/commands/app.py:84-87 | a single instance shows its own status, or "unknown" when it got none |
| AppCommand.CountStyle | src/fujin/commands/app.py:110-117 | a `running/total` cell is green when all run, red when none run, yellow otherwise |
| AppCommand.SummaryStyle | src/fujin/commands/app.py:88-117 | a multi-instance summary is coloured by how many instances run |
| AppCommand.StyleExamples | src/fujin/commands/app.py:104-117 | active is green, failed red, inactive dim; `3/3` green, `2/3` yellow, `0/3` red |
| AppCommand.ParseProps | src/fujin/commands/app.py:163-167 | the parsing loop gives the properties `Props` specifies |
| AppCommand.PropsLastLine | src/fujin/commands/app.py:165-167 | the last `key=value` line sets the key, even when the value holds `=` |
| AppCommand.PropsAbsent | src/fujin/commands/app.py:165-169 | a key no line sets is absent, so the default is shown |
| AppCommand.InstanceLineCases | src/fujin/commands/app.py:161-191 | a failed query shows "unknown"; `LoadState=not-found` shows "not deployed"; a missing `ActiveState` shows a dim "unknown" |
| AppCommand.NextRun | src/fujin/commands/app.py:226-234 | a next run is shown exactly when the query succeeded and reported a value other than "" and "0" |
| AppCommand.StopSocketOnce | src/fujin/commands/app.py:305-314 | the socket is added after the resolved names, and appears once when it was absent |
| AppCommand.OtherCommandsNoSocket | src/fujin/commands/app.py:305 | only `stop` adds a socket |
| AppCommand.RunServiceCommandCases | src/fujin/commands/app.py:293-327 | without a name every runtime unit is acted on with "All Services" in the message when `systemctl` exits with 0, and a non-zero status ends with "Command failed with exit code N" and that status; no units means nothing is run |
| AppCommand.RunServiceCommandFails | src/fujin/commands/app.py:319-327 | once something is resolved, the success message is reported exactly when `systemctl` exits with 0; any other status ends the command with the connection's exit carrying it |
| AppCommand.RunServiceCommandCovers | src/fujin/commands/app.py:298-319 | every resolved unit is acted on, before any added socket |
| AppCommand.UnitFlags | src/fujin/commands/app.py:381 | one `-u name` flag per resolved unit, in order |
| AppCommand.LogsCommand | src/fujin/commands/app.py:376-400 | nothing resolved gives no command; otherwise the parts of `JournalParts` joined by spaces |
| AppCommand.AddPart | src/fujin/commands/app.py:386-391 | an option is appended exactly when it is given |
| AppCommand.JournalPartsOrder | src/fujin/commands/app.py:383-393 | `-f` comes last exactly when following; `-n` follows the unit flags when not following and is absent otherwise |
| AppCommand.CatServiceShowsFiles | src/fujin/commands/app.py:403-429 | `cat <service>` shows that service's installed unit files, not its instances |
| AppCommand.StatusMap | src/fujin/commands/app.py:55-63 | no names, or blank `is-active` output, gives an empty status table |
| AppCommand.Props | src/fujin/commands/app.py:163-167 | output with no `key=value` line sets no property |
| AppCommand.Summary | src/fujin/commands/app.py:77-89 | a single instance's raw status or "unknown", otherwise `running/total`; AppCommand.SummarySingle, AppCommand.CountActive, AppCommand.CountActiveAll and AppCommand.CountActiveNone state both cases |
| AppCommand.SocketStatus | src/fujin/commands/app.py:91-93 | the socket's answered status, empty when the unit has no socket or the socket gave no answer; AppCommand.UnitRowsContent states the row it adds |
| AppCommand.UnitRows | src/fujin/commands/app.py:84-94 | one unit's rows: its summary, then `name.socket` only when the socket answered; stated by AppCommand.UnitRowsContent |
| AppCommand.Rows | src/fujin/commands/app.py:75-94 | every unit's rows in unit order; AppCommand.ServiceRows computes it |
| AppCommand.StatusStyle | src/fujin/commands/app.py:103-119 | active green, failed red, inactive and unknown dim, `r/t` by its counts, anything else plain; AppCommand.StyleExamples, AppCommand.CountStyle and AppCommand.SummaryStyle state it |
| AppCommand.Markup | src/fujin/commands/app.py:104-117 | the rich markup each colour wraps around the cell text; AppCommand.StyleExamples pins the cells |
| AppCommand.InstanceLine | src/fujin/commands/app.py:158-191 | the detail line of one instance; AppCommand.InstanceLineCases states the "unknown", "not deployed" and coloured cases |
| AppCommand.WithStopSocket | src/fujin/commands/app.py:305-314 | `stop NAME` appends `{app}-{name}.socket` when the local socket file exists and it is not yet listed; AppCommand.StopSocketOnce and AppCommand.OtherCommandsNoSocket state it |
| AppCommand.PastTense | src/fujin/commands/app.py:322-326 | start, restart and stop get their past tense; any other command is kept as typed |
| AppCommand.RunServiceCommand | src/fujin/commands/app.py:293-327 | the resolver's exit, "No services found" for an empty resolution, the connection's exit when the one `systemctl` command fails, or that command and its success message; AppCommand.RunServiceCommandCases, AppCommand.RunServiceCommandFails and AppCommand.RunServiceCommandCovers state it |
| AppCommand.Opt | src/fujin/commands/app.py:384-393 | a journalctl part appears exactly when its option is given; stated by AppCommand.AddPart |
| AppCommand.Filters | src/fujin/commands/app.py:386-391 | `-p`, `--since` and `-g`, each only when given, with the free-text values shell-quoted; AppCommand.JournalPartsOrder places them |
| AppCommand.JournalParts | src/fujin/commands/app.py:381-393 | the journalctl pieces; AppCommand.JournalPartsOrder states `-n` only without following and `-f` last, and AppCommand.LogsCommand computes them |
| AppCommand.Cat | src/fujin/commands/app.py:403-429 | options without a name, the Caddy file for `caddy` when it exists, every unit for `units`, otherwise the templates a name resolves to; AppCommand.CatServiceShowsFiles states the service case |
| Scale.FileNamesDiffer | src/fujin/commands/scale.py:63-64 | the template file and the single-unit file of a service are different files |
| Scale.StripSpecifiers | src/fujin/commands/scale.py:67 | on text without an escaped `%%`, no `%i` and no `%I` is left |
| Scale.StripSpecifiersLeavesEscaped | src/fujin/commands/scale.py:67 | the two passes leave `%i` behind in `%%ii` |
| Scale.AddSpecifier | src/fujin/commands/scale.py:88-92 | text without the description key is unchanged; text with it gains the key followed by ` %i` |
| Scale.Converted | src/fujin/commands/scale.py:59-98 | no conversion leaves the files alone; otherwise a missing source file fails, and the source is replaced by the converted file with every other file kept |
| Scale.ReplicasAfter | src/fujin/commands/scale.py:174-188 | the service's entry becomes the new count or disappears; other entries are kept; an empty table is removed |
| Scale.ServerTouched | src/fujin/commands/scale.py:116-124 | the server is reached exactly when the unit was a template, stays one, and its count changes |
| Scale.ScaleUpStartsAdded | src/fujin/commands/scale.py:132-144 | scaling up starts exactly the instances the new count adds, none of which ran before |
| Scale.ScaleDownStopsDropped | src/fujin/commands/scale.py:150-162 | scaling down stops exactly the instances the new count drops, none of which remain |
| Scale.StripExample | src/fujin/commands/scale.py:67 | `Description=Worker %i` loses its specifier |
| Scale.AddSpecifierAtEnd | src/fujin/commands/scale.py:88-92 | a description ending in the key gains ` %i` at its end |
| Scale.AddExample | src/fujin/commands/scale.py:88-92 | `Description={{app_name}} worker` becomes `Description={{app_name}} worker %i` |
| Scale.Project.UpdateReplicasConfig | src/fujin/commands/scale.py:168-190 | without a fujin.toml nothing changes; otherwise the `[replicas]` table becomes `ReplicasAfter` of the old one |
| Scale.Project.Scale | src/fujin/commands/scale.py:27-166 | zero, a negative count and an unknown service exit with code 1 and change nothing; otherwise the files are converted and the table is updated, then a failed server command exits with "Command failed with exit code N" and its status, else the report names the conversion, the socket warning and the server action |
| Scale.ZeroMessage | src/fujin/commands/scale.py:28-35 | the error text for a count of zero, naming `fujin app stop` and the files to delete; Scale.Project.Scale states it is reported with exit code 1 |
| Scale.NotFoundMessage | src/fujin/commands/scale.py:48-53 | the error text for a service with no deployed unit; Scale.Project.Scale states it is reported with exit code 1 and nothing changes |
| Scale.TemplateFile | src/fujin/commands/scale.py:63-64 | the template unit file `SERVICE@.service`; Scale.FileNamesDiffer states it differs from the single-unit file |
| Scale.RegularFile | src/fujin/commands/scale.py:63-64 | the single-unit file `SERVICE.service`; Scale.FileNamesDiffer states it differs from the template file |
| Scale.DescriptionKey | src/fujin/commands/scale.py:88-92 | the description text that gains ` %i`; Scale.AddSpecifier and Scale.AddSpecifierAtEnd state what happens to it |
| Scale.NeedsConversion | src/fujin/commands/scale.py:59-84 | a template going to 1, or a single unit going to 2 or more, is converted; Scale.Converted and Scale.ServerTouched state the consequences |
| Scale.InstancesBetween | src/fujin/commands/scale.py:132-162 | the instance names numbered after the lower count up to the higher one; Scale.ScaleUpStartsAdded and Scale.ScaleDownStopsDropped state which instances they are |
| Scale.ServerCommand | src/fujin/commands/scale.py:128-166 | the start-and-enable or stop-and-disable command for the added or dropped instances; Scale.ScaleUpStartsAdded and Scale.ScaleDownStopsDropped state its instances |
| Scale.ServerAction | src/fujin/commands/scale.py:116-124 | the server command of a unit that stays a template and changes count; Scale.ServerTouched states exactly when there is one |
| Scale.ServerFailure | src/fujin/commands/scale.py:142-166 | a server command is run without `warn`, so a non-zero status ends the command with "Command failed with exit code N" and that status, and only then |
| Scale.ServerFailureBranchesDead | src/fujin/commands/scale.py:142-166 | the command returns only on status 0 and then with its success flag set, so the two failure warnings are never printed |
| Scale.Project.ConvertAndRecord | src/fujin/commands/scale.py:55-126 | a missing source file fails with nothing changed; otherwise the files are converted and the `[replicas]` table recorded, then a failed server command exits with its status, else the report names the conversion, the socket warning and the server action |
| SystemdHost.Host.Run | src/fujin/_installer.py:534-554 | a command is recorded after the earlier ones, and no file changes |
| SystemdHost.Host.RemoveStaleFiles | src/fujin/_installer.py:260-266 | the `{app}*` files of the system and `wants` directories that are not valid units are deleted; nothing else changes |
| SystemdHost.Host.WriteUnitFiles | src/fujin/_installer.py:273-293 | each unit's service, socket and timer files are written under their installed names, in unit order |
| SystemdHost.Host.DeployCommonDropins | src/fujin/_installer.py:295-312 | each common drop-in is written into every unit's `.d` directory |
| SystemdHost.Host.DeployServiceDropins | src/fujin/_installer.py:314-339 | each `*.service.d` directory is copied into the `.d` directory of its first matching unit; directories without one are skipped |
| SystemdHost.Host.DeployServiceDir | src/fujin/_installer.py:315-339 | one `*.service.d` directory is copied for its matching unit, or skipped |
| SystemdHost.Host.WriteConfs | src/fujin/_installer.py:328-339 | the directory is created and each conf written into it, in listing order |
| SystemdHost.MatchingUnit | src/fujin/_installer.py:318-322 | a match is a unit with that service file; there is none exactly when no unit has it |
| SystemdHost.MatchingUnitIsFirst | src/fujin/_installer.py:319-322 | the match is the first unit in configuration order |
| SystemdHost.FindMatchingUnit | src/fujin/_installer.py:318-322 | the search loop finds the unit `MatchingUnit` specifies |
| SystemdHost.WithUnitsKeys | src/fujin/_installer.py:273-293 | writing the unit files adds exactly the valid names and leaves every other file as it was |
| SystemdHost.UnitFilesInstalled | src/fujin/_installer.py:274-278 | with distinct unit names, each unit's installed service file holds the bundle's content |
| SystemdHost.Converges | src/fujin/_installer.py:243-293 | afterwards the `{app}*` files are exactly the valid units, and every other file is as it was |
| SystemdHost.ConfToUnitsEffect | src/fujin/_installer.py:303-307 | a common drop-in reaches every unit's directory with its content, and other drop-ins are kept |
| SystemdHost.AddConfEffect | src/fujin/_installer.py:304-307 | writing one drop-in sets that file and keeps every other file of every directory |
| SystemdHost.CommonDropinsEverywhere | src/fujin/_installer.py:296-312 | with distinct conf names, every common drop-in ends up, with its content, in every unit's directory |
| SystemdHost.ServiceDropinsTargets | src/fujin/_installer.py:315-328 | a new directory is only ever the `.d` directory of a unit matched by one of the bundle's `*.service.d` directories |
| SystemdHost.Keeps | src/fujin/_installer.py:263-264 | a file survives pruning unless it matches `{app}*` and is not a valid unit |
| SystemdHost.Pruned | src/fujin/_installer.py:260-266 | the system directory after pruning; SystemdHost.Host.RemoveStaleFiles is proved against it |
| SystemdHost.PrunedNames | src/fujin/_installer.py:260-266 | the `wants` directory after pruning; SystemdHost.Host.RemoveStaleFiles is proved against it |
| SystemdHost.MatchesGlob | src/fujin/_installer.py:268 | `glob(prefix + "*" + suffix)` on one name |
| SystemdHost.Read | src/fujin/_installer.py:275-276 | the content of a bundle file |
| SystemdHost.SourcesPresent | src/fujin/_installer.py:274-293 | every file a unit names is in the bundle, as `read_text` needs |
| SystemdHost.WithUnit | src/fujin/_installer.py:275-293 | one unit's service, socket and timer written under their installed names; SystemdHost.UnitFilesInstalled states it |
| SystemdHost.WithUnits | src/fujin/_installer.py:274-293 | every unit's files written; SystemdHost.WithUnitsKeys and SystemdHost.Converges state it, and SystemdHost.Host.WriteUnitFiles is proved against it |
| SystemdHost.DropinDir | src/fujin/_installer.py:304 | a unit's installed drop-in directory, `{template_service_name}.d` |
| SystemdHost.Mkdir | src/fujin/_installer.py:305 | `mkdir(parents=True, exist_ok=True)` keeps an existing directory |
| SystemdHost.AddConf | src/fujin/_installer.py:304-307 | one drop-in written into its directory; SystemdHost.AddConfEffect states it |
| SystemdHost.ConfToUnits | src/fujin/_installer.py:303-307 | one common drop-in written to every unit; SystemdHost.ConfToUnitsEffect states it |
| SystemdHost.WithCommon | src/fujin/_installer.py:296-312 | every common drop-in to every unit; SystemdHost.CommonDropinsEverywhere states it and SystemdHost.Host.DeployCommonDropins is proved against it |
| SystemdHost.ServiceFileOf | src/fujin/_installer.py:316 | the service file a `*.service.d` directory belongs to, its name without `.d` |
| SystemdHost.ConfsInto | src/fujin/_installer.py:335-339 | a directory's drop-ins written in order; SystemdHost.Host.WriteConfs is proved against it |
| SystemdHost.WithServiceDir | src/fujin/_installer.py:315-339 | one `*.service.d` directory copied for its matching unit, skipped without one; SystemdHost.Host.DeployServiceDir is proved against it |
| SystemdHost.WithServiceDropins | src/fujin/_installer.py:314-339 | every service drop-in directory copied; SystemdHost.ServiceDropinsTargets states it and SystemdHost.Host.DeployServiceDropins is proved against it |
| Installer.Stale | src/fujin/_installer.py:249 | the stale units are exactly the installed ones that are not valid |
| Installer.DisableCommandsShape | src/fujin/_installer.py:252-258 | each stale unit is disabled and then reset, in listing order |
| Installer.DisableStale | src/fujin/_installer.py:250-258 | the disable and reset commands are issued, and no file changes |
| Installer.DisableNowUnlessTemplate | src/fujin/_installer.py:253-255 | `--now` is added exactly when the unit is not a template |
| Installer.RemoveDropinDirs | src/fujin/_installer.py:268-270 | every `{app}*.d` directory is removed, and nothing else |
| Installer.FailedMembers | src/fujin/_installer.py:373-380 | a unit is reported failed exactly when it is checked and its answer is not "active" |
| Installer.IsActiveCommands | src/fujin/_installer.py:374-378 | one `is-active` query per checked unit |
| Installer.CheckHealth | src/fujin/_installer.py:373-380 | the loop reports the units `Failed` specifies and issues one query per checked unit |
| Installer.ReportFailures | src/fujin/_installer.py:384-408 | each failed unit gets `systemd-analyze verify` when its file exists, then its journal |
| Installer.ConfigureCaddy | src/fujin/_installer.py:415-465 | the Caddy configuration after the reload is `CaddyAfterReload` of the old one |
| Installer.Install | src/fujin/_installer.py:230-409 | the system directory converges on the valid units; `wants` and the drop-ins are synchronised; Caddy changes only after a successful install; the outcome is `InstallOutcome` |
| Installer.Restart | src/fujin/_installer.py:341-465 | enabling, restarting, checking and Caddy issue the commands `RestartCommands` lists and change only Caddy |
| Installer.EnableUnits | src/fujin/_installer.py:342-354 | one `daemon-reload && enable` command names every runtime unit |
| Installer.RestartAndCheck | src/fujin/_installer.py:356-465 | after a successful enable, the restart, the checks and Caddy give `InstallOutcome` |
| Installer.RestartAndProbe | src/fujin/_installer.py:356-380 | the restart is followed by the checks, and the failed units are those `Failed` specifies |
| Installer.AfterCheck | src/fujin/_installer.py:382-465 | failed units get diagnostics and exit 3; otherwise Caddy is configured |
| Installer.HealthCheckedMembers | src/fujin/_installer.py:367-372 | exactly the instances of units with neither socket nor timer are checked |
| Installer.HealthCheckedAreActive | src/fujin/_installer.py:342-372 | every checked unit was enabled and restarted |
| Installer.ExitCodes | src/fujin/_installer.py:351-409 | exit 3 exactly when the restart failed or a checked unit is not active; exit 1 exactly when enabling failed; 0 otherwise |
| Installer.CaddyRestored | src/fujin/_installer.py:446-460 | after a failed reload the new configuration stays only if it equals the previous one; the file is deleted exactly when the previous one was missing or empty |
| Installer.StaleDropinDirsGone | src/fujin/_installer.py:268-339 | no `{app}*.d` directory survives unless the bundle put it there for a unit |
| Installer.ActiveNeverTemplate | src/fujin/_installer.py:342-352 | the enable and restart list never names a bare template |
| Installer.Uninstall | src/fujin/_installer.py:472-531 | only listed `{app}*` unit files are removed; Caddy's file goes when the webserver is enabled; the commands are `UninstallCommands` |
| Installer.DisableUnits | src/fujin/_installer.py:493-498 | regular units are disabled with `--now`, templates without it |
| Installer.Cleanup | src/fujin/_installer.py:508-529 | Caddy's configuration is removed when the webserver is enabled, then the app user when it exists |
| Installer.RemoveUnitFiles | src/fujin/_installer.py:501-506 | each listed file is deleted unless its name does not start with the app name |
| Installer.UnitsWhereMembers | src/fujin/_installer.py:479-487 | the template list holds exactly the template units' files, the regular list the others' |
| Installer.UninstallListsCover | src/fujin/_installer.py:489 | the two lists together name exactly the valid units |
| Installer.UninstallSparesOthers | src/fujin/_installer.py:500-506 | uninstalling never removes a file outside `{app}*` and removes every valid unit |
| Installer.ExitCode | src/fujin/_installer.py:24-27 | the exit code of each outcome: 0, the general error 1, or service start failure 3; Installer.ExitCodes states when each occurs |
| Installer.DisableCommands | src/fujin/_installer.py:252-258 | the disable and reset commands for the stale units; Installer.DisableCommandsShape states their order and form |
| Installer.WithoutAppDropins | src/fujin/_installer.py:266-270 | the drop-in directories without those matching `{app}*.d`; Installer.RemoveDropinDirs is proved against it |
| Installer.HealthChecked | src/fujin/_installer.py:365-372 | the instances of units with neither socket nor timer; Installer.HealthCheckedMembers and Installer.HealthCheckedAreActive state them |
| Installer.IsActive | src/fujin/_installer.py:374-380 | a unit counts as running exactly when `is-active` printed `active` |
| Installer.Failed | src/fujin/_installer.py:373-380 | the checked units not active, in order; Installer.FailedMembers states its members and Installer.CheckHealth is proved against it |
| Installer.Diagnostics | src/fujin/_installer.py:384-408 | `systemd-analyze verify` for an existing unit file, then its journal; Installer.ReportFailures is proved against it |
| Installer.CaddyAfterReload | src/fujin/_installer.py:415-460 | the Caddy configuration after the reload; Installer.CaddyRestored states the restore rule |
| Installer.CaddyCommands | src/fujin/_installer.py:419-451 | add caddy to the app group, reload, and read the journal on failure; Installer.ConfigureCaddy is proved against it |
| Installer.InstallOutcome | src/fujin/_installer.py:351-409 | enable failure, start failure with the failed units, or success; Installer.ExitCodes states when each occurs |
| Installer.SyncedDropins | src/fujin/_installer.py:266-339 | the drop-in directories after removal and redeploy; Installer.StaleDropinDirsGone states what survives |
| Installer.CheckedCommands | src/fujin/_installer.py:382-465 | after the check: diagnostics for failures, else the Caddy commands when the webserver is enabled; Installer.AfterCheck is proved against it |
| Installer.ProbeCommands | src/fujin/_installer.py:356-378 | the restart, then one `is-active` per checked unit; Installer.RestartAndProbe is proved against it |
| Installer.AfterEnableCommands | src/fujin/_installer.py:356-465 | the commands after a successful enable; Installer.RestartAndCheck is proved against it |
| Installer.RestartCommands | src/fujin/_installer.py:341-465 | the enable command, then the rest only when it succeeded; Installer.Restart is proved against it |
| Installer.UnitsWhere | src/fujin/_installer.py:479-487 | the installed names of the template or the regular units; Installer.UnitsWhereMembers states its members |
| Installer.DisableUnitsCommands | src/fujin/_installer.py:493-498 | `disable --now` for regular units and plain `disable` for templates, each only when non-empty; Installer.DisableUnits is proved against it |
| Installer.CleanupCommands | src/fujin/_installer.py:508-529 | the Caddy reload and group removal, then the user's process kills and deletion when the user exists; Installer.Cleanup is proved against it |
| Installer.UninstallCommands | src/fujin/_installer.py:489-529 | every command `uninstall` runs, in order; Installer.Uninstall is proved against it |
| Installer.Uninstalled | src/fujin/_installer.py:500-506 | the unit directory after removing listed files named after the app; Installer.UninstallSparesOthers states what stays |
| LegacyInstaller.InstalledUnits | src/fujin/_installer/__main__.py:176 | blank output gives no unit, and only blank output does; no unit name holds a line break |
| LegacyInstaller.DisableCommandsShape | src/fujin/_installer/__main__.py:179-190 | each stale unit gets its stop-or-disable command and then its reset, in listing order |
| LegacyInstaller.DisableStale | src/fujin/_installer/__main__.py:178-190 | the stale units' commands are issued and no file changes |
| LegacyInstaller.DisableOne | src/fujin/_installer/__main__.py:180-190 | one stale unit gets its stop-or-disable command and its reset |
| LegacyInstaller.StopsUnlessTemplate | src/fujin/_installer/__main__.py:181-189 | a stale unit is stopped exactly when it is not a template |
| LegacyInstaller.CollectExpected | src/fujin/_installer/__main__.py:201-222 | the loop gathers the drop-ins `ExpectedDropins` specifies |
| LegacyInstaller.AddCommon | src/fujin/_installer/__main__.py:209-212 | one more unit adds each common drop-in under its directory |
| LegacyInstaller.AddConfs | src/fujin/_installer/__main__.py:220-221 | a service directory adds each of its confs under the matched unit's directory |
| LegacyInstaller.CleanedDir | src/fujin/_installer/__main__.py:228-232 | a directory keeps every file except the `.conf` files that are not expected, with their contents |
| LegacyInstaller.Cleaned | src/fujin/_installer/__main__.py:224-245 | every `{app}*.d` directory left is non-empty; other directories are untouched; no directory is created |
| LegacyInstaller.CleanDir | src/fujin/_installer/__main__.py:228-232 | the removal loop keeps the files `CleanedDir` specifies |
| LegacyInstaller.CleanStaleDropins | src/fujin/_installer/__main__.py:224-245 | the drop-in directories become `Cleaned` of the old ones, and nothing else changes |
| LegacyInstaller.CleanedByEntries | src/fujin/_installer/__main__.py:225-245 | cleaning directory by directory gives the cleaned map |
| LegacyInstaller.CleanOne | src/fujin/_installer/__main__.py:226-245 | one directory is cleaned and removed when it ends up empty; the others are untouched |
| LegacyInstaller.RmdirAlwaysAttempted | src/fujin/_installer/__main__.py:236-243 | the probe's `not_empty` answer contains `empty`, so removal is attempted on every directory |
| LegacyInstaller.ReportsEmptyExactly | src/fujin/_installer/__main__.py:236-243 | the corrected test accepts exactly the `empty` answer |
| LegacyInstaller.CollectActiveUnits | src/fujin/_installer/__main__.py:326-340 | the enable list is each unit's instances, then its socket and timer, whatever the template branch |
| LegacyInstaller.ReportFailures | src/fujin/_installer/__main__.py:353-374 | after a failed restart every unit is queried, and the journal of each one not active is shown |
| LegacyInstaller.JournalsOfInactive | src/fujin/_installer/__main__.py:355-370 | a unit's journal is shown exactly when it is listed and not active |
| LegacyInstaller.ConfigureCaddy | src/fujin/_installer/__main__.py:376-400 | Caddy fails exactly when a valid Caddyfile could not be installed; the configuration changes only once copied |
| LegacyInstaller.Install | src/fujin/_installer/__main__.py:158-402 | the system directory converges on the valid units; `wants` and the drop-ins are synchronised; the outcome is `InstallOutcome` |
| LegacyInstaller.Restart | src/fujin/_installer/__main__.py:325-402 | enabling, restarting and Caddy issue the commands `RestartCommands` lists and change only Caddy |
| LegacyInstaller.RestartAndConfigure | src/fujin/_installer/__main__.py:348-402 | after a successful enable, the restart and Caddy give `InstallOutcome` |
| LegacyInstaller.AfterRestart | src/fujin/_installer/__main__.py:353-402 | a failed restart is reported and exits 1; otherwise Caddy is configured |
| LegacyInstaller.ExitCodes | src/fujin/_installer/__main__.py:343-402 | exit 1 exactly when enabling, the restart or the Caddy copy fails; 0 otherwise |
| LegacyInstaller.RestartFailureIsGeneralError | src/fujin/_installer/__main__.py:353-374 | a failed restart exits 1, never the start-failure status 3 |
| LegacyInstaller.NamesWhereMembers | src/fujin/_installer/__main__.py:422-433 | the template list holds exactly the names with an `@` suffix, the regular list the others |
| LegacyInstaller.Uninstall | src/fujin/_installer/__main__.py:405-476 | only `{app}*` valid unit files are removed; Caddy's file goes when the webserver is enabled; a failed Caddy reload exits 1 |
| LegacyInstaller.DisableAndRemove | src/fujin/_installer/__main__.py:435-450 | the units are disabled, their files removed, then systemd reloaded |
| LegacyInstaller.DisableUnits | src/fujin/_installer/__main__.py:435-441 | regular units are disabled with `--now`, templates without it |
| LegacyInstaller.RemoveCaddyAndUser | src/fujin/_installer/__main__.py:452-474 | Caddy's configuration is removed when the webserver is enabled, then the app user when it exists |
| LegacyInstaller.AtBeforeExtension | src/fujin/_installer/__main__.py:425-432 | a name with an extension ends in `@` plus that extension exactly when its stem ends in `@` |
| LegacyInstaller.ExtensionsDiffer | src/fujin/_installer/__main__.py:425-432 | a name ending in one unit extension is a template name exactly when `@` precedes that extension |
| LegacyInstaller.FileNameTemplate | src/fujin/_installer/__main__.py:422-433 | every file name of a unit is a template name exactly when the unit is a template |
| LegacyInstaller.SplitsAgree | src/fujin/_installer/__main__.py:422-433 | when no unit name ends in `@`, the split by suffix agrees with the current installer's split by template flag |
| LegacyInstaller.ExitCode | src/fujin/_installer/__main__.py:515-526 | success is 0 and every failure ends the installer with status 1; LegacyInstaller.ExitCodes states when each occurs |
| LegacyInstaller.StopOrDisable | src/fujin/_installer/__main__.py:181-189 | a stale template is only disabled, any other unit stopped and disabled; LegacyInstaller.StopsUnlessTemplate states it |
| LegacyInstaller.DisableCommands | src/fujin/_installer/__main__.py:179-190 | the commands for the stale units in order; LegacyInstaller.DisableCommandsShape states their form |
| LegacyInstaller.DropinKey | src/fujin/_installer/__main__.py:212 | a drop-in is named `{dir}/{file}` |
| LegacyInstaller.CommonNames | src/fujin/_installer/__main__.py:208 | the names of the bundle's common drop-ins |
| LegacyInstaller.ExpectedCommon | src/fujin/_installer/__main__.py:206-212 | every common drop-in in every unit's drop-in directory; LegacyInstaller.AddCommon is proved against it |
| LegacyInstaller.ExpectedService | src/fujin/_installer/__main__.py:214-222 | a service directory's files in the directory of the first unit it matches; LegacyInstaller.AddConfs is proved against it |
| LegacyInstaller.ExpectedDropins | src/fujin/_installer/__main__.py:201-222 | `expected_dropins`; LegacyInstaller.CollectExpected is proved against it |
| LegacyInstaller.CleanedEntry | src/fujin/_installer/__main__.py:225-245 | one directory after cleaning: kept, cleaned, or removed when nothing is left; LegacyInstaller.CleanOne is proved against it |
| LegacyInstaller.Entry | src/fujin/_installer/__main__.py:225-226 | a drop-in directory if present; used by LegacyInstaller.CleanOne |
| LegacyInstaller.EmptyProbeOutput | src/fujin/_installer/__main__.py:236-240 | the probe prints `empty` or `not_empty` |
| LegacyInstaller.SeemsEmpty | src/fujin/_installer/__main__.py:241 | the test as written, `"empty" in stdout`; LegacyInstaller.RmdirAlwaysAttempted states it always holds |
| LegacyInstaller.ReportsEmpty | src/fujin/_installer/__main__.py:241 | the corrected test; LegacyInstaller.ReportsEmptyExactly states it holds exactly for an empty directory |
| LegacyInstaller.ActiveNames | src/fujin/_installer/__main__.py:328-340 | one unit's share of the enable list equals its runtime names, whichever template branch runs |
| LegacyInstaller.Probe | src/fujin/_installer/__main__.py:355-370 | one `is-active` per unit and the journal of each one not active; LegacyInstaller.JournalsOfInactive states it |
| LegacyInstaller.CaddyCommands | src/fujin/_installer/__main__.py:376-400 | the Caddy commands, only with the webserver enabled, the copy only after validation; LegacyInstaller.ConfigureCaddy is proved against it |
| LegacyInstaller.CaddyAfter | src/fujin/_installer/__main__.py:382-395 | the installed Caddy configuration: the bundle's once copied, otherwise unchanged; LegacyInstaller.ConfigureCaddy is proved against it |
| LegacyInstaller.InstallOutcome | src/fujin/_installer/__main__.py:343-402 | enable failure, restart failure, Caddy failure or success; LegacyInstaller.ExitCodes and LegacyInstaller.RestartFailureIsGeneralError state it |
| LegacyInstaller.AfterEnableCommands | src/fujin/_installer/__main__.py:348-400 | the restart, then the report or the Caddy commands; LegacyInstaller.RestartAndConfigure is proved against it |
| LegacyInstaller.AfterRestartCommands | src/fujin/_installer/__main__.py:353-400 | the failure probe after a failed restart, else the Caddy commands; LegacyInstaller.AfterRestart is proved against it |
| LegacyInstaller.RestartCommands | src/fujin/_installer/__main__.py:325-402 | the enable command, then the rest only when it succeeded; LegacyInstaller.Restart is proved against it |
| LegacyInstaller.SyncedDropins | src/fujin/_installer/__main__.py:201-323 | the drop-in directories after cleaning and redeploying; LegacyInstaller.Install is proved against it |
| LegacyInstaller.CaddyAfterInstall | src/fujin/_installer/__main__.py:343-400 | Caddy is touched only after enabling and restarting succeeded; LegacyInstaller.Install is proved against it |
| LegacyInstaller.TemplateName | src/fujin/_installer/__main__.py:425-432 | a name ending in `@.service`, `@.socket` or `@.timer` |
| LegacyInstaller.NamesWhere | src/fujin/_installer/__main__.py:422-433 | the template names or the others, in order; LegacyInstaller.NamesWhereMembers states its members |
| LegacyInstaller.DisableUnitsCommands | src/fujin/_installer/__main__.py:435-441 | `disable --now` for regular units and plain `disable` for templates, each only when non-empty; LegacyInstaller.DisableUnits is proved against it |
| LegacyInstaller.UserCommands | src/fujin/_installer/__main__.py:456-474 | the user check, then the process kills and the deletion when the user exists |
| LegacyInstaller.UninstallCommands | src/fujin/_installer/__main__.py:405-476 | every command `uninstall` runs, in order; LegacyInstaller.Uninstall is proved against it |
| LegacyInstaller.CaddyAndUserCommands | src/fujin/_installer/__main__.py:452-474 | the Caddy removal, then the user commands unless the reload failed; LegacyInstaller.RemoveCaddyAndUser is proved against it |
| Deploy.BuildContext | src/fujin/commands/deploy.py:131-150 | the context loop fills the context `Context` specifies |
| Deploy.UnitKeysDiffer | src/fujin/commands/deploy.py:145-150 | a unit's socket key, timer key and bare name are pairwise different |
| Deploy.UnitKeysShape | src/fujin/commands/deploy.py:141-150 | `{name}_socket` and `{name}_timer` are added exactly when the unit has them; the bare name exactly for a single standalone service |
| Deploy.AddUnitBinds | src/fujin/commands/deploy.py:144-150 | one unit adds exactly its own keys, bound to its installed unit names, and keeps every other key |
| Deploy.ContextKeys | src/fujin/commands/deploy.py:131-150 | the context holds the six fixed keys and exactly the keys the units expose |
| Deploy.LastUnitBinds | src/fujin/commands/deploy.py:144-150 | the last unit's entries are the ones that stay in the context |
| Deploy.UnresolvedWarning | src/fujin/commands/deploy.py:261-266 | a warning is shown exactly when some placeholder stayed unresolved |
| Deploy.UploadChoice | src/fujin/commands/deploy.py:308-350 | with the upload calls corrected (see Findings): when no `mkdir` or `cp` fails, the bundle reaches its final path exactly once, by rsync and copy or by plain upload (a failed rsync falls back to it); rsync is tried exactly when the bundle is large enough and the host has it; after a failed command nothing is uploaded plainly |
| Deploy.UploadFails | src/fujin/commands/deploy.py:314-338 | the plain `mkdir` of a small bundle and the `cp` after a successful rsync run without `warn`: a non-zero status ends the upload with the connection's exit carrying it, that command being the last action; the probe of a large bundle and a failed rsync never end it |
| Deploy.UploadBundle | src/fujin/commands/deploy.py:312-350 | with the upload calls corrected, the upload raises the exit `UploadExit` gives and issues the actions `UploadActions` lists |
| Deploy.AsWrittenStopsAtUpload | src/fujin/commands/deploy.py:312-350 | as written, every deployment past the checks and the prompt runs only the `mkdir` and raises: the `mkdir`'s exit on a failed small-bundle `mkdir` (as the corrected one does), AttributeError on `rsync_upload` when rsync is tried, TypeError on `put`'s `verify` otherwise; the corrected one, once its upload goes through, runs the installer |
| Deploy.Deploy | src/fujin/commands/deploy.py:65-425 | with the import cycle broken and the requirements hash, the bundling, the upload calls, the install step and the failure handler corrected (see Findings), the outcome and the host actions are those `Deployment` specifies, a failed `mkdir` or `cp` included |
| Deploy.Install | src/fujin/commands/deploy.py:355-425 | with `verbose`, the failure handler and the rollback construction corrected (see Findings), the installer run, the failure branches, pruning and the audit record are those `Finish` specifies |
| Deploy.AsWrittenNeverInstalls | src/fujin/commands/deploy.py:355-363 | with the import cycle broken and the requirements hash, the bundling and the upload calls corrected, as written every deployment past the checks whose upload goes through fails with AttributeError right after the upload, where the corrected one runs the installer; a failed `mkdir` or `cp` stops both alike; nothing is installed, rolled back or recorded |
| Deploy.UploadOnlyCopies | src/fujin/commands/deploy.py:312-350 | the upload runs only its `mkdir` and `cp` commands, and never rolls back or records |
| Deploy.FinishStartsWithInstall | src/fujin/commands/deploy.py:355-363 | the step after the upload starts by running the installer |
| Deploy.RollbackNeverConstructed | src/fujin/commands/deploy.py:364-397 | as written, exit code 3 with rollback allowed fails with TypeError, with neither rollback nor removal of the failed bundle, which the corrected handling always removes; on other exit codes the two agree |
| Deploy.FailsBeforeUpload | src/fujin/commands/deploy.py:78-124 | a failed build, a missing requirements file or an empty unit list stop before the host is contacted |
| Deploy.OtherExitCodesFail | src/fujin/commands/deploy.py:364-368 | an installer failure other than code 3 is reported as is: no rollback, no removal, no pruning |
| Deploy.FailedBundleRemoved | src/fujin/commands/deploy.py:370-397 | on code 3 with rollback allowed the failed bundle is removed whatever the answer, and the rollback runs exactly on consent or with `--no-input` |
| Deploy.PruneOnlyWithoutRollback | src/fujin/commands/deploy.py:399-406 | old versions are pruned exactly when pruning is configured and the deployment went on without a rollback |
| Deploy.NoUrlAfterRollback | src/fujin/commands/deploy.py:384-425 | a deployment that rolled back reports no success and shows no URL |
| Deploy.Deployment | src/fujin/commands/deploy.py:65-476 | the corrected command contacts the host exactly when the build, requirements and unit checks and the confirmation prompt let it through; a stop before that is an error; a failed `mkdir` or `cp` ends it with the connection's exit before the installer |
| Deploy.UnpackPair | src/fujin/commands/deploy.py:165 | as written only a two-character text unpacks into two names, and they give the text back; every other length raises ValueError |
| Deploy.BundlingNeedsPairs | src/fujin/commands/deploy.py:161-259 | as written the bundling gets through exactly when every rendered file is two characters long; otherwise the first one that is not raises its ValueError |
| Deploy.AsWrittenStopsAtBundling | src/fujin/commands/deploy.py:161-166 | as written, past the checks and without a requirements file, an environment file that does not render to two characters ends the deployment with ValueError and no host action, where the corrected command contacts the host |
| Deploy.UnpackExamples | src/fujin/commands/deploy.py:165 | an empty environment file raises "not enough values to unpack (expected 2, got 0)" and `DEBUG=1` with a newline raises "too many values to unpack (expected 2)" |
| Deploy.DigestAsWritten | src/fujin/commands/deploy.py:92-99 | as written the hash of the requirements file raises ValueError exactly when a requirements file is set and present |
| Deploy.AsWrittenStopsAtDigest | src/fujin/commands/deploy.py:92-99 | as written, after a successful build with a requirements file present, the deployment ends with ValueError and no host action, where the corrected command goes on to the unit check and the prompt and contacts the host when they let it through |
| Deploy.RequirementsOnlyChecked | src/fujin/commands/deploy.py:92-112 | in the corrected command a present requirements file changes nothing before the upload, and a missing one is exactly the "Requirements file not found" error |
| Deploy.CatchMissesExit | src/fujin/commands/deploy.py:355-397 | as written, a failed installer ends the deployment with the connection's exit "Command failed with exit code N" after only the install command, where the corrected handling reports codes other than 3 as deployment errors and on code 3 with rollback allowed removes the failed bundle; on exit 0 the two agree |
| Deploy.BaseContext | src/fujin/commands/deploy.py:131-138 | the six fixed context entries; Deploy.ContextKeys states they are always present |
| Deploy.SocketKey | src/fujin/commands/deploy.py:146 | `{name}_socket`; Deploy.UnitKeysDiffer states it differs from the other keys |
| Deploy.TimerKey | src/fujin/commands/deploy.py:148 | `{name}_timer`; Deploy.UnitKeysDiffer states it differs from the other keys |
| Deploy.ExposesService | src/fujin/commands/deploy.py:149 | only a single standalone service is exposed under its bare name; stated by Deploy.UnitKeysShape |
| Deploy.UnitKeys | src/fujin/commands/deploy.py:145-150 | the keys one unit adds; Deploy.UnitKeysShape states when each is present |
| Deploy.AddUnit | src/fujin/commands/deploy.py:145-150 | one iteration of the unit loop; Deploy.AddUnitBinds states what it binds and keeps |
| Deploy.UnitsContext | src/fujin/commands/deploy.py:144-150 | the unit loop over all units; Deploy.ContextKeys and Deploy.LastUnitBinds state its keys and values |
| Deploy.Context | src/fujin/commands/deploy.py:131-150 | the whole template context; Deploy.BuildContext is proved against it |
| Deploy.BundleDir | src/fujin/commands/deploy.py:299 | `{install_dir}/.versions`, where bundles are kept |
| Deploy.BundlePath | src/fujin/commands/deploy.py:300-302 | `{install_dir}/.versions/{app}-{version}.pyz` |
| Deploy.StagingPath | src/fujin/commands/deploy.py:329 | the rsync staging file in the bundle directory |
| Deploy.QuotedPaths | src/fujin/commands/deploy.py:304-306 | the shell-quoted directory, staging and bundle paths the remote commands use |
| Deploy.InstallCommand | src/fujin/commands/deploy.py:358-362 | the installer command with `--full-restart` and `--verbose` when set; Deploy.FinishStartsWithInstall states it runs first |
| Deploy.PruneCommand | src/fujin/commands/deploy.py:402-405 | keeps the newest `versions_to_keep` bundles; Deploy.PruneOnlyWithoutRollback states when it runs |
| Deploy.TriesRsync | src/fujin/commands/deploy.py:315-321 | rsync is tried exactly when the bundle is large enough and the probe printed something; stated by Deploy.UploadChoice |
| Deploy.UploadActions | src/fujin/commands/deploy.py:312-350 | the upload's host actions, up to a command that fails; Deploy.UploadChoice, Deploy.UploadFails and Deploy.UploadOnlyCopies state them |
| Deploy.UploadCases | src/fujin/commands/deploy.py:312-350 | the four shapes the upload takes: plain, stopped at the `mkdir`, rsync and copy, rsync then plain |
| Deploy.Mkdir | src/fujin/commands/deploy.py:314-323 | the first command: the `mkdir`, with the rsync probe for a large bundle |
| Deploy.CopyCommand | src/fujin/commands/deploy.py:335-338 | the copy from the staging path to the bundle's path |
| Deploy.Raised | src/fujin/connection.py:133-139 | the exit a command run without `warn` raises; stated by Deploy.UploadFails |
| Deploy.UploadExit | src/fujin/commands/deploy.py:314-345 | the exit that ends the upload; stated by Deploy.UploadFails |
| Deploy.InstallFailed | src/fujin/commands/deploy.py:366-368 | the "Installation failed with exit code N" message; used by Deploy.OtherExitCodesFail |
| Deploy.AfterInstall | src/fujin/commands/deploy.py:364-397 | the corrected failure handler; Deploy.OtherExitCodesFail and Deploy.FailedBundleRemoved state its branches |
| Deploy.Finish | src/fujin/commands/deploy.py:355-425 | everything after the upload, corrected; Deploy.Install is proved against it and Deploy.PruneOnlyWithoutRollback and Deploy.NoUrlAfterRollback state it |
| Deploy.Prepare | src/fujin/commands/deploy.py:78-124 | the build, requirements and unit checks, then the confirmation prompt of deploy.py:468-476 (reached through line 297); Deploy.FailsBeforeUpload and Deploy.Deployment state it |
| Deploy.BundlingAsWritten | src/fujin/commands/deploy.py:161-259 | the bundling loop as written; Deploy.BundlingNeedsPairs states when it gets through |
| Deploy.DeployAsWritten | src/fujin/commands/deploy.py:65-476 | the whole command as written; Deploy.AsWrittenStopsAtDigest, Deploy.AsWrittenStopsAtBundling and Deploy.AsWrittenStopsAtUpload state where it stops |
| Deploy.DeploymentAsWritten | src/fujin/commands/deploy.py:295-350 | past the bundling, as written: the checks and the prompt, then the upload, which raises; stated by Deploy.AsWrittenStopsAtUpload |
| Deploy.UploadAsWritten | src/fujin/commands/deploy.py:312-350 | the upload as written: the `mkdir`, then `rsync_upload` or `put(..., verify=True)`, which raise; stated by Deploy.AsWrittenStopsAtUpload |
| Deploy.InstallStepAsWritten | src/fujin/commands/deploy.py:355-362 | with the upload calls corrected, the install command's `self.verbose` raises after the upload; stated by Deploy.AsWrittenNeverInstalls |
| Deploy.AfterInstallAsWritten | src/fujin/commands/deploy.py:364-397 | the failure handler as written; Deploy.RollbackNeverConstructed compares it with the corrected one |
| Deploy.CommandFailed | src/fujin/connection.py:133-137 | the exit a failed command raises; used by Deploy.CatchMissesExit |
| Deploy.FinishCaughtAsWritten | src/fujin/commands/deploy.py:355-397 | the step after the upload with the handler catching `CommandError` as written; Deploy.CatchMissesExit compares it with the corrected one |
| Rollback.BundleLong | src/fujin/commands/rollback.py:25-29 | a bundle name is long enough for its prefix and suffix not to overlap |
| Rollback.VersionRoundTrip | src/fujin/commands/rollback.py:25-29 | every version's bundle name is a bundle name and gives that version back |
| Rollback.BundleNameOf | src/fujin/commands/rollback.py:25-29 | a bundle name is the bundle name of the version cut out of it |
| Rollback.VersionsMembers | src/fujin/commands/rollback.py:27-30 | a version is offered exactly when its bundle is listed |
| Rollback.VersionsCount | src/fujin/commands/rollback.py:27-30 | there are never more versions than listed names, and as many when every name is a bundle |
| Rollback.ExtractVersions | src/fujin/commands/rollback.py:23-30 | the filter loop gives the versions `Versions` specifies, in listing order |
| Rollback.ChosenIsOffered | src/fujin/commands/rollback.py:36-41 | the accepted answer is one of the versions, and an empty answer takes the newest |
| Rollback.RunAllSucceeds | src/fujin/commands/rollback.py:75-105 | with every command succeeding, each runs once, in order |
| Rollback.RunAllOutcome | src/fujin/commands/rollback.py:75-105 | the commands end normally exactly when each exits with 0; otherwise with a non-zero status |
| Rollback.Execute | src/fujin/commands/rollback.py:14-108 | the command's steps and its ending are those `Steps` specifies |
| Rollback.SwitchVersion | src/fujin/commands/rollback.py:62-108 | the uninstall and install steps are those `Switch` specifies |
| Rollback.NoTargetsOnlyLists | src/fujin/commands/rollback.py:16-34 | without a version to offer, the listing is the only command and nothing is asked |
| Rollback.InterruptExitsZero | src/fujin/commands/rollback.py:42-43 | interrupting the prompt ends with code 0 and runs nothing more |
| Rollback.NoChangeWithoutSwitch | src/fujin/commands/rollback.py:45-60 | choosing the current version, or declining, only reads the host |
| Rollback.PromptLeadsOn | src/fujin/commands/rollback.py:36-45 | every answer continues with the version it chose |
| Rollback.ChosenFromListing | src/fujin/commands/rollback.py:23-41 | the chosen version's bundle is always in the listing |
| Rollback.UnpacksOnlyExisting | src/fujin/commands/rollback.py:69-91 | the old bundle is unpacked exactly when the existence test found it |
| Rollback.UninstallBeforeInstall | src/fujin/commands/rollback.py:62-105 | the current version's steps come before the install, which runs only when removing it raised nothing |
| Rollback.NoCurrentInstallsOnly | src/fujin/commands/rollback.py:63-105 | without a current version nothing is uninstalled |
| Rollback.AsWrittenNeverSwitches | src/fujin/commands/rollback.py:14-108 | as written nothing is uninstalled or installed: the command lists bundles and reads the current version at most, and ends without AttributeError only when the prompt is interrupted or the switch declined |
| Rollback.AsWrittenStopsAtFirstMessage | src/fujin/commands/rollback.py:14-108 | the script as written is the corrected one cut right before its first message; where that shows nothing, the two end alike |
| Rollback.SwitchShowsFirst | src/fujin/commands/rollback.py:62-94 | uninstalling or installing a version always starts with a message |
| Rollback.UninstallShowsFirst | src/fujin/commands/rollback.py:62-66 | the uninstall starts with its message |
| Rollback.InstallShowsFirst | src/fujin/commands/rollback.py:93-94 | the install starts with its message |
| Rollback.CompletedRollback | src/fujin/commands/rollback.py:105-108 | a completed switch ends with the success message for the chosen version |
| Rollback.Steps | src/fujin/commands/rollback.py:14-30 | the bundle listing is always the command's first step |
| Rollback.BundlePrefix | src/fujin/commands/rollback.py:25 | `{app}-` |
| Rollback.IsBundle | src/fujin/commands/rollback.py:28 | a name starting with `{app}-` and ending with `.tar.gz`; Rollback.BundleLong states it is long enough for both |
| Rollback.VersionOf | src/fujin/commands/rollback.py:29 | the version cut out of a bundle name; Rollback.VersionRoundTrip and Rollback.BundleNameOf state it inverts Rollback.BundleName |
| Rollback.BundleName | src/fujin/commands/rollback.py:67 | `{app}-{version}.tar.gz`; Rollback.VersionRoundTrip states it inverts Rollback.VersionOf |
| Rollback.Versions | src/fujin/commands/rollback.py:23-30 | the versions of the listed bundles in order; Rollback.VersionsMembers and Rollback.VersionsCount state it |
| Rollback.Chosen | src/fujin/commands/rollback.py:36-41 | the prompt's answer, the newest version when empty; Rollback.ChosenIsOffered states it is offered |
| Rollback.Answerable | src/fujin/commands/rollback.py:37-41 | the prompt asks again until the answer is empty or a choice |
| Rollback.ListCommand | src/fujin/commands/rollback.py:17 | `ls -1t {app_dir}/.versions`; Rollback.Steps states it runs first |
| Rollback.CurrentCommand | src/fujin/commands/rollback.py:46 | `cat {app_dir}/.current_version` |
| Rollback.BundlePath | src/fujin/commands/rollback.py:67 | the bundle of a version under `{app_dir}/.versions` |
| Rollback.UninstallDir | src/fujin/commands/rollback.py:74 | `/tmp/uninstall-{version}` |
| Rollback.ExtractDir | src/fujin/commands/rollback.py:96 | `/tmp/{app}-{version}` |
| Rollback.InstallCommand | src/fujin/commands/rollback.py:98-104 | unpack the bundle, run `install.sh`, remove the directory |
| Rollback.Offered | src/fujin/commands/rollback.py:16-30 | the versions offered from the listing; Rollback.ChosenFromListing states the choice comes from it |
| Rollback.PromptAnswerable | src/fujin/commands/rollback.py:36-41 | the prompt's answer is one it accepts |
| Rollback.Must | src/fujin/connection.py:133-137 | a command run without `warn` ends the command with its non-zero status |
| Rollback.RunAll | src/fujin/commands/rollback.py:75-105 | commands run without `warn` up to the first failure; Rollback.RunAllSucceeds and Rollback.RunAllOutcome state it |
| Rollback.Uninstall | src/fujin/commands/rollback.py:62-91 | removing the current version; Rollback.UnpacksOnlyExisting and Rollback.UninstallShowsFirst state it |
| Rollback.Install | src/fujin/commands/rollback.py:93-108 | installing the chosen version; Rollback.InstallShowsFirst and Rollback.CompletedRollback state it |
| Rollback.Switch | src/fujin/commands/rollback.py:62-108 | uninstall, if there is a current version, then install; Rollback.UninstallBeforeInstall and Rollback.NoCurrentInstallsOnly state it, and Rollback.SwitchVersion is proved against it |
| Rollback.AfterPrompt | src/fujin/commands/rollback.py:45-108 | compare with the current version, confirm, then switch; Rollback.NoChangeWithoutSwitch states it |
| Rollback.StepsAsWritten | src/fujin/commands/rollback.py:14-108 | the command as written, ending at the first `self.stdout`; Rollback.AsWrittenNeverSwitches and Rollback.AsWrittenStopsAtFirstMessage state it |
| Connection.CdNested | src/fujin/connection.py:31-38 | nested relative `cd`s land where one `cd` to the joined path would |
| Connection.CdAbsolute | src/fujin/connection.py:33-34 | an absolute path replaces the working directory wherever the connection was |
| Connection.RemotePathIsCd | src/fujin/connection.py:167-169 | `put` resolves a remote path exactly as `cd` resolves a directory |
| Connection.FullCommandShape | src/fujin/connection.py:55-64 | the PATH export comes first and the command last; `cd` sits between them exactly when a directory is set |
| Connection.ExitPolicy | src/fujin/connection.py:133-139 | a non-zero status raises with that status unless `warn`; otherwise the flag says whether the status was 0 |
| Connection.WaitDirections | src/fujin/connection.py:141-151 | a zero direction skips the wait; inbound selects for reading, outbound for writing, both for both |
| Connection.UpToEof | src/fujin/connection.py:88-125 | the rounds performed are a prefix of those available |
| Connection.UpToEofAt | src/fujin/connection.py:119-125 | the loop stops at the first round that saw end of file |
| Connection.UpToEofNone | src/fujin/connection.py:119-125 | without end of file every available round is performed |
| Connection.StopsAtEof | src/fujin/connection.py:124-125 | rounds after the first end of file are never performed |
| Connection.SameOut | src/fujin/connection.py:89-106 | two rounds with the same stdout read leave the same stdout buffer and the same writes |
| Connection.StderrNeverReturned | src/fujin/connection.py:108-139 | what stderr delivers changes neither the returned output nor what is written to the channel |
| Connection.SentIsPassword | src/fujin/connection.py:67-106 | everything written to the channel is the password and a newline, and nothing without a password |
| Connection.NoPromptNoResponse | src/fujin/connection.py:100-106 | a chunk without a sudo prompt is never answered |
| Connection.OutputAppends | src/fujin/connection.py:98-139 | the output is the stdout chunks joined in reading order |
| Connection.PermissionBits | src/fujin/connection.py:173 | only the permission bits of the mode are sent |
| Connection.AuthOrder | src/fujin/connection.py:208-217 | exactly one method is tried: the key file, else the password, else the agent |
| Connection.OpenSucceeds | src/fujin/connection.py:188-224 | a connection opens exactly when connecting, the handshake and authentication succeed; an authentication failure is a `cappa.Exit` |
| Connection.Ssh2Connection.Cd | src/fujin/connection.py:31-42 | the directory becomes the `cd` target and the previous one is returned for restoring |
| Connection.Ssh2Connection.Restore | src/fujin/connection.py:41-42 | the previous directory is put back |
| Connection.Ssh2Connection.RunIn | src/fujin/connection.py:31-139 | a command run inside `cd` executes in the target directory, and the directory is restored afterwards |
| Connection.Ssh2Connection.Run | src/fujin/connection.py:44-139 | the executed line, the output, the writes and the waits are those of the rounds up to end of file, with the exit policy applied |
| Connection.Ssh2Connection.Poll | src/fujin/connection.py:88-125 | the loop's buffers are those of the rounds up to and including the first end of file |
| Connection.Ssh2Connection.Step | src/fujin/connection.py:89-117 | one round updates the buffers as `AfterRound` specifies |
| Connection.Ssh2Connection.Put | src/fujin/connection.py:153-177 | a missing path or a non-file is refused with its message; otherwise the upload goes to the resolved path with the permission bits and size |
| Connection.CdTarget | src/fujin/connection.py:33-38 | the directory `cd` switches to; Connection.CdNested and Connection.CdAbsolute state how it composes |
| Connection.RemotePath | src/fujin/connection.py:167-169 | where `put` sends a file; Connection.RemotePathIsCd states that it resolves like `cd` |
| Connection.PathExport | src/fujin/connection.py:61-63 | the PATH export with the user's cargo and local bin directories; stated by Connection.FullCommandShape |
| Connection.CwdPrefix | src/fujin/connection.py:55-58 | `cd {cwd} && ` when a directory is set, else nothing; stated by Connection.FullCommandShape |
| Connection.FullCommand | src/fujin/connection.py:55-64 | the line `run` executes; Connection.FullCommandShape states its parts and their order |
| Connection.FailedMessage | src/fujin/connection.py:135-137 | the text of the exit a failed command raises; used by Connection.ExitPolicy |
| Connection.Completed | src/fujin/connection.py:133-139 | `run`'s outcome once the channel closed; Connection.ExitPolicy states the exit policy |
| Connection.WaitFor | src/fujin/connection.py:141-151 | the wait on the socket for a block direction; Connection.WaitDirections states each case |
| Connection.Prompts | src/fujin/connection.py:70-73 | the two sudo prompts the watchers search for; used by Connection.SentIsPassword |
| Connection.Responses | src/fujin/connection.py:100-106 | what one stdout chunk makes `run` write back; Connection.SentIsPassword and Connection.NoPromptNoResponse state it |
| Connection.AfterOut | src/fujin/connection.py:89-106 | one stdout read: a wait, a chunk with its responses, or nothing; stated by Connection.SameOut |
| Connection.AfterErr | src/fujin/connection.py:108-117 | one stderr read: a wait, a chunk, or nothing; Connection.StderrNeverReturned states it never reaches the output |
| Connection.AfterRound | src/fujin/connection.py:89-117 | one loop round, stdout then stderr; Connection.Ssh2Connection.Step is proved against it |
| Connection.PollAll | src/fujin/connection.py:88-125 | the buffers after a sequence of rounds; Connection.OutputAppends and Connection.Ssh2Connection.Poll are proved against it |
| Connection.Output | src/fujin/connection.py:139 | the joined stdout buffer; Connection.OutputAppends states it is the chunks in reading order |
| Connection.AuthMethod | src/fujin/connection.py:207-217 | the authentication method; Connection.AuthOrder states the precedence |
| Connection.IpText | src/fujin/connection.py:194 | the ip as the connect error prints it, `None` when absent |
| Connection.Address | src/fujin/connection.py:192 | the socket connects to the ip, else to the domain name |
| Connection.Open | src/fujin/connection.py:188-226 | `connection(host)` step by step; Connection.OpenSucceeds states when it opens and which errors are exits |
| Connection.Ssh2Connection.constructor | src/fujin/connection.py:24-28 | a new connection has the host and no working directory |
| LibsshConnection.EscapeDq | src/fujin/libssh_connection.py:86 | the corrected escaping never shortens a value |
| LibsshConnection.AsWrittenEscapesQuotes | src/fujin/libssh_connection.py:86 | on a value without a backslash the escaping as written equals the corrected one |
| LibsshConnection.EscapeDqRoundTrip | src/fujin/libssh_connection.py:86-87 | a value without `$` or a backquote, escaped and closed, reads back in double quotes as itself followed by the rest |
| LibsshConnection.AsWrittenRoundTrip | src/fujin/libssh_connection.py:86-87 | values without backslashes survive the escaping as written |
| LibsshConnection.AsWrittenTrailingBackslash | src/fujin/libssh_connection.py:86-87 | `a\` escaped as written never closes its quotes; escaped correctly it reads back |
| LibsshConnection.WithPathValue | src/fujin/libssh_connection.py:69-79 | PATH is the user's directories before the old value, or before `$PATH` |
| LibsshConnection.WithPathKeeps | src/fujin/libssh_connection.py:69-79 | every other variable keeps its value, and PATH is added last when it was missing |
| LibsshConnection.EnvPairAgrees | src/fujin/libssh_connection.py:84-87 | on a value without a backslash the pair as written equals the corrected pair |
| LibsshConnection.EnvPairs | src/fujin/libssh_connection.py:84-87 | one `K="v"` pair per variable, in order, with the corrected escaping |
| LibsshConnection.EnvPairReads | src/fujin/libssh_connection.py:84-96 | with the corrected escaping, after `K="` the shell reads back exactly the value and stops at the next word |
| LibsshConnection.BeforeEof | src/fujin/libssh_connection.py:121 | the loop body runs for the rounds before the first end of file, and only those |
| LibsshConnection.ResponsesAgree | src/fujin/libssh_connection.py:99-133 | the watchers answer the same chunks as those of the other transport |
| LibsshConnection.CollectStdout | src/fujin/libssh_connection.py:123-129 | the stdout buffer holds the non-empty reads, in order |
| LibsshConnection.FinishPolicy | src/fujin/libssh_connection.py:153-164 | the exit policy is the other transport's, and the result keeps the status and both streams |
| LibsshConnection.OpenMatches | src/fujin/libssh_connection.py:229-255 | the same steps, messages and method as the other transport, except that every failure is a plain exception and there is no final authenticated check |
| LibsshConnection.EnvDict.constructor | src/fujin/libssh_connection.py:52 | the caller's dictionary holds the given variables |
| LibsshConnection.LibsshConnection.Cd | src/fujin/libssh_connection.py:35-47 | the directory becomes the `cd` target, and the previous one is returned |
| LibsshConnection.LibsshConnection.Restore | src/fujin/libssh_connection.py:46-47 | the previous directory is put back |
| LibsshConnection.LibsshConnection.Run | src/fujin/libssh_connection.py:49-164 | a non-empty caller dictionary is rewritten in place with the new PATH, an empty one is left alone; the executed line (with the corrected escaping), the result and the writes follow the rounds before end of file |
| LibsshConnection.LibsshConnection.Poll | src/fujin/libssh_connection.py:116-145 | the loop's buffers are those of the rounds before end of file |
| LibsshConnection.LibsshConnection.Put | src/fujin/libssh_connection.py:166-187 | only a missing path fails (a non-file is not refused); a regular file goes to the resolved path with its permission bits and size |
| LibsshConnection.DqEscapable | src/fujin/libssh_connection.py:83-87 | the characters a backslash escapes inside the double quotes the pairs use |
| LibsshConnection.DqRead | src/fujin/libssh_connection.py:83-87 | how the shell reads a double-quoted value back; LibsshConnection.EscapeDqRoundTrip and LibsshConnection.AsWrittenTrailingBackslash state what it recovers |
| LibsshConnection.EscapeQuotesAsWritten | src/fujin/libssh_connection.py:86 | `v.replace('"', '\\"')`; LibsshConnection.AsWrittenEscapesQuotes compares it with the corrected escaping |
| LibsshConnection.ExtraPaths | src/fujin/libssh_connection.py:70-74 | the user's cargo and local bin directories; stated by LibsshConnection.WithPathValue |
| LibsshConnection.WithPath | src/fujin/libssh_connection.py:76-79 | the environment after the PATH rewrite; LibsshConnection.WithPathValue and LibsshConnection.WithPathKeeps state it |
| LibsshConnection.NewPath | src/fujin/libssh_connection.py:76-79 | the rewritten PATH value; stated by LibsshConnection.WithPathValue |
| LibsshConnection.EnvPair | src/fujin/libssh_connection.py:86-87 | `K="v"` with the corrected escaping; LibsshConnection.EnvPairReads states the shell reads the value back |
| LibsshConnection.EnvPairAsWritten | src/fujin/libssh_connection.py:86-87 | the pair as written; LibsshConnection.EnvPairAgrees states when it is the corrected one |
| LibsshConnection.EnvPrefix | src/fujin/libssh_connection.py:89 | the pairs space-joined with a trailing space |
| LibsshConnection.FullCommand | src/fujin/libssh_connection.py:91-96 | the `cd` prefix, then the environment, then the command; LibsshConnection.LibsshConnection.Run executes it |
| LibsshConnection.Responses | src/fujin/libssh_connection.py:99-133 | the watcher responses to one chunk; LibsshConnection.ResponsesAgree states they are the other transport's |
| LibsshConnection.AfterRound | src/fujin/libssh_connection.py:122-142 | one loop pass: a non-empty stdout chunk with its responses, then a non-empty stderr chunk |
| LibsshConnection.Collect | src/fujin/libssh_connection.py:116-145 | the buffers after a sequence of passes; LibsshConnection.CollectStdout and LibsshConnection.LibsshConnection.Poll are proved against it |
| LibsshConnection.Outs | src/fujin/libssh_connection.py:123-129 | the stdout text of every pass in order; used by LibsshConnection.CollectStdout |
| LibsshConnection.Finish | src/fujin/libssh_connection.py:153-164 | the result once the loop ended; LibsshConnection.FinishPolicy states the exit policy and the fields |
| LibsshConnection.Open | src/fujin/libssh_connection.py:229-255 | `host_connection` step by step; LibsshConnection.OpenMatches compares it with the other transport |
| LibsshConnection.LibsshConnection.constructor | src/fujin/libssh_connection.py:29-32 | a new connection has the host and no working directory |
| Migrate.Rename | src/fujin/commands/migrate.py:150 | `t[to] = t.pop(from)` keeps the keys distinct |
| Migrate.RenameEffect | src/fujin/commands/migrate.py:150 | after the rename, `to` holds the old value of `from`, `from` is gone and every other key is unchanged |
| Migrate.AddressStepEffect | src/fujin/commands/migrate.py:149-152 | `ip` wins over `domain_name` as the new `address`; `domain_name` stays when `ip` was used; with neither, `address` is untouched; no other key changes |
| Migrate.PortStepEffect | src/fujin/commands/migrate.py:155-156 | `ssh_port` becomes `port` and disappears; without it `port` is untouched; no other key changes |
| Migrate.MigrateHostAddress | src/fujin/commands/migrate.py:147-156 | the whole host step leaves no `ip` and takes `address` from `ip`, else `domain_name`, else keeps it |
| Migrate.MigrateHostPort | src/fujin/commands/migrate.py:147-156 | the whole host step leaves no `ssh_port`, takes `port` from it when present, and changes no key other than the five renamed ones |
| Migrate.MigrateHostCurrent | src/fujin/commands/migrate.py:147-156 | a host table without old field names is left exactly as it is |
| Migrate.MigratedHosts | src/fujin/commands/migrate.py:147-156 | the host list keeps its length, and host tables stay tables |
| Migrate.MigrateHosts | src/fujin/commands/migrate.py:147-156 | the loop over the host tables gives each one migrated, in order |
| Migrate.MigrateHostTable | src/fujin/commands/migrate.py:149-156 | the loop body on one host table is the host step |
| Migrate.MigratedProcesses | src/fujin/commands/migrate.py:159-170 | the processes keep their names and their order |
| Migrate.StringProcess | src/fujin/commands/migrate.py:161-166 | a bare command becomes `{command}`, plus `listen` only for `web` with a truthy upstream |
| Migrate.TableWebProcess | src/fujin/commands/migrate.py:167-170 | a `web` table gets the upstream as `listen` only when it has none; an existing `listen` is kept |
| Migrate.OtherProcess | src/fujin/commands/migrate.py:160-170 | other tables and other value kinds are left as they are |
| Migrate.MigrateProcesses | src/fujin/commands/migrate.py:159-170 | the in-place loop over the processes yields the migrated processes |
| Migrate.StaticRoutesPaths | src/fujin/commands/migrate.py:184-188 | a route exists for a path exactly when it is a static path |
| Migrate.StaticRoutesServe | src/fujin/commands/migrate.py:187-188 | each static path routes to `{"static": directory}` |
| Migrate.RoutesEmpty | src/fujin/commands/migrate.py:184-194 | there are no routes exactly when there is no static and no `web` process |
| Migrate.BuildRoutes | src/fujin/commands/migrate.py:184-192 | the statics loop followed by `/` for `web` yields the route table |
| Migrate.MoveHost | src/fujin/commands/migrate.py:137-139 | phase 1 leaves `processes`, `webserver` and `sites` alone and keeps every shape the later phases need |
| Migrate.Phase4 | src/fujin/commands/migrate.py:141-170 | phases 2 to 4 keep those shapes |
| Migrate.Phase4Other | src/fujin/commands/migrate.py:141-170 | phases 2 to 4 change no key but `hosts` and `processes` |
| Migrate.DropWebserverOther | src/fujin/commands/migrate.py:173-195 | phase 5 drops `webserver` and changes no other key but `sites` |
| Migrate.HostsListMigrated | src/fujin/commands/migrate.py:138-156 | an existing `hosts` list wins over `host`, which stays, and every host in it is migrated |
| Migrate.LoneHostMoved | src/fujin/commands/migrate.py:138-156 | a lone `host` becomes the single migrated element of `hosts`; with neither key there is no `hosts` |
| Migrate.WebserverRemoved | src/fujin/commands/migrate.py:173-174 | `webserver` never survives the migration |
| Migrate.ProcessesRule | src/fujin/commands/migrate.py:142-170 | `processes` is migrated with `webserver.upstream` as the listen address; without `processes` none is added |
| Migrate.HostsAfterMove | src/fujin/commands/migrate.py:138-139 | after phase 1 there is a `hosts` list exactly when there was one or a lone `host`, and it holds these hosts |
| Migrate.DropWebserverSites | src/fujin/commands/migrate.py:173-195 | phase 5 adds `sites` only with a `webserver`, no `sites`, a non-empty host list and some route; it holds the first host's address and the routes |
| Migrate.Phase5Inputs | src/fujin/commands/migrate.py:137-170 | phase 5 sees the original `webserver` and `sites`, the migrated hosts and the same process names |
| Migrate.SitesRule | src/fujin/commands/migrate.py:173-195 | on the whole migration: `sites` is built from the first host's migrated address (default `example.com`), the statics and `/` for `web`, only when allowed and non-empty; otherwise `sites` is unchanged |
| Migrate.MigrateConfig | src/fujin/commands/migrate.py:121-197 | the imperative migration on the copy returns the migrated configuration |
| Migrate.WebListenOf | src/fujin/commands/migrate.py:141-144 | phase 2 reads `webserver.upstream`, if any |
| Migrate.MoveHostOf | src/fujin/commands/migrate.py:137-139 | phase 1 on the copy |
| Migrate.MigrateHostsOf | src/fujin/commands/migrate.py:146-156 | phase 3 on the copy |
| Migrate.MigrateProcessesOf | src/fujin/commands/migrate.py:158-170 | phase 4 on the copy, also returning a processes table with the same names |
| Migrate.MigrateWebserver | src/fujin/commands/migrate.py:172-195 | phase 5 on the copy |
| Migrate.LegacyHostChanges | src/fujin/commands/migrate.py:147-156 | a host table with an old field name always comes out different |
| Migrate.CurrentHostsKept | src/fujin/commands/migrate.py:147-156 | a host list with no old field names is left unchanged |
| Migrate.CurrentProcessesKept | src/fujin/commands/migrate.py:159-170 | processes with no bare command are left unchanged when there is no upstream |
| Migrate.CurrentUnchanged | src/fujin/commands/migrate.py:121-197 | a configuration with no old-format feature comes back equal |
| Migrate.LegacyHostChanged | src/fujin/commands/migrate.py:147-156 | a host in `hosts` with an old field name makes the result differ from the input |
| Migrate.StringProcessChanged | src/fujin/commands/migrate.py:161-166 | a bare-command process makes the result differ from the input |
| Migrate.LegacyChanged | src/fujin/commands/migrate.py:121-197 | every old-format feature leaves a trace in the result |
| Migrate.UnchangedIffCurrent | src/fujin/commands/migrate.py:121-197 | the result equals the input exactly when the input is already in the current format |
| Migrate.CallerKeysKept | src/fujin/commands/migrate.py:134-135 | the caller's own dictionary keeps its top-level keys in order; only the tables it shares with the copy change |
| Migrate.AsWrittenMissesSharedEdits | src/fujin/commands/migrate.py:46-51 | as written, without `webserver` and a lone `host`, the comparison always reports "already in the latest format" |
| Migrate.AsWrittenKeepsLegacyIp | src/fujin/commands/migrate.py:46-51 | as written, a configuration with `hosts = [{ip = ...}]` is reported as current although its migration differs |
| Migrate.Decide | src/fujin/commands/migrate.py:46-51 | corrected: "already in the latest format" exactly when the input is current; otherwise the migrated configuration is written |
| Migrate.Truthy | src/fujin/commands/migrate.py:163 | Python truthiness of a decoded value: non-empty, non-zero or true |
| Migrate.IsTable | src/fujin/commands/migrate.py:147-156 | a table with distinct keys, as decoded TOML gives |
| Migrate.HostsShaped | src/fujin/commands/migrate.py:147 | `hosts` is a list of tables, as the host loop's `in` and `pop` need |
| Migrate.ProcessesShaped | src/fujin/commands/migrate.py:159 | `processes` is a table, as `.items()` needs |
| Migrate.WebserverShaped | src/fujin/commands/migrate.py:143-187 | `webserver` and its `statics` are tables, as `.get` needs |
| Migrate.Shaped | src/fujin/commands/migrate.py:121-197 | the shapes under which `migrate_config` does not raise |
| Migrate.AddressStep | src/fujin/commands/migrate.py:149-152 | `ip`, else `domain_name`, becomes `address`, keeping the keys distinct; Migrate.AddressStepEffect states the values |
| Migrate.PortStep | src/fujin/commands/migrate.py:155-156 | `ssh_port` becomes `port`, keeping the keys distinct; Migrate.PortStepEffect states the values |
| Migrate.MigrateHost | src/fujin/commands/migrate.py:149-156 | both steps on one host, keeping the keys distinct; Migrate.MigrateHostAddress, Migrate.MigrateHostPort and Migrate.MigrateHostCurrent state the result |
| Migrate.MigrateHostValue | src/fujin/commands/migrate.py:147-156 | one element of `hosts` after the loop body; a table stays a table |
| Migrate.Listens | src/fujin/commands/migrate.py:163 | `web_listen` is used only when present and truthy |
| Migrate.MigrateProcess | src/fujin/commands/migrate.py:160-170 | one process after the loop body; Migrate.StringProcess, Migrate.TableWebProcess and Migrate.OtherProcess state each case |
| Migrate.StaticRoutes | src/fujin/commands/migrate.py:184-188 | the static routes in order; Migrate.StaticRoutesPaths and Migrate.StaticRoutesServe state them |
| Migrate.Routes | src/fujin/commands/migrate.py:184-192 | the static routes, then `/` to `web` when there is a web process; Migrate.RoutesEmpty states when it is empty |
| Migrate.Site | src/fujin/commands/migrate.py:195 | the single site with the first host's address and the routes |
| Migrate.WebListen | src/fujin/commands/migrate.py:141-144 | `webserver.upstream`, if any; Migrate.WebListenOf is proved against it |
| Migrate.WithHosts | src/fujin/commands/migrate.py:146-156 | phase 3: every host table migrated in place; Migrate.MigrateHostsOf is proved against it |
| Migrate.ProcessesOf | src/fujin/commands/migrate.py:159 | `config.get("processes", {})` |
| Migrate.WithProcesses | src/fujin/commands/migrate.py:158-170 | phase 4: every process migrated in place; Migrate.MigrateProcessesOf is proved against it |
| Migrate.WithSites | src/fujin/commands/migrate.py:173-195 | phase 5 once `webserver` is popped; Migrate.DropWebserverSites and Migrate.SitesRule state it |
| Migrate.StaticsOf | src/fujin/commands/migrate.py:187 | `webserver.get("statics", {})` |
| Migrate.FirstAddress | src/fujin/commands/migrate.py:182 | the first host's address, else `example.com` |
| Migrate.Staged | src/fujin/commands/migrate.py:137-170 | the shapes phases 2 to 5 rely on; Migrate.MoveHost and Migrate.Phase4 state they hold |
| Migrate.DropWebserver | src/fujin/commands/migrate.py:172-195 | phase 5 only with a `webserver`; Migrate.DropWebserverOther and Migrate.MigrateWebserver state it |
| Migrate.Migrated | src/fujin/commands/migrate.py:121-197 | `migrate_config`'s result; Migrate.HostsListMigrated, Migrate.ProcessesRule, Migrate.SitesRule, Migrate.UnchangedIffCurrent and Migrate.MigrateConfig state it |
| Migrate.CallerAfter | src/fujin/commands/migrate.py:134-170 | the caller's dictionary after the call, carrying the edits to shared tables; Migrate.CallerKeysKept states its keys |
| Migrate.LegacyHost | src/fujin/commands/migrate.py:149-156 | a host table with `ip`, `domain_name` or `ssh_port`; Migrate.LegacyHostChanges states it always changes |
| Migrate.Current | src/fujin/commands/migrate.py:121-197 | a configuration without old-format features; Migrate.UnchangedIffCurrent states the migration keeps exactly these |
| Migrate.DecideAsWritten | src/fujin/commands/migrate.py:46-51 | the comparison as written; Migrate.AsWrittenMissesSharedEdits and Migrate.AsWrittenKeepsLegacyIp state where it errs |
| Show.Key | src/fujin/commands/show.py:215-217 | the key is the non-empty text before the first `=` |
| Show.Value | src/fujin/commands/show.py:215-217 | key, `=` and value put back together give the line |
| Show.RedactAll | src/fujin/commands/show.py:208-224 | each line is redacted on its own, in order |
| Show.RedactSecrets | src/fujin/commands/show.py:205-226 | the line loop and the join give the redacted text |
| Show.RedactOne | src/fujin/commands/show.py:209-224 | the loop body on one line gives that line redacted |
| Show.KeepsBlankAndComments | src/fujin/commands/show.py:209-212 | blank and `#` lines are kept, stripped |
| Show.KeyValueParts | src/fujin/commands/show.py:215-217 | splitting `key=value` at its first `=` gives back key and value |
| Show.RedactsSecret | src/fujin/commands/show.py:215-220 | a quoted value or one longer than 10 characters becomes `key="***REDACTED***"` |
| Show.KeepsPlainValue | src/fujin/commands/show.py:219-222 | an empty value or a short unquoted one is kept as written |
| Show.KeepsLineWithoutKey | src/fujin/commands/show.py:215-224 | a line with no `=`, or one starting with `=`, is kept |
| Show.RedactStrippedEdges | src/fujin/commands/show.py:209-224 | an output line neither starts nor ends with whitespace |
| Show.KeptLineFixed | src/fujin/commands/show.py:209-224 | a line the first pass kept is kept by a second pass |
| Show.RedactedLineFixed | src/fujin/commands/show.py:215-220 | a redacted line is redacted to itself |
| Show.RedactLineIdempotent | src/fujin/commands/show.py:209-224 | redacting a line twice gives the same line as once |
| Show.RedactAllIdempotent | src/fujin/commands/show.py:208-224 | redacting every line twice gives the same lines as once |
| Show.RedactIdempotent | src/fujin/commands/show.py:205-226 | redacting the whole text twice changes nothing, unless the last output line is blank |
| Show.TwoBreaksKept | src/fujin/commands/show.py:205-226 | a kept line followed by a blank line comes back as that line plus one final line break |
| Show.TrailingBlankLineNotIdempotent | src/fujin/commands/show.py:205-226 | for such a line a second pass drops that final line break, so redaction is not idempotent there |
| Show.OneLineKept | src/fujin/commands/show.py:205-226 | a line that redaction keeps, followed by one line break, comes back without the break |
| Show.NoBreakKept | src/fujin/commands/show.py:209-224 | an output line holds no line break |
| Show.Dispatch | src/fujin/commands/show.py:30-43 | no name or an empty one lists the options; `env`, `caddy` and `units` are reserved; any other name is a unit target |
| Show.WithName | src/fujin/commands/show.py:126 | exactly the services with that name, in order |
| Show.WithServiceFile | src/fujin/commands/show.py:130-132 | exactly the services whose service file has that name |
| Show.MatchByName | src/fujin/commands/show.py:117-139 | a name match wins and shows every service with that name, and only those |
| Show.MatchByFile | src/fujin/commands/show.py:126-133 | without a name match, a service file name such as `web.service` selects its services |
| Show.UnknownTarget | src/fujin/commands/show.py:134-139 | an unknown target exits with code 1 and names every discovered service |
| Show.DropinSections | src/fujin/commands/show.py:185-192 | one section per `.conf` drop-in, headed by its path in the drop-in directory |
| Show.DropinHeaders | src/fujin/commands/show.py:152-192 | the service file comes first, then socket and timer when present, then the drop-ins of `{name}@.service.d` for a template and `{name}.service.d` otherwise |
| Show.AvailableOptionsShape | src/fujin/commands/show.py:194-202 | `env, caddy, units` comes first, then each discovered name, comma-separated |
| Show.ShowEnv | src/fujin/commands/show.py:90-115 | empty content gives a warning (which one depends on whether an env file is set); otherwise the resolved text is shown, redacted and with a note unless `--plain` |
| Show.MatchTarget | src/fujin/commands/show.py:117-139 | a target is accepted exactly when there are no services or some service has that name or service file; a match is non-empty and shows only such services; a rejection exits with code 1 |
| Show.ServiceSections | src/fujin/commands/show.py:152-192 | the service file's section comes first, then the socket's when there is one; there is a section for each of the service, socket and timer files |
| Show.HasKey | src/fujin/commands/show.py:215-216 | `^([^=]+)=(.*)$` matches: an `=` with a non-empty key before the first one |
| Show.Secret | src/fujin/commands/show.py:219 | a non-empty value that is quoted or longer than 10 characters |
| Show.RedactStripped | src/fujin/commands/show.py:210-224 | one stripped line redacted; Show.RedactsSecret, Show.KeepsPlainValue and Show.KeepsLineWithoutKey state its branches |
| Show.RedactLine | src/fujin/commands/show.py:209-224 | one line stripped and redacted; Show.RedactLineIdempotent and Show.RedactStrippedEdges state it |
| Show.Redact | src/fujin/commands/show.py:205-226 | `_redact_secrets`; Show.RedactIdempotent states when a second pass changes nothing and Show.RedactSecrets is proved against it |
| Show.ServiceNames | src/fujin/commands/show.py:198-200 | one name per discovered service, in order |
| Show.UnitSections | src/fujin/commands/show.py:157-174 | the service file first, then one section each for the socket and the timer when present |
| Show.AvailableOptions | src/fujin/commands/show.py:194-202 | `_get_available_options`; Show.AvailableOptionsShape states its form |
| Init.RFind | src/fujin/commands/init.py:52 | the index of the last occurrence of the character, or -1 when it does not occur |
| Init.Stem | src/fujin/commands/init.py:52 | the stem is a prefix of the directory name |
| Init.AppName | src/fujin/commands/init.py:52 | the app name has the stem's length and holds no `-`, no space and no upper-case letter |
| Init.RFindAt | src/fujin/commands/init.py:52 | the last separator is the one in front of a suffix that does not contain it |
| Init.StemWithoutDot | src/fujin/commands/init.py:52 | a name without a dot is its own stem |
| Init.StemDropsSuffix | src/fujin/commands/init.py:52 | a directory called `base.ext` gives `base` |
| Init.AppNameFixed | src/fujin/commands/init.py:52 | a name that is already lower-case and free of dots, `-` and spaces is kept |
| Init.AppNameExamples | src/fujin/commands/init.py:52 | `my-test-app` and `my test app` both give `my_test_app` |
| Init.BaseConfig | src/fujin/commands/init.py:80-100 | the starting configuration has the keys app, version, build_command, distfile, requirements, installation_mode, aliases and hosts, in that order |
| Init.Configure | src/fujin/commands/init.py:102-112 | the changes after the literal keep the keys distinct |
| Init.GenerateToml | src/fujin/commands/init.py:78-114 | `_generate_toml` returns the configuration the lemmas below describe |
| Init.ConfigureGet | src/fujin/commands/init.py:102-112 | a truthy `project.version` removes `version`; a pyproject sets `app` to `project.name` or the directory's name; no `.python-version` file adds `python_version = "3.12"`; every other key keeps its value |
| Init.BaseConfigGets | src/fujin/commands/init.py:80-82 | the literal starts with the directory's app name and version `0.0.1` |
| Init.BaseConfigNamed | src/fujin/commands/init.py:84-99 | the distfile and the single host are named after the directory's app name |
| Init.BaseConfigLacks | src/fujin/commands/init.py:79-100 | the literal has no `python_version`, `processes` or `sites` |
| Init.TomlApp | src/fujin/commands/init.py:106-109 | `app` is the pyproject's `project.name` when there is a pyproject and the directory's name otherwise |
| Init.TomlVersion | src/fujin/commands/init.py:110-112 | `version = "0.0.1"` is kept unless the pyproject has a truthy `project.version` |
| Init.TomlPythonVersion | src/fujin/commands/init.py:103-104 | `python_version = "3.12"` appears exactly when there is no `.python-version` file |
| Init.TomlKeepsDirectoryName | src/fujin/commands/init.py:78-114 | the distfile and the host address keep the directory's name even when the pyproject renames the app, and no processes or sites are generated |
| Init.Upstream | src/fujin/commands/init.py:143-146 | the upstream is the web socket exactly for the target `web`, and `localhost:8000` for any other |
| Init.CaddyfileContent | src/fujin/commands/init.py:128-155 | the loop over the routes builds the header, one block per route in order, then the closing brace |
| Init.HandlesAppend | src/fujin/commands/init.py:134-153 | the blocks of two consecutive route lists follow one another |
| Init.CaddyfileFrame | src/fujin/commands/init.py:130-155 | the Caddyfile opens with the header for `{app}.com` and ends with `}` and a line break |
| Init.CreateCommonDropins | src/fujin/commands/init.py:116-126 | `common.d` exists and `base.conf` holds the base drop-in; nothing else changes |
| Init.CreateCaddyfile | src/fujin/commands/init.py:128-159 | `.fujin/Caddyfile` holds the built text; nothing else changes |
| Init.GenerateSocketActivated | src/fujin/commands/init.py:161-256 | the simple and django generators write the web service, the web socket, the drop-in and the Caddyfile |
| Init.GenerateFalco | src/fujin/commands/init.py:258-297 | the falco generator writes the web and worker services, the drop-in and the Caddyfile |
| Init.GenerateBinary | src/fujin/commands/init.py:299-323 | the binary generator writes the web service, the drop-in and the Caddyfile |
| Init.GenerateProfile | src/fujin/commands/init.py:60-67 | the chosen profile's generator runs |
| Init.ProfileCreates | src/fujin/commands/init.py:161-323 | every profile writes `web.service`, the common drop-in and the Caddyfile; `web.socket` only for simple and django; `worker.service` only for falco |
| Init.ProfileFiles | src/fujin/commands/init.py:161-323 | a generator writes exactly the files it announces, with the profile's contents, and creates `.fujin`, `systemd` and `common.d` |
| Init.ProfileKeepsOthers | src/fujin/commands/init.py:161-323 | files the profile does not announce keep their contents |
| Init.SocketPathsAgree | src/fujin/commands/init.py:161-201 | where a socket is written, gunicorn binds the socket's listen path and Caddy proxies `/*` to that same path |
| Init.ProxyWithoutSocket | src/fujin/commands/init.py:258-323 | falco and binary write no socket unit, yet their Caddyfile still proxies `/*` to the web socket |
| Init.DjangoCaddyfile | src/fujin/commands/init.py:248-256 | django serves `/static/*` from `/var/www/{app}/static/` before proxying every other path to `web` |
| Init.Run | src/fujin/commands/init.py:40-76 | `Init.__call__` has the effect and the report `RunInit` gives |
| Init.RunFresh | src/fujin/commands/init.py:52-69 | past the guards, the command writes the configuration and the profile |
| Init.WriteProject | src/fujin/commands/init.py:55-67 | `fujin.toml` holds the encoded configuration, then the profile's files are written |
| Init.ExistingProjectKept | src/fujin/commands/init.py:44-50 | an existing `fujin.toml` (checked first) or `.fujin` stops the command with its warning and writes nothing |
| Init.FreshProjectGenerated | src/fujin/commands/init.py:52-69 | otherwise the command announces the profile's files and writes `fujin.toml` with the encoded configuration before them |
| Init.FreshFiles | src/fujin/commands/init.py:52-69 | `fujin.toml` holds its text, every announced file exists, every other file keeps its contents, and the `.fujin` directories exist |
| Init.RunInit | src/fujin/commands/init.py:40-76 | the command skips exactly when `fujin.toml` or `.fujin` exists, and a skip leaves the directory as it was |
| Init.Aliases | src/fujin/commands/init.py:87-92 | the four default aliases `shell`, `status`, `logs` and `restart` |
| Init.Distfile | src/fujin/commands/init.py:84 | `dist/{app}-{version}-py3-none-any.whl`, with `{version}` kept as a placeholder; stated by Init.BaseConfigNamed |
| Init.DefaultHost | src/fujin/commands/init.py:93-99 | the single default host, user `deploy`, address `{app}.com`, envfile `.env.prod`; stated by Init.BaseConfigNamed |
| Init.ProjectIsTable | src/fujin/commands/init.py:109-110 | `pyproject.get("project", {})` can be read: the entry is absent or a table |
| Init.ProjectTable | src/fujin/commands/init.py:109-110 | the `project` table, empty when absent; used by Init.ConfigureGet |
| Init.HasVersion | src/fujin/commands/init.py:110 | `project.version` is present and truthy; Init.TomlVersion states it removes `version` |
| Init.TomlConfig | src/fujin/commands/init.py:78-114 | the configuration `_generate_toml` returns; Init.TomlApp, Init.TomlVersion, Init.TomlPythonVersion and Init.TomlKeepsDirectoryName state it |
| Init.Handle | src/fujin/commands/init.py:135-153 | one route's block: a static block for a static table, a proxy block otherwise; Init.Upstream states the upstream |
| Init.Handles | src/fujin/commands/init.py:134-153 | the route blocks in order; Init.HandlesAppend states that blocks follow one another |
| Init.CaddyfileText | src/fujin/commands/init.py:130-155 | the Caddyfile text; Init.CaddyfileFrame states its frame and Init.CaddyfileContent is proved against it |
| Init.Gunicorn | src/fujin/commands/init.py:176-178 | gunicorn binding the web socket's path; Init.SocketPathsAgree states the socket listens there |
| Init.DjangoPre | src/fujin/commands/init.py:208-212 | django's migrate, collectstatic and static-copy pre-start lines |
| Init.WebArgs | src/fujin/commands/init.py:161-323 | the web service each profile writes; stated by Init.ProfileFiles and Init.SocketPathsAgree |
| Init.WorkerArgs | src/fujin/commands/init.py:279-290 | falco's worker service running `db_worker` |
| Init.ProfileRoutes | src/fujin/commands/init.py:161-323 | the routes each profile hands to `_create_caddyfile`; Init.DjangoCaddyfile and Init.ProxyWithoutSocket state them |
| Init.ProfileFs | src/fujin/commands/init.py:161-323 | the project after a profile generator; Init.ProfileFiles, Init.ProfileValues, Init.ProfileKeys and Init.ProfileKeepsOthers state it |
| Init.Created | src/fujin/commands/init.py:161-323 | the files a profile announces, in order; Init.ProfileCreates states which |
| Init.PyProject | src/fujin/commands/init.py:106-108 | the parsed `pyproject.toml` when it exists |
| Init.Readable | src/fujin/commands/init.py:106-110 | past the guards, `pyproject.toml` is a readable file whose `project` entry is a table |
| Init.Fresh | src/fujin/commands/init.py:52-67 | `fujin.toml` written, then the profile's files; Init.FreshFiles states the result |
| Audit.LogRecord | src/fujin/audit.py:27-35 | the record has the keys timestamp, operation, user and host, then `details` only when the details are non-empty |
| Audit.LogOperation | src/fujin/audit.py:10-39 | the log only grows (the old text is a prefix of the new) and ends with a line break |
| Audit.LogRecordFields | src/fujin/audit.py:27-32 | the record holds the timestamp, operation, user and host it was given |
| Audit.LogRecordDetails | src/fujin/audit.py:34-35 | `details` is there exactly when it is non-empty, and then holds the details |
| Audit.Entry | src/fujin/audit.py:59-65 | a line contributes at most one record |
| Audit.Parsed | src/fujin/audit.py:57-65 | there are never more records than lines |
| Audit.Reversed | src/fujin/audit.py:67-68 | the i-th record is the i-th from the end |
| Audit.Prefix | src/fujin/audit.py:70-71 | `records[:limit]` is a prefix: `limit` records (or all) for a non-negative limit, all but the last `-limit` for a negative one |
| Audit.Newest | src/fujin/audit.py:67-72 | a positive limit bounds the number of records returned |
| Audit.Logs | src/fujin/audit.py:42-72 | a missing log file gives no records; a positive limit bounds their number |
| Audit.DecodeLines | src/fujin/audit.py:57-65 | the line loop gives the records of the non-blank lines that decode, in file order |
| Audit.ReadLogs | src/fujin/audit.py:42-72 | `read_logs` returns the records `Logs` describes |
| Audit.LineSkipped | src/fujin/audit.py:60-65 | a blank line or one that does not decode is skipped |
| Audit.LineKept | src/fujin/audit.py:60-63 | a non-blank line that decodes adds its record in place |
| Audit.ParsedFromLines | src/fujin/audit.py:57-65 | every record read comes from some non-blank line of the file |
| Audit.MostRecentFirst | src/fujin/audit.py:67-72 | the i-th record returned is the i-th from the end of the file; the count follows the limit, including Python's slice rule for a negative one |
| Audit.ParsedTrailingEmpty | src/fujin/audit.py:59-61 | the empty piece after a final line break adds nothing |
| Audit.ParsedLine | src/fujin/audit.py:38-39 | a single written line reads back as its own entry |
| Audit.AppendedLine | src/fujin/audit.py:38-39 | appending a line to a log that ends in a line break adds its entry after the earlier ones |
| Audit.NewestPushed | src/fujin/audit.py:67-72 | the last record in the file comes first, whatever non-negative limit is given |
| Audit.AppendedRecordFirst | src/fujin/audit.py:38-72 | a well-formed line appended to the log is read back as the newest record |
| Audit.LoggedRecordReadFirst | src/fujin/audit.py:10-72 | what `log_operation` writes, `read_logs` gives back first, ahead of every earlier record |
| Audit.BuildRows | src/fujin/commands/audit.py:43-72 | the table loop gives one row per record, in order |
| Audit.ShowAudit | src/fujin/commands/audit.py:26-74 | no records prints "No audit logs found"; otherwise there is one row per record read with the limit, in order |
| Audit.AuditLimit | src/fujin/commands/audit.py:17-27 | a positive `--limit` bounds the rows; 0 shows every record; no log file shows none |
| Audit.LoggedRecordRow | src/fujin/commands/audit.py:43-72 | a record `log_operation` wrote shows its own formatted time, operation, host, user and details |
| Audit.MissingFields | src/fujin/commands/audit.py:45-53 | missing fields show "unknown", and a timestamp that does not parse is shown as written |
| Audit.EmptyRecordRow | src/fujin/commands/audit.py:45-72 | an empty record shows "unknown" in every column and empty details |
| Audit.DeployDetails | src/fujin/commands/audit.py:58-60 | deploy shows `v{version}`, and just `v` without a version |
| Audit.RollbackDetails | src/fujin/commands/audit.py:61-64 | rollback shows `{from_version} → {to_version}` |
| Audit.DownDetails | src/fujin/commands/audit.py:65-70 | down shows `v{version}`, followed by " (full)" exactly when `full` is truthy |
| Audit.OtherDetails | src/fujin/commands/audit.py:56-70 | any other operation has empty details |
| Audit.BindKeywords | src/fujin/audit.py:10-14 | a call binds exactly when every keyword is a declared parameter; otherwise the `TypeError` names a keyword that is not |
| Audit.DeployCallRejected | src/fujin/commands/deploy.py:409-416 | as written, the call from `deploy` fails on its first keyword, `connection`, before any record is written |
| Audit.DeployRecord | src/fujin/commands/deploy.py:409-416 | corrected: the deploy record carries the version and commit as details, with distinct keys |
| Audit.DeployCallCorrected | src/fujin/audit.py:10-14 | passed as `operation`, `host` and `details`, the arguments bind |
| Audit.DeployRecordShown | src/fujin/commands/audit.py:43-72 | the corrected record shows as a deploy of `v{version}` on its host, by its user |
| Audit.Text | src/fujin/commands/audit.py:60-70 | the f-string text of a decoded JSON value: strings as they are, numbers in decimal, booleans as `True`/`False` |
| Audit.Field | src/fujin/commands/audit.py:51-53 | `record.get(key, "unknown")`; Audit.MissingFields and Audit.EmptyRecordRow state the "unknown" default |
| Audit.When | src/fujin/commands/audit.py:45-49 | the formatted timestamp, else the raw value, else "unknown"; stated by Audit.MissingFields |
| Audit.DetailsText | src/fujin/commands/audit.py:56-70 | the details cell per operation; Audit.DeployDetails, Audit.RollbackDetails, Audit.DownDetails and Audit.OtherDetails state each branch |
| Audit.DetailsOf | src/fujin/commands/audit.py:54 | `record.get("details", {})`: the details object, or none |
| Audit.RowOf | src/fujin/commands/audit.py:43-72 | the row one record adds; Audit.LoggedRecordRow and Audit.MissingFields state its cells, and Audit.BuildRows applies it in order |

## Left out

- Real SSH is not modelled: sockets, the handshake, libssh2, `select` timing and streamed uploads. What a channel returns is an input, given as the sequence of read results the poll loop sees.
- Local echo and hiding of output, and the terminal (rich, cappa rendering, colours as markup), are left out. Colours are modelled as style names.
- Connection.SentIsPassword: the sudo prompt watchers match on literal text. The source builds a regular expression from the user name, so regular-expression metacharacters in a user name are not modelled.
- The subprocess calls, `systemctl`, `journalctl`, `useradd`, `uv` and `pip` are not run. Their exit statuses and outputs are inputs, and the commands issued are recorded.
- Installer phases 1 and 2 are not modelled: creating the user, the virtual environment, installing the package and writing `.appenv`. Phases 3 (systemd) and 4 (Caddy) and `uninstall` are.
- `time.sleep` and Caddy's 20-second timeout become an abstract outcome (reloaded, failed or timed out).
- The templates module is not part of this model. Unit, socket, drop-in and Caddyfile header templates are opaque functions; the TOML and JSON encoders and parsers are opaque too.
- configparser validation is an input: the set of files the parser rejects.
- `datetime` parsing and formatting, `getpass`, `Path.home()` and `mkdir` are parameters.
- AppCommand.StatusStyle: Python's `int` also accepts a sign, surrounding whitespace, `_` between digits and non-ASCII digits; the model parses ASCII digit strings only. The command builds these cells itself as `running/total` from counts (AppCommand.CountStyle), so the difference shows only on cells it never produces.
- Deploy: building the bundle (zipapp creation, copying files), resolving secrets and the size formatting with floats are not modelled. The summary and confirmation prompts are inputs.
- Deploy.Deploy: `safe_format` returns only the text, while `deploy` unpacks a pair (Deploy.AsWrittenStopsAtBundling; see Findings). The corrected second value is Formatting.Unresolved; the deployment takes the set of unresolved names as an input rather than rendering each file.
- Deploy.BuildContext: the context binds the bare `{name}` key for a plain unit, as `deploy.py` does. The tests re-implement that rule with `{name}_service`; the model follows the code.
- Deploy.Deploy: describes the program with the import cycle broken and the requirements hash (deploy.py:98), the bundling (deploy.py:165), the install step (deploy.py:361) and the failure handler (deploy.py:364) corrected. As written the module does not load. With the cycle broken, a requirements file the build left in place raises ValueError at the debug line that hashes it, before bundling (Deploy.AsWrittenStopsAtDigest). Without a requirements file, or with the hash corrected, bundling raises ValueError unless every rendered file is two characters long (Deploy.AsWrittenStopsAtBundling). With that corrected too, the upload raises: AttributeError on `rsync_upload` when rsync is tried, TypeError on `put`'s `verify` otherwise (Deploy.AsWrittenStopsAtUpload). With the upload calls corrected, every deployment that passes the checks and whose upload goes through fails with AttributeError on `self.verbose` right after the upload (Deploy.AsWrittenNeverInstalls; see Findings).
- Deploy.AsWrittenNeverInstalls: models deploy.py:361 with the import cycle broken and the requirements hash at deploy.py:98, the unpacking at deploy.py:165 and the upload calls at deploy.py:333 and 350 corrected. Without those corrections the command never reaches line 361 (Deploy.AsWrittenStopsAtDigest, Deploy.AsWrittenStopsAtBundling, Deploy.AsWrittenStopsAtUpload).
- Deploy.UploadChoice: describes the corrected upload calls, `rsync_upload` and `put` without `verify`, which the connection does not have as written (Deploy.AsWrittenStopsAtUpload; see Findings). How rsync ends is an input (`RsyncOutcome`); a plain upload is taken to succeed, so its own errors (a missing local file, a failed SCP channel) are not modelled.
- Deploy.Deployment: models the upload with its calls corrected, as Deploy.UploadChoice does; a failed `mkdir` or `cp` is modelled, an error of the plain upload itself is not.
- Deploy.RollbackNeverConstructed: models deploy.py:375 with the import cycle, the requirements hash, the unpacking, the upload calls, the install step and the failure handler at deploy.py:364 corrected. Without those corrections the command never reaches line 375. In particular, the handler catches `CommandError` while the connection raises `cappa.Exit` on a failed command (Deploy.CatchMissesExit).
- Deploy.Deploy: the rollback inside a deployment is recorded as one `Rollback` action; its steps are not expanded. With the constructor call corrected, `Rollback.__call__` still returns `None`, so `rollback_succeeded` stays false, and the model keeps it false. As written, the constructor call `Rollback(host=..., previous=True, strict=True)` raises TypeError before that (Deploy.RollbackNeverConstructed).
- Deploy.Install: takes a `verbose` count (`Settings.verbose`) that the `Deploy` command as written does not declare. It is forwarded as `--verbose N`, which the installer accepts (src/fujin/_installer.py:577-583). This is the evidently intended option (see Findings).
- Deploy.Install: its failure branches assume that the handler at deploy.py:364 catches the `cappa.Exit` the connection raises on a failed command (src/fujin/connection.py:133-137, src/fujin/libssh_connection.py:155). As written it catches `CommandError`; `fujin.errors` is not part of this model, and unless it makes `CommandError` an alias of `cappa.Exit` the exit propagates out of `deploy` unchanged (Deploy.CatchMissesExit; see Findings).
- Deploy.AsWrittenStopsAtDigest: follows Python 3.11 and later, where `hashlib.file_digest` given bytes raises ValueError. Before 3.11 `file_digest` does not exist and the same line raises AttributeError; either way the deployment stops there. The message's leading representation of the file's bytes is not modelled.
- Deploy.OtherExitCodesFail: holds for the corrected program. As written the installer never runs (Deploy.AsWrittenStopsAtBundling, Deploy.AsWrittenStopsAtUpload, Deploy.AsWrittenNeverInstalls).
- Deploy.FailedBundleRemoved: holds for the corrected program. As written the installer never runs. With that fixed, the handler at deploy.py:364 catches `CommandError`, not the `cappa.Exit` the connection raises, so the exit propagates with no prompt and no removal (Deploy.CatchMissesExit). `fujin.errors` is not part of this model; the finding stands unless it makes `CommandError` an alias of `cappa.Exit`. With the handler corrected too, the rollback constructor raises TypeError before the prompt and before the removal (Deploy.RollbackNeverConstructed).
- Deploy.PruneOnlyWithoutRollback: holds for the corrected program. As written the installer never runs, so nothing is pruned.
- Deploy.NoUrlAfterRollback: holds for the corrected program. As written no deployment reaches the URL.
- Rollback: `rollback.py` looks for `.tar.gz` bundles and `.current_version`, while `deploy` writes `.pyz` bundles. Rollback is modelled on its own terms.
- Rollback.Execute: the version prompt is modelled by its answer, which must be one of the offered versions. The source's re-asking loop on invalid input is not modelled.
- Rollback.Execute: describes the script with the import cycle with `deploy.py` broken and its messages written through `self.output`. As written the module does not load. With the cycle broken, each message goes through `self.stdout`, which does not exist, so the first one raises AttributeError (Rollback.StepsAsWritten, Rollback.AsWrittenNeverSwitches; see Findings).
- Rollback.AsWrittenNeverSwitches: models rollback.py:20 with the import cycle broken. Without that the command does not load.
- Rollback.SwitchVersion: holds for the corrected program. As written no uninstall or install step is ever reached.
- Rollback.NoTargetsOnlyLists: holds for the corrected program. As written the "No rollback targets" message raises AttributeError.
- Rollback.NoChangeWithoutSwitch: holds for the corrected program. As written, choosing the current version raises AttributeError at its message; declining is as stated.
- Rollback.UnpacksOnlyExisting: holds for the corrected program. As written the uninstall is never reached.
- Rollback.UninstallBeforeInstall: holds for the corrected program. As written neither step is reached.
- Rollback.NoCurrentInstallsOnly: holds for the corrected program. As written the install is never reached.
- Rollback.CompletedRollback: holds for the corrected program. As written no switch completes.
- Rollback.Offered: the listing is split on `\n` only. `splitlines` also breaks at `\r`, `\r\n`, `\x0b`, `\x0c`, `\x1c`-`\x1e`, `\x85`, `\u2028` and `\u2029`, which a listed file name would have to contain.
- Scale.StripSpecifiers: the guarantee is stated for text without `%%`. The two-pass replace turns `%%ii` into `%i` (see Scale.StripSpecifiersLeavesEscaped).
- Migrate: `migrate_config` copies only the top-level table, so it changes the caller's host, process and webserver tables in place. The model computes the caller's dictionary after the call (`CallerAfter`) instead of sharing references.
- Migrate: the functions require the shapes the code indexes into without checks (`Shaped`): `hosts` a list of tables, `processes` and `webserver` tables. On other shapes the source raises.
- Migrate: the command's reading and writing of `fujin.toml`, the backup, the dry run, the change listing (`_show_changes`) and the validation afterwards are not modelled. Only the "already in the latest format" decision is.
- Show: `_show_all_units` and `_show_caddy` only print files; they are not modelled.
- Show: in `_show_env`, the secret resolution is an input (the resolved text).
- Show: the rendering of each unit section is given through `safe_format`, without the rich markup.
- Show.Redact: `splitlines` is modelled as splitting on `\n` only (also in Show.RedactSecrets and Show.RedactIdempotent). A `\r\n` break gives the same output, because the `\r` left at the end of a line is stripped with it. Only a lone `\r`, `\x0b`, `\x0c`, `\x1c`-`\x1e`, `\x85`, `\u2028` or `\u2029` inside a line would split it in the source and not in the model.
- Strs.Lower: lower-casing is ASCII-only.
- Init.Run: `pyproject.toml` must be a readable file whose `project` entry is absent or a table. On anything else the source raises.
- Init: the messages the command prints other than the list of created files are left out.
- AppCommand.Cat: both `cat` commands run without `warn`, so a failing one ends with the connection's exit ("Command failed with exit code N"). The model returns the command as the last step and leaves its status out, since nothing runs after it.
- AppCommand: the status information block (version, domain), the header of the detail view, the drop-in listing and the `shell` command are not modelled.
- AppCommand: `app.py` carries its own copies of `_resolve_units` and `_get_available_options`. They match `_base.py`, which the model cites (module CommandBase).
- LibsshConnection.EnvPairs: builds each pair with the corrected escaping, which also escapes backslashes. As written only `"` is escaped; the two agree on values without a backslash (LibsshConnection.EnvPairAgrees; see Findings).
- LibsshConnection.EnvPairReads: holds for the corrected escaping. As written it holds for values without a backslash (LibsshConnection.AsWrittenRoundTrip), and fails for a value ending in one (LibsshConnection.AsWrittenTrailingBackslash).
- LibsshConnection.LibsshConnection.Run: the executed line uses the corrected escaping of the environment values. As written a value with a backslash can leave its quotes open.
- LibsshConnection.LibsshConnection.Put: on a path that is not a regular file, the model does not refuse the upload, and it takes the mode and size as zero. The source sends the `os.stat` mode and size of whatever is there.
- Audit: `read_logs` iterates the file with universal newlines. The model splits on `\n` and strips each line, so `\r` is stripped with the other whitespace.
- Audit: decoded JSON values cover strings, booleans, numbers as integers, lists and objects. `null` and floats are not distinguished.
- Audit.ShowAudit: it requires records that are objects whose displayed fields are text (`Displayable`). On other records the source raises or prints their `str()`.
- Audit.DeployRecord: `git_commit` is a string. The source may pass `None` when git is unavailable.
- The web dashboard, `fujin server`, `fujin down`, the Caddy download and the `service_management_helpers` shell text are not part of this model.

## Findings

| source | as written | input that shows it | evidently intended | confidence | as-written member | corrected member |
|---|---|---|---|---|---|---|
| src/fujin/_installer/__main__.py:241 | a drop-in directory counts as empty when the probe's output contains `empty` | a non-empty directory: the probe prints `not_empty`, which contains `empty`, so `sudo rmdir` is attempted and its failure is swallowed | remove the directory only when the probe prints exactly `empty` | not executed | LegacyInstaller.RmdirAlwaysAttempted | LegacyInstaller.ReportsEmptyExactly |
| src/fujin/libssh_connection.py:86 | only `"` is escaped inside the double-quoted environment value | the value `a\`: the quote after it is escaped, so the value never closes and swallows the command | escape backslashes as well, so every value reads back as itself | not executed | LibsshConnection.AsWrittenTrailingBackslash | LibsshConnection.EscapeDqRoundTrip |
| src/fujin/commands/migrate.py:46-51 | the migrated configuration is compared with the dictionary it was made from, after `migrate_config` changed that dictionary's shared host and process tables | `hosts = [{ip = "192.168.1.1"}]`: the migrated result differs from the file, yet the command reports "already in the latest format" and writes nothing | compare with the configuration as read | not executed | Migrate.AsWrittenKeepsLegacyIp | Migrate.Decide |
| src/fujin/commands/deploy.py:98 | the debug line hashes the requirements file with `hashlib.file_digest(req_file.read_bytes(), "sha256")`; its arguments are evaluated whatever the log level, and `file_digest` wants a file object open for binary reading, not bytes | once the import cycle is broken, a requirements file the build left in place (the setting `fujin init` writes): ValueError before bundling and before the host is contacted | hash the open file, or the bytes with `hashlib.sha256`, and go on | not executed | Deploy.AsWrittenStopsAtDigest | Deploy.RequirementsOnlyChecked |
| src/fujin/commands/deploy.py:165 | `safe_format` returns one `str`, which `deploy` unpacks into the rendered text and the unresolved names | once the import cycle is broken, without a requirements file or with the hash corrected, an environment file that does not render to exactly two characters (an empty one, or `DEBUG=1` and a newline): ValueError before anything is uploaded | `safe_format` returns the text together with the names it left unresolved, each of which stays in the text as `{name}` | not executed | Deploy.AsWrittenStopsAtBundling | Formatting.UnresolvedLeftVerbatim |
| src/fujin/commands/deploy.py:333-350 | the bundle is sent with `conn.rsync_upload(...)` or `conn.put(..., verify=True)`, but the connection `deploy` opens (src/fujin/connection.py:23) has no `rsync_upload`, and its `put` (src/fujin/connection.py:153) takes no `verify` | once the import cycle is broken and the requirements hash and the bundling are corrected, any deployment past the checks whose `mkdir` passes: a bundle under 30 KiB, or a host without rsync, gives TypeError at line 350; a larger bundle on a host with rsync gives AttributeError at line 333. Neither is caught, and nothing is uploaded | rsync the bundle to the staging path and copy it into place, falling back to a plain upload, as the `except` clauses expect | not executed | Deploy.AsWrittenStopsAtUpload | Deploy.UploadChoice |
| src/fujin/commands/deploy.py:361 | the install command reads `self.verbose`, a field `Deploy` does not declare | once the import cycle is broken and the requirements hash, the bundling and the upload calls are corrected, any deployment that passes the checks: AttributeError right after the upload, before the installer runs | a `verbose` count option on `deploy`, forwarded as `--verbose N` to the installer, which accepts it | not executed | Deploy.AsWrittenNeverInstalls | Deploy.Install |
| src/fujin/commands/deploy.py:364 | the installer's failure is caught as `CommandError`, but the connection raises `cappa.Exit("Command failed with exit code N", code=N)` (src/fujin/connection.py:133-137) | once the earlier defects, the upload calls included, are corrected, any installer exit other than 0: the exit propagates, with no rollback prompt, no removal of the failed bundle and no error message of `deploy`'s own | catch the connection's exit and branch on its code | not executed; `fujin.errors` is not part of this model | Deploy.CatchMissesExit | Deploy.FailedBundleRemoved |
| src/fujin/commands/deploy.py:375 | the rollback is built as `Rollback(host=..., previous=True, strict=True)`, but `Rollback` declares only `host` | once the import cycle, the requirements hash, the bundling, the upload calls, the install step and the failure handler are corrected, installer exit code 3 without `--no-rollback`: TypeError before the prompt, outside the `try` whose `finally` removes the failed bundle | build the rollback command with the fields it has, roll back on consent, and always remove the failed bundle | not executed | Deploy.RollbackNeverConstructed | Deploy.FailedBundleRemoved |
| src/fujin/commands/rollback.py:20 | every message is written with `self.stdout.output(...)`, but the command base class offers `self.output` and no `stdout` | once the import cycle is broken, an empty `.versions` listing: AttributeError at "No rollback targets available"; with versions, at the first message after the prompt, so nothing is uninstalled or installed | write the messages through `self.output` | not executed | Rollback.AsWrittenNeverSwitches | Rollback.CompletedRollback |
| src/fujin/commands/deploy.py:409-416 | `log_operation` is called with `connection`, `app_name`, `version` and `git_commit`, which it does not accept | once the earlier defects in `deploy`, the upload calls and the handler at line 364 included, are corrected, any deployment that reaches the audit step: the call raises `TypeError` on `connection` | record a deploy with the version and commit as details | not executed | Audit.DeployCallRejected | Audit.DeployRecordShown |
