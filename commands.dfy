// The shell commands the installers run on the host, as values; `Render`
// gives the text each one is run as.

module Commands {
  import opened Strs
  import opened Shell

  /**
   * The shell commands the installers run. The first group is the current
   * installer's (run as root, no `sudo`); the `Sudo` group is the older
   * installer's, run by the deploy user through `sudo`.
   */
  datatype Command =
    | DisableStaleUnit(unit: string)
    | ResetFailed(unit: string)
    | Enable(units: seq<string>)
    | RestartUnits(full: bool, units: seq<string>)
    | IsActiveQuery(unit: string)
    | AnalyzeVerify(unit: string)
    | Journal(unit: string, lines: nat)
    | AddCaddyToGroup(user: string)
    | ReloadCaddy
    | DisableNow(units: seq<string>)
    | DisableOnly(units: seq<string>)
    | ReloadAndResetFailed
    | RemoveCaddyFromGroup(user: string)
    | KillProcesses(user: string)
    | ForceKillProcesses(user: string)
    | DeleteUser(user: string)
    | ListServiceUnitFiles(app: string)
    | SudoDisableTemplate(unit: string)
    | SudoStopAndDisable(unit: string)
    | SudoResetFailed(unit: string)
    | SudoEnable(units: seq<string>)
    | SudoRestart(units: seq<string>)
    | SudoIsActive(unit: string)
    | SudoJournal(unit: string, lines: nat)
    | SudoMkdir(dir: string)
    | CaddyValidate(path: string)
    | SudoInstallCaddyfile(path: string, target: string)
    | SudoDisableNow(units: seq<string>)
    | SudoDisableOnly(units: seq<string>)
    | SudoReloadAndResetFailed
    | SudoRemoveCaddyfile(target: string)
    | UserExists(user: string)
    | SudoKillProcesses(user: string)
    | SudoForceKillProcesses(user: string)
    | SudoDeleteUser(user: string)

  function Render(c: Command): string {
    match c
    case DisableStaleUnit(u) =>
      // a stale template is only disabled; any other stale unit is also stopped
      "systemctl disable " + u + " --quiet" + (if EndsWith(u, "@.service") then "" else " --now")
    case ResetFailed(u) => "systemctl reset-failed " + u
    case Enable(us) => "systemctl daemon-reload && systemctl enable " + Join(us, " ")
    case RestartUnits(full, us) => "systemctl " + (if full then "restart" else "reload-or-restart") + " " + Join(us, " ")
    case IsActiveQuery(u) => "systemctl is-active " + u
    case AnalyzeVerify(u) => "systemd-analyze verify " + Quote("/etc/systemd/system/" + u)
    case Journal(u, n) => "journalctl -u " + u + " -n " + NatToString(n) + " --no-pager"
    case AddCaddyToGroup(user) => "usermod -aG " + user + " caddy"
    case ReloadCaddy => "systemctl reload caddy"
    case DisableNow(us) => "systemctl disable --now " + Join(us, " ") + " --quiet"
    case DisableOnly(us) => "systemctl disable " + Join(us, " ") + " --quiet"
    case ReloadAndResetFailed => "systemctl daemon-reload && systemctl reset-failed"
    case RemoveCaddyFromGroup(user) => "gpasswd -d caddy " + user
    case KillProcesses(user) => "pkill -u " + user
    case ForceKillProcesses(user) => "pkill -9 -u " + user
    case DeleteUser(user) => "userdel " + user
    case ListServiceUnitFiles(app) =>
      "systemctl list-unit-files --type=service --no-legend --no-pager | awk -v app='" + app + "' '$1 ~ \"^\"app {print $1}'"
    case SudoDisableTemplate(u) => "sudo systemctl disable " + u + " --quiet"
    case SudoStopAndDisable(u) => "sudo systemctl stop " + u + " --quiet && sudo systemctl disable " + u + " --quiet"
    case SudoResetFailed(u) => "sudo systemctl reset-failed " + u
    case SudoEnable(us) => "sudo systemctl daemon-reload && sudo systemctl enable " + Join(us, " ")
    case SudoRestart(us) => "sudo systemctl restart " + Join(us, " ")
    case SudoIsActive(u) => "sudo systemctl is-active " + u
    case SudoJournal(u, n) => "sudo journalctl -u " + u + " -n " + NatToString(n) + " --no-pager"
    case SudoMkdir(dir) => "sudo mkdir -p " + dir
    case CaddyValidate(path) => "caddy validate --config " + path
    case SudoInstallCaddyfile(path, target) =>
      "sudo cp " + path + " " + target + " && sudo chown caddy:caddy " + target + " && sudo systemctl reload caddy"
    case SudoDisableNow(us) => "sudo systemctl disable --now " + Join(us, " ") + " --quiet"
    case SudoDisableOnly(us) => "sudo systemctl disable " + Join(us, " ") + " --quiet"
    case SudoReloadAndResetFailed => "sudo systemctl daemon-reload && sudo systemctl reset-failed"
    case SudoRemoveCaddyfile(target) => "sudo rm -f " + target + " && sudo systemctl reload caddy"
    case UserExists(user) => "id -u " + user + " >/dev/null 2>&1"
    case SudoKillProcesses(user) => "sudo pkill -u " + user
    case SudoForceKillProcesses(user) => "sudo pkill -9 -u " + user
    case SudoDeleteUser(user) => "sudo userdel " + user
  }

}
