/**
 * The transport primitives the bridge is built on, as oracles: the model
 * never runs a command, it is given the text each command would print.
 */
module Shell {
  import opened Wrappers

  /** What one `device.shell(cmd)` call gives back: the printed text, or an exception. */
  datatype Reply = Output(text: string) | Raised

  /**
   * One attached device as the bridge sees it. `push(local, remote)`,
   * `pull(remote, local)`, `install(apk)` and `uninstall(pkg)` are true when
   * the call returned without raising.
   */
  datatype Device = Device(
    serial: string,
    shell: string -> Reply,
    push: (string, string) -> bool,
    pull: (string, string) -> bool,
    install: string -> bool,
    uninstall: string -> bool)

  /** `device.shell(cmd)` on a looked-up device: the printed text, or nothing when there is no device or the call raised. */
  function ShellWith(dev: Option<Device>, cmd: string): (r: Option<string>)
    ensures r.Some? <==> dev.Some? && dev.value.shell(cmd).Output?
    ensures r.Some? ==> r.value == dev.value.shell(cmd).text
  {
    match dev
    case None => None
    case Some(d) =>
      match d.shell(cmd)
      case Raised => None
      case Output(t) => Some(t)
  }

  /** A path inside single quotes, as every command in the bridge quotes it. */
  function Quoted(path: string): (r: string)
    ensures |r| == |path| + 2 && r[0] == '\'' && r[|r| - 1] == '\''
    ensures r[1..|r| - 1] == path
  {
    "'" + path + "'"
  }
}
