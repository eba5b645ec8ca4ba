/** The process record (`ProcessInfo`) and its derived display properties. */
module ProcessModel {
  import opened Wrappers
  import opened Text

  /** One row of the process table; the CPU and memory percentages (floats) are not modelled. */
  datatype ProcessInfo = ProcessInfo(
    pid: int,
    name: string,
    user: string,
    memSize: int,
    state: string,
    ppid: int)

  /** `ProcessInfo(pid, name)` with every other field at its default. */
  function NewProcessInfo(pid: int, name: string): (p: ProcessInfo)
    ensures p.pid == pid && p.name == name
    ensures p.user == "unknown" && p.state == "R" && p.memSize == 0 && p.ppid == 0
  {
    ProcessInfo(pid, name, "unknown", 0, "R", 0)
  }

  /** The state codes `state_text` knows, and their names. */
  const StateNames: map<string, string> := map[
    "R" := "Running",
    "S" := "Sleeping",
    "D" := "Disk Sleep",
    "Z" := "Zombie",
    "T" := "Stopped",
    "W" := "Paging"]

  /** `state_text`: the name of the state code, or "Unknown". */
  function StateText(p: ProcessInfo): (r: string)
    ensures p.state in StateNames ==> r == StateNames[p.state]
    ensures p.state !in StateNames ==> r == "Unknown"
  {
    if p.state in StateNames then StateNames[p.state] else "Unknown"
  }

  /** Exactly the six codes R, S, D, Z, T, W have a name; the names are distinct and none is "Unknown". */
  lemma {:induction false} StateTextKnown(p: ProcessInfo, q: ProcessInfo)
    ensures StateText(p) != "Unknown" <==> p.state in {"R", "S", "D", "Z", "T", "W"}
    ensures StateText(p) != "Unknown" && StateText(p) == StateText(q) ==> p.state == q.state
  {
  }

  /** `str(p)`: "<name> (PID: <pid>)". */
  function ToString(p: ProcessInfo): (r: string)
    ensures StartsWith(r, p.name + " (PID: ") && EndsWith(r, ")")
  {
    p.name + " (PID: " + IntToString(p.pid) + ")"
  }

  /** The pid can be read back from the text between "(PID: " and the closing parenthesis. */
  lemma {:induction false} ToStringPid(p: ProcessInfo)
    ensures var t := ToString(p); var k := |p.name| + 7;
      k <= |t| - 1 && ParseInt(t[k..|t| - 1]) == Some(p.pid)
  {
    var t := ToString(p);
    assert t[|p.name| + 7..|t| - 1] == IntToString(p.pid);
    ParseIntToString(p.pid);
  }
}
