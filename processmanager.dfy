/**
 * The process manager: decoding `ps` rows into `ProcessInfo` records, the
 * process listing, the kill ladder with its `am force-stop` fallback, and
 * the lookup of one process by pid.
 */
module ProcessManager {
  import opened Wrappers
  import opened Text
  import opened Shell
  import opened ProcessModel

  const PsCommand: string := "ps -A -o PID,USER,VSZ,STAT,NAME"

  // ----------------------------------------------------------------- ps rows

  /**
   * `_parse_ps_line`: `PID USER VSZ STAT NAME...`. `None` for fewer than
   * five tokens or a first token `int()` refuses.
   */
  function ParsePsLine(line: string): (r: Option<ProcessInfo>)
    ensures r.None? <==> |Words(line)| < 5 || ParseInt(Words(line)[0]).None?
    ensures r.Some? ==> var parts := Words(line);
      r.value == ProcessInfo(ParseInt(parts[0]).value, JoinSpace(parts[4..]), parts[1],
        DigitsOrZero(parts[2]), [parts[3][0]], 0)
  {
    var parts := Words(line);
    if |parts| < 5 then None
    else
      match ParseInt(parts[0])
      case None => None
      case Some(pid) => Some(ProcessInfo(pid, JoinSpace(parts[4..]), parts[1], DigitsOrZero(parts[2]), [parts[3][0]], 0))
  }

  /** A row printed from a pid, a user, a memory size, a state word and a multi-word name decodes back to them. */
  lemma {:induction false} ParsePsLineRoundTrip(pid: int, user: string, mem: nat, stat: string, nameWords: seq<string>)
    requires user != [] && NoSpace(user) && stat != [] && NoSpace(stat)
    requires |nameWords| >= 1 && forall i :: 0 <= i < |nameWords| ==> nameWords[i] != [] && NoSpace(nameWords[i])
    ensures ParsePsLine(JoinSpace([IntToString(pid), user, NatToString(mem), stat] + nameWords)) ==
      Some(ProcessInfo(pid, JoinSpace(nameWords), user, mem, [stat[0]], 0))
  {
    var parts := [IntToString(pid), user, NatToString(mem), stat] + nameWords;
    assert forall i :: 0 <= i < |parts| ==> parts[i] != [] && NoSpace(parts[i]) by {
      assert NoSpace(NatToString(mem)) by {
        assert forall i :: 0 <= i < |NatToString(mem)| ==> IsDigit(NatToString(mem)[i]);
      }
    }
    WordsJoinSpace(parts);
    assert parts[4..] == nameWords;
    ParseIntToString(pid);
    DigitsParse(NatToString(mem));
    DigitsValueOfNat(mem);
  }

  // ---------------------------------------------------------------- listing

  /** The processes decoded from the rows after the header, in order; blank and unparsable rows are skipped. */
  function Processes(rows: seq<string>): (r: seq<ProcessInfo>)
    ensures |r| <= |rows|
  {
    if rows == [] then []
    else
      var prefix := Processes(rows[..|rows| - 1]);
      var row := rows[|rows| - 1];
      if Strip(row) == [] then prefix
      else
        match ParsePsLine(row)
        case None => prefix
        case Some(p) => prefix + [p]
  }

  /** Every listed process is the decoding of one of the rows. */
  lemma {:induction false} ProcessesFromRows(rows: seq<string>)
    ensures forall p :: p in Processes(rows) ==> exists i :: 0 <= i < |rows| && ParsePsLine(rows[i]) == Some(p)
    decreases |rows|
  {
    if rows != [] {
      var init := rows[..|rows| - 1];
      ProcessesFromRows(init);
      forall p | p in Processes(rows) ensures exists i :: 0 <= i < |rows| && ParsePsLine(rows[i]) == Some(p) {
        if p in Processes(init) {
          var i :| 0 <= i < |init| && ParsePsLine(init[i]) == Some(p);
          assert rows[i] == init[i];
        } else {
          assert ParsePsLine(rows[|rows| - 1]) == Some(p);
        }
      }
    }
  }

  /** A row that does not decode is skipped without disturbing the rows before it. */
  lemma {:induction false} ProcessesSkip(rows: seq<string>, bad: string)
    requires ParsePsLine(bad) == None
    ensures Processes(rows + [bad]) == Processes(rows)
  {
    assert (rows + [bad])[..|rows|] == rows;
  }

  /** The row after the others adds its decoding, when it is non-blank and decodes. */
  lemma {:induction false} ProcessesSnoc(rows: seq<string>, row: string)
    ensures Processes(rows + [row]) ==
      Processes(rows) + (if Strip(row) != [] && ParsePsLine(row).Some? then [ParsePsLine(row).value] else [])
  {
    assert (rows + [row])[..|rows|] == rows;
  }

  /** Decoding a concatenation of rows concatenates the decodings. */
  lemma {:induction false} ProcessesAppend(front: seq<string>, back: seq<string>)
    ensures Processes(front + back) == Processes(front) + Processes(back)
    decreases |back|
  {
    if back == [] {
      assert front + back == front;
    } else {
      var init, row := back[..|back| - 1], back[|back| - 1];
      assert back == init + [row];
      assert front + back == (front + init) + [row];
      ProcessesSnoc(front + init, row);
      ProcessesAppend(front, init);
      ProcessesSnoc(init, row);
    }
  }

  /** Every non-blank row that decodes is listed, in the place of its row. */
  lemma {:induction false} ProcessesComplete(rows: seq<string>, i: nat)
    requires i < |rows| && Strip(rows[i]) != [] && ParsePsLine(rows[i]).Some?
    ensures Processes(rows) == Processes(rows[..i]) + [ParsePsLine(rows[i]).value] + Processes(rows[i + 1..])
    ensures ParsePsLine(rows[i]).value in Processes(rows)
  {
    assert rows == (rows[..i] + [rows[i]]) + rows[i + 1..];
    ProcessesAppend(rows[..i] + [rows[i]], rows[i + 1..]);
    ProcessesSnoc(rows[..i], rows[i]);
  }

  /** The specification of `list_processes` for a found device. */
  function Listing(d: Device): seq<ProcessInfo> {
    match d.shell(PsCommand)
    case Raised => []
    case Output(t) =>
      var out := Strip(t);
      if out == [] then [] else Processes(Split(out, "\n")[1..])
  }

  /** `list_processes`: skip the header row, then decode every non-blank row. */
  method ListProcesses(dev: Option<Device>) returns (procs: seq<ProcessInfo>)
    ensures dev.None? ==> procs == []
    ensures dev.Some? ==> procs == Listing(dev.value)
  {
    if dev.None? {
      return [];
    }
    var reply := dev.value.shell(PsCommand);
    if reply.Raised? {
      return [];
    }
    var out := Strip(reply.text);
    if out == [] {
      return [];
    }
    var rows := Split(out, "\n")[1..];
    procs := [];
    var i := 0;
    while i < |rows|
      invariant 0 <= i <= |rows|
      invariant procs == Processes(rows[..i])
    {
      assert rows[..i + 1][..i] == rows[..i];
      if Strip(rows[i]) != [] {
        var p := ParsePsLine(rows[i]);
        if p.Some? {
          procs := procs + [p.value];
        }
      }
      i := i + 1;
    }
    assert rows[..|rows|] == rows;
  }

  /** `get_process_info` over a listing: the first process with the pid. */
  method FindProcess(procs: seq<ProcessInfo>, pid: int) returns (r: Option<ProcessInfo>)
    ensures r.None? <==> forall i :: 0 <= i < |procs| ==> procs[i].pid != pid
    ensures r.Some? ==> r.value.pid == pid
    ensures (r.Some? ==>
      exists i :: 0 <= i < |procs| && procs[i] == r.value && forall j :: 0 <= j < i ==> procs[j].pid != pid)
  {
    var i := 0;
    while i < |procs|
      invariant 0 <= i <= |procs|
      invariant forall j :: 0 <= j < i ==> procs[j].pid != pid
    {
      if procs[i].pid == pid {
        return Some(procs[i]);
      }
      i := i + 1;
    }
    return None;
  }

  /** `get_process_info`: list the processes, then take the first with the pid. */
  method GetProcessInfo(dev: Option<Device>, pid: int) returns (r: Option<ProcessInfo>)
    ensures dev.None? ==> r == None
    ensures dev.Some? ==> (r.None? <==> forall i :: 0 <= i < |Listing(dev.value)| ==> Listing(dev.value)[i].pid != pid)
    ensures (r.Some? ==>
      dev.Some? && r.value.pid == pid &&
      exists i :: 0 <= i < |Listing(dev.value)| && Listing(dev.value)[i] == r.value &&
        forall j :: 0 <= j < i ==> Listing(dev.value)[j].pid != pid)
  {
    var procs := ListProcesses(dev);
    r := FindProcess(procs, pid);
  }

  // ------------------------------------------------------------ kill ladder

  function KillCommand(pid: int, force: bool): string {
    (if force then "kill -9 " else "kill ") + IntToString(pid) + " 2>&1"
  }

  function PsNameCommand(pid: int): string {
    "ps -p " + IntToString(pid) + " -o NAME"
  }

  /** The package a permission-refused kill falls back to: the stripped second line of the `ps -p` output, when it holds a dot. */
  function FallbackPackage(out: string): Option<string> {
    var lines := Split(Strip(out), "\n");
    if |lines| > 1 && '.' in Strip(lines[1]) then Some(Strip(lines[1])) else None
  }

  /** The fallback package holds a dot and has no surrounding whitespace. */
  lemma {:induction false} FallbackPackageShape(out: string)
    requires FallbackPackage(out).Some?
    ensures '.' in FallbackPackage(out).value
    ensures Strip(FallbackPackage(out).value) == FallbackPackage(out).value
  {
    var lines := Split(Strip(out), "\n");
    var p := Strip(lines[1]);
    assert FallbackPackage(out).value == p;
    StripNoOp(p);
  }

  /** Which rung of the ladder decided the outcome. */
  datatype KillPath =
    | NoDevice        // the serial did not resolve
    | NoSuchProcess   // the kill reported `No such process`
    | Killed          // the kill reported no recognised error
    | AppStopped(package: string)  // refused, then the app was force-stopped
    | Denied          // refused, and the fallback did not apply or raised
    | Failed          // the kill command itself raised

  /** The outcome: the boolean the source returns, the rung taken, and the shell commands issued, in order. */
  datatype KillResult = KillResult(ok: bool, path: KillPath, issued: seq<string>)

  predicate Refused(out: string) {
    Contains(out, "Permission denied") || Contains(out, "Operation not permitted")
  }

  /** The stop rungs for a package: `am force-stop`, and in force mode `am kill` after it. */
  function StopRungs(d: Device, pkg: string, force: bool): (r: KillResult)
    ensures r.path == Denied || r.path == AppStopped(pkg)
    ensures r.ok <==> r.path.AppStopped?
    ensures 1 <= |r.issued| <= (if force then 2 else 1) && r.issued[0] == "am force-stop " + pkg
    ensures (r.path.AppStopped? ==> |r.issued| == (if force then 2 else 1))
    ensures (force && |r.issued| == 2 ==> r.issued[1] == "am kill " + pkg)
  {
    var stop := "am force-stop " + pkg;
    match d.shell(stop)
    case Raised => KillResult(false, Denied, [stop])
    case Output(_) =>
      if !force then KillResult(true, AppStopped(pkg), [stop])
      else
        var amKill := "am kill " + pkg;
        match d.shell(amKill)
        case Raised => KillResult(false, Denied, [stop, amKill])
        case Output(_) => KillResult(true, AppStopped(pkg), [stop, amKill])
  }

  /**
   * The rungs after a refused kill: `ps -p` names the process, and a dotted
   * package name goes on to the stop rungs.
   */
  function AfterRefusal(d: Device, pid: int, force: bool): (r: KillResult)
    ensures r.path.Denied? || r.path.AppStopped?
    ensures r.ok <==> r.path.AppStopped?
    ensures 1 <= |r.issued| <= (if force then 3 else 2) && r.issued[0] == PsNameCommand(pid)
    ensures (r.path.AppStopped? ==> |r.issued| == (if force then 3 else 2))
    ensures (r.path.AppStopped? ==> r.issued[1] == "am force-stop " + r.path.package)
    ensures (r.path.AppStopped? && force ==> r.issued[2] == "am kill " + r.path.package)
  {
    var ps := PsNameCommand(pid);
    match d.shell(ps)
    case Raised => KillResult(false, Denied, [ps])
    case Output(o) =>
      match FallbackPackage(o)
      case None => KillResult(false, Denied, [ps])
      case Some(pkg) =>
        var s := StopRungs(d, pkg, force);
        KillResult(s.ok, s.path, [ps] + s.issued)
  }

  /**
   * The specification of `kill_process` (`force` false) and
   * `force_kill_process` (`force` true) for a found device.
   */
  function Ladder(d: Device, pid: int, force: bool): (r: KillResult)
    ensures r.ok <==> r.path.Killed? || r.path.AppStopped?
    ensures 1 <= |r.issued| <= (if force then 4 else 3) && r.issued[0] == KillCommand(pid, force)
    ensures (r.path.AppStopped? ==> |r.issued| == (if force then 4 else 3))
    ensures (r.path.AppStopped? ==> r.issued[2] == "am force-stop " + r.path.package)
    ensures (r.path.AppStopped? && force ==> r.issued[3] == "am kill " + r.path.package)
  {
    var cmd := KillCommand(pid, force);
    match d.shell(cmd)
    case Raised => KillResult(false, Failed, [cmd])
    case Output(res) =>
      if Contains(res, "No such process") then KillResult(false, NoSuchProcess, [cmd])
      else if !Refused(res) then KillResult(true, Killed, [cmd])
      else
        var f := AfterRefusal(d, pid, force);
        KillResult(f.ok, f.path, [cmd] + f.issued)
  }

  /**
   * `No such process` is checked first: it gives false even alongside a
   * permission error. Output with none of the recognised phrases gives true
   * after the one kill command.
   */
  lemma {:induction false} LadderFirstRung(d: Device, pid: int, force: bool, res: string)
    requires d.shell(KillCommand(pid, force)) == Output(res)
    ensures Contains(res, "No such process") ==> Ladder(d, pid, force) == KillResult(false, NoSuchProcess, [KillCommand(pid, force)])
    ensures !Contains(res, "No such process") && !Refused(res) ==>
      Ladder(d, pid, force) == KillResult(true, Killed, [KillCommand(pid, force)])
  {
  }

  /**
   * After a refusal, the kill reports success exactly when the `ps -p`
   * output names a dotted package and the stop commands do not raise; the
   * success is the same `true` a clean kill gives.
   */
  lemma {:induction false} LadderFallback(d: Device, pid: int, force: bool, res: string, o: string)
    requires d.shell(KillCommand(pid, force)) == Output(res) && !Contains(res, "No such process") && Refused(res)
    requires d.shell(PsNameCommand(pid)) == Output(o)
    ensures (Ladder(d, pid, force).ok <==>
      FallbackPackage(o).Some? &&
      d.shell("am force-stop " + FallbackPackage(o).value).Output? &&
      (force ==> d.shell("am kill " + FallbackPackage(o).value).Output?))
    ensures FallbackPackage(o).None? ==> Ladder(d, pid, force) == KillResult(false, Denied, [KillCommand(pid, force), PsNameCommand(pid)])
  {
  }

  /** The stop rungs, one shell call at a time. */
  method RunStop(d: Device, pkg: string, force: bool) returns (ok: bool, path: KillPath, issued: seq<string>)
    ensures KillResult(ok, path, issued) == StopRungs(d, pkg, force)
  {
    var stop := "am force-stop " + pkg;
    issued := [stop];
    var stopReply := d.shell(stop);
    if stopReply.Raised? {
      return false, Denied, issued;
    }
    if !force {
      return true, AppStopped(pkg), issued;
    }
    var amKill := "am kill " + pkg;
    issued := issued + [amKill];
    var killReply := d.shell(amKill);
    if killReply.Raised? {
      return false, Denied, issued;
    }
    return true, AppStopped(pkg), issued;
  }

  /** The rungs after a refusal, one shell call at a time. */
  method RunFallback(d: Device, pid: int, force: bool) returns (ok: bool, path: KillPath, issued: seq<string>)
    ensures KillResult(ok, path, issued) == AfterRefusal(d, pid, force)
  {
    var ps := PsNameCommand(pid);
    var psReply := d.shell(ps);
    if psReply.Raised? {
      return false, Denied, [ps];
    }
    var pkg := FallbackPackage(psReply.text);
    if pkg.None? {
      return false, Denied, [ps];
    }
    var rest;
    ok, path, rest := RunStop(d, pkg.value, force);
    issued := [ps] + rest;
  }

  /** The kill ladder as the source runs it, returning at the first decided rung. */
  method RunLadder(d: Device, pid: int, force: bool) returns (ok: bool, path: KillPath, issued: seq<string>)
    ensures KillResult(ok, path, issued) == Ladder(d, pid, force)
  {
    var cmd := KillCommand(pid, force);
    var reply := d.shell(cmd);
    if reply.Raised? {
      return false, Failed, [cmd];
    }
    var res := reply.text;
    if Contains(res, "No such process") {
      return false, NoSuchProcess, [cmd];
    }
    if Refused(res) {
      var rest;
      ok, path, rest := RunFallback(d, pid, force);
      return ok, path, [cmd] + rest;
    }
    return true, Killed, [cmd];
  }

  /** `kill_process`. */
  method KillProcess(dev: Option<Device>, pid: int) returns (ok: bool, path: KillPath, issued: seq<string>)
    ensures dev.None? ==> !ok && path == NoDevice && issued == []
    ensures dev.Some? ==> KillResult(ok, path, issued) == Ladder(dev.value, pid, false)
  {
    if dev.None? {
      return false, NoDevice, [];
    }
    ok, path, issued := RunLadder(dev.value, pid, false);
  }

  /** `force_kill_process`: the same ladder with `kill -9`, and `am kill` after `am force-stop`. */
  method ForceKillProcess(dev: Option<Device>, pid: int) returns (ok: bool, path: KillPath, issued: seq<string>)
    ensures dev.None? ==> !ok && path == NoDevice && issued == []
    ensures dev.Some? ==> KillResult(ok, path, issued) == Ladder(dev.value, pid, true)
  {
    if dev.None? {
      return false, NoDevice, [];
    }
    ok, path, issued := RunLadder(dev.value, pid, true);
  }
}
