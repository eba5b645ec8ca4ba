/** The list logic of the process monitor widget: the search filter and the kill requests made from table rows. */
module ProcessWidget {
  import opened Wrappers
  import opened Text
  import opened ProcessModel
  import opened ListFilter

  /** A process is kept when the lower-cased search occurs in its lower-cased name, its PID in decimal or its lower-cased user. */
  predicate ProcessMatches(p: ProcessInfo, needle: string) {
    Contains(Lower(p.name), needle) || Contains(IntToString(p.pid), needle) || Contains(Lower(p.user), needle)
  }

  /** The list `filter_processes` shows for `search`: every process for an empty search, else the matching ones in order. */
  function FilteredProcesses(processes: seq<ProcessInfo>, search: string): (r: seq<ProcessInfo>)
    ensures search == "" ==> r == processes
    ensures search != "" ==> forall p :: p in r <==> p in processes && ProcessMatches(p, Lower(search))
    ensures Subsequence(r, processes) && |r| <= |processes|
    ensures search != "" ==> forall p :: multiset(r)[p] == if ProcessMatches(p, Lower(search)) then multiset(processes)[p] else 0
  {
    if search == "" then
      SubsequenceRefl(processes);
      processes
    else Keep(processes, p => ProcessMatches(p, Lower(search)))
  }

  /** A search made of the PID's own digits always keeps that process. */
  lemma {:induction false} PidSearchKeeps(processes: seq<ProcessInfo>, i: nat)
    requires i < |processes|
    ensures processes[i] in FilteredProcesses(processes, IntToString(processes[i].pid))
  {
    var s := IntToString(processes[i].pid);
    LowerIntToString(processes[i].pid);
    assert s[..|s|] == s;
    assert ProcessMatches(processes[i], Lower(s));
  }

  /** A decimal integer has no upper-case letter, so lower-casing leaves it alone. */
  lemma {:induction false} LowerIntToString(i: int)
    ensures Lower(IntToString(i)) == IntToString(i)
  {
    var s := IntToString(i);
    if i < 0 {
      assert s[1..] == NatToString(-i);
    }
    assert forall k :: 0 <= k < |s| ==> !IsUpperChar(s[k]);
  }

  function ProcessStatus(shown: nat, total: nat): string {
    StatusText(shown, total, "processes")
  }

  /** What the user picked in a row's context menu. */
  datatype MenuChoice = KillChoice | ForceKillChoice | Dismissed

  /** The signal the widget emits for a process. */
  datatype Request = Kill(pid: int) | ForceKill(pid: int)

  /** The process list, the rows on show, the search text and the status line. */
  class ProcessMonitorWidget {
    var processes: seq<ProcessInfo>
    var filtered: seq<ProcessInfo>
    var searchText: string
    var status: string
    /** Whether the table, the refresh button, the search box and the auto-refresh box take input. */
    var enabled: bool
    /** Whether the five-second auto-refresh timer runs. */
    var timerRunning: bool

    /**
     * The rows on show are always the filter of the process list by the
     * current search text; the status counts them, or says that there is no
     * device.
     */
    predicate Valid()
      reads this
    {
      filtered == FilteredProcesses(processes, searchText) &&
      (status == ProcessStatus(|filtered|, |processes|) || status == NoDeviceText)
    }

    /** A new widget lists nothing, takes input, has its timer stopped, and says that there is no device. */
    constructor ()
      ensures Valid() && processes == [] && filtered == [] && searchText == ""
      ensures status == NoDeviceText && enabled && !timerRunning
    {
      processes := [];
      filtered := [];
      searchText := "";
      status := NoDeviceText;
      enabled := true;
      timerRunning := false;
    }

    /** Ticking the auto-refresh box starts the timer; clearing it stops the timer. */
    method AutoRefreshChanged(checked: bool)
      modifies this
      ensures timerRunning == checked
      ensures processes == old(processes) && filtered == old(filtered) && searchText == old(searchText)
      ensures status == old(status) && enabled == old(enabled)
    {
      timerRunning := checked;
    }

    /**
     * `set_device_connected(connected)`: the controls take input exactly
     * when connected; a disconnect also sets the no-device status and stops
     * the timer. The lists and the search text are kept.
     */
    method SetDeviceConnected(connected: bool)
      requires Valid()
      modifies this
      ensures Valid() && enabled == connected
      ensures processes == old(processes) && filtered == old(filtered) && searchText == old(searchText)
      ensures status == (if connected then old(status) else NoDeviceText)
      ensures timerRunning == (connected && old(timerRunning))
    {
      enabled := connected;
      if !connected {
        status := NoDeviceText;
        timerRunning := false;
      }
    }

    /** `filter_processes(search)`: recomputes the rows on show and the status; the process list is unchanged. */
    method FilterProcesses(search: string)
      modifies this
      ensures processes == old(processes) && searchText == old(searchText) && enabled == old(enabled) && timerRunning == old(timerRunning)
      ensures filtered == FilteredProcesses(processes, search)
      ensures status == ProcessStatus(|filtered|, |processes|)
    {
      if search == "" {
        filtered := processes;
      } else {
        var needle := Lower(search);
        filtered := Keep(processes, p => ProcessMatches(p, needle));
      }
      status := ProcessStatus(|filtered|, |processes|);
    }

    /** Typing in the search box: the text changes and `filter_processes` runs on it. */
    method SetSearchText(text: string)
      modifies this
      ensures Valid() && searchText == text && processes == old(processes)
      ensures status == ProcessStatus(|filtered|, |processes|) && enabled == old(enabled) && timerRunning == old(timerRunning)
    {
      searchText := text;
      FilterProcesses(text);
    }

    /** `update_processes`: the list is replaced and the current search applied again. */
    method UpdateProcesses(newProcesses: seq<ProcessInfo>)
      modifies this
      ensures Valid() && processes == newProcesses && searchText == old(searchText)
      ensures status == ProcessStatus(|filtered|, |processes|) && enabled == old(enabled) && timerRunning == old(timerRunning)
    {
      processes := newProcesses;
      filtered := newProcesses;
      FilterProcesses(searchText);
      status := ProcessStatus(|filtered|, |newProcesses|);
    }

    /**
     * The Kill button: with a selected row on show and the confirmation
     * answered Yes, a kill of that row's process is requested.
     */
    function KillClicked(selected: Option<nat>, confirmed: bool): (r: Option<int>)
      reads this
      requires Valid()
      ensures r.Some? <==> selected.Some? && selected.value < |filtered| && confirmed
      ensures r.Some? ==> r.value == filtered[selected.value].pid
      ensures r.Some? ==> exists p :: p in processes && p.pid == r.value
    {
      if selected.Some? && selected.value < |filtered| && confirmed then
        var p := filtered[selected.value];
        assert p in processes;
        Some(p.pid)
      else None
    }

    /** The context menu of a table row: no menu outside the rows on show, else the chosen kill of that row's process. */
    function MenuRequest(row: int, choice: MenuChoice): (r: Option<Request>)
      reads this
      requires Valid()
      ensures r.Some? <==> 0 <= row < |filtered| && choice != Dismissed
      ensures r.Some? ==> r.value.pid == filtered[row].pid && filtered[row] in processes
      ensures r.Some? ==> (r.value.Kill? <==> choice == KillChoice)
    {
      if row < 0 || row >= |filtered| then None
      else match choice
        case KillChoice => Some(Kill(filtered[row].pid))
        case ForceKillChoice => Some(ForceKill(filtered[row].pid))
        case Dismissed => None
    }
  }
}
