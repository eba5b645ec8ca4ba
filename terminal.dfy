/**
 * The terminal widget: the command line with its history browsed by the
 * arrow keys, the routing of the built-in `clear` and `help` commands, the
 * list of common commands and the list of past submissions.
 */
module Terminal {
  import opened Wrappers
  import opened Text

  // ------------------------------------------------------------ history navigation

  /** Where the command line stands in the history: the index and the text shown. */
  datatype Nav = Nav(index: int, text: string)

  /** The index stays within `-1 ..= |history|` under both arrows. */
  predicate InRange(history: seq<string>, at: Nav) {
    -1 <= at.index <= |history|
  }

  /** The Up arrow: one entry back while there is an earlier one. */
  function NavUp(history: seq<string>, at: Nav): (r: Nav)
    requires InRange(history, at)
    ensures at.index > 0 ==> r.index == at.index - 1 && r.text == history[r.index]
    ensures at.index <= 0 ==> r == at
  {
    if history != [] && at.index > 0 then Nav(at.index - 1, history[at.index - 1]) else at
  }

  /**
   * The Down arrow: one entry forward while there is a later one; from the
   * last entry it moves past the end and empties the line. The second case
   * does not look at whether the history is empty, so Down on an empty
   * history at index -1 moves the index to 0.
   */
  function NavDown(history: seq<string>, at: Nav): (r: Nav)
    requires InRange(history, at)
    ensures at.index < |history| - 1 ==> r.index == at.index + 1 && r.text == history[r.index]
    ensures at.index == |history| - 1 ==> r == Nav(|history|, "")
    ensures at.index == |history| ==> r == at
  {
    if history != [] && at.index < |history| - 1 then Nav(at.index + 1, history[at.index + 1])
    else if at.index == |history| - 1 then Nav(|history|, "")
    else at
  }

  /** The line shows the entry at its index, or nothing past the end. */
  predicate Showing(history: seq<string>, at: Nav) {
    0 <= at.index <= |history| && at.text == (if at.index == |history| then "" else history[at.index])
  }

  /** Down undoes Up: stepping back and forward again restores the line. */
  lemma {:induction false} UpThenDown(history: seq<string>, at: Nav)
    requires Showing(history, at) && at.index > 0
    ensures InRange(history, NavUp(history, at))
    ensures NavDown(history, NavUp(history, at)) == at
  {
  }

  /** Up undoes Down away from the end of the history. */
  lemma {:induction false} DownThenUp(history: seq<string>, at: Nav)
    requires Showing(history, at) && at.index < |history|
    ensures InRange(history, NavDown(history, at))
    ensures NavUp(history, NavDown(history, at)) == at
  {
  }

  /** From just after a submission, Up recalls the newest entry and each further Up an older one. */
  lemma {:induction false} UpRecalls(history: seq<string>, k: nat)
    requires k < |history|
    ensures NavUp(history, Nav(k + 1, if k + 1 == |history| then "" else history[k + 1])) == Nav(k, history[k])
  {
  }

  // ------------------------------------------------------------ the history

  /** A history entry is what `strip` leaves of a non-blank line. */
  predicate Entry(c: string) {
    c != [] && !IsSpace(c[0]) && !IsSpace(c[|c| - 1])
  }

  /** An entry is its own `strip`. */
  lemma {:induction false} EntryStripped(c: string)
    requires Entry(c)
    ensures Strip(c) == c
  {
    StripNoOp(c);
  }

  /** Entries are stripped and non-empty, and no entry repeats the one before it. */
  predicate WellFormed(history: seq<string>) {
    (forall i :: 0 <= i < |history| ==> Entry(history[i])) &&
    (forall i :: 0 < i < |history| ==> history[i] != history[i - 1])
  }

  /** The history a run of submissions leaves: each submission, except one equal to the submission right before it. */
  function Collapse(xs: seq<string>): (r: seq<string>)
    ensures |r| <= |xs|
    ensures r == [] <==> xs == []
    ensures xs != [] ==> r[|r| - 1] == xs[|xs| - 1]
  {
    if |xs| <= 1 then xs
    else
      var p := Collapse(xs[..|xs| - 1]);
      if xs[|xs| - 1] == xs[|xs| - 2] then p else p + [xs[|xs| - 1]]
  }

  /** `command_history` after one more submission of `c` onto `history`. */
  function Appended(history: seq<string>, c: string): seq<string> {
    if history == [] || history[|history| - 1] != c then history + [c] else history
  }

  /** Adding an entry keeps a history well formed. */
  lemma {:induction false} AppendedWellFormed(history: seq<string>, c: string)
    requires WellFormed(history) && Entry(c)
    ensures WellFormed(Appended(history, c))
  {
    if history == [] || history[|history| - 1] != c {
      var r := history + [c];
      forall i | 0 <= i < |r| ensures Entry(r[i]) {
        if i < |history| { assert r[i] == history[i]; }
      }
      forall i | 0 < i < |r| ensures r[i] != r[i - 1] {
        if i < |history| { assert r[i] == history[i] && r[i - 1] == history[i - 1]; }
      }
    }
  }

  /** Adding a submission to a collapsed history collapses the longer run of submissions. */
  lemma {:induction false} AppendedCollapse(xs: seq<string>, c: string)
    ensures Appended(Collapse(xs), c) == Collapse(xs + [c])
  {
    assert (xs + [c])[..|xs|] == xs;
  }

  /** A collapse of stripped non-blank submissions is a well-formed history. */
  lemma {:induction false} CollapseWellFormed(xs: seq<string>)
    requires forall i :: 0 <= i < |xs| ==> Entry(xs[i])
    ensures WellFormed(Collapse(xs))
  {
    CollapseElements(xs);
    CollapseNoRepeat(xs);
  }

  /** Every entry of a collapse is one of the submissions. */
  lemma {:induction false} CollapseElements(xs: seq<string>)
    ensures forall i :: 0 <= i < |Collapse(xs)| ==> Collapse(xs)[i] in xs
    decreases |xs|
  {
    if |xs| > 1 {
      var init := xs[..|xs| - 1];
      CollapseElements(init);
      assert forall s :: s in init ==> s in xs;
    }
  }

  /** No entry of a collapse repeats the one before it. */
  lemma {:induction false} CollapseNoRepeat(xs: seq<string>)
    ensures forall i :: 0 < i < |Collapse(xs)| ==> Collapse(xs)[i] != Collapse(xs)[i - 1]
    decreases |xs|
  {
    if |xs| > 1 {
      var init, x := xs[..|xs| - 1], xs[|xs| - 1];
      CollapseNoRepeat(init);
      var p := Collapse(init);
      if x != xs[|xs| - 2] {
        assert p[|p| - 1] == init[|init| - 1];
      }
    }
  }

  /** The submissions in the order they were made, from a list that puts the newest first. */
  function Reverse(s: seq<string>): (r: seq<string>)
    ensures |r| == |s|
    ensures forall i :: 0 <= i < |s| ==> r[i] == s[|s| - 1 - i]
  {
    if s == [] then [] else Reverse(s[1..]) + [s[0]]
  }

  lemma {:induction false} ReverseCons(c: string, s: seq<string>)
    ensures Reverse([c] + s) == Reverse(s) + [c]
  {
    assert ([c] + s)[1..] == s;
  }

  // ------------------------------------------------------------ the command line

  /** The command line: its text, the submitted commands and the position reached with the arrows. */
  class CommandInput {
    var text: string
    var history: seq<string>
    var index: int

    predicate Valid()
      reads this
    {
      WellFormed(history) && InRange(history, Nav(index, text)) && (index == -1 ==> history == [])
    }

    constructor ()
      ensures Valid() && text == "" && history == [] && index == -1
    {
      text := "";
      history := [];
      index := -1;
    }

    /**
     * Return: a non-blank line is emitted stripped and added to the history
     * unless it repeats the newest entry; the line is emptied and the
     * position moves past the newest entry. A blank line changes nothing.
     */
    method SubmitCommand() returns (emitted: Option<string>)
      requires Valid()
      modifies this
      ensures Valid()
      ensures Strip(old(text)) == [] ==>
        emitted == None && text == old(text) && history == old(history) && index == old(index)
      ensures Strip(old(text)) != [] ==>
        emitted == Some(Strip(old(text))) && Entry(emitted.value) &&
        history == Appended(old(history), emitted.value) &&
        history[|history| - 1] == emitted.value &&
        text == "" && index == |history|
    {
      var command := Strip(text);
      if command != [] {
        AppendedWellFormed(history, command);
        history := Appended(history, command);
        emitted := Some(command);
        text := "";
        index := |history|;
      } else {
        emitted := None;
      }
    }

    /** The Up arrow. */
    method NavigateUp()
      requires Valid()
      modifies this
      ensures Valid() && history == old(history)
      ensures Nav(index, text) == NavUp(history, Nav(old(index), old(text)))
    {
      if history != [] && index > 0 {
        index := index - 1;
        text := history[index];
      }
    }

    /** The Down arrow. */
    method NavigateDown()
      requires Valid()
      modifies this
      ensures Valid() && history == old(history)
      ensures Nav(index, text) == NavDown(history, Nav(old(index), old(text)))
    {
      if history != [] && index < |history| - 1 {
        index := index + 1;
        text := history[index];
      } else if index == |history| - 1 {
        index := |history|;
        text := "";
      }
    }

    /** `get_history`: the submitted commands, oldest first, stripped, non-empty, with no immediate repeats. */
    function History(): (r: seq<string>)
      reads this
      requires Valid()
      ensures r == history
      ensures forall i :: 0 <= i < |r| ==> r[i] != [] && Strip(r[i]) == r[i]
      ensures forall i :: 0 < i < |r| ==> r[i] != r[i - 1]
    {
      forall i | 0 <= i < |history| ensures Strip(history[i]) == history[i] {
        EntryStripped(history[i]);
      }
      history
    }
  }

  // ------------------------------------------------------------ routing

  /** What the terminal does with a submitted command. */
  datatype Action = ClearScreen | ShowHelp | Emit(command: string)

  /** `clear` and `help` in any letter case are handled by the widget; everything else goes to the device. */
  function Route(command: string): (r: Action)
    ensures r == ClearScreen <==> Lower(command) == "clear"
    ensures r == ShowHelp <==> Lower(command) == "help"
    ensures r.Emit? <==> Lower(command) != "clear" && Lower(command) != "help"
    ensures r.Emit? ==> r.command == command
  {
    if Lower(command) == "clear" then ClearScreen
    else if Lower(command) == "help" then ShowHelp
    else Emit(command)
  }

  lemma {:induction false} LowerUpper(s: string)
    ensures Lower(Upper(s)) == Lower(s)
  {
  }

  /** Routing ignores letter case: shouting a command routes it the same way. */
  lemma {:induction false} RouteIgnoresCase(command: string)
    ensures Route(Upper(command)) == (if Route(command).Emit? then Emit(Upper(command)) else Route(command))
  {
    LowerUpper(command);
  }

  lemma {:induction false} RouteBuiltins()
    ensures Route("clear") == ClearScreen && Route("CLEAR") == ClearScreen && Route("Clear") == ClearScreen
    ensures Route("help") == ShowHelp && Route("HELP") == ShowHelp
    ensures Route("ls") == Emit("ls")
  {
    assert Lower("clear") == "clear";
    assert Lower("CLEAR") == "clear";
    assert Lower("Clear") == "clear";
    assert Lower("help") == "help";
    assert Lower("HELP") == "help";
    assert Lower("ls") == "ls";
  }

  // ------------------------------------------------------------ common commands

  /** The common commands, each with its description. */
  const CommonCommands: seq<(string, string)> := [
    ("ls", "List directory contents"),
    ("ls -la", "List all files with details"),
    ("pwd", "Print working directory"),
    ("cd /sdcard", "Change to SD card directory"),
    ("cat /proc/cpuinfo", "Show CPU information"),
    ("cat /proc/meminfo", "Show memory information"),
    ("df -h", "Show disk usage"),
    ("ps", "List running processes"),
    ("top -n 1", "Show top processes"),
    ("getprop", "List all system properties"),
    ("pm list packages", "List all packages"),
    ("pm list packages -3", "List 3rd party packages"),
    ("dumpsys battery", "Show battery info"),
    ("dumpsys window", "Show window info"),
    ("screencap /sdcard/screenshot.png", "Take screenshot"),
    ("input text 'Hello'", "Send text input"),
    ("input keyevent 3", "Send HOME key"),
    ("reboot", "Reboot device"),
    ("exit", "Exit shell")
  ]

  /** The text of a common-command list item. */
  function ItemText(command: string, description: string): string {
    command + "   # " + description
  }

  /** A double-clicked list item puts the text before its first `#`, stripped, on the command line. */
  function CommandOfItem(item: string): string {
    Strip(Split(item, "#")[0])
  }

  /** An item gives back its command when the command has no `#` and no surrounding whitespace. */
  lemma {:induction false} CommandOfItemText(command: string, description: string)
    requires '#' !in command
    requires command == [] || (!IsSpace(command[0]) && !IsSpace(command[|command| - 1]))
    ensures CommandOfItem(ItemText(command, description)) == command
  {
    var pre := command + "   ";
    ItemTextParts(command, description);
    NoHashPadded(command);
    SplitHeadPrefix(pre, "#", " " + description);
    PaddedStrip(command);
  }

  lemma {:induction false} ItemTextParts(command: string, description: string)
    ensures ItemText(command, description) == (command + "   ") + "#" + (" " + description)
  {
  }

  lemma {:induction false} NoHashPadded(command: string)
    requires '#' !in command
    ensures '#' !in command + "   "
  {
  }

  lemma {:induction false} PaddedStrip(command: string)
    requires command == [] || (!IsSpace(command[0]) && !IsSpace(command[|command| - 1]))
    ensures Strip(command + "   ") == command
  {
    assert command + "   " == [] + command + "   ";
    StripPadded([], command, "   ");
  }

  // ------------------------------------------------------------ the terminal widget

  /** The terminal: the command line and the list of past submissions, newest first. */
  class TerminalWidget {
    const input: CommandInput
    var historyItems: seq<string>

    /** The command line's history is the collapse of the submissions listed, read oldest first. */
    predicate Valid()
      reads this, input
    {
      input.Valid() && input.history == Collapse(Reverse(historyItems)) &&
      (forall i :: 0 <= i < |historyItems| ==> Entry(historyItems[i]))
    }

    constructor ()
      ensures Valid() && historyItems == [] && fresh(input)
    {
      input := new CommandInput();
      historyItems := [];
    }

    /**
     * `on_command_submitted`: the command goes to the front of the list, then
     * it is routed. The slot is connected only to the command line's
     * `command_submitted` signal, so it runs only inside `ReturnPressed`,
     * right after the command line recorded the same command; on its own it
     * does not keep `Valid()`.
     */
    method OnCommandSubmitted(command: string) returns (action: Action)
      modifies this
      ensures historyItems == [command] + old(historyItems)
      ensures action == Route(command)
    {
      historyItems := [command] + historyItems;
      action := Route(command);
    }

    /** Return on the command line: a non-blank line is recorded in both histories and routed. */
    method ReturnPressed() returns (action: Option<Action>)
      requires Valid()
      modifies this, input
      ensures Valid()
      ensures action.Some? <==> Strip(old(input.text)) != []
      ensures action.Some? ==> action.value == Route(Strip(old(input.text)))
      ensures action.Some? ==> historyItems == [Strip(old(input.text))] + old(historyItems)
      ensures action.None? ==> historyItems == old(historyItems)
    {
      ghost var items := historyItems;
      var emitted := input.SubmitCommand();
      if emitted.Some? {
        var c := emitted.value;
        var a := OnCommandSubmitted(c);
        ReverseCons(c, items);
        AppendedCollapse(Reverse(items), c);
        assert input.history == Collapse(Reverse(historyItems));
        forall i | 0 <= i < |historyItems| ensures Entry(historyItems[i]) {
          if i > 0 { assert historyItems[i] == items[i - 1]; }
        }
        action := Some(a);
      } else {
        action := None;
      }
    }

    /** `clear_history`: both histories are emptied and the position is reset. */
    method ClearHistory()
      requires Valid()
      modifies this, input
      ensures Valid()
      ensures historyItems == [] && input.history == [] && input.index == -1 && input.text == old(input.text)
    {
      historyItems := [];
      input.history := [];
      input.index := -1;
    }

    /** A double-clicked past submission is put back on the command line. */
    method HistoryItemClicked(row: nat)
      requires Valid() && row < |historyItems|
      modifies input
      ensures Valid() && input.text == historyItems[row]
      ensures input.history == old(input.history) && input.index == old(input.index)
    {
      input.text := historyItems[row];
    }

    /**
     * A double-clicked common command: the text of its list item before the
     * first `#`, stripped, is put on the command line. That gives back the
     * command itself whenever the command holds no `#` and has no surrounding
     * whitespace (`CommandOfItemText`).
     */
    method CommonCommandClicked(i: nat)
      requires Valid() && i < |CommonCommands|
      modifies input
      ensures Valid() && input.text == CommandOfItem(ItemText(CommonCommands[i].0, CommonCommands[i].1))
      ensures var c := CommonCommands[i].0;
        '#' !in c && (c == [] || (!IsSpace(c[0]) && !IsSpace(c[|c| - 1]))) ==> input.text == c
      ensures input.history == old(input.history) && input.index == old(input.index)
    {
      var (command, description) := CommonCommands[i];
      if '#' !in command && (command == [] || (!IsSpace(command[0]) && !IsSpace(command[|command| - 1]))) {
        CommandOfItemText(command, description);
      }
      input.text := CommandOfItem(ItemText(command, description));
    }
  }
}
