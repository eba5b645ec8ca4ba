/**
 * The logcat side of the bridge: clearing the buffer, recognising one line of
 * `threadtime` output, the `adb logcat` argument list, and the read loop with
 * its cooperative stop flag.
 */
module LogcatManager {
  import opened Wrappers
  import opened Text
  import opened Shell
  import opened LogcatModel

  // ------------------------------------------------------------------ clear

  const ClearCommand: string := "logcat -c"

  /** `clear_logcat`: true unless the device is missing or `logcat -c` raises. */
  function ClearLogcat(dev: Option<Device>): (ok: bool)
    ensures ok <==> dev.Some? && dev.value.shell(ClearCommand).Output?
  {
    ShellWith(dev, ClearCommand).Some?
  }

  // ------------------------------------------------------- character runs

  /** Length of the leading run of whitespace (`\s*`, taken greedily). */
  function SpaceLen(s: string): (n: nat)
    decreases |s|
    ensures n <= |s|
    ensures n == |s| || !IsSpace(s[n])
  {
    if s == [] || !IsSpace(s[0]) then 0 else 1 + SpaceLen(s[1..])
  }

  /** The whole run is whitespace. */
  lemma {:induction false} SpaceLenRun(s: string)
    ensures forall i :: 0 <= i < SpaceLen(s) ==> IsSpace(s[i])
    decreases |s|
  {
    if s != [] && IsSpace(s[0]) {
      SpaceLenRun(s[1..]);
      forall i | 1 <= i < SpaceLen(s) ensures IsSpace(s[i]) {
        assert s[i] == s[1..][i - 1];
      }
    }
  }

  /** Length of the leading run of digits (`\d*`, taken greedily). */
  function DigitLen(s: string): (n: nat)
    decreases |s|
    ensures n <= |s|
    ensures n == |s| || !IsDigit(s[n])
  {
    if s == [] || !IsDigit(s[0]) then 0 else 1 + DigitLen(s[1..])
  }

  /** The whole run is digits. */
  lemma {:induction false} DigitLenRun(s: string)
    ensures forall i :: 0 <= i < DigitLen(s) ==> IsDigit(s[i])
    decreases |s|
  {
    if s != [] && IsDigit(s[0]) {
      DigitLenRun(s[1..]);
      forall i | 1 <= i < DigitLen(s) ensures IsDigit(s[i]) {
        assert s[i] == s[1..][i - 1];
      }
    }
  }

  /** Length of the leading run of characters other than a newline (what `.` matches). */
  function LineLen(s: string): (n: nat)
    decreases |s|
    ensures n <= |s|
    ensures n == |s| || s[n] == '\n'
  {
    if s == [] || s[0] == '\n' then 0 else 1 + LineLen(s[1..])
  }

  /** The run holds no newline. */
  lemma {:induction false} LineLenRun(s: string)
    ensures forall i :: 0 <= i < LineLen(s) ==> s[i] != '\n'
    decreases |s|
  {
    if s != [] && s[0] != '\n' {
      LineLenRun(s[1..]);
      forall i | 1 <= i < LineLen(s) ensures s[i] != '\n' {
        assert s[i] == s[1..][i - 1];
      }
    }
  }

  // --------------------------------------------------------- the pattern

  /** `\d{2}-\d{2}`: the date part of the timestamp. */
  predicate DateShape(t: string) {
    |t| == 5 && IsDigit(t[0]) && IsDigit(t[1]) && t[2] == '-' && IsDigit(t[3]) && IsDigit(t[4])
  }

  /** `\d{2}:\d{2}:\d{2}\.\d{3}`: the clock part of the timestamp. */
  predicate ClockShape(t: string) {
    |t| == 12 && IsDigit(t[0]) && IsDigit(t[1]) && t[2] == ':' && IsDigit(t[3]) && IsDigit(t[4]) &&
    t[5] == ':' && IsDigit(t[6]) && IsDigit(t[7]) && t[8] == '.' &&
    IsDigit(t[9]) && IsDigit(t[10]) && IsDigit(t[11])
  }

  predicate AllSpace(s: string) {
    forall i :: 0 <= i < |s| ==> IsSpace(s[i])
  }

  /**
   * The length of the timestamp group at the start of `s`. The inner `\s+`
   * is followed by a digit, so only its greedy, longest choice can match.
   */
  function TimestampLen(s: string): (r: Option<nat>)
    ensures (r.Some? ==>
      18 <= r.value <= |s| && DateShape(s[..5]) && s[5..r.value - 12] != [] &&
      AllSpace(s[5..r.value - 12]) && ClockShape(s[r.value - 12..r.value]))
    ensures (r.Some? <==>
      |s| >= 5 && DateShape(s[..5]) && SpaceLen(s[5..]) >= 1 && 17 + SpaceLen(s[5..]) <= |s| &&
      ClockShape(s[5 + SpaceLen(s[5..])..17 + SpaceLen(s[5..])]))
    ensures r.Some? ==> r.value == 17 + SpaceLen(s[5..])
  {
    if |s| < 5 || !DateShape(s[..5]) then None
    else
      var w := SpaceLen(s[5..]);
      if w == 0 || |s| < 5 + w + 12 || !ClockShape(s[5 + w..5 + w + 12]) then None
      else
        SpaceLenRun(s[5..]);
        assert s[5..5 + w] == s[5..][..w];
        Some(5 + w + 12)
  }

  /**
   * `\s+(\d+)`: a number after whitespace, as the length it consumes. Both
   * runs are followed by a class that excludes them, so only the longest
   * choices can match.
   */
  function Field(s: string): (r: Option<nat>)
    ensures (r.Some? ==>
      1 <= SpaceLen(s) < r.value <= |s| && IsDigits(s[SpaceLen(s)..r.value]) &&
      (r.value == |s| || !IsDigit(s[r.value])))
    ensures r.None? <==> SpaceLen(s) == 0 || DigitLen(s[SpaceLen(s)..]) == 0
    ensures r.Some? ==> r.value == SpaceLen(s) + DigitLen(s[SpaceLen(s)..])
  {
    var w := SpaceLen(s);
    if w == 0 then None
    else
      var n := DigitLen(s[w..]);
      if n == 0 then None
      else
        DigitLenRun(s[w..]);
        assert s[w..w + n] == s[w..][..n];
        Some(w + n)
  }

  /** The six priority letters of `[VDIWEF]`. */
  const Levels: string := "VDIWEF"

  /** `\s+([VDIWEF])`: the level letter and the length consumed. */
  function LevelAt(s: string): (r: Option<(char, nat)>)
    ensures (r.Some? ==>
      2 <= r.value.1 <= |s| && r.value.0 in Levels && s[r.value.1 - 1] == r.value.0 &&
      AllSpace(s[..r.value.1 - 1]))
    ensures r.None? <==> SpaceLen(s) == 0 || SpaceLen(s) == |s| || s[SpaceLen(s)] !in Levels
    ensures r.Some? ==> r.value == (s[SpaceLen(s)], SpaceLen(s) + 1)
  {
    var w := SpaceLen(s);
    if w == 0 || w == |s| || s[w] !in Levels then None
    else
      SpaceLenRun(s);
      assert s[..w + 1 - 1] == s[..w];
      Some((s[w], w + 1))
  }

  /**
   * Where `.+` starts after the separator's `\s+` in `u`: the engine tries
   * `m` whitespace characters, then fewer, until the next character is not a
   * newline (`.` does not match one).
   */
  function MessageStart(u: string, m: nat): (r: Option<nat>)
    requires m <= SpaceLen(u)
    decreases m
    ensures r.Some? ==> 1 <= r.value <= m && r.value < |u| && u[r.value] != '\n'
  {
    if m == 0 then None
    else if m < |u| && u[m] != '\n' then Some(m)
    else MessageStart(u, m - 1)
  }

  /** The start found is the longest choice that works, and none is found only when no choice works. */
  lemma {:induction false} MessageStartLongest(u: string, m: nat)
    requires m <= SpaceLen(u)
    ensures var r := MessageStart(u, m);
      (r.Some? ==> forall k :: r.value < k <= m ==> k == |u| || u[k] == '\n') &&
      (r.None? ==> forall k :: 1 <= k <= m ==> k == |u| || u[k] == '\n')
    decreases m
  {
    if m > 0 && !(m < |u| && u[m] != '\n') {
      MessageStartLongest(u, m - 1);
    }
  }

  /** `\s+(.+)` after the colon: the start of the message, if any. */
  function Separator(u: string): Option<nat> {
    MessageStart(u, SpaceLen(u))
  }

  /** The colon at `e` of `t` ends the tag: `t[..e]` is the tag and a message follows. */
  predicate TagEnds(t: string, e: nat) {
    1 <= e < |t| && t[e] == ':' && Separator(t[e + 1..]).Some?
  }

  /**
   * The lazy `(.+?)`: the first end `e >= q` of the tag at which the rest of
   * the pattern matches, the tag's characters being no newlines.
   */
  function TagEnd(t: string, q: nat): (r: Option<nat>)
    requires 1 <= q
    decreases |t| - q
    ensures r.Some? ==> q <= r.value && TagEnds(t, r.value)
  {
    if q >= |t| || t[q - 1] == '\n' then None
    else if TagEnds(t, q) then Some(q)
    else TagEnd(t, q + 1)
  }

  /** The tag holds no newline. */
  lemma {:induction false} TagEndNoNewline(t: string, q: nat)
    requires 1 <= q
    ensures TagEnd(t, q).Some? ==> NoNewline(t, q - 1, TagEnd(t, q).value)
    decreases |t| - q
  {
    if q < |t| && t[q - 1] != '\n' && !TagEnds(t, q) {
      TagEndNoNewline(t, q + 1);
    }
  }

  /** No newline in `t[lo..hi]`. */
  ghost predicate NoNewline(t: string, lo: int, hi: int)
    requires 0 <= lo
  {
    forall i :: lo <= i < hi && i < |t| ==> t[i] != '\n'
  }

  /** The tag ends at the first colon after which the rest of the pattern matches. */
  lemma {:induction false} TagEndLeast(t: string, q: nat)
    requires 1 <= q
    ensures TagEnd(t, q).Some? ==> forall k :: q <= k < TagEnd(t, q).value ==> !TagEnds(t, k)
    decreases |t| - q
  {
    if q < |t| && t[q - 1] != '\n' && !TagEnds(t, q) {
      assert TagEnd(t, q) == TagEnd(t, q + 1);
      TagEndLeast(t, q + 1);
    }
  }

  /** When no end is found, no colon reachable without crossing a newline would do. */
  lemma {:induction false} TagEndNone(t: string, q: nat)
    requires 1 <= q
    ensures TagEnd(t, q).None? ==> forall k :: q <= k < |t| && NoNewline(t, q - 1, k) ==> !TagEnds(t, k)
    decreases |t| - q
  {
    if q < |t| && t[q - 1] != '\n' && !TagEnds(t, q) {
      assert TagEnd(t, q) == TagEnd(t, q + 1);
      TagEndNone(t, q + 1);
      forall k | q < k < |t| && NoNewline(t, q - 1, k) ensures NoNewline(t, q, k) {
      }
    }
  }

  /**
   * `\s+(.+?)` after the level: the engine first lets `\s+` take all `k`
   * whitespace characters, and gives one back each time the lazy tag finds
   * no end. The result is the whitespace taken and the end of the tag after it.
   */
  function TagStart(s: string, k: nat): (r: Option<(nat, nat)>)
    requires k <= SpaceLen(s)
    decreases k
    ensures r.Some? ==> 1 <= r.value.0 <= k && TagEnd(s[r.value.0..], 1) == Some(r.value.1)
    ensures r.None? ==> forall j :: 1 <= j <= k ==> TagEnd(s[j..], 1).None?
  {
    if k == 0 then None
    else
      match TagEnd(s[k..], 1)
      case Some(e) => Some((k, e))
      case None => TagStart(s, k - 1)
  }

  /** The six groups of a successful match, as text. */
  datatype Groups = Groups(timestamp: string, pid: string, tid: string, level: char, tag: string, message: string)

  /** `\s+(\d+)` as a group: the digits and the length consumed. */
  function Number(s: string): (r: Option<(string, nat)>)
    ensures r.Some? ==> IsDigits(r.value.0) && r.value.1 <= |s|
  {
    match Field(s)
    case None => None
    case Some(p) => Some((s[SpaceLen(s)..p], p))
  }

  /** `\s+(.+?):\s+(.+)` after the level: the tag and message groups. */
  function TagMessage(s: string): (r: Option<(string, string)>)
    ensures r.Some? ==> r.value.0 != [] && '\n' !in r.value.0 && r.value.1 != [] && '\n' !in r.value.1
  {
    match TagStart(s, SpaceLen(s))
    case None => None
    case Some(te) =>
      TagEndNoNewline(s[te.0..], 1);
      Some(TagAndMessage(s[te.0..], te.1))
  }

  /** `re.match` of the threadtime pattern: the groups, or None when the line does not start with a match. */
  function Match(line: string): (r: Option<Groups>)
    ensures (r.Some? ==>
      StartsWith(line, r.value.timestamp) && |r.value.timestamp| >= 18 &&
      IsDigits(r.value.pid) && IsDigits(r.value.tid) && r.value.level in Levels &&
      r.value.tag != [] && '\n' !in r.value.tag &&
      r.value.message != [] && '\n' !in r.value.message)
  {
    match TimestampLen(line)
    case None => None
    case Some(n) => AfterTimestamp(line[..n], line[n..])
  }

  /** The rest of the pattern after the timestamp group `ts`, on the remaining text `s`. */
  function AfterTimestamp(ts: string, s: string): (r: Option<Groups>)
    ensures (r.Some? ==>
      r.value.timestamp == ts && IsDigits(r.value.pid) && IsDigits(r.value.tid) && r.value.level in Levels &&
      r.value.tag != [] && '\n' !in r.value.tag && r.value.message != [] && '\n' !in r.value.message)
  {
    match Number(s)
    case None => None
    case Some(pid) => AfterPid(ts, pid.0, s[pid.1..])
  }

  /** The rest of the pattern after the pid group. */
  function AfterPid(ts: string, pid: string, s: string): (r: Option<Groups>)
    ensures (r.Some? ==>
      r.value.timestamp == ts && r.value.pid == pid && IsDigits(r.value.tid) && r.value.level in Levels &&
      r.value.tag != [] && '\n' !in r.value.tag && r.value.message != [] && '\n' !in r.value.message)
  {
    match Number(s)
    case None => None
    case Some(tid) => AfterTid(ts, pid, tid.0, s[tid.1..])
  }

  /** The rest of the pattern after the tid group: level, tag and message. */
  function AfterTid(ts: string, pid: string, tid: string, s: string): (r: Option<Groups>)
    ensures (r.Some? ==>
      r.value.timestamp == ts && r.value.pid == pid && r.value.tid == tid && r.value.level in Levels &&
      r.value.tag != [] && '\n' !in r.value.tag && r.value.message != [] && '\n' !in r.value.message)
  {
    match LevelAt(s)
    case None => None
    case Some(lv) =>
      match TagMessage(s[lv.1..])
      case None => None
      case Some(tm) => Some(Groups(ts, pid, tid, lv.0, tm.0, tm.1))
  }

  /** The tag and message groups, once the lazy tag has found its end `e` in `t`. */
  function TagAndMessage(t: string, e: nat): (r: (string, string))
    requires TagEnds(t, e) && NoNewline(t, 0, e)
    ensures r.0 == t[..e] && r.0 != [] && '\n' !in r.0
    ensures r.1 != [] && '\n' !in r.1
    ensures Separator(t[e + 1..]).Some?
    ensures var v := t[e + 1..][Separator(t[e + 1..]).value..];
      StartsWith(v, r.1) && (|r.1| == |v| || v[|r.1|] == '\n')
  {
    var u := t[e + 1..];
    var j := Separator(u).value;
    var v := u[j..];
    LineLenRun(v);
    (t[..e], v[..LineLen(v)])
  }

  // ---------------------------------------------------------- parse_log_line

  /**
   * `parse_log_line`: the entry of a matching line, with pid and tid read
   * with `int(...)` and tag and message stripped; None for any other line.
   */
  function ParseLogLine(line: string): (r: Option<LogEntry>)
    ensures r.Some? <==> Match(line).Some?
    ensures (r.Some? ==>
      var g := Match(line).value;
      r.value.timestamp == g.timestamp && StartsWith(line, r.value.timestamp) &&
      r.value.level == [g.level] && r.value.level in LevelNames &&
      r.value.pid >= 0 && ParseInt(g.pid) == Some(r.value.pid) &&
      r.value.tid >= 0 && ParseInt(g.tid) == Some(r.value.tid) &&
      r.value.tag == Strip(g.tag) && r.value.message == Strip(g.message))
  {
    match Match(line)
    case None => None
    case Some(g) => Some(EntryOf(g))
  }

  /** The entry built from the groups of a match. */
  function EntryOf(g: Groups): (e: LogEntry)
    requires IsDigits(g.pid) && IsDigits(g.tid) && g.level in Levels
    ensures e.timestamp == g.timestamp && e.level == [g.level] && e.level in LevelNames
    ensures e.pid >= 0 && ParseInt(g.pid) == Some(e.pid) && e.tid >= 0 && ParseInt(g.tid) == Some(e.tid)
    ensures e.tag == Strip(g.tag) && e.message == Strip(g.message)
  {
    DigitsParse(g.pid);
    DigitsParse(g.tid);
    LevelNamed(g.level);
    LogEntry(g.timestamp, DigitsValue(g.pid), DigitsValue(g.tid), [g.level], Strip(g.tag), Strip(g.message))
  }

  /** Each letter of the pattern's level class is a level with a name. */
  lemma {:induction false} LevelNamed(c: char)
    requires c in Levels
    ensures [c] in LevelNames
  {
    if c == 'V' {} else if c == 'D' {} else if c == 'I' {} else if c == 'W' {} else if c == 'E' {} else {}
  }

  /** `MM-DD HH:MM:SS.mmm` with one space, as `logcat -v threadtime` prints it. */
  predicate TimestampShape(ts: string) {
    |ts| == 18 && DateShape(ts[..5]) && ts[5] == ' ' && ClockShape(ts[6..])
  }

  /** What the timestamp group can hold: the date, a whitespace run, the clock. */
  predicate TimestampGroup(ts: string) {
    |ts| >= 18 && DateShape(ts[..5]) && AllSpace(ts[5..|ts| - 12]) && ClockShape(ts[|ts| - 12..])
  }

  /** A non-empty whitespace run, what one `\s+` consumes. */
  predicate Run(w: string) {
    w != [] && AllSpace(w)
  }

  /**
   * The groups `g` laid out in `line` as the pattern places them: each of
   * the five `\s+` takes the run `w[i]`, and `w[5]` is what follows the
   * message (nothing, or the rest of the text from a newline on).
   */
  predicate Laid(line: string, g: Groups, w: seq<string>) {
    |w| == 6 && Run(w[0]) && Run(w[1]) && Run(w[2]) && Run(w[3]) && Run(w[4]) &&
    (w[5] == [] || w[5][0] == '\n') &&
    line == g.timestamp + (w[0] + (g.pid + (w[1] + (g.tid + (w[2] + ([g.level] +
      (w[3] + (g.tag + (":" + (w[4] + (g.message + w[5])))))))))))
  }

  /** An entry `threadtime` output can carry unchanged: every field already in the form the parser produces. */
  predicate Canonical(e: LogEntry) {
    TimestampShape(e.timestamp) && e.pid >= 0 && e.tid >= 0 &&
    |e.level| == 1 && e.level[0] in Levels &&
    e.tag != [] && NoSpace(e.tag) && ':' !in e.tag &&
    e.message != [] && '\n' !in e.message && !IsSpace(e.message[0]) && !IsSpace(e.message[|e.message| - 1])
  }

  /** One line of `threadtime` output: timestamp, pid, tid, level, `tag: message`, single spaces. */
  function Threadtime(e: LogEntry): string {
    e.timestamp + " " + IntToString(e.pid) + " " + IntToString(e.tid) + " " + e.level + " " + e.tag + ": " + e.message
  }

  lemma {:induction false} SpaceLenOf(w: string, rest: string)
    requires AllSpace(w)
    requires rest == [] || !IsSpace(rest[0])
    ensures SpaceLen(w + rest) == |w|
    decreases |w|
  {
    if w != [] {
      assert (w + rest)[1..] == w[1..] + rest;
      SpaceLenOf(w[1..], rest);
    }
  }

  lemma {:induction false} ShapeIsGroup(ts: string)
    requires TimestampShape(ts)
    ensures TimestampGroup(ts)
  {
    assert ts[5..|ts| - 12] == [ts[5]];
    assert ts[|ts| - 12..] == ts[6..];
  }

  /** A timestamp group followed by anything is read as exactly that group. */
  lemma {:induction false} TimestampOf(ts: string, rest: string)
    requires TimestampGroup(ts)
    ensures TimestampLen(ts + rest) == Some(|ts|)
    ensures (ts + rest)[..|ts|] == ts && (ts + rest)[|ts|..] == rest
  {
    var s := ts + rest;
    var k := |ts| - 12;
    assert s[..5] == ts[..5];
    assert s[5..] == ts[5..k] + (ts[k..] + rest);
    SpaceLenOf(ts[5..k], ts[k..] + rest);
    assert s[k..|ts|] == ts[k..];
    assert s[..|ts|] == ts;
  }

  lemma {:induction false} DigitLenOf(d: string, rest: string)
    requires forall i :: 0 <= i < |d| ==> IsDigit(d[i])
    requires rest == [] || !IsDigit(rest[0])
    ensures DigitLen(d + rest) == |d|
    decreases |d|
  {
    if d != [] {
      assert (d + rest)[1..] == d[1..] + rest;
      DigitLenOf(d[1..], rest);
    }
  }

  /** A whitespace run and a digit string form a number group of exactly those digits. */
  lemma {:induction false} FieldOf(w: string, p: string, rest: string)
    requires Run(w) && IsDigits(p)
    requires rest == [] || !IsDigit(rest[0])
    ensures var s := w + (p + rest);
      Number(s) == Some((p, |w| + |p|)) && s[|w| + |p|..] == rest
  {
    var s := w + (p + rest);
    SpaceLenOf(w, p + rest);
    assert s[|w|..] == p + rest;
    DigitLenOf(p, rest);
    assert s[|w|..|w| + |p|] == p;
    assert s[|w| + |p|..] == rest;
  }

  /** A whitespace run and a level letter give that level. */
  lemma {:induction false} LevelOf(w: string, c: char, rest: string)
    requires Run(w) && c in Levels
    ensures var s := w + ([c] + rest);
      LevelAt(s) == Some((c, |w| + 1)) && s[|w| + 1..] == rest
  {
    var s := w + ([c] + rest);
    assert !IsSpace(c);
    SpaceLenOf(w, [c] + rest);
    assert s[|w|] == c;
    assert s[|w| + 1..] == rest;
  }

  /** A tag without colon or newline, `:`, a run and a message: the lazy tag ends at that colon. */
  lemma {:induction false} TagOf(w3: string, tag: string, w4: string, msg: string, w5: string)
    requires Run(w3) && Run(w4) && (w5 == [] || w5[0] == '\n')
    requires tag != [] && !IsSpace(tag[0]) && '\n' !in tag && ':' !in tag
    requires msg != [] && !IsSpace(msg[0]) && '\n' !in msg
    ensures TagMessage(w3 + (tag + (":" + (w4 + (msg + w5))))) == Some((tag, msg))
  {
    var u := w4 + (msg + w5);
    var t := tag + (":" + u);
    var s := w3 + t;
    SpaceLenOf(w3, t);
    assert s[|w3|..] == t;
    SpaceLenOf(w4, msg + w5);
    assert u[|w4|] == msg[0];
    assert Separator(u) == Some(|w4|);
    assert t[|tag| + 1..] == u;
    assert TagEnds(t, |tag|);
    NoTagEndBefore(t, tag, 1);
    assert TagStart(s, |w3|) == Some((|w3|, |tag|));
    TagEndNoNewline(t, 1);
    var v := u[|w4|..];
    assert v == msg + w5;
    LineLenOf(msg, w5);
    assert v[..|msg|] == msg;
    assert t[..|tag|] == tag;
  }

  lemma {:induction false} NoTagEndBefore(t: string, tag: string, q: nat)
    requires 1 <= q <= |tag| && StartsWith(t, tag) && |t| > |tag|
    requires '\n' !in tag && ':' !in tag && TagEnds(t, |tag|)
    ensures TagEnd(t, q) == Some(|tag|)
    decreases |tag| - q
  {
    assert t[q - 1] == tag[q - 1];
    if q < |tag| {
      assert t[q] == tag[q];
      NoTagEndBefore(t, tag, q + 1);
    }
  }

  lemma {:induction false} LineLenOf(s: string, rest: string)
    requires '\n' !in s
    requires rest == [] || rest[0] == '\n'
    ensures LineLen(s + rest) == |s|
    decreases |s|
  {
    if s != [] {
      assert (s + rest)[1..] == s[1..] + rest;
      LineLenOf(s[1..], rest);
    }
  }

  lemma {:induction false} RunNotDigit(w: string, rest: string)
    requires Run(w)
    ensures (w + rest) != [] && !IsDigit((w + rest)[0])
  {
    assert (w + rest)[0] == w[0];
  }

  /** The pattern read from the tid group on. */
  lemma {:induction false} TidTail(ts: string, pid: string, w1: string, tid: string, w2: string, c: char, r4: string, tag: string, msg: string)
    requires Run(w1) && IsDigits(tid) && Run(w2) && c in Levels && TagMessage(r4) == Some((tag, msg))
    ensures AfterPid(ts, pid, w1 + (tid + (w2 + ([c] + r4)))) == Some(Groups(ts, pid, tid, c, tag, msg))
  {
    TailStep(ts, pid, tid, w2, c, r4, tag, msg);
    RunNotDigit(w2, [c] + r4);
    TidSome(ts, pid, w1, tid, w2 + ([c] + r4), Groups(ts, pid, tid, c, tag, msg));
  }

  /** The pattern read from the pid group on. */
  lemma {:induction false} PidTail(ts: string, w0: string, pid: string, w1: string, tid: string, w2: string, c: char, r4: string, tag: string, msg: string)
    requires Run(w0) && IsDigits(pid) && Run(w1) && IsDigits(tid) && Run(w2) && c in Levels
    requires TagMessage(r4) == Some((tag, msg))
    ensures AfterTimestamp(ts, w0 + (pid + (w1 + (tid + (w2 + ([c] + r4)))))) == Some(Groups(ts, pid, tid, c, tag, msg))
  {
    var r2 := w1 + (tid + (w2 + ([c] + r4)));
    TidTail(ts, pid, w1, tid, w2, c, r4, tag, msg);
    RunNotDigit(w1, tid + (w2 + ([c] + r4)));
    PidSome(ts, w0, pid, r2, Groups(ts, pid, tid, c, tag, msg));
  }

  lemma {:induction false} StartSome(ts: string, r1: string, g: Groups)
    requires TimestampGroup(ts) && AfterTimestamp(ts, r1) == Some(g)
    ensures Match(ts + r1) == Some(g)
  {
    TimestampOf(ts, r1);
  }

  lemma {:induction false} PidSome(ts: string, w: string, pid: string, r2: string, g: Groups)
    requires Run(w) && IsDigits(pid) && (r2 == [] || !IsDigit(r2[0])) && AfterPid(ts, pid, r2) == Some(g)
    ensures AfterTimestamp(ts, w + (pid + r2)) == Some(g)
  {
    PidStep(ts, w, pid, r2);
  }

  lemma {:induction false} TidSome(ts: string, pid: string, w: string, tid: string, r3: string, g: Groups)
    requires Run(w) && IsDigits(tid) && (r3 == [] || !IsDigit(r3[0])) && AfterTid(ts, pid, tid, r3) == Some(g)
    ensures AfterPid(ts, pid, w + (tid + r3)) == Some(g)
  {
    TidStep(ts, pid, w, tid, r3);
  }

  lemma {:induction false} TailStep(ts: string, pid: string, tid: string, w: string, c: char, rest: string, tag: string, msg: string)
    requires Run(w) && c in Levels && TagMessage(rest) == Some((tag, msg))
    ensures AfterTid(ts, pid, tid, w + ([c] + rest)) == Some(Groups(ts, pid, tid, c, tag, msg))
  {
    LevelStep(ts, pid, tid, w, c, rest);
  }

  lemma {:induction false} PidStep(ts: string, w: string, pid: string, rest: string)
    requires Run(w) && IsDigits(pid) && (rest == [] || !IsDigit(rest[0]))
    ensures AfterTimestamp(ts, w + (pid + rest)) == AfterPid(ts, pid, rest)
  {
    FieldOf(w, pid, rest);
    PidRead(ts, w + (pid + rest), pid, |w| + |pid|, rest);
  }

  lemma {:induction false} PidRead(ts: string, s: string, pid: string, k: nat, rest: string)
    requires Number(s) == Some((pid, k)) && s[k..] == rest
    ensures AfterTimestamp(ts, s) == AfterPid(ts, pid, rest)
  {
  }

  lemma {:induction false} TidStep(ts: string, pid: string, w: string, tid: string, rest: string)
    requires Run(w) && IsDigits(tid) && (rest == [] || !IsDigit(rest[0]))
    ensures AfterPid(ts, pid, w + (tid + rest)) == AfterTid(ts, pid, tid, rest)
  {
    FieldOf(w, tid, rest);
    TidRead(ts, pid, w + (tid + rest), tid, |w| + |tid|, rest);
  }

  lemma {:induction false} TidRead(ts: string, pid: string, s: string, tid: string, k: nat, rest: string)
    requires Number(s) == Some((tid, k)) && s[k..] == rest
    ensures AfterPid(ts, pid, s) == AfterTid(ts, pid, tid, rest)
  {
  }

  lemma {:induction false} LevelStep(ts: string, pid: string, tid: string, w: string, c: char, rest: string)
    requires Run(w) && c in Levels
    ensures AfterTid(ts, pid, tid, w + ([c] + rest)) ==
      (match TagMessage(rest) case None => None case Some(tm) => Some(Groups(ts, pid, tid, c, tm.0, tm.1)))
  {
    LevelOf(w, c, rest);
  }

  /**
   * Every line laid out as the pattern reads it, with whitespace runs of any
   * length, matches, and the groups are the laid-out fields.
   */
  lemma {:induction false} MatchThreadtime(line: string, g: Groups, w: seq<string>)
    requires Laid(line, g, w)
    requires TimestampGroup(g.timestamp) && IsDigits(g.pid) && IsDigits(g.tid) && g.level in Levels
    requires g.tag != [] && !IsSpace(g.tag[0]) && '\n' !in g.tag && ':' !in g.tag
    requires g.message != [] && !IsSpace(g.message[0]) && '\n' !in g.message
    ensures Match(line) == Some(g)
  {
    var r4 := w[3] + (g.tag + (":" + (w[4] + (g.message + w[5]))));
    TagOf(w[3], g.tag, w[4], g.message, w[5]);
    PidTail(g.timestamp, w[0], g.pid, w[1], g.tid, w[2], g.level, r4, g.tag, g.message);
    StartSome(g.timestamp, w[0] + (g.pid + (w[1] + (g.tid + (w[2] + ([g.level] + r4))))), g);
  }

  /**
   * The line the pattern's own comment gives, `01-27 13:30:45.123  1234  5678
   * I Tag: Message`, written piece by piece with its two-space runs, matches.
   */
  lemma {:induction false} MatchExample()
    ensures Match("01-27 13:30:45.123" + ("  " + ("1234" + ("  " + ("5678" + (" " + ("I" +
      (" " + ("Tag" + (":" + (" " + "Message"))))))))))) ==
      Some(Groups("01-27 13:30:45.123", "1234", "5678", 'I', "Tag", "Message"))
  {
    var g := Groups("01-27 13:30:45.123", "1234", "5678", 'I', "Tag", "Message");
    var w := ["  ", "  ", " ", " ", " ", []];
    ExampleFields();
    MatchThreadtime("01-27 13:30:45.123" + ("  " + ("1234" + ("  " + ("5678" + (" " + ("I" +
      (" " + ("Tag" + (":" + (" " + "Message")))))))))), g, w);
  }

  /** The example's groups satisfy what the general match lemma asks of them. */
  lemma {:induction false} ExampleFields()
    ensures var g := Groups("01-27 13:30:45.123", "1234", "5678", 'I', "Tag", "Message");
      Laid("01-27 13:30:45.123" + ("  " + ("1234" + ("  " + ("5678" + (" " + ("I" +
        (" " + ("Tag" + (":" + (" " + "Message")))))))))), g, ["  ", "  ", " ", " ", " ", []]) &&
      TimestampGroup(g.timestamp) && IsDigits(g.pid) && IsDigits(g.tid) && g.level in Levels &&
      g.tag != [] && !IsSpace(g.tag[0]) && '\n' !in g.tag && ':' !in g.tag &&
      g.message != [] && !IsSpace(g.message[0]) && '\n' !in g.message
  {
    ExampleRuns();
    ExampleTimestamp();
    ExampleWords();
  }

  lemma {:induction false} ExampleRuns()
    ensures Run("  ") && Run(" ") && "Message" + [] == "Message"
  {
  }

  lemma {:induction false} ExampleTimestamp()
    ensures TimestampGroup("01-27 13:30:45.123")
  {
    var ts := "01-27 13:30:45.123";
    assert ts[..5] == "01-27";
    assert ts[5..|ts| - 12] == " ";
    assert ts[|ts| - 12..] == "13:30:45.123";
  }

  lemma {:induction false} ExampleWords()
    ensures IsDigits("1234") && IsDigits("5678") && 'I' in Levels
    ensures !IsSpace('T') && '\n' !in "Tag" && ':' !in "Tag"
    ensures !IsSpace('M') && '\n' !in "Message"
  {
  }

  /** A `threadtime` line of an entry with natural ids and a one-letter level, with single-space runs. */
  lemma {:induction false} ThreadtimeLaid(e: LogEntry)
    requires e.pid >= 0 && e.tid >= 0 && |e.level| == 1
    ensures Laid(Threadtime(e),
      Groups(e.timestamp, NatToString(e.pid), NatToString(e.tid), e.level[0], e.tag, e.message),
      [" ", " ", " ", " ", " ", []])
  {
    var p := NatToString(e.pid);
    var t := NatToString(e.tid);
    var tail := ":" + (" " + (e.message + []));
    assert ": " + e.message == tail;
    assert e.level == [e.level[0]];
    assert Threadtime(e) == e.timestamp + (" " + (p + (" " + (t + (" " + (e.level + (" " + (e.tag + tail))))))));
  }

  /** A canonical entry printed as a `threadtime` line parses back to itself. */
  lemma {:induction false} ParseThreadtime(e: LogEntry)
    requires Canonical(e)
    ensures ParseLogLine(Threadtime(e)) == Some(e)
  {
    var c := e.level[0];
    assert e.level == [c];
    var g := Groups(e.timestamp, NatToString(e.pid), NatToString(e.tid), c, e.tag, e.message);
    var w := [" ", " ", " ", " ", " ", []];
    var line := Threadtime(e);
    ThreadtimeLaid(e);
    assert Laid(line, g, w);
    ShapeIsGroup(e.timestamp);
    MatchThreadtime(line, g, w);
    assert ParseLogLine(line) == Some(EntryOf(g));
    DigitsValueOfNat(e.pid);
    DigitsValueOfNat(e.tid);
    StripNoOp(e.tag);
    StripNoOp(e.message);
    assert EntryOf(g) == e;
  }

  /** A number group is a whitespace run followed by its digits. */
  lemma {:induction false} NumberLaid(s: string) returns (w: string)
    requires Number(s).Some?
    ensures Run(w) && s == w + (Number(s).value.0 + s[Number(s).value.1..])
  {
    var k := Number(s).value.1;
    var a := SpaceLen(s);
    SpaceLenRun(s);
    w := s[..a];
    assert s == s[..a] + (s[a..k] + s[k..]);
  }

  /** A level group is a whitespace run followed by its letter. */
  lemma {:induction false} LevelLaid(s: string) returns (w: string)
    requires LevelAt(s).Some?
    ensures Run(w) && s == w + ([LevelAt(s).value.0] + s[LevelAt(s).value.1..])
  {
    var k := LevelAt(s).value.1;
    w := s[..k - 1];
    assert s == s[..k - 1] + ([s[k - 1]] + s[k..]);
  }

  lemma {:induction false} LevelRead(ts: string, pid: string, tid: string, s: string, c: char, k: nat, rest: string)
    requires LevelAt(s) == Some((c, k)) && s[k..] == rest
    ensures AfterTid(ts, pid, tid, s) ==
      (match TagMessage(rest) case None => None case Some(tm) => Some(Groups(ts, pid, tid, c, tm.0, tm.1)))
  {
  }

  lemma {:induction false} CutAt(t: string, e: nat)
    requires e < |t|
    ensures t == t[..e] + ([t[e]] + t[e + 1..])
  {
  }

  /** A leading part of the whitespace run is a run, and the text splits there. */
  lemma {:induction false} SpacePrefix(s: string, k: nat)
    requires 1 <= k <= SpaceLen(s)
    ensures Run(s[..k]) && s == s[..k] + s[k..]
  {
    SpaceLenRun(s);
  }

  /** The text around the colon that ends the tag. */
  lemma {:induction false} TagCut(t: string, e: nat)
    requires TagEnds(t, e)
    ensures t == t[..e] + (":" + t[e + 1..])
  {
    CutAt(t, e);
  }

  /** The message runs to a newline or the end. */
  lemma {:induction false} LineCut(v: string)
    ensures var m := LineLen(v); v == v[..m] + v[m..] && (v[m..] == [] || v[m..][0] == '\n')
  {
  }

  /** The tag and message groups: a whitespace run, the tag, a colon, a run, the message, then a newline or nothing. */
  lemma {:induction false} TagMessageLaid(s: string) returns (w3: string, w4: string, w5: string)
    requires TagMessage(s).Some?
    ensures Run(w3) && Run(w4) && (w5 == [] || w5[0] == '\n')
    ensures s == w3 + (TagMessage(s).value.0 + (":" + (w4 + (TagMessage(s).value.1 + w5))))
  {
    var k, e := TagMessageRead(s);
    SpacePrefix(s, k);
    var t := s[k..];
    TagCut(t, e);
    var u := t[e + 1..];
    w3 := s[..k];
    w4, w5 := MessageLaid(u);
  }

  /** Where the tag starts and ends in a successful tag-and-message match. */
  lemma {:induction false} TagMessageRead(s: string) returns (k: nat, e: nat)
    requires TagMessage(s).Some?
    ensures 1 <= k <= SpaceLen(s) && TagEnds(s[k..], e)
    ensures var u := s[k..][e + 1..]; var v := u[Separator(u).value..];
      TagMessage(s).value == (s[k..][..e], v[..LineLen(v)])
  {
    var te := TagStart(s, SpaceLen(s)).value;
    k, e := te.0, te.1;
  }

  /** After the colon: a whitespace run, the message, then a newline or nothing. */
  lemma {:induction false} MessageLaid(u: string) returns (w4: string, w5: string)
    requires Separator(u).Some?
    ensures Run(w4) && (w5 == [] || w5[0] == '\n')
    ensures var v := u[Separator(u).value..]; u == w4 + (v[..LineLen(v)] + w5)
  {
    var j := Separator(u).value;
    SpacePrefix(u, j);
    var v := u[j..];
    LineCut(v);
    w4, w5 := u[..j], v[LineLen(v)..];
  }

  /** After the tid: the level, tag and message groups laid out with their runs. */
  lemma {:induction false} AfterTidLaid(ts: string, pid: string, tid: string, s: string)
    returns (w2: string, w3: string, w4: string, w5: string)
    requires AfterTid(ts, pid, tid, s).Some?
    ensures Run(w2) && Run(w3) && Run(w4) && (w5 == [] || w5[0] == '\n')
    ensures var g := AfterTid(ts, pid, tid, s).value;
      s == w2 + ([g.level] + (w3 + (g.tag + (":" + (w4 + (g.message + w5))))))
  {
    var lv := LevelAt(s).value;
    w2 := LevelLaid(s);
    var r4 := s[lv.1..];
    LevelRead(ts, pid, tid, s, lv.0, lv.1, r4);
    w3, w4, w5 := TagMessageLaid(r4);
  }

  /** After the pid: the tid group and the rest, laid out with their runs. */
  lemma {:induction false} AfterPidLaid(ts: string, pid: string, s: string)
    returns (w1: string, w2: string, w3: string, w4: string, w5: string)
    requires AfterPid(ts, pid, s).Some?
    ensures Run(w1) && Run(w2) && Run(w3) && Run(w4) && (w5 == [] || w5[0] == '\n')
    ensures var g := AfterPid(ts, pid, s).value;
      s == w1 + (g.tid + (w2 + ([g.level] + (w3 + (g.tag + (":" + (w4 + (g.message + w5))))))))
  {
    var tid := Number(s).value;
    w1 := NumberLaid(s);
    var r3 := s[tid.1..];
    TidRead(ts, pid, s, tid.0, tid.1, r3);
    w2, w3, w4, w5 := AfterTidLaid(ts, pid, tid.0, r3);
  }

  /** After the timestamp: the pid group and the rest, laid out with their runs. */
  lemma {:induction false} AfterTimestampLaid(ts: string, s: string)
    returns (w0: string, w1: string, w2: string, w3: string, w4: string, w5: string)
    requires AfterTimestamp(ts, s).Some?
    ensures Run(w0) && Run(w1) && Run(w2) && Run(w3) && Run(w4) && (w5 == [] || w5[0] == '\n')
    ensures var g := AfterTimestamp(ts, s).value;
      s == w0 + (g.pid + (w1 + (g.tid + (w2 + ([g.level] +
        (w3 + (g.tag + (":" + (w4 + (g.message + w5))))))))))
  {
    var pid := Number(s).value;
    w0 := NumberLaid(s);
    var r2 := s[pid.1..];
    PidRead(ts, s, pid.0, pid.1, r2);
    w1, w2, w3, w4, w5 := AfterPidLaid(ts, pid.0, r2);
  }

  /** The timestamp group at the start of a line. */
  lemma {:induction false} TimestampLaid(line: string)
    requires TimestampLen(line).Some?
    ensures var n := TimestampLen(line).value; TimestampGroup(line[..n]) && line == line[..n] + line[n..]
  {
    var n := TimestampLen(line).value;
    var ts := line[..n];
    assert ts[..5] == line[..5];
    assert ts[5..n - 12] == line[5..n - 12];
    assert ts[n - 12..] == line[n - 12..n];
  }

  lemma {:induction false} MatchRead(line: string, n: nat)
    requires TimestampLen(line) == Some(n)
    ensures Match(line) == AfterTimestamp(line[..n], line[n..])
  {
  }

  /** The timestamp and the laid-out rest make the layout of the whole line. */
  lemma {:induction false} LaidFrom(line: string, s: string, g: Groups, w0: string, w1: string, w2: string, w3: string, w4: string, w5: string)
    requires line == g.timestamp + s
    requires Run(w0) && Run(w1) && Run(w2) && Run(w3) && Run(w4) && (w5 == [] || w5[0] == '\n')
    requires s == w0 + (g.pid + (w1 + (g.tid + (w2 + ([g.level] +
      (w3 + (g.tag + (":" + (w4 + (g.message + w5))))))))))
    ensures Laid(line, g, [w0, w1, w2, w3, w4, w5])
  {
  }

  /** Every match lays its groups out in the line, separated by whitespace runs. */
  lemma {:induction false} MatchLaid(line: string)
    requires Match(line).Some?
    ensures TimestampGroup(Match(line).value.timestamp)
    ensures exists w :: Laid(line, Match(line).value, w)
  {
    var n := TimestampLen(line).value;
    TimestampLaid(line);
    MatchRead(line, n);
    var w0, w1, w2, w3, w4, w5 := AfterTimestampLaid(line[..n], line[n..]);
    var g := Match(line).value;
    LaidFrom(line, line[n..], g, w0, w1, w2, w3, w4, w5);
    LaidSome(line, g, [w0, w1, w2, w3, w4, w5]);
  }

  lemma {:induction false} LaidSome(line: string, g: Groups, w: seq<string>)
    requires Laid(line, g, w)
    ensures exists v :: Laid(line, g, v)
  {
  }

  /**
   * A line in the `-v time` layout that `str(entry)` also uses, with a letter
   * for the level, never parses: a digit (the pid) must follow the timestamp.
   */
  lemma {:induction false} TimeLayoutRejected(e: LogEntry)
    requires TimestampShape(e.timestamp) && e.level != [] && e.level[0] in Levels
    ensures ParseLogLine(ToString(e)) == None
  {
    var rest := " " + e.level + "/" + e.tag + ": " + e.message;
    assert ToString(e) == e.timestamp + rest;
    ShapeIsGroup(e.timestamp);
    TimestampOf(e.timestamp, rest);
    assert rest[1] == e.level[0];
    FieldNoDigit(rest);
    NoPidNoMatch(ToString(e), 18);
  }

  /** A single space followed by a letter is no `\s+(\d+)`. */
  lemma {:induction false} FieldNoDigit(s: string)
    requires |s| >= 2 && s[0] == ' ' && s[1] in Levels
    ensures Field(s) == None
  {
    assert s[1..][0] == s[1];
    assert SpaceLen(s[1..]) == 0;
    assert DigitLen(s[1..]) == 0;
  }

  /** A line whose timestamp is not followed by a pid field does not match. */
  lemma {:induction false} NoPidNoMatch(line: string, n: nat)
    requires TimestampLen(line) == Some(n) && Field(line[n..]) == None
    ensures Match(line) == None
  {
  }

  // ---------------------------------------------------------------- stream

  /** `start_logcat_stream`'s argument list. */
  function StreamCommand(serial: string, level: string, tag: Option<string>): (cmd: seq<string>)
    ensures |cmd| >= 6 && cmd[..6] == ["adb", "-s", serial, "logcat", "-v", "time"]
    ensures var lv := level != "" && level != "V"; var tg := tag.Some? && tag.value != "";
      |cmd| == 6 + (if lv then 1 else 0) + (if tg then 2 else 0) &&
      (lv ==> cmd[6] == "*:" + level) &&
      (tg ==> cmd[|cmd| - 2..] == [tag.value + ":*", "*:S"])
  {
    var base := ["adb", "-s", serial, "logcat", "-v", "time"];
    var withLevel := if level != "" && level != "V" then base + ["*:" + level] else base;
    if tag.Some? && tag.value != "" then withLevel + [tag.value + ":*", "*:S"] else withLevel
  }

  /** Read `j` reached the callback as `line`: it was taken with the flag clear, was not empty, and lost its trailing newlines. */
  predicate ReadDelivered(lines: seq<string>, stopAt: nat -> bool, j: nat, line: string) {
    j < |lines| && !stopAt(j) && lines[j] != [] && line == RStripChar(lines[j], '\n')
  }

  /**
   * `r` is what the loop hands over from read `i` on: the reads in order,
   * up to the end of the stream, the first empty read or the first test
   * that finds the flag set.
   */
  predicate DeliveredFrom(lines: seq<string>, stopAt: nat -> bool, i: nat, r: seq<string>) {
    i + |r| <= |lines| &&
    (forall k :: 0 <= k < |r| ==> ReadDelivered(lines, stopAt, i + k, r[k])) &&
    (i + |r| == |lines| || stopAt(i + |r|) || lines[i + |r|] == [])
  }

  /**
   * The lines handed to the callback from read `i` on: `lines` are what
   * successive `readline()` calls return (an empty read, or running out of
   * lines, is the end of the stream), and `stopAt(k)` says whether the flag
   * is set when the loop tests it before read `k`.
   */
  function Delivered(lines: seq<string>, stopAt: nat -> bool, i: nat): (r: seq<string>)
    requires i <= |lines|
    decreases |lines| - i
    ensures DeliveredFrom(lines, stopAt, i, r)
  {
    if i == |lines| || stopAt(i) || lines[i] == [] then []
    else
      var rest := Delivered(lines, stopAt, i + 1);
      DeliveredCons(lines, stopAt, i, RStripChar(lines[i], '\n'), rest);
      [RStripChar(lines[i], '\n')] + rest
  }

  /** A read delivered at `i`, before what is delivered from `i + 1`, is what is delivered from `i`. */
  lemma {:induction false} DeliveredCons(lines: seq<string>, stopAt: nat -> bool, i: nat, line: string, rest: seq<string>)
    requires ReadDelivered(lines, stopAt, i, line) && DeliveredFrom(lines, stopAt, i + 1, rest)
    ensures DeliveredFrom(lines, stopAt, i, [line] + rest)
  {
    var r := [line] + rest;
    forall k | 0 <= k < |r| ensures ReadDelivered(lines, stopAt, i + k, r[k]) {
      if k > 0 {
        assert r[k] == rest[k - 1] && i + k == (i + 1) + (k - 1);
      }
    }
  }

  /** Without a stop request every read up to the end of the stream is delivered. */
  lemma {:induction false} DeliveredAll(lines: seq<string>, stopAt: nat -> bool, i: nat)
    requires i <= |lines|
    requires forall k :: i <= k < |lines| ==> !stopAt(k) && lines[k] != []
    ensures |Delivered(lines, stopAt, i)| == |lines| - i
  {
  }

  /** The stop flag `start_logcat_stream` polls and `stop_streaming` raises. */
  class LogcatManager {
    var stopStreaming: bool

    constructor ()
      ensures !stopStreaming
    {
      stopStreaming := false;
    }

    /** `stop_streaming`: raises the flag; idempotent. */
    method StopStreaming()
      modifies this
      ensures stopStreaming
    {
      stopStreaming := true;
    }

    /**
     * `start_logcat_stream`. When the process cannot be started (`spawned`
     * false) the error propagates and the flag is untouched. Otherwise the
     * flag is cleared, overriding an earlier stop, and the loop delivers
     * `Delivered(lines, stopAt, 0)` in order; `stopAt(k)` stands for a stop
     * requested from another thread, or by the callback, before test `k`.
     */
    method StartLogcatStream(serial: string, level: string, tag: Option<string>, spawned: bool,
                             lines: seq<string>, stopAt: nat -> bool)
      returns (cmd: seq<string>, delivered: Option<seq<string>>)
      modifies this
      ensures cmd == StreamCommand(serial, level, tag)
      ensures !spawned ==> delivered == None && stopStreaming == old(stopStreaming)
      ensures spawned ==> delivered == Some(Delivered(lines, stopAt, 0))
      ensures spawned ==> stopStreaming == stopAt(|delivered.value|)
    {
      cmd := StreamCommand(serial, level, tag);
      if !spawned {
        return cmd, None;
      }
      stopStreaming := false;
      var out := ReadLoop(lines, stopAt);
      delivered := Some(out);
    }

    /** The `while` loop of `start_logcat_stream`, entered with the flag just cleared. */
    method ReadLoop(lines: seq<string>, stopAt: nat -> bool) returns (out: seq<string>)
      requires !stopStreaming
      modifies this
      ensures out == Delivered(lines, stopAt, 0)
      ensures stopStreaming == stopAt(|out|)
    {
      if stopAt(0) {
        stopStreaming := true;
      }
      out := [];
      var i := 0;
      while !stopStreaming
        invariant i == |out| && i <= |lines|
        invariant stopStreaming == stopAt(i)
        invariant out + Delivered(lines, stopAt, i) == Delivered(lines, stopAt, 0)
        decreases |lines| - i
      {
        var line := if i < |lines| then lines[i] else "";
        if line == [] {
          break;
        }
        DeliveredStep(lines, stopAt, i);
        AppendAssoc(out, [RStripChar(line, '\n')], Delivered(lines, stopAt, i + 1));
        out := out + [RStripChar(line, '\n')];
        i := i + 1;
        if stopAt(i) {
          stopStreaming := true;
        }
      }
      assert Delivered(lines, stopAt, i) == [];
      assert out + [] == out;
    }
  }

  /** One more read taken by the loop. */
  lemma {:induction false} DeliveredStep(lines: seq<string>, stopAt: nat -> bool, i: nat)
    requires i < |lines| && !stopAt(i) && lines[i] != []
    ensures Delivered(lines, stopAt, i) == [RStripChar(lines[i], '\n')] + Delivered(lines, stopAt, i + 1)
  {
  }

  lemma {:induction false} AppendAssoc<T>(a: seq<T>, b: seq<T>, c: seq<T>)
    ensures (a + b) + c == a + (b + c)
  {
  }
}
