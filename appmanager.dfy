/**
 * The app manager: the `pm list packages` decode, the one-call running set
 * from `ps -A`, the `dumpsys package` field scan, the sorted listing, the
 * single-app queries and the success rules of the app actions.
 */
module AppManager {
  import opened Wrappers
  import opened Text
  import opened Shell
  import opened Sorting
  import opened AppModel

  const Unknown: string := "Unknown"

  // ---------------------------------------------------------- package list

  function PackageListCommand(showSystem: bool): string {
    if showSystem then "pm list packages -s" else "pm list packages -3"
  }

  /**
   * One line of `pm list packages`: a line starting with `package:` gives
   * the line with every `package:` removed, stripped.
   */
  function PackageOfLine(line: string): Option<string> {
    if StartsWith(line, "package:") then Some(Strip(Replace(line, "package:", ""))) else None
  }

  /** A line printed for a package name (no padding, no `package:` inside) decodes back to that name. */
  lemma {:induction false} PackageOfLineRoundTrip(name: string)
    requires !Contains(name, "package:")
    requires name == [] || (!IsSpace(name[0]) && !IsSpace(name[|name| - 1]))
    ensures PackageOfLine("package:" + name) == Some(name)
  {
    ReplaceLeading("package:", name, "");
    assert StartsWith("package:" + name, "package:");
    assert [] + name == name;
    StripNoOp(name);
  }

  /** The package names of the `package:` lines, in order. */
  function PackageList(lines: seq<string>): (r: seq<string>)
    ensures |r| <= |lines|
  {
    if lines == [] then []
    else
      var init := PackageList(lines[..|lines| - 1]);
      match PackageOfLine(lines[|lines| - 1])
      case None => init
      case Some(p) => init + [p]
  }

  /** Every listed package is the decoding of a line starting with `package:`. */
  lemma {:induction false} PackageListLines(lines: seq<string>)
    ensures forall p :: p in PackageList(lines) ==>
      exists i :: 0 <= i < |lines| && StartsWith(lines[i], "package:") && PackageOfLine(lines[i]) == Some(p)
    decreases |lines|
  {
    if lines != [] {
      var init := lines[..|lines| - 1];
      PackageListLines(init);
      forall p | p in PackageList(lines)
        ensures exists i :: 0 <= i < |lines| && StartsWith(lines[i], "package:") && PackageOfLine(lines[i]) == Some(p)
      {
        PackageListSnoc(lines, p);
        if p in PackageList(init) {
          var i :| 0 <= i < |init| && StartsWith(init[i], "package:") && PackageOfLine(init[i]) == Some(p);
          assert lines[i] == init[i];
        } else {
          var k := |lines| - 1;
          assert StartsWith(lines[k], "package:") && PackageOfLine(lines[k]) == Some(p);
        }
      }
    }
  }

  /** A listed package comes from the earlier lines or from the last one. */
  lemma {:induction false} PackageListSnoc(lines: seq<string>, p: string)
    requires lines != [] && p in PackageList(lines)
    ensures p in PackageList(lines[..|lines| - 1]) || PackageOfLine(lines[|lines| - 1]) == Some(p)
  {
  }

  /** One more line adds its decoding, if any, at the end. */
  lemma {:induction false} PackageListStep(lines: seq<string>, line: string)
    ensures PackageList(lines + [line]) ==
      PackageList(lines) + (match PackageOfLine(line) case None => [] case Some(p) => [p])
  {
    assert (lines + [line])[..|lines|] == lines;
  }

  /** The packages of a concatenation of outputs are the packages of each part, in order. */
  lemma {:induction false} PackageListAppend(front: seq<string>, back: seq<string>)
    ensures PackageList(front + back) == PackageList(front) + PackageList(back)
    decreases |back|
  {
    if back == [] {
      assert front + back == front;
    } else {
      var init, line := back[..|back| - 1], back[|back| - 1];
      assert back == init + [line];
      assert front + back == (front + init) + [line];
      PackageListStep(front + init, line);
      PackageListAppend(front, init);
      PackageListStep(init, line);
    }
  }

  /** Every `package:` line gives its name in the place of its line. */
  lemma {:induction false} PackageListComplete(lines: seq<string>, i: nat)
    requires i < |lines| && StartsWith(lines[i], "package:")
    ensures PackageList(lines) ==
      PackageList(lines[..i]) + [Strip(Replace(lines[i], "package:", ""))] + PackageList(lines[i + 1..])
  {
    assert lines == (lines[..i] + [lines[i]]) + lines[i + 1..];
    PackageListAppend(lines[..i] + [lines[i]], lines[i + 1..]);
    PackageListStep(lines[..i], lines[i]);
  }

  /** Every line starting with `package:` gives exactly one entry, whatever follows the prefix. */
  lemma {:induction false} PackageListCount(lines: seq<string>)
    ensures |PackageList(lines)| == |set i | 0 <= i < |lines| && StartsWith(lines[i], "package:")|
    decreases |lines|
  {
    if lines != [] {
      var init := lines[..|lines| - 1];
      PackageListCount(init);
      var pre := set i | 0 <= i < |init| && StartsWith(init[i], "package:");
      var all := set i | 0 <= i < |lines| && StartsWith(lines[i], "package:");
      if StartsWith(lines[|lines| - 1], "package:") {
        assert all == pre + {|lines| - 1};
      } else {
        assert all == pre;
      }
    }
  }

  // ----------------------------------------------------------- running set

  /** The package a `ps -A` row contributes: its last token, when there are nine or more, it holds a dot and is not a path. */
  function RunningName(row: string): (r: Option<string>)
    ensures r.Some? ==> '.' in r.value && !StartsWith(r.value, "/") && r.value in Words(row)
    ensures r.Some? <==>
      (|Words(row)| >= 9 && '.' in Last(Words(row)) && !StartsWith(Last(Words(row)), "/"))
    ensures r.Some? ==> r.value == Last(Words(row))
  {
    var parts := Words(row);
    if |parts| >= 9 && '.' in parts[|parts| - 1] && !StartsWith(parts[|parts| - 1], "/") then
      Some(parts[|parts| - 1])
    else None
  }

  /** A `ps` row of eight or more columns ending in a dotted name contributes that name. */
  lemma {:induction false} RunningNameOf(cols: seq<string>, name: string)
    requires |cols| >= 8
    requires forall i :: 0 <= i < |cols| ==> cols[i] != [] && NoSpace(cols[i])
    requires name != [] && NoSpace(name) && '.' in name && !StartsWith(name, "/")
    ensures RunningName(JoinSpace(cols + [name])) == Some(name)
  {
    var ws := cols + [name];
    forall i | 0 <= i < |ws| ensures ws[i] != [] && NoSpace(ws[i]) {
      if i < |cols| { assert ws[i] == cols[i]; } else { assert ws[i] == name; }
    }
    WordsJoinSpace(ws);
    var parts := Words(JoinSpace(ws));
    assert parts == ws && |parts| >= 9;
    assert parts[|parts| - 1] == name;
  }

  /** The running set accumulated over the rows after the header. */
  function RunningSet(rows: seq<string>): set<string> {
    if rows == [] then {}
    else
      var init := RunningSet(rows[..|rows| - 1]);
      match RunningName(rows[|rows| - 1])
      case None => init
      case Some(p) => init + {p}
  }

  /** A name is in the running set exactly when some row contributes it. */
  lemma {:induction false} RunningSetRows(rows: seq<string>, p: string)
    ensures p in RunningSet(rows) <==> exists i :: 0 <= i < |rows| && RunningName(rows[i]) == Some(p)
    decreases |rows|
  {
    if rows != [] {
      var init := rows[..|rows| - 1];
      RunningSetRows(init, p);
      if exists i :: 0 <= i < |rows| && RunningName(rows[i]) == Some(p) {
        var i :| 0 <= i < |rows| && RunningName(rows[i]) == Some(p);
        if i < |init| {
          assert init[i] == rows[i];
        }
      }
      if exists i :: 0 <= i < |init| && RunningName(init[i]) == Some(p) {
        var i :| 0 <= i < |init| && RunningName(init[i]) == Some(p);
        assert rows[i] == init[i];
      }
    }
  }

  /** The rows of a `ps` output after the header. */
  function BodyRows(out: string): seq<string> {
    Split(Strip(out), "\n")[1..]
  }

  /** The specification of `_get_running_packages_batch`: `ps -A`, or plain `ps` when that printed nothing. */
  function RunningBatch(d: Device): set<string> {
    match d.shell("ps -A")
    case Raised => {}
    case Output(t) =>
      if Strip(t) != [] then RunningSet(BodyRows(t))
      else
        match d.shell("ps")
        case Raised => {}
        case Output(t2) => RunningSet(BodyRows(t2))
  }

  /** `_get_running_packages_batch`: one `ps` call, then a pass over its rows. */
  method GetRunningPackagesBatch(d: Device) returns (running: set<string>)
    ensures running == RunningBatch(d)
    ensures forall p :: p in running ==> '.' in p && !StartsWith(p, "/")
  {
    var reply := d.shell("ps -A");
    if reply.Raised? {
      return {};
    }
    var out := reply.text;
    if Strip(out) == [] {
      reply := d.shell("ps");
      if reply.Raised? {
        return {};
      }
      out := reply.text;
    }
    running := CollectRunning(BodyRows(out));
  }

  /** The pass over the rows: `running.add` for every row that contributes a name. */
  method CollectRunning(rows: seq<string>) returns (running: set<string>)
    ensures running == RunningSet(rows)
    ensures forall p :: p in running ==> '.' in p && !StartsWith(p, "/")
  {
    running := {};
    var i := 0;
    while i < |rows|
      invariant 0 <= i <= |rows|
      invariant running == RunningSet(rows[..i])
      invariant forall p :: p in running ==> '.' in p && !StartsWith(p, "/")
    {
      assert rows[..i + 1][..i] == rows[..i];
      var name := RunningName(rows[i]);
      if name.Some? {
        running := running + {name.value};
      }
      i := i + 1;
    }
    assert rows[..|rows|] == rows;
  }

  // ------------------------------------------------------------ dumpsys scan

  /** The fields `_get_app_info_fast` reads from `dumpsys package`. */
  datatype Fields = Fields(version: string, versionCode: string, enabled: bool)

  const Initial: Fields := Fields(Unknown, Unknown, true)

  /** `line.split(key)[1].split()[0]`: the first token after the first `key`, when there is one. */
  function TokenAfter(line: string, key: string): (r: Option<string>)
    requires |key| > 0 && Contains(line, key)
    ensures r.Some? ==> r.value != [] && NoSpace(r.value)
  {
    SplitSecond(line, key);
    var ws := Words(Split(line, key)[1]);
    if ws == [] then None else Some(ws[0])
  }

  /**
   * A `key` that starts after all of `pre` and does not recur yields the
   * word printed right after it.
   */
  lemma {:induction false} TokenAfterOf(pre: string, key: string, v: string, rest: string)
    requires |key| > 0 && key[0] !in pre
    requires v != [] && NoSpace(v)
    requires !Contains(v + " " + rest, key)
    ensures Contains(pre + key + (v + " " + rest), key)
    ensures TokenAfter(pre + key + (v + " " + rest), key) == Some(v)
  {
    var post := v + " " + rest;
    SplitSecondOf(pre, key, post);
    assert post == v + (" " + rest);
    WordsCons(v, " " + rest);
  }

  /** The verdict of an `enabled=` line. */
  predicate EnabledVerdict(l: string) {
    Contains(l, "=1") || Contains(Lower(l), "=true")
  }

  /** Whether a stripped line reaches the `enabled=` branch of the chain in state `f`. */
  predicate ReachesEnabled(f: Fields, l: string) {
    !(Contains(l, "versionName=") && f.version == Unknown) &&
    !(Contains(l, "versionCode=") && f.versionCode == Unknown) &&
    Contains(l, "enabled=")
  }

  /** One pass of the `if` / `elif` / `elif` chain over one line. */
  function ScanStep(f: Fields, line: string): Fields {
    var l := Strip(line);
    if Contains(l, "versionName=") && f.version == Unknown then
      match TokenAfter(l, "versionName=")
      case None => f
      case Some(v) => f.(version := v)
    else if Contains(l, "versionCode=") && f.versionCode == Unknown then
      match TokenAfter(l, "versionCode=")
      case None => f
      case Some(c) => f.(versionCode := c)
    else if Contains(l, "enabled=") then f.(enabled := EnabledVerdict(l))
    else f
  }

  /** The fields after scanning `lines` in order from the defaults. */
  function Scan(lines: seq<string>): Fields {
    if lines == [] then Initial else ScanStep(Scan(lines[..|lines| - 1]), lines[|lines| - 1])
  }

  lemma {:induction false} ScanSnoc(a: seq<string>, l: string)
    ensures Scan(a + [l]) == ScanStep(Scan(a), l)
  {
    assert (a + [l])[..|a|] == a;
  }

  /** One step keeps a known version and a known version code, and touches the flag only on an `enabled=` line. */
  lemma {:induction false} StepKeeps(f: Fields, l: string)
    ensures f.version != Unknown ==> ScanStep(f, l).version == f.version
    ensures f.versionCode != Unknown ==> ScanStep(f, l).versionCode == f.versionCode
    ensures !Contains(Strip(l), "enabled=") ==> ScanStep(f, l).enabled == f.enabled
  {
  }

  lemma {:induction false} AppendLast<T>(a: seq<T>, b: seq<T>)
    requires b != []
    ensures a + b == (a + b[..|b| - 1]) + [b[|b| - 1]]
  {
  }

  /** Once the version is known no later line changes it; likewise the version code. */
  lemma {:induction false} ScanSticky(a: seq<string>, b: seq<string>)
    ensures Scan(a).version != Unknown ==> Scan(a + b).version == Scan(a).version
    ensures Scan(a).versionCode != Unknown ==> Scan(a + b).versionCode == Scan(a).versionCode
    decreases |b|
  {
    if b != [] {
      var b0 := b[..|b| - 1];
      ScanSticky(a, b0);
      AppendLast(a, b);
      ScanSnoc(a + b0, b[|b| - 1]);
      StepKeeps(Scan(a + b0), b[|b| - 1]);
    } else {
      assert a + b == a;
    }
  }

  /** The first line that yields a `versionName=` token sets the version for good (when the token is not itself `Unknown`). */
  lemma {:induction false} FirstVersionWins(a: seq<string>, l: string, b: seq<string>, v: string)
    requires Scan(a).version == Unknown
    requires Contains(Strip(l), "versionName=") && TokenAfter(Strip(l), "versionName=") == Some(v)
    requires v != Unknown
    ensures Scan(a + [l] + b).version == v
  {
    ScanSnoc(a, l);
    ScanSticky(a + [l], b);
  }

  /** A line without `enabled=` leaves the enabled flag alone. */
  lemma {:induction false} ScanKeepsEnabled(a: seq<string>, b: seq<string>)
    requires forall j :: 0 <= j < |b| ==> !Contains(Strip(b[j]), "enabled=")
    ensures Scan(a + b).enabled == Scan(a).enabled
    decreases |b|
  {
    if b != [] {
      var b0 := b[..|b| - 1];
      assert forall j :: 0 <= j < |b0| ==> b0[j] == b[j];
      ScanKeepsEnabled(a, b0);
      AppendLast(a, b);
      ScanSnoc(a + b0, b[|b| - 1]);
      StepKeeps(Scan(a + b0), b[|b| - 1]);
    } else {
      assert a + b == a;
    }
  }

  /** The last `enabled=` line that reaches its branch decides the enabled flag. */
  lemma {:induction false} LastEnabledWins(a: seq<string>, l: string, b: seq<string>)
    requires ReachesEnabled(Scan(a), Strip(l))
    requires forall j :: 0 <= j < |b| ==> !Contains(Strip(b[j]), "enabled=")
    ensures Scan(a + [l] + b).enabled == EnabledVerdict(Strip(l))
  {
    ScanSnoc(a, l);
    ScanKeepsEnabled(a + [l], b);
  }

  /** With no `versionName=`, `versionCode=` or `enabled=` anywhere, the defaults stand. */
  lemma {:induction false} ScanDefaults(lines: seq<string>)
    requires forall j :: 0 <= j < |lines| ==>
      !Contains(Strip(lines[j]), "versionName=") && !Contains(Strip(lines[j]), "versionCode=") &&
      !Contains(Strip(lines[j]), "enabled=")
    ensures Scan(lines) == Initial
    decreases |lines|
  {
    if lines != [] {
      ScanDefaults(lines[..|lines| - 1]);
    }
  }

  // --------------------------------------------------------------- app name

  /** `package_name.split('.')[1].title()`; `None` where the index raises, that is for a name without a dot. */
  function AppName(pkg: string): (r: Option<string>)
    ensures r.Some? <==> '.' in pkg
    ensures r.Some? ==> |Split(pkg, ".")| >= 2 && r.value == Title(Split(pkg, ".")[1])
  {
    var parts := Split(pkg, ".");
    assert |parts| >= 2 <==> '.' in pkg by {
      ContainsChar(pkg, '.');
      if Contains(pkg, ".") {
        SplitSecond(pkg, ".");
      }
    }
    if |parts| >= 2 then Some(Title(parts[1])) else None
  }

  /** The first dot component of `name + rest` is `name` when `name` has no dot and `rest` is empty or starts with one. */
  lemma {:induction false} FirstComponent(name: string, rest: string)
    requires '.' !in name
    requires rest == [] || rest[0] == '.'
    ensures Split(name + rest, ".")[0] == name
  {
    if rest == [] {
      ContainsChar(name, '.');
      assert name + rest == name;
      SplitHead(name, ".");
    } else {
      assert name + rest == name + "." + rest[1..];
      SplitHeadPrefix(name, ".", rest[1..]);
    }
  }

  /** The second dot component of `vendor.t` is the first of `t` when `vendor` has no dot. */
  lemma {:induction false} SecondComponent(vendor: string, t: string)
    requires '.' !in vendor
    ensures '.' in vendor + "." + t
    ensures |Split(vendor + "." + t, ".")| >= 2 && Split(vendor + "." + t, ".")[1] == Split(t, ".")[0]
  {
    var s := vendor + "." + t;
    SplitHeadPrefix(vendor, ".", t);
    SplitSecond(s, ".");
    assert After(s, ".") == t by { assert s[|vendor| + 1..] == t; }
    assert s[|vendor|] == '.';
  }

  /** The name of `vendor.name` or `vendor.name.more` is the title-cased `name`. */
  lemma {:induction false} AppNameOf(vendor: string, name: string, rest: string)
    requires '.' !in vendor && '.' !in name
    requires rest == [] || rest[0] == '.'
    ensures AppName(vendor + "." + name + rest) == Some(Title(name))
  {
    var t := name + rest;
    assert vendor + "." + name + rest == vendor + "." + t;
    SecondComponent(vendor, t);
    FirstComponent(name, rest);
  }

  /** The `dumpsys` command for one package. */
  function DumpsysCommand(pkg: string): string {
    "dumpsys package " + pkg
  }

  /** The specification of `_get_app_info_fast`. */
  function AppInfoFast(d: Device, pkg: string, isRunning: bool, isSystem: bool): (r: Option<AppInfo>)
    ensures (r.Some? ==>
      r.value.packageName == pkg && r.value.size == 0 && r.value.isRunning == isRunning && r.value.isSystem == isSystem)
    ensures (r.Some? <==> d.shell(DumpsysCommand(pkg)).Output? && '.' in pkg)
    ensures (r.Some? ==>
      r.value.appName == AppName(pkg).value &&
      Fields(r.value.version, r.value.versionCode, r.value.isEnabled) ==
        Scan(Split(Strip(d.shell(DumpsysCommand(pkg)).text), "\n")))
  {
    match d.shell(DumpsysCommand(pkg))
    case Raised => None
    case Output(t) =>
      var f := Scan(Split(Strip(t), "\n"));
      match AppName(pkg)
      case None => None
      case Some(name) => Some(AppInfo(pkg, name, f.version, f.versionCode, 0, isSystem, isRunning, f.enabled))
  }

  /** The body of the scan loop: the `if` / `elif` / `elif` chain on one line. */
  method ScanLine(version: string, versionCode: string, enabled: bool, line: string)
    returns (version': string, versionCode': string, enabled': bool)
    ensures Fields(version', versionCode', enabled') == ScanStep(Fields(version, versionCode, enabled), line)
  {
    version', versionCode', enabled' := version, versionCode, enabled;
    var l := Strip(line);
    if Contains(l, "versionName=") && version == Unknown {
      var v := TokenAfter(l, "versionName=");
      if v.Some? {
        version' := v.value;
      }
    } else if Contains(l, "versionCode=") && versionCode == Unknown {
      var c := TokenAfter(l, "versionCode=");
      if c.Some? {
        versionCode' := c.value;
      }
    } else if Contains(l, "enabled=") {
      enabled' := EnabledVerdict(l);
    }
  }

  lemma {:induction false} ScanPrefix(lines: seq<string>, i: nat)
    requires i < |lines|
    ensures Scan(lines[..i + 1]) == ScanStep(Scan(lines[..i]), lines[i])
  {
    assert lines[..i + 1] == lines[..i] + [lines[i]];
    ScanSnoc(lines[..i], lines[i]);
  }

  /** The loop of `_get_app_info_fast` over the lines of `dumpsys package`. */
  method ScanLines(lines: seq<string>) returns (version: string, versionCode: string, enabled: bool)
    ensures Fields(version, versionCode, enabled) == Scan(lines)
  {
    version, versionCode, enabled := Unknown, Unknown, true;
    var i := 0;
    while i < |lines|
      invariant 0 <= i <= |lines|
      invariant Fields(version, versionCode, enabled) == Scan(lines[..i])
    {
      ScanPrefix(lines, i);
      version, versionCode, enabled := ScanLine(version, versionCode, enabled, lines[i]);
      i := i + 1;
    }
    assert lines[..|lines|] == lines;
  }

  /** `_get_app_info_fast`: one `dumpsys` call, then a pass over its lines. */
  method GetAppInfoFast(d: Device, pkg: string, isRunning: bool, isSystem: bool) returns (r: Option<AppInfo>)
    ensures r == AppInfoFast(d, pkg, isRunning, isSystem)
  {
    var reply := d.shell(DumpsysCommand(pkg));
    if reply.Raised? {
      return None;
    }
    var version, versionCode, enabled := ScanLines(Split(Strip(reply.text), "\n"));
    var name := AppName(pkg);
    if name.None? {
      return None;
    }
    return Some(AppInfo(pkg, name.value, version, versionCode, 0, isSystem, isRunning, enabled));
  }

  // ---------------------------------------------------------------- listing

  /** The apps decoded for the non-empty package names, in package order. */
  function CollectApps(d: Device, pkgs: seq<string>, running: set<string>, showSystem: bool): (r: seq<AppInfo>)
    ensures |r| <= |pkgs|
  {
    if pkgs == [] then []
    else
      var init := CollectApps(d, pkgs[..|pkgs| - 1], running, showSystem);
      var p := pkgs[|pkgs| - 1];
      if p == [] then init
      else
        match AppInfoFast(d, p, p in running, showSystem)
        case None => init
        case Some(a) => init + [a]
  }

  /** The package after the others adds its app, when the name is non-empty and the app is read. */
  lemma {:induction false} CollectAppsSnoc(d: Device, pkgs: seq<string>, p: string, running: set<string>, showSystem: bool)
    ensures CollectApps(d, pkgs + [p], running, showSystem) ==
      CollectApps(d, pkgs, running, showSystem) +
      (if p != [] && AppInfoFast(d, p, p in running, showSystem).Some?
       then [AppInfoFast(d, p, p in running, showSystem).value] else [])
  {
    assert (pkgs + [p])[..|pkgs|] == pkgs;
  }

  /** Collecting over a concatenation of package lists concatenates the collections. */
  lemma {:induction false} CollectAppsAppend(d: Device, front: seq<string>, back: seq<string>, running: set<string>, showSystem: bool)
    ensures CollectApps(d, front + back, running, showSystem) ==
      CollectApps(d, front, running, showSystem) + CollectApps(d, back, running, showSystem)
    decreases |back|
  {
    if back == [] {
      assert front + back == front;
    } else {
      var init, p := back[..|back| - 1], back[|back| - 1];
      assert back == init + [p];
      assert front + back == (front + init) + [p];
      CollectAppsSnoc(d, front + init, p, running, showSystem);
      CollectAppsAppend(d, front, init, running, showSystem);
      CollectAppsSnoc(d, init, p, running, showSystem);
    }
  }

  /** Every non-empty package whose app is read is collected, in the place of its name. */
  lemma {:induction false} CollectAppsComplete(d: Device, pkgs: seq<string>, running: set<string>, showSystem: bool, i: nat)
    requires i < |pkgs| && pkgs[i] != [] && AppInfoFast(d, pkgs[i], pkgs[i] in running, showSystem).Some?
    ensures CollectApps(d, pkgs, running, showSystem) ==
      CollectApps(d, pkgs[..i], running, showSystem) + [AppInfoFast(d, pkgs[i], pkgs[i] in running, showSystem).value] +
      CollectApps(d, pkgs[i + 1..], running, showSystem)
  {
    assert pkgs == (pkgs[..i] + [pkgs[i]]) + pkgs[i + 1..];
    CollectAppsAppend(d, pkgs[..i] + [pkgs[i]], pkgs[i + 1..], running, showSystem);
    CollectAppsSnoc(d, pkgs[..i], pkgs[i], running, showSystem);
  }

  /** Every collected app belongs to a listed, dotted package name, with the running flag taken from the set. */
  lemma {:induction false} CollectAppsFacts(d: Device, pkgs: seq<string>, running: set<string>, showSystem: bool)
    ensures forall a :: a in CollectApps(d, pkgs, running, showSystem) ==>
      a.packageName in pkgs && a.packageName != [] && '.' in a.packageName &&
      a.isSystem == showSystem && a.size == 0 && (a.isRunning <==> a.packageName in running)
    decreases |pkgs|
  {
    if pkgs != [] {
      var init := pkgs[..|pkgs| - 1];
      CollectAppsFacts(d, init, running, showSystem);
      assert forall p :: p in init ==> p in pkgs;
    }
  }

  /** The sort key of the listing: the lower-cased app name. */
  function AppKey(a: AppInfo): SortKey {
    SortKey(false, Lower(a.appName))
  }

  /** The specification of `list_installed_apps` for a found device. */
  function InstalledApps(d: Device, showSystem: bool): seq<AppInfo> {
    match d.shell(PackageListCommand(showSystem))
    case Raised => []
    case Output(t) =>
      var out := Strip(t);
      if out == [] then []
      else Sort(CollectApps(d, PackageList(Split(out, "\n")), RunningBatch(d), showSystem), AppKey)
  }

  /**
   * The listing is sorted by lower-cased app name; every app in it has a
   * dotted name from a `package:` line, the requested system flag, size 0,
   * and is running exactly when the batch running set holds it.
   */
  lemma {:induction false} InstalledAppsFacts(d: Device, showSystem: bool)
    ensures SortedBy(InstalledApps(d, showSystem), AppKey)
    ensures forall a :: a in InstalledApps(d, showSystem) ==>
      a.packageName != [] && '.' in a.packageName && a.isSystem == showSystem && a.size == 0 &&
      (a.isRunning <==> a.packageName in RunningBatch(d))
  {
    var reply := d.shell(PackageListCommand(showSystem));
    if reply.Output? && Strip(reply.text) != [] {
      var pkgs := PackageList(Split(Strip(reply.text), "\n"));
      var apps := CollectApps(d, pkgs, RunningBatch(d), showSystem);
      CollectAppsFacts(d, pkgs, RunningBatch(d), showSystem);
      var sorted := Sort(apps, AppKey);
      SortPermutation(apps, AppKey);
      SortSorted(apps, AppKey);
      assert forall a :: a in sorted ==> a in multiset(sorted);
      assert forall a :: a in multiset(apps) ==> a in apps;
    }
  }

  /** `list_installed_apps`. */
  method ListInstalledApps(dev: Option<Device>, showSystem: bool) returns (apps: seq<AppInfo>)
    ensures dev.None? ==> apps == []
    ensures dev.Some? ==> apps == InstalledApps(dev.value, showSystem)
  {
    if dev.None? {
      return [];
    }
    var d := dev.value;
    var reply := d.shell(PackageListCommand(showSystem));
    if reply.Raised? {
      return [];
    }
    var out := Strip(reply.text);
    if out == [] {
      return [];
    }
    var pkgs := PackageList(Split(out, "\n"));
    var running := GetRunningPackagesBatch(d);
    var collected := CollectAppsLoop(d, pkgs, running, showSystem);
    apps := Sort(collected, AppKey);
  }

  /** The loop over the package names: skip empty names, decode the rest, keep the decoded ones. */
  method CollectAppsLoop(d: Device, pkgs: seq<string>, running: set<string>, showSystem: bool) returns (apps: seq<AppInfo>)
    ensures apps == CollectApps(d, pkgs, running, showSystem)
  {
    apps := [];
    var i := 0;
    while i < |pkgs|
      invariant 0 <= i <= |pkgs|
      invariant apps == CollectApps(d, pkgs[..i], running, showSystem)
    {
      assert pkgs[..i + 1][..i] == pkgs[..i];
      var p := pkgs[i];
      if p != [] {
        var info := GetAppInfoFast(d, p, p in running, showSystem);
        if info.Some? {
          apps := apps + [info.value];
        }
      }
      i := i + 1;
    }
    assert pkgs[..|pkgs|] == pkgs;
  }

  // ------------------------------------------------------- single-app queries

  function PidofCommand(pkg: string): string {
    "pidof " + pkg
  }

  /** `is_app_running`: true exactly when `pidof` printed something other than whitespace. */
  function IsAppRunning(dev: Option<Device>, pkg: string): (r: bool)
    ensures (r <==>
      dev.Some? && dev.value.shell(PidofCommand(pkg)).Output? &&
      exists i :: 0 <= i < |dev.value.shell(PidofCommand(pkg)).text| &&
        !IsSpace(dev.value.shell(PidofCommand(pkg)).text[i]))
  {
    match dev
    case None => false
    case Some(d) =>
      match d.shell(PidofCommand(pkg))
      case Raised => false
      case Output(t) =>
        StripEmpty(t);
        Strip(t) != []
  }

  /** `get_app_info`'s system test: `pm path` names a `/system/` or `/vendor/` location; false when the call raises. */
  function IsSystemPath(d: Device, pkg: string): bool {
    match d.shell("pm path " + pkg)
    case Raised => false
    case Output(t) => Contains(Strip(t), "/system/") || Contains(Strip(t), "/vendor/")
  }

  /**
   * `get_app_info`: the flags the caller leaves out (`None`) are looked up,
   * the rest are used as given.
   */
  method GetAppInfo(dev: Option<Device>, pkg: string, isRunning: Option<bool>, isSystem: Option<bool>)
    returns (r: Option<AppInfo>)
    ensures dev.None? ==> r == None
    ensures dev.Some? ==> r == AppInfoFast(dev.value, pkg,
      isRunning.GetOr(IsAppRunning(dev, pkg)), isSystem.GetOr(IsSystemPath(dev.value, pkg)))
    ensures r.Some? && isRunning.Some? ==> r.value.isRunning == isRunning.value
    ensures r.Some? && isSystem.Some? ==> r.value.isSystem == isSystem.value
  {
    if dev.None? {
      return None;
    }
    var d := dev.value;
    var running := if isRunning.Some? then isRunning.value else IsAppRunning(dev, pkg);
    var system := if isSystem.Some? then isSystem.value else IsSystemPath(d, pkg);
    r := GetAppInfoFast(d, pkg, running, system);
  }

  // ---------------------------------------------------------------- actions

  function StartCommand(pkg: string): string {
    "monkey -p " + pkg + " -c android.intent.category.LAUNCHER 1"
  }

  /**
   * `start_app`. The test is approximate: any output that does not report
   * `No activities found` counts as started, whether or not events were
   * injected.
   */
  function StartApp(dev: Option<Device>, pkg: string): (ok: bool)
    ensures ShellWith(dev, StartCommand(pkg)).None? ==> !ok
    ensures (ShellWith(dev, StartCommand(pkg)).Some? ==>
      var out := ShellWith(dev, StartCommand(pkg)).value;
      (!ok <==> Contains(out, "No activities found") && !Contains(out, "Events injected")))
  {
    match ShellWith(dev, StartCommand(pkg))
    case None => false
    case Some(out) => Contains(out, "Events injected") || !Contains(out, "No activities found")
  }

  /** `stop_app`: true unless the device is missing or `am force-stop` raises; the output is not read. */
  function StopApp(dev: Option<Device>, pkg: string): (ok: bool)
    ensures ok <==> ShellWith(dev, "am force-stop " + pkg).Some?
  {
    match ShellWith(dev, "am force-stop " + pkg)
    case None => false
    case Some(_) => true
  }

  /** `clear_app_data`: true exactly when `pm clear` printed `Success`. */
  function ClearAppData(dev: Option<Device>, pkg: string): (ok: bool)
    ensures ok ==> ShellWith(dev, "pm clear " + pkg).Some?
    ensures (ShellWith(dev, "pm clear " + pkg).Some? ==>
      (ok <==> Contains(ShellWith(dev, "pm clear " + pkg).value, "Success")))
  {
    match ShellWith(dev, "pm clear " + pkg)
    case None => false
    case Some(out) => Contains(out, "Success")
  }

  /** `install_apk`: true unless the device is missing or the install raises. */
  function InstallApk(dev: Option<Device>, apk: string): (ok: bool)
    ensures ok <==> dev.Some? && dev.value.install(apk)
  {
    dev.Some? && dev.value.install(apk)
  }

  /** `uninstall_app`: true unless the device is missing or the uninstall raises. */
  function UninstallApp(dev: Option<Device>, pkg: string): (ok: bool)
    ensures ok <==> dev.Some? && dev.value.uninstall(pkg)
  {
    dev.Some? && dev.value.uninstall(pkg)
  }
}
