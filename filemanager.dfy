/**
 * The device file-system manager: symlink resolution, `ls -l` decoding,
 * directory listing under the caller's display path, and the transfer and
 * mutation commands with their text-based success checks.
 *
 * The device is given already looked up (`Option<Device>`, `None` when the
 * serial is unknown); every shell call goes through its oracle.
 */
module FileManager {
  import opened Wrappers
  import opened Text
  import opened Sorting
  import opened Shell
  import opened FileModel
  import PosixPath

  /** The resolver follows at most this many links. */
  const MaxDepth: nat := 10

  /** `p.replace('\\', '/')`: the path with every backslash turned into a slash. */
  function Normalize(p: string): (r: string)
    ensures '\\' !in r
    ensures '\\' !in p ==> r == p
  {
    ReplaceCharIsSubst(p, '\\', "/");
    SubstCharRemoves(p, '\\', "/");
    assert '\\' !in p ==> SubstChar(p, '\\', "/") == p by {
      if '\\' !in p {
        SubstCharAbsent(p, '\\', "/");
      }
    }
    Replace(p, "\\", "/")
  }

  // ---------------------------------------------------------------- commands

  function LsLdCommand(path: string): string {
    "ls -ld " + Quoted(path) + " 2>/dev/null"
  }

  function ListCommand(actual: string, showHidden: bool): string {
    (if showHidden then "ls -la " else "ls -l ") + Quoted(actual) + " 2>&1"
  }

  function ProbeCommand(path: string): string {
    "test -d " + Quoted(path) + " && echo '1' || echo '0'"
  }

  function DeleteCommand(path: string, isDirectory: bool): string {
    (if isDirectory then "rm -r " else "rm ") + Quoted(path)
  }

  function MkdirCommand(path: string): string {
    "mkdir -p " + Quoted(path)
  }

  function RenameCommand(oldPath: string, newPath: string): string {
    "mv " + Quoted(oldPath) + " " + Quoted(newPath)
  }

  // ------------------------------------------------------- symlink resolution

  /**
   * The next path named by the stripped `ls -ld` output of `path`: the text
   * after the only `->`, stripped, and joined onto the directory of `path`
   * when it is relative. `None` when the output is not a single link.
   */
  function LinkTarget(path: string, out: string): Option<string> {
    if Contains(out, "->") && |Split(out, "->")| == 2 then
      var target := Strip(Split(out, "->")[1]);
      if StartsWith(target, "/") then Some(target)
      else Some(Normalize(PosixPath.Join(PosixPath.Dirname(path), target)))
    else None
  }

  /**
   * Output naming a single link gives its target: as written when absolute,
   * under the directory of `path` when relative; any other output gives none.
   */
  lemma {:induction false} LinkTargetCases(path: string, out: string)
    ensures LinkTarget(path, out).Some? <==> Contains(out, "->") && !Contains(After(out, "->"), "->")
    ensures LinkTarget(path, out).Some? ==>
      var target := Strip(After(out, "->"));
      LinkTarget(path, out).value ==
        (if StartsWith(target, "/") then target
         else Normalize(PosixPath.Join(PosixPath.Dirname(path), target)))
  {
    SplitTwo(out, "->");
    if Contains(out, "->") {
      SplitSecond(out, "->");
    }
  }

  /** What one `ls -ld` probe of a path tells the resolver: the call raised, the path is no single link, or it links to `next`. */
  datatype Probe = ProbeRaised | NotLink | LinkTo(next: string)

  /** One `ls -ld` probe of `path` on `d`, decoded by `LinkTarget`. */
  function ProbeLink(d: Device, path: string): Probe {
    match d.shell(LsLdCommand(path))
    case Raised => ProbeRaised
    case Output(t) =>
      match LinkTarget(path, Strip(t))
      case None => NotLink
      case Some(next) => LinkTo(next)
  }

  /** The outcome of resolving: the path reached (`None` when a probe raised) and the paths probed, in order. */
  datatype Resolution = Resolution(target: Option<string>, probed: seq<string>)

  /** The resolver's specification: follow links from `path` for at most `hops` more steps, never probing a path in `visited`. */
  function Resolve(probe: string -> Probe, path: string, visited: set<string>, hops: nat): (r: Resolution)
    ensures |r.probed| <= hops
    ensures r.probed == [] ==> r.target == Some(path)
    ensures r.probed != [] ==> r.probed[0] == path
    decreases hops
  {
    if hops == 0 || path in visited then Resolution(Some(path), [])
    else
      match probe(path)
      case ProbeRaised => Resolution(None, [path])
      case NotLink => Resolution(Some(path), [path])
      case LinkTo(next) =>
        var rest := Resolve(probe, next, visited + {path}, hops - 1);
        var probed := [path] + rest.probed;
        Resolution(rest.target, probed)
  }

  /** Paths probed by one resolution: none of them already visited, and none probed twice. */
  predicate FreshProbes(probed: seq<string>, visited: set<string>) {
    (forall i :: 0 <= i < |probed| ==> probed[i] !in visited) &&
    (forall i, j :: 0 <= i < j < |probed| ==> probed[i] != probed[j])
  }

  /** No resolution probes a path it was told is visited, or any path twice. */
  lemma {:induction false} ResolveDistinct(probe: string -> Probe, path: string, visited: set<string>, hops: nat)
    ensures FreshProbes(Resolve(probe, path, visited, hops).probed, visited)
    decreases hops
  {
    if hops > 0 && path !in visited && probe(path).LinkTo? {
      var next := probe(path).next;
      ResolveDistinct(probe, next, visited + {path}, hops - 1);
      var rest := Resolve(probe, next, visited + {path}, hops - 1).probed;
      var probed := [path] + rest;
      assert Resolve(probe, path, visited, hops).probed == probed;
      forall i | 0 < i < |probed| ensures probed[i] == rest[i - 1] && probed[i] !in visited + {path} {
      }
    }
  }

  /** A path that is no single link resolves to itself after one probe. */
  lemma {:induction false} ResolveNotLink(probe: string -> Probe, path: string, visited: set<string>, hops: nat)
    requires hops > 0 && path !in visited && probe(path) == NotLink
    ensures Resolve(probe, path, visited, hops) == Resolution(Some(path), [path])
  {
  }

  /** One link followed: the probe of `path` is followed by the resolution of its target. */
  lemma {:induction false} ResolveStep(probe: string -> Probe, path: string, next: string, visited: set<string>, hops: nat)
    requires hops > 0 && path !in visited && probe(path) == LinkTo(next)
    ensures var rest := Resolve(probe, next, visited + {path}, hops - 1);
      Resolve(probe, path, visited, hops) == Resolution(rest.target, [path] + rest.probed)
  {
  }

  /** Two paths that link to each other: both are probed once, and resolution stops at the first one when it comes round again. */
  lemma {:induction false} ResolveCycle(probe: string -> Probe, p: string, q: string)
    requires p != q && probe(p) == LinkTo(q) && probe(q) == LinkTo(p)
    ensures Resolve(probe, p, {}, MaxDepth) == Resolution(Some(p), [p, q])
  {
    ResolveBack(probe, p, q, MaxDepth - 1);
    ResolveStep(probe, p, q, {}, MaxDepth);
    assert {} + {p} == {p};
  }

  lemma {:induction false} ResolveBack(probe: string -> Probe, p: string, q: string, hops: nat)
    requires p != q && hops >= 2 && probe(q) == LinkTo(p)
    ensures Resolve(probe, q, {p}, hops) == Resolution(Some(p), [q])
  {
    ResolveStep(probe, q, p, {p}, hops);
    assert p in {p} + {q};
  }

  /** A chain of more than ten links: resolution stops after ten probes at the eleventh path, without probing it. */
  lemma {:induction false} ResolveDepth(probe: string -> Probe, chain: seq<string>)
    requires |chain| == MaxDepth + 1
    requires forall i, j :: 0 <= i < j < |chain| ==> chain[i] != chain[j]
    requires forall i :: 0 <= i < MaxDepth ==> probe(chain[i]) == LinkTo(chain[i + 1])
    ensures Resolve(probe, chain[0], {}, MaxDepth) == Resolution(Some(chain[MaxDepth]), chain[..MaxDepth])
  {
    ResolveChain(probe, chain, {}, MaxDepth);
  }

  /** Following a chain of distinct, unvisited links for `hops` steps probes each but the last. */
  lemma {:induction false} ResolveChain(probe: string -> Probe, chain: seq<string>, visited: set<string>, hops: nat)
    requires |chain| == hops + 1
    requires forall i, j :: 0 <= i < j < |chain| ==> chain[i] != chain[j]
    requires forall i :: 0 <= i < |chain| ==> chain[i] !in visited
    requires forall i :: 0 <= i < hops ==> probe(chain[i]) == LinkTo(chain[i + 1])
    ensures Resolve(probe, chain[0], visited, hops) == Resolution(Some(chain[hops]), chain[..hops])
    decreases hops
  {
    if hops > 0 {
      var chain' := chain[1..];
      ResolveChain(probe, chain', visited + {chain[0]}, hops - 1);
      ResolveStep(probe, chain[0], chain[1], visited, hops);
      assert chain[..hops] == [chain[0]] + chain'[..hops - 1];
    }
  }

  /** The symlink map after resolving `original`: written only when the path reached differs from it. */
  function Remember(m: map<string, string>, original: string, r: Resolution): (m': map<string, string>)
    ensures r.target.Some? && r.target.value != original ==> m' == m[original := r.target.value]
    ensures r.target.None? || r.target.value == original ==> m' == m
  {
    if r.target.Some? && r.target.value != original then m[original := r.target.value] else m
  }

  // ------------------------------------------------------------ ls -l lines

  /** The entry name in an `ls -l` row: tokens 8 onward joined by single spaces, cut before any `->`. */
  function EntryName(parts: seq<string>): (name: string)
    requires |parts| >= 8
  {
    var n := JoinSpace(parts[7..]);
    if Contains(n, "->") then Strip(Split(n, "->")[0]) else n
  }

  /** `base + name`, with a slash between them unless the base already ends in one. */
  function ChildPath(base: string, name: string): (r: string)
    ensures StartsWith(r, base) && EndsWith(r, name)
    ensures EndsWith(base, "/") ==> |r| == |base| + |name|
    ensures !EndsWith(base, "/") ==> |r| == |base| + 1 + |name| && r[|base|] == '/'
  {
    if EndsWith(base, "/") then base + name else base + "/" + name
  }

  /** The child path is the base joined with the name, so the name is its base name. */
  lemma {:induction false} ChildPathBasename(base: string, name: string)
    requires '/' !in name && (base != [] || name != [])
    ensures ChildPath(base, name) == PosixPath.Join(base, name) || base == []
    ensures base != [] ==> PosixPath.Basename(ChildPath(base, name)) == name
  {
    if base != [] {
      PosixPath.BasenameJoin(base, name);
    }
  }

  /** Whether the `test -d` probe of `path` printed exactly `1`. */
  predicate ProbeSaysDirectory(d: Device, path: string) {
    match d.shell(ProbeCommand(path))
    case Output(t) => Strip(t) == "1"
    case Raised => false
  }

  /**
   * One `ls -l` row under display base `displayBase` and resolved base
   * `actualBase`. A link is probed with `test -d` at its path under the
   * resolved base; `None` for a row of fewer than eight tokens or a probe
   * that raised.
   */
  function ParseLsLine(line: string, displayBase: string, actualBase: string, d: Device): (r: Option<FileItem>)
    ensures r.None? <==>
      (|Words(line)| < 8 || (StartsWith(Words(line)[0], "l") &&
        d.shell(ProbeCommand(ChildPath(actualBase, EntryName(Words(line))))) == Raised))
    ensures r.Some? ==> var parts := Words(line); var f := r.value;
      f.name == EntryName(parts) && f.path == ChildPath(displayBase, f.name) &&
      f.permissions == parts[0] && f.owner == parts[2] && f.size == DigitsOrZero(parts[4]) &&
      (f.isSymlink <==> StartsWith(parts[0], "l")) &&
      (f.isDirectory <==>
        (StartsWith(parts[0], "d") || (f.isSymlink && ProbeSaysDirectory(d, ChildPath(actualBase, f.name)))))
  {
    var parts := Words(line);
    if |parts| < 8 then None
    else
      var perms := parts[0];
      var name := EntryName(parts);
      var isSymlink := StartsWith(perms, "l");
      var item := FileItem(name, ChildPath(displayBase, name), DigitsOrZero(parts[4]), perms,
        StartsWith(perms, "d"), isSymlink, parts[2]);
      if !isSymlink then Some(item)
      else
        match d.shell(ProbeCommand(ChildPath(actualBase, name)))
        case Raised => None
        case Output(t) => Some(item.(isDirectory := item.isDirectory || Strip(t) == "1"))
  }

  /** A row built from seven single-word columns and a name of single-space-separated words decodes to those columns and that name. */
  lemma {:induction false} ParseCanonicalLine(columns: seq<string>, nameWords: seq<string>, displayBase: string, actualBase: string, d: Device)
    requires |columns| == 7 && |nameWords| >= 1
    requires forall i :: 0 <= i < |columns| ==> columns[i] != [] && NoSpace(columns[i])
    requires forall i :: 0 <= i < |nameWords| ==> nameWords[i] != [] && NoSpace(nameWords[i])
    requires !Contains(JoinSpace(nameWords), "->") && !StartsWith(columns[0], "l")
    ensures var r := ParseLsLine(JoinSpace(columns + nameWords), displayBase, actualBase, d);
      r.Some? && r.value.name == JoinSpace(nameWords) && r.value.permissions == columns[0] &&
      r.value.owner == columns[2] && r.value.size == DigitsOrZero(columns[4]) && !r.value.isSymlink &&
      r.value.isDirectory == StartsWith(columns[0], "d") && r.value.path == ChildPath(displayBase, JoinSpace(nameWords))
  {
    var parts := columns + nameWords;
    WordsJoinSpace(parts);
    assert parts[7..] == nameWords;
  }

  // ----------------------------------------------------------------- listing

  /** The entry a listing keeps for one output line, if any: not blank, not `total`, decodable, not `.` or `..`, and not hidden unless asked for. */
  function Accept(line: string, displayBase: string, actualBase: string, d: Device, showHidden: bool): (r: Option<FileItem>)
    ensures r.Some? ==> r == ParseLsLine(line, displayBase, actualBase, d)
    ensures r.Some? ==> r.value.name != "." && r.value.name != ".." && (showHidden || !StartsWith(r.value.name, "."))
    ensures (r.None? <==>
      Strip(line) == [] || StartsWith(line, "total") || ParseLsLine(line, displayBase, actualBase, d).None? ||
      (var f := ParseLsLine(line, displayBase, actualBase, d).value;
       f.name == "." || f.name == ".." || (!showHidden && StartsWith(f.name, "."))))
  {
    if Strip(line) == [] || StartsWith(line, "total") then None
    else
      match ParseLsLine(line, displayBase, actualBase, d)
      case None => None
      case Some(f) =>
        if f.name == "." || f.name == ".." then None
        else if !showHidden && StartsWith(f.name, ".") then None
        else Some(f)
  }

  /** The kept entries of `lines`, in output order. */
  function Entries(lines: seq<string>, displayBase: string, actualBase: string, d: Device, showHidden: bool): (r: seq<FileItem>)
    ensures |r| <= |lines|
  {
    if lines == [] then []
    else
      var prefix := Entries(lines[..|lines| - 1], displayBase, actualBase, d, showHidden);
      match Accept(lines[|lines| - 1], displayBase, actualBase, d, showHidden)
      case None => prefix
      case Some(f) => prefix + [f]
  }

  /** The line after the others adds its entry, when it is kept. */
  lemma {:induction false} EntriesSnoc(lines: seq<string>, line: string, displayBase: string, actualBase: string, d: Device, showHidden: bool)
    ensures Entries(lines + [line], displayBase, actualBase, d, showHidden) ==
      Entries(lines, displayBase, actualBase, d, showHidden) +
      (match Accept(line, displayBase, actualBase, d, showHidden) case None => [] case Some(f) => [f])
  {
    assert (lines + [line])[..|lines|] == lines;
  }

  /** The entries of a concatenation of lines are the entries of each part, in order. */
  lemma {:induction false} EntriesAppend(front: seq<string>, back: seq<string>, displayBase: string, actualBase: string, d: Device, showHidden: bool)
    ensures Entries(front + back, displayBase, actualBase, d, showHidden) ==
      Entries(front, displayBase, actualBase, d, showHidden) + Entries(back, displayBase, actualBase, d, showHidden)
    decreases |back|
  {
    if back == [] {
      assert front + back == front;
    } else {
      var init, line := back[..|back| - 1], back[|back| - 1];
      assert back == init + [line];
      assert front + back == (front + init) + [line];
      EntriesSnoc(front + init, line, displayBase, actualBase, d, showHidden);
      EntriesAppend(front, init, displayBase, actualBase, d, showHidden);
      EntriesSnoc(init, line, displayBase, actualBase, d, showHidden);
    }
  }

  /** Every kept line gives an entry, in the place of its line. */
  lemma {:induction false} EntriesComplete(lines: seq<string>, i: nat, displayBase: string, actualBase: string, d: Device, showHidden: bool)
    requires i < |lines| && Accept(lines[i], displayBase, actualBase, d, showHidden).Some?
    ensures Entries(lines, displayBase, actualBase, d, showHidden) ==
      Entries(lines[..i], displayBase, actualBase, d, showHidden) +
      [Accept(lines[i], displayBase, actualBase, d, showHidden).value] +
      Entries(lines[i + 1..], displayBase, actualBase, d, showHidden)
  {
    assert lines == (lines[..i] + [lines[i]]) + lines[i + 1..];
    EntriesAppend(lines[..i] + [lines[i]], lines[i + 1..], displayBase, actualBase, d, showHidden);
    EntriesSnoc(lines[..i], lines[i], displayBase, actualBase, d, showHidden);
  }

  /** Python's sort key `(not is_directory, name.lower())`. */
  function FileKey(f: FileItem): SortKey {
    SortKey(!f.isDirectory, Lower(f.name))
  }

  /** The listing once `display` has been resolved to `actual`. */
  function ListingAt(d: Device, display: string, actual: string, showHidden: bool): seq<FileItem> {
    match d.shell(ListCommand(actual, showHidden))
    case Raised => []
    case Output(t) =>
      var out := Strip(t);
      if Contains(out, "Permission denied") then []
      else if Contains(out, "No such file") || out == [] then []
      else Sort(Entries(Split(out, "\n"), display, actual, d, showHidden), FileKey)
  }

  /**
   * An answered listing without an error phrase holds the kept entries of
   * the output lines, each as often as it was kept, reordered by the sort key.
   */
  lemma {:induction false} ListingKeepsEntries(d: Device, display: string, actual: string, showHidden: bool, t: string)
    requires d.shell(ListCommand(actual, showHidden)) == Output(t)
    requires !Contains(Strip(t), "Permission denied") && !Contains(Strip(t), "No such file") && Strip(t) != []
    ensures multiset(ListingAt(d, display, actual, showHidden)) ==
      multiset(Entries(Split(Strip(t), "\n"), display, actual, d, showHidden))
    ensures SortedBy(ListingAt(d, display, actual, showHidden), FileKey)
  {
    var es := Entries(Split(Strip(t), "\n"), display, actual, d, showHidden);
    assert ListingAt(d, display, actual, showHidden) == Sort(es, FileKey);
    SortPermutation(es, FileKey);
    SortSorted(es, FileKey);
  }

  /** The specification of `list_directory` for a found device. */
  function Listing(d: Device, displayPath: string, showHidden: bool): seq<FileItem> {
    var display := Normalize(displayPath);
    match Resolve(p => ProbeLink(d, p), display, {}, MaxDepth).target
    case None => []
    case Some(actual) => ListingAt(d, display, actual, showHidden)
  }

  /** Every kept entry is named under the display base and passes the dot and hidden-name filters. */
  ghost predicate WellFormedEntry(f: FileItem, displayBase: string, showHidden: bool) {
    f.path == ChildPath(displayBase, f.name) && f.name != "." && f.name != ".." &&
    (showHidden || !StartsWith(f.name, "."))
  }

  lemma {:induction false} EntriesWellFormed(lines: seq<string>, displayBase: string, actualBase: string, d: Device, showHidden: bool)
    ensures forall f :: f in Entries(lines, displayBase, actualBase, d, showHidden) ==> WellFormedEntry(f, displayBase, showHidden)
    decreases |lines|
  {
    if lines != [] {
      EntriesWellFormed(lines[..|lines| - 1], displayBase, actualBase, d, showHidden);
    }
  }

  /**
   * Every entry of a listing is named under the caller's (normalized)
   * display path, never the resolved one, and passes the filters.
   */
  lemma {:induction false} ListingWellFormed(d: Device, displayPath: string, showHidden: bool)
    ensures forall f :: f in Listing(d, displayPath, showHidden) ==>
      WellFormedEntry(f, Normalize(displayPath), showHidden)
  {
    var display := Normalize(displayPath);
    var res := Resolve(p => ProbeLink(d, p), display, {}, MaxDepth);
    if res.target.Some? {
      var actual := res.target.value;
      match d.shell(ListCommand(actual, showHidden))
      case Raised =>
      case Output(t) =>
        var out := Strip(t);
        var es := Entries(Split(out, "\n"), display, actual, d, showHidden);
        EntriesWellFormed(Split(out, "\n"), display, actual, d, showHidden);
        var sorted := Sort(es, FileKey);
        SortPermutation(es, FileKey);
        forall f | f in sorted ensures WellFormedEntry(f, display, showHidden) {
          assert f in multiset(sorted);
        }
    }
  }

  /** A listing holds directories first, and within each group names in lowercase order. */
  lemma {:induction false} ListingOrder(d: Device, displayPath: string, showHidden: bool)
    ensures var l := Listing(d, displayPath, showHidden);
      forall i, j :: 0 <= i < j < |l| ==>
        (l[j].isDirectory ==> l[i].isDirectory) &&
        (l[i].isDirectory == l[j].isDirectory ==> LexLeq(Lower(l[i].name), Lower(l[j].name)))
  {
    var l := Listing(d, displayPath, showHidden);
    var display := Normalize(displayPath);
    var res := Resolve(p => ProbeLink(d, p), display, {}, MaxDepth);
    if res.target.Some? {
      var actual := res.target.value;
      match d.shell(ListCommand(actual, showHidden))
      case Raised =>
      case Output(t) =>
        var out := Strip(t);
        SortSorted(Entries(Split(out, "\n"), display, actual, d, showHidden), FileKey);
    }
    assert SortedBy(l, FileKey);
    forall i, j | 0 <= i < j < |l|
      ensures (l[j].isDirectory ==> l[i].isDirectory) &&
        (l[i].isDirectory == l[j].isDirectory ==> LexLeq(Lower(l[i].name), Lower(l[j].name)))
    {
      assert KeyLeq(FileKey(l[i]), FileKey(l[j]));
    }
  }

  /** A shell reply that reports an error, or no output at all, gives an empty listing. */
  lemma {:induction false} ListingErrors(d: Device, display: string, actual: string, showHidden: bool, t: string)
    requires d.shell(ListCommand(actual, showHidden)) == Output(t)
    requires Contains(Strip(t), "Permission denied") || Contains(Strip(t), "No such file") || Strip(t) == []
    ensures ListingAt(d, display, actual, showHidden) == []
  {
  }

  // -------------------------------------------------------- transfers, edits

  /** Where the retry of a failed push goes: the Download folder, under the local file's base name. */
  function FallbackPath(localPath: string): (r: string)
    ensures PosixPath.Basename(r) == PosixPath.Basename(localPath)
    ensures StartsWith(r, "/sdcard/Download/")
  {
    var b := PosixPath.Basename(localPath);
    var dir := "/sdcard/Download/";
    assert dir[|dir| - 1] == '/';
    PosixPath.BasenameAfterSlash(dir, b);
    assert (dir + b)[..|dir|] == dir;
    dir + b
  }

  /** What a push did: whether it succeeded, and the remote paths it tried, in order. */
  datatype Transfer = Transfer(ok: bool, tried: seq<string>)

  /** `push_file`: one push to the normalized remote path, and exactly one retry to the fallback when it raises. */
  function PushFile(dev: Option<Device>, localPath: string, remotePath: string): (r: Transfer)
    ensures dev.None? ==> r == Transfer(false, [])
    ensures dev.Some? ==> 1 <= |r.tried| <= 2 && r.tried[0] == Normalize(remotePath)
    ensures dev.Some? ==> (|r.tried| == 2 <==> !dev.value.push(localPath, Normalize(remotePath)))
    ensures dev.Some? && |r.tried| == 2 ==> r.tried[1] == FallbackPath(localPath)
    ensures dev.Some? ==> (r.ok <==> dev.value.push(localPath, Last(r.tried)))
  {
    match dev
    case None => Transfer(false, [])
    case Some(d) =>
      var remote := Normalize(remotePath);
      if d.push(localPath, remote) then Transfer(true, [remote])
      else
        var fallback := FallbackPath(localPath);
        Transfer(d.push(localPath, fallback), [remote, fallback])
  }

  /** `pull_file`: true iff the device is found and the pull from the normalized remote path returns. */
  function PullFile(dev: Option<Device>, remotePath: string, localPath: string): (r: bool)
    ensures r <==> dev.Some? && dev.value.pull(Normalize(remotePath), localPath)
  {
    dev.Some? && dev.value.pull(Normalize(remotePath), localPath)
  }

  /** The success check of delete and rename: neither error phrase in the output. */
  predicate NoFileError(out: string) {
    !Contains(out, "No such file") && !Contains(out, "Permission denied")
  }

  /** The outcome of one mutation command: false when the device is missing or the call raised. */
  function RunCheck(dev: Option<Device>, cmd: string, check: string -> bool): bool {
    match dev
    case None => false
    case Some(d) =>
      match d.shell(cmd)
      case Raised => false
      case Output(t) => check(t)
  }

  /** `delete_file`: `rm -r` for a directory, `rm` otherwise, on the normalized path. */
  function DeleteFile(dev: Option<Device>, path: string, isDirectory: bool): (r: bool)
    ensures r <==> (dev.Some? && dev.value.shell(DeleteCommand(Normalize(path), isDirectory)).Output? &&
      NoFileError(dev.value.shell(DeleteCommand(Normalize(path), isDirectory)).text))
  {
    RunCheck(dev, DeleteCommand(Normalize(path), isDirectory), NoFileError)
  }

  /** `create_directory`: `mkdir -p`, failing only on `Permission denied`. */
  function CreateDirectory(dev: Option<Device>, path: string): (r: bool)
    ensures r <==> (dev.Some? && dev.value.shell(MkdirCommand(Normalize(path))).Output? &&
      !Contains(dev.value.shell(MkdirCommand(Normalize(path))).text, "Permission denied"))
  {
    RunCheck(dev, MkdirCommand(Normalize(path)), (t: string) => !Contains(t, "Permission denied"))
  }

  /** `rename_file`: `mv` between the two normalized paths. */
  function RenameFile(dev: Option<Device>, oldPath: string, newPath: string): (r: bool)
    ensures r <==> (dev.Some? && dev.value.shell(RenameCommand(Normalize(oldPath), Normalize(newPath))).Output? &&
      NoFileError(dev.value.shell(RenameCommand(Normalize(oldPath), Normalize(newPath))).text))
  {
    RunCheck(dev, RenameCommand(Normalize(oldPath), Normalize(newPath)), NoFileError)
  }

  // ------------------------------------------------------------- the manager

  /** The manager; its only state is the map from each display path to the path it resolved to. */
  class FileManager {
    var symlinkMap: map<string, string>

    constructor ()
      ensures symlinkMap == map[]
    {
      symlinkMap := map[];
    }

    /**
     * `_resolve_symlink`: at most ten probes, stopping at a repeated path;
     * records the result when it moved. Each `probe(path)` is one `ls -ld`
     * call decoded by `LinkTarget`; `ListDirectory` passes `ProbeLink` of
     * its device. A probe that raises ends the resolution, and the listing.
     */
    method ResolveSymlink(probe: string -> Probe, path: string) returns (target: Option<string>, probed: seq<string>)
      modifies this
      ensures Resolution(target, probed) == Resolve(probe, path, {}, MaxDepth)
      ensures symlinkMap == Remember(old(symlinkMap), path, Resolution(target, probed))
    {
      var current := path;
      var visited: set<string> := {};
      var i := 0;
      probed := [];
      while i < MaxDepth
        invariant 0 <= i <= MaxDepth
        invariant symlinkMap == old(symlinkMap)
        invariant var rest := Resolve(probe, current, visited, MaxDepth - i);
          Resolve(probe, path, {}, MaxDepth) == Resolution(rest.target, probed + rest.probed)
      {
        if current in visited {
          break;
        }
        match probe(current)
        case ProbeRaised =>
          return None, probed + [current];
        case NotLink =>
          ResolveNotLink(probe, current, visited, MaxDepth - i);
          visited := visited + {current};
          probed := probed + [current];
          break;
        case LinkTo(next) =>
          ResolveStep(probe, current, next, visited, MaxDepth - i);
          ghost var rest := Resolve(probe, next, visited + {current}, MaxDepth - i - 1);
          assert probed + ([current] + rest.probed) == probed + [current] + rest.probed;
          visited := visited + {current};
          probed := probed + [current];
          current := next;
        i := i + 1;
      }
      target := Some(current);
      if current != path {
        symlinkMap := symlinkMap[path := current];
      }
    }

    /** The loop of `list_directory` over the output lines: the accepted rows, in order. */
    method CollectEntries(lines: seq<string>, display: string, actual: string, d: Device, showHidden: bool)
      returns (files: seq<FileItem>)
      ensures files == Entries(lines, display, actual, d, showHidden)
    {
      files := [];
      var i := 0;
      while i < |lines|
        invariant 0 <= i <= |lines|
        invariant files == Entries(lines[..i], display, actual, d, showHidden)
      {
        var line := lines[i];
        ghost var accepted := Accept(line, display, actual, d, showHidden);
        assert lines[..i + 1][..i] == lines[..i];
        assert Entries(lines[..i + 1], display, actual, d, showHidden)
          == if accepted.Some? then files + [accepted.value] else files;
        if !(Strip(line) == [] || StartsWith(line, "total")) {
          var item := ParseLsLine(line, display, actual, d);
          if item.Some? && item.value.name != "." && item.value.name != ".." {
            if showHidden || !StartsWith(item.value.name, ".") {
              files := files + [item.value];
            }
          }
        }
        i := i + 1;
      }
      assert lines[..|lines|] == lines;
    }

    /** `list_directory`: resolve, list with `ls -l` (or `ls -la`), keep the accepted rows, sort directories first. */
    method ListDirectory(dev: Option<Device>, displayPath: string, showHidden: bool) returns (files: seq<FileItem>)
      modifies this
      ensures dev.None? ==> files == [] && symlinkMap == old(symlinkMap)
      ensures dev.Some? ==> files == Listing(dev.value, displayPath, showHidden)
      ensures dev.Some? ==> (symlinkMap ==
        Remember(old(symlinkMap), Normalize(displayPath), Resolve(p => ProbeLink(dev.value, p), Normalize(displayPath), {}, MaxDepth)))
    {
      if dev.None? {
        return [];
      }
      var d := dev.value;
      var display := Normalize(displayPath);
      var resolved, _ := ResolveSymlink(p => ProbeLink(d, p), display);
      if resolved.None? {
        return [];
      }
      var actual := resolved.value;
      var reply := d.shell(ListCommand(actual, showHidden));
      if reply.Raised? {
        return [];
      }
      var out := Strip(reply.text);
      if Contains(out, "Permission denied") {
        return [];
      }
      if Contains(out, "No such file") || out == [] {
        return [];
      }
      var lines := Split(out, "\n");
      files := CollectEntries(lines, display, actual, d, showHidden);
      files := Sort(files, FileKey);
    }
  }
}
