# ADB Visual Manager — shell-text bridge, in Dafny

ADB Visual Manager is a desktop front end for Android's `adb`. Its model
layer sends shell commands to a device and turns the free-form text that
comes back into typed records and yes/no outcomes. This project models that
layer and the list logic of three widgets, and proves properties of the
model:

- the device registry and its serial-keyed cache of device handles;
- the file manager: symlink resolution, `ls -l` decoding, directory listing
  under the caller's path, and the mutation commands;
- the process table and the kill ladder with its `am force-stop` fallback;
- the app listing: `pm list packages`, the running set from `ps -A`, the
  `dumpsys package` field scan and the action checks;
- logcat: the line recognizer equal to the source's regular expression,
  the `adb logcat` argument list and the read loop with its stop flag;
- remote input: tap, swipe, key event and text commands, `wm size` parsing
  and the screenshot sequence;
- the value records (`FileItem`, `ProcessInfo`, `LogEntry`, `AppInfo`,
  `DeviceInfo`, `KeyCode`);
- the terminal's command line with its history cursor, and the search
  filters of the app and process lists.

The device is an oracle. `Shell.Device` carries the serial and functions
for `shell`, `push`, `pull`, `install` and `uninstall`. `shell` answers
`Output(text)` or `Raised` for any command. Each manager is given the
device its serial resolved to, as an `Option<Device>`. The lookup itself,
with its one refresh, is modelled in `AdbBridge.AdbManager`. A Python
exception becomes `Raised`, `None` or `false`, whichever the source returns
at that point. Python's `str` methods are modelled over ASCII in module
`Text`: `strip`, `split`, `join`, `replace`, `lower`, `title`, `isdigit`,
`int` and `str`. Module `PosixPath` models `os.path.join`, `dirname` and
`basename` with POSIX separators. Module `Sorting` models `list.sort` with
a key, which is stable.

Files, one module each: `wrappers.dfy`, `text.dfy`, `posixpath.dfy`,
`sorting.dfy`, `shell.dfy`, `listfilter.dfy`; the value models
`filemodel.dfy`, `processmodel.dfy`, `logcatmodel.dfy`, `appmodel.dfy`,
`devicemodel.dfy`, `remotecontrol.dfy`; the managers `adbmanager.dfy`
(module `AdbBridge`), `filemanager.dfy`, `processmanager.dfy`,
`appmanager.dfy`, `logcatmanager.dfy`, `remotemanager.dfy`; the widgets
`terminal.dfy`, `appwidget.dfy`, `processwidget.dfy`.

## Model

| member | source | states |
|---|---|---|
| AdbBridge.ConnectionType | src/models/adbmanager.py:119 | the kind is Network exactly when the serial holds a `:`, and USB exactly when it holds none |
| AdbBridge.IpAddress | src/models/adbmanager.py:119-120 | an address is present exactly for a serial holding `:` |
| AdbBridge.HostPartPrefix | src/models/adbmanager.py:120 | the address of a network serial is the text before its first `:`: it holds no `:`, and the serial starts with it followed by `:` |
| AdbBridge.IpAddressOf | src/models/adbmanager.py:119-120 | a serial `host:port` whose host holds no `:` gives back the host |
| AdbBridge.ValueAfterOf | src/models/adbmanager.py:106-116 | for a reply `key` + value, where the value holds no second `key`, the text after the key is the stripped value |
| AdbBridge.BatteryLevel | src/models/adbmanager.py:104-110 | 0 without `level:`. With it, the `int` read from the text after the first `level:` when that text parses, else 0 |
| AdbBridge.BatteryLevelOf | src/models/adbmanager.py:104-110 | the line `level: <n>` gives back the level `n` |
| AdbBridge.Resolution | src/models/adbmanager.py:113-116 | `Unknown` without `Physical size:`; otherwise the stripped text after its first occurrence |
| AdbBridge.ResolutionOf | src/models/adbmanager.py:113-116 | `Physical size: <s>` gives back `s` when `s` is stripped and holds no `P` |
| AdbBridge.DeviceInfoOf | src/models/adbmanager.py:86-141 | the record keeps the serial and is connected. When every property command answers, the record has the stripped model, manufacturer, Android version and SDK version, the battery level and the resolution read from their replies, and the connection kind and address derived from the serial. When any command raises, it is the default record with a USB connection |
| AdbBridge.InfosAt | src/models/adbmanager.py:71-77 | the i-th record returned describes the i-th listed device |
| AdbBridge.CacheAfterKeys | src/models/adbmanager.py:71-73 | after a refresh the cache keys are the old keys plus every listed serial. No key is ever removed |
| AdbBridge.CacheAfterUnlisted | src/models/adbmanager.py:71-73 | a cached serial the server no longer lists keeps its old handle |
| AdbBridge.CacheAfterListed | src/models/adbmanager.py:71-73 | a listed serial maps to the last listed device with that serial |
| AdbBridge.RefreshedKeys | src/models/adbmanager.py:56-84 | after `get_devices` a serial is cached iff it was cached before or the running server listed it. A failed handshake or listing leaves the cache unchanged |
| AdbBridge.Lookup | src/models/adbmanager.py:302 | `dict.get`: present iff the key is cached, and then it is the cached handle |
| AdbBridge.Named | src/models/adbmanager.py:198-208 | a code outside the table gives `Unknown`; a code in the table gives its entry |
| AdbBridge.CodeEntry | src/models/adbmanager.py:196-208 | an entry iff the stripped reply holds the key; it is the table's name for the stripped code after the key, `Unknown` for a code outside the table |
| AdbBridge.TempEntry | src/models/adbmanager.py:210-214 | an entry iff the stripped reply holds `temperature:` and the text after it is an integer; the entry is that many tenths of a degree |
| AdbBridge.Put | src/models/adbmanager.py:161-214 | an assignment done only when the entry is present: a present entry replaces the key's value, an absent one leaves it |
| AdbBridge.BatteryEntries | src/models/adbmanager.py:193-216 | only the status, health and temperature entries change. Each is set as its own reading gives it (`StatusReading`, `HealthReading`, `TempReading`): the table name or temperature from its reply, and nothing once that read or an earlier battery read raises |
| AdbBridge.BaseInfo | src/models/adbmanager.py:161-170 | the stripped build and CPU texts and the stripped patch, `Unknown` for an empty patch; no other entry |
| AdbBridge.ExtendedInfo | src/models/adbmanager.py:157-223 | empty when one of the three `getprop` reads raises. Otherwise the stripped build and CPU texts, the patch or `Unknown`, the memory and storage entries from their replies, and the battery entries as their readings give them |
| AdbBridge.AdbManager.constructor | src/models/adbmanager.py:20-43 | keeps the host and port and the client (absent when it could not be created); the cache starts empty |
| AdbBridge.AdbManager.GetDevices | src/models/adbmanager.py:45-84 | the new cache is the refresh of the old one, and the records are those for the listed devices. Both are empty or unchanged when the version handshake or the listing fails |
| AdbBridge.AdbManager.RefreshDevices | src/models/adbmanager.py:304-312 | the same result and the same cache as `get_devices` |
| AdbBridge.AdbManager.GetDeviceBySerial | src/models/adbmanager.py:287-302 | a cache hit returns the cached handle with the cache unchanged. A miss refreshes exactly once and returns the lookup in the refreshed cache, which may be absent |
| AdbBridge.AdbManager.ConnectDevice | src/models/adbmanager.py:225-253 | true iff the server answers the handshake and `remote_connect` returns a truthy result. False when it raises |
| AdbBridge.AdbManager.DisconnectDevice | src/models/adbmanager.py:255-285 | a serial without `:` gives false with the cache unchanged. Otherwise the result is true iff a client exists and `remote_disconnect` of the host part returns, whatever it answered; on true the serial is dropped from the cache |
| AdbBridge.AdbManager.GetExtendedDeviceInfo | src/models/adbmanager.py:143-223 | the reads of the looked-up device (with the lookup's one refresh), or empty when the serial is not found |
| AppManager.PackageOfLineRoundTrip | src/models/appmanager.py:56-60 | the line `package:<name>` decodes to `name` when the name is stripped and holds no `package:` |
| AppManager.PackageList | src/models/appmanager.py:56-60 | no more names than lines (the content is stated by the partner lemmas below) |
| AppManager.PackageListLines | src/models/appmanager.py:56-60 | every listed name is the decoding of some line starting with `package:` |
| AppManager.PackageListCount | src/models/appmanager.py:56-60 | there is exactly one name for each line starting with `package:` |
| AppManager.PackageListStep | src/models/appmanager.py:56-60 | one more line adds its decoded name at the end when it starts with `package:`, and nothing otherwise |
| AppManager.PackageListAppend | src/models/appmanager.py:56-60 | the names of two concatenated outputs are the names of the first, then those of the second |
| AppManager.PackageListComplete | src/models/appmanager.py:56-60 | every line starting with `package:` gives its name, with every `package:` removed and stripped, exactly at its place between the names of the lines before and after it |
| AppManager.RunningName | src/models/appmanager.py:123-130 | a row contributes a name iff it has nine or more tokens and its last token holds a `.` and does not start with `/`; the name is that last token |
| AppManager.RunningNameOf | src/models/appmanager.py:123-130 | a row of eight or more columns followed by a dotted name that is not a path contributes exactly that name |
| AppManager.RunningSetRows | src/models/appmanager.py:122-130 | a name is in the running set iff some row after the header contributes it |
| AppManager.GetRunningPackagesBatch | src/models/appmanager.py:101-137 | the set from `ps -A`, or from plain `ps` when `ps -A` printed only whitespace; empty when a call raises. Every member holds a `.` and is not a path |
| AppManager.CollectRunning | src/models/appmanager.py:122-130 | the loop's set is the running set of the rows |
| AppManager.TokenAfter | src/models/appmanager.py:166-172 | a token found after the key is non-empty and holds no whitespace |
| AppManager.TokenAfterOf | src/models/appmanager.py:166-172 | for `pre` + key + a word + a space + anything without the key, where `pre` lacks the key's first character, the token is that word |
| AppManager.StepKeeps | src/models/appmanager.py:164-177 | one pass of the `if`/`elif` chain keeps a known version and a known version code. It changes the enabled flag only on an `enabled=` line |
| AppManager.ScanSticky | src/models/appmanager.py:161-177 | once the version (or the version code) is known, no later line changes it |
| AppManager.FirstVersionWins | src/models/appmanager.py:164-168 | the first line yielding a `versionName=` token sets the version for the rest of the scan |
| AppManager.ScanKeepsEnabled | src/models/appmanager.py:176-177 | lines without `enabled=` leave the enabled flag alone |
| AppManager.LastEnabledWins | src/models/appmanager.py:176-177 | the last `enabled=` line that reaches its branch decides the flag: it is set iff that line holds `=1`, or `=true` in any case |
| AppManager.ScanDefaults | src/models/appmanager.py:156-158 | without any of the three keys the fields stay `Unknown`, `Unknown` and enabled |
| AppManager.AppName | src/models/appmanager.py:180-195 | a name is present iff the package holds a `.`; it is the title-cased second dot component |
| AppManager.FirstComponent | src/models/appmanager.py:182 | the first dot component of `name + rest` is `name` when `name` has no dot and `rest` is empty or starts with one |
| AppManager.SecondComponent | src/models/appmanager.py:182 | the second dot component of `vendor.t` is the first component of `t` when `vendor` has no dot |
| AppManager.AppNameOf | src/models/appmanager.py:180-195 | `vendor.name` and `vendor.name.more` get the name `name`, title-cased, when neither `vendor` nor `name` holds a dot |
| AppManager.AppInfoFast | src/models/appmanager.py:139-195 | present iff the `dumpsys` call returns and the package holds a `.`. The record keeps the package, the given running and system flags, and size 0. Its name is `AppName` of the package, and its version, version code and enabled flag are the `Scan` of the stripped `dumpsys` lines |
| AppManager.GetAppInfoFast | src/models/appmanager.py:139-195 | the loop over the `dumpsys` lines gives the record `AppInfoFast` specifies |
| AppManager.CollectApps | src/models/appmanager.py:69-89 | no more apps than package names |
| AppManager.CollectAppsSnoc | src/models/appmanager.py:69-89 | a further package name adds its app at the end when the name is non-empty and the app is read, and nothing otherwise |
| AppManager.CollectAppsAppend | src/models/appmanager.py:69-89 | collecting two runs of names gives the apps of each run, in order |
| AppManager.CollectAppsComplete | src/models/appmanager.py:69-89 | every non-empty name whose app is read contributes that app, between the apps of the names before and after it |
| AppManager.CollectAppsFacts | src/models/appmanager.py:69-89 | every collected app has a listed, non-empty, dotted package name, the requested system flag and size 0. It is running iff its package is in the running set |
| AppManager.InstalledAppsFacts | src/models/appmanager.py:24-99 | the listing is sorted by lower-cased app name. Every app has a non-empty dotted package name, the requested system flag and size 0, and is running iff the batch running set holds it |
| AppManager.ListInstalledApps | src/models/appmanager.py:24-99 | empty for a missing device; otherwise the listing `InstalledApps` specifies |
| AppManager.CollectAppsLoop | src/models/appmanager.py:69-89 | the loop that skips empty names and keeps decoded apps gives `CollectApps` |
| AppManager.IsAppRunning | src/models/appmanager.py:228-253 | true iff the device is found, `pidof` returns, and its output holds a non-whitespace character |
| AppManager.GetAppInfo | src/models/appmanager.py:197-226 | none for a missing device. A flag left out is looked up (`pidof`, and `pm path` naming `/system/` or `/vendor/`); a flag given is used as given |
| AppManager.StartApp | src/models/appmanager.py:285-304 | false when the device is missing or the call raises. Otherwise it fails iff the output reports `No activities found` without `Events injected` |
| AppManager.StopApp | src/models/appmanager.py:306-319 | true iff the device is found and `am force-stop` returns; the output is not read |
| AppManager.ClearAppData | src/models/appmanager.py:321-340 | true iff `pm clear` returns output holding `Success` |
| AppManager.InstallApk | src/models/appmanager.py:255-268 | true iff the device is found and the install returns |
| AppManager.UninstallApp | src/models/appmanager.py:270-283 | true iff the device is found and the uninstall returns |
| FileManager.Normalize | src/models/filemanager.py:40 | the result holds no backslash, and a path without one is unchanged |
| FileManager.LinkTargetCases | src/models/filemanager.py:116-130 | a next path exists iff the output holds exactly one `->`. The target is used as written when absolute, and joined onto the directory of the current path otherwise |
| FileManager.Resolve | src/models/filemanager.py:104-134 | at most `hops` probes. The first probe is of the start path, and with no probe at all the start path is returned |
| FileManager.ResolveDistinct | src/models/filemanager.py:107-112 | resolution never probes a path already visited, and never probes the same path twice |
| FileManager.ResolveNotLink | src/models/filemanager.py:118-134 | a path whose `ls -ld` output names no single link: one probe, and the path itself is returned |
| FileManager.ResolveStep | src/models/filemanager.py:118-131 | one link followed: the probe of the path, then the resolution of its target |
| FileManager.ResolveCycle | src/models/filemanager.py:108-113 | two paths linking to each other: each is probed once, and resolution stops at the first when it comes round again |
| FileManager.ResolveBack | src/models/filemanager.py:108-113 | a link back to a visited path stops the loop at that path after one probe |
| FileManager.ResolveDepth | src/models/filemanager.py:106-108 | a chain of more than ten links: ten probes, and the eleventh path is returned without being probed |
| FileManager.ResolveChain | src/models/filemanager.py:108-131 | following `hops` distinct unvisited links probes every path but the last, and returns the last |
| FileManager.Remember | src/models/filemanager.py:137-138 | the map entry is written only when the path reached differs from the original |
| FileManager.ChildPath | src/models/filemanager.py:174-185 | the base followed by the name, with one `/` between them unless the base already ends in one |
| FileManager.ChildPathBasename | src/models/filemanager.py:174-177 | for a name without `/` and a non-empty base, the child path is `os.path.join(base, name)` and its base name is the name |
| FileManager.ParseLsLine | src/models/filemanager.py:142-204 | none iff the row has fewer than 8 tokens, or it is a link whose probe raises. The entry's fields: the name is tokens 8 onward cut before `->`; the path is under the display base; permissions, owner and the size (digits or 0) come from tokens 1, 3 and 5. It is a link iff the permissions start with `l`, and a directory iff they start with `d` or the link's probe, made under the resolved base, printed exactly `1` |
| FileManager.ParseCanonicalLine | src/models/filemanager.py:156-171 | a row of seven single-word columns and a space-separated name decodes to those columns and that name |
| FileManager.Accept | src/models/filemanager.py:68-81 | a kept entry is the decoded row, is not `.` or `..`, and is hidden only when hidden files are asked for. A line is dropped iff it is blank, starts with `total`, does not decode, or decodes to `.`, `..` or (without hidden files) a dot name |
| FileManager.Entries | src/models/filemanager.py:64-81 | no more entries than lines |
| FileManager.EntriesSnoc | src/models/filemanager.py:64-81 | a further line adds its kept entry at the end, or nothing when it is dropped |
| FileManager.EntriesAppend | src/models/filemanager.py:64-81 | the entries of two runs of lines are the entries of each run, in order |
| FileManager.EntriesComplete | src/models/filemanager.py:64-81 | every kept line contributes its entry, between the entries of the lines before and after it |
| FileManager.ListingKeepsEntries | src/models/filemanager.py:53-84 | an answered listing without an error phrase holds exactly the kept entries, each as often as kept, in sort-key order |
| FileManager.ListingWellFormed | src/models/filemanager.py:40-84 | every entry of a listing is named under the caller's normalized path, never the resolved one, and passes the dot and hidden filters |
| FileManager.ListingOrder | src/models/filemanager.py:84 | directories come first, and within each group the names are in lower-case lexicographic order |
| FileManager.ListingErrors | src/models/filemanager.py:53-62 | output holding `Permission denied` or `No such file`, or blank output, gives an empty listing |
| FileManager.FallbackPath | src/models/filemanager.py:228-229 | the retry path lies in `/sdcard/Download/` and has the local file's base name |
| FileManager.PushFile | src/models/filemanager.py:206-236 | false with no attempt for a missing device. Otherwise the first push goes to the normalized remote path. Exactly one retry follows, to the fallback, iff that push raises; the result is whether the last push returned |
| FileManager.PullFile | src/models/filemanager.py:238-253 | true iff the device is found and the pull from the normalized path returns |
| FileManager.DeleteFile | src/models/filemanager.py:255-276 | true iff `rm` (or `rm -r` for a directory) returns output with neither `No such file` nor `Permission denied` |
| FileManager.CreateDirectory | src/models/filemanager.py:278-295 | true iff `mkdir -p` returns output without `Permission denied` |
| FileManager.RenameFile | src/models/filemanager.py:297-315 | true iff `mv` returns output with neither `No such file` nor `Permission denied` |
| FileManager.FileManager.constructor | src/models/filemanager.py:13-17 | the symlink map starts empty |
| FileManager.FileManager.ResolveSymlink | src/models/filemanager.py:93-140 | given the `ls -ld` probe of each path, the loop reaches the path and makes the probes that `Resolve` specifies from an empty visited set with ten hops, and records the result as `Remember` says |
| FileManager.FileManager.CollectEntries | src/models/filemanager.py:64-81 | the loop's entries are `Entries` of the lines |
| FileManager.FileManager.ListDirectory | src/models/filemanager.py:21-91 | empty for a missing device. Otherwise it is the listing `Listing` specifies, and the map records the resolution of the normalized display path |
| ProcessManager.ParsePsLine | src/models/processmanager.py:65-99 | none iff the row has fewer than five tokens or its first token is not an integer. Otherwise the pid is that integer and the user is token 2; the memory is token 3 when all digits, else 0; the state is the first character of token 4; the name is tokens 5 onward joined by spaces |
| ProcessManager.ParsePsLineRoundTrip | src/models/processmanager.py:79-95 | a row printed from a pid, user, memory, state word and a multi-word name decodes back to them, with the state cut to its first character |
| ProcessManager.Processes | src/models/processmanager.py:50-56 | no more processes than rows |
| ProcessManager.ProcessesSnoc | src/models/processmanager.py:50-56 | a further row adds its decoding at the end when it is non-blank and decodes, and nothing otherwise |
| ProcessManager.ProcessesAppend | src/models/processmanager.py:50-56 | decoding two runs of rows gives the processes of each run, in order |
| ProcessManager.ProcessesComplete | src/models/processmanager.py:50-56 | every non-blank row that decodes contributes its process, between the processes of the rows before and after it |
| ProcessManager.ProcessesFromRows | src/models/processmanager.py:50-56 | every listed process is the decoding of one of the rows |
| ProcessManager.ProcessesSkip | src/models/processmanager.py:54-56 | an undecodable row is skipped without disturbing the listing before it |
| ProcessManager.ListProcesses | src/models/processmanager.py:20-63 | empty for a missing device; otherwise the decoded rows after the header, from `Listing` |
| ProcessManager.FindProcess | src/models/processmanager.py:224-228 | none iff no process has the pid; otherwise the first process with that pid |
| ProcessManager.GetProcessInfo | src/models/processmanager.py:211-228 | none for a missing device. For a found device, none iff no process of the listing has the pid; otherwise the first process of the listing with that pid |
| ProcessManager.FallbackPackageShape | src/models/processmanager.py:134-138 | the fallback package holds a `.` and has no surrounding whitespace |
| ProcessManager.StopRungs | src/models/processmanager.py:140-197 | `am force-stop <pkg>` first, and `am kill <pkg>` after it in force mode. Success iff every stop command returned |
| ProcessManager.AfterRefusal | src/models/processmanager.py:131-202 | `ps -p` is issued first. Success only through a dotted package name, with the stop commands following it |
| ProcessManager.Ladder | src/models/processmanager.py:116-209 | true iff the kill went through cleanly or the app was stopped. The kill command comes first. On the fallback path, `am force-stop` (and `am kill` when forced) is issued for the named package |
| ProcessManager.LadderFirstRung | src/models/processmanager.py:120-149 | `No such process` gives false after one command, even alongside a permission error. Output with no recognised phrase gives true after one command |
| ProcessManager.LadderFallback | src/models/processmanager.py:127-146 | after a refusal, success iff `ps -p` names a dotted package and the stop commands return. That success is the same `true` a clean kill gives; with no such name the result is false |
| ProcessManager.RunStop | src/models/processmanager.py:140-197 | the statement-by-statement stop rungs give `StopRungs` |
| ProcessManager.RunFallback | src/models/processmanager.py:131-202 | the statement-by-statement fallback gives `AfterRefusal` |
| ProcessManager.RunLadder | src/models/processmanager.py:116-209 | the early-return sequence gives `Ladder` |
| ProcessManager.KillProcess | src/models/processmanager.py:101-153 | false with no command for a missing device; otherwise the ladder with `kill` |
| ProcessManager.ForceKillProcess | src/models/processmanager.py:155-209 | false with no command for a missing device; otherwise the ladder with `kill -9` and `am kill` |
| LogcatManager.ClearLogcat | src/models/logcatmanager.py:21-42 | true iff the device is found and `logcat -c` returns |
| LogcatManager.SpaceLen | src/models/logcatmanager.py:59 | the greedy `\s*` stops only at the end or at a character that is not whitespace |
| LogcatManager.SpaceLenRun | src/models/logcatmanager.py:59 | every character the greedy `\s*` counts is whitespace |
| LogcatManager.DigitLen | src/models/logcatmanager.py:59 | the greedy `\d*` stops only at the end or at a character that is not a digit |
| LogcatManager.DigitLenRun | src/models/logcatmanager.py:59 | every character the greedy `\d*` counts is a digit |
| LogcatManager.LineLen | src/models/logcatmanager.py:59 | what `.` repeats over stops only at the end or at a newline |
| LogcatManager.LineLenRun | src/models/logcatmanager.py:59 | no character that `.` repeats over is a newline |
| LogcatManager.TimestampLen | src/models/logcatmanager.py:59 | the timestamp group `\d{2}-\d{2}\s+\d{2}:\d{2}:\d{2}\.\d{3}` is found iff the line starts with a date, a non-empty whitespace run and a clock; its length is 17 plus the run |
| LogcatManager.Field | src/models/logcatmanager.py:59 | `\s+(\d+)` is found iff there is a non-empty whitespace run followed by a digit; its length is the run plus the maximal digit run |
| LogcatManager.Number | src/models/logcatmanager.py:59 | the `(\d+)` group of `\s+(\d+)` is a digit string, within the text |
| LogcatManager.LevelAt | src/models/logcatmanager.py:59 | `\s+([VDIWEF])` is found iff a non-empty whitespace run is followed by one of the six level letters; it gives that letter and the length up to it |
| LogcatManager.MessageStart | src/models/logcatmanager.py:59 | the backtracking of the separator's `\s+`: a non-empty whitespace prefix, within the run, after which a non-newline character follows |
| LogcatManager.MessageStartLongest | src/models/logcatmanager.py:59 | that prefix is the longest that works, and there is none only when no prefix works |
| LogcatManager.TagEnd | src/models/logcatmanager.py:59 | the lazy `(.+?)`: a colon at which the rest of the pattern matches |
| LogcatManager.TagEndNoNewline | src/models/logcatmanager.py:59 | the tag before that colon holds no newline |
| LogcatManager.TagEndLeast | src/models/logcatmanager.py:59 | that colon is the first one at which the rest of the pattern matches |
| LogcatManager.TagEndNone | src/models/logcatmanager.py:59 | when no end is found, no colon reachable without crossing a newline would do |
| LogcatManager.TagStart | src/models/logcatmanager.py:59 | the `\s+` before the tag gives back characters until the lazy tag finds an end; none when no split works |
| LogcatManager.TagMessage | src/models/logcatmanager.py:59 | the tag and message groups after the level are non-empty and newline-free |
| LogcatManager.Match | src/models/logcatmanager.py:59-63 | a match starts with the timestamp group (18 or more characters). Pid and tid are digit strings and the level is one of `VDIWEF`. Tag and message are non-empty and newline-free |
| LogcatManager.AfterTimestamp | src/models/logcatmanager.py:59 | what follows the timestamp group: the groups it gives keep that timestamp and have digit ids, a level letter, and non-empty newline-free tag and message |
| LogcatManager.AfterPid | src/models/logcatmanager.py:59 | what follows the pid group: the groups keep the timestamp and the pid |
| LogcatManager.AfterTid | src/models/logcatmanager.py:59 | what follows the tid group: the groups keep the timestamp, the pid and the tid |
| LogcatManager.TagAndMessage | src/models/logcatmanager.py:59-63 | the tag is the text before the colon; the message is the rest of that line after the separator |
| LogcatManager.ParseLogLine | src/models/logcatmanager.py:44-78 | an entry iff the pattern matches at the start. Its timestamp is the group. The pid and tid are the `int` values of their digit groups. The level is a named level; tag and message are the stripped groups |
| LogcatManager.EntryOf | src/models/logcatmanager.py:65-72 | the entry holds the groups' values as `int` and `strip` give them |
| LogcatManager.LevelNamed | src/models/logcatmanager.py:59 | every letter of the pattern's level class has a name in the level table |
| LogcatManager.TimestampOf | src/models/logcatmanager.py:59 | a date, a whitespace run of any length and a clock form the group, of exactly that length, whatever follows |
| LogcatManager.FieldOf | src/models/logcatmanager.py:59 | a whitespace run of any length and a digit string, followed by no digit, give that number and end after it |
| LogcatManager.LevelOf | src/models/logcatmanager.py:59 | a whitespace run of any length and a level letter give that letter and end right after it |
| LogcatManager.TagOf | src/models/logcatmanager.py:59 | a run, a colon-free tag, `:`, a run, a message and then the end or a newline: the lazy tag ends at that colon and the groups are the tag and the message |
| LogcatManager.MatchThreadtime | src/models/logcatmanager.py:59-63 | every line that lays out a timestamp group, two digit strings, a level letter, a tag and a message, separated by whitespace runs of any length, matches with exactly those groups |
| LogcatManager.MatchLaid | src/models/logcatmanager.py:59-63 | the converse: every match lays its groups out in the line, in order, separated by non-empty whitespace runs, with the message running to the end of the line or to a newline |
| LogcatManager.MatchExample | src/models/logcatmanager.py:48-63 | the sample line of the parser's own documentation, with its two-space runs, matches with groups `01-27 13:30:45.123`, `1234`, `5678`, `I`, `Tag` and `Message` |
| LogcatManager.ThreadtimeLaid | src/models/logcatmanager.py:59 | the `threadtime` text of an entry with natural ids and a one-letter level lays out its printed fields with single spaces |
| LogcatManager.ParseThreadtime | src/models/logcatmanager.py:44-72 | round trip: a canonical entry printed as a `threadtime` line parses back to itself |
| LogcatManager.TimeLayoutRejected | src/models/logcatmanager.py:59-93 | a line in the `-v time` layout (the one `str(entry)` prints, and the one the stream asks for) never parses, because the pattern wants a pid right after the timestamp |
| LogcatManager.StreamCommand | src/models/logcatmanager.py:92-101 | starts `adb -s <serial> logcat -v time`. `*:<level>` is appended iff the level is non-empty and not `V`. A non-empty tag adds `<tag>:*`, `*:S` at the end; nothing else is added |
| LogcatManager.Delivered | src/models/logcatmanager.py:115-121 | the lines handed over are the reads in order, each with its trailing newlines removed. Each was read with the flag clear and was not empty. They stop at the end of the stream, at the first empty read, or at the first test that finds the flag set |
| LogcatManager.DeliveredAll | src/models/logcatmanager.py:116-121 | with no stop request and no empty read, every line is delivered |
| LogcatManager.LogcatManager.constructor | src/models/logcatmanager.py:15-19 | the flag starts cleared |
| LogcatManager.LogcatManager.StopStreaming | src/models/logcatmanager.py:131-133 | the flag is set, whatever it was |
| LogcatManager.LogcatManager.StartLogcatStream | src/models/logcatmanager.py:80-129 | builds the argument list. When the process cannot be started, nothing is delivered and the flag is untouched. Otherwise the flag is cleared, overriding an earlier stop, and exactly `Delivered` is handed over |
| LogcatManager.LogcatManager.ReadLoop | src/models/logcatmanager.py:116-121 | the `while` loop delivers `Delivered(lines, stopAt, 0)`, and the flag ends as its last test found it |
| LogcatManager.DeliveredStep | src/models/logcatmanager.py:117-121 | one non-empty read with the flag clear delivers that line, then the rest |
| RemoteManager.Send | src/models/remotemanager.py:30-40 | true iff the device is found and the shell call returns; the output is not read |
| RemoteManager.SendTap | src/models/remotemanager.py:18-40 | true iff the device is found and `input tap <x> <y>` returns |
| RemoteManager.TapCommandWords | src/models/remotemanager.py:36 | the tap command is the four words `input tap <x> <y>`, and `int` reads both coordinates back from it |
| RemoteManager.SendSwipe | src/models/remotemanager.py:42-65 | true iff the device is found and the swipe command returns |
| RemoteManager.SwipeCommandWords | src/models/remotemanager.py:61 | the swipe command is the seven words `input swipe x1 y1 x2 y2 duration` |
| RemoteManager.SendKeyevent | src/models/remotemanager.py:92-113 | true iff the device is found and the key event command returns |
| RemoteManager.KeyeventWords | src/models/remotemanager.py:109 | `input keyevent <n>` splits into three words whose last parses back to `n` |
| RemoteManager.KeyeventCommandKey | src/models/remotemanager.py:109 | the command is `input keyevent <n>`, and `n` is the key's numeric value, from which the key is found again |
| RemoteManager.EscapeTextIsPerChar | src/models/remotemanager.py:84 | the two chained replacements escape each character on its own (space to `%s`, `&` to `\&`), because neither rewrites the other's output |
| RemoteManager.SubstTwice | src/models/remotemanager.py:84 | both replacements together equal the per-character escape |
| RemoteManager.EscapeNoSpace | src/models/remotemanager.py:84-86 | the escaped text holds no space, so it stays one shell word |
| RemoteManager.UnescapeEscape | src/models/remotemanager.py:84 | round trip: text without `%` or backslash is recovered from its escape when `%s` is read as a space and `\&` as `&` |
| RemoteManager.SendText | src/models/remotemanager.py:67-90 | true iff the device is found and the text command returns |
| RemoteManager.TextCommandShape | src/models/remotemanager.py:84-86 | the command is `input text '<escaped>'`, and the escaped text holds no space |
| RemoteManager.ParseSize | src/models/remotemanager.py:132-136 | a size is read only when the output holds `Physical size:` |
| RemoteManager.SizeOf | src/models/remotemanager.py:133-134 | a size needs the stripped text to split on `x` into exactly two pieces |
| RemoteManager.PairOf | src/models/remotemanager.py:134 | both pieces must be integers, and the pair is their values |
| RemoteManager.GetScreenSize | src/models/remotemanager.py:115-140 | the default `(1080, 1920)` when the device is missing or the call raises. Otherwise the size read, or the default when none can be read |
| RemoteManager.DigitsNoLetter | src/models/remotemanager.py:133-134 | a printed number holds no `x`, `P` or newline and has no surrounding whitespace |
| RemoteManager.SizeTextSplit | src/models/remotemanager.py:134 | `WxH` splits on `x` into the two printed numbers |
| RemoteManager.SizeOfText | src/models/remotemanager.py:133-134 | `WxH` with whitespace around it reads back as `(W, H)` |
| RemoteManager.ParseSizeAfterLabel | src/models/remotemanager.py:132-133 | when the label begins the output and does not recur, everything after it is read |
| RemoteManager.ParseSizePhysical | src/models/remotemanager.py:130-136 | round trip: `Physical size: WxH` followed only by whitespace gives `(W, H)` |
| RemoteManager.OverrideLetters | src/models/remotemanager.py:133 | the override line holds an `x`, no `P`, and ends in a non-space |
| RemoteManager.TwoXs | src/models/remotemanager.py:134 | text with two `x`s does not split into exactly two pieces |
| RemoteManager.SizeOfTwoXs | src/models/remotemanager.py:133-134 | padded text with two `x`s is not a size |
| RemoteManager.SizeOfOverride | src/models/remotemanager.py:133-134 | `WxH` followed by an override line is not a size |
| RemoteManager.ParseSizeOverride | src/models/remotemanager.py:130-140 | with an `Override size:` line after the physical size, nothing is read, so the default is returned in place of the physical size |
| RemoteManager.ParseSizeFirstLine | src/models/remotemanager.py:132-136 | the corrected reading, from the first line after the label only; a size is read only when the label is present |
| RemoteManager.FirstLine | src/models/remotemanager.py:133 | a newline-free line followed by nothing or by a new line is the first piece of the split on newlines |
| RemoteManager.ParseSizeFirstLinePhysical | src/models/remotemanager.py:132-136 | the corrected reading gives `(W, H)` from `Physical size: WxH`, whatever lines follow |
| RemoteManager.ParseSizeFirstLineOverride | src/models/remotemanager.py:132-136 | on output with an override line, the reading as written gives none and the corrected one gives the physical size |
| RemoteManager.TakeScreenshot | src/models/remotemanager.py:142-173 | false with no step for a missing device. Otherwise it runs `screencap`, then `pull`, then `rm`, in that order, stopping at the first step that raises. It is true only when all three return, and on false the last step issued is the one that raised |
| FileModel.NewFileItem | src/models/filemodel.py:8-18 | the defaults: size 0, permissions `----------`, owner `root`, neither a directory nor a link |
| FileModel.Unit | src/models/filemodel.py:33-41 | the unit bucket: B below 1024, KB below 1024², MB below 1024³, GB otherwise |
| FileModel.UnitMonotone | src/models/filemodel.py:33-41 | a larger size never gets a smaller unit |
| FileModel.SizeFormatted | src/models/filemodel.py:31-41 | below 1024 it is exactly `<size> B`; otherwise it is a rounded number with the size's unit |
| FileModel.SizeFormattedBytes | src/models/filemodel.py:33-34 | below 1024 the byte count can be read back from the text before ` B` |
| FileModel.FileType | src/models/filemodel.py:44-55 | `Folder` for a directory, even one that is a link. `Link` for any other link. A dotted name gives the upper-cased text after its last dot plus ` File`; otherwise `File` |
| FileModel.FileTypeExtension | src/models/filemodel.py:52-54 | the extension holds no dot, and the name ends with a dot followed by it |
| FileModel.ToString | src/models/filemodel.py:57-58 | the name |
| ProcessModel.NewProcessInfo | src/models/processmodel.py:8-17 | the defaults: user `unknown`, state `R`, memory 0, parent pid 0 |
| ProcessModel.StateText | src/models/processmodel.py:24-35 | the table's name for a known code, `Unknown` for any other |
| ProcessModel.StateTextKnown | src/models/processmodel.py:27-35 | exactly R, S, D, Z, T and W have a name, and distinct codes have distinct names |
| ProcessModel.ToString | src/models/processmodel.py:37-38 | `<name> (PID: ` ... `)` |
| ProcessModel.ToStringPid | src/models/processmodel.py:38 | the pid can be read back from between `(PID: ` and the closing parenthesis |
| LogcatModel.LevelText | src/models/logcatmodel.py:18-29 | the table's name for one of the six letters, `Unknown` for any other level |
| LogcatModel.LevelColor | src/models/logcatmodel.py:31-42 | the table's colour for one of the six letters, `#ffffff` for any other level |
| LogcatModel.LevelTables | src/models/logcatmodel.py:21-42 | both tables have the keys V, D, I, W, E, F; distinct levels have distinct names; the colour is white exactly for I and for unknown levels |
| LogcatModel.ToString | src/models/logcatmodel.py:44-45 | `<timestamp> <level>/<tag>: ` followed by the message, and no other characters: the length is the four fields plus four |
| LogcatModel.ToStringFields | src/models/logcatmodel.py:45 | for a one-letter level and a colon-free tag, timestamp, level and tag can be read back from the text |
| AppModel.NewAppInfo | src/models/appmodel.py:8-18 | the defaults: name, version and code `Unknown`, size 0, not system, not running, enabled |
| AppModel.AppType | src/models/appmodel.py:25-28 | `System` iff a system package, `User` iff not |
| AppModel.Status | src/models/appmodel.py:30-36 | `Running` iff running, `Not Running` iff not |
| AppModel.ToString | src/models/appmodel.py:38-39 | the app name, then ` (`, then the package name, then `)` as the last character |
| DeviceModel.NewDeviceInfo | src/models/devicemodel.py:8-19 | the defaults: every text `Unknown`, battery 0, connected, no address |
| DeviceModel.DisplayName | src/models/devicemodel.py:24-29 | `<manufacturer> <model>` once the model is known, the serial otherwise |
| DeviceModel.DisplayNameDefault | src/models/devicemodel.py:27-29 | a device whose model was never read is shown by its serial |
| DeviceModel.ToString | src/models/devicemodel.py:21-22 | the model, then ` (`, then the serial, then `)` as the last character |
| RemoteControl.Value | src/models/remotecontrol.py:7-33 | each key's numeric Android code, between 3 and 164 |
| RemoteControl.FromValue | src/models/remotecontrol.py:7-33 | `KeyCode(n)`: a member found has the value `n` |
| RemoteControl.FromValueOfValue | src/models/remotecontrol.py:7-33 | every member is found again from its value, so the enumeration has no aliases |
| RemoteControl.ValueInjective | src/models/remotecontrol.py:7-33 | the 19 codes are pairwise distinct |
| RemoteControl.DpadRange | src/models/remotecontrol.py:18-22 | the D-pad keys are exactly the codes 19 to 23, in the order up, down, left, right, center |
| Shell.ShellWith | src/models/filemanager.py:53 | a command's text is obtained iff there is a device and its shell call did not raise; the text is that call's output |
| Shell.Quoted | src/models/filemanager.py:116 | one single quote on each side, and the path unchanged between them |
| Sorting.SortPermutation | src/models/filemanager.py:84 | the result of the sort is a permutation of the input |
| Sorting.SortSorted | src/models/filemanager.py:84 | the result of the sort is ordered by the key as Python orders `(bool, str)` tuples |
| Sorting.SortStable | src/models/filemanager.py:84 | the sort is stable: for each key, the elements carrying it keep their input order |
| Sorting.KeyLeqTotal | src/models/filemanager.py:84 | any two keys are comparable |
| Sorting.KeyLeqTrans | src/models/filemanager.py:84 | the key order is transitive |
| PosixPath.Basename | src/models/filemanager.py:228 | the result holds no slash and ends the path, right after the path's last slash when it has one |
| PosixPath.Dirname | src/models/filemanager.py:126 | a prefix of the path; empty when the path has no slash |
| PosixPath.Join | src/models/filemanager.py:127 | the two parts with one slash between them unless the first is empty or already ends with one |
| PosixPath.BasenameJoin | src/models/filemanager.py:126-127 | the base name of a join is its slash-free last part |
| PosixPath.BasenameAfterSlash | src/models/filemanager.py:228-229 | a slash-free name written after a directory that ends in a slash is that path's base name |
| PosixPath.DirnameBasename | src/models/filemanager.py:126-127 | splitting `d/b` gives back `d` and `b` |
| ListFilter.Keep | src/views/widgets/appmanagerwidget.py:220-224 | the comprehension: an element is kept iff it is in the list and passes the test, and a passing element is kept as many times as it occurs; the result is an order-preserving subsequence, no longer than the list |
| ListFilter.SubsequenceRefl | src/views/widgets/appmanagerwidget.py:216-217 | a list is a subsequence of itself, which covers the copy an empty search makes |
| ListFilter.KeepAll | src/views/widgets/appmanagerwidget.py:220-224 | when every element passes, nothing is dropped |
| ListFilter.KeepIdempotent | src/views/widgets/appmanagerwidget.py:214-227 | filtering the filtered list again changes nothing |
| ListFilter.StatusTextCounts | src/views/widgets/appmanagerwidget.py:227 | the status line is the words `Showing <k> of <n> <things>`, and both counts read back from it |
| ListFilter.StatusTextNotNoDevice | src/views/widgets/appmanagerwidget.py:289-299 | a count status never reads `No device selected`, so the two kinds of status line are told apart |
| AppWidget.FilteredApps | src/views/widgets/appmanagerwidget.py:214-224 | an empty search shows every app in order. A non-empty search keeps an app iff the lower-cased search occurs in its lower-cased name or package, and every copy of a kept app stays. The result is always an order-preserving subsequence |
| AppWidget.FilteredAppsCaseInsensitive | src/views/widgets/appmanagerwidget.py:219-224 | searches with the same lower-case form show the same apps |
| AppWidget.AppManagerWidget.constructor | src/views/widgets/appmanagerwidget.py:28-82 | no apps, no rows on show and no search; the controls take input and the status reads `No device selected` |
| AppWidget.AppManagerWidget.SetDeviceConnected | src/views/widgets/appmanagerwidget.py:289-299 | the controls take input exactly when connected; a disconnect sets `No device selected`; the lists and the search are kept, and the rows on show stay the filter |
| AppWidget.AppManagerWidget.FilterApps | src/views/widgets/appmanagerwidget.py:214-227 | the rows on show become the filter for the search, and the status reads `Showing <shown> of <all> apps`; the app list is unchanged |
| AppWidget.AppManagerWidget.SetSearchText | src/views/widgets/appmanagerwidget.py:214-227 | after typing, the rows on show are the filter of the app list by the new text |
| AppWidget.AppManagerWidget.UpdateApps | src/views/widgets/appmanagerwidget.py:204-212 | the app list is replaced and the current search applied again; the rows and status agree with both |
| AppWidget.AppManagerWidget.RowApp | src/views/widgets/appmanagerwidget.py:148-151 | a row gives an app iff it lies within the rows on show; it is that row's app, which is in the app list |
| ProcessWidget.FilteredProcesses | src/views/widgets/processmonitorwidget.py:200-211 | an empty search shows every process in order. A non-empty search keeps a process iff the lower-cased search occurs in its lower-cased name, its pid in decimal, or its lower-cased user, and every copy of a kept process stays. The result is an order-preserving subsequence |
| ProcessWidget.PidSearchKeeps | src/views/widgets/processmonitorwidget.py:205-211 | searching for a process's own pid always shows it |
| ProcessWidget.LowerIntToString | src/views/widgets/processmonitorwidget.py:209 | lower-casing the decimal pid changes nothing |
| ProcessWidget.ProcessMonitorWidget.constructor | src/views/widgets/processmonitorwidget.py:25-80 | no processes, no rows on show and no search; the controls take input, the auto-refresh timer is stopped, and the status reads `No device selected` |
| ProcessWidget.ProcessMonitorWidget.AutoRefreshChanged | src/views/widgets/processmonitorwidget.py:118-125 | ticking the box starts the timer and clearing it stops it; nothing else changes |
| ProcessWidget.ProcessMonitorWidget.SetDeviceConnected | src/views/widgets/processmonitorwidget.py:266-276 | the controls take input exactly when connected; a disconnect sets `No device selected` and stops the timer; the lists and the search are kept |
| ProcessWidget.ProcessMonitorWidget.FilterProcesses | src/views/widgets/processmonitorwidget.py:200-214 | the rows on show become the filter for the search, and the status reads `Showing <shown> of <all> processes`; the process list is unchanged |
| ProcessWidget.ProcessMonitorWidget.SetSearchText | src/views/widgets/processmonitorwidget.py:200-214 | after typing, the rows on show are the filter of the process list by the new text |
| ProcessWidget.ProcessMonitorWidget.UpdateProcesses | src/views/widgets/processmonitorwidget.py:191-198 | the process list is replaced and the current search applied again |
| ProcessWidget.ProcessMonitorWidget.KillClicked | src/views/widgets/processmonitorwidget.py:134-149 | a kill is requested iff a selected row lies within the rows on show and the confirmation is answered Yes. It is for that row's pid, a process of the list |
| ProcessWidget.ProcessMonitorWidget.MenuRequest | src/views/widgets/processmonitorwidget.py:157-188 | no request outside the rows on show or when the menu is dismissed. Otherwise a kill or a force kill, as chosen, of that row's pid |
| Terminal.NavUp | src/views/widgets/terminalwidget.py:53-57 | above index 0, the index goes back one and the line shows that entry; otherwise nothing changes |
| Terminal.NavDown | src/views/widgets/terminalwidget.py:59-66 | below the last index, the index goes forward one and the line shows that entry. At the last index it moves past the end and empties the line. Past the end nothing changes |
| Terminal.UpThenDown | src/views/widgets/terminalwidget.py:53-66 | Down undoes Up on a line that shows its entry |
| Terminal.DownThenUp | src/views/widgets/terminalwidget.py:53-66 | Up undoes Down away from the end |
| Terminal.UpRecalls | src/views/widgets/terminalwidget.py:42-57 | from the position after a submission, Up recalls the newest entry, and each further Up an older one |
| Terminal.Collapse | src/views/widgets/terminalwidget.py:34-35 | the reference history of a run of submissions: no longer than the run, empty iff the run is, and ending with the last submission |
| Terminal.AppendedCollapse | src/views/widgets/terminalwidget.py:34-35 | the append rule applied to a collapsed history gives the collapse of the longer run |
| Terminal.CollapseWellFormed | src/views/widgets/terminalwidget.py:31-35 | collapsing stripped non-blank submissions gives a history with no two adjacent entries equal |
| Terminal.CollapseElements | src/views/widgets/terminalwidget.py:34-35 | every history entry is one of the submissions |
| Terminal.CollapseNoRepeat | src/views/widgets/terminalwidget.py:34-35 | no entry of a collapsed history repeats the one before it |
| Terminal.AppendedWellFormed | src/views/widgets/terminalwidget.py:31-35 | appending a stripped non-blank command by the rule keeps every entry stripped and non-empty and no two neighbours equal |
| Terminal.ReverseCons | src/views/widgets/terminalwidget.py:245 | putting a command at the front of the newest-first list puts it at the end of the list read oldest first |
| Terminal.Reverse | src/views/widgets/terminalwidget.py:245 | the newest-first list read oldest first |
| Terminal.CommandInput.constructor | src/views/widgets/terminalwidget.py:20-23 | empty history at index -1, empty line |
| Terminal.CommandInput.SubmitCommand | src/views/widgets/terminalwidget.py:29-42 | a line that is blank after stripping changes nothing. Otherwise the stripped command is emitted. It is appended unless it repeats the newest entry, the line is emptied, and the index is the history's length. Every entry stays stripped, non-empty and unlike its neighbour, and the index stays within -1 to the length |
| Terminal.CommandInput.NavigateUp | src/views/widgets/terminalwidget.py:53-57 | the position moves as `NavUp` says; the history is unchanged and the invariant kept |
| Terminal.CommandInput.NavigateDown | src/views/widgets/terminalwidget.py:59-66 | the position moves as `NavDown` says; the history is unchanged and the invariant kept |
| Terminal.CommandInput.History | src/views/widgets/terminalwidget.py:68-70 | the history as kept, whose entries are stripped and non-empty, none repeating the one before it |
| Terminal.EntryStripped | src/views/widgets/terminalwidget.py:31-32 | a non-empty text with no whitespace at either end is its own `strip` |
| Terminal.Route | src/views/widgets/terminalwidget.py:250-259 | the screen is cleared iff the lower-cased command is `clear`, help is shown iff it is `help`, and otherwise the command is emitted unchanged |
| Terminal.LowerUpper | src/views/widgets/terminalwidget.py:251-254 | lower-casing an upper-cased text is lower-casing the text |
| Terminal.RouteIgnoresCase | src/views/widgets/terminalwidget.py:250-259 | upper-casing a command does not change how it is routed |
| Terminal.RouteBuiltins | src/views/widgets/terminalwidget.py:250-259 | `clear`, `CLEAR` and `Clear` clear the screen; `help` and `HELP` show help; `ls` is emitted |
| Terminal.CommandOfItemText | src/views/widgets/terminalwidget.py:237-275 | round trip: splitting `<cmd>   # <desc>` at its first `#` and stripping gives back the command, for one without `#` or surrounding whitespace |
| Terminal.TerminalWidget.constructor | src/views/widgets/terminalwidget.py:20-23 | both histories start empty and agree |
| Terminal.TerminalWidget.OnCommandSubmitted | src/views/widgets/terminalwidget.py:242-261 | the command goes to the front of the list of past submissions, and the action is its routing |
| Terminal.TerminalWidget.ReturnPressed | src/views/widgets/terminalwidget.py:29-42 | a non-blank line is recorded in both histories and routed; a blank one changes nothing. The command line's history stays the collapse of the listed submissions |
| Terminal.TerminalWidget.ClearHistory | src/views/widgets/terminalwidget.py:366-372 | both histories are emptied and the index reset to -1; the invariant is kept |
| Terminal.TerminalWidget.HistoryItemClicked | src/views/widgets/terminalwidget.py:263-267 | the past submission is put back on the command line; the history is unchanged |
| Terminal.TerminalWidget.CommonCommandClicked | src/views/widgets/terminalwidget.py:269-275 | the line holds the text of the item before its first `#`, stripped; for a command with no `#` and no surrounding whitespace that is the command itself. The history is unchanged |

Behaviours of the code that a reader might not expect, which the model keeps:

- A device refresh only inserts or overwrites cache entries. It never
  purges serials that are no longer reported (`AdbBridge.CacheAfterUnlisted`).
- The kill ladder's `am force-stop` fallback returns the same plain `True`
  as a clean kill. Which rung was taken is an extra out-value (`KillPath`)
  that the source does not return.
- `parse_log_line` gives `None` for a line it cannot match. Showing such a
  line raw is the controller's job, which is not part of this model. Note
  that the stream asks `adb logcat` for the `-v time` layout, while the
  pattern expects the `threadtime` layout. `LogcatManager.TimeLayoutRejected`
  states that a line in the `time` layout never parses, so in practice the
  stream's lines reach the display raw.
- The `package:` prefix is removed with `str.replace`, so every occurrence
  is removed, not only the leading one.

## Left out

- The transport is an oracle. The model does not cover the ppadb client and
  device calls, `remote_connect`, `version` or `subprocess.Popen`. A
  `Shell.Device` gives, for each command, the text printed or a raised
  exception. It answers the same way every time it is asked, so commands
  have no effect on later commands.
- `AdbBridge.AdbManager`: `_initialize_client` and `is_adb_running` are
  modelled as the presence of a client value. The client's device list and
  `remote_connect` answers are given with it.
- Floating point: `size_mb`, `size_kb`, `mem_mb`, the number in
  `size_formatted` above 1024 bytes, the GB rounding of memory and storage
  in `get_extended_device_info`, and the CPU and memory percentages. Only
  the unit bucket of `size_formatted` is modelled. The battery temperature
  is kept as the tenths integer `dumpsys` prints.
- `FileModel.SizeFormatted`: above 1024 bytes states only the unit, because
  the number is a float.
- `install_date` of `AppInfo` and `modified_date` of `FileItem` are not
  modelled. They are parsed from dates the bridge does not interpret.
- Python's string methods are modelled over ASCII. The whitespace set is
  space, \t, \n, \r, \v and \f; Python also counts \x1c–\x1f, which the
  model does not. Underscores inside `int()` literals are not accepted.
- Default parameters are passed explicitly: port 5555 for `connect_device`,
  level `V` for the stream, duration 300 for a swipe (`DefaultSwipeDuration`).
  The manager defaults host `127.0.0.1` and port 5037 are constants.
- Sorting is modelled on values. `Sorting.Sort` returns a new sequence
  instead of reordering the list in place.
- Concurrency: the read loop's worker thread, `terminate`/`wait` on the
  `adb logcat` process and the refresh timers are left out. A stop requested
  from another thread, or by the callback, is the parameter `stopAt`. The
  subprocess's exit and an exception raised by the callback are not
  modelled.
- `RemoteManager.SwipeCommandWords` states the seven words of the command.
  It does not read the four coordinates back, which `TapCommandWords` does
  for a tap.
- `FileManager.Entries` states only a length bound in its own contract.
  Which lines it keeps is stated by `EntriesSnoc`, `EntriesAppend` and
  `EntriesComplete`.
- `ProcessManager.Processes` states only a length bound in its own contract.
  Which rows it keeps is stated by `ProcessesSnoc`, `ProcessesAppend` and
  `ProcessesComplete`.
- `AppManager.CollectApps` states only a length bound in its own contract.
  Which packages it keeps is stated by `CollectAppsSnoc`, `CollectAppsAppend`
  and `CollectAppsComplete`.
- `AppManager.PackageList` states only a length bound in its own contract.
  Which lines give a name, and where, is stated by `PackageListStep`,
  `PackageListAppend` and `PackageListComplete`.
- `AppManager.TokenAfter` states only that a token is a non-empty word. The
  token's value is stated by `TokenAfterOf` for a key whose first character
  does not occur before it and that does not recur after it.
- `FileManager.FallbackPath` takes the base name with POSIX separators. On
  Windows `os.path` splits at backslashes too, so a local path such as
  `C:\dir\f.txt` gives a different base name there; that host is not
  modelled.
- `AppWidget.AppManagerWidget.SetDeviceConnected` and
  `ProcessWidget.ProcessMonitorWidget.SetDeviceConnected` model the enabled
  state of all the controls as one flag. The emptying of the table on a
  disconnect (`setRowCount(0)`) is not modelled: the model has no table, and
  `RowApp`, `KillClicked` and `MenuRequest` index the rows on show, which a
  disconnect keeps.
- `ProcessWidget.ProcessMonitorWidget.KillClicked` takes the selected view
  row as an index into `filtered_processes`. The table has sorting enabled
  (processmonitorwidget.py:59 and :264). Once the user sorts by a column,
  the row on screen and the list index differ, and the pid picked may not
  be the process shown in that row. The model does not capture the view's
  re-sorting.
- `ProcessWidget.ProcessMonitorWidget.MenuRequest` has the same limit: the
  row under the pointer indexes `filtered_processes` directly, and a
  re-sorted view is not modelled.
- `RemoteControl.TouchEvent` is a record only; no operation of the core
  uses it.
- Logging calls, the terminal's output pane (`append_output`, `show_help`,
  `clear_output`), message boxes and all Qt rendering. The user's answers
  to dialogs and menus are parameters (`confirmed`, `MenuChoice`).
- `Terminal.TerminalWidget.CommonCommandClicked`: the model proves the round
  trip for any command with no `#` and no surrounding whitespace. It does not
  prove, entry by entry, that each of the 19 listed commands has that shape.
  Checking the string literals character by character costs the solver more
  than the rest of the terminal model put together.
- `RemoteManager.GetScreenSize` models the code as written, as the
  finding below describes; `ParseSizeFirstLine` is the corrected reading.

## Findings

| source | as written | input that shows it | evidently intended | confidence | as-written member | corrected member |
|---|---|---|---|---|---|---|
| src/models/remotemanager.py:132-136 | the whole text after `Physical size:` is stripped and split on `x` into exactly two integers | `wm size` output `Physical size: 1080x1920` followed by the line `Override size: 720x1280`: the text after the label holds two `x`s, so the split has three pieces, the conversion raises, and `(1080, 1920)` is returned whatever the physical size is | read the size from the first line after the label, so the physical size is returned | not executed | RemoteManager.ParseSizeOverride | RemoteManager.ParseSizeFirstLineOverride |
