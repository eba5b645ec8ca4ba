/**
 * The device registry: the bridge to the ADB server, the serial-keyed cache
 * of device handles that `get_devices` fills, the lookup with one refresh,
 * network connect and disconnect, and the parsing of the device properties.
 */
module AdbBridge {
  import opened Wrappers
  import opened Text
  import opened Shell
  import opened DeviceModel

  const DefaultHost: string := "127.0.0.1"
  const DefaultPort: int := 5037
  /** The port `connect_device` uses when the caller gives none. */
  const DefaultDevicePort: int := 5555
  const Usb: string := "USB"
  const NetworkKind: string := "Network"

  /**
   * The ADB server client, as an oracle: `version` is true when
   * `client.version()` returns; `devices` is the list `client.devices()`
   * returns, or `None` when it raises; `remoteConnect` gives the result of
   * `remote_connect`, `None` when it raises; `remoteDisconnect` is true when
   * `remote_disconnect` returns.
   */
  datatype Client = Client(
    version: bool,
    devices: Option<seq<Device>>,
    remoteConnect: (string, int) -> Option<bool>,
    remoteDisconnect: string -> bool)

  // ------------------------------------------------------------ serial kind

  /** The connection kind: network exactly when the serial holds a `:`. */
  function ConnectionType(serial: string): (r: string)
    ensures r == NetworkKind <==> ':' in serial
    ensures r == Usb <==> ':' !in serial
  {
    if ':' in serial then NetworkKind else Usb
  }

  /** The text before the first `:`, as `serial.split(":")[0]`. */
  function HostPart(serial: string): string {
    Split(serial, ":")[0]
  }

  /** `ip_address`: the host part for a network serial, `None` for a USB one. */
  function IpAddress(serial: string): (r: Option<string>)
    ensures r.Some? <==> ':' in serial
  {
    if ConnectionType(serial) == NetworkKind then Some(HostPart(serial)) else None
  }

  /** The host part of a network serial is everything before its first `:`. */
  lemma {:induction false} HostPartPrefix(serial: string)
    requires ':' in serial
    ensures ':' !in HostPart(serial) && StartsWith(serial, HostPart(serial) + ":")
  {
    SplitHeadChar(serial, ':');
  }

  /** A serial printed as `host:port` gives back the host. */
  lemma {:induction false} IpAddressOf(host: string, port: string)
    requires ':' !in host
    ensures IpAddress(host + ":" + port) == Some(host)
  {
    SplitHeadPrefix(host, ":", port);
  }

  // ------------------------------------------------------- property parsing

  /** The stripped text after the first `key` of a reply known to hold it: `raw.split(key)[1].strip()`. */
  function ValueAfter(raw: string, key: string): string
    requires |key| > 0 && Contains(raw, key)
  {
    SplitSecond(raw, key);
    Strip(Split(raw, key)[1])
  }

  /** A reply printed as `key` and a value without a second `key` gives back the stripped value. */
  lemma {:induction false} ValueAfterOf(key: string, post: string)
    requires |key| > 0 && !Contains(post, key)
    ensures Contains(key + post, key) && ValueAfter(key + post, key) == Strip(post)
  {
    var s := key + post;
    assert s == [] + key + post;
    SplitSecondOf([], key, post);
    assert Split(s, key)[1] == post;
  }

  /** A space and a value: the value holds no `key` when it lacks the first character of `key`. */
  lemma {:induction false} PaddedValue(key: string, v: string)
    requires |key| > 0 && key[0] != ' ' && key[0] !in v
    requires v == [] || (!IsSpace(v[0]) && !IsSpace(v[|v| - 1]))
    ensures !Contains(" " + v, key) && Strip(" " + v) == v
  {
    if Contains(" " + v, key) {
      ContainsFirst(" " + v, key);
      assert false;
    }
    StripPadded(" ", v, []);
    assert " " + v + [] == " " + v;
  }

  /** `battery_level`: the integer after the first `level:`, 0 when absent or not an integer. */
  function BatteryLevel(raw: string): (r: int)
    ensures !Contains(raw, "level:") ==> r == 0
    ensures r != 0 ==> Contains(raw, "level:") && ParseInt(ValueAfter(raw, "level:")) == Some(r)
    ensures Contains(raw, "level:") && ParseInt(ValueAfter(raw, "level:")).Some? ==>
      r == ParseInt(ValueAfter(raw, "level:")).value
    ensures Contains(raw, "level:") && ParseInt(ValueAfter(raw, "level:")).None? ==> r == 0
  {
    if Contains(raw, "level:") then
      match ParseInt(ValueAfter(raw, "level:"))
      case None => 0
      case Some(n) => n
    else 0
  }

  /** The line `dumpsys battery | grep level` prints gives back the level. */
  lemma {:induction false} BatteryLevelOf(n: nat)
    ensures BatteryLevel("level: " + NatToString(n)) == n
  {
    var digits := NatToString(n);
    assert forall k :: 0 <= k < |digits| ==> IsDigit(digits[k]);
    PaddedValue("level:", digits);
    ValueAfterOf("level:", " " + digits);
    assert "level: " + digits == "level:" + (" " + digits);
    DigitsParse(digits);
    DigitsValueOfNat(n);
  }

  /** `screen_resolution`: the stripped text after the first `Physical size:`, `Unknown` when absent. */
  function Resolution(raw: string): (r: string)
    ensures !Contains(raw, "Physical size:") ==> r == "Unknown"
    ensures Contains(raw, "Physical size:") ==> r == ValueAfter(raw, "Physical size:")
  {
    if Contains(raw, "Physical size:") then ValueAfter(raw, "Physical size:") else "Unknown"
  }

  /** The line `wm size` prints gives back the size text. */
  lemma {:induction false} ResolutionOf(size: string)
    requires 'P' !in size
    requires size == [] || (!IsSpace(size[0]) && !IsSpace(size[|size| - 1]))
    ensures Resolution("Physical size: " + size) == size
  {
    PaddedValue("Physical size:", size);
    ValueAfterOf("Physical size:", " " + size);
    assert "Physical size: " + size == "Physical size:" + (" " + size);
  }

  /** The shell commands `_get_device_info` issues, in order. */
  const InfoCommands: seq<string> := [
    "getprop ro.product.model",
    "getprop ro.product.manufacturer",
    "getprop ro.build.version.release",
    "getprop ro.build.version.sdk",
    "dumpsys battery | grep level",
    "wm size"]

  /** Whether every property command returned. */
  predicate AllAnswered(d: Device) {
    forall i :: 0 <= i < |InfoCommands| ==> d.shell(InfoCommands[i]).Output?
  }

  /** The stripped answer of property command `i`. */
  function Answer(d: Device, i: nat): string
    requires i < |InfoCommands| && AllAnswered(d)
  {
    Strip(d.shell(InfoCommands[i]).text)
  }

  /**
   * `_get_device_info`: the properties read from the device, or, when any
   * of the commands raises, the defaults with a USB connection.
   */
  function DeviceInfoOf(d: Device): (r: DeviceInfo)
    ensures r.serial == d.serial && r.isConnected
    ensures !AllAnswered(d) ==> r == NewDeviceInfo(d.serial).(connectionType := Usb)
    ensures (AllAnswered(d) ==>
      r.connectionType == ConnectionType(d.serial) && r.ipAddress == IpAddress(d.serial) &&
      r.model == Answer(d, 0) && r.manufacturer == Answer(d, 1) && r.androidVersion == Answer(d, 2) &&
      r.sdkVersion == Answer(d, 3) && r.batteryLevel == BatteryLevel(Answer(d, 4)) &&
      r.screenResolution == Resolution(Answer(d, 5)))
  {
    if !AllAnswered(d) then NewDeviceInfo(d.serial).(connectionType := Usb)
    else
      DeviceInfo(d.serial, Answer(d, 0), Answer(d, 2), Answer(d, 3), BatteryLevel(Answer(d, 4)),
        ConnectionType(d.serial), Resolution(Answer(d, 5)), true, IpAddress(d.serial), Answer(d, 1))
  }

  /** The records for a device list, in order. */
  function Infos(ds: seq<Device>): (r: seq<DeviceInfo>)
    ensures |r| == |ds|
  {
    if ds == [] then [] else Infos(ds[..|ds| - 1]) + [DeviceInfoOf(ds[|ds| - 1])]
  }

  lemma {:induction false} InfosAt(ds: seq<Device>, i: nat)
    requires i < |ds|
    ensures Infos(ds)[i] == DeviceInfoOf(ds[i]) && Infos(ds)[i].serial == ds[i].serial
    decreases |ds|
  {
    if i < |ds| - 1 {
      InfosAt(ds[..|ds| - 1], i);
    }
  }

  /** One more device of a listing: the records and the cache of `ds[..i + 1]` extend those of `ds[..i]`. */
  lemma {:induction false} PrefixSnoc(ds: seq<Device>, i: nat)
    requires i < |ds|
    ensures Infos(ds[..i + 1]) == Infos(ds[..i]) + [DeviceInfoOf(ds[i])]
    ensures forall cache :: CacheAfter(cache, ds[..i + 1]) == CacheAfter(cache, ds[..i])[ds[i].serial := ds[i]]
  {
    assert ds[..i + 1][..i] == ds[..i];
  }

  // ----------------------------------------------------------------- cache

  /** The cache after `_device_cache[device.serial] = device` for each listed device, in order. */
  function CacheAfter(cache: map<string, Device>, ds: seq<Device>): map<string, Device> {
    if ds == [] then cache
    else CacheAfter(cache, ds[..|ds| - 1])[ds[|ds| - 1].serial := ds[|ds| - 1]]
  }

  function Serials(ds: seq<Device>): set<string> {
    set i | 0 <= i < |ds| :: ds[i].serial
  }

  lemma {:induction false} SerialsSnoc(ds: seq<Device>)
    requires ds != []
    ensures Serials(ds) == Serials(ds[..|ds| - 1]) + {ds[|ds| - 1].serial}
  {
    var init := ds[..|ds| - 1];
    forall s | s in Serials(ds) ensures s in Serials(init) + {ds[|ds| - 1].serial} {
      var i :| 0 <= i < |ds| && ds[i].serial == s;
      if i < |init| {
        assert init[i] == ds[i];
      }
    }
    forall s | s in Serials(init) ensures s in Serials(ds) {
      var i :| 0 <= i < |init| && init[i].serial == s;
      assert ds[i] == init[i];
    }
  }

  /** A refresh only adds keys: the old ones stay and every listed serial is added. */
  lemma {:induction false} CacheAfterKeys(cache: map<string, Device>, ds: seq<Device>)
    ensures CacheAfter(cache, ds).Keys == cache.Keys + Serials(ds)
    decreases |ds|
  {
    if ds != [] {
      var init := ds[..|ds| - 1];
      var last := ds[|ds| - 1];
      CacheAfterKeys(cache, init);
      SerialsSnoc(ds);
      assert CacheAfter(cache, ds) == CacheAfter(cache, init)[last.serial := last];
    }
  }

  /** A serial the refresh did not list keeps its old handle. */
  lemma {:induction false} CacheAfterUnlisted(cache: map<string, Device>, ds: seq<Device>, s: string)
    requires s in cache && forall i :: 0 <= i < |ds| ==> ds[i].serial != s
    ensures s in CacheAfter(cache, ds) && CacheAfter(cache, ds)[s] == cache[s]
    decreases |ds|
  {
    if ds != [] {
      var init := ds[..|ds| - 1];
      assert forall i :: 0 <= i < |init| ==> init[i] == ds[i];
      CacheAfterUnlisted(cache, init, s);
    }
  }

  /** A listed serial maps to the last listed device with that serial. */
  lemma {:induction false} CacheAfterListed(cache: map<string, Device>, ds: seq<Device>, i: nat)
    requires i < |ds| && forall j :: i < j < |ds| ==> ds[j].serial != ds[i].serial
    ensures ds[i].serial in CacheAfter(cache, ds) && CacheAfter(cache, ds)[ds[i].serial] == ds[i]
    decreases |ds|
  {
    if i < |ds| - 1 {
      var init := ds[..|ds| - 1];
      assert forall j :: i < j < |init| ==> init[j] == ds[j];
      CacheAfterListed(cache, init, i);
    }
  }

  /** Whether the server answers the version handshake. */
  predicate Running(client: Option<Client>) {
    client.Some? && client.value.version
  }

  /** The cache after one `get_devices`: unchanged when the handshake or the listing fails. */
  function Refreshed(cache: map<string, Device>, client: Option<Client>): map<string, Device> {
    if Running(client) && client.value.devices.Some? then CacheAfter(cache, client.value.devices.value) else cache
  }

  /** The records one `get_devices` returns: none when the handshake or the listing fails. */
  function Reported(client: Option<Client>): seq<DeviceInfo> {
    if Running(client) && client.value.devices.Some? then Infos(client.value.devices.value) else []
  }

  /** After a refresh a serial is known exactly when it was cached before or the server listed it. */
  lemma {:induction false} RefreshedKeys(cache: map<string, Device>, client: Option<Client>, s: string)
    ensures (s in Refreshed(cache, client) <==>
      s in cache || (Running(client) && client.value.devices.Some? && s in Serials(client.value.devices.value)))
  {
    if Running(client) && client.value.devices.Some? {
      CacheAfterKeys(cache, client.value.devices.value);
    }
  }

  /** The `dict.get` lookup. */
  function Lookup(cache: map<string, Device>, s: string): (r: Option<Device>)
    ensures r.Some? <==> s in cache
    ensures r.Some? ==> r.value == cache[s]
  {
    if s in cache then Some(cache[s]) else None
  }

  // ------------------------------------------------------- extended info

  /** An extended-info value: a text, or the kilobyte count or tenths of a degree a rounded float is printed from. */
  datatype Extended = Text(text: string) | Gigabytes(kb: int) | Celsius(tenths: int)

  /**
   * The extended-info dictionary. Its keys are fixed (`build_number`,
   * `security_patch`, `cpu`, `ram_total`, `storage_total`, `battery_status`,
   * `battery_health`, `battery_temp`), so it is a record with one optional
   * entry per key; `None` is a key the dictionary does not hold.
   */
  datatype InfoDict = InfoDict(
    buildNumber: Option<Extended>, securityPatch: Option<Extended>, cpu: Option<Extended>,
    ramTotal: Option<Extended>, storageTotal: Option<Extended>,
    batteryStatus: Option<Extended>, batteryHealth: Option<Extended>, batteryTemp: Option<Extended>)

  /** The empty dictionary `{}`. */
  const NoInfo := InfoDict(None, None, None, None, None, None, None, None)

  /** An assignment `d[key] = e` done only when the entry is present. */
  function Put(current: Option<Extended>, e: Option<Extended>): (r: Option<Extended>)
    ensures e.Some? ==> r == e
    ensures e.None? ==> r == current
  {
    if e.Some? then e else current
  }

  const StatusNames: map<string, string> :=
    map["1" := "Unknown", "2" := "Charging", "3" := "Discharging", "4" := "Not charging", "5" := "Full"]

  const HealthNames: map<string, string> :=
    map["1" := "Unknown", "2" := "Good", "3" := "Overheat", "4" := "Dead", "5" := "Over voltage",
        "6" := "Unspecified failure", "7" := "Cold"]

  /** `table.get(code, "Unknown")`. */
  function Named(table: map<string, string>, code: string): (r: string)
    ensures code !in table ==> r == "Unknown"
    ensures code in table ==> r == table[code]
  {
    if code in table then table[code] else "Unknown"
  }

  /** The `ram_total` entry: `Unknown` when the read raises or the count is not an integer; absent without `MemTotal:`. */
  function MemoryEntry(r: Reply): Option<Extended> {
    match r
    case Raised => Some(Text("Unknown"))
    case Output(t) =>
      var m := Strip(t);
      if !Contains(m, "MemTotal:") then None
      else
        var ws := Words(m);
        if |ws| < 2 then Some(Text("Unknown"))
        else
          match ParseInt(ws[1])
          case None => Some(Text("Unknown"))
          case Some(kb) => Some(Gigabytes(kb))
  }

  /** The `storage_total` entry from the last `df /data` row. */
  function StorageEntry(r: Reply): Option<Extended> {
    match r
    case Raised => Some(Text("Unknown"))
    case Output(t) =>
      var ws := Words(Strip(t));
      if |ws| < 2 then None
      else
        match ParseInt(ws[1])
        case None => Some(Text("Unknown"))
        case Some(kb) => Some(Gigabytes(kb))
  }

  /** The entry a `key: code` reply gives through a code table; absent without `key`. */
  function CodeEntry(out: string, key: string, table: map<string, string>): (r: Option<Extended>)
    requires |key| > 0
    ensures r.Some? <==> Contains(Strip(out), key)
    ensures r.Some? ==> r.value == Text(Named(table, ValueAfter(Strip(out), key)))
  {
    var raw := Strip(out);
    if Contains(raw, key) then Some(Text(Named(table, ValueAfter(raw, key)))) else None
  }

  /** The `battery_temp` entry; absent without `temperature:` or when the value is not an integer. */
  function TempEntry(out: string): (r: Option<Extended>)
    ensures r.Some? <==> Contains(Strip(out), "temperature:") && ParseInt(ValueAfter(Strip(out), "temperature:")).Some?
    ensures r.Some? ==> r.value == Celsius(ParseInt(ValueAfter(Strip(out), "temperature:")).value)
  {
    var raw := Strip(out);
    if !Contains(raw, "temperature:") then None
    else
      match ParseInt(ValueAfter(raw, "temperature:"))
      case None => None
      case Some(tenths) => Some(Celsius(tenths))
  }

  /** The status entry on its own: absent when its read raises. */
  function StatusReading(status: Reply): Option<Extended> {
    match status
    case Raised => None
    case Output(s) => CodeEntry(s, "status:", StatusNames)
  }

  /** The health entry on its own: absent when its read or the status read raises. */
  function HealthReading(status: Reply, health: Reply): Option<Extended> {
    match health
    case Raised => None
    case Output(h) => if status.Raised? then None else CodeEntry(h, "health:", HealthNames)
  }

  /** The temperature entry on its own: absent when its read or an earlier battery read raises. */
  function TempReading(status: Reply, health: Reply, temp: Reply): Option<Extended> {
    match temp
    case Raised => None
    case Output(t) => if status.Raised? || health.Raised? then None else TempEntry(t)
  }

  /**
   * The battery block over the replies to its status, health and
   * temperature reads: the first reply that raises ends the block with the
   * entries found so far.
   */
  function BatteryEntries(status: Reply, health: Reply, temp: Reply, info: InfoDict): (r: InfoDict)
    ensures r.(batteryStatus := info.batteryStatus, batteryHealth := info.batteryHealth,
               batteryTemp := info.batteryTemp) == info
    ensures r.batteryStatus == Put(info.batteryStatus, StatusReading(status))
    ensures r.batteryHealth == Put(info.batteryHealth, HealthReading(status, health))
    ensures r.batteryTemp == Put(info.batteryTemp, TempReading(status, health, temp))
  {
    match status
    case Raised => info
    case Output(s) =>
      var i1 := info.(batteryStatus := Put(info.batteryStatus, CodeEntry(s, "status:", StatusNames)));
      match health
      case Raised => i1
      case Output(h) =>
        var i2 := i1.(batteryHealth := Put(i1.batteryHealth, CodeEntry(h, "health:", HealthNames)));
        match temp
        case Raised => i2
        case Output(t) => i2.(batteryTemp := Put(i2.batteryTemp, TempEntry(t)))
  }

  /** The three entries every answered extended read has. */
  function BaseInfo(build: string, patch: string, cpu: string): (r: InfoDict)
    ensures r.securityPatch.Some? && r.securityPatch.value.Text? && r.securityPatch.value.text != []
    ensures r.buildNumber == Some(Text(Strip(build))) && r.cpu == Some(Text(Strip(cpu)))
    ensures Strip(patch) != [] ==> r.securityPatch == Some(Text(Strip(patch)))
    ensures Strip(patch) == [] ==> r.securityPatch == Some(Text("Unknown"))
    ensures r.ramTotal.None? && r.storageTotal.None?
    ensures r.batteryStatus.None? && r.batteryHealth.None? && r.batteryTemp.None?
  {
    var p := Strip(patch);
    NoInfo.(buildNumber := Some(Text(Strip(build))), securityPatch := Some(Text(if p != [] then p else "Unknown")),
            cpu := Some(Text(Strip(cpu))))
  }

  /** The replies of the eight reads `get_extended_device_info` issues, in order. */
  datatype ExtendedReplies = ExtendedReplies(
    build: Reply, patch: Reply, cpu: Reply, memory: Reply, storage: Reply,
    status: Reply, health: Reply, temp: Reply)

  function ExtendedRepliesOf(d: Device): ExtendedReplies {
    ExtendedReplies(
      d.shell("getprop ro.build.display.id"), d.shell("getprop ro.build.version.security_patch"),
      d.shell("getprop ro.product.cpu.abi"), d.shell("cat /proc/meminfo | grep MemTotal"),
      d.shell("df /data | tail -1"), d.shell("dumpsys battery | grep status"),
      d.shell("dumpsys battery | grep health"), d.shell("dumpsys battery | grep temperature"))
  }

  /** Whether the three `getprop` reads answer. */
  predicate PropsAnswered(x: ExtendedReplies) {
    x.build.Output? && x.patch.Output? && x.cpu.Output?
  }

  /**
   * `get_extended_device_info` for a found device, over the replies of its
   * reads: empty when one of the three `getprop` reads raises; otherwise the
   * stripped build and CPU texts, the patch or `Unknown`, and each of the
   * memory, storage and battery entries exactly as its own reading gives it.
   */
  function ExtendedInfo(x: ExtendedReplies): (r: InfoDict)
    ensures !PropsAnswered(x) ==> r == NoInfo
    ensures PropsAnswered(x) ==>
      r.buildNumber == Some(Text(Strip(x.build.text))) && r.cpu == Some(Text(Strip(x.cpu.text))) &&
      r.securityPatch == Some(Text(if Strip(x.patch.text) != [] then Strip(x.patch.text) else "Unknown"))
    ensures PropsAnswered(x) ==>
      r.ramTotal == MemoryEntry(x.memory) && r.storageTotal == StorageEntry(x.storage)
    ensures PropsAnswered(x) ==>
      r.batteryStatus == StatusReading(x.status) && r.batteryHealth == HealthReading(x.status, x.health) &&
      r.batteryTemp == TempReading(x.status, x.health, x.temp)
  {
    if !PropsAnswered(x) then NoInfo
    else
      var base := BaseInfo(x.build.text, x.patch.text, x.cpu.text);
      var withMem := base.(ramTotal := Put(base.ramTotal, MemoryEntry(x.memory)));
      var withDisk := withMem.(storageTotal := Put(withMem.storageTotal, StorageEntry(x.storage)));
      BatteryEntries(x.status, x.health, x.temp, withDisk)
  }

  // -------------------------------------------------------------- registry

  /** `ADBManager`: the server address, the client (absent when it could not be created) and the device cache. */
  class AdbManager {
    var host: string
    var port: int
    var client: Option<Client>
    var cache: map<string, Device>

    constructor (host: string, port: int, client: Option<Client>)
      ensures this.host == host && this.port == port && this.client == client && cache == map[]
    {
      this.host := host;
      this.port := port;
      this.client := client;
      cache := map[];
    }

    /** `is_adb_running`: a client exists and answers the version handshake. */
    predicate IsAdbRunning()
      reads this
    {
      Running(client)
    }

    /**
     * `get_devices`: every listed device is cached under its serial
     * (inserting or overwriting, never evicting) and described, in order.
     */
    method GetDevices() returns (infos: seq<DeviceInfo>)
      modifies this
      ensures host == old(host) && port == old(port) && client == old(client)
      ensures cache == Refreshed(old(cache), client)
      ensures infos == Reported(client)
    {
      if !IsAdbRunning() || client.value.devices.None? {
        return [];
      }
      var ds := client.value.devices.value;
      infos := [];
      var i := 0;
      while i < |ds|
        invariant 0 <= i <= |ds|
        invariant host == old(host) && port == old(port) && client == old(client)
        invariant cache == CacheAfter(old(cache), ds[..i])
        invariant infos == Infos(ds[..i])
      {
        PrefixSnoc(ds, i);
        cache := cache[ds[i].serial := ds[i]];
        infos := infos + [DeviceInfoOf(ds[i])];
        i := i + 1;
      }
      assert ds[..|ds|] == ds;
    }

    /** `refresh_devices`: the same as `get_devices`. */
    method RefreshDevices() returns (infos: seq<DeviceInfo>)
      modifies this
      ensures host == old(host) && port == old(port) && client == old(client)
      ensures cache == Refreshed(old(cache), client)
      ensures infos == Reported(client)
    {
      infos := GetDevices();
    }

    /** `get_device_by_serial`: a cache hit returns at once; a miss refreshes exactly once, then looks up again. */
    method GetDeviceBySerial(serial: string) returns (dev: Option<Device>)
      modifies this
      ensures host == old(host) && port == old(port) && client == old(client)
      ensures serial in old(cache) ==> dev == Some(old(cache)[serial]) && cache == old(cache)
      ensures serial !in old(cache) ==> cache == Refreshed(old(cache), client) && dev == Lookup(cache, serial)
    {
      if serial in cache {
        return Some(cache[serial]);
      }
      var _ := GetDevices();
      dev := Lookup(cache, serial);
    }

    /** `connect_device`: false when the server is down or `remote_connect` raises, else its result. */
    function ConnectDevice(ip: string, port: int): (ok: bool)
      reads this
      ensures (ok <==> IsAdbRunning() && client.value.remoteConnect(ip, port) == Some(true))
    {
      if !IsAdbRunning() then false
      else
        match client.value.remoteConnect(ip, port)
        case None => false
        case Some(r) => r
    }

    /**
     * `disconnect_device`: a USB serial is refused with no transport call;
     * a network serial is disconnected by its host part and dropped from the
     * cache, and the call reports true whatever `remote_disconnect` answered,
     * unless it raised (or there is no client).
     */
    method DisconnectDevice(serial: string) returns (ok: bool)
      modifies this
      ensures host == old(host) && port == old(port) && client == old(client)
      ensures ':' !in serial ==> !ok
      ensures (ok <==> ':' in serial && client.Some? && client.value.remoteDisconnect(HostPart(serial)))
      ensures ok ==> cache == old(cache) - {serial}
      ensures !ok ==> cache == old(cache)
    {
      if ':' !in serial {
        return false;
      }
      var ip := HostPart(serial);
      if client.None? || !client.value.remoteDisconnect(ip) {
        return false;
      }
      if serial in cache {
        cache := cache - {serial};
      }
      return true;
    }

    /** `get_extended_device_info`: the lookup (with its refresh), then the reads. */
    method GetExtendedDeviceInfo(serial: string) returns (info: InfoDict)
      modifies this
      ensures host == old(host) && port == old(port) && client == old(client)
      ensures serial in old(cache) ==> cache == old(cache) && info == ExtendedInfo(ExtendedRepliesOf(old(cache)[serial]))
      ensures (serial !in old(cache) ==>
        cache == Refreshed(old(cache), client) &&
        info == (if serial in cache then ExtendedInfo(ExtendedRepliesOf(cache[serial])) else NoInfo))
    {
      var dev := GetDeviceBySerial(serial);
      if dev.None? {
        return NoInfo;
      }
      info := ExtendedInfo(ExtendedRepliesOf(dev.value));
    }
  }
}
