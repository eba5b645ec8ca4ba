/** The device record (`DeviceInfo`) and its derived display properties. */
module DeviceModel {
  import opened Wrappers

  /** What the bridge knows about one attached device. */
  datatype DeviceInfo = DeviceInfo(
    serial: string,
    model: string,
    androidVersion: string,
    sdkVersion: string,
    batteryLevel: int,
    connectionType: string,
    screenResolution: string,
    isConnected: bool,
    ipAddress: Option<string>,
    manufacturer: string)

  /** `DeviceInfo(serial)` with every other field at its default. */
  function NewDeviceInfo(serial: string): (d: DeviceInfo)
    ensures d.serial == serial && d.batteryLevel == 0 && d.isConnected && d.ipAddress == None
    ensures d.model == "Unknown" && d.manufacturer == "Unknown" && d.androidVersion == "Unknown"
    ensures d.sdkVersion == "Unknown" && d.connectionType == "Unknown" && d.screenResolution == "Unknown"
  {
    DeviceInfo(serial, "Unknown", "Unknown", "Unknown", 0, "Unknown", "Unknown", true, None, "Unknown")
  }

  /** `display_name`: "<manufacturer> <model>" once the model is known, else the serial. */
  function DisplayName(d: DeviceInfo): (r: string)
    ensures d.model != "Unknown" ==> r == d.manufacturer + " " + d.model
    ensures d.model == "Unknown" ==> r == d.serial
  {
    if d.model != "Unknown" then d.manufacturer + " " + d.model else d.serial
  }

  /** A device whose model was never read is displayed by its serial. */
  lemma {:induction false} DisplayNameDefault(serial: string)
    ensures DisplayName(NewDeviceInfo(serial)) == serial
  {
  }

  /** `str(d)`: "<model> (<serial>)". */
  function ToString(d: DeviceInfo): (r: string)
    ensures |r| == |d.model| + |d.serial| + 3
    ensures r[..|d.model|] == d.model
    ensures r[|d.model|..|d.model| + 2] == " ("
    ensures r[|d.model| + 2..|r| - 1] == d.serial
    ensures r[|r| - 1] == ')'
  {
    d.model + " (" + d.serial + ")"
  }
}
