/** The application record (`AppInfo`) and its derived display properties. */
module AppModel {

  /** One installed package; the install date is not modelled. */
  datatype AppInfo = AppInfo(
    packageName: string,
    appName: string,
    version: string,
    versionCode: string,
    size: int,
    isSystem: bool,
    isRunning: bool,
    isEnabled: bool)

  /** `AppInfo(package_name)` with every other field at its default. */
  function NewAppInfo(packageName: string): (a: AppInfo)
    ensures a.packageName == packageName
    ensures a.appName == "Unknown" && a.version == "Unknown" && a.versionCode == "Unknown"
    ensures a.size == 0 && !a.isSystem && !a.isRunning && a.isEnabled
  {
    AppInfo(packageName, "Unknown", "Unknown", "Unknown", 0, false, false, true)
  }

  /** `app_type`: "System" iff the package is a system one. */
  function AppType(a: AppInfo): (r: string)
    ensures r == "System" <==> a.isSystem
    ensures r == "User" <==> !a.isSystem
  {
    if a.isSystem then "System" else "User"
  }

  /** `status`: "Running" iff the package is running. */
  function Status(a: AppInfo): (r: string)
    ensures r == "Running" <==> a.isRunning
    ensures r == "Not Running" <==> !a.isRunning
  {
    if a.isRunning then "Running" else "Not Running"
  }

  /** `str(a)`: "<app_name> (<package_name>)". */
  function ToString(a: AppInfo): (r: string)
    ensures |r| == |a.appName| + |a.packageName| + 3
    ensures r[..|a.appName|] == a.appName
    ensures r[|a.appName|..|a.appName| + 2] == " ("
    ensures r[|a.appName| + 2..|r| - 1] == a.packageName
    ensures r[|r| - 1] == ')'
  {
    a.appName + " (" + a.packageName + ")"
  }
}
