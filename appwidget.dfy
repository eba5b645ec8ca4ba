/** The list logic of the app manager widget: the search filter over the app list and the row lookup. */
module AppWidget {
  import opened Wrappers
  import opened Text
  import opened AppModel
  import opened ListFilter

  /** An app is kept when the lower-cased search occurs in its lower-cased name or package. */
  predicate AppMatches(a: AppInfo, needle: string) {
    Contains(Lower(a.appName), needle) || Contains(Lower(a.packageName), needle)
  }

  /** The list `filter_apps` shows for `search`: every app for an empty search, else the matching ones in order. */
  function FilteredApps(apps: seq<AppInfo>, search: string): (r: seq<AppInfo>)
    ensures search == "" ==> r == apps
    ensures search != "" ==> forall a :: a in r <==> a in apps && AppMatches(a, Lower(search))
    ensures Subsequence(r, apps) && |r| <= |apps|
    ensures search != "" ==> forall a :: multiset(r)[a] == if AppMatches(a, Lower(search)) then multiset(apps)[a] else 0
  {
    if search == "" then
      SubsequenceRefl(apps);
      apps
    else Keep(apps, a => AppMatches(a, Lower(search)))
  }

  /** The search is case-insensitive: searches with the same lower-case form show the same apps. */
  lemma {:induction false} FilteredAppsCaseInsensitive(apps: seq<AppInfo>, s: string, t: string)
    requires s != "" && t != "" && Lower(s) == Lower(t)
    ensures FilteredApps(apps, s) == FilteredApps(apps, t)
  {
  }

  function AppStatus(shown: nat, total: nat): string {
    StatusText(shown, total, "apps")
  }

  /** The app list, the rows on show, the search text and the status line. */
  class AppManagerWidget {
    var apps: seq<AppInfo>
    var filtered: seq<AppInfo>
    var searchText: string
    var status: string
    /** Whether the table, the buttons, the search box and the check box take input. */
    var enabled: bool

    /**
     * The rows on show are always the filter of the app list by the current
     * search text; the status counts them, or says that there is no device.
     */
    predicate Valid()
      reads this
    {
      filtered == FilteredApps(apps, searchText) &&
      (status == AppStatus(|filtered|, |apps|) || status == NoDeviceText)
    }

    /** A new widget lists nothing, takes input, and says that there is no device. */
    constructor ()
      ensures Valid() && apps == [] && filtered == [] && searchText == ""
      ensures status == NoDeviceText && enabled
    {
      apps := [];
      filtered := [];
      searchText := "";
      status := NoDeviceText;
      enabled := true;
    }

    /**
     * `set_device_connected(connected)`: the controls take input exactly
     * when connected; a disconnect also sets the no-device status. The lists
     * and the search text are kept.
     */
    method SetDeviceConnected(connected: bool)
      requires Valid()
      modifies this
      ensures Valid() && enabled == connected
      ensures apps == old(apps) && filtered == old(filtered) && searchText == old(searchText)
      ensures status == (if connected then old(status) else NoDeviceText)
    {
      enabled := connected;
      if !connected {
        status := NoDeviceText;
      }
    }

    /** `filter_apps(search)`: recomputes the rows on show and the status; the app list is unchanged. */
    method FilterApps(search: string)
      modifies this
      ensures apps == old(apps) && searchText == old(searchText) && enabled == old(enabled)
      ensures filtered == FilteredApps(apps, search)
      ensures status == AppStatus(|filtered|, |apps|)
    {
      if search == "" {
        filtered := apps;
      } else {
        var needle := Lower(search);
        filtered := Keep(apps, a => AppMatches(a, needle));
      }
      status := AppStatus(|filtered|, |apps|);
    }

    /** Typing in the search box: the text changes and `filter_apps` runs on it. */
    method SetSearchText(text: string)
      modifies this
      ensures Valid() && searchText == text && apps == old(apps)
      ensures status == AppStatus(|filtered|, |apps|) && enabled == old(enabled)
    {
      searchText := text;
      FilterApps(text);
    }

    /** `update_apps`: the list is replaced and the current search applied again. */
    method UpdateApps(newApps: seq<AppInfo>)
      modifies this
      ensures Valid() && apps == newApps && searchText == old(searchText)
      ensures status == AppStatus(|filtered|, |apps|) && enabled == old(enabled)
    {
      apps := newApps;
      filtered := newApps;
      FilterApps(searchText);
      status := AppStatus(|filtered|, |newApps|);
    }

    /** The app behind a table row of the context menu; rows outside the rows on show give nothing. */
    function RowApp(row: int): (r: Option<AppInfo>)
      reads this
      requires Valid()
      ensures r.Some? <==> 0 <= row < |filtered|
      ensures r.Some? ==> r.value == filtered[row] && r.value in apps
    {
      if row < 0 || row >= |filtered| then None else Some(filtered[row])
    }
  }
}
