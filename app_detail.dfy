/**
 * The detail screen of one application (AppDetailActivity): the package-name
 * guard, the profile, the "last used" line computed from usage statistics,
 * the permission and tracker lists, and the threshold rules for insights and
 * recommendations.
 */
module AppDetail {
  import opened Wrappers
  import opened Text
  import opened Risk

  // ---------------------------------------------------------------- elapsed time

  const MS_PER_SECOND: nat := 1000
  const MS_PER_MINUTE: nat := 60 * MS_PER_SECOND
  const MS_PER_HOUR: nat := 60 * MS_PER_MINUTE
  const MS_PER_DAY: nat := 24 * MS_PER_HOUR

  const NOT_USED_RECENTLY := "Not used recently"
  const JUST_NOW := "Just now"

  /** Java's `long` division, which truncates toward zero (Dafny's rounds down). */
  function TruncDiv(a: int, d: nat): (q: int)
    requires d > 0
    ensures a >= 0 ==> q == a / d
    ensures a < 0 ==> q <= 0
  {
    if a >= 0 then a / d else -((-a) / d)
  }

  /** A truncated quotient is below `k` exactly when the dividend is below `k` units. */
  lemma TruncDivBelow(a: int, d: nat, k: nat)
    requires d > 0 && k > 0
    ensures TruncDiv(a, d) < k <==> a < k * d
  {
    if a >= 0 {
      var q, m := a / d, a % d;
      assert a == d * q + m && 0 <= m < d;
      if q < k {
        assert d * q <= d * (k - 1);
      } else {
        assert d * q >= d * k;
      }
    }
  }

  /** A `long` as string concatenation prints it. */
  function LongToString(n: int): string {
    if n < 0 then "-" + NatToString(-n) else NatToString(n)
  }

  /**
   * `formatTimeAgo`: timestamp 0 means no data; otherwise the elapsed time
   * is converted to whole seconds, minutes, hours and days (each truncated)
   * and the first unit below its threshold is reported. A timestamp in the
   * future gives a non-positive elapsed time and so "Just now".
   */
  function FormatTimeAgo(now: int, timestamp: int): (r: string)
    ensures timestamp == 0 ==> r == NOT_USED_RECENTLY
    ensures timestamp != 0 && now - timestamp < MS_PER_MINUTE ==> r == JUST_NOW
    ensures timestamp != 0 && MS_PER_MINUTE <= now - timestamp < MS_PER_HOUR ==>
      r == NatToString((now - timestamp) / MS_PER_MINUTE) + " min ago"
    ensures timestamp != 0 && MS_PER_HOUR <= now - timestamp < MS_PER_DAY ==>
      r == NatToString((now - timestamp) / MS_PER_HOUR) + " hours ago"
    ensures timestamp != 0 && MS_PER_DAY <= now - timestamp ==>
      r == NatToString((now - timestamp) / MS_PER_DAY) + " days ago"
  {
    if timestamp == 0 then NOT_USED_RECENTLY
    else
      var diff := now - timestamp;
      var seconds := TruncDiv(diff, MS_PER_SECOND);
      TruncDivBelow(diff, MS_PER_SECOND, 60);
      if seconds < 60 then JUST_NOW
      else
        var minutes := TruncDiv(diff, MS_PER_MINUTE);
        TruncDivBelow(diff, MS_PER_MINUTE, 60);
        if minutes < 60 then LongToString(minutes) + " min ago"
        else
          var hours := TruncDiv(diff, MS_PER_HOUR);
          TruncDivBelow(diff, MS_PER_HOUR, 24);
          if hours < 24 then LongToString(hours) + " hours ago"
          else LongToString(TruncDiv(diff, MS_PER_DAY)) + " days ago"
  }

  /** The number shown with each unit is between 1 and the next unit's size. */
  lemma TimeAgoUnitRanges(elapsed: int)
    ensures MS_PER_MINUTE <= elapsed < MS_PER_HOUR ==> 1 <= elapsed / MS_PER_MINUTE < 60
    ensures MS_PER_HOUR <= elapsed < MS_PER_DAY ==> 1 <= elapsed / MS_PER_HOUR < 24
    ensures MS_PER_DAY <= elapsed ==> 1 <= elapsed / MS_PER_DAY
    ensures elapsed >= MS_PER_MINUTE ==> elapsed / MS_PER_MINUTE * MS_PER_MINUTE <= elapsed < (elapsed / MS_PER_MINUTE + 1) * MS_PER_MINUTE
  {
  }

  /** A real timestamp never reads as "Not used recently", and the number shown is never negative. */
  lemma TimeAgoOfUsedApp(now: int, timestamp: int)
    requires timestamp != 0
    ensures FormatTimeAgo(now, timestamp) != NOT_USED_RECENTLY
    ensures FormatTimeAgo(now, timestamp) == JUST_NOW || DigitChar(0) <= FormatTimeAgo(now, timestamp)[0] <= DigitChar(9)
  {
    var diff := now - timestamp;
    if diff < MS_PER_MINUTE {
    } else if diff < MS_PER_HOUR {
      NatToStringDigits(diff / MS_PER_MINUTE);
    } else if diff < MS_PER_DAY {
      NatToStringDigits(diff / MS_PER_HOUR);
    } else {
      NatToStringDigits(diff / MS_PER_DAY);
    }
  }

  // ---------------------------------------------------------------- last used

  /** One entry of the usage statistics the OS returns for the query window. */
  datatype UsageStats = UsageStats(packageName: string, lastTimeUsed: int)

  /** The query window: the thirty days before `now`, in milliseconds. */
  const USAGE_WINDOW_MS: nat := 1000 * 3600 * 24 * 30

  const APP_LAST_USED_PREFIX := "App last used: "
  const NOT_USED_IN_WINDOW := "App not used in the last 30 days"

  /** Whether an entry belongs to the current package; a null current name matches nothing. */
  predicate IsCurrent(entry: UsageStats, current: Option<string>) {
    current == Some(entry.packageName)
  }

  /** The latest use of the current package among the entries, starting from 0. */
  function LastUsedOf(entries: seq<UsageStats>, current: Option<string>): (r: int)
    ensures r >= 0
    ensures forall i :: 0 <= i < |entries| && IsCurrent(entries[i], current) ==> entries[i].lastTimeUsed <= r
    ensures r == 0 || exists i :: 0 <= i < |entries| && IsCurrent(entries[i], current) && entries[i].lastTimeUsed == r
  {
    if entries == [] then 0
    else
      var init, last := entries[..|entries| - 1], entries[|entries| - 1];
      var m := LastUsedOf(init, current);
      assert forall i :: 0 <= i < |init| ==> init[i] == entries[i];
      if IsCurrent(last, current) && last.lastTimeUsed > m then last.lastTimeUsed else m
  }

  /** The profile after the usage query: updated only when the OS returned a non-empty list. */
  function WithLastUsed(app: AppInfo, current: Option<string>, usage: Option<seq<UsageStats>>): (r: AppInfo)
    ensures r.lastTimeUsed >= 0 || r == app
    ensures (usage.None? || usage.value == []) ==> r == app
    ensures usage.Some? && usage.value != [] ==> r == app.(lastTimeUsed := LastUsedOf(usage.value, current))
  {
    if usage.Some? && usage.value != [] then app.(lastTimeUsed := LastUsedOf(usage.value, current)) else app
  }

  /** The "last used" line under the application's name. */
  function LastUsedText(app: AppInfo, now: int): string {
    if app.lastTimeUsed > 0 then APP_LAST_USED_PREFIX + FormatTimeAgo(now, app.lastTimeUsed) else NOT_USED_IN_WINDOW
  }

  /** The line names a time exactly when the profile has a positive last-used time. */
  lemma LastUsedTextCases(app: AppInfo, now: int)
    ensures app.lastTimeUsed > 0 <==> StartsWith(LastUsedText(app, now), APP_LAST_USED_PREFIX)
    ensures app.lastTimeUsed > 0 ==> LastUsedText(app, now)[|APP_LAST_USED_PREFIX|..] == FormatTimeAgo(now, app.lastTimeUsed)
    ensures app.lastTimeUsed <= 0 ==> LastUsedText(app, now) == NOT_USED_IN_WINDOW
  {
    var r := LastUsedText(app, now);
    if app.lastTimeUsed > 0 {
      assert r[..|APP_LAST_USED_PREFIX|] == APP_LAST_USED_PREFIX;
    } else {
      assert NOT_USED_IN_WINDOW[4] != APP_LAST_USED_PREFIX[4];
    }
  }

  /** A fresh profile whose package has no entry in the window reads as unused. */
  lemma {:induction false} NoUsageMeansUnused(pm: PackageManager, info: PackageInfo, current: Option<string>, usage: Option<seq<UsageStats>>, now: int)
    requires usage.Some? ==> forall i :: 0 <= i < |usage.value| ==> !IsCurrent(usage.value[i], current)
    ensures LastUsedText(WithLastUsed(Profile(pm, info), current, usage), now) == NOT_USED_IN_WINDOW
  {
    if usage.Some? && usage.value != [] {
      assert LastUsedOf(usage.value, current) == 0;
    }
  }

  // ---------------------------------------------------------------- lists on the screen

  const NO_PERMISSIONS := "No dangerous permissions found."
  const NO_TRACKERS := "No trackers detected."
  const LAST_USED_PREFIX := "Last used: "
  const USAGE_UNAVAILABLE := "Usage data not available from Android OS"
  const DEFAULT_EXPLANATION := "This permission grants access to sensitive system features."

  /** The seven permissions with their own explanation. */
  const EXPLAINED_PERMISSIONS: set<string> := {
    "android.permission.READ_SMS", "android.permission.ACCESS_FINE_LOCATION",
    "android.permission.CAMERA", "android.permission.RECORD_AUDIO",
    "android.permission.WRITE_EXTERNAL_STORAGE", "android.permission.READ_PHONE_STATE",
    "android.permission.READ_CONTACTS" }

  /** `getPermissionExplanation`: a total lookup with a default sentence. */
  function PermissionExplanation(permission: string): (r: string)
    ensures r == DEFAULT_EXPLANATION <==> permission !in EXPLAINED_PERMISSIONS
    ensures r != ""
  {
    if permission == "android.permission.READ_SMS" then "Allows the app to read your text messages."
    else if permission == "android.permission.ACCESS_FINE_LOCATION" then "Allows the app to get your precise location using GPS."
    else if permission == "android.permission.CAMERA" then "Allows the app to take pictures and record video."
    else if permission == "android.permission.RECORD_AUDIO" then "Allows the app to record audio with the microphone."
    else if permission == "android.permission.WRITE_EXTERNAL_STORAGE" then "Allows the app to read and write files on your device's storage."
    else if permission == "android.permission.READ_PHONE_STATE" then "Allows the app to access your phone number and device IDs."
    else if permission == "android.permission.READ_CONTACTS" then "Allows the app to read your contacts list."
    else DEFAULT_EXPLANATION
  }

  /** A row of the permission list, or the placeholder shown when there is none. */
  datatype PermissionItem =
    | NoItems(text: string)
    | PermissionView(name: string, description: string, lastUsed: Option<string>)

  /**
   * One permission's row: its short name, its explanation and, when usage
   * access is granted, its last use (`None` is a hidden line).
   */
  function PermissionRowOf(permission: string, usage: map<string, int>, hasUsageAccess: bool, now: int): (r: PermissionItem)
    ensures r.PermissionView? && r.name == AfterLastDot(permission) && r.description == PermissionExplanation(permission)
    ensures r.lastUsed.None? <==> !hasUsageAccess
    ensures hasUsageAccess && permission in usage && usage[permission] > 0 ==>
      r.lastUsed == Some(LAST_USED_PREFIX + FormatTimeAgo(now, usage[permission]))
    ensures hasUsageAccess && (permission !in usage || usage[permission] <= 0) ==> r.lastUsed == Some(USAGE_UNAVAILABLE)
  {
    var lastUsed :=
      if !hasUsageAccess then None
      else if permission in usage && usage[permission] > 0 then Some(LAST_USED_PREFIX + FormatTimeAgo(now, usage[permission]))
      else Some(USAGE_UNAVAILABLE);
    PermissionView(AfterLastDot(permission), PermissionExplanation(permission), lastUsed)
  }

  /** The permission list: a placeholder when empty, else one row per permission in order. */
  ghost function PermissionItems(permissions: seq<PermissionDetail>, usage: map<string, int>, hasUsageAccess: bool, now: int): seq<PermissionItem> {
    if permissions == [] then [NoItems(NO_PERMISSIONS)]
    else seq(|permissions|, i requires 0 <= i < |permissions| => PermissionRowOf(permissions[i].name, usage, hasUsageAccess, now))
  }

  /** A row of the tracker list, or the placeholder shown when there is none. */
  datatype TrackerItem = NoTrackerItems(text: string) | TrackerView(name: string)

  /** The tracker list: a placeholder when empty, else one row per tracker in order. */
  function TrackerItems(trackers: seq<string>): (r: seq<TrackerItem>)
    ensures r == [NoTrackerItems(NO_TRACKERS)] <==> trackers == []
    ensures trackers != [] ==> |r| == |trackers| && forall i :: 0 <= i < |r| ==> r[i] == TrackerView(trackers[i])
  {
    if trackers == [] then [NoTrackerItems(NO_TRACKERS)]
    else
      var rows := seq(|trackers|, i requires 0 <= i < |trackers| => TrackerView(trackers[i]));
      assert rows[0].TrackerView?;
      rows
  }

  // ---------------------------------------------------------------- insights and recommendations

  const MAXIMUM_RISK_INSIGHT := "This app poses a maximum privacy risk."
  const WIDE_ACCESS_INSIGHT := "Accesses a wide range of device capabilities."
  const TRACKING_INSIGHT := "Engages in extensive cross-platform tracking."
  const UNINSTALL_ADVICE := "Strongly consider uninstalling."
  const WEB_VERSION_ADVICE := "Use a web version if available to limit tracking."
  const REVOKE_ADVICE := "Revoke all unnecessary permissions."

  /** The insights, one rule after another. */
  function Insights(app: AppInfo): (r: seq<string>)
    ensures |r| <= 3
  {
    (if app.riskLevel == HIGH then [MAXIMUM_RISK_INSIGHT] else [])
    + (if |app.dangerousPermissions| > 4 then [WIDE_ACCESS_INSIGHT] else [])
    + (if |app.detectedTrackers| > 3 then [TRACKING_INSIGHT] else [])
  }

  /** The recommendations, one rule after another. */
  function Recommendations(app: AppInfo): (r: seq<string>)
    ensures |r| <= 3
  {
    (if app.riskScore > 80 then [UNINSTALL_ADVICE] else [])
    + (if |app.detectedTrackers| > 0 then [WEB_VERSION_ADVICE] else [])
    + (if |app.dangerousPermissions| > 0 then [REVOKE_ADVICE] else [])
  }

  /**
   * Each insight is shown exactly when its rule holds, nothing else is shown,
   * and they keep the rules' order.
   */
  lemma InsightRules(app: AppInfo)
    ensures MAXIMUM_RISK_INSIGHT in Insights(app) <==> app.riskLevel == HIGH
    ensures WIDE_ACCESS_INSIGHT in Insights(app) <==> |app.dangerousPermissions| > 4
    ensures TRACKING_INSIGHT in Insights(app) <==> |app.detectedTrackers| > 3
    ensures forall t :: t in Insights(app) ==> t == MAXIMUM_RISK_INSIGHT || t == WIDE_ACCESS_INSIGHT || t == TRACKING_INSIGHT
    ensures |Insights(app)| <= 3
    ensures app.riskLevel == HIGH ==> Insights(app)[0] == MAXIMUM_RISK_INSIGHT
    ensures |app.detectedTrackers| > 3 ==> Insights(app)[|Insights(app)| - 1] == TRACKING_INSIGHT
  {
  }

  /**
   * Each recommendation is shown exactly when its rule holds, nothing else is
   * shown, and they keep the rules' order.
   */
  lemma RecommendationRules(app: AppInfo)
    ensures UNINSTALL_ADVICE in Recommendations(app) <==> app.riskScore > 80
    ensures WEB_VERSION_ADVICE in Recommendations(app) <==> |app.detectedTrackers| > 0
    ensures REVOKE_ADVICE in Recommendations(app) <==> |app.dangerousPermissions| > 0
    ensures forall t :: t in Recommendations(app) ==> t == UNINSTALL_ADVICE || t == WEB_VERSION_ADVICE || t == REVOKE_ADVICE
    ensures |Recommendations(app)| <= 3
    ensures app.riskScore > 80 ==> Recommendations(app)[0] == UNINSTALL_ADVICE
    ensures |app.dangerousPermissions| > 0 ==> Recommendations(app)[|Recommendations(app)| - 1] == REVOKE_ADVICE
  {
  }

  /**
   * On a profile built by the constructor the rules reduce to permission
   * counts: the maximum-risk insight means three or more permissions, and
   * "uninstall" is advised exactly when the wide-access insight is shown,
   * that is with more than four permissions.
   */
  lemma ProfileRules(pm: PackageManager, info: PackageInfo)
    ensures MAXIMUM_RISK_INSIGHT in Insights(Profile(pm, info)) <==> |Profile(pm, info).dangerousPermissions| >= 3
    ensures UNINSTALL_ADVICE in Recommendations(Profile(pm, info)) <==> |Profile(pm, info).dangerousPermissions| > 4
    ensures UNINSTALL_ADVICE in Recommendations(Profile(pm, info)) <==> WIDE_ACCESS_INSIGHT in Insights(Profile(pm, info))
    ensures REVOKE_ADVICE in Recommendations(Profile(pm, info)) <==> Profile(pm, info).riskScore > 0
  {
    LevelByPermissionCount(|Profile(pm, info).dangerousPermissions|);
    InsightRules(Profile(pm, info));
    RecommendationRules(Profile(pm, info));
  }

  // ---------------------------------------------------------------- the screen

  /**
   * What the screen can ask of the device: the installed packages (a missing
   * name is the NameNotFoundException), the permission registry, whether usage
   * access is granted, the daily usage query over a time interval, the
   * per-permission last-use times, and the clock.
   */
  datatype Device = Device(
    installed: map<string, PackageInfo>,
    pm: PackageManager,
    hasUsageAccess: bool,
    queryUsageStats: (int, int) -> Option<seq<UsageStats>>,
    permissionUsage: map<string, int>,
    now: int)

  const INVALID_PACKAGE_MESSAGE := "Error: Invalid package name."
  const NO_EXTRA_MESSAGE := "Error: Could not load app details."
  const NOT_FOUND_MESSAGE := "App information not found."

  /** Everything the screen shows about an application. */
  datatype Display = Display(
    shownApp: Option<AppInfo>,
    lastUsedText: Option<string>,
    usagePromptVisible: bool,
    permissionItems: seq<PermissionItem>,
    trackerItems: seq<TrackerItem>,
    insights: seq<string>,
    recommendations: seq<string>)

  /** The usage entries of the 30-day window ending now. */
  function UsageStatsOf(device: Device): Option<seq<UsageStats>> {
    device.queryUsageStats(device.now - USAGE_WINDOW_MS, device.now)
  }

  /** A profile after the usage query, which runs only with usage access. */
  function UsageApplied(app: AppInfo, current: Option<string>, device: Device): AppInfo {
    if device.hasUsageAccess then WithLastUsed(app, current, UsageStatsOf(device)) else app
  }

  /** The profile as the screen holds it once the usage query, if allowed, has run. */
  function LoadedApp(info: PackageInfo, current: Option<string>, device: Device): AppInfo {
    UsageApplied(Profile(device.pm, info), current, device)
  }

  /**
   * The loaded profile differs from the constructor's only in its last-used
   * time, which stays 0 without usage access and is otherwise the latest use
   * in the window (when the OS returned any entry).
   */
  lemma LoadedAppFacts(info: PackageInfo, current: Option<string>, device: Device)
    ensures LoadedApp(info, current, device) == Profile(device.pm, info).(lastTimeUsed := LoadedApp(info, current, device).lastTimeUsed)
    ensures !device.hasUsageAccess || UsageStatsOf(device).None? || UsageStatsOf(device).value == [] ==>
      LoadedApp(info, current, device).lastTimeUsed == 0
    ensures device.hasUsageAccess && UsageStatsOf(device).Some? && UsageStatsOf(device).value != [] ==>
      LoadedApp(info, current, device).lastTimeUsed == LastUsedOf(UsageStatsOf(device).value, current)
  {
  }

  /** The display of a loaded profile. */
  ghost function DetailsOf(app: AppInfo, device: Device): Display {
    var usage := if device.hasUsageAccess then device.permissionUsage else map[];
    Display(
      Some(app),
      if device.hasUsageAccess then Some(LastUsedText(app, device.now)) else None,
      !device.hasUsageAccess,
      PermissionItems(app.dangerousPermissions, usage, device.hasUsageAccess, device.now),
      TrackerItems(app.detectedTrackers),
      Insights(app),
      Recommendations(app))
  }

  class AppDetailScreen {
    var currentPackageName: Option<string>
    var finished: bool
    var toast: Option<string>
    var shownApp: Option<AppInfo>
    /** The "last used" line; `None` while it is hidden. */
    var lastUsedText: Option<string>
    var usagePromptVisible: bool
    var permissionItems: seq<PermissionItem>
    var trackerItems: seq<TrackerItem>
    var insights: seq<string>
    var recommendations: seq<string>

    ghost function Shown(): Display
      reads this
    {
      Display(shownApp, lastUsedText, usagePromptVisible, permissionItems, trackerItems, insights, recommendations)
    }

    constructor()
      ensures currentPackageName == None && !finished && toast == None
      ensures Shown() == Display(None, None, false, [], [], [], [])
    {
      currentPackageName := None;
      finished := false;
      toast := None;
      shownApp := None;
      lastUsedText := None;
      usagePromptVisible := false;
      permissionItems := [];
      trackerItems := [];
      insights := [];
      recommendations := [];
    }

    /**
     * `onCreate`: a missing extra, a null name or an empty name show an
     * error and close the screen without loading anything; otherwise the
     * named package is loaded.
     */
    method OnCreate(extra: Option<Option<string>>, device: Device)
      modifies this
      ensures extra.None? ==> toast == Some(NO_EXTRA_MESSAGE) && finished && currentPackageName == old(currentPackageName)
      ensures extra.Some? ==> currentPackageName == extra.value
      ensures extra.Some? && (extra.value.None? || extra.value.value == "") ==> toast == Some(INVALID_PACKAGE_MESSAGE) && finished
      ensures (extra.None? || extra.value.None? || extra.value.value == "") ==> Shown() == old(Shown())
      ensures extra.Some? && extra.value.Some? && extra.value.value != "" ==>
        var name := extra.value.value;
        if name in device.installed then
          Shown() == DetailsOf(LoadedApp(device.installed[name], Some(name), device), device) && finished == old(finished) && toast == old(toast)
        else
          Shown() == old(Shown()) && finished && toast == Some(NOT_FOUND_MESSAGE)
    {
      if extra.Some? {
        currentPackageName := extra.value;
        if currentPackageName.Some? && currentPackageName.value != "" {
          LoadAppDetails(currentPackageName.value, device);
        } else {
          toast := Some(INVALID_PACKAGE_MESSAGE);
          finished := true;
        }
      } else {
        toast := Some(NO_EXTRA_MESSAGE);
        finished := true;
      }
    }

    /** `loadAppDetails`: the profile and every section, or an error when the package is unknown. */
    method LoadAppDetails(packageName: string, device: Device)
      modifies this
      ensures currentPackageName == old(currentPackageName)
      ensures packageName !in device.installed ==> Shown() == old(Shown()) && finished && toast == Some(NOT_FOUND_MESSAGE)
      ensures packageName in device.installed ==>
        Shown() == DetailsOf(LoadedApp(device.installed[packageName], currentPackageName, device), device) && finished == old(finished) && toast == old(toast)
    {
      if packageName !in device.installed {
        toast := Some(NOT_FOUND_MESSAGE);
        finished := true;
        return;
      }
      var info := device.installed[packageName];
      var app := NewAppInfo(info, device.pm);
      app := DisplayUsage(app, device);
      DisplaySections(app, device);
    }

    /**
     * With usage access the prompt is hidden and the "last used" line is
     * computed; without it the line is hidden and the prompt shown.
     */
    method DisplayUsage(app: AppInfo, device: Device) returns (updated: AppInfo)
      modifies this`lastUsedText, this`usagePromptVisible
      ensures updated == UsageApplied(app, currentPackageName, device)
      ensures usagePromptVisible == !device.hasUsageAccess
      ensures lastUsedText == if device.hasUsageAccess then Some(LastUsedText(updated, device.now)) else None
    {
      updated := app;
      if device.hasUsageAccess {
        usagePromptVisible := false;
        updated := FetchAndDisplayAppLastUsedTime(app, device.queryUsageStats, device.now);
      } else {
        lastUsedText := None;
        usagePromptVisible := true;
      }
    }

    /** The name, score and level of the profile, then its three lists. */
    method DisplaySections(app: AppInfo, device: Device)
      requires usagePromptVisible == !device.hasUsageAccess
      requires lastUsedText == if device.hasUsageAccess then Some(LastUsedText(app, device.now)) else None
      modifies this`shownApp, this`permissionItems, this`trackerItems, this`insights, this`recommendations
      ensures Shown() == DetailsOf(app, device)
    {
      shownApp := Some(app);
      var usage := if device.hasUsageAccess then device.permissionUsage else map[];
      DisplayPermissions(app.dangerousPermissions, usage, device.hasUsageAccess, device.now);
      DisplayTrackers(app.detectedTrackers);
      DisplayInsightsAndRecommendations(app);
    }

    /**
     * `fetchAndDisplayAppLastUsedTime`: the usage query over the 30 days up
     * to now, the latest use of the current package among its entries, then
     * the "last used" line.
     */
    method FetchAndDisplayAppLastUsedTime(app: AppInfo, queryUsageStats: (int, int) -> Option<seq<UsageStats>>, now: int)
      returns (updated: AppInfo)
      modifies this`lastUsedText
      ensures updated == WithLastUsed(app, currentPackageName, queryUsageStats(now - USAGE_WINDOW_MS, now))
      ensures lastUsedText == Some(LastUsedText(updated, now))
    {
      var startTime := now - USAGE_WINDOW_MS;
      var appList := queryUsageStats(startTime, now);
      updated := app;
      if appList.Some? && appList.value != [] {
        var entries := appList.value;
        var lastTimeUsed := 0;
        var i := 0;
        while i < |entries|
          invariant 0 <= i <= |entries|
          invariant lastTimeUsed == LastUsedOf(entries[..i], currentPackageName)
        {
          assert entries[..i + 1][..i] == entries[..i];
          if IsCurrent(entries[i], currentPackageName) && entries[i].lastTimeUsed > lastTimeUsed {
            lastTimeUsed := entries[i].lastTimeUsed;
          }
          i := i + 1;
        }
        assert entries[..i] == entries;
        updated := updated.(lastTimeUsed := lastTimeUsed);
      }
      if updated.lastTimeUsed > 0 {
        lastUsedText := Some(APP_LAST_USED_PREFIX + FormatTimeAgo(now, updated.lastTimeUsed));
      } else {
        lastUsedText := Some(NOT_USED_IN_WINDOW);
      }
    }

    /** `displayPermissions`: the list is cleared, then the placeholder or one row per permission is added. */
    method DisplayPermissions(permissions: seq<PermissionDetail>, usage: map<string, int>, hasUsageAccess: bool, now: int)
      modifies this`permissionItems
      ensures permissionItems == PermissionItems(permissions, usage, hasUsageAccess, now)
    {
      permissionItems := [];
      if permissions == [] {
        permissionItems := permissionItems + [NoItems(NO_PERMISSIONS)];
        return;
      }
      var i := 0;
      while i < |permissions|
        invariant 0 <= i <= |permissions|
        invariant |permissionItems| == i
        invariant forall k :: 0 <= k < i ==> permissionItems[k] == PermissionRowOf(permissions[k].name, usage, hasUsageAccess, now)
      {
        permissionItems := permissionItems + [PermissionRowOf(permissions[i].name, usage, hasUsageAccess, now)];
        i := i + 1;
      }
    }

    /** `displayTrackers`: the list is cleared, then the placeholder or one row per tracker is added. */
    method DisplayTrackers(trackers: seq<string>)
      modifies this`trackerItems
      ensures trackerItems == TrackerItems(trackers)
    {
      trackerItems := [];
      if trackers == [] {
        trackerItems := trackerItems + [NoTrackerItems(NO_TRACKERS)];
        return;
      }
      var i := 0;
      while i < |trackers|
        invariant 0 <= i <= |trackers|
        invariant |trackerItems| == i
        invariant forall k :: 0 <= k < i ==> trackerItems[k] == TrackerView(trackers[k])
      {
        trackerItems := trackerItems + [TrackerView(trackers[i])];
        i := i + 1;
      }
    }

    /** `displayInsightsAndRecommendations`: both lists are cleared and refilled, rule by rule. */
    method DisplayInsightsAndRecommendations(app: AppInfo)
      modifies this`insights, this`recommendations
      ensures insights == Insights(app)
      ensures recommendations == Recommendations(app)
    {
      insights := [];
      recommendations := [];
      if app.riskLevel == HIGH {
        insights := insights + [MAXIMUM_RISK_INSIGHT];
      }
      if |app.dangerousPermissions| > 4 {
        insights := insights + [WIDE_ACCESS_INSIGHT];
      }
      if |app.detectedTrackers| > 3 {
        insights := insights + [TRACKING_INSIGHT];
      }
      if app.riskScore > 80 {
        recommendations := recommendations + [UNINSTALL_ADVICE];
      }
      if |app.detectedTrackers| > 0 {
        recommendations := recommendations + [WEB_VERSION_ADVICE];
      }
      if |app.dangerousPermissions| > 0 {
        recommendations := recommendations + [REVOKE_ADVICE];
      }
    }
  }
}
