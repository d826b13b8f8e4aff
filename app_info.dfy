/**
 * The risk profile of one installed application (AppInfo.java): the
 * dangerous-permission filter, the tracker detector, the score and the level,
 * derived in the constructor's order.
 */
module Risk {
  import opened Wrappers
  import opened Text
  import opened Sorting

  datatype RiskLevel = HIGH | MEDIUM | LOW

  /** The enum constant's name, as string concatenation prints it. */
  function LevelName(level: RiskLevel): string {
    match level
    case HIGH => "HIGH"
    case MEDIUM => "MEDIUM"
    case LOW => "LOW"
  }

  datatype PermissionDetail = PermissionDetail(name: string, isGranted: bool)

  /**
   * The protection level the permission registry reports for an identifier;
   * `NotFound` stands for an identifier the registry does not know.
   */
  datatype Protection = NotFound | Normal | Dangerous | Signature | Internal

  /**
   * The two PackageManager queries the profile needs: the permission registry,
   * and the per-package check whether a permission is granted.
   */
  datatype PackageManager = PackageManager(
    protectionOf: string -> Protection,
    checkPermission: (string, string) -> bool)

  /**
   * The parts of a PackageInfo the engine reads; `None` is a null array and a
   * `None` receiver is a receiver whose class name is null.
   */
  datatype PackageInfo = PackageInfo(
    packageName: string,
    appLabel: string,
    isSystem: bool,
    requestedPermissions: Option<seq<string>>,
    receivers: Option<seq<Option<string>>>)

  /** AppInfo without its icon, its PackageManager handle and its permission-usage map. */
  datatype AppInfo = AppInfo(
    appName: string,
    packageName: string,
    dangerousPermissions: seq<PermissionDetail>,
    riskScore: nat,
    riskLevel: RiskLevel,
    detectedTrackers: seq<string>,
    lastTimeUsed: int)

  // ---------------------------------------------------------------- scoring

  /** `calculateRiskScore`: 20 points per dangerous permission, capped at 100. */
  function RiskScore(permissionCount: nat): (score: nat)
    ensures score <= 100 && score <= 20 * permissionCount
    ensures score == 100 || score == 20 * permissionCount
  {
    if permissionCount * 20 < 100 then permissionCount * 20 else 100
  }

  lemma RiskScoreMonotone(m: nat, n: nat)
    requires m <= n
    ensures RiskScore(m) <= RiskScore(n)
  {
  }

  /** `calculateRiskLevel`: HIGH from 60, MEDIUM from 30, LOW below. */
  function RiskLevelOf(score: int): (level: RiskLevel)
    ensures level == HIGH <==> 60 <= score
    ensures level == MEDIUM <==> 30 <= score < 60
    ensures level == LOW <==> score < 30
  {
    if score >= 60 then HIGH else if score >= 30 then MEDIUM else LOW
  }

  lemma LevelBoundaries()
    ensures RiskLevelOf(29) == LOW && RiskLevelOf(30) == MEDIUM
    ensures RiskLevelOf(59) == MEDIUM && RiskLevelOf(60) == HIGH
  {
  }

  /** Under the permission-only score, 0-1 permissions are LOW, 2 MEDIUM and 3 or more HIGH. */
  lemma LevelByPermissionCount(n: nat)
    ensures n <= 1 ==> RiskLevelOf(RiskScore(n)) == LOW
    ensures n == 2 ==> RiskLevelOf(RiskScore(n)) == MEDIUM
    ensures n >= 3 ==> RiskLevelOf(RiskScore(n)) == HIGH
  {
  }

  // ------------------------------------------------------ dangerous permissions

  /** What one requested identifier contributes to the dangerous list. */
  function PermissionEntry(pm: PackageManager, packageName: string, id: string): seq<PermissionDetail> {
    if pm.protectionOf(id) == Dangerous then [PermissionDetail(id, pm.checkPermission(id, packageName))] else []
  }

  /** The dangerous subset of `ids`, in manifest order, each with its grant state. */
  function DangerousOf(pm: PackageManager, packageName: string, ids: seq<string>): seq<PermissionDetail> {
    if ids == [] then []
    else DangerousOf(pm, packageName, ids[..|ids| - 1]) + PermissionEntry(pm, packageName, ids[|ids| - 1])
  }

  /** The dangerous list of a package; a null request array gives the empty list. */
  function DangerousPermissions(pm: PackageManager, info: PackageInfo): seq<PermissionDetail> {
    match info.requestedPermissions
    case None => []
    case Some(ids) => DangerousOf(pm, info.packageName, ids)
  }

  /** The filter works piecewise over the manifest, so it keeps manifest order. */
  lemma {:induction false} DangerousOfConcat(pm: PackageManager, packageName: string, a: seq<string>, b: seq<string>)
    ensures DangerousOf(pm, packageName, a + b) == DangerousOf(pm, packageName, a) + DangerousOf(pm, packageName, b)
    decreases |b|
  {
    if b == [] {
      assert a + b == a;
    } else {
      assert (a + b)[..|a + b| - 1] == a + b[..|b| - 1];
      DangerousOfConcat(pm, packageName, a, b[..|b| - 1]);
    }
  }

  /** An identifier the registry cannot resolve is skipped without trace. */
  lemma UnresolvableSkipped(pm: PackageManager, packageName: string, a: seq<string>, id: string, b: seq<string>)
    requires pm.protectionOf(id) == NotFound
    ensures DangerousOf(pm, packageName, a + [id] + b) == DangerousOf(pm, packageName, a + b)
  {
    DangerousOfConcat(pm, packageName, a + [id], b);
    DangerousOfConcat(pm, packageName, a, [id]);
    DangerousOfConcat(pm, packageName, a, b);
    assert DangerousOf(pm, packageName, [id]) == DangerousOf(pm, packageName, []) + PermissionEntry(pm, packageName, id);
  }

  /**
   * The list holds exactly the requested identifiers the registry calls
   * dangerous, each with the package's grant state, and no more entries than
   * were requested.
   */
  lemma {:induction false} DangerousOfMembers(pm: PackageManager, packageName: string, ids: seq<string>)
    ensures |DangerousOf(pm, packageName, ids)| <= |ids|
    ensures forall d :: d in DangerousOf(pm, packageName, ids) ==>
      d.name in ids && pm.protectionOf(d.name) == Dangerous && d.isGranted == pm.checkPermission(d.name, packageName)
    ensures forall id :: id in ids && pm.protectionOf(id) == Dangerous ==>
      PermissionDetail(id, pm.checkPermission(id, packageName)) in DangerousOf(pm, packageName, ids)
    decreases |ids|
  {
    if ids != [] {
      var init := ids[..|ids| - 1];
      DangerousOfMembers(pm, packageName, init);
      assert ids == init + [ids[|ids| - 1]];
    }
  }

  /** `fetchPermissionDetails`: the requested identifiers are filtered one by one. */
  method FetchPermissionDetails(pm: PackageManager, info: PackageInfo) returns (permissions: seq<PermissionDetail>)
    ensures permissions == DangerousPermissions(pm, info)
  {
    permissions := [];
    if info.requestedPermissions.Some? {
      var ids := info.requestedPermissions.value;
      var i := 0;
      while i < |ids|
        invariant 0 <= i <= |ids|
        invariant permissions == DangerousOf(pm, info.packageName, ids[..i])
      {
        assert ids[..i + 1][..i] == ids[..i];
        var permission := ids[i];
        if pm.protectionOf(permission) == Dangerous {
          var isGranted := pm.checkPermission(permission, info.packageName);
          permissions := permissions + [PermissionDetail(permission, isGranted)];
        }
        i := i + 1;
      }
      assert ids[..i] == ids;
    }
  }

  // ----------------------------------------------------------------- trackers

  /** The signature table: `TRACKER_SIGNATURES[i]` is reported as `TRACKER_NAMES[i]`. */
  const TRACKER_SIGNATURES: seq<string> := [
    "com.google.firebase.analytics", "com.google.android.gms.ads",
    "com.facebook.sdk", "io.branch.referral",
    "com.appsflyer", "com.adjust.sdk"]
  const TRACKER_NAMES: seq<string> := [
    "Google Analytics", "Google Ads", "Facebook SDK",
    "Branch", "AppsFlyer", "Adjust"]

  /** The same six names in ascending `compareTo` order. */
  const TRACKER_NAMES_ASCENDING: seq<string> := [
    "Adjust", "AppsFlyer", "Branch", "Facebook SDK", "Google Ads", "Google Analytics"]

  /** A non-null receiver class name contains, case-sensitively, the signature reported as `name`. */
  predicate Reveals(receiver: Option<string>, name: string) {
    receiver.Some? &&
    exists i :: 0 <= i < |TRACKER_NAMES| && TRACKER_NAMES[i] == name && Contains(receiver.value, TRACKER_SIGNATURES[i])
  }

  /** Some receiver among the first `k` reveals `name`. */
  predicate RevealedAmong(receivers: seq<Option<string>>, k: nat, name: string)
    requires k <= |receivers|
  {
    exists j :: 0 <= j < k && Reveals(receivers[j], name)
  }

  /** The package declares a receiver that reveals `name`. */
  predicate Detected(receivers: Option<seq<Option<string>>>, name: string) {
    receivers.Some? && RevealedAmong(receivers.value, |receivers.value|, name)
  }

  /** What `detectTrackers` promises: ascending, no repetitions, exactly the detected names. */
  ghost predicate IsTrackerList(receivers: Option<seq<Option<string>>>, trackers: seq<string>) {
    Sorted(trackers) && NoDuplicates(trackers) &&
    forall name :: name in trackers <==> Detected(receivers, name)
  }

  /** The detected names picked from `names` in their order there. */
  function DetectedFrom(receivers: Option<seq<Option<string>>>, names: seq<string>): (r: seq<string>)
    ensures forall x :: x in r <==> x in names && Detected(receivers, x)
  {
    if names == [] then []
    else (if Detected(receivers, names[0]) then [names[0]] else []) + DetectedFrom(receivers, names[1..])
  }

  /**
   * A reference definition independent of the detector's loops: filter the
   * pre-sorted name table; a null receiver array is checked first and gives
   * the empty list.
   */
  function ExpectedTrackers(receivers: Option<seq<Option<string>>>): seq<string> {
    if receivers.None? then [] else DetectedFrom(receivers, TRACKER_NAMES_ASCENDING)
  }

  lemma AscendingTableFacts()
    ensures Sorted(TRACKER_NAMES_ASCENDING) && NoDuplicates(TRACKER_NAMES_ASCENDING)
    ensures forall x :: x in TRACKER_NAMES <==> x in TRACKER_NAMES_ASCENDING
  {
    AscendingTableSorted();
    AscendingTableDistinct();
  }

  lemma AscendingTableSorted()
    ensures Sorted(TRACKER_NAMES_ASCENDING)
  {
    var t := TRACKER_NAMES_ASCENDING;
    assert LessEq(t[0], t[1]);
    assert LessEq(t[1], t[2]);
    assert LessEq(t[2], t[3]);
    assert LessEq(t[3], t[4]);
    assert LessEq(t[4], t[5]);
    ChainSorted(t);
  }

  lemma AscendingTableDistinct()
    ensures NoDuplicates(TRACKER_NAMES_ASCENDING)
  {
  }

  /** A filter of an ascending list without repetitions is again one. */
  lemma {:induction false} DetectedFromOrdered(receivers: Option<seq<Option<string>>>, names: seq<string>)
    requires Sorted(names) && NoDuplicates(names)
    ensures Sorted(DetectedFrom(receivers, names)) && NoDuplicates(DetectedFrom(receivers, names))
    decreases |names|
  {
    if names != [] {
      DetectedFromOrdered(receivers, names[1..]);
      var rest := DetectedFrom(receivers, names[1..]);
      forall y | y in rest ensures LessEq(names[0], y) && names[0] != y {
        var j :| 1 <= j < |names| && names[j] == y;
      }
    }
  }

  /** The reference list meets the detector's promise. */
  lemma ExpectedTrackersIsTrackerList(receivers: Option<seq<Option<string>>>)
    ensures IsTrackerList(receivers, ExpectedTrackers(receivers))
  {
    AscendingTableFacts();
    DetectedFromOrdered(receivers, TRACKER_NAMES_ASCENDING);
    forall name | Detected(receivers, name) ensures name in TRACKER_NAMES {
      var rs := receivers.value;
      var j :| 0 <= j < |rs| && Reveals(rs[j], name);
    }
  }

  /** The detector's promise leaves exactly one possible list: detection is deterministic. */
  lemma TrackerListUnique(receivers: Option<seq<Option<string>>>, a: seq<string>, b: seq<string>)
    requires IsTrackerList(receivers, a) && IsTrackerList(receivers, b)
    ensures a == b
  {
    SameElementsPermutation(a, b);
    SortedUnique(a, b);
  }

  /** Filtering by a detection that never holds leaves nothing. */
  lemma {:induction false} DetectedFromNothing(receivers: Option<seq<Option<string>>>, names: seq<string>)
    requires receivers.None? || receivers.value == []
    ensures DetectedFrom(receivers, names) == []
    decreases |names|
  {
    if names != [] {
      DetectedFromNothing(receivers, names[1..]);
    }
  }

  /** No receivers, or a null receiver array, reveal no tracker. */
  lemma NoReceiversNoTrackers(receivers: Option<seq<Option<string>>>)
    requires receivers.None? || receivers.value == []
    ensures ExpectedTrackers(receivers) == []
  {
    DetectedFromNothing(receivers, TRACKER_NAMES_ASCENDING);
  }

  /** `detectTrackers`: scan every non-null receiver against every signature, then sort. */
  method DetectTrackers(receivers: Option<seq<Option<string>>>) returns (trackers: seq<string>)
    ensures IsTrackerList(receivers, trackers)
    ensures trackers == ExpectedTrackers(receivers)
  {
    trackers := [];
    if receivers.Some? {
      var rs := receivers.value;
      var k := 0;
      while k < |rs|
        invariant 0 <= k <= |rs|
        invariant NoDuplicates(trackers)
        invariant forall name :: name in trackers <==> RevealedAmong(rs, k, name)
      {
        if rs[k].Some? {
          var receiverName := rs[k].value;
          var i := 0;
          while i < |TRACKER_SIGNATURES|
            invariant 0 <= i <= |TRACKER_SIGNATURES|
            invariant NoDuplicates(trackers)
            invariant forall name :: name in trackers <==>
              RevealedAmong(rs, k, name) ||
              exists t :: 0 <= t < i && TRACKER_NAMES[t] == name && Contains(receiverName, TRACKER_SIGNATURES[t])
          {
            if Contains(receiverName, TRACKER_SIGNATURES[i]) && TRACKER_NAMES[i] !in trackers {
              trackers := trackers + [TRACKER_NAMES[i]];
            }
            i := i + 1;
          }
        }
        forall name ensures RevealedAmong(rs, k + 1, name) <==> RevealedAmong(rs, k, name) || Reveals(rs[k], name) {
          if RevealedAmong(rs, k + 1, name) {
            var j :| 0 <= j < k + 1 && Reveals(rs[j], name);
            if j < k { assert RevealedAmong(rs, k, name); }
          }
          if Reveals(rs[k], name) { assert 0 <= k < k + 1; }
        }
        k := k + 1;
      }
    }
    var unsorted := trackers;
    trackers := SortStrings(unsorted);
    PermutationKeepsNoDuplicates(unsorted, trackers);
    assert forall x :: x in trackers <==> x in unsorted by {
      forall x ensures x in trackers <==> x in unsorted {
        assert x in trackers <==> x in multiset(trackers);
        assert x in unsorted <==> x in multiset(unsorted);
      }
    }
    ExpectedTrackersIsTrackerList(receivers);
    TrackerListUnique(receivers, trackers, ExpectedTrackers(receivers));
  }

  // ------------------------------------------------------------------ profile

  /** The profile the AppInfo constructor derives from a package. */
  function Profile(pm: PackageManager, info: PackageInfo): AppInfo {
    var permissions := DangerousPermissions(pm, info);
    var score := RiskScore(|permissions|);
    AppInfo(info.appLabel, info.packageName, permissions, score, RiskLevelOf(score), ExpectedTrackers(info.receivers), 0)
  }

  /** The constructor: permissions, then score, then level, then trackers; last-used time 0. */
  method NewAppInfo(info: PackageInfo, pm: PackageManager) returns (app: AppInfo)
    ensures app == Profile(pm, info)
  {
    var dangerousPermissions := FetchPermissionDetails(pm, info);
    var riskScore := RiskScore(|dangerousPermissions|);
    var riskLevel := RiskLevelOf(riskScore);
    var detectedTrackers := DetectTrackers(info.receivers);
    app := AppInfo(info.appLabel, info.packageName, dangerousPermissions, riskScore, riskLevel, detectedTrackers, 0);
  }

  /**
   * A profile's score is derived from its permission count, its level from
   * its score, and its trackers are exactly those its receivers reveal.
   */
  lemma ProfileInvariants(pm: PackageManager, info: PackageInfo)
    ensures Profile(pm, info).riskScore == RiskScore(|Profile(pm, info).dangerousPermissions|)
    ensures Profile(pm, info).riskLevel == RiskLevelOf(Profile(pm, info).riskScore)
    ensures IsTrackerList(info.receivers, Profile(pm, info).detectedTrackers)
    ensures Profile(pm, info).lastTimeUsed == 0
  {
    ExpectedTrackersIsTrackerList(info.receivers);
  }

  /** Trackers never affect the score or the level: they are detected after scoring. */
  lemma TrackersDoNotAffectRisk(pm: PackageManager, info: PackageInfo, receivers: Option<seq<Option<string>>>)
    ensures Profile(pm, info.(receivers := receivers)).riskScore == Profile(pm, info).riskScore
    ensures Profile(pm, info.(receivers := receivers)).riskLevel == Profile(pm, info).riskLevel
    ensures Profile(pm, info).riskScore == RiskScore(|Profile(pm, info).dangerousPermissions|)
  {
  }

  /** The profiles of the non-system packages, in enumeration order. */
  function UserAppProfiles(pm: PackageManager, packages: seq<PackageInfo>): seq<AppInfo> {
    if packages == [] then []
    else
      var last := packages[|packages| - 1];
      UserAppProfiles(pm, packages[..|packages| - 1]) + (if last.isSystem then [] else [Profile(pm, last)])
  }

  /** The scan holds a profile for every non-system package and nothing else. */
  lemma {:induction false} UserAppProfilesMembers(pm: PackageManager, packages: seq<PackageInfo>)
    ensures |UserAppProfiles(pm, packages)| <= |packages|
    ensures forall app :: app in UserAppProfiles(pm, packages) ==>
      exists i :: 0 <= i < |packages| && !packages[i].isSystem && app == Profile(pm, packages[i])
    ensures forall i :: 0 <= i < |packages| && !packages[i].isSystem ==> Profile(pm, packages[i]) in UserAppProfiles(pm, packages)
    decreases |packages|
  {
    if packages != [] {
      var init, last := packages[..|packages| - 1], packages[|packages| - 1];
      UserAppProfilesMembers(pm, init);
      forall app | app in UserAppProfiles(pm, packages)
        ensures exists i :: 0 <= i < |packages| && !packages[i].isSystem && app == Profile(pm, packages[i])
      {
        if app in UserAppProfiles(pm, init) {
          var i :| 0 <= i < |init| && !init[i].isSystem && app == Profile(pm, init[i]);
          assert packages[i] == init[i];
        } else {
          assert app == Profile(pm, last) && !last.isSystem;
        }
      }
      forall i | 0 <= i < |packages| && !packages[i].isSystem
        ensures Profile(pm, packages[i]) in UserAppProfiles(pm, packages)
      {
        if i < |init| {
          assert packages[i] == init[i];
        }
      }
    }
  }

  /** The scanning loop of the screens: one AppInfo per package without FLAG_SYSTEM. */
  method ScanUserApps(pm: PackageManager, packages: seq<PackageInfo>) returns (apps: seq<AppInfo>)
    ensures apps == UserAppProfiles(pm, packages)
  {
    apps := [];
    var i := 0;
    while i < |packages|
      invariant 0 <= i <= |packages|
      invariant apps == UserAppProfiles(pm, packages[..i])
    {
      assert packages[..i + 1][..i] == packages[..i];
      if !packages[i].isSystem {
        var app := NewAppInfo(packages[i], pm);
        apps := apps + [app];
      }
      i := i + 1;
    }
    assert packages[..i] == packages;
  }
}
