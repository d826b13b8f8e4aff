/**
 * The dashboard (MainActivity): a scan of the user-installed applications,
 * sorted by descending risk score, summarised as three per-level counters and
 * the five riskiest applications.
 */
module Dashboard {
  import opened Wrappers
  import opened Risk
  import opened ScoreOrder

  /** How many applications the "top risky apps" list shows. */
  const TOP_COUNT: nat := 5

  /** The number of applications in `apps` whose level is `level`. */
  function CountLevel(apps: seq<AppInfo>, level: RiskLevel): (n: nat)
    ensures n <= |apps|
  {
    if apps == [] then 0
    else CountLevel(apps[..|apps| - 1], level) + (if apps[|apps| - 1].riskLevel == level then 1 else 0)
  }

  /** The top list: the first min(n, 5) applications. */
  function Top(apps: seq<AppInfo>): seq<AppInfo> {
    apps[..if |apps| < TOP_COUNT then |apps| else TOP_COUNT]
  }

  /**
   * The enumeration asks only for permissions, so the package records it
   * returns carry no receiver array.
   */
  function PermissionsOnly(packages: seq<PackageInfo>): (r: seq<PackageInfo>)
    ensures |r| == |packages|
    ensures forall i :: 0 <= i < |r| ==> r[i] == packages[i].(receivers := None)
  {
    seq(|packages|, i requires 0 <= i < |packages| => packages[i].(receivers := None))
  }

  // ---------------------------------------------------------------- counting

  /** Every application has exactly one of the three levels. */
  lemma {:induction false} CountLevelsSum(apps: seq<AppInfo>)
    ensures CountLevel(apps, HIGH) + CountLevel(apps, MEDIUM) + CountLevel(apps, LOW) == |apps|
    decreases |apps|
  {
    if apps != [] {
      CountLevelsSum(apps[..|apps| - 1]);
    }
  }

  /** A level is counted at most once per application, and is counted iff some application has it. */
  lemma {:induction false} CountLevelPresence(apps: seq<AppInfo>, level: RiskLevel)
    ensures CountLevel(apps, level) <= |apps|
    ensures CountLevel(apps, level) > 0 <==> exists i :: 0 <= i < |apps| && apps[i].riskLevel == level
    decreases |apps|
  {
    if apps != [] {
      var init := apps[..|apps| - 1];
      CountLevelPresence(init, level);
      if CountLevel(init, level) > 0 {
        var i :| 0 <= i < |init| && init[i].riskLevel == level;
        assert apps[i] == init[i];
      }
      if exists i :: 0 <= i < |apps| && apps[i].riskLevel == level {
        var i :| 0 <= i < |apps| && apps[i].riskLevel == level;
        if i < |init| {
          assert init[i] == apps[i];
        }
      }
    }
  }

  /** Counting over a concatenation adds up. */
  lemma {:induction false} CountLevelConcat(a: seq<AppInfo>, b: seq<AppInfo>, level: RiskLevel)
    ensures CountLevel(a + b, level) == CountLevel(a, level) + CountLevel(b, level)
    decreases |b|
  {
    if b == [] {
      assert a + b == a;
    } else {
      assert (a + b)[..|a + b| - 1] == a + b[..|b| - 1];
      CountLevelConcat(a, b[..|b| - 1], level);
    }
  }

  /** Inserting an application into the sorted list adds one to its level's count only. */
  lemma {:induction false} CountLevelInsert(apps: seq<AppInfo>, x: AppInfo, level: RiskLevel)
    ensures CountLevel(InsertByScore(apps, x), level) == CountLevel(apps, level) + (if x.riskLevel == level then 1 else 0)
    decreases |apps|
  {
    if apps == [] {
      assert [x][..0] == [];
    } else if apps[0].riskScore < x.riskScore {
      CountLevelConcat([x], apps, level);
      assert [x][..0] == [];
    } else {
      CountLevelInsert(apps[1..], x, level);
      CountLevelConcat([apps[0]], InsertByScore(apps[1..], x), level);
      CountLevelConcat([apps[0]], apps[1..], level);
      assert [apps[0]] + apps[1..] == apps;
      assert [apps[0]][..0] == [];
    }
  }

  /** Sorting by score leaves every counter unchanged. */
  lemma {:induction false} CountLevelSorted(apps: seq<AppInfo>, level: RiskLevel)
    ensures CountLevel(SortByScore(apps), level) == CountLevel(apps, level)
    decreases |apps|
  {
    if apps != [] {
      CountLevelSorted(apps[..|apps| - 1], level);
      CountLevelInsert(SortByScore(apps[..|apps| - 1]), apps[|apps| - 1], level);
    }
  }

  // ---------------------------------------------------------------- the top list

  /** The top list is a prefix of at most five applications, and all five when there are that many. */
  lemma TopShape(apps: seq<AppInfo>)
    ensures |Top(apps)| <= TOP_COUNT
    ensures |Top(apps)| == TOP_COUNT || Top(apps) == apps
    ensures Top(apps) <= apps
  {
  }

  /** In a list sorted by descending score, no application left out of the top list outscores one in it. */
  lemma TopDominates(apps: seq<AppInfo>)
    requires DescendingByScore(apps)
    ensures forall i, j :: 0 <= i < |Top(apps)| <= j < |apps| ==> apps[i].riskScore >= apps[j].riskScore
    ensures forall x :: x in Top(apps) ==> forall j :: |Top(apps)| <= j < |apps| ==> x.riskScore >= apps[j].riskScore
  {
  }

  // ---------------------------------------------------------------- the scan

  /** With no receiver array, no application on the dashboard reports a tracker. */
  lemma {:induction false} DashboardAppsHaveNoTrackers(pm: PackageManager, packages: seq<PackageInfo>)
    ensures forall app :: app in UserAppProfiles(pm, PermissionsOnly(packages)) ==> app.detectedTrackers == []
    decreases |packages|
  {
    if packages != [] {
      var init := packages[..|packages| - 1];
      assert PermissionsOnly(packages)[..|packages| - 1] == PermissionsOnly(init);
      DashboardAppsHaveNoTrackers(pm, init);
      NoReceiversNoTrackers(None);
    }
  }

  /** Applications on the dashboard are scored from their permissions, so HIGH means three or more. */
  lemma {:induction false} DashboardLevels(pm: PackageManager, packages: seq<PackageInfo>)
    ensures forall app :: app in UserAppProfiles(pm, packages) ==>
      app.riskScore == RiskScore(|app.dangerousPermissions|) &&
      (app.riskLevel == HIGH <==> |app.dangerousPermissions| >= 3)
    decreases |packages|
  {
    if packages != [] {
      DashboardLevels(pm, packages[..|packages| - 1]);
      var last := packages[|packages| - 1];
      LevelByPermissionCount(|Profile(pm, last).dangerousPermissions|);
    }
  }

  class DashboardScreen {
    var allApps: seq<AppInfo>
    var topRiskyApps: seq<AppInfo>
    /** The values of the three counter views. */
    var highRiskCount: nat
    var mediumRiskCount: nat
    var lowRiskCount: nat

    constructor()
      ensures allApps == [] && topRiskyApps == []
    {
      allApps := [];
      topRiskyApps := [];
    }

    /**
     * `updateDashboardUI`: one pass over the list counting each level, then
     * the top list cleared and refilled from the head of the list.
     */
    method UpdateDashboardUI()
      modifies this
      ensures allApps == old(allApps)
      ensures highRiskCount == CountLevel(allApps, HIGH)
      ensures mediumRiskCount == CountLevel(allApps, MEDIUM)
      ensures lowRiskCount == CountLevel(allApps, LOW)
      ensures highRiskCount + mediumRiskCount + lowRiskCount == |allApps|
      ensures topRiskyApps == Top(allApps)
    {
      var apps := allApps;
      var highRisk, mediumRisk, lowRisk := 0, 0, 0;
      var i := 0;
      while i < |apps|
        invariant 0 <= i <= |apps|
        invariant highRisk == CountLevel(apps[..i], HIGH)
        invariant mediumRisk == CountLevel(apps[..i], MEDIUM)
        invariant lowRisk == CountLevel(apps[..i], LOW)
      {
        assert apps[..i + 1][..i] == apps[..i];
        match apps[i].riskLevel {
          case HIGH => highRisk := highRisk + 1;
          case MEDIUM => mediumRisk := mediumRisk + 1;
          case LOW => lowRisk := lowRisk + 1;
        }
        i := i + 1;
      }
      assert apps[..i] == apps;
      CountLevelsSum(apps);
      highRiskCount, mediumRiskCount, lowRiskCount := highRisk, mediumRisk, lowRisk;

      topRiskyApps := [];
      topRiskyApps := topRiskyApps + Top(allApps);
    }

    /**
     * `loadAndAnalyzeApps`: the list is cleared and refilled with the profiles
     * of the user-installed packages, sorted by descending score, and the
     * dashboard is updated from it.
     */
    method LoadAndAnalyzeApps(pm: PackageManager, packages: seq<PackageInfo>)
      modifies this
      ensures allApps == SortByScore(UserAppProfiles(pm, PermissionsOnly(packages)))
      ensures DescendingByScore(allApps)
      ensures multiset(allApps) == multiset(UserAppProfiles(pm, PermissionsOnly(packages)))
      ensures highRiskCount == CountLevel(UserAppProfiles(pm, PermissionsOnly(packages)), HIGH)
      ensures mediumRiskCount == CountLevel(UserAppProfiles(pm, PermissionsOnly(packages)), MEDIUM)
      ensures lowRiskCount == CountLevel(UserAppProfiles(pm, PermissionsOnly(packages)), LOW)
      ensures topRiskyApps == Top(allApps)
      ensures forall x :: x in topRiskyApps ==> forall j :: |topRiskyApps| <= j < |allApps| ==> x.riskScore >= allApps[j].riskScore
    {
      var scanned := ScanUserApps(pm, PermissionsOnly(packages));
      allApps := StableSortByScore(scanned);
      UpdateDashboardUI();
      CountLevelSorted(scanned, HIGH);
      CountLevelSorted(scanned, MEDIUM);
      CountLevelSorted(scanned, LOW);
      TopDominates(allApps);
    }
  }
}
