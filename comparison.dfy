/**
 * The comparison engine of ComparisonActivity.java: per-side sorted lists whose
 * items are flagged when the other side lacks them, and a recommendation
 * decided by score alone.
 */
module Comparison {
  import opened Wrappers
  import opened Text
  import opened Sorting
  import opened Risk

  /**
   * One entry `compareAndDisplayLists` adds to a side's layout: the text shown,
   * whether it is highlighted, and the permission or tracker it stands for.
   */
  datatype ComparisonRow = ComparisonRow(item: string, displayName: string, isUnique: bool)

  const SIMILAR_MESSAGE := "Both apps have a similar risk profile."

  /** What the compare button leads to. */
  datatype CompareOutcome =
    | SelectTwoApps(toast: string)
    | Compared(
        app1Score: string, app2Score: string,
        app1Permissions: seq<ComparisonRow>, app2Permissions: seq<ComparisonRow>,
        app1Trackers: seq<ComparisonRow>, app2Trackers: seq<ComparisonRow>,
        recommendation: string)

  /**
   * The label of a row: the part after the last dot when the item has a dot,
   * else the whole item. Both branches agree with the detail screen's rule.
   */
  function DisplayName(item: string): (r: string)
    ensures r == AfterLastDot(item)
    ensures '.' !in r
  {
    AfterLastDotFacts(item);
    if '.' in item then item[LastIndexOf(item, '.') + 1..] else item
  }

  /** The set of the names of an app's dangerous permissions (the comparison reads only the names). */
  function PermissionNames(permissions: seq<PermissionDetail>): (names: set<string>)
    ensures forall n :: n in names <==> exists i :: 0 <= i < |permissions| && permissions[i].name == n
  {
    set i | 0 <= i < |permissions| :: permissions[i].name
  }

  /** The set of an app's detected tracker names. */
  function TrackerSet(trackers: seq<string>): (names: set<string>)
    ensures forall n :: n in names <==> n in trackers
  {
    set t | t in trackers
  }

  /** The items of a side that are highlighted. */
  function Flagged(rows: seq<ComparisonRow>): set<string> {
    set i | 0 <= i < |rows| && rows[i].isUnique :: rows[i].item
  }

  /** The items of a side that are not highlighted. */
  function Unflagged(rows: seq<ComparisonRow>): set<string> {
    set i | 0 <= i < |rows| && !rows[i].isUnique :: rows[i].item
  }

  /** A set copied into a list and sorted ascending. */
  method SortedListOf(s: set<string>) returns (list: seq<string>)
    ensures Sorted(list) && NoDuplicates(list)
    ensures forall x :: x in list <==> x in s
    ensures |list| == |s|
  {
    var unsorted: seq<string> := [];
    var rest := s;
    while rest != {}
      invariant rest <= s
      invariant NoDuplicates(unsorted)
      invariant forall x :: x in unsorted <==> x in s && x !in rest
      invariant |unsorted| + |rest| == |s|
      decreases |rest|
    {
      var x :| x in rest;
      unsorted := unsorted + [x];
      rest := rest - {x};
    }
    list := SortStrings(unsorted);
    PermutationKeepsNoDuplicates(unsorted, list);
    assert |list| == |unsorted| by {
      assert |multiset(list)| == |multiset(unsorted)|;
    }
    forall x ensures x in list <==> x in unsorted {
      assert x in list <==> x in multiset(list);
      assert x in unsorted <==> x in multiset(unsorted);
    }
  }

  /**
   * `compareAndDisplayLists(layout, list1, list2)`: one row per element of
   * `list1`, ascending, highlighted exactly when `list2` lacks it.
   */
  method CompareAndDisplayLists(list1: set<string>, list2: set<string>) returns (rows: seq<ComparisonRow>)
    ensures |rows| == |list1|
    ensures forall i, j :: 0 <= i < j < |rows| ==> LessEq(rows[i].item, rows[j].item) && rows[i].item != rows[j].item
    ensures forall i :: 0 <= i < |rows| ==>
      rows[i].displayName == DisplayName(rows[i].item) && rows[i].isUnique == (rows[i].item !in list2)
    ensures forall x :: x in list1 <==> exists i :: 0 <= i < |rows| && rows[i].item == x
    ensures Flagged(rows) == list1 - list2
    ensures Unflagged(rows) == list1 * list2
  {
    var sortedList := SortedListOf(list1);
    rows := [];
    var i := 0;
    while i < |sortedList|
      invariant 0 <= i <= |sortedList|
      invariant RowsFor(sortedList[..i], list2, rows)
    {
      var item := sortedList[i];
      var isUnique := item !in list2;
      var displayName := DisplayName(item);
      RowsForStep(sortedList, i, list2, rows);
      rows := rows + [ComparisonRow(item, displayName, isUnique)];
      i := i + 1;
    }
    assert sortedList[..i] == sortedList;
    RowsFlagging(sortedList, list1, list2, rows);
    RowsOrdered(sortedList, list2, rows);
  }

  lemma RowsForStep(sortedList: seq<string>, i: nat, other: set<string>, rows: seq<ComparisonRow>)
    requires i < |sortedList| && RowsFor(sortedList[..i], other, rows)
    ensures RowsFor(sortedList[..i + 1], other,
      rows + [ComparisonRow(sortedList[i], DisplayName(sortedList[i]), sortedList[i] !in other)])
  {
    assert sortedList[..i + 1] == sortedList[..i] + [sortedList[i]];
  }

  lemma RowsOrdered(sortedList: seq<string>, other: set<string>, rows: seq<ComparisonRow>)
    requires RowsFor(sortedList, other, rows)
    requires Sorted(sortedList) && NoDuplicates(sortedList)
    ensures forall i, j :: 0 <= i < j < |rows| ==> LessEq(rows[i].item, rows[j].item) && rows[i].item != rows[j].item
  {
    forall i, j | 0 <= i < j < |rows| ensures LessEq(rows[i].item, rows[j].item) && rows[i].item != rows[j].item {
      assert rows[i].item == sortedList[i] && rows[j].item == sortedList[j];
    }
  }

  /** `rows` renders `sortedList` against `other`, one row per item, in order. */
  ghost predicate RowsFor(sortedList: seq<string>, other: set<string>, rows: seq<ComparisonRow>) {
    |rows| == |sortedList| &&
    forall k :: 0 <= k < |rows| ==> rows[k] == ComparisonRow(sortedList[k], DisplayName(sortedList[k]), sortedList[k] !in other)
  }

  lemma RowsFlagging(sortedList: seq<string>, list1: set<string>, list2: set<string>, rows: seq<ComparisonRow>)
    requires RowsFor(sortedList, list2, rows)
    requires forall x :: x in sortedList <==> x in list1
    ensures forall x :: x in list1 <==> exists i :: 0 <= i < |rows| && rows[i].item == x
    ensures Flagged(rows) == list1 - list2
    ensures Unflagged(rows) == list1 * list2
  {
    RowsCover(sortedList, list1, list2, rows);
    FlaggedRows(sortedList, list1, list2, rows);
    UnflaggedRows(sortedList, list1, list2, rows);
  }

  lemma RowsCover(sortedList: seq<string>, list1: set<string>, list2: set<string>, rows: seq<ComparisonRow>)
    requires RowsFor(sortedList, list2, rows)
    requires forall x :: x in sortedList <==> x in list1
    ensures forall x :: x in list1 <==> exists i :: 0 <= i < |rows| && rows[i].item == x
  {
    forall x ensures x in list1 <==> exists k :: 0 <= k < |rows| && rows[k].item == x {
      if x in list1 {
        var k :| 0 <= k < |sortedList| && sortedList[k] == x;
        assert rows[k].item == x;
      }
    }
  }

  lemma FlaggedRows(sortedList: seq<string>, list1: set<string>, list2: set<string>, rows: seq<ComparisonRow>)
    requires RowsFor(sortedList, list2, rows)
    requires forall x :: x in sortedList <==> x in list1
    ensures Flagged(rows) == list1 - list2
  {
    forall x | x in list1 - list2 ensures x in Flagged(rows) {
      var k :| 0 <= k < |sortedList| && sortedList[k] == x;
      assert rows[k].item == x && rows[k].isUnique;
    }
  }

  lemma UnflaggedRows(sortedList: seq<string>, list1: set<string>, list2: set<string>, rows: seq<ComparisonRow>)
    requires RowsFor(sortedList, list2, rows)
    requires forall x :: x in sortedList <==> x in list1
    ensures Unflagged(rows) == list1 * list2
  {
    forall x | x in list1 * list2 ensures x in Unflagged(rows) {
      var k :| 0 <= k < |sortedList| && sortedList[k] == x;
      assert rows[k].item == x && !rows[k].isUnique;
    }
  }

  /** The recommendation: the lower score is safer; equal scores are similar. */
  function Recommendation(app1: AppInfo, app2: AppInfo): (r: string)
    ensures app1.riskScore < app2.riskScore ==> r == app1.appName + " is safer than " + app2.appName
    ensures app2.riskScore < app1.riskScore ==> r == app2.appName + " is safer than " + app1.appName
    ensures app1.riskScore == app2.riskScore ==> r == SIMILAR_MESSAGE
  {
    if app1.riskScore < app2.riskScore then app1.appName + " is safer than " + app2.appName
    else if app2.riskScore < app1.riskScore then app2.appName + " is safer than " + app1.appName
    else SIMILAR_MESSAGE
  }

  /** Whichever way round the two apps come, the one with the strictly lower score is named safer. */
  lemma RecommendationNamesLowerScore(app1: AppInfo, app2: AppInfo, safer: AppInfo, riskier: AppInfo)
    requires {safer, riskier} == {app1, app2}
    requires safer.riskScore < riskier.riskScore
    ensures Recommendation(app1, app2) == safer.appName + " is safer than " + riskier.appName
  {
    assert safer in {app1, app2} && riskier in {app1, app2};
    assert app1 in {safer, riskier} && app2 in {safer, riskier};
  }

  /**
   * The rule does not depend on which app is selected first, and trackers never
   * break a tie: two apps of equal score are similar whatever their trackers.
   */
  lemma RecommendationSymmetric(app1: AppInfo, app2: AppInfo, trackers: seq<string>)
    ensures Recommendation(app1, app2) == Recommendation(app2, app1)
    ensures Recommendation(app1.(detectedTrackers := trackers), app2) == Recommendation(app1, app2)
  {
  }

  /**
   * The compare button: the comparison runs only when both apps are selected;
   * each side's highlighted items are the ones the other side lacks, so the two
   * sides' highlights are disjoint and together make the symmetric difference.
   */
  method PerformComparison(appInfo1: Option<AppInfo>, appInfo2: Option<AppInfo>) returns (outcome: CompareOutcome)
    ensures outcome.Compared? <==> appInfo1.Some? && appInfo2.Some?
    ensures outcome.SelectTwoApps? ==> outcome.toast == "Please select two apps to compare."
    ensures outcome.Compared? ==>
      var a1, a2 := appInfo1.value, appInfo2.value;
      var p1, p2 := PermissionNames(a1.dangerousPermissions), PermissionNames(a2.dangerousPermissions);
      var t1, t2 := TrackerSet(a1.detectedTrackers), TrackerSet(a2.detectedTrackers);
      && outcome.app1Score == "Risk: " + NatToString(a1.riskScore)
      && outcome.app2Score == "Risk: " + NatToString(a2.riskScore)
      && Flagged(outcome.app1Permissions) == p1 - p2 && Unflagged(outcome.app1Permissions) == p1 * p2
      && Flagged(outcome.app2Permissions) == p2 - p1 && Unflagged(outcome.app2Permissions) == p1 * p2
      && Flagged(outcome.app1Trackers) == t1 - t2 && Unflagged(outcome.app1Trackers) == t1 * t2
      && Flagged(outcome.app2Trackers) == t2 - t1 && Unflagged(outcome.app2Trackers) == t1 * t2
      && Flagged(outcome.app1Permissions) !! Flagged(outcome.app2Permissions)
      && Flagged(outcome.app1Permissions) + Flagged(outcome.app2Permissions) == (p1 - p2) + (p2 - p1)
      && Flagged(outcome.app1Trackers) !! Flagged(outcome.app2Trackers)
      && Flagged(outcome.app1Trackers) + Flagged(outcome.app2Trackers) == (t1 - t2) + (t2 - t1)
      && |outcome.app1Permissions| == |p1| && |outcome.app2Permissions| == |p2|
      && |outcome.app1Trackers| == |t1| && |outcome.app2Trackers| == |t2|
      && outcome.recommendation == Recommendation(a1, a2)
  {
    if appInfo1.None? || appInfo2.None? {
      return SelectTwoApps("Please select two apps to compare.");
    }
    var a1, a2 := appInfo1.value, appInfo2.value;
    var app1Perms := PermissionNames(a1.dangerousPermissions);
    var app2Perms := PermissionNames(a2.dangerousPermissions);
    var app1PermRows := CompareAndDisplayLists(app1Perms, app2Perms);
    var app2PermRows := CompareAndDisplayLists(app2Perms, app1Perms);
    var app1Trackers := TrackerSet(a1.detectedTrackers);
    var app2Trackers := TrackerSet(a2.detectedTrackers);
    var app1TrackerRows := CompareAndDisplayLists(app1Trackers, app2Trackers);
    var app2TrackerRows := CompareAndDisplayLists(app2Trackers, app1Trackers);
    var recommendation;
    if a1.riskScore < a2.riskScore {
      recommendation := a1.appName + " is safer than " + a2.appName;
    } else if a2.riskScore < a1.riskScore {
      recommendation := a2.appName + " is safer than " + a1.appName;
    } else {
      recommendation := SIMILAR_MESSAGE;
    }
    outcome := Compared(
      "Risk: " + NatToString(a1.riskScore), "Risk: " + NatToString(a2.riskScore),
      app1PermRows, app2PermRows, app1TrackerRows, app2TrackerRows, recommendation);
  }
}
