/**
 * The reports screen (ReportsActivity.java): the aggregate report over every
 * user app, ordered by descending risk score; the detailed report of one app;
 * and the guard both share buttons apply to the stored report.
 *
 * The report texts are specified the way the screen builds them: each
 * function appends to the text built so far, piece by piece.
 */
module Reports {
  import opened Wrappers
  import opened Text
  import opened Risk
  import opened ScoreOrder
  import opened NameOrder

  const LOADING_MESSAGE := "Loading app data, please wait..."
  const GENERATING_MESSAGE := "Generating summary report..."
  const SELECT_APP_MESSAGE := "Please select an app to generate a detailed report."
  const SHARE_REFUSED_MESSAGE := "Please generate a report first."
  const REPORT_PREFIX := "PrivacyScope - "

  /** The three header lines of the aggregate report, then a blank line. */
  function AllAppsHeader(timestamp: string): string {
    "PrivacyScope - All Apps Summary Report\n" + "Generated on: " + timestamp + "\n"
    + "====================================\n\n"
  }

  /** Appends the block of one app: four lines and a blank line. */
  function AppendSummary(sb: string, app: AppInfo): string {
    sb + "App: " + app.appName + "\n"
    + "  - Risk Score: " + NatToString(app.riskScore) + " (" + LevelName(app.riskLevel) + ")\n"
    + "  - Permissions: " + NatToString(|app.dangerousPermissions|) + "\n"
    + "  - Trackers: " + NatToString(|app.detectedTrackers|) + "\n\n"
  }

  /** Appends the blocks of `apps`, in list order. */
  function AppendSummaries(sb: string, apps: seq<AppInfo>): string {
    if apps == [] then sb else AppendSummary(AppendSummaries(sb, apps[..|apps| - 1]), apps[|apps| - 1])
  }

  /** The aggregate report: the header, then one block per app of a score-sorted copy. */
  function AllAppsReport(timestamp: string, apps: seq<AppInfo>): string {
    AppendSummaries(AllAppsHeader(timestamp), SortByScore(apps))
  }

  /** Appends a permission's line: the segment of its name after the last dot. */
  function AppendPermissionLine(sb: string, permission: PermissionDetail): string {
    sb + "- " + AfterLastDot(permission.name) + "\n"
  }

  function AppendPermissionLines(sb: string, permissions: seq<PermissionDetail>): string {
    if permissions == [] then sb
    else AppendPermissionLine(AppendPermissionLines(sb, permissions[..|permissions| - 1]), permissions[|permissions| - 1])
  }

  function AppendTrackerLine(sb: string, tracker: string): string {
    sb + "- " + tracker + "\n"
  }

  function AppendTrackerLines(sb: string, trackers: seq<string>): string {
    if trackers == [] then sb else AppendTrackerLine(AppendTrackerLines(sb, trackers[..|trackers| - 1]), trackers[|trackers| - 1])
  }

  function PermissionHeader(sb: string, permissions: seq<PermissionDetail>): string {
    sb + "--- Dangerous Permissions (" + NatToString(|permissions|) + ") ---\n"
  }

  function TrackerHeader(sb: string, trackers: seq<string>): string {
    sb + "--- Trackers Detected (" + NatToString(|trackers|) + ") ---\n"
  }

  /** The permission section: its count, then "None" or one line per permission, then a blank line. */
  function AppendPermissionSection(sb: string, permissions: seq<PermissionDetail>): string {
    var withHeader := PermissionHeader(sb, permissions);
    (if permissions == [] then withHeader + "None\n" else AppendPermissionLines(withHeader, permissions)) + "\n"
  }

  /** The tracker section: its count, then "None" or one line per tracker, then a blank line. */
  function AppendTrackerSection(sb: string, trackers: seq<string>): string {
    var withHeader := TrackerHeader(sb, trackers);
    (if trackers == [] then withHeader + "None\n" else AppendTrackerLines(withHeader, trackers)) + "\n"
  }

  const SINGLE_APP_TITLE := "PrivacyScope - Single App Detailed Report\n"

  /** Appends the rule and the identification lines of the detailed report. */
  function AppendAppDetails(sb: string, app: AppInfo): string {
    sb + "====================================\n\n"
    + "App Name: " + app.appName + "\n"
    + "Package: " + app.packageName + "\n"
    + "Risk Score: " + NatToString(app.riskScore) + " (" + LevelName(app.riskLevel) + ")\n\n"
  }

  /** The detailed report of one app. */
  function SingleAppReport(app: AppInfo): string {
    var header := AppendAppDetails(SINGLE_APP_TITLE, app);
    AppendTrackerSection(AppendPermissionSection(header, app.dangerousPermissions), app.detectedTrackers)
  }

  /** Both share buttons proceed only with a stored, non-empty report that is not a prompt. */
  predicate ShareAllowed(content: Option<string>) {
    content.Some? && content.value != "" && !StartsWith(content.value, "Please select")
  }

  /** What pressing a share button leads to. */
  datatype ShareOutcome =
    | Refused(toast: string)
    | Chooser(title: string, mimeType: string, payload: string)
    | PdfNotCreated

  /** The text share button: the report itself goes out as plain text. */
  function ShareAsText(content: Option<string>): (outcome: ShareOutcome)
    ensures outcome.Refused? <==> !ShareAllowed(content)
    ensures outcome.Refused? ==> outcome.toast == SHARE_REFUSED_MESSAGE
    ensures outcome.Chooser? ==> outcome.mimeType == "text/plain" && outcome.payload == content.value
    ensures !outcome.PdfNotCreated?
  {
    if !ShareAllowed(content) then Refused(SHARE_REFUSED_MESSAGE)
    else Chooser("Share Report Via", "text/plain", content.value)
  }

  /**
   * The PDF share button. `pdfFile` is the file the renderer wrote, or `None`
   * when writing failed; a refused report never reaches the renderer.
   */
  function ShareAsPdf(content: Option<string>, pdfFile: Option<string>): (outcome: ShareOutcome)
    ensures outcome.Refused? <==> !ShareAllowed(content)
    ensures outcome.Refused? ==> outcome.toast == SHARE_REFUSED_MESSAGE
    ensures outcome.PdfNotCreated? <==> ShareAllowed(content) && pdfFile.None?
    ensures outcome.Chooser? ==> outcome.mimeType == "application/pdf" && Some(outcome.payload) == pdfFile
  {
    if !ShareAllowed(content) then Refused(SHARE_REFUSED_MESSAGE)
    else if pdfFile.None? then PdfNotCreated
    else Chooser("Share PDF Report Via", "application/pdf", pdfFile.value)
  }

  // Appending never changes what was built before.

  lemma AppendSummaryKeepsPrefix(sb: string, app: AppInfo)
    ensures StartsWith(AppendSummary(sb, app), sb)
  {
  }

  lemma {:induction false} AppendSummariesKeepsPrefix(sb: string, apps: seq<AppInfo>)
    ensures StartsWith(AppendSummaries(sb, apps), sb)
    decreases |apps|
  {
    if apps != [] {
      var before := AppendSummaries(sb, apps[..|apps| - 1]);
      AppendSummariesKeepsPrefix(sb, apps[..|apps| - 1]);
      AppendSummaryKeepsPrefix(before, apps[|apps| - 1]);
      StartsWithTransitive(AppendSummary(before, apps[|apps| - 1]), before, sb);
    }
  }

  lemma {:induction false} AppendPermissionLinesKeepsPrefix(sb: string, permissions: seq<PermissionDetail>)
    ensures StartsWith(AppendPermissionLines(sb, permissions), sb)
    decreases |permissions|
  {
    if permissions != [] {
      var before := AppendPermissionLines(sb, permissions[..|permissions| - 1]);
      AppendPermissionLinesKeepsPrefix(sb, permissions[..|permissions| - 1]);
      StartsWithAppend(before, "- " + AfterLastDot(permissions[|permissions| - 1].name) + "\n", sb);
      assert AppendPermissionLine(before, permissions[|permissions| - 1])
        == before + ("- " + AfterLastDot(permissions[|permissions| - 1].name) + "\n");
    }
  }

  lemma {:induction false} AppendTrackerLinesKeepsPrefix(sb: string, trackers: seq<string>)
    ensures StartsWith(AppendTrackerLines(sb, trackers), sb)
    decreases |trackers|
  {
    if trackers != [] {
      var before := AppendTrackerLines(sb, trackers[..|trackers| - 1]);
      AppendTrackerLinesKeepsPrefix(sb, trackers[..|trackers| - 1]);
      StartsWithAppend(before, "- " + trackers[|trackers| - 1] + "\n", sb);
      assert AppendTrackerLine(before, trackers[|trackers| - 1]) == before + ("- " + trackers[|trackers| - 1] + "\n");
    }
  }

  lemma SectionsKeepPrefix(sb: string, permissions: seq<PermissionDetail>, trackers: seq<string>)
    ensures StartsWith(AppendPermissionSection(sb, permissions), sb)
    ensures StartsWith(AppendTrackerSection(sb, trackers), sb)
  {
    var p := PermissionHeader(sb, permissions);
    assert StartsWith(p, sb);
    if permissions != [] {
      AppendPermissionLinesKeepsPrefix(p, permissions);
      StartsWithTransitive(AppendPermissionLines(p, permissions), p, sb);
      StartsWithAppend(AppendPermissionLines(p, permissions), "\n", sb);
    }
    var t := TrackerHeader(sb, trackers);
    assert StartsWith(t, sb);
    if trackers != [] {
      AppendTrackerLinesKeepsPrefix(t, trackers);
      StartsWithTransitive(AppendTrackerLines(t, trackers), t, sb);
      StartsWithAppend(AppendTrackerLines(t, trackers), "\n", sb);
    }
  }

  lemma AppendAppDetailsKeepsPrefix(sb: string, app: AppInfo)
    ensures StartsWith(AppendAppDetails(sb, app), sb)
  {
  }

  /** The aggregate report opens with the product name. */
  lemma AllAppsReportStartsWithProductName(timestamp: string, apps: seq<AppInfo>)
    ensures StartsWith(AllAppsReport(timestamp, apps), REPORT_PREFIX)
  {
    var h := AllAppsHeader(timestamp);
    assert h[..15] == REPORT_PREFIX;
    AppendSummariesKeepsPrefix(h, SortByScore(apps));
    StartsWithTransitive(AllAppsReport(timestamp, apps), h, REPORT_PREFIX);
  }

  /** The detailed report opens with the product name. */
  lemma SingleAppReportStartsWithProductName(app: AppInfo)
    ensures StartsWith(SingleAppReport(app), REPORT_PREFIX)
  {
    var header := AppendAppDetails(SINGLE_APP_TITLE, app);
    assert SINGLE_APP_TITLE[..15] == REPORT_PREFIX;
    AppendAppDetailsKeepsPrefix(SINGLE_APP_TITLE, app);
    StartsWithTransitive(header, SINGLE_APP_TITLE, REPORT_PREFIX);
    var withPermissions := AppendPermissionSection(header, app.dangerousPermissions);
    SectionsKeepPrefix(header, app.dangerousPermissions, app.detectedTrackers);
    SectionsKeepPrefix(withPermissions, app.dangerousPermissions, app.detectedTrackers);
    StartsWithTransitive(withPermissions, header, REPORT_PREFIX);
    StartsWithTransitive(SingleAppReport(app), withPermissions, REPORT_PREFIX);
  }

  /**
   * A report that opens with the product name passes the share guard; an empty
   * or missing one does not. So on every report the screen stores the guard
   * amounts to "a report has been generated".
   */
  lemma ShareGuardOnReports(content: Option<string>)
    requires content.None? || content.value == "" || StartsWith(content.value, REPORT_PREFIX)
    ensures ShareAllowed(content) <==> content.Some? && content.value != ""
  {
    if content.Some? && StartsWith(content.value, REPORT_PREFIX) {
      assert content.value[1] == 'r';
      assert "Please select"[1] == 'l';
    }
  }

  /** Every report the screen generates can be shared. */
  lemma GeneratedReportsShareable(timestamp: string, apps: seq<AppInfo>, app: AppInfo)
    ensures ShareAllowed(Some(AllAppsReport(timestamp, apps)))
    ensures ShareAllowed(Some(SingleAppReport(app)))
  {
    AllAppsReportStartsWithProductName(timestamp, apps);
    SingleAppReportStartsWithProductName(app);
    ShareGuardOnReports(Some(AllAppsReport(timestamp, apps)));
    ShareGuardOnReports(Some(SingleAppReport(app)));
  }

  /** Appending the blocks of two lists is appending those of the first, then of the second. */
  lemma {:induction false} AppendSummariesConcat(sb: string, a: seq<AppInfo>, b: seq<AppInfo>)
    ensures AppendSummaries(sb, a + b) == AppendSummaries(AppendSummaries(sb, a), b)
    decreases |b|
  {
    if b == [] {
      assert a + b == a;
    } else {
      assert (a + b)[..|a + b| - 1] == a + b[..|b| - 1];
      AppendSummariesConcat(sb, a, b[..|b| - 1]);
    }
  }

  /** The block of entry `k` follows the blocks of the entries before it. */
  lemma AppendSummariesAt(sb: string, apps: seq<AppInfo>, k: nat)
    requires k < |apps|
    ensures AppendSummaries(sb, apps) == AppendSummaries(AppendSummary(AppendSummaries(sb, apps[..k]), apps[k]), apps[k + 1..])
  {
    assert apps == apps[..k] + [apps[k]] + apps[k + 1..];
    AppendSummariesConcat(sb, apps[..k] + [apps[k]], apps[k + 1..]);
    AppendSummariesConcat(sb, apps[..k], [apps[k]]);
    assert [apps[k]][..0] == [];
  }

  /**
   * The aggregate report has one block per app of the score-sorted list, in
   * that order, and the sorted list is a stable, descending permutation.
   */
  lemma AllAppsReportBlocks(timestamp: string, apps: seq<AppInfo>)
    ensures
      var sorted := SortByScore(apps);
      forall k :: 0 <= k < |sorted| ==>
        AllAppsReport(timestamp, apps) ==
          AppendSummaries(AppendSummary(AppendSummaries(AllAppsHeader(timestamp), sorted[..k]), sorted[k]), sorted[k + 1..])
    ensures DescendingByScore(SortByScore(apps)) && multiset(SortByScore(apps)) == multiset(apps)
    ensures forall k: nat :: WithScore(SortByScore(apps), k) == WithScore(apps, k)
  {
    var sorted := SortByScore(apps);
    forall k | 0 <= k < |sorted| ensures
      AllAppsReport(timestamp, apps) ==
        AppendSummaries(AppendSummary(AppendSummaries(AllAppsHeader(timestamp), sorted[..k]), sorted[k]), sorted[k + 1..])
    {
      AppendSummariesAt(AllAppsHeader(timestamp), sorted, k);
    }
    SortByScoreCorrect(apps);
  }

  /** Filtering by score keeps only members of the list, each of that score. */
  lemma {:induction false} WithScoreMembers(apps: seq<AppInfo>, k: nat)
    ensures forall x :: x in WithScore(apps, k) ==> x in apps[..] && x.riskScore == k
    decreases |apps|
  {
    if apps != [] {
      WithScoreMembers(apps[1..], k);
    }
  }

  /** Filtering a name-ordered list by score leaves it name-ordered. */
  lemma {:induction false} WithScoreKeepsNameOrder(apps: seq<AppInfo>, k: nat)
    requires AscendingByName(apps)
    ensures AscendingByName(WithScore(apps, k))
    decreases |apps|
  {
    if apps != [] {
      WithScoreKeepsNameOrder(apps[1..], k);
      WithScoreMembers(apps[1..], k);
      var rest := WithScore(apps[1..], k);
      forall j | 0 <= j < |rest| ensures NameLessEq(apps[0], rest[j]) {
        assert rest[j] in apps[1..];
      }
    }
  }

  /**
   * Over a list the loader has sorted by label, the aggregate report lists the
   * apps of any one score in label order.
   */
  lemma ReportTiesInNameOrder(apps: seq<AppInfo>, k: nat)
    ensures AscendingByName(WithScore(SortByScore(SortByName(apps)), k))
  {
    SortByNameOrdered(apps);
    SortByScoreStable(SortByName(apps), k);
    WithScoreKeepsNameOrder(SortByName(apps), k);
  }

  /** Scores [40, 85, 40] are reported as 85, then the first 40, then the second 40. */
  lemma StableReportExample(timestamp: string, a: AppInfo, b: AppInfo, c: AppInfo)
    requires a.riskScore == 40 && b.riskScore == 85 && c.riskScore == 40
    ensures AllAppsReport(timestamp, [a, b, c]) == AppendSummary(AppendSummary(AppendSummary(AllAppsHeader(timestamp), b), a), c)
  {
    StableExample(a, b, c);
    var h := AllAppsHeader(timestamp);
    assert [b][..0] == [];
    assert AppendSummaries(h, [b]) == AppendSummary(h, b);
    assert [b, a][..1] == [b];
    assert AppendSummaries(h, [b, a]) == AppendSummary(AppendSummary(h, b), a);
    assert [b, a, c][..2] == [b, a];
  }

  /** Appending the lines of two lists is appending those of the first, then of the second. */
  lemma {:induction false} AppendPermissionLinesConcat(sb: string, a: seq<PermissionDetail>, b: seq<PermissionDetail>)
    ensures AppendPermissionLines(sb, a + b) == AppendPermissionLines(AppendPermissionLines(sb, a), b)
    decreases |b|
  {
    if b == [] {
      assert a + b == a;
    } else {
      assert (a + b)[..|a + b| - 1] == a + b[..|b| - 1];
      AppendPermissionLinesConcat(sb, a, b[..|b| - 1]);
    }
  }

  lemma {:induction false} AppendTrackerLinesConcat(sb: string, a: seq<string>, b: seq<string>)
    ensures AppendTrackerLines(sb, a + b) == AppendTrackerLines(AppendTrackerLines(sb, a), b)
    decreases |b|
  {
    if b == [] {
      assert a + b == a;
    } else {
      assert (a + b)[..|a + b| - 1] == a + b[..|b| - 1];
      AppendTrackerLinesConcat(sb, a, b[..|b| - 1]);
    }
  }

  /** The line of permission `k` follows the lines of the permissions before it. */
  lemma PermissionLinesAt(sb: string, permissions: seq<PermissionDetail>, k: nat)
    requires k < |permissions|
    ensures AppendPermissionLines(sb, permissions) ==
      AppendPermissionLines(AppendPermissionLine(AppendPermissionLines(sb, permissions[..k]), permissions[k]), permissions[k + 1..])
  {
    assert permissions == permissions[..k] + [permissions[k]] + permissions[k + 1..];
    AppendPermissionLinesConcat(sb, permissions[..k] + [permissions[k]], permissions[k + 1..]);
    AppendPermissionLinesConcat(sb, permissions[..k], [permissions[k]]);
    assert [permissions[k]][..0] == [];
  }

  /** The line of tracker `k` follows the lines of the trackers before it. */
  lemma TrackerLinesAt(sb: string, trackers: seq<string>, k: nat)
    requires k < |trackers|
    ensures AppendTrackerLines(sb, trackers) ==
      AppendTrackerLines(AppendTrackerLine(AppendTrackerLines(sb, trackers[..k]), trackers[k]), trackers[k + 1..])
  {
    assert trackers == trackers[..k] + [trackers[k]] + trackers[k + 1..];
    AppendTrackerLinesConcat(sb, trackers[..k] + [trackers[k]], trackers[k + 1..]);
    AppendTrackerLinesConcat(sb, trackers[..k], [trackers[k]]);
    assert [trackers[k]][..0] == [];
  }

  /** A non-empty run of permission lines starts with the first permission's line. */
  lemma {:induction false} PermissionLinesStartWithFirst(sb: string, permissions: seq<PermissionDetail>)
    requires permissions != []
    ensures StartsWith(AppendPermissionLines(sb, permissions), AppendPermissionLine(sb, permissions[0]))
    decreases |permissions|
  {
    var init := permissions[..|permissions| - 1];
    var first := AppendPermissionLine(sb, permissions[0]);
    var whole := AppendPermissionLines(sb, permissions);
    if init == [] {
      assert whole == first by {
        assert AppendPermissionLines(sb, init) == sb;
      }
      assert whole[..|first|] == first;
    } else {
      var prev := AppendPermissionLines(sb, init);
      assert StartsWith(prev, first) by {
        PermissionLinesStartWithFirst(sb, init);
        assert init[0] == permissions[0];
      }
      var line := "- " + AfterLastDot(permissions[|permissions| - 1].name) + "\n";
      assert whole == prev + line by {
        assert whole == AppendPermissionLine(prev, permissions[|permissions| - 1]);
      }
      StartsWithAppend(prev, line, first);
    }
  }

  /** A non-empty run of tracker lines starts with the first tracker's line. */
  lemma {:induction false} TrackerLinesStartWithFirst(sb: string, trackers: seq<string>)
    requires trackers != []
    ensures StartsWith(AppendTrackerLines(sb, trackers), AppendTrackerLine(sb, trackers[0]))
    decreases |trackers|
  {
    var init := trackers[..|trackers| - 1];
    var first := AppendTrackerLine(sb, trackers[0]);
    var whole := AppendTrackerLines(sb, trackers);
    if init == [] {
      assert whole == first by {
        assert AppendTrackerLines(sb, init) == sb;
      }
      assert whole[..|first|] == first;
    } else {
      var prev := AppendTrackerLines(sb, init);
      assert StartsWith(prev, first) by {
        TrackerLinesStartWithFirst(sb, init);
        assert init[0] == trackers[0];
      }
      var line := "- " + trackers[|trackers| - 1] + "\n";
      assert whole == prev + line by {
        assert whole == AppendTrackerLine(prev, trackers[|trackers| - 1]);
      }
      StartsWithAppend(prev, line, first);
    }
  }

  /** Lines read front to back: one "- " line per item, in order. */
  function LinesText(items: seq<string>): string {
    if items == [] then "" else "- " + items[0] + "\n" + LinesText(items[1..])
  }

  /** The segments after the last dot of the permissions' names, in list order. */
  function ShortNames(permissions: seq<PermissionDetail>): (names: seq<string>)
    ensures |names| == |permissions|
    ensures forall k :: 0 <= k < |names| ==> names[k] == AfterLastDot(permissions[k].name)
  {
    seq(|permissions|, k requires 0 <= k < |permissions| => AfterLastDot(permissions[k].name))
  }

  lemma {:induction false} LinesTextSnoc(items: seq<string>, item: string)
    ensures LinesText(items + [item]) == LinesText(items) + ("- " + item + "\n")
    decreases |items|
  {
    if items == [] {
      assert items + [item] == [item];
      assert [item][1..] == [];
    } else {
      assert (items + [item])[1..] == items[1..] + [item];
      LinesTextSnoc(items[1..], item);
    }
  }

  /** The builder's appends leave the text so far followed by one line per tracker, in list order. */
  lemma {:induction false} TrackerLinesAppended(sb: string, trackers: seq<string>)
    ensures AppendTrackerLines(sb, trackers) == sb + LinesText(trackers)
    decreases |trackers|
  {
    if trackers != [] {
      var init, last := trackers[..|trackers| - 1], trackers[|trackers| - 1];
      TrackerLinesAppended(sb, init);
      LinesTextSnoc(init, last);
      assert trackers == init + [last];
    }
  }

  /** A permission's line is the line of its short name. */
  lemma {:induction false} PermissionLinesAsShortNames(sb: string, permissions: seq<PermissionDetail>)
    ensures AppendPermissionLines(sb, permissions) == AppendTrackerLines(sb, ShortNames(permissions))
    decreases |permissions|
  {
    if permissions != [] {
      var init := permissions[..|permissions| - 1];
      PermissionLinesAsShortNames(sb, init);
      assert ShortNames(permissions)[..|permissions| - 1] == ShortNames(init);
    }
  }

  /** The builder's appends leave the text so far followed by one line per permission's short name, in list order. */
  lemma PermissionLinesAppended(sb: string, permissions: seq<PermissionDetail>)
    ensures AppendPermissionLines(sb, permissions) == sb + LinesText(ShortNames(permissions))
  {
    PermissionLinesAsShortNames(sb, permissions);
    TrackerLinesAppended(sb, ShortNames(permissions));
  }

  /**
   * The permission section's body is "None" when the list is empty; otherwise
   * it is one line per permission, in list order, each line following the
   * lines of the permissions before it.
   */
  lemma PermissionSectionBody(sb: string, permissions: seq<PermissionDetail>)
    ensures permissions == [] ==> AppendPermissionSection(sb, permissions) == PermissionHeader(sb, permissions) + "None\n" + "\n"
    ensures permissions != [] ==>
      AppendPermissionSection(sb, permissions) == PermissionHeader(sb, permissions) + LinesText(ShortNames(permissions)) + "\n"
    ensures permissions != [] ==>
      StartsWith(AppendPermissionSection(sb, permissions), AppendPermissionLine(PermissionHeader(sb, permissions), permissions[0]))
    ensures permissions != [] ==> forall k :: 0 <= k < |permissions| ==>
      AppendPermissionSection(sb, permissions) ==
        AppendPermissionLines(AppendPermissionLine(AppendPermissionLines(PermissionHeader(sb, permissions), permissions[..k]), permissions[k]), permissions[k + 1..]) + "\n"
  {
    if permissions != [] {
      var h := PermissionHeader(sb, permissions);
      PermissionLinesAppended(h, permissions);
      PermissionLinesStartWithFirst(h, permissions);
      StartsWithAppend(AppendPermissionLines(h, permissions), "\n", AppendPermissionLine(h, permissions[0]));
      forall k | 0 <= k < |permissions|
        ensures AppendPermissionSection(sb, permissions) ==
          AppendPermissionLines(AppendPermissionLine(AppendPermissionLines(h, permissions[..k]), permissions[k]), permissions[k + 1..]) + "\n"
      {
        PermissionLinesAt(h, permissions, k);
      }
    }
  }

  /**
   * The tracker section's body is "None" when the list is empty; otherwise it
   * is one line per tracker, in list order, each line following the lines of
   * the trackers before it.
   */
  lemma TrackerSectionBody(sb: string, trackers: seq<string>)
    ensures trackers == [] ==> AppendTrackerSection(sb, trackers) == TrackerHeader(sb, trackers) + "None\n" + "\n"
    ensures trackers != [] ==>
      AppendTrackerSection(sb, trackers) == TrackerHeader(sb, trackers) + LinesText(trackers) + "\n"
    ensures trackers != [] ==>
      StartsWith(AppendTrackerSection(sb, trackers), AppendTrackerLine(TrackerHeader(sb, trackers), trackers[0]))
    ensures trackers != [] ==> forall k :: 0 <= k < |trackers| ==>
      AppendTrackerSection(sb, trackers) ==
        AppendTrackerLines(AppendTrackerLine(AppendTrackerLines(TrackerHeader(sb, trackers), trackers[..k]), trackers[k]), trackers[k + 1..]) + "\n"
  {
    if trackers != [] {
      var h := TrackerHeader(sb, trackers);
      TrackerLinesAppended(h, trackers);
      TrackerLinesStartWithFirst(h, trackers);
      StartsWithAppend(AppendTrackerLines(h, trackers), "\n", AppendTrackerLine(h, trackers[0]));
      forall k | 0 <= k < |trackers|
        ensures AppendTrackerSection(sb, trackers) ==
          AppendTrackerLines(AppendTrackerLine(AppendTrackerLines(h, trackers[..k]), trackers[k]), trackers[k + 1..]) + "\n"
      {
        TrackerLinesAt(h, trackers, k);
      }
    }
  }

  /** The text `generateAllAppsReport` builds: the blocks of a sorted copy, one app at a time. */
  method BuildAllAppsReport(timestamp: string, apps: seq<AppInfo>) returns (report: string)
    ensures report == AllAppsReport(timestamp, apps)
  {
    var sortedApps := StableSortByScore(apps);
    var sb := "PrivacyScope - All Apps Summary Report\n";
    sb := sb + "Generated on: " + timestamp + "\n";
    sb := sb + "====================================\n\n";
    var i := 0;
    while i < |sortedApps|
      invariant 0 <= i <= |sortedApps|
      invariant sb == AppendSummaries(AllAppsHeader(timestamp), sortedApps[..i])
    {
      var app := sortedApps[i];
      assert sortedApps[..i + 1][..i] == sortedApps[..i];
      sb := sb + "App: " + app.appName + "\n";
      sb := sb + "  - Risk Score: " + NatToString(app.riskScore) + " (" + LevelName(app.riskLevel) + ")\n";
      sb := sb + "  - Permissions: " + NatToString(|app.dangerousPermissions|) + "\n";
      sb := sb + "  - Trackers: " + NatToString(|app.detectedTrackers|) + "\n\n";
      i := i + 1;
    }
    assert sortedApps[..i] == sortedApps;
    report := sb;
  }

  /** The text `generateSingleAppReport` builds, section by section. */
  method BuildSingleAppReport(app: AppInfo) returns (report: string)
    ensures report == SingleAppReport(app)
  {
    var sb := SINGLE_APP_TITLE;
    sb := sb + "====================================\n\n";
    sb := sb + "App Name: " + app.appName + "\n";
    sb := sb + "Package: " + app.packageName + "\n";
    sb := sb + "Risk Score: " + NatToString(app.riskScore) + " (" + LevelName(app.riskLevel) + ")\n\n";
    ghost var header := sb;
    var permissions := app.dangerousPermissions;
    sb := sb + "--- Dangerous Permissions (" + NatToString(|permissions|) + ") ---\n";
    if permissions == [] {
      sb := sb + "None\n";
    } else {
      ghost var start := sb;
      var i := 0;
      while i < |permissions|
        invariant 0 <= i <= |permissions|
        invariant sb == AppendPermissionLines(start, permissions[..i])
      {
        assert permissions[..i + 1][..i] == permissions[..i];
        sb := sb + "- " + AfterLastDot(permissions[i].name) + "\n";
        i := i + 1;
      }
      assert permissions[..i] == permissions;
    }
    sb := sb + "\n";
    ghost var withPermissions := sb;
    var trackers := app.detectedTrackers;
    sb := sb + "--- Trackers Detected (" + NatToString(|trackers|) + ") ---\n";
    if trackers == [] {
      sb := sb + "None\n";
    } else {
      ghost var start := sb;
      var i := 0;
      while i < |trackers|
        invariant 0 <= i <= |trackers|
        invariant sb == AppendTrackerLines(start, trackers[..i])
      {
        assert trackers[..i + 1][..i] == trackers[..i];
        sb := sb + "- " + trackers[i] + "\n";
        i := i + 1;
      }
      assert trackers[..i] == trackers;
    }
    sb := sb + "\n";
    assert header == AppendAppDetails(SINGLE_APP_TITLE, app);
    assert withPermissions == AppendPermissionSection(header, permissions);
    report := sb;
  }

  /**
   * The reports screen: the loaded apps, whether the loading indicator is
   * shown, the app picked in the selection dialog, the text in the report
   * view, and the stored report the share buttons send (`None` until the
   * first report).
   */
  class ReportsScreen {
    var allApps: seq<AppInfo>
    var loadingVisible: bool
    var selectedApp: Option<AppInfo>
    var reportText: string
    var reportContent: Option<string>

    /** The stored report is always a generated report or empty. */
    ghost predicate Valid()
      reads this
    {
      reportContent.None? || reportContent.value == "" || StartsWith(reportContent.value, REPORT_PREFIX)
    }

    /** The screen as `onCreate` leaves it: the app list is being loaded. */
    constructor()
      ensures Valid()
      ensures allApps == [] && loadingVisible && selectedApp.None? && reportContent.None?
    {
      allApps := [];
      loadingVisible := true;
      selectedApp := None;
      reportText := "";
      reportContent := None;
    }

    /**
     * The aggregate report. While the list is still empty and loading is shown,
     * only a waiting message appears and the stored report is kept; otherwise
     * the report of a sorted copy is stored and shown, and the list is unchanged.
     */
    method GenerateAllAppsReport(timestamp: string)
      requires Valid()
      modifies this
      ensures Valid()
      ensures allApps == old(allApps) && loadingVisible == old(loadingVisible) && selectedApp == old(selectedApp)
      ensures old(allApps) == [] && old(loadingVisible) ==>
        reportText == LOADING_MESSAGE && reportContent == old(reportContent)
      ensures !(old(allApps) == [] && old(loadingVisible)) ==>
        reportContent == Some(AllAppsReport(timestamp, allApps)) && reportText == reportContent.value
    {
      reportText := GENERATING_MESSAGE;
      if allApps == [] && loadingVisible {
        reportText := LOADING_MESSAGE;
        return;
      }
      var report := BuildAllAppsReport(timestamp, allApps);
      AllAppsReportStartsWithProductName(timestamp, allApps);
      reportContent := Some(report);
      reportText := report;
    }

    /** The detailed report of `app`, stored and shown. */
    method GenerateSingleAppReport(app: AppInfo)
      requires Valid()
      modifies this
      ensures Valid()
      ensures allApps == old(allApps) && loadingVisible == old(loadingVisible) && selectedApp == old(selectedApp)
      ensures reportContent == Some(SingleAppReport(app)) && reportText == reportContent.value
    {
      var report := BuildSingleAppReport(app);
      SingleAppReportStartsWithProductName(app);
      reportContent := Some(report);
      reportText := report;
    }

    /**
     * Loading the user apps (`loadAllApps` and its completion on the UI thread):
     * the profiles replace the list, the indicator is hidden and the aggregate
     * report is generated. The loader sorts the profiles by label first.
     */
    method LoadAllApps(pm: PackageManager, packages: seq<PackageInfo>, timestamp: string)
      requires Valid()
      modifies this
      ensures Valid()
      ensures allApps == SortByName(UserAppProfiles(pm, packages)) && !loadingVisible && selectedApp == old(selectedApp)
      ensures reportContent == Some(AllAppsReport(timestamp, allApps)) && reportText == reportContent.value
    {
      var scanned := ScanUserApps(pm, packages);
      allApps := SortByName(scanned);
      loadingVisible := false;
      GenerateAllAppsReport(timestamp);
    }

    /** The "all apps" chip hides the indicator first, so it always yields the aggregate report. */
    method SelectAllAppsChip(timestamp: string)
      requires Valid()
      modifies this
      ensures Valid()
      ensures allApps == old(allApps) && !loadingVisible && selectedApp == old(selectedApp)
      ensures reportContent == Some(AllAppsReport(timestamp, allApps)) && reportText == reportContent.value
    {
      loadingVisible := false;
      GenerateAllAppsReport(timestamp);
    }

    /**
     * The "single app" chip: the picked app's report, or a prompt with an empty
     * stored report, which the share guard then refuses.
     */
    method SelectSingleAppChip()
      requires Valid()
      modifies this
      ensures Valid()
      ensures allApps == old(allApps) && loadingVisible == old(loadingVisible) && selectedApp == old(selectedApp)
      ensures selectedApp.Some? ==> reportContent == Some(SingleAppReport(selectedApp.value)) && reportText == reportContent.value
      ensures selectedApp.None? ==> reportText == SELECT_APP_MESSAGE && reportContent == Some("")
      ensures selectedApp.None? ==> ShareAsText(reportContent).Refused?
    {
      if selectedApp.Some? {
        GenerateSingleAppReport(selectedApp.value);
      } else {
        reportText := SELECT_APP_MESSAGE;
        reportContent := Some("");
      }
    }

    /** Picking an app in the selection dialog records it and shows its report. */
    method PickApp(app: AppInfo)
      requires Valid()
      modifies this
      ensures Valid()
      ensures allApps == old(allApps) && loadingVisible == old(loadingVisible) && selectedApp == Some(app)
      ensures reportContent == Some(SingleAppReport(app)) && reportText == reportContent.value
    {
      selectedApp := Some(app);
      GenerateSingleAppReport(app);
    }
  }
}
