# PrivacyScope risk engine in Dafny

PrivacyScope is an Android app that scores the privacy risk of every
user-installed application. This project models its risk-analysis engine and
proves properties about it:

- **Risk profile** (`app_info.dfy`, module `Risk`). The `AppInfo` profile of
  a package is built in the constructor's order:
  - the dangerous permissions, in manifest order, skipping identifiers the
    package manager cannot resolve;
  - the risk score, `min(20 * count, 100)`;
  - the risk level (HIGH at 60 or more, MEDIUM at 30 or more, otherwise LOW);
  - the detected trackers: case-sensitive substring matches of receiver
    class names against six signatures, deduplicated and sorted.
- **Orderings.**
  - `score_order.dfy`: the stable sort by descending score used by the
    dashboard and the aggregate report.
  - `name_order.dfy`: the stable sort by label, ignoring case, that the
    loaders apply.
  - `sorting.dfy`: the ascending string sort.
- **Comparison engine** (`comparison.dfy`). For each side, one row per
  permission or tracker, ascending, flagged when the other side lacks it. The
  recommendation is decided by score alone.
- **Reports** (`reports.dfy`):
  - the aggregate report over a score-sorted copy of the list;
  - the detailed single-app report;
  - the share guard both share buttons apply;
  - the report screen's state (loaded list, indicator, selected app, stored
    report) as a class.
- **Alternatives** (`alternatives.dfy`):
  - the offline keyword table;
  - the online candidate filter over an already-parsed catalogue response;
  - the connection trace;
  - the fallback from online to offline;
  - the result screen;
  - the icon URL rule.
- **Dashboard** (`dashboard.dfy`). The scan, the descending sort, the
  per-level counters and the top-five list, as a class with those fields.
- **Detail screen** (`app_detail.dfy`):
  - the package-name guard;
  - the last-used maximum loop over usage entries;
  - `formatTimeAgo` with Java's truncating `long` division;
  - the permission rows with their explanation lookup;
  - the tracker rows;
  - the insight and recommendation rules;
  - the screen's state as a class.
- **Text** (`text.dfy`). String helpers the code relies on: `contains`,
  `lastIndexOf`, ASCII case folding, decimal printing with its round trip,
  and the lexicographic order.

The operating system and the network are inputs:
- the package manager is a value with a protection lookup and a grant check;
- package records carry their requested permissions and receiver names;
- the usage query is a function from a time interval to the OS's entries;
- permission usage times, the usage-access flag, network availability, the
  HTTP exchange, `now` and the report timestamp are parameters.

Where the project's documentation and its code disagree, the model follows the code:
- the score counts permissions only, and trackers never change it;
- the comparison has no tracker tie-break;
- tracker detection has no package-name fallback;
- the Firebase signature reports "Google Analytics".

Two places iterate the permission list as strings although it holds
permission records: ReportsActivity.java:173 and AppDetailActivity.java:126.
They are modelled on each record's name, as ComparisonActivity.java:177-183
does.

## Model

| member | source | states |
|---|---|---|
| Risk.RiskScore | app/src/main/java/com/example/privacyscope/AppInfo.java:108-110 | the score is at most 100 and at most 20 per permission, and equals one of the two |
| Risk.RiskScoreMonotone | app/src/main/java/com/example/privacyscope/AppInfo.java:108-110 | more permissions never give a lower score |
| Risk.RiskLevelOf | app/src/main/java/com/example/privacyscope/AppInfo.java:112-116 | HIGH iff score >= 60; MEDIUM iff 30 <= score < 60; LOW iff score < 30 |
| Risk.LevelBoundaries | app/src/main/java/com/example/privacyscope/AppInfo.java:112-116 | 29 is LOW, 30 and 59 are MEDIUM, 60 is HIGH |
| Risk.LevelByPermissionCount | app/src/main/java/com/example/privacyscope/AppInfo.java:108-116 | 0 or 1 permission gives LOW, 2 give MEDIUM, 3 or more give HIGH |
| Risk.DangerousOf | app/src/main/java/com/example/privacyscope/AppInfo.java:118-134 | the dangerous subset of the request list, in manifest order, each with its grant check; the lemmas below state its properties |
| Risk.DangerousOfConcat | app/src/main/java/com/example/privacyscope/AppInfo.java:118-134 | the filter works entry by entry: filtering a concatenation concatenates the results, so manifest order is kept |
| Risk.UnresolvableSkipped | app/src/main/java/com/example/privacyscope/AppInfo.java:128-130 | an identifier the package manager cannot resolve leaves the filtered list as if it were absent |
| Risk.DangerousOfMembers | app/src/main/java/com/example/privacyscope/AppInfo.java:120-127 | every kept record names a requested dangerous permission and carries its grant check; every requested dangerous permission is kept; the list is no longer than the request list |
| Risk.FetchPermissionDetails | app/src/main/java/com/example/privacyscope/AppInfo.java:118-134 | the loop returns the dangerous records of the request list, in order (an absent request list gives none) |
| Risk.DetectedFrom | app/src/main/java/com/example/privacyscope/AppInfo.java:148-158 | a name is reported iff it is in the table and some non-null receiver name contains its signature |
| Risk.AscendingTableFacts | app/src/main/java/com/example/privacyscope/AppInfo.java:143-146 | the tracker names sorted ascending hold the same six distinct names |
| Risk.DetectedFromOrdered | app/src/main/java/com/example/privacyscope/AppInfo.java:152-159 | detection over an ascending table without duplicates gives an ascending list without duplicates |
| Risk.ExpectedTrackers | app/src/main/java/com/example/privacyscope/AppInfo.java:136-161 | the reference definition for detection: the pre-sorted name table filtered by the receivers; a null array gives the empty list |
| Risk.ExpectedTrackersIsTrackerList | app/src/main/java/com/example/privacyscope/AppInfo.java:148-159 | the expected list is sorted, has no duplicates and holds exactly the detected names |
| Risk.TrackerListUnique | app/src/main/java/com/example/privacyscope/AppInfo.java:152-159 | two sorted duplicate-free lists of the detected names are equal, so detection is deterministic |
| Risk.DetectedFromNothing | app/src/main/java/com/example/privacyscope/AppInfo.java:148 | no receiver array, or an empty one, detects nothing |
| Risk.NoReceiversNoTrackers | app/src/main/java/com/example/privacyscope/AppInfo.java:148 | null or empty receivers give an empty tracker list |
| Risk.DetectTrackers | app/src/main/java/com/example/privacyscope/AppInfo.java:136-161 | the nested loop with its `contains` check, then the sort, yields the unique sorted list of detected names |
| Risk.NewAppInfo | app/src/main/java/com/example/privacyscope/AppInfo.java:41-52 | the constructor builds the profile of the package |
| Risk.ProfileInvariants | app/src/main/java/com/example/privacyscope/AppInfo.java:46-50 | the score comes from the permission count, the level from the score, the trackers are the detected list, and last-used starts at 0 |
| Risk.TrackersDoNotAffectRisk | app/src/main/java/com/example/privacyscope/AppInfo.java:46-49 | changing the receivers changes neither score nor level |
| Risk.ScanUserApps | app/src/main/java/com/example/privacyscope/MainActivity.java:90-97 | the scan keeps the non-system packages, in order, and builds each one's profile |
| Risk.UserAppProfilesMembers | app/src/main/java/com/example/privacyscope/MainActivity.java:90-97 | every scanned app is the profile of a package without the system flag, and every such package has its profile in the scan |
| Sorting.InsertPermutation | app/src/main/java/com/example/privacyscope/ComparisonActivity.java:204-205 | insertion adds exactly one element |
| Sorting.InsertSorted | app/src/main/java/com/example/privacyscope/ComparisonActivity.java:204-205 | insertion keeps a list ascending |
| Sorting.SortStrings | app/src/main/java/com/example/privacyscope/ComparisonActivity.java:204-205 | the sorted copy is an ascending permutation |
| Sorting.SortedUnique | app/src/main/java/com/example/privacyscope/AppInfo.java:159 | two ascending duplicate-free lists with the same elements are equal |
| Sorting.PermutationKeepsNoDuplicates | app/src/main/java/com/example/privacyscope/ComparisonActivity.java:204 | a permutation of a duplicate-free list is duplicate-free |
| ScoreOrder.InsertByScore | app/src/main/java/com/example/privacyscope/MainActivity.java:100 | one insertion step of the stable descending sort: the app goes after every app scoring at least as high; the lemmas below state what the sort yields |
| ScoreOrder.SortByScore | app/src/main/java/com/example/privacyscope/MainActivity.java:100 | the stable descending sort by score, defined by inserting the apps in input order; the same comparator sorts the report's copy at ReportsActivity.java line 142 |
| ScoreOrder.SortByScoreOrdered | app/src/main/java/com/example/privacyscope/MainActivity.java:100 | the sort result is in non-increasing score order and is a permutation |
| ScoreOrder.SortByScoreStable | app/src/main/java/com/example/privacyscope/MainActivity.java:100 | the apps of any one score keep their relative order |
| ScoreOrder.SortByScoreCorrect | app/src/main/java/com/example/privacyscope/ReportsActivity.java:141-142 | the sort result is descending, a permutation and stable |
| ScoreOrder.StableSortByScore | app/src/main/java/com/example/privacyscope/MainActivity.java:100 | the sorting call returns the stable descending sort of its input |
| ScoreOrder.StableExample | app/src/main/java/com/example/privacyscope/ReportsActivity.java:142 | scores [40, 85, 40] come out as 85, the first 40, then the second 40 |
| NameOrder.SortByName | app/src/main/java/com/example/privacyscope/ReportsActivity.java:118 | the stable sort by label ignoring case, defined by inserting the apps in input order; the lemmas below state what it yields |
| NameOrder.SortByNameOrdered | app/src/main/java/com/example/privacyscope/ReportsActivity.java:118 | the loader's sort result is ascending by label ignoring case and is a permutation |
| NameOrder.SortByNameStable | app/src/main/java/com/example/privacyscope/ReportsActivity.java:118 | apps whose labels are equal ignoring case keep their relative order |
| Comparison.DisplayName | app/src/main/java/com/example/privacyscope/ComparisonActivity.java:209 | the label is the part after the last dot, or the whole item when there is none, and holds no dot |
| Comparison.PermissionNames | app/src/main/java/com/example/privacyscope/ComparisonActivity.java:177-183 | the set holds exactly the names of the app's permission records |
| Comparison.TrackerSet | app/src/main/java/com/example/privacyscope/ComparisonActivity.java:187-188 | the set holds exactly the app's trackers |
| Comparison.SortedListOf | app/src/main/java/com/example/privacyscope/ComparisonActivity.java:204-205 | the copied list is ascending, duplicate-free, has the set's size and holds the set's elements |
| Comparison.CompareAndDisplayLists | app/src/main/java/com/example/privacyscope/ComparisonActivity.java:202-212 | one row per element, ascending; a row is flagged iff the other set lacks its item; flagged items are own minus other, unflagged items are the intersection |
| Comparison.RowsFlagging | app/src/main/java/com/example/privacyscope/ComparisonActivity.java:207-210 | rows rendered from the sorted list cover the set exactly and flag exactly the difference |
| Comparison.Recommendation | app/src/main/java/com/example/privacyscope/ComparisonActivity.java:193-199 | the lower score is named safer; equal scores give the similar-profile message |
| Comparison.RecommendationNamesLowerScore | app/src/main/java/com/example/privacyscope/ComparisonActivity.java:193-199 | whichever way round the two apps are selected, the one with the strictly lower score is the one named safer |
| Comparison.RecommendationSymmetric | app/src/main/java/com/example/privacyscope/ComparisonActivity.java:193-199 | the verdict does not depend on which app is selected first, and trackers never change it |
| Comparison.PerformComparison | app/src/main/java/com/example/privacyscope/ComparisonActivity.java:104-110 | comparison runs iff both apps are selected; each side flags its difference, the flags of the two sides are disjoint and together make the symmetric difference, for permissions and trackers; the recommendation is the score rule |
| Reports.ShareAsText | app/src/main/java/com/example/privacyscope/ReportsActivity.java:217-226 | refused with the toast iff the content is null, empty or starts with "Please select"; otherwise a plain-text share of the content |
| Reports.ShareAsPdf | app/src/main/java/com/example/privacyscope/ReportsActivity.java:228-242 | the same guard; otherwise nothing happens when no file was created, and a PDF share of the file when one was |
| Reports.AllAppsReport | app/src/main/java/com/example/privacyscope/ReportsActivity.java:141-154 | the aggregate report: the header, then one block per app of the score-sorted copy; the lemmas about it are listed here |
| Reports.SingleAppReport | app/src/main/java/com/example/privacyscope/ReportsActivity.java:161-189 | the single-app report: the details block, then the permission section, then the tracker section |
| Reports.ShareAllowed | app/src/main/java/com/example/privacyscope/ReportsActivity.java:218 | the share guard: a stored report that is non-empty and does not start with "Please select" |
| Reports.AllAppsReportStartsWithProductName | app/src/main/java/com/example/privacyscope/ReportsActivity.java:145 | the aggregate report starts with the product name |
| Reports.SingleAppReportStartsWithProductName | app/src/main/java/com/example/privacyscope/ReportsActivity.java:163 | the single-app report starts with the product name |
| Reports.ShareGuardOnReports | app/src/main/java/com/example/privacyscope/ReportsActivity.java:218 | on a stored report that is absent, empty or generated, the guard refuses exactly the absent and empty ones |
| Reports.GeneratedReportsShareable | app/src/main/java/com/example/privacyscope/ReportsActivity.java:218 | both generated reports pass the share guard |
| Reports.AllAppsReportBlocks | app/src/main/java/com/example/privacyscope/ReportsActivity.java:141-154 | the report is the header followed by one block per app of the sorted copy, in that order; the copy is a stable descending permutation |
| Reports.ReportTiesInNameOrder | app/src/main/java/com/example/privacyscope/ReportsActivity.java:118 | over a name-sorted list, the apps of any one score appear in the report in label order |
| Reports.StableReportExample | app/src/main/java/com/example/privacyscope/ReportsActivity.java:141-154 | scores [40, 85, 40] are reported as 85, the first 40, then the second 40 |
| Reports.PermissionLinesAppended | app/src/main/java/com/example/privacyscope/ReportsActivity.java:173-175 | the permission loop appends one "- " line per permission, holding the segment of its name after the last dot, in list order |
| Reports.TrackerLinesAppended | app/src/main/java/com/example/privacyscope/ReportsActivity.java:183-185 | the tracker loop appends one "- " line per tracker, in list order |
| Reports.PermissionSectionBody | app/src/main/java/com/example/privacyscope/ReportsActivity.java:169-177 | the counted header, then "None" and a blank line when there are no permissions; otherwise one "- " line per permission with its short name, in list order, then a blank line, and each permission's line follows the lines of those before it |
| Reports.TrackerSectionBody | app/src/main/java/com/example/privacyscope/ReportsActivity.java:179-187 | the counted header, then "None" and a blank line when there are no trackers; otherwise one "- " line per tracker, in list order, then a blank line, and each tracker's line follows the lines of those before it |
| Reports.BuildAllAppsReport | app/src/main/java/com/example/privacyscope/ReportsActivity.java:141-156 | the builder loop over a sorted copy produces the aggregate report |
| Reports.BuildSingleAppReport | app/src/main/java/com/example/privacyscope/ReportsActivity.java:161-189 | the builder produces the single-app report |
| Reports.ReportsScreen.constructor | app/src/main/java/com/example/privacyscope/ReportsActivity.java:59-70 | the screen starts loading with no selection and no stored report |
| Reports.ReportsScreen.GenerateAllAppsReport | app/src/main/java/com/example/privacyscope/ReportsActivity.java:132-159 | while the list is empty and loading is shown, only the waiting message appears; otherwise the report is stored and shown, and the list is unchanged |
| Reports.ReportsScreen.GenerateSingleAppReport | app/src/main/java/com/example/privacyscope/ReportsActivity.java:161-191 | the app's report is stored and shown |
| Reports.ReportsScreen.LoadAllApps | app/src/main/java/com/example/privacyscope/ReportsActivity.java:105-129 | the list becomes the name-sorted profiles of the user apps, the indicator is hidden and the aggregate report is stored |
| Reports.ReportsScreen.SelectAllAppsChip | app/src/main/java/com/example/privacyscope/ReportsActivity.java:85-88 | the all-apps chip always yields the aggregate report |
| Reports.ReportsScreen.SelectSingleAppChip | app/src/main/java/com/example/privacyscope/ReportsActivity.java:89-96 | the single-app chip yields the selected app's report, or the prompt with an empty stored report that sharing refuses |
| Reports.ReportsScreen.PickApp | app/src/main/java/com/example/privacyscope/ReportsActivity.java:204-210 | picking an app records it and shows its report |
| Alternatives.SimulatedAlternatives | app/src/main/java/com/example/privacyscope/AlternativeActivity.java:308-322 | offline suggestions have no icon URL, and there are at most two |
| Alternatives.GetSimulatedAlternatives | app/src/main/java/com/example/privacyscope/AlternativeActivity.java:308-322 | the lowered name is matched in first-match order: messenger, then browser, then instagram, otherwise nothing |
| Alternatives.IconOf | app/src/main/java/com/example/privacyscope/AlternativeActivity.java:293 | an entry's icon path, or the empty string when it has none |
| Alternatives.Candidates | app/src/main/java/com/example/privacyscope/AlternativeActivity.java:287-295 | the candidate loop, entry by entry: a same-named entry is skipped, a missing name or package aborts, any other entry is appended; the lemmas below state what it yields |
| Alternatives.KeptAlternatives | app/src/main/java/com/example/privacyscope/AlternativeActivity.java:287-295 | an independent front-to-back reading: one alternative per kept entry, in the entries' order |
| Alternatives.CandidatesDefined | app/src/main/java/com/example/privacyscope/AlternativeActivity.java:287-295 | the candidate loop succeeds iff every entry has an en-US name and every entry not skipped for its name has a package name |
| Alternatives.CandidatesFiltered | app/src/main/java/com/example/privacyscope/AlternativeActivity.java:287-295 | the result holds exactly the kept entries, none named like the original ignoring case, each with an icon string |
| Alternatives.CandidatesInOrder | app/src/main/java/com/example/privacyscope/AlternativeActivity.java:287-295 | a search that survives the loop yields exactly the front-to-back list: one alternative per kept entry, in the entries' order |
| Alternatives.OnlineAlternatives | app/src/main/java/com/example/privacyscope/AlternativeActivity.java:255-300 | the outcome of the search: no result without network, connection, 200 status or readable body; an empty list without an "apps" array; else the candidate loop; the lemmas about it are listed here |
| Alternatives.ConnectionTrace | app/src/main/java/com/example/privacyscope/AlternativeActivity.java:301-305 | the connection events: opened then disconnected when a network is available and the connection opens, otherwise none |
| Alternatives.FindAlternativesOnline | app/src/main/java/com/example/privacyscope/AlternativeActivity.java:254-306 | the result is the online outcome; a connection is opened iff it is disconnected, the disconnect comes last, and nothing is opened without network; the query is the literal app name |
| Alternatives.CandidatesFailurePersists | app/src/main/java/com/example/privacyscope/AlternativeActivity.java:298-300 | a failure part-way through the loop fails the whole search |
| Alternatives.OnlineFailures | app/src/main/java/com/example/privacyscope/AlternativeActivity.java:255-300 | no network, a non-200 status or an unreadable body gives no result; a missing "apps" array gives an empty list |
| Alternatives.HybridResult | app/src/main/java/com/example/privacyscope/AlternativeActivity.java:183-185 | a non-empty online list is kept unchanged; otherwise the offline list replaces it |
| Alternatives.LoadIconFromUrl | app/src/main/java/com/example/privacyscope/AlternativeActivity.java:236-241 | a remote icon iff the path is present and non-empty, and its URL is the host followed by the path |
| Alternatives.RowOf | app/src/main/java/com/example/privacyscope/AlternativeActivity.java:204-215 | a row shows the alternative's name and package, and the placeholder image iff it has no non-empty icon path |
| Alternatives.NotFoundMessage | app/src/main/java/com/example/privacyscope/AlternativeActivity.java:192 | the empty-result message holds the app name between quotes, followed by a full stop |
| Alternatives.DisplayAlternativeList | app/src/main/java/com/example/privacyscope/AlternativeActivity.java:201-226 | one row per alternative, in order |
| Alternatives.FindAndDisplayAlternatives | app/src/main/java/com/example/privacyscope/AlternativeActivity.java:168-199 | the hybrid result; an opened connection is released, last; an empty final list shows the not-found message with retry hidden; otherwise one row per alternative |
| Alternatives.OfflineOnlyAsFallback | app/src/main/java/com/example/privacyscope/AlternativeActivity.java:183-185 | the offline table is used iff the online list is null or empty |
| Alternatives.OfflineRowsUsePlaceholder | app/src/main/java/com/example/privacyscope/AlternativeActivity.java:210-214 | offline suggestions always show the placeholder icon |
| Alternatives.WhatsAppAlternatives | app/src/main/java/com/example/privacyscope/AlternativeActivity.java:312-314 | "WhatsApp" maps to Signal and Telegram, neither named like it |
| Alternatives.SignalSuggestsItself | app/src/main/java/com/example/privacyscope/AlternativeActivity.java:312-313 | offline results are not filtered: "Signal Messenger" is suggested to itself |
| Alternatives.KeywordOrder | app/src/main/java/com/example/privacyscope/AlternativeActivity.java:312-320 | a name matching two rules takes the first one; "Chrome" maps to the browsers |
| Dashboard.PermissionsOnly | app/src/main/java/com/example/privacyscope/MainActivity.java:87 | the dashboard's query returns the same packages without receiver arrays |
| Dashboard.CountLevel | app/src/main/java/com/example/privacyscope/MainActivity.java:108-115 | the number of apps of one level, never more than the number of apps |
| Dashboard.CountLevelsSum | app/src/main/java/com/example/privacyscope/MainActivity.java:108-115 | high + medium + low equals the number of apps |
| Dashboard.CountLevelPresence | app/src/main/java/com/example/privacyscope/MainActivity.java:108-115 | a counter is positive iff some app has that level |
| Dashboard.CountLevelSorted | app/src/main/java/com/example/privacyscope/MainActivity.java:100 | sorting leaves every counter unchanged |
| Dashboard.Top | app/src/main/java/com/example/privacyscope/MainActivity.java:121-122 | the head of the list holding at most five apps |
| Dashboard.TopShape | app/src/main/java/com/example/privacyscope/MainActivity.java:122 | the top list is a prefix of at most five apps, and all of them when there are fewer |
| Dashboard.TopDominates | app/src/main/java/com/example/privacyscope/MainActivity.java:100-122 | in the sorted list, every top app scores at least as high as every app left out |
| Dashboard.DashboardAppsHaveNoTrackers | app/src/main/java/com/example/privacyscope/MainActivity.java:87 | without receiver arrays, no dashboard app reports a tracker |
| Dashboard.DashboardLevels | app/src/main/java/com/example/privacyscope/MainActivity.java:90-97 | each scanned app is scored from its permissions, so HIGH iff three or more |
| Dashboard.DashboardScreen.constructor | app/src/main/java/com/example/privacyscope/MainActivity.java:29-30 | the screen starts with an empty app list and an empty top list |
| Dashboard.DashboardScreen.UpdateDashboardUI | app/src/main/java/com/example/privacyscope/MainActivity.java:107-124 | each counter is the number of apps of its level, they sum to the list size, and the top list is replaced by the first min(n, 5) apps |
| Dashboard.DashboardScreen.LoadAndAnalyzeApps | app/src/main/java/com/example/privacyscope/MainActivity.java:84-105 | the list is the stable descending sort of the scan; the counters count the scan; the top list is its first five, and none left out scores higher |
| AppDetail.TruncDiv | app/src/main/java/com/example/privacyscope/AppDetailActivity.java:185-191 | Java's truncating division: the usual quotient for non-negative values, never positive for negative ones |
| AppDetail.TruncDivBelow | app/src/main/java/com/example/privacyscope/AppDetailActivity.java:185-191 | a truncated quotient is below k iff the dividend is below k units, which places each unit's boundary |
| AppDetail.FormatTimeAgo | app/src/main/java/com/example/privacyscope/AppDetailActivity.java:180-193 | timestamp 0 gives "Not used recently"; under a minute, negative included, "Just now"; then whole minutes, hours or days |
| AppDetail.TimeAgoUnitRanges | app/src/main/java/com/example/privacyscope/AppDetailActivity.java:187-192 | the minutes shown are 1-59, the hours 1-23, the days at least 1 |
| AppDetail.TimeAgoOfUsedApp | app/src/main/java/com/example/privacyscope/AppDetailActivity.java:180-193 | a non-zero timestamp never gives "Not used recently"; any answer other than "Just now" starts with a digit |
| AppDetail.LastUsedOf | app/src/main/java/com/example/privacyscope/AppDetailActivity.java:143-150 | the value is non-negative, at least every matching entry's time, and either 0 or one of those times |
| AppDetail.WithLastUsed | app/src/main/java/com/example/privacyscope/AppDetailActivity.java:142-152 | a null or empty usage list leaves the app unchanged; otherwise last-used becomes the maximum |
| AppDetail.LastUsedText | app/src/main/java/com/example/privacyscope/AppDetailActivity.java:154-160 | the "last used" line: the prefix and the elapsed time for a positive last-used time, otherwise the 30-day message; the lemma below states its cases |
| AppDetail.LastUsedTextCases | app/src/main/java/com/example/privacyscope/AppDetailActivity.java:154-160 | "App last used: " and the elapsed time iff last-used > 0; otherwise "App not used in the last 30 days" |
| AppDetail.NoUsageMeansUnused | app/src/main/java/com/example/privacyscope/AppDetailActivity.java:142-160 | with no entry for the package, the screen says the app was not used in the window |
| AppDetail.PermissionExplanation | app/src/main/java/com/example/privacyscope/AppDetailActivity.java:312-323 | the default sentence iff the permission is not one of the seven; never empty |
| AppDetail.PermissionRowOf | app/src/main/java/com/example/privacyscope/AppDetailActivity.java:206-227 | the row shows the name after the last dot and its explanation; a last-used line iff usage access; its timestamp when positive; otherwise the unavailable message |
| AppDetail.PermissionItems | app/src/main/java/com/example/privacyscope/AppDetailActivity.java:195-231 | the permission list: the placeholder row when there are no permissions, otherwise one row per permission, in order |
| AppDetail.TrackerItems | app/src/main/java/com/example/privacyscope/AppDetailActivity.java:255-271 | the list is the single placeholder row iff there are no trackers; otherwise one tracker row per tracker, in order |
| AppDetail.Insights | app/src/main/java/com/example/privacyscope/AppDetailActivity.java:277-285 | the insights, one rule after another; at most three |
| AppDetail.Recommendations | app/src/main/java/com/example/privacyscope/AppDetailActivity.java:287-295 | the recommendations, one rule after another; at most three |
| AppDetail.InsightRules | app/src/main/java/com/example/privacyscope/AppDetailActivity.java:277-285 | each insight appears iff its rule holds (HIGH; more than 4 permissions; more than 3 trackers), at most three, in rule order |
| AppDetail.RecommendationRules | app/src/main/java/com/example/privacyscope/AppDetailActivity.java:287-295 | each recommendation appears iff its rule holds (score > 80; a tracker; a permission), at most three, in rule order |
| AppDetail.ProfileRules | app/src/main/java/com/example/privacyscope/AppDetailActivity.java:277-295 | on a built profile: the maximum-risk insight iff 3 or more permissions; uninstall iff more than 4, which is iff the wide-access insight; revoke iff score > 0 |
| AppDetail.UsageStatsOf | app/src/main/java/com/example/privacyscope/AppDetailActivity.java:137-140 | the usage query over the interval from 30 days before now up to now |
| AppDetail.LoadedAppFacts | app/src/main/java/com/example/privacyscope/AppDetailActivity.java:106-124 | the shown app is the package's profile, and only its last-used time is updated, from usage when access is granted |
| AppDetail.AppDetailScreen.constructor | app/src/main/java/com/example/privacyscope/AppDetailActivity.java:45-50 | an empty screen that has not finished |
| AppDetail.AppDetailScreen.OnCreate | app/src/main/java/com/example/privacyscope/AppDetailActivity.java:52-64 | a missing extra, or a null or empty package name, aborts with its message and never loads; otherwise the package is loaded |
| AppDetail.AppDetailScreen.LoadAppDetails | app/src/main/java/com/example/privacyscope/AppDetailActivity.java:103-134 | an unknown package shows the not-found message and finishes; otherwise every section shows the loaded app |
| AppDetail.AppDetailScreen.DisplayUsage | app/src/main/java/com/example/privacyscope/AppDetailActivity.java:116-123 | with usage access the prompt is hidden and the last-used line computed from the updated app; without it the line is hidden and the prompt shown |
| AppDetail.AppDetailScreen.DisplaySections | app/src/main/java/com/example/privacyscope/AppDetailActivity.java:125-127 | the shown details become those of the app: its permission, tracker, insight and recommendation rows |
| AppDetail.AppDetailScreen.FetchAndDisplayAppLastUsedTime | app/src/main/java/com/example/privacyscope/AppDetailActivity.java:136-161 | the usage query runs over the 30 days up to now; the loop's maximum becomes the app's last-used time (only for a non-empty list) and the text follows it |
| AppDetail.AppDetailScreen.DisplayPermissions | app/src/main/java/com/example/privacyscope/AppDetailActivity.java:195-231 | the rows are the permission items of the list |
| AppDetail.AppDetailScreen.DisplayTrackers | app/src/main/java/com/example/privacyscope/AppDetailActivity.java:255-271 | the rows are the tracker items of the list |
| AppDetail.AppDetailScreen.DisplayInsightsAndRecommendations | app/src/main/java/com/example/privacyscope/AppDetailActivity.java:273-296 | the containers are cleared and refilled with the insights and recommendations of the app |
| Text.Contains | app/src/main/java/com/example/privacyscope/AppInfo.java:152 | `String.contains`: the second string occurs at some position of the first; the lemmas below state its properties |
| Text.EqualsIgnoreCase | app/src/main/java/com/example/privacyscope/AlternativeActivity.java:289 | `equalsIgnoreCase`: the two strings are equal after ASCII case folding |
| Text.ContainsNotLonger | app/src/main/java/com/example/privacyscope/AppInfo.java:152 | a string never contains a longer one |
| Text.LastIndexOf | app/src/main/java/com/example/privacyscope/ComparisonActivity.java:209 | the index of the last occurrence, or -1 iff the character does not occur |
| Text.AfterLastDotFacts | app/src/main/java/com/example/privacyscope/ReportsActivity.java:174 | the segment after the last dot holds no dot, is a suffix preceded by a dot when shorter, and is the whole string when there is no dot |
| Text.ToLower | app/src/main/java/com/example/privacyscope/AlternativeActivity.java:310 | same length; ASCII capitals become small letters and nothing else changes |
| Text.NatToString | app/src/main/java/com/example/privacyscope/MainActivity.java:117-119 | `String.valueOf` on a count: its decimal digits, most significant first; the lemmas below state its round trip |
| Text.LessEq | app/src/main/java/com/example/privacyscope/ReportsActivity.java:118 | the string order the sorts compare by: lexicographic on characters, a proper prefix first |
| Text.NatToStringRoundTrip | app/src/main/java/com/example/privacyscope/ReportsActivity.java:151-153 | the printed decimal parses back to the number |
| Text.NatToStringInjective | app/src/main/java/com/example/privacyscope/ReportsActivity.java:151-153 | different numbers print differently |

## Left out

- `AppInfo.fetchPermissionUsage` calls the AppOps API by reflection. Its result, the permission-to-last-access map, is a parameter of the detail screen.
- Views, layouts, colours, progress bars, dialogs, adapters, bottom navigation, the splash screen and the version label are not modelled. Screens are modelled by the values they would show.
- Threads, executors and handlers are not modelled. Each background task is modelled as running to completion before its UI update.
- The name sort in the comparison and alternatives loaders is not modelled. Those screens take their selected apps as given. App list screens are not part of this model.
- URL encoding, the HTTP connection, stream reading and JSON parsing are not modelled. The exchange comes in as connects / status / parsed body.
- PDF rendering and file writing (`createPdfFromString`) are not modelled. Whether a file was produced is a parameter.
- Bitmap loading and the store intents are not modelled: icons are a placeholder or a URL.
- `SimpleDateFormat`, `System.currentTimeMillis()`, `UsageStatsManager` and the usage-access check are parameters: a timestamp string, `now`, the usage entries and a boolean.
- Case folding covers ASCII letters only. String order compares characters, not UTF-16 code units, which only differs outside the Basic Multilingual Plane.
- Java `long` overflow is not modelled: integers are unbounded.
- The re-load when returning from the usage-access settings (`onActivityResult`) is not modelled.
- The alternatives screen's "try again" button and the "still loading" toast are not modelled.
