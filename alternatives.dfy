/**
 * The alternative resolver of AlternativeActivity.java: an online search of
 * the F-Droid catalogue whose candidates exclude the app itself, an offline
 * keyword table used when the online search fails or finds nothing, and the
 * rule that turns a candidate's icon path into the image request shown.
 */
module Alternatives {
  import opened Wrappers
  import opened Text

  /** A suggested app; `iconUrl` is the catalogue's icon path, `None` for the offline table. */
  datatype AlternativeApp = AlternativeApp(appName: string, packageName: string, iconUrl: Option<string>)

  /** A search outcome: `None` alternatives when the online search failed. */
  datatype AlternativeResult = AlternativeResult(alternatives: Option<seq<AlternativeApp>>, wasOnlineSearch: bool)

  /**
   * One element of the response's "apps" array, by the fields the resolver
   * reads: the "en-US" entry of "name", "packageName" and "icon"; `None` when
   * the field is missing.
   */
  datatype CatalogEntry = CatalogEntry(enUsName: Option<string>, packageName: Option<string>, icon: Option<string>)

  /** The response body: unreadable or not a JSON object, or an object whose "apps" array may be missing. */
  datatype Body = Unreadable | Parsed(apps: Option<seq<CatalogEntry>>)

  /**
   * What the HTTP exchange gives: whether the connection could be opened, the
   * response code (`None` when reading it failed) and the body.
   */
  datatype HttpExchange = HttpExchange(connects: bool, status: Option<int>, body: Body)

  /** What happens to the connection object. */
  datatype ConnectionEvent = Opened | Disconnected

  const HTTP_OK := 200
  const SEARCH_URL := "https://f-droid.org/api/v1/search?q="
  const ICON_HOST := "https://f-droid.org"

  // The offline table.

  const SIGNAL := AlternativeApp("Signal Messenger", "org.thoughtcrime.securesms", None)
  const TELEGRAM := AlternativeApp("Telegram", "org.telegram.messenger", None)
  const BRAVE := AlternativeApp("Brave Private Browser", "com.brave.browser", None)
  const DUCKDUCKGO := AlternativeApp("DuckDuckGo Private Browser", "com.duckduckgo.mobile.android", None)
  const PIXELFED := AlternativeApp("Pixelfed", "de.pixelfed.app", None)

  predicate IsMessenger(lowerCaseName: string) {
    Contains(lowerCaseName, "whatsapp") || Contains(lowerCaseName, "messenger")
  }

  predicate IsBrowser(lowerCaseName: string) {
    Contains(lowerCaseName, "chrome") || Contains(lowerCaseName, "browser")
  }

  /** The offline table: the first keyword group the lower-cased name mentions decides. */
  function SimulatedAlternatives(originalAppName: string): (alternatives: seq<AlternativeApp>)
    ensures forall k :: 0 <= k < |alternatives| ==> alternatives[k].iconUrl.None?
    ensures |alternatives| <= 2
  {
    var lowerCaseName := ToLower(originalAppName);
    if IsMessenger(lowerCaseName) then [SIGNAL, TELEGRAM]
    else if IsBrowser(lowerCaseName) then [BRAVE, DUCKDUCKGO]
    else if Contains(lowerCaseName, "instagram") then [PIXELFED]
    else []
  }

  /** `getSimulatedAlternatives`: the table's suggestions are appended one by one. */
  method GetSimulatedAlternatives(originalAppName: string) returns (alternatives: seq<AlternativeApp>)
    ensures alternatives == SimulatedAlternatives(originalAppName)
    ensures IsMessenger(ToLower(originalAppName)) ==> alternatives == [SIGNAL, TELEGRAM]
    ensures !IsMessenger(ToLower(originalAppName)) && IsBrowser(ToLower(originalAppName)) ==> alternatives == [BRAVE, DUCKDUCKGO]
    ensures !IsMessenger(ToLower(originalAppName)) && !IsBrowser(ToLower(originalAppName)) ==>
      alternatives == (if Contains(ToLower(originalAppName), "instagram") then [PIXELFED] else [])
  {
    alternatives := [];
    var lowerCaseName := ToLower(originalAppName);
    if Contains(lowerCaseName, "whatsapp") || Contains(lowerCaseName, "messenger") {
      alternatives := alternatives + [SIGNAL];
      alternatives := alternatives + [TELEGRAM];
    } else if Contains(lowerCaseName, "chrome") || Contains(lowerCaseName, "browser") {
      alternatives := alternatives + [BRAVE];
      alternatives := alternatives + [DUCKDUCKGO];
    } else if Contains(lowerCaseName, "instagram") {
      alternatives := alternatives + [PIXELFED];
    }
  }

  // The online candidates.

  /** `optString("icon")`: the icon path, or "" when the entry has none. */
  function IconOf(entry: CatalogEntry): string {
    if entry.icon.Some? then entry.icon.value else ""
  }

  /**
   * The candidate loop over the "apps" array: entries named like the original
   * app (ignoring case) are skipped, the rest become alternatives in order;
   * `None` when an entry lacks a field the loop reads, which aborts the search.
   */
  function Candidates(originalAppName: string, entries: seq<CatalogEntry>): Option<seq<AlternativeApp>> {
    if entries == [] then Some([])
    else
      var before := Candidates(originalAppName, entries[..|entries| - 1]);
      var entry := entries[|entries| - 1];
      if before.None? || entry.enUsName.None? then None
      else if EqualsIgnoreCase(entry.enUsName.value, originalAppName) then before
      else if entry.packageName.None? then None
      else Some(before.value + [AlternativeApp(entry.enUsName.value, entry.packageName.value, Some(IconOf(entry)))])
  }

  /** An entry the loop reads without failing. */
  predicate Readable(originalAppName: string, entry: CatalogEntry) {
    entry.enUsName.Some? && (EqualsIgnoreCase(entry.enUsName.value, originalAppName) || entry.packageName.Some?)
  }

  /** An entry that becomes an alternative. */
  predicate Kept(originalAppName: string, entry: CatalogEntry) {
    entry.enUsName.Some? && !EqualsIgnoreCase(entry.enUsName.value, originalAppName) && entry.packageName.Some?
  }

  function AlternativeOf(entry: CatalogEntry): AlternativeApp
    requires entry.enUsName.Some? && entry.packageName.Some?
  {
    AlternativeApp(entry.enUsName.value, entry.packageName.value, Some(IconOf(entry)))
  }

  /** The search survives the loop exactly when every entry is readable. */
  lemma {:induction false} CandidatesDefined(originalAppName: string, entries: seq<CatalogEntry>)
    ensures Candidates(originalAppName, entries).Some? <==>
      forall k :: 0 <= k < |entries| ==> Readable(originalAppName, entries[k])
    decreases |entries|
  {
    if entries != [] {
      var init := entries[..|entries| - 1];
      CandidatesDefined(originalAppName, init);
      assert forall k :: 0 <= k < |init| ==> init[k] == entries[k];
    }
  }

  /**
   * Every alternative comes from a kept entry and every kept entry yields one;
   * none is named like the original app.
   */
  lemma {:induction false} CandidatesFiltered(originalAppName: string, entries: seq<CatalogEntry>)
    requires Candidates(originalAppName, entries).Some?
    ensures var alternatives := Candidates(originalAppName, entries).value;
      && |alternatives| <= |entries|
      && (forall a :: a in alternatives ==> !EqualsIgnoreCase(a.appName, originalAppName) && a.iconUrl.Some?)
      && (forall a :: a in alternatives ==> exists k :: 0 <= k < |entries| && Kept(originalAppName, entries[k]) && a == AlternativeOf(entries[k]))
      && (forall k :: 0 <= k < |entries| && Kept(originalAppName, entries[k]) ==> AlternativeOf(entries[k]) in alternatives)
    decreases |entries|
  {
    if entries != [] {
      var init, last := entries[..|entries| - 1], entries[|entries| - 1];
      CandidatesFiltered(originalAppName, init);
      var before := Candidates(originalAppName, init).value;
      var alternatives := Candidates(originalAppName, entries).value;
      forall a | a in alternatives
        ensures exists k :: 0 <= k < |entries| && Kept(originalAppName, entries[k]) && a == AlternativeOf(entries[k])
      {
        if a in before {
          var k :| 0 <= k < |init| && Kept(originalAppName, init[k]) && a == AlternativeOf(init[k]);
          assert entries[k] == init[k];
        } else {
          assert Kept(originalAppName, entries[|entries| - 1]) && a == AlternativeOf(entries[|entries| - 1]);
        }
      }
      forall k | 0 <= k < |entries| && Kept(originalAppName, entries[k]) ensures AlternativeOf(entries[k]) in alternatives {
        if k < |init| {
          assert init[k] == entries[k];
        }
      }
    }
  }

  /** The kept entries' alternatives, read front to back: one per kept entry, in order. */
  function KeptAlternatives(originalAppName: string, entries: seq<CatalogEntry>): seq<AlternativeApp> {
    if entries == [] then []
    else
      var head := if Kept(originalAppName, entries[0]) then [AlternativeOf(entries[0])] else [];
      head + KeptAlternatives(originalAppName, entries[1..])
  }

  lemma {:induction false} KeptAlternativesSnoc(originalAppName: string, entries: seq<CatalogEntry>, entry: CatalogEntry)
    ensures KeptAlternatives(originalAppName, entries + [entry]) ==
      KeptAlternatives(originalAppName, entries) + (if Kept(originalAppName, entry) then [AlternativeOf(entry)] else [])
    decreases |entries|
  {
    if entries == [] {
      assert entries + [entry] == [entry];
    } else {
      assert (entries + [entry])[1..] == entries[1..] + [entry];
      KeptAlternativesSnoc(originalAppName, entries[1..], entry);
    }
  }

  /** A search that survives the loop yields exactly the kept entries' alternatives, in the entries' order. */
  lemma {:induction false} CandidatesInOrder(originalAppName: string, entries: seq<CatalogEntry>)
    requires Candidates(originalAppName, entries).Some?
    ensures Candidates(originalAppName, entries).value == KeptAlternatives(originalAppName, entries)
    decreases |entries|
  {
    if entries != [] {
      var init, last := entries[..|entries| - 1], entries[|entries| - 1];
      CandidatesInOrder(originalAppName, init);
      KeptAlternativesSnoc(originalAppName, init, last);
      assert entries == init + [last];
    }
  }

  /** The search reaches the candidate loop only with a network, an open connection and a 200 response. */
  function OnlineAlternatives(originalAppName: string, networkAvailable: bool, exchange: HttpExchange): Option<seq<AlternativeApp>> {
    if !networkAvailable || !exchange.connects then None
    else if exchange.status != Some(HTTP_OK) then None
    else match exchange.body
      case Unreadable => None
      case Parsed(apps) => if apps.None? then Some([]) else Candidates(originalAppName, apps.value)
  }

  /** The connection is opened only with a network, and then always released. */
  function ConnectionTrace(networkAvailable: bool, exchange: HttpExchange): seq<ConnectionEvent> {
    if networkAvailable && exchange.connects then [Opened, Disconnected] else []
  }

  /**
   * `findAlternativesOnline`: the search for the literal app name, returning
   * `None` alternatives on every failure, with the connection released on every
   * path that opened it. The query is the app name as given.
   */
  method FindAlternativesOnline(originalAppName: string, networkAvailable: bool, exchange: HttpExchange)
    returns (result: AlternativeResult, events: seq<ConnectionEvent>, query: Option<string>)
    ensures result == AlternativeResult(OnlineAlternatives(originalAppName, networkAvailable, exchange), true)
    ensures events == ConnectionTrace(networkAvailable, exchange)
    ensures Opened in events <==> Disconnected in events
    ensures Opened in events ==> events[|events| - 1] == Disconnected
    ensures !networkAvailable ==> events == []
    ensures query == (if networkAvailable then Some(originalAppName) else None)
  {
    events := [];
    if !networkAvailable {
      return AlternativeResult(None, true), events, None;
    }
    var alternatives: seq<AlternativeApp> := [];
    query := Some(originalAppName);
    var connected := false;
    // The `try` block: any failure ends it with `None` alternatives.
    if !exchange.connects {
      result := AlternativeResult(None, true);
    } else {
      connected := true;
      events := events + [Opened];
      if exchange.status.None? || exchange.status.value != HTTP_OK {
        result := AlternativeResult(None, true);
      } else if exchange.body.Unreadable? {
        result := AlternativeResult(None, true);
      } else if exchange.body.apps.None? {
        result := AlternativeResult(Some(alternatives), true);
      } else {
        var apps := exchange.body.apps.value;
        var i := 0;
        var failed := false;
        while i < |apps|
          invariant 0 <= i <= |apps|
          invariant Candidates(originalAppName, apps[..i]) == Some(alternatives)
        {
          assert apps[..i + 1][..i] == apps[..i];
          var app := apps[i];
          if app.enUsName.None? {
            failed := true;
            CandidatesFailurePersists(originalAppName, apps, i + 1);
            break;
          }
          if EqualsIgnoreCase(app.enUsName.value, originalAppName) {
            i := i + 1;
            continue;
          }
          if app.packageName.None? {
            failed := true;
            CandidatesFailurePersists(originalAppName, apps, i + 1);
            break;
          }
          var iconUrl := if app.icon.Some? then app.icon.value else "";
          alternatives := alternatives + [AlternativeApp(app.enUsName.value, app.packageName.value, Some(iconUrl))];
          i := i + 1;
        }
        if failed {
          result := AlternativeResult(None, true);
        } else {
          assert apps[..i] == apps;
          result := AlternativeResult(Some(alternatives), true);
        }
      }
    }
    // The `finally` block.
    if connected {
      events := events + [Disconnected];
    }
  }

  /** Once an entry aborts the loop, no later entry brings the search back. */
  lemma {:induction false} CandidatesFailurePersists(originalAppName: string, entries: seq<CatalogEntry>, n: nat)
    requires n <= |entries| && Candidates(originalAppName, entries[..n]).None?
    ensures Candidates(originalAppName, entries).None?
    decreases |entries| - n
  {
    if n < |entries| {
      assert entries[..n + 1][..n] == entries[..n];
      CandidatesFailurePersists(originalAppName, entries, n + 1);
    } else {
      assert entries[..n] == entries;
    }
  }

  /** Without a network, a 200 response or a readable body, the online search fails. */
  lemma OnlineFailures(originalAppName: string, networkAvailable: bool, exchange: HttpExchange)
    ensures !networkAvailable ==> OnlineAlternatives(originalAppName, networkAvailable, exchange).None?
    ensures exchange.status.Some? && exchange.status.value != HTTP_OK ==>
      OnlineAlternatives(originalAppName, networkAvailable, exchange).None?
    ensures exchange.body.Unreadable? ==> OnlineAlternatives(originalAppName, networkAvailable, exchange).None?
    ensures networkAvailable && exchange.connects && exchange.status == Some(HTTP_OK) && exchange.body == Parsed(None) ==>
      OnlineAlternatives(originalAppName, networkAvailable, exchange) == Some([])
  {
  }

  // The hybrid rule and the result screen.

  /** The hybrid rule: the offline table replaces an online result that is missing or empty. */
  function HybridResult(online: AlternativeResult, offline: seq<AlternativeApp>): (result: AlternativeResult)
    ensures result.alternatives.Some?
    ensures online.alternatives.Some? && online.alternatives.value != [] ==> result == online
    ensures online.alternatives.None? || online.alternatives.value == [] ==>
      result == AlternativeResult(Some(offline), false)
  {
    if online.alternatives.None? || online.alternatives.value == [] then AlternativeResult(Some(offline), false)
    else online
  }

  /** Where an alternative's image comes from. */
  datatype IconSource = Placeholder | Remote(url: string)

  /** `loadIconFromUrl`: a non-empty path is fetched from the catalogue's host; anything else shows the placeholder. */
  function LoadIconFromUrl(urlString: Option<string>): (icon: IconSource)
    ensures icon.Remote? <==> urlString.Some? && urlString.value != ""
    ensures icon.Remote? ==> icon.url == ICON_HOST + urlString.value
  {
    if urlString.None? || urlString.value == "" then Placeholder else Remote(ICON_HOST + urlString.value)
  }

  /** One row of the result list. */
  datatype AlternativeRow = AlternativeRow(name: string, icon: IconSource, packageName: string)

  /** The result screen: a message, with or without the retry button, or one row per alternative. */
  datatype ResultScreen =
    | ErrorMessage(message: string, showTryAgain: bool)
    | AlternativeList(rows: seq<AlternativeRow>)

  /** A row shows the alternative's name and package, and the placeholder image unless it has an icon path. */
  function RowOf(alternative: AlternativeApp): (row: AlternativeRow)
    ensures row.name == alternative.appName && row.packageName == alternative.packageName
    ensures row.icon == Placeholder <==> alternative.iconUrl.None? || alternative.iconUrl.value == ""
  {
    AlternativeRow(alternative.appName, LoadIconFromUrl(alternative.iconUrl), alternative.packageName)
  }

  /** The message for an empty result names the app, in quotes. */
  function NotFoundMessage(appName: string): (message: string)
    ensures |message| == |appName| + 37
    ensures message[34] == '"' && message[35..35 + |appName|] == appName && message[35 + |appName|..] == "\"."
  {
    "No similar alternatives found for \"" + appName + "\"."
  }

  /** `displayAlternativeList`: the rows, in order. */
  method DisplayAlternativeList(alternatives: seq<AlternativeApp>) returns (rows: seq<AlternativeRow>)
    ensures |rows| == |alternatives|
    ensures forall k :: 0 <= k < |rows| ==> rows[k] == RowOf(alternatives[k])
  {
    rows := [];
    var i := 0;
    while i < |alternatives|
      invariant 0 <= i <= |alternatives|
      invariant |rows| == i
      invariant forall k :: 0 <= k < i ==> rows[k] == RowOf(alternatives[k])
    {
      var alt := alternatives[i];
      var icon := if alt.iconUrl.Some? && alt.iconUrl.value != "" then LoadIconFromUrl(alt.iconUrl) else Placeholder;
      rows := rows + [AlternativeRow(alt.appName, icon, alt.packageName)];
      i := i + 1;
    }
  }

  /**
   * `findAndDisplayAlternatives`: the online search, the offline fallback, then
   * the result screen. An empty final list never offers a retry.
   */
  method FindAndDisplayAlternatives(appName: string, networkAvailable: bool, exchange: HttpExchange)
    returns (result: AlternativeResult, screen: ResultScreen, events: seq<ConnectionEvent>)
    ensures var online := OnlineAlternatives(appName, networkAvailable, exchange);
      result == HybridResult(AlternativeResult(online, true), SimulatedAlternatives(appName))
    ensures events == ConnectionTrace(networkAvailable, exchange)
    ensures Opened in events <==> Disconnected in events
    ensures Opened in events ==> events[|events| - 1] == Disconnected
    ensures result.alternatives.Some?
    ensures result.alternatives.value == [] ==> screen == ErrorMessage(NotFoundMessage(appName), false)
    ensures result.alternatives.value != [] ==>
      screen.AlternativeList? && |screen.rows| == |result.alternatives.value|
      && forall k :: 0 <= k < |screen.rows| ==> screen.rows[k] == RowOf(result.alternatives.value[k])
  {
    var query;
    result, events, query := FindAlternativesOnline(appName, networkAvailable, exchange);
    if result.alternatives == None || result.alternatives.value == [] {
      var offline := GetSimulatedAlternatives(appName);
      result := AlternativeResult(Some(offline), false);
    }
    if result.alternatives.value == [] {
      screen := ErrorMessage("No similar alternatives found for \"" + appName + "\".", false);
    } else {
      var rows := DisplayAlternativeList(result.alternatives.value);
      screen := AlternativeList(rows);
    }
  }

  /** The offline table is consulted exactly when the online search failed or found nothing. */
  lemma OfflineOnlyAsFallback(appName: string, networkAvailable: bool, exchange: HttpExchange)
    ensures var online := OnlineAlternatives(appName, networkAvailable, exchange);
      var result := HybridResult(AlternativeResult(online, true), SimulatedAlternatives(appName));
      (!result.wasOnlineSearch <==> online.None? || online.value == [])
      && (result.wasOnlineSearch ==> result.alternatives == online)
  {
  }

  /** Offline suggestions all show the placeholder image. */
  lemma OfflineRowsUsePlaceholder(appName: string)
    ensures forall a :: a in SimulatedAlternatives(appName) ==> RowOf(a).icon == Placeholder
  {
  }

  // The offline table on sample names.

  lemma WhatsAppAlternatives()
    ensures SimulatedAlternatives("WhatsApp") == [SIGNAL, TELEGRAM]
    ensures forall a :: a in SimulatedAlternatives("WhatsApp") ==> a.appName != "WhatsApp"
  {
    var lower := ToLower("WhatsApp");
    assert lower[0..8] == "whatsapp";
    ContainsAt(lower, "whatsapp", 0);
  }

  /** Offline results are not filtered against the input: Signal is suggested for itself. */
  lemma SignalSuggestsItself()
    ensures SIGNAL in SimulatedAlternatives("Signal Messenger")
  {
    var lower := ToLower("Signal Messenger");
    assert lower[7..16] == "messenger";
    ContainsAt(lower, "messenger", 7);
  }

  /** The keyword groups apply in order: a name with both "messenger" and "browser" gets messengers. */
  lemma KeywordOrder()
    ensures SimulatedAlternatives("Messenger Browser") == [SIGNAL, TELEGRAM]
    ensures SimulatedAlternatives("Chrome") == [BRAVE, DUCKDUCKGO]
  {
    var lower := ToLower("Messenger Browser");
    assert lower[0..9] == "messenger";
    ContainsAt(lower, "messenger", 0);
    var chrome := ToLower("Chrome");
    assert chrome[0..6] == "chrome";
    ContainsAt(chrome, "chrome", 0);
    ContainsNotLonger(chrome, "whatsapp");
    ContainsNotLonger(chrome, "messenger");
  }
}
