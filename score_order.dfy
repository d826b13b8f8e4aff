/**
 * The ordering of the dashboard and of the aggregate report: a stable sort
 * whose comparator puts higher risk scores first.
 */
module ScoreOrder {
  import opened Risk

  ghost predicate DescendingByScore(apps: seq<AppInfo>) {
    forall i, j :: 0 <= i < j < |apps| ==> apps[i].riskScore >= apps[j].riskScore
  }

  /** The apps with score `k`, in their order in `apps`. */
  function WithScore(apps: seq<AppInfo>, k: nat): seq<AppInfo> {
    if apps == [] then []
    else (if apps[0].riskScore == k then [apps[0]] else []) + WithScore(apps[1..], k)
  }

  /** Places `x` after every app whose score is at least its own. */
  function InsertByScore(apps: seq<AppInfo>, x: AppInfo): seq<AppInfo> {
    if apps == [] then [x]
    else if apps[0].riskScore < x.riskScore then [x] + apps
    else [apps[0]] + InsertByScore(apps[1..], x)
  }

  /** The result of the stable sort: each app is inserted in input order. */
  function SortByScore(apps: seq<AppInfo>): seq<AppInfo> {
    if apps == [] then []
    else InsertByScore(SortByScore(apps[..|apps| - 1]), apps[|apps| - 1])
  }

  lemma {:induction false} InsertByScorePermutation(apps: seq<AppInfo>, x: AppInfo)
    ensures multiset(InsertByScore(apps, x)) == multiset(apps) + multiset{x}
    decreases |apps|
  {
    if apps != [] && apps[0].riskScore >= x.riskScore {
      InsertByScorePermutation(apps[1..], x);
      assert apps == [apps[0]] + apps[1..];
    }
  }

  /** An upper bound on the scores of the list and of `x` bounds the result. */
  lemma {:induction false} InsertByScoreUpperBound(apps: seq<AppInfo>, x: AppInfo, k: int)
    requires forall j :: 0 <= j < |apps| ==> apps[j].riskScore <= k
    requires x.riskScore <= k
    ensures forall j :: 0 <= j < |InsertByScore(apps, x)| ==> InsertByScore(apps, x)[j].riskScore <= k
    decreases |apps|
  {
    if apps != [] && apps[0].riskScore >= x.riskScore {
      InsertByScoreUpperBound(apps[1..], x, k);
    }
  }

  lemma {:induction false} InsertByScoreDescending(apps: seq<AppInfo>, x: AppInfo)
    requires DescendingByScore(apps)
    ensures DescendingByScore(InsertByScore(apps, x))
    decreases |apps|
  {
    if apps != [] && apps[0].riskScore >= x.riskScore {
      InsertByScoreDescending(apps[1..], x);
      InsertByScoreUpperBound(apps[1..], x, apps[0].riskScore);
    }
  }

  /** Filtering by a score distributes over concatenation. */
  lemma {:induction false} WithScoreConcat(a: seq<AppInfo>, b: seq<AppInfo>, k: nat)
    ensures WithScore(a + b, k) == WithScore(a, k) + WithScore(b, k)
    decreases |a|
  {
    if a == [] {
      assert a + b == b;
    } else {
      assert (a + b)[1..] == a[1..] + b;
      WithScoreConcat(a[1..], b, k);
    }
  }

  /** No app in a list whose scores are all below `k` has score `k`. */
  lemma {:induction false} WithScoreBelow(apps: seq<AppInfo>, k: nat)
    requires forall y :: y in apps ==> y.riskScore < k
    ensures WithScore(apps, k) == []
    decreases |apps|
  {
    if apps != [] { WithScoreBelow(apps[1..], k); }
  }

  /** Insertion puts `x` after every app of equal score already placed. */
  lemma {:induction false} InsertByScoreStable(apps: seq<AppInfo>, x: AppInfo, k: nat)
    requires DescendingByScore(apps)
    ensures WithScore(InsertByScore(apps, x), k) == WithScore(apps, k) + (if x.riskScore == k then [x] else [])
    decreases |apps|
  {
    if apps == [] {
    } else if apps[0].riskScore < x.riskScore {
      if x.riskScore == k {
        WithScoreBelow(apps, k);
      }
    } else {
      InsertByScoreStable(apps[1..], x, k);
      assert InsertByScore(apps, x)[1..] == InsertByScore(apps[1..], x);
    }
  }

  /** The sort orders by non-increasing score and is a permutation. */
  lemma {:induction false} SortByScoreOrdered(apps: seq<AppInfo>)
    ensures DescendingByScore(SortByScore(apps))
    ensures multiset(SortByScore(apps)) == multiset(apps)
    decreases |apps|
  {
    if apps != [] {
      var init, last := apps[..|apps| - 1], apps[|apps| - 1];
      SortByScoreOrdered(init);
      InsertByScoreDescending(SortByScore(init), last);
      InsertByScorePermutation(SortByScore(init), last);
      assert apps == init + [last];
    }
  }

  /** The sort is stable: the apps of score `k` keep their relative order. */
  lemma {:induction false} SortByScoreStable(apps: seq<AppInfo>, k: nat)
    ensures WithScore(SortByScore(apps), k) == WithScore(apps, k)
    decreases |apps|
  {
    if apps != [] {
      var init, last := apps[..|apps| - 1], apps[|apps| - 1];
      SortByScoreStable(init, k);
      SortByScoreOrdered(init);
      InsertByScoreStable(SortByScore(init), last, k);
      WithScoreConcat(init, [last], k);
      assert apps == init + [last];
    }
  }

  /**
   * The sort orders by non-increasing score, is a permutation, and is stable:
   * the apps of any one score keep their relative order.
   */
  lemma SortByScoreCorrect(apps: seq<AppInfo>)
    ensures DescendingByScore(SortByScore(apps))
    ensures multiset(SortByScore(apps)) == multiset(apps)
    ensures forall k: nat :: WithScore(SortByScore(apps), k) == WithScore(apps, k)
  {
    SortByScoreOrdered(apps);
    forall k: nat ensures WithScore(SortByScore(apps), k) == WithScore(apps, k) {
      SortByScoreStable(apps, k);
    }
  }

  /** The sorting call: a copy of the list, sorted by descending score. */
  method StableSortByScore(apps: seq<AppInfo>) returns (sorted: seq<AppInfo>)
    ensures sorted == SortByScore(apps)
    ensures DescendingByScore(sorted) && multiset(sorted) == multiset(apps)
  {
    sorted := [];
    var i := 0;
    while i < |apps|
      invariant 0 <= i <= |apps|
      invariant sorted == SortByScore(apps[..i])
    {
      assert apps[..i + 1][..i] == apps[..i];
      sorted := InsertByScore(sorted, apps[i]);
      i := i + 1;
    }
    assert apps[..i] == apps;
    SortByScoreCorrect(apps);
  }

  /** Scores [40, 85, 40] come out as 85, then the first 40, then the second 40. */
  lemma StableExample(a: AppInfo, b: AppInfo, c: AppInfo)
    requires a.riskScore == 40 && b.riskScore == 85 && c.riskScore == 40
    ensures SortByScore([a, b, c]) == [b, a, c]
  {
    assert [a, b, c][..2] == [a, b];
    assert [a, b][..1] == [a];
    assert [a][..0] == [];
    assert SortByScore([a]) == [a];
    assert SortByScore([a, b]) == InsertByScore([a], b) == [b, a];
    assert InsertByScore([a], c) == [a] + InsertByScore([], c) == [a, c];
    assert SortByScore([a, b, c]) == InsertByScore([b, a], c) == [b] + InsertByScore([a], c);
  }
}
