/**
 * The ordering the app loaders apply before any screen uses the list: a
 * stable sort by application label, compared ignoring case.
 */
module NameOrder {
  import opened Text
  import opened Risk

  /** The label as `compareToIgnoreCase` compares it. */
  function NameKey(app: AppInfo): string {
    ToLower(app.appName)
  }

  /** `a` may come before `b`: its label is not greater, ignoring case. */
  predicate NameLessEq(a: AppInfo, b: AppInfo) {
    LessEq(NameKey(a), NameKey(b))
  }

  ghost predicate AscendingByName(apps: seq<AppInfo>) {
    forall i, j :: 0 <= i < j < |apps| ==> NameLessEq(apps[i], apps[j])
  }

  /** The apps whose label is `key` ignoring case, in their order in `apps`. */
  function WithName(apps: seq<AppInfo>, key: string): seq<AppInfo> {
    if apps == [] then []
    else (if NameKey(apps[0]) == key then [apps[0]] else []) + WithName(apps[1..], key)
  }

  /** Places `x` after every app whose label does not exceed its own. */
  function InsertByName(apps: seq<AppInfo>, x: AppInfo): seq<AppInfo> {
    if apps == [] then [x]
    else if !NameLessEq(apps[0], x) then [x] + apps
    else [apps[0]] + InsertByName(apps[1..], x)
  }

  /** The result of the stable sort: each app is inserted in input order. */
  function SortByName(apps: seq<AppInfo>): seq<AppInfo> {
    if apps == [] then []
    else InsertByName(SortByName(apps[..|apps| - 1]), apps[|apps| - 1])
  }

  lemma {:induction false} InsertByNamePermutation(apps: seq<AppInfo>, x: AppInfo)
    ensures multiset(InsertByName(apps, x)) == multiset(apps) + multiset{x}
    decreases |apps|
  {
    if apps != [] && NameLessEq(apps[0], x) {
      InsertByNamePermutation(apps[1..], x);
      assert apps == [apps[0]] + apps[1..];
    }
  }

  /** A lower bound on the labels of the list and of `x` bounds the result. */
  lemma {:induction false} InsertByNameLowerBound(apps: seq<AppInfo>, x: AppInfo, b: string)
    requires forall j :: 0 <= j < |apps| ==> LessEq(b, NameKey(apps[j]))
    requires LessEq(b, NameKey(x))
    ensures forall j :: 0 <= j < |InsertByName(apps, x)| ==> LessEq(b, NameKey(InsertByName(apps, x)[j]))
    decreases |apps|
  {
    if apps != [] && NameLessEq(apps[0], x) {
      InsertByNameLowerBound(apps[1..], x, b);
    }
  }

  lemma {:induction false} InsertByNameAscending(apps: seq<AppInfo>, x: AppInfo)
    requires AscendingByName(apps)
    ensures AscendingByName(InsertByName(apps, x))
    decreases |apps|
  {
    if apps == [] {
    } else if !NameLessEq(apps[0], x) {
      LessEqTotal(NameKey(apps[0]), NameKey(x));
      forall j | 0 <= j < |apps| ensures NameLessEq(x, apps[j]) {
        if j > 0 { LessEqTransitive(NameKey(x), NameKey(apps[0]), NameKey(apps[j])); }
      }
    } else {
      InsertByNameAscending(apps[1..], x);
      InsertByNameLowerBound(apps[1..], x, NameKey(apps[0]));
    }
  }

  /** A list holding no app labelled `key` has nothing to filter. */
  lemma {:induction false} WithNameAbsent(apps: seq<AppInfo>, key: string)
    requires forall j :: 0 <= j < |apps| ==> NameKey(apps[j]) != key
    ensures WithName(apps, key) == []
    decreases |apps|
  {
    if apps != [] { WithNameAbsent(apps[1..], key); }
  }

  lemma {:induction false} WithNameConcat(a: seq<AppInfo>, b: seq<AppInfo>, key: string)
    ensures WithName(a + b, key) == WithName(a, key) + WithName(b, key)
    decreases |a|
  {
    if a == [] {
      assert a + b == b;
    } else {
      assert (a + b)[1..] == a[1..] + b;
      WithNameConcat(a[1..], b, key);
    }
  }

  /** Insertion puts `x` after every app of the same label already placed. */
  lemma {:induction false} InsertByNameStable(apps: seq<AppInfo>, x: AppInfo, key: string)
    requires AscendingByName(apps)
    ensures WithName(InsertByName(apps, x), key) == WithName(apps, key) + (if NameKey(x) == key then [x] else [])
    decreases |apps|
  {
    if apps == [] {
    } else if !NameLessEq(apps[0], x) {
      if NameKey(x) == key {
        LessEqReflexive(key);
        forall j | 0 <= j < |apps| ensures NameKey(apps[j]) != key {
          if j > 0 {
            assert NameLessEq(apps[0], apps[j]);
          }
        }
        WithNameAbsent(apps, key);
      }
    } else {
      InsertByNameStable(apps[1..], x, key);
      assert InsertByName(apps, x)[1..] == InsertByName(apps[1..], x);
    }
  }

  /** The sort orders by label ignoring case and is a permutation. */
  lemma {:induction false} SortByNameOrdered(apps: seq<AppInfo>)
    ensures AscendingByName(SortByName(apps))
    ensures multiset(SortByName(apps)) == multiset(apps)
    decreases |apps|
  {
    if apps != [] {
      var init, last := apps[..|apps| - 1], apps[|apps| - 1];
      SortByNameOrdered(init);
      InsertByNameAscending(SortByName(init), last);
      InsertByNamePermutation(SortByName(init), last);
      assert apps == init + [last];
    }
  }

  /** The sort is stable: apps labelled alike keep their relative order. */
  lemma {:induction false} SortByNameStable(apps: seq<AppInfo>, key: string)
    ensures WithName(SortByName(apps), key) == WithName(apps, key)
    decreases |apps|
  {
    if apps != [] {
      var init, last := apps[..|apps| - 1], apps[|apps| - 1];
      SortByNameStable(init, key);
      SortByNameOrdered(init);
      InsertByNameStable(SortByName(init), last, key);
      WithNameConcat(init, [last], key);
      assert apps == init + [last];
    }
  }
}
