/**
 * The application search of the core `AppSource` (`src/plugins/core/apps.ts`):
 * a case-insensitive substring filter over the desktop entries read at
 * start-up, followed by a map to results whose activation launches the
 * entry's command.
 */
module AppSearch {
  import opened Interface
  import opened Text
  import opened DesktopEntry

  /** The lowercased name or command contains the lowercased query. */
  predicate Matches(app: AppInfo, q: string) {
    Contains(ToLower(app.name), q) || Contains(ToLower(app.exec), q)
  }

  /** A name that starts with the query ranks above one that only contains it somewhere. */
  function Score(app: AppInfo, q: string): (score: int)
    ensures score == 100 <==> q <= ToLower(app.name)
    ensures score == 100 || score == 50
  {
    if q <= ToLower(app.name) then 100 else 50
  }

  /** The result for one application: its name, its command, and launching the command on activation. */
  function ResultOf(app: AppInfo, q: string): SearchResult {
    SearchResult(app.name, app.exec, Score(app, q), None, Launch(app.exec))
  }

  /** `apps.filter(...)`: the matching applications, in list order. */
  function Matching(apps: seq<AppInfo>, q: string): (m: seq<AppInfo>)
    ensures |m| <= |apps|
  {
    if |apps| == 0 then []
    else (if Matches(apps[0], q) then [apps[0]] else []) + Matching(apps[1..], q)
  }

  /** The applications kept are exactly the matching ones. */
  lemma {:induction false} MatchingMembers(apps: seq<AppInfo>, q: string)
    ensures forall a :: a in Matching(apps, q) <==> a in apps && Matches(a, q)
  {
    if |apps| > 0 {
      MatchingMembers(apps[1..], q);
      var h := if Matches(apps[0], q) then [apps[0]] else [];
      assert Matching(apps, q) == h + Matching(apps[1..], q);
      forall a ensures a in Matching(apps, q) <==> a in apps && Matches(a, q) {
        assert a in apps <==> a == apps[0] || a in apps[1..];
      }
    }
  }

  /** `search(query)`: one result per matching application, in list order. */
  function Search(apps: seq<AppInfo>, query: string): seq<SearchResult> {
    var q := ToLower(query);
    var m := Matching(apps, q);
    seq(|m|, k requires 0 <= k < |m| => ResultOf(m[k], q))
  }

  /** Every result is the result of a matching application. */
  lemma SearchFromMatches(apps: seq<AppInfo>, query: string, res: SearchResult)
    requires res in Search(apps, query)
    ensures exists app :: app in apps && Matches(app, ToLower(query)) && res == ResultOf(app, ToLower(query))
  {
    var q := ToLower(query);
    var m := Matching(apps, q);
    MatchingMembers(apps, q);
    var k :| 0 <= k < |Search(apps, query)| && Search(apps, query)[k] == res;
    var app := m[k];
    assert app in m;
    assert res == ResultOf(app, q);
  }

  lemma {:induction false} MatchingConcat(a: seq<AppInfo>, b: seq<AppInfo>, q: string)
    ensures Matching(a + b, q) == Matching(a, q) + Matching(b, q)
  {
    if |a| == 0 {
      assert a + b == b;
    } else {
      assert (a + b)[1..] == a[1..] + b && (a + b)[0] == a[0];
      MatchingConcat(a[1..], b, q);
      var h := if Matches(a[0], q) then [a[0]] else [];
      assert Matching(a + b, q) == h + Matching(a[1..] + b, q);
      assert Matching(a, q) == h + Matching(a[1..], q);
      Associative(h, Matching(a[1..], q), Matching(b, q));
    }
  }

  /** The results for two lists of applications are those of the first followed by those of the second. */
  lemma SearchConcat(a: seq<AppInfo>, b: seq<AppInfo>, query: string)
    ensures Search(a + b, query) == Search(a, query) + Search(b, query)
  {
    var q := ToLower(query);
    var ma, mb := Matching(a, q), Matching(b, q);
    MatchingConcat(a, b, q);
    var r, ra, rb := Search(a + b, query), Search(a, query), Search(b, query);
    assert |r| == |ma| + |mb|;
    forall k | 0 <= k < |r| ensures r[k] == (ra + rb)[k] {
      assert r[k] == ResultOf((ma + mb)[k], q);
      if k < |ma| {
        assert ra[k] == ResultOf(ma[k], q);
      } else {
        assert rb[k - |ma|] == ResultOf(mb[k - |ma|], q);
      }
    }
  }

  /** One application gives one result when it matches and none otherwise. */
  lemma SearchSingle(app: AppInfo, query: string)
    ensures Search([app], query) == if Matches(app, ToLower(query)) then [ResultOf(app, ToLower(query))] else []
  {
    assert Matching([app], ToLower(query)) == (if Matches(app, ToLower(query)) then [app] else []) + Matching([], ToLower(query));
  }

  /** An application has a result exactly when it matches. */
  lemma SearchCoversMatches(apps: seq<AppInfo>, query: string, app: AppInfo)
    requires app in apps
    ensures Matches(app, ToLower(query)) <==> ResultOf(app, ToLower(query)) in Search(apps, query)
  {
    var q := ToLower(query);
    var m := Matching(apps, q);
    var r := Search(apps, query);
    MatchingMembers(apps, q);
    if Matches(app, q) {
      assert app in m;
      var k :| 0 <= k < |m| && m[k] == app;
      assert r[k] == ResultOf(app, q);
    } else {
      forall k | 0 <= k < |r| ensures r[k] != ResultOf(app, q) {
        assert m[k] in m && Matches(m[k], q);
      }
    }
  }

  /** An empty query lists every application, in order, each with the prefix score. */
  lemma EmptyQueryListsAll(apps: seq<AppInfo>)
    ensures |Search(apps, "")| == |apps|
    ensures forall k :: 0 <= k < |apps| ==> Search(apps, "")[k] == ResultOf(apps[k], "") && Search(apps, "")[k].score == 100
  {
    assert ToLower("") == "";
    assert forall a :: Matches(a, "");
    assert Matching(apps, "") == apps by {
      MatchingAll(apps, "");
    }
  }

  lemma {:induction false} MatchingAll(apps: seq<AppInfo>, q: string)
    requires forall a :: a in apps ==> Matches(a, q)
    ensures Matching(apps, q) == apps
  {
    if |apps| > 0 {
      assert forall a :: a in apps[1..] ==> a in apps;
      MatchingAll(apps[1..], q);
      assert apps[0] in apps;
      assert Matching(apps, q) == [apps[0]] + Matching(apps[1..], q);
      assert [apps[0]] + apps[1..] == apps;
    }
  }
}
