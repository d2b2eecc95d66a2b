/**
 * The older `AppSource` under `src/sources/apps.ts`, kept beside the core
 * one. Its search is written here as a single pass that tests and maps each
 * application in turn, and it is proved to give the same results as the
 * core search's filter followed by a map.
 */
module LegacyAppSearch {
  import opened Interface
  import opened Text
  import opened DesktopEntry
  import AppSearch

  /** `search(query)`: the results of the matching applications, one each, in list order. */
  function Search(apps: seq<AppInfo>, query: string): (r: seq<SearchResult>)
    ensures |r| <= |apps|
    ensures forall x :: x in r <==>
      exists app :: app in apps && AppSearch.Matches(app, ToLower(query)) && x == AppSearch.ResultOf(app, ToLower(query))
  {
    if |apps| == 0 then []
    else
      var q := ToLower(query);
      var rest := Search(apps[1..], query);
      assert forall a :: a in apps[1..] ==> a in apps;
      assert apps == [apps[0]] + apps[1..];
      (if AppSearch.Matches(apps[0], q) then [AppSearch.ResultOf(apps[0], q)] else []) + rest
  }

  /** The legacy search and the core search agree on every application list and query. */
  lemma {:induction false} SameAsCore(apps: seq<AppInfo>, query: string)
    ensures Search(apps, query) == AppSearch.Search(apps, query)
  {
    if |apps| > 0 {
      SameAsCore(apps[1..], query);
      assert apps == [apps[0]] + apps[1..];
      AppSearch.SearchConcat([apps[0]], apps[1..], query);
      AppSearch.SearchSingle(apps[0], query);
    }
  }
}
