/**
 * The launcher window's search orchestration: routing a query to one
 * triggered plugin or to every global plugin, collecting their results,
 * ordering them by score, publishing only the latest search, activating
 * a result by index, and escaping text for Pango markup.
 *
 * A plugin's `search` is an oracle `respond(plugin index, query)` that
 * returns results or throws; the awaits between starting a search and
 * completing it are modelled by splitting `#updateSearch` into `Begin` and
 * `Complete`, so that other searches may begin in between.
 */
module Launcher {
  import opened Interface
  import opened Text

  /** A loaded plugin as the launcher sees it: its trigger keyword, if any. */
  datatype Plugin = Plugin(name: string, trigger: Option<string>)

  /** `!p.trigger`: no trigger, or the empty string. */
  predicate IsGlobal(p: Plugin) {
    p.trigger.None? || p.trigger == Some("")
  }

  /** Where a query goes. */
  datatype Route =
    | Triggered(plugin: nat, args: string)
    | Broadcast(plugins: seq<nat>, query: string)

  /** `plugins.find((p) => p.trigger === t)`, as an index; `|plugins|` when none matches. */
  function FindTrigger(plugins: seq<Plugin>, t: string): (i: nat)
    ensures i <= |plugins|
    ensures i < |plugins| ==> plugins[i].trigger == Some(t)
    ensures forall j :: 0 <= j < i ==> plugins[j].trigger != Some(t)
  {
    if |plugins| == 0 then 0
    else if plugins[0].trigger == Some(t) then 0
    else 1 + FindTrigger(plugins[1..], t)
  }

  /** The indices of `plugins.filter((p) => !p.trigger)`, in list order. */
  function GlobalIndices(plugins: seq<Plugin>, from: nat): (r: seq<nat>)
    requires from <= |plugins|
    ensures forall k :: 0 <= k < |r| ==> from <= r[k] < |plugins| && IsGlobal(plugins[r[k]])
    ensures forall k, l :: 0 <= k < l < |r| ==> r[k] < r[l]
    ensures forall j :: from <= j < |plugins| && IsGlobal(plugins[j]) ==> j in r
    decreases |plugins| - from
  {
    if from == |plugins| then []
    else if IsGlobal(plugins[from]) then [from] + GlobalIndices(plugins, from + 1)
    else GlobalIndices(plugins, from + 1)
  }

  /**
   * The routing rule of `#updateSearch`: split at spaces; the first piece is
   * the trigger and the others, re-joined with spaces, are the arguments. A
   * plugin is triggered only when there was at least one space.
   */
  function RouteQuery(plugins: seq<Plugin>, query: string): Route {
    var parts := Split(query, ' ');
    var i := if |parts| > 1 then FindTrigger(plugins, parts[0]) else |plugins|;
    if i < |plugins| then Triggered(i, Join(parts[1..], ' '))
    else Broadcast(GlobalIndices(plugins, 0), query)
  }

  /** Some plugin has trigger `t`. */
  predicate HasTrigger(plugins: seq<Plugin>, t: string) {
    exists j :: 0 <= j < |plugins| && plugins[j].trigger == Some(t)
  }

  /**
   * A query is routed to one plugin exactly when it holds a space and some
   * plugin's trigger is the text before the first space; that plugin is the
   * first such one in list order, and it receives the text after the first
   * space. Every other query goes unchanged to the global plugins.
   */
  lemma RouteQueryCases(plugins: seq<Plugin>, query: string)
    ensures RouteQuery(plugins, query).Triggered? <==>
      ' ' in query && HasTrigger(plugins, query[..IndexOf(query, ' ')])
    ensures RouteQuery(plugins, query).Triggered? ==>
      var i := RouteQuery(plugins, query).plugin;
      && i < |plugins|
      && plugins[i].trigger == Some(query[..IndexOf(query, ' ')])
      && (forall j :: 0 <= j < i ==> plugins[j].trigger != plugins[i].trigger)
      && RouteQuery(plugins, query).args == query[IndexOf(query, ' ') + 1..]
    ensures RouteQuery(plugins, query).Broadcast? ==>
      RouteQuery(plugins, query) == Broadcast(GlobalIndices(plugins, 0), query)
  {
    if ' ' in query {
      SplitAtFirst(query, ' ');
      var t := query[..IndexOf(query, ' ')];
      var i := FindTrigger(plugins, t);
      if HasTrigger(plugins, t) {
        var j :| 0 <= j < |plugins| && plugins[j].trigger == Some(t);
        assert i <= j;
      }
    } else {
      SplitWithoutSeparator(query, ' ');
    }
  }

  /** The test's plugin list: one plugin triggered by "s", one global. */
  function TestPlugins(): seq<Plugin> {
    [Plugin("trigger", Some("s")), Plugin("global", None)]
  }

  /** "s" goes to the global plugins, "s " triggers with "", "s query" triggers with "query". */
  lemma TriggerOnlyWithSpace()
    ensures RouteQuery(TestPlugins(), "s") == Broadcast([1], "s")
    ensures RouteQuery(TestPlugins(), "s ") == Triggered(0, "")
    ensures RouteQuery(TestPlugins(), "s query") == Triggered(0, "query")
  {
    LoneTriggerBroadcasts();
    TriggerWithEmptyQuery();
    TriggerWithQuery();
  }

  lemma LoneTriggerBroadcasts()
    ensures RouteQuery(TestPlugins(), "s") == Broadcast([1], "s")
  {
    var ps := TestPlugins();
    assert GlobalIndices(ps, 2) == [];
    assert GlobalIndices(ps, 0) == [1];
    SplitWithoutSeparator("s", ' ');
  }

  lemma TriggerWithEmptyQuery()
    ensures RouteQuery(TestPlugins(), "s ") == Triggered(0, "")
  {
    assert "s " == "s" + [' '] + "";
    SplitAfterPiece("s", "", ' ');
    assert Split("s ", ' ') == ["s", ""];
    assert FindTrigger(TestPlugins(), "s") == 0;
    assert Join([""], ' ') == "";
  }

  lemma SplitTriggerQuery()
    ensures Split("s query", ' ') == ["s", "query"]
  {
    assert "s" + [' '] == "s ";
    assert "s " + "query" == "s query";
    SplitAfterPiece("s", "query", ' ');
    SplitWithoutSeparator("query", ' ');
  }

  lemma TriggerWithQuery()
    ensures RouteQuery(TestPlugins(), "s query") == Triggered(0, "query")
  {
    SplitTriggerQuery();
    assert FindTrigger(TestPlugins(), "s") == 0;
    assert Join(["query"], ' ') == "query";
  }

  // ---------------------------------------------------------------------
  // Collecting and ordering results
  // ---------------------------------------------------------------------

  /** The first of `targets` whose search throws when asked with `query`; `|targets|` when none does. */
  function FirstThrow(targets: seq<nat>, query: string, respond: (nat, string) -> Outcome<seq<SearchResult>>): (n: nat)
    ensures n <= |targets|
    ensures forall k :: 0 <= k < n ==> respond(targets[k], query).Returned?
    ensures n < |targets| ==> respond(targets[n], query).Threw?
  {
    if |targets| == 0 then 0
    else if respond(targets[0], query).Threw? then 0
    else 1 + FirstThrow(targets[1..], query, respond)
  }

  /**
   * The loop over the global plugins: each is awaited in turn and its
   * results appended; the first search that throws ends the loop and the
   * whole of `#updateSearch` with it.
   */
  function Gathered(targets: seq<nat>, query: string, respond: (nat, string) -> Outcome<seq<SearchResult>>): Outcome<seq<SearchResult>> {
    if |targets| == 0 then Returned([])
    else
      match Gathered(targets[..|targets| - 1], query, respond)
      case Threw(e) => Threw(e)
      case Returned(earlier) =>
        match respond(targets[|targets| - 1], query)
        case Threw(e) => Threw(e)
        case Returned(last) => Returned(earlier + last)
  }

  /** The first `n` targets throw together exactly when the first throwing target lies among them. */
  lemma {:induction false} GatheredPrefix(targets: seq<nat>, query: string, respond: (nat, string) -> Outcome<seq<SearchResult>>, n: nat)
    requires n <= |targets|
    ensures Gathered(targets[..n], query, respond).Threw? <==> FirstThrow(targets, query, respond) < n
  {
    if n > 0 {
      GatheredPrefix(targets, query, respond, n - 1);
      assert targets[..n][..n - 1] == targets[..n - 1];
      assert targets[..n][n - 1] == targets[n - 1];
    }
  }

  /**
   * When no search throws, every target returned, and a row lies in the
   * concatenation exactly when it is among the results of one of them.
   */
  lemma {:induction false} GatheredMembers(targets: seq<nat>, query: string, respond: (nat, string) -> Outcome<seq<SearchResult>>, x: SearchResult)
    ensures Gathered(targets, query, respond).Returned? ==>
      (forall k :: 0 <= k < |targets| ==> respond(targets[k], query).Returned?) &&
      (x in Gathered(targets, query, respond).value <==>
        exists k :: 0 <= k < |targets| && x in respond(targets[k], query).value)
  {
    if |targets| > 0 && Gathered(targets, query, respond).Returned? {
      var init := targets[..|targets| - 1];
      GatheredMembers(init, query, respond, x);
      assert forall k :: 0 <= k < |init| ==> init[k] == targets[k];
      if x in Gathered(init, query, respond).value {
        var k :| 0 <= k < |init| && x in respond(init[k], query).value;
        assert targets[k] == init[k];
      }
      if exists k :: 0 <= k < |targets| && x in respond(targets[k], query).value {
        var k :| 0 <= k < |targets| && x in respond(targets[k], query).value;
        if k < |init| { assert init[k] == targets[k]; }
      }
    }
  }

  /** What the dispatched plugins give for a route: their results concatenated in the order they were asked, or the first throw. */
  function Collected(route: Route, respond: (nat, string) -> Outcome<seq<SearchResult>>): Outcome<seq<SearchResult>> {
    match route
    case Triggered(i, args) => respond(i, args)
    case Broadcast(targets, query) => Gathered(targets, query, respond)
  }

  /** The text a route hands to its plugins. */
  function Sent(route: Route): string {
    match route
    case Triggered(_, args) => args
    case Broadcast(_, query) => query
  }

  /** The plugins whose `search` is called for a route, in order: the broadcast stops after the first that throws. */
  function Asked(route: Route, respond: (nat, string) -> Outcome<seq<SearchResult>>): seq<nat> {
    match route
    case Triggered(i, _) => [i]
    case Broadcast(targets, query) =>
      var n := FirstThrow(targets, query, respond);
      targets[..if n < |targets| then n + 1 else n]
  }

  /**
   * The plugins asked are a prefix of the route's plugins; every one but the
   * last returned; the search as a whole throws exactly when the last one
   * asked threw, and a broadcast that does not throw asks every global plugin.
   */
  lemma AskedStopsAtFirstThrow(route: Route, respond: (nat, string) -> Outcome<seq<SearchResult>>)
    ensures route.Triggered? ==> Asked(route, respond) == [route.plugin]
    ensures route.Broadcast? ==> Asked(route, respond) <= route.plugins
    ensures forall k :: 0 <= k < |Asked(route, respond)| - 1 ==> respond(Asked(route, respond)[k], Sent(route)).Returned?
    ensures Collected(route, respond).Threw? <==>
      |Asked(route, respond)| > 0 && respond(Asked(route, respond)[|Asked(route, respond)| - 1], Sent(route)).Threw?
    ensures route.Broadcast? && Collected(route, respond).Returned? ==> Asked(route, respond) == route.plugins
  {
    if route.Broadcast? {
      var targets, query := route.plugins, route.query;
      GatheredPrefix(targets, query, respond, |targets|);
      assert targets[..|targets|] == targets;
    }
  }

  predicate NonIncreasing(s: seq<SearchResult>) {
    forall i, j :: 0 <= i < j < |s| ==> s[i].score >= s[j].score
  }

  /** Inserts `x` before the first element whose score is at most its own. */
  function InsertByScore(x: SearchResult, s: seq<SearchResult>): seq<SearchResult> {
    if |s| == 0 then [x]
    else if s[0].score <= x.score then [x] + s
    else [s[0]] + InsertByScore(x, s[1..])
  }

  lemma {:induction false} InsertByScoreMultiset(x: SearchResult, s: seq<SearchResult>)
    ensures multiset(InsertByScore(x, s)) == multiset(s) + multiset{x}
  {
    if |s| > 0 && s[0].score > x.score {
      InsertByScoreMultiset(x, s[1..]);
      assert s == [s[0]] + s[1..];
    }
  }

  lemma {:induction false} InsertByScoreOrdered(x: SearchResult, s: seq<SearchResult>)
    ensures NonIncreasing(s) ==> NonIncreasing(InsertByScore(x, s))
  {
    if |s| > 0 && s[0].score > x.score {
      InsertByScoreOrdered(x, s[1..]);
      InsertByScoreMultiset(x, s[1..]);
      InsertAboveHead(x, s, InsertByScore(x, s[1..]));
    } else if |s| > 0 && NonIncreasing(s) {
      var r := [x] + s;
      forall a, b | 0 <= a < b < |r| ensures r[a].score >= r[b].score {
        assert r[b] == s[b - 1];
        if a > 0 { assert r[a] == s[a - 1]; }
      }
    }
  }

  lemma InsertAboveHead(x: SearchResult, s: seq<SearchResult>, rest: seq<SearchResult>)
    requires |s| > 0 && s[0].score > x.score
    requires multiset(rest) == multiset(s[1..]) + multiset{x}
    requires NonIncreasing(s[1..]) ==> NonIncreasing(rest)
    ensures NonIncreasing(s) ==> NonIncreasing([s[0]] + rest)
  {
    if NonIncreasing(s) {
      var r := [s[0]] + rest;
      forall k | 0 <= k < |rest| ensures s[0].score >= rest[k].score {
        assert rest[k] in multiset(rest);
        if rest[k] != x {
          assert rest[k] in multiset(s[1..]);
          var j :| 0 <= j < |s[1..]| && s[1..][j] == rest[k];
          assert s[j + 1] == rest[k];
        }
      }
      assert NonIncreasing(s[1..]) by {
        forall a, b | 0 <= a < b < |s[1..]| ensures s[1..][a].score >= s[1..][b].score {
          assert s[a + 1] == s[1..][a] && s[b + 1] == s[1..][b];
        }
      }
      forall a, b | 0 <= a < b < |r| ensures r[a].score >= r[b].score {
        if a > 0 { assert r[a] == rest[a - 1] && r[b] == rest[b - 1]; }
        else { assert r[b] == rest[b - 1]; }
      }
    }
  }

  /** `results.sort((a, b) => b.score - a.score)`: a stable sort by descending score. */
  function SortByScore(s: seq<SearchResult>): (r: seq<SearchResult>)
    ensures multiset(r) == multiset(s)
    ensures NonIncreasing(r)
  {
    if |s| == 0 then []
    else
      var rest := SortByScore(s[1..]);
      InsertByScoreMultiset(s[0], rest);
      InsertByScoreOrdered(s[0], rest);
      assert s == [s[0]] + s[1..];
      InsertByScore(s[0], rest)
  }

  /** The elements of `s` with score `k`, in order. */
  function OfScore(s: seq<SearchResult>, k: int): seq<SearchResult> {
    if |s| == 0 then []
    else (if s[0].score == k then [s[0]] else []) + OfScore(s[1..], k)
  }

  lemma {:induction false} InsertOfScore(x: SearchResult, s: seq<SearchResult>, k: int)
    ensures OfScore(InsertByScore(x, s), k) == (if x.score == k then [x] else []) + OfScore(s, k)
  {
    if |s| > 0 && s[0].score > x.score {
      InsertOfScore(x, s[1..], k);
      InsertOfScoreBelow(x, s, k);
    } else {
      InsertOfScoreFirst(x, s, k);
    }
  }

  lemma InsertOfScoreFirst(x: SearchResult, s: seq<SearchResult>, k: int)
    requires |s| == 0 || s[0].score <= x.score
    ensures OfScore(InsertByScore(x, s), k) == (if x.score == k then [x] else []) + OfScore(s, k)
  {
    var r := [x] + s;
    assert InsertByScore(x, s) == r;
    assert r[1..] == s;
    assert OfScore(r, k) == (if x.score == k then [x] else []) + OfScore(r[1..], k);
  }

  lemma InsertOfScoreBelow(x: SearchResult, s: seq<SearchResult>, k: int)
    requires |s| > 0 && s[0].score > x.score
    requires OfScore(InsertByScore(x, s[1..]), k) == (if x.score == k then [x] else []) + OfScore(s[1..], k)
    ensures OfScore(InsertByScore(x, s), k) == (if x.score == k then [x] else []) + OfScore(s, k)
  {
    var rest := InsertByScore(x, s[1..]);
    var r := [s[0]] + rest;
    assert InsertByScore(x, s) == r;
    assert r[0] == s[0] && r[1..] == rest;
    OfScoreCons(r, k);
    OfScoreCons(s, k);
    var head := if s[0].score == k then [s[0]] else [];
    var mine := if x.score == k then [x] else [];
    assert head == [] || mine == [];
    Regroup(head, mine, OfScore(s[1..], k));
  }

  lemma Regroup<T>(head: seq<T>, mine: seq<T>, tail: seq<T>)
    requires head == [] || mine == []
    ensures head + (mine + tail) == mine + (head + tail)
  {
    if head == [] {
      assert head + (mine + tail) == mine + tail == mine + (head + tail);
    } else {
      assert head + (mine + tail) == head + tail == mine + (head + tail);
    }
  }

  lemma OfScoreCons(r: seq<SearchResult>, k: int)
    requires |r| > 0
    ensures OfScore(r, k) == (if r[0].score == k then [r[0]] else []) + OfScore(r[1..], k)
  {
  }

  /** Results of equal score keep their relative order. */
  lemma {:induction false} SortStable(s: seq<SearchResult>, k: int)
    ensures OfScore(SortByScore(s), k) == OfScore(s, k)
  {
    if |s| > 0 {
      SortStable(s[1..], k);
      InsertOfScore(s[0], SortByScore(s[1..]), k);
    }
  }

  // ---------------------------------------------------------------------
  // The window's search state
  // ---------------------------------------------------------------------

  class SearchWindow {
    var plugins: seq<Plugin>
    /** `#latestSearchId`: the id of the most recent search. */
    var latest: nat
    /** `#currentResults`: the list on display. */
    var current: seq<SearchResult>

    constructor(plugins: seq<Plugin>)
      ensures this.plugins == plugins && latest == 0 && current == []
    {
      this.plugins := plugins;
      latest := 0;
      current := [];
    }

    /** The first half of `#updateSearch`: takes a fresh id and decides the route. */
    method Begin(query: string) returns (id: nat, route: Route)
      modifies this
      ensures id == old(latest) + 1 && latest == id
      ensures route == RouteQuery(plugins, query)
      ensures plugins == old(plugins) && current == old(current)
    {
      latest := latest + 1;
      id := latest;
      route := RouteQuery(plugins, query);
    }

    /**
     * The second half of `#updateSearch`: asks the routed plugins in order,
     * concatenates their results, and publishes them sorted by score only if
     * no newer search has begun. A search that throws abandons the rest:
     * no later plugin is asked and nothing is published.
     */
    method Complete(id: nat, route: Route, respond: (nat, string) -> Outcome<seq<SearchResult>>)
      returns (published: bool, asked: seq<nat>)
      modifies this
      ensures asked == Asked(route, respond)
      ensures published <==> id == old(latest) && Collected(route, respond).Returned?
      ensures published ==> current == SortByScore(Collected(route, respond).value)
      ensures !published ==> current == old(current)
      ensures plugins == old(plugins) && latest == old(latest)
    {
      var results: seq<SearchResult> := [];
      var failed := false;
      match route {
        case Triggered(i, args) =>
          asked := [i];
          match respond(i, args) {
            case Threw(_) => failed := true;
            case Returned(rs) => results := rs;
          }
        case Broadcast(targets, query) =>
          ghost var first := FirstThrow(targets, query, respond);
          var n := 0;
          asked := [];
          while n < |targets| && !failed
            invariant 0 <= n <= |targets|
            invariant asked == targets[..n]
            invariant !failed ==> n <= first && Gathered(targets[..n], query, respond) == Returned(results)
            invariant failed ==> n == first + 1
          {
            assert targets[..n + 1][..n] == targets[..n];
            asked := asked + [targets[n]];
            match respond(targets[n], query) {
              case Threw(_) => failed := true;
              case Returned(rs) => results := results + rs;
            }
            n := n + 1;
          }
          GatheredPrefix(targets, query, respond, |targets|);
          assert targets[..|targets|] == targets;
      }
      published := !failed && id == latest;
      if published {
        current := SortByScore(results);
      }
    }

    /** `#activateResult`: the action of the result at `index`, when the index is in range. */
    method Activate(index: int) returns (ran: Option<Action>)
      ensures ran.Some? <==> 0 <= index < |current|
      ensures ran.Some? ==> ran.value == current[index].action
    {
      if index >= 0 && index < |current| {
        ran := Some(current[index].action);
      } else {
        ran := None;
      }
    }
  }

  /**
   * Two searches in flight: the first to begin completes first and
   * is discarded; only the newer one is published, and only if none of
   * its plugins throws.
   */
  method StaleSearchDiscarded(plugins: seq<Plugin>, q1: string, q2: string, respond: (nat, string) -> Outcome<seq<SearchResult>>)
    returns (shown: seq<SearchResult>, firstPublished: bool)
    ensures !firstPublished
    ensures Collected(RouteQuery(plugins, q2), respond).Returned? ==>
      shown == SortByScore(Collected(RouteQuery(plugins, q2), respond).value)
    ensures Collected(RouteQuery(plugins, q2), respond).Threw? ==> shown == []
  {
    var w := new SearchWindow(plugins);
    var id1, r1 := w.Begin(q1);
    var id2, r2 := w.Begin(q2);
    var asked1, asked2;
    firstPublished, asked1 := w.Complete(id1, r1, respond);
    var secondPublished;
    secondPublished, asked2 := w.Complete(id2, r2, respond);
    shown := w.current;
  }

  /**
   * A search that throws leaves the window as it was, even when it is the
   * latest: the previous results stay on display.
   */
  method ThrowingSearchKeepsResults(plugins: seq<Plugin>, q1: string, q2: string,
                                    respond1: (nat, string) -> Outcome<seq<SearchResult>>,
                                    respond2: (nat, string) -> Outcome<seq<SearchResult>>)
    returns (shown: seq<SearchResult>, secondPublished: bool)
    requires Collected(RouteQuery(plugins, q1), respond1).Returned?
    requires Collected(RouteQuery(plugins, q2), respond2).Threw?
    ensures !secondPublished
    ensures shown == SortByScore(Collected(RouteQuery(plugins, q1), respond1).value)
  {
    var w := new SearchWindow(plugins);
    var id1, r1 := w.Begin(q1);
    var firstPublished, asked1 := w.Complete(id1, r1, respond1);
    var id2, r2 := w.Begin(q2);
    var asked2;
    secondPublished, asked2 := w.Complete(id2, r2, respond2);
    shown := w.current;
  }

  // ---------------------------------------------------------------------
  // Markup escaping
  // ---------------------------------------------------------------------

  /** `#escapeMarkup`: `&`, then `<`, then `>` replaced by their entities. */
  function EscapeMarkup(text: string): (r: string)
    ensures '<' !in r && '>' !in r
    ensures '&' !in text && '<' !in text && '>' !in text ==> r == text
  {
    ReplaceChar(ReplaceChar(ReplaceChar(text, '&', "&amp;"), '<', "&lt;"), '>', "&gt;")
  }

  /** The entity for one character, or the character itself. */
  function EscapeChar(c: char): string {
    if c == '&' then "&amp;" else if c == '<' then "&lt;" else if c == '>' then "&gt;" else [c]
  }

  /** Escaping in a single pass, one character at a time. */
  function EscapeEach(text: string): string {
    if |text| == 0 then "" else EscapeChar(text[0]) + EscapeEach(text[1..])
  }

  lemma EscapeMarkupConcat(a: string, b: string)
    ensures EscapeMarkup(a + b) == EscapeMarkup(a) + EscapeMarkup(b)
  {
    ReplaceCharConcat(a, b, '&', "&amp;");
    var a1, b1 := ReplaceChar(a, '&', "&amp;"), ReplaceChar(b, '&', "&amp;");
    ReplaceCharConcat(a1, b1, '<', "&lt;");
    var a2, b2 := ReplaceChar(a1, '<', "&lt;"), ReplaceChar(b1, '<', "&lt;");
    ReplaceCharConcat(a2, b2, '>', "&gt;");
  }

  lemma EscapeMarkupChar(c: char)
    ensures EscapeMarkup([c]) == EscapeChar(c)
  {
    ReplaceCharSingle(c, '&', "&amp;");
    if c == '&' {
      EscapeAmpersandEntity();
    } else {
      ReplaceCharSingle(c, '<', "&lt;");
      if c != '<' {
        ReplaceCharSingle(c, '>', "&gt;");
      } else {
        assert '>' !in "&lt;";
      }
    }
  }

  /** The entity for `&` holds no `<` or `>`, so the later passes leave it alone. */
  lemma EscapeAmpersandEntity()
    ensures ReplaceChar(ReplaceChar("&amp;", '<', "&lt;"), '>', "&gt;") == "&amp;"
  {
    assert '<' !in "&amp;" && '>' !in "&amp;";
  }

  /** The three successive replacements escape each character independently: the entities they insert are not re-escaped. */
  lemma {:induction false} EscapeMarkupIsSinglePass(text: string)
    ensures EscapeMarkup(text) == EscapeEach(text)
  {
    if |text| > 0 {
      EscapeMarkupIsSinglePass(text[1..]);
      assert text == [text[0]] + text[1..];
      EscapeMarkupConcat([text[0]], text[1..]);
      EscapeMarkupChar(text[0]);
    }
  }
}
