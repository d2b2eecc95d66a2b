/**
 * The plugin store (`StoreSource` in `src/plugins/core/store.ts`). An empty
 * query lists the installed plugins, each removable on activation; any other
 * query shapes the package list fetched from JSR: only `dg-plugin-` packages
 * are shown, marked when already installed, and installable on activation.
 * The fetch is modelled by its outcome, given as a parameter.
 */
module Store {
  import opened Interface
  import opened Config

  /** One package of the registry's answer: scope, name and the optional description. */
  datatype JsrItem = JsrItem(scope: string, name: string, description: Option<string>)

  /** How the request to the registry ended: a non-ok status, a parsed body (`items` possibly absent), an abort, or another error. */
  datatype FetchOutcome = NotOk | Fetched(items: Option<seq<JsrItem>>) | Aborted | Failed(error: string)

  const NamePrefix := "dg-plugin-"
  const InstalledMark := "[INSTALLED] "
  const InstalledSubtitle := "Installed - Press Enter to Remove"

  /** The single row shown for an empty query when nothing is installed. */
  const NothingInstalled := SearchResult("No plugins installed", "Type 'store <query>' to find plugins on JSR", 0, None, NoAction)

  /** The single row shown when the registry returned no `dg-plugin-` package. */
  const NoResults := SearchResult("No results found", "Only packages starting with 'dg-plugin-' are shown", 0, None, NoAction)

  /** The row for one installed plugin: its url, removed from the configuration on activation. */
  function InstalledRow(url: string): SearchResult {
    SearchResult(url, InstalledSubtitle, 100, None, UninstallPlugin(url))
  }

  /** The empty-query listing: one removable row per installed url, in order, or the placeholder. */
  function Listing(installed: seq<string>): (r: seq<SearchResult>)
    ensures |installed| == 0 ==> r == [NothingInstalled]
    ensures |installed| > 0 ==> |r| == |installed|
    ensures |installed| > 0 ==> forall k :: 0 <= k < |r| ==>
      r[k].title == installed[k] && r[k].score == 100 && r[k].action == UninstallPlugin(installed[k])
  {
    if |installed| == 0 then [NothingInstalled]
    else seq(|installed|, k requires 0 <= k < |installed| => InstalledRow(installed[k]))
  }

  predicate IsDgPlugin(item: JsrItem) {
    NamePrefix <= item.name
  }

  /** The `jsr:` url a package is installed under. */
  function FullUrl(item: JsrItem): string {
    "jsr:@" + item.scope + "/" + item.name
  }

  /** `item.description || "No description"`: an absent or empty description falls back. */
  function Describe(description: Option<string>): (d: string)
    ensures d == "No description" || (description.Some? && d == description.value)
    ensures description.Some? && description.value != "" ==> d == description.value
    ensures description.None? || description.value == "" ==> d == "No description"
  {
    if description.Some? && description.value != "" then description.value else "No description"
  }

  /** The row for one package, given the installed list as it stood when the search ran. */
  function ItemResult(item: JsrItem, installed: seq<string>): SearchResult {
    var isInstalled := FullUrl(item) in installed;
    SearchResult(
      "@" + item.scope + "/" + item.name,
      (if isInstalled then InstalledMark else "") + Describe(item.description),
      10,
      None,
      if isInstalled then NoAction else InstallPlugin(FullUrl(item)))
  }

  /** `items.filter(...)`: the `dg-plugin-` packages, in the order received. */
  function Filtered(items: seq<JsrItem>): (f: seq<JsrItem>)
    ensures |f| <= |items|
    ensures forall x :: x in f <==> x in items && IsDgPlugin(x)
  {
    if |items| == 0 then []
    else (if IsDgPlugin(items[0]) then [items[0]] else []) + Filtered(items[1..])
  }

  /** The rows for the packages received: one per `dg-plugin-` package, or the placeholder. */
  function Shape(items: seq<JsrItem>, installed: seq<string>): (r: seq<SearchResult>)
    ensures |r| >= 1
    ensures Filtered(items) == [] <==> r == [NoResults]
    ensures forall k :: 0 <= k < |r| && r[k] != NoResults ==>
      exists item :: item in items && IsDgPlugin(item) && r[k] == ItemResult(item, installed)
  {
    var f := Filtered(items);
    if |f| == 0 then [NoResults]
    else
      assert forall k :: 0 <= k < |f| ==> f[k] in f && f[k] in items && IsDgPlugin(f[k]);
      var r := seq(|f|, k requires 0 <= k < |f| => ItemResult(f[k], installed));
      assert r[0].score != NoResults.score;
      r
  }

  /** What `#performSearch` returns for a fetch outcome, given the installed list and the previous results. */
  function Performed(outcome: FetchOutcome, installed: seq<string>, last: seq<SearchResult>): (r: seq<SearchResult>)
    ensures outcome.NotOk? || outcome.Failed? ==> r == []
    ensures outcome.Aborted? ==> r == last
    ensures outcome.Fetched? ==> |r| >= 1
  {
    match outcome
    case NotOk => []
    case Fetched(items) => Shape(if items.Some? then items.value else [], installed)
    case Aborted => last
    case Failed(_) => []
  }

  /** A package's row is marked installed exactly when its url is in the installed list (for a description not itself starting with the mark). */
  lemma InstalledMarkIff(item: JsrItem, installed: seq<string>)
    requires !(InstalledMark <= Describe(item.description))
    ensures InstalledMark <= ItemResult(item, installed).subtitle <==> FullUrl(item) in installed
  {
    var d := Describe(item.description);
    if FullUrl(item) in installed {
      assert ItemResult(item, installed).subtitle == InstalledMark + d;
    } else {
      assert ItemResult(item, installed).subtitle == d;
    }
  }

  /** Activating a package's row installs its url exactly when it was not installed, and does nothing otherwise. */
  lemma ItemActionIff(item: JsrItem, installed: seq<string>)
    ensures ItemResult(item, installed).action == NoAction <==> FullUrl(item) in installed
    ensures FullUrl(item) !in installed <==> ItemResult(item, installed).action == InstallPlugin(FullUrl(item))
  {
  }

  /** The install url is the row's title behind the `jsr:` scheme. */
  lemma TitleIsUrl(item: JsrItem, installed: seq<string>)
    ensures FullUrl(item) == "jsr:" + ItemResult(item, installed).title
  {
    assert "jsr:@" + item.scope == "jsr:" + ("@" + item.scope);
  }

  /** Every `dg-plugin-` package received has its row. */
  lemma ShapeCoversPlugins(items: seq<JsrItem>, installed: seq<string>, item: JsrItem)
    requires item in items && IsDgPlugin(item)
    ensures ItemResult(item, installed) in Shape(items, installed)
  {
    var f := Filtered(items);
    assert item in f;
    var k :| 0 <= k < |f| && f[k] == item;
    assert Shape(items, installed)[k] == ItemResult(item, installed);
  }

  lemma {:induction false} FilteredAll(items: seq<JsrItem>)
    requires forall x :: x in items ==> IsDgPlugin(x)
    ensures Filtered(items) == items
  {
    if |items| > 0 {
      assert forall x :: x in items[1..] ==> x in items;
      FilteredAll(items[1..]);
      assert [items[0]] + items[1..] == items;
    }
  }

  /** When every package is a `dg-plugin-` one, the rows follow the packages one for one. */
  lemma ShapeOfPlugins(items: seq<JsrItem>, installed: seq<string>)
    requires |items| > 0 && forall x :: x in items ==> IsDgPlugin(x)
    ensures |Shape(items, installed)| == |items|
    ensures forall k :: 0 <= k < |items| ==> Shape(items, installed)[k] == ItemResult(items[k], installed)
  {
    FilteredAll(items);
  }

  /** With no `dg-plugin-` package among those received, the placeholder alone is shown. */
  lemma NoPluginGivesPlaceholder(items: seq<JsrItem>, installed: seq<string>)
    requires forall x :: x in items ==> !IsDgPlugin(x)
    ensures Shape(items, installed) == [NoResults]
  {
    FilteredNone(items);
  }

  lemma {:induction false} FilteredNone(items: seq<JsrItem>)
    requires forall x :: x in items ==> !IsDgPlugin(x)
    ensures Filtered(items) == []
  {
    if |items| > 0 {
      assert items[0] in items;
      assert forall x :: x in items[1..] ==> x in items;
      FilteredNone(items[1..]);
    }
  }

  /** Runs what a row's activation does to the configuration: an install adds the url, an uninstall removes it, anything else does nothing. */
  method Activate(action: Action, config: ConfigManager)
    modifies config
    ensures action.InstallPlugin? ==> old(action.url in config.Read()) ==> config.file == old(config.file) && config.writes == old(config.writes)
    ensures action.InstallPlugin? && old(action.url !in config.Read()) ==>
      config.file == Parsed(AddUrl(old(config.Read()), action.url)) && config.writes == old(config.writes) + [AddUrl(old(config.Read()), action.url)]
    ensures action.UninstallPlugin? && old(action.url in config.Read()) ==>
      config.file == Parsed(RemoveFirst(old(config.Read()), action.url)) && config.writes == old(config.writes) + [RemoveFirst(old(config.Read()), action.url)]
    ensures action.UninstallPlugin? && old(action.url !in config.Read()) ==> config.file == old(config.file) && config.writes == old(config.writes)
    ensures !action.InstallPlugin? && !action.UninstallPlugin? ==> config.file == old(config.file) && config.writes == old(config.writes)
  {
    match action {
      case InstallPlugin(url) => config.AddPlugin(url);
      case UninstallPlugin(url) => config.RemovePlugin(url);
      case _ =>
    }
  }

  class StoreSource {
    /** The store's own view of the configuration file. */
    const config: ConfigManager
    /** `#installedPlugins`: the list read at start-up and on every empty query. */
    var installed: seq<string>
    /** `#lastResults`: what the latest completed package search gave. */
    var lastResults: seq<SearchResult>
    /** `#isSearching` */
    var searching: bool

    constructor(file: ConfigFile)
      ensures fresh(config) && config.file == file && config.writes == []
      ensures installed == [] && lastResults == [] && !searching
    {
      config := new ConfigManager(file);
      installed := [];
      lastResults := [];
      searching := false;
    }

    /** `init`: reads the installed list. */
    method Init()
      modifies this
      ensures installed == config.Read()
      ensures lastResults == old(lastResults) && searching == old(searching)
    {
      installed := config.Read();
    }

    /**
     * `search(query)` once its debounce has run out: an empty query re-reads
     * the installed list and lists it; any other query shapes what the
     * registry gave and keeps it as the latest results.
     */
    method Search(query: string, outcome: FetchOutcome) returns (results: seq<SearchResult>)
      modifies this
      ensures query == "" ==> installed == config.Read() && results == Listing(installed) && lastResults == old(lastResults)
      ensures query != "" ==> installed == old(installed) && results == Performed(outcome, installed, old(lastResults)) && lastResults == results
      ensures !searching
    {
      if query == "" {
        searching := false;
        installed := config.Read();
        results := Listing(installed);
        return;
      }
      searching := true;
      results := Performed(outcome, installed, lastResults);
      lastResults := results;
      searching := false;
    }
  }

  /** A registry answer holding one `dg-plugin-` package gives exactly that package's row. */
  lemma SinglePluginShaped(item: JsrItem, installed: seq<string>, last: seq<SearchResult>)
    requires IsDgPlugin(item)
    ensures Performed(Fetched(Some([item])), installed, last) == [ItemResult(item, installed)]
  {
    ShapeOfPlugins([item], installed);
  }

  /** Every installed url has its removable row in the empty-query listing. */
  lemma ListingHasInstalled(installed: seq<string>, url: string)
    requires url in installed
    ensures InstalledRow(url) in Listing(installed)
  {
    var k :| 0 <= k < |installed| && installed[k] == url;
    assert Listing(installed)[k] == InstalledRow(url);
  }

  /**
   * A package not yet installed is found and activated; a second registry
   * search right after still offers its install, since the store's own list
   * is only re-read on an empty query; that empty query then lists it as
   * removable.
   */
  method InstallFromSearch(file: ConfigFile, item: JsrItem)
    returns (found: seq<SearchResult>, again: seq<SearchResult>, listed: seq<SearchResult>)
    requires IsDgPlugin(item) && (file.Parsed? ==> FullUrl(item) !in file.plugins)
    ensures file.Parsed? ==> found == [ItemResult(item, file.plugins)]
    ensures !file.Parsed? ==> found == [ItemResult(item, [])]
    ensures found[0].action == InstallPlugin(FullUrl(item))
    ensures |again| == 1 && again[0].action == InstallPlugin(FullUrl(item))
    ensures InstalledRow(FullUrl(item)) in listed
  {
    var store := new StoreSource(file);
    store.Init();
    SinglePluginShaped(item, store.installed, store.lastResults);
    found := store.Search("dg-plugin-", Fetched(Some([item])));
    Activate(found[0].action, store.config);
    SinglePluginShaped(item, store.installed, store.lastResults);
    again := store.Search("dg-plugin-", Fetched(Some([item])));
    listed := store.Search("", NotOk);
    ListingHasInstalled(store.installed, FullUrl(item));
  }
}
