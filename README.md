# dg launcher core, modelled in Dafny

dg is a Deno/GTK application launcher. Plugins answer search queries with
scored result rows, and activating a row runs its action. This project
models the logic around those plugins:

- **Launcher** (`src/main.ts`). A query either goes to the one plugin whose
  trigger is the text before its first space, or it goes to every global
  plugin. The results are collected and stably sorted by descending score,
  and only the latest search publishes them. A plugin search that throws
  ends the search with nothing published. Activation looks a row up by
  index. Text is escaped for Pango markup.
- **Host** (`src/plugins/worker/host.ts`). The worker plugin's host side:
  - it fills the deny-by-default permission record and picks the metadata
    probe's permissions;
  - it hands out search ids;
  - it resolves pending requests by reply or by timeout, ignoring late
    replies;
  - it hydrates replies so that activating a row posts an `activate`
    message.
- **Client** (`src/plugins/worker/client.ts`). The worker's own dispatcher.
  It posts `ready`, answers a search with transport records whose result
  ids are `"<id>_<idx>"`, stores each row's activation under that id,
  dispatches `activate`, and turns a throw into one error log.
- **Permissions** (`src/utils/permissions.ts`). The canonical form used to
  compare permission records, and the prompt text built from a record.
- **Loader** (`src/loader.ts`). The core plugins come first. Then each
  configured entry resolves its path, probes metadata and compares the
  normalized permissions. Depending on the result it is added, skipped, or
  prompted for and persisted. Every failure inside the loop's `try` affects
  only its own entry. A `null` entry fails before the `try` and makes the
  whole call reject, together with the core plugins (see Findings). The
  model keeps both that loop and the loop that reads the entry inside the
  `try`. Finally `init` runs on every plugin, and a plugin whose `init`
  throws is kept.
- **Config** (`src/config.ts`). Reading the plugin list, and the
  `addPlugin`/`removePlugin` edits with their writes.
- **DesktopEntry** (`src/apps.ts`). `parseDesktopFile`: a declarative
  reading of a `.desktop` file, with the source's single pass over its lines
  proved equal to it.
- **AppSearch** and **LegacyAppSearch** (`src/plugins/core/apps.ts`,
  `src/sources/apps.ts`). The filter and score of the application search.
  The legacy copy is proved to behave the same as the core one.
- **Calculator** (`src/plugins/core/calculator.ts`). The input gate and the
  result shape. Evaluation is a parameter.
- **Store** (`src/plugins/core/store.ts`). The empty-query listing of
  installed plugins, and the shaping of the registry's answer. The fetch is a
  given outcome.
- **Text** and **Interface** hold what these share: JavaScript's `trim`,
  `split`, `join`, `includes`, `indexOf` and `replace` on one character, and
  the result, action, permission and message types.

## Modelling choices

- A row's `onActivate` closure becomes an `Action` value that names what
  activation does: launch, copy, install, uninstall, post an activate
  message, or run plugin code.
- Code the model cannot see becomes a parameter:
  - plugin `search`, `init` and `onActivate`;
  - the metadata probe and the permission dialog;
  - `path.resolve` and `updatePlugin`;
  - evaluation in the calculator, and the registry fetch.
  Each either returns or throws (`Outcome`). A plugin `search` that throws
  inside `#updateSearch` is not caught (src/main.ts:215, 220): the rest of
  that search is abandoned.
- Awaits become explicit steps. `#updateSearch` is split into `Begin` and
  `Complete`, and a host timer firing is the event `Timeout(id)`.
- Scores are integers.
- A permission record is a list of key/value pairs in insertion order,
  without repeated keys. Comparing two `JSON.stringify` results is equality
  of such lists.
- Lowercasing is ASCII. `trim` and `\s` use the ECMAScript whitespace and
  line-terminator characters.

## Where the code departs from its tests and neighbours

The model follows the code as written:

- **Flatpak test.** It expects `@@u %u @@` to disappear from the flatpak
  `Exec` line. The code removes only `%u`, and `FlatpakEntryKeepsMarkers`
  proves that the markers stay.
- **Test import.** test/apps_test.ts imports `parseDesktopFile`, which
  src/apps.ts does not export. The model treats it as exported.
- **Config entries.**
  - In src/config.ts, `Config.plugins` is a list of strings. The loader
    reads `entry.url` and `entry.permissions`, so the loader takes entries
    as objects, bare strings, or `null`.
  - A bare string has no url and is skipped. So is any other value that is
    not `null` and has no `url`: a number, or each character of a string
    `plugins`.
  - `updatePlugin` does not exist in src/config.ts. It is a parameter of
    the loader, and a throw from it skips the entry.
- **Permission names.** `PERMISSION_NAMES` is imported by the host but is
  not defined in src/plugins/interface.ts. The model uses Deno's names:
  net, read, write, run, env, sys, ffi and hrtime.
- **Global search.** It awaits the global plugins one after another, and
  the model concatenates their results in that order.
- **Normalization.** `normalizePermissions` does not fill in absent keys,
  so `{net: false}` and `{}` differ.
- **Installed list.** The store's installed list is re-read only on an
  empty query, so a registry search right after an install still offers the
  install (`InstallFromSearch`).

## Model

| member | source | states |
|---|---|---|
| Launcher.FindTrigger | src/main.ts:209-211 | the index found has the trigger, and no earlier plugin has it; the end of the list when none does |
| Launcher.GlobalIndices | src/main.ts:218 | exactly the plugins with a falsy trigger, in increasing list order |
| Launcher.RouteQueryCases | src/main.ts:203-223 | a query is routed to one plugin iff it holds a space and some trigger equals the text before the first space; that plugin is the first such one and receives the text after the first space; every other query goes unchanged to the global plugins |
| Launcher.TriggerOnlyWithSpace | test/trigger_test.ts:54-108 | "s" goes to the global plugin, "s " triggers with "", "s query" triggers with "query" |
| Launcher.LoneTriggerBroadcasts | test/trigger_test.ts:60-71 | "s" alone is broadcast to the global plugin with the full query |
| Launcher.TriggerWithEmptyQuery | test/trigger_test.ts:78-89 | "s " triggers the "s" plugin with the empty query |
| Launcher.TriggerWithQuery | test/trigger_test.ts:96-107 | "s query" triggers the "s" plugin with "query" |
| Launcher.SplitTriggerQuery | test/trigger_test.ts:96 | "s query" splits at the space into "s" and "query" |
| Launcher.FirstThrow | src/main.ts:219-222 | the position of the first global plugin whose search throws: every earlier one returns, and the position is the end when none throws |
| Launcher.GatheredPrefix | src/main.ts:219-222 | the sequential loop over the first n global plugins throws iff the first throwing plugin lies among them |
| Launcher.GatheredMembers | src/main.ts:219-222 | when no search throws, every global plugin returned and a row is among the concatenated results iff it is among the results of one of the plugins asked |
| Launcher.AskedStopsAtFirstThrow | src/main.ts:213-222 | the plugins asked are the triggered one, or a prefix of the global ones in order; all but the last asked returned; the search throws iff the last one asked threw; a broadcast that does not throw asks every global plugin |
| Launcher.SortByScore | src/main.ts:228 | the sorted list is a permutation of the collected rows, in non-increasing score order |
| Launcher.SortStable | src/main.ts:228 | rows of equal score keep their relative order |
| Launcher.InsertByScoreMultiset | src/main.ts:228 | one insertion step adds exactly the inserted row |
| Launcher.InsertByScoreOrdered | src/main.ts:228 | one insertion step keeps a non-increasing list non-increasing |
| Launcher.InsertOfScore | src/main.ts:228 | one insertion step puts the row first among the rows of its score already in the list, and leaves the order of every other score unchanged |
| Launcher.SearchWindow.constructor | src/main.ts:40-48 | a window starts with search id 0 and nothing shown |
| Launcher.SearchWindow.Begin | src/main.ts:197-211 | each search takes an id one above the previous latest and becomes the latest; the route is the routing rule's |
| Launcher.SearchWindow.Complete | src/main.ts:212-231 | the plugins asked stop after the first search that throws; the results are published iff the search is still the latest and no search threw, and are then the sorted concatenation of the routed plugins' results; otherwise the shown results do not change |
| Launcher.SearchWindow.Activate | src/main.ts:291-297 | an action runs iff 0 <= index < number of rows shown, and it is that row's action |
| Launcher.StaleSearchDiscarded | src/main.ts:197-231 | of two overlapping searches, the older one does not publish and the newer one's results are shown unless one of its plugins throws, when nothing is shown |
| Launcher.ThrowingSearchKeepsResults | src/main.ts:213-231 | a later search whose plugin throws does not publish, even as the latest, and the earlier search's sorted results stay shown |
| Launcher.EscapeMarkup | src/main.ts:299-304 | the escaped text has no raw `<` or `>`; text without `&`, `<`, `>` is unchanged |
| Launcher.EscapeMarkupIsSinglePass | src/main.ts:299-304 | the three successive replacements escape each character on its own; no inserted entity is escaped again |
| Launcher.EscapeMarkupConcat | src/main.ts:299-304 | escaping distributes over concatenation |
| Launcher.EscapeMarkupChar | src/main.ts:299-304 | one character escapes to its entity or to itself |
| Launcher.EscapeAmpersandEntity | src/main.ts:301-303 | the `&amp;` entity passes the `<` and `>` replacements unchanged |
| Host.FillPermissions | src/plugins/worker/host.ts:48-54 | the record has exactly the permission names, in order, each with the requested value when truthy and `false` otherwise |
| Host.FilledDeniesUnrequested | src/plugins/worker/host.ts:48-54 | a permission name that was not requested is `false` |
| Host.ProbePermissions | src/plugins/worker/host.ts:71-84 | the probe record has the keys read, net, write, run, env |
| Host.ProbePermissionsChoice | src/plugins/worker/host.ts:71-84 | a remote path gets read=false and net=true, any other path read=[path] and net=false; write, run and env are false; nothing else is set |
| Host.Hydrate | src/plugins/worker/host.ts:143-153 | one row per transport record, in order, with title, subtitle and score kept; activation posts the record's result id |
| Host.UpTo | src/plugins/worker/host.ts:172 | the ids 1 to n in order |
| Host.Ids | src/plugins/worker/host.ts:140-155 | the ids of the resolved requests, in resolution order |
| Host.SearchKeepsBookkeeping | src/plugins/worker/host.ts:172-177 | handing out the next id, making it pending and posting its search message keeps every id posted once, in order, and pending or resolved exactly once |
| Host.ResolveKeepsBookkeeping | src/plugins/worker/host.ts:154-155 | resolving a pending id and deleting it keeps the bookkeeping invariant |
| Host.ActivateKeepsBookkeeping | src/plugins/worker/host.ts:147-151 | posting an activate message keeps the bookkeeping invariant |
| Host.WorkerSource.constructor | src/plugins/worker/host.ts:41-55 | id, name, trigger and path are taken from the metadata and path; the permission record is filled; no worker, no id used, nothing pending or posted |
| Host.WorkerSource.Init | src/plugins/worker/host.ts:113-135 | the worker exists afterwards; the search bookkeeping is unchanged |
| Host.WorkerSource.Search | src/plugins/worker/host.ts:169-186 | with no worker: an immediate `[]`, no id used and nothing posted; otherwise the next id is made pending and exactly one search message carrying it is posted; the bookkeeping invariant is kept |
| Host.WorkerSource.OnMessage | src/plugins/worker/host.ts:137-160 | a results message for a pending id resolves it with the hydrated rows and removes it; any other message changes nothing |
| Host.WorkerSource.Timeout | src/plugins/worker/host.ts:180-185 | a still-pending id resolves with `[]` and is removed; otherwise nothing changes |
| Host.WorkerSource.Resolve | src/plugins/worker/host.ts:154-155 | resolving a pending id records its results once and removes it from the pending set |
| Host.WorkerSource.Activate | src/plugins/worker/host.ts:147-151 | activating a hydrated row posts exactly one activate message with its result id |
| Host.LateReplyIgnored | src/plugins/worker/host.ts:140-141 | a request timed out and then answered resolves once, with `[]`, and nothing stays pending |
| Client.UnderscoreAfterDigits | src/plugins/worker/client.ts:66 | the first `_` of a result id ends the search id's digits |
| Client.ResultIdInjective | src/plugins/worker/client.ts:66 | distinct (search id, index) pairs give distinct result ids |
| Client.Transport | src/plugins/worker/client.ts:65-76 | one record per result, in order, with title, subtitle and score kept and result id `"<id>_<k>"` |
| Client.StoredLookup | src/plugins/worker/client.ts:67-69 | the stored map holds exactly the result ids of the results stored, each with its own result's activation |
| Client.TransportStep | src/plugins/worker/client.ts:65-76 | the records of one more result are the earlier records plus its own |
| Client.WorkerClient.constructor | src/plugins/worker/client.ts:47-53 | the `ready` message with the metadata is posted first; nothing stored, run or notified |
| Client.WorkerClient.HandleSearch | src/plugins/worker/client.ts:61-83 | a throwing search posts one error log and stores nothing; otherwise every result's activation is stored under its id and one results message with the request id is posted |
| Client.WorkerClient.HandleActivate | src/plugins/worker/client.ts:84-97 | the stored activation runs if there is one; then, unless it threw, the plugin's `onActivate` gets the id; each throw posts one error log |
| Client.HydrateTransport | src/plugins/worker/client.ts:61-83 | the host's hydrated copy of a reply keeps each row's title, subtitle and score, and row k posts back the id under which row k's activation is stored |
| Client.UnknownActivation | src/plugins/worker/client.ts:84-89 | an unknown id runs no stored activation but still reaches the plugin's `onActivate` |
| Permissions.StrLeTotal | src/utils/permissions.ts:8 | the string order used by `sort` is total |
| Permissions.StrLeAntisymmetric | src/utils/permissions.ts:8 | the string order is antisymmetric |
| Permissions.StrLeTransitive | src/utils/permissions.ts:8 | the string order is transitive |
| Permissions.SortStrings | src/utils/permissions.ts:8-12 | `sort` gives a sorted permutation of its input |
| Permissions.SortedUnique | src/utils/permissions.ts:8-12 | two sorted lists with the same elements are equal |
| Permissions.SortIgnoresOrder | src/utils/permissions.ts:8-12 | sorting depends only on the elements |
| Permissions.SortSorted | src/utils/permissions.ts:8-12 | sorting a sorted list changes nothing |
| Permissions.DistinctPermutation | src/utils/permissions.ts:8 | a permutation of a list without repeats has none |
| Permissions.NormalizePermissions | src/utils/permissions.ts:4-18 | the loop builds the canonical record: keys in sorted order, each list value sorted, other values passed through |
| Permissions.NormalizedKeys | src/utils/permissions.ts:7-9 | the canonical record has exactly the input's keys, in sorted order |
| Permissions.ExplicitFalseIsNotAbsent | src/utils/permissions.ts:8-16 | `{net: false}` and `{}` normalize differently |
| Permissions.NormalizedIgnoresOrder | src/utils/permissions.ts:4-18 | records equal up to key order and list order have the same canonical form |
| Permissions.SameValueNormal | src/utils/permissions.ts:10-15 | values equal up to list order normalize equally |
| Permissions.NormalizeIdempotent | src/utils/permissions.ts:4-18 | normalizing a canonical form changes nothing |
| Permissions.SectionsBulleted | src/utils/permissions.ts:23-56 | every listed section starts with a bullet |
| Permissions.AccumulatedIsJoinedPlusBlank | src/utils/permissions.ts:21-56 | the accumulated text is the sections joined by blank lines, plus a final blank line |
| Permissions.AccumulatedConcat | src/utils/permissions.ts:21-56 | accumulation distributes over concatenation |
| Permissions.TrimAccumulated | src/utils/permissions.ts:58 | trimming the accumulated text gives "" for no sections and otherwise the non-empty joined sections without trailing whitespace |
| Permissions.AppendListSection | src/utils/permissions.ts:23-43 | one list step appends the heading and lines of a non-empty list, then a blank line |
| Permissions.AppendFlagSection | src/utils/permissions.ts:46-56 | one flag step appends the line of a `true` permission, then a blank line |
| Permissions.FormatPermissions | src/utils/permissions.ts:20-59 | the text is the description of the sections in the fixed order: lists of net, read, write, run, env, then full grants of net, read, write, run, env, ffi, hrtime |
| Permissions.NothingListedIff | src/utils/permissions.ts:23-56 | nothing is listed iff no list among net..env is non-empty and no permission is `true` |
| Permissions.DescribeNothingIff | src/utils/permissions.ts:58 | the text is "No special permissions requested." iff nothing is listed |
| Permissions.InertValuesContributeNothing | src/utils/permissions.ts:23-56 | adding `false` or an empty list under a new key does not change the text |
| Interface.Get | src/utils/permissions.ts:10 | a lookup gives `undefined` exactly for an absent key |
| Interface.GetAt | src/utils/permissions.ts:9-10 | in a record without repeated keys, the value at a position is the one stored under its key |
| Loader.PluginPath | src/loader.ts:37-44 | a remote or `file://` url is used unchanged; anything else becomes "file://" + its resolved path |
| Loader.DecideCases | src/loader.ts:50-84 | unchanged permissions add the plugin with no dialog and no update; changed ones with no window skip it with no dialog; with a window the dialog shows the plugin's name and the requested record; a refusal skips it; an acceptance calls `updatePlugin(url, requested)` and adds the plugin iff that call returns |
| Loader.AddedNeedsMetadata | src/loader.ts:34-47 | a plugin is added only when its metadata loaded, at its resolved path, and never for a bare string or `null` entry |
| Loader.MissingGrantIsEmpty | src/loader.ts:50 | an entry without permissions is decided as if it granted `{}` |
| Loader.GrantOrderIrrelevant | src/loader.ts:50-56 | grants that differ only in key order or list order are decided the same, open the same dialog and make the same update |
| Loader.UserPluginsConcat | src/loader.ts:33-88 | the plugins added, the dialogs opened and the updates made for two runs of entries are those of the first run followed by those of the second |
| Loader.UserPluginsSingle | src/loader.ts:33-88 | one entry adds exactly the plugin it decides to add and opens exactly its own dialog and makes exactly its own update |
| Loader.UserPluginsBound | src/loader.ts:33-88 | each entry adds at most one plugin |
| Loader.EntryStep | src/loader.ts:33-88 | one more entry adds at most its own plugin, dialog and update, after the earlier ones |
| Loader.InitStep | src/loader.ts:92-98 | one more plugin initialised adds at most its own position to the failures |
| Loader.LoadEntry | src/loader.ts:34-87 | the loop body for one entry, with `entry.url` read inside the `try`: its decision, dialog and update call, every throw caught as a skip |
| Loader.PluginLoader.constructor | src/loader.ts:17-19 | the loader starts with no plugins and no dialogs, updates or init failures recorded |
| Loader.PluginLoader.LoadPlugins | src/loader.ts:21-101 | with `entry.url` read inside the `try`: the returned list is the loader's list, the core plugins and then the added user plugins in configuration order; the dialogs, updates and init failures are recorded in order |
| Loader.PluginLoader.LoadUserPlugins | src/loader.ts:33-88 | each entry, in order, appends at most its own plugin, dialog and update |
| Loader.PluginLoader.AddEntry | src/loader.ts:34-87 | one pass of the entry loop appends that entry's plugin, dialog and update, if any |
| Loader.UpdateNeedsPrompt | src/loader.ts:60-67 | an `updatePlugin` call is made only after the entry's dialog was accepted, with the url and the record the dialog showed |
| Loader.FirstNull | src/loader.ts:33-34 | the position of the first `null` entry: every earlier entry is not `null`, and the position is the end when there is none |
| Loader.Reached | src/loader.ts:33-34 | the entries the loop as written gets through: none for a list that is not iterable, otherwise the entries before the first `null` |
| Loader.AsWrittenRejectsNull | src/loader.ts:33-35 | as written, a `null` entry anywhere in the list makes `loadPlugins` reject |
| Loader.AsWrittenAgreesWithoutNull | src/loader.ts:33-88 | without a `null` entry, the loop as written resolves to the same list as the guarded loop |
| Loader.NullEntryLosesCorePlugins | src/loader.ts:34 | for `{"plugins": [null]}` the loop as written rejects, while the guarded loop resolves to the four core plugins |
| Loader.NullEntrySkipped | src/loader.ts:34-87 | with the guard inside the `try`, a `null` entry removes only itself: the plugins, dialogs and updates are those of the entries before and after it |
| Loader.NullAddsNothing | src/loader.ts:85-87 | with the guard inside the `try`, a `null` entry adds no plugin, dialog or update |
| Loader.PluginLoader.LoadCore | src/loader.ts:22-28 | the list is reset to the four core plugins and nothing else changes |
| Loader.PluginLoader.LoadPluginsAsWritten | src/loader.ts:21-101 | the loop as written: the core plugins and the entries before the first `null` are loaded; a `null` entry or a list that is not iterable rejects with no `init` run; otherwise every plugin is initialised and the list returned |
| Loader.PluginLoader.LoadUntilNull | src/loader.ts:33-88 | the entry loop as written stops at the first `null` entry, after loading every earlier entry in order |
| Loader.PluginLoader.InitPlugins | src/loader.ts:92-98 | every plugin is initialised in order and kept; the positions that threw are recorded |
| Loader.CoreFirst | src/loader.ts:25-28 | the list starts with apps, firefox, store, calculator and has at most one more plugin per entry |
| Config.FirstIndex | src/config.ts:47 | `indexOf`: the first position of the url, or "not found" exactly when it is absent |
| Config.AddUrl | src/config.ts:38-39 | the url is appended at the end when absent and the list is unchanged otherwise; no duplicates are introduced |
| Config.RemoveFirst | src/config.ts:47-49 | only the first occurrence is removed, the rest in order; an absent url changes nothing |
| Config.AddUrlIdempotent | src/config.ts:35-42 | adding a url twice is adding it once |
| Config.AddChangesIff | src/config.ts:38 | adding changes the list iff the url is absent |
| Config.RemoveChangesIff | src/config.ts:48 | removing changes the list iff the url is present |
| Config.RemoveAfterAdd | src/config.ts:35-52 | removing a url just added to a list without it gives the original list back |
| Config.RemoveFromDistinct | src/config.ts:44-52 | in a list without duplicates, removal leaves no trace of the url and no duplicates |
| Config.ConfigManager.constructor | src/config.ts:10-13 | the manager starts with the given file and no writes |
| Config.ConfigManager.Read | src/config.ts:26-33 | a parsed file gives its list; a missing or invalid one gives `[]` |
| Config.ConfigManager.Write | src/config.ts:40 | the list becomes the whole file and the write is recorded |
| Config.ConfigManager.AddPlugin | src/config.ts:35-42 | an absent url is appended and written once; a present one writes nothing |
| Config.ConfigManager.RemovePlugin | src/config.ts:44-52 | a present url has its first occurrence removed and written once; an absent one writes nothing |
| Config.AddThenRemove | src/config.ts:35-52 | add then remove of a new url restores the list with two writes; of a present url, removes it with one |
| DesktopEntry.StripWithoutPercent | src/apps.ts:69 | a command without `%` is not changed by the replacement |
| DesktopEntry.StripFieldCodesMembers | src/apps.ts:69 | the replacement only removes characters |
| DesktopEntry.StripFieldCodesConcat | src/apps.ts:69 | the replacement works piece by piece when the first piece does not end in `%` |
| DesktopEntry.TrimmedLines | src/apps.ts:37-45 | one trimmed line per line of the content, in order |
| DesktopEntry.FirstHeaderIsFirst | src/apps.ts:46-51 | the entry starts at the first header line, and no earlier line is one |
| DesktopEntry.SectionEndIsFirst | src/apps.ts:53 | the entry ends at the first other section after the header, and no earlier line opens one |
| DesktopEntry.SectionEndAt | src/apps.ts:53 | a position with no other section before it and one (or the end of the file) at it is where the entry ends |
| DesktopEntry.LastLineWins | src/apps.ts:55-60 | a key's value is that of its last line in the entry, cut after the 5-character prefix, and empty without such a line |
| DesktopEntry.EntryOfIff | src/apps.ts:66-79 | an entry is produced iff a header was seen and the name and command are non-empty and not hidden; it then has the name, cleaned command, icon and path |
| DesktopEntry.LinesBeforeHeaderIgnored | src/apps.ts:46-51 | lines before the first header do not change the result |
| DesktopEntry.OtherSectionEndsEntry | src/apps.ts:53 | once the entry has started, another section and everything after it are ignored |
| DesktopEntry.Extend | src/apps.ts:55-63 | one more line updates a key's value and the hidden flag by that line alone |
| DesktopEntry.ScanLine | src/apps.ts:44-63 | one loop step: the header switches on, earlier lines are skipped, another section stops, otherwise the first matching key is recorded |
| DesktopEntry.StepTracks | src/apps.ts:44-64 | the loop body keeps the scan equal to the declarative reading of the lines read, and stops exactly at the entry's end |
| DesktopEntry.FinishTracks | src/apps.ts:64 | a scan that ends at the entry's end, or at the end of the file, holds the declarative fields |
| DesktopEntry.ParseDesktopFile | src/apps.ts:36-80 | the single pass gives exactly the declarative entry of the file |
| DesktopEntry.FileEntry | src/apps.ts:37-45 | a file of plain lines yields what the fields of those lines say |
| DesktopEntry.FieldsOfEntryLines | src/apps.ts:44-64 | a header followed by Name=, Exec=, Icon= and Type= lines gives those three values, not hidden |
| DesktopEntry.CleanFirefox | src/apps.ts:69 | "firefox %u" cleans to "firefox" |
| DesktopEntry.StandardEntry | test/apps_test.ts:4-18 | the standard entry gives name "Firefox", command "firefox" and icon "firefox" |
| DesktopEntry.HiddenEntry | test/apps_test.ts:39-50 | the `NoDisplay=true` entry gives nothing |
| DesktopEntry.OtherSectionIgnored | test/apps_test.ts:52-64 | the desktop action's keys do not override the entry's: name "Test", command "test" |
| DesktopEntry.CleanFlatpak | src/apps.ts:69 | the flatpak command loses only its `%u` |
| DesktopEntry.FlatpakEntryKeepsMarkers | test/apps_test.ts:20-37 | the flatpak entry keeps its `@@u`/`@@` markers, so it is not the command the test expects |
| AppSearch.Score | src/plugins/core/apps.ts:28 | 100 iff the lowercased name starts with the lowercased query, else 50 |
| AppSearch.MatchingMembers | src/plugins/core/apps.ts:20-23 | the apps kept are exactly those whose lowercased name or command contains the lowercased query |
| AppSearch.SearchFromMatches | src/plugins/core/apps.ts:16-39 | every row is the row of a matching app: its name, command, score and launch |
| AppSearch.MatchingConcat | src/plugins/core/apps.ts:20-23 | filtering two app lists joined gives the two filtered lists joined |
| AppSearch.SearchConcat | src/plugins/core/apps.ts:20-25 | results follow the app list's order |
| AppSearch.SearchSingle | src/plugins/core/apps.ts:20-28 | one app gives one row when it matches and none otherwise |
| AppSearch.SearchCoversMatches | src/plugins/core/apps.ts:20-25 | an app has its row iff it matches |
| AppSearch.EmptyQueryListsAll | src/plugins/core/apps.ts:17-28 | an empty query lists every app in order, each with score 100 |
| LegacyAppSearch.Search | src/sources/apps.ts:13-37 | a row is returned iff it is the row of a matching app |
| LegacyAppSearch.SameAsCore | src/sources/apps.ts:13-37 | the legacy search equals the core search on every app list and query |
| Calculator.Clean | src/plugins/core/calculator.ts:15-21 | the cleaned text has no whitespace |
| Calculator.Search | src/plugins/core/calculator.ts:11-56 | at most one row; exactly one iff the query has 3+ characters, passes both tests and evaluates to a finite number; that row has score 110, the calculator icon, subtitle "Result of " + query and copies the value |
| Calculator.ShortQueryGivesNothing | src/plugins/core/calculator.ts:12 | a query shorter than three characters gives nothing |
| Calculator.ForeignCharacterGivesNothing | src/plugins/core/calculator.ts:25-27 | a character outside digits, operators, parentheses and dot gives nothing |
| Calculator.NoOperatorGivesNothing | src/plugins/core/calculator.ts:25-27 | a cleaned text without an operator gives nothing |
| Calculator.RejectedEvaluationGivesNothing | src/plugins/core/calculator.ts:30-34 | a throw, non-number, NaN or infinity gives nothing |
| Calculator.CleanPrefixed | test/calculator_test.ts:13-17 | "= 10 / 2" cleans to "10/2" |
| Calculator.AdditionResult | test/calculator_test.ts:7-11 | "2 + 2" gives one row, titled with what evaluation displays |
| Calculator.PlainNumberIgnored | test/calculator_test.ts:19-22 | "123" gives nothing |
| Calculator.LettersIgnored | test/calculator_test.ts:30-33 | "2 + abc" gives nothing |
| Store.Listing | src/plugins/core/store.ts:31-48 | no installed plugins give the single placeholder; otherwise one removable row per url, in order, titled with the url and scored 100 |
| Store.Describe | src/plugins/core/store.ts:96 | an absent or empty description falls back to "No description" |
| Store.Filtered | src/plugins/core/store.ts:79 | exactly the `dg-plugin-` packages are kept |
| Store.Shape | src/plugins/core/store.ts:79-104 | the placeholder iff no package is kept; every other row is the row of a kept package |
| Store.Performed | src/plugins/core/store.ts:68-110 | a non-ok response or an error gives `[]`, an abort gives the last results, a parsed answer gives at least one row |
| Store.InstalledMarkIff | src/plugins/core/store.ts:91-96 | a row is marked installed iff its url is in the installed list |
| Store.ItemActionIff | src/plugins/core/store.ts:98-102 | activation installs the url iff it was not installed, and does nothing otherwise |
| Store.TitleIsUrl | src/plugins/core/store.ts:91-95 | the install url is `jsr:` before the row's title |
| Store.ShapeCoversPlugins | src/plugins/core/store.ts:79-104 | every `dg-plugin-` package has its row |
| Store.ShapeOfPlugins | src/plugins/core/store.ts:90-104 | when every package is a plugin, the rows follow the packages one for one |
| Store.NoPluginGivesPlaceholder | src/plugins/core/store.ts:81-88 | no plugin package gives the single placeholder |
| Store.Activate | src/plugins/core/store.ts:44-47 | an install adds the url, an uninstall removes it, anything else leaves the configuration alone |
| Store.StoreSource.constructor | src/plugins/core/store.ts:10-15 | the store starts with nothing installed, no last results and not searching |
| Store.StoreSource.Init | src/plugins/core/store.ts:17-20 | the installed list is read from the configuration |
| Store.StoreSource.Search | src/plugins/core/store.ts:22-66 | an empty query re-reads the installed list and lists it; any other query shapes the outcome and keeps it as the last results |
| Store.SinglePluginShaped | src/plugins/core/store.ts:76-104 | an answer holding one `dg-plugin-` package gives exactly that package's row |
| Store.ListingHasInstalled | src/plugins/core/store.ts:40-48 | every installed url has its removable row in the empty-query listing |
| Store.InstallFromSearch | src/plugins/core/store.ts:22-104 | a package found and activated is still offered for install by a registry search right after, since the installed list is re-read only on an empty query; that empty query then lists it as removable |
| Text.TrimStartShape | src/plugins/core/calculator.ts:15 | leading-whitespace removal gives the longest suffix not starting with whitespace |
| Text.TrimEndShape | src/plugins/core/calculator.ts:15 | trailing-whitespace removal gives the longest prefix not ending with whitespace |
| Text.RemoveSpacesMembers | src/plugins/core/calculator.ts:21 | whitespace removal keeps exactly the non-whitespace characters |
| Text.RemoveSpacesConcat | src/plugins/core/calculator.ts:21 | whitespace removal works piece by piece |
| Text.ToLower | src/plugins/core/apps.ts:17 | lowercasing keeps the length |
| Text.ContainsIff | src/plugins/core/apps.ts:21-22 | `includes` holds iff the text occurs at some position |
| Text.IndexOf | src/main.ts:203 | the first position of the character, or "not found" exactly when it is absent |
| Text.Split | src/main.ts:203 | at least one piece, none holding the separator |
| Text.JoinSplit | src/main.ts:203-205 | joining the pieces of a split gives back the string |
| Text.SplitAtFirst | src/main.ts:203-205 | the first piece is the text before the first separator, and the rest rejoined is the text after it |
| Text.SplitJoin | src/main.ts:203-205 | splitting joined pieces without separators gives back the pieces |
| Text.ReplaceChar | src/main.ts:300-303 | replacing a character leaves no occurrence when the replacement has none, and adds only the replacement's characters |
| Text.ReplaceCharConcat | src/main.ts:300-303 | replacement works piece by piece |
| Text.Decimal | src/plugins/worker/client.ts:66 | a number's decimal text is non-empty digits |
| Text.DecimalRoundTrip | src/plugins/worker/client.ts:66 | reading a number's decimal text back gives the number |
| Text.DecimalInjective | src/plugins/worker/client.ts:66 | distinct numbers have distinct decimal texts |

## Findings

| source | as written | input that shows it | evidently intended | confidence | as-written member | corrected member |
|---|---|---|---|---|---|---|
| src/loader.ts:34 | `const url = entry.url` runs before the `try` of the entry loop, so a `null` entry throws out of `loadPlugins`; main.ts:66 then never assigns the plugin list, and even the core plugins are lost | the configuration `{"plugins": [null]}` (`NullEntryLosesCorePlugins`) | the read inside the `try`, so that a bad entry is skipped like any other failing entry and the rest still load | not executed | Loader.PluginLoader.LoadPluginsAsWritten | Loader.PluginLoader.LoadPlugins |

## Left out

- The GTK user interface: widgets, rendering rows, the quit and hide actions, the window life cycle and `run` (src/main.ts:30-189, 234-289, 306-322); it has no search logic.
- FirefoxSource (src/plugins/core/firefox.ts) is not part of this model: it reads SQLite databases and scores with floating point; the loader only names it as a core plugin.
- Spawning workers, Blob URLs and dynamic imports (src/plugins/worker/host.ts:62-69, 117-135), and the probe's own timeout and error handling (host.ts:88-107): they are runtime plumbing; the probe is a parameter of the loader that returns metadata or throws.
- Timers and aborts: the store's 500 ms debounce and its AbortController are not modelled; a host timer firing is the explicit `Timeout` event, and an aborted fetch is given as the `Aborted` outcome.
- The registry fetch and JSON body (src/plugins/core/store.ts:70-77) are an input outcome; `encodeURIComponent` of the query is not modelled.
- The calculator's `new Function` evaluation and `toString` of the number are a parameter; so the test's "(10 + 5) * 2" result of "30" is not derived.
- Launching processes and copying to the clipboard (`Deno.Command`) are action values only.
- `getApps` directory reading and its `localeCompare` sort (src/apps.ts:8-34): I/O and locale-dependent.
- Config file I/O and `ensureConfigDir` (src/config.ts:15-24): the file is a value that is missing, malformed or parsed.
- Config.ConfigManager.Read: a parsed file always holds a list of strings. A file whose `plugins` is absent or not an array makes `includes` and `indexOf` throw (src/config.ts:38, 47), and the store keeps it as its installed list, whose `length` then throws for an absent one (src/plugins/core/store.ts:19, 29-31). Only the loader models such a file, as `NotIterable` in `LoadPluginsAsWritten`.
- Loader.PluginLoader.LoadPlugins: it takes the entries of a list. A `plugins` value that is not iterable is modelled only by `LoadPluginsAsWritten`, where it rejects before the first entry.
- `promptPermissions` (src/utils/permissions.ts:61-87) is a dialog; the loader takes its answer as a parameter.
- Console logging everywhere, and the host's handling of `log` messages (src/plugins/worker/host.ts:157-159), which only prints.
- The `ready` message on the host side, which src/plugins/worker/host.ts ignores.
- `toLowerCase` is ASCII only; strings are sequences of characters, so UTF-16 lengths and non-ASCII case mapping are not modelled.
- `undefined` values inside a permission record are not modelled; a key is either absent or holds `true`, `false` or a list.
- Store.StoreSource.Search: `#isSearching` is only a field set and cleared; the debounce that makes it observable is not modelled.
- Launcher.SearchWindow.Complete: the plugins are asked one after another, as in the source, but the loading spinner and status text are not modelled; so the spinner left on after a search that throws is not captured, nor is the rejection escaping `#onSearchChanged` (src/main.ts:191-195) unhandled.
