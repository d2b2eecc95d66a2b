/**
 * `PluginLoader.loadPlugins`: the core plugins first, then each configured
 * user plugin whose metadata loads and whose permissions are unchanged or
 * newly accepted, each entry's failure isolated from the others, and
 * finally every plugin initialised, failures logged and the plugin kept.
 *
 * As written, the loop reads `entry.url` before its `try`, so a `null`
 * entry (or a `plugins` value that is not iterable) makes the whole call
 * reject; `LoadPluginsAsWritten` models that, and `LoadPlugins` the loop
 * with that read inside the `try`.
 *
 * Everything outside the loader is an oracle in `Env`: `path.resolve`, the
 * metadata probe, the permission dialog, `updatePlugin`, and each plugin's
 * `init`.
 */
module Loader {
  import opened Interface
  import opened Permissions
  import opened Text
  import Host

  /**
   * A configuration entry as the loader reads it: an object with a url and
   * optional permissions, a bare string (or any other value without a
   * `url`), or `null`.
   */
  datatype ConfigEntry = Bare(text: string) | Entry(url: string, permissions: Option<PluginPermissions>) | Null

  /**
   * What `config.plugins` is to the `for…of` loop: a list of entries, or a
   * value that is not iterable (absent, a number, an object, or read from a
   * file holding `null`).
   */
  datatype PluginList = Listed(entries: seq<ConfigEntry>) | NotIterable

  datatype CoreKind = Apps | Firefox | Store | Calculator

  datatype LoadedPlugin = Core(kind: CoreKind) | User(path: string, meta: PluginMetadata)

  datatype Env = Env(
    window: bool,
    resolve: string -> string,
    probe: string -> Outcome<PluginMetadata>,
    prompt: (string, PluginPermissions) -> bool,
    update: (string, PluginPermissions) -> Outcome<()>,
    init: LoadedPlugin -> Outcome<()>)

  datatype SkipReason = NoUrl | NullEntry | ProbeFailed(error: string) | NoWindow | Denied | UpdateFailed(error: string)

  /** What happens to one configuration entry. */
  datatype Decision = Added(plugin: LoadedPlugin) | Skipped(reason: SkipReason)

  function CorePlugins(): seq<LoadedPlugin> {
    [Core(Apps), Core(Firefox), Core(Store), Core(Calculator)]
  }

  /** The module path of a plugin: remote and `file://` urls as they are, anything else resolved to a `file://` url. */
  function PluginPath(url: string, resolve: string -> string): (path: string)
    ensures Host.IsRemote(url) || "file://" <= url ==> path == url
    ensures !(Host.IsRemote(url) || "file://" <= url) ==> path == "file://" + resolve(url)
  {
    if !Host.IsRemote(url) && !("file://" <= url) then "file://" + resolve(url) else url
  }

  /** `x.permissions || {}`. */
  function OrEmpty(p: Option<PluginPermissions>): PluginPermissions {
    if p.Some? then p.value else []
  }

  /** The normalized granted and requested records differ. */
  predicate Changed(granted: Option<PluginPermissions>, requested: Option<PluginPermissions>) {
    Normalized(OrEmpty(granted)) != Normalized(OrEmpty(requested))
  }

  /** The loop body of `loadPlugins` for one entry, with the read of `entry.url` inside the `try`. */
  function Decide(entry: ConfigEntry, env: Env): Decision {
    match entry
    case Bare(_) => Skipped(NoUrl)
    case Null => Skipped(NullEntry)
    case Entry(url, granted) =>
      var path := PluginPath(url, env.resolve);
      match env.probe(path)
      case Threw(e) => Skipped(ProbeFailed(e))
      case Returned(meta) =>
        if !Changed(granted, meta.permissions) then Added(User(path, meta))
        else if !env.window then Skipped(NoWindow)
        else if !env.prompt(meta.name, OrEmpty(meta.permissions)) then Skipped(Denied)
        else match env.update(url, OrEmpty(meta.permissions))
          case Threw(e) => Skipped(UpdateFailed(e))
          case Returned(_) => Added(User(path, meta))
  }

  /** The permission dialog an entry opens, if any: the plugin's name and the requested record. */
  function PromptCall(entry: ConfigEntry, env: Env): Option<(string, PluginPermissions)> {
    if entry.Entry? && env.probe(PluginPath(entry.url, env.resolve)).Returned? then
      var meta := env.probe(PluginPath(entry.url, env.resolve)).value;
      if Changed(entry.permissions, meta.permissions) && env.window
      then Some((meta.name, OrEmpty(meta.permissions)))
      else None
    else None
  }

  /** The `updatePlugin` call an entry makes, if any: only after the dialog was accepted. */
  function UpdateCall(entry: ConfigEntry, env: Env): Option<(string, PluginPermissions)> {
    if entry.Entry? && env.probe(PluginPath(entry.url, env.resolve)).Returned? then
      var meta := env.probe(PluginPath(entry.url, env.resolve)).value;
      if Changed(entry.permissions, meta.permissions) && env.window && env.prompt(meta.name, OrEmpty(meta.permissions))
      then Some((entry.url, OrEmpty(meta.permissions)))
      else None
    else None
  }

  /** The plugin a decision pushes, if any. */
  function Kept(d: Decision): seq<LoadedPlugin> {
    if d.Added? then [d.plugin] else []
  }

  /** The dialog opened or the `updatePlugin` call made, if any. */
  function Made(call: Option<(string, PluginPermissions)>): seq<(string, PluginPermissions)> {
    if call.Some? then [call.value] else []
  }

  /** The user plugins added for `entries`, in configuration order. */
  function UserPlugins(entries: seq<ConfigEntry>, env: Env): seq<LoadedPlugin> {
    if |entries| == 0 then []
    else
      UserPlugins(entries[..|entries| - 1], env) + Kept(Decide(entries[|entries| - 1], env))
  }

  /** The `updatePlugin` calls made for `entries`, in configuration order. */
  function Updates(entries: seq<ConfigEntry>, env: Env): seq<(string, PluginPermissions)> {
    if |entries| == 0 then []
    else
      Updates(entries[..|entries| - 1], env) + Made(UpdateCall(entries[|entries| - 1], env))
  }

  /** The permission dialogs opened for `entries`, in configuration order. */
  function Prompts(entries: seq<ConfigEntry>, env: Env): seq<(string, PluginPermissions)> {
    if |entries| == 0 then []
    else
      Prompts(entries[..|entries| - 1], env) + Made(PromptCall(entries[|entries| - 1], env))
  }

  /** The positions in `plugins` whose `init` threw. */
  function FailedInits(plugins: seq<LoadedPlugin>, env: Env): seq<nat> {
    if |plugins| == 0 then []
    else FailedInits(plugins[..|plugins| - 1], env) + (if env.init(plugins[|plugins| - 1]).Threw? then [|plugins| - 1] else [])
  }

  /**
   * Entries are decided independently: the plugins added for a list are
   * those added for its first part followed by those added for the rest, so
   * a failing entry removes only itself and the others keep their order.
   */
  lemma UserPluginsConcat(a: seq<ConfigEntry>, b: seq<ConfigEntry>, env: Env)
    ensures UserPlugins(a + b, env) == UserPlugins(a, env) + UserPlugins(b, env)
    ensures Prompts(a + b, env) == Prompts(a, env) + Prompts(b, env)
    ensures Updates(a + b, env) == Updates(a, env) + Updates(b, env)
  {
    PluginsConcat(a, b, env);
    PromptsConcat(a, b, env);
    UpdatesConcat(a, b, env);
  }

  lemma {:induction false} PluginsConcat(a: seq<ConfigEntry>, b: seq<ConfigEntry>, env: Env)
    ensures UserPlugins(a + b, env) == UserPlugins(a, env) + UserPlugins(b, env)
    decreases |b|
  {
    if |b| == 0 {
      assert a + b == a;
    } else {
      var b', x := b[..|b| - 1], b[|b| - 1];
      assert (a + b)[..|a + b| - 1] == a + b';
      assert (a + b)[|a + b| - 1] == x;
      PluginsConcat(a, b', env);
      Associative(UserPlugins(a, env), UserPlugins(b', env), Kept(Decide(x, env)));
    }
  }

  lemma {:induction false} PromptsConcat(a: seq<ConfigEntry>, b: seq<ConfigEntry>, env: Env)
    ensures Prompts(a + b, env) == Prompts(a, env) + Prompts(b, env)
    decreases |b|
  {
    if |b| == 0 {
      assert a + b == a;
    } else {
      var b', x := b[..|b| - 1], b[|b| - 1];
      assert (a + b)[..|a + b| - 1] == a + b';
      assert (a + b)[|a + b| - 1] == x;
      PromptsConcat(a, b', env);
      Associative(Prompts(a, env), Prompts(b', env), Made(PromptCall(x, env)));
    }
  }

  lemma {:induction false} UpdatesConcat(a: seq<ConfigEntry>, b: seq<ConfigEntry>, env: Env)
    ensures Updates(a + b, env) == Updates(a, env) + Updates(b, env)
    decreases |b|
  {
    if |b| == 0 {
      assert a + b == a;
    } else {
      var b', x := b[..|b| - 1], b[|b| - 1];
      assert (a + b)[..|a + b| - 1] == a + b';
      assert (a + b)[|a + b| - 1] == x;
      UpdatesConcat(a, b', env);
      Associative(Updates(a, env), Updates(b', env), Made(UpdateCall(x, env)));
    }
  }

  /** One entry on its own adds exactly the plugin it decides to add. */
  lemma UserPluginsSingle(e: ConfigEntry, env: Env)
    ensures UserPlugins([e], env) == (if Decide(e, env).Added? then [Decide(e, env).plugin] else [])
    ensures Prompts([e], env) == (if PromptCall(e, env).Some? then [PromptCall(e, env).value] else [])
    ensures Updates([e], env) == (if UpdateCall(e, env).Some? then [UpdateCall(e, env).value] else [])
  {
    assert [e][..0] == [];
  }

  /**
   * The permission check: unchanged permissions add the plugin with no
   * dialog and no update; changed permissions with no window skip it with
   * no dialog; with a window, the dialog shows the plugin's name and the
   * requested record, a refusal skips it and an acceptance calls
   * `updatePlugin` with that record, adding the plugin unless that call
   * throws.
   */
  lemma DecideCases(url: string, granted: Option<PluginPermissions>, env: Env)
    requires env.probe(PluginPath(url, env.resolve)).Returned?
    ensures var path := PluginPath(url, env.resolve);
      var meta := env.probe(path).value;
      var d := Decide(Entry(url, granted), env);
      var dialog := PromptCall(Entry(url, granted), env);
      var call := UpdateCall(Entry(url, granted), env);
      && (!Changed(granted, meta.permissions) ==> d == Added(User(path, meta)) && dialog.None? && call.None?)
      && (Changed(granted, meta.permissions) && !env.window ==> d == Skipped(NoWindow) && dialog.None? && call.None?)
      && (Changed(granted, meta.permissions) && env.window ==> dialog == Some((meta.name, OrEmpty(meta.permissions))))
      && (Changed(granted, meta.permissions) && env.window && !env.prompt(meta.name, OrEmpty(meta.permissions)) ==>
            d == Skipped(Denied) && call.None?)
      && (Changed(granted, meta.permissions) && env.window && env.prompt(meta.name, OrEmpty(meta.permissions)) ==>
            call == Some((url, OrEmpty(meta.permissions)))
            && (d.Added? <==> env.update(url, OrEmpty(meta.permissions)).Returned?))
  {
  }

  /** An `updatePlugin` call is made only after the entry's dialog was accepted. */
  lemma UpdateNeedsPrompt(entry: ConfigEntry, env: Env)
    ensures UpdateCall(entry, env).Some? ==>
      && PromptCall(entry, env).Some?
      && env.prompt(PromptCall(entry, env).value.0, PromptCall(entry, env).value.1)
      && UpdateCall(entry, env).value == (entry.url, PromptCall(entry, env).value.1)
  {
  }

  /** A plugin is added only when its metadata loaded; a bare string or `null` entry is never added. */
  lemma AddedNeedsMetadata(entry: ConfigEntry, env: Env)
    ensures Decide(entry, env).Added? ==>
      && entry.Entry?
      && env.probe(PluginPath(entry.url, env.resolve)).Returned?
      && Decide(entry, env).plugin == User(PluginPath(entry.url, env.resolve), env.probe(PluginPath(entry.url, env.resolve)).value)
  {
  }

  /** A missing permissions field on the entry counts as the empty record. */
  lemma MissingGrantIsEmpty(url: string, env: Env)
    ensures Decide(Entry(url, None), env) == Decide(Entry(url, Some([])), env)
  {
  }

  /**
   * Granted permissions written in another key order or with their lists
   * reordered are the same grant: the decision does not change.
   */
  lemma GrantOrderIrrelevant(url: string, p: PluginPermissions, q: PluginPermissions, env: Env)
    requires multiset(Keys(p)) == multiset(Keys(q))
    requires forall k :: k in Keys(p) ==> SameValue(ValueOf(p, k), ValueOf(q, k))
    ensures Decide(Entry(url, Some(p)), env) == Decide(Entry(url, Some(q)), env)
    ensures PromptCall(Entry(url, Some(p)), env) == PromptCall(Entry(url, Some(q)), env)
    ensures UpdateCall(Entry(url, Some(p)), env) == UpdateCall(Entry(url, Some(q)), env)
  {
    NormalizedIgnoresOrder(p, q);
  }

  /** One more configuration entry adds at most its own plugin, dialog and `updatePlugin` call. */
  lemma EntryStep(entries: seq<ConfigEntry>, i: nat, env: Env)
    requires i < |entries|
    ensures UserPlugins(entries[..i + 1], env) == UserPlugins(entries[..i], env) + Kept(Decide(entries[i], env))
    ensures Prompts(entries[..i + 1], env) == Prompts(entries[..i], env) + Made(PromptCall(entries[i], env))
    ensures Updates(entries[..i + 1], env) == Updates(entries[..i], env) + Made(UpdateCall(entries[i], env))
  {
    assert entries[..i + 1][..i] == entries[..i];
  }

  /** One more initialised plugin adds at most its own position. */
  lemma InitStep(plugins: seq<LoadedPlugin>, k: nat, env: Env)
    requires k < |plugins|
    ensures FailedInits(plugins[..k + 1], env) ==
      FailedInits(plugins[..k], env) + (if env.init(plugins[k]).Threw? then [k] else [])
  {
    assert plugins[..k + 1][..k] == plugins[..k];
  }

  /**
   * The `try` block of the loop for one entry, with the read of `entry.url`
   * moved into it: the plugin to push, or why the entry is skipped, and the
   * dialog opened and `updatePlugin` call made on the way.
   */
  method LoadEntry(entry: ConfigEntry, env: Env)
    returns (decision: Decision, dialog: Option<(string, PluginPermissions)>, call: Option<(string, PluginPermissions)>)
    ensures decision == Decide(entry, env)
    ensures dialog == PromptCall(entry, env)
    ensures call == UpdateCall(entry, env)
  {
    dialog, call := None, None;
    if entry.Null? {
      // Reading `url` from `null` throws, and the `catch` skips the entry.
      return Skipped(NullEntry), dialog, call;
    }
    if entry.Bare? {
      // `entry.url` is undefined and `url.startsWith` throws.
      return Skipped(NoUrl), dialog, call;
    }
    var url := entry.url;
    var path := PluginPath(url, env.resolve);
    var probed := env.probe(path);
    if probed.Threw? {
      return Skipped(ProbeFailed(probed.error)), dialog, call;
    }
    var meta := probed.value;
    var granted := OrEmpty(entry.permissions);
    var requested := OrEmpty(meta.permissions);
    if Normalized(granted) != Normalized(requested) {
      if env.window {
        dialog := Some((meta.name, requested));
        var accepted := env.prompt(meta.name, requested);
        if accepted {
          call := Some((url, requested));
          var updated := env.update(url, requested);
          if updated.Threw? {
            return Skipped(UpdateFailed(updated.error)), dialog, call;
          }
        } else {
          return Skipped(Denied), dialog, call;
        }
      } else {
        return Skipped(NoWindow), dialog, call;
      }
    }
    decision := Added(User(path, meta));
  }

  /** The position of the first `null` entry, or the length of the list when there is none. */
  function FirstNull(entries: seq<ConfigEntry>): (n: nat)
    ensures n <= |entries|
    ensures forall j :: 0 <= j < n ==> !entries[j].Null?
    ensures n < |entries| ==> entries[n].Null?
  {
    if |entries| == 0 then 0
    else if entries[0].Null? then 0
    else 1 + FirstNull(entries[1..])
  }

  /** The entries the loop as written gets through before it throws or ends. */
  function Reached(list: PluginList): (done: seq<ConfigEntry>)
    ensures list.NotIterable? ==> done == []
    ensures list.Listed? ==> done <= list.entries && forall j :: 0 <= j < |done| ==> !done[j].Null?
    ensures list.Listed? && |done| < |list.entries| ==> list.entries[|done|].Null?
  {
    if list.NotIterable? then [] else list.entries[..FirstNull(list.entries)]
  }

  /**
   * What `loadPlugins` as written settles with: it rejects with a
   * `TypeError` when the list is not iterable or holds a `null` entry, and
   * otherwise resolves to the core plugins followed by the added user ones.
   */
  function AsWrittenResult(list: PluginList, env: Env): Outcome<seq<LoadedPlugin>> {
    if list.NotIterable? || |Reached(list)| < |list.entries| then Threw("TypeError")
    else Returned(CorePlugins() + UserPlugins(list.entries, env))
  }

  /** As written, one `null` entry anywhere makes `loadPlugins` reject, whatever the other entries are. */
  lemma AsWrittenRejectsNull(a: seq<ConfigEntry>, b: seq<ConfigEntry>, env: Env)
    ensures AsWrittenResult(Listed(a + [Null] + b), env).Threw?
  {
    var entries := a + [Null] + b;
    assert entries[|a|].Null?;
    assert FirstNull(entries) <= |a|;
  }

  /** Without a `null` entry the loop as written and the guarded one resolve to the same list. */
  lemma AsWrittenAgreesWithoutNull(entries: seq<ConfigEntry>, env: Env)
    requires forall j :: 0 <= j < |entries| ==> !entries[j].Null?
    ensures AsWrittenResult(Listed(entries), env) == Returned(CorePlugins() + UserPlugins(entries, env))
  {
  }

  /**
   * The configuration `{"plugins": [null]}`: as written `loadPlugins`
   * rejects, so the launcher never receives even the core plugins, while the
   * guarded loop resolves to exactly the core plugins.
   */
  lemma NullEntryLosesCorePlugins(env: Env)
    ensures AsWrittenResult(Listed([Null]), env).Threw?
    ensures CorePlugins() + UserPlugins([Null], env) == CorePlugins()
  {
    AsWrittenRejectsNull([], [], env);
    assert [] + [Null] + [] == [Null];
    UserPluginsSingle(Null, env);
  }

  /** With the guard inside the `try`, a `null` entry removes only itself: the others are decided as if it were absent. */
  lemma NullEntrySkipped(a: seq<ConfigEntry>, b: seq<ConfigEntry>, env: Env)
    ensures UserPlugins(a + [Null] + b, env) == UserPlugins(a, env) + UserPlugins(b, env)
    ensures Prompts(a + [Null] + b, env) == Prompts(a, env) + Prompts(b, env)
    ensures Updates(a + [Null] + b, env) == Updates(a, env) + Updates(b, env)
  {
    var rest := [Null] + b;
    assert a + [Null] + b == a + rest;
    NullAddsNothing(env);
    assert UserPlugins(rest, env) == UserPlugins(b, env) by {
      PluginsConcat([Null], b, env);
    }
    assert Prompts(rest, env) == Prompts(b, env) by {
      PromptsConcat([Null], b, env);
    }
    assert Updates(rest, env) == Updates(b, env) by {
      UpdatesConcat([Null], b, env);
    }
    UserPluginsConcat(a, rest, env);
  }

  lemma NullAddsNothing(env: Env)
    ensures UserPlugins([Null], env) == [] && Prompts([Null], env) == [] && Updates([Null], env) == []
  {
    UserPluginsSingle(Null, env);
  }

  class PluginLoader {
    /** `#plugins`. */
    var plugins: seq<LoadedPlugin>
    /** The permission dialogs opened, oldest first: the plugin's name and the requested record. */
    var prompts: seq<(string, PluginPermissions)>
    /** The `updatePlugin` calls made, oldest first. */
    var updates: seq<(string, PluginPermissions)>
    /** Positions in `plugins` whose `init` threw, in the order they were tried. */
    var initFailed: seq<nat>

    constructor()
      ensures plugins == [] && prompts == [] && updates == [] && initFailed == []
    {
      plugins := [];
      prompts := [];
      updates := [];
      initFailed := [];
    }

    /** Step 1 of `loadPlugins`: the list is reset to the four core plugins. */
    method LoadCore()
      modifies this
      ensures plugins == CorePlugins()
      ensures prompts == old(prompts) && updates == old(updates) && initFailed == old(initFailed)
    {
      plugins := [];
      plugins := plugins + [Core(Apps)];
      plugins := plugins + [Core(Firefox)];
      plugins := plugins + [Core(Store)];
      plugins := plugins + [Core(Calculator)];
    }

    /**
     * `loadPlugins` with the read of `entry.url` inside the `try`, given the
     * entries the configuration read returned: the core plugins, then the
     * user plugins each entry adds, then `init` on every plugin, none of
     * them removed when it fails.
     */
    method LoadPlugins(entries: seq<ConfigEntry>, env: Env) returns (loaded: seq<LoadedPlugin>)
      modifies this
      ensures loaded == plugins == CorePlugins() + UserPlugins(entries, env)
      ensures prompts == old(prompts) + Prompts(entries, env)
      ensures updates == old(updates) + Updates(entries, env)
      ensures initFailed == old(initFailed) + FailedInits(loaded, env)
    {
      LoadCore();
      LoadUserPlugins(entries, env);
      loaded := plugins;
      InitPlugins(env);
    }

    /**
     * `loadPlugins` as written: the entries up to the first `null` are
     * loaded, and there (or at once, for a list that is not iterable) the
     * call rejects without running any `init`.
     */
    method LoadPluginsAsWritten(list: PluginList, env: Env) returns (result: Outcome<seq<LoadedPlugin>>)
      modifies this
      ensures result == AsWrittenResult(list, env)
      ensures plugins == CorePlugins() + UserPlugins(Reached(list), env)
      ensures prompts == old(prompts) + Prompts(Reached(list), env)
      ensures updates == old(updates) + Updates(Reached(list), env)
      ensures result.Returned? ==> initFailed == old(initFailed) + FailedInits(plugins, env)
      ensures result.Threw? ==> initFailed == old(initFailed)
    {
      LoadCore();
      if list.NotIterable? {
        // `for…of` on a value that is not iterable throws before the first entry.
        assert CorePlugins() + [] == CorePlugins();
        return Threw("TypeError");
      }
      var stopped := LoadUntilNull(list.entries, env);
      if stopped < |list.entries| {
        return Threw("TypeError");
      }
      assert list.entries[..stopped] == list.entries;
      InitPlugins(env);
      result := Returned(plugins);
    }

    /**
     * The entry loop as written: each entry is loaded in turn until one is
     * `null`, where `const url = entry.url` throws before the `try`; the
     * position reached is returned.
     */
    method LoadUntilNull(entries: seq<ConfigEntry>, env: Env) returns (stopped: nat)
      modifies this
      ensures stopped == FirstNull(entries)
      ensures plugins == old(plugins) + UserPlugins(entries[..stopped], env)
      ensures prompts == old(prompts) + Prompts(entries[..stopped], env)
      ensures updates == old(updates) + Updates(entries[..stopped], env)
      ensures initFailed == old(initFailed)
    {
      assert entries[..0] == [];
      stopped := 0;
      while stopped < |entries| && !entries[stopped].Null?
        invariant stopped <= |entries|
        invariant forall j :: 0 <= j < stopped ==> !entries[j].Null?
        invariant plugins == old(plugins) + UserPlugins(entries[..stopped], env)
        invariant prompts == old(prompts) + Prompts(entries[..stopped], env)
        invariant updates == old(updates) + Updates(entries[..stopped], env)
        invariant initFailed == old(initFailed)
        decreases |entries| - stopped
      {
        AddEntry(entries[stopped], env);
        EntryStep(entries, stopped, env);
        Associative(old(plugins), UserPlugins(entries[..stopped], env), Kept(Decide(entries[stopped], env)));
        Associative(old(prompts), Prompts(entries[..stopped], env), Made(PromptCall(entries[stopped], env)));
        Associative(old(updates), Updates(entries[..stopped], env), Made(UpdateCall(entries[stopped], env)));
        stopped := stopped + 1;
      }
    }

    /** Step 2 of `loadPlugins`: each configuration entry, in order, appends at most its own plugin. */
    method LoadUserPlugins(entries: seq<ConfigEntry>, env: Env)
      modifies this
      ensures plugins == old(plugins) + UserPlugins(entries, env)
      ensures prompts == old(prompts) + Prompts(entries, env)
      ensures updates == old(updates) + Updates(entries, env)
      ensures initFailed == old(initFailed)
    {
      assert entries[..0] == [];
      for i := 0 to |entries|
        invariant plugins == old(plugins) + UserPlugins(entries[..i], env)
        invariant prompts == old(prompts) + Prompts(entries[..i], env)
        invariant updates == old(updates) + Updates(entries[..i], env)
        invariant initFailed == old(initFailed)
      {
        AddEntry(entries[i], env);
        EntryStep(entries, i, env);
        Associative(old(plugins), UserPlugins(entries[..i], env), Kept(Decide(entries[i], env)));
        Associative(old(prompts), Prompts(entries[..i], env), Made(PromptCall(entries[i], env)));
        Associative(old(updates), Updates(entries[..i], env), Made(UpdateCall(entries[i], env)));
      }
      assert entries[..|entries|] == entries;
    }

    /** One pass of the entry loop: the entry's dialog and `updatePlugin` call are recorded and its plugin, if any, pushed. */
    method AddEntry(entry: ConfigEntry, env: Env)
      modifies this
      ensures plugins == old(plugins) + Kept(Decide(entry, env))
      ensures prompts == old(prompts) + Made(PromptCall(entry, env))
      ensures updates == old(updates) + Made(UpdateCall(entry, env))
      ensures initFailed == old(initFailed)
    {
      var decision, dialog, call := LoadEntry(entry, env);
      prompts := prompts + Made(dialog);
      updates := updates + Made(call);
      plugins := plugins + Kept(decision);
    }

    /** The last step of `loadPlugins`: `init` on every plugin in order, recording the ones that threw. */
    method InitPlugins(env: Env)
      modifies this
      ensures plugins == old(plugins) && prompts == old(prompts) && updates == old(updates)
      ensures initFailed == old(initFailed) + FailedInits(plugins, env)
    {
      assert plugins[..0] == [];
      for k := 0 to |plugins|
        invariant plugins == old(plugins) && prompts == old(prompts) && updates == old(updates)
        invariant initFailed == old(initFailed) + FailedInits(plugins[..k], env)
      {
        InitStep(plugins, k, env);
        if env.init(plugins[k]).Threw? {
          ghost var failed := FailedInits(plugins[..k], env);
          initFailed := initFailed + [k];
          assert initFailed == old(initFailed) + (failed + [k]);
        }
      }
      assert plugins[..|plugins|] == plugins;
    }
  }

  /** The returned list always starts with the core plugins: apps, firefox, store, calculator. */
  method CoreFirst(entries: seq<ConfigEntry>, env: Env) returns (loaded: seq<LoadedPlugin>)
    ensures |loaded| >= 4 && loaded[..4] == [Core(Apps), Core(Firefox), Core(Store), Core(Calculator)]
    ensures |loaded| <= 4 + |entries|
  {
    var loader := new PluginLoader();
    loaded := loader.LoadPlugins(entries, env);
    UserPluginsBound(entries, env);
  }

  lemma {:induction false} UserPluginsBound(entries: seq<ConfigEntry>, env: Env)
    ensures |UserPlugins(entries, env)| <= |entries|
  {
    if |entries| > 0 {
      UserPluginsBound(entries[..|entries| - 1], env);
    }
  }
}
