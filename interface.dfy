/**
 * The shared vocabulary of the plugin system: search results, capability
 * records, plugin metadata and the two directions of the worker protocol.
 * A result's `onActivate` closure is represented by an `Action` value that
 * says what activating it does.
 */
module Interface {

  datatype Option<T> = None | Some(value: T)

  /** What awaiting code outside the model gave: a value, or a thrown error with its message. */
  datatype Outcome<T> = Returned(value: T) | Threw(error: string)

  /** What activating a search result does. */
  datatype Action =
    | NoAction
      /** A result hydrated by the host: posts `{type: "activate", id: resultId}` to the worker. */
    | PostActivate(resultId: string)
      /** Launch a desktop application: `sh -c "<exec> &"`. */
    | Launch(exec: string)
      /** Put a computed value on the clipboard. */
    | CopyToClipboard(text: string)
      /** Add a plugin URL to the configuration. */
    | InstallPlugin(url: string)
      /** Remove a plugin URL from the configuration. */
    | UninstallPlugin(url: string)
      /** A callback defined by plugin code inside a worker, opaque to the host. */
    | PluginCallback(token: nat)

  /** A result row; the score is an integer here (higher is better). */
  datatype SearchResult = SearchResult(
    title: string,
    subtitle: string,
    score: int,
    icon: Option<string>,
    action: Action)

  /** A permission value: `false`, `true`, or a list of scoped qualifiers. */
  datatype PermValue = Flag(enabled: bool) | Scoped(items: seq<string>)

  /** A permission record: its keys in insertion order, each with its value. */
  type PluginPermissions = seq<(string, PermValue)>

  function Keys(p: PluginPermissions): seq<string> {
    seq(|p|, i requires 0 <= i < |p| => p[i].0)
  }

  predicate Distinct(s: seq<string>) {
    forall i, j :: 0 <= i < j < |s| ==> s[i] != s[j]
  }

  /** A record never holds a key twice. */
  predicate DistinctKeys(p: PluginPermissions) {
    Distinct(Keys(p))
  }

  /** `p[k]`: the value stored under `k`, or `None` (`undefined`) when `k` is absent. */
  function Get(p: PluginPermissions, k: string): (v: Option<PermValue>)
    ensures v.None? <==> k !in Keys(p)
  {
    if |p| == 0 then None
    else if p[0].0 == k then
      assert Keys(p)[0] == k;
      Some(p[0].1)
    else
      assert Keys(p) == [p[0].0] + Keys(p[1..]);
      Get(p[1..], k)
  }

  /** In a record without repeated keys, the value at position `i` is the one stored under its key. */
  lemma {:induction false} GetAt(p: PluginPermissions, i: nat)
    requires DistinctKeys(p) && i < |p|
    ensures Get(p, p[i].0) == Some(p[i].1)
  {
    if i > 0 {
      assert Keys(p)[0] != Keys(p)[i];
      assert DistinctKeys(p[1..]) by {
        forall a, b | 0 <= a < b < |p[1..]| ensures Keys(p[1..])[a] != Keys(p[1..])[b] {
          assert Keys(p)[a + 1] != Keys(p)[b + 1];
        }
      }
      GetAt(p[1..], i - 1);
    }
  }

  datatype PluginMetadata = PluginMetadata(
    id: string,
    name: string,
    description: Option<string>,
    trigger: Option<string>,
    permissions: Option<PluginPermissions>)

  /** A result as it crosses the worker boundary: no closure, an id instead. */
  datatype TransportResult = TransportResult(title: string, subtitle: string, score: int, resultId: string)

  /** Host to worker. */
  datatype WorkerMessage =
    | SearchRequest(id: nat, query: string)
    | ActivateRequest(resultId: string)

  datatype LogLevel = Info | Error

  /** Worker to host. */
  datatype MainMessage =
    | Ready(metadata: PluginMetadata)
    | Results(id: nat, results: seq<TransportResult>)
    | Log(level: LogLevel, message: string)
}
