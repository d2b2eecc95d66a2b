/**
 * The host side of a worker plugin (`WorkerSource`): the permission record
 * the worker is started with, the permissions of the metadata probe, and
 * the bookkeeping of search requests: a counter of ids, the set of pending
 * ids, the messages posted to the worker, and the promises resolved so far.
 *
 * Spawning the worker is reduced to a flag; a timer firing is the explicit
 * event `Timeout(id)`.
 */
module Host {
  import opened Interface

  /** The permission names every worker record has, deny-by-default. */
  const PermissionNames: seq<string> := ["net", "read", "write", "run", "env", "sys", "ffi", "hrtime"]

  /** `x || false` keeps `x` unless it is `false` or `undefined`; an array, even an empty one, is kept. */
  predicate Truthy(v: Option<PermValue>) {
    v.Some? && v.value != Flag(false)
  }

  /** The value the constructor stores for one name. */
  function Filled(requested: PluginPermissions, name: string): PermValue {
    if Truthy(Get(requested, name)) then Get(requested, name).value else Flag(false)
  }

  /**
   * The constructor's loop: every name in `PermissionNames`, in order, with
   * the requested value when that value is truthy and `false` otherwise;
   * requested keys outside the list are dropped.
   */
  method FillPermissions(requested: Option<PluginPermissions>) returns (perms: PluginPermissions)
    ensures Keys(perms) == PermissionNames
    ensures forall k :: 0 <= k < |perms| ==>
      perms[k].1 == (if requested.Some? then Filled(requested.value, perms[k].0) else Flag(false))
  {
    var req := if requested.Some? then requested.value else [];
    perms := [];
    for i := 0 to |PermissionNames|
      invariant |perms| == i
      invariant forall k :: 0 <= k < i ==> perms[k] == (PermissionNames[k], Filled(req, PermissionNames[k]))
    {
      var v := Get(req, PermissionNames[i]);
      perms := perms + [(PermissionNames[i], if v.Some? && v.value != Flag(false) then v.value else Flag(false))];
    }
    assert Keys(perms) == PermissionNames;
  }

  /** The filled record has no repeated names and gives every name outside the request `false`. */
  lemma FilledDeniesUnrequested(requested: PluginPermissions, perms: PluginPermissions, name: string)
    requires Keys(perms) == PermissionNames
    requires forall k :: 0 <= k < |perms| ==> perms[k].1 == Filled(requested, perms[k].0)
    requires name in PermissionNames && name !in Keys(requested)
    ensures Get(perms, name) == Some(Flag(false))
  {
    assert DistinctKeys(perms);
    var k :| 0 <= k < |perms| && PermissionNames[k] == name;
    assert Keys(perms)[k] == perms[k].0;
    GetAt(perms, k);
  }

  /** `url.startsWith("http") || ... "https" || ... "jsr:" || ... "npm:"`. */
  predicate IsRemote(url: string) {
    "http" <= url || "https" <= url || "jsr:" <= url || "npm:" <= url
  }

  /** The permissions of the worker that reads a plugin's metadata. */
  function ProbePermissions(filePath: string): (r: PluginPermissions)
    ensures Keys(r) == ["read", "net", "write", "run", "env"]
  {
    [ ("read", if IsRemote(filePath) then Flag(false) else Scoped([filePath])),
      ("net", Flag(IsRemote(filePath))),
      ("write", Flag(false)),
      ("run", Flag(false)),
      ("env", Flag(false)) ]
  }

  /**
   * A remote module may use the network but read nothing; a local one may
   * read only its own file and not use the network; neither may write,
   * run subprocesses or read the environment.
   */
  lemma ProbePermissionsChoice(filePath: string)
    ensures IsRemote(filePath) ==> Get(ProbePermissions(filePath), "read") == Some(Flag(false))
    ensures IsRemote(filePath) ==> Get(ProbePermissions(filePath), "net") == Some(Flag(true))
    ensures !IsRemote(filePath) ==> Get(ProbePermissions(filePath), "read") == Some(Scoped([filePath]))
    ensures !IsRemote(filePath) ==> Get(ProbePermissions(filePath), "net") == Some(Flag(false))
    ensures forall name :: name in ["write", "run", "env"] ==> Get(ProbePermissions(filePath), name) == Some(Flag(false))
    ensures forall name :: name !in ["read", "net", "write", "run", "env"] ==> Get(ProbePermissions(filePath), name).None?
  {
    var r := ProbePermissions(filePath);
    assert DistinctKeys(r);
    GetAt(r, 0);
    GetAt(r, 1);
    GetAt(r, 2);
    GetAt(r, 3);
    GetAt(r, 4);
  }

  /** `msg.results.map(...)`: the results as the launcher sees them, activation posting their result id back. */
  function Hydrate(rs: seq<TransportResult>): (r: seq<SearchResult>)
    ensures |r| == |rs|
    ensures forall k :: 0 <= k < |r| ==>
      && r[k].title == rs[k].title && r[k].subtitle == rs[k].subtitle && r[k].score == rs[k].score
      && r[k].action == PostActivate(rs[k].resultId)
  {
    seq(|rs|, k requires 0 <= k < |rs| => SearchResult(rs[k].title, rs[k].subtitle, rs[k].score, None, PostActivate(rs[k].resultId)))
  }

  /** What `search` returns: an immediate `[]` or a promise keyed by its request id. */
  datatype SearchOutcome = Immediate(results: seq<SearchResult>) | Awaiting(id: nat)

  /** The ids of the search requests among the posted messages, in posting order. */
  function SearchIds(outbox: seq<WorkerMessage>): seq<nat> {
    if |outbox| == 0 then []
    else SearchIds(outbox[..|outbox| - 1]) + (if outbox[|outbox| - 1].SearchRequest? then [outbox[|outbox| - 1].id] else [])
  }

  /** `[1, 2, ..., n]`. */
  function UpTo(n: nat): (r: seq<nat>)
    ensures |r| == n && forall k :: 0 <= k < n ==> r[k] == k + 1
  {
    if n == 0 then [] else UpTo(n - 1) + [n]
  }

  /** The ids of the resolved requests, in resolution order. */
  function Ids(resolved: seq<(nat, seq<SearchResult>)>): (r: seq<nat>)
    ensures |r| == |resolved| && forall k :: 0 <= k < |r| ==> r[k] == resolved[k].0
  {
    if |resolved| == 0 then [] else Ids(resolved[..|resolved| - 1]) + [resolved[|resolved| - 1].0]
  }

  /**
   * Every id handed out so far, 1 to `counter`, was posted in exactly one
   * search message, in order, and is either still pending or resolved,
   * never both and never twice.
   */
  predicate Bookkeeping(counter: nat, pending: set<nat>, outbox: seq<WorkerMessage>, resolved: seq<(nat, seq<SearchResult>)>) {
    && SearchIds(outbox) == UpTo(counter)
    && (forall i :: i in pending ==> 1 <= i <= counter)
    && (forall k :: 0 <= k < |resolved| ==> 1 <= resolved[k].0 <= counter && resolved[k].0 !in pending)
    && (forall k, l :: 0 <= k < l < |resolved| ==> resolved[k].0 != resolved[l].0)
    && (forall i :: 1 <= i <= counter ==> i in pending || i in Ids(resolved))
  }

  /** Handing out the next id, registering it and posting its search message keeps the bookkeeping. */
  lemma SearchKeepsBookkeeping(counter: nat, pending: set<nat>, outbox: seq<WorkerMessage>, resolved: seq<(nat, seq<SearchResult>)>, query: string)
    requires Bookkeeping(counter, pending, outbox, resolved)
    ensures Bookkeeping(counter + 1, pending + {counter + 1}, outbox + [SearchRequest(counter + 1, query)], resolved)
  {
    var next, sent := counter + 1, outbox + [SearchRequest(counter + 1, query)];
    var waiting := pending + {next};
    assert sent[..|sent| - 1] == outbox;
    assert SearchIds(sent) == UpTo(next);
    forall k | 0 <= k < |resolved| ensures 1 <= resolved[k].0 <= next && resolved[k].0 !in waiting {
      assert resolved[k].0 <= counter;
    }
    forall i | 1 <= i <= next ensures i in waiting || i in Ids(resolved) {
      if i < next {
        assert i in pending || i in Ids(resolved);
      }
    }
  }

  /** Posting an activate message keeps the bookkeeping: it carries no search id. */
  lemma ActivateKeepsBookkeeping(counter: nat, pending: set<nat>, outbox: seq<WorkerMessage>, resolved: seq<(nat, seq<SearchResult>)>, resultId: string)
    requires Bookkeeping(counter, pending, outbox, resolved)
    ensures Bookkeeping(counter, pending, outbox + [ActivateRequest(resultId)], resolved)
  {
    var sent := outbox + [ActivateRequest(resultId)];
    assert sent[..|sent| - 1] == outbox;
    assert SearchIds(sent) == SearchIds(outbox);
  }

  /** Resolving a pending id and forgetting it keeps the bookkeeping. */
  lemma ResolveKeepsBookkeeping(counter: nat, pending: set<nat>, outbox: seq<WorkerMessage>, resolved: seq<(nat, seq<SearchResult>)>, i: nat, results: seq<SearchResult>)
    requires Bookkeeping(counter, pending, outbox, resolved) && i in pending
    ensures Bookkeeping(counter, pending - {i}, outbox, resolved + [(i, results)])
  {
    var next := resolved + [(i, results)];
    assert next[..|next| - 1] == resolved;
    assert Ids(next) == Ids(resolved) + [i];
  }

  class WorkerSource {
    const id: string
    const name: string
    const trigger: Option<string>
    const path: string
    /** The record the worker is started with. */
    const permissions: PluginPermissions
    /** Whether `init` has created the worker. */
    var started: bool
    /** `#searchIdCounter`. */
    var counter: nat
    /** The keys of `#pendingSearches`. */
    var pending: set<nat>
    /** Messages posted to the worker, oldest first. */
    var outbox: seq<WorkerMessage>
    /** Promises resolved so far, with the results each received, oldest first. */
    var resolved: seq<(nat, seq<SearchResult>)>

    /** The request bookkeeping is consistent (see `Bookkeeping`). */
    predicate Valid()
      reads this
    {
      Bookkeeping(counter, pending, outbox, resolved)
    }

    constructor(path: string, metadata: PluginMetadata)
      ensures Valid()
      ensures id == metadata.id && name == metadata.name && trigger == metadata.trigger && this.path == path
      ensures Keys(permissions) == PermissionNames
      ensures forall k :: 0 <= k < |permissions| ==>
        permissions[k].1 == (if metadata.permissions.Some? then Filled(metadata.permissions.value, permissions[k].0) else Flag(false))
      ensures !started && counter == 0 && pending == {} && outbox == [] && resolved == []
    {
      id := metadata.id;
      name := metadata.name;
      trigger := metadata.trigger;
      this.path := path;
      var perms := FillPermissions(metadata.permissions);
      permissions := perms;
      started := false;
      counter := 0;
      pending := {};
      outbox := [];
      resolved := [];
    }

    /** `init`: creates the worker. */
    method Init()
      requires Valid()
      modifies this
      ensures Valid() && started
      ensures counter == old(counter) && pending == old(pending) && outbox == old(outbox) && resolved == old(resolved)
    {
      started := true;
    }

    /**
     * `search`: without a worker, `[]` at once and nothing else; otherwise the
     * next id is registered as pending and one search message carrying it is
     * posted.
     */
    method Search(query: string) returns (outcome: SearchOutcome)
      requires Valid()
      modifies this
      ensures Valid()
      ensures !started ==> outcome == Immediate([]) && counter == old(counter) && pending == old(pending) && outbox == old(outbox)
      ensures started ==> outcome == Awaiting(counter) && counter == old(counter) + 1
      ensures started ==> pending == old(pending) + {counter} && outbox == old(outbox) + [SearchRequest(counter, query)]
      ensures resolved == old(resolved) && started == old(started)
    {
      if !started {
        return Immediate([]);
      }
      SearchKeepsBookkeeping(counter, pending, outbox, resolved, query);
      counter := counter + 1;
      pending := pending + {counter};
      outbox := outbox + [SearchRequest(counter, query)];
      outcome := Awaiting(counter);
    }

    /**
     * The worker's `onmessage`: a results message for a pending id resolves
     * that promise with the hydrated results and forgets the id; everything
     * else (an unknown or timed-out id, a log, a ready message) changes nothing.
     */
    method OnMessage(msg: MainMessage)
      requires Valid()
      modifies this
      ensures Valid()
      ensures msg.Results? && msg.id in old(pending) ==>
        pending == old(pending) - {msg.id} && resolved == old(resolved) + [(msg.id, Hydrate(msg.results))]
      ensures !(msg.Results? && msg.id in old(pending)) ==> pending == old(pending) && resolved == old(resolved)
      ensures counter == old(counter) && outbox == old(outbox) && started == old(started)
    {
      if msg.Results? && msg.id in pending {
        Resolve(msg.id, Hydrate(msg.results));
      }
    }

    /** The search timer firing: a still-pending id resolves with `[]` and is forgotten. */
    method Timeout(i: nat)
      requires Valid()
      modifies this
      ensures Valid()
      ensures i in old(pending) ==> pending == old(pending) - {i} && resolved == old(resolved) + [(i, [])]
      ensures i !in old(pending) ==> pending == old(pending) && resolved == old(resolved)
      ensures counter == old(counter) && outbox == old(outbox) && started == old(started)
    {
      if i in pending {
        Resolve(i, []);
      }
    }

    method Resolve(i: nat, results: seq<SearchResult>)
      requires Valid() && i in pending
      modifies this
      ensures Valid()
      ensures pending == old(pending) - {i} && resolved == old(resolved) + [(i, results)]
      ensures counter == old(counter) && outbox == old(outbox) && started == old(started)
    {
      ResolveKeepsBookkeeping(counter, pending, outbox, resolved, i, results);
      pending := pending - {i};
      resolved := resolved + [(i, results)];
    }

    /** Calling `onActivate` of a result: a hydrated result posts one activate message carrying its result id. */
    method Activate(action: Action)
      requires Valid()
      modifies this
      ensures Valid()
      ensures started && action.PostActivate? ==> outbox == old(outbox) + [ActivateRequest(action.resultId)]
      ensures !(started && action.PostActivate?) ==> outbox == old(outbox)
      ensures counter == old(counter) && pending == old(pending) && resolved == old(resolved) && started == old(started)
    {
      if started && action.PostActivate? {
        ActivateKeepsBookkeeping(counter, pending, outbox, resolved, action.resultId);
        outbox := outbox + [ActivateRequest(action.resultId)];
      }
    }
  }

  /**
   * A search whose reply never comes: the timeout resolves it with `[]`,
   * and the late reply is then ignored, so the request resolves once.
   */
  method LateReplyIgnored(path: string, metadata: PluginMetadata, query: string, late: seq<TransportResult>)
    returns (resolutions: seq<(nat, seq<SearchResult>)>, stillPending: set<nat>)
    ensures resolutions == [(1, [])]
    ensures stillPending == {}
  {
    var w := new WorkerSource(path, metadata);
    w.Init();
    var outcome := w.Search(query);
    w.Timeout(1);
    w.OnMessage(Results(1, late));
    resolutions := w.resolved;
    stillPending := w.pending;
  }
}
