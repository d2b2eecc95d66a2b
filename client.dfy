/**
 * The worker side of a plugin (`setupWorker`): it announces the plugin's
 * metadata, answers search requests with transport records whose result
 * ids are `"<search id>_<index>"`, remembers each result's activation
 * under that id, and dispatches activation requests. The plugin's own
 * `search` and `onActivate`, and the stored callbacks, are oracles: each
 * call either completes or throws with a message.
 */
module Client {
  import opened Interface
  import opened Text
  import Host

  /** `${id}_${idx}`. */
  function ResultId(id: nat, idx: nat): string {
    Decimal(id) + "_" + Decimal(idx)
  }

  lemma UnderscoreAfterDigits(d: string, rest: string)
    requires IsDigits(d)
    ensures IndexOf(d + "_" + rest, '_') == |d|
  {
    var s := d + "_" + rest;
    var i := IndexOf(s, '_');
    assert s[|d|] == '_';
    forall j | 0 <= j < i ensures s[j] != '_' {
      assert s[..i][j] == s[j];
    }
    forall j | 0 <= j < |d| ensures s[j] != '_' {
      assert s[j] == d[j];
    }
  }

  /** Distinct (search id, index) pairs give distinct result ids. */
  lemma ResultIdInjective(a: nat, b: nat, c: nat, d: nat)
    requires ResultId(a, b) == ResultId(c, d)
    ensures a == c && b == d
  {
    var s := ResultId(a, b);
    UnderscoreAfterDigits(Decimal(a), Decimal(b));
    UnderscoreAfterDigits(Decimal(c), Decimal(d));
    var n := |Decimal(a)|;
    assert s[..n] == Decimal(a);
    assert s[..n] == Decimal(c);
    assert s[n + 1..] == Decimal(b);
    assert s[n + 1..] == Decimal(d);
    DecimalInjective(a, c);
    DecimalInjective(b, d);
  }

  /** `results.map(...)`: the records sent back for search `id`. */
  function Transport(id: nat, results: seq<SearchResult>): (t: seq<TransportResult>)
    ensures |t| == |results|
    ensures forall k :: 0 <= k < |t| ==>
      t[k] == TransportResult(results[k].title, results[k].subtitle, results[k].score, ResultId(id, k))
  {
    seq(|results|, k requires 0 <= k < |results| => TransportResult(results[k].title, results[k].subtitle, results[k].score, ResultId(id, k)))
  }

  /** The activations of the first `n` results of search `id`, keyed by their result ids. */
  function Stored(id: nat, results: seq<SearchResult>, n: nat): map<string, Action>
    requires n <= |results|
  {
    if n == 0 then map[] else Stored(id, results, n - 1)[ResultId(id, n - 1) := results[n - 1].action]
  }

  /** The stored map holds exactly the result ids of the first `n` results, each with its own result's activation. */
  lemma {:induction false} StoredLookup(id: nat, results: seq<SearchResult>, n: nat, key: string)
    requires n <= |results|
    ensures key in Stored(id, results, n) <==> exists k :: 0 <= k < n && key == ResultId(id, k)
    ensures forall k :: 0 <= k < n && key == ResultId(id, k) ==> Stored(id, results, n)[key] == results[k].action
  {
    if n > 0 {
      StoredLookup(id, results, n - 1, key);
      forall k | 0 <= k < n - 1 && key == ResultId(id, k) ensures key != ResultId(id, n - 1) {
        if key == ResultId(id, n - 1) { ResultIdInjective(id, k, id, n - 1); }
      }
    }
  }

  lemma MapUnionUpdate(m: map<string, Action>, s: map<string, Action>, k: string, v: Action)
    ensures (m + s)[k := v] == m + s[k := v]
  {
  }

  lemma TransportStep(id: nat, results: seq<SearchResult>, idx: nat)
    requires idx < |results|
    ensures Transport(id, results[..idx + 1]) ==
      Transport(id, results[..idx]) + [TransportResult(results[idx].title, results[idx].subtitle, results[idx].score, ResultId(id, idx))]
  {
    var a, b := Transport(id, results[..idx + 1]), Transport(id, results[..idx]);
    assert forall k :: 0 <= k < idx ==> results[..idx + 1][k] == results[..idx][k];
  }

  class WorkerClient {
    const metadata: PluginMetadata
    /** `resultMap`: result id to activation. */
    var resultMap: map<string, Action>
    /** Messages posted to the host, oldest first. */
    var outbox: seq<MainMessage>
    /** Stored activations that were run, oldest first. */
    var ran: seq<Action>
    /** The result ids passed to the plugin's own `onActivate`, oldest first. */
    var notified: seq<string>

    /** `setupWorker`: posts `ready` with the metadata before anything else. */
    constructor(metadata: PluginMetadata)
      ensures this.metadata == metadata
      ensures outbox == [Ready(metadata)]
      ensures resultMap == map[] && ran == [] && notified == []
    {
      this.metadata := metadata;
      outbox := [Ready(metadata)];
      resultMap := map[];
      ran := [];
      notified := [];
    }

    /**
     * A search request: when the plugin's search throws, one error log and
     * nothing else; otherwise every result's activation is stored under its
     * result id and one results message carrying the request id is posted.
     */
    method HandleSearch(id: nat, query: string, reply: Outcome<seq<SearchResult>>)
      modifies this
      ensures reply.Threw? ==> outbox == old(outbox) + [Log(Error, reply.error)] && resultMap == old(resultMap)
      ensures reply.Returned? ==> outbox == old(outbox) + [Results(id, Transport(id, reply.value))]
      ensures reply.Returned? ==> resultMap == old(resultMap) + Stored(id, reply.value, |reply.value|)
      ensures ran == old(ran) && notified == old(notified)
    {
      if reply.Threw? {
        outbox := outbox + [Log(Error, reply.error)];
        return;
      }
      var results := reply.value;
      var transport: seq<TransportResult> := [];
      for idx := 0 to |results|
        invariant transport == Transport(id, results[..idx])
        invariant resultMap == old(resultMap) + Stored(id, results, idx)
        invariant outbox == old(outbox) && ran == old(ran) && notified == old(notified)
      {
        var resultId := ResultId(id, idx);
        MapUnionUpdate(old(resultMap), Stored(id, results, idx), resultId, results[idx].action);
        resultMap := resultMap[resultId := results[idx].action];
        TransportStep(id, results, idx);
        transport := transport + [TransportResult(results[idx].title, results[idx].subtitle, results[idx].score, resultId)];
      }
      assert results[..|results|] == results;
      outbox := outbox + [Results(id, transport)];
    }

    /**
     * An activation request: the stored activation runs if there is one;
     * then, unless it threw, the plugin's `onActivate` is called with the
     * id. A throw posts one error log.
     */
    method HandleActivate(resultId: string, action: Outcome<()>, hook: Outcome<()>)
      modifies this
      ensures resultId in old(resultMap) ==> ran == old(ran) + [old(resultMap)[resultId]]
      ensures resultId !in old(resultMap) ==> ran == old(ran)
      ensures var stopped := resultId in old(resultMap) && action.Threw?;
        && (stopped ==> notified == old(notified) && outbox == old(outbox) + [Log(Error, action.error)])
        && (!stopped ==> notified == old(notified) + [resultId])
        && (!stopped && hook.Threw? ==> outbox == old(outbox) + [Log(Error, hook.error)])
        && (!stopped && hook.Returned? ==> outbox == old(outbox))
      ensures resultMap == old(resultMap)
    {
      if resultId in resultMap {
        ran := ran + [resultMap[resultId]];
        if action.Threw? {
          outbox := outbox + [Log(Error, action.error)];
          return;
        }
      }
      notified := notified + [resultId];
      if hook.Threw? {
        outbox := outbox + [Log(Error, hook.error)];
      }
    }
  }

  /**
   * Across the worker boundary: the host's hydrated copy of a search reply
   * keeps each result's title, subtitle and score in order, activating item
   * `k` sends back the id under which the worker stored item `k`'s own
   * activation.
   */
  lemma HydrateTransport(id: nat, results: seq<SearchResult>)
    ensures |Host.Hydrate(Transport(id, results))| == |results|
    ensures forall k :: 0 <= k < |results| ==>
      var h := Host.Hydrate(Transport(id, results))[k];
      && h.title == results[k].title && h.subtitle == results[k].subtitle && h.score == results[k].score
      && h.action.PostActivate?
      && h.action.resultId in Stored(id, results, |results|)
      && Stored(id, results, |results|)[h.action.resultId] == results[k].action
  {
    forall k | 0 <= k < |results|
      ensures ResultId(id, k) in Stored(id, results, |results|)
      ensures Stored(id, results, |results|)[ResultId(id, k)] == results[k].action
    {
      StoredLookup(id, results, |results|, ResultId(id, k));
    }
  }

  /** A request before any search, or for an id never handed out, runs no stored activation but still reaches the plugin. */
  method UnknownActivation(metadata: PluginMetadata, resultId: string) returns (ran: seq<Action>, notified: seq<string>, posted: seq<MainMessage>)
    ensures ran == [] && notified == [resultId] && posted == [Ready(metadata)]
  {
    var c := new WorkerClient(metadata);
    c.HandleActivate(resultId, Returned(()), Returned(()));
    ran, notified, posted := c.ran, c.notified, c.outbox;
  }
}
