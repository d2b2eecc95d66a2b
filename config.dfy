/**
 * The user's plugin list, kept in `~/.config/launcher/plugins.json`.
 * The file is modelled by what reading it yields: missing, not valid JSON,
 * or a parsed list of plugin URLs. Each write replaces the whole file; the
 * `writes` field records every list written, in order.
 */
module Config {
  import opened Interface

  datatype ConfigFile = Missing | Malformed | Parsed(plugins: seq<string>)

  /** `list.indexOf(url)`, with `|list|` standing for "not found". */
  function FirstIndex(list: seq<string>, url: string): (i: nat)
    ensures i <= |list|
    ensures i < |list| ==> list[i] == url
    ensures url !in list[..i]
    ensures i == |list| <==> url !in list
  {
    if |list| == 0 then 0
    else if list[0] == url then 0
    else 1 + FirstIndex(list[1..], url)
  }

  /** The list `addPlugin` leaves: the url appended at the end, unless it is already there. */
  function AddUrl(list: seq<string>, url: string): (r: seq<string>)
    ensures url in r
    ensures url in list ==> r == list
    ensures url !in list ==> |r| == |list| + 1 && r[..|list|] == list && r[|list|] == url
    ensures Distinct(list) ==> Distinct(r)
  {
    if url in list then list else list + [url]
  }

  /** The list `removePlugin` leaves: the first occurrence of the url spliced out, the rest in order. */
  function RemoveFirst(list: seq<string>, url: string): (r: seq<string>)
    ensures url !in list ==> r == list
    ensures url in list ==> |r| == |list| - 1
    ensures url in list ==> r == list[..FirstIndex(list, url)] + list[FirstIndex(list, url) + 1..]
    ensures multiset(r) == multiset(list) - multiset{url}
  {
    var i := FirstIndex(list, url);
    if i == |list| then list
    else
      assert list == list[..i] + [list[i]] + list[i + 1..];
      list[..i] + list[i + 1..]
  }

  /** Adding the same url twice changes nothing the second time. */
  lemma AddUrlIdempotent(list: seq<string>, url: string)
    ensures AddUrl(AddUrl(list, url), url) == AddUrl(list, url)
  {
  }

  /** `addPlugin` changes the list exactly when the url is absent. */
  lemma AddChangesIff(list: seq<string>, url: string)
    ensures AddUrl(list, url) != list <==> url !in list
  {
    if url !in list {
      assert |AddUrl(list, url)| != |list|;
    }
  }

  /** `removePlugin` changes the list exactly when the url is present. */
  lemma RemoveChangesIff(list: seq<string>, url: string)
    ensures RemoveFirst(list, url) != list <==> url in list
  {
    if url in list {
      assert |RemoveFirst(list, url)| != |list|;
    }
  }

  /** Removing a url just added to a list that lacked it gives back the original list. */
  lemma RemoveAfterAdd(list: seq<string>, url: string)
    requires url !in list
    ensures RemoveFirst(AddUrl(list, url), url) == list
  {
    var l := list + [url];
    assert l[..|list|] == list;
    assert FirstIndex(l, url) == |list| by {
      assert url in l[..FirstIndex(l, url) + 1] by {
        assert l[FirstIndex(l, url)] == url;
      }
    }
  }

  /** In a list without duplicates, removing a url leaves no trace of it. */
  lemma RemoveFromDistinct(list: seq<string>, url: string)
    requires Distinct(list)
    ensures url !in RemoveFirst(list, url)
    ensures Distinct(RemoveFirst(list, url))
  {
    var r := RemoveFirst(list, url);
    if url in list {
      var i := FirstIndex(list, url);
      forall a | 0 <= a < |r| ensures r[a] != url {
        if a >= i { assert r[a] == list[a + 1] && list[i] == url; }
      }
      forall a, b | 0 <= a < b < |r| ensures r[a] != r[b] {
        var a', b' := if a < i then a else a + 1, if b < i then b else b + 1;
        assert r[a] == list[a'] && r[b] == list[b'];
      }
    }
  }

  class ConfigManager {
    /** What reading the configuration file yields. */
    var file: ConfigFile
    /** Every plugin list written to the file, oldest first. */
    var writes: seq<seq<string>>

    constructor(initial: ConfigFile)
      ensures file == initial && writes == []
    {
      file := initial;
      writes := [];
    }

    /** `read`: the parsed plugin list, or the empty list when the file is missing or invalid. */
    function Read(): (plugins: seq<string>)
      reads this
      ensures file.Parsed? ==> plugins == file.plugins
      ensures !file.Parsed? ==> plugins == []
    {
      if file.Parsed? then file.plugins else []
    }

    /** Writes the list as the whole new file content. */
    method Write(plugins: seq<string>)
      modifies this
      ensures file == Parsed(plugins)
      ensures writes == old(writes) + [plugins]
    {
      file := Parsed(plugins);
      writes := writes + [plugins];
    }

    /** `addPlugin`: appends the url when it is absent and then writes; otherwise neither changes nor writes. */
    method AddPlugin(url: string)
      modifies this
      ensures old(url in Read()) ==> file == old(file) && writes == old(writes)
      ensures old(url !in Read()) ==> file == Parsed(AddUrl(old(Read()), url))
      ensures old(url !in Read()) ==> writes == old(writes) + [AddUrl(old(Read()), url)]
    {
      var plugins := Read();
      if url !in plugins {
        plugins := plugins + [url];
        Write(plugins);
      }
    }

    /** `removePlugin`: splices out the first occurrence and writes; does nothing when the url is absent. */
    method RemovePlugin(url: string)
      modifies this
      ensures old(url !in Read()) ==> file == old(file) && writes == old(writes)
      ensures old(url in Read()) ==> file == Parsed(RemoveFirst(old(Read()), url))
      ensures old(url in Read()) ==> writes == old(writes) + [RemoveFirst(old(Read()), url)]
    {
      var plugins := Read();
      var index := FirstIndex(plugins, url);
      if index != |plugins| {
        plugins := plugins[..index] + plugins[index + 1..];
        Write(plugins);
      }
    }
  }

  /**
   * Installing a plugin and then removing it: a list that lacked the url
   * comes back unchanged after two writes; a list that already held it loses
   * its first occurrence after one write.
   */
  method AddThenRemove(initial: ConfigFile, url: string) returns (before: seq<string>, after: seq<string>, written: nat)
    ensures url !in before ==> after == before && written == 2
    ensures url in before ==> after == RemoveFirst(before, url) && written == 1
  {
    var c := new ConfigManager(initial);
    before := c.Read();
    c.AddPlugin(url);
    if url !in before {
      RemoveAfterAdd(before, url);
    }
    c.RemovePlugin(url);
    after := c.Read();
    written := |c.writes|;
  }
}
