/**
 * The registry of cached items (`_extdata` in datastore.py) and the
 * module-level functions over it: rebuilding it for a mempool server, adding
 * the zap-statistics item, refreshing every item, listing the stale ones and
 * reading the height, prices, fees and zap count.
 *
 * The registry is an explicit object: its keys in insertion order and a map
 * from key to item. The network is a function from URL to the injected fetch
 * outcome; the clock is the `now` parameter.
 */
module Datastore {
  import opened Wrappers
  import opened Json
  import opened Decimal
  import opened ExternalItem

  /** What an accessor gives: None because the key is not registered, a
      value, or an exception raised by reading a payload of the wrong shape. */
  datatype Read<T> = Absent | Value(value: T) | Raises

  const DefaultMempool := "https://mempool.space"
  const NostrStatsUrl := "https://api.nostr.band/v0/stats/profile/"

  /** Keys after `d[key] = item`: a new key goes last, an existing one keeps its place. */
  function Appended(keys: seq<string>, key: string): (r: seq<string>)
    ensures forall k :: k in r <==> k in keys || k == key
    ensures |r| == if key in keys then |keys| else |keys| + 1
    ensures r[..|keys|] == keys
    ensures Distinct(keys) ==> Distinct(r)
  {
    if key in keys then keys else keys + [key]
  }

  /** Keys after `del d[key]`. */
  function Without(keys: seq<string>, key: string): (r: seq<string>)
    ensures key !in keys ==> r == keys
    ensures key in keys ==> |r| == |keys| - 1
    ensures forall k | k in r :: k in keys
    decreases |keys|
  {
    if keys == [] then []
    else if keys[0] == key then keys[1..]
    else [keys[0]] + Without(keys[1..], key)
  }

  predicate Distinct(keys: seq<string>)
  {
    forall i, j :: 0 <= i < j < |keys| ==> keys[i] != keys[j]
  }

  lemma {:induction false} WithoutDistinct(keys: seq<string>, key: string)
    requires Distinct(keys)
    ensures Distinct(Without(keys, key))
    ensures forall k :: k in Without(keys, key) <==> k in keys && k != key
    decreases |keys|
  {
    if keys != [] && keys[0] != key {
      assert Distinct(keys[1..]) by {
        forall i, j | 0 <= i < j < |keys[1..]| ensures keys[1..][i] != keys[1..][j] {
          assert keys[1..][i] == keys[i + 1] && keys[1..][j] == keys[j + 1];
        }
      }
      WithoutDistinct(keys[1..], key);
      assert keys[0] !in keys[1..] by {
        forall i | 0 <= i < |keys[1..]| ensures keys[1..][i] != keys[0] {
          assert keys[1..][i] == keys[i + 1];
        }
      }
    } else if keys != [] {
      assert keys[0] !in keys[1..] by {
        forall i | 0 <= i < |keys[1..]| ensures keys[1..][i] != keys[0] {
          assert keys[1..][i] == keys[i + 1];
        }
      }
    }
  }

  // ---------------------------------------------------------------------
  // Configuration of the items
  // ---------------------------------------------------------------------

  /** `initialize(mempool_api)`: the default server unless a non-empty
      address is given (None and "" are both falsy); certificate errors may be
      ignored exactly for a self-hosted server. */
  function MempoolBase(mempoolApi: Option<string>): (r: (string, bool))
    ensures r.1 <==> mempoolApi.Some? && mempoolApi.value != ""
    ensures r.1 ==> r.0 == mempoolApi.value
    ensures !r.1 ==> r.0 == DefaultMempool
  {
    if mempoolApi.None? || mempoolApi.value == "" then (DefaultMempool, false)
    else (mempoolApi.value, true)
  }

  function PricesConfig(base: string, ignoreSslErrors: bool): Config
  {
    Config(base + "/api/v1/prices", 300, ignoreSslErrors, true)
  }

  function FeesConfig(base: string, ignoreSslErrors: bool): Config
  {
    Config(base + "/api/v1/fees/recommended", 120, ignoreSslErrors, true)
  }

  function HeightConfig(base: string, ignoreSslErrors: bool): Config
  {
    Config(base + "/api/blocks/tip/height", 180, ignoreSslErrors, false)
  }

  function ZapsConfig(npub: string): Config
  {
    Config(NostrStatsUrl + npub, 300, false, true)
  }

  /** A newly constructed item for `cfg`, fetched from the network at `now`. */
  function NewItem(cfg: Config, now: int, net: string -> Fetch): Item
  {
    Constructed(cfg, now, net(cfg.url))
  }

  /** The three mempool items `init_mempool_data` builds: prices every 300 s,
      fees every 120 s, the height every 180 s as raw text. */
  function MempoolItems(base: string, ignoreSslErrors: bool, now: int, net: string -> Fetch): (m: map<string, Item>)
    ensures m.Keys == {"prices", "fees", "height"}
    ensures m["prices"].cfg.ttl == 300 && m["prices"].cfg.json
    ensures m["fees"].cfg.ttl == 120 && m["fees"].cfg.json
    ensures m["height"].cfg.ttl == 180 && !m["height"].cfg.json
    ensures forall k | k in m :: m[k].cfg.ignoreSslErrors == ignoreSslErrors
    ensures forall k | k in m :: m[k].updated.Some? || m[k].stale == Some(true)
  {
    map["prices" := NewItem(PricesConfig(base, ignoreSslErrors), now, net),
        "fees" := NewItem(FeesConfig(base, ignoreSslErrors), now, net),
        "height" := NewItem(HeightConfig(base, ignoreSslErrors), now, net)]
  }

  /** Adding the three mempool entries one by one is the dict `update`. */
  lemma UpdateThree<V>(m: map<string, V>, added: map<string, V>)
    requires added.Keys == {"prices", "fees", "height"}
    ensures m["prices" := added["prices"]]["fees" := added["fees"]]["height" := added["height"]] == m + added
  {
  }

  /** The mempool keys, added to an empty registry, in insertion order. */
  lemma MempoolKeys()
    ensures Appended(Appended(Appended([], "prices"), "fees"), "height") == ["prices", "fees", "height"]
  {
    assert "prices"[0] != "fees"[0] && "prices"[0] != "height"[0] && "fees"[0] != "height"[0];
    assert Appended([], "prices") == ["prices"];
    assert "fees" !in ["prices"];
    assert Appended(["prices"], "fees") == ["prices", "fees"];
    assert "height" !in ["prices", "fees"];
  }

  lemma EmptyUnion<V>(empty: map<string, V>, added: map<string, V>)
    requires empty == map[]
    ensures empty + added == added
  {
  }

  // ---------------------------------------------------------------------
  // Aggregate refresh and staleness, on the registry's contents
  // ---------------------------------------------------------------------

  /** The answer the item under `k` gives to `refresh()`. */
  function Outcome(snap: map<string, Item>, k: string, now: int, net: string -> Fetch): Answer
    requires k in snap
  {
    RefreshItem(snap[k], now, net(snap[k].cfg.url)).answer
  }

  /** The registry's contents after every item has been refreshed. */
  function RefreshedItems(snap: map<string, Item>, now: int, net: string -> Fetch): (m: map<string, Item>)
    ensures m.Keys == snap.Keys
  {
    map k | k in snap :: RefreshItem(snap[k], now, net(snap[k].cfg.url)).item
  }

  /** The keys, in iteration order, whose item answers `a`: the `refreshed`
      list for True and the `failures` list for False. */
  function Select(keys: seq<string>, snap: map<string, Item>, now: int, net: string -> Fetch, a: Answer): (r: seq<string>)
    requires forall k | k in keys :: k in snap
    ensures forall k :: k in r <==> k in keys && Outcome(snap, k, now, net) == a
    ensures |r| <= |keys|
    ensures Distinct(keys) ==> Distinct(r)
    decreases |keys|
  {
    if keys == [] then []
    else
      var last := keys[|keys| - 1];
      var prev := Select(keys[..|keys| - 1], snap, now, net, a);
      assert Distinct(keys) ==> Distinct(keys[..|keys| - 1]) && last !in keys[..|keys| - 1];
      if Outcome(snap, last, now, net) == a then prev + [last] else prev
  }

  /** Every key lands in exactly one of refreshed, failures or neither, so the
      three lists together are as long as the key list. */
  lemma {:induction false} SelectPartition(keys: seq<string>, snap: map<string, Item>, now: int, net: string -> Fetch)
    requires forall k | k in keys :: k in snap
    ensures |Select(keys, snap, now, net, Updated)| + |Select(keys, snap, now, net, Failed)|
            + |Select(keys, snap, now, net, Unchanged)| == |keys|
    decreases |keys|
  {
    if keys != [] {
      SelectPartition(keys[..|keys| - 1], snap, now, net);
    }
  }

  /** `r` lists some of `keys` in the order they come in `keys`. */
  predicate InKeyOrder(r: seq<string>, keys: seq<string>)
  {
    forall i, j :: 0 <= i < j < |r| ==>
      exists p, q :: 0 <= p < q < |keys| && keys[p] == r[i] && keys[q] == r[j]
  }

  /** The selected keys come in the order of the key list. */
  lemma {:induction false} SelectKeepsOrder(keys: seq<string>, snap: map<string, Item>, now: int, net: string -> Fetch, a: Answer)
    requires forall k | k in keys :: k in snap
    ensures InKeyOrder(Select(keys, snap, now, net, a), keys)
    decreases |keys|
  {
    if keys != [] {
      var init := keys[..|keys| - 1];
      var prev := Select(init, snap, now, net, a);
      var r := Select(keys, snap, now, net, a);
      SelectKeepsOrder(init, snap, now, net, a);
      assert InKeyOrder(prev, init);
      forall i, j | 0 <= i < j < |r|
        ensures exists p, q :: 0 <= p < q < |keys| && keys[p] == r[i] && keys[q] == r[j]
      {
        if j < |prev| {
          assert r[i] == prev[i] && r[j] == prev[j];
          var p, q :| 0 <= p < q < |init| && init[p] == prev[i] && init[q] == prev[j];
          assert keys[p] == r[i] && keys[q] == r[j];
        } else {
          assert r[i] == prev[i] && r[j] == keys[|keys| - 1];
          assert prev[i] in init;
          var p :| 0 <= p < |init| && init[p] == prev[i];
          assert keys[p] == r[i];
        }
      }
    }
  }

  /** `list_stale`: the keys, in order, whose item is stale (`stale` is True;
      None and False are left out). */
  function StaleKeys(keys: seq<string>, snap: map<string, Item>): (r: seq<string>)
    requires forall k | k in keys :: k in snap
    ensures forall k :: k in r <==> k in keys && snap[k].stale == Some(true)
    ensures |r| <= |keys|
    decreases |keys|
  {
    if keys == [] then []
    else
      var last := keys[|keys| - 1];
      var prev := StaleKeys(keys[..|keys| - 1], snap);
      if snap[last].stale == Some(true) then prev + [last] else prev
  }

  /** After an aggregate refresh every failed key is stale and every
      refreshed key is not; a key is stale afterwards exactly when it failed,
      or when the TTL gate kept an item that was already stale. Failed items
      keep their data. */
  lemma StaleAfterRefresh(keys: seq<string>, snap: map<string, Item>, now: int, net: string -> Fetch, k: string)
    requires forall k | k in keys :: k in snap
    requires k in keys
    ensures var after := RefreshedItems(snap, now, net);
            && (k in StaleKeys(keys, after) <==>
                  || k in Select(keys, snap, now, net, Failed)
                  || (WithinTtl(snap[k], now) && snap[k].stale == Some(true)))
            && (k in Select(keys, snap, now, net, Failed) ==>
                  after[k].data == snap[k].data && after[k].updated == snap[k].updated)
            && (k in Select(keys, snap, now, net, Updated) ==> k !in StaleKeys(keys, after))
  {
  }

  /** The network of the registry scenario: "a-url" answers 200 with new
      data, every other URL answers 500. */
  function ScenarioNet(url: string): Fetch
  {
    if url == "a-url" then Fetch(Responded(Response(200, "", Parsed(JNum(1)))), TransportError)
    else Fetch(Responded(Response(500, "", Malformed)), TransportError)
  }

  function ScenarioItems(): map<string, Item>
  {
    map["a" := Initial(Config("a-url", 60, false, true)), "b" := Initial(Config("b-url", 60, false, true))]
  }

  /**
   * The registry scenario: "a" gets new data and "b" answers 500.
   * Refreshing reports ["a"] as refreshed and ["b"] as failed, and afterwards
   * only "b" is stale.
   */
  lemma TwoKeyScenario()
    ensures Select(["a", "b"], ScenarioItems(), 10, ScenarioNet, Updated) == ["a"]
    ensures Select(["a", "b"], ScenarioItems(), 10, ScenarioNet, Failed) == ["b"]
    ensures StaleKeys(["a", "b"], RefreshedItems(ScenarioItems(), 10, ScenarioNet)) == ["b"]
  {
    var snap, after := ScenarioItems(), RefreshedItems(ScenarioItems(), 10, ScenarioNet);
    ScenarioOutcomes();
    assert ["a", "b"][..1] == ["a"] && ["a", "b"][1] == "b";
    assert ["a"][..0] == [] && ["a"][0] == "a";
    assert Select(["a"], snap, 10, ScenarioNet, Updated) == ["a"];
    assert Select(["a"], snap, 10, ScenarioNet, Failed) == [];
    assert StaleKeys(["a"], after) == [];
  }

  lemma ScenarioOutcomes()
    ensures Outcome(ScenarioItems(), "a", 10, ScenarioNet) == Updated
    ensures Outcome(ScenarioItems(), "b", 10, ScenarioNet) == Failed
    ensures RefreshedItems(ScenarioItems(), 10, ScenarioNet)["a"].stale == Some(false)
    ensures RefreshedItems(ScenarioItems(), 10, ScenarioNet)["b"].stale == Some(true)
  {
    var snap := ScenarioItems();
    assert "a" != "b" by { assert "a"[0] != "b"[0]; }
    assert "b-url" != "a-url" by { assert "b-url"[0] != "a-url"[0]; }
    assert snap["a"] == Initial(Config("a-url", 60, false, true));
    assert snap["b"] == Initial(Config("b-url", 60, false, true));
    ItemOutcomes();
  }

  lemma ItemOutcomes()
    ensures RefreshItem(Initial(Config("a-url", 60, false, true)), 10, ScenarioNet("a-url"))
            == Refreshed(Item(Config("a-url", 60, false, true), Some(10), Some(false), JNum(1)), Updated, 1)
    ensures RefreshItem(Initial(Config("b-url", 60, false, true)), 10, ScenarioNet("b-url"))
            == Refreshed(Item(Config("b-url", 60, false, true), None, Some(true), JNull), Failed, 1)
  {
    assert "b-url" != "a-url" by { assert "b-url"[0] != "a-url"[0]; }
  }

  // ---------------------------------------------------------------------
  // Readers of the stored payloads
  // ---------------------------------------------------------------------

  /** Python `int(data)` for the payload types: digit text, a number or a
      bool convert; None, lists and dicts raise (TypeError), other text raises
      (ValueError). */
  function IntOf(j: Json): (r: Read<int>)
    ensures r.Value? && j.JStr? ==> IsDecimal(j.s) && r.value == ParseDecimal(j.s)
    ensures j.JStr? && IsDecimal(j.s) ==> r.Value?
    ensures j.JNull? || j.JArr? || j.JObj? ==> r == Raises
    ensures r != Absent
  {
    match j
    case JStr(s) => if IsDecimal(s) then Value(ParseDecimal(s)) else Raises
    case JNum(n) => Value(n)
    case JBool(b) => Value(if b then 1 else 0)
    case _ => Raises
  }

  /** A payload's first key (`list(d.keys())[0]`); None where that raises. */
  function FirstKey(j: Json): Option<string>
  {
    if j.JObj? && |j.fields| > 0 then Some(j.fields[0].0) else None
  }

  /** `_extdata["zaps"].data["stats"][pubkey]["zaps_received"]["count"]` with
      `pubkey` the first key of the stats dict. */
  function ZapCount(data: Json): (r: Read<Json>)
    ensures r != Absent
    ensures r.Value? ==> Subscript(data, "stats").Some? && FirstKey(Subscript(data, "stats").value).Some?
  {
    match Subscript(data, "stats")
    case None => Raises
    case Some(stats) =>
      if !stats.JObj? || |stats.fields| == 0 then Raises
      else
        var pubkey := stats.fields[0].0;
        match Subscript(stats, pubkey)
        case None => Raises
        case Some(profile) =>
          match Subscript(profile, "zaps_received")
          case None => Raises
          case Some(zaps) =>
            match Subscript(zaps, "count")
            case None => Raises
            case Some(count) => Value(count)
  }

  /** A zap count read from `data` is the one under the first key of its
      stats dict, and is read whenever that path exists. */
  predicate ZapCountReadsFirstProfile(data: Json, r: Read<Json>)
  {
    var stats := Subscript(data, "stats");
    && (r.Value? ==>
          && stats.Some? && FirstKey(stats.value).Some?
          && Path(data, ["stats", FirstKey(stats.value).value, "zaps_received", "count"]) == Some(r.value))
    && ((stats.Some? && FirstKey(stats.value).Some?
         && Path(data, ["stats", FirstKey(stats.value).value, "zaps_received", "count"]).Some?) ==> r.Value?)
    && r != Absent
  }

  lemma PathCons(j: Json, k: string, rest: seq<string>)
    ensures Path(j, [k] + rest) == match Subscript(j, k)
                                   case None => None
                                   case Some(child) => Path(child, rest)
  {
    assert ([k] + rest)[0] == k && ([k] + rest)[1..] == rest;
  }

  lemma ZapCountPath(data: Json)
    ensures ZapCountReadsFirstProfile(data, ZapCount(data))
  {
    var stats := Subscript(data, "stats");
    if stats.Some? && FirstKey(stats.value).Some? {
      var pubkey := FirstKey(stats.value).value;
      assert Find(stats.value.fields, pubkey) == 0;
      var profile := Subscript(stats.value, pubkey);
      assert profile == Some(stats.value.fields[0].1);
      var tail := ["zaps_received", "count"];
      PathCons(data, "stats", [pubkey] + tail);
      PathCons(stats.value, pubkey, tail);
      assert Path(data, ["stats", pubkey, "zaps_received", "count"]) == Path(profile.value, tail) by {
        assert ["stats", pubkey, "zaps_received", "count"] == ["stats"] + ([pubkey] + tail);
      }
      PathCons(profile.value, "zaps_received", ["count"]);
      var zaps := Subscript(profile.value, "zaps_received");
      if zaps.Some? {
        PathCons(zaps.value, "count", []);
        assert ["zaps_received", "count"] == ["zaps_received"] + ["count"];
        assert ["count"] == ["count"] + [];
      }
    }
  }

  /**
   * The registry (`_extdata`). `keys` holds the keys in insertion order,
   * `items` the items; distinct keys hold distinct items, so refreshing one
   * item never changes another.
   */
  class Registry {
    var keys: seq<string>
    var items: map<string, ExternalData>

    ghost predicate Valid()
      reads this
    {
      && Distinct(keys)
      && (forall k :: k in items <==> k in keys)
      && (forall k, l :: k in items && l in items && k != l ==> items[k] != items[l])
    }

    /** The registry's contents as values. */
    function Snapshot(): (m: map<string, Item>)
      reads this, items.Values
      ensures m.Keys == items.Keys
    {
      map k | k in items :: items[k].Model()
    }

    /** `_extdata = {}`. */
    constructor ()
      ensures Valid() && keys == [] && items == map[]
    {
      keys := [];
      items := map[];
    }

    /** `_extdata[key] = item`: inserts or overwrites one entry. */
    method Put(key: string, item: ExternalData)
      requires Valid()
      requires item !in items.Values
      modifies this
      ensures Valid()
      ensures keys == Appended(old(keys), key)
      ensures items == old(items)[key := item]
      ensures Snapshot() == old(Snapshot())[key := item.Model()]
    {
      keys := Appended(keys, key);
      items := items[key := item];
    }

    /** `del _extdata[key]`. */
    method Delete(key: string)
      requires Valid() && key in items
      modifies this
      ensures Valid()
      ensures keys == Without(old(keys), key)
      ensures items == old(items) - {key}
    {
      WithoutDistinct(keys, key);
      keys := Without(keys, key);
      items := items - {key};
    }

    /** `_extdata[key] = ExternalData(...)`: construct (and so fetch) an item
        for `cfg` and add or overwrite the entry `key`. */
    method AddNew(key: string, cfg: Config, now: int, net: string -> Fetch)
      requires Valid()
      modifies this
      ensures Valid()
      ensures keys == Appended(old(keys), key)
      ensures Snapshot() == old(Snapshot())[key := NewItem(cfg, now, net)]
    {
      var item := new ExternalData(cfg.url, cfg.ttl, cfg.ignoreSslErrors, cfg.json, now, net(cfg.url));
      assert Snapshot() == old(Snapshot());
      Put(key, item);
    }

    /** `init_mempool_data(mempool_api, ignore_ssl_errors)`: construct the
        three mempool items and add or overwrite them. */
    method InitMempoolData(mempoolApi: string, ignoreSslErrors: bool, now: int, net: string -> Fetch)
      requires Valid()
      modifies this
      ensures Valid()
      ensures keys == Appended(Appended(Appended(old(keys), "prices"), "fees"), "height")
      ensures Snapshot() == old(Snapshot()) + MempoolItems(mempoolApi, ignoreSslErrors, now, net)
    {
      ghost var before := Snapshot();
      ghost var added := MempoolItems(mempoolApi, ignoreSslErrors, now, net);
      AddNew("prices", PricesConfig(mempoolApi, ignoreSslErrors), now, net);
      AddNew("fees", FeesConfig(mempoolApi, ignoreSslErrors), now, net);
      AddNew("height", HeightConfig(mempoolApi, ignoreSslErrors), now, net);
      assert Snapshot() == before["prices" := added["prices"]]["fees" := added["fees"]]["height" := added["height"]];
      UpdateThree(before, added);
    }

    /** `initialize(mempool_api)`: remove every entry, then build the three
        mempool items afresh. */
    method Initialize(mempoolApi: Option<string>, now: int, net: string -> Fetch)
      requires Valid()
      modifies this
      ensures Valid()
      ensures keys == ["prices", "fees", "height"]
      ensures Snapshot() == MempoolItems(MempoolBase(mempoolApi).0, MempoolBase(mempoolApi).1, now, net)
    {
      var existing := keys;
      for i := 0 to |existing|
        invariant Valid()
        invariant keys == existing[i..]
      {
        Delete(existing[i]);
      }
      assert items == map[];
      ghost var empty := Snapshot();
      assert empty == map[];
      var base, ignoreSslErrors;
      if mempoolApi.None? || mempoolApi.value == "" {
        base, ignoreSslErrors := DefaultMempool, false;
      } else {
        base, ignoreSslErrors := mempoolApi.value, true;
      }
      assert (base, ignoreSslErrors) == MempoolBase(mempoolApi);
      InitMempoolData(base, ignoreSslErrors, now, net);
      EmptyUnion(empty, MempoolItems(base, ignoreSslErrors, now, net));
      MempoolKeys();
    }

    /** `set_nostr_pubkey(npub)`: add or replace the "zaps" item; every other
        entry stays as it is. */
    method SetNostrPubkey(npub: string, now: int, net: string -> Fetch)
      requires Valid()
      modifies this
      ensures Valid()
      ensures keys == Appended(old(keys), "zaps")
      ensures Snapshot() == old(Snapshot())["zaps" := NewItem(ZapsConfig(npub), now, net)]
    {
      AddNew("zaps", ZapsConfig(npub), now, net);
    }

    /**
     * Module-level `refresh(raise_on_failure)`: refresh every item in key
     * order; `refreshed` lists the keys that answered True, `failures` those
     * that answered False. `raises` tells whether the call ends in the
     * exception (after all items were refreshed), in which case `refreshed`
     * is not returned to the caller.
     */
    method Refresh(raiseOnFailure: bool, now: int, net: string -> Fetch)
      returns (refreshed: seq<string>, failures: seq<string>, raises: bool)
      requires Valid()
      modifies items.Values
      ensures Valid()
      ensures Snapshot() == RefreshedItems(old(Snapshot()), now, net)
      ensures refreshed == Select(keys, old(Snapshot()), now, net, Updated)
      ensures failures == Select(keys, old(Snapshot()), now, net, Failed)
      ensures raises <==> raiseOnFailure && failures != []
    {
      ghost var before := Snapshot();
      refreshed, failures := [], [];
      for i := 0 to |keys|
        invariant refreshed == Select(keys[..i], before, now, net, Updated)
        invariant failures == Select(keys[..i], before, now, net, Failed)
        invariant forall k | k in items ::
                    items[k].Model() == if k in keys[..i]
                                        then RefreshItem(before[k], now, net(before[k].cfg.url)).item
                                        else before[k]
      {
        var key := keys[i];
        assert keys[..i + 1][..i] == keys[..i] && keys[..i + 1][i] == key;
        assert key !in keys[..i];
        var item := items[key];
        var result, _ := item.Refresh(now, net(item.url));
        if result == Failed {
          failures := failures + [key];
        } else if result == Updated {
          refreshed := refreshed + [key];
        }
      }
      assert keys[..|keys|] == keys;
      raises := raiseOnFailure && failures != [];
    }

    /** `list_stale()`. */
    function ListStale(): (r: seq<string>)
      requires Valid()
      reads this, items.Values
      ensures forall k :: k in r <==> k in keys && items[k].stale == Some(true)
    {
      StaleKeys(keys, Snapshot())
    }

    /** `get_height()`: the height text as an integer. */
    function GetHeight(): (r: Read<int>)
      reads this, items.Values
      ensures "height" !in items <==> r == Absent
      ensures "height" in items && items["height"].data.JStr? && IsDecimal(items["height"].data.s) ==>
                r == Value(ParseDecimal(items["height"].data.s))
      ensures "height" in items && items["height"].data.JNull? ==> r == Raises
    {
      if "height" in items then IntOf(items["height"].data) else Absent
    }

    /** `get_price(key)`: the price under `currency` in the prices dict. */
    function GetPrice(currency: string): (r: Read<Json>)
      reads this, items.Values
      ensures "prices" !in items <==> r == Absent
      ensures "prices" in items ==>
                var data := items["prices"].data;
                && (r.Value? <==> data.JObj? && currency in KeySet(data.fields))
                && (r.Value? ==> exists i :: 0 <= i < |data.fields| && data.fields[i] == (currency, r.value))
                && (r.Value? && DistinctKeys(data.fields) ==>
                      forall i :: 0 <= i < |data.fields| && data.fields[i].0 == currency ==> data.fields[i].1 == r.value)
    {
      if "prices" in items then
        match Subscript(items["prices"].data, currency)
        case None => Raises
        case Some(price) => Value(price)
      else Absent
    }

    /** `get_fees_dict()`: the fees payload as stored. */
    function GetFeesDict(): (r: Read<Json>)
      reads this, items.Values
      ensures "fees" !in items <==> r == Absent
      ensures "fees" in items ==> r == Value(items["fees"].data)
    {
      if "fees" in items then Value(items["fees"].data) else Absent
    }

    /** `get_nostr_zap_count()`: the zap count of the first profile in the stats. */
    function GetNostrZapCount(): (r: Read<Json>)
      reads this, items.Values
      ensures "zaps" !in items <==> r == Absent
      ensures "zaps" in items ==> ZapCountReadsFirstProfile(items["zaps"].data, r)
    {
      if "zaps" in items then
        ZapCountPath(items["zaps"].data);
        ZapCount(items["zaps"].data)
      else Absent
    }
  }
}
