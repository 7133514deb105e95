/**
 * One cached external value (`ExternalData` in datastore.py): a URL polled at
 * most once per `ttl` seconds, the last good payload, the time of the last
 * successful fetch and a staleness flag.
 *
 * The HTTP transport is injected: a `Fetch` says what the first request
 * yields and what a second request (the retry with certificate verification
 * turned off) would yield. The clock is the `now` parameter.
 */
module ExternalItem {
  import opened Wrappers
  import opened Json

  /** A response: its status, its text and its body decoded as JSON (or the
      decode error `response.json()` raises). */
  datatype Body = Parsed(value: Json) | Malformed
  datatype Response = Response(status: int, text: string, body: Body)

  /** What one request does: it answers, or raises an SSL (certificate) error,
      or raises any other transport error. */
  datatype Attempt = Responded(response: Response) | SslError | TransportError

  /** The outcome of the first request and of the retry, should there be one. */
  datatype Fetch = Fetch(first: Attempt, retry: Attempt)

  /** What `get_response` ends with: a response, or None when it raises; and
      how many requests it issued. */
  datatype Fetched = Fetched(response: Option<Response>, requests: nat)

  /** The constructor arguments of an item; none of them changes afterwards. */
  datatype Config = Config(url: string, ttl: int, ignoreSslErrors: bool, json: bool)

  /** The state of an item: `updated` (None until a fetch succeeds), `stale`
      (None until a refresh result is known) and `data` (JNull is None). */
  datatype Item = Item(cfg: Config, updated: Option<int>, stale: Option<bool>, data: Json)

  /** What `refresh()` returns: None (nothing new), True (new data), False (failure). */
  datatype Answer = Unchanged | Updated | Failed

  /** The item after one refresh, its answer and the requests it issued. */
  datatype Refreshed = Refreshed(item: Item, answer: Answer, requests: nat)

  /** An item as `__init__` sets it up, before its first refresh. */
  function Initial(cfg: Config): Item
  {
    Item(cfg, None, None, JNull)
  }

  /**
   * `get_response`: one request; when it raises an SSL error, exactly one
   * retry without verification, and only if `ignoreSslErrors` is set.
   * Otherwise the SSL error, like every other error, is raised to the caller.
   */
  function GetResponse(ignoreSslErrors: bool, fetch: Fetch): (r: Fetched)
    ensures r.requests == 2 <==> fetch.first.SslError? && ignoreSslErrors
    ensures 1 <= r.requests <= 2
    ensures r.requests == 1 ==>
              r.response == (if fetch.first.Responded? then Some(fetch.first.response) else None)
    ensures r.requests == 2 ==>
              r.response == (if fetch.retry.Responded? then Some(fetch.retry.response) else None)
  {
    match fetch.first
    case Responded(response) => Fetched(Some(response), 1)
    case SslError =>
      if ignoreSslErrors then
        match fetch.retry
        case Responded(response) => Fetched(Some(response), 2)
        case _ => Fetched(None, 2)
      else Fetched(None, 1)
    case TransportError => Fetched(None, 1)
  }

  /** The retry's outcome matters only after an SSL error that may be ignored;
      any other error is never retried. */
  lemma RetryOnlyAfterIgnoredSslError(ignoreSslErrors: bool, first: Attempt, retry1: Attempt, retry2: Attempt)
    requires !(first.SslError? && ignoreSslErrors)
    ensures GetResponse(ignoreSslErrors, Fetch(first, retry1)) == GetResponse(ignoreSslErrors, Fetch(first, retry2))
  {
  }

  /**
   * The payload a fetch delivers: the decoded JSON, or the text in raw mode,
   * of a status-200 response. None for every failure the source handles alike:
   * an exception from the transport, a non-200 status, a body that does not
   * decode.
   */
  function Payload(json: bool, fetched: Fetched): (p: Option<Json>)
    ensures p.Some? <==>
              && fetched.response.Some?
              && fetched.response.value.status == 200
              && (json ==> fetched.response.value.body.Parsed?)
    ensures p.Some? && !json ==> p.value == JStr(fetched.response.value.text)
    ensures p.Some? && json ==> p.value == fetched.response.value.body.value
  {
    match fetched.response
    case None => None
    case Some(response) =>
      if response.status != 200 then None
      else if !json then Some(JStr(response.text))
      else if response.body.Parsed? then Some(response.body.value)
      else None
  }

  /** The TTL gate `self.updated and self.updated + self.ttl > now`, with
      Python's truthiness: an `updated` of 0 counts as never updated. */
  predicate WithinTtl(it: Item, now: int): (gated: bool)
    ensures gated ==> it.updated.Some? && now < it.updated.value + it.cfg.ttl
    ensures it.updated.None? || it.updated == Some(0) ==> !gated
    ensures it.updated.Some? && it.updated.value != 0 && now < it.updated.value + it.cfg.ttl ==> gated
  {
    it.updated.Some? && it.updated.value != 0 && it.updated.value + it.cfg.ttl > now
  }

  /**
   * `refresh()` on an item's state. Inside the TTL the item is untouched and
   * nothing is fetched. Otherwise a failure marks the item stale and keeps its
   * data and time stamp; a success stamps `updated`, clears `stale`, and
   * replaces `data` (answering True) exactly when the new payload differs.
   */
  function RefreshItem(it: Item, now: int, fetch: Fetch): (r: Refreshed)
    ensures r.item.cfg == it.cfg
    ensures WithinTtl(it, now) ==> r == Refreshed(it, Unchanged, 0)
    ensures !WithinTtl(it, now) ==> r.requests == GetResponse(it.cfg.ignoreSslErrors, fetch).requests
    ensures !WithinTtl(it, now) && Payload(it.cfg.json, GetResponse(it.cfg.ignoreSslErrors, fetch)).None? ==>
              r.item == it.(stale := Some(true)) && r.answer == Failed
    ensures !WithinTtl(it, now) && Payload(it.cfg.json, GetResponse(it.cfg.ignoreSslErrors, fetch)).Some? ==>
              var p := Payload(it.cfg.json, GetResponse(it.cfg.ignoreSslErrors, fetch)).value;
              && r.item.updated == Some(now)
              && r.item.stale == Some(false)
              && (r.answer == Updated <==> !Equal(p, it.data))
              && r.answer != Failed
              && r.item.data == (if r.answer == Updated then p else it.data)
    ensures r.item.data != it.data ==> r.answer == Updated
  {
    if WithinTtl(it, now) then Refreshed(it, Unchanged, 0)
    else
      var fetched := GetResponse(it.cfg.ignoreSslErrors, fetch);
      var (data, fetchedItem, answer) :=
        match Payload(it.cfg.json, fetched)
        case Some(p) => (p, it.(updated := Some(now), stale := Some(false)), Unchanged)
        case None => (it.data, it.(stale := Some(true)), Failed);
      EqualReflexive(it.data);
      if !Equal(data, it.data) then Refreshed(fetchedItem.(data := data), Updated, fetched.requests)
      else Refreshed(fetchedItem, answer, fetched.requests)
  }

  /** The state of a newly constructed item: `__init__` always fetches once. */
  function Constructed(cfg: Config, now: int, fetch: Fetch): (it: Item)
    ensures it.cfg == cfg
    ensures it.updated.Some? || it.stale == Some(true)
    ensures it.updated.Some? ==> it.updated == Some(now) && it.stale == Some(false)
    ensures it.stale == Some(true) ==> it.data == JNull && it.updated.None?
  {
    RefreshItem(Initial(cfg), now, fetch).item
  }

  /** A new item has no time stamp, so the constructor's refresh always
      issues a request. */
  lemma FirstRefreshAlwaysFetches(cfg: Config, now: int, fetch: Fetch)
    ensures RefreshItem(Initial(cfg), now, fetch).requests >= 1
  {
  }

  /** A refresh after `n` further steps, each at its own time and with its own fetch. */
  function RefreshRun(it: Item, steps: seq<(int, Fetch)>): Item
    decreases |steps|
  {
    if steps == [] then it
    else RefreshRun(RefreshItem(it, steps[0].0, steps[0].1).item, steps[1..])
  }

  /** A step whose fetch fails, whenever the TTL gate lets it through. */
  predicate FailingStep(it: Item, step: (int, Fetch))
  {
    Payload(it.cfg.json, GetResponse(it.cfg.ignoreSslErrors, step.1)).None?
  }

  /** Staleness never erases data: however many refreshes fail in a row, the
      item keeps its data and its last success time. */
  lemma {:induction false} FailuresKeepData(it: Item, steps: seq<(int, Fetch)>)
    requires forall i :: 0 <= i < |steps| ==> FailingStep(it, steps[i])
    ensures RefreshRun(it, steps).data == it.data
    ensures RefreshRun(it, steps).updated == it.updated
    ensures RefreshRun(it, steps).cfg == it.cfg
    ensures steps != [] && !WithinTtl(it, steps[|steps| - 1].0) ==> RefreshRun(it, steps).stale == Some(true)
    decreases |steps|
  {
    if steps != [] {
      var next := RefreshItem(it, steps[0].0, steps[0].1).item;
      assert next.cfg == it.cfg && next.data == it.data && next.updated == it.updated;
      assert forall i :: 0 <= i < |steps[1..]| ==> FailingStep(next, steps[1..][i]) by {
        forall i | 0 <= i < |steps[1..]| ensures FailingStep(next, steps[1..][i]) {
          assert steps[1..][i] == steps[i + 1];
        }
      }
      FailuresKeepData(next, steps[1..]);
      if |steps| == 1 && !WithinTtl(it, steps[0].0) {
        assert RefreshRun(next, steps[1..]) == next;
      }
      if |steps| > 1 {
        assert steps[1..][|steps[1..]| - 1] == steps[|steps| - 1];
        assert WithinTtl(next, steps[|steps| - 1].0) == WithinTtl(it, steps[|steps| - 1].0);
      }
    }
  }

  /** After a success at a non-zero time `t0`, every refresh before `t0 + ttl`
      is gated and every refresh from `t0 + ttl` on fetches again. */
  lemma TtlGate(it: Item, t0: int, fetch: Fetch, now: int, later: Fetch)
    requires t0 != 0
    requires Payload(it.cfg.json, GetResponse(it.cfg.ignoreSslErrors, fetch)).Some?
    requires !WithinTtl(it, t0)
    ensures var next := RefreshItem(it, t0, fetch).item;
            && (now < t0 + it.cfg.ttl ==> RefreshItem(next, now, later) == Refreshed(next, Unchanged, 0))
            && (now >= t0 + it.cfg.ttl ==> RefreshItem(next, now, later).requests >= 1)
  {
  }

  /** An item whose last success happened at time 0 is never gated: the
      truthiness test reads an `updated` of 0 as "never updated". */
  lemma ZeroStampNeverGates(it: Item, now: int)
    requires it.updated == Some(0)
    ensures !WithinTtl(it, now)
  {
  }

  /**
   * The item scenario: TTL 120, a first fetch of {"USD": 50000} at time 1000,
   * a refresh at 1060 that the TTL gates, and a 500 at 1130 that marks the
   * item stale and keeps the price.
   */
  lemma PriceScenario(url: string)
    ensures var cfg := Config(url, 120, false, true);
            var price := JObj([("USD", JNum(50000))]);
            var ok := Fetch(Responded(Response(200, "", Parsed(price))), TransportError);
            var down := Fetch(Responded(Response(500, "", Malformed)), TransportError);
            var first := RefreshItem(Initial(cfg), 1000, ok);
            var second := RefreshItem(first.item, 1060, down);
            var third := RefreshItem(second.item, 1130, down);
            && first.answer == Updated && first.item.data == price && first.item.stale == Some(false)
            && second == Refreshed(first.item, Unchanged, 0)
            && third.answer == Failed && third.item.stale == Some(true) && third.item.data == price
            && Subscript(third.item.data, "USD") == Some(JNum(50000))
  {
    var price := JObj([("USD", JNum(50000))]);
    assert price.fields[0].0 == "USD";
    assert "USD" in KeySet(price.fields);
  }

  /** The same scenario with the first fetch at time 0: the success stamps
      `updated` with 0, which the gate reads as false, so the refresh at 60
      fetches again (and fails), instead of being gated. */
  lemma PriceScenarioAtTimeZero(url: string)
    ensures var cfg := Config(url, 120, false, true);
            var price := JObj([("USD", JNum(50000))]);
            var ok := Fetch(Responded(Response(200, "", Parsed(price))), TransportError);
            var down := Fetch(Responded(Response(500, "", Malformed)), TransportError);
            var first := RefreshItem(Initial(cfg), 0, ok);
            var second := RefreshItem(first.item, 60, down);
            && first.item.updated == Some(0)
            && second.requests == 1 && second.answer == Failed && second.item.data == price
  {
  }

  /**
   * An item (`ExternalData`): its configuration is fixed at construction;
   * `refresh` updates `updated`, `stale` and `data` in place.
   */
  class ExternalData {
    const url: string
    const ttl: int
    const json: bool
    const ignoreSslErrors: bool
    var updated: Option<int>
    var stale: Option<bool>
    var data: Json

    /** The item's state as a value. */
    function Model(): Item
      reads this
    {
      Item(Config(url, ttl, ignoreSslErrors, json), updated, stale, data)
    }

    /** `__init__`: record the configuration and refresh once. */
    constructor (url: string, ttl: int, ignoreSslErrors: bool, json: bool, now: int, fetch: Fetch)
      ensures Model() == Constructed(Config(url, ttl, ignoreSslErrors, json), now, fetch)
    {
      this.url := url;
      this.ttl := ttl;
      this.json := json;
      this.updated := None;
      this.stale := None;
      this.data := JNull;
      this.ignoreSslErrors := ignoreSslErrors;
      new;
      var _, _ := Refresh(now, fetch);
    }

    /** `refresh()`: returns the answer and, for the model, the number of
        requests issued (0 when the TTL gate holds). */
    method Refresh(now: int, fetch: Fetch) returns (answer: Answer, requests: nat)
      modifies this
      ensures Refreshed(Model(), answer, requests) == RefreshItem(old(Model()), now, fetch)
    {
      answer, requests := Unchanged, 0;
      if updated.Some? && updated.value != 0 && updated.value + ttl > now {
        return;
      }
      var fetched := GetResponse(ignoreSslErrors, fetch);
      requests := fetched.requests;
      var newData: Json;
      match Payload(json, fetched) {
        case Some(p) =>
          newData := p;
          updated := Some(now);
          stale := Some(false);
        case None =>
          newData := data;
          stale := Some(true);
          answer := Failed;
      }
      if !Equal(newData, data) {
        data := newData;
        answer := Updated;
      }
    }
  }
}
