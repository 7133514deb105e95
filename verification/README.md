# OrangeClock datastore, modelled in Dafny

OrangeClock keeps a small in-memory cache of values polled from HTTP endpoints:
the Bitcoin prices, the recommended fees and the block height from a mempool
server, and optionally a Nostr zap count. Each cached value is an
`ExternalData` item with its own time-to-live (TTL). After a successful fetch
at a non-zero time, an item does not fetch again until its TTL has passed. A
failed fetch does not restart the TTL, so a failing item fetches on every
refresh; it is marked stale and keeps the last good payload.
A module-level dict `_extdata` holds the items. Functions around it rebuild
the dict, add the zap item, refresh everything and read the payloads.

The model has five modules:

- `Wrappers` (wrappers.dfy): `Option`.
- `Json` (json.dfy): the payloads. `JNull` is Python's `None`, and a dict keeps
  its fields in insertion order. `Equal` is Python's `==` on these values:
  dicts compare without regard to key order, and `True == 1`.
- `Decimal` (decimal.dfy): `int(text)` on digit strings, and its inverse.
- `ExternalItem` (external_data.dfy): one item. `RefreshItem` is `refresh()` on
  the item's state as a value. The class `ExternalData` updates its fields in
  place, and its `Refresh` method is proved equal to `RefreshItem`.
- `Datastore` (datastore.dfy): the registry, a class `Registry` with the keys
  in insertion order and a map from key to `ExternalData` object. It has the
  aggregate refresh, `list_stale` and the four accessors.

Time and the network are injected. `now` is an integer parameter. A `Fetch`
gives the outcome of the first request and of the possible retry. Each outcome
is a response (status, text, decoded body or decode error), an SSL error or
another transport error. The registry takes the network as a function from URL
to `Fetch`.

Some behaviour of the code is easy to misread:

- The TTL gate is `self.updated and ...`. An item last updated at time 0 is
  therefore never gated (`ZeroStampNeverGates`, `PriceScenarioAtTimeZero`).
  A first success at t=0 is therefore not gated at t=60, so `PriceScenario`
  starts at t=1000.
- The aggregate refresh returns the list of refreshed keys in key order. It
  does not return sets. The failures are printed, or raised when
  `raise_on_failure` is set.
- `get_height`, `get_price` and `get_nostr_zap_count` return None when the
  key is absent. `get_price` and `get_nostr_zap_count` also return None when
  the value they reach is JSON `null`; the model gives `Value(JNull)` there. A
  payload of the wrong shape (None, a missing sub-key, an empty stats dict)
  makes them raise. The model gives `Raises` for these cases. `get_fees_dict`
  returns the stored data unchanged, None included.
- The zap accessor takes the first key of the stats dict, however many there
  are.
- A status-200 response whose JSON body is `null` stores `None` as the data.

## Model

| member | source | states |
|---|---|---|
| `Json.Find` | src/orangeClockFunctions/datastore.py:133 | a dict lookup finds the first field holding the key |
| `Json.Subscript` | src/orangeClockFunctions/datastore.py:133 | `j[k]` succeeds exactly when `j` is a dict holding `k`, and yields a value stored under `k`, which for a dict without repeated keys is the value under `k`; anything else raises |
| `Json.Equal` | src/orangeClockFunctions/datastore.py:61 | the `!=` test on payloads: equal payloads are of the same kind (numbers and bools count as one kind); two numbers or bools are equal exactly when their values are, so `True == 1`; None and strings are equal only to themselves |
| `Json.EqualReflexive` | src/orangeClockFunctions/datastore.py:61-63 | every payload equals itself, so re-comparing the kept data never reports a change |
| `Json.EqualSymmetric` | src/orangeClockFunctions/datastore.py:61 | payload equality is symmetric |
| `Json.ReorderedDictsAreEqual` | src/orangeClockFunctions/datastore.py:61 | any two dicts without repeated keys that hold the same (key, value) fields, in any order, compare equal, so such a refresh keeps the old data |
| `Decimal.ParseDecimal` | src/orangeClockFunctions/datastore.py:129 | `int()` of a digit string: the number is 0 exactly when every digit is '0' |
| `Decimal.ShowDecimal` | src/orangeClockFunctions/datastore.py:129 | the decimal text of a height is a digit string without a leading zero |
| `Decimal.ParseShow` | src/orangeClockFunctions/datastore.py:129 | parsing the decimal text of a height gives back the height |
| `Decimal.ShowParse` | src/orangeClockFunctions/datastore.py:129 | a digit string without a leading zero is the decimal text of the number it parses to |
| `Decimal.ParseExample` | src/orangeClockFunctions/datastore.py:129 | the text "812345" parses to 812345 |
| `ExternalItem.GetResponse` | src/orangeClockFunctions/datastore.py:20-28 | two requests exactly when the first raises an SSL error and SSL errors may be ignored; the response comes from the last request issued, and is None when that request raises |
| `ExternalItem.RetryOnlyAfterIgnoredSslError` | src/orangeClockFunctions/datastore.py:20-28 | the retry's outcome cannot matter unless the first request hit an SSL error and the item ignores SSL errors; no other error is retried |
| `ExternalItem.Payload` | src/orangeClockFunctions/datastore.py:39-56 | a fetch yields a payload exactly for a status-200 response that decodes (in JSON mode); raw mode yields the text; every exception, non-200 status or decode error yields none |
| `ExternalItem.WithinTtl` | src/orangeClockFunctions/datastore.py:34 | the gate holds only before `updated + ttl`, never for an `updated` of None or 0 (both falsy), and always for a non-zero stamp before it expires |
| `ExternalItem.RefreshItem` | src/orangeClockFunctions/datastore.py:30-65 | inside the TTL: item unchanged, answer None, no request; on failure: stale set, data and `updated` kept, answer exactly False; on success: `updated = now`, stale cleared, answer True and data replaced exactly when the payload differs, otherwise data kept and answer None; data never changes without answer True |
| `ExternalItem.Constructed` | src/orangeClockFunctions/datastore.py:7-15 | a new item has been fetched once: either stamped with `now` and not stale, or stale with no data and no stamp |
| `ExternalItem.FirstRefreshAlwaysFetches` | src/orangeClockFunctions/datastore.py:11-35 | the constructor's refresh always issues a request, because `updated` starts as None |
| `ExternalItem.FailuresKeepData` | src/orangeClockFunctions/datastore.py:46-56 | any run of failing refreshes keeps the data, the time stamp and the configuration, and leaves the item stale if the last one fetched |
| `ExternalItem.TtlGate` | src/orangeClockFunctions/datastore.py:34-35 | after a success at a non-zero time t0, refreshes before t0 + ttl are gated and issue no request; refreshes from t0 + ttl on issue one |
| `ExternalItem.ZeroStampNeverGates` | src/orangeClockFunctions/datastore.py:34 | for any item whose `updated` is 0, which is falsy, the gate never holds |
| `ExternalItem.PriceScenario` | src/orangeClockFunctions/datastore.py:30-65 | TTL 120: a fetch of {"USD": 50000} at 1000 is new data; a refresh at 1060 is gated; a 500 at 1130 fails, marks the item stale and the price still reads 50000 |
| `ExternalItem.PriceScenarioAtTimeZero` | src/orangeClockFunctions/datastore.py:34-45 | with the first success at time 0, the refresh at 60 is not gated and fetches again |
| `ExternalItem.ExternalData.constructor` | src/orangeClockFunctions/datastore.py:7-15 | the new object holds the configuration and the state of one refresh from the initial state |
| `ExternalItem.ExternalData.Refresh` | src/orangeClockFunctions/datastore.py:30-65 | the fields, the answer and the request count after the in-place refresh are those `RefreshItem` gives for the old fields |
| `Datastore.Appended` | src/orangeClockFunctions/datastore.py:98 | dict key order under `d[key] = v`: the old keys keep their places, a new key is added at the end, an existing one adds nothing, and distinct keys stay distinct |
| `Datastore.Without` | src/orangeClockFunctions/datastore.py:88 | dict key order under `del d[key]`: one key fewer when the key is present, the keys unchanged otherwise, and no key added |
| `Datastore.WithoutDistinct` | src/orangeClockFunctions/datastore.py:86-88 | deleting a key from distinct keys leaves distinct keys and removes exactly that key |
| `Datastore.MempoolBase` | src/orangeClockFunctions/datastore.py:89-94 | SSL errors are ignored exactly when a non-empty address is given; the base is that address, otherwise https://mempool.space |
| `Datastore.MempoolItems` | src/orangeClockFunctions/datastore.py:77-82 | exactly the keys prices (ttl 300, JSON), fees (ttl 120, JSON) and height (ttl 180, raw text), all with the given SSL setting, each already fetched once |
| `Datastore.UpdateThree` | src/orangeClockFunctions/datastore.py:78-82 | writing the three entries one by one is the dict `update` |
| `Datastore.MempoolKeys` | src/orangeClockFunctions/datastore.py:85-94 | an emptied registry gains the keys in the order prices, fees, height |
| `Datastore.Select` | src/orangeClockFunctions/datastore.py:100-110 | the keys whose item answers a given value: a key is listed exactly when its own refresh gives that answer, and no key is listed twice |
| `Datastore.SelectKeepsOrder` | src/orangeClockFunctions/datastore.py:103-110 | the refreshed and failed lists come in key order: any two listed keys appear in the key list in the same order |
| `Datastore.SelectPartition` | src/orangeClockFunctions/datastore.py:100-110 | refreshed, failed and unchanged keys together number as many as the keys: each key is in exactly one class |
| `Datastore.RefreshedItems` | src/orangeClockFunctions/datastore.py:103-104 | refreshing every item keeps the key set |
| `Datastore.StaleKeys` | src/orangeClockFunctions/datastore.py:124-125 | lists exactly the keys whose `stale` is True; None and False are excluded |
| `Datastore.StaleAfterRefresh` | src/orangeClockFunctions/datastore.py:100-125 | after the aggregate refresh a key is stale exactly when it failed, or when the TTL gated an item that was already stale; failed items keep their data and stamp; refreshed keys are not stale |
| `Datastore.TwoKeyScenario` | src/orangeClockFunctions/datastore.py:100-125 | with "a" updated and "b" failing, refreshed is ["a"], failures is ["b"] and only "b" is stale afterwards |
| `Datastore.IntOf` | src/orangeClockFunctions/datastore.py:129 | `int(data)`: digit text gives its number, None, lists and dicts raise |
| `Datastore.ZapCount` | src/orangeClockFunctions/datastore.py:141-142 | reading the zap count never reports a missing item; it gives a value only when the payload has a stats dict with a first key |
| `Datastore.ZapCountPath` | src/orangeClockFunctions/datastore.py:139-142 | the zap count is read from the first key of the stats dict, and is read whenever that path exists |
| `Datastore.Registry.constructor` | src/orangeClockFunctions/datastore.py:70 | the registry starts empty |
| `Datastore.Registry.Put` | src/orangeClockFunctions/datastore.py:98 | item assignment: a new key is appended, an existing key keeps its place, and only that entry changes |
| `Datastore.Registry.Delete` | src/orangeClockFunctions/datastore.py:88 | `del`: the key leaves both the key order and the map |
| `Datastore.Registry.AddNew` | src/orangeClockFunctions/datastore.py:98 | a new item is constructed (fetched once) and stored under the key; other entries are unchanged |
| `Datastore.Registry.InitMempoolData` | src/orangeClockFunctions/datastore.py:77-82 | the three mempool items are added or overwritten, all other entries kept |
| `Datastore.Registry.Initialize` | src/orangeClockFunctions/datastore.py:85-94 | afterwards the registry holds exactly prices, fees and height, in that order, for the base `MempoolBase` picks; every earlier key, "zaps" included, is gone |
| `Datastore.Registry.SetNostrPubkey` | src/orangeClockFunctions/datastore.py:97-98 | the "zaps" entry is inserted or overwritten (ttl 300, JSON, no SSL bypass); every other entry is unchanged |
| `Datastore.Registry.Refresh` | src/orangeClockFunctions/datastore.py:100-117 | every item is refreshed; refreshed lists the keys that answered True and failures those that answered False, both in key order; it raises exactly when asked to and failures is non-empty, after all items were refreshed |
| `Datastore.Registry.ListStale` | src/orangeClockFunctions/datastore.py:124-125 | exactly the registered keys whose item is stale |
| `Datastore.Registry.GetHeight` | src/orangeClockFunctions/datastore.py:127-129 | None exactly when "height" is absent; digit text parses to its number; data None raises |
| `Datastore.Registry.GetPrice` | src/orangeClockFunctions/datastore.py:131-133 | None exactly when "prices" is absent; a value exactly when the prices payload is a dict holding the currency, and then a value stored under it, which is the value under it when the dict has no repeated keys; otherwise raises |
| `Datastore.Registry.GetFeesDict` | src/orangeClockFunctions/datastore.py:135-137 | None exactly when "fees" is absent; otherwise the stored data verbatim |
| `Datastore.Registry.GetNostrZapCount` | src/orangeClockFunctions/datastore.py:139-142 | None exactly when "zaps" is absent; otherwise the count under the first key of the stats dict, or a raise when that path is missing |

## Left out

- The `requests` transport, `response.close()` and the exception swallowed around it: replaced by the injected `Fetch` outcome.
- `time.time()`: replaced by the integer `now`. Times are whole seconds, not floats.
- Datastore.Registry.InitMempoolData: the source reads the clock once per constructed item. The model uses one `now` for all three.
- Datastore.Registry.Refresh: one `now` serves every item, while the source reads the clock in each item's refresh. A slow fetch for an early key can move a later item past its TTL boundary; the model cannot express that run.
- `response.json()`: the decoded body, or the decode error, is part of the injected response.
- JSON floats: numbers are integers. Python's float equality (`1 == 1.0`, NaN) is not modelled.
- Repeated keys in one dict: a decoded dict never has them (`Json.DistinctKeys`), but the `Json` type does not rule them out. Lookups take the first field with the key.
- Datastore.IntOf: accepts text only as plain decimal digits. Python's `int()` also accepts surrounding whitespace, a sign and underscores, and the model says `Raises` for those.
- Datastore.Registry.GetPrice: for a dict with repeated keys, states only that the result is one of the values stored under the currency, not which one. A decoded dict has no repeated keys.
- `print`, `log_exception`, `__str__` and the text of the failure message: logging only.
- ExternalItem.ExternalData.Refresh: also returns the number of requests. The source does not return this count; it makes "no fetch" observable.
- Datastore.Registry.GetFeesDict: distinguishes a stored `None` (`Value(JNull)`) from an absent key (`Absent`). Python returns `None` for both.
- Datastore.Registry.GetPrice: distinguishes a `null` price (`Value(JNull)`) from an absent "prices" key (`Absent`). Python returns `None` for both.
- Datastore.Registry.GetNostrZapCount: distinguishes a `null` count (`Value(JNull)`) from an absent "zaps" key (`Absent`). Python returns `None` for both.
- Concurrency: the source has none.
