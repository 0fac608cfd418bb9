# Forex correlation dashboard: response cache and query functions

This project models the data pipeline of a browser dashboard. The dashboard fetches a
financial news feed, asks a chat-completions endpoint to find correlations between
assets in that news, and keeps the last news-and-analysis pair in a single
five-minute cache slot in browser storage.

The model covers three parts:

- **Cache store** (`cache.dfy`, module `Cache`). It is one slot under the fixed key
  `forex_analyzer_cache`. The slot is `Empty`, `Unparsable` (the stored text does not
  parse) or `Stored(CacheData)`. `CacheStore` is a class with a mutable `slot` field:
  - `Save` stamps the entry with `now`, and a storage failure leaves the slot as it was.
  - `Get` answers null on an empty slot. It purges an unparsable entry, and an entry
    more than 300000 ms old. Otherwise it returns the entry.
  - Both methods are proved against the pure functions `Written` and `Read`.
- **Correlation query** (`correlations.dfy`, module `Correlations`). The steps are:
  the guard on empty news or an empty key, the cache hit, the one request, the status
  check, the decode, the cache write, then the cost report.
  - The HTTP exchange is an input: `Unreachable` when `fetch` rejects, otherwise
    `Answer(ok, payload, totalTokens)`.
  - `FetchCorrelations` runs over a `CacheStore` and a `CostLedger`. It is proved
    equal to the pure `CorrelationQuery`.
- **News query** (`news.dfy`, module `News`). It checks the cache, makes one GET of
  the feed, checks the status and then the XML parse outcome. It maps
  `rss.channel[0].item` to `NewsItem`s.
  - The parsed document is a datatype, and the mapping is the recursive
    `NormaliseItems`.
  - `FetchNews` runs over a `CacheStore` and is proved equal to the pure `NewsQuery`.
- **Cost channel** (`cost.dfy`, module `CostTracking`). `onCostUpdate` and the
  dashboard's running total are a `CostLedger` holding the list of reports. Costs are
  whole units of 1e-5 of a currency unit, so a reply of `n` tokens costs `n` units.
- `types.dfy` (module `Types`) holds the record shapes and the error kinds.

Inputs from the outside world are parameters:

- The clock (`Date.now()`) is `now`. The correlation query reads the clock twice:
  `now` when it reads the cache and `savedAt` when it saves after the reply.
- A failing `localStorage.setItem` is the flag `storageFails`.
- The HTTP responses, `response.json()`, `JSON.parse` of the reply and
  `xml2js.parseString` are the input datatypes `Reply` and `FeedResponse`.

In three places the code does something a reader might not expect; the model follows the code:

- A feed item that lacks `title`, `link`, `pubDate` or `description` is not given
  defaults. Reading `[0]` of the missing field throws, so the whole
  query fails. The model returns `Err(ItemFieldMissing)`.
- A reply without a `usage` object fails the query even though the cost is only an
  estimate. The code reads `data.usage.total_tokens` only after `saveToCache`. So the query fails
  (`Err(UsageMissing)`) and reports no cost, but the cache has already been written.
  `NoRepeatedCallWithinWindow` relies on this order.
- A fresh cache entry with an empty `correlations` array counts as a hit. `[]` is
  truthy in the source.

## Model

| member | source | states |
|---|---|---|
| Cache.Read | src/utils/cache.ts:24-40 | the entry is returned exactly when a parsed record is stored and `now - timestamp <= 300000`; the returned entry is the stored one and the slot is unchanged; every null answer leaves the slot empty |
| Cache.CacheStore.Get | src/utils/cache.ts:24-40 | returns and leaves behind exactly what `Read` gives for the old slot: null on an empty slot, purge on an unparsable or expired entry, the entry otherwise |
| Cache.CacheStore.Save | src/utils/cache.ts:12-22 | the slot becomes the data stamped with `now`, or stays as it was when storage fails; the method never fails |
| Cache.SaveThenGetFresh | src/utils/cache.ts:12-34 | a save at `t` and a get at most 300000 ms later return the same news and correlations with timestamp `t`, and keep the slot |
| Cache.SaveThenGetExpired | src/utils/cache.ts:30-32 | a get more than 300000 ms after the save returns null and leaves the slot empty |
| Cache.FreshnessBoundary | src/utils/cache.ts:10-32 | an age of exactly 300000 ms is still fresh; 300001 ms is expired and purged |
| Cache.GetOnEmpty | src/utils/cache.ts:25-26 | a get on an empty slot returns null and leaves the slot empty |
| Cache.GetOnUnparsable | src/utils/cache.ts:35-39 | a get on an unparsable entry returns null and removes it |
| Cache.MissingTimestamp | src/utils/cache.ts:30-32 | a record with no timestamp, or with timestamp 0, is fresh exactly while `now <= 300000` |
| Cache.LastWriteWins | src/utils/cache.ts:12-18 | two successful saves leave the second one's entry, whatever the slot held before |
| Cache.FailedSaveKeepsSlot | src/utils/cache.ts:17-21 | a save whose storage write fails leaves the previous slot contents |
| Cache.GetIsIdempotent | src/utils/cache.ts:24-40 | repeating a get at the same time gives the same answer and the same slot |
| CostTracking.SumAppend | src/App.tsx:44 | adding one reported cost to the history raises the running total by exactly that cost |
| CostTracking.CostLedger.constructor | src/App.tsx:26 | the running estimate starts at 0 with no reports |
| CostTracking.CostLedger.Report | src/App.tsx:44 | `onCostUpdate` appends the cost to the reports and adds it to the total, so the total never decreases |
| Correlations.CorrelationQuery | src/hooks/useCorrelationData.ts:22-62 | empty news or key gives `[]` with no cache access, request or cost. A cache hit returns the cached list with no request, write or cost. Otherwise exactly one request is sent, carrying the key and this call's news. A request that gets no answer fails with the runtime's error, a non-ok reply fails with the API-key message, and an undecodable reply fails too; none of them writes the cache or reports a cost. A decoded reply is saved with this call's news; then, if it has a usage, the query returns the decoded list and reports exactly one cost, `total_tokens × 0.00001`, and without one it fails with no cost. Conversely, a sent request succeeds only in that case |
| Correlations.FetchCorrelations | src/hooks/useCorrelationData.ts:22-62 | run against the cache store and the cost ledger: result, request, new slot and appended costs are exactly those of `CorrelationQuery` |
| Correlations.NoRepeatedCallWithinWindow | src/hooks/useCorrelationData.ts:25-59 | once a reply decoded to a list of pairs has been saved, every enabled run within 300000 ms of the save returns the saved correlations with no request and no cost, whatever its news; this holds even when reading the usage then failed |
| Correlations.HitIgnoresNews | src/hooks/useCorrelationData.ts:25-28 | on a cache hit the outcome does not depend on the news argument |
| Correlations.TwoItemScenario | src/hooks/useCorrelationData.ts:56-61 | two news items, an empty cache and a reply with one pair and 1000 tokens: the pair is returned, 0.01 is reported once, and the cache holds exactly this news and this pair |
| News.ChannelItems | src/hooks/useNewsData.ts:25-28 | the items are found exactly when `rss`, `rss.channel`, a first channel and its `item` list all exist, and they are that first channel's list |
| News.NormaliseItems | src/hooks/useNewsData.ts:29-34 | the mapping succeeds exactly when every item has all four fields; it preserves count and order; each output takes the first title, link and pubDate, and the first description as content |
| News.NewsQuery | src/hooks/useNewsData.ts:9-38 | cached news is returned unchanged without fetching; otherwise the feed is fetched once. A fetch that gets no answer fails with the runtime's error, a non-ok status fails with "Failed to fetch news feed" and a parse error with "Failed to parse news feed". A document without items gives `[]`; one with items gives their normalisation. The slot is only kept or purged, never written |
| News.FetchNews | src/hooks/useNewsData.ts:9-38 | run against the cache store: the result, whether the feed was fetched, and the new slot are exactly those of `NewsQuery` |
| News.NewsServedFromSavedEntry | src/hooks/useNewsData.ts:10-13 | within 300000 ms of a successful save, the news query returns the saved news without fetching |
| News.OnlyFirstChannel | src/hooks/useNewsData.ts:25-29 | only the first channel's items are normalised; later channels are ignored |

## Left out

- Rendering. The components under src/components and the layout and settings modal
  in src/App.tsx are markup and form state.
- react-query scheduling: `refetchInterval`, `staleTime`, query keys, `initialData`
  and the news query's `retry: 2`. These are timer and library behaviour.
  - `enabled` is kept as `Correlations.Enabled`.
  - `retry: false` means one run per refresh. Each run sends at most one request,
    because `sent` is an `Option`.
- `fetch`, `response.json()`, `JSON.parse` and `xml2js.parseString` are foreign
  calls. Their outcomes are the input datatypes `Reply`, `Payload`, `FeedResponse`
  and `ParseOutcome`.
- The request is recorded as its URL, the bearer header, the model, the system
  message, the user prompt, and the news list. `JSON.stringify(news)`, the bytes
  embedded in the user message, is not modelled.
- JSON serialisation of the cache entry is abstracted to `Slot`. Two cases are not
  modelled: stored text that parses to a non-object such as `null`, and field values
  of the wrong JSON type.
- Settings persistence (src/App.tsx:20-23, 47-49) is not part of this model.
- Floating point. Costs are whole units of 1e-5, so `total_tokens * 0.00001` and
  its rounding are not modelled.
- A reply whose `usage` has no `total_tokens` makes the source report a NaN cost.
  This is not modelled: `totalTokens` is either a number or the whole `usage` object
  is absent.
- A reply whose content is valid JSON but not a list (`null`, an object, a number) is
  saved and returned by the source. `Payload` cannot express such a value, so the
  model treats only a list of pairs as decoded. A falsy value saved this way misses the
  cache on the next run and pays again; `NoRepeatedCallWithinWindow` covers only replies
  that decode to a list.
- Errors the runtime raises (a rejected `fetch` or `response.text()`, a `TypeError` or
  `SyntaxError` while decoding the reply, or a missing item field) are kinds without messages, because their
  text comes from the JavaScript engine. For a missing item field, the model does not
  say whether xml2js turns the error into "Failed to parse news feed" or lets it out.
- `console.error` logging in the cache is not modelled.
- In-flight exclusion, teardown and the refresh timer belong to react-query and React
  state in src/App.tsx; they are not modelled.
