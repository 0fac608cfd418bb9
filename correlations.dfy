/**
 * The query function of useCorrelationData (src/hooks/useCorrelationData.ts):
 * guard, cache check, one request to the chat-completions endpoint, cache
 * write, cost report.
 *
 * The HTTP exchange and JSON decoding are abstracted to a Reply value; the
 * clock is read twice in the source, once in getFromCache before the request
 * (`now`) and once in saveToCache after the reply arrives (`savedAt`).
 */
module Correlations {
  import opened Types
  import opened Cache
  import opened CostTracking

  const COMPLETIONS_URL: string := "https://api.openai.com/v1/chat/completions"
  const SYSTEM_PROMPT: string := "You are a financial analyst expert in correlations between different assets."
  const USER_PROMPT: string := "Analyze these news items and identify correlations between major currency pairs, commodities, and stock indices. Return the data as JSON array with correlation scores (-1 to 1) and sentiment impact (-1 to 1):\n"

  /** The POST the query sends; the user message is USER_PROMPT followed by the news as JSON. */
  datatype ChatRequest = ChatRequest(
    url: string,
    authorization: string,
    model: string,
    systemMessage: string,
    userPrompt: string,
    news: seq<NewsItem>)

  /** `JSON.parse(data.choices[0].message.content)`, or the failure of one of those steps. */
  datatype Payload = Malformed | Pairs(pairs: seq<CorrelationPair>)

  /**
   * The completion endpoint's answer: none at all when `fetch` rejects (offline,
   * DNS, CORS), otherwise status, decoded payload and `usage.total_tokens`
   * (None: no usage object).
   */
  datatype Reply = Unreachable | Answer(ok: bool, payload: Payload, totalTokens: Option<nat>)

  /** An answer with an ok status whose content decoded to a list of pairs. */
  predicate Decoded(reply: Reply)
  {
    reply.Answer? && reply.ok && reply.payload.Pairs?
  }

  /** One run of the query function: its result, the request it sent, the cache slot after it, the costs it reported. */
  datatype Outcome = Outcome(
    result: Result<seq<CorrelationPair>>,
    sent: Option<ChatRequest>,
    slot: Slot,
    costs: seq<nat>)

  /** The query's `enabled` option; `retry: false` means one run per refresh. */
  predicate Enabled(news: seq<NewsItem>, apiKey: string)
  {
    |news| > 0 && |apiKey| > 0
  }

  function BuildRequest(news: seq<NewsItem>, apiKey: string, model: string): ChatRequest
  {
    ChatRequest(COMPLETIONS_URL, "Bearer " + apiKey, model, SYSTEM_PROMPT, USER_PROMPT, news)
  }

  /** The correlations a cache read at `now` would hand back, if any. */
  function CachedCorrelations(slot: Slot, now: int): Option<seq<CorrelationPair>>
  {
    var v := Read(slot, now).value;
    if v.Some? then v.value.correlations else None
  }

  /** The query function, as a function of the slot, the inputs and the reply. */
  function CorrelationQuery(slot: Slot, news: seq<NewsItem>, apiKey: string, model: string,
                            now: int, savedAt: int, reply: Reply, storageFails: bool): (o: Outcome)
    // no news or no key: [] with no cache access, no request, no cost
    ensures !Enabled(news, apiKey) ==> o == Outcome(Ok([]), None, slot, [])
    // a cache hit returns the cached list with no request, no write and no cost
    ensures Enabled(news, apiKey) && CachedCorrelations(slot, now).Some? ==>
              o == Outcome(Ok(CachedCorrelations(slot, now).value), None, slot, [])
    // otherwise exactly one request, carrying the key and this call's news
    ensures o.sent.Some? <==> Enabled(news, apiKey) && CachedCorrelations(slot, now).None?
    ensures o.sent.Some? ==> o.sent.value == BuildRequest(news, apiKey, model)
    // a request that got no answer fails with the runtime's error: no cache write, no cost
    ensures o.sent.Some? && reply.Unreachable? ==>
              o.result == Err(TransportFailed) && o.slot == Read(slot, now).after && o.costs == []
    // a rejected or undecodable reply: an error, no cache write, no cost
    ensures o.sent.Some? && reply.Answer? && (!reply.ok || reply.payload.Malformed?) ==>
              o.result == Err(if !reply.ok then AnalysisRejected else ReplyMalformed)
              && o.slot == Read(slot, now).after && o.costs == []
    // a decoded reply is saved with this call's news before the cost is read off the usage:
    // with a usage it succeeds with the decoded list and one cost, without one it fails after the save
    ensures o.sent.Some? && Decoded(reply) ==>
              && o.slot == Written(Read(slot, now).after, reply.payload.pairs, news, savedAt, storageFails)
              && o.result == (if reply.totalTokens.Some? then Ok(reply.payload.pairs) else Err(UsageMissing))
              && o.costs == (if reply.totalTokens.Some? then [CostUnits(reply.totalTokens.value)] else [])
    // conversely, a request succeeds only on a decoded reply with a usage
    ensures o.result.Ok? && o.sent.Some? ==>
              Decoded(reply) && reply.totalTokens.Some?
              && o.result.value == reply.payload.pairs
              && o.costs == [CostUnits(reply.totalTokens.value)]
    // at most one cost report, and only for a request that was sent
    ensures |o.costs| <= 1 && (o.costs != [] ==> o.sent.Some? && o.result.Ok?)
  {
    if !Enabled(news, apiKey) then
      Outcome(Ok([]), None, slot, [])
    else
      var read := Read(slot, now);
      var cached := CachedCorrelations(slot, now);
      if cached.Some? then
        Outcome(Ok(cached.value), None, read.after, [])
      else
        var request := Some(BuildRequest(news, apiKey, model));
        if reply.Unreachable? then
          Outcome(Err(TransportFailed), request, read.after, [])
        else if !reply.ok then
          Outcome(Err(AnalysisRejected), request, read.after, [])
        else
          match reply.payload
          case Malformed => Outcome(Err(ReplyMalformed), request, read.after, [])
          case Pairs(pairs) =>
            var saved := Written(read.after, pairs, news, savedAt, storageFails);
            match reply.totalTokens
            case None => Outcome(Err(UsageMissing), request, saved, [])
            case Some(tokens) => Outcome(Ok(pairs), request, saved, [CostUnits(tokens)])
  }

  /** The query function run against the browser cache and the cost channel. */
  method FetchCorrelations(store: CacheStore, ledger: CostLedger,
                           news: seq<NewsItem>, apiKey: string, model: string,
                           now: int, savedAt: int, reply: Reply, storageFails: bool)
    returns (result: Result<seq<CorrelationPair>>, sent: Option<ChatRequest>)
    modifies store, ledger
    ensures var o := CorrelationQuery(old(store.slot), news, apiKey, model, now, savedAt, reply, storageFails);
            result == o.result && sent == o.sent && store.slot == o.slot
            && ledger.reports == old(ledger.reports) + o.costs
  {
    if !Enabled(news, apiKey) {
      return Ok([]), None;
    }
    var cached := store.Get(now);
    if cached.Some? && cached.value.correlations.Some? {
      return Ok(cached.value.correlations.value), None;
    }
    sent := Some(BuildRequest(news, apiKey, model));
    if reply.Unreachable? {
      return Err(TransportFailed), sent;
    }
    if !reply.ok {
      return Err(AnalysisRejected), sent;
    }
    if reply.payload.Malformed? {
      return Err(ReplyMalformed), sent;
    }
    var pairs := reply.payload.pairs;
    store.Save(pairs, news, savedAt, storageFails);
    if reply.totalTokens.None? {
      return Err(UsageMissing), sent;
    }
    ledger.Report(CostUnits(reply.totalTokens.value));
    result := Ok(pairs);
  }

  /**
   * No redundant paid call: once a request's decoded reply has been saved, every
   * enabled run within the freshness window is answered from the cache, whatever
   * its news, and costs nothing. This holds even when the reply had no usage
   * object, because the save happens before the cost is read.
   */
  lemma NoRepeatedCallWithinWindow(slot: Slot, news: seq<NewsItem>, apiKey: string, model: string,
                                   now: int, savedAt: int, reply: Reply,
                                   news2: seq<NewsItem>, apiKey2: string, model2: string,
                                   now2: int, savedAt2: int, reply2: Reply, storageFails2: bool)
    requires CorrelationQuery(slot, news, apiKey, model, now, savedAt, reply, false).sent.Some?
    requires Decoded(reply)
    requires now2 - savedAt <= CACHE_DURATION
    requires Enabled(news2, apiKey2)
    ensures var o1 := CorrelationQuery(slot, news, apiKey, model, now, savedAt, reply, false);
            var o2 := CorrelationQuery(o1.slot, news2, apiKey2, model2, now2, savedAt2, reply2, storageFails2);
            o2 == Outcome(Ok(reply.payload.pairs), None, o1.slot, [])
  {
    var o1 := CorrelationQuery(slot, news, apiKey, model, now, savedAt, reply, false);
    assert o1.slot == Stored(Entry(reply.payload.pairs, news, savedAt));
  }

  /** A cache hit does not depend on the news passed in. */
  lemma HitIgnoresNews(slot: Slot, news1: seq<NewsItem>, news2: seq<NewsItem>, apiKey: string, model: string,
                       now: int, savedAt: int, reply: Reply, storageFails: bool)
    requires Enabled(news1, apiKey) && Enabled(news2, apiKey)
    requires CachedCorrelations(slot, now).Some?
    ensures CorrelationQuery(slot, news1, apiKey, model, now, savedAt, reply, storageFails)
         == CorrelationQuery(slot, news2, apiKey, model, now, savedAt, reply, storageFails)
  {
  }

  /**
   * Two "USD rises" / "Oil drops" items, an empty cache and a reply with one pair
   * and 1000 tokens: the pair is returned, 0.01 is reported and the cache holds
   * exactly this news and this pair.
   */
  lemma TwoItemScenario(link: string, date: string, body: string, apiKey: string, model: string,
                        now: int, savedAt: int)
    requires apiKey != ""
    ensures var news := [NewsItem("USD rises", link, date, body), NewsItem("Oil drops", link, date, body)];
            var pair := CorrelationPair("USD", "Oil", -0.6, 0.3, []);
            var o := CorrelationQuery(Empty, news, apiKey, model, now, savedAt,
                                      Answer(true, Pairs([pair]), Some(1000)), false);
            o.result == Ok([pair]) && o.slot == Stored(Entry([pair], news, savedAt))
            && |o.costs| == 1 && 100 * o.costs[0] == UNITS_PER_CURRENCY
  {
  }
}
