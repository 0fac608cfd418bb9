/**
 * The query function of useNewsData (src/hooks/useNewsData.ts): cache check,
 * one GET of the feed, status check, XML parse outcome, item normalisation.
 *
 * The fetched text and xml2js's parse of it are abstracted to a FeedResponse.
 * xml2js puts every child element in an array, so an element that is absent
 * from an item is an empty sequence here.
 */
module News {
  import opened Types
  import opened Cache

  const FEED_URL: string := "https://www.forexlive.com/feed/news"

  datatype RawItem = RawItem(title: seq<string>, link: seq<string>, pubDate: seq<string>, description: seq<string>)
  datatype Channel = Channel(item: Option<seq<RawItem>>)
  datatype Rss = Rss(channel: Option<seq<Channel>>)
  datatype FeedDocument = FeedDocument(rss: Option<Rss>)

  /** The outcome of parseString on the response text. */
  datatype ParseOutcome = ParseFailed | Parsed(doc: FeedDocument)

  /**
   * The feed's answer: none at all when `fetch` or `response.text()` rejects,
   * otherwise `response.ok` and the parse of its text.
   */
  datatype FeedResponse = FeedUnreachable | FeedAnswer(ok: bool, body: ParseOutcome)

  /** One run of the query function: its result, whether the feed was fetched, the cache slot after it. */
  datatype NewsOutcome = NewsOutcome(result: Result<seq<NewsItem>>, fetched: bool, slot: Slot)

  /** `result?.rss?.channel?.[0]?.item`: the items of the first channel, if there are any. */
  function ChannelItems(doc: FeedDocument): (r: Option<seq<RawItem>>)
    ensures r.Some? <==> doc.rss.Some? && doc.rss.value.channel.Some?
                         && |doc.rss.value.channel.value| > 0 && doc.rss.value.channel.value[0].item.Some?
    ensures r.Some? ==> r.value == doc.rss.value.channel.value[0].item.value
  {
    match doc.rss
    case None => None
    case Some(rss) =>
      match rss.channel
      case None => None
      case Some(channels) => if |channels| == 0 then None else channels[0].item
  }

  /** Every field the mapping reads `[0]` of is present. */
  predicate Complete(raw: RawItem)
  {
    |raw.title| > 0 && |raw.link| > 0 && |raw.pubDate| > 0 && |raw.description| > 0
  }

  /** The `.map` over the items: first title, link and pubDate, first description as content. */
  function NormaliseItems(items: seq<RawItem>): (r: Result<seq<NewsItem>>)
    ensures r.Ok? <==> forall i :: 0 <= i < |items| ==> Complete(items[i])
    ensures r.Err? ==> r.error == ItemFieldMissing
    ensures r.Ok? ==> |r.value| == |items|
    ensures r.Ok? ==> forall i :: 0 <= i < |items| ==>
              && r.value[i].title == items[i].title[0]
              && r.value[i].link == items[i].link[0]
              && r.value[i].pubDate == items[i].pubDate[0]
              && r.value[i].content == items[i].description[0]
  {
    if items == [] then Ok([])
    else if !Complete(items[0]) then Err(ItemFieldMissing)
    else
      var first := NewsItem(items[0].title[0], items[0].link[0], items[0].pubDate[0], items[0].description[0]);
      match NormaliseItems(items[1..])
      case Err(e) => Err(e)
      case Ok(rest) => Ok([first] + rest)
  }

  /** The news a cache read at `now` would hand back, if any. */
  function CachedNews(slot: Slot, now: int): Option<seq<NewsItem>>
  {
    var v := Read(slot, now).value;
    if v.Some? then v.value.news else None
  }

  /** What the query does with a parsed document. */
  function Normalise(doc: FeedDocument): Result<seq<NewsItem>>
  {
    match ChannelItems(doc)
    case None => Ok([])
    case Some(items) => NormaliseItems(items)
  }

  /** The query function, as a function of the slot, the clock and the feed's answer. */
  function NewsQuery(slot: Slot, now: int, feed: FeedResponse): (o: NewsOutcome)
    // cached news is returned as it is, without fetching and without touching the slot
    ensures CachedNews(slot, now).Some? ==> o == NewsOutcome(Ok(CachedNews(slot, now).value), false, slot)
    ensures o.fetched <==> CachedNews(slot, now).None?
    // the query only reads the cache: the slot is kept or purged, never written
    ensures o.slot == slot || o.slot == Empty
    ensures o.fetched ==> o.slot == Read(slot, now).after
    ensures o.fetched && feed.FeedUnreachable? ==> o.result == Err(TransportFailed)
    ensures o.fetched && feed.FeedAnswer? && !feed.ok ==> o.result == Err(FeedUnavailable)
    ensures o.fetched && feed.FeedAnswer? && feed.ok && feed.body.ParseFailed? ==> o.result == Err(FeedParseFailed)
    // a document without items is an empty list, not an error
    ensures o.fetched && feed.FeedAnswer? && feed.ok && feed.body.Parsed? && ChannelItems(feed.body.doc).None? ==> o.result == Ok([])
    ensures o.fetched && feed.FeedAnswer? && feed.ok && feed.body.Parsed? && ChannelItems(feed.body.doc).Some? ==>
              o.result == NormaliseItems(ChannelItems(feed.body.doc).value)
  {
    var read := Read(slot, now);
    var cached := CachedNews(slot, now);
    if cached.Some? then
      NewsOutcome(Ok(cached.value), false, read.after)
    else if feed.FeedUnreachable? then
      NewsOutcome(Err(TransportFailed), true, read.after)
    else if !feed.ok then
      NewsOutcome(Err(FeedUnavailable), true, read.after)
    else
      match feed.body
      case ParseFailed => NewsOutcome(Err(FeedParseFailed), true, read.after)
      case Parsed(doc) => NewsOutcome(Normalise(doc), true, read.after)
  }

  /** The query function run against the browser cache. */
  method FetchNews(store: CacheStore, now: int, feed: FeedResponse)
    returns (result: Result<seq<NewsItem>>, fetched: bool)
    modifies store
    ensures var o := NewsQuery(old(store.slot), now, feed);
            result == o.result && fetched == o.fetched && store.slot == o.slot
  {
    var cached := store.Get(now);
    if cached.Some? && cached.value.news.Some? {
      return Ok(cached.value.news.value), false;
    }
    fetched := true;
    if feed.FeedUnreachable? {
      return Err(TransportFailed), fetched;
    }
    if !feed.ok {
      return Err(FeedUnavailable), fetched;
    }
    match feed.body {
      case ParseFailed =>
        result := Err(FeedParseFailed);
      case Parsed(doc) =>
        result := Normalise(doc);
    }
  }

  /** Within the window after a save, the news query returns the saved news without fetching. */
  lemma NewsServedFromSavedEntry(slot: Slot, correlations: seq<CorrelationPair>, news: seq<NewsItem>,
                                 savedAt: int, now: int, feed: FeedResponse)
    requires now - savedAt <= CACHE_DURATION
    ensures NewsQuery(Written(slot, correlations, news, savedAt, false), now, feed)
         == NewsOutcome(Ok(news), false, Stored(Entry(correlations, news, savedAt)))
  {
  }

  /** Only the first channel's items are read; later channels are ignored. */
  lemma OnlyFirstChannel(c: Channel, rest: seq<Channel>, items: seq<RawItem>)
    requires c.item == Some(items)
    ensures Normalise(FeedDocument(Some(Rss(Some([c] + rest))))) == NormaliseItems(items)
  {
  }
}
