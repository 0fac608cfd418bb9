/** Record shapes shared by the cache and the two query functions (src/types.ts). */
module Types {

  datatype Option<+T> = None | Some(value: T)

  /** One entry of the news feed, as the news query hands it on. */
  datatype NewsItem = NewsItem(title: string, link: string, pubDate: string, content: string)

  /** One scored relationship between two assets, as the language model returns it. */
  datatype CorrelationPair = CorrelationPair(
    asset1: string,
    asset2: string,
    correlation: real,
    sentiment: real,
    newsImpact: seq<NewsItem>)

  /** The ways a query function can reject its promise. */
  datatype QueryError =
    | TransportFailed    // fetch itself rejected, or the response body could not be read
    | AnalysisRejected   // the completion endpoint answered with a non-ok status
    | ReplyMalformed     // response.json(), choices[0].message.content or JSON.parse threw
    | UsageMissing       // the reply had no `usage` object, so reading total_tokens threw
    | FeedUnavailable    // the feed answered with a non-ok status
    | FeedParseFailed    // xml2js reported a parse error
    | ItemFieldMissing   // a feed item lacked title, link, pubDate or description

  /** The error message the source writes itself; None where the runtime raises the error. */
  function Message(e: QueryError): Option<string>
  {
    match e
    case AnalysisRejected => Some("Failed to analyze correlations. Please check your API key.")
    case FeedUnavailable => Some("Failed to fetch news feed")
    case FeedParseFailed => Some("Failed to parse news feed")
    case _ => None
  }

  datatype Result<+T> = Ok(value: T) | Err(error: QueryError)
}
