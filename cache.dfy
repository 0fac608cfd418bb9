/**
 * The single-slot, time-boxed response cache (src/utils/cache.ts).
 *
 * The browser's localStorage entry under CACHE_KEY is abstracted to a Slot:
 * nothing stored, a stored text that JSON.parse rejects, or a parsed record.
 * Date.now() becomes a `now` parameter and a failing setItem becomes the
 * `storageFails` flag.
 */
module Cache {
  import opened Types

  const CACHE_KEY: string := "forex_analyzer_cache"

  /** Five minutes, in milliseconds. */
  const CACHE_DURATION: int := 5 * 60 * 1000

  /**
   * What JSON.parse yields for the stored text. The code reads every field
   * through `?.` or `|| 0`, so a field may be absent.
   */
  datatype CacheData = CacheData(
    correlations: Option<seq<CorrelationPair>>,
    news: Option<seq<NewsItem>>,
    timestamp: Option<int>)

  datatype Slot = Empty | Unparsable | Stored(data: CacheData)

  /** What getFromCache returns, and the slot it leaves behind. */
  datatype ReadResult = ReadResult(value: Option<CacheData>, after: Slot)

  /** The record saveToCache writes: the data plus the time of the write. */
  function Entry(correlations: seq<CorrelationPair>, news: seq<NewsItem>, now: int): CacheData
  {
    CacheData(Some(correlations), Some(news), Some(now))
  }

  /** `data?.timestamp || 0`: an absent (or zero) timestamp counts as 0. */
  function Stamp(d: CacheData): int
  {
    match d.timestamp
    case None => 0
    case Some(t) => t
  }

  predicate Expired(d: CacheData, now: int)
  {
    now - Stamp(d) > CACHE_DURATION
  }

  /** The slot after saveToCache: a failed setItem is swallowed and changes nothing. */
  function Written(slot: Slot, correlations: seq<CorrelationPair>, news: seq<NewsItem>,
                   now: int, storageFails: bool): Slot
  {
    if storageFails then slot else Stored(Entry(correlations, news, now))
  }

  /** getFromCache at time `now`. */
  function Read(slot: Slot, now: int): (r: ReadResult)
    // an entry is returned exactly when a parsed record is stored and is not too old
    ensures r.value.Some? <==> slot.Stored? && !Expired(slot.data, now)
    // a returned entry is the stored record, and the slot is left as it was
    ensures r.value.Some? ==> r.value.value == slot.data && r.after == slot
    // every null answer leaves the slot empty
    ensures r.value.None? ==> r.after == Empty
  {
    match slot
    case Empty => ReadResult(None, Empty)
    case Unparsable => ReadResult(None, Empty)
    case Stored(d) => if Expired(d, now) then ReadResult(None, Empty) else ReadResult(Some(d), slot)
  }

  /** A save at `t` followed, `CACHE_DURATION` or less later, by a get returns what was saved. */
  lemma SaveThenGetFresh(slot: Slot, correlations: seq<CorrelationPair>, news: seq<NewsItem>, t: int, later: int)
    requires later - t <= CACHE_DURATION
    ensures Read(Written(slot, correlations, news, t, false), later)
         == ReadResult(Some(Entry(correlations, news, t)), Stored(Entry(correlations, news, t)))
  {
  }

  /** More than `CACHE_DURATION` after the save, a get returns null and purges the slot. */
  lemma SaveThenGetExpired(slot: Slot, correlations: seq<CorrelationPair>, news: seq<NewsItem>, t: int, later: int)
    requires later - t > CACHE_DURATION
    ensures Read(Written(slot, correlations, news, t, false), later) == ReadResult(None, Empty)
  {
  }

  /** The comparison is strict: an age of exactly five minutes is still fresh, one millisecond more is not. */
  lemma FreshnessBoundary(d: CacheData)
    ensures Read(Stored(d), Stamp(d) + 300000).value == Some(d)
    ensures Read(Stored(d), Stamp(d) + 300001) == ReadResult(None, Empty)
  {
  }

  lemma GetOnEmpty(now: int)
    ensures Read(Empty, now) == ReadResult(None, Empty)
  {
  }

  lemma GetOnUnparsable(now: int)
    ensures Read(Unparsable, now) == ReadResult(None, Empty)
  {
  }

  /** A record without a timestamp, or with timestamp 0, is fresh only while now <= CACHE_DURATION. */
  lemma MissingTimestamp(correlations: Option<seq<CorrelationPair>>, news: Option<seq<NewsItem>>, now: int)
    ensures Read(Stored(CacheData(correlations, news, None)), now).value.Some? <==> now <= CACHE_DURATION
    ensures Read(Stored(CacheData(correlations, news, Some(0))), now).value.Some? <==> now <= CACHE_DURATION
  {
  }

  /** A successful save replaces the slot whatever it held: only the last write is observable. */
  lemma LastWriteWins(s1: Slot, s2: Slot, c1: seq<CorrelationPair>, n1: seq<NewsItem>, t1: int,
                      c2: seq<CorrelationPair>, n2: seq<NewsItem>, t2: int)
    ensures Written(Written(s1, c1, n1, t1, false), c2, n2, t2, false)
         == Written(s2, c2, n2, t2, false)
  {
  }

  /** A failed save leaves the previous contents in place. */
  lemma FailedSaveKeepsSlot(slot: Slot, correlations: seq<CorrelationPair>, news: seq<NewsItem>, now: int)
    ensures Written(slot, correlations, news, now, true) == slot
  {
  }

  /** Repeating a get at the same time gives the same answer and the same slot. */
  lemma GetIsIdempotent(slot: Slot, now: int)
    ensures Read(Read(slot, now).after, now) == Read(slot, now)
  {
  }

  /** The browser storage entry under CACHE_KEY. */
  class CacheStore {
    var slot: Slot

    constructor (initial: Slot)
      ensures slot == initial
    {
      slot := initial;
    }

    /** saveToCache: stamp the data with `now` and overwrite the slot; never fails. */
    method Save(correlations: seq<CorrelationPair>, news: seq<NewsItem>, now: int, storageFails: bool)
      modifies this
      ensures slot == Written(old(slot), correlations, news, now, storageFails)
    {
      if !storageFails {
        slot := Stored(Entry(correlations, news, now));
      }
    }

    /** getFromCache: return a fresh entry, purging an expired or unparsable one. */
    method Get(now: int) returns (r: Option<CacheData>)
      modifies this
      ensures r == Read(old(slot), now).value
      ensures slot == Read(old(slot), now).after
    {
      match slot {
        case Empty =>
          r := None;
        case Unparsable =>
          slot := Empty;
          r := None;
        case Stored(d) =>
          if now - Stamp(d) > CACHE_DURATION {
            slot := Empty;
            r := None;
          } else {
            r := Some(d);
          }
      }
    }
  }
}
