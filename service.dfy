/** The worker's request handling: `handleListingScoreRequest` over the
    result cache in `chrome.storage.local` (`getCachedScore`,
    `setCachedScore`). The store is a map field of a class; the clock and
    the two fetch strategies' outcomes are parameters. */
module Service {
  import opened Wrappers
  import opened Listing
  import opened Scoring
  import opened Acquisition
  import opened Strings

  /** How long a cached score is served: 24 hours, in milliseconds. */
  const CacheTtl: int := 24 * 60 * 60 * 1000

  /** A stored `{ data, timestamp }` entry. */
  datatype CacheEntry = CacheEntry(data: ScoreResult, timestamp: int)

  /** What `sendResponse` receives. */
  datatype Response = Success(data: ScoreResult) | Failure(error: string)

  const FetchFailed := "Failed to fetch listing data"

  /** `getCachedScore`'s answer for `url` at time `now`: the stored data
      when the entry has a truthy (non-zero) timestamp less than 24 hours
      old. */
  function CachedScore(store: map<string, CacheEntry>, url: string, now: int): (r: Option<ScoreResult>)
    ensures r.Some? <==> url in store && store[url].timestamp != 0 && now - store[url].timestamp < CacheTtl
    ensures r.Some? ==> r.value == store[url].data
  {
    if url in store && store[url].timestamp != 0 && now - store[url].timestamp < CacheTtl
    then Some(store[url].data)
    else None
  }

  /** What one `handleListingScoreRequest` call does: its response, the
      fetches it makes and the store it leaves. */
  datatype Outcome = Outcome(response: Response, fetched: seq<Strategy>, store: map<string, CacheEntry>)

  /** `handleListingScoreRequest` as a function of the store before the
      call: a cache hit answers from the store; otherwise the listing is
      fetched, and when that yields a record it is scored and the score
      cached under the URL with timestamp `now`. */
  function HandleRequest(store: map<string, CacheEntry>, url: string, now: int,
                         json: Option<JsonPayload>, html: Option<ListingData>): Outcome
  {
    match CachedScore(store, url, now)
    case Some(cached) => Outcome(Success(cached), [], store)
    case None =>
      var fetch := FetchListingData(json, html, url, now);
      match fetch.data
      case None => Outcome(Failure(FetchFailed), fetch.fetched, store)
      case Some(l) =>
        var score := ScoreOf(l, now);
        Outcome(Success(score), fetch.fetched, store[url := CacheEntry(score, now)])
  }

  /** The worker's score cache and request handler. */
  class ScoreService {
    /** `chrome.storage.local`: listing URL to cache entry. */
    var store: map<string, CacheEntry>

    constructor()
      ensures store == map[]
    {
      store := map[];
    }

    /** `getCachedScore(listingUrl)`. */
    method GetCachedScore(url: string, now: int) returns (r: Option<ScoreResult>)
      ensures r == CachedScore(store, url, now)
    {
      if url in store {
        var cached := store[url];
        if cached.timestamp != 0 {
          var cacheAge := now - cached.timestamp;
          if cacheAge < CacheTtl {
            return Some(cached.data);
          }
        }
      }
      return None;
    }

    /** `setCachedScore(listingUrl, scoreData)`: overwrites the whole entry. */
    method SetCachedScore(url: string, data: ScoreResult, now: int)
      modifies this
      ensures store == old(store)[url := CacheEntry(data, now)]
    {
      store := store[url := CacheEntry(data, now)];
    }

    /** `handleListingScoreRequest(listingId, listingUrl, sendResponse)`:
        the listing id only names the JSON endpoint, so it enters through
        `json`, the outcome of fetching that endpoint. */
    method HandleListingScoreRequest(url: string, now: int,
                                     json: Option<JsonPayload>, html: Option<ListingData>)
      returns (response: Response, fetched: seq<Strategy>)
      modifies this
      ensures HandleRequest(old(store), url, now, json, html) == Outcome(response, fetched, store)
    {
      var cachedScore := GetCachedScore(url, now);
      if cachedScore.Some? {
        return Success(cachedScore.value), [];
      }
      var fetch := FetchListingData(json, html, url, now);
      fetched := fetch.fetched;
      if fetch.data.None? {
        return Failure(FetchFailed), fetched;
      }
      var score := CalculateScore(fetch.data.value, now);
      SetCachedScore(url, score, now);
      response := Success(score);
    }
  }

  // ---------------------------------------------------------------------
  // Properties of the handler
  // ---------------------------------------------------------------------

  /** A cache hit answers with the cached data, fetches nothing and writes
      nothing. */
  lemma HitAnswersFromCache(store: map<string, CacheEntry>, url: string, now: int,
                            json: Option<JsonPayload>, html: Option<ListingData>)
    requires url in store && store[url].timestamp != 0 && now - store[url].timestamp < CacheTtl
    ensures HandleRequest(store, url, now, json, html)
         == Outcome(Success(store[url].data), [], store)
  {
  }

  /** On a miss the JSON endpoint is tried first and the HTML page only
      when the JSON endpoint yields nothing. */
  lemma MissTriesJsonFirst(store: map<string, CacheEntry>, url: string, now: int,
                           json: Option<JsonPayload>, html: Option<ListingData>)
    requires CachedScore(store, url, now).None?
    ensures HandleRequest(store, url, now, json, html).fetched
         == if json.Some? then [JsonEndpoint] else [JsonEndpoint, HtmlPage]
  {
  }

  /** When both strategies yield nothing the request fails and the store is
      left as it was. */
  lemma BothFailNothingWritten(store: map<string, CacheEntry>, url: string, now: int)
    requires CachedScore(store, url, now).None?
    ensures HandleRequest(store, url, now, None, None)
         == Outcome(Failure(FetchFailed), [JsonEndpoint, HtmlPage], store)
  {
  }

  /** A successful miss answers with a score in [0, 100] and overwrites the
      URL's entry with that score stamped `now`; every other entry stays. */
  lemma MissScoresAndCaches(store: map<string, CacheEntry>, url: string, now: int,
                            json: Option<JsonPayload>, html: Option<ListingData>)
    requires CachedScore(store, url, now).None?
    requires json.Some? || html.Some?
    ensures var o := HandleRequest(store, url, now, json, html);
      o.response.Success? && 0 <= o.response.data.score <= 100
      && o.store == store[url := CacheEntry(o.response.data, now)]
      && o.response.data.listingData == if json.Some? then ParseJsonData(json.value, url, now) else html.value
  {
    var l := if json.Some? then ParseJsonData(json.value, url, now) else html.value;
    ScoreBounds(l, now);
  }

  /** ScoreOf always lies in [0, 100]. */
  lemma ScoreBounds(l: ListingData, now: int)
    ensures 0 <= ScoreOf(l, now).score <= 100
  {
  }

  /** A second request for the same URL less than 24 hours after one that
      fetched and scored the listing (on a non-zero clock) is answered
      from the cache with the same data, without fetching, whatever the
      strategies would now return. */
  lemma RepeatWithinTtlIsCached(store: map<string, CacheEntry>, url: string, now: int, later: int,
                                json: Option<JsonPayload>, html: Option<ListingData>,
                                json2: Option<JsonPayload>, html2: Option<ListingData>)
    requires now != 0 && later - now < CacheTtl
    requires CachedScore(store, url, now).None?
    requires json.Some? || html.Some?
    ensures var first := HandleRequest(store, url, now, json, html);
      var second := HandleRequest(first.store, url, later, json2, html2);
      second.response == first.response && second.fetched == [] && second.store == first.store
  {
    var l := if json.Some? then ParseJsonData(json.value, url, now) else html.value;
    var first := HandleRequest(store, url, now, json, html);
    assert first.response == Success(ScoreOf(l, now));
    assert first.store == store[url := CacheEntry(ScoreOf(l, now), now)];
    HitAnswersFromCache(first.store, url, later, json2, html2);
  }

  /** An expired or zero-stamped entry is a miss: the listing is fetched
      again. */
  lemma StaleEntryRefetched(store: map<string, CacheEntry>, url: string, now: int,
                            json: Option<JsonPayload>, html: Option<ListingData>)
    requires url in store && (store[url].timestamp == 0 || now - store[url].timestamp >= CacheTtl)
    ensures HandleRequest(store, url, now, json, html).fetched != []
  {
  }

  /** A JSON response without any of the fields parseJsonData reads scores
      80 ('low' risk): no floor plan (-10), no photos (-15) and, since
      `lastUpdated` defaults to the current time, recently updated (+5). */
  lemma EmptyJsonScores80(url: string, now: int)
    ensures var l := ParseJsonData(JsonPayload(None, NoFields), url, now);
      ScoreOf(l, now).score == 80 && ScoreOf(l, now).riskLevel == Low
      && Breakdown(l, now) == [Entry(FloorPlan, -10, Text("No floor plan")),
                               Entry(PhotoCount, -15, Text("Few photos (0)")),
                               Entry(Freshness, 5, Text("Recently updated"))]
  {
    var l := ParseJsonData(JsonPayload(None, NoFields), url, now);
    EmptyPayloadDefaults(url, now);
    assert ScamPart(l) == [] && PricePart(l) == [];
    assert FloorPlanPart(l) == [Entry(FloorPlan, -10, Text("No floor plan"))];
    assert "Few photos (" + IntToDecimal(0) + ")" == "Few photos (0)";
    assert PhotoPart(l) == [Entry(PhotoCount, -15, Text("Few photos (0)"))];
    assert AgeInDays(now, now) == 0.0;
    assert FreshnessPart(l, now) == [RecentlyUpdated];
    assert DuplicatePart(l) == [] && EmailPart(l) == [];
    var b := Breakdown(l, now);
    assert b == [Entry(FloorPlan, -10, Text("No floor plan")),
                 Entry(PhotoCount, -15, Text("Few photos (0)")),
                 Entry(Freshness, 5, Text("Recently updated"))];
    assert SumPoints(b[..1]) == -10 by { assert b[..1][..0] == []; }
    assert SumPoints(b[..2]) == -25 by { assert b[..2][..1] == b[..1]; }
    assert SumPoints(b) == -20 by { assert b[..2] == b[..|b| - 1]; }
  }
}
