# Idealista Trust Shield — a Dafny model of the scoring worker and the content script's bookkeeping

The Trust Shield browser extension rates rental listings on idealista.
It has two parts, and this project models the logic of both.

**The background service worker** (`extension/service-worker.js`):
- answers "score this listing" requests from a cache in `chrome.storage.local`, whose entries are valid for 24 hours;
- on a cache miss, fetches the listing: first the JSON endpoint, then the HTML page;
- normalises the JSON response into a listing record (`parseJsonData`, `extractIdFromUrl`);
- scores the record 0–100 with seven additive checks, clamps the score and maps it to a risk level:
  - scam phrases;
  - a price per m² below 60 % of the neighbourhood average;
  - floor plan;
  - photo count;
  - freshness;
  - a duplicate check that is a stub;
  - generic e-mail domains.

**The content script** (`src/content.js`):
- classifies the page by its URL;
- parses card texts: the photo counter "1/18", prices and sizes in m²;
- takes the listing id from a listing page's URL;
- keeps a set of `id:url:variant` keys so that each shield is started once;
- on every scan of a search page, diffs the listing ids against the previous scan, cleans up the removed listings and starts the added ones;
- clears keys per URL, and forgets everything when navigation changes the page type;
- builds the score dialog's four analysis rows.

Project layout:

| file | module | contents |
|---|---|---|
| `wrappers.dfy` | `Wrappers` | `Option` |
| `strings.dfy` | `Strings` | substring search, `toLowerCase`, digit filtering and decimal numerals |
| `listing.dfy` | `Listing` | the worker's two tables, the listing record, breakdown entries, score results |
| `scoring.dfy` | `Scoring` | the seven checks and `calculateScore` (see below) |
| `acquisition.dfy` | `Acquisition` | `extractIdFromUrl`, `parseJsonData`, `fetchListingData` |
| `service.dfy` | `Service` | the class `ScoreService`: the cache map and the request handler |
| `page_parsers.dfy` | `PageParsers` | page type, card parsers, listing id |
| `listing_changes.dfy` | `ListingChanges` | the current-listings map and `detectListingChanges` |
| `content_state.dfy` | `ContentState` | the class `ContentScript`: the script's module-level state and the operations on it |
| `dialog.dfy` | `Dialog` | the analysis rows of the score dialog |

In `scoring.dfy`, the checks that loop are methods proved against specification functions. `CalculateScore` is a method proved equal to the function `ScoreOf`.

Where the code and the extension's documented behaviour disagree, the model follows the code:
- **Cache expiry boundary.** The cache serves an entry while its age is strictly below 24 hours, so an entry exactly 24 hours old is already stale. The entry must also have a truthy (non-zero) timestamp.
- **Freshness of an unknown date.** An unknown or unparsable `lastUpdated` adds no freshness entry; it does not get a penalty of its own.
- **Listing quality.** Quality is scored only by photo count and floor plan. Description length plays no part, and there is no per-factor cap.
- **Page fallback.** The HTML page fallback does not check the page's length, scan embedded scripts or synthesise fields inside the modelled core. The core sees only whether the fallback produced a record.

## Model

| member | source | states |
|---|---|---|
| Scoring.CheckScamKeywords | extension/service-worker.js:301-319 | The phrases found are exactly the SCAM_KEYWORDS phrases that occur in the lower-cased description, in table order; `detected` holds iff there is at least one. |
| Scoring.ScamMatchesIff | extension/service-worker.js:301-319 | A phrase is reported iff it is a SCAM_KEYWORDS entry that occurs in the lower-cased description. |
| Scoring.KeywordsAreLowerCase | extension/service-worker.js:18-35 | Every scam phrase is already lower case, so matching against the lower-cased description ignores case. |
| Scoring.NeighborhoodKeysAreLowerCase | extension/service-worker.js:5-16 | Every neighbourhood key is lower case, so it can match the lower-cased neighbourhood. |
| Scoring.CheckPriceAnomaly | extension/service-worker.js:321-349 | The table scan stops at the first key contained in the lower-cased neighbourhood. It returns exactly the specified anomaly flag and reason, including "no data" for an unknown neighbourhood. |
| Scoring.FirstAverageSpec | extension/service-worker.js:330-336 | The lookup finds nothing iff no table key occurs in the neighbourhood. Otherwise it returns the average of the first key that occurs, in table order. |
| Scoring.PriceAnomalyIff | extension/service-worker.js:321-349 | An anomaly is flagged iff price, size and neighbourhood are all truthy, some table key occurs in the neighbourhood, and price/size is below 0.6 times the first such key's average. |
| Scoring.NoReferenceNoPenalty | extension/service-worker.js:321-349 | A neighbourhood with no reference average is never flagged. |
| Scoring.EmailDomainOfAddress | extension/service-worker.js:388-397 | For `local@domain`, the domain is the text after the '@'. The address is generic iff that domain is one of the four listed providers. |
| Scoring.NoAtNotGeneric | extension/service-worker.js:388-397 | An address without '@' is never generic. |
| Scoring.RiskLevelOf | extension/service-worker.js:399-407 | The risk is low iff the score is at least 80, and high iff the score is below 60. |
| Scoring.RiskMonotone | extension/service-worker.js:399-407 | A higher score never gives a higher risk. |
| Scoring.Clamp | extension/service-worker.js:290 | The result lies in 0..100 and leaves in-range scores unchanged. |
| Scoring.CalculateScore | extension/service-worker.js:231-298 | The result equals `ScoreOf`. The score is 100 plus the breakdown's points, clamped to 0..100. The risk level is derived from that score. |
| Scoring.HighImpactChecks | extension/service-worker.js:236-246 | Appends the scam and price entries. The score moves by exactly the points appended. |
| Scoring.MediumImpactChecks | extension/service-worker.js:249-274 | Appends the floor-plan, photo and freshness entries. The score moves by exactly the points appended. |
| Scoring.LowImpactChecks | extension/service-worker.js:277-287 | Appends the duplicate and e-mail entries. The score moves by exactly the points appended. |
| Scoring.SelectFactor | extension/service-worker.js:231-298 | The breakdown entries of any one factor are exactly that factor's check's contribution. |
| Scoring.ScamFactor | extension/service-worker.js:236-240 | There is one -40 entry listing the matched phrases iff some scam phrase occurs in the description; otherwise there is none. |
| Scoring.PriceFactor | extension/service-worker.js:242-246 | There is one -30 below-market entry iff the price-anomaly condition holds; otherwise there is none. |
| Scoring.FloorPlanFactor | extension/service-worker.js:249-256 | There is always exactly one floor-plan entry: +10 with a floor plan, -10 without. |
| Scoring.PhotoFactor | extension/service-worker.js:258-265 | More than 20 photos give +10 and fewer than 5 give -15. Counts from 5 to 20 give no entry. |
| Scoring.FreshnessFactor | extension/service-worker.js:267-274 | Updated less than 7 days ago gives +5, and more than 30 days ago gives -10. Ages in between, falsy dates and unparsable dates give no entry. |
| Scoring.DuplicateFactor | extension/service-worker.js:382-386 | The duplicate check never contributes an entry. |
| Scoring.EmailFactor | extension/service-worker.js:283-287 | There is one -5 entry iff the contact e-mail is generic. |
| Scoring.AgeTiers | extension/service-worker.js:364-380 | The day-based comparisons of the age agree with the millisecond comparisons against 7 and 30 days. |
| Acquisition.ExtractIdFromUrl | extension/service-worker.js:225-228 | A non-empty result is all digits, and the URL is `p/id` or `p/id/`. |
| Acquisition.ExtractIdRoundTrip | extension/service-worker.js:225-228 | Appending `/digits` or `/digits/` to any prefix gives back exactly those digits. |
| Acquisition.NoTrailingDigitsNoId | extension/service-worker.js:225-228 | A URL that ends in neither a digit nor '/' yields ''. |
| Acquisition.OrElse | extension/service-worker.js:155 | `a \|\| b` on optional strings: the result is `a` when `a` is truthy, otherwise `b`. |
| Acquisition.TextOr | extension/service-worker.js:152 | `a \|\| b \|\| default`: the first truthy of `a` and `b`, otherwise the default. |
| Acquisition.ParseJsonData | extension/service-worker.js:145-167 | The record keeps the request URL. Its id is the payload's truthy id or else the URL's id. It always has a last-updated date, a non-empty advertiser type, and an e-mail that is either absent or truthy. |
| Acquisition.EnvelopeWins | extension/service-worker.js:147 | When the payload has a truthy `data` envelope, only the envelope is read. |
| Acquisition.EmptyPayloadDefaults | extension/service-worker.js:145-167 | An empty payload gives the documented defaults: the id from the URL, zeros, no floor plan, updated now, a private advertiser and no e-mail. |
| Acquisition.FetchListingData | extension/service-worker.js:77-99 | The JSON endpoint is always tried first, and the HTML page only when JSON yields nothing. The JSON record wins when present. The result is none iff both strategies fail. |
| Service.CachedScore | extension/service-worker.js:410-428 | Gives a hit iff an entry exists with a non-zero timestamp that is less than 24 hours old; a hit returns the stored data. |
| Service.ScoreService.GetCachedScore | extension/service-worker.js:410-428 | Answers from the store exactly as `CachedScore` specifies. |
| Service.ScoreService.SetCachedScore | extension/service-worker.js:430-441 | Overwrites the URL's whole entry with the data stamped `now`, and changes no other entry. |
| Service.ScoreService.HandleListingScoreRequest | extension/service-worker.js:47-74 | The response, the fetches made and the new store are those of `HandleRequest` applied to the store before the call. |
| Service.HitAnswersFromCache | extension/service-worker.js:49-55 | A cache hit responds with the cached data, fetches nothing and writes nothing. |
| Service.MissTriesJsonFirst | extension/service-worker.js:57-58 | On a miss, JSON is fetched first, and HTML only if JSON fails. |
| Service.BothFailNothingWritten | extension/service-worker.js:59-62 | When both strategies fail, the request fails with "Failed to fetch listing data" and the store is unchanged. |
| Service.MissScoresAndCaches | extension/service-worker.js:64-70 | A successful miss responds with a score in 0..100 for the fetched record. The score is cached under the URL at `now`, and every other entry is kept. |
| Service.ScoreBounds | extension/service-worker.js:290-293 | Every score lies in 0..100. |
| Service.RepeatWithinTtlIsCached | extension/service-worker.js:47-74 | A second request within 24 hours of a successful one returns the identical response, fetches nothing and leaves the store unchanged. |
| Service.StaleEntryRefetched | extension/service-worker.js:415-421 | An entry that has expired or has a zero timestamp leads to a fetch. |
| Service.EmptyJsonScores80 | extension/service-worker.js:231-298 | A JSON response with no fields scores 80, which is low risk. Its breakdown is: no floor plan -10, few photos (0) -15, recently updated +5. |
| PageParsers.PageTypePrecedence | src/content.js:26-38 | "/inmueble/" anywhere means a listing page. Otherwise a rental or sale search path means a search page. Otherwise a favourites path means favourites. |
| PageParsers.PointFragmentsRedundant | src/content.js:31 | The "/point/…" alternatives are implied by the plain search fragments. |
| PageParsers.PhotoCounterSlash | src/content.js:96-102 | For "a / b" with optional spaces around the slash, the count is b, the number after the slash. |
| PageParsers.PhotoCounterNoSlash | src/content.js:103-107 | Without a slash, the count is the number formed by all digits in the text; with no digits there is none. |
| PageParsers.PhotoCounterNoDigits | src/content.js:96-108 | A counter text without digits gives no count. |
| PageParsers.PriceRoundTrip | src/content.js:67-68 | A number surrounded by non-digit text (currency, "/mes") parses back to that number. |
| PageParsers.PriceSeparators | src/content.js:68 | A thousands separator is dropped: "1.250" parses as 1250. |
| PageParsers.SizeSuperscriptAsWritten | src/content.js:75-76 | As written, "n m²" parses as n. |
| PageParsers.SizeM2AsWritten | src/content.js:75-76 | As written, "n m2" parses as 10n+2, because the unit's digit is kept. |
| PageParsers.UnitStart | src/content.js:75 | A found position is the start of an "m²" or "m2" unit. |
| PageParsers.SizeRoundTrip | src/content.js:71-79 | Corrected: "n m²" and "n m2" both parse as n. |
| PageParsers.SizeFromDetails | src/content.js:71-79 | Under the chosen parse (the script's all-digits parse, or the corrected one), the loop returns the size of the first detail that mentions an area unit, and none if no detail does. |
| PageParsers.SizeOfDetailsFirst | src/content.js:73-77 | Under either parse, the first detail with an area unit decides the size. |
| PageParsers.SizeOfDetailsNone | src/content.js:71-79 | Under either parse, the size is absent when no detail has an area unit. |
| PageParsers.SizeOfDetailsM2AsWritten | src/content.js:71-79 | As written: when a card's first area detail is "n m2", the card's size is 10n+2. |
| PageParsers.SizeOfDetailsRoundTrip | src/content.js:71-79 | Corrected: when a card's first area detail is "n m²" or "n m2", the card's size is n. |
| PageParsers.SizeOfDetailsSuperscriptAgree | src/content.js:71-79 | On the "n m²" spelling, the script's loop and the corrected loop both give n. |
| PageParsers.ListingIdSound | src/content.js:182-188 | An extracted id is a non-empty digit run that follows "/inmueble/" in the URL. |
| PageParsers.NoListingPathNoId | src/content.js:182-186 | A URL without "/inmueble/" gives no id. |
| PageParsers.ListingIdRoundTrip | src/content.js:182-188 | "…/inmueble/digits" followed by the end, '/', '?' or '#' gives back exactly those digits. |
| ListingChanges.DetectListingChanges | src/content.js:1529-1553 | `removed` holds the old ids missing from the new map, `persistent` the new ids also in the old map, and `added` the new ids not in the old map, each in map order. |
| ListingChanges.AbsentIff | src/content.js:1529-1553 | An id is reported absent iff it is in the first key list and not in the second. |
| ListingChanges.PresentIff | src/content.js:1529-1553 | An id is reported present iff it is in both key lists. |
| ListingChanges.Partition | src/content.js:1543-1550 | The added and persistent ids together are exactly the new ids, as a multiset. |
| ListingChanges.AbsentNoDup | src/content.js:1529-1553 | The removed and added lists have no repeated ids. |
| ListingChanges.PresentNoDup | src/content.js:1529-1553 | The persistent list has no repeated ids. |
| ListingChanges.ChangesSpec | src/content.js:1529-1553 | The three lists hold exactly the ids they should, and no id is both added and persistent. |
| ListingChanges.CardMap | src/content.js:1463-1469 | The map never has the empty id as a key, and it stores each card under its own id. |
| ListingChanges.BuildCurrentListings | src/content.js:1463-1469 | The loop builds exactly the key order and values of the current-listings map. |
| ListingChanges.CardIdsSpec | src/content.js:1463-1469 | The keys are distinct. They are exactly the non-empty ids on the page and exactly the map's domain. |
| ListingChanges.CardMapLast | src/content.js:1467 | A repeated id maps to the last card that carries it. |
| ContentState.ProcessIdempotent | src/content.js:1418-1425 | Repeating a call with the same listing and variant changes nothing and starts nothing. |
| ContentState.ProcessRecordsKey | src/content.js:1401-1425 | A valid listing's key is recorded whether or not it was already there. An invalid listing changes nothing. |
| ContentState.ShieldKeyOfOwnId | src/content.js:1567-1568 | A listing's badge and collapsed keys are its shield keys, whatever the URL. |
| ContentState.ShieldKeyNamesItsId | src/content.js:1418 | With colon-free ids, a key is a shield key only of the listing it was built for. |
| ContentState.AsWrittenKeepsLinkKey | src/content.js:1567-1570 | As written, the cleanup keeps a badge key recorded under the card's link URL whenever that URL is not the page URL. |
| ContentState.CleanupListing | src/content.js:1556-1577 | Corrected: the result is a subset of the keys and holds no shield key of the listing. |
| ContentState.CleanupListingSpec | src/content.js:1556-1577 | Corrected: the listing's badge and collapsed keys are gone under every URL, and every key of every other listing is kept. |
| ContentState.CleanupAllClears | src/content.js:1475-1480 | After the corrected cleanup of the removed ids, none of them keeps a shield key. |
| ContentState.CardUrl | src/content.js:1489-1490 | A card has a URL iff it has a link. |
| ContentState.AddBadgesOnlyAdded | src/content.js:1483-1498 | Every key the added-listings loop records is the badge key of an added id. |
| ContentState.AddBadgesKeepsOthersClear | src/content.js:1483-1498 | The loop records no shield key for an id it is not adding. |
| ContentState.AddBadgesRenders | src/content.js:1483-1498 | An added id whose card has a link, and that has no shield key yet, is rendered. |
| ContentState.ReAddedRendered | src/content.js:1456-1527 | Corrected: a listing that leaves the results and comes back gets its shield again in the next pass. |
| ContentState.ReAddedSkippedAsWritten | src/content.js:1456-1527 | As written: such a listing keeps its stale key, so the next search pass's added-listings loop does not start it again. |
| ContentState.ClearRemovesUrlKeys | src/content.js:1974-1983 | Every key recorded for the URL is removed, and every key not containing the URL stays. |
| ContentState.ContentScript.constructor | src/content.js:13-20 | The script starts with no page type, no processed keys, no known listings, and the page's URL. |
| ContentState.ContentScript.ProcessListing | src/content.js:1401-1425 | Starts iff the listing passes the guards and its key is new. The key set becomes `AfterProcess`, and nothing else changes. |
| ContentState.ContentScript.ProcessListingPage | src/content.js:1609-1616 | On a listing URL, records that listing's badge key under the URL and starts iff the key is new. Otherwise nothing changes. |
| ContentState.ContentScript.CleanupListingTrustShield | src/content.js:1556-1577 | Corrected: the key set becomes `CleanupListing`, and nothing else changes. |
| ContentState.ContentScript.ProcessSearchPageListings | src/content.js:1456-1527 | The keys and the started ids are those of one corrected `SearchPass`, and the known ids become the page's ids. |
| ContentState.ContentScript.CleanupRemoved | src/content.js:1475-1480 | Applies the corrected cleanup to each removed id in order. |
| ContentState.ContentScript.StartAdded | src/content.js:1483-1498 | The keys and started ids are those of `AddBadges`. |
| ContentState.ContentScript.ClearProcessedListingsForUrl | src/content.js:1974-1983 | The key set becomes exactly the keys not containing the URL. |
| ContentState.ContentScript.HandleNavigation | src/content.js:2017-2052 | When the page type changes, forgets all keys and known listings and records the new type and URL. Otherwise nothing changes. |
| Dialog.Find | src/content.js:1029-1047 | Finds an entry iff the breakdown has one of that factor; the entry found is the first such. |
| Dialog.StatusMonotone | src/content.js:1054-1063 | Fewer points never give a milder status, and only points below -5 give anything but pass. |
| Dialog.SummaryOf | src/content.js:1102 | Shows the entry's details iff they are truthy; otherwise shows the row's default summary. |
| Dialog.Rows | src/content.js:1024-1049 | There are four rows, titled in the dialog's order. |
| Dialog.ScamRow | src/content.js:1024-1063 | The scam row fails, showing the matched phrases, iff a scam phrase occurs; otherwise it passes with "Clean language". |
| Dialog.PriceRow | src/content.js:1024-1063 | The price row fails with the below-market reason iff the worker flagged an anomaly; otherwise it passes with "Fair market price". |
| Dialog.QualityRow | src/content.js:1024-1063 | The quality row is a caution iff there are fewer than 5 photos, and it never fails. |
| Dialog.FreshnessRow | src/content.js:1024-1063 | The freshness row is a caution iff the listing is more than 30 days old, and it never fails. |
| Dialog.FailIffScamOrPrice | src/content.js:1054-1063 | The dialog shows a fail iff there is a scam phrase or a price anomaly. |

## Left out

- DOM access is not modelled. This covers selectors, container creation and injection, React rendering, the dialog's markup and the explanation texts (`getExplanationText`). The model takes what the selectors would return as values: cards, detail texts, counter text and the page URL.
- `fetch`, `DOMParser` and `parseHtmlData` are not modelled. The two fetch strategies enter as optional results: a JSON payload, or an already extracted record from the HTML page.
- `chrome.runtime` messaging and `chrome.storage` are not modelled. The storage becomes the map field of `ScoreService`, and its read and write errors are not modelled.
- The clock is a parameter `now`, in milliseconds. `Date` parsing is not modelled; a date is falsy, unparsable or a millisecond value.
- Prices and sizes are reals, and 0 stands for every falsy number, including NaN. IEEE rounding and `parseInt` precision are not modelled.
- `Math.random` delays, timers, `requestIdleCallback`, mutation observers and URL polling are left out, because they only affect timing.
- The force-reprocess path of `processSearchPageListings` is left out (src/content.js:1502-1513). It looks up container elements by DOM id and calls `processNewListing`, which is DOM work.
- The re-scan that `initialize()` starts after a navigation reset is left out. So is the initial data passed to components.
- The neighbourhood title regex and the floor-plan hint on cards are not modelled. Nor are the listing page's field selectors beyond the listing id.
- `toLowerCase` is modelled for ASCII and the Latin-1 upper-case block only.
- The catch-all `error.message` response of `handleListingScoreRequest` (extension/service-worker.js:70-73) is not modelled, because no modelled step throws.
- `Service.ScoreService.HandleListingScoreRequest` is one atomic step. In the script, each `await` (extension/service-worker.js:50-67) lets other requests run in between. Two overlapping requests for the same URL can both miss the cache, both fetch and both write. `Service.RepeatWithinTtlIsCached` covers only requests that run one after another.
- `Service.ScoreService.HandleListingScoreRequest` reads the clock once, as `now`. The script reads it separately for the default `lastUpdated` (extension/service-worker.js:158), the freshness age (370), the cache age (416) and the cache timestamp (434). These readings can differ by the time the request takes.
- `src/index.js` and the `.tsx` components are not part of this model.
- `ContentState.ContentScript.ClearProcessedListingsForUrl`: the log line with the number of removed keys is not modelled.
- `ContentState.ReAddedRendered` assumes listing ids contain no ':'. This holds for the site's numeric ids. Without it, a key of one listing could look like a key of another.
- `ContentState.ContentScript.ProcessListingPage`: the listing page's URL enters as `href`, since `window.location.href` is not modelled.

## Findings

| source | as written | input that shows it | evidently intended | confidence | as-written member | corrected member |
|---|---|---|---|---|---|---|
| src/content.js:1556-1577 | `cleanupListingTrustShield` deletes `id:currentUrl:badge` and `id:currentUrl:collapsed`. But the search page records keys under each card's link URL (`listingData.url`), so the deletion misses them. | Listing "123" with link ".../inmueble/123/", shown on the page ".../alquiler-viviendas/madrid/". It leaves the results and comes back: its key survives, and the next search pass's added-listings loop does not start it again. | Removing a listing clears its shield keys under whatever URL they were recorded, so a re-added listing gets its shield again. | not executed | ContentState.ReAddedSkippedAsWritten | ContentState.ReAddedRendered |
| src/content.js:71-79 | The size is `parseFloat(text.replace(/[^0-9]/g, ''))`. This keeps the "2" of the unit "m2". | "85 m2" parses as 852. | "85 m2", like "85 m²", parses as 85. | not executed | PageParsers.SizeOfDetailsM2AsWritten | PageParsers.SizeOfDetailsRoundTrip |
