/** The service worker's data: the two configuration tables, the listing
    record produced by the parsers, and the score result it returns. */
module Listing {
  import opened Wrappers

  /** NEIGHBORHOOD_AVG_PRICES, in declaration order (JavaScript iterates the
      object's string keys in that order): average price per m2. */
  const NeighborhoodAvgPrices: seq<(string, real)> := [
    ("gràcia", 27.0),
    ("eixample", 26.0),
    ("ciutat vella", 25.0),
    ("sarrià-sant gervasi", 28.0),
    ("les corts", 24.0),
    ("sant martí", 23.0),
    ("sants-montjuïc", 21.0),
    ("horta-guinardó", 19.0),
    ("nou barris", 18.0),
    ("sant andreu", 20.0)
  ]

  /** SCAM_KEYWORDS, in declaration order. */
  const ScamKeywords: seq<string> := [
    "western union",
    "moneygram",
    "transfer to reserve",
    "payment before viewing",
    "currently abroad",
    "out of town",
    "contact me via email only",
    "whatsapp only",
    "send passport",
    "bank details to apply",
    "owner traveling",
    "overseas",
    "holding fee",
    "reservation fee",
    "urgent",
    "trust me",
    "100% safe"
  ]

  /** The domains `checkGenericEmail` treats as generic providers. */
  const GenericDomains: seq<string> := ["gmail.com", "yahoo.com", "hotmail.com", "outlook.com"]

  /** Milliseconds in one day (`1000 * 60 * 60 * 24`). */
  const DayMs: int := 1000 * 60 * 60 * 24

  /** A `lastUpdated` value as `checkListingFreshness` sees it: falsy
      (absent, null or ""), a truthy value `new Date` cannot parse (an
      Invalid Date, whose NaN age fails every comparison), or a parsed
      instant in milliseconds since the epoch. */
  datatype DateText = Missing | Unparsable | At(ms: int)

  /** The listing record built by `parseJsonData` / `parseHtmlData`.
      `price` and `size` are `real`s where 0 also stands for NaN: both are
      falsy, which is all the scoring looks at before dividing. */
  datatype ListingData = ListingData(
    id: string,
    url: string,
    fullDescription: string,
    price: real,
    size: real,
    neighborhood: string,
    photoCount: int,
    hasFloorPlan: bool,
    lastUpdated: DateText,
    advertiserType: string,
    advertiserName: string,
    contactEmail: Option<string>)

  /** The `type` tag of a breakdown entry. */
  datatype Factor = ScamKeywordsFactor | PriceAnomaly | FloorPlan | PhotoCount | Freshness | Duplicate | GenericEmail

  /** An entry's `details`: the matched phrases for the scam check, a text
      otherwise. */
  datatype Details = Phrases(phrases: seq<string>) | Text(text: string)

  datatype Entry = Entry(factor: Factor, points: int, details: Details)

  datatype RiskLevel = Low | Medium | High

  datatype ScoreResult = ScoreResult(score: int, breakdown: seq<Entry>, riskLevel: RiskLevel, listingData: ListingData)

  /** Sum of the points of a breakdown. */
  function SumPoints(b: seq<Entry>): int
  {
    if b == [] then 0 else SumPoints(b[..|b| - 1]) + b[|b| - 1].points
  }

  /** The entries of one factor, in breakdown order (what `breakdown.find`
      and `breakdown.filter` by `type` see). */
  function EntriesOf(b: seq<Entry>, f: Factor): (r: seq<Entry>)
    ensures |r| <= |b|
  {
    if b == [] then []
    else (if b[0].factor == f then [b[0]] else []) + EntriesOf(b[1..], f)
  }

  /** Summing a concatenation sums the parts. */
  lemma {:induction false} SumPointsAppend(a: seq<Entry>, b: seq<Entry>)
    ensures SumPoints(a + b) == SumPoints(a) + SumPoints(b)
    decreases |b|
  {
    if b == [] {
      assert a + b == a;
    } else {
      assert (a + b)[..|a + b| - 1] == a + b[..|b| - 1];
      SumPointsAppend(a, b[..|b| - 1]);
    }
  }

  /** Selecting one factor distributes over concatenation. */
  lemma {:induction false} EntriesOfAppend(a: seq<Entry>, b: seq<Entry>, f: Factor)
    ensures EntriesOf(a + b, f) == EntriesOf(a, f) + EntriesOf(b, f)
    decreases |a|
  {
    if a == [] {
      assert a + b == b;
    } else {
      var h := if a[0].factor == f then [a[0]] else [];
      assert (a + b)[0] == a[0];
      assert (a + b)[1..] == a[1..] + b;
      EntriesOfAppend(a[1..], b, f);
      calc {
        EntriesOf(a + b, f);
        h + EntriesOf(a[1..] + b, f);
        h + (EntriesOf(a[1..], f) + EntriesOf(b, f));
        (h + EntriesOf(a[1..], f)) + EntriesOf(b, f);
        EntriesOf(a, f) + EntriesOf(b, f);
      }
    }
  }
}
