/** How the worker obtains a listing record: `fetchListingData`'s two
    strategies (the JSON endpoint first, the HTML page as contingency),
    `parseJsonData`'s envelope unwrap and field defaults, and
    `extractIdFromUrl`. The network calls themselves are not modelled: each
    strategy's outcome is a parameter. */
module Acquisition {
  import opened Wrappers
  import opened Strings
  import opened Listing

  // ---------------------------------------------------------------------
  // extractIdFromUrl: /\/(\d+)\/?$/
  // ---------------------------------------------------------------------

  /** The start of the longest digit-only suffix of `s`. */
  function DigitSuffixStart(s: string): (b: nat)
    ensures b <= |s|
    ensures AllDigits(s[b..])
    ensures b == 0 || !IsDigit(s[b - 1])
  {
    if s != [] && IsDigit(s[|s| - 1]) then
      var b := DigitSuffixStart(s[..|s| - 1]);
      assert s[b..] == s[..|s| - 1][b..] + [s[|s| - 1]];
      b
    else |s|
  }

  /** `extractIdFromUrl`: the digits between a '/' and the end of the URL,
      which may carry one trailing '/'; '' when the URL does not end so. */
  function ExtractIdFromUrl(url: string): (id: string)
    ensures id != "" ==> AllDigits(id)
    ensures id != "" ==>
      (exists p :: url == p + "/" + id) || (exists p :: url == p + "/" + id + "/")
  {
    var s := if url != [] && url[|url| - 1] == '/' then url[..|url| - 1] else url;
    var b := DigitSuffixStart(s);
    if 0 < b < |s| && s[b - 1] == '/' then
      assert s == s[..b - 1] + "/" + s[b..];
      assert url == s || url == s + "/";
      s[b..]
    else ""
  }

  /** A digit-only suffix after a '/' starts right after that '/'. */
  lemma {:induction false} DigitSuffixAfterSlash(p: string, d: string)
    requires AllDigits(d)
    ensures DigitSuffixStart(p + "/" + d) == |p| + 1
    decreases |d|
  {
    var s := p + "/" + d;
    if d == [] {
      assert s[|s| - 1] == '/';
    } else {
      assert s[..|s| - 1] == p + "/" + d[..|d| - 1];
      DigitSuffixAfterSlash(p, d[..|d| - 1]);
    }
  }

  /** The id `extractIdFromUrl` reads back is the one written at the end of
      the URL, with or without a trailing '/'. */
  lemma ExtractIdRoundTrip(p: string, d: string)
    requires d != "" && AllDigits(d)
    ensures ExtractIdFromUrl(p + "/" + d) == d
    ensures ExtractIdFromUrl(p + "/" + d + "/") == d
  {
    var s := p + "/" + d;
    DigitSuffixAfterSlash(p, d);
    assert s[|s| - 1] == d[|d| - 1];
    assert s[|p|] == '/';
    assert s[|p| + 1..] == d;
    assert (s + "/")[..|s + "/"| - 1] == s;
  }

  /** A URL whose last character (ignoring one trailing '/') is not a digit
      yields no id. */
  lemma NoTrailingDigitsNoId(url: string)
    requires url != [] && !IsDigit(url[|url| - 1]) && url[|url| - 1] != '/'
    ensures ExtractIdFromUrl(url) == ""
  {
  }

  // ---------------------------------------------------------------------
  // parseJsonData
  // ---------------------------------------------------------------------

  /** The fields `parseJsonData` reads from a JSON object. A string field
      is `None` when absent or null; `Some("")` is present but falsy. A
      numeric field holds `parseFloat` / `parseInt` of the value, `None`
      when that is NaN. The two floor-plan flags hold the values'
      truthiness. A date field is `Missing` when falsy. */
  datatype JsonFields = JsonFields(
    id: Option<string>,
    description: Option<string>,
    fullDescription: Option<string>,
    price: Option<real>,
    size: Option<real>,
    neighborhood: Option<string>,
    area: Option<string>,
    photoCount: Option<int>,
    hasFloorPlan: bool,
    floorPlan: bool,
    lastUpdated: DateText,
    updatedAt: DateText,
    advertiserType: Option<string>,
    advertiserName: Option<string>,
    agency: Option<string>,
    contactEmail: Option<string>,
    email: Option<string>)

  /** A decoded JSON response: the fields at top level and, when the
      response has a truthy `data` member, the fields of that envelope. */
  datatype JsonPayload = JsonPayload(envelope: Option<JsonFields>, top: JsonFields)

  /** A JavaScript string value is truthy when present and not empty. */
  predicate Truthy(v: Option<string>)
  {
    v.Some? && v.value != ""
  }

  /** `a || b` on optional strings, as an optional string. */
  function OrElse(a: Option<string>, b: Option<string>): (r: Option<string>)
    ensures Truthy(r) <==> Truthy(a) || Truthy(b)
    ensures Truthy(a) ==> r == a
    ensures !Truthy(a) ==> r == b
  {
    if Truthy(a) then a else b
  }

  /** `a || b || default` on strings. */
  function TextOr(a: Option<string>, b: Option<string>, default: string): (r: string)
    ensures Truthy(a) ==> r == a.value
    ensures !Truthy(a) && Truthy(b) ==> r == b.value
    ensures !Truthy(a) && !Truthy(b) ==> r == default
  {
    var v := OrElse(a, b);
    if Truthy(v) then v.value else default
  }

  /** `jsonData.data || jsonData`. */
  function Unwrap(json: JsonPayload): JsonFields
  {
    json.envelope.GetOr(json.top)
  }

  /** `parseJsonData(jsonData, listingUrl)` with the current time `now` (in
      milliseconds) for the `lastUpdated` default. */
  function ParseJsonData(json: JsonPayload, url: string, now: int): (l: ListingData)
    ensures l.url == url
    ensures l.id == if Truthy(Unwrap(json).id) then Unwrap(json).id.value else ExtractIdFromUrl(url)
    ensures l.lastUpdated != Missing
    ensures l.advertiserType != ""
    ensures l.contactEmail == None || Truthy(l.contactEmail)
  {
    var data := Unwrap(json);
    ListingData(
      id := TextOr(data.id, None, ExtractIdFromUrl(url)),
      url := url,
      fullDescription := TextOr(data.description, data.fullDescription, ""),
      price := data.price.GetOr(0.0),
      size := data.size.GetOr(0.0),
      neighborhood := TextOr(data.neighborhood, data.area, ""),
      photoCount := data.photoCount.GetOr(0),
      hasFloorPlan := data.hasFloorPlan || data.floorPlan,
      lastUpdated :=
        if data.lastUpdated != Missing then data.lastUpdated
        else if data.updatedAt != Missing then data.updatedAt
        else At(now),
      advertiserType := TextOr(data.advertiserType, None, "private"),
      advertiserName := TextOr(data.advertiserName, data.agency, ""),
      contactEmail := if Truthy(OrElse(data.contactEmail, data.email)) then OrElse(data.contactEmail, data.email) else None)
  }

  /** A JSON object in which every field `parseJsonData` reads is absent. */
  const NoFields := JsonFields(None, None, None, None, None, None, None, None, false, false,
                               Missing, Missing, None, None, None, None, None)

  /** With an envelope, the top-level fields are ignored entirely. */
  lemma EnvelopeWins(f: JsonFields, t1: JsonFields, t2: JsonFields, url: string, now: int)
    ensures ParseJsonData(JsonPayload(Some(f), t1), url, now)
         == ParseJsonData(JsonPayload(None, f), url, now)
         == ParseJsonData(JsonPayload(Some(f), t2), url, now)
  {
  }

  /** The defaults: a response with none of the fields gives the listing
      whose id comes from the URL, with no description, price, size,
      neighbourhood, photos, floor plan or email, updated `now`, from a
      private advertiser. */
  lemma EmptyPayloadDefaults(url: string, now: int)
    ensures ParseJsonData(JsonPayload(None, NoFields), url, now)
         == ListingData(ExtractIdFromUrl(url), url, "", 0.0, 0.0, "", 0, false, At(now),
                        "private", "", None)
  {
  }

  // ---------------------------------------------------------------------
  // fetchListingData
  // ---------------------------------------------------------------------

  /** The two ways the worker fetches a listing. */
  datatype Strategy = JsonEndpoint | HtmlPage

  /** What `fetchListingData` returns, with the fetches it made in order. */
  datatype FetchOutcome = FetchOutcome(data: Option<ListingData>, fetched: seq<Strategy>)

  /** `fetchListingData`: `json` is what `fetchJsonData` resolved to (None
      for null: a failed request, a non-OK status or an error) and `html`
      what `parseHtmlData` produced from `fetchHtmlData`'s text (None when
      the page could not be fetched or parsed). */
  function FetchListingData(json: Option<JsonPayload>, html: Option<ListingData>, url: string, now: int)
    : (r: FetchOutcome)
    ensures |r.fetched| >= 1 && r.fetched[0] == JsonEndpoint
    ensures HtmlPage in r.fetched <==> json.None?
    ensures json.Some? ==> r.data == Some(ParseJsonData(json.value, url, now))
    ensures json.None? ==> r.data == html
    ensures r.data.None? <==> json.None? && html.None?
  {
    match json
    case Some(j) => FetchOutcome(Some(ParseJsonData(j, url, now)), [JsonEndpoint])
    case None => FetchOutcome(html, [JsonEndpoint, HtmlPage])
  }
}
