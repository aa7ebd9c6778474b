/** The service worker's scoring engine: `calculateScore` and its seven
    checks. Each check has a specification function; the checks that loop
    in the worker are methods proved against it, and `CalculateScore`
    builds the breakdown step by step as the worker does. */
module Scoring {
  import opened Wrappers
  import opened Strings
  import opened Listing

  // ---------------------------------------------------------------------
  // Scam phrases (`checkScamKeywords`)
  // ---------------------------------------------------------------------

  /** The phrases of `phrases` that occur in `lowerDescription`, in the
      order of `phrases`. (The worker lower-cases each phrase first; every
      SCAM_KEYWORDS entry is already lower-case, see KeywordsAreLowerCase.) */
  function PhrasesFound(phrases: seq<string>, lowerDescription: string): seq<string>
  {
    if phrases == [] then []
    else
      var last := phrases[|phrases| - 1];
      PhrasesFound(phrases[..|phrases| - 1], lowerDescription)
        + (if Contains(lowerDescription, last) then [last] else [])
  }

  /** Lower-casing a SCAM_KEYWORDS phrase leaves it unchanged, so
      comparing the phrases as they are is what the worker's
      `SCAM_KEYWORDS[i].toLowerCase()` computes. */
  lemma KeywordsAreLowerCase()
    ensures forall i :: 0 <= i < |ScamKeywords| ==> Lower(ScamKeywords[i]) == ScamKeywords[i]
  {
    KeywordsNoUpperHead();
    KeywordsNoUpperMiddle();
    KeywordsNoUpperTail();
    forall i | 0 <= i < |ScamKeywords| ensures Lower(ScamKeywords[i]) == ScamKeywords[i] {
      LowerOfLower(ScamKeywords[i]);
    }
  }

  lemma KeywordsNoUpperHead()
    ensures forall i :: 0 <= i < 6 ==> NoUpper(ScamKeywords[i])
  {
  }

  lemma KeywordsNoUpperMiddle()
    ensures forall i :: 6 <= i < 12 ==> NoUpper(ScamKeywords[i])
  {
  }

  lemma KeywordsNoUpperTail()
    ensures forall i :: 12 <= i < |ScamKeywords| ==> NoUpper(ScamKeywords[i])
  {
  }

  /** The NEIGHBORHOOD_AVG_PRICES keys are lower-case, so lower-casing the
      neighbourhood is enough for a match that ignores case. */
  lemma NeighborhoodKeysAreLowerCase()
    ensures forall i :: 0 <= i < |NeighborhoodAvgPrices| ==> Lower(NeighborhoodAvgPrices[i].0) == NeighborhoodAvgPrices[i].0
  {
    forall i | 0 <= i < |NeighborhoodAvgPrices| ensures Lower(NeighborhoodAvgPrices[i].0) == NeighborhoodAvgPrices[i].0 {
      LowerOfLower(NeighborhoodAvgPrices[i].0);
    }
  }

  /** `s` has no letter `toLowerCase` would change. */
  predicate NoUpper(s: string)
  {
    forall j :: 0 <= j < |s| ==> !IsUpper(s[j])
  }

  /** A string without upper-case letters is its own lower-case form. */
  lemma LowerOfLower(s: string)
    requires NoUpper(s)
    ensures Lower(s) == s
  {
  }

  /** The `keywords` `checkScamKeywords` reports for a description. */
  function ScamMatches(description: string): seq<string>
  {
    if description == "" then [] else PhrasesFound(ScamKeywords, Lower(description))
  }

  /** `checkScamKeywords`: scans the table in order and collects every
      phrase that occurs, case-insensitively, in the description. */
  method CheckScamKeywords(description: string) returns (detected: bool, keywords: seq<string>)
    ensures keywords == ScamMatches(description)
    ensures detected <==> |keywords| > 0
  {
    if description == "" {
      return false, [];
    }
    var lowerDescription := Lower(description);
    keywords := [];
    var i := 0;
    while i < |ScamKeywords|
      invariant 0 <= i <= |ScamKeywords|
      invariant keywords == PhrasesFound(ScamKeywords[..i], lowerDescription)
    {
      assert ScamKeywords[..i + 1][..i] == ScamKeywords[..i];
      if Contains(lowerDescription, ScamKeywords[i]) {
        keywords := keywords + [ScamKeywords[i]];
      }
      i := i + 1;
    }
    assert ScamKeywords[..i] == ScamKeywords;
    detected := |keywords| > 0;
  }

  /** A phrase is reported exactly when it is in the list and occurs. */
  lemma {:induction false} PhrasesFoundMembers(phrases: seq<string>, lowerDescription: string, k: string)
    ensures k in PhrasesFound(phrases, lowerDescription) <==> k in phrases && Contains(lowerDescription, k)
    decreases |phrases|
  {
    if phrases != [] {
      var init := phrases[..|phrases| - 1];
      PhrasesFoundMembers(init, lowerDescription, k);
      assert phrases == init + [phrases[|phrases| - 1]];
    }
  }

  /** A phrase is reported iff it is a SCAM_KEYWORDS entry occurring,
      ignoring case, in the description; an empty description reports none. */
  lemma ScamMatchesIff(description: string, k: string)
    ensures k in ScamMatches(description) <==> k in ScamKeywords && Contains(Lower(description), k)
  {
    if description == "" {
      if k in ScamKeywords {
        assert |k| > 0;
        assert !Contains(Lower(description), k);
      }
    } else {
      PhrasesFoundMembers(ScamKeywords, Lower(description), k);
    }
  }

  // ---------------------------------------------------------------------
  // Price per m2 (`checkPriceAnomaly`)
  // ---------------------------------------------------------------------

  /** The average of the first table key that occurs in `lowerNeighborhood`. */
  function FirstAverage(table: seq<(string, real)>, lowerNeighborhood: string): Option<real>
  {
    if table == [] then None
    else if Contains(lowerNeighborhood, table[0].0) then Some(table[0].1)
    else FirstAverage(table[1..], lowerNeighborhood)
  }

  const NoPriceData := "No price data for neighborhood"
  const BelowMarket := "Price per m² significantly below market average"

  /** What `checkPriceAnomaly` returns. */
  datatype PriceCheck = PriceCheck(anomaly: bool, reason: string)

  function PriceCheckOf(price: real, size: real, neighborhood: string): PriceCheck
  {
    if price == 0.0 || size == 0.0 || neighborhood == "" then PriceCheck(false, "")
    else match FirstAverage(NeighborhoodAvgPrices, Lower(neighborhood))
      case None => PriceCheck(false, NoPriceData)
      case Some(avg) =>
        if avg == 0.0 then PriceCheck(false, NoPriceData)
        else if (price / size) / avg < 0.6 then PriceCheck(true, BelowMarket)
        else PriceCheck(false, "")
  }

  /** `checkPriceAnomaly`: the table scan stops at the first key found. */
  method CheckPriceAnomaly(price: real, size: real, neighborhood: string) returns (r: PriceCheck)
    ensures r == PriceCheckOf(price, size, neighborhood)
  {
    if price == 0.0 || size == 0.0 || neighborhood == "" {
      return PriceCheck(false, "");
    }
    var pricePerSqm := price / size;
    var lowerNeighborhood := Lower(neighborhood);
    var avg: Option<real> := None;
    var i := 0;
    while i < |NeighborhoodAvgPrices|
      invariant 0 <= i <= |NeighborhoodAvgPrices|
      invariant avg == None
      invariant FirstAverage(NeighborhoodAvgPrices, lowerNeighborhood)
             == FirstAverage(NeighborhoodAvgPrices[i..], lowerNeighborhood)
    {
      assert NeighborhoodAvgPrices[i..][1..] == NeighborhoodAvgPrices[i + 1..];
      if Contains(lowerNeighborhood, NeighborhoodAvgPrices[i].0) {
        avg := Some(NeighborhoodAvgPrices[i].1);
        break;
      }
      i := i + 1;
    }
    if avg.None? || avg.value == 0.0 {
      return PriceCheck(false, NoPriceData);
    }
    var priceRatio := pricePerSqm / avg.value;
    if priceRatio < 0.6 {
      return PriceCheck(true, BelowMarket);
    }
    return PriceCheck(false, "");
  }

  /** The first table key occurring in `n` is the one at index `i`. */
  ghost predicate FirstKeyAt(table: seq<(string, real)>, n: string, i: int)
  {
    0 <= i < |table| && Contains(n, table[i].0)
    && forall j :: 0 <= j < i ==> !Contains(n, table[j].0)
  }

  /** The lookup returns the average of the first key found in table
      order, and nothing when no key occurs. */
  lemma {:induction false} FirstAverageSpec(table: seq<(string, real)>, n: string)
    ensures FirstAverage(table, n).None? <==> forall i :: 0 <= i < |table| ==> !Contains(n, table[i].0)
    ensures FirstAverage(table, n).Some? ==>
      exists i :: FirstKeyAt(table, n, i) && FirstAverage(table, n).value == table[i].1
    decreases |table|
  {
    if table != [] {
      if Contains(n, table[0].0) {
        assert FirstKeyAt(table, n, 0);
      } else {
        FirstAverageSpec(table[1..], n);
        assert forall i :: 1 <= i < |table| ==> table[i] == table[1..][i - 1];
        if FirstAverage(table[1..], n).Some? {
          var i :| FirstKeyAt(table[1..], n, i) && FirstAverage(table[1..], n).value == table[1..][i].1;
          assert FirstKeyAt(table, n, i + 1);
        }
      }
    }
  }

  /** The worker flags a price anomaly iff price, size and neighbourhood are
      all truthy, a table key occurs in the lower-cased neighbourhood, and the
      price per m2 is below 0.6 times the average of the first such key. */
  lemma PriceAnomalyIff(price: real, size: real, neighborhood: string)
    ensures PriceCheckOf(price, size, neighborhood).anomaly <==>
      price != 0.0 && size != 0.0 && neighborhood != "" &&
      exists i :: FirstKeyAt(NeighborhoodAvgPrices, Lower(neighborhood), i) &&
        price / size < 0.6 * NeighborhoodAvgPrices[i].1
  {
    var n := Lower(neighborhood);
    FirstAverageSpec(NeighborhoodAvgPrices, n);
    if price != 0.0 && size != 0.0 && neighborhood != "" {
      if FirstAverage(NeighborhoodAvgPrices, n).Some? {
        var i :| FirstKeyAt(NeighborhoodAvgPrices, n, i)
          && FirstAverage(NeighborhoodAvgPrices, n).value == NeighborhoodAvgPrices[i].1;
        forall j | FirstKeyAt(NeighborhoodAvgPrices, n, j) ensures j == i {
        }
        var avg := NeighborhoodAvgPrices[i].1;
        assert avg > 0.0;
        assert (price / size) / avg < 0.6 <==> price / size < 0.6 * avg;
      }
    }
  }

  /** A neighbourhood that matches no table key is never penalised. */
  lemma NoReferenceNoPenalty(price: real, size: real, neighborhood: string)
    requires forall i :: 0 <= i < |NeighborhoodAvgPrices| ==> !Contains(Lower(neighborhood), NeighborhoodAvgPrices[i].0)
    ensures !PriceCheckOf(price, size, neighborhood).anomaly
  {
    FirstAverageSpec(NeighborhoodAvgPrices, Lower(neighborhood));
  }

  // ---------------------------------------------------------------------
  // Floor plan, photos, freshness, duplicate, email
  // ---------------------------------------------------------------------

  /** `checkFloorPlan` and the entry `calculateScore` always pushes for it. */
  function FloorPlanEntry(hasFloorPlan: bool): Entry
  {
    if hasFloorPlan then Entry(FloorPlan, 10, Text("Has floor plan"))
    else Entry(FloorPlan, -10, Text("No floor plan"))
  }

  /** The outcome of a check that can grant a bonus or a penalty. */
  datatype Tier = Bonus | Penalty | Neutral

  /** `checkPhotoCount`: a bonus above 20 photos, a penalty below 5. */
  function PhotoTier(photoCount: int): Tier
  {
    if photoCount > 20 then Bonus else if photoCount < 5 then Penalty else Neutral
  }

  function ManyPhotos(photoCount: int): Entry
  {
    Entry(PhotoCount, 10, Text("Many photos (" + IntToDecimal(photoCount) + ")"))
  }

  function FewPhotos(photoCount: int): Entry
  {
    Entry(PhotoCount, -15, Text("Few photos (" + IntToDecimal(photoCount) + ")"))
  }

  /** The age in days `checkListingFreshness` computes. */
  function AgeInDays(ms: int, now: int): real
  {
    (now - ms) as real / DayMs as real
  }

  /** `checkListingFreshness`: under 7 days old is a bonus, over 30 a
      penalty; a falsy or unparsable date gives neither. */
  function FreshnessTier(lastUpdated: DateText, now: int): Tier
  {
    match lastUpdated
    case At(ms) =>
      if AgeInDays(ms, now) < 7.0 then Bonus
      else if AgeInDays(ms, now) > 30.0 then Penalty
      else Neutral
    case _ => Neutral
  }

  const RecentlyUpdated := Entry(Freshness, 5, Text("Recently updated"))
  const OldListing := Entry(Freshness, -10, Text("Old listing"))

  /** `checkDuplicateListing`: a placeholder that never reports a duplicate. */
  function IsDuplicate(l: ListingData): bool
  {
    false
  }

  /** The index of the first `c` in `s`. */
  function IndexOf(s: string, c: char): (r: Option<nat>)
    ensures r.None? <==> c !in s
    ensures r.Some? ==> r.value < |s| && s[r.value] == c
    ensures r.Some? ==> forall k :: 0 <= k < r.value ==> s[k] != c
  {
    if s == [] then None
    else if s[0] == c then Some(0)
    else match IndexOf(s[1..], c)
      case None => None
      case Some(i) => Some(i + 1)
  }

  /** `email.split('@')[1]`: the text between the first '@' and the next
      one (or the end); `undefined` when there is no '@'. */
  function EmailDomain(email: string): Option<string>
  {
    match IndexOf(email, '@')
    case None => None
    case Some(i) =>
      var rest := email[i + 1..];
      match IndexOf(rest, '@')
      case None => Some(rest)
      case Some(j) => Some(rest[..j])
  }

  /** `checkGenericEmail`: a truthy email whose domain is a generic provider. */
  predicate IsGenericEmail(email: Option<string>)
  {
    match email
    case None => false
    case Some(e) =>
      e != "" && match EmailDomain(e)
        case None => false
        case Some(d) => d in GenericDomains
  }

  /** An address `local@domain` has domain `domain`, so it is generic iff
      the domain is one of the four providers. */
  lemma EmailDomainOfAddress(local: string, domain: string)
    requires '@' !in local && '@' !in domain
    ensures EmailDomain(local + "@" + domain) == Some(domain)
    ensures IsGenericEmail(Some(local + "@" + domain)) <==> domain in GenericDomains
  {
    var e := local + "@" + domain;
    assert e[|local|] == '@';
    assert forall k :: 0 <= k < |local| ==> e[k] == local[k];
    assert e[|local| + 1..] == domain;
  }

  /** An address without '@' has no domain and is never generic. */
  lemma NoAtNotGeneric(email: string)
    requires '@' !in email
    ensures !IsGenericEmail(Some(email))
  {
  }

  // ---------------------------------------------------------------------
  // Risk level and the whole score
  // ---------------------------------------------------------------------

  /** `getRiskLevel`: low from 80, medium from 60, high below. */
  function RiskLevelOf(score: int): (r: RiskLevel)
    ensures r == Low <==> score >= 80
    ensures r == High <==> score < 60
  {
    if score >= 80 then Low else if score >= 60 then Medium else High
  }

  /** Rank of a risk level, from least to most risky. */
  function RiskRank(r: RiskLevel): nat
  {
    match r
    case Low => 0
    case Medium => 1
    case High => 2
  }

  /** A higher score never means a higher risk. */
  lemma RiskMonotone(s1: int, s2: int)
    requires s1 <= s2
    ensures RiskRank(RiskLevelOf(s2)) <= RiskRank(RiskLevelOf(s1))
  {
  }

  /** `Math.max(0, Math.min(100, score))`. */
  function Clamp(score: int): (r: int)
    ensures 0 <= r <= 100
    ensures 0 <= score <= 100 ==> r == score
  {
    if score < 0 then 0 else if score > 100 then 100 else score
  }

  /** The entries each check contributes, as `calculateScore` pushes them. */
  function ScamPart(l: ListingData): seq<Entry>
  {
    var scam := ScamMatches(l.fullDescription);
    if scam != [] then [Entry(ScamKeywordsFactor, -40, Phrases(scam))] else []
  }

  function PricePart(l: ListingData): seq<Entry>
  {
    var price := PriceCheckOf(l.price, l.size, l.neighborhood);
    if price.anomaly then [Entry(PriceAnomaly, -30, Text(price.reason))] else []
  }

  function FloorPlanPart(l: ListingData): seq<Entry>
  {
    [FloorPlanEntry(l.hasFloorPlan)]
  }

  function PhotoPart(l: ListingData): seq<Entry>
  {
    match PhotoTier(l.photoCount)
    case Bonus => [ManyPhotos(l.photoCount)]
    case Penalty => [FewPhotos(l.photoCount)]
    case Neutral => []
  }

  function FreshnessPart(l: ListingData, now: int): seq<Entry>
  {
    match FreshnessTier(l.lastUpdated, now)
    case Bonus => [RecentlyUpdated]
    case Penalty => [OldListing]
    case Neutral => []
  }

  function DuplicatePart(l: ListingData): seq<Entry>
  {
    if IsDuplicate(l) then [Entry(Duplicate, -15, Text("Potential duplicate"))] else []
  }

  function EmailPart(l: ListingData): seq<Entry>
  {
    if IsGenericEmail(l.contactEmail) then [Entry(GenericEmail, -5, Text("Generic email domain"))] else []
  }

  /** The breakdown `calculateScore` builds: the entries of each check, in
      the order the checks run. */
  function Breakdown(l: ListingData, now: int): seq<Entry>
  {
    ScamPart(l) + PricePart(l) + FloorPlanPart(l) + PhotoPart(l)
    + FreshnessPart(l, now) + DuplicatePart(l) + EmailPart(l)
  }

  /** The result `calculateScore` returns for `l` at time `now`. */
  function ScoreOf(l: ListingData, now: int): ScoreResult
  {
    var b := Breakdown(l, now);
    var score := Clamp(100 + SumPoints(b));
    ScoreResult(score, b, RiskLevelOf(score), l)
  }

  /** `calculateScore`: starts from 100, runs the high, medium and low
      impact checks, each pairing every change to the running score with a
      breakdown entry of the same points, then clamps the score. */
  method CalculateScore(l: ListingData, now: int) returns (r: ScoreResult)
    ensures r == ScoreOf(l, now)
    ensures 0 <= r.score <= 100
    ensures r.score == Clamp(100 + SumPoints(r.breakdown))
    ensures r.riskLevel == RiskLevelOf(r.score)
  {
    var score := 100;
    var breakdown: seq<Entry> := [];
    score, breakdown := HighImpactChecks(l, score, breakdown);
    assert breakdown == ScamPart(l) + PricePart(l);
    score, breakdown := MediumImpactChecks(l, now, score, breakdown);
    score, breakdown := LowImpactChecks(l, score, breakdown);
    assert breakdown == Breakdown(l, now);
    score := Clamp(score);
    r := ScoreResult(score, breakdown, RiskLevelOf(score), l);
  }

  /** The scam-phrase and price checks (-40 and -30). */
  method HighImpactChecks(l: ListingData, score0: int, breakdown0: seq<Entry>)
    returns (score: int, breakdown: seq<Entry>)
    ensures breakdown == breakdown0 + ScamPart(l) + PricePart(l)
    ensures score - SumPoints(breakdown) == score0 - SumPoints(breakdown0)
  {
    score, breakdown := score0, breakdown0;
    var detected, keywords := CheckScamKeywords(l.fullDescription);
    if detected {
      score := score - 40;
      breakdown := Push(breakdown, Entry(ScamKeywordsFactor, -40, Phrases(keywords)));
    }
    ghost var b1 := breakdown;
    assert b1 == breakdown0 + ScamPart(l);

    var priceCheck := CheckPriceAnomaly(l.price, l.size, l.neighborhood);
    if priceCheck.anomaly {
      score := score - 30;
      breakdown := Push(breakdown, Entry(PriceAnomaly, -30, Text(priceCheck.reason)));
    }
    assert breakdown == b1 + PricePart(l);
  }

  /** The floor-plan (+10 / -10), photo (+10 / -15) and freshness (+5 / -10)
      checks. */
  method MediumImpactChecks(l: ListingData, now: int, score0: int, breakdown0: seq<Entry>)
    returns (score: int, breakdown: seq<Entry>)
    ensures breakdown == breakdown0 + FloorPlanPart(l) + PhotoPart(l) + FreshnessPart(l, now)
    ensures score - SumPoints(breakdown) == score0 - SumPoints(breakdown0)
  {
    score, breakdown := score0, breakdown0;
    if l.hasFloorPlan {
      score := score + 10;
      breakdown := Push(breakdown, Entry(FloorPlan, 10, Text("Has floor plan")));
    } else {
      score := score - 10;
      breakdown := Push(breakdown, Entry(FloorPlan, -10, Text("No floor plan")));
    }
    ghost var b1 := breakdown;

    var photoCheck := PhotoTier(l.photoCount);
    if photoCheck == Bonus {
      score := score + 10;
      breakdown := Push(breakdown, ManyPhotos(l.photoCount));
    } else if photoCheck == Penalty {
      score := score - 15;
      breakdown := Push(breakdown, FewPhotos(l.photoCount));
    }
    ghost var b2 := breakdown;
    assert b2 == b1 + PhotoPart(l);

    var freshnessCheck := FreshnessTier(l.lastUpdated, now);
    if freshnessCheck == Bonus {
      score := score + 5;
      breakdown := Push(breakdown, RecentlyUpdated);
    } else if freshnessCheck == Penalty {
      score := score - 10;
      breakdown := Push(breakdown, OldListing);
    }
    assert breakdown == b2 + FreshnessPart(l, now);
  }

  /** The duplicate (-15) and generic-email (-5) checks. */
  method LowImpactChecks(l: ListingData, score0: int, breakdown0: seq<Entry>)
    returns (score: int, breakdown: seq<Entry>)
    ensures breakdown == breakdown0 + DuplicatePart(l) + EmailPart(l)
    ensures score - SumPoints(breakdown) == score0 - SumPoints(breakdown0)
  {
    score, breakdown := score0, breakdown0;
    if IsDuplicate(l) {
      score := score - 15;
      breakdown := Push(breakdown, Entry(Duplicate, -15, Text("Potential duplicate")));
    }
    ghost var b1 := breakdown;
    assert b1 == breakdown0 + DuplicatePart(l);

    if IsGenericEmail(l.contactEmail) {
      score := score - 5;
      breakdown := Push(breakdown, Entry(GenericEmail, -5, Text("Generic email domain")));
    }
    assert breakdown == b1 + EmailPart(l);
  }

  /** `breakdown.push(e)`: appending adds the entry's points to the sum. */
  function Push(b: seq<Entry>, e: Entry): (r: seq<Entry>)
    ensures r == b + [e]
    ensures SumPoints(r) == SumPoints(b) + e.points
  {
    assert (b + [e])[..|b|] == b;
    b + [e]
  }

  // ---------------------------------------------------------------------
  // What the breakdown says, factor by factor
  // ---------------------------------------------------------------------

  /** Entries all of factor `g` contribute to factor `f` only when f == g. */
  lemma {:induction false} EntriesOfUniform(s: seq<Entry>, f: Factor, g: Factor)
    requires Tagged(s, g)
    ensures EntriesOf(s, f) == Keep(f, g, s)
    decreases |s|
  {
    if s != [] {
      EntriesOfUniform(s[1..], f, g);
    }
  }

  /** The part `s` of factor `g` if `f` is `g`, nothing otherwise. */
  function Keep(f: Factor, g: Factor, s: seq<Entry>): seq<Entry>
  {
    if f == g then s else []
  }

  /** All entries of `s` carry factor `g`. */
  predicate Tagged(s: seq<Entry>, g: Factor)
  {
    s == [] || (s[0].factor == g && Tagged(s[1..], g))
  }

  /** Selecting one factor from seven concatenated parts selects it from
      each part. */
  lemma Distribute(p1: seq<Entry>, p2: seq<Entry>, p3: seq<Entry>, p4: seq<Entry>,
                   p5: seq<Entry>, p6: seq<Entry>, p7: seq<Entry>, f: Factor)
    ensures EntriesOf(p1 + p2 + p3 + p4 + p5 + p6 + p7, f)
      == EntriesOf(p1, f) + EntriesOf(p2, f) + EntriesOf(p3, f) + EntriesOf(p4, f)
         + EntriesOf(p5, f) + EntriesOf(p6, f) + EntriesOf(p7, f)
  {
    EntriesOfAppend(p1, p2, f);
    EntriesOfAppend(p1 + p2, p3, f);
    EntriesOfAppend(p1 + p2 + p3, p4, f);
    EntriesOfAppend(p1 + p2 + p3 + p4, p5, f);
    EntriesOfAppend(p1 + p2 + p3 + p4 + p5, p6, f);
    EntriesOfAppend(p1 + p2 + p3 + p4 + p5 + p6, p7, f);
  }

  /** Selecting factor `f` from seven concatenated parts, the k-th tagged
      with the k-th factor, keeps the part tagged `f` and nothing else. */
  lemma SelectFromParts(p1: seq<Entry>, p2: seq<Entry>, p3: seq<Entry>, p4: seq<Entry>,
                        p5: seq<Entry>, p6: seq<Entry>, p7: seq<Entry>, f: Factor)
    requires Tagged(p1, ScamKeywordsFactor) && Tagged(p2, PriceAnomaly) && Tagged(p3, FloorPlan)
    requires Tagged(p4, PhotoCount) && Tagged(p5, Freshness) && Tagged(p6, Duplicate)
    requires Tagged(p7, GenericEmail)
    ensures EntriesOf(p1 + p2 + p3 + p4 + p5 + p6 + p7, f)
      == Keep(f, ScamKeywordsFactor, p1) + Keep(f, PriceAnomaly, p2)
         + Keep(f, FloorPlan, p3) + Keep(f, PhotoCount, p4)
         + Keep(f, Freshness, p5) + Keep(f, Duplicate, p6)
         + Keep(f, GenericEmail, p7)
  {
    Distribute(p1, p2, p3, p4, p5, p6, p7, f);
    EntriesOfUniform(p1, f, ScamKeywordsFactor);
    EntriesOfUniform(p2, f, PriceAnomaly);
    EntriesOfUniform(p3, f, FloorPlan);
    EntriesOfUniform(p4, f, PhotoCount);
    EntriesOfUniform(p5, f, Freshness);
    EntriesOfUniform(p6, f, Duplicate);
    EntriesOfUniform(p7, f, GenericEmail);
  }

  /** Each check pushes only entries tagged with its own factor, so the
      entries of a factor in the breakdown are exactly its check's part. */
  lemma SelectFactor(l: ListingData, now: int, f: Factor)
    ensures EntriesOf(Breakdown(l, now), f)
      == Keep(f, ScamKeywordsFactor, ScamPart(l))
         + Keep(f, PriceAnomaly, PricePart(l))
         + Keep(f, FloorPlan, FloorPlanPart(l))
         + Keep(f, PhotoCount, PhotoPart(l))
         + Keep(f, Freshness, FreshnessPart(l, now))
         + Keep(f, Duplicate, DuplicatePart(l))
         + Keep(f, GenericEmail, EmailPart(l))
  {
    var p1, p2, p3, p4 := ScamPart(l), PricePart(l), FloorPlanPart(l), PhotoPart(l);
    var p5, p6, p7 := FreshnessPart(l, now), DuplicatePart(l), EmailPart(l);
    assert Tagged(p1, ScamKeywordsFactor) && Tagged(p2, PriceAnomaly);
    assert Tagged(p3, FloorPlan) && Tagged(p4, PhotoCount);
    assert Tagged(p5, Freshness) && Tagged(p6, Duplicate) && Tagged(p7, GenericEmail);
    SelectFromParts(p1, p2, p3, p4, p5, p6, p7, f);
  }

  /** A `scam_keywords` entry worth -40 is present iff some SCAM_KEYWORDS
      phrase occurs, ignoring case, in the description; its details are the
      matching phrases in table order. */
  lemma ScamFactor(l: ListingData, now: int)
    ensures EntriesOf(Breakdown(l, now), ScamKeywordsFactor)
      == if exists k :: k in ScamKeywords && Contains(Lower(l.fullDescription), k)
         then [Entry(ScamKeywordsFactor, -40, Phrases(ScamMatches(l.fullDescription)))]
         else []
  {
    SelectFactor(l, now, ScamKeywordsFactor);
    var m := ScamMatches(l.fullDescription);
    if exists k :: k in ScamKeywords && Contains(Lower(l.fullDescription), k) {
      var k :| k in ScamKeywords && Contains(Lower(l.fullDescription), k);
      ScamMatchesIff(l.fullDescription, k);
    } else if m != [] {
      ScamMatchesIff(l.fullDescription, m[0]);
    }
  }

  /** A `price_anomaly` entry worth -30 is present iff price, size and
      neighbourhood are truthy and the price per m2 is below 0.6 times the
      average of the first table key occurring in the neighbourhood. */
  lemma PriceFactor(l: ListingData, now: int)
    ensures EntriesOf(Breakdown(l, now), PriceAnomaly)
      == if l.price != 0.0 && l.size != 0.0 && l.neighborhood != "" &&
            exists i :: FirstKeyAt(NeighborhoodAvgPrices, Lower(l.neighborhood), i) &&
              l.price / l.size < 0.6 * NeighborhoodAvgPrices[i].1
         then [Entry(PriceAnomaly, -30, Text(BelowMarket))]
         else []
  {
    SelectFactor(l, now, PriceAnomaly);
    PriceAnomalyIff(l.price, l.size, l.neighborhood);
  }

  /** The floor-plan check always contributes exactly one entry. */
  lemma FloorPlanFactor(l: ListingData, now: int)
    ensures EntriesOf(Breakdown(l, now), FloorPlan)
      == [Entry(FloorPlan, if l.hasFloorPlan then 10 else -10,
                Text(if l.hasFloorPlan then "Has floor plan" else "No floor plan"))]
  {
    SelectFactor(l, now, FloorPlan);
  }

  /** More than 20 photos earn +10, fewer than 5 cost -15, 5..20 add nothing. */
  lemma PhotoFactor(l: ListingData, now: int)
    ensures EntriesOf(Breakdown(l, now), PhotoCount)
      == if l.photoCount > 20 then [Entry(PhotoCount, 10, Text("Many photos (" + IntToDecimal(l.photoCount) + ")"))]
         else if l.photoCount < 5 then [Entry(PhotoCount, -15, Text("Few photos (" + IntToDecimal(l.photoCount) + ")"))]
         else []
  {
    SelectFactor(l, now, PhotoCount);
  }

  /** Updated less than 7 days before `now` earns +5, more than 30 days
      costs -10; 7..30 days, a falsy or an unparsable date add nothing. */
  lemma FreshnessFactor(l: ListingData, now: int)
    ensures EntriesOf(Breakdown(l, now), Freshness)
      == match l.lastUpdated
         case At(ms) =>
           if now - ms < 7 * DayMs then [Entry(Freshness, 5, Text("Recently updated"))]
           else if now - ms > 30 * DayMs then [Entry(Freshness, -10, Text("Old listing"))]
           else []
         case _ => []
  {
    SelectFactor(l, now, Freshness);
    if l.lastUpdated.At? {
      AgeTiers(l.lastUpdated.ms, now);
    }
  }

  /** The duplicate check is a stub: no `duplicate` entry is ever produced. */
  lemma DuplicateFactor(l: ListingData, now: int)
    ensures EntriesOf(Breakdown(l, now), Duplicate) == []
  {
    SelectFactor(l, now, Duplicate);
  }

  /** A `generic_email` entry worth -5 is present iff the email is generic. */
  lemma EmailFactor(l: ListingData, now: int)
    ensures EntriesOf(Breakdown(l, now), GenericEmail)
      == if IsGenericEmail(l.contactEmail) then [Entry(GenericEmail, -5, Text("Generic email domain"))] else []
  {
    SelectFactor(l, now, GenericEmail);
  }

  /** The real-valued age comparisons are the integer millisecond ones. */
  lemma AgeTiers(ms: int, now: int)
    ensures AgeInDays(ms, now) < 7.0 <==> now - ms < 7 * DayMs
    ensures AgeInDays(ms, now) > 30.0 <==> now - ms > 30 * DayMs
  {
    var d := DayMs as real;
    assert d > 0.0;
    assert AgeInDays(ms, now) * d == (now - ms) as real;
  }
}
