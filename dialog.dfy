/** The content script's score dialog: the four analysis rows it builds
    from a score's breakdown, each with a pass / caution / fail status and a
    summary line. Only what the rows show is modelled; the DOM they are
    drawn into is not. */
module Dialog {
  import opened Wrappers
  import opened Listing
  import opened Scoring

  /** The icon a row shows. */
  datatype Status = Pass | Caution | Fail

  /** Severity order of the statuses. */
  function Severity(s: Status): nat
  {
    match s
    case Pass => 0
    case Caution => 1
    case Fail => 2
  }

  /** `breakdown.find(b => b.type === f)`: the first entry of factor `f`. */
  function Find(b: seq<Entry>, f: Factor): (r: Option<Entry>)
    ensures r.Some? <==> EntriesOf(b, f) != []
    ensures r.Some? ==> r.value == EntriesOf(b, f)[0] && r.value in b
  {
    if b == [] then None
    else if b[0].factor == f then Some(b[0])
    else Find(b[1..], f)
  }

  /** A row's status: a missing entry passes; below -20 points fails;
      below -5 is a caution; anything else, slightly negative included,
      passes. */
  function StatusOf(e: Option<Entry>): Status
  {
    match e
    case None => Pass
    case Some(entry) =>
      if entry.points < -20 then Fail
      else if entry.points < -5 then Caution
      else Pass
  }

  /** Fewer points never give a milder status, and only negative entries
      raise anything above Pass. */
  lemma StatusMonotone(a: Entry, b: Entry)
    requires a.points <= b.points
    ensures Severity(StatusOf(Some(a))) >= Severity(StatusOf(Some(b)))
    ensures StatusOf(Some(b)) != Pass ==> b.points < -5
  {
  }

  /** One row of the analysis: its title, the summary shown when the score
      has no usable entry for it, and the factor whose entry it shows. */
  datatype AnalysisItem = AnalysisItem(title: string, summary: string, factor: Factor)

  /** The rows, in display order; only these four factors are shown. */
  const AnalysisItems: seq<AnalysisItem> := [
    AnalysisItem("Scam Keywords", "Clean language", ScamKeywordsFactor),
    AnalysisItem("Price Check", "Fair market price", PriceAnomaly),
    AnalysisItem("Listing Quality", "Excellent presentation", PhotoCount),
    AnalysisItem("Freshness", "Recently updated", Freshness)
  ]

  /** The summary line: the entry's details when truthy, else the row's
      default text. */
  datatype Summary = Shown(details: Details) | Fallback(text: string)

  /** An array of phrases is always truthy; a text only when non-empty. */
  predicate DetailsTruthy(d: Details)
  {
    d.Phrases? || d.text != ""
  }

  function SummaryOf(item: AnalysisItem, e: Option<Entry>): (s: Summary)
    ensures s.Shown? <==> e.Some? && DetailsTruthy(e.value.details)
    ensures s.Shown? ==> s.details == e.value.details
    ensures s.Fallback? ==> s.text == item.summary
  {
    if e.Some? && DetailsTruthy(e.value.details) then Shown(e.value.details)
    else Fallback(item.summary)
  }

  datatype Row = Row(title: string, status: Status, summary: Summary)

  /** The row an item gets from a breakdown. */
  function RowOf(item: AnalysisItem, b: seq<Entry>): Row
  {
    var e := Find(b, item.factor);
    Row(item.title, StatusOf(e), SummaryOf(item, e))
  }

  /** The dialog's rows for a score. */
  function Rows(score: ScoreResult): (rows: seq<Row>)
    ensures |rows| == |AnalysisItems|
    ensures forall i :: 0 <= i < |rows| ==> rows[i].title == AnalysisItems[i].title
  {
    seq(|AnalysisItems|, i requires 0 <= i < |AnalysisItems| => RowOf(AnalysisItems[i], score.breakdown))
  }

  // ---------------------------------------------------------------------
  // The rows of a worker score
  // ---------------------------------------------------------------------

  /** The scam row fails, showing the matched phrases, iff a scam phrase
      occurs in the description; otherwise it passes with "Clean language". */
  lemma ScamRow(l: ListingData, now: int)
    ensures var r := RowOf(AnalysisItems[0], ScoreOf(l, now).breakdown);
      var m := ScamMatches(l.fullDescription);
      r.status == (if m != [] then Fail else Pass)
      && r.summary == (if m != [] then Shown(Phrases(m)) else Fallback("Clean language"))
  {
    SelectFactor(l, now, ScamKeywordsFactor);
  }

  /** The price row fails iff the worker flagged a price anomaly, and then
      shows the anomaly's reason. */
  lemma PriceRow(l: ListingData, now: int)
    ensures var r := RowOf(AnalysisItems[1], ScoreOf(l, now).breakdown);
      var anomaly := PriceCheckOf(l.price, l.size, l.neighborhood).anomaly;
      r.status == (if anomaly then Fail else Pass)
      && r.summary == (if anomaly then Shown(Text(BelowMarket)) else Fallback("Fair market price"))
  {
    SelectFactor(l, now, PriceAnomaly);
    AnomalyReason(l.price, l.size, l.neighborhood);
  }

  /** A flagged anomaly always carries the below-market reason. */
  lemma AnomalyReason(price: real, size: real, neighborhood: string)
    ensures PriceCheckOf(price, size, neighborhood).anomaly ==>
      PriceCheckOf(price, size, neighborhood).reason == BelowMarket
  {
  }

  /** The quality row is a caution iff there are fewer than 5 photos; it
      never fails. Its summary is the photo entry's text when there is one. */
  lemma QualityRow(l: ListingData, now: int)
    ensures var r := RowOf(AnalysisItems[2], ScoreOf(l, now).breakdown);
      r.status == (if l.photoCount < 5 then Caution else Pass)
      && r.summary == match PhotoTier(l.photoCount)
         case Bonus => Shown(ManyPhotos(l.photoCount).details)
         case Penalty => Shown(FewPhotos(l.photoCount).details)
         case Neutral => Fallback("Excellent presentation")
  {
    SelectFactor(l, now, PhotoCount);
  }

  /** The freshness row is a caution iff the listing was updated more than
      30 days ago; it never fails. */
  lemma FreshnessRow(l: ListingData, now: int)
    ensures var r := RowOf(AnalysisItems[3], ScoreOf(l, now).breakdown);
      r.status == (if FreshnessTier(l.lastUpdated, now) == Penalty then Caution else Pass)
      && r.summary == match FreshnessTier(l.lastUpdated, now)
         case Bonus => Shown(RecentlyUpdated.details)
         case Penalty => Shown(OldListing.details)
         case Neutral => Fallback("Recently updated")
  {
    SelectFactor(l, now, Freshness);
  }

  /** Only the scam and price rows can fail: a listing's dialog shows a
      fail iff its description has a scam phrase or its price is anomalous. */
  lemma FailIffScamOrPrice(l: ListingData, now: int)
    ensures var rows := Rows(ScoreOf(l, now));
      (exists i :: 0 <= i < |rows| && rows[i].status == Fail)
      <==> ScamMatches(l.fullDescription) != [] || PriceCheckOf(l.price, l.size, l.neighborhood).anomaly
  {
    var rows := Rows(ScoreOf(l, now));
    ScamRow(l, now);
    PriceRow(l, now);
    QualityRow(l, now);
    FreshnessRow(l, now);
    AnyFail(rows);
  }

  /** A row list of four fails somewhere iff one of its four rows fails. */
  lemma AnyFail(rows: seq<Row>)
    requires |rows| == 4
    ensures (exists i :: 0 <= i < |rows| && rows[i].status == Fail)
      <==> rows[0].status == Fail || rows[1].status == Fail || rows[2].status == Fail || rows[3].status == Fail
  {
  }
}
