/** The content script's module-level state (`pageType`,
    `processedListings`, `lastKnownListings`, `currentUrl`) and the
    functions that update it: `processListing`'s de-duplication by key,
    `processSearchPageListings`'s diff-driven cleanup and badge pass,
    `cleanupListingTrustShield`, `clearProcessedListingsForUrl` and the
    reset in `handleNavigation`. The page enters as values: the URL as a
    string, the search page's cards as `Card`s. */
module ContentState {
  import opened Wrappers
  import opened Strings
  import opened PageParsers
  import opened ListingChanges

  /** `id + ':' + url + ':' + variant`: the key recording that a listing's
      shield of one variant has been started. */
  function ListingKey(id: string, url: string, variant: string): string
  {
    id + ":" + url + ":" + variant
  }

  /** What `processListing` looks at in its argument: the id (None when it
      is not a string), the URL and whether an element is attached. */
  datatype ListingRef = ListingRef(id: Option<string>, url: string, hasElement: bool)

  /** The argument passes `processListing`'s three guards. */
  predicate Processable(listing: Option<ListingRef>)
  {
    listing.Some? && listing.value.id.Some? && listing.value.id.value != "" && listing.value.hasElement
  }

  /** `processListing` goes on to render: the argument is valid and its key
      is not yet recorded. */
  predicate Starts(processed: set<string>, listing: Option<ListingRef>, variant: string)
  {
    Processable(listing) && ListingKey(listing.value.id.value, listing.value.url, variant) !in processed
  }

  /** `processedListings` after `processListing(listing, variant)`. */
  function AfterProcess(processed: set<string>, listing: Option<ListingRef>, variant: string): set<string>
  {
    if Starts(processed, listing, variant)
    then processed + {ListingKey(listing.value.id.value, listing.value.url, variant)}
    else processed
  }

  /** A second identical call finds its key and does nothing. */
  lemma ProcessIdempotent(processed: set<string>, listing: Option<ListingRef>, variant: string)
    ensures var once := AfterProcess(processed, listing, variant);
      AfterProcess(once, listing, variant) == once && !Starts(once, listing, variant)
  {
  }

  /** A valid listing's key is recorded after the call whether or not it
      rendered, and nothing else is added; an invalid one changes nothing. */
  lemma ProcessRecordsKey(processed: set<string>, listing: Option<ListingRef>, variant: string)
    ensures Processable(listing) ==>
      AfterProcess(processed, listing, variant)
        == processed + {ListingKey(listing.value.id.value, listing.value.url, variant)}
    ensures !Processable(listing) ==> AfterProcess(processed, listing, variant) == processed
  {
  }

  // ---------------------------------------------------------------------
  // Keys of one listing
  // ---------------------------------------------------------------------

  predicate EndsWith(s: string, suffix: string)
  {
    |suffix| <= |s| && s[|s| - |suffix|..] == suffix
  }

  /** `k` is the badge or collapsed key of listing `id`, for any URL. */
  predicate IsShieldKeyOf(k: string, id: string)
  {
    id + ":" <= k && (EndsWith(k, ":badge") || EndsWith(k, ":collapsed"))
  }

  /** No key of `s` is a shield key of `id`. */
  predicate NoShieldKey(s: set<string>, id: string)
  {
    forall k :: k in s ==> !IsShieldKeyOf(k, id)
  }

  /** The badge and collapsed keys of `id` are its shield keys, whatever
      the URL. */
  lemma ShieldKeyOfOwnId(id: string, url: string)
    ensures IsShieldKeyOf(ListingKey(id, url, "badge"), id)
    ensures IsShieldKeyOf(ListingKey(id, url, "collapsed"), id)
  {
    var b := ListingKey(id, url, "badge");
    var c := ListingKey(id, url, "collapsed");
    assert b == (id + ":") + (url + ":badge");
    assert c == (id + ":") + (url + ":collapsed");
    assert b[|b| - 6..] == ":badge";
    assert c[|c| - 10..] == ":collapsed";
  }

  /** With ids free of ':' (the site's ids are digits), a listing key is a
      shield key only of the listing it was built for. */
  lemma ShieldKeyNamesItsId(id: string, other: string, url: string, variant: string)
    requires ':' !in id && ':' !in other
    ensures IsShieldKeyOf(ListingKey(other, url, variant), id) ==> id == other
  {
    var k := ListingKey(other, url, variant);
    if id + ":" <= k {
      // Both `id` and `other` end right before the first ':' of the key.
      assert forall i :: 0 <= i < |id| ==> k[i] == id[i];
      assert forall i :: 0 <= i < |other| ==> k[i] == other[i];
      assert k[|id|] == ':' && k[|other|] == ':';
      assert |id| == |other|;
      assert id == k[..|id|] == other;
    }
  }

  // ---------------------------------------------------------------------
  // cleanupListingTrustShield
  // ---------------------------------------------------------------------

  /** The script deletes the two keys of `id` built with the page's own URL
      `currentUrl`. */
  function CleanupAsWritten(processed: set<string>, id: string, currentUrl: string): set<string>
  {
    processed - {ListingKey(id, currentUrl, "badge"), ListingKey(id, currentUrl, "collapsed")}
  }

  /** On a search page the badge key was recorded with the card's link URL,
      which is not the page's URL, so the script's cleanup keeps it. */
  lemma AsWrittenKeepsLinkKey(processed: set<string>, id: string, link: string, currentUrl: string)
    requires ListingKey(id, link, "badge") in processed && link != currentUrl
    ensures ListingKey(id, link, "badge") in CleanupAsWritten(processed, id, currentUrl)
  {
    var k := ListingKey(id, link, "badge");
    var pageKey := ListingKey(id, currentUrl, "badge");
    assert k[|id| + 1..|k| - 6] == link;
    assert pageKey[|id| + 1..|pageKey| - 6] == currentUrl;
    assert k != ListingKey(id, currentUrl, "collapsed") by {
      assert k[|k| - 1] == 'e';
    }
  }

  /** The cleanup as intended: every badge and collapsed key of `id`, under
      whatever URL it was recorded, is removed. */
  function CleanupListing(processed: set<string>, id: string): (r: set<string>)
    ensures r <= processed
    ensures NoShieldKey(r, id)
  {
    set k | k in processed && !IsShieldKeyOf(k, id)
  }

  /** The intended cleanup removes the listing's keys under every URL and
      keeps every key of every other listing. */
  lemma CleanupListingSpec(processed: set<string>, id: string, url: string, other: string, variant: string)
    requires ':' !in id && ':' !in other && id != other
    ensures ListingKey(id, url, "badge") !in CleanupListing(processed, id)
    ensures ListingKey(id, url, "collapsed") !in CleanupListing(processed, id)
    ensures ListingKey(other, url, variant) in processed
        ==> ListingKey(other, url, variant) in CleanupListing(processed, id)
  {
    ShieldKeyOfOwnId(id, url);
    ShieldKeyNamesItsId(id, other, url, variant);
  }

  /** Which cleanup a search pass applies to removed listings. */
  datatype CleanupMode = AsWritten(currentUrl: string) | Corrected

  function Cleanup(mode: CleanupMode, processed: set<string>, id: string): set<string>
  {
    match mode
    case AsWritten(currentUrl) => CleanupAsWritten(processed, id, currentUrl)
    case Corrected => CleanupListing(processed, id)
  }

  /** Cleaning up each removed id in order. */
  function CleanupAll(mode: CleanupMode, processed: set<string>, ids: seq<string>): (r: set<string>)
    ensures r <= processed
  {
    if ids == [] then processed
    else Cleanup(mode, CleanupAll(mode, processed, ids[..|ids| - 1]), ids[|ids| - 1])
  }

  /** After the intended cleanup of a list of ids, none of them keeps a
      shield key. */
  lemma {:induction false} CleanupAllClears(processed: set<string>, ids: seq<string>, id: string)
    requires id in ids
    ensures NoShieldKey(CleanupAll(Corrected, processed, ids), id)
  {
    var last := ids[|ids| - 1];
    var rest := CleanupAll(Corrected, processed, ids[..|ids| - 1]);
    if id != last {
      assert id in ids[..|ids| - 1];
      CleanupAllClears(processed, ids[..|ids| - 1], id);
    }
  }

  // ---------------------------------------------------------------------
  // processSearchPageListings
  // ---------------------------------------------------------------------

  /** `extractListingData`'s URL for a card: the link's `href`, made
      absolute with the page origin when it starts with '/'; none when the
      card has no link. */
  function CardUrl(card: Card, origin: string): (r: Option<string>)
    ensures r.Some? <==> card.link.Some?
  {
    match card.link
    case None => None
    case Some(href) => Some(if |href| > 0 && href[0] == '/' then origin + href else href)
  }

  /** What a search pass leaves: the processed keys and the ids whose
      loading-state shield it started, in order. */
  datatype SearchOutcome = SearchOutcome(processed: set<string>, rendered: seq<string>)

  /** The loop over the added ids: each with a link gets its badge key
      recorded and its shield started, unless the key is already there. */
  function AddBadges(processed: set<string>, added: seq<string>, elements: map<string, Card>, origin: string)
    : (o: SearchOutcome)
    ensures processed <= o.processed
  {
    if added == [] then SearchOutcome(processed, [])
    else
      var o := AddBadges(processed, added[..|added| - 1], elements, origin);
      var id := added[|added| - 1];
      if id in elements && CardUrl(elements[id], origin).Some? then
        var key := ListingKey(elements[id].elementId, CardUrl(elements[id], origin).value, "badge");
        if key in o.processed then o
        else SearchOutcome(o.processed + {key}, o.rendered + [id])
      else o
  }

  /** One `processSearchPageListings` pass from the known ids and the
      processed keys, given the page's cards. */
  function SearchPass(mode: CleanupMode, processed: set<string>, lastKnown: seq<string>,
                      cards: seq<Card>, origin: string): SearchOutcome
  {
    var ids := CardIds(cards);
    var cleaned := CleanupAll(mode, processed, Absent(lastKnown, ids));
    AddBadges(cleaned, Absent(ids, lastKnown), CardMap(cards), origin)
  }

  /** Every key the badge loop adds is the badge key of one of the added
      ids. */
  lemma {:induction false} AddBadgesOnlyAdded(processed: set<string>, added: seq<string>,
                                               elements: map<string, Card>, origin: string, k: string)
    requires k in AddBadges(processed, added, elements, origin).processed && k !in processed
    ensures exists i ::
              0 <= i < |added| && added[i] in elements && CardUrl(elements[added[i]], origin).Some?
              && k == ListingKey(elements[added[i]].elementId, CardUrl(elements[added[i]], origin).value, "badge")
  {
    var init := added[..|added| - 1];
    var o := AddBadges(processed, init, elements, origin);
    if k in o.processed {
      AddBadgesOnlyAdded(processed, init, elements, origin, k);
      var i :| 0 <= i < |init| && init[i] in elements && CardUrl(elements[init[i]], origin).Some?
        && k == ListingKey(elements[init[i]].elementId, CardUrl(elements[init[i]], origin).value, "badge");
      assert added[i] == init[i];
    }
  }

  /** Ids whose cards carry no ':' and that the map stores under their own
      id. */
  predicate WellKeyed(elements: map<string, Card>)
  {
    forall k :: k in elements ==> elements[k].elementId == k && ':' !in k
  }

  /** The badge loop adds no shield key of an id it is not adding. */
  lemma AddBadgesKeepsOthersClear(processed: set<string>, added: seq<string>,
                                  elements: map<string, Card>, origin: string, id: string)
    requires WellKeyed(elements) && ':' !in id && id !in added
    requires NoShieldKey(processed, id)
    ensures NoShieldKey(AddBadges(processed, added, elements, origin).processed, id)
  {
    var r := AddBadges(processed, added, elements, origin).processed;
    forall k | k in r
      ensures !IsShieldKeyOf(k, id)
    {
      if k !in processed {
        AddBadgesOnlyAdded(processed, added, elements, origin, k);
        var i :| 0 <= i < |added| && added[i] in elements && CardUrl(elements[added[i]], origin).Some?
          && k == ListingKey(elements[added[i]].elementId, CardUrl(elements[added[i]], origin).value, "badge");
        ShieldKeyNamesItsId(id, added[i], CardUrl(elements[added[i]], origin).value, "badge");
      }
    }
  }

  /** An added id with a link and no shield key yet is rendered, provided
      the added ids are distinct. */
  lemma {:induction false} AddBadgesRenders(processed: set<string>, added: seq<string>,
                                             elements: map<string, Card>, origin: string, j: nat)
    requires j < |added| && NoDup(added) && WellKeyed(elements)
    requires added[j] in elements && elements[added[j]].link.Some?
    requires NoShieldKey(processed, added[j])
    ensures added[j] in AddBadges(processed, added, elements, origin).rendered
  {
    var init := added[..|added| - 1];
    var id := added[j];
    if j == |added| - 1 {
      assert id !in init;
      AddBadgesKeepsOthersClear(processed, init, elements, origin, id);
      ShieldKeyOfOwnId(id, CardUrl(elements[id], origin).value);
    } else {
      assert init[j] == id;
      AddBadgesRenders(processed, init, elements, origin, j);
    }
  }

  /** The index of `x` in `s`. */
  function IndexIn(s: seq<string>, x: string): (i: nat)
    requires x in s
    ensures i < |s| && s[i] == x
  {
    if s[0] == x then 0 else 1 + IndexIn(s[1..], x)
  }

  /** No card id on the page contains ':'. */
  predicate ColonFreeIds(cards: seq<Card>)
  {
    forall i :: 0 <= i < |cards| ==> ':' !in cards[i].elementId
  }

  lemma WellKeyedCards(cards: seq<Card>)
    requires ColonFreeIds(cards)
    ensures WellKeyed(CardMap(cards))
  {
    CardIdsSpec(cards);
    forall k | k in CardMap(cards)
      ensures ':' !in k
    {
      assert k in CardIds(cards);
      var i :| 0 <= i < |cards| && cards[i].elementId == k;
    }
  }

  /** With the intended cleanup, a listing that leaves the results and
      comes back in a later pass gets its shield again. */
  lemma ReAddedRendered(processed: set<string>, lastKnown: seq<string>,
                        cards1: seq<Card>, cards2: seq<Card>, origin: string, id: string)
    requires ColonFreeIds(cards1) && ColonFreeIds(cards2)
    requires id in lastKnown && id !in CardIds(cards1)
    requires id in CardMap(cards2) && CardMap(cards2)[id].link.Some?
    ensures var first := SearchPass(Corrected, processed, lastKnown, cards1, origin);
      id in SearchPass(Corrected, first.processed, CardIds(cards1), cards2, origin).rendered
  {
    var ids1, ids2 := CardIds(cards1), CardIds(cards2);
    CardIdsSpec(cards1);
    CardIdsSpec(cards2);
    WellKeyedCards(cards1);
    WellKeyedCards(cards2);
    assert ':' !in id by {
      var i :| 0 <= i < |cards2| && cards2[i].elementId == id;
    }
    // First pass: the id is removed, so its keys go; no added id is it.
    AbsentIff(lastKnown, ids1, id);
    CleanupAllClears(processed, Absent(lastKnown, ids1), id);
    var cleaned1 := CleanupAll(Corrected, processed, Absent(lastKnown, ids1));
    AbsentIff(ids1, lastKnown, id);
    AddBadgesKeepsOthersClear(cleaned1, Absent(ids1, lastKnown), CardMap(cards1), origin, id);
    var first := SearchPass(Corrected, processed, lastKnown, cards1, origin);
    // Second pass: the id is added and nothing recorded for it remains.
    var cleaned2 := CleanupAll(Corrected, first.processed, Absent(ids1, ids2));
    var added2 := Absent(ids2, ids1);
    AbsentIff(ids2, ids1, id);
    AbsentNoDup(ids2, ids1);
    AddBadgesRenders(cleaned2, added2, CardMap(cards2), origin, IndexIn(added2, id));
  }

  /** The script's cleanup loses that. A listing whose card links to
      `link` (say ".../inmueble/123/") is shown on the search page `page`,
      leaves the results, and comes back: its badge key survives the first
      pass and the second pass never starts its shield again. */
  lemma ReAddedSkippedAsWritten(processed: set<string>, id: string, link: string, page: string, origin: string)
    requires id != "" && link != page && (link == "" || link[0] != '/')
    requires ListingKey(id, link, "badge") in processed
    ensures var first := SearchPass(AsWritten(page), processed, [id], [], origin);
      var second := SearchPass(AsWritten(page), first.processed, [], [Card(id, Some(link))], origin);
      ListingKey(id, link, "badge") in first.processed && second.rendered == []
  {
    var first := SearchPass(AsWritten(page), processed, [id], [], origin);
    FirstPassAsWritten(processed, id, link, page, origin);
    SecondPassSkips(first.processed, id, link, page, origin);
  }

  /** The pass in which the listing disappears keeps its link key. */
  lemma FirstPassAsWritten(processed: set<string>, id: string, link: string, page: string, origin: string)
    requires link != page && ListingKey(id, link, "badge") in processed
    ensures ListingKey(id, link, "badge") in SearchPass(AsWritten(page), processed, [id], [], origin).processed
  {
    assert CardIds([]) == [];
    assert Absent([id], []) == [id] by {
      assert [id][..0] == [];
    }
    assert Absent([], [id]) == [];
    assert CleanupAll(AsWritten(page), processed, [id]) == CleanupAsWritten(processed, id, page) by {
      assert [id][..0] == [];
    }
    AsWrittenKeepsLinkKey(processed, id, link, page);
  }

  /** The pass in which it comes back finds its key and starts nothing. */
  lemma SecondPassSkips(processed: set<string>, id: string, link: string, page: string, origin: string)
    requires id != "" && (link == "" || link[0] != '/')
    requires ListingKey(id, link, "badge") in processed
    ensures SearchPass(AsWritten(page), processed, [], [Card(id, Some(link))], origin).rendered == []
  {
    var card := Card(id, Some(link));
    assert CardIds([card]) == [id] by {
      assert [card][..0] == [];
    }
    assert CardMap([card]) == map[id := card] by {
      assert [card][..0] == [];
    }
    assert Absent([], [id]) == [];
    assert Absent([id], []) == [id] by {
      assert [id][..0] == [];
    }
    assert CardUrl(card, origin) == Some(link);
    assert AddBadges(processed, [id], map[id := card], origin).rendered == [] by {
      assert [id][..0] == [];
    }
  }

  // ---------------------------------------------------------------------
  // clearProcessedListingsForUrl
  // ---------------------------------------------------------------------

  /** The keys that survive `clearProcessedListingsForUrl(url)`. */
  function ClearedFor(processed: set<string>, url: string): (r: set<string>)
    ensures r <= processed
  {
    set k | k in processed && !Contains(k, url)
  }

  /** Every listing key recorded for `url`, whatever the id and variant,
      is cleared; keys that do not contain `url` all stay. */
  lemma ClearRemovesUrlKeys(processed: set<string>, url: string, id: string, variant: string)
    ensures ListingKey(id, url, variant) !in ClearedFor(processed, url)
    ensures forall k :: k in processed && !Contains(k, url) ==> k in ClearedFor(processed, url)
  {
    assert ListingKey(id, url, variant) == (id + ":") + url + (":" + variant);
    ContainsInfix(id + ":", url, ":" + variant);
  }

  // ---------------------------------------------------------------------
  // The script's state
  // ---------------------------------------------------------------------

  class ContentScript {
    /** `pageType`: null until the first detection. */
    var pageType: Option<PageType>
    /** `processedListings`. */
    var processedListings: set<string>
    /** The keys of `lastKnownListings`, in insertion order. */
    var lastKnownListings: seq<string>
    /** `currentUrl`. */
    var currentUrl: string

    /** The state when the script loads on the page at `href`. */
    constructor(href: string)
      ensures pageType == None && processedListings == {} && lastKnownListings == [] && currentUrl == href
    {
      pageType := None;
      processedListings := {};
      lastKnownListings := [];
      currentUrl := href;
    }

    /** `processListing(listingData, componentVariant)`: returns whether it
        went on to render; the key is recorded before any rendering. */
    method ProcessListing(listing: Option<ListingRef>, variant: string) returns (started: bool)
      modifies this
      ensures started == Starts(old(processedListings), listing, variant)
      ensures processedListings == AfterProcess(old(processedListings), listing, variant)
      ensures pageType == old(pageType) && lastKnownListings == old(lastKnownListings)
      ensures currentUrl == old(currentUrl)
    {
      if listing.None? {
        return false;
      }
      var l := listing.value;
      if l.id.None? || l.id.value == "" {
        return false;
      }
      if !l.hasElement {
        return false;
      }
      var listingKey := ListingKey(l.id.value, l.url, variant);
      if listingKey in processedListings {
        return false;
      }
      processedListings := processedListings + {listingKey};
      started := true;
    }

    /** `processListingPage` on the page at `href`: the id comes from the
        URL and the element is the document body. */
    method ProcessListingPage(href: string) returns (started: bool)
      modifies this
      ensures var id := ListingIdFromUrl(href);
        processedListings == if id.Some? then old(processedListings) + {ListingKey(id.value, href, "badge")}
                             else old(processedListings)
      ensures started <==> ListingIdFromUrl(href).Some? && ListingKey(ListingIdFromUrl(href).value, href, "badge") !in old(processedListings)
      ensures pageType == old(pageType) && lastKnownListings == old(lastKnownListings)
      ensures currentUrl == old(currentUrl)
    {
      var id := ListingIdFromUrl(href);
      ListingIdSound(href, 0);
      var listing := if id.Some? then Some(ListingRef(id, href, true)) else None;
      started := ProcessListing(listing, "badge");
    }

    /** `cleanupListingTrustShield(listingId)`, removing every shield key of
        the listing. */
    method CleanupListingTrustShield(id: string)
      modifies this
      ensures processedListings == CleanupListing(old(processedListings), id)
      ensures pageType == old(pageType) && lastKnownListings == old(lastKnownListings)
      ensures currentUrl == old(currentUrl)
    {
      processedListings := set k | k in processedListings && !IsShieldKeyOf(k, id);
    }

    /** `processSearchPageListings` on the page's cards: cleans up the
        removed listings, starts the added ones and remembers the new ids. */
    method ProcessSearchPageListings(cards: seq<Card>, origin: string) returns (rendered: seq<string>)
      modifies this
      ensures SearchOutcome(processedListings, rendered)
           == SearchPass(Corrected, old(processedListings), old(lastKnownListings), cards, origin)
      ensures lastKnownListings == CardIds(cards)
      ensures pageType == old(pageType) && currentUrl == old(currentUrl)
    {
      var ids, elements := BuildCurrentListings(cards);
      var changes := DetectListingChanges(lastKnownListings, ids);
      CleanupRemoved(changes.removed);
      rendered := StartAdded(changes.added, elements, origin);
      lastKnownListings := ids;
    }

    /** The `changes.removed.forEach(cleanupListingTrustShield)` step. */
    method CleanupRemoved(removed: seq<string>)
      modifies this
      ensures processedListings == CleanupAll(Corrected, old(processedListings), removed)
      ensures pageType == old(pageType) && lastKnownListings == old(lastKnownListings)
      ensures currentUrl == old(currentUrl)
    {
      for i := 0 to |removed|
        invariant processedListings == CleanupAll(Corrected, old(processedListings), removed[..i])
        invariant lastKnownListings == old(lastKnownListings)
        invariant pageType == old(pageType) && currentUrl == old(currentUrl)
      {
        assert removed[..i + 1][..i] == removed[..i];
        CleanupListingTrustShield(removed[i]);
      }
      assert removed[..|removed|] == removed;
    }

    /** The `changes.added.forEach` step: records each added listing's badge
        key and starts its shield unless the key is already there. */
    method StartAdded(added: seq<string>, elements: map<string, Card>, origin: string)
      returns (rendered: seq<string>)
      modifies this
      ensures SearchOutcome(processedListings, rendered) == AddBadges(old(processedListings), added, elements, origin)
      ensures pageType == old(pageType) && lastKnownListings == old(lastKnownListings)
      ensures currentUrl == old(currentUrl)
    {
      rendered := [];
      for i := 0 to |added|
        invariant SearchOutcome(processedListings, rendered) == AddBadges(old(processedListings), added[..i], elements, origin)
        invariant lastKnownListings == old(lastKnownListings)
        invariant pageType == old(pageType) && currentUrl == old(currentUrl)
      {
        assert added[..i + 1][..i] == added[..i];
        var listingId := added[i];
        if listingId in elements {
          var listingUrl := CardUrl(elements[listingId], origin);
          if listingUrl.Some? {
            var listingKey := ListingKey(elements[listingId].elementId, listingUrl.value, "badge");
            if listingKey !in processedListings {
              processedListings := processedListings + {listingKey};
              rendered := rendered + [listingId];
            }
          }
        }
      }
      assert added[..|added|] == added;
    }

    /** `clearProcessedListingsForUrl(url)`: collects the keys containing
        `url`, then deletes them. */
    method ClearProcessedListingsForUrl(url: string)
      modifies this
      ensures processedListings == ClearedFor(old(processedListings), url)
      ensures pageType == old(pageType) && lastKnownListings == old(lastKnownListings)
      ensures currentUrl == old(currentUrl)
    {
      var keysToRemove: set<string> := {};
      var rest := processedListings;
      while rest != {}
        invariant rest <= processedListings
        invariant keysToRemove == set k | k in processedListings - rest && Contains(k, url)
        decreases |rest|
      {
        var key :| key in rest;
        if Contains(key, url) {
          keysToRemove := keysToRemove + {key};
        }
        rest := rest - {key};
      }
      processedListings := processedListings - keysToRemove;
    }

    /** `handleNavigation` at the URL `href`: when the detected page type
        differs from the current one, forgets every processed key and known
        listing and records the new type and URL. */
    method HandleNavigation(href: string)
      modifies this
      ensures var newType := DetectPageType(href);
        if old(pageType) != Some(newType) then
          pageType == Some(newType) && processedListings == {} && lastKnownListings == []
          && currentUrl == href
        else
          pageType == old(pageType) && processedListings == old(processedListings)
          && lastKnownListings == old(lastKnownListings) && currentUrl == old(currentUrl)
    {
      var newPageType := DetectPageType(href);
      if pageType != Some(newPageType) {
        processedListings := {};
        lastKnownListings := [];
        pageType := Some(newPageType);
        currentUrl := href;
      }
    }
  }
}
