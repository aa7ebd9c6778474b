/** The search page's listing bookkeeping: the map from listing id to card
    element that `processSearchPageListings` builds from the page, and the
    three-way diff `detectListingChanges` takes between the previous map
    and the new one. A JavaScript `Map` is modelled by its keys in
    insertion order plus a Dafny `map` for the values. */
module ListingChanges {
  import opened Wrappers

  /** No id occurs twice: the keys of a `Map`. */
  predicate NoDup(s: seq<string>)
  {
    forall i, j :: 0 <= i < j < |s| ==> s[i] != s[j]
  }

  // ---------------------------------------------------------------------
  // detectListingChanges
  // ---------------------------------------------------------------------

  /** The ids of `xs` absent from `ys`, in the order of `xs`. */
  function Absent(xs: seq<string>, ys: seq<string>): (r: seq<string>)
    ensures |r| <= |xs|
  {
    if xs == [] then []
    else Absent(xs[..|xs| - 1], ys) + (if xs[|xs| - 1] in ys then [] else [xs[|xs| - 1]])
  }

  /** The ids of `xs` present in `ys`, in the order of `xs`. */
  function Present(xs: seq<string>, ys: seq<string>): (r: seq<string>)
    ensures |r| <= |xs|
  {
    if xs == [] then []
    else Present(xs[..|xs| - 1], ys) + (if xs[|xs| - 1] in ys then [xs[|xs| - 1]] else [])
  }

  /** The `{ added, removed, persistent }` object. */
  datatype Changes = Changes(added: seq<string>, removed: seq<string>, persistent: seq<string>)

  /** `detectListingChanges(oldListings, newListings)` on the two maps'
      keys: one pass over the old keys collects the removed ones, one pass
      over the new keys splits them into persistent and added. */
  method DetectListingChanges(oldIds: seq<string>, newIds: seq<string>) returns (c: Changes)
    ensures c.removed == Absent(oldIds, newIds)
    ensures c.persistent == Present(newIds, oldIds)
    ensures c.added == Absent(newIds, oldIds)
  {
    var added, removed, persistent := [], [], [];
    for i := 0 to |oldIds|
      invariant removed == Absent(oldIds[..i], newIds)
    {
      assert oldIds[..i + 1][..i] == oldIds[..i];
      if oldIds[i] !in newIds {
        removed := removed + [oldIds[i]];
      }
    }
    assert oldIds[..|oldIds|] == oldIds;
    for i := 0 to |newIds|
      invariant persistent == Present(newIds[..i], oldIds)
      invariant added == Absent(newIds[..i], oldIds)
    {
      assert newIds[..i + 1][..i] == newIds[..i];
      if newIds[i] in oldIds {
        persistent := persistent + [newIds[i]];
      } else {
        added := added + [newIds[i]];
      }
    }
    assert newIds[..|newIds|] == newIds;
    c := Changes(added, removed, persistent);
  }

  /** An id is in `Absent(xs, ys)` iff it is in `xs` and not in `ys`. */
  lemma {:induction false} AbsentIff(xs: seq<string>, ys: seq<string>, x: string)
    ensures x in Absent(xs, ys) <==> x in xs && x !in ys
  {
    if xs != [] {
      AbsentIff(xs[..|xs| - 1], ys, x);
      assert xs == xs[..|xs| - 1] + [xs[|xs| - 1]];
    }
  }

  /** An id is in `Present(xs, ys)` iff it is in both. */
  lemma {:induction false} PresentIff(xs: seq<string>, ys: seq<string>, x: string)
    ensures x in Present(xs, ys) <==> x in xs && x in ys
  {
    if xs != [] {
      PresentIff(xs[..|xs| - 1], ys, x);
      assert xs == xs[..|xs| - 1] + [xs[|xs| - 1]];
    }
  }

  /** `Absent` and `Present` split `xs`: together they hold each of its ids
      exactly as often as `xs` does. */
  lemma {:induction false} Partition(xs: seq<string>, ys: seq<string>)
    ensures multiset(Absent(xs, ys)) + multiset(Present(xs, ys)) == multiset(xs)
    ensures |Absent(xs, ys)| + |Present(xs, ys)| == |xs|
  {
    if xs != [] {
      var init, x := xs[..|xs| - 1], xs[|xs| - 1];
      Partition(init, ys);
      assert xs == init + [x];
      assert multiset(xs) == multiset(init) + multiset{x};
      if x in ys {
        assert Present(xs, ys) == Present(init, ys) + [x];
        assert multiset(Present(xs, ys)) == multiset(Present(init, ys)) + multiset{x};
      } else {
        assert Absent(xs, ys) == Absent(init, ys) + [x];
        assert multiset(Absent(xs, ys)) == multiset(Absent(init, ys)) + multiset{x};
      }
    }
  }

  /** Filtering keeps the ids distinct. */
  lemma {:induction false} AbsentNoDup(xs: seq<string>, ys: seq<string>)
    requires NoDup(xs)
    ensures NoDup(Absent(xs, ys))
  {
    if xs != [] {
      var init := xs[..|xs| - 1];
      AbsentNoDup(init, ys);
      AbsentIff(init, ys, xs[|xs| - 1]);
    }
  }

  lemma {:induction false} PresentNoDup(xs: seq<string>, ys: seq<string>)
    requires NoDup(xs)
    ensures NoDup(Present(xs, ys))
  {
    if xs != [] {
      var init := xs[..|xs| - 1];
      PresentNoDup(init, ys);
      PresentIff(init, ys, xs[|xs| - 1]);
    }
  }

  /** What the diff promises: `removed` is exactly the old ids missing from
      the new map; `persistent` exactly the new ids also in the old map;
      `added` exactly the new ids not in the old map; `added` and
      `persistent` partition the new ids and share none. */
  lemma ChangesSpec(oldIds: seq<string>, newIds: seq<string>, x: string)
    ensures x in Absent(oldIds, newIds) <==> x in oldIds && x !in newIds
    ensures x in Present(newIds, oldIds) <==> x in newIds && x in oldIds
    ensures x in Absent(newIds, oldIds) <==> x in newIds && x !in oldIds
    ensures multiset(Absent(newIds, oldIds)) + multiset(Present(newIds, oldIds)) == multiset(newIds)
    ensures !(x in Absent(newIds, oldIds) && x in Present(newIds, oldIds))
  {
    AbsentIff(oldIds, newIds, x);
    PresentIff(newIds, oldIds, x);
    AbsentIff(newIds, oldIds, x);
    Partition(newIds, oldIds);
  }

  // ---------------------------------------------------------------------
  // The current listings map
  // ---------------------------------------------------------------------

  /** What the model needs of an `article.item` card: its
      `data-element-id` ("" when absent) and the `href` of its
      `a.item-link`, if it has one. */
  datatype Card = Card(elementId: string, link: Option<string>)

  /** `Map.set` on the key order: a new key goes last, an existing one
      keeps its place. */
  function InsertKey(keys: seq<string>, k: string): seq<string>
  {
    if k in keys then keys else keys + [k]
  }

  /** The key order of the map built from `cards`: cards without an id are
      skipped. */
  function CardIds(cards: seq<Card>): (ids: seq<string>)
  {
    if cards == [] then []
    else
      var last := cards[|cards| - 1];
      var ids := CardIds(cards[..|cards| - 1]);
      if last.elementId == "" then ids else InsertKey(ids, last.elementId)
  }

  /** The values of the map built from `cards`: a later card with the same
      id replaces an earlier one. */
  function CardMap(cards: seq<Card>): (m: map<string, Card>)
    ensures "" !in m
    ensures forall k :: k in m ==> m[k].elementId == k
  {
    if cards == [] then map[]
    else
      var last := cards[|cards| - 1];
      var m := CardMap(cards[..|cards| - 1]);
      if last.elementId == "" then m else m[last.elementId := last]
  }

  /** The loop of `processSearchPageListings` that fills `currentListings`. */
  method BuildCurrentListings(cards: seq<Card>) returns (ids: seq<string>, elements: map<string, Card>)
    ensures ids == CardIds(cards) && elements == CardMap(cards)
  {
    ids, elements := [], map[];
    for i := 0 to |cards|
      invariant ids == CardIds(cards[..i]) && elements == CardMap(cards[..i])
    {
      assert cards[..i + 1][..i] == cards[..i];
      var listingId := cards[i].elementId;
      if listingId != "" {
        if listingId !in ids {
          ids := ids + [listingId];
        }
        elements := elements[listingId := cards[i]];
      }
    }
    assert cards[..|cards|] == cards;
  }

  /** The map's keys are the non-empty ids on the page, each once, and
      they are exactly the ids the value map is defined on. */
  lemma {:induction false} CardIdsSpec(cards: seq<Card>)
    ensures NoDup(CardIds(cards))
    ensures forall id :: id in CardIds(cards) <==> id in CardMap(cards)
    ensures forall id :: id in CardIds(cards) <==> id != "" && exists i :: 0 <= i < |cards| && cards[i].elementId == id
  {
    if cards != [] {
      var init := cards[..|cards| - 1];
      CardIdsSpec(init);
      forall id | id != "" && (exists i :: 0 <= i < |cards| && cards[i].elementId == id)
        ensures id in CardIds(cards)
      {
        var i :| 0 <= i < |cards| && cards[i].elementId == id;
        if i < |cards| - 1 {
          assert init[i].elementId == id;
        }
      }
      forall id | id in CardIds(cards)
        ensures id != "" && exists i :: 0 <= i < |cards| && cards[i].elementId == id
      {
        if id in CardIds(init) {
          var i :| 0 <= i < |init| && init[i].elementId == id;
          assert cards[i].elementId == id;
        } else {
          assert cards[|cards| - 1].elementId == id;
        }
      }
    }
  }

  /** The element stored for an id is the LAST card carrying that id. */
  lemma {:induction false} CardMapLast(cards: seq<Card>, id: string)
    requires id in CardMap(cards)
    ensures exists i ::
              0 <= i < |cards| && cards[i] == CardMap(cards)[id] && cards[i].elementId == id
              && (forall j :: i < j < |cards| ==> cards[j].elementId != id)
  {
    assert cards != [];
    var init := cards[..|cards| - 1];
    var last := cards[|cards| - 1];
    if last.elementId == id {
      assert CardMap(cards) == CardMap(init)[id := last];
    } else {
      CardMapLast(init, id);
      var i :| 0 <= i < |init| && init[i] == CardMap(init)[id] && init[i].elementId == id
        && (forall j :: i < j < |init| ==> init[j].elementId != id);
      assert cards[i] == CardMap(cards)[id];
      assert forall j :: i < j < |cards| ==> cards[j].elementId != id by {
        forall j | i < j < |cards| ensures cards[j].elementId != id {
          if j < |init| { assert cards[j] == init[j]; }
        }
      }
    }
  }
}
