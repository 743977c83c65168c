/** The boundaries of a catch-up that starts while the regions' clock is at zero. At zero a population revision
    is applied although receipts and offers of the same instant still wait; this is the order one run would
    choose exactly when those receipts and offers were journaled after the revision. */
module DemandTimeZero {
  import opened DemandOfferHistory
  import opened DemandRuns
  import opened DemandSplit
  import opened Sorting

  // ------------------------------------------------------------------ items

  predicate UpdateAtZero(item: Item) { item.event.Updated? && item.atMs == 0 }

  predicate AnyOther(item: Item) { !UpdateAtZero(item) }

  /** A receipt or an offer of time zero that is journaled before, or with, a revision of time zero. */
  ghost predicate Overtaken(items: seq<Item>, a: Item, p: Item) {
    a in items && p in items && a.atMs == 0 && !a.event.Updated? && UpdateAtZero(p) && a.sequence <= p.sequence
  }

  /** Receipts and offers in front, population revisions behind them. */
  ghost predicate KindsApart(front: seq<Item>, back: seq<Item>) {
    (forall x :: x in front ==> !x.event.Updated?) && (forall x :: x in back ==> x.event.Updated?)
  }

  /** The boundaries with the revisions of time zero first. */
  function UpdatesFirst(items: seq<Item>): seq<Boundary> {
    Group(Sort(Filter(items, UpdateAtZero), ItemAtMost)) + Group(Sort(Filter(items, AnyOther), ItemAtMost))
  }

  lemma UpdatesGroupAlone(a: seq<Item>, b: seq<Item>)
    requires forall x :: x in a ==> UpdateAtZero(x)
    ensures Group(a + b) == Group(a) + Group(b)
  {
    if a != [] {
      assert a[|a| - 1] in a;
      assert a[..|a| - 1] + [a[|a| - 1]] == a;
    }
    GroupJoins(a, b);
  }

  /** Applying the revisions of time zero first changes nothing when nothing is overtaken. */
  lemma InSequenceAgrees(items: seq<Item>)
    requires forall a, p :: !Overtaken(items, a, p)
    ensures Group(Sort(items, ItemAtMost)) == UpdatesFirst(items)
  {
    forall p, a | p in items && a in items && UpdateAtZero(p) && AnyOther(a)
      ensures ItemAtMost(p, a) && !ItemAtMost(a, p)
    {
      assert !Overtaken(items, a, p);
    }
    assert Separates(items, UpdateAtZero, AnyOther, ItemAtMost);
    SortSplits(items, UpdateAtZero, AnyOther, ItemAtMost);
    var zero := Sort(Filter(items, UpdateAtZero), ItemAtMost);
    SortPermutes(Filter(items, UpdateAtZero), ItemAtMost);
    FilterMembers(items, UpdateAtZero);
    UpdatesGroupAlone(zero, Sort(Filter(items, AnyOther), ItemAtMost));
  }

  /** The first `n` items are the revisions of time zero. */
  ghost predicate BeginsWithUpdates(items: seq<Item>, n: nat) {
    && n <= |items|
    && (forall i :: 0 <= i < n ==> UpdateAtZero(items[i])) && (forall i :: n <= i < |items| ==> AnyOther(items[i]))
  }

  lemma StrippedAlike(items: seq<Item>, zero: seq<Item>, rest: seq<Item>)
    requires Strip(items) == Strip(zero) + Strip(rest)
    requires (forall x :: x in zero ==> UpdateAtZero(x)) && (forall x :: x in rest ==> AnyOther(x))
    ensures BeginsWithUpdates(items, |zero|)
  {
    forall i | 0 <= i < |items|
      ensures UpdateAtZero(items[i]) <==> i < |zero|
    {
      assert Strip(items)[i] == Happening(items[i].atMs, items[i].event);
      if i < |zero| {
        assert zero[i] in zero;
      } else {
        assert rest[i - |zero|] in rest;
      }
    }
  }

  lemma SortedPart(items: seq<Item>, keep: Item -> bool)
    ensures forall x :: x in Sort(Filter(items, keep), ItemAtMost) ==> keep(x)
    ensures |Sort(Filter(items, keep), ItemAtMost)| == |Filter(items, keep)|
  {
    SortPermutes(Filter(items, keep), ItemAtMost);
    FilterMembers(items, keep);
  }

  /** When the boundaries agree, the sorted items begin with the revisions of time zero. */
  lemma AgreementSorts(items: seq<Item>)
    requires Group(Sort(items, ItemAtMost)) == UpdatesFirst(items)
    ensures BeginsWithUpdates(Sort(items, ItemAtMost), |Filter(items, UpdateAtZero)|)
  {
    var zero, rest := Sort(Filter(items, UpdateAtZero), ItemAtMost), Sort(Filter(items, AnyOther), ItemAtMost);
    GroupKeepsEverything(Sort(items, ItemAtMost));
    GroupKeepsEverything(zero);
    GroupKeepsEverything(rest);
    FlattenJoins(Group(zero), Group(rest));
    SortedPart(items, UpdateAtZero);
    SortedPart(items, AnyOther);
    StrippedAlike(Sort(items, ItemAtMost), zero, rest);
  }

  predicate IsEither(x: Item, a: Item, p: Item) { x == a || x == p }

  function Either(a: Item, p: Item): Item -> bool { (x: Item) => IsEither(x, a, p) }

  /** Sorting is stable: of two items that may stand in either order the earlier one stays in front. */
  lemma FirstOfEither(front: seq<Item>, back: seq<Item>, a: Item, p: Item)
    requires KindsApart(front, back) && Overtaken(front + back, a, p)
    ensures var chosen := Filter(Sort(front + back, ItemAtMost), Either(a, p)); chosen != [] && chosen[0] == a
  {
    ItemOrder();
    SortFilters(front + back, Either(a, p), ItemAtMost);
    var x, y := Filter(front, Either(a, p)), Filter(back, Either(a, p));
    FilterAppend(front, back, Either(a, p));
    EitherParts(front, back, a, p);
    OnlyOne(x, a);
    OnlyOne(y, p);
    SortOfSorted(x + y, ItemAtMost);
  }

  lemma EitherParts(front: seq<Item>, back: seq<Item>, a: Item, p: Item)
    requires KindsApart(front, back) && Overtaken(front + back, a, p)
    ensures a in Filter(front, Either(a, p)) && (forall x :: x in Filter(front, Either(a, p)) ==> x == a)
    ensures forall x :: x in Filter(back, Either(a, p)) ==> x == p
  {
    FilterMembers(front, Either(a, p));
    FilterMembers(back, Either(a, p));
  }

  lemma OnlyOne(items: seq<Item>, item: Item)
    requires forall x :: x in items ==> x == item
    ensures forall i :: 0 <= i < |items| ==> items[i] == item
  {
    forall i | 0 <= i < |items|
      ensures items[i] == item
    {
      assert items[i] in items;
    }
  }

  lemma FirstKept(s: seq<Item>, n: nat, keep: Item -> bool, p: Item)
    requires n <= |s| && p in s[..n] && keep(p)
    ensures Filter(s, keep) != [] && Filter(s, keep)[0] in s[..n]
  {
    assert s == s[..n] + s[n..];
    FilterAppend(s[..n], s[n..], keep);
    FilterMembers(s[..n], keep);
    FirstIsMember(Filter(s[..n], keep));
    assert p in Filter(s[..n], keep);
  }

  /** The boundaries with the revisions of time zero first are those of one sorting if and only if no receipt
      or offer of time zero is overtaken by a revision. */
  lemma UpdatesFirstAgrees(front: seq<Item>, back: seq<Item>)
    requires KindsApart(front, back)
    ensures Group(Sort(front + back, ItemAtMost)) == UpdatesFirst(front + back)
            <==> forall a, p :: !Overtaken(front + back, a, p)
  {
    var items := front + back;
    if forall a, p :: !Overtaken(items, a, p) {
      InSequenceAgrees(items);
    } else if Group(Sort(items, ItemAtMost)) == UpdatesFirst(items) {
      var a, p :| Overtaken(items, a, p);
      AgreementSorts(items);
      FirstOfEither(front, back, a, p);
      NotInFront(Sort(items, ItemAtMost), |Filter(items, UpdateAtZero)|, items, a, p);
    }
  }

  lemma NotInFront(sorted: seq<Item>, n: nat, items: seq<Item>, a: Item, p: Item)
    requires sorted == Sort(items, ItemAtMost) && BeginsWithUpdates(sorted, n) && Overtaken(items, a, p)
    ensures Filter(sorted, Either(a, p)) != [] && Filter(sorted, Either(a, p))[0] != a
  {
    SortPermutes(items, ItemAtMost);
    var k :| 0 <= k < |sorted| && sorted[k] == p;
    assert sorted[..n][k] == p;
    FirstKept(sorted, n, Either(a, p), p);
  }

  // ------------------------------------------------------------------ receipts, offers and revisions

  /** Every receipt and every offer of time zero was journaled after each of the revisions. */
  ghost predicate NothingOvertaken(receipts: seq<Numbered>, offers: seq<OfferRevision>, updates: seq<PopulationEvent>) {
    && (forall u, r :: u in updates && r in receipts && r.receipt.actualTimeMs == 0
          ==> u.worldSequence < r.worldSequence)
    && (forall u, o :: u in updates && o in offers && o.effectiveAtMs == 0 ==> u.worldSequence < o.worldSequence)
  }

  lemma ZeroUpdates(receipts: seq<Numbered>, offers: seq<OfferRevision>, updates: seq<PopulationEvent>)
    ensures Filter(Items(receipts, offers, 0, updates), UpdateAtZero)
            == Items([], [], 0, Filter(updates, UpdatesUntil(0)))
  {
    var a, b, c := ReceiptItems(receipts, 0), OfferItems(offers, 0), PopulationItems(updates, 0);
    KindOfJoined(a, b, c, UpdateAtZero);
    FilterNone(a, UpdateAtZero);
    FilterNone(b, UpdateAtZero);
    PopulationItemsAreMapped(updates, 0);
    PopulationItemsAreMapped(Filter(updates, UpdatesUntil(0)), 0);
    FilterMapped(updates, PopulationItem(0), UpdateAtZero, UpdatesUntil(0));
  }

  lemma OtherItems(receipts: seq<Numbered>, offers: seq<OfferRevision>, updates: seq<PopulationEvent>)
    ensures Filter(Items(receipts, offers, 0, updates), AnyOther)
            == Items(receipts, offers, 0, Filter(updates, UpdatesPast(0)))
  {
    var a, b, c := ReceiptItems(receipts, 0), OfferItems(offers, 0), PopulationItems(updates, 0);
    KindOfJoined(a, b, c, AnyOther);
    FilterAll(a, AnyOther);
    FilterAll(b, AnyOther);
    PopulationItemsAreMapped(updates, 0);
    PopulationItemsAreMapped(Filter(updates, UpdatesPast(0)), 0);
    FilterMapped(updates, PopulationItem(0), AnyOther, UpdatesPast(0));
  }

  lemma ItemsOvertaken(receipts: seq<Numbered>, offers: seq<OfferRevision>, updates: seq<PopulationEvent>)
    ensures (forall a, p :: !Overtaken(Items(receipts, offers, 0, updates), a, p))
            <==> NothingOvertaken(receipts, offers, Filter(updates, UpdatesUntil(0)))
  {
    var items, first := Items(receipts, offers, 0, updates), Filter(updates, UpdatesUntil(0));
    FilterMembers(updates, UpdatesUntil(0));
    if NothingOvertaken(receipts, offers, first) {
      forall a, p
        ensures !Overtaken(items, a, p)
      {
        if Overtaken(items, a, p) {
          OvertakenParts(receipts, offers, updates, a, p);
        }
      }
    } else if u, r :| u in first && r in receipts && r.receipt.actualTimeMs == 0 && r.worldSequence <= u.worldSequence {
      var i :| 0 <= i < |receipts| && receipts[i] == r;
      assert ReceiptItems(receipts, 0)[i] in items && UpdateItem(u) in items by {
        UpdateIsItem(receipts, offers, updates, u);
      }
      assert Overtaken(items, ReceiptItems(receipts, 0)[i], UpdateItem(u));
    } else {
      var u, o :| u in first && o in offers && o.effectiveAtMs == 0 && o.worldSequence <= u.worldSequence;
      var i :| 0 <= i < |offers| && offers[i] == o;
      assert OfferItems(offers, 0)[i] in items && UpdateItem(u) in items by {
        UpdateIsItem(receipts, offers, updates, u);
      }
      assert Overtaken(items, OfferItems(offers, 0)[i], UpdateItem(u));
    }
  }

  function UpdateItem(u: PopulationEvent): Item { Item(u.snapshot.effectiveAtMs, u.worldSequence, Updated(u)) }

  lemma UpdateIsItem(receipts: seq<Numbered>, offers: seq<OfferRevision>, updates: seq<PopulationEvent>,
                     u: PopulationEvent)
    requires u in updates
    ensures UpdateItem(u) in Items(receipts, offers, 0, updates)
  {
    var i :| 0 <= i < |updates| && updates[i] == u;
    assert PopulationItems(updates, 0)[i] == UpdateItem(u);
  }

  /** Overtaken items come from a receipt or an offer and a revision of time zero. */
  lemma OvertakenParts(receipts: seq<Numbered>, offers: seq<OfferRevision>, updates: seq<PopulationEvent>, a: Item,
                       p: Item)
    requires Overtaken(Items(receipts, offers, 0, updates), a, p)
    ensures p.event.Updated? && p.event.population in Filter(updates, UpdatesUntil(0))
            && p == UpdateItem(p.event.population)
    ensures (exists r :: r in receipts && r.receipt.actualTimeMs == 0 && r.worldSequence == a.sequence)
            || (exists o :: o in offers && o.effectiveAtMs == 0 && o.worldSequence == a.sequence)
  {
    FilterMembers(updates, UpdatesUntil(0));
    var x, y, z := ReceiptItems(receipts, 0), OfferItems(offers, 0), PopulationItems(updates, 0);
    assert p in z;
    var k :| 0 <= k < |z| && z[k] == p;
    assert updates[k] in updates;
    if a in x {
      var i :| 0 <= i < |x| && x[i] == a;
      assert receipts[i] in receipts;
    } else {
      var i :| 0 <= i < |y| && y[i] == a;
      assert offers[i] in offers;
    }
  }

  /** The boundaries of a step at time zero, which applies the revisions only, and of the step after it are
      those of one step if and only if nothing is overtaken. */
  lemma BoundariesFromZero(receipts: seq<Numbered>, offers: seq<OfferRevision>, updates: seq<PopulationEvent>)
    ensures Boundaries(receipts, offers, 0, updates)
            == Boundaries([], [], 0, Filter(updates, UpdatesUntil(0)))
                + Boundaries(receipts, offers, 0, Filter(updates, UpdatesPast(0)))
            <==> NothingOvertaken(receipts, offers, Filter(updates, UpdatesUntil(0)))
  {
    var front, back := ReceiptItems(receipts, 0) + OfferItems(offers, 0), PopulationItems(updates, 0);
    assert KindsApart(front, back);
    UpdatesFirstAgrees(front, back);
    ZeroUpdates(receipts, offers, updates);
    OtherItems(receipts, offers, updates);
    ItemsOvertaken(receipts, offers, updates);
  }
}
