/** The pieces of a catch-up in two steps, compared with one step: which offers, population revisions and
    receipts each step takes, and that their items split at the first step's time. */
module DemandSplit {
  import opened DemandJournal
  import opened DemandOfferHistory
  import opened DemandProgress
  import opened DemandReceipts
  import opened DemandRuns
  import opened DemandSafety
  import opened Outcomes
  import opened Sorting
  import opened TextOrder

  // ------------------------------------------------------------------ offers

  predicate OfferUpTo(offer: OfferRevision, w: int) { offer.effectiveAtMs <= w }

  function OffersUntil(w: int): OfferRevision -> bool { (offer: OfferRevision) => OfferUpTo(offer, w) }

  function OffersPast(w: int): OfferRevision -> bool { (offer: OfferRevision) => !OfferUpTo(offer, w) }

  /** Offers read after a step at `nowMs1`, none of which takes effect before it. */
  ghost predicate NotYetDue(offers: seq<OfferRevision>, nowMs1: nat) {
    forall i :: 0 <= i < |offers| ==> nowMs1 <= offers[i].effectiveAtMs
  }

  lemma OffersOfFirstStep(pending: seq<OfferRevision>, history: seq<OfferRevision>, tail: seq<OfferRevision>,
                          nowMs1: nat, nowMs2: nat)
    requires nowMs1 <= nowMs2 && NotYetDue(tail, nowMs1)
    ensures Filter(Filter(Sort(pending + (history + tail), OfferAtMost), DueOffers(nowMs2)), OffersUntil(nowMs1 - 1))
            == Filter(Sort(pending + history, OfferAtMost), DueOffers(nowMs1))
  {
    var all := Sort((pending + history) + tail, OfferAtMost);
    assert pending + (history + tail) == (pending + history) + tail;
    FilterTwice(all, DueOffers(nowMs2), OffersUntil(nowMs1 - 1));
    FilterSame(all, Both(DueOffers(nowMs2), OffersUntil(nowMs1 - 1)), DueOffers(nowMs1));
    OfferOrder();
    LeftOut(pending + history, tail, DueOffers(nowMs1), OfferAtMost);
  }

  lemma OffersOfSecondStep(pending: seq<OfferRevision>, history: seq<OfferRevision>, tail: seq<OfferRevision>,
                           nowMs1: nat, nowMs2: nat)
    requires nowMs1 <= nowMs2 && NotYetDue(tail, nowMs1)
    ensures var carried := Filter(Sort(pending + history, OfferAtMost), LaterOffers(nowMs1));
      Filter(Filter(Sort(pending + (history + tail), OfferAtMost), DueOffers(nowMs2)), OffersPast(nowMs1 - 1))
      == Filter(Sort(carried + tail, OfferAtMost), DueOffers(nowMs2))
  {
    var all := Sort((pending + history) + tail, OfferAtMost);
    assert pending + (history + tail) == (pending + history) + tail;
    FilterTwice(all, DueOffers(nowMs2), OffersPast(nowMs1 - 1));
    FilterSame(all, Both(DueOffers(nowMs2), OffersPast(nowMs1 - 1)), Both(LaterOffers(nowMs1), DueOffers(nowMs2)));
    OfferOrder();
    CarriedOver(pending + history, tail, LaterOffers(nowMs1), DueOffers(nowMs2), OfferAtMost);
  }

  lemma OffersLeftPending(pending: seq<OfferRevision>, history: seq<OfferRevision>, tail: seq<OfferRevision>,
                          nowMs1: nat, nowMs2: nat)
    requires nowMs1 <= nowMs2 && NotYetDue(tail, nowMs1)
    ensures var carried := Filter(Sort(pending + history, OfferAtMost), LaterOffers(nowMs1));
      Filter(Sort(pending + (history + tail), OfferAtMost), LaterOffers(nowMs2))
      == Filter(Sort(carried + tail, OfferAtMost), LaterOffers(nowMs2))
  {
    var all := Sort((pending + history) + tail, OfferAtMost);
    assert pending + (history + tail) == (pending + history) + tail;
    FilterSame(all, LaterOffers(nowMs2), Both(LaterOffers(nowMs1), LaterOffers(nowMs2)));
    OfferOrder();
    CarriedOver(pending + history, tail, LaterOffers(nowMs1), LaterOffers(nowMs2), OfferAtMost);
  }

  // ------------------------------------------------------------------ population revisions

  predicate RevisionPast(event: PopulationEvent, revision: nat) { event.snapshot.revision > revision }

  function RevisionsPast(revision: nat): PopulationEvent -> bool {
    (event: PopulationEvent) => RevisionPast(event, revision)
  }

  predicate UpdateUpTo(event: PopulationEvent, w: int) { event.snapshot.effectiveAtMs <= w }

  function UpdatesUntil(w: int): PopulationEvent -> bool { (event: PopulationEvent) => UpdateUpTo(event, w) }

  function UpdatesPast(w: int): PopulationEvent -> bool { (event: PopulationEvent) => !UpdateUpTo(event, w) }

  lemma {:induction false} PopulationsNarrow(journal: Journal, lower: nat, upper: nat)
    requires lower <= upper
    ensures PopulationsAfter(journal, upper) == Filter(PopulationsAfter(journal, lower), RevisionsPast(upper))
  {
    if journal != [] {
      var n := |journal| - 1;
      PopulationsNarrow(journal[..n], lower, upper);
      var entry := journal[n];
      var added := if entry.event.PopulationUpdated?
          && entry.event.snapshot.revision > lower then [PopulationEvent(entry.sequence, entry.event.snapshot)] else [];
      FilterAppend(PopulationsAfter(journal[..n], lower), added, RevisionsPast(upper));
    }
  }

  lemma {:induction false} RisePairs(events: seq<PopulationEvent>, i: nat, j: nat)
    requires PopulationsRise(events) && i < j < |events|
    ensures events[i].snapshot.revision < events[j].snapshot.revision
            && events[i].snapshot.effectiveAtMs <= events[j].snapshot.effectiveAtMs
    decreases j
  {
    if i < j - 1 {
      RisePairs(events, i, j - 1);
    }
    assert events[j - 1].snapshot.revision < events[j].snapshot.revision;
  }

  /** In a rising list the revisions past the last one due are the ones that take effect later. */
  lemma RevisionsFollowTimes(events: seq<PopulationEvent>, safeMs: nat, last: PopulationEvent, x: PopulationEvent)
    requires PopulationsRise(events) && x in events && last in events && last.snapshot.effectiveAtMs <= safeMs
    requires forall e :: e in events && e.snapshot.effectiveAtMs <= safeMs
               ==> e.snapshot.revision <= last.snapshot.revision
    ensures RevisionPast(x, last.snapshot.revision) <==> !UpdateUpTo(x, safeMs)
  {
    var i :| 0 <= i < |events| && events[i] == x;
    var k :| 0 <= k < |events| && events[k] == last;
    if i < k {
      RisePairs(events, i, k);
    } else if k < i {
      RisePairs(events, k, i);
    }
  }

  lemma LastDueIsHighest(events: seq<PopulationEvent>, safeMs: nat)
    requires PopulationsRise(events)
    ensures var due := Filter(events, DuePopulations(safeMs));
      due != [] ==> due[|due| - 1] in events && due[|due| - 1].snapshot.effectiveAtMs <= safeMs
                    && forall e :: e in events && e.snapshot.effectiveAtMs <= safeMs
                         ==> e.snapshot.revision <= due[|due| - 1].snapshot.revision
  {
    var due := Filter(events, DuePopulations(safeMs));
    FilterMembers(events, DuePopulations(safeMs));
    if due != [] {
      var last := due[|due| - 1];
      assert last in due;
      FilteredRise(events, DuePopulations(safeMs));
      forall e | e in events && e.snapshot.effectiveAtMs <= safeMs
        ensures e.snapshot.revision <= last.snapshot.revision
      {
        assert e in due;
        LastIsHighest(due, e);
      }
    }
  }

  lemma LastIsHighest(events: seq<PopulationEvent>, e: PopulationEvent)
    requires RevisionsAscend(events) && e in events
    ensures e.snapshot.revision <= events[|events| - 1].snapshot.revision
  {
    var i :| 0 <= i < |events| && events[i] == e;
    if i < |events| - 1 {
      assert RevisionBefore(events[i], events[|events| - 1]);
    }
  }

  predicate RevisionBefore(a: PopulationEvent, b: PopulationEvent) { a.snapshot.revision < b.snapshot.revision }

  ghost predicate RevisionsAscend(events: seq<PopulationEvent>) {
    forall i, j :: 0 <= i < j < |events| ==> RevisionBefore(events[i], events[j])
  }

  lemma FilteredRise(events: seq<PopulationEvent>, keep: PopulationEvent -> bool)
    requires PopulationsRise(events)
    ensures RevisionsAscend(Filter(events, keep))
  {
    forall i, j | 0 <= i < j < |events|
      ensures RevisionBefore(events[i], events[j])
    {
      RisePairs(events, i, j);
    }
    FilterAscends(events, keep);
  }

  lemma {:induction false} FilterAscends(events: seq<PopulationEvent>, keep: PopulationEvent -> bool)
    requires RevisionsAscend(events)
    ensures RevisionsAscend(Filter(events, keep))
  {
    if events != [] {
      var rest := events[1..];
      forall i, j | 0 <= i < j < |rest|
        ensures RevisionBefore(rest[i], rest[j])
      {
        assert RevisionBefore(events[i + 1], events[j + 1]);
      }
      FilterAscends(rest, keep);
      FilterMembers(rest, keep);
      FilterStep(events, keep);
      var kept := Filter(rest, keep);
      forall j | 0 <= j < |kept|
        ensures RevisionBefore(events[0], kept[j])
      {
        assert kept[j] in kept && kept[j] in rest;
        var k :| 0 <= k < |rest| && rest[k] == kept[j];
        assert RevisionBefore(events[0], events[k + 1]);
      }
    }
  }

  /** The revisions that remain after a step: those that take effect past its safe time. */
  lemma RemainingRevisions(journal: Journal, revision: nat, safeMs: nat, population: Option<Snapshot>)
    requires PopulationsRise(PopulationsAfter(journal, revision)) && RevisionOf(population) == revision
    ensures var all := PopulationsAfter(journal, revision);
      var reached := RevisionOf(LastUpdate(population, Filter(all, DuePopulations(safeMs))));
      PopulationsAfter(journal, reached) == Filter(all, UpdatesPast(safeMs))
  {
    var all := PopulationsAfter(journal, revision);
    var due := Filter(all, DuePopulations(safeMs));
    var reached := RevisionOf(LastUpdate(population, due));
    LastDueIsHighest(all, safeMs);
    AllPast(journal, revision);
    FilterMembers(all, DuePopulations(safeMs));
    if due != [] {
      assert RevisionPast(due[|due| - 1], revision);
    }
    PopulationsNarrow(journal, revision, reached);
    forall x | x in all
      ensures RevisionPast(x, reached) <==> !UpdateUpTo(x, safeMs)
    {
      if due == [] {
        assert PopulationDue(x, safeMs) ==> x in due;
      } else {
        RevisionsFollowTimes(all, safeMs, due[|due| - 1], x);
      }
    }
    FilterSame(all, RevisionsPast(reached), UpdatesPast(safeMs));
  }

  lemma {:induction false} AllPast(journal: Journal, revision: nat)
    ensures forall x :: x in PopulationsAfter(journal, revision) ==> RevisionPast(x, revision)
  {
    if journal != [] {
      AllPast(journal[..|journal| - 1], revision);
    }
  }

  // ------------------------------------------------------------------ items

  predicate ReceiptUpTo(r: Receipt, w: int) { r.actualTimeMs <= w }

  function ReceiptsUntil(w: int): Receipt -> bool { (r: Receipt) => ReceiptUpTo(r, w) }

  function ReceiptsPast(w: int): Receipt -> bool { (r: Receipt) => !ReceiptUpTo(r, w) }

  function ReceiptItem(sequences: map<Text, nat>, earliestMs: nat): Receipt -> Item {
    (r: Receipt) => Item(Clamp(earliestMs, r.actualTimeMs), if r.receiptId in sequences then sequences[r.receiptId]
                         else 0, Confirmed(r))
  }

  function OfferItem(earliestMs: nat): OfferRevision -> Item {
    (offer: OfferRevision) => Item(Clamp(earliestMs, offer.effectiveAtMs), offer.worldSequence, Offered(offer))
  }

  function PopulationItem(earliestMs: nat): PopulationEvent -> Item {
    (event: PopulationEvent) =>
        Item(Clamp(earliestMs, event.snapshot.effectiveAtMs), event.worldSequence, Updated(event))
  }

  lemma ReceiptItemsAreMapped(receipts: seq<Receipt>, sequences: map<Text, nat>, earliestMs: nat)
    ensures ReceiptItems(Number(receipts, sequences), earliestMs)
            == Mapped(receipts, ReceiptItem(sequences, earliestMs))
  {
  }

  lemma ReceiptItemsSplit(receipts: seq<Receipt>, sequences: map<Text, nat>, earliestMs: nat, w: int)
    requires ReceiptsFrom(receipts, earliestMs)
    ensures Filter(ReceiptItems(Number(receipts, sequences), earliestMs), Until(w))
            == ReceiptItems(Number(Filter(receipts, ReceiptsUntil(w)), sequences), earliestMs)
    ensures Filter(ReceiptItems(Number(receipts, sequences), earliestMs), After(w))
            == ReceiptItems(Number(Filter(receipts, ReceiptsPast(w)), sequences), earliestMs)
  {
    var f := ReceiptItem(sequences, earliestMs);
    ReceiptItemsAreMapped(receipts, sequences, earliestMs);
    ReceiptItemsAreMapped(Filter(receipts, ReceiptsUntil(w)), sequences, earliestMs);
    ReceiptItemsAreMapped(Filter(receipts, ReceiptsPast(w)), sequences, earliestMs);
    forall r | r in receipts
      ensures Until(w)(f(r)) == ReceiptsUntil(w)(r)
    {
      var i :| 0 <= i < |receipts| && receipts[i] == r;
    }
    FilterMapped(receipts, f, Until(w), ReceiptsUntil(w));
    FilterMapped(receipts, f, After(w), ReceiptsPast(w));
  }

  lemma OfferItemsAreMapped(offers: seq<OfferRevision>, earliestMs: nat)
    ensures OfferItems(offers, earliestMs) == Mapped(offers, OfferItem(earliestMs))
  {
  }

  lemma OfferItemsSplit(offers: seq<OfferRevision>, earliestMs: nat, w: int)
    requires OffersFrom(offers, earliestMs)
    ensures Filter(OfferItems(offers, earliestMs), Until(w)) == OfferItems(Filter(offers, OffersUntil(w)), earliestMs)
    ensures Filter(OfferItems(offers, earliestMs), After(w)) == OfferItems(Filter(offers, OffersPast(w)), earliestMs)
  {
    var f := OfferItem(earliestMs);
    OfferItemsAreMapped(offers, earliestMs);
    OfferItemsAreMapped(Filter(offers, OffersUntil(w)), earliestMs);
    OfferItemsAreMapped(Filter(offers, OffersPast(w)), earliestMs);
    forall offer | offer in offers
      ensures Until(w)(f(offer)) == OffersUntil(w)(offer)
    {
      var i :| 0 <= i < |offers| && offers[i] == offer;
    }
    FilterMapped(offers, f, Until(w), OffersUntil(w));
    FilterMapped(offers, f, After(w), OffersPast(w));
  }

  lemma PopulationItemsAreMapped(updates: seq<PopulationEvent>, earliestMs: nat)
    ensures PopulationItems(updates, earliestMs) == Mapped(updates, PopulationItem(earliestMs))
  {
  }

  lemma PopulationItemsSplit(updates: seq<PopulationEvent>, earliestMs: nat, w: int)
    requires UpdatesFrom(updates, earliestMs)
    ensures Filter(PopulationItems(updates, earliestMs), Until(w))
            == PopulationItems(Filter(updates, UpdatesUntil(w)), earliestMs)
    ensures Filter(PopulationItems(updates, earliestMs), After(w))
            == PopulationItems(Filter(updates, UpdatesPast(w)), earliestMs)
  {
    var f := PopulationItem(earliestMs);
    PopulationItemsAreMapped(updates, earliestMs);
    PopulationItemsAreMapped(Filter(updates, UpdatesUntil(w)), earliestMs);
    PopulationItemsAreMapped(Filter(updates, UpdatesPast(w)), earliestMs);
    forall event | event in updates
      ensures Until(w)(f(event)) == UpdatesUntil(w)(event)
    {
      var i :| 0 <= i < |updates| && updates[i] == event;
    }
    FilterMapped(updates, f, Until(w), UpdatesUntil(w));
    FilterMapped(updates, f, After(w), UpdatesPast(w));
  }

  /** The boundaries of things not before `earliestMs` split at a time into those of the things up to it and
      those of the things past it. */
  lemma BoundariesSplitByKind(receipts: seq<Receipt>, sequences: map<Text, nat>, offers: seq<OfferRevision>,
                              earliestMs: nat,
                              updates: seq<PopulationEvent>, w: int)
    requires ReceiptsFrom(receipts, earliestMs) && OffersFrom(offers, earliestMs) && UpdatesFrom(updates, earliestMs)
    ensures Boundaries(Number(receipts, sequences), offers, earliestMs, updates)
            == Boundaries(Number(Filter(receipts, ReceiptsUntil(w)), sequences), Filter(offers, OffersUntil(w)),
                          earliestMs, Filter(updates, UpdatesUntil(w)))
               + Boundaries(Number(Filter(receipts, ReceiptsPast(w)), sequences), Filter(offers, OffersPast(w)),
                            earliestMs, Filter(updates, UpdatesPast(w)))
  {
    var a, b, c := ReceiptItems(Number(receipts, sequences), earliestMs), OfferItems(offers, earliestMs),
        PopulationItems(updates, earliestMs);
    BoundariesSplit(a + b + c, w);
    KindOfJoined(a, b, c, Until(w));
    KindOfJoined(a, b, c, After(w));
    ReceiptItemsSplit(receipts, sequences, earliestMs, w);
    OfferItemsSplit(offers, earliestMs, w);
    PopulationItemsSplit(updates, earliestMs, w);
  }

  /** When nothing lies before either start, the start does not matter. */
  lemma StartDoesNotMatter(receipts: seq<Receipt>, sequences: map<Text, nat>, offers: seq<OfferRevision>,
                           updates: seq<PopulationEvent>, e: nat, f: nat)
    requires e <= f && ReceiptsFrom(receipts, f) && OffersFrom(offers, f) && UpdatesFrom(updates, f)
    ensures Boundaries(Number(receipts, sequences), offers, e, updates)
            == Boundaries(Number(receipts, sequences), offers, f, updates)
  {
    assert ReceiptItems(Number(receipts, sequences), e) == ReceiptItems(Number(receipts, sequences), f);
    assert OfferItems(offers, e) == OfferItems(offers, f);
    assert PopulationItems(updates, e) == PopulationItems(updates, f);
  }
}
