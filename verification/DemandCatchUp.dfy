/** Catch-up independence of the demand consumer: when a run to one watermark and then a run to a later one apply
    the same things in the same order as one run straight to the later one. */
module DemandCatchUp {
  import opened DemandBothWays
  import opened DemandJournal
  import opened DemandOfferHistory
  import opened DemandProgress
  import opened DemandReceipts
  import opened DemandRuns
  import opened DemandSafety
  import opened DemandSplit
  import opened DemandTimeZero
  import opened Outcomes
  import opened Sorting
  import opened TextOrder

  // ------------------------------------------------------------------ a first step at time zero

  lemma NothingDueAtZero(all: seq<Receipt>, prior: seq<Receipt>, offers: seq<OfferRevision>)
    ensures Filter(all, DueReceipts(0)) == [] && Fresh(all, prior, 0) == [] && Filter(offers, DueOffers(0)) == []
  {
    FilterNone(all, DueReceipts(0));
    FilterNone(offers, DueOffers(0));
  }

  /** At time zero a step applies population revisions only. */
  lemma ZeroBoundaries(before: Checkpoint, plan: Plan)
    requires BoundariesMade(before, plan, 0) && before.input.nowMs == 0
    ensures plan.boundaries == Boundaries([], [], 0, plan.reading.updates)
  {
    NothingDueAtZero(plan.receipts.all, before.cursor.receipts, plan.reading.offers);
  }

  /** All three plans make their boundaries from the time of their checkpoint on. */
  ghost predicate AllMade(s: TwoSteps) {
    && s.first.regions != [] && s.second.regions != [] && s.before.input.nowMs <= s.middle.input.nowMs
    && NowMs(s.first.regions) <= NowMs(s.second.regions) && s.middle.input.nowMs == SafeThrough(NowMs(s.first.regions))
    && BoundariesMade(s.before, s.plan1, NowMs(s.first.regions))
    && BoundariesMade(s.middle, s.plan2, NowMs(s.second.regions))
    && BoundariesMade(s.before, s.direct, NowMs(s.second.regions))
  }

  ghost predicate SameBoundaries(s: TwoSteps) { s.direct.boundaries == s.plan1.boundaries + s.plan2.boundaries }

  /** What the second step applies at the instants the first one had reached. */
  ghost predicate SecondOvertakesNothing(s: TwoSteps) {
    s.second.regions != []
    && NothingOvertaken(Number(Fresh(s.plan2.receipts.all, [], NowMs(s.second.regions)), s.plan2.receipts.sequences),
                        Filter(s.plan2.reading.offers, DueOffers(NowMs(s.second.regions))), s.plan1.reading.updates)
  }

  lemma OffersAtZero(s: TwoSteps)
    requires SameOffers(s) && NowMs(s.first.regions) == 0
    ensures var n2 := NowMs(s.second.regions);
            Filter(s.direct.reading.offers, DueOffers(n2)) == Filter(s.plan2.reading.offers, DueOffers(n2))
  {
    FilterAll(Filter(s.direct.reading.offers, DueOffers(NowMs(s.second.regions))), OffersPast(-1));
  }

  lemma ZeroStep(s: TwoSteps)
    requires SameOffers(s) && SameUpdates(s) && SameReceipts(s) && AllMade(s)
    requires NowMs(s.first.regions) == 0 && s.before.cursor.receipts == [] && s.middle.cursor.receipts == []
    ensures SameBoundaries(s) <==> SecondOvertakesNothing(s)
  {
    var n2 := NowMs(s.second.regions);
    OffersAtZero(s);
    ZeroBoundaries(s.before, s.plan1);
    SplitFromZero(Number(Fresh(s.plan2.receipts.all, [], n2), s.plan2.receipts.sequences),
                  Filter(s.plan2.reading.offers, DueOffers(n2)),
                  s.direct.reading.updates, s.plan1.reading.updates, s.plan2.reading.updates,
                  s.direct.boundaries, s.plan1.boundaries, s.plan2.boundaries);
  }

  lemma SplitFromZero(receipts: seq<Numbered>, offers: seq<OfferRevision>, updates: seq<PopulationEvent>,
                      first: seq<PopulationEvent>,
                      second: seq<PopulationEvent>, direct: seq<Boundary>, boundaries1: seq<Boundary>,
                      boundaries2: seq<Boundary>)
    requires Filter(updates, UpdatesUntil(0)) == first && Filter(updates, UpdatesPast(0)) == second
    requires direct == Boundaries(receipts, offers, 0, updates)
    requires boundaries1 == Boundaries([], [], 0, first) && boundaries2 == Boundaries(receipts, offers, 0, second)
    ensures direct == boundaries1 + boundaries2 <==> NothingOvertaken(receipts, offers, first)
  {
    BoundariesFromZero(receipts, offers, updates);
  }

  lemma NumberedMembers(receipts: seq<Receipt>, sequences: map<Text, nat>, x: Numbered)
    requires HaveSequences(receipts, sequences)
    ensures x in Number(receipts, sequences) <==>
            x.receipt in receipts && x.receipt.receiptId in sequences
                && x.worldSequence == sequences[x.receipt.receiptId]
  {
    if x in Number(receipts, sequences) {
      var i :| 0 <= i < |receipts| && Number(receipts, sequences)[i] == x;
      assert receipts[i].receiptId in sequences;
    }
    if x.receipt in receipts && x.receipt.receiptId in sequences && x.worldSequence == sequences[x.receipt.receiptId] {
      var i :| 0 <= i < |receipts| && receipts[i] == x.receipt;
      assert Number(receipts, sequences)[i] == x;
    }
  }

  ghost predicate SameReceiptsAtZero(a: seq<Receipt>, b: seq<Receipt>) {
    forall r: Receipt :: r.actualTimeMs == 0 ==> (r in a <==> r in b)
  }

  ghost predicate SameOffersAtZero(a: seq<OfferRevision>, b: seq<OfferRevision>) {
    forall o: OfferRevision :: o.effectiveAtMs == 0 ==> (o in a <==> o in b)
  }

  /** The receipts of time zero in two numbered lists are the same. */
  lemma SameAtZero(a: seq<Receipt>, m: map<Text, nat>, b: seq<Receipt>, n: map<Text, nat>, x: Numbered)
    requires HaveSequences(a, m) && HaveSequences(b, n) && (forall id :: id in m ==> id in n && n[id] == m[id])
    requires SameReceiptsAtZero(a, b)
    requires x.receipt.actualTimeMs == 0
    ensures x in Number(a, m) <==> x in Number(b, n)
  {
    NumberedMembers(a, m, x);
    NumberedMembers(b, n, x);
    if x.receipt in a {
      var i :| 0 <= i < |a| && a[i] == x.receipt;
    }
  }

  /** Nothing that the first step leaves pending at time zero was journaled before a revision it applies. */
  ghost predicate NoneOvertaken(plan: Plan) {
    NothingOvertaken(Number(plan.pendingReceipts, plan.receipts.sequences), plan.pendingOffers, plan.reading.updates)
  }

  /** What is pending at time zero after the first step is what the second step applies of time zero. */
  lemma PendingIsApplied(s: TwoSteps)
    requires s.second.regions != [] && NowMs(s.second.regions) > 0
    requires HaveSequences(s.plan1.pendingReceipts, s.plan1.receipts.sequences)
             && HaveSequences(s.plan2.receipts.all, s.plan2.receipts.sequences)
    requires forall id :: id in s.plan1.receipts.sequences ==>
               id in s.plan2.receipts.sequences && s.plan2.receipts.sequences[id] == s.plan1.receipts.sequences[id]
    requires SameReceiptsAtZero(s.plan1.pendingReceipts, s.plan2.receipts.all)
    requires SameOffersAtZero(s.plan1.pendingOffers, s.plan2.reading.offers)
    ensures SecondOvertakesNothing(s) <==> NoneOvertaken(s.plan1)
  {
    var n2 := NowMs(s.second.regions);
    var arrived := Fresh(s.plan2.receipts.all, [], n2);
    FreshMembers(s.plan2.receipts.all, [], n2);
    FilterMembers(s.plan2.reading.offers, DueOffers(n2));
    forall i | 0 <= i < |arrived|
      ensures arrived[i].receiptId in s.plan2.receipts.sequences
    {
      assert arrived[i] in arrived;
      var k :| 0 <= k < |s.plan2.receipts.all| && s.plan2.receipts.all[k] == arrived[i];
    }
    forall x: Numbered | x.receipt.actualTimeMs == 0
      ensures x in Number(s.plan1.pendingReceipts, s.plan1.receipts.sequences)
              <==> x in Number(arrived, s.plan2.receipts.sequences)
    {
      SameAtZero(s.plan1.pendingReceipts, s.plan1.receipts.sequences, arrived, s.plan2.receipts.sequences, x);
    }
  }

  /** Nothing is confirmed at time zero, and everything gathered stays pending. */
  lemma ZeroReceipts(s: TwoSteps)
    requires Planned(s.journal, s.before, s.first, s.plan1) && Settled(s.before) && NowMs(s.first.regions) == 0
    requires SameReceipts(s) && KeepsPromise(s.tail, 0)
    ensures s.plan1.confirmed == [] && SameReceiptsAtZero(s.plan1.pendingReceipts, s.plan2.receipts.all)
  {
    FirstStepGathers(s);
    FirstIsMember(s.plan1.confirmed);
    forall r | r in ReceiptsOf(LateReports(s))
      ensures 0 < r.actualTimeMs
    {
      PromisedReports(s.tail, s.middle.cursor.throughWorldSequence, s.plan2.reading.known, 0, r);
    }
  }

  lemma ZeroOffers(s: TwoSteps)
    requires SameHistory(s) && OffersSorted(s.middle, s.plan2.reading) && NowMs(s.first.regions) == 0
    requires s.middle.cursor.pendingOffers == s.plan1.pendingOffers
    ensures SameOffersAtZero(s.plan1.pendingOffers, s.plan2.reading.offers)
  {
    SortPermutes(s.middle.cursor.pendingOffers + s.plan2.reading.history, OfferAtMost);
  }

  lemma ZeroPending(s: TwoSteps)
    requires Plans(s) && Settled(s.before) && Settled(s.middle) && NowMs(s.first.regions) == 0
             && KeepsPromise(s.tail, 0)
    requires SameHistory(s) && SameReceipts(s) && HandsOver(s)
    ensures s.plan1.confirmed == []
    ensures HaveSequences(s.plan1.pendingReceipts, s.plan1.receipts.sequences)
            && HaveSequences(s.plan2.receipts.all, s.plan2.receipts.sequences)
    ensures SameReceiptsAtZero(s.plan1.pendingReceipts, s.plan2.receipts.all)
    ensures SameOffersAtZero(s.plan1.pendingOffers, s.plan2.reading.offers)
  {
    ZeroReceipts(s);
    PlansReadOffers(s);
    ZeroOffers(s);
    AllHaveSequences(s.after + s.tail, s.middle, s.second, s.plan2);
    SequencesCover(s.journal, s.before, s.first, s.plan1);
    PartsHaveSequences(s.plan1.confirmed, s.plan1.pendingReceipts, s.plan1.receipts.sequences);
  }

  lemma PartsHaveSequences(a: seq<Receipt>, b: seq<Receipt>, sequences: map<Text, nat>)
    requires HaveSequences(a + b, sequences)
    ensures HaveSequences(b, sequences)
  {
    forall i | 0 <= i < |b|
      ensures b[i].receiptId in sequences
    {
      assert (a + b)[|a| + i] == b[i];
    }
  }

  lemma AllHaveSequences(journal: Journal, before: Checkpoint, request: Request, plan: Plan)
    requires Planned(journal, before, request, plan) && Settled(before)
    ensures HaveSequences(plan.receipts.all, plan.receipts.sequences)
  {
    var nowMs := NowMs(request.regions);
    SequencesCover(journal, before, request, plan);
    PlanKeeps(journal, before, request, plan);
    FilterMembers(plan.receipts.all, DueReceipts(nowMs));
    FilterMembers(plan.receipts.all, LaterReceipts(nowMs));
    var both := plan.confirmed + plan.pendingReceipts;
    forall i | 0 <= i < |plan.receipts.all|
      ensures plan.receipts.all[i].receiptId in plan.receipts.sequences
    {
      assert plan.receipts.all[i] in both;
      var k :| 0 <= k < |both| && both[k] == plan.receipts.all[i];
    }
  }

  /** A receipt confirmed before a step at time zero is applied again by the step after it. */
  lemma AppliedAgain(s: TwoSteps)
    requires SameReceipts(s) && AllMade(s) && Settled(s.before) && NowMs(s.first.regions) == 0
             && NowMs(s.second.regions) > 0
    requires s.before.cursor.receipts != [] && s.middle.cursor.receipts == [] && s.before.cursor.safeThroughMs == 0
    ensures !SameBoundaries(s)
  {
    var n2, r := NowMs(s.second.regions), s.before.cursor.receipts[0];
    var freshD, fresh2 := Fresh(s.direct.receipts.all, s.before.cursor.receipts, n2),
        Fresh(s.plan2.receipts.all, [], n2);
    FreshMembers(s.direct.receipts.all, s.before.cursor.receipts, n2);
    FreshMembers(s.plan2.receipts.all, [], n2);
    assert r in EarlyReceipts(s);
    assert r in fresh2 && r !in freshD;
    AppliedReceipts(freshD, s.direct.receipts.sequences, Filter(s.direct.reading.offers, DueOffers(n2)),
                    s.before.input.nowMs, s.direct.reading.updates);
    AppliedReceipts(fresh2, s.plan2.receipts.sequences, Filter(s.plan2.reading.offers, DueOffers(n2)),
                    s.middle.input.nowMs, s.plan2.reading.updates);
    ReceiptsCarriedJoin(s.plan1.boundaries, s.plan2.boundaries);
    assert r in multiset(ReceiptsCarriedBy(s.plan2.boundaries))
           && r !in multiset(ReceiptsCarriedBy(s.direct.boundaries));
    assert r in ReceiptsCarriedBy(s.plan2.boundaries) && r !in ReceiptsCarriedBy(s.direct.boundaries);
  }

  /** As long as the clock stays at zero only revisions are applied, either way. */
  lemma StillZero(s: TwoSteps)
    requires SameUpdates(s) && AllMade(s) && NowMs(s.second.regions) == 0
    requires forall u :: u in s.direct.reading.updates ==> u.snapshot.effectiveAtMs == 0
    ensures SameBoundaries(s) && s.plan2.boundaries == []
  {
    ZeroBoundaries(s.before, s.plan1);
    ZeroBoundaries(s.middle, s.plan2);
    ZeroBoundaries(s.before, s.direct);
    FilterMembers(s.direct.reading.updates, UpdatesPast(0));
    FirstIsMember(s.plan2.reading.updates);
    assert forall i :: 0 <= i < |s.direct.reading.updates| ==> s.direct.reading.updates[i] in s.direct.reading.updates;
    FilterAll(s.direct.reading.updates, UpdatesUntil(0));
    assert Boundaries([], [], 0, []) == [];
  }

  // ------------------------------------------------------------------ the theorem

  /** When two steps keep the order of one: the clock has left zero at the first step or not even at the second;
      or nothing was confirmed that a clock at zero unconfirms, and no receipt or offer of time zero was journaled
      before a revision that the first step applies. */
  ghost predicate KeepsOrder(s: TwoSteps) {
    && s.first.regions != [] && s.second.regions != []
    && (NowMs(s.first.regions) > 0 || NowMs(s.second.regions) == 0
        || (s.before.cursor.receipts == [] && NoneOvertaken(s.plan1)))
  }

  /** Catching up in two steps applies the same receipts, offers and population revisions in the same order
      as one step if and only if `KeepsOrder`; in any case it leaves the same receipts and offers confirmed and
      pending. */
  lemma CatchUpIsIndependent(evaluate: Input -> Option<Text>, s: TwoSteps)
    requires CatchesUp(evaluate, s)
    ensures s.direct.boundaries == s.plan1.boundaries + s.plan2.boundaries <==> KeepsOrder(s)
    ensures s.direct.confirmed == s.plan2.confirmed && s.direct.pendingReceipts == s.plan2.pendingReceipts
    ensures s.direct.receipts.sequences == s.plan2.receipts.sequences
    ensures s.direct.pendingOffers == s.plan2.pendingOffers
  {
    BothWaysAgree(evaluate, s);
    AllAreMade(s);
    SecondSequences(s);
    if NowMs(s.first.regions) > 0 {
      FirstStepNumbers(s);
      BoundariesAgree(s);
    } else if NowMs(s.second.regions) == 0 {
      UpdatesAtZero(s.journal + s.tail, s.before, s.second, s.direct);
      StillZero(s);
    } else {
      FromZero(s);
    }
    PlanKeeps(s.after + s.tail, s.middle, s.second, s.plan2);
    PlanKeeps(s.journal + s.tail, s.before, s.second, s.direct);
  }

  lemma NothingAppliedAtZero(evaluate: Input -> Option<Text>, s: TwoSteps)
    requires CatchesUp(evaluate, s) && NowMs(s.second.regions) == 0
    ensures s.plan2.boundaries == []
  {
    BothWaysAgree(evaluate, s);
    AllAreMade(s);
    UpdatesAtZero(s.journal + s.tail, s.before, s.second, s.direct);
    StillZero(s);
  }

  lemma FromZero(s: TwoSteps)
    requires Plans(s) && Settled(s.before) && KeepsPromise(s.tail, 0) && NowMs(s.first.regions) == 0
             && NowMs(s.second.regions) > 0
    requires SameHistory(s) && SameOffers(s) && SameUpdates(s) && SameReceipts(s) && HandsOver(s) && Settled(s.middle)
             && AllMade(s)
    requires forall id :: id in s.plan1.receipts.sequences ==>
               id in s.plan2.receipts.sequences && s.plan2.receipts.sequences[id] == s.plan1.receipts.sequences[id]
    ensures SameBoundaries(s) <==> s.before.cursor.receipts == [] && NoneOvertaken(s.plan1)
  {
    ZeroPending(s);
    if s.before.cursor.receipts == [] {
      ZeroStep(s);
      PendingIsApplied(s);
    } else {
      AppliedAgain(s);
    }
  }

  lemma AllAreMade(s: TwoSteps)
    requires Plans(s) && HandsOver(s) && Settled(s.before) && Settled(s.middle)
    ensures AllMade(s)
  {
    PlanMakesBoundaries(s.journal, s.before, s.first, s.plan1);
    PlanMakesBoundaries(s.after + s.tail, s.middle, s.second, s.plan2);
    PlanMakesBoundaries(s.journal + s.tail, s.before, s.second, s.direct);
  }

  lemma SecondSequences(s: TwoSteps)
    requires Planned(s.after + s.tail, s.middle, s.second, s.plan2) && HandsOver(s)
    ensures forall id :: id in s.plan1.receipts.sequences ==>
              id in s.plan2.receipts.sequences && s.plan2.receipts.sequences[id] == s.plan1.receipts.sequences[id]
  {
    PlanGathers(s.after + s.tail, s.middle, s.second, s.plan2);
    SequencesGrow(s.middle.cursor.receiptWorldSequences,
                  ReportsAfter(s.after + s.tail, s.middle.cursor.throughWorldSequence, s.plan2.reading.known));
  }

  lemma UpdatesAtZero(journal: Journal, before: Checkpoint, request: Request, plan: Plan)
    requires Planned(journal, before, request, plan) && NowMs(request.regions) == 0
    ensures forall u :: u in plan.reading.updates ==> u.snapshot.effectiveAtMs == 0
  {
    PlanUpdates(journal, before, request, plan);
    FilterMembers(PopulationsFor(journal, before, request.template), DuePopulations(0));
  }
}
