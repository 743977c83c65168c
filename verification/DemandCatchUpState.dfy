/** The end of a catch-up: two steps publish the same state as one, and give the kernel the same services,
    progress and population at every boundary on the way. */
module DemandCatchUpState {
  import opened DelayPropagation
  import opened DemandBothWays
  import opened DemandCatchUp
  import opened DemandJournal
  import opened DemandOfferHistory
  import opened DemandProgress
  import opened DemandReceipts
  import opened DemandRuns
  import opened DemandSafety
  import opened DemandSplit
  import opened Outcomes
  import opened Sorting
  import opened TextOrder

  // ------------------------------------------------------------------ the published state

  /** What a published checkpoint says, apart from its place in the journal and the kernel's result. */
  datatype State = State(nowMs: nat, receipts: seq<Receipt>, pendingReceipts: seq<Receipt>, sequences: map<Text, nat>,
                         offerServices: seq<Service>,
                         sourceServices: seq<Service>, pendingOffers: seq<OfferRevision>, population: Option<Snapshot>,
                         services: seq<Service>)

  function StateOf(checkpoint: Checkpoint): State {
    var c := checkpoint.cursor;
    State(checkpoint.input.nowMs, c.receipts, c.pendingReceipts, c.receiptWorldSequences, c.offerServices,
          c.offerSourceServices, c.pendingOffers,
          checkpoint.input.population, checkpoint.input.services)
  }

  function PlannedState(plan: Plan, held: Held, safeMs: nat): State {
    State(safeMs, plan.confirmed, plan.pendingReceipts, plan.receipts.sequences, held.services,
          plan.reading.sourceServices, plan.pendingOffers,
          held.population, AllWithConfirmed(held.services, plan.confirmed))
  }

  lemma NothingFresh(plan: Plan, before: Checkpoint, nowMs: nat)
    requires BoundariesMade(before, plan, nowMs) && plan.boundaries == []
    ensures Fresh(plan.receipts.all, before.cursor.receipts, nowMs) == []
            && Filter(plan.reading.offers, DueOffers(nowMs)) == []
  {
    var numbered := Number(Fresh(plan.receipts.all, before.cursor.receipts, nowMs), plan.receipts.sequences);
    var items := Items(numbered, Filter(plan.reading.offers, DueOffers(nowMs)), before.input.nowMs,
                       plan.reading.updates);
    GroupEnd(Sort(items, ItemAtMost));
    SortPermutes(items, ItemAtMost);
  }

  /** When a run has nothing to apply, its confirmed and pending receipts are those of before. */
  lemma QuietReceipts(journal: Journal, before: Checkpoint, request: Request, plan: Plan)
    requires Planned(journal, before, request, plan) && Settled(before) && ClockRuns(before, request)
    requires plan.boundaries == [] && plan.receipts.received == []
    ensures plan.confirmed == before.cursor.receipts && plan.pendingReceipts == before.cursor.pendingReceipts
    ensures plan.receipts.sequences == before.cursor.receiptWorldSequences
  {
    var c, nowMs := before.cursor, NowMs(request.regions);
    var gathered := Gathered(journal, c, plan.reading.known);
    PlanMakesBoundaries(journal, before, request, plan);
    NothingFresh(plan, before, nowMs);
    PlanGathers(journal, before, request, plan);
    PlanSplitsReceipts(journal, before, request, plan);
    ConfirmedStay(journal, before, request, plan);
    FreshMembers(plan.receipts.all, c.receipts, nowMs);
    OrderedMembers(gathered);
    assert gathered == c.receipts + c.pendingReceipts;
    forall r
      ensures r in plan.confirmed <==> r in c.receipts
    {
      if r in plan.confirmed {
        IdIsReceipt(gathered, c.receipts, r);
        assert r !in Fresh(plan.receipts.all, c.receipts, nowMs);
      }
    }
    NeverBoth(before);
    DistinctParts(c.receipts, c.pendingReceipts);
    DistinctParts(plan.confirmed, plan.pendingReceipts);
    AcceptedPart(gathered, c.receipts, plan.reading.known);
    AcceptedPart(gathered, c.pendingReceipts, plan.reading.known);
    OrderIsUnique(c.receipts, plan.confirmed, plan.reading.known);
    OrderIsUnique(c.pendingReceipts, plan.pendingReceipts, plan.reading.known);
  }

  lemma QuietOffers(journal: Journal, before: Checkpoint, request: Request, plan: Plan)
    requires Planned(journal, before, request, plan) && Settled(before)
    requires plan.boundaries == [] && plan.reading.history == []
    ensures plan.pendingOffers == before.cursor.pendingOffers
            && plan.reading.sourceServices == before.cursor.offerSourceServices
  {
    var pending, nowMs := before.cursor.pendingOffers, NowMs(request.regions);
    PlanMakesBoundaries(journal, before, request, plan);
    NothingFresh(plan, before, nowMs);
    PlanReads(journal, before, request, plan);
    PlanKeeps(journal, before, request, plan);
    assert pending + [] == pending;
    SortOfSorted(pending, OfferAtMost);
    NoneDue(pending, nowMs);
  }

  lemma NoneDue(offers: seq<OfferRevision>, nowMs: nat)
    requires Filter(offers, DueOffers(nowMs)) == []
    ensures Filter(offers, LaterOffers(nowMs)) == offers
  {
    FilterMembers(offers, DueOffers(nowMs));
    forall i | 0 <= i < |offers|
      ensures LaterOffers(nowMs)(offers[i])
    {
      assert offers[i] in offers;
    }
    FilterAll(offers, LaterOffers(nowMs));
  }

  /** Whether it publishes or finds everything unchanged, a run ends with the planned state. */
  lemma RunEndsAsPlanned(evaluate: Input -> Option<Text>, journal: Journal, before: Checkpoint, request: Request,
                         after: Journal,
                         next: Checkpoint, plan: Plan, run: Run)
    requires RanWith(evaluate, journal, before, request, after, next, plan, run) && Settled(before)
             && EndsWith(journal, before)
    requires ClockRuns(before, request)
    ensures StateOf(next) == PlannedState(plan, run.held, SafeThrough(NowMs(request.regions)))
  {
    RunPublishes(evaluate, journal, before, request, after, next, plan, run);
    if ChangesNothing(journal, before, request, plan, run) {
      QuietReceipts(journal, before, request, plan);
      QuietOffers(journal, before, request, plan);
      assert run == StartOf(journal, before);
    }
  }

  // ------------------------------------------------------------------ what is held alike

  ghost predicate HeldAlike(a: Held, b: Held) {
    a.services == b.services && a.population == b.population && a.provenance == b.provenance
  }

  lemma {:induction false} EventsKeepAlike(a: Held, b: Held, hs: seq<Happening>)
    requires HeldAlike(a, b)
    ensures HeldAlike(ApplyEvents(a, hs), ApplyEvents(b, hs))
  {
    if hs != [] {
      EventsKeepAlike(a, b, hs[..|hs| - 1]);
    }
  }

  lemma BoundariesKeepAlike(a: Held, b: Held, bs: seq<Boundary>)
    requires HeldAlike(a, b)
    ensures HeldAlike(ApplyAll(a, bs), ApplyAll(b, bs))
  {
    BoundariesAreEvents(a, bs);
    BoundariesAreEvents(b, bs);
    EventsKeepAlike(a, b, Flatten(bs));
  }

  lemma {:induction false} ApplyAllJoins(held: Held, a: seq<Boundary>, b: seq<Boundary>)
    ensures ApplyAll(held, a + b) == ApplyAll(ApplyAll(held, a), b)
    decreases |b|
  {
    if b == [] {
      assert a + b == a;
    } else {
      var n := |b| - 1;
      assert (a + b)[..|a + b| - 1] == a + b[..n] && (a + b)[|a + b| - 1] == b[n];
      ApplyAllJoins(held, a, b[..n]);
    }
  }

  /** The second run and the single run as they end. */
  datatype Ends = Ends(run2: Run, after2: Journal, last: Checkpoint, runD: Run, afterD: Journal, lastD: Checkpoint)

  ghost predicate BothRan(evaluate: Input -> Option<Text>, s: TwoSteps, e: Ends) {
    && RanWith(evaluate, s.after + s.tail, s.middle, s.second, e.after2, e.last, s.plan2, e.run2)
       && EndsWith(s.after + s.tail, s.middle)
    && RanWith(evaluate, s.journal + s.tail, s.before, s.second, e.afterD, e.lastD, s.direct, e.runD)
       && EndsWith(s.journal + s.tail, s.before)
  }

  ghost predicate SourceRead(before: Checkpoint, reading: Reading) {
    reading.sourceServices == SourceAfter(before.cursor.offerSourceServices, reading.history)
  }

  lemma PlanReadsSource(journal: Journal, before: Checkpoint, request: Request, plan: Plan)
    requires Planned(journal, before, request, plan)
    ensures SourceRead(before, plan.reading)
  {
    assert OffersAreRead(journal, before, plan.reading) by {
      PlanReads(journal, before, request, plan);
    }
  }

  lemma SourcesAgree(s: TwoSteps)
    requires SourceRead(s.before, s.plan1.reading) && SourceRead(s.middle, s.plan2.reading)
             && SourceRead(s.before, s.direct.reading)
    requires s.direct.reading.history == s.plan1.reading.history + s.plan2.reading.history
    requires s.middle.cursor.offerSourceServices == s.plan1.reading.sourceServices
    ensures s.direct.reading.sourceServices == s.plan2.reading.sourceServices
  {
    LastSource(s.before.cursor.offerSourceServices, s.plan1.reading.history, s.plan2.reading.history);
  }

  function SourceAfter(source: seq<Service>, history: seq<OfferRevision>): seq<Service> {
    if history != [] then history[|history| - 1].services else source
  }

  lemma LastSource(source: seq<Service>, a: seq<OfferRevision>, b: seq<OfferRevision>)
    ensures SourceAfter(source, a + b) == SourceAfter(SourceAfter(source, a), b)
  {
    assert b == [] ==> a + b == a;
  }

  // ------------------------------------------------------------------ services and population of both ways

  lemma {:induction false} KnownAfterJoins(services: seq<Service>, a: seq<OfferRevision>, b: seq<OfferRevision>)
    ensures KnownAfter(services, a + b) == KnownAfter(KnownAfter(services, a), b)
    decreases |b|
  {
    if b == [] {
      assert a + b == a;
    } else {
      var n := |b| - 1;
      assert (a + b)[..|a + b| - 1] == a + b[..n] && (a + b)[|a + b| - 1] == b[n];
      KnownAfterJoins(services, a, b[..n]);
    }
  }

  /** Sorted offers are those up to a time followed by those past it. */
  lemma OffersInTwo(offers: seq<OfferRevision>, w: int)
    requires Sorted(offers, OfferAtMost)
    ensures offers == Filter(offers, OffersUntil(w)) + Filter(offers, OffersPast(w))
  {
    OfferOrder();
    FilterKeepsSorted(offers, OffersUntil(w), OfferAtMost);
    FilterKeepsSorted(offers, OffersPast(w), OfferAtMost);
    SortOfSorted(offers, OfferAtMost);
    SortOfSorted(Filter(offers, OffersUntil(w)), OfferAtMost);
    SortOfSorted(Filter(offers, OffersPast(w)), OfferAtMost);
    SortSplits(offers, OffersUntil(w), OffersPast(w), OfferAtMost);
  }

  predicate NoLater(a: PopulationEvent, b: PopulationEvent) { a.snapshot.effectiveAtMs <= b.snapshot.effectiveAtMs }

  lemma UpdatesInTwo(updates: seq<PopulationEvent>, w: int)
    requires InSequence(updates)
    ensures updates == Filter(updates, UpdatesUntil(w)) + Filter(updates, UpdatesPast(w))
  {
    FilterKeepsSorted(updates, UpdatesUntil(w), NoLater);
    FilterKeepsSorted(updates, UpdatesPast(w), NoLater);
    SortOfSorted(updates, NoLater);
    SortOfSorted(Filter(updates, UpdatesUntil(w)), NoLater);
    SortOfSorted(Filter(updates, UpdatesPast(w)), NoLater);
    SortSplits(updates, UpdatesUntil(w), UpdatesPast(w), NoLater);
  }

  lemma DueOffersJoin(s: TwoSteps)
    requires Planned(s.journal + s.tail, s.before, s.second, s.direct) && Settled(s.before) && SameOffers(s)
    ensures Filter(s.direct.reading.offers, DueOffers(NowMs(s.second.regions)))
            == Filter(s.plan1.reading.offers, DueOffers(NowMs(s.first.regions)))
               + Filter(s.plan2.reading.offers, DueOffers(NowMs(s.second.regions)))
  {
    DueOffersAreSorted(s.journal + s.tail, s.before, s.second, s.direct);
    OffersInTwo(Filter(s.direct.reading.offers, DueOffers(NowMs(s.second.regions))), NowMs(s.first.regions) - 1);
  }

  /** Whatever the order of the boundaries, both ways end with the same services and population. */
  lemma ServicesAgree(evaluate: Input -> Option<Text>, s: TwoSteps, e: Ends)
    requires CatchesUp(evaluate, s) && BothRan(evaluate, s, e) && SameOffers(s) && HandsOver(s) && Settled(s.middle)
    ensures e.run2.held.services == e.runD.held.services
  {
    var n1, n2 := NowMs(s.first.regions), NowMs(s.second.regions);
    assert s.run1.held.services
           == KnownAfter(s.before.cursor.offerServices, Filter(s.plan1.reading.offers, DueOffers(n1))) by {
      ServicesOfRun(evaluate, s.journal, s.before, s.first, s.after, s.middle, s.plan1, s.run1);
    }
    assert e.run2.held.services
           == KnownAfter(s.middle.cursor.offerServices, Filter(s.plan2.reading.offers, DueOffers(n2))) by {
      ServicesOfRun(evaluate, s.after + s.tail, s.middle, s.second, e.after2, e.last, s.plan2, e.run2);
    }
    assert e.runD.held.services
           == KnownAfter(s.before.cursor.offerServices, Filter(s.direct.reading.offers, DueOffers(n2))) by {
      ServicesOfRun(evaluate, s.journal + s.tail, s.before, s.second, e.afterD, e.lastD, s.direct, e.runD);
    }
    DueOffersJoin(s);
    KnownAfterJoins(s.before.cursor.offerServices, Filter(s.plan1.reading.offers, DueOffers(n1)),
                    Filter(s.plan2.reading.offers, DueOffers(n2)));
  }

  lemma PopulationAgrees(evaluate: Input -> Option<Text>, s: TwoSteps, e: Ends)
    requires CatchesUp(evaluate, s) && BothRan(evaluate, s, e) && SameUpdates(s) && HandsOver(s) && Settled(s.middle)
    ensures e.run2.held.population == e.runD.held.population
  {
    var safe1 := SafeThrough(NowMs(s.first.regions));
    PopulationOfRun(evaluate, s.journal, s.before, s.first, s.after, s.middle, s.plan1, s.run1);
    PopulationOfRun(evaluate, s.after + s.tail, s.middle, s.second, e.after2, e.last, s.plan2, e.run2);
    PopulationOfRun(evaluate, s.journal + s.tail, s.before, s.second, e.afterD, e.lastD, s.direct, e.runD);
    UpdatesInSequence(s.journal + s.tail, s.before, s.second, s.direct);
    UpdatesInTwo(s.direct.reading.updates, safe1);
    LastOfJoined(s.before.input.population, s.plan1.reading.updates, s.plan2.reading.updates);
  }

  lemma LastOfJoined(population: Option<Snapshot>, a: seq<PopulationEvent>, b: seq<PopulationEvent>)
    ensures LastUpdate(population, a + b) == LastUpdate(LastUpdate(population, a), b)
  {
    assert b == [] ==> a + b == a;
  }

  // ------------------------------------------------------------------ the single run at time zero

  lemma FirstStepChanges(evaluate: Input -> Option<Text>, s: TwoSteps)
    requires FirstStep(evaluate, s)
    ensures !ChangesNothing(s.journal, s.before, s.first, s.plan1, s.run1)
  {
    UnchangedAppendsNothing(evaluate, s.before, ContextOf(s.journal, s.first, s.plan1), s.run1, s.after, s.middle);
  }

  /** A single run at time zero that changed nothing would leave the first step nothing to change either. */
  lemma DirectChanges(evaluate: Input -> Option<Text>, s: TwoSteps, e: Ends)
    requires CatchesUp(evaluate, s) && BothRan(evaluate, s, e) && NowMs(s.second.regions) == 0
    ensures !ChangesNothing(s.journal + s.tail, s.before, s.second, s.direct, e.runD)
  {
    if ChangesNothing(s.journal + s.tail, s.before, s.second, s.direct, e.runD) {
      FirstStepChanges(evaluate, s);
      CatchUpIsIndependent(evaluate, s);
      assert s.plan1.boundaries == [];
      BothWaysAgree(evaluate, s);
      TailIsNew(evaluate, s);
      NothingReceived(evaluate, s);
      NothingConfirmedAtZero(s.journal, s.before, s.first, s.plan1);
      NothingConfirmedAtZero(s.journal + s.tail, s.before, s.second, s.direct);
      assert s.run1 == StartOf(s.journal, s.before);
      assert e.runD == StartOf(s.journal + s.tail, s.before);
      HeadOfJoined(s.journal, s.tail, s.middle.cursor.throughWorldSequence);
    }
  }

  lemma NothingConfirmedAtZero(journal: Journal, before: Checkpoint, request: Request, plan: Plan)
    requires Planned(journal, before, request, plan) && NowMs(request.regions) == 0
    ensures plan.confirmed == []
  {
    PlanKeeps(journal, before, request, plan);
    NothingDueAtZero(plan.receipts.all, [], []);
  }

  lemma NothingReceived(evaluate: Input -> Option<Text>, s: TwoSteps)
    requires CatchesUp(evaluate, s) && SameHistory(s) && SameTail(s) && s.direct.receipts.received == []
    ensures s.plan1.receipts.received == []
  {
    assert SameReading(s) by {
      TrainsAgree(evaluate, s);
      ReadingsAgree(s);
    }
    ReceivedJoin(s);
  }

  lemma ReceivedJoin(s: TwoSteps)
    requires Plans(s) && SameReading(s)
    ensures s.direct.receipts.received == s.plan1.receipts.received + ReceiptsOf(LateReports(s))
  {
    PlanGathers(s.journal, s.before, s.first, s.plan1);
    PlanGathers(s.journal + s.tail, s.before, s.second, s.direct);
    ReceiptsOfJoined(EarlyReports(s), LateReports(s));
  }

  lemma HeadOfJoined(journal: Journal, tail: Journal, through: nat)
    requires UpToSequence(journal, through) && PastSequence(tail, through)
    ensures Head(journal) <= Head(journal + tail)
  {
    assert tail == [] ==> journal + tail == journal;
  }

  // ------------------------------------------------------------------ the same end

  ghost predicate EndsPlanned(s: TwoSteps, e: Ends) {
    && s.second.regions != []
    && StateOf(e.last) == PlannedState(s.plan2, e.run2.held, SafeThrough(NowMs(s.second.regions)))
    && StateOf(e.lastD) == PlannedState(s.direct, e.runD.held, SafeThrough(NowMs(s.second.regions)))
  }

  lemma BothEndAsPlanned(evaluate: Input -> Option<Text>, s: TwoSteps, e: Ends)
    requires CatchesUp(evaluate, s) && BothRan(evaluate, s, e) && HandsOver(s) && Settled(s.middle)
    ensures EndsPlanned(s, e)
  {
    if NowMs(s.second.regions) > 0 {
      RunEndsAsPlanned(evaluate, s.journal + s.tail, s.before, s.second, e.afterD, e.lastD, s.direct, e.runD);
    } else {
      NothingConfirmedAtZero(s.journal, s.before, s.first, s.plan1);
      DirectChanges(evaluate, s, e);
      RunPublishes(evaluate, s.journal + s.tail, s.before, s.second, e.afterD, e.lastD, s.direct, e.runD);
    }
    RunEndsAsPlanned(evaluate, s.after + s.tail, s.middle, s.second, e.after2, e.last, s.plan2, e.run2);
  }

  /** Two steps publish exactly the state of one: receipts, offers, population, services and time. This holds
      even where the order of the boundaries differs. */
  lemma CatchUpEndsAlike(evaluate: Input -> Option<Text>, s: TwoSteps, e: Ends)
    requires CatchesUp(evaluate, s) && BothRan(evaluate, s, e)
    ensures StateOf(e.last) == StateOf(e.lastD)
  {
    CatchUpIsIndependent(evaluate, s);
    BothWaysAgree(evaluate, s);
    ServicesAgree(evaluate, s, e);
    PopulationAgrees(evaluate, s, e);
    SourcesOfBothWays(s);
    BothEndAsPlanned(evaluate, s, e);
    PlannedAlike(s, e);
  }

  lemma SourcesOfBothWays(s: TwoSteps)
    requires Plans(s) && SameHistory(s) && HandsOver(s)
    ensures s.direct.reading.sourceServices == s.plan2.reading.sourceServices
  {
    PlanReadsSource(s.journal, s.before, s.first, s.plan1);
    PlanReadsSource(s.after + s.tail, s.middle, s.second, s.plan2);
    PlanReadsSource(s.journal + s.tail, s.before, s.second, s.direct);
    SourcesAgree(s);
  }

  lemma PlannedAlike(s: TwoSteps, e: Ends)
    requires EndsPlanned(s, e)
    requires s.direct.confirmed == s.plan2.confirmed && s.direct.pendingReceipts == s.plan2.pendingReceipts
    requires s.direct.receipts.sequences == s.plan2.receipts.sequences
             && s.direct.pendingOffers == s.plan2.pendingOffers
    requires s.direct.reading.sourceServices == s.plan2.reading.sourceServices
    requires e.run2.held.services == e.runD.held.services && e.run2.held.population == e.runD.held.population
    ensures StateOf(e.last) == StateOf(e.lastD)
  {
  }

  // ------------------------------------------------------------------ the kernel's inputs on the way

  lemma {:induction false} PutAppends(applied: seq<Receipt>, r: Receipt)
    requires !HasId(applied, r.receiptId)
    ensures PutReceipt(applied, r) == applied + [r]
  {
    if applied != [] {
      assert applied[0].receiptId != r.receiptId;
      forall i | 0 <= i < |applied[1..]|
        ensures applied[1..][i].receiptId != r.receiptId
      {
        assert applied[1..][i] == applied[i + 1];
      }
      PutAppends(applied[1..], r);
    }
  }

  ghost predicate OneAnId(receipts: seq<Receipt>) {
    forall i, j :: 0 <= i < j < |receipts| ==> receipts[i].receiptId != receipts[j].receiptId
  }

  /** Receipts with new ids are appended to the table. */
  lemma {:induction false} PutAllAppends(applied: seq<Receipt>, receipts: seq<Receipt>)
    requires OneAnId(applied + receipts)
    ensures PutReceipts(applied, receipts) == applied + receipts
    decreases |receipts|
  {
    if receipts == [] {
      assert applied + receipts == applied;
    } else {
      var n := |receipts| - 1;
      assert applied + receipts == (applied + receipts[..n]) + [receipts[n]];
      LastIdIsNew(applied + receipts[..n], receipts[n]);
      PutAllAppends(applied, receipts[..n]);
      PutAppends(applied + receipts[..n], receipts[n]);
    }
  }

  lemma LastIdIsNew(receipts: seq<Receipt>, last: Receipt)
    requires OneAnId(receipts + [last])
    ensures OneAnId(receipts) && !HasId(receipts, last.receiptId)
  {
    var all := receipts + [last];
    forall i, j | 0 <= i < j < |receipts|
      ensures receipts[i].receiptId != receipts[j].receiptId
    {
      assert all[i].receiptId != all[j].receiptId;
    }
    forall i | 0 <= i < |receipts|
      ensures receipts[i].receiptId != last.receiptId
    {
      assert all[i].receiptId != all[|receipts|].receiptId;
    }
  }

  lemma AppliedIs(held: Held, bs: seq<Boundary>)
    requires OneAnId(held.applied + ReceiptsCarriedBy(bs))
    ensures ApplyAll(held, bs).applied == held.applied + ReceiptsCarriedBy(bs)
  {
    BoundariesAreEvents(held, bs);
    AppliedAfter(held, Flatten(bs));
    PutAllAppends(held.applied, ReceiptsCarriedBy(bs));
  }

  /** A collection within a consistent, repetition-free one has each id once. */
  lemma PartHasOneAnId(whole: seq<Receipt>, part: seq<Receipt>)
    requires Consistent(whole) && Distinct(whole) && multiset(part) <= multiset(whole)
    ensures OneAnId(part) && forall r :: r in part ==> r in whole
  {
    DistinctIsOnce(whole);
    OnceIsDistinct(part);
    forall r | r in part
      ensures r in whole
    {
      assert r in multiset(part) && r in multiset(whole);
    }
    forall i, j | 0 <= i < j < |part|
      ensures part[i].receiptId != part[j].receiptId
    {
      assert part[i] in whole && part[j] in whole && part[i] != part[j];
      assert Consistent([part[i], part[j]]) by {
        ConsistentPart(whole, [part[i], part[j]]);
      }
      assert Agree([part[i], part[j]][0], [part[i], part[j]][1]);
    }
  }

  /** Two arrangements of accepted receipts are put in the same order. */
  lemma SameOrder(whole: seq<Receipt>, known: seq<Service>, a: seq<Receipt>, b: seq<Receipt>)
    requires Accepts(whole, known) && multiset(a) == multiset(b) && forall r :: r in a ==> r in whole
    ensures InOrder(a) == InOrder(b)
  {
    ReceiptOrder();
    forall x, y | x in a && y in a && ReceiptAtMost(x, y) && ReceiptAtMost(y, x)
      ensures x == y
    {
      OrderTellsApart(whole, known, x, y);
    }
    SortOrderBlind(a, b, ReceiptAtMost);
  }

  /** The receipts of the single run up to a boundary of the second step, and those of the second step. */
  lemma AppliedAgree(rec0: seq<Receipt>, confirmed1: seq<Receipt>, confirmedD: seq<Receipt>, b1: seq<Boundary>,
                     b2: seq<Boundary>, k: nat,
                     known: seq<Service>)
    requires k <= |b2| && Accepts(confirmedD, known) && Distinct(confirmedD)
    requires multiset(confirmed1) == multiset(rec0) + multiset(ReceiptsCarriedBy(b1))
    requires multiset(confirmedD) == multiset(rec0) + multiset(ReceiptsCarriedBy(b1 + b2))
    ensures OneAnId(rec0 + ReceiptsCarriedBy(b1 + b2[..k])) && OneAnId(confirmed1 + ReceiptsCarriedBy(b2[..k]))
    ensures InOrder(rec0 + ReceiptsCarriedBy(b1 + b2[..k])) == InOrder(confirmed1 + ReceiptsCarriedBy(b2[..k]))
  {
    assert b2 == b2[..k] + b2[k..];
    ReceiptsCarriedJoin(b2[..k], b2[k..]);
    ReceiptsCarriedJoin(b1, b2);
    ReceiptsCarriedJoin(b1, b2[..k]);
    var one, two := rec0 + ReceiptsCarriedBy(b1 + b2[..k]), confirmed1 + ReceiptsCarriedBy(b2[..k]);
    assert multiset(one) == multiset(two);
    assert multiset(one) <= multiset(confirmedD);
    PartHasOneAnId(confirmedD, one);
    PartHasOneAnId(confirmedD, two);
    SameOrder(confirmedD, known, one, two);
  }

  /** What the kernel is told with an input, apart from time, revision and its own previous result. */
  datatype Told = Told(services: seq<Service>, progress: Option<Progress>, population: Option<Snapshot>)

  function ToldIn(input: Input): Told { Told(input.services, input.operationalProgress, input.population) }

  function ToldBy(held: Held): Told {
    Told(AllWithConfirmed(held.services, InOrder(held.applied)), Some(ProgressOf(InOrder(held.applied))),
         held.population)
  }

  lemma BoundaryInputTells(context: Context, current: Checkpoint, held: Held, atMs: nat)
    ensures ToldIn(BoundaryInput(context, current, held, atMs)) == ToldBy(held)
  {
  }

  /** What is told after some boundaries. */
  function ToldAfter(held: Held, boundaries: seq<Boundary>): Told { ToldBy(ApplyAll(held, boundaries)) }

  /** What the boundary checkpoints among some journal entries tell the kernel, in their order. */
  function ToldOn(entries: Journal): seq<Told> {
    if entries == [] then []
    else
      var last := entries[|entries| - 1].event;
      ToldOn(entries[..|entries| - 1]) + (if last.DemandProgressed? then [ToldIn(last.checkpoint.input)] else [])
  }

  /** The values of `f` after each of the boundaries `more`, applied after `done`. */
  function Along<T>(f: seq<Boundary> -> T, done: seq<Boundary>, more: seq<Boundary>): seq<T> {
    if more == [] then [] else Along(f, done, more[..|more| - 1]) + [f(done + more)]
  }

  lemma {:induction false} AlongJoins<T>(f: seq<Boundary> -> T, done: seq<Boundary>, more: seq<Boundary>)
    ensures Along(f, [], done + more) == Along(f, [], done) + Along(f, done, more)
    decreases |more|
  {
    if more == [] {
      assert done + more == done;
    } else {
      var n := |more| - 1;
      assert (done + more)[..|done + more| - 1] == done + more[..n];
      AlongJoins(f, done, more[..n]);
      assert [] + (done + more) == done + more;
    }
  }

  lemma {:induction false} AlongAlike<T>(f: seq<Boundary> -> T, done: seq<Boundary>, g: seq<Boundary> -> T,
                                         more: seq<Boundary>)
    requires forall k :: 0 < k <= |more| ==> f(done + more[..k]) == g(more[..k])
    ensures Along(f, done, more) == Along(g, [], more)
    decreases |more|
  {
    if more != [] {
      var n := |more| - 1;
      forall k | 0 < k <= n
        ensures f(done + more[..n][..k]) == g(more[..n][..k])
      {
        assert more[..n][..k] == more[..k];
      }
      AlongAlike(f, done, g, more[..n]);
      assert more[..|more|] == more && [] + more == more;
    }
  }

  function ToldOf(held: Held): seq<Boundary> -> Told { (boundaries: seq<Boundary>) => ToldAfter(held, boundaries) }

  /** What is told at each of the boundaries `more`, applied after `done`. */
  function ToldAlong(held: Held, done: seq<Boundary>, more: seq<Boundary>): seq<Told> {
    Along(ToldOf(held), done, more)
  }

  lemma AlongLast<T>(f: seq<Boundary> -> T, boundaries: seq<Boundary>)
    requires boundaries != []
    ensures Along(f, [], boundaries) == Along(f, [], boundaries[..|boundaries| - 1]) + [f(boundaries)]
  {
    assert [] + boundaries == boundaries;
  }

  lemma ToldThere(held: Held, boundaries: seq<Boundary>)
    ensures ToldOf(held)(boundaries) == ToldBy(ApplyAll(held, boundaries))
  {
  }

  lemma ToldFurther(held: Held, boundaries: seq<Boundary>, earlier: Journal, last: Entry, told: Told)
    requires boundaries != [] && ToldOn(earlier) == Along(ToldOf(held), [], boundaries[..|boundaries| - 1])
    requires last.event.DemandProgressed? && ToldIn(last.event.checkpoint.input) == told
    requires told == ToldOf(held)(boundaries)
    ensures ToldOn(earlier + [last]) == Along(ToldOf(held), [], boundaries)
  {
    ToldOnLast(earlier, last);
    AlongLast(ToldOf(held), boundaries);
  }

  lemma BoundaryTells(evaluate: Input -> Option<Text>, context: Context, run: Run, b: Boundary, end: Run)
    requires EndsWith(run.journal, run.current) && AtBoundary(evaluate, context, run, b) == Ok(end)
    ensures EndsWith(end.journal, end.current) && end.held == ApplyBoundary(run.held, b)
    ensures end.journal == run.journal + [Entry(Head(run.journal) + 1, DemandProgressed(end.current))]
    ensures ToldIn(end.current.input) == ToldBy(end.held)
  {
    BoundaryIsCommitted(evaluate, context, run, b, end);
    BoundaryCommits(evaluate, context, run, b, end);
    BoundaryInputTells(context, run.current, end.held, b.atMs);
  }

  lemma ToldOnLast(entries: Journal, e: Entry)
    ensures ToldOn(entries + [e])
            == ToldOn(entries) + (if e.event.DemandProgressed? then [ToldIn(e.event.checkpoint.input)] else [])
  {
    assert (entries + [e])[..|entries|] == entries;
  }

  ghost predicate TellsAll(added: Journal, held: Held, boundaries: seq<Boundary>) {
    ToldOn(added) == ToldAlong(held, [], boundaries)
  }

  lemma OneMoreTold(evaluate: Input -> Option<Text>, context: Context, run: Run, boundaries: seq<Boundary>, before: Run,
                    end: Run, earlier: Journal) returns (last: Entry)
    requires boundaries != [] && EndsWith(before.journal, before.current)
    requires AtBoundary(evaluate, context, before, boundaries[|boundaries| - 1]) == Ok(end)
    requires before.held == ApplyAll(run.held, boundaries[..|boundaries| - 1])
    requires TellsAll(earlier, run.held, boundaries[..|boundaries| - 1])
    ensures end.journal == before.journal + [last] && TellsAll(earlier + [last], run.held, boundaries)
  {
    BoundaryTells(evaluate, context, before, boundaries[|boundaries| - 1], end);
    last := Entry(Head(before.journal) + 1, DemandProgressed(end.current));
    ToldThere(run.held, boundaries);
    ToldFurther(run.held, boundaries, earlier, last, ToldBy(end.held));
  }

  /** A replay appends one checkpoint a boundary, whose input tells what is held there. */
  lemma {:induction false} ReplayTells(evaluate: Input -> Option<Text>, context: Context, run: Run,
                                       boundaries: seq<Boundary>, end: Run)
    returns (added: Journal)
    requires EndsWith(run.journal, run.current) && Replay(evaluate, context, run, boundaries) == Ok(end)
    ensures end.journal == run.journal + added && TellsAll(added, run.held, boundaries)
    decreases |boundaries|
  {
    if boundaries == [] {
      added := [];
    } else {
      var front := boundaries[..|boundaries| - 1];
      var before := LastReplay(evaluate, context, run, boundaries, end);
      var earlier := ReplayTells(evaluate, context, run, front, before);
      ReplayCommits(evaluate, context, run, front, before);
      var last := OneMoreTold(evaluate, context, run, boundaries, before, end, earlier);
      added := earlier + [last];
    }
  }

  /** What a run appends tells the kernel what its boundaries make of the start. */
  lemma RunTells(evaluate: Input -> Option<Text>, journal: Journal, before: Checkpoint, request: Request,
                 after: Journal,
                 next: Checkpoint, plan: Plan, run: Run) returns (added: Journal)
    requires RanWith(evaluate, journal, before, request, after, next, plan, run) && Settled(before)
             && EndsWith(journal, before)
    ensures after == journal + added && ToldOn(added) == ToldAlong(StartOf(journal, before).held, [], plan.boundaries)
  {
    var replayed := ReplayTells(evaluate, ContextOf(journal, request, plan), StartOf(journal, before), plan.boundaries,
                                run);
    RunPublishes(evaluate, journal, before, request, after, next, plan, run);
    UnchangedAppendsNothing(evaluate, before, ContextOf(journal, request, plan), run, after, next);
    if ChangesNothing(journal, before, request, plan, run) {
      added := replayed;
    } else {
      added := PublishedTells(run.journal, journal, replayed, after, next);
    }
  }

  lemma PublishedTells(replayed: Journal, journal: Journal, steps: Journal, after: Journal, next: Checkpoint)
    returns (added: Journal)
    requires PublishedFrom(replayed, after, next) && replayed == journal + steps
    ensures after == journal + added && ToldOn(added) == ToldOn(steps)
  {
    var last := Entry(Head(replayed) + 1, DemandEvaluated(next));
    added := steps + [last];
    ToldOnLast(steps, last);
  }

  lemma ConfirmedOfBoth(evaluate: Input -> Option<Text>, s: TwoSteps)
    requires CatchesUp(evaluate, s) && KeepsOrder(s) && ClockRuns(s.before, s.first) && ClockRuns(s.before, s.second)
    ensures multiset(s.plan1.confirmed)
            == multiset(s.before.cursor.receipts) + multiset(ReceiptsCarriedBy(s.plan1.boundaries))
    ensures multiset(s.direct.confirmed)
            == multiset(s.before.cursor.receipts) + multiset(ReceiptsCarriedBy(s.plan1.boundaries + s.plan2.boundaries))
    ensures Accepts(s.direct.confirmed, s.direct.reading.known) && Distinct(s.direct.confirmed)
  {
    CatchUpIsIndependent(evaluate, s);
    ReceiptsAreAppliedOnce(s.journal, s.before, s.first, s.plan1);
    ReceiptsAreAppliedOnce(s.journal + s.tail, s.before, s.second, s.direct);
    PlanGathers(s.journal + s.tail, s.before, s.second, s.direct);
    PlanSplitsReceipts(s.journal + s.tail, s.before, s.second, s.direct);
    DistinctParts(s.direct.confirmed, s.direct.pendingReceipts);
    AcceptedPart(Gathered(s.journal + s.tail, s.before.cursor, s.direct.reading.known), s.direct.confirmed,
                 s.direct.reading.known);
  }

  /** The kernel is told the same after the first step's boundaries and `k` more, either way. */
  ghost predicate ToldTheSame(s: TwoSteps, k: nat) {
    && k <= |s.plan2.boundaries|
    && ToldAfter(StartOf(s.journal + s.tail, s.before).held, s.plan1.boundaries + s.plan2.boundaries[..k])
       == ToldAfter(StartOf(s.after + s.tail, s.middle).held, s.plan2.boundaries[..k])
  }

  lemma SecondStepTells(evaluate: Input -> Option<Text>, s: TwoSteps, k: nat)
    requires CatchesUp(evaluate, s) && KeepsOrder(s) && 0 < k <= |s.plan2.boundaries|
    ensures ToldTheSame(s, k)
  {
    CatchUpIsIndependent(evaluate, s);
    if NowMs(s.second.regions) == 0 {
      NothingAppliedAtZero(evaluate, s);
    }
    WaysCompare(evaluate, s);
    ToldFromComparison(s, k);
  }

  /** What the entries past a journal tell the kernel. */
  function ToldSince(journal: Journal, after: Journal): seq<Told> {
    if |journal| <= |after| then ToldOn(after[|journal|..]) else []
  }

  lemma ToldSinceAdded(journal: Journal, added: Journal)
    ensures ToldSince(journal, journal + added) == ToldOn(added)
  {
    assert (journal + added)[|journal|..] == added;
  }

  lemma RunTellsSince(evaluate: Input -> Option<Text>, journal: Journal, before: Checkpoint, request: Request,
                      after: Journal,
                      next: Checkpoint, plan: Plan, run: Run)
    requires RanWith(evaluate, journal, before, request, after, next, plan, run) && Settled(before)
             && EndsWith(journal, before)
    ensures ToldSince(journal, after) == ToldAlong(StartOf(journal, before).held, [], plan.boundaries)
  {
    var added := RunTells(evaluate, journal, before, request, after, next, plan, run);
    ToldSinceAdded(journal, added);
  }

  lemma SecondStepTellsAll(evaluate: Input -> Option<Text>, s: TwoSteps)
    requires CatchesUp(evaluate, s) && KeepsOrder(s)
    ensures ToldAlong(StartOf(s.journal + s.tail, s.before).held, s.plan1.boundaries, s.plan2.boundaries)
            == ToldAlong(StartOf(s.after + s.tail, s.middle).held, [], s.plan2.boundaries)
  {
    forall k | 0 < k <= |s.plan2.boundaries|
      ensures ToldTheSame(s, k)
    {
      SecondStepTells(evaluate, s, k);
    }
    AlikeThroughout(s);
  }

  lemma AlikeThroughout(s: TwoSteps)
    requires forall k :: 0 < k <= |s.plan2.boundaries| ==> ToldTheSame(s, k)
    ensures ToldAlong(StartOf(s.journal + s.tail, s.before).held, s.plan1.boundaries, s.plan2.boundaries)
            == ToldAlong(StartOf(s.after + s.tail, s.middle).held, [], s.plan2.boundaries)
  {
    var start, second := StartOf(s.journal + s.tail, s.before).held, StartOf(s.after + s.tail, s.middle).held;
    forall k | 0 < k <= |s.plan2.boundaries|
      ensures ToldAfter(start, s.plan1.boundaries + s.plan2.boundaries[..k])
              == ToldAfter(second, s.plan2.boundaries[..k])
    {
      assert ToldTheSame(s, k);
    }
    AlongAlike(ToldOf(start), s.plan1.boundaries, ToldOf(second), s.plan2.boundaries);
  }

  /** When the order is kept, the boundary checkpoints that the two steps commit tell the kernel exactly what those
      of the single run do, one after the other: the same services, progress and population. */
  lemma KernelIsToldTheSame(evaluate: Input -> Option<Text>, s: TwoSteps, e: Ends)
    requires CatchesUp(evaluate, s) && BothRan(evaluate, s, e) && KeepsOrder(s)
    ensures ToldSince(s.journal + s.tail, e.afterD)
            == ToldSince(s.journal, s.after) + ToldSince(s.after + s.tail, e.after2)
  {
    SecondStepTellsAll(evaluate, s);
    AllTell(evaluate, s, e);
    CatchUpIsIndependent(evaluate, s);
    AlongJoins(ToldOf(StartOf(s.journal, s.before).held), s.plan1.boundaries, s.plan2.boundaries);
  }

  lemma AllTell(evaluate: Input -> Option<Text>, s: TwoSteps, e: Ends)
    requires CatchesUp(evaluate, s) && BothRan(evaluate, s, e)
    ensures ToldSince(s.journal, s.after) == ToldAlong(StartOf(s.journal, s.before).held, [], s.plan1.boundaries)
    ensures ToldSince(s.after + s.tail, e.after2)
            == ToldAlong(StartOf(s.after + s.tail, s.middle).held, [], s.plan2.boundaries)
    ensures ToldSince(s.journal + s.tail, e.afterD)
            == ToldAlong(StartOf(s.journal, s.before).held, [], s.direct.boundaries)
  {
    FirstStepHandsOver(evaluate, s);
    RunTellsSince(evaluate, s.journal, s.before, s.first, s.after, s.middle, s.plan1, s.run1);
    RunTellsSince(evaluate, s.after + s.tail, s.middle, s.second, e.after2, e.last, s.plan2, e.run2);
    RunTellsSince(evaluate, s.journal + s.tail, s.before, s.second, e.afterD, e.lastD, s.direct, e.runD);
  }

  /** What both ways start the second step with. */
  ghost predicate Compared(s: TwoSteps) {
    var start, second := StartOf(s.journal + s.tail, s.before).held, StartOf(s.after + s.tail, s.middle).held;
    && s.run1.held == ApplyAll(start, s.plan1.boundaries) && HeldAlike(second, s.run1.held)
    && multiset(second.applied) == multiset(start.applied) + multiset(ReceiptsCarriedBy(s.plan1.boundaries))
    && multiset(s.direct.confirmed)
       == multiset(start.applied) + multiset(ReceiptsCarriedBy(s.plan1.boundaries + s.plan2.boundaries))
    && Accepts(s.direct.confirmed, s.direct.reading.known) && Distinct(s.direct.confirmed)
  }

  lemma WaysCompare(evaluate: Input -> Option<Text>, s: TwoSteps)
    requires CatchesUp(evaluate, s) && KeepsOrder(s) && ClockRuns(s.before, s.first) && ClockRuns(s.before, s.second)
    ensures Compared(s)
  {
    FirstStepHandsOver(evaluate, s);
    ReplayOfRun(evaluate, s.journal, s.before, s.first, s.after, s.middle, s.plan1, s.run1);
    ConfirmedOfBoth(evaluate, s);
  }

  lemma ToldFromComparison(s: TwoSteps, k: nat)
    requires Compared(s) && k <= |s.plan2.boundaries|
    ensures ToldTheSame(s, k)
  {
    ToldAlike(StartOf(s.journal + s.tail, s.before).held, StartOf(s.after + s.tail, s.middle).held, s.run1.held,
              s.plan1.boundaries, s.plan2.boundaries, k, s.direct.confirmed, s.direct.reading.known);
  }

  lemma ToldAlike(start: Held, second: Held, reached: Held, b1: seq<Boundary>, b2: seq<Boundary>, k: nat,
                  confirmedD: seq<Receipt>, known: seq<Service>)
    requires k <= |b2| && reached == ApplyAll(start, b1) && HeldAlike(second, reached)
    requires multiset(second.applied) == multiset(start.applied) + multiset(ReceiptsCarriedBy(b1))
    requires multiset(confirmedD) == multiset(start.applied) + multiset(ReceiptsCarriedBy(b1 + b2))
    requires Accepts(confirmedD, known) && Distinct(confirmedD)
    ensures ToldAfter(start, b1 + b2[..k]) == ToldAfter(second, b2[..k])
  {
    HeldsStayAlike(start, second, reached, b1, b2[..k]);
    OrdersStayAlike(start, second, b1, b2, k, confirmedD, known);
    var one, two := ApplyAll(start, b1 + b2[..k]), ApplyAll(second, b2[..k]);
    ToldFrom(two, one);
  }

  lemma HeldsStayAlike(start: Held, second: Held, reached: Held, b1: seq<Boundary>, more: seq<Boundary>)
    requires reached == ApplyAll(start, b1) && HeldAlike(second, reached)
    ensures HeldAlike(ApplyAll(second, more), ApplyAll(start, b1 + more))
  {
    ApplyAllJoins(start, b1, more);
    BoundariesKeepAlike(second, reached, more);
  }

  lemma OrdersStayAlike(start: Held, second: Held, b1: seq<Boundary>, b2: seq<Boundary>, k: nat,
                        confirmedD: seq<Receipt>, known: seq<Service>)
    requires k <= |b2| && Accepts(confirmedD, known) && Distinct(confirmedD)
    requires multiset(second.applied) == multiset(start.applied) + multiset(ReceiptsCarriedBy(b1))
    requires multiset(confirmedD) == multiset(start.applied) + multiset(ReceiptsCarriedBy(b1 + b2))
    ensures InOrder(ApplyAll(second, b2[..k]).applied) == InOrder(ApplyAll(start, b1 + b2[..k]).applied)
  {
    AppliedAgree(start.applied, second.applied, confirmedD, b1, b2, k, known);
    AppliedIs(start, b1 + b2[..k]);
    AppliedIs(second, b2[..k]);
  }

  lemma ToldFrom(a: Held, b: Held)
    requires HeldAlike(a, b) && InOrder(a.applied) == InOrder(b.applied)
    ensures ToldBy(a) == ToldBy(b)
  {
  }
}