/** Safety of the demand consumer over every run: receipts are conserved and never unconfirmed, time does not
    fall, no train drops out, and the checkpoint chain holds. */
module DemandSafety {
  import opened DemandJournal
  import opened DemandOfferHistory
  import opened DemandProgress
  import opened DemandReceipts
  import opened DemandRuns
  import opened Outcomes
  import opened Sorting
  import opened TextOrder

  // ------------------------------------------------------------------ one run

  ghost predicate Ran(evaluate: Input -> Option<Text>, journal: Journal, before: Checkpoint, request: Request,
                      after: Journal, next: Checkpoint) {
    request.regions != []
    && Advanced(evaluate, request.worldId, journal, before, request.template, request.proposed, request.deploymentHash,
                request.regions) == Ok((after, next))
  }

  /** The plan and the replay behind a run that succeeded. */
  ghost predicate RanWith(evaluate: Input -> Option<Text>, journal: Journal, before: Checkpoint, request: Request,
                          after: Journal,
                          next: Checkpoint, plan: Plan, run: Run)
  {
    Planned(journal, before, request, plan)
    && Replay(evaluate, ContextOf(journal, request, plan), StartOf(journal, before), plan.boundaries) == Ok(run)
    && Finish(evaluate, before, ContextOf(journal, request, plan), run) == Ok((after, next))
  }

  function ContextOf(journal: Journal, request: Request, plan: Plan): Context {
    Context(request.worldId, request.template, request.deploymentHash, request.regions, Head(journal), plan)
  }

  lemma RunHasPlan(evaluate: Input -> Option<Text>, journal: Journal, before: Checkpoint, request: Request,
                   after: Journal, next: Checkpoint)
    returns (plan: Plan, run: Run)
    requires Ran(evaluate, journal, before, request, after, next)
    ensures RanWith(evaluate, journal, before, request, after, next, plan, run)
  {
    plan := PlanOf(journal, before, request.template, request.proposed, request.deploymentHash, request.worldId,
                   request.regions).value;
    run := Replay(evaluate, ContextOf(journal, request, plan), StartOf(journal, before), plan.boundaries).value;
  }

  /** The checkpoint a run publishes, when it publishes one. */
  ghost predicate Publishes(journal: Journal, before: Checkpoint, request: Request, plan: Plan, run: Run,
                            after: Journal, next: Checkpoint) {
    && request.regions != []
    && next.input == FinalInput(ContextOf(journal, request, plan), run, SafeThrough(NowMs(request.regions)))
    && next.cursor == FinalCursor(ContextOf(journal, request, plan), run, SafeThrough(NowMs(request.regions)))
    && PublishedFrom(run.journal, after, next)
  }

  ghost predicate PublishedFrom(replayed: Journal, after: Journal, next: Checkpoint) {
    after == replayed + [Entry(Head(replayed) + 1, DemandEvaluated(next))] && EndsWith(after, next)
  }

  ghost predicate ChangesNothing(journal: Journal, before: Checkpoint, request: Request, plan: Plan, run: Run) {
    request.regions != []
        && Unchanged(before, ContextOf(journal, request, plan), run, SafeThrough(NowMs(request.regions)))
  }

  lemma FinishCommits(evaluate: Input -> Option<Text>, before: Checkpoint, context: Context, run: Run, after: Journal,
                      next: Checkpoint, target: nat)
    requires context.regions != [] && Finish(evaluate, before, context, run) == Ok((after, next))
    requires !Unchanged(before, context, run, SafeThrough(NowMs(context.regions)))
    requires target
             == Largest(Largest(run.current.input.nowMs, SafeThrough(NowMs(context.regions))), before.input.nowMs)
    ensures Committed(evaluate, run.journal, FinalInput(context, run, target), context.deploymentHash,
                      run.held.provenance,
                      FinalCursor(context, run, target), true) == Ok((after, next))
  {
  }

  lemma ReplayOfRun(evaluate: Input -> Option<Text>, journal: Journal, before: Checkpoint, request: Request,
                    after: Journal,
                    next: Checkpoint, plan: Plan, run: Run)
    requires RanWith(evaluate, journal, before, request, after, next, plan, run) && Settled(before)
             && EndsWith(journal, before)
    ensures EndsWith(run.journal, run.current) && DemandRuns.Extends(journal, run.journal)
    ensures run.held == ApplyAll(StartOf(journal, before).held, plan.boundaries)
    ensures run.current.input.nowMs <= SafeThrough(NowMs(request.regions))
            && before.input.nowMs <= SafeThrough(NowMs(request.regions))
  {
    ReplayCommits(evaluate, ContextOf(journal, request, plan), StartOf(journal, before), plan.boundaries, run);
    PlanTimes(journal, before, request, plan);
  }

  lemma FinalCommitPublishes(evaluate: Input -> Option<Text>, journal: Journal, before: Checkpoint, request: Request,
                             after: Journal,
                             next: Checkpoint, plan: Plan, run: Run)
    requires request.regions != [] && EndsWith(run.journal, run.current)
    requires var context, safe := ContextOf(journal, request, plan), SafeThrough(NowMs(request.regions));
      Committed(evaluate, run.journal, FinalInput(context, run, safe), request.deploymentHash, run.held.provenance,
                FinalCursor(context, run, safe), true) == Ok((after, next))
    ensures Publishes(journal, before, request, plan, run, after, next)
  {
    var context, safe := ContextOf(journal, request, plan), SafeThrough(NowMs(request.regions));
    CommitAppends(evaluate, run.journal, run.current, FinalInput(context, run, safe), context.deploymentHash,
                  run.held.provenance, FinalCursor(context, run, safe), true, after, next);
  }

  /** A run either leaves everything as it was or publishes the planned state at the new safe time. */
  lemma RunPublishes(evaluate: Input -> Option<Text>, journal: Journal, before: Checkpoint, request: Request,
                     after: Journal,
                     next: Checkpoint, plan: Plan, run: Run)
    requires RanWith(evaluate, journal, before, request, after, next, plan, run) && Settled(before)
             && EndsWith(journal, before)
    ensures if ChangesNothing(journal, before, request, plan, run) then next == before && after == journal
            else Publishes(journal, before, request, plan, run, after, next)
  {
    if !ChangesNothing(journal, before, request, plan, run) {
      ReplayOfRun(evaluate, journal, before, request, after, next, plan, run);
      FinishCommits(evaluate, before, ContextOf(journal, request, plan), run, after, next,
                    SafeThrough(NowMs(request.regions)));
      FinalCommitPublishes(evaluate, journal, before, request, after, next, plan, run);
    }
  }

  // ------------------------------------------------------------------ the state stays settled

  lemma SequencesCover(journal: Journal, before: Checkpoint, request: Request, plan: Plan)
    requires Planned(journal, before, request, plan) && Settled(before)
    ensures HaveSequences(plan.confirmed + plan.pendingReceipts, plan.receipts.sequences)
  {
    var c := before.cursor;
    var reports := ReportsAfter(journal, c.throughWorldSequence, plan.reading.known);
    PlanGathers(journal, before, request, plan);
    PlanSplitsReceipts(journal, before, request, plan);
    SequencesGrow(c.receiptWorldSequences, reports);
    forall r | r in Gathered(journal, c, plan.reading.known)
      ensures r.receiptId in plan.receipts.sequences
    {
      if r in c.receipts + c.pendingReceipts {
        var i :| 0 <= i < |c.receipts + c.pendingReceipts| && (c.receipts + c.pendingReceipts)[i] == r;
      } else {
        var i :| 0 <= i < |ReceiptsOf(reports)| && ReceiptsOf(reports)[i] == r;
      }
    }
    var both := plan.confirmed + plan.pendingReceipts;
    forall i | 0 <= i < |both|
      ensures both[i].receiptId in plan.receipts.sequences
    {
      assert both[i] in both;
    }
  }

  lemma PendingStayAhead(journal: Journal, before: Checkpoint, request: Request, plan: Plan)
    requires Planned(journal, before, request, plan)
    ensures Between(plan.confirmed, 0, SafeThrough(NowMs(request.regions)))
    ensures ReceiptsFrom(plan.pendingReceipts, SafeThrough(NowMs(request.regions)))
    ensures OffersFrom(plan.pendingOffers, SafeThrough(NowMs(request.regions)))
  {
    PlanSplitsReceipts(journal, before, request, plan);
    PlanKeeps(journal, before, request, plan);
    AheadOfSafe(plan.confirmed, plan.pendingReceipts, NowMs(request.regions));
    LaterOffersAhead(plan.reading.offers, NowMs(request.regions));
  }

  lemma AheadOfSafe(confirmed: seq<Receipt>, pending: seq<Receipt>, nowMs: nat)
    requires (forall r :: r in confirmed ==> Due(nowMs, r.actualTimeMs))
             && (forall r :: r in pending ==> !Due(nowMs, r.actualTimeMs))
    ensures Between(confirmed, 0, SafeThrough(nowMs)) && ReceiptsFrom(pending, SafeThrough(nowMs))
  {
    assert forall i :: 0 <= i < |confirmed| ==> confirmed[i] in confirmed;
    assert forall i :: 0 <= i < |pending| ==> pending[i] in pending;
  }

  lemma LaterOffersAhead(offers: seq<OfferRevision>, nowMs: nat)
    ensures OffersFrom(Filter(offers, LaterOffers(nowMs)), SafeThrough(nowMs))
  {
    var later := Filter(offers, LaterOffers(nowMs));
    FilterMembers(offers, LaterOffers(nowMs));
    assert forall i :: 0 <= i < |later| ==> later[i] in later;
  }

  lemma PublishedIsSettled(journal: Journal, before: Checkpoint, request: Request, plan: Plan, run: Run, after: Journal,
                           next: Checkpoint)
    requires Planned(journal, before, request, plan) && Settled(before)
    requires Publishes(journal, before, request, plan, run, after, next)
    ensures Settled(next)
  {
    PlanSplitsReceipts(journal, before, request, plan);
    SequencesCover(journal, before, request, plan);
    PendingStayAhead(journal, before, request, plan);
    PendingStaySorted(journal, before, request, plan);
  }

  lemma OfferOrder()
    ensures TotalPreorder(OfferAtMost)
  {
  }

  lemma PendingStaySorted(journal: Journal, before: Checkpoint, request: Request, plan: Plan)
    requires Planned(journal, before, request, plan)
    ensures Sorted(plan.pendingOffers, OfferAtMost)
  {
    PlanReads(journal, before, request, plan);
    PlanKeeps(journal, before, request, plan);
    OfferOrder();
    SortSorted(before.cursor.pendingOffers + plan.reading.history, OfferAtMost);
    FilterKeepsSorted(plan.reading.offers, LaterOffers(NowMs(request.regions)), OfferAtMost);
  }

  // ------------------------------------------------------------------ validated receipts can be transported

  ghost predicate InWorld(receipts: seq<Receipt>, worldId: Text) {
    forall i :: 0 <= i < |receipts| ==> receipts[i].worldId == worldId
  }

  lemma {:induction false} UnobjectedAreOfWorld(reports: Journal, worldId: Text, regions: seq<Region>)
    requires forall i :: 0 <= i < |reports| ==> reports[i].event.StopReported?
    requires FirstObjection(reports, worldId, regions).None?
    ensures InWorld(ReceiptsOf(reports), worldId)
  {
    if reports != [] {
      var n := |reports| - 1;
      UnobjectedAreOfWorld(reports[..n], worldId, regions);
      assert forall i :: 0 <= i < n ==> ReceiptsOf(reports)[i] == ReceiptsOf(reports[..n])[i];
    }
  }

  lemma GatheredAreOfWorld(journal: Journal, before: Checkpoint, request: Request, plan: Plan)
    requires Planned(journal, before, request, plan)
    requires InWorld(before.cursor.receipts + before.cursor.pendingReceipts, request.worldId)
    ensures InWorld(Gathered(journal, before.cursor, plan.reading.known), request.worldId)
  {
    var held, reports := before.cursor.receipts + before.cursor.pendingReceipts,
        ReportsAfter(journal, before.cursor.throughWorldSequence, plan.reading.known);
    assert FirstObjection(reports, request.worldId, request.regions).None? by {
      PlanParts(journal, before, request, plan);
    }
    UnobjectedAreOfWorld(reports, request.worldId, request.regions);
    assert Gathered(journal, before.cursor, plan.reading.known) == held + ReceiptsOf(reports);
  }

  /** What a plan confirms can always be transported to the kernel: the final checkpoint is never refused because of
      its receipts, and the cursor keeps holding receipts of this world only. */
  lemma ConfirmedAreTransportable(journal: Journal, before: Checkpoint, request: Request, plan: Plan)
    requires Planned(journal, before, request, plan)
    requires InWorld(before.cursor.receipts + before.cursor.pendingReceipts, request.worldId)
    ensures Transportable(plan.confirmed, request.worldId, SafeThrough(NowMs(request.regions)))
    ensures InWorld(plan.confirmed + plan.pendingReceipts, request.worldId)
  {
    var gathered, both := Gathered(journal, before.cursor, plan.reading.known), plan.confirmed + plan.pendingReceipts;
    GatheredAreOfWorld(journal, before, request, plan);
    PlanSplitsReceipts(journal, before, request, plan);
    PendingStayAhead(journal, before, request, plan);
    ConsistentPart(both, plan.confirmed);
    ConsistentHasOneTime(plan.confirmed);
    forall i | 0 <= i < |both|
      ensures both[i].worldId == request.worldId
    {
      assert both[i] in both && both[i] in gathered;
    }
    assert forall i :: 0 <= i < |plan.confirmed| ==> both[i] == plan.confirmed[i];
  }

  // ------------------------------------------------------------------ receipts are conserved

  ghost predicate Holds(checkpoint: Checkpoint, r: Receipt) {
    r in checkpoint.cursor.receipts || r in checkpoint.cursor.pendingReceipts
  }

  /** What is held after a run with a plan: what was held before, and what the run read. */
  ghost predicate Conserves(before: Checkpoint, plan: Plan, next: Checkpoint) {
    && (forall r :: Holds(next, r) <==> Holds(before, r) || r in plan.receipts.received)
    && (forall r :: !(r in next.cursor.receipts && r in next.cursor.pendingReceipts))
  }

  lemma PublishedConserves(journal: Journal, before: Checkpoint, request: Request, plan: Plan, run: Run, after: Journal,
                           next: Checkpoint)
    requires Planned(journal, before, request, plan) && Settled(before)
    requires Publishes(journal, before, request, plan, run, after, next)
    ensures Settled(next) && Conserves(before, plan, next)
  {
    PublishedIsSettled(journal, before, request, plan, run, after, next);
    NeverBoth(next);
    PlanHolds(journal, before, request, plan);
  }

  lemma PlanHolds(journal: Journal, before: Checkpoint, request: Request, plan: Plan)
    requires Planned(journal, before, request, plan)
    ensures forall r :: r in plan.confirmed || r in plan.pendingReceipts
              <==> Holds(before, r) || r in plan.receipts.received
  {
    PlanGathers(journal, before, request, plan);
    PlanSplitsReceipts(journal, before, request, plan);
    forall r
      ensures r in Gathered(journal, before.cursor, plan.reading.known)
              <==> Holds(before, r) || r in plan.receipts.received
    {
    }
  }

  /** The receipts held after a run are those held before and those it read, and none is held twice. */
  lemma ReceiptsAreConserved(evaluate: Input -> Option<Text>, journal: Journal, before: Checkpoint, request: Request,
                             after: Journal, next: Checkpoint)
    requires Ran(evaluate, journal, before, request, after, next) && Settled(before) && EndsWith(journal, before)
    ensures exists plan :: Planned(journal, before, request, plan) && Conserves(before, plan, next)
    ensures Settled(next)
  {
    var plan, run := RunHasPlan(evaluate, journal, before, request, after, next);
    RunPublishes(evaluate, journal, before, request, after, next, plan, run);
    if ChangesNothing(journal, before, request, plan, run) {
      NeverBoth(next);
      assert Conserves(before, plan, next);
    } else {
      PublishedConserves(journal, before, request, plan, run, after, next);
    }
  }

  lemma NeverBoth(checkpoint: Checkpoint)
    requires Settled(checkpoint)
    ensures forall r :: !(r in checkpoint.cursor.receipts && r in checkpoint.cursor.pendingReceipts)
  {
    var c := checkpoint.cursor;
    forall r | r in c.receipts
      ensures r !in c.pendingReceipts
    {
      var i :| 0 <= i < |c.receipts| && c.receipts[i] == r;
      forall j | 0 <= j < |c.pendingReceipts|
        ensures c.pendingReceipts[j] != r
      {
        assert (c.receipts + c.pendingReceipts)[i] != (c.receipts + c.pendingReceipts)[|c.receipts| + j];
      }
    }
  }

  /** Receipts only move from pending to confirmed, provided the regions' clock has left zero; a clock at zero
      would turn every confirmed receipt back into a pending one. */
  lemma ConfirmedStay(journal: Journal, before: Checkpoint, request: Request, plan: Plan)
    requires Planned(journal, before, request, plan) && Settled(before)
    ensures (forall r :: r in before.cursor.receipts ==> r in plan.confirmed)
            <==> NowMs(request.regions) > 0 || before.cursor.receipts == []
  {
    var nowMs := NowMs(request.regions);
    PlanSplitsReceipts(journal, before, request, plan);
    TimeAdvances(journal, before, request, plan);
    if nowMs > 0 {
      forall r | r in before.cursor.receipts
        ensures Due(nowMs, r.actualTimeMs)
      {
        var i :| 0 <= i < |before.cursor.receipts| && before.cursor.receipts[i] == r;
      }
    } else if before.cursor.receipts != [] {
      assert before.cursor.receipts[0] in before.cursor.receipts && before.cursor.receipts[0] !in plan.confirmed;
    }
  }

  // ------------------------------------------------------------------ trains

  ghost predicate Introduces(offers: seq<OfferRevision>, trainRunId: Text) {
    exists i :: 0 <= i < |offers| && Offers(offers[i].services, trainRunId)
  }

  lemma {:induction false} KnownTrains(services: seq<Service>, offers: seq<OfferRevision>, trainRunId: Text)
    ensures Offers(KnownAfter(services, offers), trainRunId)
            <==> Offers(services, trainRunId) || Introduces(offers, trainRunId)
  {
    if offers != [] {
      var n := |offers| - 1;
      KnownTrains(services, offers[..n], trainRunId);
      NoTrainDropsOut(KnownAfter(services, offers[..n]), offers[n].services, trainRunId);
      IntroducesLast(offers[..n], offers[n], trainRunId);
      assert offers == offers[..n] + [offers[n]];
    }
  }

  lemma IntroducesLast(offers: seq<OfferRevision>, last: OfferRevision, trainRunId: Text)
    ensures Introduces(offers + [last], trainRunId)
            <==> Introduces(offers, trainRunId) || Offers(last.services, trainRunId)
  {
    var all := offers + [last];
    assert all[|offers|] == last;
    if Introduces(offers, trainRunId) {
      var i :| 0 <= i < |offers| && Offers(offers[i].services, trainRunId);
      assert all[i] == offers[i];
    }
    if Introduces(all, trainRunId) {
      var i :| 0 <= i < |all| && Offers(all[i].services, trainRunId);
      assert i < |offers| ==> all[i] == offers[i];
    }
  }

  lemma IntroducesMembers(offers: seq<OfferRevision>, trainRunId: Text)
    ensures Introduces(offers, trainRunId) <==> exists o :: o in offers && Offers(o.services, trainRunId)
  {
    if o :| o in offers && Offers(o.services, trainRunId) {
      var i :| 0 <= i < |offers| && offers[i] == o;
      assert Offers(offers[i].services, trainRunId);
    }
  }

  /** The services retained after a run: each due offer taken over in the order of time and sequence. */
  lemma ServicesOfRun(evaluate: Input -> Option<Text>, journal: Journal, before: Checkpoint, request: Request,
                      after: Journal,
                      next: Checkpoint, plan: Plan, run: Run)
    requires RanWith(evaluate, journal, before, request, after, next, plan, run) && Settled(before)
             && EndsWith(journal, before)
    ensures run.held.services
            == KnownAfter(before.cursor.offerServices, Filter(plan.reading.offers, DueOffers(NowMs(request.regions))))
  {
    var nowMs := NowMs(request.regions);
    var due := Filter(plan.reading.offers, DueOffers(nowMs));
    ReplayOfRun(evaluate, journal, before, request, after, next, plan, run);
    BoundariesAreEvents(StartOf(journal, before).held, plan.boundaries);
    ServicesAfter(StartOf(journal, before).held, Flatten(plan.boundaries));
    PlanKeeps(journal, before, request, plan);
    DueOffersAreSorted(journal, before, request, plan);
    AppliedOffers(Number(Fresh(plan.receipts.all, before.cursor.receipts, nowMs), plan.receipts.sequences), due,
                  before.input.nowMs,
                  plan.reading.updates);
  }

  lemma DueOffersAreSorted(journal: Journal, before: Checkpoint, request: Request, plan: Plan)
    requires Planned(journal, before, request, plan) && Settled(before)
    ensures var due := Filter(plan.reading.offers, DueOffers(NowMs(request.regions)));
      Sorted(due, OfferAtMost) && OffersFrom(due, before.input.nowMs)
  {
    var offers, nowMs := plan.reading.offers, NowMs(request.regions);
    OfferOrder();
    PlanReads(journal, before, request, plan);
    SortSorted(before.cursor.pendingOffers + plan.reading.history, OfferAtMost);
    OffersStartHere(before, plan.reading.history);
    FilterKeepsSorted(offers, DueOffers(nowMs), OfferAtMost);
    FilterMembers(offers, DueOffers(nowMs));
    var due := Filter(offers, DueOffers(nowMs));
    assert forall i :: 0 <= i < |due| ==> due[i] in due;
  }

  lemma OffersStartHere(before: Checkpoint, history: seq<OfferRevision>)
    requires Settled(before) && OffersFrom(history, before.input.nowMs)
    ensures forall o :: o in Sort(before.cursor.pendingOffers + history, OfferAtMost)
              ==> before.input.nowMs <= o.effectiveAtMs
  {
    var gathered := before.cursor.pendingOffers + history;
    SortPermutes(gathered, OfferAtMost);
    forall o | o in gathered
      ensures before.input.nowMs <= o.effectiveAtMs
    {
      var j :| 0 <= j < |gathered| && gathered[j] == o;
    }
  }

  /** Trains known from the retained services or from an offer that is still pending. */
  ghost predicate KnownTrain(checkpoint: Checkpoint, trainRunId: Text) {
    Offers(KnownAfter(checkpoint.cursor.offerServices, checkpoint.cursor.pendingOffers), trainRunId)
  }

  /** Due and later offers together are all offers. */
  lemma OffersSplit(offers: seq<OfferRevision>, nowMs: nat, trainRunId: Text)
    ensures Introduces(offers, trainRunId) <==>
            Introduces(Filter(offers, DueOffers(nowMs)), trainRunId)
                || Introduces(Filter(offers, LaterOffers(nowMs)), trainRunId)
  {
    FilterMembers(offers, DueOffers(nowMs));
    FilterMembers(offers, LaterOffers(nowMs));
    IntroducesMembers(offers, trainRunId);
    IntroducesMembers(Filter(offers, DueOffers(nowMs)), trainRunId);
    IntroducesMembers(Filter(offers, LaterOffers(nowMs)), trainRunId);
  }

  lemma TrainsOfPlan(journal: Journal, before: Checkpoint, request: Request, plan: Plan, trainRunId: Text)
    requires Planned(journal, before, request, plan)
    ensures Offers(plan.reading.known, trainRunId)
            <==> KnownTrain(before, trainRunId) || Introduces(plan.reading.history, trainRunId)
    ensures Introduces(plan.reading.offers, trainRunId) <==>
            Introduces(before.cursor.pendingOffers, trainRunId) || Introduces(plan.reading.history, trainRunId)
  {
    PlanReads(journal, before, request, plan);
    var pending, history := before.cursor.pendingOffers, plan.reading.history;
    SortPermutes(pending + history, OfferAtMost);
    IntroducesMembers(plan.reading.offers, trainRunId);
    IntroducesMembers(pending, trainRunId);
    IntroducesMembers(history, trainRunId);
    KnownTrains(before.cursor.offerServices, plan.reading.offers, trainRunId);
    KnownTrains(before.cursor.offerServices, pending, trainRunId);
  }

  /** After publishing, exactly the trains known before or offered since are known, and no retained train is lost. */
  lemma TrainsAreKept(evaluate: Input -> Option<Text>, journal: Journal, before: Checkpoint, request: Request,
                      after: Journal,
                      next: Checkpoint, plan: Plan, run: Run, trainRunId: Text)
    requires RanWith(evaluate, journal, before, request, after, next, plan, run) && Settled(before)
             && EndsWith(journal, before)
    requires Publishes(journal, before, request, plan, run, after, next)
    ensures KnownTrain(next, trainRunId)
            <==> KnownTrain(before, trainRunId) || Introduces(plan.reading.history, trainRunId)
    ensures KnownTrain(next, trainRunId) <==> Offers(plan.reading.known, trainRunId)
    ensures Offers(before.cursor.offerServices, trainRunId) ==> Offers(next.cursor.offerServices, trainRunId)
  {
    var nowMs := NowMs(request.regions);
    var due, later := Filter(plan.reading.offers, DueOffers(nowMs)), Filter(plan.reading.offers, LaterOffers(nowMs));
    ServicesOfRun(evaluate, journal, before, request, after, next, plan, run);
    PlanKeeps(journal, before, request, plan);
    TrainsOfPlan(journal, before, request, plan, trainRunId);
    OffersSplit(plan.reading.offers, nowMs, trainRunId);
    KnownTrains(before.cursor.offerServices, due, trainRunId);
    KnownTrains(next.cursor.offerServices, later, trainRunId);
    KnownTrains(before.cursor.offerServices, before.cursor.pendingOffers, trainRunId);
  }

  // ------------------------------------------------------------------ nothing is applied twice

  /** A regions' clock that has not gone back to zero. */
  ghost predicate ClockRuns(before: Checkpoint, request: Request) {
    request.regions != [] && (NowMs(request.regions) > 0 || before.cursor.receipts == [])
  }

  function DueNow(plan: Plan, before: Checkpoint, nowMs: nat): seq<Receipt> {
    Fresh(plan.receipts.all, before.cursor.receipts, nowMs)
  }

  /** The boundaries apply each newly confirmed receipt once, and the confirmed receipts are those of before and
      the applied ones. */
  lemma ReceiptsAreAppliedOnce(journal: Journal, before: Checkpoint, request: Request, plan: Plan)
    requires Planned(journal, before, request, plan) && Settled(before) && ClockRuns(before, request)
    ensures multiset(plan.confirmed)
            == multiset(before.cursor.receipts) + multiset(ConfirmedIn(Flatten(plan.boundaries)))
  {
    var nowMs := NowMs(request.regions);
    var arrived := DueNow(plan, before, nowMs);
    PlanKeeps(journal, before, request, plan);
    AppliedReceipts(arrived, plan.receipts.sequences, Filter(plan.reading.offers, DueOffers(nowMs)), before.input.nowMs,
                    plan.reading.updates);
    if nowMs > 0 {
      ArrivedComplete(journal, before, request, plan);
      SameElements(plan.confirmed, before.cursor.receipts + arrived);
    } else {
      FilterMembers(plan.receipts.all, DueReceipts(nowMs));
      FreshMembers(plan.receipts.all, before.cursor.receipts, nowMs);
      FirstIsMember(plan.confirmed);
      FirstIsMember(arrived);
    }
  }

  lemma ArrivedComplete(journal: Journal, before: Checkpoint, request: Request, plan: Plan)
    requires Planned(journal, before, request, plan) && Settled(before) && NowMs(request.regions) > 0
    ensures var arrived := DueNow(plan, before, NowMs(request.regions));
      Distinct(plan.confirmed) && Distinct(before.cursor.receipts + arrived)
      && forall r :: r in plan.confirmed <==> r in before.cursor.receipts + arrived
  {
    var nowMs := NowMs(request.regions);
    var arrived, old' := DueNow(plan, before, nowMs), before.cursor.receipts;
    var gathered := Gathered(journal, before.cursor, plan.reading.known);
    PlanGathers(journal, before, request, plan);
    PlanSplitsReceipts(journal, before, request, plan);
    ConfirmedStay(journal, before, request, plan);
    FreshMembers(plan.receipts.all, old', nowMs);
    OrderedMembers(gathered);
    FilterDistinct(plan.receipts.all, DueReceipts(nowMs));
    FilterDistinct(Filter(plan.receipts.all, DueReceipts(nowMs)), NotAmong(old'));
    DistinctParts(old', before.cursor.pendingReceipts);
    DistinctParts(plan.confirmed, plan.pendingReceipts);
    forall r | r in gathered
      ensures HasId(old', r.receiptId) <==> r in old'
    {
      IdIsReceipt(gathered, old', r);
    }
    forall i, j | 0 <= i < |old'| && 0 <= j < |arrived|
      ensures old'[i] != arrived[j]
    {
      assert arrived[j] in arrived && old'[i] in old';
    }
    DisjointJoin(old', arrived);
  }

  lemma DistinctParts<T>(s: seq<T>, t: seq<T>)
    requires Distinct(s + t)
    ensures Distinct(s) && Distinct(t)
  {
    forall i, j | 0 <= i < j < |s|
      ensures s[i] != s[j]
    {
      assert (s + t)[i] != (s + t)[j];
    }
    forall i, j | 0 <= i < j < |t|
      ensures t[i] != t[j]
    {
      assert (s + t)[|s| + i] != (s + t)[|s| + j];
    }
  }

  /** Within a consistent collection an id names one receipt. */
  lemma IdIsReceipt(all: seq<Receipt>, some: seq<Receipt>, r: Receipt)
    requires Consistent(all) && r in all && forall x :: x in some ==> x in all
    ensures HasId(some, r.receiptId) <==> r in some
  {
    if HasId(some, r.receiptId) {
      var i :| 0 <= i < |some| && some[i].receiptId == r.receiptId;
      assert some[i] in all;
      assert Agree(some[i], r);
    }
    if r in some {
      var i :| 0 <= i < |some| && some[i] == r;
      assert some[i].receiptId == r.receiptId;
    }
  }

  /** Each offer read or pending is either applied now, once, or stays pending. */
  lemma OffersAreAppliedOnce(journal: Journal, before: Checkpoint, request: Request, plan: Plan)
    requires Planned(journal, before, request, plan) && Settled(before)
    ensures multiset(OfferedIn(Flatten(plan.boundaries))) + multiset(plan.pendingOffers)
            == multiset(before.cursor.pendingOffers)
                + multiset(OffersAfter(journal, before.cursor.throughWorldSequence))
  {
    var nowMs := NowMs(request.regions);
    PlanReads(journal, before, request, plan);
    PlanKeeps(journal, before, request, plan);
    DueOffersAreSorted(journal, before, request, plan);
    AppliedOffers(Number(DueNow(plan, before, nowMs), plan.receipts.sequences),
                  Filter(plan.reading.offers, DueOffers(nowMs)), before.input.nowMs,
                  plan.reading.updates);
    SortPermutes(before.cursor.pendingOffers + plan.reading.history, OfferAtMost);
    FilterHalves(plan.reading.offers, nowMs);
  }

  lemma {:induction false} FilterHalves(offers: seq<OfferRevision>, nowMs: nat)
    ensures multiset(Filter(offers, DueOffers(nowMs))) + multiset(Filter(offers, LaterOffers(nowMs)))
            == multiset(offers)
  {
    if offers != [] {
      FilterHalves(offers[1..], nowMs);
      assert offers == [offers[0]] + offers[1..];
    }
  }

  // ------------------------------------------------------------------ nothing journaled is lost

  /** Every receipt reported after `base` and up to the cursor, for a train known to the checkpoint, is held. */
  ghost predicate Tracks(journal: Journal, base: nat, checkpoint: Checkpoint) {
    var through := checkpoint.cursor.throughWorldSequence;
    forall r :: Reported(journal, base, through, r) && KnownTrain(checkpoint, r.trainRunId) ==> Holds(checkpoint, r)
  }

  /** A train's offer is journaled before its receipts: an offer read now introduces no train that was already
      reported. */
  ghost predicate OffersComeFirst(journal: Journal, base: nat, before: Checkpoint) {
    forall r :: Reported(journal, base, before.cursor.throughWorldSequence, r) ==>
      (Introduces(OffersAfter(journal, before.cursor.throughWorldSequence), r.trainRunId)
       ==> KnownTrain(before, r.trainRunId))
  }

  /** Appended entries that are no stop reports, and later entries of any kind, do not change what was reported. */
  lemma ReportsStay(journal: Journal, after: Journal, base: nat, through: nat, r: Receipt)
    requires Ascending(after) && journal <= after
    requires through <= Head(journal) || forall i :: |journal| <= i < |after| ==> !after[i].event.StopReported?
    requires Reported(after, base, through, r)
    ensures Reported(journal, base, Head(journal), r) && Reported(journal, base, through, r)
  {
    var e :| e in after && base < e.sequence <= through && e.event.StopReported? && e.event.receipt == r;
    var i :| 0 <= i < |after| && after[i] == e;
    assert Ascending(journal);
    HeadBounds(journal);
    AppendedComeLater(journal, after);
    assert journal[i] == e;
    assert e in journal;
  }

  lemma AppendedComeLater(journal: Journal, after: Journal)
    requires Ascending(after) && journal <= after
    ensures forall i :: |journal| <= i < |after| && 0 < after[i].sequence ==> Head(journal) < after[i].sequence
  {
    if journal != [] {
      forall i | |journal| <= i < |after|
        ensures Head(journal) < after[i].sequence
      {
        assert after[|journal| - 1].sequence < after[i].sequence;
        assert after[|journal| - 1] == journal[|journal| - 1];
      }
    }
  }

  lemma PublishedTracks(evaluate: Input -> Option<Text>, journal: Journal, base: nat, before: Checkpoint,
                        request: Request, after: Journal,
                        next: Checkpoint, plan: Plan, run: Run)
    requires RanWith(evaluate, journal, before, request, after, next, plan, run) && Settled(before)
             && EndsWith(journal, before)
    requires Publishes(journal, before, request, plan, run, after, next)
    requires Tracks(journal, base, before) && OffersComeFirst(journal, base, before)
    ensures Tracks(after, base, next)
  {
    forall r | Reported(after, base, next.cursor.throughWorldSequence, r) && KnownTrain(next, r.trainRunId)
      ensures Holds(next, r)
    {
      AppendedByRun(evaluate, journal, before, request, after, next, plan, run);
      ReportsStay(journal, after, base, next.cursor.throughWorldSequence, r);
      ReportIsHeld(evaluate, journal, base, before, request, after, next, plan, run, r);
    }
  }

  lemma AppendedByRun(evaluate: Input -> Option<Text>, journal: Journal, before: Checkpoint, request: Request,
                      after: Journal,
                      next: Checkpoint, plan: Plan, run: Run)
    requires RanWith(evaluate, journal, before, request, after, next, plan, run) && Settled(before)
             && EndsWith(journal, before)
    requires Publishes(journal, before, request, plan, run, after, next)
    ensures Ascending(after) && journal <= after
    ensures forall i :: |journal| <= i < |after| ==> !after[i].event.StopReported?
    ensures next.cursor.throughWorldSequence == Head(after)
  {
    ReplayOfRun(evaluate, journal, before, request, after, next, plan, run);
    ExtendedThenPublished(journal, run.journal, after, next);
  }

  lemma ExtendedThenPublished(journal: Journal, replayed: Journal, after: Journal, next: Checkpoint)
    requires DemandRuns.Extends(journal, replayed) && PublishedFrom(replayed, after, next)
    ensures journal <= after && Head(after) == Head(replayed) + 1 && Ascending(after)
    ensures forall i :: |journal| <= i < |after| ==> !after[i].event.StopReported?
  {
  }

  lemma ReportIsHeld(evaluate: Input -> Option<Text>, journal: Journal, base: nat, before: Checkpoint, request: Request,
                     after: Journal,
                     next: Checkpoint, plan: Plan, run: Run, r: Receipt)
    requires RanWith(evaluate, journal, before, request, after, next, plan, run) && Settled(before)
             && EndsWith(journal, before)
    requires Publishes(journal, before, request, plan, run, after, next)
    requires Tracks(journal, base, before) && OffersComeFirst(journal, base, before)
    requires Reported(journal, base, Head(journal), r) && KnownTrain(next, r.trainRunId)
    ensures Holds(next, r)
  {
    var through := before.cursor.throughWorldSequence;
    PlanGathers(journal, before, request, plan);
    PlanSplitsReceipts(journal, before, request, plan);
    TrainsAreKept(evaluate, journal, before, request, after, next, plan, run, r.trainRunId);
    var e :| e in journal && base < e.sequence <= Head(journal) && e.event.StopReported? && e.event.receipt == r;
    if e.sequence <= through {
      assert Reported(journal, base, through, r);
      assert plan.reading.history == OffersAfter(journal, through) by {
        PlanReads(journal, before, request, plan);
      }
      assert Holds(before, r);
    } else {
      assert Reported(journal, through, Head(journal), r);
      FoundIsOffered(plan.reading.known, r.trainRunId);
      ReceivedMembers(journal, through, plan.reading.known, r);
    }
    assert r in Gathered(journal, before.cursor, plan.reading.known);
  }

  // ------------------------------------------------------------------ whole runs

  /** The journal's last checkpoint is a published, settled one that tracks every report since `base`. */
  ghost predicate Sound(journal: Journal, base: nat) {
    && Latest(journal).Some? && EndsWith(journal, Latest(journal).value)
    && Settled(Latest(journal).value) && Latest(journal).value.cursor.throughWorldSequence <= Head(journal)
    && Tracks(journal, base, Latest(journal).value)
  }

  /** What a later published checkpoint keeps of an earlier one. */
  ghost predicate Later(earlier: Checkpoint, later: Checkpoint) {
    && earlier.cursor.safeThroughMs <= later.cursor.safeThroughMs
    && (forall r :: Holds(earlier, r) ==> Holds(later, r))
    && (forall t :: Offers(earlier.cursor.offerServices, t) ==> Offers(later.cursor.offerServices, t))
    && (forall t :: KnownTrain(earlier, t) ==> KnownTrain(later, t))
  }

  /** Receipts only move from pending to confirmed. */
  ghost predicate KeepsConfirmed(earlier: Checkpoint, later: Checkpoint) {
    forall r :: r in earlier.cursor.receipts ==> r in later.cursor.receipts
  }

  /** One step of the world: some other event is journaled, or the consumer runs. */
  ghost predicate AppendsForeign(journal: Journal, after: Journal) {
    exists event :: !IsDemand(event) && after == journal + [Entry(Head(journal) + 1, event)]
  }

  ghost predicate Consumes(evaluate: Input -> Option<Text>, journal: Journal, base: nat, after: Journal) {
    Latest(journal).Some? && OffersComeFirst(journal, base, Latest(journal).value)
    && exists request, next :: Ran(evaluate, journal, Latest(journal).value, request, after, next)
  }

  ghost predicate Step(evaluate: Input -> Option<Text>, journal: Journal, base: nat, after: Journal) {
    AppendsForeign(journal, after) || Consumes(evaluate, journal, base, after)
  }

  /** A step that does not run the consumer with a clock back at zero. */
  ghost predicate ClockedStep(evaluate: Input -> Option<Text>, journal: Journal, base: nat, after: Journal) {
    AppendsForeign(journal, after)
    || (Latest(journal).Some? && OffersComeFirst(journal, base, Latest(journal).value)
        && exists request, next :: Ran(evaluate, journal, Latest(journal).value, request, after, next)
                                   && ClockRuns(Latest(journal).value, request))
  }

  lemma ForeignStepKeeps(journal: Journal, base: nat, after: Journal)
    requires Sound(journal, base) && AppendsForeign(journal, after)
    ensures Sound(after, base) && Latest(after) == Latest(journal)
  {
    var event :| !IsDemand(event) && after == journal + [Entry(Head(journal) + 1, event)];
    var checkpoint := Latest(journal).value;
    ForeignEventKeepsChain(journal, event);
    assert after[..|journal|] == journal;
    forall r | Reported(after, base, checkpoint.cursor.throughWorldSequence, r) && KnownTrain(checkpoint, r.trainRunId)
      ensures Holds(checkpoint, r)
    {
      ReportsStay(journal, after, base, checkpoint.cursor.throughWorldSequence, r);
    }
  }

  lemma RunKeeps(evaluate: Input -> Option<Text>, journal: Journal, base: nat, request: Request, after: Journal,
                 next: Checkpoint)
    requires Sound(journal, base) && OffersComeFirst(journal, base, Latest(journal).value)
    requires Ran(evaluate, journal, Latest(journal).value, request, after, next)
    ensures Sound(after, base) && Latest(after) == Some(next) && Later(Latest(journal).value, next)
    ensures ClockRuns(Latest(journal).value, request) ==> KeepsConfirmed(Latest(journal).value, next)
  {
    var before := Latest(journal).value;
    var plan, run := RunHasPlan(evaluate, journal, before, request, after, next);
    RunPublishes(evaluate, journal, before, request, after, next, plan, run);
    if !ChangesNothing(journal, before, request, plan, run) {
      PublishedIsSettled(journal, before, request, plan, run, after, next);
      PublishedTracks(evaluate, journal, base, before, request, after, next, plan, run);
      AppendedByRun(evaluate, journal, before, request, after, next, plan, run);
      PublishedIsLater(evaluate, journal, before, request, after, next, plan, run);
      if ClockRuns(before, request) {
        PublishedKeepsConfirmed(journal, before, request, after, next, plan, run);
      }
      assert after[..|after| - 1] == run.journal;
    }
  }

  lemma PublishedKeepsConfirmed(journal: Journal, before: Checkpoint, request: Request, after: Journal,
                                next: Checkpoint, plan: Plan, run: Run)
    requires Planned(journal, before, request, plan) && Settled(before) && ClockRuns(before, request)
    requires Publishes(journal, before, request, plan, run, after, next)
    ensures KeepsConfirmed(before, next)
  {
    ConfirmedStay(journal, before, request, plan);
  }

  lemma PublishedIsLater(evaluate: Input -> Option<Text>, journal: Journal, before: Checkpoint, request: Request,
                         after: Journal,
                         next: Checkpoint, plan: Plan, run: Run)
    requires RanWith(evaluate, journal, before, request, after, next, plan, run) && Settled(before)
             && EndsWith(journal, before)
    requires Publishes(journal, before, request, plan, run, after, next)
    ensures Later(before, next)
  {
    TimeAdvances(journal, before, request, plan);
    PlanHolds(journal, before, request, plan);
    forall t
      ensures Offers(before.cursor.offerServices, t) ==> Offers(next.cursor.offerServices, t)
      ensures KnownTrain(before, t) ==> KnownTrain(next, t)
    {
      TrainsAreKept(evaluate, journal, before, request, after, next, plan, run, t);
    }
  }

  lemma StepKeeps(evaluate: Input -> Option<Text>, journal: Journal, base: nat, after: Journal)
    requires Sound(journal, base) && Step(evaluate, journal, base, after)
    ensures Sound(after, base) && Grown(journal, after)
  {
    if AppendsForeign(journal, after) {
      ForeignStepKeeps(journal, base, after);
    } else {
      var request, next :| Ran(evaluate, journal, Latest(journal).value, request, after, next);
      RunKeeps(evaluate, journal, base, request, after, next);
    }
  }

  /** The published checkpoint of one journal, and a later one. */
  ghost predicate Grown(journal: Journal, after: Journal) {
    Latest(journal).Some? && Latest(after).Some? && Later(Latest(journal).value, Latest(after).value)
  }

  lemma GrownChains(a: Journal, b: Journal, c: Journal)
    requires Grown(a, b) && Grown(b, c)
    ensures Grown(a, c)
  {
  }

  ghost predicate StepAt(evaluate: Input -> Option<Text>, journals: seq<Journal>, base: nat, n: nat) {
    n + 1 < |journals| && Step(evaluate, journals[n], base, journals[n + 1])
  }

  ghost predicate WorldRun(evaluate: Input -> Option<Text>, journals: seq<Journal>, base: nat) {
    forall n :: 0 <= n < |journals| - 1 ==> StepAt(evaluate, journals, base, n)
  }

  /** Over every run of the world, however journaling and consuming interleave, the published state stays
      sound: each report of a known train since `base` is in exactly one of confirmed and pending. */
  lemma {:induction false} RunsStaySound(evaluate: Input -> Option<Text>, journals: seq<Journal>, base: nat, k: nat)
    requires k < |journals| && Sound(journals[0], base) && WorldRun(evaluate, journals, base)
    ensures Sound(journals[k], base)
    ensures forall r ::
              !(r in Latest(journals[k]).value.cursor.receipts && r in Latest(journals[k]).value.cursor.pendingReceipts)
  {
    if 0 < k {
      RunsStaySound(evaluate, journals, base, k - 1);
      assert StepAt(evaluate, journals, base, k - 1);
      StepKeeps(evaluate, journals[k - 1], base, journals[k]);
    }
    NeverBoth(Latest(journals[k]).value);
  }

  /** Over every run the safe time never falls, no receipt is lost, and no train drops out. */
  lemma {:induction false} RunsOnlyGrow(evaluate: Input -> Option<Text>, journals: seq<Journal>, base: nat, i: nat,
                                        k: nat)
    requires i <= k < |journals| && Sound(journals[0], base) && WorldRun(evaluate, journals, base)
    ensures Grown(journals[i], journals[k])
    decreases k
  {
    if i < k {
      RunsOnlyGrow(evaluate, journals, base, i, k - 1);
      StepGrows(evaluate, journals, base, k);
      GrownChains(journals[i], journals[k - 1], journals[k]);
    } else {
      GrownFromItself(evaluate, journals, base, k);
    }
  }

  lemma GrownFromItself(evaluate: Input -> Option<Text>, journals: seq<Journal>, base: nat, k: nat)
    requires k < |journals| && Sound(journals[0], base) && WorldRun(evaluate, journals, base)
    ensures Grown(journals[k], journals[k])
  {
    RunsStaySound(evaluate, journals, base, k);
  }

  lemma StepGrows(evaluate: Input -> Option<Text>, journals: seq<Journal>, base: nat, k: nat)
    requires 0 < k < |journals| && Sound(journals[0], base) && WorldRun(evaluate, journals, base)
    ensures Grown(journals[k - 1], journals[k])
  {
    RunsStaySound(evaluate, journals, base, k - 1);
    assert StepAt(evaluate, journals, base, k - 1);
    StepKeeps(evaluate, journals[k - 1], base, journals[k]);
  }

  // ------------------------------------------------------------------ confirmed receipts over whole runs

  ghost predicate ClockedStepAt(evaluate: Input -> Option<Text>, journals: seq<Journal>, base: nat, n: nat) {
    n + 1 < |journals| && ClockedStep(evaluate, journals[n], base, journals[n + 1])
  }

  ghost predicate ClockedRun(evaluate: Input -> Option<Text>, journals: seq<Journal>, base: nat) {
    forall n :: 0 <= n < |journals| - 1 ==> ClockedStepAt(evaluate, journals, base, n)
  }

  lemma ClockedStepKeeps(evaluate: Input -> Option<Text>, journal: Journal, base: nat, after: Journal)
    requires Sound(journal, base) && ClockedStep(evaluate, journal, base, after)
    ensures Sound(after, base) && KeepsConfirmed(Latest(journal).value, Latest(after).value)
  {
    if AppendsForeign(journal, after) {
      ForeignStepKeeps(journal, base, after);
    } else {
      var request, next :| Ran(evaluate, journal, Latest(journal).value, request, after, next)
                           && ClockRuns(Latest(journal).value, request);
      RunKeeps(evaluate, journal, base, request, after, next);
    }
  }

  lemma ConfirmedChains(a: Journal, b: Journal, c: Journal)
    requires Latest(a).Some? && Latest(b).Some? && Latest(c).Some?
    requires KeepsConfirmed(Latest(a).value, Latest(b).value) && KeepsConfirmed(Latest(b).value, Latest(c).value)
    ensures KeepsConfirmed(Latest(a).value, Latest(c).value)
  {
  }

  /** Over every run in which the clock never goes back to zero receipts only move from pending to confirmed. */
  lemma {:induction false} ConfirmedStayConfirmed(evaluate: Input -> Option<Text>, journals: seq<Journal>, base: nat,
                                                  i: nat, k: nat)
    requires i <= k < |journals| && Sound(journals[i], base) && ClockedRun(evaluate, journals, base)
    ensures Sound(journals[k], base) && KeepsConfirmed(Latest(journals[i]).value, Latest(journals[k]).value)
    decreases k
  {
    if i < k {
      ConfirmedStayConfirmed(evaluate, journals, base, i, k - 1);
      assert ClockedStepAt(evaluate, journals, base, k - 1);
      ClockedStepKeeps(evaluate, journals[k - 1], base, journals[k]);
      ConfirmedChains(journals[i], journals[k - 1], journals[k]);
    }
  }
}
