/** Concrete journals at time zero: where a catch-up in two steps differs from one step, and where a confirmed
    receipt turns pending again. */
module DemandExamples {
  import opened DemandBothWays
  import opened DemandCatchUp
  import opened DemandJournal
  import opened DemandOfferHistory
  import opened DemandProgress
  import opened DemandReceipts
  import opened DemandRuns
  import opened DemandSafety
  import opened Outcomes
  import opened Sorting
  import opened TextOrder

  // ------------------------------------------------------------------ one train, one stop, one receipt

  function TheService(): Service { Service([2], [Stop([1], true, 0, 0)], false, []) }

  function TheReceipt(): Receipt { Receipt([], [], [2], [1], 0, [], [], [], Arrival, 0, [3]) }

  function TheTemplate(): Template { Template([], 0, true, []) }

  /** The only region, confirmed up to a time. */
  function RegionAt(nowMs: nat): seq<Region> { [Region([4], [], 0, 0, nowMs)] }

  function RequestAt(nowMs: nat): Request { Request(TheTemplate(), [TheService()], [], [], RegionAt(nowMs)) }

  /** A checkpoint at time zero whose cursor holds the receipt, journaled as entry 1, and the service. */
  ghost predicate HoldsTheReceipt(c: Checkpoint) {
    && c.deploymentHash == [] && c.input.nowMs == 0 && c.cursor.safeThroughMs == 0 && c.input.template == TheTemplate()
    && c.cursor.receipts + c.cursor.pendingReceipts == [TheReceipt()] && c.cursor.receiptWorldSequences == map[[3] := 1]
    && c.cursor.offerServices == [TheService()] && c.cursor.offerSourceServices == [TheService()]
       && c.cursor.pendingOffers == []
    && |c.cursor.regions| == 1 && c.cursor.regions[0].regionId == [4] && c.cursor.regions[0].initializationHash == []
    && c.cursor.regions[0].commitSequence == 0 && c.cursor.regions[0].nativeEventSequence == 0
  }

  /** The journal has neither offers nor reports after the cursor, and at most one newer population revision. */
  ghost predicate OnlyRevisions(journal: Journal, before: Checkpoint, populations: seq<PopulationEvent>) {
    && OffersAfter(journal, before.cursor.throughWorldSequence) == []
    && ReportsAfter(journal, before.cursor.throughWorldSequence, [TheService()]) == []
    && PopulationsAfter(journal, RevisionOf(before.input.population)) == populations && |populations| <= 1
  }

  lemma TheReceiptIsAccepted()
    ensures Accepts([TheReceipt()], [TheService()]) && Distinct([TheReceipt()])
            && Ordered([TheReceipt()]) == [TheReceipt()]
  {
    var r, services := TheReceipt(), [TheService()];
    assert FindService(services, r.trainRunId) == Some(TheService());
    assert StopFits(r, services) && Agree(r, r);
    OrderedMembers([r]);
    OnlyMember(Ordered([r]), r);
  }

  lemma OnlyMember(receipts: seq<Receipt>, r: Receipt)
    requires Distinct(receipts) && forall x :: x in receipts <==> x == r
    ensures receipts == [r]
  {
    SameElements(receipts, [r]);
    SameMultiset(receipts, [r]);
    assert receipts[0] in receipts;
  }

  /** What a run at time `nowMs` reads. */
  lemma TheReading(journal: Journal, before: Checkpoint, nowMs: nat, populations: seq<PopulationEvent>)
    returns (reading: Reading)
    requires HoldsTheReceipt(before) && OnlyRevisions(journal, before, populations)
    ensures Read(journal, before, TheTemplate(), [TheService()], nowMs) == Ok(reading)
    ensures reading
            == Reading([], [], Filter(populations, DuePopulations(SafeThrough(nowMs))), [TheService()], [TheService()])
  {
    reading := Reading([], [], Filter(populations, DuePopulations(SafeThrough(nowMs))), [TheService()], [TheService()]);
    assert before.cursor.pendingOffers + [] == [];
    assert Sort(before.cursor.pendingOffers + [], OfferAtMost) == [];
    assert KnownAfter(before.cursor.offerServices, []) == [TheService()];
  }

  lemma TheReceipts(journal: Journal, before: Checkpoint, nowMs: nat, populations: seq<PopulationEvent>)
    returns (receipts: Receipts)
    requires HoldsTheReceipt(before) && OnlyRevisions(journal, before, populations)
    ensures ReadReceipts(journal, before.cursor, [TheService()], [], RegionAt(nowMs)) == Ok(receipts)
    ensures receipts == Receipts([], map[[3] := 1], [TheReceipt()])
  {
    receipts := Receipts([], map[[3] := 1], [TheReceipt()]);
    var c := before.cursor;
    assert c.receipts + c.pendingReceipts + [] == [TheReceipt()];
    assert ReceiptsOf([]) == [];
    TheReceiptIsAccepted();
  }

  lemma PartsMakePlan(journal: Journal, before: Checkpoint, request: Request, reading: Reading, receipts: Receipts,
                      plan: Plan)
    requires request.regions != [] && before.deploymentHash == request.deploymentHash
    requires RegionObjection(before.cursor, request.regions).None?
    requires Read(journal, before, request.template, request.proposed, NowMs(request.regions)) == Ok(reading)
    requires ReadReceipts(journal, before.cursor, reading.known, request.worldId, request.regions) == Ok(receipts)
    requires PlanFrom(before, reading, receipts, NowMs(request.regions)) == Ok(plan)
    ensures Planned(journal, before, request, plan)
  {
  }

  lemma TheRegionIsConfirmed(cursor: Cursor, nowMs: nat)
    requires cursor.safeThroughMs == 0 && |cursor.regions| == 1 && cursor.regions[0].regionId == [4]
    requires cursor.regions[0].initializationHash == [] && cursor.regions[0].commitSequence == 0
             && cursor.regions[0].nativeEventSequence == 0
    ensures NowMs(RegionAt(nowMs)) == nowMs && RegionObjection(cursor, RegionAt(nowMs)).None?
  {
    assert FindRegion(RegionAt(nowMs), [4]) == Some(RegionAt(nowMs)[0]);
  }

  /** The plan of a run: the receipt is confirmed once the clock has left zero. */
  lemma ThePlan(journal: Journal, before: Checkpoint, nowMs: nat, populations: seq<PopulationEvent>)
    returns (plan: Plan)
    requires HoldsTheReceipt(before) && OnlyRevisions(journal, before, populations)
    ensures Planned(journal, before, RequestAt(nowMs), plan)
    ensures plan.reading
            == Reading([], [], Filter(populations, DuePopulations(SafeThrough(nowMs))), [TheService()], [TheService()])
    ensures plan.receipts == Receipts([], map[[3] := 1], [TheReceipt()]) && plan.pendingOffers == []
    ensures if nowMs == 0 then plan.confirmed == [] && plan.pendingReceipts == [TheReceipt()]
            else plan.confirmed == [TheReceipt()] && plan.pendingReceipts == []
    ensures plan.boundaries
            == Boundaries(Number(Fresh([TheReceipt()], before.cursor.receipts, nowMs), map[[3] := 1]), [], 0,
                          plan.reading.updates)
  {
    var reading := TheReading(journal, before, nowMs, populations);
    var receipts := TheReceipts(journal, before, nowMs, populations);
    plan := PlanFromTheReceipt(before, reading, receipts, nowMs);
    TheRegionIsConfirmed(before.cursor, nowMs);
    PartsMakePlan(journal, before, RequestAt(nowMs), reading, receipts, plan);
  }

  lemma PlanFromTheReceipt(before: Checkpoint, reading: Reading, receipts: Receipts, nowMs: nat) returns (plan: Plan)
    requires HoldsTheReceipt(before) && reading.offers == [] && receipts == Receipts([], map[[3] := 1], [TheReceipt()])
    ensures PlanFrom(before, reading, receipts, nowMs) == Ok(plan) && plan.reading == reading
            && plan.receipts == receipts && plan.pendingOffers == []
    ensures if nowMs == 0 then plan.confirmed == [] && plan.pendingReceipts == [TheReceipt()]
            else plan.confirmed == [TheReceipt()] && plan.pendingReceipts == []
    ensures plan.boundaries
            == Boundaries(Number(Fresh([TheReceipt()], before.cursor.receipts, nowMs), map[[3] := 1]), [], 0,
                          reading.updates)
  {
    var arrived := Fresh(receipts.all, before.cursor.receipts, nowMs);
    FreshMembers(receipts.all, before.cursor.receipts, nowMs);
    forall i | 0 <= i < |arrived|
      ensures arrived[i].receiptId in receipts.sequences
    {
      assert arrived[i] in arrived;
    }
    assert Filter([TheReceipt()], DueReceipts(nowMs)) == if nowMs == 0 then [] else [TheReceipt()];
    assert Filter([TheReceipt()], LaterReceipts(nowMs)) == if nowMs == 0 then [TheReceipt()] else [];
    plan := PlanFrom(before, reading, receipts, nowMs).value;
  }

  // ------------------------------------------------------------------ a confirmed receipt turns pending

  /** A first checkpoint, taken while the region's clock showed `nowMs`. */
  function CheckpointWith(receipts: seq<Receipt>, pending: seq<Receipt>, nowMs: nat): Checkpoint {
    Checkpoint([], Input(TheTemplate(), 0, 1, None, [TheService()], None, None), [], [],
               Cursor(2, 0, RegionAt(nowMs), receipts, pending, map[[3] := 1], [TheService()], [TheService()], []))
  }

  lemma TheCheckpointIsSettled(receipts: seq<Receipt>, pending: seq<Receipt>, nowMs: nat)
    requires receipts + pending == [TheReceipt()]
    ensures Settled(CheckpointWith(receipts, pending, nowMs))
            && HoldsTheReceipt(CheckpointWith(receipts, pending, nowMs))
  {
    TheReceiptIsAccepted();
    assert (receipts == [TheReceipt()] && pending == []) || (receipts == [] && pending == [TheReceipt()]) by {
      assert |receipts| + |pending| == 1;
      if receipts == [] {
        assert receipts + pending == pending;
      } else {
        assert pending == [] && receipts + pending == receipts;
      }
    }
    assert HaveSequences(receipts + pending, map[[3] := 1]);
    assert Between(receipts, 0, 0) && ReceiptsFrom(pending, 0);
  }

  /** A run at time one has confirmed the receipt; a run after it at time zero makes it pending again. */
  lemma ClockBackAtZeroUnconfirms() returns (before: Checkpoint, plan: Plan)
    ensures Settled(before) && before.cursor.receipts == [TheReceipt()] && before.cursor.regions == RegionAt(1)
    ensures Planned([], before, RequestAt(0), plan) && plan.confirmed == [] && plan.pendingReceipts == [TheReceipt()]
  {
    before := CheckpointWith([TheReceipt()], [], 1);
    TheCheckpointIsSettled([TheReceipt()], [], 1);
    NothingToRead(before);
    plan := ThePlan([], before, 0, []);
  }

  lemma NothingToRead(before: Checkpoint)
    ensures OnlyRevisions([], before, [])
  {
  }

  // ------------------------------------------------------------------ a revision overtakes a receipt

  function TheRevision(): PopulationEvent { PopulationEvent(3, Snapshot(1, 0, [])) }

  /** The receipt, a checkpoint that keeps it pending at time zero, and a population revision of time zero. */
  function TheJournal(): Journal {
    [Entry(1, StopReported([4], 0, 0, TheReceipt())), Entry(2, DemandEvaluated(TheStart())),
     Entry(3, PopulationUpdated(TheRevision().snapshot))]
  }

  lemma OneEntry(e: Entry, after: nat, known: seq<Service>, revision: nat)
    ensures !e.event.OfferCommitted? ==> OffersAfter([e], after) == []
    ensures e.sequence <= after || !e.event.StopReported? ==> ReportsAfter([e], after, known) == []
    ensures PopulationsAfter([e], revision)
            == if e.event.PopulationUpdated?
                && e.event.snapshot.revision > revision then [PopulationEvent(e.sequence, e.event.snapshot)] else []
    ensures Checkpoints([e]) == if IsDemand(e.event) then [e.event.checkpoint] else []
    ensures Published([e]) == if e.event.DemandEvaluated? then [e.event.checkpoint] else []
  {
    assert [e][..0] == [];
  }

  /** What one more entry adds to what is read. */
  lemma OneMoreEntry(journal: Journal, e: Entry, after: nat, known: seq<Service>, revision: nat)
    requires !e.event.OfferCommitted? && (e.sequence <= after || !e.event.StopReported?)
    ensures OffersAfter(journal + [e], after) == OffersAfter(journal, after)
    ensures ReportsAfter(journal + [e], after, known) == ReportsAfter(journal, after, known)
    ensures PopulationsAfter(journal + [e], revision)
            == PopulationsAfter(journal, revision) + PopulationsAfter([e], revision)
  {
    OneEntry(e, after, known, revision);
    OffersAfterJoins(journal, [e], after);
    ReportsAfterJoins(journal, [e], after, known);
    PopulationsAfterJoins(journal, [e], revision);
    assert OffersAfter(journal, after) + [] == OffersAfter(journal, after);
    assert ReportsAfter(journal, after, known) + [] == ReportsAfter(journal, after, known);
  }

  lemma TheJournalReads()
    ensures OnlyRevisions(TheJournal(), TheStart(), [TheRevision()])
    ensures PopulationsAfter(TheJournal(), 1) == []
    ensures EndsWith(TheJournal(), TheStart()) && Latest(TheJournal()) == Some(TheStart())
  {
    TheJournalReadsAt(0);
    TheJournalReadsAt(1);
    TheJournalIsChained();
  }

  lemma TheJournalReadsAt(revision: nat)
    ensures OffersAfter(TheJournal(), 2) == [] && ReportsAfter(TheJournal(), 2, [TheService()]) == []
    ensures PopulationsAfter(TheJournal(), revision) == if revision < 1 then [TheRevision()] else []
  {
    var j, known := TheJournal(), [TheService()];
    TwoEntries(j[0], j[1], 2, known, revision);
    ThirdEntry([j[0]] + [j[1]], j[2], 2, known, revision);
    assert j == ([j[0]] + [j[1]]) + [j[2]];
  }

  lemma TwoEntries(a: Entry, b: Entry, after: nat, known: seq<Service>, revision: nat)
    requires a.event.StopReported? && a.sequence <= after && b.event.DemandEvaluated?
    ensures OffersAfter([a] + [b], after) == [] && ReportsAfter([a] + [b], after, known) == []
    ensures PopulationsAfter([a] + [b], revision) == []
  {
    OneEntry(a, after, known, revision);
    OneEntry(b, after, known, revision);
    OneMoreEntry([a], b, after, known, revision);
  }

  lemma ThirdEntry(two: Journal, c: Entry, after: nat, known: seq<Service>, revision: nat)
    requires OffersAfter(two, after) == [] && ReportsAfter(two, after, known) == []
             && PopulationsAfter(two, revision) == []
    requires c.event.PopulationUpdated?
    ensures OffersAfter(two + [c], after) == [] && ReportsAfter(two + [c], after, known) == []
    ensures PopulationsAfter(two + [c], revision)
            == if c.event.snapshot.revision > revision then [PopulationEvent(c.sequence, c.event.snapshot)] else []
  {
    OneEntry(c, after, known, revision);
    OneMoreEntry(two, c, after, known, revision);
  }

  lemma LastCheckpoint(journal: Journal, e: Entry)
    ensures Checkpoints(journal + [e])
            == Checkpoints(journal) + (if IsDemand(e.event) then [e.event.checkpoint] else [])
    ensures Published(journal + [e])
            == Published(journal) + (if e.event.DemandEvaluated? then [e.event.checkpoint] else [])
  {
    assert (journal + [e])[..|journal|] == journal;
  }

  lemma TheJournalIsChained()
    ensures EndsWith(TheJournal(), TheStart()) && Latest(TheJournal()) == Some(TheStart())
  {
    var j := TheJournal();
    LastCheckpoint([], j[0]);
    LastCheckpoint([j[0]], j[1]);
    LastCheckpoint([j[0], j[1]], j[2]);
    OneCheckpoint(j, TheStart());
  }

  lemma OneCheckpoint(journal: Journal, c: Checkpoint)
    requires Ascending(journal) && Checkpoints(journal) == [c] && Published(journal) == [c] && c.input.revision == 1
    ensures EndsWith(journal, c) && Latest(journal) == Some(c)
  {
    LastDemandIsLast(journal);
    LatestIsLast(journal);
  }

  /** A commit with the next revision of the same period goes through when the kernel answers. */
  lemma CommitGoesThrough(evaluate: Input -> Option<Text>, journal: Journal, current: Checkpoint, input: Input,
                          deploymentHash: Text,
                          provenance: Text, cursor: Cursor, published: bool)
    requires EndsWith(journal, current) && input.revision == current.input.revision + 1
             && input.template == current.input.template
    requires current.input.nowMs <= input.nowMs && deploymentHash == current.deploymentHash && evaluate(input).Some?
    requires Latest(journal).Some? ==> Latest(journal).value.input.nowMs <= input.nowMs
    ensures Committed(evaluate, journal, input, deploymentHash, provenance, cursor, published).Ok?
  {
  }

  function ReceiptBoundary(): Boundary { Boundary(0, [TheReceipt()], None, None) }

  function RevisionBoundary(): Boundary { Boundary(0, [], None, Some(TheRevision())) }

  function TheNumbered(): Numbered { Numbered(TheReceipt(), 1) }

  lemma OneItem(item: Item)
    ensures Group(Sort([item], ItemAtMost)) == Add([], item)
  {
    assert Sort([item], ItemAtMost) == [item] && [item][..0] == [];
  }

  /** Of two items in order, the first opens the first boundary. */
  lemma TwoItems(a: Item, b: Item)
    requires ItemAtMost(a, b)
    ensures Group(Sort([a, b], ItemAtMost)) == Add(Add([], a), b)
  {
    assert [a, b][1..] == [b] && Sort([b], ItemAtMost) == [b];
    assert Sort([a, b], ItemAtMost) == [a, b];
    assert [a, b][..1] == [a] && [a][..0] == [];
    assert Group([a]) == Add([], a);
  }

  lemma TheBoundaries()
    ensures Boundaries([], [], 0, [TheRevision()]) == [RevisionBoundary()]
    ensures Boundaries([TheNumbered()], [], 0, []) == [ReceiptBoundary()]
    ensures Boundaries([TheNumbered()], [], 0, [TheRevision()]) == [ReceiptBoundary(), RevisionBoundary()]
  {
    var a, b := Item(0, 1, Confirmed(TheReceipt())), Item(0, 3, Updated(TheRevision()));
    assert Items([], [], 0, [TheRevision()]) == [b];
    assert Items([TheNumbered()], [], 0, []) == [a];
    assert Items([TheNumbered()], [], 0, [TheRevision()]) == [a, b];
    OneItem(a);
    OneItem(b);
    TwoItems(a, b);
  }

  lemma TheFresh(prior: seq<Receipt>, nowMs: nat)
    requires prior == []
    ensures Number(Fresh([TheReceipt()], prior, nowMs), map[[3] := 1]) == if nowMs == 0 then [] else [TheNumbered()]
  {
    assert Filter([TheReceipt()], DueReceipts(nowMs)) == if nowMs == 0 then [] else [TheReceipt()];
    assert !HasId(prior, TheReceipt().receiptId);
    assert nowMs != 0 ==> Fresh([TheReceipt()], prior, nowMs) == [TheReceipt()];
  }

  /** A kernel that accepts everything. */
  function Answer(input: Input): Option<Text> { Some([]) }

  function TheStart(): Checkpoint { CheckpointWith([], [TheReceipt()], 0) }

  /** The plan of the first step: the revision and nothing else. */
  ghost predicate AppliesTheRevision(plan: Plan) {
    && Planned(TheJournal(), TheStart(), RequestAt(0), plan) && plan.boundaries == [RevisionBoundary()]
       && plan.confirmed == []
  }

  lemma TheBoundaryGoesThrough(context: Context, start: Run)
    requires EndsWith(start.journal, start.current) && start.current == TheStart()
             && Latest(start.journal) == Some(TheStart())
    requires start.held.applied == [] && context.template == TheTemplate() && context.deploymentHash == []
    ensures AtBoundary(Answer, context, start, RevisionBoundary()).Ok?
  {
    var held := ApplyBoundary(start.held, RevisionBoundary());
    assert InOrder(held.applied) == [];
    CommitGoesThrough(Answer, start.journal, start.current, BoundaryInput(context, start.current, held, 0), [],
                      held.provenance,
                      BoundaryCursor(context, held, 0), false);
  }

  lemma TheReplay(plan: Plan) returns (run: Run)
    requires AppliesTheRevision(plan)
    ensures Replay(Answer, ContextOf(TheJournal(), RequestAt(0), plan), StartOf(TheJournal(), TheStart()),
                   plan.boundaries) == Ok(run)
  {
    var context, start := ContextOf(TheJournal(), RequestAt(0), plan), StartOf(TheJournal(), TheStart());
    TheJournalIsChained();
    TheBoundaryGoesThrough(context, start);
    run := AtBoundary(Answer, context, start, RevisionBoundary()).value;
    OneBoundary(context, start, run);
  }

  lemma OneBoundary(context: Context, start: Run, run: Run)
    requires AtBoundary(Answer, context, start, RevisionBoundary()) == Ok(run)
    ensures Replay(Answer, context, start, [RevisionBoundary()]) == Ok(run)
  {
    assert [RevisionBoundary()][..0] == [];
  }

  lemma TheReplayEnds(plan: Plan, run: Run)
    requires AppliesTheRevision(plan)
    requires Replay(Answer, ContextOf(TheJournal(), RequestAt(0), plan), StartOf(TheJournal(), TheStart()),
                    plan.boundaries) == Ok(run)
    ensures EndsWith(run.journal, run.current) && run.current.input.nowMs == 0
            && run.current.input.template == TheTemplate()
    ensures run.current.deploymentHash == [] && run.held == Held([TheService()], [], Some(TheRevision().snapshot), [])
    ensures Latest(run.journal) == Some(TheStart())
  {
    var context, start := ContextOf(TheJournal(), RequestAt(0), plan), StartOf(TheJournal(), TheStart());
    TheJournalReads();
    assert plan.boundaries[..0] == [];
    assert AtBoundary(Answer, context, start, RevisionBoundary()) == Ok(run);
    BoundaryIsCommitted(Answer, context, start, RevisionBoundary(), run);
    BoundaryCommits(Answer, context, start, RevisionBoundary(), run);
    assert run.journal[..|TheJournal()|] == TheJournal();
  }

  lemma TheFirstStep(plan: Plan) returns (run: Run, after: Journal, middle: Checkpoint)
    requires AppliesTheRevision(plan)
    ensures RanWith(Answer, TheJournal(), TheStart(), RequestAt(0), after, middle, plan, run)
    ensures run.held == Held([TheService()], [], Some(TheRevision().snapshot), [])
  {
    run := TheReplay(plan);
    TheReplayEnds(plan, run);
    var context := ContextOf(TheJournal(), RequestAt(0), plan);
    CommitGoesThrough(Answer, run.journal, run.current, FinalInput(context, run, 0), [], run.held.provenance,
                      FinalCursor(context, run, 0), true);
    var finished := Finish(Answer, TheStart(), context, run).value;
    after, middle := finished.0, finished.1;
  }

  ghost predicate LeavesTheReceipt(plan: Plan) {
    && AppliesTheRevision(plan) && plan.pendingReceipts == [TheReceipt()] && plan.receipts.sequences == map[[3] := 1]
    && plan.pendingOffers == [] && plan.reading.sourceServices == [TheService()]
  }

  lemma TheFirstStepPublishes(plan: Plan, run: Run, after: Journal, middle: Checkpoint)
    requires AppliesTheRevision(plan)
    requires RanWith(Answer, TheJournal(), TheStart(), RequestAt(0), after, middle, plan, run)
    ensures Publishes(TheJournal(), TheStart(), RequestAt(0), plan, run, after, middle)
    ensures Ascending(after) && middle.cursor.throughWorldSequence == Head(after) && TheJournal() <= after
    ensures (forall i :: 3 <= i < |after| ==> IsDemand(after[i].event)) && middle.deploymentHash == []
  {
    TheJournalIsChained();
    TheCheckpointIsSettled([], [TheReceipt()], 0);
    RunPublishes(Answer, TheJournal(), TheStart(), RequestAt(0), after, middle, plan, run);
    AppendedByRun(Answer, TheJournal(), TheStart(), RequestAt(0), after, middle, plan, run);
    ReplayOfRun(Answer, TheJournal(), TheStart(), RequestAt(0), after, middle, plan, run);
    AppendedAreCheckpoints(TheJournal(), run.journal, after, middle);
    FinishKeepsHash(TheStart(), ContextOf(TheJournal(), RequestAt(0), plan), run, after, middle);
  }

  lemma FinishKeepsHash(before: Checkpoint, context: Context, run: Run, after: Journal, next: Checkpoint)
    requires context.regions != [] && Finish(Answer, before, context, run) == Ok((after, next))
             && before.deploymentHash == context.deploymentHash
    ensures next.deploymentHash == context.deploymentHash
  {
  }

  /** The first step ends with the receipt still pending, and the second step has nothing new to read. */
  lemma TheMiddle(plan: Plan, run: Run, after: Journal, middle: Checkpoint)
    requires LeavesTheReceipt(plan) && run.held == Held([TheService()], [], Some(TheRevision().snapshot), [])
             && middle.deploymentHash == []
    requires Publishes(TheJournal(), TheStart(), RequestAt(0), plan, run, after, middle)
    requires Ascending(after) && middle.cursor.throughWorldSequence == Head(after) && TheJournal() <= after
    requires forall i :: 3 <= i < |after| ==> IsDemand(after[i].event)
    ensures HoldsTheReceipt(middle) && middle.cursor.receipts == [] && OnlyRevisions(after, middle, [])
  {
    NothingNewFor(after, middle.cursor.throughWorldSequence);
    TheMiddleHolds(ContextOf(TheJournal(), RequestAt(0), plan), run, middle);
  }

  lemma TheMiddleHolds(context: Context, run: Run, middle: Checkpoint)
    requires run.held.services == [TheService()] && run.held.population == Some(TheRevision().snapshot)
    requires context.template == TheTemplate() && context.regions == RegionAt(0)
    requires context.plan.confirmed == [] && context.plan.pendingReceipts == [TheReceipt()]
             && context.plan.receipts.sequences == map[[3] := 1]
    requires context.plan.pendingOffers == [] && context.plan.reading.sourceServices == [TheService()]
    requires middle.deploymentHash == [] && middle.input == FinalInput(context, run, 0)
             && middle.cursor == FinalCursor(context, run, 0)
    ensures HoldsTheReceipt(middle) && middle.cursor.receipts == []
            && middle.input.population == Some(TheRevision().snapshot)
  {
    assert middle.cursor.receipts + middle.cursor.pendingReceipts == [TheReceipt()];
  }

  lemma NothingNewFor(after: Journal, through: nat)
    requires Ascending(after) && through == Head(after) && TheJournal() <= after
    requires forall i :: 3 <= i < |after| ==> IsDemand(after[i].event)
    ensures OffersAfter(after, through) == [] && ReportsAfter(after, through, [TheService()]) == []
            && PopulationsAfter(after, 1) == []
  {
    TheJournalReadsAt(1);
    HeadBounds(after);
    NothingNew(after, through, [TheService()]);
    SamePopulations(TheJournal(), after, [], 1);
    assert after + [] == after && TheJournal() + [] == TheJournal();
  }

  lemma TheFirstPlan() returns (plan: Plan)
    ensures LeavesTheReceipt(plan)
  {
    TheJournalReads();
    TheCheckpointIsSettled([], [TheReceipt()], 0);
    plan := ThePlan(TheJournal(), TheStart(), 0, [TheRevision()]);
    TheBoundaries();
    TheFresh([], 0);
    assert Filter([TheRevision()], DuePopulations(0)) == [TheRevision()];
  }

  lemma TheSecondPlan(after: Journal, middle: Checkpoint) returns (plan: Plan)
    requires HoldsTheReceipt(middle) && middle.cursor.receipts == [] && OnlyRevisions(after, middle, [])
    ensures Planned(after, middle, RequestAt(1), plan) && plan.boundaries == [ReceiptBoundary()]
  {
    plan := ThePlan(after, middle, 1, []);
    TheBoundaries();
    TheFresh([], 1);
  }

  lemma TheDirectPlan() returns (plan: Plan)
    ensures Planned(TheJournal(), TheStart(), RequestAt(1), plan)
            && plan.boundaries == [ReceiptBoundary(), RevisionBoundary()]
  {
    TheJournalReads();
    TheCheckpointIsSettled([], [TheReceipt()], 0);
    plan := ThePlan(TheJournal(), TheStart(), 1, [TheRevision()]);
    TheBoundaries();
    TheFresh([], 1);
    assert Filter([TheRevision()], DuePopulations(0)) == [TheRevision()];
  }

  /** Where two steps differ from one: the first, at time zero, applies a revision of that time although a receipt
      of the same time was journaled before it; the second, at time one, applies the receipt. */
  lemma TimeZeroReorders() returns (evaluate: Input -> Option<Text>, s: TwoSteps)
    ensures CatchesUp(evaluate, s) && s.before.cursor.receipts == [] && NowMs(s.first.regions) == 0
            && NowMs(s.second.regions) == 1
    ensures s.plan1.boundaries == [RevisionBoundary()] && s.plan2.boundaries == [ReceiptBoundary()]
    ensures s.direct.boundaries == [ReceiptBoundary(), RevisionBoundary()] && !KeepsOrder(s)
  {
    var plan1 := TheFirstPlan();
    var run1, after, middle := TheFirstStep(plan1);
    TheFirstStepPublishes(plan1, run1, after, middle);
    TheMiddle(plan1, run1, after, middle);
    var plan2 := TheSecondPlan(after, middle);
    var direct := TheDirectPlan();
    evaluate := Answer;
    s := TwoSteps(TheJournal(), TheStart(), RequestAt(0), plan1, run1, after, middle, [], RequestAt(1), plan2, direct);
    TheStepsCatchUp(s);
    assert s.direct.boundaries[0] != (s.plan1.boundaries + s.plan2.boundaries)[0];
    OrderIsLost(s);
  }

  lemma OrderIsLost(s: TwoSteps)
    requires CatchesUp(Answer, s) && s.direct.boundaries != s.plan1.boundaries + s.plan2.boundaries
    ensures !KeepsOrder(s)
  {
    CatchUpIsIndependent(Answer, s);
  }

  lemma TheStepsCatchUp(s: TwoSteps)
    requires s.journal == TheJournal() && s.before == TheStart() && s.tail == [] && s.first == RequestAt(0)
             && s.second == RequestAt(1)
    requires Ascending(s.after) && RanWith(Answer, s.journal, s.before, s.first, s.after, s.middle, s.plan1, s.run1)
    requires Publishes(s.journal, s.before, s.first, s.plan1, s.run1, s.after, s.middle)
    requires Planned(s.after, s.middle, s.second, s.plan2) && Planned(s.journal, s.before, s.second, s.direct)
    ensures CatchesUp(Answer, s)
  {
    assert s.after + s.tail == s.after && s.journal + s.tail == s.journal;
    assert FirstStep(Answer, s) by {
      TheJournalIsChained();
      TheCheckpointIsSettled([], [TheReceipt()], 0);
    }
    NothingLate(s);
  }

  lemma NothingLate(s: TwoSteps)
    requires s.tail == [] && Ascending(s.after) && s.first.regions != []
    ensures Promised(s)
  {
    assert s.after + s.tail == s.after;
    assert OffersAfter(s.tail, s.before.cursor.throughWorldSequence) == [];
  }
}
