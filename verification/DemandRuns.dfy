/** What every run of the demand consumer keeps, whatever is journaled between its runs. */
module DemandRuns {
  import opened DemandJournal
  import opened DemandOfferHistory
  import opened DemandProgress
  import opened DemandReceipts
  import opened Outcomes
  import opened Sorting
  import opened TextOrder

  // ------------------------------------------------------------------ the committed state

  ghost predicate Between(receipts: seq<Receipt>, from: nat, to: nat) {
    forall i :: 0 <= i < |receipts| ==> from <= receipts[i].actualTimeMs <= to
  }

  ghost predicate HaveSequences(receipts: seq<Receipt>, sequences: map<Text, nat>) {
    forall i :: 0 <= i < |receipts| ==> receipts[i].receiptId in sequences
  }

  /** The published checkpoint's own consistency: confirmed receipts up to the safe time and pending ones from
      it on, each once, without contradiction and with a known world sequence; pending offers not before it. */
  ghost predicate Settled(checkpoint: Checkpoint) {
    var c := checkpoint.cursor;
    && checkpoint.input.nowMs == c.safeThroughMs
    && Consistent(c.receipts + c.pendingReceipts) && Distinct(c.receipts + c.pendingReceipts)
    && Sorted(c.receipts, ReceiptAtMost) && Sorted(c.pendingReceipts, ReceiptAtMost)
       && Sorted(c.pendingOffers, OfferAtMost)
    && Between(c.receipts, 0, c.safeThroughMs) && ReceiptsFrom(c.pendingReceipts, c.safeThroughMs)
    && HaveSequences(c.receipts + c.pendingReceipts, c.receiptWorldSequences)
    && OffersFrom(c.pendingOffers, c.safeThroughMs)
  }

  // ------------------------------------------------------------------ unfolding a plan

  function Gathered(journal: Journal, cursor: Cursor, known: seq<Service>): seq<Receipt> {
    cursor.receipts + cursor.pendingReceipts + ReceiptsOf(ReportsAfter(journal, cursor.throughWorldSequence, known))
  }

  /** The run's inputs apart from the journal. */
  datatype Request = Request(template: Template, proposed: seq<Service>, deploymentHash: Text, worldId: Text,
                             regions: seq<Region>)

  ghost predicate Planned(journal: Journal, before: Checkpoint, request: Request, plan: Plan) {
    request.regions != []
    && PlanOf(journal, before, request.template, request.proposed, request.deploymentHash, request.worldId,
              request.regions) == Ok(plan)
  }

  function PopulationsFor(journal: Journal, before: Checkpoint, template: Template): seq<PopulationEvent> {
    if template.hasPopulationModel then PopulationsAfter(journal, RevisionOf(before.input.population)) else []
  }

  /** A plan is made of a reading, the receipts read with it, and the boundaries of both. */
  lemma PlanParts(journal: Journal, before: Checkpoint, request: Request, plan: Plan)
    requires Planned(journal, before, request, plan)
    ensures RegionObjection(before.cursor, request.regions).None? && before.deploymentHash == request.deploymentHash
    ensures Read(journal, before, request.template, request.proposed, NowMs(request.regions)) == Ok(plan.reading)
    ensures ReadReceipts(journal, before.cursor, plan.reading.known, request.worldId, request.regions)
            == Ok(plan.receipts)
    ensures PlanFrom(before, plan.reading, plan.receipts, NowMs(request.regions)) == Ok(plan)
  {
    var reading := Read(journal, before, request.template, request.proposed, NowMs(request.regions));
    assert reading.Ok?;
    var receipts := ReadReceipts(journal, before.cursor, reading.value.known, request.worldId, request.regions);
    assert receipts.Ok?;
    PlanFromKeeps(before, reading.value, receipts.value, NowMs(request.regions), plan);
  }

  lemma PlanFromKeeps(before: Checkpoint, reading: Reading, receipts: Receipts, nowMs: nat, plan: Plan)
    requires PlanFrom(before, reading, receipts, nowMs) == Ok(plan)
    ensures plan.reading == reading && plan.receipts == receipts
    ensures plan.confirmed == Filter(receipts.all, DueReceipts(nowMs))
            && plan.pendingReceipts == Filter(receipts.all, LaterReceipts(nowMs))
    ensures plan.pendingOffers == Filter(reading.offers, LaterOffers(nowMs))
    ensures ReceiptsFrom(Fresh(receipts.all, before.cursor.receipts, nowMs), before.input.nowMs)
    ensures plan.boundaries
            == Boundaries(Number(Fresh(receipts.all, before.cursor.receipts, nowMs), receipts.sequences),
                                          Filter(reading.offers, DueOffers(nowMs)), before.input.nowMs, reading.updates)
  {
  }

  ghost predicate OffersAreRead(journal: Journal, before: Checkpoint, reading: Reading) {
    && reading.history == OffersAfter(journal, before.cursor.throughWorldSequence)
    && reading.offers == Sort(before.cursor.pendingOffers + reading.history, OfferAtMost)
    && reading.known == KnownAfter(before.cursor.offerServices, reading.offers)
    && reading.sourceServices ==
       (if reading.history != [] then reading.history[|reading.history| - 1].services
        else before.cursor.offerSourceServices)
    && OffersFrom(reading.history, before.input.nowMs)
  }

  lemma PlanReads(journal: Journal, before: Checkpoint, request: Request, plan: Plan)
    requires Planned(journal, before, request, plan)
    ensures OffersAreRead(journal, before, plan.reading)
  {
    assert Read(journal, before, request.template, request.proposed, NowMs(request.regions)) == Ok(plan.reading) by {
      PlanParts(journal, before, request, plan);
    }
    OffersRead(journal, before, request.template, request.proposed, NowMs(request.regions), plan.reading);
  }

  lemma TimeAdvances(journal: Journal, before: Checkpoint, request: Request, plan: Plan)
    requires Planned(journal, before, request, plan)
    ensures before.cursor.safeThroughMs <= SafeThrough(NowMs(request.regions))
  {
    PlanParts(journal, before, request, plan);
  }

  lemma OffersRead(journal: Journal, before: Checkpoint, template: Template, proposed: seq<Service>, nowMs: nat,
                   reading: Reading)
    requires Read(journal, before, template, proposed, nowMs) == Ok(reading)
    ensures OffersAreRead(journal, before, reading)
  {
  }

  lemma PlanUpdates(journal: Journal, before: Checkpoint, request: Request, plan: Plan)
    requires Planned(journal, before, request, plan)
    ensures plan.reading.updates
            == Filter(PopulationsFor(journal, before, request.template),
                      DuePopulations(SafeThrough(NowMs(request.regions))))
    ensures PopulationsRise(PopulationsFor(journal, before, request.template))
    ensures UpdatesFrom(plan.reading.updates, before.input.nowMs)
  {
    assert Read(journal, before, request.template, request.proposed, NowMs(request.regions)) == Ok(plan.reading) by {
      PlanParts(journal, before, request, plan);
    }
    UpdatesRead(journal, before, request.template, request.proposed, NowMs(request.regions), plan.reading);
  }

  lemma UpdatesRead(journal: Journal, before: Checkpoint, template: Template, proposed: seq<Service>, nowMs: nat,
                    reading: Reading)
    requires Read(journal, before, template, proposed, nowMs) == Ok(reading)
    ensures reading.updates == Filter(PopulationsFor(journal, before, template), DuePopulations(SafeThrough(nowMs)))
    ensures PopulationsRise(PopulationsFor(journal, before, template))
    ensures UpdatesFrom(reading.updates, before.input.nowMs)
  {
  }

  lemma PlanGathers(journal: Journal, before: Checkpoint, request: Request, plan: Plan)
    requires Planned(journal, before, request, plan)
    ensures Accepts(Gathered(journal, before.cursor, plan.reading.known), plan.reading.known)
    ensures plan.receipts.all == Ordered(Gathered(journal, before.cursor, plan.reading.known))
    ensures plan.receipts.received
            == ReceiptsOf(ReportsAfter(journal, before.cursor.throughWorldSequence, plan.reading.known))
    ensures plan.receipts.sequences ==
            SequencesWith(before.cursor.receiptWorldSequences,
                          ReportsAfter(journal, before.cursor.throughWorldSequence, plan.reading.known))
  {
    PlanParts(journal, before, request, plan);
    ReceiptsRead(journal, before.cursor, plan.reading.known, request.worldId, request.regions, plan.receipts);
  }

  lemma ReceiptsRead(journal: Journal, cursor: Cursor, known: seq<Service>, worldId: Text, regions: seq<Region>,
                     receipts: Receipts)
    requires ReadReceipts(journal, cursor, known, worldId, regions) == Ok(receipts)
    ensures Accepts(Gathered(journal, cursor, known), known)
            && receipts.all == Ordered(Gathered(journal, cursor, known))
    ensures receipts.received == ReceiptsOf(ReportsAfter(journal, cursor.throughWorldSequence, known))
    ensures receipts.sequences
            == SequencesWith(cursor.receiptWorldSequences, ReportsAfter(journal, cursor.throughWorldSequence, known))
  {
  }

  lemma PlanKeeps(journal: Journal, before: Checkpoint, request: Request, plan: Plan)
    requires Planned(journal, before, request, plan)
    ensures var nowMs := NowMs(request.regions);
      var arrived := Fresh(plan.receipts.all, before.cursor.receipts, nowMs);
      && plan.confirmed == Filter(plan.receipts.all, DueReceipts(nowMs))
      && plan.pendingReceipts == Filter(plan.receipts.all, LaterReceipts(nowMs))
      && plan.pendingOffers == Filter(plan.reading.offers, LaterOffers(nowMs))
      && ReceiptsFrom(arrived, before.input.nowMs)
      && plan.boundaries
         == Boundaries(Number(arrived, plan.receipts.sequences), Filter(plan.reading.offers, DueOffers(nowMs)),
                                       before.input.nowMs, plan.reading.updates)
  {
    PlanParts(journal, before, request, plan);
    PlanFromKeeps(before, plan.reading, plan.receipts, NowMs(request.regions), plan);
  }

  // ------------------------------------------------------------------ receipts: confirmed or pending, never both

  /** The receipts of a plan split into confirmed and pending ones by time. */
  lemma PlanSplitsReceipts(journal: Journal, before: Checkpoint, request: Request, plan: Plan)
    requires Planned(journal, before, request, plan)
    ensures forall r :: r in plan.confirmed <==>
              r in Gathered(journal, before.cursor, plan.reading.known) && Due(NowMs(request.regions), r.actualTimeMs)
    ensures forall r :: r in plan.pendingReceipts <==>
              r in Gathered(journal, before.cursor, plan.reading.known) && !Due(NowMs(request.regions), r.actualTimeMs)
    ensures Distinct(plan.confirmed + plan.pendingReceipts) && Consistent(plan.confirmed + plan.pendingReceipts)
    ensures Sorted(plan.confirmed, ReceiptAtMost) && Sorted(plan.pendingReceipts, ReceiptAtMost)
  {
    var gathered := Gathered(journal, before.cursor, plan.reading.known);
    PlanGathers(journal, before, request, plan);
    PlanKeeps(journal, before, request, plan);
    OrderedMembers(gathered);
    SplitByTime(plan.receipts.all, NowMs(request.regions), plan.confirmed, plan.pendingReceipts);
    ConsistentPart(gathered, plan.confirmed + plan.pendingReceipts);
  }

  lemma SplitByTime(all: seq<Receipt>, nowMs: nat, confirmed: seq<Receipt>, pending: seq<Receipt>)
    requires Distinct(all) && Sorted(all, ReceiptAtMost)
    requires confirmed == Filter(all, DueReceipts(nowMs)) && pending == Filter(all, LaterReceipts(nowMs))
    ensures forall r :: r in confirmed <==> r in all && Due(nowMs, r.actualTimeMs)
    ensures forall r :: r in pending <==> r in all && !Due(nowMs, r.actualTimeMs)
    ensures Distinct(confirmed + pending) && Sorted(confirmed, ReceiptAtMost) && Sorted(pending, ReceiptAtMost)
  {
    FilterMembers(all, DueReceipts(nowMs));
    FilterMembers(all, LaterReceipts(nowMs));
    FilterDistinct(all, DueReceipts(nowMs));
    FilterDistinct(all, LaterReceipts(nowMs));
    ReceiptOrder();
    FilterKeepsSorted(all, DueReceipts(nowMs), ReceiptAtMost);
    FilterKeepsSorted(all, LaterReceipts(nowMs), ReceiptAtMost);
    forall i, j | 0 <= i < |confirmed| && 0 <= j < |pending|
      ensures confirmed[i] != pending[j]
    {
      assert confirmed[i] in confirmed && pending[j] in pending;
      assert Due(nowMs, confirmed[i].actualTimeMs) && !Due(nowMs, pending[j].actualTimeMs);
    }
    DisjointJoin(confirmed, pending);
  }

  lemma DisjointJoin<T>(s: seq<T>, t: seq<T>)
    requires Distinct(s) && Distinct(t) && forall i, j :: 0 <= i < |s| && 0 <= j < |t| ==> s[i] != t[j]
    ensures Distinct(s + t)
  {
  }

  lemma ConsistentPart(whole: seq<Receipt>, part: seq<Receipt>)
    requires Consistent(whole) && forall r :: r in part ==> r in whole
    ensures Consistent(part)
  {
    forall i, j | 0 <= i < |part| && 0 <= j < |part|
      ensures Agree(part[i], part[j])
    {
      assert part[i] in whole && part[j] in whole;
    }
  }

  // ------------------------------------------------------------------ which reports are read

  lemma {:induction false} ReportMembers(journal: Journal, after: nat, known: seq<Service>, e: Entry)
    ensures e in ReportsAfter(journal, after, known) <==>
            e in journal && e.sequence > after && e.event.StopReported?
                && FindService(known, e.event.receipt.trainRunId).Some?
  {
    if journal != [] {
      var n := |journal| - 1;
      ReportMembers(journal[..n], after, known, e);
      assert journal == journal[..n] + [journal[n]];
    }
  }

  ghost predicate Reported(journal: Journal, after: nat, through: nat, r: Receipt) {
    exists e :: e in journal && after < e.sequence <= through && e.event.StopReported? && e.event.receipt == r
  }

  /** A receipt is read when it is reported after the cursor for a known train. */
  lemma ReceivedMembers(journal: Journal, after: nat, known: seq<Service>, r: Receipt)
    requires Ascending(journal)
    ensures r in ReceiptsOf(ReportsAfter(journal, after, known)) <==>
            Reported(journal, after, Head(journal), r) && FindService(known, r.trainRunId).Some?
  {
    var reports := ReportsAfter(journal, after, known);
    HeadBounds(journal);
    if r in ReceiptsOf(reports) {
      var i :| 0 <= i < |reports| && reports[i].event.receipt == r;
      ReportMembers(journal, after, known, reports[i]);
      assert reports[i] in reports;
      assert reports[i] in journal;
      var j :| 0 <= j < |journal| && journal[j] == reports[i];
      assert reports[i].sequence <= Head(journal);
    }
    if Reported(journal, after, Head(journal), r) && FindService(known, r.trainRunId).Some? {
      var e :| e in journal && after < e.sequence <= Head(journal) && e.event.StopReported? && e.event.receipt == r;
      ReportMembers(journal, after, known, e);
      var i :| 0 <= i < |reports| && reports[i] == e;
      assert ReceiptsOf(reports)[i] == r;
    }
  }

  lemma {:induction false} SequencesGrow(sequences: map<Text, nat>, reports: Journal)
    requires forall i :: 0 <= i < |reports| ==> reports[i].event.StopReported?
    ensures forall id :: id in sequences
              ==> id in SequencesWith(sequences, reports) && SequencesWith(sequences, reports)[id] == sequences[id]
    ensures HaveSequences(ReceiptsOf(reports), SequencesWith(sequences, reports))
  {
    if reports != [] {
      SequencesGrow(sequences, reports[..|reports| - 1]);
      assert forall i :: 0 <= i < |reports| - 1 ==> ReceiptsOf(reports)[i] == ReceiptsOf(reports[..|reports| - 1])[i];
    }
  }

  // ------------------------------------------------------------------ replay as a fold over single events

  function ApplyEvent(held: Held, event: Event): Held {
    match event
    case Confirmed(r) => held.(applied := PutReceipt(held.applied, r))
    case Offered(offer) => held.(services := Retain(held.services, offer.services), provenance := offer.provenance)
    case Updated(population) => held.(population := Some(population.snapshot))
  }

  function ApplyEvents(held: Held, hs: seq<Happening>): Held {
    if hs == [] then held else ApplyEvent(ApplyEvents(held, hs[..|hs| - 1]), hs[|hs| - 1].event)
  }

  lemma {:induction false} ApplyEventsJoins(held: Held, a: seq<Happening>, b: seq<Happening>)
    ensures ApplyEvents(held, a + b) == ApplyEvents(ApplyEvents(held, a), b)
    decreases |b|
  {
    if b == [] {
      assert a + b == a;
    } else {
      var n := |b| - 1;
      assert (a + b)[..|a + b| - 1] == a + b[..n] && (a + b)[|a + b| - 1] == b[n];
      ApplyEventsJoins(held, a, b[..n]);
    }
  }

  lemma {:induction false} ReceiptEvents(held: Held, atMs: nat, receipts: seq<Receipt>)
    ensures ApplyEvents(held, ReceiptsAt(atMs, receipts)) == held.(applied := PutReceipts(held.applied, receipts))
  {
    if receipts != [] {
      var n := |receipts| - 1;
      ReceiptEvents(held, atMs, receipts[..n]);
      assert ReceiptsAt(atMs, receipts)[..n] == ReceiptsAt(atMs, receipts[..n]);
    }
  }

  lemma BoundaryEvents(held: Held, b: Boundary)
    ensures ApplyBoundary(held, b) == ApplyEvents(held, HappeningsOf(b))
  {
    var receipts := ReceiptsAt(b.atMs, b.receipts);
    var offers := if b.offer.Some? then [Happening(b.atMs, Offered(b.offer.value))] else [];
    var updates := if b.population.Some? then [Happening(b.atMs, Updated(b.population.value))] else [];
    ReceiptEvents(held, b.atMs, b.receipts);
    ApplyEventsJoins(held, receipts, offers);
    ApplyEventsJoins(held, receipts + offers, updates);
    OneEvent(ApplyEvents(held, receipts), offers);
    OneEvent(ApplyEvents(held, receipts + offers), updates);
  }

  lemma OneEvent(held: Held, hs: seq<Happening>)
    requires |hs| <= 1
    ensures ApplyEvents(held, hs) == if hs == [] then held else ApplyEvent(held, hs[0].event)
  {
  }

  /** Applying boundaries is applying what they hold, one event after the other. */
  lemma {:induction false} BoundariesAreEvents(held: Held, boundaries: seq<Boundary>)
    ensures ApplyAll(held, boundaries) == ApplyEvents(held, Flatten(boundaries))
  {
    if boundaries != [] {
      var n := |boundaries| - 1;
      BoundariesAreEvents(held, boundaries[..n]);
      BoundaryEvents(ApplyAll(held, boundaries[..n]), boundaries[n]);
      ApplyEventsJoins(held, Flatten(boundaries[..n]), HappeningsOf(boundaries[n]));
    }
  }

  // ------------------------------------------------------------------ the events by kind

  function OfferedIn(hs: seq<Happening>): seq<OfferRevision> {
    if hs == [] then []
    else OfferedIn(hs[..|hs| - 1]) + (if hs[|hs| - 1].event.Offered? then [hs[|hs| - 1].event.offer] else [])
  }

  function ConfirmedIn(hs: seq<Happening>): seq<Receipt> {
    if hs == [] then []
    else ConfirmedIn(hs[..|hs| - 1]) + (if hs[|hs| - 1].event.Confirmed? then [hs[|hs| - 1].event.receipt] else [])
  }

  function UpdatedIn(hs: seq<Happening>): seq<PopulationEvent> {
    if hs == [] then []
    else UpdatedIn(hs[..|hs| - 1]) + (if hs[|hs| - 1].event.Updated? then [hs[|hs| - 1].event.population] else [])
  }

  function LastUpdate(population: Option<Snapshot>, updates: seq<PopulationEvent>): Option<Snapshot> {
    if updates == [] then population else Some(updates[|updates| - 1].snapshot)
  }

  lemma {:induction false} ConfirmedJoins(a: seq<Happening>, b: seq<Happening>)
    ensures ConfirmedIn(a + b) == ConfirmedIn(a) + ConfirmedIn(b)
    decreases |b|
  {
    if b == [] {
      assert a + b == a;
    } else {
      var n := |b| - 1;
      assert (a + b)[..|a + b| - 1] == a + b[..n] && (a + b)[|a + b| - 1] == b[n];
      ConfirmedJoins(a, b[..n]);
    }
  }

  /** The receipts of some boundaries, in their order. */
  function ReceiptsCarriedBy(bs: seq<Boundary>): seq<Receipt> { ConfirmedIn(Flatten(bs)) }

  lemma ReceiptsCarriedJoin(a: seq<Boundary>, b: seq<Boundary>)
    ensures ReceiptsCarriedBy(a + b) == ReceiptsCarriedBy(a) + ReceiptsCarriedBy(b)
  {
    FlattenJoins(a, b);
    ConfirmedJoins(Flatten(a), Flatten(b));
  }

  lemma {:induction false} ServicesAfter(held: Held, hs: seq<Happening>)
    ensures ApplyEvents(held, hs).services == KnownAfter(held.services, OfferedIn(hs))
  {
    if hs != [] {
      var n := |hs| - 1;
      ServicesAfter(held, hs[..n]);
      if hs[n].event.Offered? {
        assert OfferedIn(hs)[..|OfferedIn(hs)| - 1] == OfferedIn(hs[..n]);
      } else {
        assert OfferedIn(hs) == OfferedIn(hs[..n]);
      }
    }
  }

  lemma {:induction false} AppliedAfter(held: Held, hs: seq<Happening>)
    ensures ApplyEvents(held, hs).applied == PutReceipts(held.applied, ConfirmedIn(hs))
  {
    if hs != [] {
      var n := |hs| - 1;
      AppliedAfter(held, hs[..n]);
      if hs[n].event.Confirmed? {
        assert ConfirmedIn(hs)[..|ConfirmedIn(hs)| - 1] == ConfirmedIn(hs[..n]);
      } else {
        assert ConfirmedIn(hs) == ConfirmedIn(hs[..n]);
      }
    }
  }

  lemma {:induction false} PopulationAfter(held: Held, hs: seq<Happening>)
    ensures ApplyEvents(held, hs).population == LastUpdate(held.population, UpdatedIn(hs))
  {
    if hs != [] {
      PopulationAfter(held, hs[..|hs| - 1]);
    }
  }

  predicate IsOffer(item: Item) { item.event.Offered? }

  predicate IsReceipt(item: Item) { item.event.Confirmed? }

  predicate IsUpdate(item: Item) { item.event.Updated? }

  lemma {:induction false} OfferedAlone(items: seq<Item>)
    ensures OfferedIn(Strip(items)) == OfferedIn(Strip(Filter(items, IsOffer)))
  {
    if items != [] {
      var n := |items| - 1;
      OfferedAlone(items[..n]);
      assert items == items[..n] + [items[n]];
      LastOfStripped(items[..n], items[n]);
      LastOfFilter(items[..n], items[n], IsOffer);
      LastOfStripped(Filter(items[..n], IsOffer), items[n]);
    }
  }

  lemma {:induction false} ConfirmedAlone(items: seq<Item>)
    ensures ConfirmedIn(Strip(items)) == ConfirmedIn(Strip(Filter(items, IsReceipt)))
  {
    if items != [] {
      var n := |items| - 1;
      ConfirmedAlone(items[..n]);
      assert items == items[..n] + [items[n]];
      LastOfStripped(items[..n], items[n]);
      LastOfFilter(items[..n], items[n], IsReceipt);
      LastOfStripped(Filter(items[..n], IsReceipt), items[n]);
    }
  }

  lemma {:induction false} UpdatedAlone(items: seq<Item>)
    ensures UpdatedIn(Strip(items)) == UpdatedIn(Strip(Filter(items, IsUpdate)))
  {
    if items != [] {
      var n := |items| - 1;
      UpdatedAlone(items[..n]);
      assert items == items[..n] + [items[n]];
      LastOfStripped(items[..n], items[n]);
      LastOfFilter(items[..n], items[n], IsUpdate);
      LastOfStripped(Filter(items[..n], IsUpdate), items[n]);
    }
  }

  lemma LastOfStripped(items: seq<Item>, item: Item)
    ensures Strip(items + [item]) == Strip(items) + [Happening(item.atMs, item.event)]
    ensures Strip(items + [item])[..|items|] == Strip(items)
  {
  }

  lemma LastOfFilter(items: seq<Item>, item: Item, keep: Item -> bool)
    ensures Filter(items + [item], keep) == if keep(item) then Filter(items, keep) + [item] else Filter(items, keep)
  {
    FilterAppend(items, [item], keep);
    assert Filter([item], keep) == if keep(item) then [item] else [];
  }

  // ------------------------------------------------------------------ the journal a run leaves

  ghost predicate Extends(journal: Journal, after: Journal) {
    |journal| <= |after| && after[..|journal|] == journal
    && forall i :: |journal| <= i < |after| ==> after[i].event.DemandProgressed?
  }

  /** The last checkpoint in the journal is the run's current one. */
  ghost predicate EndsWith(journal: Journal, current: Checkpoint) {
    Chained(journal) && LastDemand(journal).Some? && LastDemand(journal).value.checkpoint == current
  }

  lemma CommitAppends(evaluate: Input -> Option<Text>, journal: Journal, current: Checkpoint, input: Input,
                      deploymentHash: Text,
                      provenance: Text, cursor: Cursor, published: bool, after: Journal, next: Checkpoint)
    requires EndsWith(journal, current) && input.revision == current.input.revision + 1
    requires Committed(evaluate, journal, input, deploymentHash, provenance, cursor, published) == Ok((after, next))
    ensures after == journal + [Entry(Head(journal) + 1, EventOf(next, published))]
    ensures next.input == input && next.deploymentHash == deploymentHash && next.provenance == provenance
            && next.cursor == cursor
    ensures EndsWith(after, next)
  {
    CommitKeepsChain(journal, next, published);
  }

  ghost predicate CommittedAt(evaluate: Input -> Option<Text>, context: Context, run: Run, b: Boundary, end: Run) {
    && end.held == ApplyBoundary(run.held, b)
    && Committed(evaluate, run.journal, BoundaryInput(context, run.current, end.held, b.atMs), context.deploymentHash,
                 end.held.provenance, BoundaryCursor(context, end.held, b.atMs), false)
                 == Ok((end.journal, end.current))
  }

  lemma BoundaryIsCommitted(evaluate: Input -> Option<Text>, context: Context, run: Run, b: Boundary, end: Run)
    requires AtBoundary(evaluate, context, run, b) == Ok(end)
    ensures CommittedAt(evaluate, context, run, b, end)
  {
  }

  ghost predicate IsBoundaryCheckpoint(checkpoint: Checkpoint, context: Context, before: Checkpoint, held: Held,
                                       atMs: nat) {
    checkpoint.input == BoundaryInput(context, before, held, atMs)
        && checkpoint.cursor == BoundaryCursor(context, held, atMs)
  }

  lemma BoundaryCommits(evaluate: Input -> Option<Text>, context: Context, run: Run, b: Boundary, end: Run)
    requires EndsWith(run.journal, run.current) && CommittedAt(evaluate, context, run, b, end)
    ensures EndsWith(end.journal, end.current) && Extends(run.journal, end.journal)
    ensures end.journal == run.journal + [Entry(Head(run.journal) + 1, DemandProgressed(end.current))]
    ensures IsBoundaryCheckpoint(end.current, context, run.current, end.held, b.atMs)
  {
    var input, cursor := BoundaryInput(context, run.current, end.held, b.atMs),
        BoundaryCursor(context, end.held, b.atMs);
    CommitAppends(evaluate, run.journal, run.current, input, context.deploymentHash, end.held.provenance, cursor, false,
                  end.journal, end.current);
  }

  /** A replay appends one progress checkpoint a boundary and holds what its boundaries make of the start. */
  lemma {:induction false} ReplayCommits(evaluate: Input -> Option<Text>, context: Context, run: Run,
                                         boundaries: seq<Boundary>, end: Run)
    requires EndsWith(run.journal, run.current) && Replay(evaluate, context, run, boundaries) == Ok(end)
    ensures Reached(run, boundaries, end)
  {
    if boundaries != [] {
      var n := |boundaries| - 1;
      var before := LastReplay(evaluate, context, run, boundaries, end);
      ReplayCommits(evaluate, context, run, boundaries[..n], before);
      BoundaryIsCommitted(evaluate, context, before, boundaries[n], end);
      BoundaryCommits(evaluate, context, before, boundaries[n], end);
      ReachedFurther(run, boundaries, before, end);
    }
  }

  ghost predicate Reached(run: Run, boundaries: seq<Boundary>, end: Run) {
    && EndsWith(end.journal, end.current) && Extends(run.journal, end.journal)
    && end.held == ApplyAll(run.held, boundaries)
    && end.current.input.nowMs
       == (if boundaries == [] then run.current.input.nowMs else boundaries[|boundaries| - 1].atMs)
  }

  /** The state before the last boundary of a replay that succeeds. */
  lemma LastReplay(evaluate: Input -> Option<Text>, context: Context, run: Run, boundaries: seq<Boundary>, end: Run)
    returns (before: Run)
    requires boundaries != [] && Replay(evaluate, context, run, boundaries) == Ok(end)
    ensures Replay(evaluate, context, run, boundaries[..|boundaries| - 1]) == Ok(before)
    ensures AtBoundary(evaluate, context, before, boundaries[|boundaries| - 1]) == Ok(end)
  {
    before := Replay(evaluate, context, run, boundaries[..|boundaries| - 1]).value;
  }

  lemma ReachedFurther(run: Run, boundaries: seq<Boundary>, before: Run, end: Run)
    requires boundaries != [] && Extends(run.journal, before.journal)
             && before.held == ApplyAll(run.held, boundaries[..|boundaries| - 1])
    requires EndsWith(end.journal, end.current) && Extends(before.journal, end.journal)
    requires end.held == ApplyBoundary(before.held, boundaries[|boundaries| - 1])
             && end.current.input.nowMs == boundaries[|boundaries| - 1].atMs
    ensures Reached(run, boundaries, end)
  {
    ExtendsChains(run.journal, before.journal, end.journal);
  }

  lemma ExtendsChains(a: Journal, b: Journal, c: Journal)
    requires Extends(a, b) && Extends(b, c)
    ensures Extends(a, c)
  {
    assert c[..|a|] == b[..|a|];
    forall i | |a| <= i < |c|
      ensures c[i].event.DemandProgressed?
    {
      assert i < |b| ==> c[i] == b[i];
    }
  }

  ghost predicate TimesWithin(boundaries: seq<Boundary>, from: nat, to: nat) {
    forall i :: 0 <= i < |boundaries| ==> from <= boundaries[i].atMs <= to
  }

  ghost predicate ItemsWithin(items: seq<Item>, from: nat, to: nat) {
    forall i :: 0 <= i < |items| ==> from <= items[i].atMs <= to
  }

  lemma {:induction false} GroupTimes(items: seq<Item>, from: nat, to: nat)
    requires ItemsWithin(items, from, to)
    ensures TimesWithin(Group(items), from, to)
  {
    if items != [] {
      GroupTimes(items[..|items| - 1], from, to);
    }
  }

  /** Boundaries of things due lie between the last safe time and the new one. */
  lemma BoundaryTimes(receipts: seq<Numbered>, offers: seq<OfferRevision>, earliestMs: nat,
                      population: seq<PopulationEvent>, to: nat)
    requires earliestMs <= to
    requires forall i :: 0 <= i < |receipts| ==> receipts[i].receipt.actualTimeMs <= to
    requires forall i :: 0 <= i < |offers| ==> offers[i].effectiveAtMs <= to
    requires forall i :: 0 <= i < |population| ==> population[i].snapshot.effectiveAtMs <= to
    ensures TimesWithin(Boundaries(receipts, offers, earliestMs, population), earliestMs, to)
  {
    var items := Items(receipts, offers, earliestMs, population);
    SortPermutes(items, ItemAtMost);
    forall i | 0 <= i < |items|
      ensures earliestMs <= Sort(items, ItemAtMost)[i].atMs <= to
    {
      assert Sort(items, ItemAtMost)[i] in items;
    }
    GroupTimes(Sort(items, ItemAtMost), earliestMs, to);
  }

  lemma FreshMembers(all: seq<Receipt>, prior: seq<Receipt>, nowMs: nat)
    ensures forall r :: r in Fresh(all, prior, nowMs)
              <==> r in all && Due(nowMs, r.actualTimeMs) && !HasId(prior, r.receiptId)
  {
    FilterMembers(all, DueReceipts(nowMs));
    FilterMembers(Filter(all, DueReceipts(nowMs)), NotAmong(prior));
  }

  lemma PlanTimes(journal: Journal, before: Checkpoint, request: Request, plan: Plan)
    requires Planned(journal, before, request, plan) && Settled(before)
    ensures before.input.nowMs <= SafeThrough(NowMs(request.regions))
    ensures TimesWithin(plan.boundaries, before.input.nowMs, SafeThrough(NowMs(request.regions)))
  {
    var nowMs := NowMs(request.regions);
    TimeAdvances(journal, before, request, plan);
    PlanKeeps(journal, before, request, plan);
    PlanUpdates(journal, before, request, plan);
    var arrived := Fresh(plan.receipts.all, before.cursor.receipts, nowMs);
    var offers := Filter(plan.reading.offers, DueOffers(nowMs));
    FreshMembers(plan.receipts.all, before.cursor.receipts, nowMs);
    FilterMembers(plan.reading.offers, DueOffers(nowMs));
    FilterMembers(PopulationsFor(journal, before, request.template), DuePopulations(SafeThrough(nowMs)));
    assert forall i :: 0 <= i < |arrived| ==> arrived[i] in arrived;
    assert forall i :: 0 <= i < |offers| ==> offers[i] in offers;
    assert forall i :: 0 <= i < |plan.reading.updates| ==> plan.reading.updates[i] in plan.reading.updates;
    BoundaryTimes(Number(arrived, plan.receipts.sequences), offers, before.input.nowMs, plan.reading.updates,
                  SafeThrough(nowMs));
  }

  // ------------------------------------------------------------------ what the boundaries apply

  lemma {:induction false} OfferedOf(items: seq<Item>, offers: seq<OfferRevision>)
    requires |items| == |offers| && forall i :: 0 <= i < |items| ==> items[i].event == Offered(offers[i])
    ensures OfferedIn(Strip(items)) == offers
  {
    if items != [] {
      var n := |items| - 1;
      OfferedOf(items[..n], offers[..n]);
      assert items == items[..n] + [items[n]] && offers == offers[..n] + [offers[n]];
      LastOfStripped(items[..n], items[n]);
    }
  }

  lemma {:induction false} UpdatedOf(items: seq<Item>, updates: seq<PopulationEvent>)
    requires |items| == |updates| && forall i :: 0 <= i < |items| ==> items[i].event == Updated(updates[i])
    ensures UpdatedIn(Strip(items)) == updates
  {
    if items != [] {
      var n := |items| - 1;
      UpdatedOf(items[..n], updates[..n]);
      assert items == items[..n] + [items[n]] && updates == updates[..n] + [updates[n]];
      LastOfStripped(items[..n], items[n]);
    }
  }

  /** The items of one kind among all of them. */
  lemma ItemsByKind(receipts: seq<Numbered>, offers: seq<OfferRevision>, earliestMs: nat,
                    population: seq<PopulationEvent>)
    ensures Filter(Items(receipts, offers, earliestMs, population), IsReceipt) == ReceiptItems(receipts, earliestMs)
    ensures Filter(Items(receipts, offers, earliestMs, population), IsOffer) == OfferItems(offers, earliestMs)
    ensures Filter(Items(receipts, offers, earliestMs, population), IsUpdate) == PopulationItems(population, earliestMs)
  {
    var a, b, c := ReceiptItems(receipts, earliestMs), OfferItems(offers, earliestMs),
        PopulationItems(population, earliestMs);
    KindOfJoined(a, b, c, IsReceipt);
    KindOfJoined(a, b, c, IsOffer);
    KindOfJoined(a, b, c, IsUpdate);
    FilterAll(a, IsReceipt);
    FilterNone(b, IsReceipt);
    FilterNone(c, IsReceipt);
    FilterNone(a, IsOffer);
    FilterAll(b, IsOffer);
    FilterNone(c, IsOffer);
    FilterNone(a, IsUpdate);
    FilterNone(b, IsUpdate);
    FilterAll(c, IsUpdate);
  }

  lemma KindOfJoined(a: seq<Item>, b: seq<Item>, c: seq<Item>, keep: Item -> bool)
    ensures Filter(a + b + c, keep) == Filter(a, keep) + Filter(b, keep) + Filter(c, keep)
  {
    FilterAppend(a + b, c, keep);
    FilterAppend(a, b, keep);
  }

  /** Offers that are sorted and not before the start are applied exactly in their order. */
  lemma AppliedOffers(receipts: seq<Numbered>, offers: seq<OfferRevision>, earliestMs: nat,
                      population: seq<PopulationEvent>)
    requires Sorted(offers, OfferAtMost) && OffersFrom(offers, earliestMs)
    ensures OfferedIn(Flatten(Boundaries(receipts, offers, earliestMs, population))) == offers
  {
    var items := Items(receipts, offers, earliestMs, population);
    GroupKeepsEverything(Sort(items, ItemAtMost));
    OfferedAlone(Sort(items, ItemAtMost));
    ItemOrder();
    SortFilters(items, IsOffer, ItemAtMost);
    ItemsByKind(receipts, offers, earliestMs, population);
    SortOfSorted(OfferItems(offers, earliestMs), ItemAtMost);
    OfferedOf(OfferItems(offers, earliestMs), offers);
  }

  ghost predicate InSequence(updates: seq<PopulationEvent>) {
    forall i, j :: 0 <= i < j < |updates| ==>
      updates[i].worldSequence < updates[j].worldSequence
          && updates[i].snapshot.effectiveAtMs <= updates[j].snapshot.effectiveAtMs
  }

  /** Population revisions whose times and sequences rise are applied exactly in their order. */
  lemma AppliedUpdates(receipts: seq<Numbered>, offers: seq<OfferRevision>, earliestMs: nat,
                       population: seq<PopulationEvent>)
    requires InSequence(population)
    ensures UpdatedIn(Flatten(Boundaries(receipts, offers, earliestMs, population))) == population
  {
    var items := Items(receipts, offers, earliestMs, population);
    GroupKeepsEverything(Sort(items, ItemAtMost));
    UpdatedAlone(Sort(items, ItemAtMost));
    ItemOrder();
    SortFilters(items, IsUpdate, ItemAtMost);
    ItemsByKind(receipts, offers, earliestMs, population);
    SortOfSorted(PopulationItems(population, earliestMs), ItemAtMost);
    UpdatedOf(PopulationItems(population, earliestMs), population);
  }

  function ReceiptsIn(items: seq<Item>): seq<Receipt> {
    if items == [] then []
    else (if items[0].event.Confirmed? then [items[0].event.receipt] else []) + ReceiptsIn(items[1..])
  }

  lemma {:induction false} ConfirmedOf(items: seq<Item>)
    ensures ConfirmedIn(Strip(items)) == ReceiptsIn(items)
  {
    if items != [] {
      var n := |items| - 1;
      ConfirmedOf(items[..n]);
      assert items == items[..n] + [items[n]];
      LastOfStripped(items[..n], items[n]);
      ReceiptsInLast(items[..n], items[n]);
    }
  }

  lemma {:induction false} ReceiptsInLast(items: seq<Item>, item: Item)
    ensures ReceiptsIn(items + [item])
            == ReceiptsIn(items) + (if item.event.Confirmed? then [item.event.receipt] else [])
  {
    if items == [] {
      assert items + [item] == [item];
    } else {
      assert (items + [item])[1..] == items[1..] + [item];
      ReceiptsInLast(items[1..], item);
    }
  }

  lemma {:induction false} InsertedReceipts(x: Item, items: seq<Item>)
    ensures multiset(ReceiptsIn(Insert(x, items, ItemAtMost))) == multiset(ReceiptsIn([x] + items))
  {
    assert ([x] + items)[1..] == items;
    if items != [] && !ItemAtMost(x, items[0]) {
      InsertedReceipts(x, items[1..]);
      assert ([x] + items[1..])[1..] == items[1..];
      var r := Insert(x, items[1..], ItemAtMost);
      assert ([items[0]] + r)[1..] == r;
    }
  }

  lemma {:induction false} SortedReceipts(items: seq<Item>)
    ensures multiset(ReceiptsIn(Sort(items, ItemAtMost))) == multiset(ReceiptsIn(items))
  {
    if items != [] {
      SortedReceipts(items[1..]);
      InsertedReceipts(items[0], Sort(items[1..], ItemAtMost));
      assert ([items[0]] + Sort(items[1..], ItemAtMost))[1..] == Sort(items[1..], ItemAtMost);
    }
  }

  lemma {:induction false} ReceiptsOfItems(items: seq<Item>, receipts: seq<Numbered>)
    requires |items| == |receipts| && forall i :: 0 <= i < |items| ==> items[i].event == Confirmed(receipts[i].receipt)
    ensures |ReceiptsIn(items)| == |receipts|
            && forall i :: 0 <= i < |receipts| ==> ReceiptsIn(items)[i] == receipts[i].receipt
  {
    if items != [] {
      ReceiptsOfItems(items[1..], receipts[1..]);
    }
  }

  /** Every newly confirmed receipt is applied exactly once. */
  lemma AppliedReceipts(receipts: seq<Receipt>, sequences: map<Text, nat>, offers: seq<OfferRevision>, earliestMs: nat,
                        population: seq<PopulationEvent>)
    ensures multiset(ConfirmedIn(Flatten(Boundaries(Number(receipts, sequences), offers, earliestMs, population))))
            == multiset(receipts)
  {
    var numbered := Number(receipts, sequences);
    var items := Items(numbered, offers, earliestMs, population);
    GroupKeepsEverything(Sort(items, ItemAtMost));
    ConfirmedAlone(Sort(items, ItemAtMost));
    ItemOrder();
    SortFilters(items, IsReceipt, ItemAtMost);
    ItemsByKind(numbered, offers, earliestMs, population);
    var mine := ReceiptItems(numbered, earliestMs);
    ConfirmedOf(Sort(mine, ItemAtMost));
    SortedReceipts(mine);
    ReceiptsOfItems(mine, numbered);
    assert ReceiptsIn(mine) == receipts;
  }
}
