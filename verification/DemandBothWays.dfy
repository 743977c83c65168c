/** Two runs of the demand consumer, to one watermark and then to a later one, against one run straight to the
    later one: both ways read the same offers, population revisions and receipts. */
module DemandBothWays {
  import opened DemandJournal
  import opened DemandOfferHistory
  import opened DemandProgress
  import opened DemandReceipts
  import opened DemandRuns
  import opened DemandSafety
  import opened DemandSplit
  import opened Outcomes
  import opened Sorting
  import opened TextOrder

  // ------------------------------------------------------------------ reading a journal in two parts

  lemma {:induction false} OffersAfterJoins(a: Journal, b: Journal, after: nat)
    ensures OffersAfter(a + b, after) == OffersAfter(a, after) + OffersAfter(b, after)
    decreases |b|
  {
    if b == [] {
      assert a + b == a;
    } else {
      var n := |b| - 1;
      assert (a + b)[..|a + b| - 1] == a + b[..n] && (a + b)[|a + b| - 1] == b[n];
      OffersAfterJoins(a, b[..n], after);
    }
  }

  lemma {:induction false} PopulationsAfterJoins(a: Journal, b: Journal, revision: nat)
    ensures PopulationsAfter(a + b, revision) == PopulationsAfter(a, revision) + PopulationsAfter(b, revision)
    decreases |b|
  {
    if b == [] {
      assert a + b == a;
    } else {
      var n := |b| - 1;
      assert (a + b)[..|a + b| - 1] == a + b[..n] && (a + b)[|a + b| - 1] == b[n];
      PopulationsAfterJoins(a, b[..n], revision);
    }
  }

  lemma {:induction false} ReportsAfterJoins(a: Journal, b: Journal, after: nat, known: seq<Service>)
    ensures ReportsAfter(a + b, after, known) == ReportsAfter(a, after, known) + ReportsAfter(b, after, known)
    decreases |b|
  {
    if b == [] {
      assert a + b == a;
    } else {
      var n := |b| - 1;
      assert (a + b)[..|a + b| - 1] == a + b[..n] && (a + b)[|a + b| - 1] == b[n];
      ReportsAfterJoins(a, b[..n], after, known);
    }
  }

  ghost predicate UpToSequence(journal: Journal, through: nat) {
    forall i :: 0 <= i < |journal| ==> journal[i].sequence <= through
  }

  ghost predicate PastSequence(journal: Journal, after: nat) {
    forall i :: 0 <= i < |journal| ==> journal[i].sequence > after
  }

  lemma {:induction false} NothingNew(journal: Journal, through: nat, known: seq<Service>)
    requires UpToSequence(journal, through)
    ensures OffersAfter(journal, through) == [] && ReportsAfter(journal, through, known) == []
  {
    if journal != [] {
      NothingNew(journal[..|journal| - 1], through, known);
    }
  }

  lemma {:induction false} AllOffersNew(journal: Journal, a: nat, b: nat)
    requires PastSequence(journal, a) && PastSequence(journal, b)
    ensures OffersAfter(journal, a) == OffersAfter(journal, b)
  {
    if journal != [] {
      AllOffersNew(journal[..|journal| - 1], a, b);
    }
  }

  /** Which reports are read depends on the cursor and the known trains only where there are reports. */
  lemma {:induction false} SameReports(journal: Journal, a: nat, b: nat, known: seq<Service>, others: seq<Service>)
    requires forall i :: 0 <= i < |journal| && journal[i].event.StopReported? ==>
               ((journal[i].sequence > a && FindService(known, journal[i].event.receipt.trainRunId).Some?)
                <==> (journal[i].sequence > b && FindService(others, journal[i].event.receipt.trainRunId).Some?))
    ensures ReportsAfter(journal, a, known) == ReportsAfter(journal, b, others)
  {
    if journal != [] {
      var n := |journal| - 1;
      assert forall i :: 0 <= i < n ==> journal[..n][i] == journal[i];
      SameReports(journal[..n], a, b, known, others);
    }
  }

  lemma {:induction false} NoPopulations(journal: Journal, revision: nat)
    requires forall i :: 0 <= i < |journal| ==> IsDemand(journal[i].event)
    ensures PopulationsAfter(journal, revision) == []
  {
    if journal != [] {
      NoPopulations(journal[..|journal| - 1], revision);
    }
  }

  // ------------------------------------------------------------------ the watermark's promise

  predicate HappensAfter(event: JournalEvent, safeMs: nat) {
    && (event.StopReported? ==> event.receipt.actualTimeMs > safeMs)
    && (event.OfferCommitted? ==> event.effectiveAtMs > safeMs)
    && (event.PopulationUpdated? ==> event.snapshot.effectiveAtMs > safeMs)
  }

  /** Whatever is journaled after a watermark happens after its safe time. */
  ghost predicate KeepsPromise(tail: Journal, safeMs: nat) {
    forall i :: 0 <= i < |tail| ==> HappensAfter(tail[i].event, safeMs)
  }

  lemma {:induction false} PromisedOffers(tail: Journal, after: nat, nowMs: nat)
    requires KeepsPromise(tail, SafeThrough(nowMs))
    ensures NotYetDue(OffersAfter(tail, after), nowMs)
    ensures forall o :: o in OffersAfter(tail, after) ==> SafeThrough(nowMs) < o.effectiveAtMs
  {
    if tail != [] {
      var n := |tail| - 1;
      assert HappensAfter(tail[n].event, SafeThrough(nowMs));
      assert forall i :: 0 <= i < n ==> tail[..n][i] == tail[i];
      PromisedOffers(tail[..n], after, nowMs);
    }
  }

  lemma {:induction false} PromisedPopulations(tail: Journal, revision: nat, safeMs: nat)
    requires KeepsPromise(tail, safeMs)
    ensures Filter(PopulationsAfter(tail, revision), UpdatesUntil(safeMs)) == []
  {
    if tail != [] {
      var n := |tail| - 1;
      assert HappensAfter(tail[n].event, safeMs);
      assert forall i :: 0 <= i < n ==> tail[..n][i] == tail[i];
      PromisedPopulations(tail[..n], revision, safeMs);
      var last := if tail[n].event.PopulationUpdated? && tail[n].event.snapshot.revision > revision
                  then [PopulationEvent(tail[n].sequence, tail[n].event.snapshot)] else [];
      FilterAppend(PopulationsAfter(tail[..n], revision), last, UpdatesUntil(safeMs));
    }
  }

  lemma PromisedReports(tail: Journal, after: nat, known: seq<Service>, nowMs: nat, r: Receipt)
    requires KeepsPromise(tail, SafeThrough(nowMs)) && r in ReceiptsOf(ReportsAfter(tail, after, known))
    ensures SafeThrough(nowMs) < r.actualTimeMs
  {
    var reports := ReportsAfter(tail, after, known);
    var i :| 0 <= i < |reports| && reports[i].event.receipt == r;
    assert reports[i] in reports;
    ReportMembers(tail, after, known, reports[i]);
    var j :| 0 <= j < |tail| && tail[j] == reports[i];
    assert HappensAfter(tail[j].event, SafeThrough(nowMs));
  }

  // ------------------------------------------------------------------ two steps and one

  /** A first run, what is journaled after it, a second run's plan, and the plan of one run over all of it.
      The single run sees the same entries with the same sequence numbers; those of the first run's own
      checkpoints are unused. */
  datatype TwoSteps = TwoSteps(journal: Journal, before: Checkpoint, first: Request, plan1: Plan, run1: Run,
                               after: Journal, middle: Checkpoint,
                               tail: Journal, second: Request, plan2: Plan, direct: Plan)

  ghost predicate FirstStep(evaluate: Input -> Option<Text>, s: TwoSteps) {
    && RanWith(evaluate, s.journal, s.before, s.first, s.after, s.middle, s.plan1, s.run1)
    && Settled(s.before) && EndsWith(s.journal, s.before) && s.before.cursor.throughWorldSequence <= Head(s.journal)
    && Publishes(s.journal, s.before, s.first, s.plan1, s.run1, s.after, s.middle)
  }

  ghost predicate Plans(s: TwoSteps) {
    && Planned(s.journal, s.before, s.first, s.plan1)
    && Planned(s.after + s.tail, s.middle, s.second, s.plan2)
    && Planned(s.journal + s.tail, s.before, s.second, s.direct)
    && s.first.template.hasPopulationModel == s.second.template.hasPopulationModel
    && NowMs(s.first.regions) <= NowMs(s.second.regions)
  }

  /** What the world promises about the journal: nothing late, and no train offered only after its receipts. */
  ghost predicate Promised(s: TwoSteps) {
    && s.first.regions != [] && Ascending(s.after + s.tail)
    && KeepsPromise(s.tail, SafeThrough(NowMs(s.first.regions)))
    && (forall r :: Reported(s.journal, s.before.cursor.throughWorldSequence, Head(s.journal), r)
          ==> OfferedInTime(s, r.trainRunId))
  }

  ghost predicate OfferedInTime(s: TwoSteps, trainRunId: Text) {
    var late := OffersAfter(s.tail, s.before.cursor.throughWorldSequence);
    Introduces(late, trainRunId) ==> Offers(s.plan1.reading.known, trainRunId)
  }

  ghost predicate CatchesUp(evaluate: Input -> Option<Text>, s: TwoSteps) {
    FirstStep(evaluate, s) && Plans(s) && Promised(s)
  }

  // ------------------------------------------------------------------ what the journals hold

  ghost predicate SameTail(s: TwoSteps) {
    && UpToSequence(s.after, s.middle.cursor.throughWorldSequence)
    && UpToSequence(s.journal, s.middle.cursor.throughWorldSequence)
    && PastSequence(s.tail, s.middle.cursor.throughWorldSequence)
    && s.before.cursor.throughWorldSequence <= s.middle.cursor.throughWorldSequence
    && |s.journal| <= |s.after| && s.after[..|s.journal|] == s.journal
    && (forall i :: |s.journal| <= i < |s.after| ==> IsDemand(s.after[i].event))
  }

  lemma TailIsNew(evaluate: Input -> Option<Text>, s: TwoSteps)
    requires FirstStep(evaluate, s) && Promised(s)
    ensures SameTail(s)
  {
    ReplayOfRun(evaluate, s.journal, s.before, s.first, s.after, s.middle, s.plan1, s.run1);
    AppendedByRun(evaluate, s.journal, s.before, s.first, s.after, s.middle, s.plan1, s.run1);
    TailIsPast(s.after, s.tail);
    HeadBounds(s.after);
    AppendedAreCheckpoints(s.journal, s.run1.journal, s.after, s.middle);
    HeadOfPrefix(s.journal, s.after);
  }

  lemma HeadOfPrefix(journal: Journal, after: Journal)
    requires journal <= after && Ascending(after)
    ensures UpToSequence(journal, Head(after)) && Head(journal) <= Head(after)
  {
    HeadBounds(after);
    if journal != [] {
      assert after[|journal| - 1] == journal[|journal| - 1];
    }
    forall i | 0 <= i < |journal|
      ensures journal[i].sequence <= Head(after)
    {
      assert journal[i] == after[i];
    }
  }

  lemma TailIsPast(after: Journal, tail: Journal)
    requires after != [] && Ascending(after + tail)
    ensures PastSequence(tail, Head(after))
  {
    forall i | 0 <= i < |tail|
      ensures tail[i].sequence > Head(after)
    {
      assert (after + tail)[|after| - 1] == after[|after| - 1] && (after + tail)[|after| + i] == tail[i];
    }
  }

  lemma AppendedAreCheckpoints(journal: Journal, replayed: Journal, after: Journal, next: Checkpoint)
    requires DemandRuns.Extends(journal, replayed) && PublishedFrom(replayed, after, next)
    ensures |journal| <= |after| && after[..|journal|] == journal && after != []
    ensures forall i :: |journal| <= i < |after| ==> IsDemand(after[i].event)
  {
  }

  // ------------------------------------------------------------------ offers of both ways

  ghost predicate SameHistory(s: TwoSteps) {
    && s.direct.reading.history == s.plan1.reading.history + s.plan2.reading.history
    && s.plan2.reading.history == OffersAfter(s.tail, s.before.cursor.throughWorldSequence)
    && s.first.regions != [] && NotYetDue(s.plan2.reading.history, NowMs(s.first.regions))
    && (forall o :: o in s.plan2.reading.history ==> SafeThrough(NowMs(s.first.regions)) < o.effectiveAtMs)
  }

  ghost predicate HistoriesRead(s: TwoSteps) {
    && s.plan1.reading.history == OffersAfter(s.journal, s.before.cursor.throughWorldSequence)
    && s.plan2.reading.history == OffersAfter(s.after + s.tail, s.middle.cursor.throughWorldSequence)
    && s.direct.reading.history == OffersAfter(s.journal + s.tail, s.before.cursor.throughWorldSequence)
  }

  lemma PlansReadOffers(s: TwoSteps)
    requires Plans(s)
    ensures OffersAreRead(s.journal, s.before, s.plan1.reading)
    ensures OffersAreRead(s.after + s.tail, s.middle, s.plan2.reading)
    ensures OffersAreRead(s.journal + s.tail, s.before, s.direct.reading)
    ensures HistoriesRead(s)
  {
    PlanReads(s.journal, s.before, s.first, s.plan1);
    PlanReads(s.after + s.tail, s.middle, s.second, s.plan2);
    PlanReads(s.journal + s.tail, s.before, s.second, s.direct);
  }

  lemma TailOffers(journal: Journal, after: Journal, tail: Journal, from: nat, middle: nat)
    requires UpToSequence(after, middle) && PastSequence(tail, middle) && from <= middle
    ensures OffersAfter(after + tail, middle) == OffersAfter(tail, from)
    ensures OffersAfter(journal + tail, from) == OffersAfter(journal, from) + OffersAfter(tail, from)
  {
    OffersAfterJoins(after, tail, middle);
    NothingNew(after, middle, []);
    AllOffersNew(tail, from, middle);
    OffersAfterJoins(journal, tail, from);
    assert [] + OffersAfter(tail, from) == OffersAfter(tail, from);
  }

  lemma HistoriesJoin(s: TwoSteps)
    requires HistoriesRead(s) && SameTail(s) && s.first.regions != []
             && KeepsPromise(s.tail, SafeThrough(NowMs(s.first.regions)))
    ensures SameHistory(s)
  {
    var from, middle := s.before.cursor.throughWorldSequence, s.middle.cursor.throughWorldSequence;
    TailOffers(s.journal, s.after, s.tail, from, middle);
    PromisedOffers(s.tail, from, NowMs(s.first.regions));
  }

  /** What the first step's checkpoint hands to the second. */
  ghost predicate HandsOver(s: TwoSteps) {
    var c := s.middle.cursor;
    && c.receipts == s.plan1.confirmed && c.pendingReceipts == s.plan1.pendingReceipts
    && c.receiptWorldSequences == s.plan1.receipts.sequences && c.offerServices == s.run1.held.services
    && c.offerSourceServices == s.plan1.reading.sourceServices && c.pendingOffers == s.plan1.pendingOffers
    && s.middle.input.population == s.run1.held.population && s.middle.provenance == s.run1.held.provenance
    && s.first.regions != [] && s.middle.input.nowMs == SafeThrough(NowMs(s.first.regions))
    && s.before.input.nowMs <= s.middle.input.nowMs
  }

  lemma FirstStepHandsOver(evaluate: Input -> Option<Text>, s: TwoSteps)
    requires FirstStep(evaluate, s)
    ensures HandsOver(s) && Settled(s.middle)
  {
    PlanTimes(s.journal, s.before, s.first, s.plan1);
    PublishedIsSettled(s.journal, s.before, s.first, s.plan1, s.run1, s.after, s.middle);
    PublishedProvenance(evaluate, s);
  }

  lemma PublishedProvenance(evaluate: Input -> Option<Text>, s: TwoSteps)
    requires FirstStep(evaluate, s)
    ensures s.middle.provenance == s.run1.held.provenance
  {
    var context, safe := ContextOf(s.journal, s.first, s.plan1), SafeThrough(NowMs(s.first.regions));
    ReplayOfRun(evaluate, s.journal, s.before, s.first, s.after, s.middle, s.plan1, s.run1);
    UnchangedAppendsNothing(evaluate, s.before, context, s.run1, s.after, s.middle);
    assert |s.after| == |s.run1.journal| + 1;
    FinishCommits(evaluate, s.before, context, s.run1, s.after, s.middle, safe);
  }

  lemma UnchangedAppendsNothing(evaluate: Input -> Option<Text>, before: Checkpoint, context: Context, run: Run,
                                after: Journal, next: Checkpoint)
    requires context.regions != [] && Finish(evaluate, before, context, run) == Ok((after, next))
    ensures Unchanged(before, context, run, SafeThrough(NowMs(context.regions))) ==> after == run.journal
  {
  }

  ghost predicate OffersSorted(before: Checkpoint, reading: Reading) {
    reading.offers == Sort(before.cursor.pendingOffers + reading.history, OfferAtMost)
  }

  ghost predicate SameOffers(s: TwoSteps) {
    s.first.regions != [] && s.second.regions != []
    && (var n1, n2 := NowMs(s.first.regions), NowMs(s.second.regions);
        var due := Filter(s.direct.reading.offers, DueOffers(n2));
        && Filter(due, OffersUntil(n1 - 1)) == Filter(s.plan1.reading.offers, DueOffers(n1))
        && Filter(due, OffersPast(n1 - 1)) == Filter(s.plan2.reading.offers, DueOffers(n2))
        && Filter(s.direct.reading.offers, LaterOffers(n2)) == Filter(s.plan2.reading.offers, LaterOffers(n2)))
  }

  lemma OffersAgree(s: TwoSteps)
    requires SameHistory(s) && OffersSorted(s.before, s.plan1.reading) && OffersSorted(s.middle, s.plan2.reading)
             && OffersSorted(s.before, s.direct.reading)
    requires s.first.regions != [] && s.second.regions != [] && NowMs(s.first.regions) <= NowMs(s.second.regions)
    requires s.middle.cursor.pendingOffers == Filter(s.plan1.reading.offers, LaterOffers(NowMs(s.first.regions)))
    ensures SameOffers(s)
  {
    var n1, n2 := NowMs(s.first.regions), NowMs(s.second.regions);
    var pending, history, tail := s.before.cursor.pendingOffers, s.plan1.reading.history, s.plan2.reading.history;
    OffersOfFirstStep(pending, history, tail, n1, n2);
    OffersOfSecondStep(pending, history, tail, n1, n2);
    OffersLeftPending(pending, history, tail, n1, n2);
  }

  // ------------------------------------------------------------------ population revisions of both ways

  ghost predicate UpdatesAreRead(journal: Journal, before: Checkpoint, template: Template, nowMs: nat,
                                 updates: seq<PopulationEvent>) {
    && updates == Filter(PopulationsFor(journal, before, template), DuePopulations(SafeThrough(nowMs)))
    && PopulationsRise(PopulationsFor(journal, before, template))
  }

  /** The revisions of one run up to a safe time and past it are those of the two steps. */
  lemma PopulationsAgree(journal: Journal, after: Journal, tail: Journal, revision: nat, population: Option<Snapshot>,
                         safe1: nat, safe2: nat)
    requires |journal| <= |after| && after[..|journal|] == journal
             && forall i :: |journal| <= i < |after| ==> IsDemand(after[i].event)
    requires KeepsPromise(tail, safe1) && safe1 <= safe2 && RevisionOf(population) == revision
    requires PopulationsRise(PopulationsAfter(journal + tail, revision))
    ensures var all := Filter(PopulationsAfter(journal + tail, revision), DuePopulations(safe2));
      var first := Filter(PopulationsAfter(journal, revision), DuePopulations(safe1));
      && Filter(all, UpdatesUntil(safe1)) == first
      && Filter(all, UpdatesPast(safe1))
         == Filter(PopulationsAfter(after + tail, RevisionOf(LastUpdate(population, first))), DuePopulations(safe2))
  {
    var whole := PopulationsAfter(journal + tail, revision);
    var first := Filter(PopulationsAfter(journal, revision), DuePopulations(safe1));
    assert first == Filter(whole, DuePopulations(safe1)) by {
      PopulationsAfterJoins(journal, tail, revision);
      PromisedPopulations(tail, revision, safe1);
      FilterSame(PopulationsAfter(tail, revision), UpdatesUntil(safe1), DuePopulations(safe1));
      FilterAppend(PopulationsAfter(journal, revision), PopulationsAfter(tail, revision), DuePopulations(safe1));
      assert first + [] == first;
    }
    RemainingRevisions(journal + tail, revision, safe1, population);
    var reached := RevisionOf(LastUpdate(population, first));
    SamePopulations(journal, after, tail, reached);
    FilterTwice(whole, DuePopulations(safe2), UpdatesUntil(safe1));
    FilterSame(whole, Both(DuePopulations(safe2), UpdatesUntil(safe1)), DuePopulations(safe1));
    FilterTwice(whole, DuePopulations(safe2), UpdatesPast(safe1));
    FilterTwice(whole, UpdatesPast(safe1), DuePopulations(safe2));
    FilterSame(whole, Both(DuePopulations(safe2), UpdatesPast(safe1)), Both(UpdatesPast(safe1), DuePopulations(safe2)));
  }

  lemma SamePopulations(journal: Journal, after: Journal, tail: Journal, revision: nat)
    requires |journal| <= |after| && after[..|journal|] == journal
             && forall i :: |journal| <= i < |after| ==> IsDemand(after[i].event)
    ensures PopulationsAfter(after + tail, revision) == PopulationsAfter(journal + tail, revision)
  {
    var added := after[|journal|..];
    assert after == journal + added;
    PopulationsAfterJoins(journal, added, revision);
    NoPopulations(added, revision);
    PopulationsAfterJoins(after, tail, revision);
    PopulationsAfterJoins(journal, tail, revision);
    assert PopulationsAfter(journal, revision) + [] == PopulationsAfter(journal, revision);
  }

  ghost predicate SameUpdates(s: TwoSteps) {
    s.first.regions != []
    && Filter(s.direct.reading.updates, UpdatesUntil(SafeThrough(NowMs(s.first.regions)))) == s.plan1.reading.updates
    && Filter(s.direct.reading.updates, UpdatesPast(SafeThrough(NowMs(s.first.regions)))) == s.plan2.reading.updates
  }

  lemma UpdatesAgree(s: TwoSteps)
    requires SameTail(s) && s.first.regions != [] && s.second.regions != []
             && NowMs(s.first.regions) <= NowMs(s.second.regions)
    requires KeepsPromise(s.tail, SafeThrough(NowMs(s.first.regions)))
    requires s.first.template.hasPopulationModel == s.second.template.hasPopulationModel
    requires UpdatesAreRead(s.journal, s.before, s.first.template, NowMs(s.first.regions), s.plan1.reading.updates)
    requires UpdatesAreRead(s.after + s.tail, s.middle, s.second.template, NowMs(s.second.regions),
                            s.plan2.reading.updates)
    requires UpdatesAreRead(s.journal + s.tail, s.before, s.second.template, NowMs(s.second.regions),
                            s.direct.reading.updates)
    requires s.middle.input.population == LastUpdate(s.before.input.population, s.plan1.reading.updates)
    ensures SameUpdates(s)
  {
    var safe1, safe2 := SafeThrough(NowMs(s.first.regions)), SafeThrough(NowMs(s.second.regions));
    if s.first.template.hasPopulationModel {
      PopulationsAgree(s.journal, s.after, s.tail, RevisionOf(s.before.input.population), s.before.input.population,
                       safe1, safe2);
    }
  }

  // ------------------------------------------------------------------ receipts of both ways

  ghost predicate SameTrains(s: TwoSteps) {
    forall t :: (Offers(s.direct.reading.known, t) <==> Offers(s.plan2.reading.known, t))
                && (Offers(s.direct.reading.known, t)
                    <==> Offers(s.plan1.reading.known, t) || Introduces(s.plan2.reading.history, t))
  }

  lemma TrainsAgree(evaluate: Input -> Option<Text>, s: TwoSteps)
    requires FirstStep(evaluate, s) && Plans(s) && SameHistory(s)
    ensures SameTrains(s)
  {
    forall t
      ensures Offers(s.direct.reading.known, t) <==> Offers(s.plan2.reading.known, t)
      ensures Offers(s.direct.reading.known, t)
              <==> Offers(s.plan1.reading.known, t) || Introduces(s.plan2.reading.history, t)
    {
      TrainsOfPlan(s.journal, s.before, s.first, s.plan1, t);
      TrainsOfPlan(s.after + s.tail, s.middle, s.second, s.plan2, t);
      TrainsOfPlan(s.journal + s.tail, s.before, s.second, s.direct, t);
      TrainsAreKept(evaluate, s.journal, s.before, s.first, s.after, s.middle, s.plan1, s.run1, t);
      IntroducesJoined(s.plan1.reading.history, s.plan2.reading.history, t);
    }
  }

  lemma IntroducesJoined(a: seq<OfferRevision>, b: seq<OfferRevision>, t: Text)
    ensures Introduces(a + b, t) <==> Introduces(a, t) || Introduces(b, t)
  {
    IntroducesMembers(a + b, t);
    IntroducesMembers(a, t);
    IntroducesMembers(b, t);
  }

  /** The reports of the tail, as both ways read them. */
  function LateReports(s: TwoSteps): (reports: Journal)
    ensures forall i :: 0 <= i < |reports| ==> reports[i].event.StopReported?
  {
    ReportsAfter(s.tail, s.middle.cursor.throughWorldSequence, s.plan2.reading.known)
  }

  function EarlyReports(s: TwoSteps): (reports: Journal)
    ensures forall i :: 0 <= i < |reports| ==> reports[i].event.StopReported?
  {
    ReportsAfter(s.journal, s.before.cursor.throughWorldSequence, s.plan1.reading.known)
  }

  ghost predicate SameReading(s: TwoSteps) {
    && ReportsAfter(s.after + s.tail, s.middle.cursor.throughWorldSequence, s.plan2.reading.known) == LateReports(s)
    && ReportsAfter(s.journal + s.tail, s.before.cursor.throughWorldSequence, s.direct.reading.known)
       == EarlyReports(s) + LateReports(s)
  }

  ghost predicate InTime(s: TwoSteps) {
    forall r :: Reported(s.journal, s.before.cursor.throughWorldSequence, Head(s.journal), r) ==>
      (Introduces(s.plan2.reading.history, r.trainRunId) ==> Offers(s.plan1.reading.known, r.trainRunId))
  }

  lemma ReadingsAgree(s: TwoSteps)
    requires SameTail(s) && SameTrains(s) && Ascending(s.journal) && InTime(s)
    ensures SameReading(s)
  {
    var from, middle := s.before.cursor.throughWorldSequence, s.middle.cursor.throughWorldSequence;
    ReportsAfterJoins(s.after, s.tail, middle, s.plan2.reading.known);
    NothingNew(s.after, middle, s.plan2.reading.known);
    ReportsAfterJoins(s.journal, s.tail, from, s.direct.reading.known);
    EarlyReportsAgree(s);
    LateReportsAgree(s);
    assert [] + LateReports(s) == LateReports(s);
  }

  lemma EarlyReportsAgree(s: TwoSteps)
    requires SameTrains(s) && Ascending(s.journal) && InTime(s)
    ensures ReportsAfter(s.journal, s.before.cursor.throughWorldSequence, s.direct.reading.known) == EarlyReports(s)
  {
    var from := s.before.cursor.throughWorldSequence;
    HeadBounds(s.journal);
    forall i | 0 <= i < |s.journal| && s.journal[i].event.StopReported? && s.journal[i].sequence > from
      ensures FindService(s.direct.reading.known, s.journal[i].event.receipt.trainRunId).Some?
              <==> FindService(s.plan1.reading.known, s.journal[i].event.receipt.trainRunId).Some?
    {
      var r := s.journal[i].event.receipt;
      assert s.journal[i] in s.journal;
      assert Reported(s.journal, from, Head(s.journal), r);
      FoundIsOffered(s.direct.reading.known, r.trainRunId);
      FoundIsOffered(s.plan1.reading.known, r.trainRunId);
    }
    SameReports(s.journal, from, from, s.direct.reading.known, s.plan1.reading.known);
  }

  lemma LateReportsAgree(s: TwoSteps)
    requires SameTrains(s) && SameTail(s)
    ensures ReportsAfter(s.tail, s.before.cursor.throughWorldSequence, s.direct.reading.known) == LateReports(s)
  {
    forall t
      ensures FindService(s.direct.reading.known, t).Some? <==> FindService(s.plan2.reading.known, t).Some?
    {
      FoundIsOffered(s.direct.reading.known, t);
      FoundIsOffered(s.plan2.reading.known, t);
    }
    SameReports(s.tail, s.before.cursor.throughWorldSequence, s.middle.cursor.throughWorldSequence,
                s.direct.reading.known, s.plan2.reading.known);
  }

  ghost predicate ReceiptsAreRead(journal: Journal, cursor: Cursor, known: seq<Service>, receipts: Receipts) {
    && Accepts(Gathered(journal, cursor, known), known) && receipts.all == Ordered(Gathered(journal, cursor, known))
    && receipts.sequences
       == SequencesWith(cursor.receiptWorldSequences, ReportsAfter(journal, cursor.throughWorldSequence, known))
  }

  /** What the first step gathered, and what the tail adds to it. */
  function EarlyReceipts(s: TwoSteps): seq<Receipt> {
    s.before.cursor.receipts + s.before.cursor.pendingReceipts + ReceiptsOf(EarlyReports(s))
  }

  ghost predicate SameReceipts(s: TwoSteps) {
    && s.direct.receipts == s.plan2.receipts.(received := s.direct.receipts.received)
    && (forall r :: r in s.direct.receipts.all <==> r in EarlyReceipts(s) || r in ReceiptsOf(LateReports(s)))
    && Accepts(s.direct.receipts.all, s.direct.reading.known) && Distinct(s.direct.receipts.all)
       && Sorted(s.direct.receipts.all, ReceiptAtMost)
  }

  lemma ReceiptsOfJoined(a: Journal, b: Journal)
    requires forall i :: 0 <= i < |a| ==> a[i].event.StopReported?
    requires forall i :: 0 <= i < |b| ==> b[i].event.StopReported?
    ensures ReceiptsOf(a + b) == ReceiptsOf(a) + ReceiptsOf(b)
  {
  }

  lemma {:induction false} SequencesJoin(sequences: map<Text, nat>, a: Journal, b: Journal)
    requires forall i :: 0 <= i < |a| ==> a[i].event.StopReported?
    requires forall i :: 0 <= i < |b| ==> b[i].event.StopReported?
    ensures SequencesWith(sequences, a + b) == SequencesWith(SequencesWith(sequences, a), b)
    decreases |b|
  {
    if b == [] {
      assert a + b == a;
    } else {
      var n := |b| - 1;
      assert (a + b)[..|a + b| - 1] == a + b[..n] && (a + b)[|a + b| - 1] == b[n];
      SequencesJoin(sequences, a, b[..n]);
    }
  }

  ghost predicate MiddleHoldsEarly(s: TwoSteps) {
    forall r :: r in s.middle.cursor.receipts || r in s.middle.cursor.pendingReceipts <==> r in EarlyReceipts(s)
  }

  lemma ReceiptsAgree(s: TwoSteps)
    requires SameReading(s) && MiddleHoldsEarly(s)
    requires ReceiptsAreRead(s.after + s.tail, s.middle.cursor, s.plan2.reading.known, s.plan2.receipts)
    requires ReceiptsAreRead(s.journal + s.tail, s.before.cursor, s.direct.reading.known, s.direct.receipts)
    requires s.middle.cursor.receiptWorldSequences
             == SequencesWith(s.before.cursor.receiptWorldSequences, EarlyReports(s))
    ensures SameReceipts(s)
  {
    var gathered2 := Gathered(s.after + s.tail, s.middle.cursor, s.plan2.reading.known);
    var gatheredD := Gathered(s.journal + s.tail, s.before.cursor, s.direct.reading.known);
    ReceiptsOfJoined(EarlyReports(s), LateReports(s));
    GatheredAlike(s, gathered2, gatheredD);
    ValidationIgnoresArrangement(gatheredD, gathered2, s.direct.reading.known);
    OrderedMembers(gatheredD);
    AcceptanceIgnoresArrangement(gatheredD, s.direct.receipts.all, s.direct.reading.known);
    SequencesJoin(s.before.cursor.receiptWorldSequences, EarlyReports(s), LateReports(s));
  }

  lemma GatheredAlike(s: TwoSteps, gathered2: seq<Receipt>, gatheredD: seq<Receipt>)
    requires MiddleHoldsEarly(s)
    requires gathered2 == s.middle.cursor.receipts + s.middle.cursor.pendingReceipts + ReceiptsOf(LateReports(s))
    requires gatheredD
             == s.before.cursor.receipts + s.before.cursor.pendingReceipts
                 + (ReceiptsOf(EarlyReports(s)) + ReceiptsOf(LateReports(s)))
    ensures SameMembers(gatheredD, gathered2)
    ensures forall r :: r in gatheredD <==> r in EarlyReceipts(s) || r in ReceiptsOf(LateReports(s))
  {
  }

  // ------------------------------------------------------------------ newly confirmed receipts of both ways

  /** How the receipts of the single run lie to the first step's time. */
  ghost predicate SplitAtStep(all: seq<Receipt>, all1: seq<Receipt>, prior: seq<Receipt>, confirmed1: seq<Receipt>,
                              nowMs1: nat) {
    && (forall r :: r in all1 ==> r in all)
    && (forall r :: r in all && r.actualTimeMs < nowMs1 ==> r in all1)
    && (forall r :: r in confirmed1 <==> r in all1 && r.actualTimeMs < nowMs1)
    && (forall r :: r in prior ==> r in confirmed1)
  }

  lemma FreshSecond(all: seq<Receipt>, all1: seq<Receipt>, prior: seq<Receipt>, confirmed1: seq<Receipt>, nowMs1: nat,
                    nowMs2: nat)
    requires SplitAtStep(all, all1, prior, confirmed1, nowMs1) && Consistent(all)
    ensures Filter(Fresh(all, prior, nowMs2), ReceiptsPast(nowMs1 - 1)) == Fresh(all, confirmed1, nowMs2)
  {
    var due := Filter(all, DueReceipts(nowMs2));
    FilterMembers(all, DueReceipts(nowMs2));
    FilterTwice(due, NotAmong(prior), ReceiptsPast(nowMs1 - 1));
    forall r | r in due
      ensures Both(NotAmong(prior), ReceiptsPast(nowMs1 - 1))(r) == NotAmong(confirmed1)(r)
    {
      IdIsReceipt(all, prior, r);
      IdIsReceipt(all, confirmed1, r);
    }
    FilterSame(due, Both(NotAmong(prior), ReceiptsPast(nowMs1 - 1)), NotAmong(confirmed1));
  }

  lemma FreshFirst(all: seq<Receipt>, all1: seq<Receipt>, prior: seq<Receipt>, confirmed1: seq<Receipt>, nowMs1: nat,
                   nowMs2: nat, known: seq<Service>)
    requires SplitAtStep(all, all1, prior, confirmed1, nowMs1) && nowMs1 <= nowMs2
    requires Accepts(all1, known) && Distinct(all) && Distinct(all1) && Sorted(all, ReceiptAtMost)
             && Sorted(all1, ReceiptAtMost)
    ensures Filter(Fresh(all, prior, nowMs2), ReceiptsUntil(nowMs1 - 1)) == Fresh(all1, prior, nowMs1)
  {
    SameDue(all, all1, prior, confirmed1, nowMs1, known);
    var due2 := Filter(all, DueReceipts(nowMs2));
    FilterTwice(due2, NotAmong(prior), ReceiptsUntil(nowMs1 - 1));
    FilterTwice(all, DueReceipts(nowMs2), Both(NotAmong(prior), ReceiptsUntil(nowMs1 - 1)));
    FilterTwice(all, DueReceipts(nowMs1), NotAmong(prior));
    FilterSame(all, Both(DueReceipts(nowMs2), Both(NotAmong(prior), ReceiptsUntil(nowMs1 - 1))),
               Both(DueReceipts(nowMs1), NotAmong(prior)));
  }

  lemma SameDue(all: seq<Receipt>, all1: seq<Receipt>, prior: seq<Receipt>, confirmed1: seq<Receipt>, nowMs1: nat,
                known: seq<Service>)
    requires SplitAtStep(all, all1, prior, confirmed1, nowMs1)
    requires Accepts(all1, known) && Distinct(all) && Distinct(all1) && Sorted(all, ReceiptAtMost)
             && Sorted(all1, ReceiptAtMost)
    ensures Filter(all, DueReceipts(nowMs1)) == Filter(all1, DueReceipts(nowMs1))
  {
    var due, due1 := Filter(all, DueReceipts(nowMs1)), Filter(all1, DueReceipts(nowMs1));
    FilterMembers(all, DueReceipts(nowMs1));
    FilterMembers(all1, DueReceipts(nowMs1));
    FilterDistinct(all, DueReceipts(nowMs1));
    FilterDistinct(all1, DueReceipts(nowMs1));
    ReceiptOrder();
    FilterKeepsSorted(all, DueReceipts(nowMs1), ReceiptAtMost);
    FilterKeepsSorted(all1, DueReceipts(nowMs1), ReceiptAtMost);
    AcceptedPart(all1, due1, known);
    OrderIsUnique(due1, due, known);
  }

  lemma AcceptedPart(whole: seq<Receipt>, part: seq<Receipt>, known: seq<Service>)
    requires Accepts(whole, known) && forall r :: r in part ==> r in whole
    ensures Accepts(part, known)
  {
    ConsistentPart(whole, part);
    forall i | 0 <= i < |part|
      ensures StopFits(part[i], known)
    {
      assert part[i] in whole;
    }
  }

  lemma StepSplits(s: TwoSteps)
    requires SameReceipts(s) && ClockRuns(s.before, s.first) && Settled(s.before)
    requires KeepsPromise(s.tail, SafeThrough(NowMs(s.first.regions)))
    requires s.before.cursor.safeThroughMs <= SafeThrough(NowMs(s.first.regions))
    requires forall r :: r in s.plan1.receipts.all <==> r in EarlyReceipts(s)
    requires forall r :: r in s.plan1.confirmed
               <==> r in EarlyReceipts(s) && Due(NowMs(s.first.regions), r.actualTimeMs)
    ensures SplitAtStep(s.direct.receipts.all, s.plan1.receipts.all, s.before.cursor.receipts, s.plan1.confirmed,
                        NowMs(s.first.regions))
  {
    var n1 := NowMs(s.first.regions);
    forall r | r in ReceiptsOf(LateReports(s))
      ensures n1 <= r.actualTimeMs
    {
      PromisedReports(s.tail, s.middle.cursor.throughWorldSequence, s.plan2.reading.known, n1, r);
    }
    forall r | r in s.before.cursor.receipts
      ensures r in s.plan1.confirmed
    {
      var i :| 0 <= i < |s.before.cursor.receipts| && s.before.cursor.receipts[i] == r;
    }
  }

  ghost predicate SameFresh(s: TwoSteps) {
    s.first.regions != [] && s.second.regions != []
    && (var n1, n2 := NowMs(s.first.regions), NowMs(s.second.regions);
        var arrived := Fresh(s.direct.receipts.all, s.before.cursor.receipts, n2);
        && Filter(arrived, ReceiptsUntil(n1 - 1)) == Fresh(s.plan1.receipts.all, s.before.cursor.receipts, n1)
        && Filter(arrived, ReceiptsPast(n1 - 1)) == Fresh(s.plan2.receipts.all, s.middle.cursor.receipts, n2))
  }

  lemma FreshAgree(s: TwoSteps)
    requires SameReceipts(s) && s.second.regions != [] && s.first.regions != []
             && NowMs(s.first.regions) <= NowMs(s.second.regions)
    requires SplitAtStep(s.direct.receipts.all, s.plan1.receipts.all, s.before.cursor.receipts, s.plan1.confirmed,
                         NowMs(s.first.regions))
    requires Accepts(s.plan1.receipts.all, s.plan1.reading.known) && Distinct(s.plan1.receipts.all)
             && Sorted(s.plan1.receipts.all, ReceiptAtMost)
    requires s.middle.cursor.receipts == s.plan1.confirmed
    ensures SameFresh(s)
  {
    var n1, n2 := NowMs(s.first.regions), NowMs(s.second.regions);
    FreshFirst(s.direct.receipts.all, s.plan1.receipts.all, s.before.cursor.receipts, s.plan1.confirmed, n1, n2,
               s.plan1.reading.known);
    FreshSecond(s.direct.receipts.all, s.plan1.receipts.all, s.before.cursor.receipts, s.plan1.confirmed, n1, n2);
  }

  // ------------------------------------------------------------------ the boundaries of both ways

  ghost predicate BoundariesMade(before: Checkpoint, plan: Plan, nowMs: nat) {
    && plan.boundaries
       == Boundaries(Number(Fresh(plan.receipts.all, before.cursor.receipts, nowMs), plan.receipts.sequences),
                                     Filter(plan.reading.offers, DueOffers(nowMs)), before.input.nowMs,
                                     plan.reading.updates)
    && ReceiptsFrom(Fresh(plan.receipts.all, before.cursor.receipts, nowMs), before.input.nowMs)
    && OffersFrom(Filter(plan.reading.offers, DueOffers(nowMs)), before.input.nowMs)
    && UpdatesFrom(plan.reading.updates, before.input.nowMs)
  }

  lemma PlanMakesBoundaries(journal: Journal, before: Checkpoint, request: Request, plan: Plan)
    requires Planned(journal, before, request, plan) && Settled(before)
    ensures BoundariesMade(before, plan, NowMs(request.regions))
  {
    PlanKeeps(journal, before, request, plan);
    PlanUpdates(journal, before, request, plan);
    DueOffersAreSorted(journal, before, request, plan);
  }

  lemma SameNumbers(receipts: seq<Receipt>, a: map<Text, nat>, b: map<Text, nat>)
    requires HaveSequences(receipts, a) && forall id :: id in a ==> id in b && b[id] == a[id]
    ensures Number(receipts, a) == Number(receipts, b)
  {
  }

  /** Once the clock has left zero both ways have the same boundaries. */
  lemma BoundariesAgree(s: TwoSteps)
    requires SameOffers(s) && SameUpdates(s) && SameFresh(s) && SameReceipts(s) && NowMs(s.first.regions) > 0
    requires s.before.input.nowMs <= s.middle.input.nowMs
    requires BoundariesMade(s.before, s.plan1, NowMs(s.first.regions))
    requires BoundariesMade(s.middle, s.plan2, NowMs(s.second.regions))
    requires BoundariesMade(s.before, s.direct, NowMs(s.second.regions))
    requires HaveSequences(Fresh(s.plan1.receipts.all, s.before.cursor.receipts, NowMs(s.first.regions)),
                           s.plan1.receipts.sequences)
    requires forall id :: id in s.plan1.receipts.sequences ==>
               id in s.direct.receipts.sequences && s.direct.receipts.sequences[id] == s.plan1.receipts.sequences[id]
    ensures s.direct.boundaries == s.plan1.boundaries + s.plan2.boundaries
  {
    var n1, n2 := NowMs(s.first.regions), NowMs(s.second.regions);
    JoinBoundaries(Fresh(s.direct.receipts.all, s.before.cursor.receipts, n2), s.direct.receipts.sequences,
                   Filter(s.direct.reading.offers, DueOffers(n2)), s.direct.reading.updates,
                   Fresh(s.plan1.receipts.all, s.before.cursor.receipts, n1), s.plan1.receipts.sequences,
                   Filter(s.plan1.reading.offers, DueOffers(n1)), s.plan1.reading.updates,
                   Fresh(s.plan2.receipts.all, s.middle.cursor.receipts, n2),
                   Filter(s.plan2.reading.offers, DueOffers(n2)), s.plan2.reading.updates,
                   s.before.input.nowMs, s.middle.input.nowMs, n1);
  }

  lemma JoinBoundaries(receipts: seq<Receipt>, sequences: map<Text, nat>, offers: seq<OfferRevision>,
                       updates: seq<PopulationEvent>,
                       receipts1: seq<Receipt>, sequences1: map<Text, nat>, offers1: seq<OfferRevision>,
                       updates1: seq<PopulationEvent>,
                       receipts2: seq<Receipt>, offers2: seq<OfferRevision>, updates2: seq<PopulationEvent>, e: nat,
                       f: nat, nowMs1: nat)
    requires ReceiptsFrom(receipts, e) && OffersFrom(offers, e) && UpdatesFrom(updates, e)
    requires ReceiptsFrom(receipts2, f) && OffersFrom(offers2, f) && UpdatesFrom(updates2, f) && e <= f
    requires Filter(receipts, ReceiptsUntil(nowMs1 - 1)) == receipts1
             && Filter(receipts, ReceiptsPast(nowMs1 - 1)) == receipts2
    requires Filter(offers, OffersUntil(nowMs1 - 1)) == offers1 && Filter(offers, OffersPast(nowMs1 - 1)) == offers2
    requires Filter(updates, UpdatesUntil(nowMs1 - 1)) == updates1
             && Filter(updates, UpdatesPast(nowMs1 - 1)) == updates2
    requires HaveSequences(receipts1, sequences1)
             && forall id :: id in sequences1 ==> id in sequences && sequences[id] == sequences1[id]
    ensures Boundaries(Number(receipts, sequences), offers, e, updates)
            == Boundaries(Number(receipts1, sequences1), offers1, e, updates1)
                + Boundaries(Number(receipts2, sequences), offers2, f, updates2)
  {
    var w: int := nowMs1 - 1;
    BoundariesSplitByKind(receipts, sequences, offers, e, updates, w);
    SameNumbers(receipts1, sequences1, sequences);
    StartDoesNotMatter(receipts2, sequences, offers2, updates2, e, f);
  }

  // ------------------------------------------------------------------ what both ways agree on

  lemma FirstStepGathers(s: TwoSteps)
    requires Planned(s.journal, s.before, s.first, s.plan1) && Settled(s.before)
    ensures forall r :: r in s.plan1.receipts.all <==> r in EarlyReceipts(s)
    ensures forall r :: r in s.plan1.confirmed <==> r in EarlyReceipts(s) && Due(NowMs(s.first.regions), r.actualTimeMs)
    ensures forall r :: r in s.plan1.pendingReceipts
              <==> r in EarlyReceipts(s) && !Due(NowMs(s.first.regions), r.actualTimeMs)
    ensures Accepts(s.plan1.receipts.all, s.plan1.reading.known) && Distinct(s.plan1.receipts.all)
            && Sorted(s.plan1.receipts.all, ReceiptAtMost)
    ensures s.plan1.receipts.sequences == SequencesWith(s.before.cursor.receiptWorldSequences, EarlyReports(s))
  {
    PlanGathers(s.journal, s.before, s.first, s.plan1);
    PlanSplitsReceipts(s.journal, s.before, s.first, s.plan1);
    assert Gathered(s.journal, s.before.cursor, s.plan1.reading.known) == EarlyReceipts(s);
    OrderedMembers(EarlyReceipts(s));
    AcceptanceIgnoresArrangement(EarlyReceipts(s), s.plan1.receipts.all, s.plan1.reading.known);
  }

  lemma FirstStepNumbers(s: TwoSteps)
    requires Planned(s.journal, s.before, s.first, s.plan1) && Settled(s.before)
    ensures HaveSequences(Fresh(s.plan1.receipts.all, s.before.cursor.receipts, NowMs(s.first.regions)),
                          s.plan1.receipts.sequences)
  {
    var n1 := NowMs(s.first.regions);
    var arrived := Fresh(s.plan1.receipts.all, s.before.cursor.receipts, n1);
    SequencesCover(s.journal, s.before, s.first, s.plan1);
    PlanKeeps(s.journal, s.before, s.first, s.plan1);
    FreshMembers(s.plan1.receipts.all, s.before.cursor.receipts, n1);
    FilterMembers(s.plan1.receipts.all, DueReceipts(n1));
    forall i | 0 <= i < |arrived|
      ensures arrived[i].receiptId in s.plan1.receipts.sequences
    {
      assert arrived[i] in arrived && arrived[i] in s.plan1.confirmed;
      var k :| 0 <= k < |s.plan1.confirmed| && s.plan1.confirmed[k] == arrived[i];
      assert (s.plan1.confirmed + s.plan1.pendingReceipts)[k] == arrived[i];
    }
  }

  /** Offers, revisions and receipts of both ways agree. */
  lemma BothWaysAgree(evaluate: Input -> Option<Text>, s: TwoSteps)
    requires CatchesUp(evaluate, s)
    ensures SameHistory(s) && SameOffers(s) && SameUpdates(s) && SameReceipts(s) && HandsOver(s) && Settled(s.middle)
    ensures ClockRuns(s.before, s.first) ==> SameFresh(s)
  {
    TailIsNew(evaluate, s);
    FirstStepHandsOver(evaluate, s);
    PlansReadOffers(s);
    HistoriesJoin(s);
    OffersOfBothWays(s);
    UpdatesOfBothWays(evaluate, s);
    ReceiptsOfBothWays(evaluate, s);
    if ClockRuns(s.before, s.first) {
      FreshOfBothWays(s);
    }
  }

  lemma FreshOfBothWays(s: TwoSteps)
    requires Planned(s.journal, s.before, s.first, s.plan1) && Settled(s.before) && ClockRuns(s.before, s.first)
    requires SameReceipts(s) && s.middle.cursor.receipts == s.plan1.confirmed
    requires KeepsPromise(s.tail, SafeThrough(NowMs(s.first.regions)))
    requires s.second.regions != [] && NowMs(s.first.regions) <= NowMs(s.second.regions)
    ensures SameFresh(s)
  {
    TimeAdvances(s.journal, s.before, s.first, s.plan1);
    FirstStepGathers(s);
    StepSplits(s);
    FreshAgree(s);
  }

  lemma OffersOfBothWays(s: TwoSteps)
    requires Plans(s) && SameHistory(s) && HandsOver(s)
    ensures SameOffers(s)
  {
    PlansReadOffers(s);
    PlanKeeps(s.journal, s.before, s.first, s.plan1);
    OffersAgree(s);
  }

  lemma UpdatesOfBothWays(evaluate: Input -> Option<Text>, s: TwoSteps)
    requires CatchesUp(evaluate, s) && SameTail(s) && HandsOver(s)
    ensures SameUpdates(s)
  {
    PlanUpdates(s.journal, s.before, s.first, s.plan1);
    PlanUpdates(s.after + s.tail, s.middle, s.second, s.plan2);
    PlanUpdates(s.journal + s.tail, s.before, s.second, s.direct);
    PopulationOfRun(evaluate, s.journal, s.before, s.first, s.after, s.middle, s.plan1, s.run1);
    UpdatesAgree(s);
  }

  lemma ReceiptsOfBothWays(evaluate: Input -> Option<Text>, s: TwoSteps)
    requires CatchesUp(evaluate, s) && SameTail(s) && HandsOver(s) && SameHistory(s)
    ensures SameReceipts(s)
  {
    TrainsAgree(evaluate, s);
    ReadingsAgree(s);
    FirstStepGathers(s);
    PlanGathers(s.after + s.tail, s.middle, s.second, s.plan2);
    PlanGathers(s.journal + s.tail, s.before, s.second, s.direct);
    ReceiptsAgree(s);
  }

  /** The population after a run is the last revision it applied. */
  lemma PopulationOfRun(evaluate: Input -> Option<Text>, journal: Journal, before: Checkpoint, request: Request,
                        after: Journal,
                        next: Checkpoint, plan: Plan, run: Run)
    requires RanWith(evaluate, journal, before, request, after, next, plan, run) && Settled(before)
             && EndsWith(journal, before)
    ensures run.held.population == LastUpdate(before.input.population, plan.reading.updates)
  {
    var nowMs := NowMs(request.regions);
    ReplayOfRun(evaluate, journal, before, request, after, next, plan, run);
    BoundariesAreEvents(StartOf(journal, before).held, plan.boundaries);
    PopulationAfter(StartOf(journal, before).held, Flatten(plan.boundaries));
    PlanMakesBoundaries(journal, before, request, plan);
    UpdatesInSequence(journal, before, request, plan);
    AppliedUpdates(Number(Fresh(plan.receipts.all, before.cursor.receipts, nowMs), plan.receipts.sequences),
                   Filter(plan.reading.offers, DueOffers(nowMs)), before.input.nowMs, plan.reading.updates);
  }

  lemma UpdatesInSequence(journal: Journal, before: Checkpoint, request: Request, plan: Plan)
    requires Planned(journal, before, request, plan) && Ascending(journal)
    ensures InSequence(plan.reading.updates)
  {
    PlanUpdates(journal, before, request, plan);
    var all := PopulationsFor(journal, before, request.template);
    PopulationsInSequence(journal, RevisionOf(before.input.population));
    forall i, j | 0 <= i < j < |all|
      ensures InOrderOf(all[i], all[j])
    {
      RisePairs(all, i, j);
    }
    FilteredInSequence(all, DuePopulations(SafeThrough(NowMs(request.regions))));
    forall i, j | 0 <= i < j < |plan.reading.updates|
      ensures plan.reading.updates[i].worldSequence < plan.reading.updates[j].worldSequence
      ensures plan.reading.updates[i].snapshot.effectiveAtMs <= plan.reading.updates[j].snapshot.effectiveAtMs
    {
      assert InOrderOf(plan.reading.updates[i], plan.reading.updates[j]);
    }
  }

  predicate InOrderOf(a: PopulationEvent, b: PopulationEvent) {
    a.worldSequence < b.worldSequence && a.snapshot.effectiveAtMs <= b.snapshot.effectiveAtMs
  }

  ghost predicate SequencesAscend(events: seq<PopulationEvent>) {
    forall i, j :: 0 <= i < j < |events| ==> events[i].worldSequence < events[j].worldSequence
  }

  lemma {:induction false} PopulationsInSequence(journal: Journal, revision: nat)
    requires Ascending(journal)
    ensures SequencesAscend(PopulationsAfter(journal, revision))
    ensures forall e :: e in PopulationsAfter(journal, revision) ==> e.worldSequence <= Head(journal)
  {
    if journal != [] {
      var n := |journal| - 1;
      PopulationsInSequence(journal[..n], revision);
      HeadBounds(journal);
      assert n > 0 ==> journal[n - 1].sequence < journal[n].sequence;
      var before := PopulationsAfter(journal[..n], revision);
      assert forall i :: 0 <= i < |before| ==> before[i] in before;
    }
  }

  ghost predicate InOrderAll(events: seq<PopulationEvent>) {
    forall i, j :: 0 <= i < j < |events| ==> InOrderOf(events[i], events[j])
  }

  lemma {:induction false} FilteredInSequence(events: seq<PopulationEvent>, keep: PopulationEvent -> bool)
    requires InOrderAll(events)
    ensures InOrderAll(Filter(events, keep))
  {
    if events != [] {
      var rest := events[1..];
      TailInOrder(events);
      FilteredInSequence(rest, keep);
      FilterMembers(rest, keep);
      FilterStep(events, keep);
      HeadInOrder(events[0], rest, Filter(rest, keep));
    }
  }

  lemma TailInOrder(events: seq<PopulationEvent>)
    requires events != [] && InOrderAll(events)
    ensures InOrderAll(events[1..]) && forall k :: 0 <= k < |events[1..]| ==> InOrderOf(events[0], events[1..][k])
  {
    var rest := events[1..];
    forall i, j | 0 <= i < j < |rest|
      ensures InOrderOf(rest[i], rest[j])
    {
      assert InOrderOf(events[i + 1], events[j + 1]);
    }
    forall k | 0 <= k < |rest|
      ensures InOrderOf(events[0], rest[k])
    {
      assert InOrderOf(events[0], events[k + 1]);
    }
  }

  lemma HeadInOrder(head: PopulationEvent, rest: seq<PopulationEvent>, kept: seq<PopulationEvent>)
    requires InOrderAll(kept) && forall e :: e in kept ==> e in rest
    requires forall k :: 0 <= k < |rest| ==> InOrderOf(head, rest[k])
    ensures InOrderAll([head] + kept)
  {
    forall j | 0 <= j < |kept|
      ensures InOrderOf(head, kept[j])
    {
      assert kept[j] in rest;
    }
  }
}
