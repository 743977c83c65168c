/** One run of the demand journal consumer, apps/game-api/src/demand-progress.ts:155-337, from a committed
    cursor of the same pool: what it reads, when it refuses, and the checkpoints it commits. */
module DemandProgress {
  import opened DelayPropagation
  import opened DemandJournal
  import opened DemandOfferHistory
  import opened DemandReceipts
  import opened Outcomes
  import opened Sorting
  import opened TextOrder

  const MAX_RECEIPTS: nat := 40_000
  const MAX_REVISIONS: nat := 256

  datatype ProgressError =
    | ReleasePinned | TimeRegressed | RegionRegressed | RegionsChanged
    | TooManyOffers | OfferTimesRegressed | TooManyPopulations | PopulationNotMonotone
    | LatePopulation | LateOffer | UnprovenOffer
    | TooManyReports | UnconfirmedRegion | ForeignReport | InvalidReceipts | TooManyReceipts
    | LateReceipt | UnorderedReceipt | InvalidProgress
    | Refused(error: CommitError)

  // ------------------------------------------------------------------ the regional watermark

  /** The time every region has reached. */
  function NowMs(regions: seq<Region>): nat
    requires regions != []
  {
    if |regions| == 1 then regions[0].completeThroughMs
    else
      var rest := NowMs(regions[1..]);
      if regions[0].completeThroughMs < rest then regions[0].completeThroughMs else rest
  }

  /** A command at the current instant may still cause events; only the time before it is complete. */
  function SafeThrough(nowMs: nat): nat { if nowMs == 0 then 0 else nowMs - 1 }

  function FindRegion(regions: seq<Region>, regionId: Text): Option<Region> {
    if regions == [] then None
    else if regions[0].regionId == regionId then Some(regions[0])
    else FindRegion(regions[1..], regionId)
  }

  predicate StillConfirmed(old': Region, regions: seq<Region>) {
    match FindRegion(regions, old'.regionId)
    case None => false
    case Some(region) =>
      && region.initializationHash == old'.initializationHash && old'.commitSequence <= region.commitSequence
      && old'.nativeEventSequence <= region.nativeEventSequence
  }

  function RegionObjection(cursor: Cursor, regions: seq<Region>): Option<ProgressError>
    requires regions != []
  {
    if SafeThrough(NowMs(regions)) < cursor.safeThroughMs then Some(TimeRegressed)
    else if exists i | 0 <= i < |cursor.regions| ::
              !StillConfirmed(cursor.regions[i], regions) then Some(RegionRegressed)
    else if |cursor.regions| != |regions| then Some(RegionsChanged)
    else None
  }

  // ------------------------------------------------------------------ reading the journal

  function OffersAfter(journal: Journal, after: nat): seq<OfferRevision> {
    if journal == [] then []
    else
      var entry := journal[|journal| - 1];
      OffersAfter(journal[..|journal| - 1], after)
      + (if entry.sequence > after && entry.event.OfferCommitted?
         then [OfferRevision(entry.sequence, entry.event.effectiveAtMs, entry.event.services, entry.event.provenance)]
         else [])
  }

  function PopulationsAfter(journal: Journal, revision: nat): seq<PopulationEvent> {
    if journal == [] then []
    else
      var entry := journal[|journal| - 1];
      PopulationsAfter(journal[..|journal| - 1], revision)
      + (if entry.event.PopulationUpdated? && entry.event.snapshot.revision > revision
         then [PopulationEvent(entry.sequence, entry.event.snapshot)] else [])
  }

  /** The stop reports after a sequence for the given trains. */
  function ReportsAfter(journal: Journal, after: nat, known: seq<Service>): (reports: Journal)
    ensures forall i :: 0 <= i < |reports| ==> reports[i].event.StopReported?
  {
    if journal == [] then []
    else
      var entry := journal[|journal| - 1];
      ReportsAfter(journal[..|journal| - 1], after, known)
      + (if entry.sequence > after && entry.event.StopReported?
         && FindService(known, entry.event.receipt.trainRunId).Some? then [entry] else [])
  }

  predicate OfferTimesRise(offers: seq<OfferRevision>) {
    forall i | 0 < i < |offers| :: offers[i - 1].effectiveAtMs <= offers[i].effectiveAtMs
  }

  predicate PopulationsRise(events: seq<PopulationEvent>) {
    forall i | 0 < i < |events| :: events[i - 1].snapshot.revision < events[i].snapshot.revision
                                   && events[i - 1].snapshot.effectiveAtMs <= events[i].snapshot.effectiveAtMs
  }

  function RevisionOf(population: Option<Snapshot>): nat { if population.Some? then population.value.revision else 0 }

  predicate OfferAtMost(a: OfferRevision, b: OfferRevision) {
    a.effectiveAtMs < b.effectiveAtMs || (a.effectiveAtMs == b.effectiveAtMs && a.worldSequence <= b.worldSequence)
  }

  predicate ByTrain(a: Service, b: Service) { AtMost(a.trainRunId, b.trainRunId) }

  /** The services known after some revisions, in their order. */
  function KnownAfter(services: seq<Service>, offers: seq<OfferRevision>): seq<Service> {
    if offers == [] then services
    else Retain(KnownAfter(services, offers[..|offers| - 1]), offers[|offers| - 1].services)
  }

  predicate PopulationDue(event: PopulationEvent, safeThroughMs: nat) { event.snapshot.effectiveAtMs <= safeThroughMs }

  function DuePopulations(safeThroughMs: nat): PopulationEvent -> bool {
    (event: PopulationEvent) => PopulationDue(event, safeThroughMs)
  }

  predicate Due(nowMs: nat, atMs: nat) { nowMs > 0 && atMs <= SafeThrough(nowMs) }

  function DueOffers(nowMs: nat): OfferRevision -> bool { (offer: OfferRevision) => Due(nowMs, offer.effectiveAtMs) }

  function LaterOffers(nowMs: nat): OfferRevision -> bool { (offer: OfferRevision) => !Due(nowMs, offer.effectiveAtMs) }

  function DueReceipts(nowMs: nat): Receipt -> bool { (r: Receipt) => Due(nowMs, r.actualTimeMs) }

  function LaterReceipts(nowMs: nat): Receipt -> bool { (r: Receipt) => !Due(nowMs, r.actualTimeMs) }

  predicate OffersFrom(offers: seq<OfferRevision>, from: nat) {
    forall i | 0 <= i < |offers| :: from <= offers[i].effectiveAtMs
  }

  predicate UpdatesFrom(updates: seq<PopulationEvent>, from: nat) {
    forall i | 0 <= i < |updates| :: from <= updates[i].snapshot.effectiveAtMs
  }

  predicate ReceiptsFrom(receipts: seq<Receipt>, from: nat) {
    forall i | 0 <= i < |receipts| :: from <= receipts[i].actualTimeMs
  }

  datatype Reading = Reading(history: seq<OfferRevision>, offers: seq<OfferRevision>, updates: seq<PopulationEvent>,
                             sourceServices: seq<Service>, known: seq<Service>)

  /** Offers and population revisions that the run has to consider. */
  function Read(journal: Journal, before: Checkpoint, template: Template, proposed: seq<Service>,
                nowMs: nat): Result<Reading, ProgressError> {
    var cursor := before.cursor;
    var history := OffersAfter(journal, cursor.throughWorldSequence);
    var populations := if template.hasPopulationModel
        then PopulationsAfter(journal, RevisionOf(before.input.population)) else [];
    var updates := Filter(populations, DuePopulations(SafeThrough(nowMs)));
    var offers := Sort(cursor.pendingOffers + history, OfferAtMost);
    var sourceServices := if history != [] then history[|history| - 1].services else cursor.offerSourceServices;
    if |history| > MAX_REVISIONS then Err(TooManyOffers)
    else if !OfferTimesRise(history) then Err(OfferTimesRegressed)
    else if |populations| > MAX_REVISIONS then Err(TooManyPopulations)
    else if !PopulationsRise(populations) then Err(PopulationNotMonotone)
    else if !UpdatesFrom(updates, before.input.nowMs) then Err(LatePopulation)
    else if |offers| > MAX_REVISIONS then Err(TooManyOffers)
    else if !OffersFrom(history, before.input.nowMs) then Err(LateOffer)
    else if Sort(sourceServices, ByTrain) != Sort(proposed, ByTrain) then Err(UnprovenOffer)
    else Ok(Reading(history, offers, updates, sourceServices, KnownAfter(cursor.offerServices, offers)))
  }

  function ReportObjection(report: Entry, worldId: Text, regions: seq<Region>): Option<ProgressError>
    requires report.event.StopReported?
  {
    match FindRegion(regions, report.event.regionId)
    case None => Some(UnconfirmedRegion)
    case Some(region) =>
      if report.event.commitSequence > region.commitSequence
          || report.event.nativeEventSequence > region.nativeEventSequence then Some(UnconfirmedRegion)
      else if report.event.receipt.worldId != worldId then Some(ForeignReport)
      else None
  }

  /** The first objection to any of the reports. */
  function FirstObjection(reports: Journal, worldId: Text, regions: seq<Region>): Option<ProgressError>
    requires forall i :: 0 <= i < |reports| ==> reports[i].event.StopReported?
  {
    if reports == [] then None
    else
      var before := FirstObjection(reports[..|reports| - 1], worldId, regions);
      if before.Some? then before else ReportObjection(reports[|reports| - 1], worldId, regions)
  }

  function ReceiptsOf(reports: Journal): (receipts: seq<Receipt>)
    requires forall i :: 0 <= i < |reports| ==> reports[i].event.StopReported?
    ensures |receipts| == |reports|
    ensures forall i :: 0 <= i < |receipts| ==> receipts[i] == reports[i].event.receipt
  {
    seq(|reports|, i requires 0 <= i < |reports| => reports[i].event.receipt)
  }

  /** The world sequence under which each receipt was first reported. */
  function SequencesWith(sequences: map<Text, nat>, reports: Journal): map<Text, nat>
    requires forall i :: 0 <= i < |reports| ==> reports[i].event.StopReported?
  {
    if reports == [] then sequences
    else
      var before, last := SequencesWith(sequences, reports[..|reports| - 1]), reports[|reports| - 1];
      if last.event.receipt.receiptId in before then before else before[last.event.receipt.receiptId := last.sequence]
  }

  datatype Receipts = Receipts(received: seq<Receipt>, sequences: map<Text, nat>, all: seq<Receipt>)

  ghost function ReadReceipts(journal: Journal, cursor: Cursor, known: seq<Service>, worldId: Text,
                              regions: seq<Region>): Result<Receipts, ProgressError> {
    var reports := ReportsAfter(journal, cursor.throughWorldSequence, known);
    var gathered := cursor.receipts + cursor.pendingReceipts + ReceiptsOf(reports);
    if |reports| > MAX_RECEIPTS then Err(TooManyReports)
    else if FirstObjection(reports, worldId, regions).Some? then Err(FirstObjection(reports, worldId, regions).value)
    else if !Accepts(gathered, known) then Err(InvalidReceipts)
    else if |Ordered(gathered)| > MAX_RECEIPTS then Err(TooManyReceipts)
    else Ok(Receipts(ReceiptsOf(reports), SequencesWith(cursor.receiptWorldSequences, reports), Ordered(gathered)))
  }

  predicate HasId(receipts: seq<Receipt>, receiptId: Text) {
    exists i | 0 <= i < |receipts| :: receipts[i].receiptId == receiptId
  }

  function NotAmong(receipts: seq<Receipt>): Receipt -> bool { (r: Receipt) => !HasId(receipts, r.receiptId) }

  /** The newly confirmed receipts. */
  function Fresh(all: seq<Receipt>, prior: seq<Receipt>, nowMs: nat): seq<Receipt> {
    Filter(Filter(all, DueReceipts(nowMs)), NotAmong(prior))
  }

  function Number(receipts: seq<Receipt>, sequences: map<Text, nat>): (numbered: seq<Numbered>)
    ensures |numbered| == |receipts|
    ensures forall i :: 0 <= i < |numbered| ==>
      numbered[i] == Numbered(receipts[i], if receipts[i].receiptId in sequences then sequences[receipts[i].receiptId]
                              else 0)
  {
    seq(|receipts|, i requires 0 <= i < |receipts| =>
      Numbered(receipts[i], if receipts[i].receiptId in sequences then sequences[receipts[i].receiptId] else 0))
  }

  /** A receipt of unknown sequence at the time of an offer or a population revision. */
  predicate Unordered(r: Receipt, sequences: map<Text, nat>, offers: seq<OfferRevision>,
                      updates: seq<PopulationEvent>) {
    r.receiptId !in sequences
    && ((exists i | 0 <= i < |offers| :: offers[i].effectiveAtMs == r.actualTimeMs)
        || (exists i | 0 <= i < |updates| :: updates[i].snapshot.effectiveAtMs == r.actualTimeMs))
  }

  datatype Plan = Plan(reading: Reading, receipts: Receipts, confirmed: seq<Receipt>, pendingReceipts: seq<Receipt>,
                       pendingOffers: seq<OfferRevision>, boundaries: seq<Boundary>)

  function PlanFrom(before: Checkpoint, reading: Reading, receipts: Receipts, nowMs: nat): Result<Plan, ProgressError> {
    var arrived := Fresh(receipts.all, before.cursor.receipts, nowMs);
    var offers := Filter(reading.offers, DueOffers(nowMs));
    if !ReceiptsFrom(arrived, before.input.nowMs) then Err(LateReceipt)
    else if exists i | 0 <= i < |arrived| ::
              Unordered(arrived[i], receipts.sequences, offers, reading.updates) then Err(UnorderedReceipt)
    else Ok(Plan(reading, receipts, Filter(receipts.all, DueReceipts(nowMs)),
                 Filter(receipts.all, LaterReceipts(nowMs)),
                 Filter(reading.offers, LaterOffers(nowMs)),
                 Boundaries(Number(arrived, receipts.sequences), offers, before.input.nowMs, reading.updates)))
  }

  ghost function PlanOf(journal: Journal, before: Checkpoint, template: Template, proposed: seq<Service>,
                        deploymentHash: Text,
                        worldId: Text, regions: seq<Region>): Result<Plan, ProgressError>
    requires regions != []
  {
    if before.deploymentHash != deploymentHash then Err(ReleasePinned)
    else if RegionObjection(before.cursor, regions).Some? then Err(RegionObjection(before.cursor, regions).value)
    else match Read(journal, before, template, proposed, NowMs(regions))
      case Err(error) => Err(error)
      case Ok(reading) =>
        match ReadReceipts(journal, before.cursor, reading.known, worldId, regions)
        case Err(error) => Err(error)
        case Ok(receipts) => PlanFrom(before, reading, receipts, NowMs(regions))
  }

  // ------------------------------------------------------------------ replaying the boundaries

  /** What the replay holds between boundaries; `applied` is a table by receipt id in insertion order. */
  datatype Held = Held(services: seq<Service>, applied: seq<Receipt>, population: Option<Snapshot>, provenance: Text)

  function PutReceipt(applied: seq<Receipt>, r: Receipt): seq<Receipt> {
    if applied == [] then [r]
    else if applied[0].receiptId == r.receiptId then [r] + applied[1..]
    else [applied[0]] + PutReceipt(applied[1..], r)
  }

  function PutReceipts(applied: seq<Receipt>, receipts: seq<Receipt>): seq<Receipt> {
    if receipts == [] then applied
    else PutReceipt(PutReceipts(applied, receipts[..|receipts| - 1]), receipts[|receipts| - 1])
  }

  function ApplyBoundary(held: Held, b: Boundary): Held {
    Held(if b.offer.Some? then Retain(held.services, b.offer.value.services) else held.services,
         PutReceipts(held.applied, b.receipts),
         if b.population.Some? then Some(b.population.value.snapshot) else held.population,
         if b.offer.Some? then b.offer.value.provenance else held.provenance)
  }

  function ApplyAll(held: Held, boundaries: seq<Boundary>): Held {
    if boundaries == [] then held
    else ApplyBoundary(ApplyAll(held, boundaries[..|boundaries| - 1]), boundaries[|boundaries| - 1])
  }

  function InOrder(applied: seq<Receipt>): seq<Receipt> { Sort(applied, ReceiptAtMost) }

  /** What stays the same during one run. */
  datatype Context = Context(worldId: Text, template: Template, deploymentHash: Text, regions: seq<Region>, head: nat,
                             plan: Plan)

  function BoundaryInput(context: Context, current: Checkpoint, held: Held, atMs: nat): Input {
    Input(context.template, atMs, current.input.revision + 1, held.population,
          AllWithConfirmed(held.services, InOrder(held.applied)),
          Some(Evaluated(current.input.services, current.result)), Some(ProgressOf(InOrder(held.applied))))
  }

  function BoundaryCursor(context: Context, held: Held, atMs: nat): Cursor {
    Cursor(context.head, atMs, context.regions, InOrder(held.applied),
           Filter(context.plan.receipts.all, NotAmong(held.applied)),
           context.plan.receipts.sequences, held.services, context.plan.reading.sourceServices,
           context.plan.pendingOffers)
  }

  datatype Run = Run(journal: Journal, current: Checkpoint, held: Held)

  ghost predicate Transportable(receipts: seq<Receipt>, worldId: Text, nowMs: nat) {
    OneTimeAnEvent(receipts) && Timely(receipts, worldId, nowMs)
  }

  ghost function AtBoundary(evaluate: Input -> Option<Text>, context: Context, run: Run,
                            b: Boundary): Result<Run, ProgressError> {
    var held := ApplyBoundary(run.held, b);
    if !Transportable(InOrder(held.applied), context.worldId, b.atMs) then Err(InvalidProgress)
    else match Committed(evaluate, run.journal, BoundaryInput(context, run.current, held, b.atMs),
                         context.deploymentHash,
                         held.provenance, BoundaryCursor(context, held, b.atMs), false)
      case Err(error) => Err(Refused(error))
      case Ok(after) => Ok(Run(after.0, after.1, held))
  }

  ghost function Replay(evaluate: Input -> Option<Text>, context: Context, run: Run,
                        boundaries: seq<Boundary>): Result<Run, ProgressError> {
    if boundaries == [] then Ok(run)
    else match Replay(evaluate, context, run, boundaries[..|boundaries| - 1])
      case Err(error) => Err(error)
      case Ok(before) => AtBoundary(evaluate, context, before, boundaries[|boundaries| - 1])
  }

  // ------------------------------------------------------------------ the final checkpoint

  function Largest(a: nat, b: nat): nat { if a < b then b else a }

  function FinalInput(context: Context, run: Run, targetMs: nat): Input {
    var plan := context.plan;
    var progressing := plan.confirmed != [] || run.held.population.Some?;
    Input(context.template, targetMs, run.current.input.revision + 1, run.held.population,
          AllWithConfirmed(run.held.services, plan.confirmed),
          if progressing then Some(Evaluated(run.current.input.services, run.current.result)) else None,
          if progressing then Some(ProgressOf(plan.confirmed)) else None)
  }

  function FinalCursor(context: Context, run: Run, targetMs: nat): Cursor {
    var plan := context.plan;
    Cursor(Head(run.journal) + 1, targetMs, context.regions, plan.confirmed, plan.pendingReceipts,
           plan.receipts.sequences,
           run.held.services, plan.reading.sourceServices, plan.pendingOffers)
  }

  predicate Unchanged(before: Checkpoint, context: Context, run: Run, safeThroughMs: nat) {
    var plan := context.plan;
    && plan.boundaries == [] && plan.reading.history == []
    && AllWithConfirmed(run.held.services, plan.confirmed) == before.input.services
    && before.cursor.safeThroughMs == safeThroughMs && plan.receipts.received == []
    && context.head <= before.cursor.throughWorldSequence
  }

  ghost function Finish(evaluate: Input -> Option<Text>, before: Checkpoint, context: Context,
                        run: Run): Result<(Journal, Checkpoint), ProgressError>
    requires context.regions != []
  {
    var safe := SafeThrough(NowMs(context.regions));
    var target := Largest(Largest(run.current.input.nowMs, safe), before.input.nowMs);
    if Unchanged(before, context, run, safe) then Ok((run.journal, before))
    else if (context.plan.confirmed != [] || run.held.population.Some?)
        && !Transportable(context.plan.confirmed, context.worldId, target)
    then Err(InvalidProgress)
    else match Committed(evaluate, run.journal, FinalInput(context, run, target), context.deploymentHash,
                         run.held.provenance,
                         FinalCursor(context, run, target), true)
      case Err(error) => Err(Refused(error))
      case Ok(after) => Ok(after)
  }

  function StartOf(journal: Journal, before: Checkpoint): Run {
    Run(journal, before, Held(before.cursor.offerServices, before.cursor.receipts, before.input.population,
                              before.provenance))
  }

  /** One run from the last published checkpoint: the journal and the checkpoint it ends with. */
  ghost function Advanced(evaluate: Input -> Option<Text>, worldId: Text, journal: Journal, before: Checkpoint,
                          template: Template,
                          proposed: seq<Service>, deploymentHash: Text,
                          regions: seq<Region>): Result<(Journal, Checkpoint), ProgressError>
    requires regions != []
  {
    match PlanOf(journal, before, template, proposed, deploymentHash, worldId, regions)
    case Err(error) => Err(error)
    case Ok(plan) =>
      var context := Context(worldId, template, deploymentHash, regions, Head(journal), plan);
      match Replay(evaluate, context, StartOf(journal, before), plan.boundaries)
      case Err(error) => Err(error)
      case Ok(run) => Finish(evaluate, before, context, run)
  }

  // ------------------------------------------------------------------ the consumer

  ghost predicate InPool(journal: Journal, template: Template) {
    Latest(journal).Some? && Latest(journal).value.input.template.periodId == template.periodId
  }

  class DemandProgressConsumer {
    const evaluate: Input -> Option<Text>
    const worldId: Text
    var journal: Journal

    constructor (evaluate: Input -> Option<Text>, worldId: Text, journal: Journal)
      ensures this.evaluate == evaluate && this.worldId == worldId && this.journal == journal
    {
      this.evaluate, this.worldId, this.journal := evaluate, worldId, journal;
    }

    /** One transaction: either all its checkpoints are in the journal afterwards, or none. */
    method Advance(template: Template, proposed: seq<Service>, deploymentHash: Text, regions: seq<Region>)
      returns (outcome: Result<Checkpoint, ProgressError>)
      requires regions != [] && Ascending(journal) && InPool(journal, template)
      modifies this`journal
      ensures match Replayed(evaluate, old(journal))
              case Err(error) => outcome == Err(Refused(error)) && journal == old(journal)
              case Ok(_) =>
                match Advanced(evaluate, worldId, old(journal), Latest(old(journal)).value, template, proposed,
                               deploymentHash, regions)
                case Err(error) => outcome == Err(error) && journal == old(journal)
                case Ok(after) => outcome == Ok(after.1) && journal == after.0
    {
      var store := new DemandStore(evaluate, journal);
      var latest := store.LatestVerified();
      if latest.Err? {
        return Err(Refused(latest.error));
      }
      var before := latest.value.value;
      var planning := MakePlan(journal, before, template, proposed, deploymentHash, worldId, regions);
      if planning.Err? {
        return Err(planning.error);
      }
      var plan := planning.value;
      var context := Context(worldId, template, deploymentHash, regions, Head(journal), plan);
      var replayed := ReplayBoundaries(store, context, before);
      if replayed.Err? {
        return Err(replayed.error);
      }
      var finished := FinishRun(store, before, context, replayed.value);
      if finished.Err? {
        return Err(finished.error);
      }
      journal := store.journal;
      outcome := Ok(finished.value);
    }
  }

  /** The loop over the boundaries, one checkpoint each. */
  method ReplayBoundaries(store: DemandStore, context: Context, before: Checkpoint)
    returns (outcome: Result<Run, ProgressError>)
    requires store.Valid()
    modifies store
    ensures store.Valid()
    ensures outcome == Replay(store.evaluate, context, StartOf(old(store.journal), before), context.plan.boundaries)
    ensures outcome.Ok? ==> store.journal == outcome.value.journal
  {
    var boundaries := context.plan.boundaries;
    var run := StartOf(store.journal, before);
    var i := 0;
    while i < |boundaries|
      invariant 0 <= i <= |boundaries|
      invariant store.Valid() && run.journal == store.journal
      invariant Replay(store.evaluate, context, StartOf(old(store.journal), before), boundaries[..i]) == Ok(run)
    {
      assert boundaries[..i + 1][..i] == boundaries[..i];
      ReplayFails(store.evaluate, context, StartOf(old(store.journal), before), boundaries, i + 1);
      var next := CommitBoundary(store, context, run, boundaries[i]);
      if next.Err? {
        return next;
      }
      run := next.value;
      i := i + 1;
    }
    assert boundaries[..i] == boundaries;
    outcome := Ok(run);
  }

  method CommitBoundary(store: DemandStore, context: Context, run: Run, b: Boundary)
    returns (outcome: Result<Run, ProgressError>)
    requires store.Valid() && run.journal == store.journal
    modifies store
    ensures store.Valid()
    ensures outcome == AtBoundary(store.evaluate, context, run, b)
    ensures outcome.Ok? ==> store.journal == outcome.value.journal
  {
    var held := ApplyBoundary(run.held, b);
    var atReceipts := InOrder(held.applied);
    var progress := ProgressFromReceipts(context.worldId, b.atMs, atReceipts);
    if progress.Err? {
      return Err(InvalidProgress);
    }
    var services := ServicesWithConfirmedStops(held.services, atReceipts);
    var input := Input(context.template, b.atMs, run.current.input.revision + 1, held.population, services,
                       Some(Evaluated(run.current.input.services, run.current.result)), Some(progress.value));
    var committed := store.CommitCheckpoint(input, context.deploymentHash, held.provenance,
                                            BoundaryCursor(context, held, b.atMs), false);
    if committed.Err? {
      return Err(Refused(committed.error));
    }
    outcome := Ok(Run(store.journal, committed.value, held));
  }

  /** A replay that fails somewhere fails altogether. */
  lemma {:induction false} ReplayFails(evaluate: Input -> Option<Text>, context: Context, run: Run,
                                       boundaries: seq<Boundary>, n: nat)
    requires n <= |boundaries|
    ensures Replay(evaluate, context, run, boundaries[..n]).Err? ==>
              Replay(evaluate, context, run, boundaries) == Replay(evaluate, context, run, boundaries[..n])
    decreases |boundaries|
  {
    if n == |boundaries| {
      assert boundaries[..n] == boundaries;
    } else {
      var m := |boundaries| - 1;
      ReplayFails(evaluate, context, run, boundaries[..m], n);
      assert boundaries[..m][..n] == boundaries[..n];
    }
  }

  method FinishRun(store: DemandStore, before: Checkpoint, context: Context, run: Run)
    returns (outcome: Result<Checkpoint, ProgressError>)
    requires store.Valid() && context.regions != [] && run.journal == store.journal
    modifies store
    ensures store.Valid()
    ensures match Finish(store.evaluate, before, context, run)
            case Err(error) => outcome == Err(error)
            case Ok(after) => outcome == Ok(after.1) && store.journal == after.0
  {
    var safe := SafeThrough(NowMs(context.regions));
    var services := ServicesWithConfirmedStops(run.held.services, context.plan.confirmed);
    if Unchanged(before, context, run, safe) {
      return Ok(before);
    }
    var target := Largest(Largest(run.current.input.nowMs, safe), before.input.nowMs);
    var previous, progress := None, None;
    if context.plan.confirmed != [] || run.held.population.Some? {
      var transported := ProgressFromReceipts(context.worldId, target, context.plan.confirmed);
      if transported.Err? {
        return Err(InvalidProgress);
      }
      previous, progress := Some(Evaluated(run.current.input.services, run.current.result)), Some(transported.value);
    }
    var input := Input(context.template, target, run.current.input.revision + 1, run.held.population, services,
                       previous, progress);
    var committed := store.CommitCheckpoint(input, context.deploymentHash, run.held.provenance,
                                            FinalCursor(context, run, target), true);
    if committed.Err? {
      return Err(Refused(committed.error));
    }
    outcome := Ok(committed.value);
  }

  method MakePlan(journal: Journal, before: Checkpoint, template: Template, proposed: seq<Service>,
                  deploymentHash: Text,
                  worldId: Text, regions: seq<Region>) returns (outcome: Result<Plan, ProgressError>)
    requires regions != []
    ensures outcome == PlanOf(journal, before, template, proposed, deploymentHash, worldId, regions)
  {
    if before.deploymentHash != deploymentHash {
      return Err(ReleasePinned);
    }
    var objection := RegionObjection(before.cursor, regions);
    if objection.Some? {
      return Err(objection.value);
    }
    var reading := Read(journal, before, template, proposed, NowMs(regions));
    if reading.Err? {
      return Err(reading.error);
    }
    var receipts := GatherReceipts(journal, before.cursor, reading.value.known, worldId, regions);
    if receipts.Err? {
      return Err(receipts.error);
    }
    outcome := PlanFrom(before, reading.value, receipts.value, NowMs(regions));
  }

  method GatherReceipts(journal: Journal, cursor: Cursor, known: seq<Service>, worldId: Text, regions: seq<Region>)
    returns (outcome: Result<Receipts, ProgressError>)
    ensures outcome == ReadReceipts(journal, cursor, known, worldId, regions)
  {
    var reports := ReportsAfter(journal, cursor.throughWorldSequence, known);
    if |reports| > MAX_RECEIPTS {
      return Err(TooManyReports);
    }
    var sequences := cursor.receiptWorldSequences;
    var received: seq<Receipt> := [];
    var i := 0;
    while i < |reports|
      invariant 0 <= i <= |reports|
      invariant FirstObjection(reports[..i], worldId, regions).None?
      invariant received == ReceiptsOf(reports[..i])
                && sequences == SequencesWith(cursor.receiptWorldSequences, reports[..i])
    {
      assert reports[..i + 1][..i] == reports[..i];
      ObjectionStays(reports, worldId, regions, i + 1);
      var objection := ReportObjection(reports[i], worldId, regions);
      if objection.Some? {
        return Err(objection.value);
      }
      var receipt := reports[i].event.receipt;
      if receipt.receiptId !in sequences {
        sequences := sequences[receipt.receiptId := reports[i].sequence];
      }
      received := received + [receipt];
      i := i + 1;
    }
    assert reports[..i] == reports;
    var all := ValidateReceiptSet(cursor.receipts + cursor.pendingReceipts + received, known);
    if all.Err? {
      return Err(InvalidReceipts);
    }
    if |all.value| > MAX_RECEIPTS {
      return Err(TooManyReceipts);
    }
    outcome := Ok(Receipts(received, sequences, all.value));
  }

  lemma {:induction false} ObjectionStays(reports: Journal, worldId: Text, regions: seq<Region>, n: nat)
    requires forall i :: 0 <= i < |reports| ==> reports[i].event.StopReported?
    requires n <= |reports|
    ensures FirstObjection(reports[..n], worldId, regions).Some? ==>
              FirstObjection(reports, worldId, regions) == FirstObjection(reports[..n], worldId, regions)
    decreases |reports|
  {
    if n == |reports| {
      assert reports[..n] == reports;
    } else {
      var m := |reports| - 1;
      ObjectionStays(reports[..m], worldId, regions, n);
      assert reports[..m][..n] == reports[..n];
    }
  }
}
