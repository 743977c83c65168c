/** The world journal as the demand consumer sees it, and the append of a demand checkpoint by
    apps/game-api/src/demand-store.ts with its checks of the revision and time chain. */
module DemandJournal {
  import opened DemandOfferHistory
  import opened DemandReceipts
  import opened Outcomes
  import opened TextOrder

  /** A region's confirmed stand, as the watermark lists it. */
  datatype Region = Region(regionId: Text, initializationHash: Text, commitSequence: nat, nativeEventSequence: nat,
                           completeThroughMs: nat)

  /** The pinned demand template; `details` stands for the fields only the kernel reads. */
  datatype Template = Template(periodId: Text, windowStartMs: nat, hasPopulationModel: bool, details: Text)

  datatype Evaluated = Evaluated(services: seq<Service>, result: Text)

  datatype Input = Input(template: Template, nowMs: nat, revision: nat, population: Option<Snapshot>,
                         services: seq<Service>,
                         previousEvaluation: Option<Evaluated>, operationalProgress: Option<Progress>)

  datatype Cursor = Cursor(throughWorldSequence: nat, safeThroughMs: nat, regions: seq<Region>, receipts: seq<Receipt>,
                           pendingReceipts: seq<Receipt>, receiptWorldSequences: map<Text, nat>,
                           offerServices: seq<Service>,
                           offerSourceServices: seq<Service>, pendingOffers: seq<OfferRevision>)

  datatype Checkpoint = Checkpoint(deploymentHash: Text, input: Input, result: Text, provenance: Text, cursor: Cursor)

  datatype JournalEvent =
    | StopReported(regionId: Text, commitSequence: nat, nativeEventSequence: nat, receipt: Receipt)
    | OfferCommitted(effectiveAtMs: nat, services: seq<Service>, provenance: Text)
    | PopulationUpdated(snapshot: Snapshot)
    | DemandEvaluated(checkpoint: Checkpoint)
    | DemandProgressed(checkpoint: Checkpoint)
    | Unrelated

  datatype Entry = Entry(sequence: nat, event: JournalEvent)

  type Journal = seq<Entry>

  datatype CommitError = StalePreview | DeploymentPinned | FirstRevisionNotOne | PublishedTimeRegressed | KernelRefused
      | ReplayFailed

  ghost predicate Ascending(journal: Journal) {
    forall i, j :: 0 <= i < j < |journal| ==> journal[i].sequence < journal[j].sequence
  }

  function Head(journal: Journal): nat {
    if journal == [] then 0 else journal[|journal| - 1].sequence
  }

  predicate IsDemand(event: JournalEvent) { event.DemandEvaluated? || event.DemandProgressed? }

  /** The last checkpoint of either kind. */
  function LastDemand(journal: Journal): (last: Option<JournalEvent>)
    ensures last.Some? ==> IsDemand(last.value)
  {
    if journal == [] then None
    else if IsDemand(journal[|journal| - 1].event) then Some(journal[|journal| - 1].event)
    else LastDemand(journal[..|journal| - 1])
  }

  /** The last published checkpoint. */
  function Latest(journal: Journal): Option<Checkpoint> {
    if journal == [] then None
    else if journal[|journal| - 1].event.DemandEvaluated? then Some(journal[|journal| - 1].event.checkpoint)
    else Latest(journal[..|journal| - 1])
  }

  /** Whether a checkpoint may follow the last one of either kind. */
  predicate Follows(before: Checkpoint, next: Checkpoint) {
    && next.input.revision == before.input.revision + 1
    && (before.input.template.periodId == next.input.template.periodId ==> before.input.nowMs <= next.input.nowMs)
    && before.input.template.windowStartMs <= next.input.template.windowStartMs
    && (before.input.template.periodId == next.input.template.periodId ==> before.deploymentHash == next.deploymentHash)
  }

  predicate SameCommit(event: JournalEvent, published: bool, next: Checkpoint)
    requires IsDemand(event)
  {
    event.DemandEvaluated? == published && event.checkpoint.input == next.input
    && event.checkpoint.deploymentHash == next.deploymentHash && event.checkpoint.cursor == next.cursor
  }

  function CommitObjection(journal: Journal, next: Checkpoint, published: bool): Option<CommitError> {
    var last := LastDemand(journal);
    if last.None? && next.input.revision != 1 then Some(FirstRevisionNotOne)
    else if last.Some? && (next.input.revision != last.value.checkpoint.input.revision + 1
              || (last.value.checkpoint.input.template.periodId == next.input.template.periodId
                  && next.input.nowMs < last.value.checkpoint.input.nowMs)
              || next.input.template.windowStartMs < last.value.checkpoint.input.template.windowStartMs)
              then Some(StalePreview)
    else if last.Some? && last.value.checkpoint.deploymentHash != next.deploymentHash
            && last.value.checkpoint.input.template.periodId == next.input.template.periodId then Some(DeploymentPinned)
    else if published && Latest(journal).Some?
        && next.input.nowMs < Latest(journal).value.input.nowMs then Some(PublishedTimeRegressed)
    else None
  }

  function EventOf(next: Checkpoint, published: bool): JournalEvent {
    if published then DemandEvaluated(next) else DemandProgressed(next)
  }

  /** The journal after committing a checkpoint: unchanged when it repeats the last one. */
  function Commit(journal: Journal, next: Checkpoint, published: bool): Result<Journal, CommitError> {
    if LastDemand(journal).Some? && SameCommit(LastDemand(journal).value, published, next) then Ok(journal)
    else if CommitObjection(journal, next, published).Some? then Err(CommitObjection(journal, next, published).value)
    else Ok(journal + [Entry(Head(journal) + 1, EventOf(next, published))])
  }

  // ------------------------------------------------------------------ the chain over whole runs

  /** The checkpoints of either kind in journal order. */
  function Checkpoints(journal: Journal): seq<Checkpoint> {
    if journal == [] then []
    else Checkpoints(journal[..|journal| - 1])
         + (if IsDemand(journal[|journal| - 1].event) then [journal[|journal| - 1].event.checkpoint] else [])
  }

  function Published(journal: Journal): seq<Checkpoint> {
    if journal == [] then []
    else Published(journal[..|journal| - 1])
         + (if journal[|journal| - 1].event.DemandEvaluated? then [journal[|journal| - 1].event.checkpoint] else [])
  }

  ghost predicate Chained(journal: Journal) {
    && Ascending(journal)
    && (Checkpoints(journal) != [] ==> Checkpoints(journal)[0].input.revision == 1)
    && (forall i :: 0 <= i < |Checkpoints(journal)| - 1
          ==> Follows(Checkpoints(journal)[i], Checkpoints(journal)[i + 1]))
    && (forall i, j :: 0 <= i < j < |Published(journal)|
          ==> Published(journal)[i].input.nowMs <= Published(journal)[j].input.nowMs)
  }

  lemma {:induction false} LastDemandIsLast(journal: Journal)
    ensures LastDemand(journal).Some? <==> Checkpoints(journal) != []
    ensures LastDemand(journal).Some?
            ==> LastDemand(journal).value.checkpoint == Checkpoints(journal)[|Checkpoints(journal)| - 1]
  {
    if journal != [] && !IsDemand(journal[|journal| - 1].event) {
      LastDemandIsLast(journal[..|journal| - 1]);
    }
  }

  lemma {:induction false} LatestIsLast(journal: Journal)
    ensures Latest(journal).Some? <==> Published(journal) != []
    ensures Latest(journal).Some? ==> Latest(journal).value == Published(journal)[|Published(journal)| - 1]
  {
    if journal != [] && !journal[|journal| - 1].event.DemandEvaluated? {
      LatestIsLast(journal[..|journal| - 1]);
    }
  }

  lemma {:induction false} HeadBounds(journal: Journal)
    requires Ascending(journal)
    ensures forall i :: 0 <= i < |journal| ==> journal[i].sequence <= Head(journal)
  {
  }

  /** A commit keeps the chain: sequences ascend, revisions count up by one from one, time within a period
      and the window start never fall, a period keeps its deployment, and published times never fall. */
  lemma CommitKeepsChain(journal: Journal, next: Checkpoint, published: bool)
    requires Chained(journal) && Commit(journal, next, published).Ok?
    ensures Chained(Commit(journal, next, published).value)
  {
    LastDemandIsLast(journal);
    LatestIsLast(journal);
    HeadBounds(journal);
    var after := Commit(journal, next, published).value;
    if after != journal {
      assert after[..|journal|] == journal;
      assert Checkpoints(after) == Checkpoints(journal) + [next];
      var all := Checkpoints(after);
      forall i | 0 <= i < |all| - 1
        ensures Follows(all[i], all[i + 1])
      {
        assert i < |all| - 2 ==> Follows(Checkpoints(journal)[i], Checkpoints(journal)[i + 1]);
      }
      assert published ==> Published(after) == Published(journal) + [next];
      assert !published ==> Published(after) == Published(journal);
    }
  }

  /** Any other event may be appended by the rest of the game. */
  lemma ForeignEventKeepsChain(journal: Journal, event: JournalEvent)
    requires Chained(journal) && !IsDemand(event)
    ensures Chained(journal + [Entry(Head(journal) + 1, event)])
  {
    HeadBounds(journal);
    var after := journal + [Entry(Head(journal) + 1, event)];
    assert after[..|journal|] == journal;
    assert Checkpoints(after) == Checkpoints(journal) && Published(after) == Published(journal);
  }

  /** Along the chain the revision is the position. */
  lemma {:induction false} RevisionIsPosition(journal: Journal, i: nat)
    requires Chained(journal) && i < |Checkpoints(journal)|
    ensures Checkpoints(journal)[i].input.revision == i + 1
  {
    if 0 < i {
      RevisionIsPosition(journal, i - 1);
      assert Follows(Checkpoints(journal)[i - 1], Checkpoints(journal)[i]);
    }
  }

  /** Repeating a commit appends nothing. */
  lemma RepeatedCommitAppendsNothing(journal: Journal, next: Checkpoint, published: bool)
    requires Commit(journal, next, published).Ok?
    ensures Commit(Commit(journal, next, published).value, next, published) == Commit(journal, next, published)
  {
    var after := Commit(journal, next, published).value;
    if after != journal {
      assert after[..|journal|] == journal;
    }
  }

  // ------------------------------------------------------------------ the store

  datatype Verified = Verified(sequence: nat, checkpoint: Checkpoint)

  function LatestEntry(journal: Journal): (entry: Option<Entry>)
    ensures entry.Some? ==> entry.value.event.DemandEvaluated? && entry.value in journal
    ensures entry.Some? <==> Latest(journal).Some?
    ensures entry.Some? ==> entry.value.event.checkpoint == Latest(journal).value
  {
    if journal == [] then None
    else if journal[|journal| - 1].event.DemandEvaluated? then Some(journal[|journal| - 1])
    else LatestEntry(journal[..|journal| - 1])
  }

  /** What the store answers: the last published checkpoint, if the kernel's replay of it agrees. */
  function Replayed(evaluate: Input -> Option<Text>, journal: Journal): Result<Option<Checkpoint>, CommitError> {
    match Latest(journal)
    case None => Ok(None)
    case Some(checkpoint) => if evaluate(checkpoint.input) == Some(checkpoint.result) then Ok(Some(checkpoint))
        else Err(ReplayFailed)
  }

  /** A commit that is refused leaves the journal as it was. */
  function Committed(evaluate: Input -> Option<Text>, journal: Journal, input: Input, deploymentHash: Text,
                     provenance: Text,
                     cursor: Cursor, published: bool): Result<(Journal, Checkpoint), CommitError>
  {
    match evaluate(input)
    case None => Err(KernelRefused)
    case Some(result) =>
      var checkpoint := Checkpoint(deploymentHash, input, result, provenance, cursor);
      match Commit(journal, checkpoint, published)
      case Err(error) => Err(error)
      case Ok(after) => Ok((after, checkpoint))
  }

  class DemandStore {
    const evaluate: Input -> Option<Text>
    var journal: Journal
    var verified: Option<Verified>

    /** The cache names a published entry that the kernel has confirmed. */
    ghost predicate Valid()
      reads this
    {
      && Ascending(journal)
      && (verified.Some? ==> evaluate(verified.value.checkpoint.input) == Some(verified.value.checkpoint.result)
                             && Entry(verified.value.sequence, DemandEvaluated(verified.value.checkpoint)) in journal)
    }

    constructor (evaluate: Input -> Option<Text>, journal: Journal)
      requires Ascending(journal)
      ensures Valid() && this.evaluate == evaluate && this.journal == journal
    {
      this.evaluate, this.journal, verified := evaluate, journal, None;
    }

    /** The answer is that of a replay, whether the kernel is asked again or the cache knows the entry. */
    method LatestVerified() returns (outcome: Result<Option<Checkpoint>, CommitError>)
      requires Valid()
      modifies this`verified
      ensures Valid()
      ensures outcome == Replayed(evaluate, journal)
    {
      var entry := LatestEntry(journal);
      if entry.None? {
        return Ok(None);
      }
      if verified.Some? && verified.value.sequence == entry.value.sequence {
        SameSequenceSameEntry(journal, entry.value,
                              Entry(verified.value.sequence, DemandEvaluated(verified.value.checkpoint)));
        return Ok(Some(verified.value.checkpoint));
      }
      var checkpoint := entry.value.event.checkpoint;
      if evaluate(checkpoint.input) != Some(checkpoint.result) {
        return Err(ReplayFailed);
      }
      verified := Some(Verified(entry.value.sequence, checkpoint));
      outcome := Ok(Some(checkpoint));
    }

    method CommitCheckpoint(input: Input, deploymentHash: Text, provenance: Text, cursor: Cursor, published: bool)
      returns (outcome: Result<Checkpoint, CommitError>)
      requires Valid()
      modifies this
      ensures Valid()
      ensures match Committed(evaluate, old(journal), input, deploymentHash, provenance, cursor, published)
              case Err(error) => outcome == Err(error) && journal == old(journal)
              case Ok(after) => outcome == Ok(after.1) && journal == after.0
    {
      var result := evaluate(input);
      if result.None? {
        return Err(KernelRefused);
      }
      var checkpoint := Checkpoint(deploymentHash, input, result.value, provenance, cursor);
      var last := LastDemand(journal);
      if last.None? || !SameCommit(last.value, published, checkpoint) {
        var objection := CommitObjection(journal, checkpoint, published);
        if objection.Some? {
          return Err(objection.value);
        }
        HeadBounds(journal);
        journal := journal + [Entry(Head(journal) + 1, EventOf(checkpoint, published))];
      }
      verified := None;
      outcome := Ok(checkpoint);
    }
  }

  lemma SameSequenceSameEntry(journal: Journal, a: Entry, b: Entry)
    requires Ascending(journal) && a in journal && b in journal && a.sequence == b.sequence
    ensures a == b
  {
    var i :| 0 <= i < |journal| && journal[i] == a;
    var j :| 0 <= j < |journal| && journal[j] == b;
    assert i == j;
  }
}
