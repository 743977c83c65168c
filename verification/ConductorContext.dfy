/** The conductor's search for the region that holds a train: it follows natively confirmed handover
    receipts from region to region (apps/game-api/src/conductor-context.ts). Restoring a regional
    state is the native kernel's business and enters as the function `restore`. */
module ConductorContext {
  import opened Outcomes
  import opened Sorting

  type Id = string

  datatype Receipt = Receipt(handoverId: Id, worldId: Id, trainRunId: Id, sourceRegionId: Id,
                             targetRegionId: Id, payloadHash: Id, atMs: int)

  /** One field of the object of finished handover receipts: its name and its value. */
  datatype Entry = Entry(id: Id, value: Receipt)

  datatype World = World(worldId: Id, regionId: Id, nowMs: int, trains: set<Id>, preparedTrains: set<Id>,
                         acceptedHandovers: map<Id, Id>, finishedHandovers: map<Id, Id>, finishedReceipts: seq<Entry>)

  datatype Head = Head(initializationHash: Id, stateHash: Id, revision: nat, publisherSequence: nat, state: World)

  datatype Restored = Restored(initializationHash: Id, stateHash: Id, revision: nat, publisherSequence: nat,
                               world: World)

  datatype Binding = Binding(regionId: Id, initializationHash: Id)

  datatype Origin = Origin(regionId: Id, atMs: int)

  /** What one transaction reads: the pinned regions of a world and their committed heads. */
  datatype Network = Network(worldId: Id, bindings: seq<Binding>, heads: map<Id, Head>,
                             restore: (World, Id) -> Option<Restored>)

  datatype Failure = SourceUnavailable | HandoverPending | TrainUnavailable | HandoverUnconfirmed

  datatype Visit = Rejected(code: Failure) | Here | Onward(proof: Receipt)

  const MAX_BINDINGS := 256

  function BoundRegions(net: Network): set<Id> {
    set b | b in net.bindings :: b.regionId
  }

  predicate DistinctBindings(net: Network) {
    forall i, j :: 0 <= i < j < |net.bindings| ==> net.bindings[i].regionId != net.bindings[j].regionId
  }

  function Candidates(net: Network, train: Id): set<Id> {
    set r | r in net.heads && r in BoundRegions(net) && train in net.heads[r].state.trains
  }

  function FindBinding(bindings: seq<Binding>, region: Id): Option<Binding> {
    if bindings == [] then None
    else if bindings[0].regionId == region then Some(bindings[0])
    else FindBinding(bindings[1..], region)
  }

  /** The restored world of a region, if its head is pinned, present and reproduced by the kernel. */
  function ConfirmedWorld(net: Network, region: Id): Option<World> {
    var binding := FindBinding(net.bindings, region);
    if binding.None? || region !in net.heads then None
    else
      var head := net.heads[region];
      var pin := binding.value.initializationHash;
      if head.initializationHash != pin then None
      else
        var restored := net.restore(head.state, pin);
        if restored.None? then None
        else
          var r := restored.value;
          if r.stateHash == head.stateHash && r.revision == head.revision
              && r.publisherSequence == head.publisherSequence
             && r.initializationHash == pin && r.world.worldId == net.worldId && r.world.regionId == region
          then Some(r.world) else None
  }

  predicate LaterFirst(a: Entry, b: Entry) {
    b.value.atMs <= a.value.atMs
  }

  predicate Departs(e: Entry, train: Id, atMs: int) {
    e.value.trainRunId == train && atMs <= e.value.atMs
  }

  /** The receipts of the train at or after `atMs`, latest first. */
  function Departures(world: World, train: Id, atMs: int): seq<Entry> {
    Sort(Filter(world.finishedReceipts, (e: Entry) => Departs(e, train, atMs)), LaterFirst)
  }

  predicate HasReceipt(world: World, id: Id) {
    exists e | e in world.finishedReceipts :: e.id == id
  }

  /** One turn of the search at `region`: reject, stop here, or go on with a receipt. */
  function VisitRegion(net: Network, train: Id, candidates: set<Id>, region: Id, atMs: int,
                       expected: Option<Receipt>): Visit {
    var confirmed := ConfirmedWorld(net, region);
    if confirmed.None? || confirmed.value.nowMs < atMs then Rejected(SourceUnavailable)
    else
      var world := confirmed.value;
      if expected.Some? && !(expected.value.handoverId in world.acceptedHandovers
                             && world.acceptedHandovers[expected.value.handoverId] == expected.value.payloadHash)
      then Rejected(HandoverUnconfirmed)
      else if train in world.preparedTrains then Rejected(HandoverPending)
      else if train in world.trains then
        if candidates == {region} then Here else Rejected(HandoverUnconfirmed)
      else
        var receipts := Departures(world, train, atMs);
        if receipts == [] then
          if candidates == {} && forall id | id in world.finishedHandovers :: HasReceipt(world, id)
          then Here else Rejected(HandoverUnconfirmed)
        else
          var receipt := receipts[0];
          var proof := receipt.value;
          if !(proof.handoverId == receipt.id && proof.worldId == net.worldId && proof.sourceRegionId == region
               && receipt.id in world.finishedHandovers && world.finishedHandovers[receipt.id] == proof.payloadHash
               && proof.atMs <= world.nowMs && (|receipts| == 1 || receipts[1].value.atMs != proof.atMs))
          then Rejected(HandoverUnconfirmed)
          else if FindBinding(net.bindings, proof.targetRegionId).None? then Rejected(SourceUnavailable)
          else Onward(proof)
  }

  /** The search from `region` on, when the regions of `visited` have been left behind. */
  function Follow(net: Network, train: Id, candidates: set<Id>, region: Id, atMs: int, expected: Option<Receipt>,
                  visited: set<Id>): Result<Id, Failure>
    decreases |net.bindings| - |visited|
  {
    if region in visited || |net.bindings| <= |visited| then Err(HandoverUnconfirmed)
    else
      match VisitRegion(net, train, candidates, region, atMs, expected)
      case Rejected(code) => Err(code)
      case Here => Ok(region)
      case Onward(proof) =>
        Follow(net, train, candidates, proof.targetRegionId, proof.atMs, Some(proof), visited + {region})
  }

  predicate UsableBindings(net: Network) {
    0 < |net.bindings| <= MAX_BINDINGS && DistinctBindings(net)
  }

  method ResolveRegion(net: Network, train: Id, origin: Option<Origin>) returns (r: Result<Id, Failure>)
    ensures !UsableBindings(net) ==> r == Err(SourceUnavailable)
    ensures UsableBindings(net) && 1 < |Candidates(net, train)| ==> r == Err(HandoverPending)
    ensures UsableBindings(net) && |Candidates(net, train)| == 0 && origin.None? ==> r == Err(TrainUnavailable)
    ensures UsableBindings(net) && |Candidates(net, train)| == 1 && origin.None? ==>
              forall c | c in Candidates(net, train) :: r == Follow(net, train, Candidates(net, train), c, 0, None, {})
    ensures UsableBindings(net) && |Candidates(net, train)| <= 1 && origin.Some? ==>
              r == Follow(net, train, Candidates(net, train), origin.value.regionId, origin.value.atMs, None, {})
  {
    if !UsableBindings(net) {
      return Err(SourceUnavailable);
    }
    var candidates := Candidates(net, train);
    if 1 < |candidates| {
      return Err(HandoverPending);
    }
    if origin.None? && |candidates| != 1 {
      return Err(TrainUnavailable);
    }
    var region, atMs;
    if origin.Some? {
      region, atMs := origin.value.regionId, origin.value.atMs;
    } else {
      region :| region in candidates;
      atMs := 0;
      assert candidates - {region} == {} by {
        assert |candidates - {region}| == 0;
      }
    }
    var visited: set<Id>, expected: Option<Receipt> := {}, None;
    ghost var whole := Follow(net, train, candidates, region, atMs, None, {});
    while region !in visited && |visited| < |net.bindings|
      invariant Follow(net, train, candidates, region, atMs, expected, visited) == whole
      decreases |net.bindings| - |visited|
    {
      var visit := VisitRegion(net, train, candidates, region, atMs, expected);
      match visit {
        case Rejected(code) => return Err(code);
        case Here => return Ok(region);
        case Onward(proof) =>
          visited := visited + {region};
          expected, atMs, region := Some(proof), proof.atMs, proof.targetRegionId;
      }
    }
    return Err(HandoverUnconfirmed);
  }

  // ------------------------------------------------------------------ soundness

  /** `region` records that the train left it by `proof`, no earlier than `atMs`. */
  ghost predicate Released(net: Network, train: Id, region: Id, atMs: int, proof: Receipt) {
    var confirmed := ConfirmedWorld(net, region);
    && confirmed.Some?
    && train !in confirmed.value.trains && train !in confirmed.value.preparedTrains
    && proof.trainRunId == train && proof.sourceRegionId == region && proof.worldId == net.worldId
    && atMs <= proof.atMs <= confirmed.value.nowMs
    && (proof.handoverId, proof.payloadHash) in confirmed.value.finishedHandovers.Items
  }

  /** The target of `proof` records that it took the train over. */
  ghost predicate Accepted(net: Network, proof: Receipt) {
    var confirmed := ConfirmedWorld(net, proof.targetRegionId);
    && confirmed.Some?
    && (proof.handoverId, proof.payloadHash) in confirmed.value.acceptedHandovers.Items
  }

  /** A chain of receipts from `region`, each recorded as finished where it starts and as accepted
      where it leads, no two from the same region. */
  ghost predicate ConfirmedTrail(net: Network, train: Id, region: Id, atMs: int, trail: seq<Receipt>, end: Id)
    decreases |trail|
  {
    if trail == [] then region == end
    else
      && Released(net, train, region, atMs, trail[0]) && Accepted(net, trail[0])
      && ConfirmedTrail(net, train, trail[0].targetRegionId, trail[0].atMs, trail[1..], end)
  }

  /** Where the search may stop: the only holder of the train, or the end of a vanished train's trail. */
  ghost predicate IsEnd(net: Network, train: Id, end: Id) {
    var confirmed := ConfirmedWorld(net, end);
    && confirmed.Some?
    && if train in confirmed.value.trains then Candidates(net, train) == {end}
       else Candidates(net, train) == {}
            && forall id | id in confirmed.value.finishedHandovers :: HasReceipt(confirmed.value, id)
  }

  lemma OnwardIsReleased(net: Network, train: Id, candidates: set<Id>, region: Id, atMs: int, expected: Option<Receipt>,
                         proof: Receipt)
    requires VisitRegion(net, train, candidates, region, atMs, expected) == Onward(proof)
    ensures Released(net, train, region, atMs, proof)
    ensures expected.Some? && expected.value.targetRegionId == region ==> Accepted(net, expected.value)
  {
    var world := ConfirmedWorld(net, region).value;
    DeparturesAre(world, train, atMs);
    var receipts := Departures(world, train, atMs);
    assert receipts[0] in receipts;
  }

  /** Whatever the network records, a region is returned only at the end of a chain of receipts that
      both sides confirm, over regions no two of which are equal. */
  lemma {:induction false} FollowIsSound(net: Network, train: Id, region: Id, atMs: int, expected: Option<Receipt>,
                                         visited: set<Id>)
    returns (trail: seq<Receipt>)
    requires Follow(net, train, Candidates(net, train), region, atMs, expected, visited).Ok?
    requires expected.Some? ==> expected.value.targetRegionId == region
    ensures var end := Follow(net, train, Candidates(net, train), region, atMs, expected, visited).value;
            ConfirmedTrail(net, train, region, atMs, trail, end) && IsEnd(net, train, end)
    ensures expected.Some? ==> Accepted(net, expected.value)
    ensures forall i :: 0 <= i < |trail| ==> trail[i].sourceRegionId !in visited
    ensures forall i, j :: 0 <= i < j < |trail| ==> trail[i].sourceRegionId != trail[j].sourceRegionId
    decreases |net.bindings| - |visited|
  {
    var candidates := Candidates(net, train);
    var visit := VisitRegion(net, train, candidates, region, atMs, expected);
    if visit.Onward? {
      var proof := visit.proof;
      OnwardIsReleased(net, train, candidates, region, atMs, expected, proof);
      var rest := FollowIsSound(net, train, proof.targetRegionId, proof.atMs, Some(proof), visited + {region});
      trail := [proof] + rest;
      assert trail[1..] == rest;
      forall i | 0 < i < |trail|
        ensures trail[i].sourceRegionId !in visited + {region}
      {
        assert trail[i] == rest[i - 1];
      }
    } else {
      trail := [];
    }
  }

  lemma DeparturesAre(world: World, train: Id, atMs: int)
    ensures forall e :: e in Departures(world, train, atMs) <==> e in world.finishedReceipts && Departs(e, train, atMs)
    ensures Sorted(Departures(world, train, atMs), LaterFirst)
  {
    var departing := Filter(world.finishedReceipts, (e: Entry) => Departs(e, train, atMs));
    FilterMembers(world.finishedReceipts, (e: Entry) => Departs(e, train, atMs));
    SortPermutes(departing, LaterFirst);
    SortSorted(departing, LaterFirst);
  }
}
