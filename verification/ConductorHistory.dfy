/** Handover histories, and what the conductor's search finds when the regions record one. */
module ConductorHistory {
  import opened Outcomes
  import opened Sorting
  import opened ConductorContext

  datatype Story = Story(regions: seq<Id>, hops: seq<Receipt>)

  /** The regions a train was in, one after the other, and the handovers between them. */
  type History = h: Story | |h.regions| == |h.hops| + 1 witness Story([""], [])

  function Final(h: History): Id {
    h.regions[|h.hops|]
  }

  /** The hop by which the train last left `region`, searched among the first `n` hops; -1 for none. */
  function LastDepartureBefore(h: History, region: Id, n: nat): (last: int)
    requires n <= |h.hops|
    ensures -1 <= last < n
    ensures 0 <= last ==> h.regions[last] == region
  {
    if n == 0 then -1
    else if h.regions[n - 1] == region then n - 1
    else LastDepartureBefore(h, region, n - 1)
  }

  function LastDeparture(h: History, region: Id): (last: int)
    ensures -1 <= last < |h.hops|
  {
    LastDepartureBefore(h, region, |h.hops|)
  }

  ghost predicate WellTimed(h: History, worldId: Id, train: Id) {
    && (forall i, j :: 0 <= i < j < |h.hops| ==> h.hops[i].atMs < h.hops[j].atMs)
    && (forall i {:trigger h.hops[i]} :: 0 <= i < |h.hops| ==>
          && h.hops[i].sourceRegionId == h.regions[i] && h.hops[i].targetRegionId == h.regions[i + 1]
          && h.hops[i].worldId == worldId && h.hops[i].trainRunId == train)
  }

  /** `world` offers exactly the departures that the history has from `region`, each recorded as finished. */
  ghost predicate DeparturesRecorded(world: World, h: History, train: Id, region: Id) {
    && (forall e :: e in world.finishedReceipts && e.value.trainRunId == train ==>
          e.value in h.hops && e.value.sourceRegionId == region && e.id == e.value.handoverId)
    && (forall i, j :: 0 <= i < j < |world.finishedReceipts|
          ==> world.finishedReceipts[i].id != world.finishedReceipts[j].id)
    && (forall i :: 0 <= i < |h.hops| && h.hops[i].sourceRegionId == region ==> DepartureRecorded(world, h.hops[i]))
    && (forall id :: id in world.finishedHandovers ==> HasReceipt(world, id))
  }

  ghost predicate DepartureRecorded(world: World, hop: Receipt) {
    && Entry(hop.handoverId, hop) in world.finishedReceipts
    && hop.handoverId in world.finishedHandovers && world.finishedHandovers[hop.handoverId] == hop.payloadHash
    && hop.atMs <= world.nowMs
  }

  ghost predicate ArrivalRecorded(world: World, hop: Receipt) {
    && hop.handoverId in world.acceptedHandovers && world.acceptedHandovers[hop.handoverId] == hop.payloadHash
    && hop.atMs <= world.nowMs
  }

  /** `region` is bound and restored, and records its part of the history. */
  ghost predicate Records(net: Network, h: History, train: Id, present: bool, region: Id) {
    && ConfirmedWorld(net, region).Some?
    && var world := ConfirmedWorld(net, region).value;
    && train !in world.preparedTrains
    && (train in world.trains <==> present && region == Final(h))
    && DeparturesRecorded(world, h, train, region)
    && (forall i :: 0 <= i < |h.hops| && h.hops[i].targetRegionId == region ==> ArrivalRecorded(world, h.hops[i]))
  }

  /** The committed regions of `net` tell exactly the story `h`. If `present`, its last region holds
      the train; otherwise the train has left the simulation there. */
  ghost predicate Tells(net: Network, h: History, train: Id, present: bool) {
    && UsableBindings(net)
    && WellTimed(h, net.worldId, train)
    && Candidates(net, train) == (if present then {Final(h)} else {})
    && (forall r :: r in h.regions ==> Records(net, h, train, present, r))
  }

  // ------------------------------------------------------------------ last departures

  lemma {:induction false} NoLaterDeparture(h: History, region: Id, n: nat, i: nat)
    requires n <= |h.hops| && LastDepartureBefore(h, region, n) < i < n
    ensures h.regions[i] != region
  {
    if h.regions[n - 1] != region && i != n - 1 {
      NoLaterDeparture(h, region, n - 1, i);
    }
  }

  /** A region the history has left for good is the one it ends in. */
  lemma LeftForGood(h: History, i: nat)
    requires i <= |h.hops| && LastDeparture(h, h.regions[i]) < i
    ensures i == |h.hops|
  {
    if i < |h.hops| {
      NoLaterDeparture(h, h.regions[i], |h.hops|, i);
    }
  }

  /** Does the history leave `region` at or after `atMs`? */
  predicate LeavesAfter(h: History, region: Id, atMs: int) {
    var last := LastDeparture(h, region);
    0 <= last && atMs <= h.hops[last].atMs
  }

  /** Every receipt the region offers is a hop from it, no later than its last departure; only the
      last departure itself has that departure's time. */
  lemma DepartureIsHop(world: World, h: History, worldId: Id, train: Id, region: Id, e: Entry)
    requires WellTimed(h, worldId, train) && DeparturesRecorded(world, h, train, region)
    requires e in world.finishedReceipts && e.value.trainRunId == train
    ensures var last := LastDeparture(h, region);
            && 0 <= last < |h.hops| && e.id == e.value.handoverId && e.value.atMs <= h.hops[last].atMs
            && (e.value.atMs == h.hops[last].atMs ==> e.value == h.hops[last])
  {
    var i :| 0 <= i < |h.hops| && h.hops[i] == e.value;
    if LastDeparture(h, region) < i {
      NoLaterDeparture(h, region, |h.hops|, i);
    }
  }

  /** The latest receipt a region offers is its last departure, and no other receipt shares its time. */
  lemma LatestIsLastDeparture(world: World, h: History, worldId: Id, train: Id, region: Id, atMs: int)
    requires WellTimed(h, worldId, train) && DeparturesRecorded(world, h, train, region)
    ensures var receipts := Departures(world, train, atMs);
            if LeavesAfter(h, region, atMs) then
              && receipts != []
              && receipts[0].id == receipts[0].value.handoverId && receipts[0].value == h.hops[LastDeparture(h, region)]
              && (|receipts| == 1 || receipts[1].value.atMs != receipts[0].value.atMs)
            else receipts == []
  {
    var receipts := Departures(world, train, atMs);
    var last := LastDeparture(h, region);
    DeparturesAre(world, train, atMs);
    forall e | e in receipts
      ensures e.id == e.value.handoverId && 0 <= last < |h.hops| && atMs <= e.value.atMs <= h.hops[last].atMs
      ensures e.value.atMs == h.hops[last].atMs ==> e.value == h.hops[last]
    {
      DepartureIsHop(world, h, worldId, train, region, e);
    }
    assert receipts != [] ==> receipts[0] in receipts;
    if LeavesAfter(h, region, atMs) {
      assert DepartureRecorded(world, h.hops[last]);
      assert Entry(h.hops[last].handoverId, h.hops[last]) in receipts;
      FirstIsLatest(receipts, Entry(h.hops[last].handoverId, h.hops[last]));
      DeparturesDistinct(world, train, atMs);
      assert |receipts| == 1 || receipts[1] in receipts;
    }
  }

  lemma FirstIsLatest(receipts: seq<Entry>, e: Entry)
    requires Sorted(receipts, LaterFirst) && e in receipts
    ensures e.value.atMs <= receipts[0].value.atMs
  {
    var k :| 0 <= k < |receipts| && receipts[k] == e;
    assert 0 < k ==> LaterFirst(receipts[0], receipts[k]);
  }

  lemma DeparturesDistinct(world: World, train: Id, atMs: int)
    requires forall i, j :: 0 <= i < j < |world.finishedReceipts|
               ==> world.finishedReceipts[i].id != world.finishedReceipts[j].id
    ensures var receipts := Departures(world, train, atMs);
            forall i, j :: 0 <= i < j < |receipts| ==> receipts[i] != receipts[j]
  {
    var departing := Filter(world.finishedReceipts, (e: Entry) => Departs(e, train, atMs));
    FilterDistinct(world.finishedReceipts, (e: Entry) => Departs(e, train, atMs));
    SortDistinct(departing, LaterFirst);
  }

  // ------------------------------------------------------------------ the search along a history

  /** The regions the search leaves once it stands in `region` after `i` handovers: from each it takes
      the last departure, if that is not behind it. */
  function Chase(h: History, region: Id, i: nat): seq<Id>
    requires i <= |h.hops|
    decreases |h.hops| - i
  {
    var last := LastDeparture(h, region);
    if last < i then [] else [region] + Chase(h, h.hops[last].targetRegionId, last + 1)
  }

  lemma {:induction false} FoundIsBound(bindings: seq<Binding>, region: Id)
    ensures FindBinding(bindings, region).Some? ==>
              FindBinding(bindings, region).value in bindings && FindBinding(bindings, region).value.regionId == region
  {
    if bindings != [] {
      FoundIsBound(bindings[1..], region);
    }
  }

  lemma {:induction false} FewRegions(bindings: seq<Binding>)
    ensures |set b | b in bindings :: b.regionId| <= |bindings|
  {
    if bindings != [] {
      FewRegions(bindings[1..]);
      assert (set b | b in bindings :: b.regionId) == {bindings[0].regionId} + set b | b in bindings[1..] :: b.regionId;
    }
  }

  /** A bound region outside `visited` leaves room for one more visit. */
  lemma RoomToVisit(net: Network, region: Id, visited: set<Id>)
    requires ConfirmedWorld(net, region).Some? && region !in visited && visited <= BoundRegions(net)
    ensures visited + {region} <= BoundRegions(net) && |visited| < |net.bindings|
  {
    FoundIsBound(net.bindings, region);
    FewRegions(net.bindings);
    Cardinality(visited + {region}, BoundRegions(net));
  }

  lemma {:induction false} Cardinality<T>(a: set<T>, b: set<T>)
    requires a <= b
    ensures |a| <= |b|
  {
    if a != {} {
      var x :| x in a;
      Cardinality(a - {x}, b - {x});
    }
  }

  /** One turn of the search, read off the history. */
  lemma VisitAlong(net: Network, h: History, train: Id, present: bool, i: nat, atMs: int, expected: Option<Receipt>)
    requires Tells(net, h, train, present) && i <= |h.hops|
    requires ArrivedBy(net, h.regions[i], atMs, expected)
    ensures var region := h.regions[i];
            var visit := VisitRegion(net, train, Candidates(net, train), region, atMs, expected);
            if present && region == Final(h) then visit == Here
            else if LeavesAfter(h, region, atMs) then visit == Onward(h.hops[LastDeparture(h, region)])
            else present || visit == Here
  {
    var region := h.regions[i];
    var last := LastDeparture(h, region);
    assert Records(net, h, train, present, region);
    LatestIsLastDeparture(ConfirmedWorld(net, region).value, h, net.worldId, train, region, atMs);
    if LeavesAfter(h, region, atMs) {
      assert h.hops[last].targetRegionId == h.regions[last + 1];
      assert Records(net, h, train, present, h.regions[last + 1]);
      assert DepartureRecorded(ConfirmedWorld(net, region).value, h.hops[last]);
    }
  }

  /** The region is confirmed beyond `atMs` and has accepted the receipt that led to it. */
  ghost predicate ArrivedBy(net: Network, region: Id, atMs: int, expected: Option<Receipt>) {
    && ConfirmedWorld(net, region).Some? && atMs <= ConfirmedWorld(net, region).value.nowMs
    && (expected.Some? ==> expected.value.targetRegionId == region && Accepted(net, expected.value))
  }

  lemma HopArrives(net: Network, h: History, train: Id, present: bool, k: nat)
    requires Tells(net, h, train, present) && k < |h.hops|
    ensures h.hops[k].targetRegionId == h.regions[k + 1]
    ensures ArrivedBy(net, h.regions[k + 1], h.hops[k].atMs, Some(h.hops[k]))
  {
    assert Records(net, h, train, present, h.regions[k + 1]);
    assert ArrivalRecorded(ConfirmedWorld(net, h.regions[k + 1]).value, h.hops[k]);
  }

  /** What the search reports from a position, given what it still has to leave. */
  function Outcome(h: History, present: bool, i: nat, visited: set<Id>): Result<Id, Failure>
    requires i <= |h.hops|
  {
    if Final(h) in visited || (!present && Final(h) in Chase(h, h.regions[i], i)) then Err(HandoverUnconfirmed)
    else Ok(Final(h))
  }

  lemma OutcomeStep(h: History, worldId: Id, train: Id, present: bool, i: nat, visited: set<Id>)
    requires WellTimed(h, worldId, train)
    requires i <= |h.hops| && i <= LastDeparture(h, h.regions[i]) && !(present && h.regions[i] == Final(h))
    ensures Outcome(h, present, i, visited) ==
            Outcome(h, present, LastDeparture(h, h.regions[i]) + 1, visited + {h.regions[i]})
  {
    var last := LastDeparture(h, h.regions[i]);
    assert h.hops[last].targetRegionId == h.regions[last + 1];
    assert Chase(h, h.regions[i], i) == [h.regions[i]] + Chase(h, h.regions[last + 1], last + 1);
  }

  /** After hop `k`, a region is left again at or after its time just if it is left by a later hop. */
  lemma LeavesLater(h: History, worldId: Id, train: Id, k: nat)
    requires WellTimed(h, worldId, train) && k < |h.hops|
    ensures forall r :: r != h.hops[k].sourceRegionId
              ==> (LeavesAfter(h, r, h.hops[k].atMs) <==> k + 1 <= LastDeparture(h, r))
  {
    forall r | r != h.hops[k].sourceRegionId
      ensures LeavesAfter(h, r, h.hops[k].atMs) <==> k + 1 <= LastDeparture(h, r)
    {
      assert h.hops[k].sourceRegionId == h.regions[k];
    }
  }

  /** The search stands where the history stood after `i` handovers, and every region left behind was
      departed for good before that. */
  ghost predicate Position(net: Network, h: History, present: bool, i: nat, atMs: int, expected: Option<Receipt>,
                           visited: set<Id>) {
    && i <= |h.hops|
    && ArrivedBy(net, h.regions[i], atMs, expected)
    && visited <= BoundRegions(net)
    && (forall v :: v in visited ==> LastDeparture(h, v) < i)
    && (h.regions[i] !in visited && !(present && h.regions[i] == Final(h)) ==>
          (LeavesAfter(h, h.regions[i], atMs) <==> i <= LastDeparture(h, h.regions[i])))
  }

  lemma NextPosition(net: Network, h: History, train: Id, present: bool, i: nat, atMs: int, expected: Option<Receipt>,
                     visited: set<Id>)
    requires Tells(net, h, train, present) && Position(net, h, present, i, atMs, expected, visited)
    requires h.regions[i] !in visited && i <= LastDeparture(h, h.regions[i])
    ensures var last := LastDeparture(h, h.regions[i]);
            Position(net, h, present, last + 1, h.hops[last].atMs, Some(h.hops[last]), visited + {h.regions[i]})
  {
    var last := LastDeparture(h, h.regions[i]);
    RoomToVisit(net, h.regions[i], visited);
    HopArrives(net, h, train, present, last);
    LeavesLater(h, net.worldId, train, last);
  }

  /** One turn from a position: the search stops at the end of the history, or takes the last departure. */
  lemma Turn(net: Network, h: History, train: Id, present: bool, i: nat, atMs: int, expected: Option<Receipt>,
             visited: set<Id>)
    requires Tells(net, h, train, present) && Position(net, h, present, i, atMs, expected, visited)
             && h.regions[i] !in visited
    ensures |visited| < |net.bindings|
    ensures VisitRegion(net, train, Candidates(net, train), h.regions[i], atMs, expected) == Move(h, present, i)
    ensures Move(h, present, i) == Here ==> h.regions[i] == Final(h) && (present || LastDeparture(h, h.regions[i]) < i)
  {
    RoomToVisit(net, h.regions[i], visited);
    VisitAlong(net, h, train, present, i, atMs, expected);
    if LastDeparture(h, h.regions[i]) < i {
      LeftForGood(h, i);
    }
  }

  function Move(h: History, present: bool, i: nat): Visit
    requires i <= |h.hops|
  {
    var last := LastDeparture(h, h.regions[i]);
    if (present && h.regions[i] == Final(h)) || last < i then Here else Onward(h.hops[last])
  }

  lemma FollowTurn(net: Network, train: Id, candidates: set<Id>, region: Id, atMs: int, expected: Option<Receipt>,
                   visited: set<Id>, visit: Visit)
    requires region !in visited && |visited| < |net.bindings|
    requires VisitRegion(net, train, candidates, region, atMs, expected) == visit
    ensures visit == Here ==> Follow(net, train, candidates, region, atMs, expected, visited) == Ok(region)
    ensures visit.Onward? ==>
              Follow(net, train, candidates, region, atMs, expected, visited) ==
              Follow(net, train, candidates, visit.proof.targetRegionId, visit.proof.atMs, Some(visit.proof),
                     visited + {region})
  {
  }

  /** From any position the search ends where the history ends, unless it has to come back to a region
      it has already left. */
  lemma {:induction false} FollowAlong(net: Network, h: History, train: Id, present: bool, i: nat, atMs: int,
                                       expected: Option<Receipt>, visited: set<Id>)
    requires Tells(net, h, train, present) && Position(net, h, present, i, atMs, expected, visited)
    ensures Follow(net, train, Candidates(net, train), h.regions[i], atMs, expected, visited)
            == Outcome(h, present, i, visited)
    decreases |h.hops| - i
  {
    var region := h.regions[i];
    if region in visited {
      LeftForGood(h, i);
    } else if Move(h, present, i).Onward? {
      var last := LastDeparture(h, region);
      FollowOnward(net, h, train, present, i, atMs, expected, visited);
      NextPosition(net, h, train, present, i, atMs, expected, visited);
      FollowAlong(net, h, train, present, last + 1, h.hops[last].atMs, Some(h.hops[last]), visited + {region});
      OutcomeStep(h, net.worldId, train, present, i, visited);
    } else {
      Turn(net, h, train, present, i, atMs, expected, visited);
      FollowTurn(net, train, Candidates(net, train), region, atMs, expected, visited, Here);
    }
  }

  lemma FollowOnward(net: Network, h: History, train: Id, present: bool, i: nat, atMs: int, expected: Option<Receipt>,
                     visited: set<Id>)
    requires Tells(net, h, train, present) && Position(net, h, present, i, atMs, expected, visited)
    requires h.regions[i] !in visited && Move(h, present, i).Onward?
    ensures var last := LastDeparture(h, h.regions[i]);
      Follow(net, train, Candidates(net, train), h.regions[i], atMs, expected, visited)
      == Follow(net, train, Candidates(net, train), h.regions[last + 1], h.hops[last].atMs, Some(h.hops[last]),
                visited + {h.regions[i]})
  {
    Turn(net, h, train, present, i, atMs, expected, visited);
    FollowTurn(net, train, Candidates(net, train), h.regions[i], atMs, expected, visited, Move(h, present, i));
    HopArrives(net, h, train, present, LastDeparture(h, h.regions[i]));
  }

  /** A present train is found from any region of its history, whatever regions the history revisits,
      as long as the search starts no later than the train last left that region. */
  lemma PresentTrainIsFound(net: Network, h: History, train: Id, region: Id, atMs: int)
    requires Tells(net, h, train, true) && region in h.regions
    requires ArrivedBy(net, region, atMs, None)
    requires region != Final(h) ==> LeavesAfter(h, region, atMs)
    ensures Follow(net, train, Candidates(net, train), region, atMs, None, {}) == Ok(Final(h))
  {
    var i := if region == Final(h) then |h.hops| else LastDeparture(h, region);
    FollowAlong(net, h, train, true, i, atMs, None, {});
  }

  /** A train that has left the simulation is traced to its last region exactly when the search does
      not leave that region on the way. */
  lemma VanishedTrainIsTraced(net: Network, h: History, train: Id, region: Id, atMs: int)
    requires Tells(net, h, train, false) && region in h.regions
    requires ArrivedBy(net, region, atMs, None)
    requires region != Final(h) ==> LeavesAfter(h, region, atMs)
    ensures Follow(net, train, {}, region, atMs, None, {}) ==
            if LeavesAfter(h, region, atMs) && Final(h) in Chase(h, region, 0) then Err(HandoverUnconfirmed)
            else Ok(Final(h))
  {
    var i := if LeavesAfter(h, region, atMs) then LastDeparture(h, region) else |h.hops|;
    FollowAlong(net, h, train, false, i, atMs, None, {});
  }

  // ------------------------------------------------------------------ a vanished train that came back

  const OUT := Receipt("out", "world", "train", "a", "b", "p", 1)
  const BACK := Receipt("back", "world", "train", "b", "a", "q", 2)

  function RoundTrip(): History {
    Story(["a", "b", "a"], [OUT, BACK])
  }

  function RoundTripWorld(region: Id): World {
    if region == "a" then World("world", "a", 2, {}, {}, map["back" := "q"], map["out" := "p"], [Entry("out", OUT)])
    else World("world", "b", 2, {}, {}, map["out" := "p"], map["back" := "q"], [Entry("back", BACK)])
  }

  function RoundTripNetwork(): Network {
    Network("world", [Binding("a", "pin"), Binding("b", "pin")],
            map["a" := Head("pin", "state", 1, 1, RoundTripWorld("a")),
                "b" := Head("pin", "state", 1, 1, RoundTripWorld("b"))],
            (w: World, pin: Id) => Some(Restored(pin, "state", 1, 1, w)))
  }

  lemma RoundTripIsConfirmed()
    ensures ConfirmedWorld(RoundTripNetwork(), "a") == Some(RoundTripWorld("a"))
    ensures ConfirmedWorld(RoundTripNetwork(), "b") == Some(RoundTripWorld("b"))
  {
    var net := RoundTripNetwork();
    assert net.bindings[1..] == [Binding("b", "pin")];
    assert FindBinding(net.bindings, "a") == Some(Binding("a", "pin"));
    assert FindBinding(net.bindings, "b") == FindBinding(net.bindings[1..], "b") == Some(Binding("b", "pin"));
  }

  lemma RoundTripIsRecorded()
    ensures DeparturesRecorded(RoundTripWorld("a"), RoundTrip(), "train", "a")
    ensures DeparturesRecorded(RoundTripWorld("b"), RoundTrip(), "train", "b")
  {
    assert RoundTrip().hops[0] == OUT && RoundTrip().hops[1] == BACK;
    assert RoundTripWorld("a").finishedReceipts[0] == Entry("out", OUT);
    assert RoundTripWorld("b").finishedReceipts[0] == Entry("back", BACK);
    assert HasReceipt(RoundTripWorld("a"), "out") && HasReceipt(RoundTripWorld("b"), "back");
  }

  lemma RoundTripRegionRecords(region: Id)
    requires region == "a" || region == "b"
    ensures Records(RoundTripNetwork(), RoundTrip(), "train", false, region)
  {
    RoundTripIsConfirmed();
    RoundTripIsRecorded();
    assert RoundTrip().hops[0] == OUT && RoundTrip().hops[1] == BACK;
    assert ArrivalRecorded(RoundTripWorld("b"), OUT) && ArrivalRecorded(RoundTripWorld("a"), BACK);
  }

  lemma RoundTripIsTimed()
    ensures WellTimed(RoundTrip(), "world", "train")
  {
    assert RoundTrip().hops[0] == OUT && RoundTrip().hops[1] == BACK;
  }

  lemma RoundTripIsTold()
    ensures Tells(RoundTripNetwork(), RoundTrip(), "train", false)
  {
    RoundTripIsTimed();
    RoundTripRegionRecords("a");
    RoundTripRegionRecords("b");
  }

  /** A train that went from a to b, came back to a and ended there is not traced from its beginning,
      although both handovers are confirmed; from a time after its last departure from a it is. */
  lemma RoundTripIsNotTraced()
    ensures Follow(RoundTripNetwork(), "train", {}, "a", 0, None, {}) == Err(HandoverUnconfirmed)
    ensures Follow(RoundTripNetwork(), "train", {}, "a", 2, None, {}) == Ok("a")
  {
    var h := RoundTrip();
    RoundTripIsTold();
    RoundTripIsConfirmed();
    assert LastDeparture(h, "a") == 0 by {
      assert LastDepartureBefore(h, "a", 2) == LastDepartureBefore(h, "a", 1) == 0;
    }
    assert Chase(h, "a", 0)[0] == "a";
    VanishedTrainIsTraced(RoundTripNetwork(), h, "train", "a", 0);
    VanishedTrainIsTraced(RoundTripNetwork(), h, "train", "a", 2);
  }
}
