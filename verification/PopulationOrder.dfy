/** What the distribution of populations promises beyond conservation: larger weights never get less, and the order
    in which settlements and stations are listed does not matter. */
module PopulationOrder {
  import opened TextOrder
  import opened Sorting
  import opened Apportionment
  import opened PopulationDemand

  // ------------------------------------------------------------------ larger weights

  /** A station with a strictly larger weight never gets less of a settlement. */
  lemma LargerWeightGetsNoLess(s: Settlement, stations: seq<Station>, radius: nat, i: nat, j: nat)
    requires 0 <= s.population && Covered(s, stations, radius)
    requires i < |Candidates(s, stations, radius)| && j < |Candidates(s, stations, radius)|
    requires Candidates(s, stations, radius)[j].weight < Candidates(s, stations, radius)[i].weight
    ensures PartsOf(s, stations, radius)[j] <= PartsOf(s, stations, radius)[i]
  {
    var candidates := Candidates(s, stations, radius);
    CandidatesAre(s, stations, radius);
    WeightIsPositive(candidates);
    var total := TotalWeight(candidates);
    var shares := SharesOf(s.population, candidates, total);
    SharesAreExact(s.population, candidates);
    if s.population == 0 {
      NothingToShare(shares, candidates, total, i);
      NothingToShare(shares, candidates, total, j);
    } else {
      LargerShare(s.population, candidates[j].weight, candidates[i].weight, total);
      PartsAreMonotone(shares, s.population, i, j);
    }
  }

  lemma NothingToShare(shares: seq<Share>, candidates: seq<Candidate>, total: nat, i: nat)
    requires 0 < total && shares == SharesOf(0, candidates, total) && i < |shares| && Exact(shares, 0)
    ensures Dividable(shares, 0) && Parts(shares, 0)[i] == 0
  {
    assert 0 * candidates[i].weight == 0;
    PartsAreClose(shares, 0, i);
  }

  lemma LargerShare(population: nat, small: nat, large: nat, total: nat)
    requires 0 < population && 0 < total && small < large
    ensures (population * small / total) as real + (population * small % total) as real / total as real
            < (population * large / total) as real + (population * large % total) as real / total as real
  {
    DivideExactly(population * small, total);
    DivideExactly(population * large, total);
    assert population * small < population * large;
  }

  // ------------------------------------------------------------------ the order of the input

  ghost predicate DistinctCandidates(candidates: seq<Candidate>) {
    forall i, j :: 0 <= i < j < |candidates| ==> candidates[i].stationId != candidates[j].stationId
  }

  /** A station in reach, with the weight it gets. */
  ghost predicate IsCandidate(c: Candidate, s: Settlement, station: Station, radius: nat) {
    var d := DistanceMm(s, station);
    d <= radius && c == Candidate(station.id, if 1 < radius - d then radius - d else 1)
  }

  lemma FirstCandidate(s: Settlement, stations: seq<Station>, radius: nat, c: Candidate)
    requires stations != []
    ensures c in Candidates(s, stations, radius)
            <==> IsCandidate(c, s, stations[0], radius) || c in Candidates(s, stations[1..], radius)
  {
  }

  lemma {:induction false} CandidateMembers(s: Settlement, stations: seq<Station>, radius: nat, c: Candidate)
    ensures c in Candidates(s, stations, radius) <==> exists t :: t in stations && IsCandidate(c, s, t, radius)
  {
    if stations != [] {
      CandidateMembers(s, stations[1..], radius, c);
      FirstCandidate(s, stations, radius, c);
      if t :| t in stations && IsCandidate(c, s, t, radius) {
        assert t == stations[0] || t in stations[1..];
      }
      assert stations[0] in stations;
    }
  }

  lemma {:induction false} CandidatesAreDistinct(s: Settlement, stations: seq<Station>, radius: nat)
    requires DistinctStations(stations)
    ensures DistinctCandidates(Candidates(s, stations, radius))
  {
    if stations != [] {
      var rest := Candidates(s, stations[1..], radius);
      CandidatesAreDistinct(s, stations[1..], radius);
      forall j | 0 <= j < |rest|
        ensures rest[j].stationId != stations[0].id
      {
        CandidateMembers(s, stations[1..], radius, rest[j]);
        assert rest[j] in rest;
        var t :| t in stations[1..] && IsCandidate(rest[j], s, t, radius);
        var k :| 0 <= k < |stations[1..]| && stations[1..][k] == t;
        assert stations[k + 1] == t;
      }
    }
  }

  lemma SameCandidates(s: Settlement, stations: seq<Station>, other: seq<Station>, radius: nat)
    requires DistinctStations(stations) && DistinctStations(other) && multiset(stations) == multiset(other)
    ensures multiset(Candidates(s, stations, radius)) == multiset(Candidates(s, other, radius))
  {
    var a, b := Candidates(s, stations, radius), Candidates(s, other, radius);
    CandidatesAreDistinct(s, stations, radius);
    CandidatesAreDistinct(s, other, radius);
    SameMultiset(stations, other);
    forall c
      ensures c in a <==> c in b
    {
      CandidateMembers(s, stations, radius, c);
      CandidateMembers(s, other, radius, c);
    }
    SameElements(a, b);
  }

  lemma {:induction false} WeightsAdd(a: seq<Candidate>, b: seq<Candidate>)
    ensures TotalWeight(a + b) == TotalWeight(a) + TotalWeight(b)
  {
    if a == [] {
      assert a + b == b;
    } else {
      assert (a + b)[1..] == a[1..] + b;
      WeightsAdd(a[1..], b);
    }
  }

  function Without(candidates: seq<Candidate>, k: nat): seq<Candidate>
    requires k < |candidates|
  {
    candidates[..k] + candidates[k + 1..]
  }

  lemma TakeOut(candidates: seq<Candidate>, k: nat)
    requires k < |candidates|
    ensures multiset(Without(candidates, k)) == multiset(candidates) - multiset{candidates[k]}
    ensures TotalWeight(candidates) == candidates[k].weight + TotalWeight(Without(candidates, k))
  {
    var front, back := candidates[..k], candidates[k + 1..];
    assert candidates == front + ([candidates[k]] + back);
    WeightInFront(candidates[k], back);
    WeightsAdd(front, back);
    WeightsAdd(front, [candidates[k]] + back);
  }

  lemma WeightInFront(c: Candidate, candidates: seq<Candidate>)
    ensures TotalWeight([c] + candidates) == c.weight + TotalWeight(candidates)
  {
    assert ([c] + candidates)[1..] == candidates;
  }

  lemma {:induction false} SameWeight(a: seq<Candidate>, b: seq<Candidate>)
    requires multiset(a) == multiset(b)
    ensures TotalWeight(a) == TotalWeight(b)
    decreases |a|
  {
    SameMultiset(a, b);
    if a != [] {
      assert a[0] in a;
      var k :| 0 <= k < |b| && b[k] == a[0];
      TakeOut(a, 0);
      TakeOut(b, k);
      SameWeight(Without(a, 0), Without(b, k));
    }
  }

  lemma SameShares(population: nat, a: seq<Candidate>, b: seq<Candidate>, total: nat)
    requires 0 < total && multiset(a) == multiset(b) && DistinctCandidates(a) && DistinctCandidates(b)
    ensures multiset(SharesOf(population, a, total)) == multiset(SharesOf(population, b, total))
  {
    var x, y := SharesOf(population, a, total), SharesOf(population, b, total);
    SharesMatch(population, a, b, total);
    SharesMatch(population, b, a, total);
    SameElements(x, y);
  }

  lemma SharesMatch(population: nat, a: seq<Candidate>, b: seq<Candidate>, total: nat)
    requires 0 < total && multiset(a) == multiset(b) && DistinctCandidates(a)
    ensures Distinct(SharesOf(population, a, total))
    ensures forall share :: share in SharesOf(population, a, total) ==> share in SharesOf(population, b, total)
  {
    var x, y := SharesOf(population, a, total), SharesOf(population, b, total);
    SameMultiset(a, b);
    forall share | share in x
      ensures share in y
    {
      var i :| 0 <= i < |x| && x[i] == share;
      assert a[i] in a;
      var k :| 0 <= k < |b| && b[k] == a[i];
      assert y[k] == share;
    }
  }

  /** A candidate gets the same part wherever the stations stand in the list. */
  lemma SamePart(s: Settlement, stations: seq<Station>, other: seq<Station>, radius: nat, i: nat, j: nat)
    requires DistinctStations(stations) && DistinctStations(other) && multiset(stations) == multiset(other)
    requires 0 <= s.population && Covered(s, stations, radius) && Covered(s, other, radius)
    requires i < |Candidates(s, stations, radius)| && j < |Candidates(s, other, radius)|
    requires Candidates(s, stations, radius)[i] == Candidates(s, other, radius)[j]
    ensures PartsOf(s, stations, radius)[i] == PartsOf(s, other, radius)[j]
  {
    var a, b := Candidates(s, stations, radius), Candidates(s, other, radius);
    SameCandidates(s, stations, other, radius);
    SameWeight(a, b);
    CandidatesAre(s, stations, radius);
    WeightIsPositive(a);
    CandidatesAreDistinct(s, stations, radius);
    CandidatesAreDistinct(s, other, radius);
    SharesAreExact(s.population, a);
    SharesAreExact(s.population, b);
    SameShares(s.population, a, b, TotalWeight(a));
    PartsAreOrderBlind(SharesOf(s.population, a, TotalWeight(a)), SharesOf(s.population, b, TotalWeight(b)),
                       s.population, i, j);
  }

  lemma {:induction false} GiveElsewhere(allocations: map<Text, seq<Allocation>>, id: Text, candidates: seq<Candidate>,
                                         parts: seq<nat>, key: Text)
    requires |parts| == |candidates| && (forall c :: c in candidates ==> c.stationId in allocations)
    requires key in allocations && forall c :: c in candidates ==> c.stationId != key
    ensures Give(allocations, id, candidates, parts)[key] == allocations[key]
    decreases |candidates|
  {
    if candidates != [] {
      var station := candidates[0].stationId;
      assert candidates[0] in candidates;
      GiveElsewhere(allocations[station := allocations[station] + [Allocation(id, parts[0])]], id, candidates[1..],
                    parts[1..], key);
    }
  }

  lemma {:induction false} GiveAt(allocations: map<Text, seq<Allocation>>, id: Text, candidates: seq<Candidate>,
                                  parts: seq<nat>, k: nat)
    requires |parts| == |candidates| && (forall c :: c in candidates ==> c.stationId in allocations)
    requires DistinctCandidates(candidates) && k < |candidates|
    ensures candidates[k] in candidates
    ensures Give(allocations, id, candidates, parts)[candidates[k].stationId]
            == allocations[candidates[k].stationId] + [Allocation(id, parts[k])]
    decreases |candidates|
  {
    var station := candidates[0].stationId;
    assert candidates[0] in candidates;
    var more := allocations[station := allocations[station] + [Allocation(id, parts[0])]];
    if k == 0 {
      GiveElsewhere(more, id, candidates[1..], parts[1..], station);
    } else {
      GiveAt(more, id, candidates[1..], parts[1..], k - 1);
    }
  }

  lemma SameGiven(allocations: map<Text, seq<Allocation>>, s: Settlement, stations: seq<Station>, other: seq<Station>,
                  radius: nat, key: Text)
    requires Covers(allocations, stations) && Covers(allocations, other) && key in allocations
    requires DistinctStations(stations) && DistinctStations(other) && multiset(stations) == multiset(other)
    requires 0 <= s.population && Covered(s, stations, radius) && Covered(s, other, radius)
    ensures (forall c :: c in Candidates(s, stations, radius) ==> c.stationId in allocations)
            && (forall c :: c in Candidates(s, other, radius) ==> c.stationId in allocations)
    ensures Give(allocations, s.id, Candidates(s, stations, radius), PartsOf(s, stations, radius))[key]
            == Give(allocations, s.id, Candidates(s, other, radius), PartsOf(s, other, radius))[key]
  {
    var a, b := Candidates(s, stations, radius), Candidates(s, other, radius);
    CandidatesAre(s, stations, radius);
    CandidatesAre(s, other, radius);
    SameCandidates(s, stations, other, radius);
    SameMultiset(a, b);
    if i :| 0 <= i < |a| && a[i].stationId == key {
      assert a[i] in a;
      var j :| 0 <= j < |b| && b[j] == a[i];
      CandidatesAreDistinct(s, stations, radius);
      CandidatesAreDistinct(s, other, radius);
      GiveAt(allocations, s.id, a, PartsOf(s, stations, radius), i);
      GiveAt(allocations, s.id, b, PartsOf(s, other, radius), j);
      SamePart(s, stations, other, radius, i, j);
    } else {
      GiveElsewhere(allocations, s.id, a, PartsOf(s, stations, radius), key);
      GiveElsewhere(allocations, s.id, b, PartsOf(s, other, radius), key);
    }
  }

  lemma SameStep(done: Allocated, s: Settlement, stations: seq<Station>, other: seq<Station>, radius: nat)
    requires Covers(done.allocations, stations) && Covers(done.allocations, other) && 0 <= s.population
    requires DistinctStations(stations) && DistinctStations(other) && multiset(stations) == multiset(other)
    ensures DistributeOne(done, s, stations, radius) == DistributeOne(done, s, other, radius)
  {
    SameCandidates(s, stations, other, radius);
    SameMultiset(Candidates(s, stations, radius), Candidates(s, other, radius));
    if Covered(s, stations, radius) {
      forall key | key in done.allocations
        ensures DistributeOne(done, s, stations, radius).allocations[key]
                == DistributeOne(done, s, other, radius).allocations[key]
      {
        SameGiven(done.allocations, s, stations, other, radius, key);
      }
    }
  }

  lemma {:induction false} SameDistribution(done: Allocated, settlements: seq<Settlement>, stations: seq<Station>,
                                            other: seq<Station>, radius: nat)
    requires Covers(done.allocations, stations) && Covers(done.allocations, other)
             && forall s :: s in settlements ==> 0 <= s.population
    requires DistinctStations(stations) && DistinctStations(other) && multiset(stations) == multiset(other)
    ensures Distributed(done, settlements, stations, radius) == Distributed(done, settlements, other, radius)
    decreases |settlements|
  {
    if settlements != [] {
      SameStep(done, settlements[0], stations, other, radius);
      SameDistribution(DistributeOne(done, settlements[0], stations, radius), settlements[1..], stations, other,
                       radius);
    }
  }

  ghost predicate DistinctSettlements(settlements: seq<Settlement>) {
    forall a, b :: a in settlements && b in settlements && a.id == b.id ==> a == b
  }

  lemma SameOrderOfSettlements(settlements: seq<Settlement>, other: seq<Settlement>)
    requires multiset(settlements) == multiset(other) && DistinctSettlements(settlements)
    ensures Sort(settlements, ById) == Sort(other, ById)
  {
    forall a: Settlement, b: Settlement
      ensures ById(a, b) || ById(b, a)
    {
      LessTotal(a.id, b.id);
    }
    forall a: Settlement, b: Settlement, c: Settlement | ById(a, b) && ById(b, c)
      ensures ById(a, c)
    {
      if a.id != b.id && b.id != c.id {
        LessTransitive(a.id, b.id, c.id);
      }
    }
    forall a, b | a in settlements && b in settlements && ById(a, b) && ById(b, a)
      ensures a == b
    {
      if a.id != b.id {
        LessAsymmetric(a.id, b.id);
      }
    }
    SortOrderBlind(settlements, other, ById);
  }

  /** The tool's result does not depend on the order in which settlements and stations are listed. */
  lemma AllocationIsOrderBlind(settlements: seq<Settlement>, stations: seq<Station>, others: seq<Settlement>,
                               other: seq<Station>, radius: nat)
    requires InBounds(settlements, radius) && DistinctSettlements(settlements)
             && multiset(settlements) == multiset(others)
    requires DistinctStations(stations) && DistinctStations(other) && multiset(stations) == multiset(other)
    ensures (forall s :: s in Sort(settlements, ById) ==> 0 <= s.population)
            && (forall s :: s in Sort(others, ById) ==> 0 <= s.population)
    ensures Covers(NoAllocations(stations), stations) && Covers(NoAllocations(other), other)
    ensures Distributed(Allocated(NoAllocations(stations), [], []), Sort(settlements, ById), stations, radius)
            == Distributed(Allocated(NoAllocations(other), [], []), Sort(others, ById), other, radius)
  {
    SortPermutes(settlements, ById);
    SameOrderOfSettlements(settlements, others);
    SameMultiset(stations, other);
    assert NoAllocations(stations) == NoAllocations(other);
    SameDistribution(Allocated(NoAllocations(stations), [], []), Sort(settlements, ById), stations, other, radius);
  }
}
