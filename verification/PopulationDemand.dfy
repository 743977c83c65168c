/** Distribution of settlement populations over the stations in reach (allocate_population and
    distance_mm in tools/population-demand/build_population_demand.py). */
module PopulationDemand {
  import opened Outcomes
  import opened TextOrder
  import opened Sorting
  import opened Apportionment

  datatype Station = Station(id: Text, latitudeE7: int, longitudeE7: int)

  datatype Settlement = Settlement(id: Text, population: int, latitudeE7: int, longitudeE7: int)

  datatype Allocation = Allocation(settlementId: Text, population: nat)

  datatype Candidate = Candidate(stationId: Text, weight: nat)

  datatype Allocated = Allocated(allocations: map<Text, seq<Allocation>>, included: seq<Settlement>,
                                 excluded: seq<Settlement>)

  const MAX_U32 := 0xFFFF_FFFF
  const MAX_RADIUS := 100_000_000

  // ------------------------------------------------------------------ distance

  function Isqrt(n: nat): (r: nat)
    ensures r * r <= n < (r + 1) * (r + 1)
  {
    if n == 0 then 0
    else
      var r := Isqrt(n - 1);
      if (r + 1) * (r + 1) <= n then r + 1 else r
  }

  function Abs(i: int): nat {
    if i < 0 then -i else i
  }

  function SquaredDistance(s: Settlement, station: Station): nat {
    var dy := Abs(s.latitudeE7 - station.latitudeE7) * 11132 / 1000;
    var dx := Abs(s.longitudeE7 - station.longitudeE7) * 7000 / 1000;
    dx * dx + dy * dy
  }

  function DistanceMm(s: Settlement, station: Station): nat {
    Isqrt(SquaredDistance(s, station))
  }

  /** Rounding the root down moves the edge of the catchment to just below the next millimetre. */
  lemma InReach(s: Settlement, station: Station, radius: nat)
    ensures DistanceMm(s, station) <= radius <==> SquaredDistance(s, station) < (radius + 1) * (radius + 1)
  {
    var d, n := DistanceMm(s, station), SquaredDistance(s, station);
    if d <= radius {
      SquaresGrow(d + 1, radius + 1);
    } else {
      SquaresGrow(radius + 1, d);
    }
  }

  lemma SquaresGrow(a: nat, b: nat)
    requires a <= b
    ensures a * a <= b * b
  {
    assert a * a <= a * b <= b * b;
  }

  // ------------------------------------------------------------------ one settlement

  /** The stations within the radius, each with its weight. */
  function Candidates(s: Settlement, stations: seq<Station>, radius: nat): seq<Candidate> {
    if stations == [] then []
    else
      var d := DistanceMm(s, stations[0]);
      var rest := Candidates(s, stations[1..], radius);
      if d <= radius then [Candidate(stations[0].id, if 1 < radius - d then radius - d else 1)] + rest else rest
  }

  lemma {:induction false} CandidatesAre(s: Settlement, stations: seq<Station>, radius: nat)
    ensures forall c :: c in Candidates(s, stations, radius)
              ==> 1 <= c.weight && exists t :: t in stations && t.id == c.stationId
    ensures Candidates(s, stations, radius) == [] <==> forall t :: t in stations ==> radius < DistanceMm(s, t)
  {
    if stations != [] {
      CandidatesAre(s, stations[1..], radius);
      assert forall t :: t in stations <==> t == stations[0] || t in stations[1..];
      assert stations[0] in stations;
    }
  }

  function TotalWeight(candidates: seq<Candidate>): nat {
    if candidates == [] then 0 else candidates[0].weight + TotalWeight(candidates[1..])
  }

  /** The exact shares of a population, divided by weight. */
  function SharesOf(population: nat, candidates: seq<Candidate>, total: nat): (shares: seq<Share>)
    requires 0 < total
    ensures |shares| == |candidates|
    ensures forall i :: 0 <= i < |shares| ==>
              shares[i] == Share(candidates[i].stationId, population * candidates[i].weight / total,
                                 (population * candidates[i].weight % total) as real / total as real)
  {
    seq(|candidates|, i requires 0 <= i < |candidates| =>
      Share(candidates[i].stationId, population * candidates[i].weight / total,
            (population * candidates[i].weight % total) as real / total as real))
  }

  lemma DivideExactly(n: nat, d: nat)
    requires 0 < d
    ensures (n / d) as real + (n % d) as real / d as real == n as real / d as real
    ensures 0.0 <= (n % d) as real / d as real < 1.0
  {
    var q, r := n / d, n % d;
    assert n == q * d + r;
    assert n as real == q as real * d as real + r as real;
  }

  lemma {:induction false} SharesAddUp(population: nat, candidates: seq<Candidate>, total: nat)
    requires 0 < total
    ensures var shares := SharesOf(population, candidates, total);
            && Proper(shares)
            && Wholes(shares) as real + Fracs(shares) == (population * TotalWeight(candidates)) as real / total as real
  {
    var shares := SharesOf(population, candidates, total);
    if candidates != [] {
      SharesAddUp(population, candidates[1..], total);
      assert shares[1..] == SharesOf(population, candidates[1..], total);
      DivideExactly(population * candidates[0].weight, total);
      Distribute(population, candidates[0].weight, TotalWeight(candidates[1..]), total);
      assert forall s :: s in shares ==> s == shares[0] || s in shares[1..];
    }
  }

  lemma Distribute(p: nat, a: nat, b: nat, d: nat)
    requires 0 < d
    ensures (p * (a + b)) as real / d as real == (p * a) as real / d as real + (p * b) as real / d as real
  {
    assert p * (a + b) == p * a + p * b;
  }

  lemma SharesAreExact(population: nat, candidates: seq<Candidate>)
    requires 0 < TotalWeight(candidates)
    ensures Exact(SharesOf(population, candidates, TotalWeight(candidates)), population)
  {
    SharesAddUp(population, candidates, TotalWeight(candidates));
    DivideBack(population, TotalWeight(candidates));
  }

  lemma DivideBack(n: nat, d: nat)
    requires 0 < d
    ensures (n * d) as real / d as real == n as real
  {
    var x, y := n as real, d as real;
    assert (n * d) as real == x * y;
    assert x * y / y == x;
  }

  lemma {:induction false} WeightIsPositive(candidates: seq<Candidate>)
    requires candidates != [] && forall c :: c in candidates ==> 1 <= c.weight
    ensures 0 < TotalWeight(candidates)
  {
    assert candidates[0] in candidates;
  }

  /** The parts of a covered settlement's population, in the order of its candidates. */
  ghost function PartsOf(s: Settlement, stations: seq<Station>, radius: nat): (parts: seq<nat>)
    requires 0 <= s.population && Candidates(s, stations, radius) != []
    ensures |parts| == |Candidates(s, stations, radius)|
  {
    var candidates := Candidates(s, stations, radius);
    CandidatesAre(s, stations, radius);
    WeightIsPositive(candidates);
    var shares := SharesOf(s.population, candidates, TotalWeight(candidates));
    SharesAreExact(s.population, candidates);
    ExactIsDividable(shares, s.population);
    Parts(shares, s.population)
  }

  // ------------------------------------------------------------------ all settlements

  /** Append to each candidate's station the part of the settlement's population it gets. */
  function Give(allocations: map<Text, seq<Allocation>>, id: Text, candidates: seq<Candidate>,
                parts: seq<nat>): (r: map<Text, seq<Allocation>>)
    requires |parts| == |candidates| && forall c :: c in candidates ==> c.stationId in allocations
    ensures r.Keys == allocations.Keys
  {
    if candidates == [] then allocations
    else
      var station := candidates[0].stationId;
      Give(allocations[station := allocations[station] + [Allocation(id, parts[0])]], id, candidates[1..], parts[1..])
  }

  predicate Covers(allocations: map<Text, seq<Allocation>>, stations: seq<Station>) {
    forall t :: t in stations ==> t.id in allocations
  }

  predicate Covered(s: Settlement, stations: seq<Station>, radius: nat) {
    Candidates(s, stations, radius) != []
  }

  /** What distributing `settlements` one after the other makes of `done`. */
  ghost function Distributed(done: Allocated, settlements: seq<Settlement>, stations: seq<Station>,
                             radius: nat): (r: Allocated)
    requires Covers(done.allocations, stations) && forall s :: s in settlements ==> 0 <= s.population
    ensures r.allocations.Keys == done.allocations.Keys
    decreases |settlements|
  {
    if settlements == [] then done
    else
      var s := settlements[0];
      Distributed(DistributeOne(done, s, stations, radius), settlements[1..], stations, radius)
  }

  ghost function DistributeOne(done: Allocated, s: Settlement, stations: seq<Station>, radius: nat): (r: Allocated)
    requires Covers(done.allocations, stations) && 0 <= s.population
    ensures r.allocations.Keys == done.allocations.Keys
  {
    if Covered(s, stations, radius) then
      CandidatesAre(s, stations, radius);
      Allocated(Give(done.allocations, s.id, Candidates(s, stations, radius), PartsOf(s, stations, radius)),
                done.included + [s], done.excluded)
    else Allocated(done.allocations, done.included, done.excluded + [s])
  }

  predicate ById(a: Settlement, b: Settlement) {
    AtMost(a.id, b.id)
  }

  predicate InBounds(settlements: seq<Settlement>, radius: int) {
    1 <= radius <= MAX_RADIUS && forall s :: s in settlements ==> 0 <= s.population <= MAX_U32
  }

  function NoAllocations(stations: seq<Station>): map<Text, seq<Allocation>> {
    map t | t in stations :: t.id := []
  }

  /** The tool's loop over the settlements in the order of their ids; None where it raises. */
  method AllocatePopulation(settlements: seq<Settlement>, stations: seq<Station>, radius: int)
    returns (r: Option<Allocated>)
    ensures r.Some? <==> InBounds(settlements, radius)
    ensures r.Some? ==>
              && Covers(NoAllocations(stations), stations)
              && (forall s :: s in Sort(settlements, ById) ==> 0 <= s.population)
              && r.value == Distributed(Allocated(NoAllocations(stations), [], []), Sort(settlements, ById), stations,
                                        radius)
  {
    if radius < 1 || MAX_RADIUS < radius {
      return None;
    }
    var ordered := Sort(settlements, ById);
    SortPermutes(settlements, ById);
    var done := Allocated(NoAllocations(stations), [], []);
    ghost var whole := done;
    if forall s :: s in settlements ==> 0 <= s.population <= MAX_U32 {
      whole := Distributed(done, ordered, stations, radius);
    }
    assert ordered[0..] == ordered;
    for i := 0 to |ordered|
      invariant Covers(done.allocations, stations)
      invariant forall k :: 0 <= k < i ==> 0 <= ordered[k].population <= MAX_U32
      invariant InBounds(settlements, radius) ==>
                  (forall s :: s in ordered[i..] ==> 0 <= s.population)
                  && whole == Distributed(done, ordered[i..], stations, radius)
    {
      var s := ordered[i];
      assert s in ordered;
      if s.population < 0 || MAX_U32 < s.population {
        return None;
      }
      assert ordered[i..][1..] == ordered[i + 1..];
      var candidates := Candidates(s, stations, radius);
      if candidates == [] {
        done := done.(excluded := done.excluded + [s]);
        continue;
      }
      CandidatesAre(s, stations, radius);
      WeightIsPositive(candidates);
      SharesAreExact(s.population, candidates);
      var parts := Apportion(SharesOf(s.population, candidates, TotalWeight(candidates)), s.population);
      done := Allocated(Give(done.allocations, s.id, candidates, parts), done.included + [s], done.excluded);
    }
    assert ordered[|ordered|..] == [];
    r := Some(done);
  }

  // ------------------------------------------------------------------ conservation

  function Mass(allocations: seq<Allocation>): nat {
    if allocations == [] then 0 else Mass(allocations[..|allocations| - 1]) + allocations[|allocations| - 1].population
  }

  /** The population of all stations together. */
  function StationPopulation(allocations: map<Text, seq<Allocation>>, stations: seq<Station>): nat
    requires Covers(allocations, stations)
  {
    if stations == [] then 0 else Mass(allocations[stations[0].id]) + StationPopulation(allocations, stations[1..])
  }

  function SettlementPopulation(settlements: seq<Settlement>): int {
    if settlements == [] then 0
    else SettlementPopulation(settlements[..|settlements| - 1]) + settlements[|settlements| - 1].population
  }

  ghost predicate DistinctStations(stations: seq<Station>) {
    forall i, j :: 0 <= i < j < |stations| ==> stations[i].id != stations[j].id
  }

  lemma {:induction false} OneMore(allocations: map<Text, seq<Allocation>>, stations: seq<Station>, id: Text,
                                   a: Allocation)
    requires Covers(allocations, stations) && DistinctStations(stations) && id in allocations
    ensures var more := allocations[id := allocations[id] + [a]];
            Covers(more, stations) &&
            StationPopulation(more, stations) ==
            StationPopulation(allocations, stations) + if (exists t :: t in stations && t.id == id) then a.population
                else 0
  {
    var more := allocations[id := allocations[id] + [a]];
    if stations != [] {
      OneMore(allocations, stations[1..], id, a);
      assert (allocations[id] + [a])[..|allocations[id]|] == allocations[id];
      assert forall t :: t in stations <==> t == stations[0] || t in stations[1..];
      assert stations[0] in stations;
      assert forall t :: t in stations[1..] ==> t.id != stations[0].id;
    }
  }

  lemma {:induction false} GiveAdds(allocations: map<Text, seq<Allocation>>, stations: seq<Station>, id: Text,
                                    candidates: seq<Candidate>, parts: seq<nat>)
    requires Covers(allocations, stations) && DistinctStations(stations) && |parts| == |candidates|
    requires forall c :: c in candidates
               ==> c.stationId in allocations && exists t :: t in stations && t.id == c.stationId
    ensures var r := Give(allocations, id, candidates, parts);
            Covers(r, stations)
                && StationPopulation(r, stations) == StationPopulation(allocations, stations) + Sum(parts)
  {
    if candidates != [] {
      var station := candidates[0].stationId;
      assert candidates[0] in candidates;
      OneMore(allocations, stations, station, Allocation(id, parts[0]));
      GiveAdds(allocations[station := allocations[station] + [Allocation(id, parts[0])]], stations, id, candidates[1..],
               parts[1..]);
    }
  }

  /** Nothing is lost and nothing is counted twice: the stations together hold exactly the population of
      the covered settlements, and every settlement is either covered or listed as out of reach. */
  lemma {:induction false} PopulationIsConserved(done: Allocated, settlements: seq<Settlement>, stations: seq<Station>,
                                                 radius: nat)
    requires Covers(done.allocations, stations) && DistinctStations(stations)
    requires forall s :: s in settlements ==> 0 <= s.population
    ensures var r := Distributed(done, settlements, stations, radius);
            && StationPopulation(r.allocations, stations) - SettlementPopulation(r.included) ==
               StationPopulation(done.allocations, stations) - SettlementPopulation(done.included)
            && multiset(r.included) + multiset(r.excluded)
               == multiset(done.included) + multiset(done.excluded) + multiset(settlements)
            && (forall s :: s in r.included ==> s in done.included || Covered(s, stations, radius))
            && (forall s :: s in r.excluded ==> s in done.excluded || !Covered(s, stations, radius))
    decreases |settlements|
  {
    if settlements != [] {
      var s := settlements[0];
      var next := DistributeOne(done, s, stations, radius);
      PopulationIsConserved(next, settlements[1..], stations, radius);
      assert settlements == [s] + settlements[1..];
      if Covered(s, stations, radius) {
        GivenInFull(done, s, stations, radius);
        assert (done.included + [s])[..|done.included|] == done.included;
      }
    }
  }

  lemma GivenInFull(done: Allocated, s: Settlement, stations: seq<Station>, radius: nat)
    requires Covers(done.allocations, stations) && DistinctStations(stations) && 0 <= s.population
             && Covered(s, stations, radius)
    ensures StationPopulation(DistributeOne(done, s, stations, radius).allocations, stations) ==
            StationPopulation(done.allocations, stations) + s.population
  {
    var candidates := Candidates(s, stations, radius);
    CandidatesAre(s, stations, radius);
    WeightIsPositive(candidates);
    SharesAreExact(s.population, candidates);
    PartsConserve(SharesOf(s.population, candidates, TotalWeight(candidates)), s.population);
    GiveAdds(done.allocations, stations, s.id, candidates, PartsOf(s, stations, radius));
  }

  lemma {:induction false} NoMass(stations: seq<Station>, all: seq<Station>)
    requires Covers(NoAllocations(all), stations)
    ensures StationPopulation(NoAllocations(all), stations) == 0
  {
    if stations != [] {
      NoMass(stations[1..], all);
      assert stations[0] in stations;
    }
  }

  /** Summed over the stations, the tool's result is the population of the covered settlements. */
  lemma StationsHoldCoveredPopulation(settlements: seq<Settlement>, stations: seq<Station>, radius: nat)
    requires InBounds(settlements, radius) && DistinctStations(stations)
    ensures (forall s :: s in Sort(settlements, ById) ==> 0 <= s.population)
            && Covers(NoAllocations(stations), stations)
    ensures var r := Distributed(Allocated(NoAllocations(stations), [], []), Sort(settlements, ById), stations, radius);
            && StationPopulation(r.allocations, stations) == SettlementPopulation(r.included)
            && multiset(r.included) + multiset(r.excluded) == multiset(settlements)
            && (forall s :: s in settlements ==> (s in r.included <==> Covered(s, stations, radius)))
  {
    SortPermutes(settlements, ById);
    NoMass(stations, stations);
    PopulationIsConserved(Allocated(NoAllocations(stations), [], []), Sort(settlements, ById), stations, radius);
    var r := Distributed(Allocated(NoAllocations(stations), [], []), Sort(settlements, ById), stations, radius);
    forall s | s in settlements
      ensures s in r.included <==> Covered(s, stations, radius)
    {
      assert s in multiset(r.included) + multiset(r.excluded);
    }
  }
}
