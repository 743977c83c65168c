/** The hourly demand profile of the calibration run (the share part of build_inputs in
    tools/demand-calibration/run_native.py). */
module HourShares {
  import opened Outcomes
  import opened Apportionment

  const BASIS_POINTS := 10_000

  /** Counts by operating hour; hours 24 and above belong to the following day. */
  datatype Counts = Counts(boardings: map<int, nat>, training: map<int, nat>, measured: map<int, nat>)

  function At(counts: map<int, nat>, hour: int): nat {
    if hour in counts then counts[hour] else 0
  }

  /** The expanded boardings of one operating hour. */
  function Expansion(c: Counts, hour: int): real {
    if At(c.measured, hour) == 0 then 0.0
    else (At(c.boardings, hour) * At(c.training, hour)) as real / At(c.measured, hour) as real
  }

  /** The operating day fits into one 24-hour profile. */
  ghost predicate FitsOneDay(hours: seq<int>) {
    && hours != [] && (forall h :: h in hours ==> 0 <= h)
    && forall h, k :: h in hours && k in hours ==> h - k < 24
  }

  ghost predicate Ascending(hours: seq<int>) {
    forall i, j :: 0 <= i < j < |hours| ==> hours[i] < hours[j]
  }

  /** The profile has the expansion of every operating hour at its clock time, and nothing elsewhere. */
  ghost predicate Profiles(expanded: seq<real>, c: Counts, hours: seq<int>) {
    && |expanded| == 24
    && (forall h :: h in hours ==> expanded[h % 24] == Expansion(c, h))
    && (forall k :: 0 <= k < 24 && (forall h :: h in hours ==> h % 24 != k) ==> expanded[k] == 0.0)
    && (forall k :: 0 <= k < 24 ==> 0.0 <= expanded[k])
  }

  lemma ClockTimesDiffer(hours: seq<int>, i: nat, k: int)
    requires Ascending(hours) && i < |hours| && k in hours[..i] && hours[|hours| - 1] - hours[0] < 24
    ensures k % 24 != hours[i] % 24
  {
    var j :| 0 <= j < i && hours[j] == k;
    assert j == 0 || hours[0] < hours[j];
    assert i == |hours| - 1 || hours[i] < hours[|hours| - 1];
  }

  lemma ProfileStep(values: seq<real>, c: Counts, done: seq<int>, h: int)
    requires Profiles(values, c, done) && forall k :: k in done ==> k % 24 != h % 24
    ensures Profiles(values[h % 24 := Expansion(c, h)], c, done + [h])
  {
    assert h in done + [h];
    assert forall k :: k in done + [h] <==> k in done || k == h;
    assert 0.0 <= Expansion(c, h);
  }

  lemma EndsBound(hours: seq<int>)
    ensures FitsOneDay(hours) ==> hours != [] && 0 <= hours[0] && hours[|hours| - 1] - hours[0] < 24
  {
    if FitsOneDay(hours) {
      assert hours[0] in hours && hours[|hours| - 1] in hours;
    }
  }

  /** No two operating hours share a clock time, so none overwrites another. */
  method ExpandHours(c: Counts, hours: seq<int>) returns (expanded: Option<seq<real>>)
    requires Ascending(hours)
    ensures expanded.Some? <==> FitsOneDay(hours)
    ensures expanded.Some? ==> Profiles(expanded.value, c, hours)
  {
    EndsBound(hours);
    if hours == [] || hours[0] < 0 || 24 <= hours[|hours| - 1] - hours[0] {
      return None;
    }
    var values := seq(24, _ => 0.0);
    for i := 0 to |hours|
      invariant Profiles(values, c, hours[..i])
    {
      var h := hours[i];
      forall k | k in hours[..i]
        ensures k % 24 != h % 24
      {
        ClockTimesDiffer(hours, i, k);
      }
      ProfileStep(values, c, hours[..i], h);
      assert hours[..i + 1] == hours[..i] + [h];
      values := values[h % 24 := Expansion(c, h)];
    }
    assert hours[..|hours|] == hours;
    expanded := Some(values);
  }

  predicate NonNegative(values: seq<real>) {
    forall i :: 0 <= i < |values| ==> 0.0 <= values[i]
  }

  function Total(values: seq<real>): real {
    if values == [] then 0.0 else values[0] + Total(values[1..])
  }

  /** The exact share of each clock hour in basis points; ties go to the earlier hour. */
  function Quotas(values: seq<real>, total: real): (shares: seq<Share>)
    requires 0.0 < total && NonNegative(values)
    ensures |shares| == |values|
  {
    seq(|values|, i requires 0 <= i < |values| => Quota(i, values[i], total))
  }

  function Quota(hour: nat, value: real, total: real): (s: Share)
    requires 0.0 < total && 0.0 <= value
    ensures 0.0 <= s.frac < 1.0 && s.whole as real + s.frac == value * BASIS_POINTS as real / total
  {
    var exact := value * BASIS_POINTS as real / total;
    Share([hour], exact.Floor, exact - exact.Floor as real)
  }

  lemma {:induction false} QuotasAddUp(shares: seq<Share>, values: seq<real>, total: real)
    requires 0.0 < total && |shares| == |values|
    requires forall i :: 0 <= i < |values| ==>
               0.0 <= shares[i].frac < 1.0
                   && shares[i].whole as real + shares[i].frac == values[i] * BASIS_POINTS as real / total
    ensures Proper(shares)
    ensures Wholes(shares) as real + Fracs(shares) == Total(values) * BASIS_POINTS as real / total
  {
    if values != [] {
      QuotasAddUp(shares[1..], values[1..], total);
      Distribute(values[0], Total(values[1..]), total);
      assert forall s :: s in shares ==> s == shares[0] || s in shares[1..];
    }
  }

  lemma Distribute(a: real, b: real, d: real)
    requires 0.0 < d
    ensures (a + b) * BASIS_POINTS as real / d == a * BASIS_POINTS as real / d + b * BASIS_POINTS as real / d
  {
  }

  lemma QuotasAreExact(values: seq<real>)
    requires 0.0 < Total(values) && NonNegative(values)
    ensures Exact(Quotas(values, Total(values)), BASIS_POINTS)
  {
    var total := Total(values);
    QuotasAddUp(Quotas(values, total), values, total);
    DivideBack(BASIS_POINTS as real, total);
  }

  lemma DivideBack(x: real, d: real)
    requires 0.0 < d
    ensures d * x / d == x
  {
  }

  /** The hourly shares in basis points; None where the tool would divide by zero. They add up to
      10000, each is the floor of its exact share or one more, and an hour without demand gets none. */
  method ShareHours(values: seq<real>) returns (shares: Option<seq<nat>>)
    requires NonNegative(values)
    ensures shares.None? <==> Total(values) == 0.0
    ensures shares.Some? ==>
              && |shares.value| == |values| && Sum(shares.value) == BASIS_POINTS
              && forall i :: 0 <= i < |values| ==>
                   var exact := values[i] * BASIS_POINTS as real / Total(values);
                   exact.Floor <= shares.value[i] <= exact.Floor + if exact == exact.Floor as real then 0 else 1
    ensures shares.Some? ==>
              forall i, j :: 0 <= i < |values| && 0 <= j < |values| && values[j] < values[i]
                ==> shares.value[j] <= shares.value[i]
  {
    TotalIsPositive(values);
    var total := Total(values);
    if total == 0.0 {
      return None;
    }
    QuotasAreExact(values);
    var quotas := Quotas(values, total);
    var parts := Apportion(quotas, BASIS_POINTS);
    PartsConserve(quotas, BASIS_POINTS);
    forall i | 0 <= i < |values|
      ensures var exact := values[i] * BASIS_POINTS as real / total;
              exact.Floor <= parts[i] <= exact.Floor + if exact == exact.Floor as real then 0 else 1
    {
      PartsAreClose(quotas, BASIS_POINTS, i);
    }
    forall i, j | 0 <= i < |values| && 0 <= j < |values| && values[j] < values[i]
      ensures parts[j] <= parts[i]
    {
      LargerShare(values[j], values[i], total);
      PartsAreMonotone(quotas, BASIS_POINTS, i, j);
    }
    shares := Some(parts);
  }

  lemma LargerShare(a: real, b: real, d: real)
    requires 0.0 < d && a < b
    ensures a * BASIS_POINTS as real / d < b * BASIS_POINTS as real / d
  {
  }

  lemma {:induction false} TotalIsPositive(values: seq<real>)
    requires NonNegative(values)
    ensures 0.0 <= Total(values)
  {
    if values != [] {
      TotalIsPositive(values[1..]);
    }
  }
}
