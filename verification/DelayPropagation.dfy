/** Forecast times from confirmed stop times: servicesWithConfirmedStops of
    apps/game-api/src/demand-progress.ts and what a forecast may and may not do. */
module DelayPropagation {
  import opened DemandReceipts
  import opened Outcomes
  import opened TextOrder

  /** The confirmed times of one train by stop and kind. */
  type Actual = (Text, Kind) -> Option<nat>

  function FirstTime(receipts: seq<Receipt>, trainRunId: Text, stopId: Text, kind: Kind): Option<nat> {
    if receipts == [] then None
    else if receipts[0].trainRunId == trainRunId && receipts[0].stopId == stopId
        && receipts[0].kind == kind then Some(receipts[0].actualTimeMs)
    else FirstTime(receipts[1..], trainRunId, stopId, kind)
  }

  function ActualOf(receipts: seq<Receipt>, trainRunId: Text): Actual {
    (stopId: Text, kind: Kind) => FirstTime(receipts, trainRunId, stopId, kind)
  }

  function Max(a: int, b: int): int { if a < b then b else a }

  function Late(confirmed: nat, scheduled: nat): nat { if confirmed < scheduled then 0 else confirmed - scheduled }

  /** The delay a train carries on from an event: that of the event if it is confirmed, else unchanged. */
  function Carried(delay: nat, confirmed: Option<nat>, scheduled: nat): nat {
    if confirmed.Some? then Late(confirmed.value, scheduled) else delay
  }

  function ArrivalAt(stop: Stop, confirmed: Option<nat>, delay: nat, lastDeparture: int): int {
    if confirmed.Some? then confirmed.value else Max(stop.arrivalMs + delay, lastDeparture + 1)
  }

  function DepartureAt(stop: Stop, confirmed: Option<nat>, delay: nat, arrivalMs: int): int {
    if confirmed.Some? then confirmed.value else Max(arrivalMs, stop.departureMs + delay)
  }

  function Forecast(stop: Stop, actual: Actual, delay: nat, lastDeparture: int): Stop {
    var arrival := ArrivalAt(stop, actual(stop.stopId, Arrival), delay, lastDeparture);
    var departure := DepartureAt(stop, actual(stop.stopId, Departure),
                                 Carried(delay, actual(stop.stopId, Arrival), stop.arrivalMs), arrival);
    stop.(arrivalMs := arrival, departureMs := departure)
  }

  function DelayAfter(stop: Stop, actual: Actual, delay: nat): nat {
    Carried(Carried(delay, actual(stop.stopId, Arrival), stop.arrivalMs), actual(stop.stopId, Departure),
            stop.departureMs)
  }

  /** The stops from a point where the train has `delay` and left its last stop at `lastDeparture`. */
  function Propagate(stops: seq<Stop>, actual: Actual, delay: nat, lastDeparture: int): (out: seq<Stop>)
    ensures |out| == |stops|
  {
    if stops == [] then []
    else
      var first := Forecast(stops[0], actual, delay, lastDeparture);
      [first] + Propagate(stops[1..], actual, DelayAfter(stops[0], actual, delay), first.departureMs)
  }

  function WithConfirmed(service: Service, receipts: seq<Receipt>): Service {
    service.(stops := Propagate(service.stops, ActualOf(receipts, service.trainRunId), 0, -1))
  }

  function AllWithConfirmed(services: seq<Service>, receipts: seq<Receipt>): (out: seq<Service>)
    ensures |out| == |services|
    ensures forall i :: 0 <= i < |out| ==> out[i] == WithConfirmed(services[i], receipts)
  {
    if services == [] then []
    else AllWithConfirmed(services[..|services| - 1], receipts) + [WithConfirmed(services[|services| - 1], receipts)]
  }

  method ServicesWithConfirmedStops(services: seq<Service>, receipts: seq<Receipt>) returns (out: seq<Service>)
    ensures out == AllWithConfirmed(services, receipts)
  {
    out := [];
    var i := 0;
    while i < |services|
      invariant 0 <= i <= |services| && out == AllWithConfirmed(services[..i], receipts)
    {
      var stops := ConfirmStops(services[i].stops, receipts, services[i].trainRunId);
      assert services[..i + 1][..i] == services[..i];
      out := out + [services[i].(stops := stops)];
      i := i + 1;
    }
    assert services[..i] == services;
  }

  /** The loop over one train's stops, with its two running values. */
  method ConfirmStops(stops: seq<Stop>, receipts: seq<Receipt>, trainRunId: Text) returns (out: seq<Stop>)
    ensures out == Propagate(stops, ActualOf(receipts, trainRunId), 0, -1)
  {
    ghost var actual := ActualOf(receipts, trainRunId);
    var delay: nat, lastDeparture := 0, -1;
    out := [];
    var i := 0;
    assert stops[0..] == stops;
    while i < |stops|
      invariant 0 <= i <= |stops| && -1 <= lastDeparture
      invariant Propagate(stops, actual, 0, -1) == out + Propagate(stops[i..], actual, delay, lastDeparture)
    {
      var stop := stops[i];
      assert stops[i..][1..] == stops[i + 1..];
      ghost var before, first := out, Forecast(stop, actual, delay, lastDeparture);
      var arrival := FirstTime(receipts, trainRunId, stop.stopId, Arrival);
      var departure := FirstTime(receipts, trainRunId, stop.stopId, Departure);
      var carried := delay;
      if arrival.Some? {
        carried := Max(0, arrival.value - stop.arrivalMs);
      }
      var arrivalMs := if arrival.Some? then arrival.value else Max(stop.arrivalMs + carried, lastDeparture + 1);
      var leaving := carried;
      if departure.Some? {
        leaving := Max(0, departure.value - stop.departureMs);
      }
      var departureMs := if departure.Some? then departure.value else Max(arrivalMs, stop.departureMs + leaving);
      assert first == stop.(arrivalMs := arrivalMs, departureMs := departureMs);
      assert leaving == DelayAfter(stop, actual, delay);
      Continues(before, first, Propagate(stops[i + 1..], actual, leaving, departureMs));
      delay, lastDeparture := leaving, departureMs;
      out := out + [stop.(arrivalMs := arrivalMs, departureMs := departureMs)];
      i := i + 1;
    }
  }

  lemma Continues(before: seq<Stop>, first: Stop, rest: seq<Stop>)
    ensures before + ([first] + rest) == (before + [first]) + rest
  {
  }

  // ------------------------------------------------------------------ what the times are

  /** The delay with which the train reaches stop `i`: that of the last confirmed event before it, else `delay`. */
  function DelayBefore(stops: seq<Stop>, actual: Actual, delay: nat, i: nat): nat
    requires i <= |stops|
  {
    if i == 0 then delay
    else if actual(stops[i - 1].stopId, Departure).Some?
        then Late(actual(stops[i - 1].stopId, Departure).value, stops[i - 1].departureMs)
    else if actual(stops[i - 1].stopId, Arrival).Some?
        then Late(actual(stops[i - 1].stopId, Arrival).value, stops[i - 1].arrivalMs)
    else DelayBefore(stops, actual, delay, i - 1)
  }

  lemma {:induction false} DelayBeforeShifts(stops: seq<Stop>, actual: Actual, delay: nat, i: nat)
    requires i < |stops|
    ensures DelayBefore(stops, actual, delay, i + 1)
            == DelayBefore(stops[1..], actual, DelayAfter(stops[0], actual, delay), i)
  {
    if 0 < i {
      DelayBeforeShifts(stops, actual, delay, i - 1);
      assert stops[1..][i - 1] == stops[i];
    }
  }

  /** The times of a stop that the train reaches `late` after a departure at `previous`. */
  predicate IsForecast(stop: Stop, out: Stop, actual: Actual, late: nat, previous: int) {
    var arrival, departure := actual(stop.stopId, Arrival), actual(stop.stopId, Departure);
    && out.stopId == stop.stopId && out.passengerStop == stop.passengerStop
    && out.arrivalMs == (if arrival.Some? then arrival.value else Max(stop.arrivalMs + late, previous + 1))
    && out.departureMs == (if departure.Some? then departure.value
                           else Max(out.arrivalMs, stop.departureMs + Carried(late, arrival, stop.arrivalMs)))
  }

  /** Confirmed times are copied. A forecast arrival is the scheduled one with the delay of the last
      confirmed event, but after the previous departure; a forecast departure carries the delay on and is
      not before the arrival. */
  lemma {:induction false} TimesOfStop(stops: seq<Stop>, actual: Actual, delay: nat, lastDeparture: int, i: nat)
    requires i < |stops|
    ensures IsForecast(stops[i], Propagate(stops, actual, delay, lastDeparture)[i], actual,
                       DelayBefore(stops, actual, delay, i),
                       if i == 0 then lastDeparture
                       else Propagate(stops, actual, delay, lastDeparture)[i - 1].departureMs)
  {
    if 0 < i {
      var first := Forecast(stops[0], actual, delay, lastDeparture);
      TimesOfStop(stops[1..], actual, DelayAfter(stops[0], actual, delay), first.departureMs, i - 1);
      DelayBeforeShifts(stops, actual, delay, i - 1);
      assert stops[1..][i - 1] == stops[i];
      assert Propagate(stops, actual, delay, lastDeparture)[0] == first;
    }
  }

  /** The promises of a forecast: never before schedule, arrivals after the previous departure, departures
      not before the arrival. */
  lemma ForecastsAreFeasible(stops: seq<Stop>, actual: Actual, i: nat)
    requires i < |stops|
    ensures var out := Propagate(stops, actual, 0, -1);
      Feasible(stops[i], out[i], actual, if i == 0 then -1 else out[i - 1].departureMs)
  {
    TimesOfStop(stops, actual, 0, -1, i);
    var out := Propagate(stops, actual, 0, -1);
    ForecastIsFeasible(stops[i], out[i], actual, DelayBefore(stops, actual, 0, i), if i == 0 then -1
                       else out[i - 1].departureMs);
  }

  predicate Feasible(stop: Stop, out: Stop, actual: Actual, previous: int) {
    && (actual(stop.stopId, Arrival).None? ==> out.arrivalMs >= stop.arrivalMs && out.arrivalMs > previous)
    && (actual(stop.stopId, Departure).None?
        ==> out.departureMs >= stop.departureMs && out.departureMs >= out.arrivalMs)
  }

  lemma ForecastIsFeasible(stop: Stop, out: Stop, actual: Actual, late: nat, previous: int)
    requires IsForecast(stop, out, actual, late, previous)
    ensures Feasible(stop, out, actual, previous)
  {
  }

  // ------------------------------------------------------------------ laws of the whole service

  ghost predicate StrictSchedule(stops: seq<Stop>, lastDeparture: int) {
    stops == [] || (Follows(lastDeparture, stops[0]) && StrictSchedule(stops[1..], stops[0].departureMs))
  }

  predicate Follows(lastDeparture: int, stop: Stop) {
    lastDeparture < stop.arrivalMs <= stop.departureMs
  }

  ghost predicate NothingConfirmed(stops: seq<Stop>, actual: Actual) {
    forall i :: 0 <= i < |stops| ==> actual(stops[i].stopId, Arrival).None? && actual(stops[i].stopId, Departure).None?
  }

  /** Without receipts a strictly increasing schedule is its own forecast. */
  lemma {:induction false} ScheduleStands(stops: seq<Stop>, actual: Actual, lastDeparture: int)
    requires StrictSchedule(stops, lastDeparture) && NothingConfirmed(stops, actual)
    ensures Propagate(stops, actual, 0, lastDeparture) == stops
  {
    if stops != [] {
      forall i | 0 <= i < |stops[1..]|
        ensures actual(stops[1..][i].stopId, Arrival).None? && actual(stops[1..][i].stopId, Departure).None?
      {
        assert stops[1..][i] == stops[i + 1];
      }
      ScheduleStands(stops[1..], actual, stops[0].departureMs);
      assert Follows(lastDeparture, stops[0]) && Forecast(stops[0], actual, 0, lastDeparture) == stops[0];
    }
  }

  /** Forecasting from a forecast with the same receipts changes nothing, whatever delay was carried. */
  lemma {:induction false} ForecastIsIdempotent(stops: seq<Stop>, actual: Actual, delay: nat, lastDeparture: int)
    requires -1 <= lastDeparture
    ensures var out := Propagate(stops, actual, delay, lastDeparture); Propagate(out, actual, 0, lastDeparture) == out
  {
    if stops != [] {
      var first := Forecast(stops[0], actual, delay, lastDeparture);
      assert Forecast(first, actual, 0, lastDeparture) == first;
      assert DelayAfter(first, actual, 0) == 0;
      ForecastIsIdempotent(stops[1..], actual, DelayAfter(stops[0], actual, delay), first.departureMs);
      var out := Propagate(stops, actual, delay, lastDeparture);
      assert out[0] == first
             && out[1..] == Propagate(stops[1..], actual, DelayAfter(stops[0], actual, delay), first.departureMs);
    }
  }

  ghost predicate NoLater(a: Option<nat>, b: Option<nat>) {
    a.Some? == b.Some? && (a.Some? ==> a.value <= b.value)
  }

  ghost predicate PointwiseNoLater(a: Actual, b: Actual) {
    forall stopId, kind :: NoLater(a(stopId, kind), b(stopId, kind))
  }

  ghost predicate TimesNoLater(p: seq<Stop>, q: seq<Stop>) {
    |p| == |q| && forall i :: 0 <= i < |p| ==> p[i].arrivalMs <= q[i].arrivalMs && p[i].departureMs <= q[i].departureMs
  }

  /** A later confirmed time never makes any time earlier. */
  lemma {:induction false} ForecastIsMonotone(stops: seq<Stop>, a: Actual, b: Actual, d: nat, e: nat, l: int, m: int)
    requires PointwiseNoLater(a, b) && d <= e && l <= m
    ensures TimesNoLater(Propagate(stops, a, d, l), Propagate(stops, b, e, m))
  {
    if stops != [] {
      var stop := stops[0];
      assert NoLater(a(stop.stopId, Arrival), b(stop.stopId, Arrival))
             && NoLater(a(stop.stopId, Departure), b(stop.stopId, Departure));
      var f, g := Forecast(stop, a, d, l), Forecast(stop, b, e, m);
      ForecastIsMonotone(stops[1..], a, b, DelayAfter(stop, a, d), DelayAfter(stop, b, e), f.departureMs,
                         g.departureMs);
      TimesNoLaterCons(f, g, Propagate(stops[1..], a, DelayAfter(stop, a, d), f.departureMs),
                       Propagate(stops[1..], b, DelayAfter(stop, b, e), g.departureMs));
    }
  }

  lemma TimesNoLaterCons(f: Stop, g: Stop, p: seq<Stop>, q: seq<Stop>)
    requires f.arrivalMs <= g.arrivalMs && f.departureMs <= g.departureMs && TimesNoLater(p, q)
    ensures TimesNoLater([f] + p, [g] + q)
  {
  }

  // ------------------------------------------------------------------ receipts as confirmed times

  lemma {:induction false} FirstTimeIsOf(receipts: seq<Receipt>, trainRunId: Text, stopId: Text, kind: Kind)
    ensures var t := FirstTime(receipts, trainRunId, stopId, kind);
      && (t.Some? <==> exists r :: r in receipts && EventKeyOf(r) == EventKey(trainRunId, stopId, kind))
      && (t.Some? ==> exists r :: r in receipts && EventKeyOf(r) == EventKey(trainRunId, stopId, kind)
                        && r.actualTimeMs == t.value)
  {
    if receipts != [] {
      FirstTimeIsOf(receipts[1..], trainRunId, stopId, kind);
      assert receipts[0] in receipts;
    }
  }

  /** Of a consistent set of receipts, every one is copied into its train's service. */
  lemma ReceiptIsCopied(services: seq<Service>, receipts: seq<Receipt>, r: Receipt, k: nat, i: nat)
    requires Consistent(receipts) && r in receipts && k < |services| && services[k].trainRunId == r.trainRunId
    requires i < |services[k].stops| && services[k].stops[i].stopId == r.stopId
    ensures var stop := AllWithConfirmed(services, receipts)[k].stops[i];
      (if r.kind.Arrival? then stop.arrivalMs else stop.departureMs) == r.actualTimeMs
  {
    FirstTimeIsOf(receipts, r.trainRunId, r.stopId, r.kind);
    var t := FirstTime(receipts, r.trainRunId, r.stopId, r.kind);
    var s :| s in receipts && EventKeyOf(s) == EventKeyOf(r) && s.actualTimeMs == t.value;
    assert Agree(s, r);
    TimesOfStop(services[k].stops, ActualOf(receipts, r.trainRunId), 0, -1, i);
  }
}
