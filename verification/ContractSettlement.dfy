/** Settling contract periods from daily reports: the settlement route of apps/game-api/src/app.ts with
    apps/game-api/src/contract-report-period.ts and the checks of packages/economy/src/workflow.ts. */
module ContractSettlement {
  import opened Outcomes
  import opened TextOrder

  const DAY_MS: int := 86_400_000
  const MAX_SAFE: nat := 9_007_199_254_740_991
  const MM_PER_KM: nat := 1_000_000

  datatype Contract = Contract(id: Text, lotId: Text, startsAt: int, endsAt: int, periodDuration: int,
                               trainKmPerPeriod: nat, promisesSeats: bool)

  datatype SettleError =
    | InvalidPeriods | InvalidTime | NothingFinished | PartialDays | ReportsIncomplete | ReportInvalid | CountsUnsafe
    | TooManyTrainKm | CommandRepeated | NotPayable

  // ------------------------------------------------------------------ the service days of a period

  /** Days are numbered from the epoch of the calendar; `last` is inclusive. */
  datatype Days = Days(first: int, last: int, expected: nat)

  function ContractReportPeriod(epochMs: int, startsAtS: int, endsAtS: int): Result<Days, SettleError> {
    var start, end := epochMs + startsAtS * 1_000, epochMs + endsAtS * 1_000;
    if end <= start || start % DAY_MS != 0 || end % DAY_MS != 0 then Err(PartialDays)
    else Ok(Days(start / DAY_MS, (end - DAY_MS) / DAY_MS, (end - start) / DAY_MS))
  }

  /** The days are exactly those that lie wholly within the span, and the span is nothing but those days. */
  lemma ReportPeriodIsItsDays(epochMs: int, startsAtS: int, endsAtS: int)
    requires ContractReportPeriod(epochMs, startsAtS, endsAtS).Ok?
    ensures var days := ContractReportPeriod(epochMs, startsAtS, endsAtS).value;
      && days.first * DAY_MS == epochMs + startsAtS * 1_000
      && (days.last + 1) * DAY_MS == epochMs + endsAtS * 1_000
      && days.expected == days.last - days.first + 1 && 1 <= days.expected
  {
  }

  /** Two spans that meet have adjacent days; a day belongs to one of them only. */
  lemma MeetingSpansAreAdjacent(epochMs: int, a: int, b: int, c: int)
    requires ContractReportPeriod(epochMs, a, b).Ok? && ContractReportPeriod(epochMs, b, c).Ok?
    ensures ContractReportPeriod(epochMs, a, b).value.last + 1 == ContractReportPeriod(epochMs, b, c).value.first
  {
    ReportPeriodIsItsDays(epochMs, a, b);
    ReportPeriodIsItsDays(epochMs, b, c);
  }

  // ------------------------------------------------------------------ the periods of a contract

  predicate WellFormed(contract: Contract) { 0 < contract.periodDuration && contract.startsAt < contract.endsAt }

  function PeriodCount(contract: Contract): (n: nat)
    requires WellFormed(contract)
    ensures 1 <= n && contract.startsAt + (n - 1) * contract.periodDuration < contract.endsAt <= contract.startsAt
            + n * contract.periodDuration
  {
    var span, d := contract.endsAt - contract.startsAt, contract.periodDuration;
    CeilingBounds(span, d);
    (span + d - 1) / d
  }

  lemma CeilingBounds(span: int, d: int)
    requires 0 < span && 0 < d
    ensures var n := (span + d - 1) / d; 1 <= n && (n - 1) * d < span <= n * d
  {
    var n := (span + d - 1) / d;
    assert span + d - 1 == n * d + (span + d - 1) % d;
    assert n * d - d == (n - 1) * d;
  }

  function PeriodStart(contract: Contract, period: int): int { contract.startsAt + period * contract.periodDuration }

  function PeriodEnd(contract: Contract, period: int): int {
    var end := PeriodStart(contract, period) + contract.periodDuration;
    if contract.endsAt < end then contract.endsAt else end
  }

  /** Periods meet: the first starts with the contract, each but the last ends where the next starts, the last
      ends with the contract. */
  lemma PeriodsMeet(contract: Contract, period: nat)
    requires WellFormed(contract) && period < PeriodCount(contract)
    ensures PeriodStart(contract, 0) == contract.startsAt
    ensures PeriodStart(contract, period) < PeriodEnd(contract, period)
    ensures if period + 1 < PeriodCount(contract) then PeriodEnd(contract, period) == PeriodStart(contract, period + 1)
            else PeriodEnd(contract, period) == contract.endsAt
  {
    var n, d := PeriodCount(contract), contract.periodDuration;
    assert (period + 1) * d == period * d + d;
    assert period * d <= (n - 1) * d;
    if period + 1 < n {
      assert (period + 1) * d <= (n - 1) * d;
    } else {
      assert period + 1 == n;
    }
  }

  // ------------------------------------------------------------------ the daily reports

  datatype Report = Report(id: Text, complete: bool, total: nat, punctual: nat, cancelled: nat, missingSeats: nat,
                           minimumSeats: Option<nat>,
                           missedConnections: nat, trainKm: nat, distanceMm: Option<nat>, costCents: nat,
                           penaltyCents: nat)

  datatype Totals = Totals(total: nat, punctual: nat, cancellations: nat, missingSeats: nat, missedConnections: nat,
                           distanceMm: nat,
                           costCents: nat, penaltyCents: nat, minimumSeats: Option<nat>)

  function DistanceOf(report: Report): nat {
    if report.distanceMm.Some? then report.distanceMm.value else report.trainKm * MM_PER_KM
  }

  predicate Safe(n: nat) { n <= MAX_SAFE }

  predicate ReportIsValid(report: Report, needsSeats: bool) {
    && report.complete
    && (needsSeats ==> report.minimumSeats.Some? && Safe(report.minimumSeats.value))
    && Safe(report.total) && Safe(report.punctual) && Safe(report.cancelled) && Safe(report.missingSeats)
       && Safe(report.missedConnections)
    && report.punctual + report.cancelled <= report.total
    && DistanceOf(report) / MM_PER_KM == report.trainKm
  }

  function Least(a: Option<nat>, b: nat): Option<nat> { if a.Some? && a.value < b then a else Some(b) }

  function Plus(t: Totals, report: Report, needsSeats: bool): Totals
    requires needsSeats ==> report.minimumSeats.Some?
  {
    Totals(t.total + report.total, t.punctual + report.punctual, t.cancellations + report.cancelled,
           t.missingSeats + report.missingSeats,
           t.missedConnections + report.missedConnections, t.distanceMm + DistanceOf(report),
           t.costCents + report.costCents,
           t.penaltyCents + report.penaltyCents, if needsSeats then Least(t.minimumSeats, report.minimumSeats.value)
           else t.minimumSeats)
  }

  predicate CountsAreSafe(t: Totals) {
    Safe(t.total) && Safe(t.punctual) && Safe(t.cancellations) && Safe(t.missingSeats) && Safe(t.missedConnections)
  }

  const NOTHING := Totals(0, 0, 0, 0, 0, 0, 0, 0, None)

  ghost predicate AllValid(reports: seq<Report>, needsSeats: bool) {
    forall i :: 0 <= i < |reports| ==> ReportIsValid(reports[i], needsSeats)
  }

  function TotalsOf(reports: seq<Report>, needsSeats: bool): Totals
    requires AllValid(reports, needsSeats)
  {
    if reports == [] then NOTHING
    else Plus(TotalsOf(reports[..|reports| - 1], needsSeats), reports[|reports| - 1], needsSeats)
  }

  method Aggregate(reports: seq<Report>, needsSeats: bool) returns (outcome: Result<Totals, SettleError>)
    ensures outcome.Ok? <==> AllValid(reports, needsSeats) && CountsAreSafe(TotalsOf(reports, needsSeats))
    ensures outcome.Ok? ==> outcome.value == TotalsOf(reports, needsSeats)
    ensures outcome.Err? ==> outcome.error == ReportInvalid || outcome.error == CountsUnsafe
  {
    var totals := NOTHING;
    var i := 0;
    while i < |reports|
      invariant 0 <= i <= |reports| && AllValid(reports[..i], needsSeats)
      invariant totals == TotalsOf(reports[..i], needsSeats) && CountsAreSafe(totals)
    {
      var report := reports[i];
      assert reports[..i + 1][..i] == reports[..i];
      if !ReportIsValid(report, needsSeats) {
        return Err(ReportInvalid);
      }
      assert AllValid(reports[..i + 1], needsSeats);
      totals := Plus(totals, report, needsSeats);
      if !CountsAreSafe(totals) {
        if AllValid(reports, needsSeats) {
          TotalsGrow(reports, needsSeats, i + 1);
        }
        return Err(CountsUnsafe);
      }
      i := i + 1;
    }
    assert reports[..i] == reports;
    outcome := Ok(totals);
  }

  lemma {:induction false} TotalsGrow(reports: seq<Report>, needsSeats: bool, n: nat)
    requires AllValid(reports, needsSeats) && n <= |reports|
    ensures CountsAreSafe(TotalsOf(reports, needsSeats)) ==> CountsAreSafe(TotalsOf(reports[..n], needsSeats))
    decreases |reports|
  {
    if n == |reports| {
      assert reports[..n] == reports;
    } else {
      TotalsGrow(reports[..|reports| - 1], needsSeats, n);
      assert reports[..|reports| - 1][..n] == reports[..n];
    }
  }

  function TrainKmOf(totals: Totals): nat { totals.distanceMm / MM_PER_KM }

  function FloorsOf(reports: seq<Report>): nat {
    if reports == [] then 0 else FloorsOf(reports[..|reports| - 1]) + reports[|reports| - 1].trainKm
  }

  /** The settled train kilometres are at least the sum of the daily whole kilometres, and exceed it by less
      than one for each day. */
  lemma {:induction false} TrainKmAreClose(reports: seq<Report>, needsSeats: bool)
    requires AllValid(reports, needsSeats)
    ensures FloorsOf(reports) * MM_PER_KM <= TotalsOf(reports, needsSeats).distanceMm <= FloorsOf(reports) * MM_PER_KM
            + |reports| * (MM_PER_KM - 1)
    ensures FloorsOf(reports) <= TrainKmOf(TotalsOf(reports, needsSeats))
    ensures reports != [] ==> TrainKmOf(TotalsOf(reports, needsSeats)) < FloorsOf(reports) + |reports|
  {
    if reports != [] {
      TrainKmAreClose(reports[..|reports| - 1], needsSeats);
    }
  }

  /** Punctual and cancelled runs together never exceed all runs. */
  lemma {:induction false} PunctualWithinTotal(reports: seq<Report>, needsSeats: bool)
    requires AllValid(reports, needsSeats)
    ensures var t := TotalsOf(reports, needsSeats); t.punctual + t.cancellations <= t.total
  {
    if reports != [] {
      PunctualWithinTotal(reports[..|reports| - 1], needsSeats);
    }
  }

  function PunctualityOf(totals: Totals): nat {
    if totals.total == 0 then 0 else totals.punctual * 10_000 / totals.total
  }

  /** Punctuality is a share: at most 10000 basis points, all of them exactly when every run was punctual. */
  lemma PunctualityIsShare(reports: seq<Report>, needsSeats: bool)
    requires AllValid(reports, needsSeats)
    ensures var t := TotalsOf(reports, needsSeats);
      PunctualityOf(t) <= 10_000 && (0 < t.total ==> (PunctualityOf(t) == 10_000 <==> t.punctual == t.total))
  {
    PunctualWithinTotal(reports, needsSeats);
    var t := TotalsOf(reports, needsSeats);
    if 0 < t.total {
      ShareBounds(t.punctual, t.total);
    }
  }

  lemma ShareBounds(part: nat, whole: nat)
    requires part <= whole && 0 < whole
    ensures part * 10_000 / whole <= 10_000 && (part * 10_000 / whole == 10_000 <==> part == whole)
  {
    var q := part * 10_000 / whole;
    QuotientBounds(part * 10_000, whole, q);
    if q >= 10_001 {
      Scaled(10_001, q, whole);
    }
    if q >= 10_000 {
      Scaled(10_000, q, whole);
    }
    if q < 10_000 {
      Scaled(q + 1, 10_000, whole);
    }
  }

  lemma QuotientBounds(a: nat, d: nat, q: nat)
    requires 0 < d && q == a / d
    ensures q * d <= a < (q + 1) * d
  {
    assert (q + 1) * d == q * d + d;
  }

  lemma Scaled(a: nat, b: nat, d: nat)
    requires a <= b
    ensures a * d <= b * d
  {
  }

  /** The promised seats are measured by the worst day. */
  lemma {:induction false} SeatsAreLeast(reports: seq<Report>)
    requires AllValid(reports, true)
    ensures var least := TotalsOf(reports, true).minimumSeats;
      && (least.None? <==> reports == [])
      && (least.Some? ==> (forall i :: 0 <= i < |reports| ==> least.value <= reports[i].minimumSeats.value)
                          && exists i :: 0 <= i < |reports| && least.value == reports[i].minimumSeats.value)
  {
    if reports != [] {
      var n := |reports| - 1;
      SeatsAreLeast(reports[..n]);
      assert forall i :: 0 <= i < n ==> reports[..n][i] == reports[i];
      var least := TotalsOf(reports, true).minimumSeats.value;
      if least != reports[n].minimumSeats.value {
        var i :| 0 <= i < |reports[..n]| && least == reports[..n][i].minimumSeats.value;
        assert least == reports[i].minimumSeats.value;
      }
    }
  }

  // ------------------------------------------------------------------ choosing the period

  datatype Settled = Settled(contractId: Text, period: nat)

  /** The first unsettled period, if it is over. */
  function NextPeriod(contract: Contract, settled: set<Settled>, now: nat, from: nat): Option<nat>
    requires WellFormed(contract) && from <= PeriodCount(contract)
    decreases PeriodCount(contract) - from
  {
    if from == PeriodCount(contract) then None
    else if Settled(contract.id, from) in settled then NextPeriod(contract, settled, now, from + 1)
    else if now >= PeriodEnd(contract, from) then Some(from)
    else None
  }

  lemma {:induction false} NextPeriodIs(contract: Contract, settled: set<Settled>, now: nat, from: nat)
    requires WellFormed(contract) && from <= PeriodCount(contract)
    ensures var next := NextPeriod(contract, settled, now, from);
      next.Some? ==> from <= next.value < PeriodCount(contract) && Settled(contract.id, next.value) !in settled
                     && PeriodEnd(contract, next.value) <= now
                     && forall p :: from <= p < next.value ==> Settled(contract.id, p) in settled
    decreases PeriodCount(contract) - from
  {
    if from < PeriodCount(contract) && Settled(contract.id, from) in settled {
      NextPeriodIs(contract, settled, now, from + 1);
    }
  }

  // ------------------------------------------------------------------ settling

  datatype Performance = Performance(trainKm: nat, minimumSeats: Option<nat>, punctuality: nat, totals: Totals)

  datatype Settlement = Settlement(contractId: Text, period: nat, at: int, days: Days, performance: Performance)

  datatype Economy = Economy(settled: set<Settled>, commands: set<Text>, journal: seq<Settlement>)

  /** Daily reports of the contract's operator by service day; `payable` stands for the tariff's own checks. */
  datatype Request = Request(commandId: Text, contract: Contract, epochMs: int, now: nat, reports: map<int, Report>,
                             payable: Performance -> bool)

  function DayRange(first: int, last: int): seq<int>
    decreases last - first + 1
  {
    if last < first then [] else DayRange(first, last - 1) + [last]
  }

  predicate AllReported(reports: map<int, Report>, days: Days) {
    forall day | days.first <= day <= days.last :: day in reports
  }

  function ReportsOf(reports: map<int, Report>, first: int, last: int): seq<Report>
    requires forall day | first <= day <= last :: day in reports
    decreases last - first + 1
  {
    if last < first then [] else ReportsOf(reports, first, last - 1) + [reports[last]]
  }

  function PerformanceOf(totals: Totals): Performance {
    Performance(TrainKmOf(totals), totals.minimumSeats, PunctualityOf(totals), totals)
  }

  ghost predicate PeriodIsProven(request: Request, days: Days) {
    AllReported(request.reports, days)
    && AllValid(ReportsOf(request.reports, days.first, days.last), request.contract.promisesSeats)
    && CountsAreSafe(TotalsOf(ReportsOf(request.reports, days.first, days.last), request.contract.promisesSeats))
  }

  /** When and with what a request succeeds. */
  ghost predicate Settles(economy: Economy, request: Request, settlement: Settlement) {
    var contract := request.contract;
    && WellFormed(contract)
    && NextPeriod(contract, economy.settled, request.now, 0) == Some(settlement.period)
    && settlement.contractId == contract.id && settlement.at == PeriodEnd(contract, settlement.period)
    && ContractReportPeriod(request.epochMs, PeriodStart(contract, settlement.period),
                            PeriodEnd(contract, settlement.period)) == Ok(settlement.days)
    && PeriodIsProven(request, settlement.days)
    && settlement.performance
       == PerformanceOf(TotalsOf(ReportsOf(request.reports, settlement.days.first, settlement.days.last),
                                 contract.promisesSeats))
    && settlement.performance.trainKm <= contract.trainKmPerPeriod
    && request.commandId !in economy.commands && request.payable(settlement.performance)
  }

  function Booked(economy: Economy, request: Request, settlement: Settlement): Economy {
    Economy(economy.settled + {Settled(settlement.contractId, settlement.period)},
            economy.commands + {request.commandId},
            economy.journal + [settlement])
  }

  class ContractOffice {
    var economy: Economy

    constructor ()
      ensures economy == Economy({}, {}, [])
    {
      economy := Economy({}, {}, []);
    }

    /** Settles the first unsettled period; a refusal changes nothing. */
    method Settle(request: Request) returns (outcome: Result<Settlement, SettleError>)
      modifies this
      ensures outcome.Ok? <==> exists settlement :: Settles(old(economy), request, settlement)
      ensures outcome.Ok?
              ==> Settles(old(economy), request, outcome.value)
                  && economy == Booked(old(economy), request, outcome.value)
      ensures outcome.Err? ==> economy == old(economy)
    {
      var contract := request.contract;
      if !WellFormed(contract) {
        return Err(InvalidPeriods);
      }
      var candidate, period := 0, None;
      while candidate < PeriodCount(contract)
        invariant candidate <= PeriodCount(contract) && period.None? && economy == old(economy)
        invariant NextPeriod(contract, economy.settled, request.now, 0)
                  == NextPeriod(contract, economy.settled, request.now, candidate)
      {
        if Settled(contract.id, candidate) !in economy.settled {
          if request.now >= PeriodEnd(contract, candidate) {
            period := Some(candidate);
          }
          break;
        }
        candidate := candidate + 1;
      }
      if period.None? {
        return Err(NothingFinished);
      }
      NextPeriodIs(contract, economy.settled, request.now, 0);
      var start, end := PeriodStart(contract, period.value), PeriodEnd(contract, period.value);
      var days := ContractReportPeriod(request.epochMs, start, end);
      if days.Err? {
        return Err(days.error);
      }
      if !AllReported(request.reports, days.value) {
        return Err(ReportsIncomplete);
      }
      var reports := ReportsOf(request.reports, days.value.first, days.value.last);
      var aggregated := Aggregate(reports, contract.promisesSeats);
      if aggregated.Err? {
        return Err(aggregated.error);
      }
      var performance := PerformanceOf(aggregated.value);
      if performance.trainKm > contract.trainKmPerPeriod {
        return Err(TooManyTrainKm);
      }
      if request.commandId in economy.commands {
        return Err(CommandRepeated);
      }
      if !request.payable(performance) {
        return Err(NotPayable);
      }
      var settlement := Settlement(contract.id, period.value, end, days.value, performance);
      assert Settles(economy, request, settlement);
      economy := Booked(economy, request, settlement);
      outcome := Ok(settlement);
    }
  }

  // ------------------------------------------------------------------ runs of settlements

  /** The contract's settlements in the order they were booked. */
  function OfContract(journal: seq<Settlement>, contractId: Text): seq<Settlement> {
    if journal == [] then []
    else OfContract(journal[..|journal| - 1], contractId)
         + (if journal[|journal| - 1].contractId == contractId then [journal[|journal| - 1]] else [])
  }

  /** The settled periods of a contract are 0, 1, 2, … in this order, none missing and none before its end;
      their service days meet and cover the contract from its start. */
  ghost predicate InStep(economy: Economy, contract: Contract, epochMs: int, now: nat)
    requires WellFormed(contract)
  {
    var mine := OfContract(economy.journal, contract.id);
    && |mine| <= PeriodCount(contract)
    && (forall p: nat :: Settled(contract.id, p) in economy.settled <==> p < |mine|)
    && (forall p :: 0 <= p < |mine| ==> IsPeriod(mine[p], p, contract, epochMs, now))
  }

  ghost predicate IsPeriod(settlement: Settlement, p: nat, contract: Contract, epochMs: int, now: nat) {
    && settlement.period == p && settlement.at == PeriodEnd(contract, p) <= now
    && ContractReportPeriod(epochMs, PeriodStart(contract, p), PeriodEnd(contract, p)) == Ok(settlement.days)
  }

  /** A settlement of any contract keeps a contract in step. */
  lemma SettlingKeepsStep(economy: Economy, request: Request, settlement: Settlement, contract: Contract)
    requires WellFormed(contract) && InStep(economy, contract, request.epochMs, request.now)
    requires Settles(economy, request, settlement)
             && (request.contract.id == contract.id ==> request.contract == contract)
    ensures InStep(Booked(economy, request, settlement), contract, request.epochMs, request.now)
  {
    var after := Booked(economy, request, settlement);
    var mine := OfContract(economy.journal, contract.id);
    assert after.journal[..|economy.journal|] == economy.journal;
    if request.contract.id == contract.id {
      NextPeriodIs(contract, economy.settled, request.now, 0);
      var count: nat := |mine|;
      assert Settled(contract.id, count) !in economy.settled;
      assert settlement.period == count;
    }
  }

  /** While time passes nothing falls out of step. */
  lemma WaitingKeepsStep(economy: Economy, contract: Contract, epochMs: int, now: nat, later: nat)
    requires WellFormed(contract) && InStep(economy, contract, epochMs, now) && now <= later
    ensures InStep(economy, contract, epochMs, later)
  {
    var mine := OfContract(economy.journal, contract.id);
    forall p | 0 <= p < |mine|
      ensures IsPeriod(mine[p], p, contract, epochMs, later)
    {
      assert IsPeriod(mine[p], p, contract, epochMs, now);
    }
  }

  datatype Booking = Booking(request: Request, settlement: Settlement)

  function AfterBookings(economy: Economy, bookings: seq<Booking>): Economy {
    if bookings == [] then economy
    else Booked(AfterBookings(economy, bookings[..|bookings| - 1]), bookings[|bookings| - 1].request,
                bookings[|bookings| - 1].settlement)
  }

  /** Each booking settles its request in the state the earlier ones left, in the order of time, and requests
      for one contract agree on its terms. */
  ghost predicate Books(economy: Economy, bookings: seq<Booking>, contract: Contract, epochMs: int) {
    bookings == []
    || (var n := |bookings| - 1;
        && Books(economy, bookings[..n], contract, epochMs)
        && Settles(AfterBookings(economy, bookings[..n]), bookings[n].request, bookings[n].settlement)
        && bookings[n].request.epochMs == epochMs
        && (bookings[n].request.contract.id == contract.id ==> bookings[n].request.contract == contract)
        && LastTime(bookings[..n]) <= bookings[n].request.now)
  }

  function LastTime(bookings: seq<Booking>): nat {
    if bookings == [] then 0 else bookings[|bookings| - 1].request.now
  }

  /** Over every run of settlements, of this contract and of others, the contract's periods are settled in step. */
  lemma {:induction false} RunsStayInStep(bookings: seq<Booking>, contract: Contract, epochMs: int)
    requires WellFormed(contract) && Books(Economy({}, {}, []), bookings, contract, epochMs)
    ensures InStep(AfterBookings(Economy({}, {}, []), bookings), contract, epochMs, LastTime(bookings))
  {
    if bookings != [] {
      var n := |bookings| - 1;
      RunsStayInStep(bookings[..n], contract, epochMs);
      var before, now := AfterBookings(Economy({}, {}, []), bookings[..n]), bookings[n].request.now;
      WaitingKeepsStep(before, contract, epochMs, LastTime(bookings[..n]), now);
      SettlingKeepsStep(before, bookings[n].request, bookings[n].settlement, contract);
    }
  }

  /** The service days of the settled periods are adjacent, so no day is used twice and none is left out. */
  lemma SettledDaysAreAdjacent(economy: Economy, contract: Contract, epochMs: int, now: nat, p: nat)
    requires WellFormed(contract) && InStep(economy, contract, epochMs, now)
    requires p + 1 < |OfContract(economy.journal, contract.id)|
    ensures var mine := OfContract(economy.journal, contract.id);
      mine[p].days.last + 1 == mine[p + 1].days.first
  {
    var mine := OfContract(economy.journal, contract.id);
    assert IsPeriod(mine[p], p, contract, epochMs, now) && IsPeriod(mine[p + 1], p + 1, contract, epochMs, now);
    PeriodsMeet(contract, p);
    MeetingSpansAreAdjacent(epochMs, PeriodStart(contract, p), PeriodEnd(contract, p), PeriodEnd(contract, p + 1));
  }

  /** Distinct periods use distinct days. */
  lemma {:induction false} SettledDaysAreDisjoint(economy: Economy, contract: Contract, epochMs: int, now: nat, p: nat,
                                                  q: nat)
    requires WellFormed(contract) && InStep(economy, contract, epochMs, now)
             && p < q < |OfContract(economy.journal, contract.id)|
    ensures var mine := OfContract(economy.journal, contract.id);
      mine[p].days.first <= mine[p].days.last < mine[q].days.first <= mine[q].days.last
    decreases q
  {
    var mine := OfContract(economy.journal, contract.id);
    assert IsPeriod(mine[p], p, contract, epochMs, now) && IsPeriod(mine[q], q, contract, epochMs, now);
    ReportPeriodIsItsDays(epochMs, PeriodStart(contract, p), PeriodEnd(contract, p));
    ReportPeriodIsItsDays(epochMs, PeriodStart(contract, q), PeriodEnd(contract, q));
    SettledDaysAreAdjacent(economy, contract, epochMs, now, q - 1);
    if p < q - 1 {
      SettledDaysAreDisjoint(economy, contract, epochMs, now, p, q - 1);
    }
  }

  function DayCount(settlements: seq<Settlement>): nat {
    if settlements == [] then 0
    else DayCount(settlements[..|settlements| - 1]) + settlements[|settlements| - 1].days.expected
  }

  lemma {:induction false} DaysCovered(mine: seq<Settlement>, contract: Contract, epochMs: int, now: nat)
    requires WellFormed(contract) && |mine| <= PeriodCount(contract)
    requires forall p :: 0 <= p < |mine| ==> IsPeriod(mine[p], p, contract, epochMs, now)
    ensures DayCount(mine) * DAY_MS
            == (if mine == [] then 0 else PeriodEnd(contract, |mine| - 1) - contract.startsAt) * 1_000
  {
    if mine != [] {
      var n := |mine| - 1;
      assert forall p :: 0 <= p < n ==> mine[..n][p] == mine[p];
      DaysCovered(mine[..n], contract, epochMs, now);
      assert IsPeriod(mine[n], n, contract, epochMs, now);
      ReportPeriodIsItsDays(epochMs, PeriodStart(contract, n), PeriodEnd(contract, n));
      PeriodsMeet(contract, n);
      if 0 < n {
        PeriodsMeet(contract, n - 1);
      }
    }
  }

  /** The settled days tile the contract's duration exactly when every period is settled. */
  lemma AllDaysWhenAllSettled(economy: Economy, contract: Contract, epochMs: int, now: nat)
    requires WellFormed(contract) && InStep(economy, contract, epochMs, now)
    ensures var mine := OfContract(economy.journal, contract.id);
      DayCount(mine) * DAY_MS == (contract.endsAt - contract.startsAt) * 1_000 <==> |mine| == PeriodCount(contract)
  {
    var mine := OfContract(economy.journal, contract.id);
    DaysCovered(mine, contract, epochMs, now);
    if mine != [] {
      PeriodsMeet(contract, |mine| - 1);
      if |mine| < PeriodCount(contract) {
        PeriodsMeet(contract, |mine|);
        assert PeriodStart(contract, |mine|) < PeriodEnd(contract, |mine|) <= contract.endsAt;
      }
    }
  }
}
