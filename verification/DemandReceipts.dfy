/** Passenger stop receipts of apps/game-api/src/demand-progress.ts: validating a collection of them
    against the offered services, ordering it, and transporting it into the kernel's progress form. */
module DemandReceipts {
  import opened Outcomes
  import opened Sorting
  import opened TextOrder

  datatype Kind = Arrival | Departure

  datatype Receipt = Receipt(worldId: Text, serviceRunId: Text, trainRunId: Text, stopId: Text, stopSequence: nat,
                             stopPlanHash: Text, routeVersionId: Text, formationVersionId: Text, kind: Kind,
                             actualTimeMs: nat, receiptId: Text)

  datatype Stop = Stop(stopId: Text, passengerStop: bool, arrivalMs: nat, departureMs: nat)

  /** A service of the demand input; `details` stands for its remaining fields. */
  datatype Service = Service(trainRunId: Text, stops: seq<Stop>, cancelled: bool, details: Text)

  datatype ReceiptError = StopNotOffered | ReceiptIdReused | BindingsDiffer | StopRepeated | ReceiptForeignOrLate
      | TimesContradict

  datatype StopKey = StopKey(trainRunId: Text, stopId: Text)

  datatype EventKey = EventKey(trainRunId: Text, stopId: Text, kind: Kind)

  datatype Binding = Binding(serviceRunId: Text, stopPlanHash: Text, stopSequence: nat)

  function StopKeyOf(r: Receipt): StopKey { StopKey(r.trainRunId, r.stopId) }

  function EventKeyOf(r: Receipt): EventKey { EventKey(r.trainRunId, r.stopId, r.kind) }

  function BindingOf(r: Receipt): Binding { Binding(r.serviceRunId, r.stopPlanHash, r.stopSequence) }

  /** The first service of the train. */
  function FindService(services: seq<Service>, trainRunId: Text): Option<Service> {
    if services == [] then None
    else if services[0].trainRunId == trainRunId then Some(services[0])
    else FindService(services[1..], trainRunId)
  }

  // ------------------------------------------------------------------ which collections are accepted

  /** The receipt names a passenger stop at its place in its train's service. */
  predicate StopFits(r: Receipt, services: seq<Service>) {
    match FindService(services, r.trainRunId)
    case None => false
    case Some(service) => r.stopSequence < |service.stops| && service.stops[r.stopSequence].stopId == r.stopId
                          && service.stops[r.stopSequence].passengerStop
  }

  predicate Agree(a: Receipt, b: Receipt) {
    && (a.receiptId == b.receiptId ==> a == b)
    && (StopKeyOf(a) == StopKeyOf(b) ==> BindingOf(a) == BindingOf(b))
    && (EventKeyOf(a) == EventKeyOf(b) ==> a == b)
  }

  ghost predicate Fit(receipts: seq<Receipt>, services: seq<Service>) {
    forall i :: 0 <= i < |receipts| ==> StopFits(receipts[i], services)
  }

  ghost predicate Consistent(receipts: seq<Receipt>) {
    forall i, j :: 0 <= i < |receipts| && 0 <= j < |receipts| ==> Agree(receipts[i], receipts[j])
  }

  ghost predicate Accepts(receipts: seq<Receipt>, services: seq<Service>) {
    Fit(receipts, services) && Consistent(receipts)
  }

  // ------------------------------------------------------------------ the order of receipts

  predicate ReceiptAtMost(a: Receipt, b: Receipt) {
    if a.actualTimeMs != b.actualTimeMs then a.actualTimeMs < b.actualTimeMs
    else if a.trainRunId != b.trainRunId then Less(a.trainRunId, b.trainRunId)
    else if a.stopSequence != b.stopSequence then a.stopSequence < b.stopSequence
    else a.kind == b.kind || a.kind.Arrival?
  }

  lemma ReceiptOrder()
    ensures TotalPreorder(ReceiptAtMost)
  {
    forall a, b
      ensures ReceiptAtMost(a, b) || ReceiptAtMost(b, a)
    {
      LessTotal(a.trainRunId, b.trainRunId);
    }
    forall a, b, c | ReceiptAtMost(a, b) && ReceiptAtMost(b, c)
      ensures ReceiptAtMost(a, c)
    {
      ReceiptOrderChains(a, b, c);
    }
  }

  lemma ReceiptOrderChains(a: Receipt, b: Receipt, c: Receipt)
    requires ReceiptAtMost(a, b) && ReceiptAtMost(b, c)
    ensures ReceiptAtMost(a, c)
  {
    if Less(a.trainRunId, b.trainRunId) && Less(b.trainRunId, c.trainRunId) {
      LessTransitive(a.trainRunId, b.trainRunId, c.trainRunId);
      LessIrreflexive(a.trainRunId);
    }
  }

  /** Receipts that the order cannot tell apart are the same, because the service ties the place in the
      train's run to one stop. */
  lemma OrderTellsApart(receipts: seq<Receipt>, services: seq<Service>, a: Receipt, b: Receipt)
    requires Accepts(receipts, services) && a in receipts && b in receipts
    requires ReceiptAtMost(a, b) && ReceiptAtMost(b, a)
    ensures a == b
  {
    if a.trainRunId != b.trainRunId {
      LessAsymmetric(a.trainRunId, b.trainRunId);
    }
    assert StopFits(a, services) && StopFits(b, services);
    assert a.stopId == b.stopId;
    assert Agree(a, b);
  }

  /** The order alone does not: two receipts may differ in the stop only. */
  lemma OrderNeedsTheService()
    ensures exists a, b :: ReceiptAtMost(a, b) && ReceiptAtMost(b, a) && a != b && Consistent([a, b])
  {
    var a := Receipt([], [], [], [0], 0, [], [], [], Arrival, 0, [0]);
    var b := Receipt([], [], [], [1], 0, [], [], [], Arrival, 0, [1]);
    assert Agree(a, b) && Agree(b, a) && Agree(a, a) && Agree(b, b);
    assert Consistent([a, b]);
    assert ReceiptAtMost(a, b) && ReceiptAtMost(b, a);
  }

  // ------------------------------------------------------------------ the validated set

  /** First occurrences. */
  function Once<T(==,!new)>(s: seq<T>): (once: seq<T>)
    ensures forall x :: x in once <==> x in s
    ensures |once| <= |s|
  {
    if s == [] then []
    else
      var before := Once(s[..|s| - 1]);
      assert s == s[..|s| - 1] + [s[|s| - 1]];
      if s[|s| - 1] in before then before else before + [s[|s| - 1]]
  }

  lemma {:induction false} OnceIsOnce<T(!new)>(s: seq<T>)
    ensures Distinct(Once(s))
  {
    if s != [] {
      OnceIsOnce(s[..|s| - 1]);
    }
  }

  /** The receipts, each once, in order. */
  function Ordered(receipts: seq<Receipt>): seq<Receipt> {
    Sort(Once(receipts), ReceiptAtMost)
  }

  lemma OrderedMembers(receipts: seq<Receipt>)
    ensures forall r :: r in Ordered(receipts) <==> r in receipts
    ensures Distinct(Ordered(receipts)) && Sorted(Ordered(receipts), ReceiptAtMost)
    ensures |Ordered(receipts)| <= |receipts|
  {
    OnceIsOnce(receipts);
    SortPermutes(Once(receipts), ReceiptAtMost);
    SortDistinct(Once(receipts), ReceiptAtMost);
    ReceiptOrder();
    SortSorted(Once(receipts), ReceiptAtMost);
  }

  ghost predicate SameMembers<T(!new)>(s: seq<T>, t: seq<T>) {
    forall x :: x in s <==> x in t
  }

  /** Acceptance looks at the receipts as a set. */
  lemma AcceptanceIgnoresArrangement(s: seq<Receipt>, t: seq<Receipt>, services: seq<Service>)
    requires SameMembers(s, t) && Accepts(s, services)
    ensures Accepts(t, services)
  {
    forall i | 0 <= i < |t|
      ensures StopFits(t[i], services)
    {
      assert t[i] in s;
    }
    forall i, j | 0 <= i < |t| && 0 <= j < |t|
      ensures Agree(t[i], t[j])
    {
      assert t[i] in s && t[j] in s;
    }
  }

  /** A strictly ordered list of an accepted set is the only one. */
  lemma OrderIsUnique(s: seq<Receipt>, t: seq<Receipt>, services: seq<Service>)
    requires Accepts(s, services) && SameMembers(s, t)
    requires Distinct(s) && Distinct(t) && Sorted(s, ReceiptAtMost) && Sorted(t, ReceiptAtMost)
    ensures s == t
  {
    SameElements(s, t);
    forall a, b | a in s && b in s && ReceiptAtMost(a, b) && ReceiptAtMost(b, a)
      ensures a == b
    {
      OrderTellsApart(s, services, a, b);
    }
    SortedUnique(s, t, ReceiptAtMost);
  }

  /** Neither permuting nor repeating receipts changes whether they are rejected or what they validate to. */
  lemma ValidationIgnoresArrangement(s: seq<Receipt>, t: seq<Receipt>, services: seq<Service>)
    requires SameMembers(s, t)
    ensures Accepts(s, services) <==> Accepts(t, services)
    ensures Accepts(s, services) ==> Ordered(s) == Ordered(t)
  {
    if Accepts(s, services) {
      AcceptanceIgnoresArrangement(s, t, services);
      OrderedMembers(s);
      OrderedMembers(t);
      AcceptanceIgnoresArrangement(s, Ordered(s), services);
      OrderIsUnique(Ordered(s), Ordered(t), services);
    }
    if Accepts(t, services) {
      AcceptanceIgnoresArrangement(t, s, services);
    }
  }

  /** Validating a validated set again changes nothing. */
  lemma ValidationIsIdempotent(receipts: seq<Receipt>, services: seq<Service>)
    requires Accepts(receipts, services)
    ensures Accepts(Ordered(receipts), services) && Ordered(Ordered(receipts)) == Ordered(receipts)
  {
    OrderedMembers(receipts);
    ValidationIgnoresArrangement(receipts, Ordered(receipts), services);
  }

  // ------------------------------------------------------------------ the validating loop

  /** What the loop has noted of the receipts seen so far. */
  datatype Tables = Tables(ids: map<Text, Receipt>, bindings: map<StopKey, Binding>, stops: map<EventKey, Receipt>)

  ghost predicate IdsOf(ids: map<Text, Receipt>, seen: seq<Receipt>) {
    && (forall k :: 0 <= k < |seen| ==> seen[k].receiptId in ids && ids[seen[k].receiptId] == seen[k])
    && (forall id :: id in ids ==> ids[id] in seen && ids[id].receiptId == id)
  }

  ghost predicate StopsOf(stops: map<EventKey, Receipt>, seen: seq<Receipt>) {
    && (forall k :: 0 <= k < |seen| ==> EventKeyOf(seen[k]) in stops && stops[EventKeyOf(seen[k])] == seen[k])
    && (forall key :: key in stops ==> stops[key] in seen && EventKeyOf(stops[key]) == key)
  }

  ghost predicate BindingsOf(bindings: map<StopKey, Binding>, seen: seq<Receipt>) {
    && (forall k :: 0 <= k < |seen|
          ==> StopKeyOf(seen[k]) in bindings && bindings[StopKeyOf(seen[k])] == BindingOf(seen[k]))
    && (forall key :: key in bindings ==> exists k :: 0 <= k < |seen| && StopKeyOf(seen[k]) == key)
  }

  ghost predicate Notes(tables: Tables, seen: seq<Receipt>) {
    IdsOf(tables.ids, seen) && BindingsOf(tables.bindings, seen) && StopsOf(tables.stops, seen)
  }

  /** The objection to one more receipt, in the order of the source's checks. */
  function Objection(tables: Tables, r: Receipt, services: seq<Service>): Option<ReceiptError> {
    if !StopFits(r, services) then Some(StopNotOffered)
    else if r.receiptId in tables.ids && tables.ids[r.receiptId] != r then Some(ReceiptIdReused)
    else if StopKeyOf(r) in tables.bindings && tables.bindings[StopKeyOf(r)] != BindingOf(r) then Some(BindingsDiffer)
    else if EventKeyOf(r) in tables.stops && tables.stops[EventKeyOf(r)] != r then Some(StopRepeated)
    else None
  }

  function Note(tables: Tables, r: Receipt): Tables {
    Tables(tables.ids[r.receiptId := r], tables.bindings[StopKeyOf(r) := BindingOf(r)],
           tables.stops[EventKeyOf(r) := r])
  }

  /** The tables object exactly to receipts that do not fit or disagree with an earlier one. */
  lemma ObjectionIsDisagreement(tables: Tables, seen: seq<Receipt>, r: Receipt, services: seq<Service>)
    requires Notes(tables, seen)
    ensures Objection(tables, r, services).None?
            <==> StopFits(r, services) && forall k :: 0 <= k < |seen| ==> Agree(seen[k], r)
  {
    if Objection(tables, r, services).None? {
      assert forall k :: 0 <= k < |seen| ==> Agree(seen[k], r);
    } else if StopFits(r, services) {
      if r.receiptId in tables.ids && tables.ids[r.receiptId] != r {
        assert !Agree(tables.ids[r.receiptId], r);
      } else if StopKeyOf(r) in tables.bindings && tables.bindings[StopKeyOf(r)] != BindingOf(r) {
        var k :| 0 <= k < |seen| && StopKeyOf(seen[k]) == StopKeyOf(r);
        assert !Agree(seen[k], r);
      } else {
        assert !Agree(tables.stops[EventKeyOf(r)], r);
      }
    }
  }

  lemma NoteNotes(tables: Tables, seen: seq<Receipt>, r: Receipt)
    requires Notes(tables, seen) && forall k :: 0 <= k < |seen| ==> Agree(seen[k], r)
    ensures Notes(Note(tables, r), seen + [r])
  {
    var all := seen + [r];
    assert all[|seen|] == r;
    assert forall k :: 0 <= k < |seen| ==> all[k] == seen[k];
    NoteIds(tables.ids, seen, r);
    NoteBindings(tables.bindings, seen, r);
    NoteStops(tables.stops, seen, r);
  }

  lemma NoteIds(ids: map<Text, Receipt>, seen: seq<Receipt>, r: Receipt)
    requires IdsOf(ids, seen) && forall k :: 0 <= k < |seen| ==> Agree(seen[k], r)
    ensures IdsOf(ids[r.receiptId := r], seen + [r])
  {
    var all := seen + [r];
    assert r in all && all[|seen|] == r;
    assert forall k :: 0 <= k < |seen| ==> all[k] == seen[k] && Agree(seen[k], r);
  }

  lemma NoteBindings(bindings: map<StopKey, Binding>, seen: seq<Receipt>, r: Receipt)
    requires BindingsOf(bindings, seen) && forall k :: 0 <= k < |seen| ==> Agree(seen[k], r)
    ensures BindingsOf(bindings[StopKeyOf(r) := BindingOf(r)], seen + [r])
  {
    var all := seen + [r];
    assert all[|seen|] == r;
    assert forall k :: 0 <= k < |seen| ==> all[k] == seen[k] && Agree(seen[k], r);
    forall key | key in bindings
      ensures exists k :: 0 <= k < |all| && StopKeyOf(all[k]) == key
    {
      var k :| 0 <= k < |seen| && StopKeyOf(seen[k]) == key;
      assert StopKeyOf(all[k]) == key;
    }
  }

  lemma NoteStops(stops: map<EventKey, Receipt>, seen: seq<Receipt>, r: Receipt)
    requires StopsOf(stops, seen) && forall k :: 0 <= k < |seen| ==> Agree(seen[k], r)
    ensures StopsOf(stops[EventKeyOf(r) := r], seen + [r])
  {
    var all := seen + [r];
    assert r in all && all[|seen|] == r;
    assert forall k :: 0 <= k < |seen| ==> all[k] == seen[k] && Agree(seen[k], r);
  }

  /** The validating loop: three tables, each receipt checked against what they already hold. */
  method ValidateReceiptSet(receipts: seq<Receipt>, services: seq<Service>)
    returns (outcome: Result<seq<Receipt>, ReceiptError>)
    ensures outcome.Ok? <==> Accepts(receipts, services)
    ensures outcome.Ok? ==> outcome.value == Ordered(receipts)
  {
    var tables := Tables(map[], map[], map[]);
    var kept: seq<Receipt> := [];
    var i := 0;
    while i < |receipts|
      invariant 0 <= i <= |receipts|
      invariant SoFar(tables, kept, receipts, i, services)
    {
      var r := receipts[i];
      NextReceipt(tables, kept, receipts, i, services);
      var objection := Objection(tables, r, services);
      if objection.Some? {
        return Err(objection.value);
      }
      if EventKeyOf(r) !in tables.stops {
        kept := kept + [r];
      }
      tables := Note(tables, r);
      i := i + 1;
    }
    outcome := Ok(Sort(kept, ReceiptAtMost));
    AllSeen(tables, kept, receipts, services);
  }

  function TablesOf(seen: seq<Receipt>): Tables {
    if seen == [] then Tables(map[], map[], map[]) else Note(TablesOf(seen[..|seen| - 1]), seen[|seen| - 1])
  }

  lemma {:induction false} TablesNote(seen: seq<Receipt>)
    requires Consistent(seen)
    ensures Notes(TablesOf(seen), seen)
  {
    if seen != [] {
      var before, r := seen[..|seen| - 1], seen[|seen| - 1];
      assert before + [r] == seen;
      ConsistentPrefix(before, r);
      TablesNote(before);
      NoteNotes(TablesOf(before), before, r);
    }
  }

  lemma ConsistentPrefix(before: seq<Receipt>, r: Receipt)
    requires Consistent(before + [r])
    ensures Consistent(before)
    ensures forall k :: 0 <= k < |before| ==> Agree(before[k], r)
  {
    var all := before + [r];
    forall i, j | 0 <= i < |before| && 0 <= j < |before|
      ensures Agree(before[i], before[j])
    {
      assert Agree(all[i], all[j]);
    }
    forall k | 0 <= k < |before|
      ensures Agree(before[k], r)
    {
      assert Agree(all[k], all[|before|]);
    }
  }

  /** After the first `n` receipts. */
  ghost predicate SoFar(tables: Tables, kept: seq<Receipt>, all: seq<Receipt>, n: nat, services: seq<Service>) {
    n <= |all| && Accepts(all[..n], services) && kept == Once(all[..n]) && tables == TablesOf(all[..n])
  }

  lemma NextReceipt(tables: Tables, kept: seq<Receipt>, all: seq<Receipt>, n: nat, services: seq<Service>)
    requires SoFar(tables, kept, all, n, services) && n < |all|
    ensures Objection(tables, all[n], services).Some? ==> !Accepts(all, services)
    ensures Objection(tables, all[n], services).None? ==>
              SoFar(Note(tables, all[n]), if EventKeyOf(all[n]) in tables.stops then kept
                    else kept + [all[n]], all, n + 1, services)
  {
    var seen, r := all[..n], all[n];
    assert all[..n + 1] == seen + [r];
    assert (seen + [r])[..n] == seen;
    if Objection(tables, r, services).None? {
      NotedReceipt(tables, seen, r, services);
    } else {
      ObjectedReceipt(tables, seen, r, services, all);
    }
  }

  lemma NotedReceipt(tables: Tables, seen: seq<Receipt>, r: Receipt, services: seq<Service>)
    requires Accepts(seen, services) && tables == TablesOf(seen) && Objection(tables, r, services).None?
    ensures Accepts(seen + [r], services)
    ensures Once(seen + [r]) == if EventKeyOf(r) in tables.stops then Once(seen) else Once(seen) + [r]
  {
    TablesNote(seen);
    ObjectionIsDisagreement(tables, seen, r, services);
    Extends(seen, r, services, seen + [r]);
    OnceStep(tables, seen, r);
  }

  lemma ObjectedReceipt(tables: Tables, seen: seq<Receipt>, r: Receipt, services: seq<Service>, all: seq<Receipt>)
    requires Accepts(seen, services) && tables == TablesOf(seen) && Objection(tables, r, services).Some?
             && seen + [r] <= all
    ensures !Accepts(all, services)
  {
    TablesNote(seen);
    ObjectionIsDisagreement(tables, seen, r, services);
    Extends(seen, r, services, all);
  }

  lemma AllSeen(tables: Tables, kept: seq<Receipt>, all: seq<Receipt>, services: seq<Service>)
    requires SoFar(tables, kept, all, |all|, services)
    ensures Accepts(all, services) && Sort(kept, ReceiptAtMost) == Ordered(all)
  {
    assert all[..|all|] == all;
  }

  lemma OnceStep(tables: Tables, seen: seq<Receipt>, r: Receipt)
    requires Notes(tables, seen) && forall k :: 0 <= k < |seen| ==> Agree(seen[k], r)
    ensures Once(seen + [r]) == if EventKeyOf(r) in tables.stops then Once(seen) else Once(seen) + [r]
  {
    assert (seen + [r])[..|seen|] == seen;
    SeenIsNoted(tables, seen, r);
  }

  /** An event is noted exactly when this very receipt was seen. */
  lemma SeenIsNoted(tables: Tables, seen: seq<Receipt>, r: Receipt)
    requires Notes(tables, seen) && forall k :: 0 <= k < |seen| ==> Agree(seen[k], r)
    ensures EventKeyOf(r) in tables.stops <==> r in seen
  {
    if EventKeyOf(r) in tables.stops {
      var k :| 0 <= k < |seen| && seen[k] == tables.stops[EventKeyOf(r)];
      assert Agree(seen[k], r);
    }
  }

  /** Accepting one more receipt means that it fits and agrees with every earlier one. */
  lemma Extends(before: seq<Receipt>, r: Receipt, services: seq<Service>, all: seq<Receipt>)
    requires before + [r] <= all && Accepts(before, services)
    ensures Accepts(before + [r], services)
            <==> StopFits(r, services) && forall k :: 0 <= k < |before| ==> Agree(before[k], r)
    ensures !Accepts(before + [r], services) ==> !Accepts(all, services)
  {
    var next := before + [r];
    if Accepts(next, services) {
      assert next[|before|] == r;
      forall k | 0 <= k < |before|
        ensures Agree(before[k], r)
      {
        assert Agree(next[k], next[|before|]);
      }
    }
    if Accepts(all, services) {
      assert forall k :: 0 <= k < |next| ==> next[k] == all[k];
    }
  }

  // ------------------------------------------------------------------ the kernel's progress form

  datatype Times = Times(actualArrivalMs: Option<nat>, actualDepartureMs: Option<nat>)

  type Progress = map<Text, map<Text, Times>>

  function TimesAt(progress: Progress, key: StopKey): Times {
    if key.trainRunId in progress && key.stopId in progress[key.trainRunId] then progress[key.trainRunId][key.stopId]
    else Times(None, None)
  }

  function Field(times: Times, kind: Kind): Option<nat> {
    if kind.Arrival? then times.actualArrivalMs else times.actualDepartureMs
  }

  function WithTime(times: Times, kind: Kind, atMs: nat): Times {
    if kind.Arrival? then times.(actualArrivalMs := Some(atMs)) else times.(actualDepartureMs := Some(atMs))
  }

  function AddReceipt(progress: Progress, r: Receipt): (next: Progress)
    ensures TimesAt(next, StopKeyOf(r)) == WithTime(TimesAt(progress, StopKeyOf(r)), r.kind, r.actualTimeMs)
    ensures forall key :: key != StopKeyOf(r) ==> TimesAt(next, key) == TimesAt(progress, key)
    ensures forall t :: t in next <==> t in progress || t == r.trainRunId
    ensures r.stopId in next[r.trainRunId]
    ensures forall t, s :: t in next && s in next[t]
              <==> (t in progress && s in progress[t]) || StopKey(t, s) == StopKeyOf(r)
  {
    var stops := if r.trainRunId in progress then progress[r.trainRunId] else map[];
    progress[r.trainRunId := stops[r.stopId := WithTime(TimesAt(progress, StopKeyOf(r)), r.kind, r.actualTimeMs)]]
  }

  function ProgressOf(receipts: seq<Receipt>): Progress {
    if receipts == [] then map[] else AddReceipt(ProgressOf(receipts[..|receipts| - 1]), receipts[|receipts| - 1])
  }

  /** No two receipts give different times for one event. */
  ghost predicate OneTimeAnEvent(receipts: seq<Receipt>) {
    forall i, j :: 0 <= i < j < |receipts| && EventKeyOf(receipts[i]) == EventKeyOf(receipts[j]) ==>
      receipts[i].actualTimeMs == receipts[j].actualTimeMs
  }

  /** The transport loses nothing and adds nothing: each time recorded is that of a receipt of the event,
      every receipt's time is recorded, and no other train or stop is mentioned. */
  ghost predicate Lossless(progress: Progress, receipts: seq<Receipt>) {
    && (forall i :: 0 <= i < |receipts| ==>
          Field(TimesAt(progress, StopKeyOf(receipts[i])), receipts[i].kind) == Some(receipts[i].actualTimeMs))
    && (forall key, kind :: Field(TimesAt(progress, key), kind).Some? ==> Mentions(receipts, key, kind))
    && (forall t, s :: t in progress && s in progress[t]
          ==> Mentions(receipts, StopKey(t, s), Arrival) || Mentions(receipts, StopKey(t, s), Departure))
    && (forall t :: t in progress ==> progress[t] != map[])
  }

  ghost predicate Mentions(receipts: seq<Receipt>, key: StopKey, kind: Kind) {
    exists i :: 0 <= i < |receipts| && StopKeyOf(receipts[i]) == key && receipts[i].kind == kind
  }

  lemma {:induction false} ProgressIsLossless(receipts: seq<Receipt>)
    requires OneTimeAnEvent(receipts)
    ensures Lossless(ProgressOf(receipts), receipts)
  {
    if receipts != [] {
      var before, r := receipts[..|receipts| - 1], receipts[|receipts| - 1];
      assert receipts == before + [r];
      OneTimeBefore(before, r);
      ProgressIsLossless(before);
      AddingIsLossless(ProgressOf(before), before, r);
    }
  }

  lemma OneTimeBefore(before: seq<Receipt>, r: Receipt)
    requires OneTimeAnEvent(before + [r])
    ensures OneTimeAnEvent(before)
    ensures forall i :: 0 <= i < |before| && EventKeyOf(before[i]) == EventKeyOf(r)
              ==> before[i].actualTimeMs == r.actualTimeMs
  {
    var all := before + [r];
    assert all[|before|] == r && forall i :: 0 <= i < |before| ==> all[i] == before[i];
  }

  lemma AddingIsLossless(progress: Progress, before: seq<Receipt>, r: Receipt)
    requires Lossless(progress, before)
    requires forall i :: 0 <= i < |before| && EventKeyOf(before[i]) == EventKeyOf(r)
               ==> before[i].actualTimeMs == r.actualTimeMs
    ensures Lossless(AddReceipt(progress, r), before + [r])
  {
    var next, all := AddReceipt(progress, r), before + [r];
    forall key, kind
      ensures Mentions(all, key, kind) <==> Mentions(before, key, kind) || (StopKeyOf(r) == key && r.kind == kind)
    {
      MentionsLast(before, r, key, kind);
    }
    forall i | 0 <= i < |all|
      ensures Field(TimesAt(next, StopKeyOf(all[i])), all[i].kind) == Some(all[i].actualTimeMs)
    {
      if i < |before| {
        assert all[i] == before[i];
        assert EventKeyOf(all[i]) == EventKeyOf(r) ==> all[i].actualTimeMs == r.actualTimeMs;
      }
    }
  }

  lemma MentionsLast(before: seq<Receipt>, r: Receipt, key: StopKey, kind: Kind)
    ensures Mentions(before + [r], key, kind)
            <==> Mentions(before, key, kind) || (StopKeyOf(r) == key && r.kind == kind)
  {
    var all := before + [r];
    assert all[|before|] == r;
    if Mentions(before, key, kind) {
      var i :| 0 <= i < |before| && StopKeyOf(before[i]) == key && before[i].kind == kind;
      assert all[i] == before[i];
    }
    if Mentions(all, key, kind) {
      var i :| 0 <= i < |all| && StopKeyOf(all[i]) == key && all[i].kind == kind;
      assert i < |before| ==> all[i] == before[i];
    }
  }

  method ProgressFromReceipts(worldId: Text, nowMs: nat, receipts: seq<Receipt>)
    returns (outcome: Result<Progress, ReceiptError>)
    ensures outcome.Ok? <==> OneTimeAnEvent(receipts) && Timely(receipts, worldId, nowMs)
    ensures outcome.Ok? ==> outcome.value == ProgressOf(receipts)
  {
    var trains: Progress := map[];
    var i := 0;
    while i < |receipts|
      invariant 0 <= i <= |receipts|
      invariant Transported(trains, receipts, i, worldId, nowMs)
    {
      var r := receipts[i];
      NextTransported(trains, receipts, i, worldId, nowMs);
      if r.worldId != worldId || r.actualTimeMs > nowMs {
        return Err(ReceiptForeignOrLate);
      }
      var noted := Field(TimesAt(trains, StopKeyOf(r)), r.kind);
      if noted.Some? && noted.value != r.actualTimeMs {
        return Err(TimesContradict);
      }
      trains := AddReceipt(trains, r);
      i := i + 1;
    }
    AllTransported(trains, receipts, worldId, nowMs);
    outcome := Ok(trains);
  }

  ghost predicate Transported(trains: Progress, receipts: seq<Receipt>, n: nat, worldId: Text, nowMs: nat) {
    n <= |receipts| && trains == ProgressOf(receipts[..n]) && OneTimeAnEvent(receipts[..n])
        && Timely(receipts[..n], worldId, nowMs)
  }

  lemma NextTransported(trains: Progress, receipts: seq<Receipt>, n: nat, worldId: Text, nowMs: nat)
    requires Transported(trains, receipts, n, worldId, nowMs) && n < |receipts|
    ensures var r := receipts[n];
      var noted := Field(TimesAt(trains, StopKeyOf(r)), r.kind);
      && (noted.Some? && noted.value != r.actualTimeMs ==> !OneTimeAnEvent(receipts))
      && ((noted.Some? ==> noted.value == r.actualTimeMs) && r.worldId == worldId && r.actualTimeMs <= nowMs ==>
            Transported(AddReceipt(trains, r), receipts, n + 1, worldId, nowMs))
  {
    NotedTime(receipts[..n], receipts[n], receipts);
    if OneTimeAnEvent(receipts[..n] + [receipts[n]]) && receipts[n].worldId == worldId
        && receipts[n].actualTimeMs <= nowMs {
      TimelyStep(receipts[..n], receipts[n], worldId, nowMs);
      OneMoreTransported(trains, receipts, n, worldId, nowMs);
    }
  }

  lemma OneMoreTransported(trains: Progress, receipts: seq<Receipt>, n: nat, worldId: Text, nowMs: nat)
    requires n < |receipts| && trains == ProgressOf(receipts[..n])
    requires OneTimeAnEvent(receipts[..n] + [receipts[n]]) && Timely(receipts[..n] + [receipts[n]], worldId, nowMs)
    ensures Transported(AddReceipt(trains, receipts[n]), receipts, n + 1, worldId, nowMs)
  {
    assert receipts[..n + 1] == receipts[..n] + [receipts[n]];
    assert receipts[..n + 1][..n] == receipts[..n];
  }

  lemma AllTransported(trains: Progress, receipts: seq<Receipt>, worldId: Text, nowMs: nat)
    requires Transported(trains, receipts, |receipts|, worldId, nowMs)
    ensures trains == ProgressOf(receipts) && OneTimeAnEvent(receipts) && Timely(receipts, worldId, nowMs)
  {
    assert receipts[..|receipts|] == receipts;
  }

  /** The receipts are of the world and not later than the time. */
  ghost predicate Timely(receipts: seq<Receipt>, worldId: Text, nowMs: nat) {
    forall i :: 0 <= i < |receipts| ==> receipts[i].worldId == worldId && receipts[i].actualTimeMs <= nowMs
  }

  lemma TimelyStep(before: seq<Receipt>, r: Receipt, worldId: Text, nowMs: nat)
    requires Timely(before, worldId, nowMs) && r.worldId == worldId && r.actualTimeMs <= nowMs
    ensures Timely(before + [r], worldId, nowMs)
  {
  }

  /** A time already noted for the event differs exactly when the receipts do contradict each other. */
  lemma NotedTime(before: seq<Receipt>, r: Receipt, all: seq<Receipt>)
    requires OneTimeAnEvent(before) && before + [r] <= all
    ensures var noted := Field(TimesAt(ProgressOf(before), StopKeyOf(r)), r.kind);
      if noted.Some? && noted.value != r.actualTimeMs then !OneTimeAnEvent(all) else OneTimeAnEvent(before + [r])
  {
    ProgressIsLossless(before);
    var noted := Field(TimesAt(ProgressOf(before), StopKeyOf(r)), r.kind);
    var n := |before|;
    assert all[n] == r && forall k :: 0 <= k < n ==> all[k] == before[k];
    if noted.Some? {
      var k :| 0 <= k < n && StopKeyOf(before[k]) == StopKeyOf(r) && before[k].kind == r.kind;
      assert EventKeyOf(all[k]) == EventKeyOf(all[n]);
    }
    forall k | 0 <= k < n && EventKeyOf(before[k]) == EventKeyOf(r)
      ensures noted == Some(before[k].actualTimeMs)
    {
    }
  }

  /** A validated set never contradicts itself in the transport. */
  lemma ConsistentHasOneTime(receipts: seq<Receipt>)
    requires Consistent(receipts)
    ensures OneTimeAnEvent(receipts)
  {
    forall i, j | 0 <= i < j < |receipts| && EventKeyOf(receipts[i]) == EventKeyOf(receipts[j])
      ensures receipts[i].actualTimeMs == receipts[j].actualTimeMs
    {
      assert Agree(receipts[i], receipts[j]);
    }
  }
}
