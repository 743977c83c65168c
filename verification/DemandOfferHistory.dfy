/** Offer revisions of apps/game-api/src/demand-offer-history.ts: keeping withdrawn services, and
    arranging receipts, offers and population revisions into the boundaries of a replay. */
module DemandOfferHistory {
  import opened DemandReceipts
  import opened Outcomes
  import opened Sorting
  import opened TextOrder

  datatype OfferRevision = OfferRevision(worldSequence: nat, effectiveAtMs: nat, services: seq<Service>,
                                         provenance: Text)

  datatype Snapshot = Snapshot(revision: nat, effectiveAtMs: nat, data: Text)

  datatype PopulationEvent = PopulationEvent(worldSequence: nat, snapshot: Snapshot)

  datatype Numbered = Numbered(receipt: Receipt, worldSequence: nat)

  // ------------------------------------------------------------------ retained services

  ghost predicate Offers(services: seq<Service>, trainRunId: Text) {
    exists i :: 0 <= i < |services| && services[i].trainRunId == trainRunId
  }

  ghost predicate OneATrain(services: seq<Service>) {
    forall i, j :: 0 <= i < j < |services| ==> services[i].trainRunId != services[j].trainRunId
  }

  /** The entry of an insertion-ordered table: replaced in its place, or appended. */
  function PutService(table: seq<Service>, service: Service): (next: seq<Service>)
    ensures |table| <= |next| <= |table| + 1
  {
    if table == [] then [service]
    else if table[0].trainRunId == service.trainRunId then [service] + table[1..]
    else [table[0]] + PutService(table[1..], service)
  }

  function TableOf(services: seq<Service>): seq<Service> {
    if services == [] then [] else PutService(TableOf(services[..|services| - 1]), services[|services| - 1])
  }

  function Withdraw(table: seq<Service>, previous: seq<Service>): seq<Service> {
    if previous == [] then table
    else
      var before, last := Withdraw(table, previous[..|previous| - 1]), previous[|previous| - 1];
      if FindService(before, last.trainRunId).Some? then before else before + [last.(cancelled := true)]
  }

  function Retain(previous: seq<Service>, next: seq<Service>): seq<Service> {
    Withdraw(TableOf(next), previous)
  }

  /** The record the newest revision has for a train: the last one it lists. */
  function LastRecord(services: seq<Service>, trainRunId: Text): Option<Service> {
    if services == [] then None
    else if services[|services| - 1].trainRunId == trainRunId then Some(services[|services| - 1])
    else LastRecord(services[..|services| - 1], trainRunId)
  }

  lemma {:induction false} PutFinds(table: seq<Service>, service: Service, id: Text)
    ensures FindService(PutService(table, service), id) == if id == service.trainRunId then Some(service)
            else FindService(table, id)
  {
    if table != [] && table[0].trainRunId != service.trainRunId {
      PutFinds(table[1..], service, id);
    }
  }

  lemma {:induction false} TableFinds(services: seq<Service>, id: Text)
    ensures FindService(TableOf(services), id) == LastRecord(services, id)
  {
    if services != [] {
      TableFinds(services[..|services| - 1], id);
      PutFinds(TableOf(services[..|services| - 1]), services[|services| - 1], id);
    }
  }

  lemma {:induction false} FindInAppended(table: seq<Service>, service: Service, id: Text)
    ensures FindService(table + [service], id) ==
            if FindService(table, id).Some? then FindService(table, id)
            else if service.trainRunId == id then Some(service) else None
  {
    if table == [] {
    } else {
      assert (table + [service])[1..] == table[1..] + [service];
      FindInAppended(table[1..], service, id);
    }
  }

  lemma {:induction false} WithdrawFinds(table: seq<Service>, previous: seq<Service>, id: Text)
    ensures FindService(Withdraw(table, previous), id) ==
            match FindService(table, id)
            case Some(s) => Some(s)
            case None => match FindService(previous, id)
              case Some(s) => Some(s.(cancelled := true))
              case None => None
    decreases |previous|
  {
    if previous != [] {
      var n := |previous| - 1;
      WithdrawFinds(table, previous[..n], id);
      WithdrawFinds(table, previous[..n], previous[n].trainRunId);
      assert previous == previous[..n] + [previous[n]];
      FindInAppended(previous[..n], previous[n], id);
      FindInAppended(Withdraw(table, previous[..n]), previous[n].(cancelled := true), id);
    }
  }

  /** A train of the newest revision has that revision's record; one that only earlier revisions knew keeps
      its record as cancelled; no other train appears. */
  lemma RetainFinds(previous: seq<Service>, next: seq<Service>, id: Text)
    ensures FindService(Retain(previous, next), id) ==
            match LastRecord(next, id)
            case Some(s) => Some(s)
            case None => match FindService(previous, id)
              case Some(s) => Some(s.(cancelled := true))
              case None => None
  {
    TableFinds(next, id);
    WithdrawFinds(TableOf(next), previous, id);
  }

  lemma {:induction false} FoundIsOffered(services: seq<Service>, id: Text)
    ensures FindService(services, id).Some? <==> Offers(services, id)
  {
    if services != [] {
      FoundIsOffered(services[1..], id);
      if Offers(services[1..], id) {
        var i :| 0 <= i < |services[1..]| && services[1..][i].trainRunId == id;
        assert services[i + 1].trainRunId == id;
      }
      if Offers(services, id) && services[0].trainRunId != id {
        var i :| 0 <= i < |services| && services[i].trainRunId == id;
        assert services[1..][i - 1].trainRunId == id;
      }
    }
  }

  lemma {:induction false} LastRecordIsOffered(services: seq<Service>, id: Text)
    ensures LastRecord(services, id).Some? <==> Offers(services, id)
  {
    if services != [] {
      var n := |services| - 1;
      LastRecordIsOffered(services[..n], id);
      assert forall i :: 0 <= i < n ==> services[..n][i] == services[i];
    }
  }

  /** No train drops out, and no train is invented. */
  lemma NoTrainDropsOut(previous: seq<Service>, next: seq<Service>, id: Text)
    ensures Offers(Retain(previous, next), id) <==> Offers(previous, id) || Offers(next, id)
  {
    RetainFinds(previous, next, id);
    FoundIsOffered(Retain(previous, next), id);
    FoundIsOffered(previous, id);
    LastRecordIsOffered(next, id);
  }

  /** The retained services list each train once, however often the newest revision repeats it. */
  lemma RetainListsTrainsOnce(previous: seq<Service>, next: seq<Service>)
    ensures OneATrain(Retain(previous, next))
  {
    TableListsTrainsOnce(next);
    WithdrawListsTrainsOnce(TableOf(next), previous);
  }

  lemma {:induction false} TableListsTrainsOnce(services: seq<Service>)
    ensures OneATrain(TableOf(services))
  {
    if services != [] {
      var n := |services| - 1;
      TableListsTrainsOnce(services[..n]);
      PutListsTrainsOnce(TableOf(services[..n]), services[n]);
    }
  }

  lemma {:induction false} PutListsTrainsOnce(table: seq<Service>, service: Service)
    requires OneATrain(table)
    ensures OneATrain(PutService(table, service))
    ensures forall id :: Offers(PutService(table, service), id) ==> Offers(table, id) || id == service.trainRunId
  {
    forall id
      ensures Offers(PutService(table, service), id) ==> Offers(table, id) || id == service.trainRunId
    {
      PutFinds(table, service, id);
      FoundIsOffered(table, id);
      FoundIsOffered(PutService(table, service), id);
    }
    if table != [] && table[0].trainRunId != service.trainRunId {
      var rest := table[1..];
      forall i, j | 0 <= i < j < |rest|
        ensures rest[i].trainRunId != rest[j].trainRunId
      {
        assert table[i + 1].trainRunId != table[j + 1].trainRunId;
      }
      PutListsTrainsOnce(rest, service);
      FirstTrainIsNew(table[0], rest, PutService(rest, service), service.trainRunId);
    }
  }

  lemma FirstTrainIsNew(first: Service, rest: seq<Service>, put: seq<Service>, added: Text)
    requires OneATrain([first] + rest) && OneATrain(put) && first.trainRunId != added
    requires forall id :: Offers(put, id) ==> Offers(rest, id) || id == added
    ensures OneATrain([first] + put)
  {
    forall j | 0 <= j < |put|
      ensures put[j].trainRunId != first.trainRunId
    {
      assert Offers(put, put[j].trainRunId);
      if Offers(rest, put[j].trainRunId) {
        var i :| 0 <= i < |rest| && rest[i].trainRunId == put[j].trainRunId;
        assert ([first] + rest)[0].trainRunId != ([first] + rest)[i + 1].trainRunId;
      }
    }
  }

  lemma {:induction false} WithdrawListsTrainsOnce(table: seq<Service>, previous: seq<Service>)
    requires OneATrain(table)
    ensures OneATrain(Withdraw(table, previous))
    decreases |previous|
  {
    if previous != [] {
      var n := |previous| - 1;
      var before := Withdraw(table, previous[..n]);
      WithdrawListsTrainsOnce(table, previous[..n]);
      FoundIsOffered(before, previous[n].trainRunId);
    }
  }

  /** The tables of the source as loops. */
  method RetainDemandOfferHistory(previous: seq<Service>, next: seq<Service>) returns (services: seq<Service>)
    ensures services == Retain(previous, next)
  {
    services := [];
    var i := 0;
    while i < |next|
      invariant 0 <= i <= |next| && services == TableOf(next[..i])
    {
      assert next[..i + 1][..i] == next[..i];
      services := PutService(services, next[i]);
      i := i + 1;
    }
    assert next[..i] == next;
    i := 0;
    while i < |previous|
      invariant 0 <= i <= |previous| && services == Withdraw(TableOf(next), previous[..i])
    {
      assert previous[..i + 1][..i] == previous[..i];
      if FindService(services, previous[i].trainRunId).None? {
        services := services + [previous[i].(cancelled := true)];
      }
      i := i + 1;
    }
    assert previous[..i] == previous;
  }

  // ------------------------------------------------------------------ boundaries

  datatype Event = Confirmed(receipt: Receipt) | Offered(offer: OfferRevision) | Updated(population: PopulationEvent)

  datatype Item = Item(atMs: nat, sequence: nat, event: Event)

  datatype Boundary = Boundary(atMs: nat, receipts: seq<Receipt>, offer: Option<OfferRevision>,
                               population: Option<PopulationEvent>)

  predicate ItemAtMost(a: Item, b: Item) {
    a.atMs < b.atMs || (a.atMs == b.atMs && a.sequence <= b.sequence)
  }

  lemma ItemOrder()
    ensures TotalPreorder(ItemAtMost)
  {
  }

  function Clamp(earliestMs: nat, atMs: nat): nat { if atMs < earliestMs then earliestMs else atMs }

  function ReceiptItems(receipts: seq<Numbered>, earliestMs: nat): (items: seq<Item>)
    ensures |items| == |receipts|
    ensures forall i :: 0 <= i < |items| ==>
      items[i] == Item(Clamp(earliestMs, receipts[i].receipt.actualTimeMs), receipts[i].worldSequence,
                       Confirmed(receipts[i].receipt))
  {
    seq(|receipts|, i requires 0 <= i < |receipts| =>
      Item(Clamp(earliestMs, receipts[i].receipt.actualTimeMs), receipts[i].worldSequence,
           Confirmed(receipts[i].receipt)))
  }

  function OfferItems(offers: seq<OfferRevision>, earliestMs: nat): (items: seq<Item>)
    ensures |items| == |offers|
    ensures forall i :: 0 <= i < |items|
              ==> items[i] == Item(Clamp(earliestMs, offers[i].effectiveAtMs), offers[i].worldSequence,
                                   Offered(offers[i]))
  {
    seq(|offers|, i requires 0 <= i < |offers| =>
        Item(Clamp(earliestMs, offers[i].effectiveAtMs), offers[i].worldSequence, Offered(offers[i])))
  }

  function PopulationItems(events: seq<PopulationEvent>, earliestMs: nat): (items: seq<Item>)
    ensures |items| == |events|
    ensures forall i :: 0 <= i < |items|
              ==> items[i] == Item(Clamp(earliestMs, events[i].snapshot.effectiveAtMs), events[i].worldSequence,
                                   Updated(events[i]))
  {
    seq(|events|, i requires 0 <= i < |events| =>
        Item(Clamp(earliestMs, events[i].snapshot.effectiveAtMs), events[i].worldSequence, Updated(events[i])))
  }

  function Items(receipts: seq<Numbered>, offers: seq<OfferRevision>, earliestMs: nat,
                 population: seq<PopulationEvent>): seq<Item> {
    ReceiptItems(receipts, earliestMs) + OfferItems(offers, earliestMs) + PopulationItems(population, earliestMs)
  }

  /** Receipts of one time share a boundary unless an offer or a population revision lies between them. */
  predicate Extendable(boundaries: seq<Boundary>, atMs: nat) {
    boundaries != [] && boundaries[|boundaries| - 1].atMs == atMs
    && boundaries[|boundaries| - 1].offer.None? && boundaries[|boundaries| - 1].population.None?
  }

  function Add(boundaries: seq<Boundary>, item: Item): seq<Boundary> {
    match item.event
    case Updated(population) => boundaries + [Boundary(item.atMs, [], None, Some(population))]
    case Offered(offer) => boundaries + [Boundary(item.atMs, [], Some(offer), None)]
    case Confirmed(receipt) =>
      if Extendable(boundaries, item.atMs) then
        var n := |boundaries| - 1;
        boundaries[..n] + [boundaries[n].(receipts := boundaries[n].receipts + [receipt])]
      else boundaries + [Boundary(item.atMs, [receipt], None, None)]
  }

  function Group(items: seq<Item>): seq<Boundary> {
    if items == [] then [] else Add(Group(items[..|items| - 1]), items[|items| - 1])
  }

  function Boundaries(receipts: seq<Numbered>, offers: seq<OfferRevision>, earliestMs: nat,
                      population: seq<PopulationEvent>): seq<Boundary> {
    Group(Sort(Items(receipts, offers, earliestMs, population), ItemAtMost))
  }

  method DemandOfferBoundaries(receipts: seq<Numbered>, offers: seq<OfferRevision>, earliestMs: nat,
                               population: seq<PopulationEvent>)
    returns (boundaries: seq<Boundary>)
    ensures boundaries == Boundaries(receipts, offers, earliestMs, population)
  {
    var items := Sort(Items(receipts, offers, earliestMs, population), ItemAtMost);
    boundaries := [];
    var i := 0;
    while i < |items|
      invariant 0 <= i <= |items| && boundaries == Group(items[..i])
    {
      assert items[..i + 1][..i] == items[..i];
      if items[i].event.Updated? {
        boundaries := boundaries + [Boundary(items[i].atMs, [], None, Some(items[i].event.population))];
      } else if items[i].event.Offered? {
        boundaries := boundaries + [Boundary(items[i].atMs, [], Some(items[i].event.offer), None)];
      } else if Extendable(boundaries, items[i].atMs) {
        var last := boundaries[|boundaries| - 1];
        boundaries := boundaries[..|boundaries| - 1] + [last.(receipts := last.receipts + [items[i].event.receipt])];
      } else {
        boundaries := boundaries + [Boundary(items[i].atMs, [items[i].event.receipt], None, None)];
      }
      i := i + 1;
    }
    assert items[..i] == items;
  }

  // ------------------------------------------------------------------ what the boundaries hold

  datatype Happening = Happening(atMs: nat, event: Event)

  function ReceiptsAt(atMs: nat, receipts: seq<Receipt>): (hs: seq<Happening>)
    ensures |hs| == |receipts|
    ensures forall i :: 0 <= i < |hs| ==> hs[i] == Happening(atMs, Confirmed(receipts[i]))
  {
    seq(|receipts|, i requires 0 <= i < |receipts| => Happening(atMs, Confirmed(receipts[i])))
  }

  function HappeningsOf(b: Boundary): seq<Happening> {
    ReceiptsAt(b.atMs, b.receipts) + (if b.offer.Some? then [Happening(b.atMs, Offered(b.offer.value))] else [])
    + (if b.population.Some? then [Happening(b.atMs, Updated(b.population.value))] else [])
  }

  function Flatten(boundaries: seq<Boundary>): seq<Happening> {
    if boundaries == [] then []
    else Flatten(boundaries[..|boundaries| - 1]) + HappeningsOf(boundaries[|boundaries| - 1])
  }

  lemma {:induction false} FlattenJoins(a: seq<Boundary>, b: seq<Boundary>)
    ensures Flatten(a + b) == Flatten(a) + Flatten(b)
    decreases |b|
  {
    if b == [] {
      assert a + b == a;
    } else {
      var n := |b| - 1;
      assert (a + b)[..|a + b| - 1] == a + b[..n] && (a + b)[|a + b| - 1] == b[n];
      FlattenJoins(a, b[..n]);
      JoinedThree(Flatten(a), Flatten(b[..n]), HappeningsOf(b[n]));
    }
  }

  lemma JoinedThree(a: seq<Happening>, b: seq<Happening>, c: seq<Happening>)
    ensures (a + b) + c == a + (b + c)
  {
  }

  function Strip(items: seq<Item>): (hs: seq<Happening>)
    ensures |hs| == |items|
    ensures forall i :: 0 <= i < |hs| ==> hs[i] == Happening(items[i].atMs, items[i].event)
  {
    seq(|items|, i requires 0 <= i < |items| => Happening(items[i].atMs, items[i].event))
  }

  /** A boundary holds an offer, a population revision or some receipts, and only one of the three. */
  ghost predicate Pure(b: Boundary) {
    if b.offer.Some? then b.receipts == [] && b.population.None?
    else if b.population.Some? then b.receipts == []
    else b.receipts != []
  }

  ghost predicate IsReceipts(b: Boundary) { b.offer.None? && b.population.None? }

  /** Receipt groups are as large as they can be. */
  ghost predicate Maximal(boundaries: seq<Boundary>) {
    && (forall i :: 0 <= i < |boundaries| ==> Pure(boundaries[i]))
    && (forall i :: 0 <= i < |boundaries| - 1 ==> NotMergeable(boundaries[i], boundaries[i + 1]))
  }

  ghost predicate NotMergeable(a: Boundary, b: Boundary) {
    !(IsReceipts(a) && IsReceipts(b) && a.atMs == b.atMs)
  }

  /** Every item is in exactly one boundary, in the order of the items, and receipt groups are maximal. */
  lemma {:induction false} GroupKeepsEverything(items: seq<Item>)
    ensures Flatten(Group(items)) == Strip(items) && Maximal(Group(items))
  {
    if items == [] {
    } else {
      var n := |items| - 1;
      GroupKeepsEverything(items[..n]);
      AddKeeps(Group(items[..n]), items[n]);
      StripLast(items);
    }
  }

  lemma StripLast(items: seq<Item>)
    requires items != []
    ensures Strip(items) == Strip(items[..|items| - 1]) + [Happening(items[|items| - 1].atMs, items[|items| - 1].event)]
  {
  }

  lemma AddKeeps(boundaries: seq<Boundary>, item: Item)
    requires Maximal(boundaries)
    ensures Maximal(Add(boundaries, item))
    ensures Flatten(Add(boundaries, item)) == Flatten(boundaries) + [Happening(item.atMs, item.event)]
  {
    var next := Add(boundaries, item);
    var n := |next| - 1;
    if item.event.Confirmed? && Extendable(boundaries, item.atMs) {
      var last := boundaries[n];
      assert next[..n] == boundaries[..n];
      assert HappeningsOf(next[n]) == HappeningsOf(last) + [Happening(item.atMs, item.event)];
      assert Pure(last) && (0 < n ==> NotMergeable(boundaries[n - 1], last));
    } else {
      assert next[..n] == boundaries;
      assert HappeningsOf(next[n]) == [Happening(item.atMs, item.event)];
      assert Pure(next[n]);
    }
  }

  // ------------------------------------------------------------------ cutting at a time

  /** Two runs of items group separately unless the second could add a receipt to the first's last boundary. */
  lemma {:induction false} GroupJoins(a: seq<Item>, b: seq<Item>)
    requires b != [] ==> !Extendable(Group(a), b[0].atMs)
    ensures Group(a + b) == Group(a) + Group(b)
    decreases |b|
  {
    if b == [] {
      assert a + b == a;
    } else {
      var n := |b| - 1;
      assert (a + b)[..|a + b| - 1] == a + b[..n] && (a + b)[|a + b| - 1] == b[n];
      GroupJoins(a, b[..n]);
      GroupEnd(b[..n]);
      AddJoins(Group(a), Group(b[..n]), b[n]);
    }
  }

  lemma AddJoins(p: seq<Boundary>, q: seq<Boundary>, item: Item)
    requires q == [] ==> !Extendable(p, item.atMs)
    ensures Add(p + q, item) == p + Add(q, item)
  {
    var all := p + q;
    if q == [] {
      assert all == p;
    } else {
      var n := |q| - 1;
      assert all[|all| - 1] == q[n] && all[..|all| - 1] == p + q[..n];
    }
  }

  /** The last boundary is at the last item's time. */
  lemma GroupEnd(items: seq<Item>)
    ensures (Group(items) == []) <==> (items == [])
    ensures items != [] ==> Group(items)[|Group(items)| - 1].atMs == items[|items| - 1].atMs
  {
  }

  predicate UpTo(item: Item, w: int) { item.atMs <= w }

  function Until(w: int): Item -> bool { (item: Item) => UpTo(item, w) }

  function After(w: int): Item -> bool { (item: Item) => !UpTo(item, w) }

  /** The boundaries of the items up to a time, followed by those of the items after it, are those of all items. */
  lemma BoundariesSplit(items: seq<Item>, w: int)
    ensures Group(Sort(items, ItemAtMost))
            == Group(Sort(Filter(items, Until(w)), ItemAtMost)) + Group(Sort(Filter(items, After(w)), ItemAtMost))
  {
    var a, b := Sort(Filter(items, Until(w)), ItemAtMost), Sort(Filter(items, After(w)), ItemAtMost);
    assert Sort(items, ItemAtMost) == a + b by {
      SortSplits(items, Until(w), After(w), ItemAtMost);
    }
    SortedPartIsKept(items, Until(w));
    SortedPartIsKept(items, After(w));
    assert forall x :: x in a ==> UpTo(x, w);
    assert forall x :: x in b ==> !UpTo(x, w);
    JoinAtCut(a, b, w);
  }

  lemma SortedPartIsKept(items: seq<Item>, keep: Item -> bool)
    ensures forall x :: x in Sort(Filter(items, keep), ItemAtMost) ==> keep(x)
  {
    SortPermutes(Filter(items, keep), ItemAtMost);
    FilterMembers(items, keep);
  }

  lemma JoinAtCut(a: seq<Item>, b: seq<Item>, w: int)
    requires (forall x :: x in a ==> UpTo(x, w)) && (forall x :: x in b ==> !UpTo(x, w))
    ensures Group(a + b) == Group(a) + Group(b)
  {
    if a != [] && b != [] {
      assert a[|a| - 1] in a && b[0] in b;
    }
    GroupEnd(a);
    GroupJoins(a, b);
  }

  /** Boundaries come in the order of time, and at one time in the order of the world sequence; with distinct
      sequence numbers the arrangement of the input does not matter. */
  lemma ArrangementDoesNotMatter(s: seq<Item>, t: seq<Item>)
    requires multiset(s) == multiset(t)
    requires forall a, b :: a in s && b in s && a.sequence == b.sequence ==> a == b
    ensures Group(Sort(s, ItemAtMost)) == Group(Sort(t, ItemAtMost))
  {
    ItemOrder();
    SortOrderBlind(s, t, ItemAtMost);
  }
}
