/** Largest-remainder apportionment, as both Python tools do it: everyone gets the floor of the exact
    share, and the units left over go to the largest remainders, ties in the order of the ids. */
module Apportionment {
  import opened TextOrder
  import opened Sorting

  /** An exact share, split into its floor and what is left of it. */
  datatype Share = Share(id: Text, whole: nat, frac: real)

  /** A share together with its place in the list it came from. */
  datatype Ranked = Ranked(index: nat, share: Share)

  predicate BetterShare(a: Share, b: Share) {
    a.frac > b.frac || (a.frac == b.frac && AtMost(a.id, b.id))
  }

  predicate Precedes(a: Ranked, b: Ranked) {
    BetterShare(a.share, b.share)
  }

  function Indexed(shares: seq<Share>): (r: seq<Ranked>)
    ensures |r| == |shares| && forall i :: 0 <= i < |r| ==> r[i] == Ranked(i, shares[i])
  {
    seq(|shares|, i requires 0 <= i < |shares| => Ranked(i, shares[i]))
  }

  function Ranking(shares: seq<Share>): seq<Ranked> {
    Sort(Indexed(shares), Precedes)
  }

  function Wholes(shares: seq<Share>): nat {
    if shares == [] then 0 else shares[0].whole + Wholes(shares[1..])
  }

  function Fracs(shares: seq<Share>): real {
    if shares == [] then 0.0 else shares[0].frac + Fracs(shares[1..])
  }

  function Sum(parts: seq<nat>): nat {
    if parts == [] then 0 else parts[0] + Sum(parts[1..])
  }

  predicate Proper(shares: seq<Share>) {
    forall s :: s in shares ==> 0.0 <= s.frac < 1.0
  }

  /** The shares are proper and add up to the total. */
  ghost predicate Exact(shares: seq<Share>, total: nat) {
    Proper(shares) && Wholes(shares) as real + Fracs(shares) == total as real
  }

  lemma PrecedesIsPreorder()
    ensures TotalPreorder(Precedes)
  {
    forall a: Ranked, b: Ranked
      ensures Precedes(a, b) || Precedes(b, a)
    {
      LessTotal(a.share.id, b.share.id);
    }
    forall a: Ranked, b: Ranked, c: Ranked | Precedes(a, b) && Precedes(b, c)
      ensures Precedes(a, c)
    {
      if a.share.id != b.share.id && b.share.id != c.share.id && a.share.frac == b.share.frac == c.share.frac {
        LessTransitive(a.share.id, b.share.id, c.share.id);
      }
    }
  }

  // ------------------------------------------------------------------ the ranking

  function Shares(ranking: seq<Ranked>): (s: seq<Share>)
    ensures |s| == |ranking| && forall k :: 0 <= k < |s| ==> s[k] == ranking[k].share
  {
    seq(|ranking|, k requires 0 <= k < |ranking| => ranking[k].share)
  }

  lemma {:induction false} SortOfShares(s: seq<Ranked>)
    ensures Shares(Sort(s, Precedes)) == Sort(Shares(s), BetterShare)
  {
    if s != [] {
      SortOfShares(s[1..]);
      InsertOfShares(s[0], Sort(s[1..], Precedes));
      assert Shares(s)[1..] == Shares(s[1..]);
    }
  }

  lemma {:induction false} InsertOfShares(x: Ranked, s: seq<Ranked>)
    ensures Shares(Insert(x, s, Precedes)) == Insert(x.share, Shares(s), BetterShare)
  {
    if s != [] && !Precedes(x, s[0]) {
      InsertOfShares(x, s[1..]);
      assert Shares(s)[1..] == Shares(s[1..]);
    }
  }

  /** The shares in the order of the ranking are the sorted shares. */
  lemma RankingOfShares(shares: seq<Share>)
    ensures Shares(Ranking(shares)) == Sort(shares, BetterShare)
  {
    SortOfShares(Indexed(shares));
    assert Shares(Indexed(shares)) == shares;
  }

  lemma {:induction false} InsertKeepsSums(x: Share, s: seq<Share>)
    ensures Fracs(Insert(x, s, BetterShare)) == x.frac + Fracs(s)
    ensures Wholes(Insert(x, s, BetterShare)) == x.whole + Wholes(s)
  {
    if s != [] && !BetterShare(x, s[0]) {
      InsertKeepsSums(x, s[1..]);
    }
  }

  lemma {:induction false} SortKeepsSums(s: seq<Share>)
    ensures Fracs(Sort(s, BetterShare)) == Fracs(s)
    ensures Wholes(Sort(s, BetterShare)) == Wholes(s)
  {
    if s != [] {
      SortKeepsSums(s[1..]);
      InsertKeepsSums(s[0], Sort(s[1..], BetterShare));
    }
  }

  /** The ranking is sorted and lists every index once. */
  lemma RankingIs(shares: seq<Share>)
    ensures var r := Ranking(shares);
            && |r| == |shares| && Sorted(r, Precedes)
            && (forall x :: x in r <==> x.index < |shares| && x.share == shares[x.index])
            && (forall i, j :: 0 <= i < j < |r| ==> r[i].index != r[j].index)
  {
    var indexed, r := Indexed(shares), Ranking(shares);
    PrecedesIsPreorder();
    SortSorted(indexed, Precedes);
    SortPermutes(indexed, Precedes);
    SortDistinct(indexed, Precedes);
    IndexedHolds(shares);
  }

  lemma IndexedHolds(shares: seq<Share>)
    ensures forall x :: x in Indexed(shares) <==> x.index < |shares| && x.share == shares[x.index]
  {
    forall x
      ensures x in Indexed(shares) <==> x.index < |shares| && x.share == shares[x.index]
    {
      assert x.index < |shares| ==> Indexed(shares)[x.index] == Ranked(x.index, shares[x.index]);
    }
  }

  // ------------------------------------------------------------------ the parts

  function Leftover(shares: seq<Share>, total: nat): int {
    total - Wholes(shares)
  }

  function Floors(shares: seq<Share>): (parts: seq<nat>)
    ensures |parts| == |shares| && forall i :: 0 <= i < |shares| ==> parts[i] == shares[i].whole
  {
    seq(|shares|, i requires 0 <= i < |shares| => shares[i].whole)
  }

  predicate Usable(ranking: seq<Ranked>, n: nat) {
    forall k :: 0 <= k < |ranking| ==> ranking[k].index < n
  }

  /** The floors, with one unit more for each of the first `count` in the ranking. */
  function PartsAfter(floors: seq<nat>, ranking: seq<Ranked>, count: nat): (parts: seq<nat>)
    requires count <= |ranking| && Usable(ranking, |floors|)
    ensures |parts| == |floors|
  {
    if count == 0 then floors
    else
      var parts := PartsAfter(floors, ranking, count - 1);
      var i := ranking[count - 1].index;
      parts[i := parts[i] + 1]
  }

  /** Who gets a unit: the first `count` in the ranking. */
  ghost predicate Wins(ranking: seq<Ranked>, count: nat, i: nat)
    requires count <= |ranking|
  {
    exists k :: 0 <= k < count && ranking[k].index == i
  }

  lemma {:induction false} PartsAfterAre(floors: seq<nat>, ranking: seq<Ranked>, count: nat, i: nat)
    requires count <= |ranking| && Usable(ranking, |floors|) && i < |floors|
    requires forall j, k :: 0 <= j < k < |ranking| ==> ranking[j].index != ranking[k].index
    ensures PartsAfter(floors, ranking, count)[i] == floors[i] + if Wins(ranking, count, i) then 1 else 0
  {
    if count != 0 {
      PartsAfterAre(floors, ranking, count - 1, i);
      assert Wins(ranking, count, i) <==> Wins(ranking, count - 1, i) || ranking[count - 1].index == i;
    }
  }

  lemma {:induction false} PartsAfterSum(floors: seq<nat>, ranking: seq<Ranked>, count: nat)
    requires count <= |ranking| && Usable(ranking, |floors|)
    ensures Sum(PartsAfter(floors, ranking, count)) == Sum(floors) + count
  {
    if count != 0 {
      PartsAfterSum(floors, ranking, count - 1);
      SumAfterUnit(PartsAfter(floors, ranking, count - 1), ranking[count - 1].index);
    }
  }

  lemma {:induction false} SumAfterUnit(parts: seq<nat>, i: nat)
    requires i < |parts|
    ensures Sum(parts[i := parts[i] + 1]) == Sum(parts) + 1
  {
    if i != 0 {
      SumAfterUnit(parts[1..], i - 1);
      assert parts[i := parts[i] + 1][1..] == parts[1..][i - 1 := parts[i] + 1];
    }
  }

  lemma {:induction false} SumOfFloors(shares: seq<Share>)
    ensures Sum(Floors(shares)) == Wholes(shares)
  {
    if shares != [] {
      SumOfFloors(shares[1..]);
      assert Floors(shares)[1..] == Floors(shares[1..]);
    }
  }

  lemma {:induction false} FracsBound(s: seq<Share>, k: nat)
    requires k <= |s| && Proper(s)
    requires forall j :: k <= j < |s| ==> s[j].frac == 0.0
    ensures 0.0 <= Fracs(s) <= k as real
    ensures 0 < k ==> Fracs(s) < k as real
  {
    if s != [] {
      assert s[0] in s;
      FracsBound(s[1..], if k == 0 then 0 else k - 1);
    }
  }

  /** There are no more units left over than shares with a remainder, and those come first. */
  lemma LeftoverIsCovered(shares: seq<Share>, total: nat)
    requires Exact(shares, total)
    ensures 0 <= Leftover(shares, total) <= |shares| && |Ranking(shares)| == |shares|
    ensures forall k :: 0 <= k < Leftover(shares, total) ==> 0.0 < Ranking(shares)[k].share.frac
  {
    var sorted, left := Shares(Ranking(shares)), Leftover(shares, total);
    RankingIs(shares);
    RankingOfShares(shares);
    SortKeepsSums(shares);
    SortPermutes(shares, BetterShare);
    assert left as real == Fracs(sorted);
    FracsBound(sorted, |sorted|);
    forall k | 0 <= k < left && k < |sorted|
      ensures 0.0 < sorted[k].frac
    {
      assert sorted[k] in shares;
      if sorted[k].frac == 0.0 {
        NothingBehindNothing(shares, k);
        FracsBound(sorted, k);
      }
    }
  }

  lemma NothingBehindNothing(shares: seq<Share>, k: nat)
    requires Proper(shares) && k < |Ranking(shares)| && Ranking(shares)[k].share.frac == 0.0
    ensures forall j :: k <= j < |Ranking(shares)| ==> Ranking(shares)[j].share.frac == 0.0
  {
    var ranking := Ranking(shares);
    RankingIs(shares);
    forall j | k < j < |ranking|
      ensures ranking[j].share.frac == 0.0
    {
      assert Precedes(ranking[k], ranking[j]);
      assert ranking[j] in ranking;
      assert ranking[j].share in shares;
    }
  }

  /** Can the leftover be handed out along the ranking? */
  ghost predicate Dividable(shares: seq<Share>, total: nat) {
    0 <= Leftover(shares, total) <= |Ranking(shares)| && Usable(Ranking(shares), |shares|)
  }

  /** The apportionment of `total` according to the shares. */
  ghost function Parts(shares: seq<Share>, total: nat): (parts: seq<nat>)
    requires Dividable(shares, total)
    ensures |parts| == |shares|
  {
    PartsAfter(Floors(shares), Ranking(shares), Leftover(shares, total))
  }

  lemma ExactIsDividable(shares: seq<Share>, total: nat)
    requires Exact(shares, total)
    ensures Dividable(shares, total)
  {
    LeftoverIsCovered(shares, total);
    RankingIs(shares);
    assert forall k :: 0 <= k < |Ranking(shares)| ==> Ranking(shares)[k] in Ranking(shares);
  }

  lemma PartIs(shares: seq<Share>, total: nat, i: nat)
    requires Exact(shares, total) && i < |shares|
    ensures Dividable(shares, total)
    ensures Parts(shares, total)[i] == shares[i].whole + if Wins(Ranking(shares), Leftover(shares, total), i) then 1
            else 0
  {
    ExactIsDividable(shares, total);
    RankingIs(shares);
    PartsAfterAre(Floors(shares), Ranking(shares), Leftover(shares, total), i);
  }

  // ------------------------------------------------------------------ what apportionment promises

  /** The parts add up to the total. */
  lemma PartsConserve(shares: seq<Share>, total: nat)
    requires Exact(shares, total)
    ensures Dividable(shares, total) && Sum(Parts(shares, total)) == total
  {
    ExactIsDividable(shares, total);
    PartsAfterSum(Floors(shares), Ranking(shares), Leftover(shares, total));
    SumOfFloors(shares);
  }

  /** Every part is the floor of its share or one more, and a share without remainder gets no more. */
  lemma PartsAreClose(shares: seq<Share>, total: nat, i: nat)
    requires Exact(shares, total) && i < |shares|
    ensures Dividable(shares, total)
    ensures shares[i].whole <= Parts(shares, total)[i] <= shares[i].whole + if shares[i].frac == 0.0 then 0 else 1
  {
    var left, ranking := Leftover(shares, total), Ranking(shares);
    PartIs(shares, total, i);
    LeftoverIsCovered(shares, total);
    RankingIs(shares);
    if Wins(ranking, left, i) {
      var k :| 0 <= k < left && ranking[k].index == i;
      assert ranking[k] in ranking;
    }
  }

  /** A strictly larger share never gets less. */
  lemma PartsAreMonotone(shares: seq<Share>, total: nat, i: nat, j: nat)
    requires Exact(shares, total) && i < |shares| && j < |shares|
    requires shares[j].whole as real + shares[j].frac < shares[i].whole as real + shares[i].frac
    ensures Dividable(shares, total) && Parts(shares, total)[j] <= Parts(shares, total)[i]
  {
    var left, ranking := Leftover(shares, total), Ranking(shares);
    PartIs(shares, total, i);
    PartIs(shares, total, j);
    assert shares[i] in shares && shares[j] in shares;
    assert shares[j].whole <= shares[i].whole;
    if shares[i].whole == shares[j].whole && Wins(ranking, left, j) {
      RankingIs(shares);
      var k :| 0 <= k < left && ranking[k].index == j;
      assert ranking[k] in ranking && Ranked(i, shares[i]) in ranking;
      var m :| 0 <= m < |ranking| && ranking[m] == Ranked(i, shares[i]);
      assert k < m ==> Precedes(ranking[k], ranking[m]);
    }
  }

  /** Equal ids aside, the result does not depend on the order of the list: in any rearrangement every
      share gets the same part. */
  lemma PartsAreOrderBlind(shares: seq<Share>, other: seq<Share>, total: nat, i: nat, j: nat)
    requires Exact(shares, total) && Exact(other, total) && multiset(shares) == multiset(other)
    requires forall a, b :: 0 <= a < b < |shares| ==> shares[a].id != shares[b].id
    requires i < |shares| && j < |other| && shares[i] == other[j]
    ensures Dividable(shares, total) && Dividable(other, total)
    ensures Parts(shares, total)[i] == Parts(other, total)[j]
  {
    PartIs(shares, total, i);
    PartIs(other, total, j);
    SameRanking(shares, other);
    OtherIdsDistinct(shares, other);
    WinsByShare(shares, Leftover(shares, total), i);
    WinsByShare(other, Leftover(other, total), j);
  }

  ghost predicate InFront(s: seq<Share>, count: nat, share: Share)
    requires count <= |s|
  {
    exists k :: 0 <= k < count && s[k] == share
  }

  /** With distinct ids, winning can be told from the shares at the front of the ranking. */
  lemma WinsByShare(shares: seq<Share>, count: nat, i: nat)
    requires forall a, b :: 0 <= a < b < |shares| ==> shares[a].id != shares[b].id
    requires count <= |Ranking(shares)| && i < |shares|
    ensures Wins(Ranking(shares), count, i) <==> InFront(Shares(Ranking(shares)), count, shares[i])
  {
    var ranking := Ranking(shares);
    RankingIs(shares);
    assert forall k :: 0 <= k < count ==> ranking[k] in ranking;
    if InFront(Shares(ranking), count, shares[i]) {
      var k :| 0 <= k < count && Shares(ranking)[k] == shares[i];
      assert ranking[k].index == i;
    }
    if Wins(ranking, count, i) {
      var k :| 0 <= k < count && ranking[k].index == i;
      assert Shares(ranking)[k] == shares[i];
    }
  }

  lemma OtherIdsDistinct(shares: seq<Share>, other: seq<Share>)
    requires multiset(shares) == multiset(other)
    requires forall a, b :: 0 <= a < b < |shares| ==> shares[a].id != shares[b].id
    ensures forall a, b :: 0 <= a < b < |other| ==> other[a].id != other[b].id
  {
    DistinctIsOnce(shares);
    OnceIsDistinct(other);
    SameMultiset(shares, other);
    forall a, b | 0 <= a < b < |other|
      ensures other[a].id != other[b].id
    {
      assert other[a] in shares && other[b] in shares;
    }
  }

  /** The ranking of a list with distinct ids is the same for every rearrangement of the list. */
  lemma SameRanking(shares: seq<Share>, other: seq<Share>)
    requires multiset(shares) == multiset(other)
    requires forall a, b :: 0 <= a < b < |shares| ==> shares[a].id != shares[b].id
    ensures Shares(Ranking(shares)) == Shares(Ranking(other)) && Wholes(shares) == Wholes(other)
  {
    RankingOfShares(shares);
    RankingOfShares(other);
    SortKeepsSums(shares);
    SortKeepsSums(other);
    SameOrder(shares, other);
  }

  lemma SameOrder(shares: seq<Share>, other: seq<Share>)
    requires multiset(shares) == multiset(other)
    requires forall a, b :: 0 <= a < b < |shares| ==> shares[a].id != shares[b].id
    ensures Sort(shares, BetterShare) == Sort(other, BetterShare)
  {
    BetterIsPreorder();
    forall a, b | a in shares && b in shares && BetterShare(a, b) && BetterShare(b, a)
      ensures a == b
    {
      IdsDiffer(shares, a, b);
    }
    SortOrderBlind(shares, other, BetterShare);
  }

  lemma IdsDiffer(shares: seq<Share>, a: Share, b: Share)
    requires forall i, j :: 0 <= i < j < |shares| ==> shares[i].id != shares[j].id
    requires a in shares && b in shares && BetterShare(a, b) && BetterShare(b, a)
    ensures a == b
  {
    if a.id != b.id {
      LessAsymmetric(a.id, b.id);
    }
  }

  lemma BetterIsPreorder()
    ensures TotalPreorder(BetterShare)
  {
    PrecedesIsPreorder();
    forall a: Share, b: Share
      ensures BetterShare(a, b) || BetterShare(b, a)
    {
      assert Precedes(Ranked(0, a), Ranked(0, b)) || Precedes(Ranked(0, b), Ranked(0, a));
    }
    forall a: Share, b: Share, c: Share | BetterShare(a, b) && BetterShare(b, c)
      ensures BetterShare(a, c)
    {
      assert Precedes(Ranked(0, a), Ranked(0, b)) && Precedes(Ranked(0, b), Ranked(0, c));
    }
  }

  /** The loop of the source: hand out what is left over, one unit each, along the ranking. */
  method Apportion(shares: seq<Share>, total: nat) returns (parts: seq<nat>)
    requires Exact(shares, total)
    ensures Dividable(shares, total) && parts == Parts(shares, total)
  {
    ExactIsDividable(shares, total);
    parts := Floors(shares);
    var ranking := Ranking(shares);
    for k := 0 to Leftover(shares, total)
      invariant parts == PartsAfter(Floors(shares), ranking, k)
    {
      var i := ranking[k].index;
      parts := parts[i := parts[i] + 1];
    }
  }
}
