/** The stable sort both source languages offer, as insertion sort over a comparison `le`, and the
    facts about it that the rest of the project uses. */
module Sorting {

  ghost predicate TotalPreorder<T(!new)>(le: (T, T) -> bool) {
    && (forall a, b :: le(a, b) || le(b, a))
    && (forall a, b, c :: le(a, b) && le(b, c) ==> le(a, c))
  }

  ghost predicate Sorted<T>(s: seq<T>, le: (T, T) -> bool) {
    forall i, j :: 0 <= i < j < |s| ==> le(s[i], s[j])
  }

  ghost predicate Antisymmetric<T>(s: seq<T>, le: (T, T) -> bool) {
    forall a, b :: a in s && b in s && le(a, b) && le(b, a) ==> a == b
  }

  function Insert<T>(x: T, s: seq<T>, le: (T, T) -> bool): seq<T> {
    if s == [] || le(x, s[0]) then [x] + s else [s[0]] + Insert(x, s[1..], le)
  }

  function Sort<T>(s: seq<T>, le: (T, T) -> bool): seq<T> {
    if s == [] then [] else Insert(s[0], Sort(s[1..], le), le)
  }

  function Filter<T>(s: seq<T>, keep: T -> bool): seq<T> {
    if s == [] then [] else (if keep(s[0]) then [s[0]] else []) + Filter(s[1..], keep)
  }

  lemma {:induction false} InsertPermutes<T>(x: T, s: seq<T>, le: (T, T) -> bool)
    ensures multiset(Insert(x, s, le)) == multiset([x] + s)
  {
    if s != [] && !le(x, s[0]) {
      InsertPermutes(x, s[1..], le);
      assert s == [s[0]] + s[1..];
    }
  }

  lemma {:induction false} SortPermutes<T>(s: seq<T>, le: (T, T) -> bool)
    ensures multiset(Sort(s, le)) == multiset(s)
    ensures |Sort(s, le)| == |s|
    ensures forall x :: x in Sort(s, le) <==> x in s
  {
    if s != [] {
      SortPermutes(s[1..], le);
      InsertPermutes(s[0], Sort(s[1..], le), le);
      assert s == [s[0]] + s[1..];
    }
    SameMultiset(Sort(s, le), s);
  }

  lemma SameMultiset<T>(s: seq<T>, t: seq<T>)
    requires multiset(s) == multiset(t)
    ensures |s| == |t|
    ensures forall x :: x in s <==> x in t
  {
    assert |multiset(s)| == |s| && |multiset(t)| == |t|;
    forall x
      ensures x in s <==> x in t
    {
      assert x in s <==> x in multiset(s);
      assert x in t <==> x in multiset(t);
    }
  }

  lemma {:induction false} InsertSorted<T(!new)>(x: T, s: seq<T>, le: (T, T) -> bool)
    requires TotalPreorder(le) && Sorted(s, le)
    ensures Sorted(Insert(x, s, le), le)
  {
    if s == [] {
    } else if le(x, s[0]) {
    } else {
      InsertSorted(x, s[1..], le);
      InsertPermutes(x, s[1..], le);
      var r := Insert(x, s[1..], le);
      SameMultiset(r, [x] + s[1..]);
      forall j | 0 <= j < |r|
        ensures le(s[0], r[j])
      {
        assert r[j] in [x] + s[1..];
      }
    }
  }

  lemma {:induction false} SortSorted<T(!new)>(s: seq<T>, le: (T, T) -> bool)
    requires TotalPreorder(le)
    ensures Sorted(Sort(s, le), le)
  {
    if s != [] {
      SortSorted(s[1..], le);
      InsertSorted(s[0], Sort(s[1..], le), le);
    }
  }

  /** Sorting leaves a sorted sequence alone. */
  lemma {:induction false} SortOfSorted<T>(s: seq<T>, le: (T, T) -> bool)
    requires Sorted(s, le)
    ensures Sort(s, le) == s
  {
    if s != [] {
      SortOfSorted(s[1..], le);
    }
  }

  lemma FirstIsLeast<T(!new)>(s: seq<T>, t: seq<T>, le: (T, T) -> bool)
    requires s != [] && Sorted(s, le) && Sorted(t, le)
    requires multiset(s) == multiset(t) && Antisymmetric(s, le)
    ensures t != [] && s[0] == t[0]
    ensures multiset(s[1..]) == multiset(t[1..])
  {
    SameMultiset(s, t);
    assert s[0] in t && t[0] in s;
    var i :| 0 <= i < |t| && t[i] == s[0];
    var j :| 0 <= j < |s| && s[j] == t[0];
    assert 0 < j ==> le(s[0], s[j]);
    assert 0 < i ==> le(t[0], t[i]);
    assert s == [s[0]] + s[1..] && t == [t[0]] + t[1..];
    assert multiset(s[1..]) == multiset(s) - multiset{s[0]};
  }

  /** Where the comparison tells distinct elements apart, the sorted arrangement is unique. */
  lemma {:induction false} SortedUnique<T(!new)>(s: seq<T>, t: seq<T>, le: (T, T) -> bool)
    requires Sorted(s, le) && Sorted(t, le)
    requires multiset(s) == multiset(t) && Antisymmetric(s, le)
    ensures s == t
  {
    SameMultiset(s, t);
    if s != [] {
      FirstIsLeast(s, t, le);
      SortedUnique(s[1..], t[1..], le);
      assert s == [s[0]] + s[1..] && t == [t[0]] + t[1..];
    }
  }

  /** Any two arrangements of the same elements sort alike. */
  lemma SortOrderBlind<T(!new)>(s: seq<T>, t: seq<T>, le: (T, T) -> bool)
    requires TotalPreorder(le) && multiset(s) == multiset(t) && Antisymmetric(s, le)
    ensures Sort(s, le) == Sort(t, le)
  {
    SortPermutes(s, le);
    SortPermutes(t, le);
    SortSorted(s, le);
    SortSorted(t, le);
    SortedUnique(Sort(s, le), Sort(t, le), le);
  }

  lemma FirstIsMember<T>(s: seq<T>)
    ensures s != [] ==> s[0] in s
  {
  }

  lemma {:induction false} FilterMembers<T>(s: seq<T>, keep: T -> bool)
    ensures forall x :: x in Filter(s, keep) <==> x in s && keep(x)
    ensures |Filter(s, keep)| <= |s|
  {
    if s != [] {
      FilterMembers(s[1..], keep);
    }
  }

  lemma {:induction false} FilterAppend<T>(s: seq<T>, t: seq<T>, keep: T -> bool)
    ensures Filter(s + t, keep) == Filter(s, keep) + Filter(t, keep)
  {
    if s == [] {
      assert s + t == t;
    } else {
      FilterAppend(s[1..], t, keep);
      assert (s + t)[1..] == s[1..] + t;
      var head := if keep(s[0]) then [s[0]] else [];
      assert Filter(s + t, keep) == head + Filter((s + t)[1..], keep);
      assert head + (Filter(s[1..], keep) + Filter(t, keep)) == (head + Filter(s[1..], keep)) + Filter(t, keep);
    }
  }

  lemma {:induction false} InsertIntoLow<T>(x: T, low: seq<T>, high: seq<T>, le: (T, T) -> bool)
    requires forall y :: y in high ==> le(x, y)
    ensures Insert(x, low + high, le) == Insert(x, low, le) + high
  {
    if low == [] {
      assert low + high == high;
    } else {
      assert (low + high)[1..] == low[1..] + high;
      if !le(x, low[0]) {
        InsertIntoLow(x, low[1..], high, le);
      }
    }
  }

  lemma {:induction false} InsertIntoHigh<T>(x: T, low: seq<T>, high: seq<T>, le: (T, T) -> bool)
    requires forall y :: y in low ==> !le(x, y)
    ensures Insert(x, low + high, le) == low + Insert(x, high, le)
  {
    if low == [] {
      assert low + high == high;
    } else {
      assert (low + high)[1..] == low[1..] + high;
      InsertIntoHigh(x, low[1..], high, le);
    }
  }

  /** Every `low` element of `s` comes strictly before every `high` one, and each is one of the two. */
  ghost predicate Separates<T(!new)>(s: seq<T>, low: T -> bool, high: T -> bool, le: (T, T) -> bool) {
    && (forall x :: x in s ==> (high(x) <==> !low(x)))
    && (forall a, b :: a in s && b in s && low(a) && high(b) ==> le(a, b) && !le(b, a))
  }

  lemma SplitStep<T(!new)>(x: T, lows: seq<T>, highs: seq<T>, s: seq<T>, low: T -> bool, high: T -> bool,
                           le: (T, T) -> bool)
    requires x in s && Separates(s, low, high, le)
    requires forall y :: y in lows ==> y in s && low(y)
    requires forall y :: y in highs ==> y in s && high(y)
    ensures Insert(x, lows + highs, le) ==
            if low(x) then Insert(x, lows, le) + highs else lows + Insert(x, highs, le)
  {
    if low(x) {
      InsertIntoLow(x, lows, highs, le);
    } else {
      InsertIntoHigh(x, lows, highs, le);
    }
  }

  /** Stable sorting splits at any cut that separates the elements strictly: the low ones sorted
      among themselves, followed by the high ones sorted among themselves. */
  lemma {:induction false} SortSplits<T(!new)>(s: seq<T>, low: T -> bool, high: T -> bool, le: (T, T) -> bool)
    requires Separates(s, low, high, le)
    ensures Sort(s, le) == Sort(Filter(s, low), le) + Sort(Filter(s, high), le)
  {
    if s != [] {
      var rest := s[1..];
      assert Separates(rest, low, high, le);
      SortSplits(rest, low, high, le);
      FilterMembers(rest, low);
      FilterMembers(rest, high);
      SortPermutes(Filter(rest, low), le);
      SortPermutes(Filter(rest, high), le);
      SplitStep(s[0], Sort(Filter(rest, low), le), Sort(Filter(rest, high), le), s, low, high, le);
      FilterStep(s, low);
      FilterStep(s, high);
    }
  }

  lemma FilterStep<T>(s: seq<T>, keep: T -> bool)
    requires s != []
    ensures Filter(s, keep) == if keep(s[0]) then [s[0]] + Filter(s[1..], keep) else Filter(s[1..], keep)
  {
  }

  lemma {:induction false} InsertFilters<T(!new)>(x: T, s: seq<T>, keep: T -> bool, le: (T, T) -> bool)
    requires TotalPreorder(le) && Sorted(s, le)
    ensures Filter(Insert(x, s, le), keep) == if keep(x) then Insert(x, Filter(s, keep), le) else Filter(s, keep)
  {
    if s == [] {
    } else if le(x, s[0]) {
      FilterMembers(s, keep);
      var kept := Filter(s, keep);
      if kept != [] {
        assert kept[0] in kept && kept[0] in s;
        var i :| 0 <= i < |s| && s[i] == kept[0];
        assert 0 < i ==> le(s[0], s[i]);
      }
      FilterStep([x] + s, keep);
      assert ([x] + s)[1..] == s;
    } else {
      var r := Insert(x, s[1..], le);
      InsertFilters(x, s[1..], keep, le);
      FilterStep([s[0]] + r, keep);
      assert ([s[0]] + r)[1..] == r;
      FilterStep(s, keep);
    }
  }

  /** Stable sorting commutes with filtering. */
  lemma {:induction false} SortFilters<T(!new)>(s: seq<T>, keep: T -> bool, le: (T, T) -> bool)
    requires TotalPreorder(le)
    ensures Filter(Sort(s, le), keep) == Sort(Filter(s, keep), le)
  {
    if s != [] {
      SortFilters(s[1..], keep, le);
      SortSorted(s[1..], le);
      InsertFilters(s[0], Sort(s[1..], le), keep, le);
      FilterStep(s, keep);
    }
  }

  lemma FilterKeepsSorted<T(!new)>(s: seq<T>, keep: T -> bool, le: (T, T) -> bool)
    requires TotalPreorder(le) && Sorted(s, le)
    ensures Sorted(Filter(s, keep), le)
  {
    SortOfSorted(s, le);
    SortFilters(s, keep, le);
    SortSorted(Filter(s, keep), le);
  }

  lemma {:induction false} FilterAll<T>(s: seq<T>, keep: T -> bool)
    requires forall i :: 0 <= i < |s| ==> keep(s[i])
    ensures Filter(s, keep) == s
  {
    if s != [] {
      assert forall i :: 0 <= i < |s[1..]| ==> s[1..][i] == s[i + 1];
      FilterAll(s[1..], keep);
    }
  }

  lemma {:induction false} FilterNone<T>(s: seq<T>, keep: T -> bool)
    requires forall i :: 0 <= i < |s| ==> !keep(s[i])
    ensures Filter(s, keep) == []
  {
    if s != [] {
      assert forall i :: 0 <= i < |s[1..]| ==> s[1..][i] == s[i + 1];
      FilterNone(s[1..], keep);
    }
  }

  lemma {:induction false} FilterSame<T>(s: seq<T>, p: T -> bool, q: T -> bool)
    requires forall x :: x in s ==> p(x) == q(x)
    ensures Filter(s, p) == Filter(s, q)
  {
    if s != [] {
      FilterSame(s[1..], p, q);
    }
  }

  function Mapped<T, U>(s: seq<T>, f: T -> U): (t: seq<U>)
    ensures |t| == |s| && forall i :: 0 <= i < |s| ==> t[i] == f(s[i])
  {
    if s == [] then [] else [f(s[0])] + Mapped(s[1..], f)
  }

  /** Filtering images is mapping the elements whose images are kept. */
  lemma {:induction false} FilterMapped<T, U>(s: seq<T>, f: T -> U, keep: U -> bool, kept: T -> bool)
    requires forall x :: x in s ==> keep(f(x)) == kept(x)
    ensures Filter(Mapped(s, f), keep) == Mapped(Filter(s, kept), f)
  {
    if s != [] {
      FilterMapped(s[1..], f, keep, kept);
      FilterStep(s, kept);
      FilterStep(Mapped(s, f), keep);
      if kept(s[0]) {
        assert ([s[0]] + Filter(s[1..], kept))[1..] == Filter(s[1..], kept);
      }
    }
  }

  function Both<T>(p: T -> bool, q: T -> bool): T -> bool { (x: T) => p(x) && q(x) }

  lemma {:induction false} FilterTwice<T>(s: seq<T>, p: T -> bool, q: T -> bool)
    ensures Filter(Filter(s, p), q) == Filter(s, Both(p, q))
  {
    if s != [] {
      FilterTwice(s[1..], p, q);
      FilterStep(s, p);
      if p(s[0]) {
        FilterStep([s[0]] + Filter(s[1..], p), q);
        assert ([s[0]] + Filter(s[1..], p))[1..] == Filter(s[1..], p);
      }
    }
  }

  /** What is kept of the elements carried over from a first sorting and of the new ones, is what is kept of a
      sorting of all of them. */
  lemma CarriedOver<T(!new)>(s: seq<T>, t: seq<T>, carry: T -> bool, keep: T -> bool, le: (T, T) -> bool)
    requires TotalPreorder(le) && forall x :: x in t ==> carry(x)
    ensures Filter(Sort(Filter(Sort(s, le), carry) + t, le), keep) == Filter(Sort(s + t, le), Both(carry, keep))
  {
    var carried := Filter(Sort(s, le), carry);
    var both := Both(carry, keep);
    assert Filter(Sort(carried + t, le), keep) == Sort(Filter(carried, keep) + Filter(t, keep), le) by {
      SortFilters(carried + t, keep, le);
      FilterAppend(carried, t, keep);
    }
    assert Filter(carried, keep) == Sort(Filter(s, both), le) by {
      FilterTwice(Sort(s, le), carry, keep);
      SortFilters(s, both, le);
    }
    assert Filter(t, keep) == Filter(t, both) by {
      FilterSame(t, keep, both);
    }
    assert Filter(Sort(s + t, le), both) == Sort(Filter(s, both) + Filter(t, both), le) by {
      SortFilters(s + t, both, le);
      FilterAppend(s, t, both);
    }
    SortOfSortedFront(Filter(s, both), Filter(t, both), le);
  }

  /** Elements that are not kept may be left out before sorting. */
  lemma LeftOut<T(!new)>(s: seq<T>, t: seq<T>, keep: T -> bool, le: (T, T) -> bool)
    requires TotalPreorder(le) && forall i :: 0 <= i < |t| ==> !keep(t[i])
    ensures Filter(Sort(s + t, le), keep) == Filter(Sort(s, le), keep)
  {
    SortFilters(s + t, keep, le);
    SortFilters(s, keep, le);
    FilterAppend(s, t, keep);
    FilterNone(t, keep);
    assert Filter(s, keep) + [] == Filter(s, keep);
  }

  /** Two insertions of strictly ordered elements may be swapped. */
  lemma {:induction false} InsertSwaps<T(!new)>(x: T, y: T, s: seq<T>, le: (T, T) -> bool)
    requires TotalPreorder(le) && !le(x, y)
    ensures Insert(x, Insert(y, s, le), le) == Insert(y, Insert(x, s, le), le)
  {
    assert le(y, x);
    if s == [] {
      assert [y][1..] == [];
    } else if le(y, s[0]) {
      assert ([y] + s)[1..] == s;
      var a := Insert(x, s, le);
      assert le(y, a[0]);
    } else {
      assert le(s[0], y) && !le(x, s[0]);
      var t := s[1..];
      assert ([s[0]] + Insert(y, t, le))[1..] == Insert(y, t, le);
      assert ([s[0]] + Insert(x, t, le))[1..] == Insert(x, t, le);
      InsertSwaps(x, y, t, le);
    }
  }

  function InsertAll<T>(s: seq<T>, onto: seq<T>, le: (T, T) -> bool): seq<T> {
    if s == [] then onto else Insert(s[0], InsertAll(s[1..], onto, le), le)
  }

  lemma {:induction false} SortOfAppend<T>(s: seq<T>, t: seq<T>, le: (T, T) -> bool)
    ensures Sort(s + t, le) == InsertAll(s, Sort(t, le), le)
  {
    if s == [] {
      assert s + t == t;
    } else {
      assert (s + t)[1..] == s[1..] + t;
      SortOfAppend(s[1..], t, le);
    }
  }

  lemma {:induction false} InsertAllInserted<T(!new)>(x: T, s: seq<T>, onto: seq<T>, le: (T, T) -> bool)
    requires TotalPreorder(le)
    ensures InsertAll(Insert(x, s, le), onto, le) == Insert(x, InsertAll(s, onto, le), le)
  {
    if s == [] || le(x, s[0]) {
      assert ([x] + s)[1..] == s;
    } else {
      var r := Insert(x, s[1..], le);
      assert ([s[0]] + r)[1..] == r;
      InsertAllInserted(x, s[1..], onto, le);
      InsertSwaps(x, s[0], InsertAll(s[1..], onto, le), le);
    }
  }

  lemma {:induction false} InsertAllSorted<T(!new)>(s: seq<T>, onto: seq<T>, le: (T, T) -> bool)
    requires TotalPreorder(le)
    ensures InsertAll(Sort(s, le), onto, le) == InsertAll(s, onto, le)
  {
    if s != [] {
      InsertAllSorted(s[1..], onto, le);
      InsertAllInserted(s[0], Sort(s[1..], le), onto, le);
    }
  }

  /** Sorting the front part beforehand makes no difference. */
  lemma SortOfSortedFront<T(!new)>(s: seq<T>, t: seq<T>, le: (T, T) -> bool)
    requires TotalPreorder(le)
    ensures Sort(Sort(s, le) + t, le) == Sort(s + t, le)
  {
    SortOfAppend(Sort(s, le), t, le);
    SortOfAppend(s, t, le);
    InsertAllSorted(s, Sort(t, le), le);
  }

  // ------------------------------------------------------------------ sequences without repetition

  ghost predicate Distinct<T>(s: seq<T>) {
    forall i, j :: 0 <= i < j < |s| ==> s[i] != s[j]
  }

  lemma {:induction false} DistinctIsOnce<T>(s: seq<T>)
    requires Distinct(s)
    ensures forall x :: multiset(s)[x] <= 1
  {
    if s != [] {
      DistinctIsOnce(s[1..]);
      assert s == [s[0]] + s[1..];
      assert s[0] !in s[1..];
    }
  }

  lemma OnceIsDistinct<T>(s: seq<T>)
    requires forall x :: multiset(s)[x] <= 1
    ensures Distinct(s)
  {
    forall i, j | 0 <= i < j < |s|
      ensures s[i] != s[j]
    {
      assert s == s[..i] + [s[i]] + s[i + 1..j] + [s[j]] + s[j + 1..];
      assert s[i] == s[j] ==> multiset(s)[s[i]] >= 2;
    }
  }

  lemma SortDistinct<T>(s: seq<T>, le: (T, T) -> bool)
    requires Distinct(s)
    ensures Distinct(Sort(s, le))
  {
    DistinctIsOnce(s);
    SortPermutes(s, le);
    OnceIsDistinct(Sort(s, le));
  }

  lemma {:induction false} FilterDistinct<T>(s: seq<T>, keep: T -> bool)
    requires Distinct(s)
    ensures Distinct(Filter(s, keep))
  {
    if s != [] {
      FilterDistinct(s[1..], keep);
      FilterMembers(s[1..], keep);
      assert s[0] !in s[1..];
      FilterStep(s, keep);
    }
  }

  /** Sequences without repetition that hold the same elements are rearrangements of each other. */
  lemma SameElements<T>(s: seq<T>, t: seq<T>)
    requires Distinct(s) && Distinct(t) && forall x :: x in s <==> x in t
    ensures multiset(s) == multiset(t)
  {
    DistinctIsOnce(s);
    DistinctIsOnce(t);
    forall x
      ensures multiset(s)[x] == multiset(t)[x]
    {
      assert x in s <==> x in multiset(s);
      assert x in t <==> x in multiset(t);
    }
  }
}
