/** Streams of scheduled command boundaries over time windows (the contract of a command catalogue in
    apps/game-api/src/regional-simulation-scheduler.ts) and the merge of two of them. */
module DailyStreams {
  import opened TextOrder

  datatype Command =
    | Activate(disruptionId: Text, effect: Text)
    | Clear(disruptionId: Text, releaseReference: Text)
    | Timetabled(payload: Text)

  datatype Scheduled = Scheduled(commandId: Text, atMs: int, command: Command)

  datatype Boundary = Boundary(atMs: int, commands: seq<Scheduled>)

  ghost predicate Ascending(bs: seq<Boundary>) {
    forall i, j :: 0 <= i < j < |bs| ==> bs[i].atMs < bs[j].atMs
  }

  /** `bs` lists, in strictly ascending order, exactly the times in (after, through] at which `at` has
      commands, each with all of them. */
  ghost predicate IsStream(bs: seq<Boundary>, after: int, through: int, at: int -> seq<Scheduled>) {
    && Ascending(bs)
    && (forall b :: b in bs ==> after < b.atMs <= through && b.commands == at(b.atMs) && b.commands != [])
    && (forall t :: after < t <= through && at(t) != [] ==> Boundary(t, at(t)) in bs)
  }

  /** A window has only one stream. */
  lemma {:induction false} StreamIsUnique(s: seq<Boundary>, t: seq<Boundary>, after: int, through: int,
                                          at: int -> seq<Scheduled>)
    requires IsStream(s, after, through, at) && IsStream(t, after, through, at)
    ensures s == t
    decreases |s|
  {
    if s == [] {
      FirstBoundary(t);
    } else {
      assert s[0] in s && Boundary(s[0].atMs, at(s[0].atMs)) in t;
      assert t[0] in t && Boundary(t[0].atMs, at(t[0].atMs)) in s;
      FirstIsEarliest(s, t[0]);
      FirstIsEarliest(t, s[0]);
      StreamTail(s, after, through, at);
      StreamTail(t, after, through, at);
      StreamIsUnique(s[1..], t[1..], s[0].atMs, through, at);
      assert s == [s[0]] + s[1..] && t == [t[0]] + t[1..];
    }
  }

  lemma FirstBoundary(s: seq<Boundary>)
    ensures s != [] ==> s[0] in s
  {
  }

  lemma FirstIsEarliest(s: seq<Boundary>, b: Boundary)
    requires Ascending(s) && b in s
    ensures s[0].atMs <= b.atMs
  {
    var i :| 0 <= i < |s| && s[i] == b;
    assert 0 < i ==> s[0].atMs < s[i].atMs;
  }

  lemma StreamTail(s: seq<Boundary>, after: int, through: int, at: int -> seq<Scheduled>)
    requires IsStream(s, after, through, at) && s != []
    ensures IsStream(s[1..], s[0].atMs, through, at)
  {
    assert s[0] in s;
    forall b | b in s[1..]
      ensures s[0].atMs < b.atMs
    {
      var i :| 0 <= i < |s[1..]| && s[1..][i] == b;
      assert s[0].atMs < s[i + 1].atMs;
    }
  }

  /** Consecutive windows join to one. */
  lemma StreamsJoin(s: seq<Boundary>, t: seq<Boundary>, after: int, middle: int, through: int,
                    at: int -> seq<Scheduled>)
    requires after <= middle <= through && IsStream(s, after, middle, at) && IsStream(t, middle, through, at)
    ensures IsStream(s + t, after, through, at)
  {
    var both := s + t;
    forall i, j | 0 <= i < j < |both|
      ensures both[i].atMs < both[j].atMs
    {
      assert i < |s| ==> both[i] in s;
      assert |s| <= j ==> both[j] in t;
    }
  }

  lemma EmptyWindow(after: int, through: int, at: int -> seq<Scheduled>)
    requires through <= after
    ensures IsStream([], after, through, at)
  {
  }

  // ------------------------------------------------------------------ merging

  /** The merge of dueBoundaries: earlier boundaries first, equal times joined with `right` in front. */
  function Merge(left: seq<Boundary>, right: seq<Boundary>): seq<Boundary>
    decreases |left| + |right|
  {
    if left == [] then right
    else if right == [] then left
    else if left[0].atMs < right[0].atMs then [left[0]] + Merge(left[1..], right)
    else if right[0].atMs < left[0].atMs then [right[0]] + Merge(left, right[1..])
    else [Boundary(left[0].atMs, right[0].commands + left[0].commands)] + Merge(left[1..], right[1..])
  }

  /** The commands of both catalogues at each time, those of `right` first. */
  ghost predicate Joins(both: int -> seq<Scheduled>, left: int -> seq<Scheduled>, right: int -> seq<Scheduled>) {
    forall t :: both(t) == right(t) + left(t)
  }

  lemma {:induction false} MergeIsStream(s: seq<Boundary>, t: seq<Boundary>, after: int, through: int,
                                         left: int -> seq<Scheduled>, right: int -> seq<Scheduled>,
                                         both: int -> seq<Scheduled>)
    requires IsStream(s, after, through, left) && IsStream(t, after, through, right) && Joins(both, left, right)
    ensures IsStream(Merge(s, t), after, through, both)
    decreases |s| + |t|
  {
    if s == [] {
      EmptySide(t, after, through, right, left, both);
    } else if t == [] {
      EmptySide(s, after, through, left, right, both);
    } else {
      var first := if s[0].atMs <= t[0].atMs then s[0].atMs else t[0].atMs;
      var s', t' := if s[0].atMs == first then s[1..] else s, if t[0].atMs == first then t[1..] else t;
      FromFirst(s, after, through, left, first);
      FromFirst(t, after, through, right, first);
      MergeIsStream(s', t', first, through, left, right, both);
      MergeFirst(s, t, left, right, both);
      assert s[0] in s && t[0] in t;
      StartOfStream(Merge(s', t'), after, first, through, both);
    }
  }

  lemma MergeFirst(s: seq<Boundary>, t: seq<Boundary>, left: int -> seq<Scheduled>, right: int -> seq<Scheduled>,
                   both: int -> seq<Scheduled>)
    requires s != [] && t != [] && Joins(both, left, right)
    requires s[0].atMs <= t[0].atMs ==> s[0] == Boundary(s[0].atMs, left(s[0].atMs))
    requires t[0].atMs <= s[0].atMs ==> t[0] == Boundary(t[0].atMs, right(t[0].atMs))
    requires s[0].atMs < t[0].atMs ==> right(s[0].atMs) == []
    requires t[0].atMs < s[0].atMs ==> left(t[0].atMs) == []
    ensures var first := if s[0].atMs <= t[0].atMs then s[0].atMs else t[0].atMs;
      Merge(s, t) == [Boundary(first, both(first))]
                     + Merge(if s[0].atMs == first then s[1..] else s, if t[0].atMs == first then t[1..] else t)
  {
    var first := if s[0].atMs <= t[0].atMs then s[0].atMs else t[0].atMs;
    assert both(first) == right(first) + left(first);
    assert left(first) + [] == left(first) && [] + left(first) == left(first) && right(first) + [] == right(first);
  }

  /** A stream without the boundary at `first`, before which it has none. */
  lemma FromFirst(s: seq<Boundary>, after: int, through: int, at: int -> seq<Scheduled>, first: int)
    requires IsStream(s, after, through, at) && s != [] && after < first <= s[0].atMs
    ensures forall t :: after < t < first ==> at(t) == []
    ensures if s[0].atMs == first then IsStream(s[1..], first, through, at) && s[0] == Boundary(first, at(first))
            else IsStream(s, first, through, at) && at(first) == []
  {
    assert s[0] in s;
    forall t | after < t <= through && at(t) != []
      ensures s[0].atMs <= t
    {
      FirstIsEarliest(s, Boundary(t, at(t)));
    }
    if s[0].atMs == first {
      StreamTail(s, after, through, at);
    } else {
      forall b | b in s
        ensures first < b.atMs
      {
        FirstIsEarliest(s, b);
      }
    }
  }

  lemma StartOfStream(rest: seq<Boundary>, after: int, first: int, through: int, at: int -> seq<Scheduled>)
    requires after < first <= through && at(first) != [] && IsStream(rest, first, through, at)
    requires forall t :: after < t < first ==> at(t) == []
    ensures IsStream([Boundary(first, at(first))] + rest, after, through, at)
  {
    var all := [Boundary(first, at(first))] + rest;
    forall i, j | 0 <= i < j < |all|
      ensures all[i].atMs < all[j].atMs
    {
      assert all[j] in rest;
    }
  }

  lemma EmptySide(s: seq<Boundary>, after: int, through: int, at: int -> seq<Scheduled>, other: int -> seq<Scheduled>,
                  both: int -> seq<Scheduled>)
    requires IsStream(s, after, through, at) && IsStream([], after, through, other)
    requires forall t :: both(t) == at(t) + other(t) || both(t) == other(t) + at(t)
    ensures IsStream(s, after, through, both)
  {
    assert forall t :: after < t <= through ==> other(t) == [];
    forall t | after < t <= through
      ensures both(t) == at(t)
    {
      assert at(t) + [] == at(t) && [] + at(t) == at(t);
    }
  }

  /** The merging loop of the source. */
  method MergeStreams(left: seq<Boundary>, right: seq<Boundary>) returns (merged: seq<Boundary>)
    ensures merged == Merge(left, right)
  {
    var i, j := 0, 0;
    merged := [];
    assert left[0..] == left && right[0..] == right;
    while i < |left| || j < |right|
      invariant i <= |left| && j <= |right|
      invariant Merge(left, right) == merged + Merge(left[i..], right[j..])
      decreases |left| - i + |right| - j
    {
      MergeStep(left, right, i, j);
      ghost var before := merged;
      if j == |right| || (i < |left| && left[i].atMs < right[j].atMs) {
        merged := merged + [left[i]];
        i := i + 1;
        Continues(before, left[i - 1], Merge(left[i..], right[j..]));
      } else if i == |left| || right[j].atMs < left[i].atMs {
        merged := merged + [right[j]];
        j := j + 1;
        Continues(before, right[j - 1], Merge(left[i..], right[j..]));
      } else {
        merged := merged + [Boundary(left[i].atMs, right[j].commands + left[i].commands)];
        i, j := i + 1, j + 1;
        Continues(before, merged[|merged| - 1], Merge(left[i..], right[j..]));
      }
    }
  }

  lemma Continues(before: seq<Boundary>, b: Boundary, rest: seq<Boundary>)
    ensures before + ([b] + rest) == (before + [b]) + rest
  {
  }

  lemma MergeStep(left: seq<Boundary>, right: seq<Boundary>, i: nat, j: nat)
    requires i <= |left| && j <= |right| && (i < |left| || j < |right|)
    ensures Merge(left[i..], right[j..]) ==
            if j == |right|
                || (i < |left| && left[i].atMs < right[j].atMs) then [left[i]] + Merge(left[i + 1..], right[j..])
            else if i == |left| || right[j].atMs < left[i].atMs then [right[j]] + Merge(left[i..], right[j + 1..])
            else [Boundary(left[i].atMs, right[j].commands + left[i].commands)] + Merge(left[i + 1..], right[j + 1..])
  {
    var l, r := left[i..], right[j..];
    assert i < |left| ==> l[0] == left[i] && l[1..] == left[i + 1..];
    assert j < |right| ==> r[0] == right[j] && r[1..] == right[j + 1..];
    if r == [] {
      assert Merge(l[1..], r) == l[1..] by {
        assert l[1..] == [] ==> r == l[1..];
      }
    } else if l == [] {
      assert Merge(l, r[1..]) == r[1..];
    }
  }
}
