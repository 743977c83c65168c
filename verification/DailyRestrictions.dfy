/** The daily restriction commands of apps/game-api/src/daily-restriction-catalog.ts as values: which
    policy governs a day, which commands the generated restrictions of the days give, and that a day's
    collected commands are exactly the stream of the window they were collected for. */
module DailyRestrictions {
  import opened DailyStreams
  import opened Outcomes
  import opened Sorting
  import opened TextOrder

  const DAY_MS: int := 86_400_000

  datatype Mode = MANUAL | GENERATED

  datatype Policy = Policy(version: int, plannedWorksMode: Mode, operationalIncidentMode: Mode, profile: Text,
                           validFromMs: int, validUntilMs: Option<int>)

  datatype Source = Source(worldId: Text, regionId: Text, seed: Text, infraRelease: Text, routeVersionIds: seq<Text>)

  datatype Restriction = Restriction(disruptionId: Text, startsAtMs: int, endsAtMs: int, effect: Text)

  datatype Generated = Generated(policyVersion: nat, restrictions: seq<Restriction>)

  // ------------------------------------------------------------------ the policy of a day

  predicate PolicyAtMost(a: Policy, b: Policy) {
    a.validFromMs < b.validFromMs || (a.validFromMs == b.validFromMs && a.version <= b.version)
  }

  lemma PolicyOrder()
    ensures TotalPreorder(PolicyAtMost)
  {
  }

  /** The last of the sorted policies that has started. */
  function LastStarted(policies: seq<Policy>, dayStartMs: int): Option<Policy> {
    if policies == [] then None
    else
      var last := policies[|policies| - 1];
      if last.validFromMs <= dayStartMs then Some(last) else LastStarted(policies[..|policies| - 1], dayStartMs)
  }

  /** The generated day: nothing without a started and unexpired policy or when both modes are manual. */
  function DayOf(generate: (Source, int, Policy) -> Generated, source: Source, policies: seq<Policy>,
                 dayStartMs: int): Option<Generated> {
    match LastStarted(policies, dayStartMs)
    case None => None
    case Some(policy) =>
      if policy.validUntilMs.Some? && dayStartMs >= policy.validUntilMs.value then None
      else if policy.plannedWorksMode == MANUAL && policy.operationalIncidentMode == MANUAL then None
      else Some(generate(source, dayStartMs, policy))
  }

  /** Whatever order the policies were loaded in, the governing one is the started policy with the latest
      start and, among those, the highest version; there is none only when none has started. */
  lemma GoverningPolicyIsLatest(loaded: seq<Policy>, dayStartMs: int)
    ensures match LastStarted(Sort(loaded, PolicyAtMost), dayStartMs)
            case None => forall p :: p in loaded ==> p.validFromMs > dayStartMs
            case Some(p) => p in loaded && p.validFromMs <= dayStartMs
                            && forall q :: q in loaded && q.validFromMs <= dayStartMs ==> PolicyAtMost(q, p)
  {
    PolicyOrder();
    SortSorted(loaded, PolicyAtMost);
    SortPermutes(loaded, PolicyAtMost);
    LastStartedIsLatest(Sort(loaded, PolicyAtMost), dayStartMs);
  }

  lemma {:induction false} LastStartedIsLatest(policies: seq<Policy>, dayStartMs: int)
    requires Sorted(policies, PolicyAtMost)
    ensures match LastStarted(policies, dayStartMs)
            case None => forall p :: p in policies ==> p.validFromMs > dayStartMs
            case Some(p) => p in policies && p.validFromMs <= dayStartMs
                            && forall q :: q in policies && q.validFromMs <= dayStartMs ==> PolicyAtMost(q, p)
  {
    if policies != [] {
      var n := |policies| - 1;
      assert policies == policies[..n] + [policies[n]];
      LastStartedIsLatest(policies[..n], dayStartMs);
      forall q | q in policies[..n]
        ensures PolicyAtMost(q, policies[n])
      {
        var i :| 0 <= i < n && policies[i] == q;
      }
    }
  }

  // ------------------------------------------------------------------ the commands of a day

  function Prefix(version: nat, r: Restriction): Text {
    Ascii("daily:") + Decimal(version) + Ascii(":") + r.disruptionId
  }

  function Activation(version: nat, r: Restriction): Scheduled {
    Scheduled(Prefix(version, r) + Ascii(":activate"), r.startsAtMs, Activate(r.disruptionId, r.effect))
  }

  function Release(version: nat, r: Restriction): Scheduled {
    Scheduled(Prefix(version, r) + Ascii(":clear"), r.endsAtMs,
              Clear(r.disruptionId, Prefix(version, r) + Ascii(":expired")))
  }

  function RestrictionEntries(version: nat, rs: seq<Restriction>): seq<Scheduled> {
    if rs == [] then []
    else RestrictionEntries(version, rs[..|rs| - 1])
         + [Activation(version, rs[|rs| - 1]), Release(version, rs[|rs| - 1])]
  }

  function EntriesOf(generated: Option<Generated>): seq<Scheduled> {
    if generated.None? then [] else RestrictionEntries(generated.value.policyVersion, generated.value.restrictions)
  }

  /** The entries of the origin days `from`, …, `until - 1`, in that order. */
  function EntriesBetween(days: int -> Option<Generated>, from: int, until: int): seq<Scheduled>
    decreases until - from
  {
    if until <= from then [] else EntriesBetween(days, from, until - 1) + EntriesOf(days(until - 1))
  }

  function FirstOrigin(day: int): int { if day < 2 then 0 else day - 2 }

  /** Everything the look-back of two days collects for `day`. */
  function LookBack(days: int -> Option<Generated>, day: int): seq<Scheduled> {
    EntriesBetween(days, FirstOrigin(day), day + 1)
  }

  predicate IsAt(e: Scheduled, atMs: int) { e.atMs == atMs }

  function AtTime(atMs: int): Scheduled -> bool { (e: Scheduled) => IsAt(e, atMs) }

  predicate InWindow(e: Scheduled, lower: int, upper: int, after: int, through: int) {
    lower <= e.atMs < upper && after < e.atMs <= through
  }

  /** Releases before activations, then by the bytes of the command id. */
  predicate CommandAtMost(a: Scheduled, b: Scheduled) {
    if a.command.Clear? != b.command.Clear? then a.command.Clear? else AtMost(a.commandId, b.commandId)
  }

  lemma CommandOrder()
    ensures TotalPreorder(CommandAtMost)
  {
    forall a, b
      ensures CommandAtMost(a, b) || CommandAtMost(b, a)
    {
      LessTotal(a.commandId, b.commandId);
    }
    forall a, b, c | CommandAtMost(a, b) && CommandAtMost(b, c)
      ensures CommandAtMost(a, c)
    {
      if Less(a.commandId, b.commandId) && Less(b.commandId, c.commandId) {
        LessTransitive(a.commandId, b.commandId, c.commandId);
      }
    }
  }

  /** The restriction commands of one instant. */
  function DailyAt(days: int -> Option<Generated>, atMs: int): seq<Scheduled> {
    if atMs < 0 then [] else Sort(Filter(LookBack(days, atMs / DAY_MS), AtTime(atMs)), CommandAtMost)
  }

  function DailyAtOf(days: int -> Option<Generated>): int -> seq<Scheduled> {
    (atMs: int) => DailyAt(days, atMs)
  }

  // ------------------------------------------------------------------ what an instant carries

  /** Restriction `i` of the day that starts at `origin * DAY_MS`. */
  ghost predicate Occurs(days: int -> Option<Generated>, origin: int, i: int) {
    0 <= origin && days(origin).Some? && 0 <= i < |days(origin).value.restrictions|
  }

  ghost function Version(days: int -> Option<Generated>, origin: int): nat
    requires days(origin).Some?
  {
    days(origin).value.policyVersion
  }

  ghost function The(days: int -> Option<Generated>, origin: int, i: int): Restriction
    requires Occurs(days, origin, i)
  {
    days(origin).value.restrictions[i]
  }

  /** The generator's promise: a restriction lies within the three days from its origin. */
  ghost predicate WithinThreeDays(days: int -> Option<Generated>) {
    forall origin, i :: Occurs(days, origin, i) ==>
      origin * DAY_MS <= The(days, origin, i).startsAtMs < The(days, origin, i).endsAtMs < (origin + 3) * DAY_MS
  }

  ghost predicate Announces(days: int -> Option<Generated>, origin: int, i: int, e: Scheduled) {
    Occurs(days, origin, i)
    && (e == Activation(Version(days, origin), The(days, origin, i))
        || e == Release(Version(days, origin), The(days, origin, i)))
  }

  lemma {:induction false} RestrictionMembers(version: nat, rs: seq<Restriction>, e: Scheduled)
    ensures e in RestrictionEntries(version, rs)
            <==> exists i :: 0 <= i < |rs| && (e == Activation(version, rs[i]) || e == Release(version, rs[i]))
  {
    if rs != [] {
      var n := |rs| - 1;
      RestrictionMembers(version, rs[..n], e);
      assert forall i :: 0 <= i < n ==> rs[..n][i] == rs[i];
    }
  }

  lemma {:induction false} BetweenMembers(days: int -> Option<Generated>, from: int, until: int, e: Scheduled)
    requires 0 <= from
    ensures e in EntriesBetween(days, from, until) <==> AnnouncedBetween(days, from, until, e)
    decreases until - from
  {
    if from < until {
      var last := until - 1;
      BetweenMembers(days, from, last, e);
      LastEntry(days, from, last, e);
    }
  }

  lemma LastEntry(days: int -> Option<Generated>, from: int, last: int, e: Scheduled)
    requires 0 <= from <= last && (e in EntriesBetween(days, from, last) <==> AnnouncedBetween(days, from, last, e))
    ensures e in EntriesBetween(days, from, last + 1) <==> AnnouncedBetween(days, from, last + 1, e)
  {
    assert EntriesBetween(days, from, last + 1) == EntriesBetween(days, from, last) + EntriesOf(days(last));
    LastDayMembers(days, last, e);
    AnnouncedLast(days, from, last, e);
  }

  ghost predicate AnnouncedBetween(days: int -> Option<Generated>, from: int, until: int, e: Scheduled) {
    exists origin, i :: from <= origin < until && Announces(days, origin, i, e)
  }

  lemma AnnouncedLast(days: int -> Option<Generated>, from: int, last: int, e: Scheduled)
    requires from <= last
    ensures AnnouncedBetween(days, from, last + 1, e)
            <==> AnnouncedBetween(days, from, last, e) || exists i :: Announces(days, last, i, e)
  {
    if i :| Announces(days, last, i, e) {
      assert from <= last < last + 1 && Announces(days, last, i, e);
    }
  }

  lemma LastDayMembers(days: int -> Option<Generated>, origin: int, e: Scheduled)
    requires 0 <= origin
    ensures e in EntriesOf(days(origin)) <==> exists i :: Announces(days, origin, i, e)
  {
    if days(origin).Some? {
      var rs, v := days(origin).value.restrictions, Version(days, origin);
      RestrictionMembers(v, rs, e);
      if e in EntriesOf(days(origin)) {
        var i :| 0 <= i < |rs| && (e == Activation(v, rs[i]) || e == Release(v, rs[i]));
        assert Announces(days, origin, i, e);
      }
      if i :| Announces(days, origin, i, e) {
        assert e == Activation(v, rs[i]) || e == Release(v, rs[i]);
      }
    }
  }

  /** The look-back of two days misses nothing: an instant carries exactly the commands that any day's
      restrictions have at that instant. */
  lemma LookBackIsComplete(days: int -> Option<Generated>, atMs: int, e: Scheduled)
    requires WithinThreeDays(days)
    ensures e in DailyAt(days, atMs) <==> e.atMs == atMs && exists origin, i :: Announces(days, origin, i, e)
  {
    if 0 <= atMs {
      var day := atMs / DAY_MS;
      FilterMembers(LookBack(days, day), AtTime(atMs));
      SortPermutes(Filter(LookBack(days, day), AtTime(atMs)), CommandAtMost);
      BetweenMembers(days, FirstOrigin(day), day + 1, e);
    }
    if e.atMs == atMs {
      forall origin, i | Announces(days, origin, i, e)
        ensures 0 <= atMs && FirstOrigin(atMs / DAY_MS) <= origin <= atMs / DAY_MS
      {
        var r := The(days, origin, i);
        assert origin * DAY_MS <= atMs < (origin + 3) * DAY_MS;
      }
    }
  }

  // ------------------------------------------------------------------ grouping a day's entries by time

  /** Appends the entry to the group of its time, or opens a group at the end. */
  function Put(groups: seq<Boundary>, e: Scheduled): seq<Boundary> {
    if groups == [] then [Boundary(e.atMs, [e])]
    else if groups[0].atMs == e.atMs then [Boundary(e.atMs, groups[0].commands + [e])] + groups[1..]
    else [groups[0]] + Put(groups[1..], e)
  }

  /** The groups hold the entries of each time in arrival order, one group a time. */
  ghost predicate Grouped(groups: seq<Boundary>, entries: seq<Scheduled>) {
    && OneGroupATime(groups)
    && (forall g :: g in groups ==> g.commands != [] && g.commands == Filter(entries, AtTime(g.atMs)))
    && (forall e :: e in entries ==> HasTime(groups, e.atMs))
  }

  ghost predicate OneGroupATime(groups: seq<Boundary>) {
    forall i, j :: 0 <= i < j < |groups| ==> groups[i].atMs != groups[j].atMs
  }

  ghost predicate HasTime(groups: seq<Boundary>, atMs: int) {
    exists g :: g in groups && g.atMs == atMs
  }

  lemma {:induction false} PutTimes(groups: seq<Boundary>, e: Scheduled)
    ensures forall t :: HasTime(Put(groups, e), t) <==> HasTime(groups, t) || t == e.atMs
  {
    var after := Put(groups, e);
    if groups == [] {
      assert after[0] in after;
    } else {
      assert groups[0] in groups && after[0] in after;
      if groups[0].atMs != e.atMs {
        PutTimes(groups[1..], e);
        forall t
          ensures HasTime(after, t) <==> HasTime(groups, t) || t == e.atMs
        {
          assert HasTime(after, t)
                 <==> groups[0].atMs == t || HasTime(Put(groups[1..], e), t) by { HeadTime(after, t); }
          HeadTime(groups, t);
        }
      } else {
        forall t
          ensures HasTime(after, t) <==> HasTime(groups, t) || t == e.atMs
        {
          HeadTime(after, t);
          HeadTime(groups, t);
        }
      }
    }
  }

  lemma HeadTime(groups: seq<Boundary>, t: int)
    requires groups != []
    ensures HasTime(groups, t) <==> groups[0].atMs == t || HasTime(groups[1..], t)
  {
    if HasTime(groups, t) {
      var g :| g in groups && g.atMs == t;
      assert g == groups[0] || g in groups[1..];
    }
    if HasTime(groups[1..], t) {
      var g :| g in groups[1..] && g.atMs == t;
      assert g in groups;
    }
    assert groups[0] in groups;
  }

  lemma {:induction false} PutKeepsOne(groups: seq<Boundary>, e: Scheduled)
    requires OneGroupATime(groups)
    ensures OneGroupATime(Put(groups, e))
  {
    if groups != [] && groups[0].atMs != e.atMs {
      var rest := groups[1..];
      PutKeepsOne(rest, e);
      PutTimes(rest, e);
      assert !HasTime(rest, groups[0].atMs);
      var after := Put(rest, e);
      forall j | 0 <= j < |after|
        ensures after[j].atMs != groups[0].atMs
      {
        assert after[j] in after && HasTime(after, after[j].atMs);
      }
    }
  }

  /** Members of the result: old groups of other times, and one group of the entry's time. */
  lemma {:induction false} PutMembers(groups: seq<Boundary>, e: Scheduled, g: Boundary)
    requires OneGroupATime(groups) && g in Put(groups, e)
    ensures g.atMs != e.atMs ==> g in groups
    ensures g.atMs != e.atMs || (g.commands == [e] && !HasTime(groups, e.atMs))
            || (exists h :: h in groups && h.atMs == e.atMs && g.commands == h.commands + [e])
  {
    if groups != [] {
      var rest := groups[1..];
      if groups[0].atMs == e.atMs {
        assert groups[0] in groups;
      } else if g != groups[0] {
        PutMembers(rest, e, g);
        HeadTime(groups, e.atMs);
      }
    }
  }

  /** Putting an entry keeps the grouping. */
  lemma PutGroups(groups: seq<Boundary>, entries: seq<Scheduled>, e: Scheduled)
    requires Grouped(groups, entries)
    ensures Grouped(Put(groups, e), entries + [e])
  {
    PutKeepsOne(groups, e);
    PutTimes(groups, e);
    var after := Put(groups, e);
    forall g | g in after
      ensures g.commands != [] && g.commands == Filter(entries + [e], AtTime(g.atMs))
    {
      PutMembers(groups, e, g);
      FilterLast(entries, e, AtTime(g.atMs));
      if g.atMs == e.atMs && !HasTime(groups, e.atMs) {
        NoneAt(groups, entries, e.atMs);
      }
    }
  }

  lemma NoneAt(groups: seq<Boundary>, entries: seq<Scheduled>, t: int)
    requires Grouped(groups, entries) && !HasTime(groups, t)
    ensures Filter(entries, AtTime(t)) == []
  {
    FilterMembers(entries, AtTime(t));
    FirstIsMember(Filter(entries, AtTime(t)));
  }

  // ------------------------------------------------------------------ from the groups to the boundaries

  predicate EarlierGroup(a: Boundary, b: Boundary) { a.atMs <= b.atMs }

  function SortCommands(groups: seq<Boundary>): (bs: seq<Boundary>)
    ensures |bs| == |groups|
    ensures forall i :: 0 <= i < |bs| ==> bs[i] == Boundary(groups[i].atMs, Sort(groups[i].commands, CommandAtMost))
  {
    if groups == [] then []
    else [Boundary(groups[0].atMs, Sort(groups[0].commands, CommandAtMost))] + SortCommands(groups[1..])
  }

  /** Sorting one group a time by time gives strictly ascending times. */
  lemma SortedGroupsAscend(groups: seq<Boundary>)
    requires OneGroupATime(groups)
    ensures Ascending(SortCommands(Sort(groups, EarlierGroup)))
  {
    SortSorted(groups, EarlierGroup);
    forall i, j | 0 <= i < j < |groups|
      ensures groups[i] != groups[j]
    {
    }
    SortPermutes(groups, EarlierGroup);
    SortDistinct(groups, EarlierGroup);
    var sorted := Sort(groups, EarlierGroup);
    forall i, j | 0 <= i < j < |sorted|
      ensures sorted[i].atMs < sorted[j].atMs
    {
      assert sorted[i] in groups && sorted[j] in groups;
      var a :| 0 <= a < |groups| && groups[a] == sorted[i];
      var b :| 0 <= b < |groups| && groups[b] == sorted[j];
      assert a != b;
    }
  }

  /** The part of the entries a day yields. */
  function Kept(entries: seq<Scheduled>, lower: int, upper: int, after: int, through: int): (kept: seq<Scheduled>)
  {
    if entries == [] then []
    else
      var n := |entries| - 1;
      var before := Kept(entries[..n], lower, upper, after, through);
      if InWindow(entries[n], lower, upper, after, through) then before + [entries[n]] else before
  }

  lemma {:induction false} KeptAt(entries: seq<Scheduled>, lower: int, upper: int, after: int, through: int, t: int)
    ensures Filter(Kept(entries, lower, upper, after, through), AtTime(t)) ==
            if lower <= t < upper && after < t <= through then Filter(entries, AtTime(t)) else []
  {
    if entries != [] {
      var n := |entries| - 1;
      var e := entries[n];
      KeptAt(entries[..n], lower, upper, after, through, t);
      assert entries == entries[..n] + [e];
      FilterLast(entries[..n], e, AtTime(t));
      FilterLast(Kept(entries[..n], lower, upper, after, through), e, AtTime(t));
    }
  }

  lemma FilterLast(s: seq<Scheduled>, e: Scheduled, keep: Scheduled -> bool)
    ensures Filter(s + [e], keep) == if keep(e) then Filter(s, keep) + [e] else Filter(s, keep)
  {
    FilterAppend(s, [e], keep);
    assert Filter([e], keep) == if keep(e) then [e] else [];
  }

  /** The groups of what the origin days before `origin` contribute to the part of the window in `day`. */
  ghost predicate Collected(groups: seq<Boundary>, days: int -> Option<Generated>, day: int, origin: int, after: int,
                            through: int) {
    Grouped(groups, Kept(EntriesBetween(days, FirstOrigin(day), origin), day * DAY_MS, (day + 1) * DAY_MS, after,
                         through))
  }

  lemma CollectedMore(groups: seq<Boundary>, days: int -> Option<Generated>, day: int, origin: int, after: int,
                      through: int)
    requires FirstOrigin(day) <= origin
    requires Grouped(groups, Kept(EntriesBetween(days, FirstOrigin(day), origin) + EntriesOf(days(origin)),
                                  day * DAY_MS, (day + 1) * DAY_MS, after, through))
    ensures Collected(groups, days, day, origin + 1, after, through)
  {
  }

  function Larger(a: int, b: int): int { if a < b then b else a }

  function Smaller(a: int, b: int): int { if a < b then a else b }

  lemma AtIsSortedFilter(days: int -> Option<Generated>, day: int, t: int)
    requires 0 <= day && day * DAY_MS <= t < (day + 1) * DAY_MS
    ensures DailyAtOf(days)(t) == Sort(Filter(LookBack(days, day), AtTime(t)), CommandAtMost)
  {
    assert t / DAY_MS == day;
  }

  /** A day's groups, sorted as the source sorts them, are the stream of the part of the window in that day. */
  lemma DayIsStream(days: int -> Option<Generated>, day: int, after: int, through: int, groups: seq<Boundary>)
    requires 0 <= day && Collected(groups, days, day, day + 1, after, through)
    ensures IsStream(SortCommands(Sort(groups, EarlierGroup)), Larger(after, day * DAY_MS - 1),
                     Smaller(through, (day + 1) * DAY_MS - 1), DailyAtOf(days))
  {
    var bs := SortCommands(Sort(groups, EarlierGroup));
    SortedGroupsAscend(groups);
    forall b | b in bs
      ensures Larger(after, day * DAY_MS - 1) < b.atMs <= Smaller(through, (day + 1) * DAY_MS - 1)
      ensures b.commands == DailyAtOf(days)(b.atMs) && b.commands != []
    {
      BoundaryIsDue(days, day, after, through, groups, b);
    }
    forall t | Larger(after, day * DAY_MS - 1) < t <= Smaller(through, (day + 1) * DAY_MS - 1)
        && DailyAtOf(days)(t) != []
      ensures Boundary(t, DailyAtOf(days)(t)) in bs
    {
      DueIsBoundary(days, day, after, through, groups, t);
    }
  }

  lemma BoundaryIsDue(days: int -> Option<Generated>, day: int, after: int, through: int, groups: seq<Boundary>,
                      b: Boundary)
    requires 0 <= day && b in SortCommands(Sort(groups, EarlierGroup))
    requires Grouped(groups, Kept(LookBack(days, day), day * DAY_MS, (day + 1) * DAY_MS, after, through))
    ensures Larger(after, day * DAY_MS - 1) < b.atMs <= Smaller(through, (day + 1) * DAY_MS - 1)
    ensures b.commands == DailyAtOf(days)(b.atMs) && b.commands != []
  {
    var bs, sorted := SortCommands(Sort(groups, EarlierGroup)), Sort(groups, EarlierGroup);
    var i :| 0 <= i < |bs| && bs[i] == b;
    SortPermutes(groups, EarlierGroup);
    assert sorted[i] in sorted;
    GroupIsDue(days, day, after, through, groups, sorted[i]);
  }

  lemma DueIsBoundary(days: int -> Option<Generated>, day: int, after: int, through: int, groups: seq<Boundary>, t: int)
    requires 0 <= day && Larger(after, day * DAY_MS - 1) < t <= Smaller(through, (day + 1) * DAY_MS - 1)
             && DailyAtOf(days)(t) != []
    requires Grouped(groups, Kept(LookBack(days, day), day * DAY_MS, (day + 1) * DAY_MS, after, through))
    ensures Boundary(t, DailyAtOf(days)(t)) in SortCommands(Sort(groups, EarlierGroup))
  {
    var bs, sorted := SortCommands(Sort(groups, EarlierGroup)), Sort(groups, EarlierGroup);
    DueHasGroup(days, day, after, through, groups, t);
    var g :| g in groups && g.atMs == t;
    SortPermutes(groups, EarlierGroup);
    assert g in sorted;
    var i :| 0 <= i < |sorted| && sorted[i] == g;
    GroupIsDue(days, day, after, through, groups, g);
    assert bs[i] in bs;
  }

  lemma GroupIsDue(days: int -> Option<Generated>, day: int, after: int, through: int, groups: seq<Boundary>,
                   g: Boundary)
    requires 0 <= day && g in groups
    requires Grouped(groups, Kept(LookBack(days, day), day * DAY_MS, (day + 1) * DAY_MS, after, through))
    ensures Larger(after, day * DAY_MS - 1) < g.atMs <= Smaller(through, (day + 1) * DAY_MS - 1)
    ensures Sort(g.commands, CommandAtMost) == DailyAtOf(days)(g.atMs) != []
  {
    var lower, upper := day * DAY_MS, (day + 1) * DAY_MS;
    KeptAt(LookBack(days, day), lower, upper, after, through, g.atMs);
    AtIsSortedFilter(days, day, g.atMs);
    SortPermutes(g.commands, CommandAtMost);
  }

  lemma DueHasGroup(days: int -> Option<Generated>, day: int, after: int, through: int, groups: seq<Boundary>, t: int)
    requires 0 <= day && Larger(after, day * DAY_MS - 1) < t <= Smaller(through, (day + 1) * DAY_MS - 1)
    requires Grouped(groups, Kept(LookBack(days, day), day * DAY_MS, (day + 1) * DAY_MS, after, through))
    requires DailyAtOf(days)(t) != []
    ensures HasTime(groups, t)
  {
    var lower, upper := day * DAY_MS, (day + 1) * DAY_MS;
    var kept := Kept(LookBack(days, day), lower, upper, after, through);
    KeptAt(LookBack(days, day), lower, upper, after, through, t);
    AtIsSortedFilter(days, day, t);
    SortPermutes(Filter(kept, AtTime(t)), CommandAtMost);
    FilterMembers(kept, AtTime(t));
    var here := Filter(kept, AtTime(t));
    assert here != [];
    assert here[0] in here && IsAt(here[0], t);
  }
}
