/** The catalogue object of apps/game-api/src/daily-restriction-catalog.ts: its sources, policies and
    bounded cache of generated days, and its command streams for one region, merged with those of the
    timetable catalogue it wraps. */
module DailyCatalog {
  import opened DailyRestrictions
  import opened DailyStreams
  import opened Outcomes
  import opened Sorting
  import opened TextOrder

  datatype Key = Key(worldId: Text, regionId: Text)

  datatype Cached = Cached(dayStartMs: int, generated: Option<Generated>)

  datatype Rejection = AmbiguousPolicyVersion

  /** What a lookup gives without any cache. */
  function DayWithoutCache(generate: (Source, int, Policy) -> Generated, sources: map<Key, Source>,
                           policies: map<Text, seq<Policy>>,
                           key: Key, dayStartMs: int): Option<Generated>
  {
    if key !in sources then None
    else DayOf(generate, sources[key], if key.worldId in policies then policies[key.worldId] else [], dayStartMs)
  }

  /** The days of a region by number. */
  function DayTable(generate: (Source, int, Policy) -> Generated, sources: map<Key, Source>,
                    policies: map<Text, seq<Policy>>,
                    key: Key): int -> Option<Generated>
  {
    (day: int) => DayWithoutCache(generate, sources, policies, key, day * DAY_MS)
  }

  function KeyOf(source: Source): Key { Key(source.worldId, source.regionId) }

  /** The table of a source list: the last source of a key wins. */
  function SourceTable(list: seq<Source>): (table: map<Key, Source>)
    ensures forall key :: key in table ==> KeyOf(table[key]) == key && table[key] in list
    ensures forall s :: s in list ==> KeyOf(s) in table
  {
    if list == [] then map[] else SourceTable(list[..|list| - 1])[KeyOf(list[|list| - 1]) := list[|list| - 1]]
  }

  ghost predicate DistinctVersions(policies: seq<Policy>) {
    forall i, j :: 0 <= i < j < |policies| ==> policies[i].version != policies[j].version
  }

  function Position(entries: seq<Cached>, dayStartMs: int): (i: nat)
    ensures i <= |entries|
    ensures i < |entries| ==> entries[i].dayStartMs == dayStartMs
    ensures forall k :: 0 <= k < i ==> entries[k].dayStartMs != dayStartMs
  {
    if entries == [] || entries[0].dayStartMs == dayStartMs then 0 else 1 + Position(entries[1..], dayStartMs)
  }

  class DailyRestrictionCommandCatalog {
    const generate: (Source, int, Policy) -> Generated
    const baseAt: (Key, int) -> seq<Scheduled>
    const baseDue: (Key, int, int) -> seq<Boundary>
    var sources: map<Key, Source>
    var policies: map<Text, seq<Policy>>
    var cache: map<Key, seq<Cached>>

    constructor (generate: (Source, int, Policy) -> Generated, baseAt: (Key, int) -> seq<Scheduled>,
                 baseDue: (Key, int, int) -> seq<Boundary>)
      ensures Valid() && sources == map[] && policies == map[]
      ensures this.generate == generate && this.baseAt == baseAt && this.baseDue == baseDue
    {
      this.generate, this.baseAt, this.baseDue := generate, baseAt, baseDue;
      sources, policies, cache := map[], map[], map[];
    }

    ghost function Days(key: Key): int -> Option<Generated>
      reads this`sources, this`policies
    {
      DayTable(generate, sources, policies, key)
    }

    /** Every cached day is what the generator would give now, and at most three are kept per region. */
    ghost predicate Valid()
      reads this
    {
      Filed(sources) && CacheIsCurrent(generate, sources, policies, cache)
    }

    /** The cached lookup. The day looked up is in the cache afterwards, as the entry evicted last. */
    method Day(key: Key, dayStartMs: int) returns (generated: Option<Generated>)
      requires Valid()
      modifies this`cache
      ensures Valid()
      ensures generated == DayWithoutCache(generate, sources, policies, key, dayStartMs)
      ensures key in sources ==> key in cache && Cached(dayStartMs, generated) in cache[key]
      ensures forall other :: other != key ==> (other in cache <==> other in old(cache))
                                               && (other in cache ==> cache[other] == old(cache[other]))
    {
      if key !in sources {
        return None;
      }
      var entries := if key in cache then cache[key] else [];
      var i := Position(entries, dayStartMs);
      if i < |entries| {
        assert entries[i] in cache[key];
        return entries[i].generated;
      }
      generated := DayOf(generate, sources[key], if key.worldId in policies then policies[key.worldId]
                         else [], dayStartMs);
      entries := entries + [Cached(dayStartMs, generated)];
      while |entries| > 3
        invariant 1 <= |entries| <= 4 && entries[|entries| - 1] == Cached(dayStartMs, generated)
        invariant EntriesAreCurrent(generate, sources, policies, key, entries)
      {
        entries := entries[1..];
      }
      cache := cache[key := entries];
    }

    /** Takes over new sources and their worlds' policies. The cached days of a region survive only when
        neither its source nor its world's policies changed; a version used twice rejects everything. */
    method Refresh(list: seq<Source>, loadPolicies: Text -> seq<Policy>) returns (outcome: Result<(), Rejection>)
      requires Valid()
      modifies this
      ensures Valid()
      ensures outcome.Ok? <==> forall s :: s in list ==> DistinctVersions(loadPolicies(s.worldId))
      ensures outcome.Err? ==> sources == old(sources) && policies == old(policies) && cache == old(cache)
      ensures outcome.Ok? ==> sources == SourceTable(list)
      ensures outcome.Ok? ==> policies == PolicyTable(list, loadPolicies)
      ensures outcome.Ok? ==> cache == Survivors(old(cache), old(sources), old(policies), sources, policies)
    {
      var next := SourceTable(list);
      var loading := LoadPolicies(list, loadPolicies);
      if loading.Err? {
        return Err(loading.error);
      }
      SurvivorsAreCurrent(generate, cache, sources, policies, next, loading.value);
      cache := Survivors(cache, sources, policies, next, loading.value);
      sources, policies := next, loading.value;
      outcome := Ok(());
    }

    /** The restriction commands due in (afterMs, throughMs], day by day with a look-back of two days. */
    method DailyBoundaries(key: Key, afterMs: int, throughMs: int) returns (boundaries: seq<Boundary>)
      requires Valid()
      modifies this`cache
      ensures Valid()
      ensures IsStream(boundaries, afterMs, throughMs, DailyAtOf(Days(key)))
    {
      var firstDay := Larger(0, afterMs / DAY_MS);
      var lastDay := throughMs / DAY_MS;
      boundaries := [];
      NothingBefore(Days(key), afterMs, Smaller(throughMs, firstDay * DAY_MS - 1), firstDay);
      var day := firstDay;
      while day <= lastDay
        invariant firstDay <= day && (day <= lastDay + 1 || day == firstDay)
        invariant Valid()
        invariant IsStream(boundaries, afterMs, Smaller(throughMs, day * DAY_MS - 1), DailyAtOf(Days(key)))
      {
        var groups := CollectDay(key, day, afterMs, throughMs);
        DayIsStream(Days(key), day, afterMs, throughMs, groups);
        var due := SortCommands(Sort(groups, EarlierGroup));
        AppendDay(boundaries, due, afterMs, throughMs, day, DailyAtOf(Days(key)));
        boundaries := boundaries + due;
        day := day + 1;
      }
      assert Smaller(throughMs, day * DAY_MS - 1) == throughMs;
    }

    method OriginDay(key: Key, origin: int) returns (generated: Option<Generated>)
      requires Valid()
      modifies this`cache
      ensures Valid() && generated == Days(key)(origin)
    {
      generated := Day(key, origin * DAY_MS);
    }

    /** The day's commands in the window, grouped by time in the order of their origin days. */
    method CollectDay(key: Key, day: int, afterMs: int, throughMs: int) returns (groups: seq<Boundary>)
      requires Valid() && 0 <= day
      modifies this`cache
      ensures Valid()
      ensures Collected(groups, Days(key), day, day + 1, afterMs, throughMs)
    {
      ghost var days := Days(key);
      groups := [];
      var origin := FirstOrigin(day);
      while origin <= day
        invariant FirstOrigin(day) <= origin <= day + 1
        invariant Valid() && Days(key) == days
        invariant Collected(groups, days, day, origin, afterMs, throughMs)
      {
        var generated := OriginDay(key, origin);
        groups := CollectGenerated(groups, generated, day * DAY_MS, (day + 1) * DAY_MS, afterMs, throughMs,
                                   EntriesBetween(days, FirstOrigin(day), origin));
        CollectedMore(groups, days, day, origin, afterMs, throughMs);
        origin := origin + 1;
      }
    }

    /** All commands of one instant: the restrictions' and then the timetable's. */
    method At(key: Key, atMs: int) returns (commands: seq<Scheduled>)
      requires Valid()
      modifies this`cache
      ensures Valid()
      ensures commands == DailyAt(Days(key), atMs) + baseAt(key, atMs)
    {
      var boundaries := DailyBoundaries(key, atMs - 1, atMs);
      InstantStream(boundaries, atMs, DailyAtOf(Days(key)));
      commands := FlatCommands(boundaries) + baseAt(key, atMs);
    }

    /** Both catalogues' boundaries in the window, merged. */
    method DueBoundaries(key: Key, afterMs: int, throughMs: int) returns (boundaries: seq<Boundary>)
      requires Valid()
      requires IsStream(baseDue(key, afterMs, throughMs), afterMs, throughMs, BaseAtOf(baseAt, key))
      modifies this`cache
      ensures Valid()
      ensures IsStream(boundaries, afterMs, throughMs, AllAt(Days(key), baseAt, key))
    {
      var daily := DailyBoundaries(key, afterMs, throughMs);
      boundaries := MergeStreams(baseDue(key, afterMs, throughMs), daily);
      MergeIsStream(baseDue(key, afterMs, throughMs), daily, afterMs, throughMs, BaseAtOf(baseAt, key),
                    DailyAtOf(Days(key)),
                    AllAt(Days(key), baseAt, key));
    }
  }

  // ------------------------------------------------------------------ the cache

  /** Each source is filed under its own world and region. */
  ghost predicate Filed(sources: map<Key, Source>) {
    forall key :: key in sources ==> KeyOf(sources[key]) == key
  }

  ghost predicate CacheIsCurrent(generate: (Source, int, Policy) -> Generated, sources: map<Key, Source>,
                                 policies: map<Text, seq<Policy>>, cache: map<Key, seq<Cached>>)
  {
    forall key :: key in cache ==>
      key in sources && |cache[key]| <= 3 && EntriesAreCurrent(generate, sources, policies, key, cache[key])
  }

  ghost predicate EntriesAreCurrent(generate: (Source, int, Policy) -> Generated, sources: map<Key, Source>,
                                    policies: map<Text, seq<Policy>>, key: Key, entries: seq<Cached>)
  {
    forall i :: 0 <= i < |entries| ==>
      entries[i].generated == DayWithoutCache(generate, sources, policies, key, entries[i].dayStartMs)
  }

  /** The cache after the deletions of a refresh from one table to the next. */
  function Survivors(cache: map<Key, seq<Cached>>, sources: map<Key, Source>, policies: map<Text, seq<Policy>>,
                     next: map<Key, Source>, loaded: map<Text, seq<Policy>>): (kept: map<Key, seq<Cached>>)
  {
    map key | key in cache && key in sources && key in next && next[key] == sources[key]
              && key.worldId in policies && key.worldId in loaded && policies[key.worldId] == loaded[key.worldId]
      :: cache[key]
  }

  /** What survives a refresh is still right: neither the source nor the policies of such a region changed. */
  lemma SurvivorsAreCurrent(generate: (Source, int, Policy) -> Generated, cache: map<Key, seq<Cached>>,
                            sources: map<Key, Source>,
                            policies: map<Text, seq<Policy>>, next: map<Key, Source>, loaded: map<Text, seq<Policy>>)
    requires CacheIsCurrent(generate, sources, policies, cache)
    ensures CacheIsCurrent(generate, next, loaded, Survivors(cache, sources, policies, next, loaded))
  {
    var kept := Survivors(cache, sources, policies, next, loaded);
    forall key | key in kept
      ensures EntriesAreCurrent(generate, next, loaded, key, kept[key])
    {
      assert EntriesAreCurrent(generate, sources, policies, key, cache[key]);
    }
  }

  // ------------------------------------------------------------------ the streams

  function BaseAtOf(baseAt: (Key, int) -> seq<Scheduled>, key: Key): int -> seq<Scheduled> {
    (atMs: int) => baseAt(key, atMs)
  }

  function AllAt(days: int -> Option<Generated>, baseAt: (Key, int) -> seq<Scheduled>,
                 key: Key): int -> seq<Scheduled> {
    (atMs: int) => DailyAt(days, atMs) + baseAt(key, atMs)
  }

  function FlatCommands(boundaries: seq<Boundary>): seq<Scheduled> {
    if boundaries == [] then [] else boundaries[0].commands + FlatCommands(boundaries[1..])
  }

  /** A stream of one instant holds that instant's commands. */
  lemma InstantStream(boundaries: seq<Boundary>, atMs: int, at: int -> seq<Scheduled>)
    requires IsStream(boundaries, atMs - 1, atMs, at)
    ensures FlatCommands(boundaries) == at(atMs)
  {
    if at(atMs) == [] {
      FirstBoundary(boundaries);
    } else {
      var only := [Boundary(atMs, at(atMs))];
      assert IsStream(only, atMs - 1, atMs, at);
      StreamIsUnique(boundaries, only, atMs - 1, atMs, at);
      assert FlatCommands(only[1..]) == [];
    }
  }

  lemma NothingBefore(days: int -> Option<Generated>, after: int, through: int, firstDay: int)
    requires firstDay == Larger(0, after / DAY_MS) && through <= firstDay * DAY_MS - 1
    ensures IsStream([], after, through, DailyAtOf(days))
  {
    forall t | after < t <= through
      ensures DailyAtOf(days)(t) == []
    {
      assert t < 0;
    }
  }

  lemma AppendDay(bs: seq<Boundary>, due: seq<Boundary>, after: int, through: int, day: int, at: int -> seq<Scheduled>)
    requires IsStream(bs, after, Smaller(through, day * DAY_MS - 1), at)
    requires IsStream(due, Larger(after, day * DAY_MS - 1), Smaller(through, (day + 1) * DAY_MS - 1), at)
    ensures IsStream(bs + due, after, Smaller(through, (day + 1) * DAY_MS - 1), at)
  {
    var middle, end := day * DAY_MS - 1, Smaller(through, (day + 1) * DAY_MS - 1);
    if through <= middle {
      FirstBoundary(due);
      assert bs + due == bs;
    } else if middle < after {
      FirstBoundary(bs);
      assert bs + due == due;
    } else {
      StreamsJoin(bs, due, after, middle, end, at);
    }
  }

  method CollectGenerated(groups: seq<Boundary>, generated: Option<Generated>, lower: int, upper: int, afterMs: int,
                          throughMs: int,
                          ghost before: seq<Scheduled>) returns (next: seq<Boundary>)
    requires Grouped(groups, Kept(before, lower, upper, afterMs, throughMs))
    ensures Grouped(next, Kept(before + EntriesOf(generated), lower, upper, afterMs, throughMs))
  {
    if generated.None? {
      assert before + [] == before;
      return groups;
    }
    next := CollectRestrictions(groups, generated.value, lower, upper, afterMs, throughMs, before);
  }

  method CollectRestrictions(groups: seq<Boundary>, generated: Generated, lower: int, upper: int, afterMs: int,
                             throughMs: int,
                             ghost before: seq<Scheduled>) returns (next: seq<Boundary>)
    requires Grouped(groups, Kept(before, lower, upper, afterMs, throughMs))
    ensures Grouped(next, Kept(before + EntriesOf(Some(generated)), lower, upper, afterMs, throughMs))
  {
    next := groups;
    var version, rs := generated.policyVersion, generated.restrictions;
    var i := 0;
    assert before + RestrictionEntries(version, rs[..0]) == before;
    while i < |rs|
      invariant 0 <= i <= |rs|
      invariant Grouped(next, Kept(before + RestrictionEntries(version, rs[..i]), lower, upper, afterMs, throughMs))
    {
      ghost var seen := before + RestrictionEntries(version, rs[..i]);
      next := Consider(next, Activation(version, rs[i]), lower, upper, afterMs, throughMs, seen);
      next := Consider(next, Release(version, rs[i]), lower, upper, afterMs, throughMs,
                       seen + [Activation(version, rs[i])]);
      assert rs[..i + 1][..i] == rs[..i];
      assert seen + [Activation(version, rs[i])] + [Release(version, rs[i])]
             == before + RestrictionEntries(version, rs[..i + 1]);
      i := i + 1;
    }
    assert rs[..|rs|] == rs;
  }

  /** Files the entry when it lies in the day and in the window. */
  method Consider(groups: seq<Boundary>, e: Scheduled, lower: int, upper: int, afterMs: int, throughMs: int,
                  ghost before: seq<Scheduled>) returns (next: seq<Boundary>)
    requires Grouped(groups, Kept(before, lower, upper, afterMs, throughMs))
    ensures Grouped(next, Kept(before + [e], lower, upper, afterMs, throughMs))
  {
    assert (before + [e])[..|before|] == before;
    if e.atMs < lower || e.atMs >= upper || e.atMs <= afterMs || e.atMs > throughMs {
      return groups;
    }
    PutGroups(groups, Kept(before, lower, upper, afterMs, throughMs), e);
    next := Put(groups, e);
  }

  // ------------------------------------------------------------------ refreshing

  /** Each world's policies in the order of their start and version. */
  function PolicyTable(list: seq<Source>, loadPolicies: Text -> seq<Policy>): (table: map<Text, seq<Policy>>)
    ensures forall w :: w in table <==> exists s :: s in list && s.worldId == w
    ensures forall w :: w in table ==> table[w] == Sort(loadPolicies(w), PolicyAtMost)
  {
    map w | w in set s | s in list :: s.worldId :: Sort(loadPolicies(w), PolicyAtMost)
  }

  method LoadPolicies(list: seq<Source>, loadPolicies: Text -> seq<Policy>)
    returns (loaded: Result<map<Text, seq<Policy>>, Rejection>)
    ensures loaded.Ok? <==> forall s :: s in list ==> DistinctVersions(loadPolicies(s.worldId))
    ensures loaded.Ok? ==> loaded.value == PolicyTable(list, loadPolicies)
  {
    var table: map<Text, seq<Policy>> := map[];
    var i := 0;
    while i < |list|
      invariant 0 <= i <= |list|
      invariant forall k :: 0 <= k < i ==> DistinctVersions(loadPolicies(list[k].worldId))
      invariant forall w :: w in table <==> exists k :: 0 <= k < i && list[k].worldId == w
      invariant forall w :: w in table ==> table[w] == Sort(loadPolicies(w), PolicyAtMost)
    {
      var w := list[i].worldId;
      if w !in table {
        var sorted := Sort(loadPolicies(w), PolicyAtMost);
        var distinct := AllDistinct(sorted);
        SortedVersions(loadPolicies(w));
        if !distinct {
          assert list[i] in list;
          return Err(AmbiguousPolicyVersion);
        }
        table := table[w := sorted];
      } else {
        var k :| 0 <= k < i && list[k].worldId == w;
      }
      i := i + 1;
    }
    assert table == PolicyTable(list, loadPolicies);
    loaded := Ok(table);
  }

  lemma SortedVersions(policies: seq<Policy>)
    ensures DistinctVersions(Sort(policies, PolicyAtMost)) <==> DistinctVersions(policies)
  {
    SortPermutes(policies, PolicyAtMost);
    if DistinctVersions(policies) {
      SameVersions(policies, Sort(policies, PolicyAtMost));
    }
    if DistinctVersions(Sort(policies, PolicyAtMost)) {
      SameVersions(Sort(policies, PolicyAtMost), policies);
    }
  }

  lemma SameVersions(s: seq<Policy>, t: seq<Policy>)
    requires multiset(s) == multiset(t) && DistinctVersions(s)
    ensures DistinctVersions(t)
  {
    forall i, j | 0 <= i < j < |s|
      ensures s[i] != s[j]
    {
      assert s[i].version != s[j].version;
    }
    DistinctIsOnce(s);
    OnceIsDistinct(t);
    SameMultiset(s, t);
    forall i, j | 0 <= i < j < |t|
      ensures t[i].version != t[j].version
    {
      assert t[i] in s && t[j] in s;
    }
  }

  /** Whether no version occurs twice, by the size of the set of versions. */
  method AllDistinct(policies: seq<Policy>) returns (distinct: bool)
    ensures distinct <==> DistinctVersions(policies)
  {
    var versions: set<int> := {};
    var i := 0;
    while i < |policies|
      invariant 0 <= i <= |policies|
      invariant forall v :: v in versions <==> exists k :: 0 <= k < i && policies[k].version == v
      invariant |versions| <= i && (|versions| == i <==> DistinctVersions(policies[..i]))
    {
      VersionStep(policies, i, versions);
      versions := versions + {policies[i].version};
      i := i + 1;
    }
    assert policies[..i] == policies;
    distinct := |versions| == |policies|;
  }

  lemma VersionStep(policies: seq<Policy>, i: nat, versions: set<int>)
    requires i < |policies|
    requires forall v :: v in versions <==> exists k :: 0 <= k < i && policies[k].version == v
    ensures DistinctVersions(policies[..i + 1]) <==> DistinctVersions(policies[..i]) && policies[i].version !in versions
  {
    var before, after := policies[..i], policies[..i + 1];
    assert after == before + [policies[i]];
    if DistinctVersions(after) {
      assert forall k :: 0 <= k < i ==> after[k].version != after[i].version;
      assert forall a, b :: 0 <= a < b < i ==> after[a].version != after[b].version;
    }
  }
}
