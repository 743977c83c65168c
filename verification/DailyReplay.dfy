/** What replaying the daily restriction commands does: whatever windows the time up to `t` is cut into,
    the replayed stream leaves active exactly the restrictions that hold at `t`. */
module DailyReplay {
  import opened DailyCatalog
  import opened DailyRestrictions
  import opened DailyStreams
  import opened Outcomes
  import opened Sorting
  import opened TextOrder

  /** The active disruptions with their effects. */
  type Active = map<Text, Text>

  function Apply(active: Active, command: Command): Active {
    match command
    case Activate(id, effect) => active[id := effect]
    case Clear(id, _) => active - {id}
    case Timetabled(_) => active
  }

  function ApplyAll(active: Active, commands: seq<Scheduled>): Active {
    if commands == [] then active
    else Apply(ApplyAll(active, commands[..|commands| - 1]), commands[|commands| - 1].command)
  }

  function Replay(active: Active, boundaries: seq<Boundary>): Active
    decreases |boundaries|
  {
    if boundaries == [] then active else Replay(ApplyAll(active, boundaries[0].commands), boundaries[1..])
  }

  // ------------------------------------------------------------------ what should be active

  ghost predicate HoldsAt(days: int -> Option<Generated>, origin: int, i: int, t: int) {
    Occurs(days, origin, i) && The(days, origin, i).startsAtMs <= t < The(days, origin, i).endsAtMs
  }

  ghost predicate Shows(active: Active, days: int -> Option<Generated>, t: int) {
    && (forall id :: id in active
          ==> exists origin, i :: HoldsAt(days, origin, i, t) && The(days, origin, i).disruptionId == id)
    && (forall origin, i :: HoldsAt(days, origin, i, t) ==>
          The(days, origin, i).disruptionId in active
          && active[The(days, origin, i).disruptionId] == The(days, origin, i).effect)
  }

  /** No disruption id is used for two restrictions at once: the weaker form of distinct ids that suffices.
      A restriction may even start at the instant at which an equally named one ends. */
  ghost predicate IdsNeverOverlap(days: int -> Option<Generated>) {
    forall o, i, p, j :: Occurs(days, o, i) && Occurs(days, p, j) && (o != p || i != j) ==>
      Apart(The(days, o, i), The(days, p, j))
  }

  predicate Apart(a: Restriction, b: Restriction) {
    a.disruptionId == b.disruptionId ==> a.endsAtMs <= b.startsAtMs || b.endsAtMs <= a.startsAtMs
  }

  /** `at` carries the daily commands of each instant, followed by commands of the timetable. */
  ghost predicate CarriesDaily(at: int -> seq<Scheduled>, days: int -> Option<Generated>) {
    forall t :: exists rest :: at(t) == DailyAt(days, t) + rest && OnlyTimetabled(rest)
  }

  ghost predicate OnlyTimetabled(commands: seq<Scheduled>) {
    forall i :: 0 <= i < |commands| ==> commands[i].command.Timetabled?
  }

  // ------------------------------------------------------------------ one instant

  ghost predicate ClearsFirst(commands: seq<Scheduled>) {
    forall i, j :: 0 <= i < j < |commands| && commands[j].command.Clear? ==> commands[i].command.Clear?
  }

  ghost predicate Activates(commands: seq<Scheduled>, id: Text) {
    exists e :: e in commands && e.command.Activate? && e.command.disruptionId == id
  }

  ghost predicate Clears(commands: seq<Scheduled>, id: Text) {
    exists e :: e in commands && e.command.Clear? && e.command.disruptionId == id
  }

  /** With clears in front, an id is active afterwards iff it is activated, or was active and is not cleared. */
  lemma {:induction false} ClearsThenActivations(active: Active, commands: seq<Scheduled>, id: Text)
    requires ClearsFirst(commands)
    ensures id in ApplyAll(active, commands) <==> Activates(commands, id) || (id in active && !Clears(commands, id))
    ensures id in ApplyAll(active, commands) && !Activates(commands, id)
            ==> ApplyAll(active, commands)[id] == active[id]
    ensures Activates(commands, id)
            ==> exists e :: e in commands && e.command == Activate(id, ApplyAll(active, commands)[id])
  {
    if commands != [] {
      var n := |commands| - 1;
      var before, e := commands[..n], commands[n];
      assert commands == before + [e];
      ClearsThenActivations(active, before, id);
      LastCommand(before, e, id);
      if e.command.Clear? {
        OnlyClearsBefore(before, e, id);
      }
      if Activates(before, id) && !(e.command.Activate? && e.command.disruptionId == id) {
        var a :| a in before && a.command == Activate(id, ApplyAll(active, before)[id]);
        assert a in commands;
      }
    }
  }

  lemma OnlyClearsBefore(before: seq<Scheduled>, e: Scheduled, id: Text)
    requires ClearsFirst(before + [e]) && e.command.Clear?
    ensures !Activates(before, id)
  {
    var all := before + [e];
    forall a | a in before
      ensures a.command.Clear?
    {
      var i :| 0 <= i < |before| && before[i] == a;
      assert all[i] == a && all[|before|] == e;
    }
  }

  lemma LastCommand(before: seq<Scheduled>, e: Scheduled, id: Text)
    ensures Activates(before + [e], id)
            <==> Activates(before, id) || (e.command.Activate? && e.command.disruptionId == id)
    ensures Clears(before + [e], id) <==> Clears(before, id) || (e.command.Clear? && e.command.disruptionId == id)
  {
    var all := before + [e];
    assert e in all;
    assert forall x :: x in all <==> x in before || x == e;
  }

  lemma DailyClearsFirst(days: int -> Option<Generated>, t: int)
    ensures ClearsFirst(DailyAt(days, t))
  {
    if 0 <= t {
      CommandOrder();
      SortSorted(Filter(LookBack(days, t / DAY_MS), AtTime(t)), CommandAtMost);
      var commands := DailyAt(days, t);
      forall i, j | 0 <= i < j < |commands| && commands[j].command.Clear?
        ensures commands[i].command.Clear?
      {
        assert CommandAtMost(commands[i], commands[j]);
      }
    }
  }

  lemma {:induction false} TimetabledLeaves(active: Active, commands: seq<Scheduled>, rest: seq<Scheduled>)
    requires OnlyTimetabled(rest)
    ensures ApplyAll(active, commands + rest) == ApplyAll(active, commands)
    decreases |rest|
  {
    if rest == [] {
      assert commands + rest == commands;
    } else {
      var n := |rest| - 1;
      assert (commands + rest)[..|commands + rest| - 1] == commands + rest[..n];
      assert (commands + rest)[|commands + rest| - 1] == rest[n];
      TimetabledLeaves(active, commands, rest[..n]);
    }
  }

  /** Who is activated and cleared at an instant: the restrictions that start and that end there. */
  lemma InstantMembers(days: int -> Option<Generated>, t: int, e: Scheduled)
    requires WithinThreeDays(days) && e in DailyAt(days, t)
    ensures exists o, i :: Occurs(days, o, i) && InstantOf(days, o, i, t, e.command)
  {
    LookBackIsComplete(days, t, e);
    var o, i :| Announces(days, o, i, e);
    assert Occurs(days, o, i) && InstantOf(days, o, i, t, e.command);
  }

  ghost predicate InstantOf(days: int -> Option<Generated>, o: int, i: int, t: int, command: Command)
    requires Occurs(days, o, i)
  {
    var r := The(days, o, i);
    || (command == Activate(r.disruptionId, r.effect) && r.startsAtMs == t)
    || (command.Clear? && command.disruptionId == r.disruptionId && r.endsAtMs == t)
  }

  lemma StartActivates(days: int -> Option<Generated>, o: int, i: int)
    requires WithinThreeDays(days) && Occurs(days, o, i)
    ensures Activates(DailyAt(days, The(days, o, i).startsAtMs), The(days, o, i).disruptionId)
  {
    var r := The(days, o, i);
    var e := Activation(Version(days, o), r);
    assert Announces(days, o, i, e);
    LookBackIsComplete(days, r.startsAtMs, e);
  }

  lemma EndClears(days: int -> Option<Generated>, o: int, i: int)
    requires WithinThreeDays(days) && Occurs(days, o, i)
    ensures Clears(DailyAt(days, The(days, o, i).endsAtMs), The(days, o, i).disruptionId)
  {
    var r := The(days, o, i);
    var e := Release(Version(days, o), r);
    assert Announces(days, o, i, e);
    LookBackIsComplete(days, r.endsAtMs, e);
  }

  /** An activation at `t` is of the one restriction with that id that holds at `t`. */
  lemma ActivationIsCurrent(days: int -> Option<Generated>, t: int, e: Scheduled)
    requires WithinThreeDays(days) && e in DailyAt(days, t) && e.command.Activate?
    ensures exists o, i :: HoldsAt(days, o, i, t) && The(days, o, i).disruptionId == e.command.disruptionId
                           && The(days, o, i).effect == e.command.effect
  {
    InstantMembers(days, t, e);
    var o, i :| Occurs(days, o, i) && InstantOf(days, o, i, t, e.command);
    assert HoldsAt(days, o, i, t);
  }

  /** A restriction that holds at `t` is not cleared at `t` unless it starts at `t`. */
  lemma NotClearedWhileHolding(days: int -> Option<Generated>, o: int, i: int, t: int)
    requires WithinThreeDays(days) && IdsNeverOverlap(days) && HoldsAt(days, o, i, t)
    ensures Clears(DailyAt(days, t), The(days, o, i).disruptionId) ==> The(days, o, i).startsAtMs == t
  {
    var id := The(days, o, i).disruptionId;
    if Clears(DailyAt(days, t), id) {
      var e :| e in DailyAt(days, t) && e.command.Clear? && e.command.disruptionId == id;
      InstantMembers(days, t, e);
      var p, j :| Occurs(days, p, j) && InstantOf(days, p, j, t, e.command);
      assert The(days, p, j).disruptionId == id && The(days, p, j).endsAtMs == t;
      assert (o == p && i == j) || Apart(The(days, o, i), The(days, p, j));
    }
  }

  /** Two restrictions of one id that hold together are the same. */
  lemma HoldersAgree(days: int -> Option<Generated>, o: int, i: int, p: int, j: int, t: int)
    requires IdsNeverOverlap(days) && HoldsAt(days, o, i, t) && HoldsAt(days, p, j, t)
    requires The(days, o, i).disruptionId == The(days, p, j).disruptionId
    ensures o == p && i == j
  {
  }

  /** From the instant before to `t`. */
  lemma InstantKeepsShowing(active: Active, days: int -> Option<Generated>, t: int)
    requires WithinThreeDays(days) && IdsNeverOverlap(days) && Shows(active, days, t - 1)
    ensures Shows(ApplyAll(active, DailyAt(days, t)), days, t)
  {
    var commands := DailyAt(days, t);
    var next := ApplyAll(active, commands);
    DailyClearsFirst(days, t);
    forall id | id in next
      ensures exists o, i :: HoldsAt(days, o, i, t) && The(days, o, i).disruptionId == id
    {
      ClearsThenActivations(active, commands, id);
      StillHolds(active, days, t, id);
    }
    forall o, i | HoldsAt(days, o, i, t)
      ensures The(days, o, i).disruptionId in next && next[The(days, o, i).disruptionId] == The(days, o, i).effect
    {
      HolderIsShown(active, days, t, o, i);
    }
  }

  lemma StillHolds(active: Active, days: int -> Option<Generated>, t: int, id: Text)
    requires WithinThreeDays(days) && Shows(active, days, t - 1)
    requires Activates(DailyAt(days, t), id) || (id in active && !Clears(DailyAt(days, t), id))
    ensures exists o, i :: HoldsAt(days, o, i, t) && The(days, o, i).disruptionId == id
  {
    if Activates(DailyAt(days, t), id) {
      var e :| e in DailyAt(days, t) && e.command.Activate? && e.command.disruptionId == id;
      ActivationIsCurrent(days, t, e);
    } else {
      var o, i :| HoldsAt(days, o, i, t - 1) && The(days, o, i).disruptionId == id;
      HoldsOn(days, o, i, t);
    }
  }

  lemma HoldsOn(days: int -> Option<Generated>, o: int, i: int, t: int)
    requires WithinThreeDays(days) && HoldsAt(days, o, i, t - 1)
             && !Clears(DailyAt(days, t), The(days, o, i).disruptionId)
    ensures HoldsAt(days, o, i, t)
  {
    var r := The(days, o, i);
    if r.endsAtMs == t {
      EndClears(days, o, i);
    }
  }

  lemma HolderIsShown(active: Active, days: int -> Option<Generated>, t: int, o: int, i: int)
    requires WithinThreeDays(days) && IdsNeverOverlap(days) && Shows(active, days, t - 1) && HoldsAt(days, o, i, t)
    ensures var next := ApplyAll(active, DailyAt(days, t));
      The(days, o, i).disruptionId in next && next[The(days, o, i).disruptionId] == The(days, o, i).effect
  {
    var commands, id := DailyAt(days, t), The(days, o, i).disruptionId;
    DailyClearsFirst(days, t);
    ClearsThenActivations(active, commands, id);
    NotClearedWhileHolding(days, o, i, t);
    if Activates(commands, id) {
      var e :| e in commands && e.command == Activate(id, ApplyAll(active, commands)[id]);
      ActivationIsCurrent(days, t, e);
      var p, j :| HoldsAt(days, p, j, t) && The(days, p, j).disruptionId == id
          && The(days, p, j).effect == e.command.effect;
      HoldersAgree(days, o, i, p, j, t);
    } else {
      assert The(days, o, i).startsAtMs != t by {
        StartActivates(days, o, i);
      }
      assert HoldsAt(days, o, i, t - 1);
    }
  }

  // ------------------------------------------------------------------ whole windows

  /** Over a stretch without boundaries nothing starts and nothing ends. */
  lemma QuietStretch(active: Active, days: int -> Option<Generated>, from: int, to: int)
    requires WithinThreeDays(days) && Shows(active, days, from) && from <= to
    requires forall t :: from < t <= to ==> DailyAt(days, t) == []
    ensures Shows(active, days, to)
  {
    forall o, i | Occurs(days, o, i)
      ensures HoldsAt(days, o, i, from) <==> HoldsAt(days, o, i, to)
    {
      StartActivates(days, o, i);
      EndClears(days, o, i);
    }
    forall id | id in active
      ensures exists o, i :: HoldsAt(days, o, i, to) && The(days, o, i).disruptionId == id
    {
      var o, i :| HoldsAt(days, o, i, from) && The(days, o, i).disruptionId == id;
      assert HoldsAt(days, o, i, to);
    }
  }

  lemma CarriedInstant(active: Active, at: int -> seq<Scheduled>, days: int -> Option<Generated>, t: int)
    requires CarriesDaily(at, days)
    ensures ApplyAll(active, at(t)) == ApplyAll(active, DailyAt(days, t))
    ensures at(t) == [] ==> DailyAt(days, t) == []
  {
    var rest :| at(t) == DailyAt(days, t) + rest && OnlyTimetabled(rest);
    TimetabledLeaves(active, DailyAt(days, t), rest);
  }

  /** Replaying the stream of a window takes what is active at its start to what is active at its end. */
  lemma {:induction false} WindowKeepsShowing(active: Active, bs: seq<Boundary>, at: int -> seq<Scheduled>,
                                              days: int -> Option<Generated>, after: int, through: int)
    requires WithinThreeDays(days) && IdsNeverOverlap(days) && CarriesDaily(at, days) && after <= through
    requires IsStream(bs, after, through, at) && Shows(active, days, after)
    ensures Shows(Replay(active, bs), days, through)
    decreases |bs|
  {
    if bs == [] {
      forall t | after < t <= through
        ensures DailyAt(days, t) == []
      {
        CarriedInstant(active, at, days, t);
      }
      QuietStretch(active, days, after, through);
    } else {
      var first := bs[0].atMs;
      assert bs[0] in bs;
      forall t | after < t <= first - 1
        ensures DailyAt(days, t) == []
      {
        if at(t) != [] {
          FirstIsEarliest(bs, Boundary(t, at(t)));
        }
        CarriedInstant(active, at, days, t);
      }
      QuietStretch(active, days, after, first - 1);
      InstantKeepsShowing(active, days, first);
      CarriedInstant(active, at, days, first);
      StreamTail(bs, after, through, at);
      WindowKeepsShowing(ApplyAll(active, bs[0].commands), bs[1..], at, days, first, through);
    }
  }

  // ------------------------------------------------------------------ cutting the time into windows

  /** `parts[k]` is the stream of the window from `cuts[k]` to `cuts[k + 1]`. */
  ghost predicate Windows(parts: seq<seq<Boundary>>, cuts: seq<int>, at: int -> seq<Scheduled>) {
    && |cuts| == |parts| + 1
    && (forall k :: 0 <= k < |parts| ==> cuts[k] <= cuts[k + 1] && IsStream(parts[k], cuts[k], cuts[k + 1], at))
  }

  function Concatenation(parts: seq<seq<Boundary>>): seq<Boundary> {
    if parts == [] then [] else Concatenation(parts[..|parts| - 1]) + parts[|parts| - 1]
  }

  lemma {:induction false} WindowsJoin(parts: seq<seq<Boundary>>, cuts: seq<int>, at: int -> seq<Scheduled>)
    requires Windows(parts, cuts, at)
    ensures cuts[0] <= cuts[|parts|] && IsStream(Concatenation(parts), cuts[0], cuts[|parts|], at)
  {
    if parts == [] {
      EmptyWindow(cuts[0], cuts[0], at);
    } else {
      var n := |parts| - 1;
      WindowsJoin(parts[..n], cuts[..n + 1], at);
      StreamsJoin(Concatenation(parts[..n]), parts[n], cuts[0], cuts[n], cuts[n + 1], at);
    }
  }

  /** However a span is cut into consecutive windows, the streams together are the span's own stream. */
  lemma CutsDoNotMatter(parts: seq<seq<Boundary>>, cuts: seq<int>, whole: seq<Boundary>, at: int -> seq<Scheduled>)
    requires Windows(parts, cuts, at) && IsStream(whole, cuts[0], cuts[|parts|], at)
    ensures Concatenation(parts) == whole
  {
    WindowsJoin(parts, cuts, at);
    StreamIsUnique(Concatenation(parts), whole, cuts[0], cuts[|parts|], at);
  }

  /** Replayed from the beginning of time in any cut, the commands leave active exactly the restrictions
      that have started and not yet ended. */
  lemma ReplayShowsTheDay(parts: seq<seq<Boundary>>, cuts: seq<int>, at: int -> seq<Scheduled>,
                          days: int -> Option<Generated>)
    requires WithinThreeDays(days) && IdsNeverOverlap(days) && CarriesDaily(at, days)
    requires Windows(parts, cuts, at) && cuts[0] == -1
    ensures Shows(Replay(map[], Concatenation(parts)), days, cuts[|parts|])
  {
    WindowsJoin(parts, cuts, at);
    forall o, i | Occurs(days, o, i)
      ensures !HoldsAt(days, o, i, -1)
    {
      assert 0 <= o * DAY_MS <= The(days, o, i).startsAtMs;
    }
    WindowKeepsShowing(map[], Concatenation(parts), at, days, -1, cuts[|parts|]);
  }

  /** The merged stream of both catalogues qualifies when the timetable sends no disruption commands. */
  lemma MergedCarriesDaily(days: int -> Option<Generated>, baseAt: (Key, int) -> seq<Scheduled>, key: Key)
    requires forall t :: OnlyTimetabled(baseAt(key, t))
    ensures CarriesDaily(AllAt(days, baseAt, key), days)
  {
    forall t
      ensures exists rest :: AllAt(days, baseAt, key)(t) == DailyAt(days, t) + rest && OnlyTimetabled(rest)
    {
      assert AllAt(days, baseAt, key)(t) == DailyAt(days, t) + baseAt(key, t);
    }
  }
}
