/** Population corrections of apps/game-api/src/demand-population-data.ts: saving them to the world's log and
    loading the ones a consumer still has to apply. */
module PopulationData {
  import opened Outcomes
  import opened Sorting
  import opened TextOrder

  const MAX_REVISIONS: nat := 256

  /** Source revisions count from one. */
  type Revision = n: nat | 1 <= n witness 1

  datatype Command = Command(sourceRevision: Revision, baseReleaseId: Text, data: Text)

  datatype Saved = Saved(sequence: nat, command: Command, effectiveAtMs: nat)

  datatype Template = Template(baseReleaseId: Text, nowMs: nat, firstGenerationStartMs: nat)

  /** The published checkpoint: its basis, the revision it has applied, and the kernel's state. */
  datatype Published = Published(baseReleaseId: Text, revision: nat, state: Text)

  datatype Rejection = WorldInactive | UnknownBasis | RevisionConflict | TimeRegressed | InvalidData

  datatype Outcome = Accepted | Superseded | Duplicate | Rejected(reason: Rejection) | TooManyPending

  datatype LoadError = LimitReached | NotMonotone

  /** The kernel: whether a template carries a correction at a time, and one replay step from a state. */
  datatype Kernel = Kernel(fits: (Template, nat, Command) -> bool, step: (Text, Command, nat) -> Option<Text>)

  type Log = seq<Saved>

  // ------------------------------------------------------------------ a basis' own log

  predicate OfBasis(saved: Saved, baseReleaseId: Text) { saved.command.baseReleaseId == baseReleaseId }

  function ForBasis(baseReleaseId: Text): Saved -> bool { (saved: Saved) => OfBasis(saved, baseReleaseId) }

  function BasisLog(log: Log, baseReleaseId: Text): Log { Filter(log, ForBasis(baseReleaseId)) }

  predicate Before(a: Saved, b: Saved) {
    a.sequence < b.sequence && a.command.sourceRevision < b.command.sourceRevision && a.effectiveAtMs <= b.effectiveAtMs
  }

  /** Revisions strictly increase and effective times never decrease. */
  ghost predicate Monotone(log: Log) {
    forall i, j :: 0 <= i < j < |log| ==> Before(log[i], log[j])
  }

  ghost predicate SequencesRise(log: Log) {
    forall i, j :: 0 <= i < j < |log| ==> log[i].sequence < log[j].sequence
  }

  ghost predicate Valid(log: Log) {
    SequencesRise(log) && forall base :: Monotone(BasisLog(log, base))
  }

  function NextSequence(log: Log): nat { if log == [] then 1 else log[|log| - 1].sequence + 1 }

  function Last(log: Log): Option<Saved> { if log == [] then None else Some(log[|log| - 1]) }

  lemma {:induction false} BasisSequences(log: Log, base: Text)
    requires SequencesRise(log)
    ensures forall saved :: saved in BasisLog(log, base) ==> saved.sequence < NextSequence(log)
  {
    FilterMembers(log, ForBasis(base));
    forall saved | saved in log
      ensures saved.sequence < NextSequence(log)
    {
      var i :| 0 <= i < |log| && log[i] == saved;
    }
  }

  lemma BasisAppend(log: Log, saved: Saved, base: Text)
    ensures BasisLog(log + [saved], base) == if OfBasis(saved, base) then BasisLog(log, base) + [saved]
            else BasisLog(log, base)
  {
    FilterAppend(log, [saved], ForBasis(base));
    assert Filter([saved], ForBasis(base)) == if OfBasis(saved, base) then [saved] else [];
  }

  /** A correction newer and not earlier than the last one of its basis keeps every basis monotone. */
  lemma AppendKeepsValid(log: Log, command: Command, effectiveAtMs: nat)
    requires Valid(log)
    requires var last := Last(BasisLog(log, command.baseReleaseId));
      last.Some? ==> last.value.command.sourceRevision < command.sourceRevision
                     && last.value.effectiveAtMs <= effectiveAtMs
    ensures Valid(log + [Saved(NextSequence(log), command, effectiveAtMs)])
  {
    var saved := Saved(NextSequence(log), command, effectiveAtMs);
    forall base
      ensures Monotone(BasisLog(log + [saved], base))
    {
      BasisAppend(log, saved, base);
      if OfBasis(saved, base) {
        BasisSequences(log, base);
        MonotoneSnoc(BasisLog(log, base), saved);
      }
    }
  }

  lemma MonotoneSnoc(mine: Log, saved: Saved)
    requires Monotone(mine) && forall e :: e in mine ==> e.sequence < saved.sequence
    requires mine != []
             ==> mine[|mine| - 1].command.sourceRevision < saved.command.sourceRevision
                 && mine[|mine| - 1].effectiveAtMs <= saved.effectiveAtMs
    ensures Monotone(mine + [saved])
  {
    forall i | 0 <= i < |mine|
      ensures Before(mine[i], saved)
    {
      assert mine[i] in mine;
      assert i < |mine| - 1 ==> Before(mine[i], mine[|mine| - 1]);
    }
  }

  // ------------------------------------------------------------------ loading

  predicate IsLater(saved: Saved, afterRevision: nat, throughSequence: nat, initialAtMs: Option<nat>) {
    saved.command.sourceRevision > afterRevision && saved.sequence <= throughSequence
    && (initialAtMs.Some? ==> saved.effectiveAtMs > initialAtMs.value)
  }

  function LaterThan(afterRevision: nat, throughSequence: nat, initialAtMs: Option<nat>): Saved -> bool {
    (saved: Saved) => IsLater(saved, afterRevision, throughSequence, initialAtMs)
  }

  predicate IsInitial(saved: Saved, throughSequence: nat, atMs: nat) {
    saved.sequence <= throughSequence && saved.effectiveAtMs <= atMs
  }

  function InitialBy(throughSequence: nat, atMs: nat): Saved -> bool {
    (saved: Saved) => IsInitial(saved, throughSequence, atMs)
  }

  /** What the two queries of the source return: the last correction up to the initial time, then the later ones. */
  function Queried(log: Log, base: Text, afterRevision: nat, throughSequence: nat, initialAtMs: Option<nat>): Log {
    var mine := BasisLog(log, base);
    var initial := if initialAtMs.Some? then Last(Filter(mine, InitialBy(throughSequence, initialAtMs.value)))
        else None;
    (if initial.Some? then [initial.value] else [])
        + Filter(mine, LaterThan(afterRevision, throughSequence, initialAtMs))
  }

  method LoadPopulationDataHistory(log: Log, base: Text, afterRevision: nat, throughSequence: nat,
                                   initialAtMs: Option<nat>)
    returns (outcome: Result<Log, LoadError>)
    requires Valid(log)
    ensures outcome == (if |Queried(log, base, afterRevision, throughSequence, initialAtMs)| > MAX_REVISIONS
                        then Err(LimitReached)
                        else Ok(Queried(log, base, afterRevision, throughSequence, initialAtMs)))
  {
    var mine := BasisLog(log, base);
    var events := Filter(mine, LaterThan(afterRevision, throughSequence, initialAtMs));
    if initialAtMs.Some? {
      var initial := Last(Filter(mine, InitialBy(throughSequence, initialAtMs.value)));
      if initial.Some? {
        events := [initial.value] + events;
      } else {
        assert [] + events == events;
      }
    } else {
      assert [] + events == events;
    }
    if |events| > MAX_REVISIONS {
      return Err(LimitReached);
    }
    QueriedIsMonotone(log, base, afterRevision, throughSequence, initialAtMs);
    var index := 1;
    while index < |events|
      invariant 1 <= index
    {
      assert Before(events[index - 1], events[index]);
      if events[index].command.sourceRevision <= events[index - 1].command.sourceRevision
         || events[index].effectiveAtMs < events[index - 1].effectiveAtMs {
        return Err(NotMonotone);
      }
      index := index + 1;
    }
    outcome := Ok(events);
  }

  lemma {:induction false} MonotoneFilter(log: Log, keep: Saved -> bool)
    requires Monotone(log)
    ensures Monotone(Filter(log, keep))
  {
    if log != [] {
      var rest := log[1..];
      MonotoneTail(log);
      MonotoneFilter(rest, keep);
      FilterMembers(rest, keep);
      FilterStep(log, keep);
      if keep(log[0]) {
        MonotoneCons(log[0], rest, Filter(rest, keep));
      }
    }
  }

  lemma MonotoneTail(log: Log)
    requires Monotone(log) && log != []
    ensures Monotone(log[1..]) && forall k :: 0 <= k < |log[1..]| ==> Before(log[0], log[1..][k])
  {
    var rest := log[1..];
    forall i, j | 0 <= i < j < |rest|
      ensures Before(rest[i], rest[j])
    {
      assert Before(log[i + 1], log[j + 1]);
    }
    forall k | 0 <= k < |rest|
      ensures Before(log[0], rest[k])
    {
      assert Before(log[0], log[k + 1]);
    }
  }

  lemma MonotoneCons(head: Saved, rest: Log, kept: Log)
    requires Monotone(kept) && forall e :: e in kept ==> e in rest
    requires forall k :: 0 <= k < |rest| ==> Before(head, rest[k])
    ensures Monotone([head] + kept)
  {
    forall j | 0 <= j < |kept|
      ensures Before(head, kept[j])
    {
      assert kept[j] in rest;
    }
  }

  /** In a monotone log an entry of earlier time precedes one of later time. */
  lemma EarlierPrecedes(log: Log, a: Saved, b: Saved)
    requires Monotone(log) && a in log && b in log && a.effectiveAtMs < b.effectiveAtMs
    ensures Before(a, b)
  {
    var i :| 0 <= i < |log| && log[i] == a;
    var j :| 0 <= j < |log| && log[j] == b;
    EntriesCompare(log, i, j);
  }

  lemma EntriesCompare(log: Log, i: nat, j: nat)
    requires Monotone(log) && i < |log| && j < |log|
    ensures i == j || Before(log[i], log[j]) || Before(log[j], log[i])
  {
  }

  /** The loader's own check never fails: whatever it queries rises in revision and time. */
  lemma QueriedIsMonotone(log: Log, base: Text, afterRevision: nat, throughSequence: nat, initialAtMs: Option<nat>)
    requires Valid(log)
    ensures Monotone(Queried(log, base, afterRevision, throughSequence, initialAtMs))
  {
    var mine := BasisLog(log, base);
    assert Monotone(mine);
    var later := Filter(mine, LaterThan(afterRevision, throughSequence, initialAtMs));
    MonotoneFilter(mine, LaterThan(afterRevision, throughSequence, initialAtMs));
    FilterMembers(mine, LaterThan(afterRevision, throughSequence, initialAtMs));
    assert [] + later == later;
    if initialAtMs.Some? {
      var early := Filter(mine, InitialBy(throughSequence, initialAtMs.value));
      FilterMembers(mine, InitialBy(throughSequence, initialAtMs.value));
      if early != [] {
        var initial := early[|early| - 1];
        assert initial in early;
        forall j | 0 <= j < |later|
          ensures Before(initial, later[j])
        {
          assert later[j] in later;
          EarlierPrecedes(mine, initial, later[j]);
        }
        MonotoneCons(initial, later, later);
      }
    }
  }

  // ------------------------------------------------------------------ the query is a suffix

  ghost predicate IsSuffix(part: Log, whole: Log) {
    |part| <= |whole| && part == whole[|whole| - |part|..]
  }

  /** Filtering by a condition that, once true, stays true keeps a suffix. */
  lemma {:induction false} UpwardFilter(log: Log, keep: Saved -> bool)
    requires forall i, j :: 0 <= i < j < |log| && keep(log[i]) ==> keep(log[j])
    ensures IsSuffix(Filter(log, keep), log)
  {
    if log != [] {
      var rest := log[1..];
      if keep(log[0]) {
        assert forall j :: 0 <= j < |log| ==> keep(log[j]);
        FilterAll(log, keep);
      } else {
        forall i, j | 0 <= i < j < |rest| && keep(rest[i])
          ensures keep(rest[j])
        {
          assert keep(log[i + 1]);
        }
        UpwardFilter(rest, keep);
        FilterStep(log, keep);
      }
    }
  }

  /** Without an initial time the query returns exactly the newest entries of the basis. */
  lemma LaterIsSuffix(log: Log, base: Text, afterRevision: nat, throughSequence: nat)
    requires Valid(log) && (forall saved :: saved in log ==> saved.sequence <= throughSequence)
    ensures IsSuffix(Queried(log, base, afterRevision, throughSequence, None), BasisLog(log, base))
  {
    var mine := BasisLog(log, base);
    var keep := LaterThan(afterRevision, throughSequence, None);
    FilterMembers(log, ForBasis(base));
    assert Monotone(mine);
    forall i, j | 0 <= i < j < |mine| && keep(mine[i])
      ensures keep(mine[j])
    {
      assert Before(mine[i], mine[j]) && mine[j] in mine;
    }
    UpwardFilter(mine, keep);
    assert [] + Filter(mine, keep) == Filter(mine, keep);
  }

  /** Every correction past the initial time is newer than the revision already applied. */
  ghost predicate AllPastAreNewer(log: Log, base: Text, afterRevision: nat, atMs: nat) {
    forall saved :: saved in BasisLog(log, base) && saved.effectiveAtMs > atMs
      ==> saved.command.sourceRevision > afterRevision
  }

  ghost predicate HasInitial(log: Log, base: Text, atMs: nat) {
    exists saved :: saved in BasisLog(log, base) && saved.effectiveAtMs <= atMs
  }

  ghost predicate CutAt(mine: Log, n: nat, throughSequence: nat, atMs: nat) {
    && n <= |mine| && (forall i :: 0 <= i < |mine| ==> mine[i].sequence <= throughSequence)
    && (forall i :: 0 <= i < n ==> mine[i].effectiveAtMs <= atMs)
       && (forall i :: n <= i < |mine| ==> mine[i].effectiveAtMs > atMs)
  }

  /** With an initial time the query returns a suffix of the basis' log exactly when there is no correction up
      to that time, or every later one is newer than the revision already applied; otherwise it has a gap. */
  lemma InitialAndLaterIsSuffix(log: Log, base: Text, afterRevision: nat, throughSequence: nat, atMs: nat)
    requires Valid(log) && (forall saved :: saved in log ==> saved.sequence <= throughSequence)
    ensures IsSuffix(Queried(log, base, afterRevision, throughSequence, Some(atMs)), BasisLog(log, base))
            <==> !HasInitial(log, base, atMs) || AllPastAreNewer(log, base, afterRevision, atMs)
  {
    var mine := BasisLog(log, base);
    FilterMembers(log, ForBasis(base));
    assert Monotone(mine);
    var n := |Filter(mine, InitialBy(throughSequence, atMs))|;
    SplitAtTime(mine, throughSequence, atMs);
    QueryAtCut(log, base, n, afterRevision, throughSequence, atMs);
    if n == 0 {
      LaterPartIsSuffix(mine, n, afterRevision, throughSequence, atMs);
    } else {
      InitialJoinsLater(mine, n, afterRevision, throughSequence, atMs);
    }
  }

  /** A query from the beginning, as the first checkpoint makes it, never has a gap. */
  lemma FirstQueryIsSuffix(log: Log, base: Text, throughSequence: nat, atMs: nat)
    requires Valid(log) && (forall saved :: saved in log ==> saved.sequence <= throughSequence)
    ensures IsSuffix(Queried(log, base, 0, throughSequence, Some(atMs)), BasisLog(log, base))
  {
    InitialAndLaterIsSuffix(log, base, 0, throughSequence, atMs);
  }

  function SavedAt(n: Revision, atMs: nat): Saved { Saved(n, Command(n, [], []), atMs) }

  /** A query with an initial time that skips a correction: the one applied already after that time. */
  lemma InitialQueryHasGap() returns (log: Log, afterRevision: nat, atMs: nat)
    ensures Valid(log) && (forall saved :: saved in log ==> saved.sequence <= 3)
    ensures |BasisLog(log, [])| == 3
            && Queried(log, [], afterRevision, 3, Some(atMs)) == [BasisLog(log, [])[0], BasisLog(log, [])[2]]
    ensures !IsSuffix(Queried(log, [], afterRevision, 3, Some(atMs)), BasisLog(log, []))
  {
    var a, b, c := SavedAt(1, 0), SavedAt(2, 1), SavedAt(3, 2);
    log, afterRevision, atMs := [a, b, c], 2, 0;
    assert Before(a, b) && Before(b, c) && Before(a, c);
    OneBasisIsValid(log, []);
    GapIn(a, b, c);
  }

  lemma OneBasisIsValid(log: Log, base: Text)
    requires Monotone(log) && forall i :: 0 <= i < |log| ==> OfBasis(log[i], base)
    ensures Valid(log)
  {
    forall i, j | 0 <= i < j < |log|
      ensures log[i].sequence < log[j].sequence
    {
      assert Before(log[i], log[j]);
    }
    forall other
      ensures Monotone(BasisLog(log, other))
    {
      MonotoneFilter(log, ForBasis(other));
    }
  }

  lemma GapIn(a: Saved, b: Saved, c: Saved)
    requires a == SavedAt(1, 0) && b == SavedAt(2, 1) && c == SavedAt(3, 2)
    ensures BasisLog([a, b, c], []) == [a, b, c] && Queried([a, b, c], [], 2, 3, Some(0)) == [a, c]
    ensures !IsSuffix([a, c], [a, b, c])
  {
    var log := [a, b, c];
    FilterAll(log, ForBasis([]));
    FilterThree(a, b, c, InitialBy(3, 0));
    FilterThree(a, b, c, LaterThan(2, 3, Some(0)));
    assert log[1..][0] == b;
  }

  lemma FilterThree(a: Saved, b: Saved, c: Saved, keep: Saved -> bool)
    ensures Filter([a, b, c], keep)
            == (if keep(a) then [a] else []) + (if keep(b) then [b] else []) + (if keep(c) then [c] else [])
  {
    FilterAppend([a], [b], keep);
    FilterAppend([a] + [b], [c], keep);
    assert [a, b, c] == [a] + [b] + [c];
  }

  lemma QueryAtCut(log: Log, base: Text, n: nat, afterRevision: nat, throughSequence: nat, atMs: nat)
    requires CutAt(BasisLog(log, base), n, throughSequence, atMs)
    requires Filter(BasisLog(log, base), InitialBy(throughSequence, atMs)) == BasisLog(log, base)[..n]
    ensures var mine := BasisLog(log, base);
      var later := Filter(mine, LaterThan(afterRevision, throughSequence, Some(atMs)));
      && Queried(log, base, afterRevision, throughSequence, Some(atMs))
         == (if n == 0 then later else [mine[n - 1]] + later)
      && (HasInitial(log, base, atMs) <==> 0 < n)
  {
    var mine := BasisLog(log, base);
    var later := Filter(mine, LaterThan(afterRevision, throughSequence, Some(atMs)));
    assert [] + later == later;
    if 0 < n {
      assert mine[n - 1] in mine && Last(mine[..n]) == Some(mine[n - 1]);
    }
  }

  lemma InitialJoinsLater(mine: Log, n: nat, afterRevision: nat, throughSequence: nat, atMs: nat)
    requires Monotone(mine) && 0 < n && CutAt(mine, n, throughSequence, atMs)
    ensures IsSuffix([mine[n - 1]] + Filter(mine, LaterThan(afterRevision, throughSequence, Some(atMs))), mine)
            <==> forall e :: e in mine && e.effectiveAtMs > atMs ==> e.command.sourceRevision > afterRevision
  {
    var later := Filter(mine, LaterThan(afterRevision, throughSequence, Some(atMs)));
    if forall e :: e in mine && e.effectiveAtMs > atMs ==> e.command.sourceRevision > afterRevision {
      AllLater(mine, n, afterRevision, throughSequence, atMs);
      assert [mine[n - 1]] + mine[n..] == mine[n - 1..];
    } else {
      var gap :| gap in mine && gap.effectiveAtMs > atMs && gap.command.sourceRevision <= afterRevision;
      LaterMembers(mine, n, afterRevision, throughSequence, atMs);
      PastTheCut(mine, n, throughSequence, atMs, gap);
      GapIsNoSuffix(mine, n, later, gap);
    }
  }

  lemma PastTheCut(mine: Log, n: nat, throughSequence: nat, atMs: nat, e: Saved)
    requires CutAt(mine, n, throughSequence, atMs) && e in mine && e.effectiveAtMs > atMs
    ensures e in mine[n..]
  {
    var i :| 0 <= i < |mine| && mine[i] == e;
    assert mine[n..][i - n] == e;
  }

  lemma LaterMembers(mine: Log, n: nat, afterRevision: nat, throughSequence: nat, atMs: nat)
    requires CutAt(mine, n, throughSequence, atMs)
    ensures forall e :: e in Filter(mine, LaterThan(afterRevision, throughSequence, Some(atMs))) ==>
              e in mine[n..] && e.command.sourceRevision > afterRevision
  {
    var later := Filter(mine, LaterThan(afterRevision, throughSequence, Some(atMs)));
    FilterMembers(mine, LaterThan(afterRevision, throughSequence, Some(atMs)));
    forall e | e in later
      ensures e in mine[n..] && e.command.sourceRevision > afterRevision
    {
      assert IsLater(e, afterRevision, throughSequence, Some(atMs));
      PastTheCut(mine, n, throughSequence, atMs, e);
    }
  }

  /** The corrections up to a time are a prefix, ending with the initial one. */
  lemma {:induction false} SplitAtTime(mine: Log, throughSequence: nat, atMs: nat)
    requires Monotone(mine) && forall i :: 0 <= i < |mine| ==> mine[i].sequence <= throughSequence
    ensures var n := |Filter(mine, InitialBy(throughSequence, atMs))|;
      CutAt(mine, n, throughSequence, atMs) && Filter(mine, InitialBy(throughSequence, atMs)) == mine[..n]
  {
    if mine != [] {
      var rest := mine[1..];
      MonotoneTail(mine);
      assert forall i :: 0 <= i < |rest| ==> rest[i] == mine[i + 1];
      SplitAtTime(rest, throughSequence, atMs);
      FilterStep(mine, InitialBy(throughSequence, atMs));
      var k := |Filter(rest, InitialBy(throughSequence, atMs))|;
      if mine[0].effectiveAtMs <= atMs {
        assert mine[..k + 1] == [mine[0]] + rest[..k];
        forall i | k + 1 <= i < |mine|
          ensures mine[i].effectiveAtMs > atMs
        {
          assert mine[i] == rest[i - 1];
        }
      } else {
        assert forall i :: 0 <= i < |rest| ==> Before(mine[0], rest[i]);
        assert |rest| > 0 ==> rest[0].effectiveAtMs > atMs;
        assert k == 0 && mine[..0] == [];
      }
    }
  }

  lemma LaterPartIsSuffix(mine: Log, n: nat, afterRevision: nat, throughSequence: nat, atMs: nat)
    requires Monotone(mine) && CutAt(mine, n, throughSequence, atMs)
    ensures IsSuffix(Filter(mine, LaterThan(afterRevision, throughSequence, Some(atMs))), mine)
  {
    var keep := LaterThan(afterRevision, throughSequence, Some(atMs));
    forall i, j | 0 <= i < j < |mine| && keep(mine[i])
      ensures keep(mine[j])
    {
      assert Before(mine[i], mine[j]);
    }
    UpwardFilter(mine, keep);
  }

  lemma AllLater(mine: Log, n: nat, afterRevision: nat, throughSequence: nat, atMs: nat)
    requires CutAt(mine, n, throughSequence, atMs)
    requires forall e :: e in mine && e.effectiveAtMs > atMs ==> e.command.sourceRevision > afterRevision
    ensures Filter(mine, LaterThan(afterRevision, throughSequence, Some(atMs))) == mine[n..]
  {
    var keep := LaterThan(afterRevision, throughSequence, Some(atMs));
    assert mine == mine[..n] + mine[n..];
    FilterAppend(mine[..n], mine[n..], keep);
    FilterNone(mine[..n], keep);
    forall i | 0 <= i < |mine[n..]|
      ensures keep(mine[n..][i])
    {
      assert mine[n..][i] == mine[n + i] && mine[n + i] in mine;
    }
    FilterAll(mine[n..], keep);
    assert [] + mine[n..] == mine[n..];
  }

  lemma GapIsNoSuffix(mine: Log, n: nat, later: Log, gap: Saved)
    requires Monotone(mine) && 0 < n <= |mine| && gap in mine[n..] && gap !in later
    requires forall e :: e in later ==> e in mine[n..]
    ensures !IsSuffix([mine[n - 1]] + later, mine)
  {
    SuffixFrom(mine, n, later);
  }

  /** A suffix that starts with a given entry goes on with everything behind it. */
  lemma SuffixFrom(mine: Log, n: nat, later: Log)
    requires Monotone(mine) && 0 < n <= |mine|
    ensures IsSuffix([mine[n - 1]] + later, mine) ==> later == mine[n..]
  {
    var part := [mine[n - 1]] + later;
    if IsSuffix(part, mine) {
      var start := |mine| - |part|;
      assert part[0] == mine[start];
      EntriesCompare(mine, start, n - 1);
      assert part[1..] == later;
    }
  }

  // ------------------------------------------------------------------ saving

  /** The pending corrections of a basis after a revision. */
  function Pending(log: Log, base: Text, afterRevision: nat): Log {
    Filter(BasisLog(log, base), LaterThan(afterRevision, NextSequence(log), None))
  }

  predicate ForThisBasis(template: Template, base: Text) { template.baseReleaseId == base }

  function TemplatesOf(base: Text): Template -> bool { (template: Template) => ForThisBasis(template, base) }

  function Later(a: nat, b: nat): nat { if a < b then b else a }

  predicate AllFit(kernel: Kernel, templates: seq<Template>, command: Command, effectiveAtMs: nat) {
    forall i | 0 <= i < |templates| :: kernel.fits(templates[i], Later(effectiveAtMs, templates[i].nowMs), command)
  }

  /** The kernel's state after replaying corrections, if it accepts each of them. */
  function Replayed(kernel: Kernel, state: Text, events: Log): Option<Text> {
    if events == [] then Some(state)
    else match Replayed(kernel, state, events[..|events| - 1])
      case None => None
      case Some(before) => kernel.step(before, events[|events| - 1].command, events[|events| - 1].effectiveAtMs)
  }

  /** Before the first wish a new correction replaces the earlier ones. */
  function InitialAt(template: Template, effectiveAtMs: nat): Option<nat> {
    if template.firstGenerationStartMs > template.nowMs then
      Some(if template.firstGenerationStartMs - 1 < effectiveAtMs then template.firstGenerationStartMs - 1
           else effectiveAtMs)
    else None
  }

  predicate Fills(log: Log, template: Template, base: Text, effectiveAtMs: nat) {
    var initialAtMs := InitialAt(template, effectiveAtMs);
    var pending := Queried(log, base, 0, NextSequence(log), initialAtMs);
    |pending| > MAX_REVISIONS
        || (!(initialAtMs.Some? && effectiveAtMs <= initialAtMs.value) && |pending| + 1 > MAX_REVISIONS)
  }

  /** The answer to a correction, and whether it is appended (`Accepted`). */
  function Answer(kernel: Kernel, log: Log, active: bool, templates: seq<Template>, published: Option<Published>,
                  command: Command,
                  effectiveAtMs: nat): Outcome
  {
    var base := command.baseReleaseId;
    var selected := Filter(templates, TemplatesOf(base));
    var previous := Last(BasisLog(log, base));
    if !active then Rejected(WorldInactive)
    else if selected == [] then Rejected(UnknownBasis)
    else if previous.Some? && previous.value.command.sourceRevision > command.sourceRevision then Superseded
    else if previous.Some? && previous.value.command.sourceRevision == command.sourceRevision then
      if previous.value.command == command then Duplicate else Rejected(RevisionConflict)
    else if previous.Some? && previous.value.effectiveAtMs > effectiveAtMs then Rejected(TimeRegressed)
    else if !AllFit(kernel, selected, command, effectiveAtMs) then Rejected(InvalidData)
    else if published.Some? && published.value.baseReleaseId == base then
      var pending := Pending(log, base, published.value.revision);
      if |pending| + 1 > MAX_REVISIONS then TooManyPending
      else if Replayed(kernel, published.value.state, pending
                       + [Saved(NextSequence(log), command, effectiveAtMs)]).None? then Rejected(InvalidData)
      else Accepted
    else if exists i | 0 <= i < |selected| :: Fills(log, selected[i], base, effectiveAtMs) then TooManyPending
    else Accepted
  }

  class PopulationLog {
    var log: Log

    constructor ()
      ensures log == [] && Valid(log)
    {
      log := [];
    }

    method SavePopulationData(kernel: Kernel, active: bool, templates: seq<Template>, published: Option<Published>,
                              command: Command, effectiveAtMs: nat)
      returns (outcome: Outcome)
      requires Valid(log)
      modifies this
      ensures Valid(log)
      ensures outcome == Answer(kernel, old(log), active, templates, published, command, effectiveAtMs)
      ensures log == if outcome.Accepted? then old(log) + [Saved(NextSequence(old(log)), command, effectiveAtMs)]
              else old(log)
      ensures outcome.Accepted? && published.Some? && published.value.baseReleaseId == command.baseReleaseId ==>
                |Pending(log, command.baseReleaseId, published.value.revision)| <= MAX_REVISIONS
    {
      var base := command.baseReleaseId;
      if !active {
        return Rejected(WorldInactive);
      }
      var selected := Filter(templates, TemplatesOf(base));
      if selected == [] {
        return Rejected(UnknownBasis);
      }
      var previous := Last(BasisLog(log, base));
      if previous.Some? {
        if previous.value.command.sourceRevision > command.sourceRevision {
          return Superseded;
        }
        if previous.value.command.sourceRevision == command.sourceRevision {
          return if previous.value.command == command then Duplicate else Rejected(RevisionConflict);
        }
        if previous.value.effectiveAtMs > effectiveAtMs {
          return Rejected(TimeRegressed);
        }
      }
      if !AllFit(kernel, selected, command, effectiveAtMs) {
        return Rejected(InvalidData);
      }
      var saved := Saved(NextSequence(log), command, effectiveAtMs);
      if published.Some? && published.value.baseReleaseId == base {
        outcome := Rehearse(kernel, log, published.value, saved);
      } else {
        outcome := MakeRoom(log, selected, base, effectiveAtMs);
      }
      if !outcome.Accepted? {
        return;
      }
      AppendKeepsValid(log, command, effectiveAtMs);
      if published.Some? && published.value.baseReleaseId == base {
        OneMorePending(log, saved, base, published.value.revision);
      }
      log := log + [saved];
    }
  }

  /** The replay of all pending corrections and the new one. */
  method Rehearse(kernel: Kernel, log: Log, published: Published, saved: Saved) returns (outcome: Outcome)
    requires Valid(log)
    ensures var pending := Pending(log, published.baseReleaseId, published.revision);
      outcome == if |pending| + 1 > MAX_REVISIONS then TooManyPending
                 else if Replayed(kernel, published.state, pending + [saved]).None? then Rejected(InvalidData)
                 else Accepted
  {
    var loaded := LoadPopulationDataHistory(log, published.baseReleaseId, published.revision, NextSequence(log), None);
    var pending := Pending(log, published.baseReleaseId, published.revision);
    assert [] + pending == pending;
    if loaded.Err? || |loaded.value| + 1 > MAX_REVISIONS {
      return TooManyPending;
    }
    var events := loaded.value + [saved];
    var state := published.state;
    var i := 0;
    while i < |events|
      invariant 0 <= i <= |events|
      invariant Replayed(kernel, published.state, events[..i]) == Some(state)
    {
      assert events[..i + 1][..i] == events[..i];
      var next := kernel.step(state, events[i].command, events[i].effectiveAtMs);
      if next.None? {
        RefusalStays(kernel, published.state, events, i + 1);
        return Rejected(InvalidData);
      }
      state := next.value;
      i := i + 1;
    }
    assert events[..i] == events;
    outcome := Accepted;
  }

  lemma {:induction false} RefusalStays(kernel: Kernel, state: Text, events: Log, n: nat)
    requires n <= |events| && Replayed(kernel, state, events[..n]).None?
    ensures Replayed(kernel, state, events).None?
    decreases |events|
  {
    if n == |events| {
      assert events[..n] == events;
    } else {
      assert events[..|events| - 1][..n] == events[..n];
      RefusalStays(kernel, state, events[..|events| - 1], n);
    }
  }

  method MakeRoom(log: Log, selected: seq<Template>, base: Text, effectiveAtMs: nat) returns (outcome: Outcome)
    requires Valid(log)
    ensures outcome == if exists i | 0 <= i < |selected| ::
                            Fills(log, selected[i], base, effectiveAtMs) then TooManyPending else Accepted
  {
    var i := 0;
    while i < |selected|
      invariant 0 <= i <= |selected|
      invariant forall k :: 0 <= k < i ==> !Fills(log, selected[k], base, effectiveAtMs)
    {
      var initialAtMs := InitialAt(selected[i], effectiveAtMs);
      var pending := LoadPopulationDataHistory(log, base, 0, NextSequence(log), initialAtMs);
      if pending.Err? {
        assert Fills(log, selected[i], base, effectiveAtMs);
        return TooManyPending;
      }
      var count := if initialAtMs.Some? && effectiveAtMs <= initialAtMs.value then 1 else |pending.value| + 1;
      if count > MAX_REVISIONS {
        assert Fills(log, selected[i], base, effectiveAtMs);
        return TooManyPending;
      }
      i := i + 1;
    }
    outcome := Accepted;
  }

  /** An accepted correction adds one to the pending ones. */
  lemma OneMorePending(log: Log, saved: Saved, base: Text, revision: nat)
    requires Valid(log) && OfBasis(saved, base) && saved.sequence == NextSequence(log)
    ensures |Pending(log + [saved], base, revision)| <= |Pending(log, base, revision)| + 1
  {
    var mine := BasisLog(log, base);
    BasisAppend(log, saved, base);
    BasisSequences(log, base);
    var now, then' := LaterThan(revision, NextSequence(log), None),
        LaterThan(revision, NextSequence(log + [saved]), None);
    FilterSame(mine, now, then');
    FilterAppend(mine, [saved], then');
  }

  // ------------------------------------------------------------------ runs of saves

  /** A command already saved is accepted again without being appended, however much has been saved since. */
  lemma ResendingAppendsNothing(kernel: Kernel, log: Log, templates: seq<Template>, published: Option<Published>,
                                command: Command,
                                effectiveAtMs: nat, saved: Saved)
    requires Valid(log) && saved in log && saved.command == command
    requires Filter(templates, TemplatesOf(command.baseReleaseId)) != []
    ensures Answer(kernel, log, true, templates, published, command, effectiveAtMs)
            == if Last(BasisLog(log, command.baseReleaseId)) == Some(saved) then Duplicate else Superseded
  {
    var mine := BasisLog(log, command.baseReleaseId);
    FilterMembers(log, ForBasis(command.baseReleaseId));
    assert saved in mine && Monotone(mine);
    var i :| 0 <= i < |mine| && mine[i] == saved;
    assert i < |mine| - 1 ==> Before(mine[i], mine[|mine| - 1]);
  }

  /** A save request as it arrives. */
  datatype Save = Save(active: bool, templates: seq<Template>, published: Option<Published>, command: Command,
                       effectiveAtMs: nat)

  function AfterSaves(kernel: Kernel, log: Log, saves: seq<Save>): Log {
    if saves == [] then log
    else
      var before, save := AfterSaves(kernel, log, saves[..|saves| - 1]), saves[|saves| - 1];
      if Answer(kernel, before, save.active, save.templates, save.published, save.command, save.effectiveAtMs).Accepted?
      then before + [Saved(NextSequence(before), save.command, save.effectiveAtMs)] else before
  }

  /** Over every sequence of saves each basis' log has strictly increasing revisions and non-decreasing times,
      earlier entries stay, and so no load ever fails the loader's check. */
  lemma {:induction false} SavesKeepTheLogValid(kernel: Kernel, log: Log, saves: seq<Save>)
    requires Valid(log)
    ensures Valid(AfterSaves(kernel, log, saves)) && log <= AfterSaves(kernel, log, saves)
  {
    if saves != [] {
      var save := saves[|saves| - 1];
      SavesKeepTheLogValid(kernel, log, saves[..|saves| - 1]);
      var before := AfterSaves(kernel, log, saves[..|saves| - 1]);
      if Answer(kernel, before, save.active, save.templates, save.published, save.command,
                save.effectiveAtMs).Accepted? {
        AppendKeepsValid(before, save.command, save.effectiveAtMs);
      }
    }
  }
}
