/** The event stream of the live map in apps/game-api/src/app.ts: a bounded queue in front of a socket that
    may ask to wait, and its steps in any interleaving. */
module LivemapStream {
  import opened Outcomes
  import opened TextOrder

  const MAXIMUM_QUEUE_LENGTH: nat := 128

  type Payload = Text

  const RESET: Payload := Ascii("event: reset\ndata: {}\n\n")

  /** `ended` is what the response was ended with: nothing yet, no payload, or a last one. */
  datatype Ending = Running | Ended(last: Option<Payload>)

  datatype State = State(queue: seq<Payload>, written: seq<Payload>, waitingForDrain: bool, closed: bool,
                         ending: Ending)

  datatype Event = Enqueue(payload: Payload) | Drain | Cleanup | Reset

  /** Whether the socket takes more after its n-th write. */
  type Socket = nat -> bool

  // ------------------------------------------------------------------ single steps

  /** Writes from the queue until it is empty or the socket asks to wait. */
  function Flushed(s: State, ready: Socket): State
    decreases |s.queue|
  {
    if s.closed || s.waitingForDrain || s.queue == [] then s
    else
      var next := s.(queue := s.queue[1..], written := s.written + [s.queue[0]]);
      if ready(|s.written|) then Flushed(next, ready) else next.(waitingForDrain := true)
  }

  function Closed(s: State): State {
    if s.closed then s else s.(queue := [], closed := true)
  }

  function After(s: State, event: Event, ready: Socket): State {
    match event
    case Enqueue(payload) =>
      if s.closed then s
      else if |s.queue| >= MAXIMUM_QUEUE_LENGTH then Closed(s).(ending := Ended(None))
      else Flushed(s.(queue := s.queue + [payload]), ready)
    case Drain => if s.waitingForDrain then Flushed(s.(waitingForDrain := false), ready) else s
    case Cleanup => Closed(s)
    case Reset => if s.closed then s else Closed(s).(ending := Ended(Some(RESET)))
  }

  const OPENED := State([], [], false, false, Running)

  /** What the stream takes on at an event: the payload, if it is open and has room. */
  function Taken(s: State, event: Event): seq<Payload> {
    if event.Enqueue? && !s.closed && |s.queue| < MAXIMUM_QUEUE_LENGTH then [event.payload] else []
  }

  class Stream {
    const ready: Socket
    var queue: seq<Payload>
    var written: seq<Payload>
    var waitingForDrain: bool
    var closed: bool
    var ending: Ending

    ghost function Value(): State
      reads this
    {
      State(queue, written, waitingForDrain, closed, ending)
    }

    constructor (ready: Socket)
      ensures this.ready == ready && Value() == OPENED
    {
      this.ready := ready;
      queue, written, waitingForDrain, closed, ending := [], [], false, false, Running;
    }

    method CleanUp()
      modifies this
      ensures Value() == Closed(old(Value()))
    {
      if closed {
        return;
      }
      closed := true;
      queue := [];
    }

    method Flush()
      modifies this
      ensures Value() == Flushed(old(Value()), ready)
    {
      if closed || waitingForDrain {
        return;
      }
      while |queue| > 0
        invariant Flushed(Value(), ready) == Flushed(old(Value()), ready)
        invariant !closed && !waitingForDrain
        decreases |queue|
      {
        var payload := queue[0];
        queue := queue[1..];
        var more := ready(|written|);
        written := written + [payload];
        if !more {
          waitingForDrain := true;
          return;
        }
      }
    }

    method EnqueuePayload(payload: Payload)
      modifies this
      ensures Value() == After(old(Value()), Enqueue(payload), ready)
    {
      if closed {
        return;
      }
      if |queue| >= MAXIMUM_QUEUE_LENGTH {
        CleanUp();
        ending := Ended(None);
        return;
      }
      queue := queue + [payload];
      Flush();
    }

    /** The socket's drain event, for which a handler exists only while the stream waits. */
    method OnDrain()
      modifies this
      ensures Value() == After(old(Value()), Drain, ready)
    {
      if !waitingForDrain {
        return;
      }
      waitingForDrain := false;
      Flush();
    }

    method ResetAndClose()
      modifies this
      ensures Value() == After(old(Value()), Reset, ready)
    {
      if closed {
        return;
      }
      CleanUp();
      ending := Ended(Some(RESET));
    }
  }

  // ------------------------------------------------------------------ runs

  function AfterAll(s: State, events: seq<Event>, ready: Socket): State {
    if events == [] then s else After(AfterAll(s, events[..|events| - 1], ready), events[|events| - 1], ready)
  }

  function TakenIn(s: State, events: seq<Event>, ready: Socket): seq<Payload> {
    if events == [] then []
    else TakenIn(s, events[..|events| - 1], ready)
         + Taken(AfterAll(s, events[..|events| - 1], ready), events[|events| - 1])
  }

  /** The queue is bounded, is empty unless the open stream waits for the socket, and while the stream is open
      what was written followed by the queue is everything taken; after closing, what was written stays a
      prefix of it. */
  ghost predicate Sound(s: State, taken: seq<Payload>) {
    && |s.queue| <= MAXIMUM_QUEUE_LENGTH
    && (s.queue != [] ==> s.waitingForDrain && !s.closed)
    && (!s.closed ==> s.written + s.queue == taken && s.ending.Running?)
    && s.written <= taken
  }

  lemma {:induction false} FlushMoves(s: State, ready: Socket)
    ensures var t := Flushed(s, ready);
      && t.written + t.queue == s.written + s.queue && s.written <= t.written && t.closed == s.closed
         && t.ending == s.ending
      && |t.queue| <= |s.queue| && (!s.closed && !s.waitingForDrain && t.queue != [] ==> t.waitingForDrain)
    decreases |s.queue|
  {
    if !s.closed && !s.waitingForDrain && s.queue != [] {
      var next := s.(queue := s.queue[1..], written := s.written + [s.queue[0]]);
      assert next.written + next.queue == s.written + s.queue;
      if ready(|s.written|) {
        FlushMoves(next, ready);
      }
    }
  }

  lemma StepIsSound(s: State, event: Event, ready: Socket, taken: seq<Payload>)
    requires Sound(s, taken)
    ensures Sound(After(s, event, ready), taken + Taken(s, event))
    ensures s.closed ==> After(s, event, ready).closed && After(s, event, ready).written == s.written
                         && After(s, event, ready).ending == s.ending && Taken(s, event) == []
    ensures s.written <= After(s, event, ready).written
  {
    assert taken + [] == taken;
    match event
    case Enqueue(payload) =>
      if !s.closed && |s.queue| < MAXIMUM_QUEUE_LENGTH {
        var more := s.(queue := s.queue + [payload]);
        assert more.written + more.queue == taken + [payload];
        FlushMoves(more, ready);
      }
    case Drain =>
      FlushMoves(s.(waitingForDrain := false), ready);
    case Cleanup =>
    case Reset =>
  }

  /** In every interleaving of enqueues, drains, clean-ups and resets: the bytes written are a prefix of what
      was enqueued while the stream was open, nothing is lost or reordered while it stays open, and the queue
      is bounded. */
  lemma {:induction false} EveryRunIsSound(events: seq<Event>, ready: Socket)
    ensures Sound(AfterAll(OPENED, events, ready), TakenIn(OPENED, events, ready))
  {
    if events != [] {
      var n := |events| - 1;
      EveryRunIsSound(events[..n], ready);
      StepIsSound(AfterAll(OPENED, events[..n], ready), events[n], ready, TakenIn(OPENED, events[..n], ready));
    }
  }

  /** Once closed, whatever happens later writes nothing more, takes nothing on and does not end it twice. */
  lemma {:induction false} ClosedStaysSilent(events: seq<Event>, n: nat, ready: Socket)
    requires n <= |events| && AfterAll(OPENED, events[..n], ready).closed
    ensures var s, t := AfterAll(OPENED, events[..n], ready), AfterAll(OPENED, events, ready);
      t.closed && t.written == s.written && t.ending == s.ending
          && TakenIn(OPENED, events, ready) == TakenIn(OPENED, events[..n], ready)
    decreases |events|
  {
    if n == |events| {
      assert events[..n] == events;
    } else {
      var m := |events| - 1;
      assert events[..m][..n] == events[..n];
      ClosedStaysSilent(events[..m], n, ready);
      EveryRunIsSound(events[..m], ready);
      StepIsSound(AfterAll(OPENED, events[..m], ready), events[m], ready, TakenIn(OPENED, events[..m], ready));
    }
  }

  /** An open stream whose socket takes everything from now on writes all it has at the next drain. */
  lemma {:induction false} DrainEmpties(s: State, ready: Socket)
    requires !s.closed && !s.waitingForDrain && forall k :: |s.written| <= k ==> ready(k)
    ensures Flushed(s, ready).queue == [] && Flushed(s, ready).written == s.written + s.queue
    decreases |s.queue|
  {
    if s.queue == [] {
      assert s.written + s.queue == s.written;
    } else {
      var next := s.(queue := s.queue[1..], written := s.written + [s.queue[0]]);
      assert next.written + next.queue == s.written + s.queue;
      DrainEmpties(next, ready);
    }
  }

  /** The stream gives up exactly when a payload finds a full queue. */
  lemma OverflowCloses(s: State, payload: Payload, ready: Socket)
    requires !s.closed
    ensures After(s, Enqueue(payload), ready).closed <==> |s.queue| >= MAXIMUM_QUEUE_LENGTH
    ensures After(s, Enqueue(payload), ready).ending
            == (if |s.queue| >= MAXIMUM_QUEUE_LENGTH then Ended(None) else s.ending)
  {
    FlushMoves(s.(queue := s.queue + [payload]), ready);
  }
}
