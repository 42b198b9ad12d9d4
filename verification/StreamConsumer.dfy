/** The reconnecting consumer: frames are validated, queued and handed on, and a connection
    that fails is retried a bounded number of times in a row. */
module StreamConsumer {
  import opened Wrappers

  /** A frame is refused by validation, or carries a tick; `stops` says that `stop()` is called,
      by the handler or from another thread, between it and the next frame. */
  datatype Frame = Malformed(stops: bool) | Carries(tick: int, stops: bool)

  /** What one `connect` yields: finitely many frames, then an end or an exception. Another thread
      may also stop the service before the first frame, or after the connection is over, while
      the loop sleeps. */
  datatype Connection = Connection(stopsFirst: bool, frames: seq<Frame>, raises: bool, stopsLast: bool)

  /** How one connection went: how many ticks it delivered, and whether it counted as an outage. */
  datatype Attempt = Attempt(delivered: nat, failed: bool)

  datatype Status = Status(running: bool, stopped: bool, received: nat, attempts: nat, resyncs: nat,
                           queue: seq<int>, handled: seq<int>, dropped: nat, history: seq<Attempt>)

  // ------------------------------------------------------------- one connection

  /** What the loop over a connection's frames does: the ticks it takes, whether the service is
      stopped meanwhile, and whether it reads to the end of the frames. */
  datatype Scan = Scan(ticks: seq<int>, stopped: bool, readOut: bool)

  /** Whether a limit leaves room after `n` ticks; without a limit there always is. */
  predicate More(max: Option<nat>, n: nat) {
    max.None? || n < max.value
  }

  function Left(max: Option<nat>, n: nat): (r: Option<nat>)
    requires More(max, n)
    ensures More(r, 0) && (r.None? <==> max.None?)
  {
    if max.None? then None else Some(max.value - n)
  }

  predicate Within(n: nat, max: Option<nat>) {
    max.Some? ==> n <= max.value
  }

  /** Scanning on from frame `i` for at most `budget` ticks, `taken` of them being taken. A stop
      is noticed only at the next frame, even a malformed one; a spent budget at once. */
  function ScannedFrom(frames: seq<Frame>, i: nat, budget: Option<nat>, taken: seq<int>): (r: Scan)
    requires i <= |frames| && More(budget, |taken|)
    ensures |taken| <= |r.ticks| && Within(|r.ticks|, budget)
    decreases |frames| - i
  {
    if i == |frames| then Scan(taken, false, true)
    else match frames[i]
      case Malformed(stops) =>
        if stops then Scan(taken, true, i + 1 == |frames|) else ScannedFrom(frames, i + 1, budget, taken)
      case Carries(t, stops) =>
        var more := taken + [t];
        if !More(budget, |more|) then Scan(more, stops, false)
        else if stops then Scan(more, true, i + 1 == |frames|)
        else ScannedFrom(frames, i + 1, budget, more)
  }

  function Scanned(conn: Connection, budget: Option<nat>): (r: Scan)
    requires More(budget, 0)
    ensures Within(|r.ticks|, budget)
  {
    if conn.stopsFirst then Scan([], true, conn.frames == []) else ScannedFrom(conn.frames, 0, budget, [])
  }

  /** The ticks carried by the frames from `i` on. */
  function Carried(frames: seq<Frame>, i: nat): seq<int>
    requires i <= |frames|
    decreases |frames| - i
  {
    if i == |frames| then [] else (if frames[i].Carries? then [frames[i].tick] else []) + Carried(frames, i + 1)
  }

  lemma CarriedFrom(frames: seq<Frame>, i: nat, taken: seq<int>)
    requires i < |frames| && frames[i].Carries?
    ensures taken + Carried(frames, i) == (taken + [frames[i].tick]) + Carried(frames, i + 1)
  {
  }

  /** A connection delivers a prefix of its valid ticks, in order: all of them, unless the
      budget is spent or the service is stopped, and then it does not read on. */
  lemma {:induction false} ScanTakesAPrefix(frames: seq<Frame>, i: nat, budget: Option<nat>, taken: seq<int>)
    requires i <= |frames| && More(budget, |taken|)
    ensures var r := ScannedFrom(frames, i, budget, taken);
            && r.ticks <= taken + Carried(frames, i)
            && (More(budget, |r.ticks|) && !r.stopped ==> r.ticks == taken + Carried(frames, i) && r.readOut)
            && (!More(budget, |r.ticks|) ==> !r.readOut)
    decreases |frames| - i
  {
    if i < |frames| {
      match frames[i]
      case Malformed(stops) => if !stops { ScanTakesAPrefix(frames, i + 1, budget, taken); }
      case Carries(t, stops) =>
        CarriedFrom(frames, i, taken);
        hide Carried;
        if More(budget, |taken| + 1) && !stops {
          ScanTakesAPrefix(frames, i + 1, budget, taken + [t]);
        }
    }
  }

  predicate Fails(conn: Connection, budget: Option<nat>)
    requires More(budget, 0)
  {
    var scan := Scanned(conn, budget);
    scan.ticks == [] || (conn.raises && scan.readOut)
  }

  /** How much of a connection is read: its first `n` frames. No stop falls before the last of them
      and the budget lasts until then; and if frames are left, that is because the service was
      stopped, or the budget spent, right there. */
  ghost predicate ReadsFirst(conn: Connection, budget: Option<nat>, n: nat) {
    && n <= |conn.frames| && (conn.stopsFirst ==> n == 0)
    && (forall i :: 0 <= i < n - 1 ==> !conn.frames[i].stops)
    && (forall i :: 0 <= i < n ==> More(budget, |TicksIn(conn.frames[..i])|))
    && (n < |conn.frames| ==>
          || conn.stopsFirst
          || (n > 0 && conn.frames[n - 1].stops) || !More(budget, |TicksIn(conn.frames[..n])|))
  }

  /** The ticks that frames carry, in order. */
  function TicksIn(frames: seq<Frame>): seq<int> {
    if frames == [] then []
    else
      var init, last := TicksIn(frames[..|frames| - 1]), frames[|frames| - 1];
      match last
      case Malformed(_) => init
      case Carries(t, _) => init + [t]
  }

  /** The loop's state before frame `n`. */
  ghost predicate ReadSoFar(conn: Connection, budget: Option<nat>, n: nat) {
    && n <= |conn.frames| && !conn.stopsFirst
    && (forall i :: 0 <= i < n ==> !conn.frames[i].stops)
    && (forall i :: 0 <= i <= n ==> More(budget, |TicksIn(conn.frames[..i])|))
  }

  lemma {:induction false} ReadsOn(conn: Connection, budget: Option<nat>, i: nat) returns (n: nat)
    requires ReadSoFar(conn, budget, i)
    ensures ReadsFirst(conn, budget, n)
    ensures var r := ScannedFrom(conn.frames, i, budget, TicksIn(conn.frames[..i]));
            && r.ticks == TicksIn(conn.frames[..n])
            && (r.readOut <==> n == |conn.frames| && More(budget, |r.ticks|))
            && (r.stopped <==> n > 0 && conn.frames[n - 1].stops)
    decreases |conn.frames| - i
  {
    n := i;
    assert i <= |conn.frames|;
    hide TicksIn, ReadSoFar, ReadsFirst;
    if i == |conn.frames| {
      ReadOut(conn, budget);
    } else if More(budget, |TicksIn(conn.frames[..i + 1])|) && !conn.frames[i].stops {
      ReadsFurther(conn, budget, i);
      n := ReadsOn(conn, budget, i + 1);
    } else {
      n := i + 1;
      ReadsNoFurther(conn, budget, i);
    }
  }

  lemma ReadOut(conn: Connection, budget: Option<nat>)
    requires ReadSoFar(conn, budget, |conn.frames|)
    ensures var n := |conn.frames|;
            && ReadsFirst(conn, budget, n) && More(budget, |TicksIn(conn.frames[..n])|)
            && (n > 0 ==> !conn.frames[n - 1].stops)
            && ScannedFrom(conn.frames, n, budget, TicksIn(conn.frames[..n])) == Scan(TicksIn(conn.frames[..n]), false, true)
  {
    hide TicksIn;
  }

  lemma ReadsFurther(conn: Connection, budget: Option<nat>, i: nat)
    requires ReadSoFar(conn, budget, i) && i < |conn.frames|
    requires More(budget, |TicksIn(conn.frames[..i + 1])|) && !conn.frames[i].stops
    ensures ReadSoFar(conn, budget, i + 1) && More(budget, |TicksIn(conn.frames[..i])|)
    ensures ScannedFrom(conn.frames, i, budget, TicksIn(conn.frames[..i]))
            == ScannedFrom(conn.frames, i + 1, budget, TicksIn(conn.frames[..i + 1]))
  {
    NextTicks(conn.frames, i);
    hide TicksIn;
  }

  lemma ReadsNoFurther(conn: Connection, budget: Option<nat>, i: nat)
    requires ReadSoFar(conn, budget, i) && i < |conn.frames|
    requires !More(budget, |TicksIn(conn.frames[..i + 1])|) || conn.frames[i].stops
    ensures ReadsFirst(conn, budget, i + 1) && More(budget, |TicksIn(conn.frames[..i])|)
    ensures var ticks := TicksIn(conn.frames[..i + 1]);
            ScannedFrom(conn.frames, i, budget, TicksIn(conn.frames[..i]))
            == Scan(ticks, conn.frames[i].stops, i + 1 == |conn.frames| && More(budget, |ticks|))
  {
    NextTicks(conn.frames, i);
    hide TicksIn;
  }

  lemma NextTicks(frames: seq<Frame>, i: nat)
    requires i < |frames|
    ensures TicksIn(frames[..i + 1])
            == if frames[i].Carries? then TicksIn(frames[..i]) + [frames[i].tick] else TicksIn(frames[..i])
  {
    assert frames[..i + 1][..i] == frames[..i];
  }

  /** A connection counts as an outage exactly if nothing was taken from it, or it raised and was read
      to that point: not if the budget was spent, or a stop was noticed, before. */
  lemma {:induction false} FailsIff(conn: Connection, budget: Option<nat>)
    requires More(budget, 0)
    ensures exists n :: 0 <= n <= |conn.frames| && ReadsFirst(conn, budget, n)
                        && Scanned(conn, budget).ticks == TicksIn(conn.frames[..n])
                        && (Scanned(conn, budget).stopped <==> conn.stopsFirst || (n > 0 && conn.frames[n - 1].stops))
                        && (Fails(conn, budget)
                            <==> || TicksIn(conn.frames[..n]) == []
                                 || (conn.raises && n == |conn.frames| && More(budget, |TicksIn(conn.frames[..n])|)))
  {
    if conn.stopsFirst {
      assert ReadsFirst(conn, budget, 0);
    } else {
      assert conn.frames[..0] == [];
      var n := ReadsOn(conn, budget, 0);
      assert ReadsFirst(conn, budget, n);
    }
  }

  /** `queue.Queue(maxsize)`: zero or less means unbounded. */
  predicate HasRoom(queue: seq<int>, maxQueue: int) {
    maxQueue <= 0 || |queue| < maxQueue
  }

  datatype Store = Store(queue: seq<int>, handled: seq<int>, dropped: nat)

  /** A tick queued, if there is room, and the queue then drained. */
  function HandledOne(st: Store, t: int, maxQueue: int): Store {
    if HasRoom(st.queue, maxQueue) then Store([], st.handled + st.queue + [t], st.dropped)
    else Store([], st.handled + st.queue, st.dropped + 1)
  }

  /** Several ticks, each queued and drained: only the first can find the queue full. */
  function Handled(st: Store, ticks: seq<int>, maxQueue: int): Store {
    if ticks == [] then st
    else if HasRoom(st.queue, maxQueue) then Store([], st.handled + st.queue + ticks, st.dropped)
    else Store([], st.handled + st.queue + ticks[1..], st.dropped + 1)
  }

  lemma HandledSnoc(st: Store, ticks: seq<int>, t: int, maxQueue: int)
    ensures Handled(st, ticks + [t], maxQueue) == HandledOne(Handled(st, ticks, maxQueue), t, maxQueue)
  {
    assert [] + [t] == [t];
    if ticks != [] {
      assert (ticks + [t])[1..] == ticks[1..] + [t];
    }
  }

  /** The loop's condition is false. */
  predicate Over(s: Status, max: Option<nat>) {
    !s.running || !More(max, s.received)
  }

  function AfterConnection(s: Status, conn: Connection, max: Option<nat>, limit: nat, maxQueue: int): (r: Status)
    requires !Over(s, max)
    ensures s.received <= r.received && Within(r.received, max)
  {
    var budget := Left(max, s.received);
    var ticks, failed := Scanned(conn, budget).ticks, Fails(conn, budget);
    var resyncs := s.attempts > 0 && ticks != [];
    var attempts := if !failed then 0 else if resyncs then 1 else s.attempts + 1;
    var stopped := Scanned(conn, budget).stopped || conn.stopsLast;
    var store := Handled(Store(s.queue, s.handled, s.dropped), ticks, maxQueue);
    Status(!stopped && attempts <= limit, s.stopped || stopped, s.received + |ticks|, attempts,
           s.resyncs + (if resyncs then 1 else 0),
           store.queue, store.handled, store.dropped, s.history + [Attempt(|ticks|, failed)])
  }

  /** The status after the first `n` connections; once the loop is over nothing changes. */
  function Reached(s: Status, conns: nat -> Connection, n: nat, max: Option<nat>, limit: nat, maxQueue: int): Status {
    if n == 0 then s
    else
      var before := Reached(s, conns, n - 1, max, limit, maxQueue);
      if Over(before, max) then before else AfterConnection(before, conns(n - 1), max, limit, maxQueue)
  }

  /** A run that is over stays as it is. */
  lemma {:induction false} OverStays(s: Status, conns: nat -> Connection, m: nat, n: nat, max: Option<nat>, limit: nat,
                                     maxQueue: int)
    requires m <= n && Over(Reached(s, conns, m, max, limit, maxQueue), max)
    ensures Reached(s, conns, n, max, limit, maxQueue) == Reached(s, conns, m, max, limit, maxQueue)
  {
    if m < n {
      OverStays(s, conns, m, n - 1, max, limit, maxQueue);
    }
  }

  /** What it takes to be the status after one connection. */
  lemma AfterIs(s: Status, conn: Connection, max: Option<nat>, limit: nat, maxQueue: int, r: Status)
    requires !Over(s, max)
    requires var scan, failed := Scanned(conn, Left(max, s.received)), Fails(conn, Left(max, s.received));
             var resynced := s.attempts > 0 && scan.ticks != [];
             && r.received == s.received + |scan.ticks| && r.history == s.history + [Attempt(|scan.ticks|, failed)]
             && r.attempts == (if !failed then 0 else if resynced then 1 else s.attempts + 1)
             && r.resyncs == s.resyncs + (if resynced then 1 else 0)
             && r.stopped == (s.stopped || scan.stopped || conn.stopsLast)
             && r.running == (!scan.stopped && !conn.stopsLast && r.attempts <= limit)
             && Store(r.queue, r.handled, r.dropped)
                == Handled(Store(s.queue, s.handled, s.dropped), scan.ticks, maxQueue)
    ensures r == AfterConnection(s, conn, max, limit, maxQueue)
  {
  }

  // ------------------------------------------------------------- the object

  class StreamingMarketDataService {
    const maxQueue: int
    const reconnectLimit: nat
    var running: bool
    var queue: seq<int>
    var handled: seq<int>      // what the subscribed handler has been given
    var dropped: nat
    var malformed: nat
    var resyncCount: nat

    constructor (maxQueue: int, reconnectLimit: nat)
      ensures this.maxQueue == maxQueue && this.reconnectLimit == reconnectLimit
      ensures !running && queue == [] && handled == [] && dropped == 0 && malformed == 0 && resyncCount == 0
    {
      this.maxQueue, this.reconnectLimit := maxQueue, reconnectLimit;
      running, queue, handled, dropped, malformed, resyncCount := false, [], [], 0, 0, 0;
    }

    /** `ingest`; a malformed frame is counted and raises. */
    method Ingest(f: Frame) returns (ok: bool)
      modifies this`queue, this`dropped, this`malformed
      ensures ok == f.Carries?
      ensures !ok ==> queue == old(queue) && dropped == old(dropped) && malformed == old(malformed) + 1
      ensures ok ==> malformed == old(malformed)
      ensures ok && (maxQueue <= 0 || |old(queue)| < maxQueue) ==> queue == old(queue) + [f.tick] && dropped == old(dropped)
      ensures ok && 0 < maxQueue <= |old(queue)| ==> queue == old(queue) && dropped == old(dropped) + 1
    {
      ok := f.Carries?;
      if !ok {
        malformed := malformed + 1;
      } else if HasRoom(queue, maxQueue) {
        queue := queue + [f.tick];
      } else {
        dropped := dropped + 1;
      }
    }

    /** Hands queued ticks to the handler, oldest first, at most `limit` of them. */
    method Drain(limit: Option<nat>) returns (count: nat)
      modifies this`queue, this`handled
      ensures count == if limit.Some? && limit.value < |old(queue)| then limit.value else |old(queue)|
      ensures handled == old(handled) + old(queue)[..count] && queue == old(queue)[count..]
    {
      count := 0;
      while queue != [] && (limit.None? || count < limit.value)
        invariant count <= |old(queue)| && (limit.Some? ==> count <= limit.value)
        invariant handled == old(handled) + old(queue)[..count] && queue == old(queue)[count..]
        decreases |queue|
      {
        handled := handled + [queue[0]];
        queue := queue[1..];
        count := count + 1;
      }
    }

    function Buffers(): Store
      reads this
    {
      Store(queue, handled, dropped)
    }

    /** One frame of the running loop: validated, queued and drained. */
    method Handle(f: Frame, ghost start: Store, ghost ticks: seq<int>) returns (ok: bool)
      requires Buffers() == Handled(start, ticks, maxQueue)
      modifies this`queue, this`handled, this`dropped, this`malformed
      ensures ok == f.Carries?
      ensures Buffers() == if ok then Handled(start, ticks + [f.tick], maxQueue) else old(Buffers())
    {
      ok := Ingest(f);
      if ok {
        var drained := Drain(None);
        HandledSnoc(start, ticks, f.tick, maxQueue);
        assert handled == old(handled) + if HasRoom(old(queue), maxQueue) then old(queue) + [f.tick] else old(queue);
        assert Buffers() == HandledOne(old(Buffers()), f.tick, maxQueue);
      }
    }

    /** One connection: reads `conn` until it ends, raises, is stopped or the budget is spent.
        Returns the ticks taken, the attempts counter, and whether the connection failed. */
    method Connect(conn: Connection, budget: Option<nat>, attempts0: nat)
      returns (frames: nat, attempts: nat, failed: bool)
      requires running && More(budget, 0)
      modifies this`running, this`queue, this`handled, this`dropped, this`malformed, this`resyncCount
      ensures (frames == 0 ==> failed) && Within(frames, budget)
      ensures var scan := Scanned(conn, budget);
              && frames == |scan.ticks| && failed == Fails(conn, budget) && running == !scan.stopped
              && attempts == (if attempts0 > 0 && scan.ticks != [] then 0 else attempts0)
              && resyncCount == old(resyncCount) + (if attempts0 > 0 && scan.ticks != [] then 1 else 0)
              && Buffers() == Handled(old(Buffers()), scan.ticks, maxQueue)
    {
      frames, attempts := 0, attempts0;
      var i, broke := 0, false;
      if conn.stopsFirst {
        running := false;
      }
      ghost var ticks: seq<int>, before := [], Buffers();
      ghost var scan := Scanned(conn, budget);
      while i < |conn.frames|
        invariant 0 <= i <= |conn.frames| && frames == |ticks| && !broke
        invariant running ==> More(budget, frames) && scan == ScannedFrom(conn.frames, i, budget, ticks)
        invariant !running ==> scan == Scan(ticks, true, i == |conn.frames|)
        invariant attempts == (if attempts0 > 0 && frames > 0 then 0 else attempts0)
        invariant resyncCount == old(resyncCount) + (if attempts0 > 0 && frames > 0 then 1 else 0)
        invariant Buffers() == Handled(before, ticks, maxQueue)
      {
        if !running {
          broke := true;
          break;
        }
        var raw := conn.frames[i];
        var resyncPending := attempts > 0;
        var ok := Handle(raw, before, ticks);
        i := i + 1;
        if raw.stops {
          running := false;
        }
        if !ok {
          continue;
        }
        if resyncPending {
          resyncCount := resyncCount + 1;
          attempts := 0;
        }
        frames := frames + 1;
        ticks := ticks + [raw.tick];
        if !More(budget, frames) {
          broke := true;
          break;
        }
      }
      failed := (!broke && conn.raises) || frames == 0;
    }

    ghost function View(stopped: bool, received: nat, attempts: nat, history: seq<Attempt>): Status
      reads this
    {
      Status(running, stopped, received, attempts, resyncCount, queue, handled, dropped, history)
    }

    ghost function AtStart(): Status
      reads this
    {
      Status(true, false, 0, 0, resyncCount, queue, handled, dropped, [])
    }

    /** `run(max_messages=max)`; connection number `i` of the run is `conns(i)`. With a limit every
        run returns; without one, a run that is over after some number of connections does. */
    method Run(conns: nat -> Connection, max: Option<nat>, ghost enough: nat)
      returns (received: nat, ghost n: nat, ghost last: Status)
      requires max.Some? || Over(Reached(AtStart(), conns, enough, max, reconnectLimit, maxQueue), max)
      modifies this
      ensures last == Reached(old(AtStart()), conns, n, max, reconnectLimit, maxQueue) && Over(last, max)
      ensures forall m :: 0 <= m < n ==> !Over(Reached(old(AtStart()), conns, m, max, reconnectLimit, maxQueue), max)
      ensures last == View(last.stopped, received, last.attempts, last.history)
    {
      hide Over, Reached, AfterConnection, Scanned, Handled, Fails;
      ghost var start := AtStart();
      running := true;
      received := 0;
      var tries: nat, i: nat := 0, 0;
      ghost var bound := if max.Some? then Enough(max.value, reconnectLimit) else enough;
      last := start;
      Starts(start, conns, max, reconnectLimit, maxQueue, bound);
      while running && (max.None? || received < max.value)
        invariant last == View(last.stopped, received, tries, last.history)
        invariant last == Reached(start, conns, i, max, reconnectLimit, maxQueue) && i <= bound
        invariant forall m :: 0 <= m < i ==> !Over(Reached(start, conns, m, max, reconnectLimit, maxQueue), max)
        decreases bound - i
      {
        ghost var before := last;
        GoesOn(start, conns, i, max, reconnectLimit, maxQueue, bound);
        var conn := conns(i);
        var frames, attempts1, failed := Connect(conn, Left(max, received), tries);
        if conn.stopsLast {
          running := false;
        }
        ghost var stopped := before.stopped || !running;
        received := received + frames;
        tries := if failed then attempts1 + 1 else 0;
        if failed && tries > reconnectLimit {
          running := false;
        }
        i := i + 1;
        last := View(stopped, received, tries, before.history + [Attempt(frames, failed)]);
        AfterIs(before, conn, max, reconnectLimit, maxQueue, last);
      }
      n := i;
      Ends(last, max);
    }
  }

  lemma Ends(s: Status, max: Option<nat>)
    ensures Over(s, max) <==> !(s.running && (max.None? || s.received < max.value))
  {
  }

  // ------------------------------------------------------------- what runs do

  /** Failures in a row, where a connection that delivered something starts the row afresh. */
  function Streak(history: seq<Attempt>): nat {
    if history == [] then 0
    else
      var last := history[|history| - 1];
      if !last.failed then 0 else if last.delivered > 0 then 1 else Streak(history[..|history| - 1]) + 1
  }

  /** Connections that delivered something right after a failed one. */
  function Recoveries(history: seq<Attempt>): nat {
    if |history| < 2 then 0
    else
      var n := |history| - 1;
      Recoveries(history[..n]) + if history[n].delivered > 0 && history[n - 1].failed then 1 else 0
  }

  function Deliveries(history: seq<Attempt>): nat {
    if history == [] then 0 else Deliveries(history[..|history| - 1]) + history[|history| - 1].delivered
  }

  ghost predicate Accounts(start: Status, s: Status, max: Option<nat>, limit: nat) {
    && s.attempts == Streak(s.history)
    && s.resyncs == start.resyncs + Recoveries(s.history)
    && s.received == Deliveries(s.history) && Within(s.received, max)
    && |s.handled| + |s.queue| + s.dropped == |start.handled| + |start.queue| + start.dropped + s.received
    && (s.running <==> !s.stopped && s.attempts <= limit)
    && s.attempts <= limit + 1
  }

  /** A status in which `run` begins. */
  predicate Fresh(s: Status) {
    s.running && !s.stopped && s.received == 0 && s.attempts == 0 && s.history == []
  }

  lemma {:induction false} HandledCounts(st: Store, ticks: seq<int>, maxQueue: int)
    ensures var r := Handled(st, ticks, maxQueue);
            |r.handled| + |r.queue| + r.dropped == |st.handled| + |st.queue| + st.dropped + |ticks|
  {
  }

  lemma AfterAccounts(start: Status, s: Status, conn: Connection, max: Option<nat>, limit: nat, maxQueue: int)
    requires Accounts(start, s, max, limit) && !Over(s, max)
    ensures Accounts(start, AfterConnection(s, conn, max, limit, maxQueue), max, limit)
  {
    var r := AfterConnection(s, conn, max, limit, maxQueue);
    var n := |s.history|;
    assert r.history[..n] == s.history;
    HandledCounts(Store(s.queue, s.handled, s.dropped), Scanned(conn, Left(max, s.received)).ticks, maxQueue);
    if n > 0 {
      assert s.history[n - 1].failed <==> Streak(s.history) > 0;
    }
  }

  lemma {:induction false} ReachedAccounts(s: Status, conns: nat -> Connection, n: nat, max: Option<nat>, limit: nat,
                                           maxQueue: int)
    requires Fresh(s)
    ensures Accounts(s, Reached(s, conns, n, max, limit, maxQueue), max, limit)
  {
    hide AfterConnection;
    if n > 0 {
      ReachedAccounts(s, conns, n - 1, max, limit, maxQueue);
      var before := Reached(s, conns, n - 1, max, limit, maxQueue);
      if !Over(before, max) {
        AfterAccounts(s, before, conns(n - 1), max, limit, maxQueue);
      }
    }
  }

  /** A run ends for one of three reasons: enough ticks, a stop, or exactly `limit` + 1 failures in
      a row; and it ends as soon as there is one. It raises the resync counter once per connection
      that delivered a tick right after a failed connection, and every tick it took was handled,
      dropped or is queued. */
  lemma {:induction false} RunEndsForAReason(conns: nat -> Connection, n: nat, max: Option<nat>, limit: nat, maxQueue: int,
                                             s0: Status)
    requires Fresh(s0)
    ensures var r := Reached(s0, conns, n, max, limit, maxQueue);
            && (Over(r, max) <==> max == Some(r.received) || r.stopped || Streak(r.history) == limit + 1)
            && (!r.running <==> r.stopped || Streak(r.history) == limit + 1)
            && r.resyncs == s0.resyncs + Recoveries(r.history)
            && r.received == Deliveries(r.history) && Within(r.received, max)
            && |r.handled| + |r.queue| + r.dropped == |s0.handled| + |s0.queue| + s0.dropped + r.received
  {
    ReachedAccounts(s0, conns, n, max, limit, maxQueue);
  }

  // ------------------------------------------------------------- with a limit

  /** Connections that are enough for any run of `max` ticks. */
  function Enough(max: nat, limit: nat): nat {
    (max + 1) * (limit + 1)
  }

  /** What a run may still spend: the failures that every missing tick may be preceded by. */
  function Potential(s: Status, max: nat, limit: nat): int {
    (max - s.received) * (limit + 1) + limit + 1 - s.attempts
  }

  lemma Spends(s: Status, conn: Connection, max: nat, limit: nat, maxQueue: int)
    requires !Over(s, Some(max)) && s.attempts <= limit
    ensures Potential(AfterConnection(s, conn, Some(max), limit, maxQueue), max, limit) < Potential(s, max, limit)
  {
    var r := AfterConnection(s, conn, Some(max), limit, maxQueue);
    if r.received > s.received {
      MulOrder(max - r.received, max - s.received, limit + 1);
    }
  }

  lemma Product(n: nat, t: nat)
    ensures n * t >= 0
  {
  }

  lemma MulOrder(a: int, b: int, t: nat)
    requires a < b
    ensures a * t + t <= b * t
  {
    Product(b - a - 1, t);
    assert b == a + 1 + (b - a - 1);
  }

  lemma {:induction false} PotentialFalls(s: Status, conns: nat -> Connection, n: nat, max: nat, limit: nat, maxQueue: int)
    requires Fresh(s)
    ensures var r := Reached(s, conns, n, Some(max), limit, maxQueue);
            Over(r, Some(max)) || Potential(r, max, limit) + n <= Potential(s, max, limit)
  {
    hide AfterConnection, Potential;
    if n > 0 {
      PotentialFalls(s, conns, n - 1, max, limit, maxQueue);
      ReachedAccounts(s, conns, n - 1, Some(max), limit, maxQueue);
      var before := Reached(s, conns, n - 1, Some(max), limit, maxQueue);
      if !Over(before, Some(max)) {
        Spends(before, conns(n - 1), max, limit, maxQueue);
      }
    }
  }

  /** With a limit every run ends: (max + 1) * (limit + 1) connections are always enough. */
  lemma {:induction false} LimitedRunEnds(conns: nat -> Connection, max: nat, limit: nat, maxQueue: int, s0: Status)
    requires Fresh(s0)
    ensures Over(Reached(s0, conns, Enough(max, limit), Some(max), limit, maxQueue), Some(max))
  {
    hide Reached, Over, Potential, Enough;
    var n := Enough(max, limit);
    PotentialFalls(s0, conns, n, max, limit, maxQueue);
    ReachedAccounts(s0, conns, n, Some(max), limit, maxQueue);
    PotentialAtStart(s0, max, limit);
    PotentialLeft(s0, Reached(s0, conns, n, Some(max), limit, maxQueue), max, limit);
  }

  lemma PotentialAtStart(s: Status, max: nat, limit: nat)
    requires Fresh(s)
    ensures Potential(s, max, limit) == Enough(max, limit)
  {
  }

  lemma PotentialLeft(start: Status, s: Status, max: nat, limit: nat)
    requires Accounts(start, s, Some(max), limit)
    ensures !Over(s, Some(max)) ==> Potential(s, max, limit) > 0
  {
    if s.received < max {
      MulOrder(0, max - s.received, limit + 1);
    }
  }

  // ------------------------------------------------------------- without a limit

  /** How a connection goes when nothing limits it. */
  function AttemptOf(conn: Connection): Attempt {
    Attempt(|Scanned(conn, None).ticks|, Fails(conn, None))
  }

  predicate Stops(conn: Connection) {
    Scanned(conn, None).stopped || conn.stopsLast
  }

  function Attempts(conns: nat -> Connection, n: nat): (r: seq<Attempt>)
    ensures |r| == n
  {
    if n == 0 then [] else Attempts(conns, n - 1) + [AttemptOf(conns(n - 1))]
  }

  /** No connection before number `n` stops the service, and at no point up to it were there more
      than `limit` failures in a row. */
  ghost predicate KeepsGoing(conns: nat -> Connection, n: nat, limit: nat) {
    && (forall m :: 0 <= m < n ==> !Stops(conns(m)))
    && (forall m :: 0 <= m <= n ==> Streak(Attempts(conns, m)) <= limit)
  }

  lemma KeepsGoingSnoc(conns: nat -> Connection, n: nat, limit: nat)
    ensures KeepsGoing(conns, n + 1, limit)
            <==> KeepsGoing(conns, n, limit) && !Stops(conns(n)) && Streak(Attempts(conns, n + 1)) <= limit
  {
    hide Stops, Attempts, Streak;
  }

  lemma UnlimitedStep(start: Status, s: Status, conn: Connection, limit: nat, maxQueue: int)
    requires Accounts(start, s, None, limit) && s.running
    ensures var r := AfterConnection(s, conn, None, limit, maxQueue);
            && r.history == s.history + [AttemptOf(conn)]
            && (r.running <==> !Stops(conn) && Streak(r.history) <= limit)
  {
    AfterAccounts(start, s, conn, None, limit, maxQueue);
  }

  lemma {:induction false} UnlimitedHistory(conns: nat -> Connection, n: nat, limit: nat, maxQueue: int, s0: Status)
    requires Fresh(s0)
    ensures var r := Reached(s0, conns, n, None, limit, maxQueue);
            (r.running <==> KeepsGoing(conns, n, limit)) && (r.running ==> r.history == Attempts(conns, n))
  {
    hide AfterConnection, KeepsGoing, Streak, Stops, AttemptOf, Accounts;
    if n == 0 {
      NothingYet(conns, limit);
    } else {
      var before := Reached(s0, conns, n - 1, None, limit, maxQueue);
      assert Attempts(conns, n) == Attempts(conns, n - 1) + [AttemptOf(conns(n - 1))];
      assert Reached(s0, conns, n, None, limit, maxQueue)
          == if before.running then AfterConnection(before, conns(n - 1), None, limit, maxQueue) else before;
      hide Reached, Attempts, Fresh;
      UnlimitedHistory(conns, n - 1, limit, maxQueue, s0);
      KeepsGoingSnoc(conns, n - 1, limit);
      ReachedAccounts(s0, conns, n - 1, None, limit, maxQueue);
      if before.running {
        UnlimitedStep(s0, before, conns(n - 1), limit, maxQueue);
      }
    }
  }

  /** Without a limit the loop is still running after `n` connections exactly if none of them
      stopped the service and never more than `limit` failures came in a row, each connection
      judged by itself; so it runs for ever exactly if that holds of every `n`. */
  lemma {:induction false} UnlimitedRunsOnIff(conns: nat -> Connection, n: nat, limit: nat, maxQueue: int, s0: Status)
    requires Fresh(s0)
    ensures var r := Reached(s0, conns, n, None, limit, maxQueue);
            && (r.running <==> KeepsGoing(conns, n, limit))
            && (r.running ==> r.history == Attempts(conns, n) && r.received == Deliveries(Attempts(conns, n)))
  {
    hide Reached, KeepsGoing, Attempts;
    UnlimitedHistory(conns, n, limit, maxQueue, s0);
    ReachedAccounts(s0, conns, n, None, limit, maxQueue);
  }

  lemma NothingYet(conns: nat -> Connection, limit: nat)
    ensures KeepsGoing(conns, 0, limit) && Attempts(conns, 0) == []
  {
  }

  // ------------------------------------------------------------- for the loop of `run`

  lemma Starts(s: Status, conns: nat -> Connection, max: Option<nat>, limit: nat, maxQueue: int, bound: nat)
    requires Fresh(s) && (max.Some? ==> bound == Enough(max.value, limit))
    requires max.None? ==> Over(Reached(s, conns, bound, max, limit, maxQueue), max)
    ensures Reached(s, conns, 0, max, limit, maxQueue) == s
    ensures Over(Reached(s, conns, bound, max, limit, maxQueue), max)
  {
    if max.Some? {
      LimitedRunEnds(conns, max.value, limit, maxQueue, s);
    }
  }

  lemma GoesOn(s: Status, conns: nat -> Connection, i: nat, max: Option<nat>, limit: nat, maxQueue: int, bound: nat)
    requires var r := Reached(s, conns, i, max, limit, maxQueue); r.running && (max.None? || r.received < max.value)
    requires i <= bound && Over(Reached(s, conns, bound, max, limit, maxQueue), max)
    ensures var r := Reached(s, conns, i, max, limit, maxQueue);
            && !Over(r, max) && i < bound
            && Reached(s, conns, i + 1, max, limit, maxQueue) == AfterConnection(r, conns(i), max, limit, maxQueue)
  {
  }
}
