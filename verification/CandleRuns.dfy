/** Whole runs of the aggregator: symbols do not disturb one another, incremental candles are
    the batch grouping, the memory of closed buckets is exact, and nothing is lost. */
module CandleRuns {
  import opened Wrappers
  import opened OrderedDict
  import opened Sequences
  import opened CandleAggregator

  datatype Config = Config(interval: int, maxIdle: int, limit: nat)

  type Settings = c: Config | c.interval > 0 witness Config(60, 600_000_000, 4096)

  datatype Op = AddTick(tick: Tick) | FlushOne(symbol: string) | FlushAll | FlushStale(now: int)

  /** The aggregator after a run, with the candles it returned and the ticks it refused. */
  datatype Trace = Trace(feed: Feed, emitted: seq<Candle>, rejected: seq<Tick>)

  const IDLE := Trace(Feed(map[], [], 0), [], [])

  function Step(c: Settings, tr: Trace, op: Op): Trace {
    match op
    case AddTick(t) =>
      var (f, o) := Added(tr.feed, t, c.interval, c.limit);
      Trace(f, tr.emitted + Emitted(o), if o.Late? then tr.rejected + [t] else tr.rejected)
    case FlushOne(y) =>
      var (f, o) := Flushed(tr.feed, y, c.interval, c.limit);
      tr.(feed := f, emitted := tr.emitted + Emitted(o))
    case FlushAll =>
      var (f, cs) := FlushedEach(tr.feed, tr.feed.order, c.interval, c.limit);
      tr.(feed := f, emitted := tr.emitted + cs)
    case FlushStale(now) =>
      var (f, cs) := FlushedEach(tr.feed, IdleAmong(tr.feed, tr.feed.order, now, c.maxIdle), c.interval, c.limit);
      tr.(feed := f, emitted := tr.emitted + cs)
  }

  function Run(c: Settings, ops: seq<Op>): Trace {
    if ops == [] then IDLE else Step(c, Run(c, ops[..|ops| - 1]), ops[|ops| - 1])
  }

  // ------------------------------------------------------------- one symbol alone

  datatype SymTrace = SymTrace(series: Series, emitted: seq<Candle>, accepted: seq<Tick>, rejected: seq<Tick>)

  function SymAdd(c: Settings, st: SymTrace, t: Tick): SymTrace {
    var (s, o) := AddTo(st.series, t, c.interval, c.limit);
    SymTrace(s, st.emitted + Emitted(o),
             if o.Late? then st.accepted else st.accepted + [t], if o.Late? then st.rejected + [t] else st.rejected)
  }

  function SymFlush(c: Settings, st: SymTrace): SymTrace {
    var (s, o) := FlushOf(st.series, c.interval, c.limit);
    st.(series := s, emitted := st.emitted + Emitted(o))
  }

  /** What one operation means to a symbol, told without any other symbol. */
  function SymStep(c: Settings, y: string, st: SymTrace, op: Op): SymTrace {
    match op
    case AddTick(t) => if t.symbol == y then SymAdd(c, st, t) else st
    case FlushOne(z) => if z == y then SymFlush(c, st) else st
    case FlushAll => SymFlush(c, st)
    case FlushStale(now) => if Idle(st.series, now, c.maxIdle) then SymFlush(c, st) else st
  }

  function SymRun(c: Settings, y: string, ops: seq<Op>): SymTrace {
    if ops == [] then SymTrace(NEW, [], [], []) else SymStep(c, y, SymRun(c, y, ops[..|ops| - 1]), ops[|ops| - 1])
  }

  function CandlesOf(cs: seq<Candle>, y: string): seq<Candle> {
    if cs == [] then []
    else
      var last := cs[|cs| - 1];
      CandlesOf(cs[..|cs| - 1], y) + if last.symbol == y then [last] else []
  }

  function TicksOf(ts: seq<Tick>, y: string): seq<Tick> {
    if ts == [] then []
    else
      var last := ts[|ts| - 1];
      TicksOf(ts[..|ts| - 1], y) + if last.symbol == y then [last] else []
  }

  lemma {:induction false} CandlesConcat(cs: seq<Candle>, ds: seq<Candle>, y: string)
    ensures CandlesOf(cs + ds, y) == CandlesOf(cs, y) + CandlesOf(ds, y)
  {
    if ds == [] {
      assert cs + ds == cs;
    } else {
      var init := ds[..|ds| - 1];
      assert (cs + ds)[..|cs + ds| - 1] == cs + init;
      CandlesConcat(cs, init, y);
    }
  }

  /** The open symbols are listed once each, under their own name. */
  ghost predicate Sound(f: Feed) {
    && Distinct(f.order)
    && (forall y :: y in f.order <==> At(f, y).open.Some?)
    && (forall y :: y in f.order ==> At(f, y).open.value.first.symbol == y)
  }

  ghost predicate Told(c: Settings, y: string, tr: Trace, st: SymTrace) {
    At(tr.feed, y) == st.series && CandlesOf(tr.emitted, y) == st.emitted && TicksOf(tr.rejected, y) == st.rejected
  }

  lemma FlushedSound(f: Feed, z: string, interval: int, limit: nat)
    requires Sound(f)
    ensures var (f', o) := Flushed(f, z, interval, limit);
            && Sound(f') && f'.late == f.late
            && (forall y :: At(f', y) == if y == z then FlushOf(At(f, y), interval, limit).0 else At(f, y))
            && o == FlushOf(At(f, z), interval, limit).1
            && (o.Closes? ==> o.candle.symbol == z)
  {
  }

  lemma AddedSound(f: Feed, t: Tick, interval: int, limit: nat)
    requires Sound(f) && interval > 0
    ensures var (f', o) := Added(f, t, interval, limit);
            && Sound(f') && f'.late == f.late + (if o.Late? then 1 else 0)
            && (forall y :: At(f', y) == if y == t.symbol then AddTo(At(f, y), t, interval, limit).0 else At(f, y))
            && o == AddTo(At(f, t.symbol), t, interval, limit).1
            && (o.Closes? ==> o.candle.symbol == t.symbol)
  {
    var (f', o) := Added(f, t, interval, limit);
    DistinctSnoc(f.order, t.symbol);
    assert At(f, t.symbol).open.Some? ==> t.symbol in f.order;
    forall y ensures y in f'.order <==> At(f', y).open.Some? {
      assert y in f.order <==> At(f, y).open.Some?;
    }
  }

  lemma {:induction false} EachSound(f: Feed, ys: seq<string>, interval: int, limit: nat, y: string)
    requires Sound(f) && Distinct(ys)
    ensures var (f', cs) := FlushedEach(f, ys, interval, limit);
            && Sound(f') && f'.late == f.late
            && At(f', y) == (if y in ys then FlushOf(At(f, y), interval, limit).0 else At(f, y))
            && CandlesOf(cs, y) == if y in ys then Emitted(FlushOf(At(f, y), interval, limit).1) else []
  {
    if ys != [] {
      var init, last := ys[..|ys| - 1], ys[|ys| - 1];
      assert ys == init + [last];
      assert last !in init;
      var (f1, cs1) := FlushedEach(f, init, interval, limit);
      EachSound(f, init, interval, limit, y);
      EachSound(f, init, interval, limit, last);
      FlushedSound(f1, last, interval, limit);
      var o := Flushed(f1, last, interval, limit).1;
      if o.Closes? {
        assert (cs1 + [o.candle])[..|cs1|] == cs1;
      }
    }
  }

  lemma {:induction false} IdleSound(f: Feed, ys: seq<string>, now: int, maxIdle: int)
    requires Distinct(ys)
    ensures var idle := IdleAmong(f, ys, now, maxIdle);
            Distinct(idle) && forall y :: y in idle <==> y in ys && Idle(At(f, y), now, maxIdle)
  {
    if ys != [] {
      var init, last := ys[..|ys| - 1], ys[|ys| - 1];
      assert ys == init + [last];
      assert last !in init;
      IdleSound(f, init, now, maxIdle);
      DistinctSnoc(IdleAmong(f, init, now, maxIdle), last);
    }
  }

  lemma OnlyOpenOnesFlush(s: Series, op: Op, c: Settings)
    ensures s.open.None? ==> FlushOf(s, c.interval, c.limit) == (s, Quiet)
    ensures op.FlushStale? && Idle(s, op.now, c.maxIdle) ==> s.open.Some?
  {
  }

  lemma OneCandle(o: Outcome, y: string)
    ensures CandlesOf(Emitted(o), y) == if o.Closes? && o.candle.symbol == y then Emitted(o) else []
  {
  }

  lemma TicksSnoc(ts: seq<Tick>, t: Tick, y: string)
    ensures TicksOf(ts + [t], y) == if t.symbol == y then TicksOf(ts, y) + [t] else TicksOf(ts, y)
  {
    assert (ts + [t])[..|ts|] == ts;
  }

  lemma AddTold(c: Settings, y: string, tr: Trace, st: SymTrace, t: Tick)
    requires Sound(tr.feed) && Told(c, y, tr, st)
    ensures Sound(Step(c, tr, AddTick(t)).feed)
    ensures Told(c, y, Step(c, tr, AddTick(t)), SymStep(c, y, st, AddTick(t)))
  {
    hide Added, AddTo, CandlesOf, TicksOf, Sound;
    var o := Added(tr.feed, t, c.interval, c.limit).1;
    AddedSound(tr.feed, t, c.interval, c.limit);
    CandlesConcat(tr.emitted, Emitted(o), y);
    OneCandle(o, y);
    TicksSnoc(tr.rejected, t, y);
    assert st.emitted + [] == st.emitted;
  }

  lemma FlushOneTold(c: Settings, y: string, tr: Trace, st: SymTrace, z: string)
    requires Sound(tr.feed) && Told(c, y, tr, st)
    ensures Sound(Step(c, tr, FlushOne(z)).feed)
    ensures Told(c, y, Step(c, tr, FlushOne(z)), SymStep(c, y, st, FlushOne(z)))
  {
    hide Flushed, FlushOf, CandlesOf, TicksOf, Sound;
    var o := Flushed(tr.feed, z, c.interval, c.limit).1;
    FlushedSound(tr.feed, z, c.interval, c.limit);
    CandlesConcat(tr.emitted, Emitted(o), y);
    OneCandle(o, y);
    assert st.emitted + [] == st.emitted;
  }

  /** Flushing several symbols of which `y` is one if it is open and `yes`. */
  lemma FlushEachTold(c: Settings, y: string, tr: Trace, st: SymTrace, ys: seq<string>, yes: bool)
    requires Sound(tr.feed) && Told(c, y, tr, st) && Distinct(ys)
    requires y in ys <==> yes && st.series.open.Some?
    ensures var (f, cs) := FlushedEach(tr.feed, ys, c.interval, c.limit);
            Sound(f) && Told(c, y, Trace(f, tr.emitted + cs, tr.rejected), if yes then SymFlush(c, st) else st)
  {
    OnlyOpenOnesFlush(st.series, FlushAll, c);
    hide FlushedEach, FlushOf, CandlesOf, TicksOf, Sound;
    EachSound(tr.feed, ys, c.interval, c.limit, y);
    CandlesConcat(tr.emitted, FlushedEach(tr.feed, ys, c.interval, c.limit).1, y);
    assert st.emitted + [] == st.emitted;
  }

  lemma {:induction false} StepTold(c: Settings, y: string, tr: Trace, st: SymTrace, op: Op)
    requires Sound(tr.feed) && Told(c, y, tr, st)
    ensures Sound(Step(c, tr, op).feed) && Told(c, y, Step(c, tr, op), SymStep(c, y, st, op))
  {
    hide FlushedEach, SymFlush, SymAdd, Added, Flushed, CandlesOf, TicksOf, IdleAmong, AddTo, FlushOf;
    match op
    case AddTick(t) => AddTold(c, y, tr, st, t);
    case FlushOne(z) => FlushOneTold(c, y, tr, st, z);
    case FlushAll => FlushEachTold(c, y, tr, st, tr.feed.order, true);
    case FlushStale(now) =>
      OnlyOpenOnesFlush(st.series, op, c);
      IdleSound(tr.feed, tr.feed.order, now, c.maxIdle);
      hide Idle;
      FlushEachTold(c, y, tr, st, IdleAmong(tr.feed, tr.feed.order, now, c.maxIdle), Idle(st.series, now, c.maxIdle));
  }

  /** In every interleaving of many symbols' ticks and of all the flushes, what the aggregator
      holds, emits and refuses for a symbol is what that symbol alone would have had. */
  lemma {:induction false} SymbolsAreIndependent(c: Settings, y: string, ops: seq<Op>)
    ensures Sound(Run(c, ops).feed) && Told(c, y, Run(c, ops), SymRun(c, y, ops))
  {
    if ops != [] {
      SymbolsAreIndependent(c, y, ops[..|ops| - 1]);
      StepTold(c, y, Run(c, ops[..|ops| - 1]), SymRun(c, y, ops[..|ops| - 1]), ops[|ops| - 1]);
    }
  }

  /** The late counter is the number of refused ticks. */
  lemma {:induction false} LateIsCounted(c: Settings, ops: seq<Op>)
    ensures Run(c, ops).feed.late == |Run(c, ops).rejected|
  {
    if ops != [] {
      var tr, op := Run(c, ops[..|ops| - 1]), ops[|ops| - 1];
      LateIsCounted(c, ops[..|ops| - 1]);
      SymbolsAreIndependent(c, "", ops[..|ops| - 1]);
      match op
      case AddTick(t) => AddedSound(tr.feed, t, c.interval, c.limit);
      case FlushOne(z) => FlushedSound(tr.feed, z, c.interval, c.limit);
      case FlushAll => EachSound(tr.feed, tr.feed.order, c.interval, c.limit, "");
      case FlushStale(now) =>
        IdleSound(tr.feed, tr.feed.order, now, c.maxIdle);
        EachSound(tr.feed, IdleAmong(tr.feed, tr.feed.order, now, c.maxIdle), c.interval, c.limit, "");
    }
  }
}
