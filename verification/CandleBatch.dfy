/** What the candles of a run are: without flushes, the batch grouping of the accepted ticks;
    with any flushes, a stream in which nothing is lost and recent buckets do not repeat. */
module CandleBatch {
  import opened Wrappers
  import opened OrderedDict
  import opened CandleAggregator
  import opened CandleRuns
  import opened TimeOrder

  // ------------------------------------------------------------- the batch form

  function StartOf(t: Tick, interval: int): int
    requires interval > 0
  {
    BucketStart(t.time, interval)
  }

  /** The greatest bucket start among the ticks. */
  function Newest(ts: seq<Tick>, interval: int): int
    requires interval > 0 && ts != []
  {
    var last := StartOf(ts[|ts| - 1], interval);
    if |ts| == 1 then last
    else
      var rest := Newest(ts[..|ts| - 1], interval);
      if last > rest then last else rest
  }

  /** The ticks whose bucket is not below the newest bucket seen before them. */
  function InTime(ts: seq<Tick>, interval: int): seq<Tick>
    requires interval > 0
  {
    if ts == [] then []
    else
      var init, last := ts[..|ts| - 1], ts[|ts| - 1];
      if init != [] && StartOf(last, interval) < Newest(init, interval) then InTime(init, interval)
      else InTime(init, interval) + [last]
  }

  /** The other ticks: those refused as late. */
  function TooLate(ts: seq<Tick>, interval: int): seq<Tick>
    requires interval > 0
  {
    if ts == [] then []
    else
      var init, last := ts[..|ts| - 1], ts[|ts| - 1];
      if init != [] && StartOf(last, interval) < Newest(init, interval) then TooLate(init, interval) + [last]
      else TooLate(init, interval)
  }

  /** The bucket starts that occur, each once, in order of first occurrence. */
  function Starts(ts: seq<Tick>, interval: int): seq<int>
    requires interval > 0
  {
    if ts == [] then []
    else
      var init, start := Starts(ts[..|ts| - 1], interval), StartOf(ts[|ts| - 1], interval);
      if start in init then init else init + [start]
  }

  /** The ticks of one bucket, in order of arrival. */
  function Group(ts: seq<Tick>, start: int, interval: int): seq<Tick>
    requires interval > 0
  {
    if ts == [] then []
    else
      var init, last := Group(ts[..|ts| - 1], start, interval), ts[|ts| - 1];
      if StartOf(last, interval) == start then init + [last] else init
  }

  lemma {:induction false} GroupsAreFull(ts: seq<Tick>, start: int, interval: int)
    requires interval > 0
    ensures start in Starts(ts, interval) <==> Group(ts, start, interval) != []
  {
    if ts != [] {
      GroupsAreFull(ts[..|ts| - 1], start, interval);
    }
  }

  /** One candle per start: its group's first, highest, lowest and last price, volume and count. */
  function Candles(starts: seq<int>, ts: seq<Tick>, interval: int): seq<Candle>
    requires interval > 0 && forall b :: b in starts ==> Group(ts, b, interval) != []
  {
    if starts == [] then []
    else
      var last := |starts| - 1;
      assert starts == starts[..last] + [starts[last]];
      Candles(starts[..last], ts, interval) + [CandleOf(starts[last], Group(ts, starts[last], interval), interval)]
  }

  function BatchCandles(ts: seq<Tick>, interval: int): seq<Candle>
    requires interval > 0
  {
    assert forall b :: b in Starts(ts, interval) ==> Group(ts, b, interval) != [] by {
      forall b | b in Starts(ts, interval) ensures Group(ts, b, interval) != [] {
        GroupsAreFull(ts, b, interval);
      }
    }
    Candles(Starts(ts, interval), ts, interval)
  }

  // ------------------------------------------------------------- incremental = batch

  function TickRun(c: Settings, ts: seq<Tick>): SymTrace {
    if ts == [] then SymTrace(NEW, [], [], []) else SymAdd(c, TickRun(c, ts[..|ts| - 1]), ts[|ts| - 1])
  }

  lemma CandlesLast(starts: seq<int>, ts: seq<Tick>, interval: int)
    requires interval > 0 && starts != [] && forall b :: b in starts ==> Group(ts, b, interval) != []
    ensures var n := |starts| - 1;
            && starts[n] in starts && (forall b :: b in starts[..n] ==> b in starts)
            && Candles(starts, ts, interval)
               == Candles(starts[..n], ts, interval) + [CandleOf(starts[n], Group(ts, starts[n], interval), interval)]
  {
    var n := |starts| - 1;
    assert starts == starts[..n] + [starts[n]];
  }

  /** A tick of a new or of the current bucket leaves the other groups alone. */
  lemma {:induction false} OlderCandlesStay(starts: seq<int>, ts: seq<Tick>, t: Tick, interval: int)
    requires interval > 0 && StartOf(t, interval) !in starts
    requires forall b :: b in starts ==> Group(ts, b, interval) != []
    ensures forall b :: b in starts ==> Group(ts + [t], b, interval) == Group(ts, b, interval)
    ensures Candles(starts, ts + [t], interval) == Candles(starts, ts, interval)
  {
    assert (ts + [t])[..|ts|] == ts;
    if starts != [] {
      var last := |starts| - 1;
      assert starts == starts[..last] + [starts[last]];
      OlderCandlesStay(starts[..last], ts, t, interval);
    }
  }

  ghost predicate GroupsOf(acc: seq<Tick>, starts: seq<int>, interval: int)
    requires interval > 0
  {
    && starts == Starts(acc, interval) && Ascending(starts)
    && forall b :: b in starts ==> Group(acc, b, interval) != []
  }

  /** The open bucket is the last group, and the emitted candles are the earlier ones. */
  ghost predicate Holding(c: Settings, acc: seq<Tick>, starts: seq<int>, s: Series, emitted: seq<Candle>)
    requires GroupsOf(acc, starts, c.interval) && starts != []
  {
    var n := |starts| - 1;
    && s.open.Some? && s.open.value.start == starts[n]
    && s.open.value.Ticks() == Group(acc, starts[n], c.interval)
    && (forall b :: b in s.closed ==> b < starts[n])
    && emitted == Candles(starts[..n], acc, c.interval)
  }

  /** The state after a sequence of one symbol's ticks, in terms of the batch form. */
  ghost predicate Grouped(c: Settings, ts: seq<Tick>, st: SymTrace) {
    var acc := InTime(ts, c.interval);
    var starts := Starts(acc, c.interval);
    && st.accepted == acc && st.rejected == TooLate(ts, c.interval)
    && GroupsOf(acc, starts, c.interval)
    && (if ts == [] then st.series == NEW && st.emitted == [] && starts == []
        else starts != [] && starts[|starts| - 1] == Newest(ts, c.interval)
             && Holding(c, acc, starts, st.series, st.emitted))
  }

  lemma MarkedBelow(closed: seq<int>, start: int, limit: nat, bound: int)
    requires start < bound && forall b :: b in closed ==> b < bound
    ensures forall b :: b in MarkClosed(closed, start, limit) ==> b < bound
  {
  }

  lemma {:induction false} FirstTick(c: Settings, t: Tick)
    ensures Grouped(c, [t], SymAdd(c, SymTrace(NEW, [], [], []), t))
  {
    OneTick(t, c.interval);
    FirstAdd(c, t);
    OneGroup(t, c.interval);
    hide Starts, InTime, TooLate, Group, Newest, Candles, StartOf, GroupsOf, Holding, SymAdd;
    FirstHolding(c, t);
  }

  lemma FirstAdd(c: Settings, t: Tick)
    ensures SymAdd(c, SymTrace(NEW, [], [], []), t)
            == SymTrace(Series(Some(Bucket(StartOf(t, c.interval), t, [])), []), [], [t], [])
  {
  }

  lemma OneGroup(t: Tick, interval: int)
    requires interval > 0
    ensures GroupsOf([t], [StartOf(t, interval)], interval)
  {
    OneTick(t, interval);
    hide Starts, Group, StartOf;
  }

  lemma FirstHolding(c: Settings, t: Tick)
    requires GroupsOf([t], [StartOf(t, c.interval)], c.interval)
    ensures Holding(c, [t], [StartOf(t, c.interval)], Series(Some(Bucket(StartOf(t, c.interval), t, [])), []), [])
  {
    OneTick(t, c.interval);
    NoCandles([t], c.interval);
    hide Starts, Group, StartOf, Candles, GroupsOf;
    assert [StartOf(t, c.interval)][..0] == [] && [t] + [] == [t];
  }

  lemma OneTick(t: Tick, interval: int)
    requires interval > 0
    ensures InTime([t], interval) == [t] && TooLate([t], interval) == [] && Newest([t], interval) == StartOf(t, interval)
    ensures Starts([t], interval) == [StartOf(t, interval)]
    ensures Group([t], StartOf(t, interval), interval) == [t]
  {
    assert [t][..0] == [] && [] + [t] == [t];
    assert InTime([], interval) == [] && TooLate([], interval) == [] && Starts([], interval) == [];
    assert Group([], StartOf(t, interval), interval) == [];
  }

  lemma NoCandles(ts: seq<Tick>, interval: int)
    requires interval > 0
    ensures Candles([], ts, interval) == []
  {
  }

  /** What appending a tick does to the batch form of the ticks before it. */
  lemma {:induction false} BatchSnoc(ts: seq<Tick>, t: Tick, interval: int)
    requires interval > 0 && ts != []
    ensures InTime(ts + [t], interval)
            == if StartOf(t, interval) < Newest(ts, interval) then InTime(ts, interval) else InTime(ts, interval) + [t]
    ensures TooLate(ts + [t], interval)
            == if StartOf(t, interval) < Newest(ts, interval) then TooLate(ts, interval) + [t] else TooLate(ts, interval)
    ensures Newest(ts + [t], interval)
            == if StartOf(t, interval) > Newest(ts, interval) then StartOf(t, interval) else Newest(ts, interval)
  {
    assert (ts + [t])[..|ts|] == ts;
  }

  lemma {:induction false} GroupSnoc(acc: seq<Tick>, t: Tick, interval: int)
    requires interval > 0
    ensures Starts(acc + [t], interval) == if StartOf(t, interval) in Starts(acc, interval) then Starts(acc, interval)
                                           else Starts(acc, interval) + [StartOf(t, interval)]
    ensures forall b :: Group(acc + [t], b, interval)
                        == if b == StartOf(t, interval) then Group(acc, b, interval) + [t] else Group(acc, b, interval)
  {
    assert (acc + [t])[..|acc|] == acc;
  }

  lemma {:induction false} SameBucket(c: Settings, acc: seq<Tick>, starts: seq<int>, s: Series, emitted: seq<Candle>,
                                      t: Tick)
    requires GroupsOf(acc, starts, c.interval) && starts != [] && Holding(c, acc, starts, s, emitted)
    requires StartOf(t, c.interval) == starts[|starts| - 1]
    ensures GroupsOf(acc + [t], starts, c.interval)
    ensures Holding(c, acc + [t], starts, AddTo(s, t, c.interval, c.limit).0, emitted)
    ensures AddTo(s, t, c.interval, c.limit).1.Quiet?
  {
    var n := |starts| - 1;
    SameGroups(acc, starts, t, c.interval);
    QuietTick(c, s, t);
    hide Candles, Group, Starts, StartOf, AddTo, Ascending;
    NotLast(starts);
    OlderCandlesStay(starts[..n], acc, t, c.interval);
  }

  lemma NotLast(starts: seq<int>)
    requires Ascending(starts) && starts != []
    ensures forall b :: b in starts[..|starts| - 1] ==> b in starts && b != starts[|starts| - 1]
  {
  }

  lemma SameGroups(acc: seq<Tick>, starts: seq<int>, t: Tick, interval: int)
    requires interval > 0 && GroupsOf(acc, starts, interval) && StartOf(t, interval) in starts
    ensures GroupsOf(acc + [t], starts, interval)
    ensures Group(acc + [t], StartOf(t, interval), interval) == Group(acc, StartOf(t, interval), interval) + [t]
  {
    GroupSnoc(acc, t, interval);
    hide Starts, Group, StartOf, Ascending;
  }

  /** A tick of the open bucket joins it. */
  lemma QuietTick(c: Settings, s: Series, t: Tick)
    requires s.open.Some? && s.open.value.start == StartOf(t, c.interval) && StartOf(t, c.interval) !in s.closed
    ensures var (s', o) := AddTo(s, t, c.interval, c.limit);
            && o.Quiet? && s'.closed == s.closed && s'.open.Some? && s'.open.value.start == s.open.value.start
            && s'.open.value.Ticks() == s.open.value.Ticks() + [t]
  {
    var b := s.open.value;
    assert b.(more := b.more + [t]).Ticks() == b.Ticks() + [t];
  }

  lemma {:induction false} NewerBucket(c: Settings, acc: seq<Tick>, starts: seq<int>, s: Series, emitted: seq<Candle>,
                                       t: Tick)
    requires GroupsOf(acc, starts, c.interval) && starts != [] && Holding(c, acc, starts, s, emitted)
    requires StartOf(t, c.interval) > starts[|starts| - 1]
    ensures GroupsOf(acc + [t], starts + [StartOf(t, c.interval)], c.interval)
    ensures var (s', o) := AddTo(s, t, c.interval, c.limit);
            o.Closes? && Holding(c, acc + [t], starts + [StartOf(t, c.interval)], s', emitted + [o.candle])
  {
    var n, start := |starts| - 1, StartOf(t, c.interval);
    hide Candles, Group, Starts, StartOf;
    NewerGroups(acc, starts, t, c.interval);
    OlderCandlesStay(starts, acc, t, c.interval);
    assert (starts + [start])[..|starts|] == starts;
    CandlesLast(starts, acc, c.interval);
    MarkedBelow(s.closed, starts[n], c.limit, start);
  }

  lemma {:induction false} NewerGroups(acc: seq<Tick>, starts: seq<int>, t: Tick, interval: int)
    requires interval > 0 && GroupsOf(acc, starts, interval) && starts != []
    requires StartOf(t, interval) > starts[|starts| - 1]
    ensures GroupsOf(acc + [t], starts + [StartOf(t, interval)], interval)
    ensures Group(acc + [t], StartOf(t, interval), interval) == [t]
  {
    hide Starts, Group, StartOf;
    assert StartOf(t, interval) !in starts;
    GroupSnoc(acc, t, interval);
    GroupsAreFull(acc, StartOf(t, interval), interval);
    assert [] + [t] == [t];
  }

  lemma NewestIsLast(acc: seq<Tick>, starts: seq<int>, interval: int)
    requires interval > 0 && GroupsOf(acc, starts, interval)
    ensures starts == Starts(acc, interval)
    ensures starts != [] ==> starts[|starts| - 1] in starts
    ensures starts != [] ==> forall b :: b > starts[|starts| - 1] ==> b !in starts
  {
  }

  lemma {:induction false} GroupedInTime(c: Settings, ts: seq<Tick>, st: SymTrace, t: Tick)
    requires ts != [] && Grouped(c, ts, st) && StartOf(t, c.interval) >= Newest(ts, c.interval)
    ensures Grouped(c, ts + [t], SymAdd(c, st, t))
  {
    hide Holding, GroupsOf, Starts, Group, InTime, TooLate, Newest, StartOf;
    var acc := InTime(ts, c.interval);
    var starts := Starts(acc, c.interval);
    BatchSnoc(ts, t, c.interval);
    GroupSnoc(acc, t, c.interval);
    NewestIsLast(acc, starts, c.interval);
    if StartOf(t, c.interval) == Newest(ts, c.interval) {
      SameBucket(c, acc, starts, st.series, st.emitted, t);
      assert st.emitted + [] == st.emitted;
    } else {
      NewerBucket(c, acc, starts, st.series, st.emitted, t);
    }
  }

  lemma {:induction false} GroupedStep(c: Settings, ts: seq<Tick>, st: SymTrace, t: Tick)
    requires Grouped(c, ts, st)
    ensures Grouped(c, ts + [t], SymAdd(c, st, t))
  {
    if ts == [] {
      assert ts + [t] == [t];
      assert InTime([], c.interval) == [];
      assert st == SymTrace(NEW, [], [], []);
      FirstTick(c, t);
    } else if StartOf(t, c.interval) >= Newest(ts, c.interval) {
      GroupedInTime(c, ts, st, t);
    } else {
      BatchSnoc(ts, t, c.interval);
      assert st.emitted + [] == st.emitted;
    }
  }

  lemma NothingGrouped(c: Settings)
    ensures Grouped(c, [], SymTrace(NEW, [], [], []))
  {
    assert Starts([], c.interval) == [];
  }

  lemma {:induction false} TickRunGrouped(c: Settings, ts: seq<Tick>)
    ensures Grouped(c, ts, TickRun(c, ts))
  {
    hide Grouped, SymAdd;
    if ts == [] {
      NothingGrouped(c);
    } else {
      TickRunGrouped(c, ts[..|ts| - 1]);
      GroupedStep(c, ts[..|ts| - 1], TickRun(c, ts[..|ts| - 1]), ts[|ts| - 1]);
      assert ts == ts[..|ts| - 1] + [ts[|ts| - 1]];
    }
  }

  /** The ticks of a symbol among the operations. */
  function OwnTicks(ops: seq<Op>, y: string): seq<Tick> {
    if ops == [] then []
    else
      var init, last := OwnTicks(ops[..|ops| - 1], y), ops[|ops| - 1];
      if last.AddTick? && last.tick.symbol == y then init + [last.tick] else init
  }

  lemma {:induction false} OnlyOwnTicksMatter(c: Settings, y: string, ops: seq<Op>)
    requires forall op :: op in ops ==> op.AddTick?
    ensures SymRun(c, y, ops) == TickRun(c, OwnTicks(ops, y))
  {
    if ops != [] {
      var init, last := ops[..|ops| - 1], ops[|ops| - 1];
      assert ops == init + [last];
      OnlyOwnTicksMatter(c, y, init);
      var own := OwnTicks(init, y);
      assert (own + [last.tick])[..|own|] == own;
    }
  }

  /** Flushing the open bucket completes the batch. */
  lemma FlushCompletes(c: Settings, ts: seq<Tick>, st: SymTrace)
    requires Grouped(c, ts, st)
    ensures SymFlush(c, st).emitted == BatchCandles(InTime(ts, c.interval), c.interval)
    ensures SymFlush(c, st).rejected == TooLate(ts, c.interval)
  {
    var acc := InTime(ts, c.interval);
    var starts := Starts(acc, c.interval);
    if ts != [] {
      CandlesLast(starts, acc, c.interval);
    }
  }

  /** For any interleaving of many symbols' ticks, flushed only at the end, the candles of each
      symbol are the batch grouping of its own ticks that were in time, and the refused ticks
      are the others. */
  lemma {:induction false} IncrementalIsBatch(c: Settings, y: string, ops: seq<Op>)
    requires forall op :: op in ops ==> op.AddTick?
    ensures var tr := Run(c, ops + [FlushAll]);
            var own := OwnTicks(ops, y);
            && CandlesOf(tr.emitted, y) == BatchCandles(InTime(own, c.interval), c.interval)
            && TicksOf(tr.rejected, y) == TooLate(own, c.interval)
  {
    hide Grouped, InTime, TooLate, BatchCandles, SymFlush;
    var all, own := ops + [FlushAll], OwnTicks(ops, y);
    assert all[..|ops|] == ops;
    SymbolsAreIndependent(c, y, all);
    OnlyOwnTicksMatter(c, y, ops);
    TickRunGrouped(c, own);
    FlushCompletes(c, own, TickRun(c, own));
  }

  // ------------------------------------------------------------- arbitrary flushes

  function LastN(s: seq<int>, n: nat): seq<int> {
    if |s| <= n then s else s[|s| - n..]
  }

  function EmittedStarts(cs: seq<Candle>): seq<int> {
    seq(|cs|, i requires 0 <= i < |cs| => cs[i].start)
  }

  function TotalTicks(cs: seq<Candle>): nat {
    if cs == [] then 0 else TotalTicks(cs[..|cs| - 1]) + cs[|cs| - 1].ticks
  }

  function TotalVolume(cs: seq<Candle>): real {
    if cs == [] then 0.0 else TotalVolume(cs[..|cs| - 1]) + cs[|cs| - 1].volume
  }

  function OpenTicks(s: Series): seq<Tick> {
    if s.open.Some? then s.open.value.Ticks() else []
  }

  ghost predicate WellShaped(cd: Candle) {
    cd.low <= cd.open <= cd.high && cd.low <= cd.close <= cd.high && cd.ticks > 0
  }

  /** Any `limit` + 1 consecutive elements differ pairwise. */
  ghost predicate DistinctNearby(s: seq<int>, limit: nat) {
    forall i, j :: 0 <= i < j < |s| && j - i <= limit ==> s[i] != s[j]
  }

  ghost predicate Remembers(c: Settings, st: SymTrace) {
    var starts := EmittedStarts(st.emitted);
    && st.series.closed == LastN(starts, c.limit)
    && DistinctNearby(starts, c.limit)
    && (st.series.open.Some? ==> st.series.open.value.start !in st.series.closed)
  }

  ghost predicate Conserves(st: SymTrace) {
    && |st.accepted| == TotalTicks(st.emitted) + |OpenTicks(st.series)|
    && Volume(st.accepted) == TotalVolume(st.emitted) + Volume(OpenTicks(st.series))
    && (forall cd :: cd in st.emitted ==> WellShaped(cd))
  }

  /** Closing a bucket whose start is not remembered shifts the window by exactly it. */
  lemma CloseShifts(c: Settings, starts: seq<int>, start: int)
    requires DistinctNearby(starts, c.limit) && start !in LastN(starts, c.limit)
    ensures MarkClosed(LastN(starts, c.limit), start, c.limit) == LastN(starts + [start], c.limit)
    ensures DistinctNearby(starts + [start], c.limit)
  {
    var more := starts + [start];
    forall i, j | 0 <= i < j < |more| && j - i <= c.limit ensures more[i] != more[j] {
      if j == |starts| {
        assert starts[i] in LastN(starts, c.limit) by {
          var k := if |starts| <= c.limit then i else i - (|starts| - c.limit);
          assert LastN(starts, c.limit)[k] == starts[i];
        }
      }
    }
  }

  lemma {:induction false} VolumeSnoc(ts: seq<Tick>, t: Tick)
    ensures Volume(ts + [t]) == Volume(ts) + t.quantity
  {
    assert (ts + [t])[..|ts|] == ts;
  }

  lemma EmitOne(cs: seq<Candle>, cd: Candle)
    ensures TotalTicks(cs + [cd]) == TotalTicks(cs) + cd.ticks
    ensures TotalVolume(cs + [cd]) == TotalVolume(cs) + cd.volume
    ensures EmittedStarts(cs + [cd]) == EmittedStarts(cs) + [cd.start]
  {
    assert (cs + [cd])[..|cs|] == cs;
  }

  lemma MadeWellShaped(b: Bucket, interval: int)
    ensures WellShaped(Make(b, interval))
    ensures Make(b, interval).ticks == |b.Ticks()| && Make(b, interval).volume == Volume(b.Ticks())
  {
    ExtremePrices(b.Ticks());
    assert b.Ticks()[0] in b.Ticks() && b.Ticks()[|b.Ticks()| - 1] in b.Ticks();
  }

  lemma FlushKeeps(c: Settings, st: SymTrace)
    requires Remembers(c, st) && Conserves(st)
    ensures Remembers(c, SymFlush(c, st)) && Conserves(SymFlush(c, st))
  {
    if st.series.open.Some? {
      var b := st.series.open.value;
      CloseShifts(c, EmittedStarts(st.emitted), b.start);
      EmitOne(st.emitted, Make(b, c.interval));
      MadeWellShaped(b, c.interval);
    } else {
      assert st.emitted + [] == st.emitted;
    }
  }

  lemma ClosingAdd(c: Settings, st: SymTrace, t: Tick)
    requires AddTo(st.series, t, c.interval, c.limit).1.Closes?
    ensures st.series.open.Some?
    ensures var b := st.series.open.value;
            var start := StartOf(t, c.interval);
            && start != b.start && start !in st.series.closed
            && SymAdd(c, st, t)
               == SymTrace(Series(Some(Bucket(start, t, [])), MarkClosed(st.series.closed, b.start, c.limit)),
                           st.emitted + [Make(b, c.interval)], st.accepted + [t], st.rejected)
  {
  }

  lemma ClosingConserves(c: Settings, st: SymTrace, t: Tick)
    requires Conserves(st) && AddTo(st.series, t, c.interval, c.limit).1.Closes?
    ensures Conserves(SymAdd(c, st, t))
  {
    var b := st.series.open.value;
    ClosingAdd(c, st, t);
    VolumeSnoc(st.accepted, t);
    VolumeSnoc([], t);
    assert [] + [t] == [t];
    EmitOne(st.emitted, Make(b, c.interval));
    MadeWellShaped(b, c.interval);
  }

  lemma AddCloses(c: Settings, st: SymTrace, t: Tick)
    requires Remembers(c, st) && Conserves(st) && AddTo(st.series, t, c.interval, c.limit).1.Closes?
    ensures Remembers(c, SymAdd(c, st, t)) && Conserves(SymAdd(c, st, t))
  {
    hide SymAdd, AddTo, MarkClosed, LastN, DistinctNearby, EmittedStarts, Conserves, StartOf;
    ClosingAdd(c, st, t);
    var b := st.series.open.value;
    ClosingConserves(c, st, t);
    CloseShifts(c, EmittedStarts(st.emitted), b.start);
    EmitOne(st.emitted, Make(b, c.interval));
    MarkedOnly(st.series.closed, b.start, c.limit);
  }

  lemma MarkedOnly(closed: seq<int>, start: int, limit: nat)
    ensures forall x :: x in MarkClosed(closed, start, limit) ==> x in closed || x == start
  {
  }

  lemma QuietAdd(c: Settings, st: SymTrace, t: Tick)
    requires AddTo(st.series, t, c.interval, c.limit).1.Quiet?
    ensures var st' := SymAdd(c, st, t);
            && st'.emitted == st.emitted && st'.accepted == st.accepted + [t] && st'.series.closed == st.series.closed
            && st'.series.open.Some? && st'.series.open.value.start !in st.series.closed
            && OpenTicks(st'.series) == OpenTicks(st.series) + [t]
  {
    assert st.emitted + [] == st.emitted;
  }

  lemma AddQuiet(c: Settings, st: SymTrace, t: Tick)
    requires Remembers(c, st) && Conserves(st) && AddTo(st.series, t, c.interval, c.limit).1.Quiet?
    ensures Remembers(c, SymAdd(c, st, t)) && Conserves(SymAdd(c, st, t))
  {
    hide SymAdd, AddTo, EmittedStarts, DistinctNearby, LastN, TotalTicks, TotalVolume, WellShaped, OpenTicks, Volume;
    QuietAdd(c, st, t);
    VolumeSnoc(st.accepted, t);
    VolumeSnoc(OpenTicks(st.series), t);
  }

  lemma AddKeeps(c: Settings, st: SymTrace, t: Tick)
    requires Remembers(c, st) && Conserves(st)
    ensures Remembers(c, SymAdd(c, st, t)) && Conserves(SymAdd(c, st, t))
  {
    match AddTo(st.series, t, c.interval, c.limit).1
    case Closes(_) => AddCloses(c, st, t);
    case Quiet => AddQuiet(c, st, t);
    case Late => assert st.emitted + [] == st.emitted;
  }

  lemma {:induction false} SymRunKeeps(c: Settings, y: string, ops: seq<Op>)
    ensures Remembers(c, SymRun(c, y, ops)) && Conserves(SymRun(c, y, ops))
    ensures Divides(SymRun(c, y, ops), OwnTicks(ops, y))
  {
    hide Remembers, Conserves, Divides, SymAdd, SymFlush;
    if ops == [] {
      NothingYet(c);
    } else {
      var init, op := ops[..|ops| - 1], ops[|ops| - 1];
      var st := SymRun(c, y, init);
      SymRunKeeps(c, y, init);
      match op
      case AddTick(t) =>
        if t.symbol == y {
          AddKeeps(c, st, t);
          AddDivides(c, st, OwnTicks(init, y), t);
        }
      case _ =>
        FlushKeeps(c, st);
        FlushDivides(c, st, OwnTicks(init, y));
    }
  }

  /** The accepted and the refused ticks are together the ticks fed in. */
  ghost predicate Divides(st: SymTrace, own: seq<Tick>) {
    && |own| == |st.accepted| + |st.rejected|
    && Volume(own) == Volume(st.accepted) + Volume(st.rejected)
  }

  lemma NothingYet(c: Settings)
    ensures var st := SymTrace(NEW, [], [], []);
            Remembers(c, st) && Conserves(st) && Divides(st, [])
  {
  }

  lemma AddDivides(c: Settings, st: SymTrace, own: seq<Tick>, t: Tick)
    requires Divides(st, own)
    ensures Divides(SymAdd(c, st, t), own + [t])
  {
    hide AddTo, Volume;
    VolumeSnoc(own, t);
    VolumeSnoc(st.accepted, t);
    VolumeSnoc(st.rejected, t);
  }

  lemma FlushDivides(c: Settings, st: SymTrace, own: seq<Tick>)
    ensures Divides(st, own) ==> Divides(SymFlush(c, st), own)
  {
  }

  /** Under any mixture of adds, flushes, flush-alls and stale flushes: the closed deque of a
      symbol is exactly the last `limit` bucket starts it emitted, and any `limit` + 1
      consecutive candles of it have different starts. */
  lemma {:induction false} ClosedMemoryIsExact(c: Settings, y: string, ops: seq<Op>)
    ensures var tr := Run(c, ops);
            var starts := EmittedStarts(CandlesOf(tr.emitted, y));
            && At(tr.feed, y).closed == LastN(starts, c.limit)
            && DistinctNearby(starts, c.limit)
  {
    SymbolsAreIndependent(c, y, ops);
    SymRunKeeps(c, y, ops);
  }

  /** Under any such mixture, the ticks of a symbol are in its candles, in its open bucket or among
      the late ones, in number and in volume; and every candle has low <= open, close <= high. */
  lemma {:induction false} NothingIsLost(c: Settings, y: string, ops: seq<Op>)
    ensures var tr := Run(c, ops);
            var own, open, late := CandlesOf(tr.emitted, y), OpenTicks(At(tr.feed, y)), TicksOf(tr.rejected, y);
            && |OwnTicks(ops, y)| == TotalTicks(own) + |open| + |late|
            && Volume(OwnTicks(ops, y)) == TotalVolume(own) + Volume(open) + Volume(late)
            && tr.feed.late == |tr.rejected|
            && forall cd :: cd in own ==> WellShaped(cd)
  {
    SymbolsAreIndependent(c, y, ops);
    SymRunKeeps(c, y, ops);
    LateIsCounted(c, ops);
  }
}
