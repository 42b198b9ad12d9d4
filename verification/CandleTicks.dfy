/** What each candle says of the ticks behind it, under any adds and flushes. */
module CandleTicks {
  import opened Wrappers
  import opened OrderedDict
  import opened CandleAggregator
  import opened CandleRuns
  import opened CandleBatch

  /** The candle of these ticks, in their order of arrival. */
  ghost predicate Tells(cd: Candle, ts: seq<Tick>, interval: int)
    requires interval > 0
  {
    && ts != [] && cd.open == ts[0].price && cd.close == ts[|ts| - 1].price
    && (forall t :: t in ts ==> cd.low <= t.price <= cd.high)
    && (exists t :: t in ts && t.price == cd.low) && (exists t :: t in ts && t.price == cd.high)
    && cd.end == cd.start + interval && cd.ticks == |ts| && cd.volume == Volume(ts)
    && (forall t :: t in ts ==> t.symbol == cd.symbol && BucketStart(t.time, interval) == cd.start)
  }

  /** The volume is the sum of the quantities. */
  lemma {:induction false} VolumeAdds(ts: seq<Tick>, us: seq<Tick>, t: Tick)
    ensures Volume(ts + us) == Volume(ts) + Volume(us)
    ensures Volume([t]) == t.quantity
  {
    assert [t][..0] == [];
    if us == [] {
      assert ts + us == ts;
    } else {
      var init := us[..|us| - 1];
      assert (ts + us)[..|ts + us| - 1] == ts + init;
      VolumeAdds(ts, init, t);
    }
  }

  /** One candle after another tells one stretch of the ticks after another, and all of them. */
  ghost predicate Chronicle(cs: seq<Candle>, ts: seq<Tick>, interval: int)
    requires interval > 0
  {
    if cs == [] then ts == []
    else
      var n, last := |cs| - 1, cs[|cs| - 1];
      last.ticks <= |ts| && Tells(last, ts[|ts| - last.ticks..], interval)
      && Chronicle(cs[..n], ts[..|ts| - last.ticks], interval)
  }

  /** `own` is `acc` and `rej`, shuffled without changing the order of either. */
  predicate Merges(own: seq<Tick>, acc: seq<Tick>, rej: seq<Tick>) {
    if own == [] then acc == [] && rej == []
    else
      var init, last := own[..|own| - 1], own[|own| - 1];
      || (acc != [] && acc[|acc| - 1] == last && Merges(init, acc[..|acc| - 1], rej))
      || (rej != [] && rej[|rej| - 1] == last && Merges(init, acc, rej[..|rej| - 1]))
  }

  lemma {:induction false} MakeTells(b: Bucket, symbol: string, interval: int)
    requires interval > 0
    requires forall t :: t in b.Ticks() ==> t.symbol == symbol && BucketStart(t.time, interval) == b.start
    ensures Tells(Make(b, interval), b.Ticks(), interval) && Make(b, interval).start == b.start
  {
    var ts := b.Ticks();
    ExtremePrices(ts);
    assert ts[0] in ts;
  }

  lemma ChronicleSnoc(cs: seq<Candle>, ts: seq<Tick>, cd: Candle, more: seq<Tick>, interval: int)
    requires interval > 0 && Chronicle(cs, ts, interval) && Tells(cd, more, interval)
    ensures Chronicle(cs + [cd], ts + more, interval)
  {
    var all := ts + more;
    assert cd.ticks == |more|;
    hide Tells;
    assert (cs + [cd])[..|cs|] == cs;
    assert all[|all| - cd.ticks..] == more && all[..|all| - cd.ticks] == ts;
  }

  /** Everything accepted is in the candles so far or in the open bucket, in order. */
  ghost predicate Recorded(c: Settings, y: string, st: SymTrace) {
    var ticks := OpenTicks(st.series);
    && |ticks| <= |st.accepted| && st.accepted[|st.accepted| - |ticks|..] == ticks
    && Chronicle(st.emitted, st.accepted[..|st.accepted| - |ticks|], c.interval)
    && (forall t :: t in ticks ==> t.symbol == y && BucketStart(t.time, c.interval) == st.series.open.value.start)
    && (forall cd :: cd in st.emitted ==> cd.symbol == y)
  }

  lemma FlushRecords(c: Settings, y: string, st: SymTrace)
    requires Recorded(c, y, st)
    ensures Recorded(c, y, SymFlush(c, st))
  {
    if st.series.open.Some? {
      FlushIs(c, st);
      BucketRecords(c, y, st);
      hide Chronicle, Make, SymFlush, Tells;
      RecordedWhole(c, y, SymFlush(c, st));
    } else {
      assert st.emitted + [] == st.emitted;
    }
  }

  lemma FlushIs(c: Settings, st: SymTrace)
    requires st.series.open.Some?
    ensures var b, st' := st.series.open.value, SymFlush(c, st);
            && st'.series.open.None? && st'.emitted == st.emitted + [Make(b, c.interval)] && st'.accepted == st.accepted
  {
  }

  lemma RecordedWhole(c: Settings, y: string, st: SymTrace)
    requires st.series.open.None? && Chronicle(st.emitted, st.accepted, c.interval)
    requires forall cd :: cd in st.emitted ==> cd.symbol == y
    ensures Recorded(c, y, st)
  {
    hide Chronicle;
    assert st.accepted[..|st.accepted| - 0] == st.accepted && st.accepted[|st.accepted| - 0..] == [];
  }

  lemma RecordedWithOne(c: Settings, y: string, st: SymTrace, ts: seq<Tick>, t: Tick)
    requires st.series.open == Some(Bucket(BucketStart(t.time, c.interval), t, [])) && st.accepted == ts + [t]
    requires Chronicle(st.emitted, ts, c.interval) && t.symbol == y
    requires forall cd :: cd in st.emitted ==> cd.symbol == y
    ensures Recorded(c, y, st)
  {
    hide Chronicle, BucketStart;
    assert [t] + [] == [t];
    assert st.accepted[..|st.accepted| - 1] == ts && st.accepted[|st.accepted| - 1..] == [t];
  }

  /** The candle of the open bucket takes the chronicle to the last accepted tick. */
  lemma BucketRecords(c: Settings, y: string, st: SymTrace)
    requires Recorded(c, y, st) && st.series.open.Some?
    ensures var cd := Make(st.series.open.value, c.interval);
            && Chronicle(st.emitted + [cd], st.accepted, c.interval)
            && forall x :: x in st.emitted + [cd] ==> x.symbol == y
  {
    hide Chronicle, Tells, Make, BucketStart;
    var b := st.series.open.value;
    var ticks := OpenTicks(st.series);
    assert ticks == b.Ticks();
    MakeTells(b, y, c.interval);
    SymbolOf(b, y, c.interval);
    var told := st.accepted[..|st.accepted| - |ticks|];
    assert told + ticks == st.accepted;
    ChronicleSnoc(st.emitted, told, Make(b, c.interval), ticks, c.interval);
  }

  lemma SymbolOf(b: Bucket, y: string, interval: int)
    requires forall t :: t in b.Ticks() ==> t.symbol == y
    ensures Make(b, interval).symbol == y
  {
    assert b.Ticks()[0] in b.Ticks();
  }

  lemma AddRecords(c: Settings, y: string, st: SymTrace, t: Tick)
    requires Recorded(c, y, st) && t.symbol == y
    ensures Recorded(c, y, SymAdd(c, st, t))
  {
    hide Chronicle, Tells, Recorded;
    match AddTo(st.series, t, c.interval, c.limit).1
    case Late => LateRecords(c, y, st, t);
    case Quiet => QuietRecords(c, y, st, t);
    case Closes(_) => CloseRecords(c, y, st, t);
  }

  lemma CloseRecords(c: Settings, y: string, st: SymTrace, t: Tick)
    requires Recorded(c, y, st) && t.symbol == y && AddTo(st.series, t, c.interval, c.limit).1.Closes?
    ensures Recorded(c, y, SymAdd(c, st, t))
  {
    ClosingAdd(c, st, t);
    BucketRecords(c, y, st);
    hide Chronicle, Recorded, AddTo, SymAdd, Make, MarkClosed, Tells;
    RecordedWithOne(c, y, SymAdd(c, st, t), st.accepted, t);
  }

  lemma LateRecords(c: Settings, y: string, st: SymTrace, t: Tick)
    requires Recorded(c, y, st) && AddTo(st.series, t, c.interval, c.limit).1.Late?
    ensures Recorded(c, y, SymAdd(c, st, t))
  {
    hide Chronicle;
    assert st.emitted + [] == st.emitted;
  }

  lemma QuietRecords(c: Settings, y: string, st: SymTrace, t: Tick)
    requires Recorded(c, y, st) && t.symbol == y && AddTo(st.series, t, c.interval, c.limit).1.Quiet?
    ensures Recorded(c, y, SymAdd(c, st, t))
  {
    hide Chronicle;
    var ticks, more := OpenTicks(st.series), st.accepted + [t];
    QuietAdd(c, st, t);
    var n := |st.accepted| - |ticks|;
    assert more[n..] == ticks + [t] && more[..n] == st.accepted[..n];
  }

  lemma {:induction false} SymRunRecords(c: Settings, y: string, ops: seq<Op>)
    ensures Recorded(c, y, SymRun(c, y, ops))
    ensures Merges(OwnTicks(ops, y), SymRun(c, y, ops).accepted, SymRun(c, y, ops).rejected)
  {
    hide Recorded, SymAdd, SymFlush, Merges;
    if ops == [] {
      NothingRecorded(c, y);
    } else {
      var init, op := ops[..|ops| - 1], ops[|ops| - 1];
      var st := SymRun(c, y, init);
      SymRunRecords(c, y, init);
      match op
      case AddTick(t) =>
        if t.symbol == y {
          AddRecords(c, y, st, t);
          AddMerges(c, st, OwnTicks(init, y), t);
        }
      case _ =>
        FlushRecords(c, y, st);
        FlushMerges(c, st, OwnTicks(init, y));
    }
  }

  lemma NothingRecorded(c: Settings, y: string)
    ensures Recorded(c, y, SymTrace(NEW, [], [], [])) && Merges([], [], [])
  {
  }

  lemma AddMerges(c: Settings, st: SymTrace, own: seq<Tick>, t: Tick)
    requires Merges(own, st.accepted, st.rejected)
    ensures Merges(own + [t], SymAdd(c, st, t).accepted, SymAdd(c, st, t).rejected)
  {
    MergesSnoc(own, st.accepted, st.rejected, t);
    hide AddTo, Merges;
  }

  lemma MergesSnoc(own: seq<Tick>, acc: seq<Tick>, rej: seq<Tick>, t: Tick)
    requires Merges(own, acc, rej)
    ensures Merges(own + [t], acc + [t], rej) && Merges(own + [t], acc, rej + [t])
  {
    assert (own + [t])[..|own|] == own && (acc + [t])[..|acc|] == acc && (rej + [t])[..|rej|] == rej;
  }

  lemma FlushMerges(c: Settings, st: SymTrace, own: seq<Tick>)
    ensures Merges(own, st.accepted, st.rejected) ==> Merges(own, SymFlush(c, st).accepted, SymFlush(c, st).rejected)
  {
  }

  /** The ticks `own` are, in order, those of the candles and then those of the open bucket, and the
      late ones. */
  ghost predicate Accounts(own: seq<Tick>, cs: seq<Candle>, open: seq<Tick>, late: seq<Tick>, interval: int)
    requires interval > 0
  {
    exists told :: Merges(own, told + open, late) && Chronicle(cs, told, interval)
  }

  lemma RecordedAccounts(c: Settings, y: string, st: SymTrace, own: seq<Tick>)
    requires Recorded(c, y, st) && Merges(own, st.accepted, st.rejected)
    ensures Accounts(own, st.emitted, OpenTicks(st.series), st.rejected, c.interval)
  {
    hide Merges, Chronicle;
    var told := st.accepted[..|st.accepted| - |OpenTicks(st.series)|];
    assert told + OpenTicks(st.series) == st.accepted;
  }

  /** Under any mixture of adds, flushes, flush-alls and stale flushes: of a symbol's ticks, those that
      were not refused are, in order of arrival, those of its candles one after another and then
      those of its open bucket. Each candle opens at its first tick's price and closes at its last's,
      its high and low are the extremes, and all its ticks fall into its bucket. */
  lemma CandlesTellTheirTicks(c: Settings, y: string, ops: seq<Op>)
    ensures var tr := Run(c, ops);
            Accounts(OwnTicks(ops, y), CandlesOf(tr.emitted, y), OpenTicks(At(tr.feed, y)), TicksOf(tr.rejected, y),
                     c.interval)
  {
    hide Accounts, Recorded, Merges;
    SymbolsAreIndependent(c, y, ops);
    SymRunRecords(c, y, ops);
    RecordedAccounts(c, y, SymRun(c, y, ops), OwnTicks(ops, y));
  }

  /** A tick is refused exactly when its bucket is below the open one, or was among the symbol's last
      `limit` candles. */
  lemma RefusedIff(c: Settings, y: string, ops: seq<Op>, t: Tick)
    requires t.symbol == y
    ensures var tr, tr' := Run(c, ops), Run(c, ops + [AddTick(t)]);
            var own, open := CandlesOf(tr.emitted, y), OpenTicks(At(tr.feed, y));
            var start := BucketStart(t.time, c.interval);
            var recent := if |own| <= c.limit then own else own[|own| - c.limit..];
            && (|tr'.rejected| == |tr.rejected| + 1
                <==> (open != [] && start < BucketStart(open[0].time, c.interval))
                     || exists cd :: cd in recent && cd.start == start)
            && |tr'.rejected| <= |tr.rejected| + 1
            && tr'.feed.late == tr.feed.late + |tr'.rejected| - |tr.rejected|
  {
    var tr := Run(c, ops);
    var st := SymRun(c, y, ops);
    assert (ops + [AddTick(t)])[..|ops|] == ops;
    SymbolsAreIndependent(c, y, ops);
    SymRunRecords(c, y, ops);
    SymRunKeeps(c, y, ops);
    LateIsCounted(c, ops);
    LateIsCounted(c, ops + [AddTick(t)]);
    var own, start := st.emitted, BucketStart(t.time, c.interval);
    RecentStarts(own, c.limit, start);
    hide Run, SymRun, Chronicle;
    if st.series.open.Some? {
      assert OpenTicks(st.series)[0] in OpenTicks(st.series);
    }
  }

  lemma RecentStarts(own: seq<Candle>, limit: nat, start: int)
    ensures var recent := if |own| <= limit then own else own[|own| - limit..];
            start in LastN(EmittedStarts(own), limit) <==> exists cd :: cd in recent && cd.start == start
  {
    var recent := if |own| <= limit then own else own[|own| - limit..];
    var starts := LastN(EmittedStarts(own), limit);
    assert |starts| == |recent| && forall i :: 0 <= i < |recent| ==> starts[i] == recent[i].start;
    if cd :| cd in recent && cd.start == start {
      var i :| 0 <= i < |recent| && recent[i] == cd;
      assert starts[i] == start;
    }
    if start in starts {
      var i :| 0 <= i < |starts| && starts[i] == start;
      assert recent[i] in recent && recent[i].start == start;
    }
  }

  /** A stale flush closes a symbol's bucket exactly if its last accepted tick is more than `maxIdle`
      old, and does nothing else to it. */
  lemma StaleFlushesIff(c: Settings, y: string, ops: seq<Op>, now: int)
    ensures var tr, tr' := Run(c, ops), Run(c, ops + [FlushStale(now)]);
            var open := OpenTicks(At(tr.feed, y));
            if open != [] && open[|open| - 1].time < now - c.maxIdle
            then At(tr'.feed, y).open.None? && |CandlesOf(tr'.emitted, y)| == |CandlesOf(tr.emitted, y)| + 1
            else At(tr'.feed, y) == At(tr.feed, y) && CandlesOf(tr'.emitted, y) == CandlesOf(tr.emitted, y)
  {
    var more := ops + [FlushStale(now)];
    assert more[..|ops|] == ops;
    SymbolsAreIndependent(c, y, ops);
    SymbolsAreIndependent(c, y, more);
    hide Run;
    var st := SymRun(c, y, ops);
    assert st.emitted + [] == st.emitted;
  }

  // ------------------------------------------------------------- the batch form

  lemma {:induction false} GroupsFit(ts: seq<Tick>, start: int, interval: int)
    requires interval > 0
    ensures forall t :: t in Group(ts, start, interval) ==> t in ts && BucketStart(t.time, interval) == start
  {
    if ts != [] {
      GroupsFit(ts[..|ts| - 1], start, interval);
    }
  }

  lemma {:induction false} InTimeAreTicks(ts: seq<Tick>, interval: int)
    requires interval > 0
    ensures forall t :: t in InTime(ts, interval) ==> t in ts
  {
    hide Newest, StartOf;
    if ts != [] {
      InTimeAreTicks(ts[..|ts| - 1], interval);
    }
  }

  lemma {:induction false} OwnAreOwn(ops: seq<Op>, y: string)
    ensures forall t :: t in OwnTicks(ops, y) ==> t.symbol == y
  {
    if ops != [] {
      OwnAreOwn(ops[..|ops| - 1], y);
    }
  }

  lemma {:induction false} CandlesTell(starts: seq<int>, ts: seq<Tick>, y: string, interval: int)
    requires interval > 0 && forall b :: b in starts ==> Group(ts, b, interval) != []
    requires forall t :: t in ts ==> t.symbol == y
    ensures forall cd :: cd in Candles(starts, ts, interval) ==> Tells(cd, Group(ts, cd.start, interval), interval)
  {
    if starts != [] {
      var n := |starts| - 1;
      assert starts == starts[..n] + [starts[n]];
      CandlesTell(starts[..n], ts, y, interval);
      var group := Group(ts, starts[n], interval);
      GroupsFit(ts, starts[n], interval);
      hide Group, Tells;
      GroupTells(starts[n], group, y, interval);
    }
  }

  lemma GroupTells(start: int, group: seq<Tick>, y: string, interval: int)
    requires interval > 0 && group != []
    requires forall t :: t in group ==> t.symbol == y && BucketStart(t.time, interval) == start
    ensures Tells(CandleOf(start, group, interval), group, interval) && CandleOf(start, group, interval).start == start
  {
    ExtremePrices(group);
    assert group[0] in group;
  }

  /** Without flushes before the end, the ticks of a candle are the in-time ticks of its bucket, in
      their order of arrival: it opens at the first and closes at the last, wherever they came. */
  lemma BatchCandlesTell(c: Settings, y: string, ops: seq<Op>)
    requires forall op :: op in ops ==> op.AddTick?
    ensures var tr := Run(c, ops + [FlushAll]);
            forall cd :: cd in CandlesOf(tr.emitted, y) ==>
              Tells(cd, Group(InTime(OwnTicks(ops, y), c.interval), cd.start, c.interval), c.interval)
  {
    var own := OwnTicks(ops, y);
    var acc := InTime(own, c.interval);
    IncrementalIsBatch(c, y, ops);
    OwnAreOwn(ops, y);
    InTimeAreTicks(own, c.interval);
    GroupsOfBatch(acc, c.interval);
    hide Tells, Group, InTime, Run, Candles, Starts;
    CandlesTell(Starts(acc, c.interval), acc, y, c.interval);
  }

  lemma GroupsOfBatch(ts: seq<Tick>, interval: int)
    requires interval > 0
    ensures forall b :: b in Starts(ts, interval) ==> Group(ts, b, interval) != []
  {
    forall b | b in Starts(ts, interval) ensures Group(ts, b, interval) != [] {
      GroupsAreFull(ts, b, interval);
    }
  }
}
