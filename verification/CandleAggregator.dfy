/** Ticks into candles: an incremental grouping with one open bucket per symbol and a bounded
    memory of closed bucket starts. Times are integer microseconds since the epoch. */
module CandleAggregator {
  import opened Wrappers
  import opened OrderedDict
  import opened Sequences

  datatype Tick = Tick(symbol: string, price: real, quantity: real, time: int)

  datatype Candle = Candle(symbol: string, start: int, end: int, open: real, high: real, low: real,
                           close: real, volume: real, ticks: nat)

  /** An open bucket: its start, then its ticks, of which there is always a first. */
  datatype Bucket = Bucket(start: int, first: Tick, more: seq<Tick>)
  {
    function Ticks(): (ts: seq<Tick>)
      ensures ts != [] && ts[0] == first
    {
      [first] + more
    }
  }

  const MICROS := 1_000_000

  /** Python's `int` of a quotient: toward zero. */
  function Truncated(n: int, d: int): int
    requires d > 0
  {
    if n >= 0 then n / d else -(-n / d)
  }

  function BucketStart(time: int, interval: int): int
    requires interval > 0
  {
    var epoch := Truncated(time, MICROS);
    epoch - epoch % interval
  }

  /** Buckets start at multiples of the interval. A bucket spans its tick exactly when the tick is
      not in the last fraction of a second before an interval boundary that lies at or before the
      epoch. */
  lemma BucketSpansItsTick(time: int, interval: int)
    requires interval > 0
    ensures var start := BucketStart(time, interval);
            && start % interval == 0
            && (start * MICROS <= time < (start + interval) * MICROS
                <==> time >= 0 || time % MICROS == 0 || Truncated(time, MICROS) % interval != 0)
  {
    var epoch := Truncated(time, MICROS);
    StartsAligned(epoch, interval);
    if time < 0 {
      assert epoch * MICROS - MICROS < time <= epoch * MICROS;
    }
  }

  lemma StartsAligned(n: int, d: int)
    requires d > 0
    ensures (n - n % d) % d == 0
  {
    MultipleOf(n - n % d, d, n / d);
  }

  lemma MultipleOf(n: int, d: int, q: int)
    requires d > 0 && n == q * d
    ensures n % d == 0
  {
    var q', r := n / d, n % d;
    assert (q - q') * d == r;
    if q > q' {
      Positive(q - q' - 1, d);
    } else if q < q' {
      Positive(q' - q - 1, d);
    }
  }

  lemma Positive(n: nat, d: nat)
    ensures (n + 1) * d >= d
  {
  }

  /** A tick half a second before the epoch is put into the bucket that starts at it. Such ticks do
      not come through the consumer, which refuses any older than its staleness bound. */
  lemma BucketMissesItsTick(interval: int)
    requires interval > 0
    ensures BucketStart(-500_000, interval) == 0 && !(0 * MICROS <= -500_000)
  {
    assert 0 % interval == 0;
  }

  function HighestPrice(ticks: seq<Tick>): real
    requires ticks != []
  {
    var last := ticks[|ticks| - 1].price;
    if |ticks| == 1 then last
    else
      var rest := HighestPrice(ticks[..|ticks| - 1]);
      if last > rest then last else rest
  }

  function LowestPrice(ticks: seq<Tick>): real
    requires ticks != []
  {
    var last := ticks[|ticks| - 1].price;
    if |ticks| == 1 then last
    else
      var rest := LowestPrice(ticks[..|ticks| - 1]);
      if last < rest then last else rest
  }

  function Volume(ticks: seq<Tick>): real {
    if ticks == [] then 0.0 else Volume(ticks[..|ticks| - 1]) + ticks[|ticks| - 1].quantity
  }

  function CandleOf(start: int, ticks: seq<Tick>, interval: int): Candle
    requires ticks != []
  {
    Candle(ticks[0].symbol, start, start + interval, ticks[0].price, HighestPrice(ticks), LowestPrice(ticks),
           ticks[|ticks| - 1].price, Volume(ticks), |ticks|)
  }

  function Make(b: Bucket, interval: int): Candle {
    CandleOf(b.start, b.Ticks(), interval)
  }

  /** The high and the low are the extreme prices of the bucket, each attained by a tick. */
  lemma {:induction false} ExtremePrices(ticks: seq<Tick>)
    requires ticks != []
    ensures forall t :: t in ticks ==> LowestPrice(ticks) <= t.price <= HighestPrice(ticks)
    ensures exists t :: t in ticks && t.price == HighestPrice(ticks)
    ensures exists t :: t in ticks && t.price == LowestPrice(ticks)
  {
    var init, last := ticks[..|ticks| - 1], ticks[|ticks| - 1];
    assert ticks == init + [last];
    if init != [] {
      ExtremePrices(init);
    }
  }

  // ------------------------------------------------------------- the object

  /** What the aggregator holds about one symbol. */
  datatype Series = Series(open: Option<Bucket>, closed: seq<int>)

  const NEW := Series(None, [])

  /** Appending to a `deque(maxlen=limit)`. */
  function Appended(closed: seq<int>, start: int, limit: nat): seq<int> {
    if limit == 0 then closed
    else if |closed| < limit then closed + [start]
    else closed[1..] + [start]
  }

  function MarkClosed(closed: seq<int>, start: int, limit: nat): seq<int> {
    if start in closed then closed else Appended(closed, start, limit)
  }

  datatype Outcome = Quiet | Late | Closes(candle: Candle)

  /** One tick added to its symbol's series. */
  function AddTo(s: Series, t: Tick, interval: int, limit: nat): (Series, Outcome)
    requires interval > 0
  {
    var start := BucketStart(t.time, interval);
    if s.open.Some? && s.open.value.start != start then
      var b := s.open.value;
      if start < b.start || start in s.closed then (s, Late)
      else (Series(Some(Bucket(start, t, [])), MarkClosed(s.closed, b.start, limit)), Closes(Make(b, interval)))
    else if start in s.closed then (s, Late)
    else if s.open.None? then (s.(open := Some(Bucket(start, t, []))), Quiet)
    else (s.(open := Some(s.open.value.(more := s.open.value.more + [t]))), Quiet)
  }

  function FlushOf(s: Series, interval: int, limit: nat): (Series, Outcome) {
    if s.open.None? then (s, Quiet)
    else (Series(None, MarkClosed(s.closed, s.open.value.start, limit)), Closes(Make(s.open.value, interval)))
  }

  function Emitted(o: Outcome): seq<Candle> {
    if o.Closes? then [o.candle] else []
  }

  function AsOption(o: Outcome): Option<Candle> {
    if o.Closes? then Some(o.candle) else None
  }

  /** All symbols: their series, the order of the open-bucket dictionary, and the late counter. */
  datatype Feed = Feed(series: map<string, Series>, order: seq<string>, late: nat)

  function At(f: Feed, symbol: string): Series {
    if symbol in f.series then f.series[symbol] else NEW
  }

  function Added(f: Feed, t: Tick, interval: int, limit: nat): (Feed, Outcome)
    requires interval > 0
  {
    var (s, o) := AddTo(At(f, t.symbol), t, interval, limit);
    (Feed(f.series[t.symbol := s],
          if At(f, t.symbol).open.None? && s.open.Some? then f.order + [t.symbol] else f.order,
          if o.Late? then f.late + 1 else f.late), o)
  }

  function Flushed(f: Feed, symbol: string, interval: int, limit: nat): (Feed, Outcome) {
    if At(f, symbol).open.None? then (f, Quiet)
    else
      var (s, o) := FlushOf(f.series[symbol], interval, limit);
      (Feed(f.series[symbol := s], Without(f.order, symbol), f.late), o)
  }

  /** Flushing several symbols, one after the other. */
  function FlushedEach(f: Feed, symbols: seq<string>, interval: int, limit: nat): (Feed, seq<Candle>) {
    if symbols == [] then (f, [])
    else
      var last := |symbols| - 1;
      var (f1, candles) := FlushedEach(f, symbols[..last], interval, limit);
      var (f2, o) := Flushed(f1, symbols[last], interval, limit);
      (f2, if o.Closes? then candles + [o.candle] else candles)
  }

  predicate Idle(s: Series, now: int, maxIdle: int) {
    s.open.Some? && var ticks := s.open.value.Ticks(); now - ticks[|ticks| - 1].time > maxIdle
  }

  /** The idle ones among `symbols`, in their order. */
  function IdleAmong(f: Feed, symbols: seq<string>, now: int, maxIdle: int): seq<string> {
    if symbols == [] then []
    else
      var last := |symbols| - 1;
      var rest := IdleAmong(f, symbols[..last], now, maxIdle);
      if Idle(At(f, symbols[last]), now, maxIdle) then rest + [symbols[last]] else rest
  }

  lemma IdleOpen(s: Series, b: Bucket, now: int, maxIdle: int)
    requires s.open == Some(b)
    ensures Idle(s, now, maxIdle) <==> now - b.Ticks()[|b.Ticks()| - 1].time > maxIdle
  {
  }

  /** Flushing the idle ones of one more symbol. */
  lemma NextStale(f: Feed, symbols: seq<string>, i: nat, now: int, maxIdle: int, interval: int, limit: nat)
    requires i < |symbols|
    ensures var (f1, candles) := FlushedEach(f, IdleAmong(f, symbols[..i], now, maxIdle), interval, limit);
            FlushedEach(f, IdleAmong(f, symbols[..i + 1], now, maxIdle), interval, limit)
            == if !Idle(At(f, symbols[i]), now, maxIdle) then (f1, candles)
               else var (f2, o) := Flushed(f1, symbols[i], interval, limit);
                    (f2, if o.Closes? then candles + [o.candle] else candles)
  {
    assert symbols[..i + 1][..i] == symbols[..i];
    var idle := IdleAmong(f, symbols[..i], now, maxIdle);
    assert (idle + [symbols[i]])[..|idle|] == idle;
  }

  lemma NothingStale(f: Feed, now: int, maxIdle: int, interval: int, limit: nat)
    ensures FlushedEach(f, IdleAmong(f, [], now, maxIdle), interval, limit) == (f, [])
  {
  }

  /** The closed deque of a symbol; a missing one is empty. */
  function ClosedOf(closed: map<string, seq<int>>, symbol: string): seq<int> {
    if symbol in closed then closed[symbol] else []
  }

  class CandleAggregator {
    const interval: int
    const maxIdle: int
    const closedBucketLimit: nat
    var current: Dict<string, Bucket>
    var closedStarts: map<string, seq<int>>
    var lateTicks: nat
    ghost var feed: Feed   // the three fields, seen one symbol at a time

    constructor (interval: int, maxIdle: Option<int>, closedBucketLimit: nat)
      requires interval > 0
      ensures this.interval == interval && this.closedBucketLimit == closedBucketLimit
      ensures this.maxIdle == if maxIdle.Some? && maxIdle.value != 0 then maxIdle.value else interval * 10 * MICROS
      ensures Valid() && feed == Feed(map[], [], 0)
    {
      this.interval, this.closedBucketLimit := interval, closedBucketLimit;
      this.maxIdle := if maxIdle.Some? && maxIdle.value != 0 then maxIdle.value else interval * 10 * MICROS;
      current, closedStarts, lateTicks := Empty(), map[], 0;
      feed := Feed(map[], [], 0);
    }

    ghost predicate Valid()
      reads this
    {
      && interval > 0
      && (forall y :: At(feed, y) == Series(Get(current, y), ClosedOf(closedStarts, y)))
      && feed.order == current.order && feed.late == lateTicks
    }

    method Add(t: Tick) returns (candle: Option<Candle>)
      requires Valid()
      modifies this
      ensures Valid()
      ensures (feed, candle) == var (f, o) := Added(old(feed), t, interval, closedBucketLimit); (f, AsOption(o))
    {
      hide WellFormed, Distinct;
      var start := BucketStart(t.time, interval);
      var closed := ClosedOf(closedStarts, t.symbol);
      var bucket := Get(current, t.symbol);
      assert At(feed, t.symbol) == Series(bucket, closed);
      ghost var before := feed;
      feed := Added(feed, t, interval, closedBucketLimit).0;
      assert forall y :: y != t.symbol ==> At(feed, y) == At(before, y);
      if bucket.Some? && bucket.value.start != start {
        if start < bucket.value.start || start in closed {
          lateTicks := lateTicks + 1;
          return None;
        }
        candle := Some(Make(bucket.value, interval));
        closedStarts := closedStarts[t.symbol := MarkClosed(closed, bucket.value.start, closedBucketLimit)];
        current := Put(current, t.symbol, Bucket(start, t, []));
        return;
      }
      if start in closed {
        lateTicks := lateTicks + 1;
        return None;
      }
      current := Put(current, t.symbol,
                     if bucket.None? then Bucket(start, t, []) else bucket.value.(more := bucket.value.more + [t]));
      candle := None;
    }

    method Flush(symbol: string) returns (candle: Option<Candle>)
      requires Valid()
      modifies this
      ensures Valid()
      ensures (feed, candle) == var (f, o) := Flushed(old(feed), symbol, interval, closedBucketLimit); (f, AsOption(o))
    {
      hide WellFormed, Distinct, MarkClosed;
      var bucket := Get(current, symbol);
      assert At(feed, symbol) == Series(bucket, ClosedOf(closedStarts, symbol));
      if bucket.None? {
        return None;
      }
      ghost var before := feed;
      feed := Flushed(feed, symbol, interval, closedBucketLimit).0;
      assert forall y :: y != symbol ==> At(feed, y) == At(before, y);
      var closed := MarkClosed(ClosedOf(closedStarts, symbol), bucket.value.start, closedBucketLimit);
      closedStarts := closedStarts[symbol := closed];
      current := Remove(current, symbol);
      candle := Some(Make(bucket.value, interval));
    }

    method FlushAll() returns (candles: seq<Candle>)
      requires Valid()
      modifies this
      ensures Valid()
      ensures (feed, candles) == FlushedEach(old(feed), old(feed.order), interval, closedBucketLimit)
    {
      var symbols := current.order;
      candles := [];
      for i := 0 to |symbols|
        invariant Valid()
        invariant (feed, candles) == FlushedEach(old(feed), symbols[..i], interval, closedBucketLimit)
      {
        var candle := Flush(symbols[i]);
        if candle.Some? {
          candles := candles + [candle.value];
        }
        assert symbols[..i + 1][..i] == symbols[..i];
      }
      assert symbols[..|symbols|] == symbols;
    }

    /** Flushes, in dictionary order, the symbols whose last tick is older than `maxIdle`. */
    method FlushStale(now: int) returns (candles: seq<Candle>)
      requires Valid()
      modifies this
      ensures Valid()
      ensures (feed, candles)
              == FlushedEach(old(feed), IdleAmong(old(feed), old(feed.order), now, maxIdle), interval, closedBucketLimit)
    {
      var items := current;
      ghost var before := feed;
      assert forall y :: y in items.order ==> At(before, y).open == Some(items.entries[y]);
      candles := [];
      assert items.order[..0] == [] && items.order[..|items.order|] == items.order;
      NothingStale(before, now, maxIdle, interval, closedBucketLimit);
      assert forall y :: y in items.order ==> y in items.entries;
      hide Valid, At, FlushedEach, IdleAmong, Idle, Flushed, WellFormed, Distinct, Bucket.Ticks;
      for i := 0 to |items.order|
        invariant Valid()
        invariant (feed, candles)
                  == FlushedEach(before, IdleAmong(before, items.order[..i], now, maxIdle), interval, closedBucketLimit)
      {
        var symbol := items.order[i];
        assert symbol in items.order;
        var ticks := items.entries[symbol].Ticks();
        IdleOpen(At(before, symbol), items.entries[symbol], now, maxIdle);
        NextStale(before, items.order, i, now, maxIdle, interval, closedBucketLimit);
        if now - ticks[|ticks| - 1].time > maxIdle {
          var candle := Flush(symbol);
          if candle.Some? {
            candles := candles + [candle.value];
          }
        }
      }
    }
  }
}
