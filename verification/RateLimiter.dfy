/** A sliding-window limiter that prunes its timestamps, and the broker proxy over it. */
module RateLimiter {
  import opened Wrappers

  // ------------------------------------------------------------- the pruned form

  /** The timestamps after `cutoff`, in order. */
  function After(ts: seq<real>, cutoff: real): (r: seq<real>)
    ensures |r| <= |ts|
  {
    if ts == [] then []
    else
      var init, last := After(ts[..|ts| - 1], cutoff), ts[|ts| - 1];
      if last > cutoff then init + [last] else init
  }

  function BucketOf(of: map<string, seq<real>>, key: string): seq<real> {
    if key in of then of[key] else []
  }

  /** The filtering loop of both operations. */
  method Pruned(timestamps: seq<real>, cutoff: real) returns (kept: seq<real>)
    ensures kept == After(timestamps, cutoff)
  {
    kept := [];
    for i := 0 to |timestamps|
      invariant kept == After(timestamps[..i], cutoff)
    {
      if timestamps[i] > cutoff {
        kept := kept + [timestamps[i]];
      }
      assert timestamps[..i + 1][..i] == timestamps[..i];
    }
    assert timestamps[..|timestamps|] == timestamps;
  }

  datatype Request = Request(key: string, now: real)

  /** A call of `check` or of `remaining`. */
  datatype Op = CheckCall(r: Request) | RemainingCall(r: Request)

  datatype Answer = Verdict(ok: bool) | Budget(n: nat)

  function Rest(used: nat, max: int): nat {
    if used < max then max - used else 0
  }

  /** One call on the pruned buckets. */
  function Pruning(buckets: map<string, seq<real>>, op: Op, max: int, window: real): (map<string, seq<real>>, Answer) {
    var kept := After(BucketOf(buckets, op.r.key), op.r.now - window);
    match op
    case RemainingCall(r) => (buckets[r.key := kept], Budget(Rest(|kept|, max)))
    case CheckCall(r) =>
      if |kept| >= max then (buckets[r.key := kept], Verdict(false))
      else (buckets[r.key := kept + [r.now]], Verdict(true))
  }

  function PrunedRun(ops: seq<Op>, max: int, window: real): (map<string, seq<real>>, seq<Answer>) {
    if ops == [] then (map[], [])
    else
      var (buckets, answers) := PrunedRun(ops[..|ops| - 1], max, window);
      var (buckets', answer) := Pruning(buckets, ops[|ops| - 1], max, window);
      (buckets', answers + [answer])
  }

  // ------------------------------------------------- the full history is the specification

  /** The admissions that lie in (from, to]. */
  function Within(ts: seq<real>, from: real, to: real): nat {
    if ts == [] then 0
    else
      var last := ts[|ts| - 1];
      Within(ts[..|ts| - 1], from, to) + if from < last <= to then 1 else 0
  }

  /** It is a count, and the interval is open on the left and closed on the right. */
  lemma {:induction false} WithinCounts(ts: seq<real>, from: real, to: real)
    ensures Within(ts, from, to) == |set i | 0 <= i < |ts| && from < ts[i] <= to|
  {
    if ts != [] {
      var n := |ts| - 1;
      WithinCounts(ts[..n], from, to);
      var rest := set i | 0 <= i < n && from < ts[..n][i] <= to;
      assert (set i | 0 <= i < |ts| && from < ts[i] <= to) == rest + if from < ts[n] <= to then {n} else {};
    }
  }

  /** The answer by the history of the key: `check` admits when fewer than `max` admissions lie in
      (now - window, now], and `remaining` is how many fewer. */
  function Ruling(history: seq<real>, op: Op, max: int, window: real): Answer {
    var used := Within(history, op.r.now - window, op.r.now);
    match op
    case CheckCall(_) => Verdict(used < max)
    case RemainingCall(_) => Budget(Rest(used, max))
  }

  /** Every admission ever made, per key. */
  function Admissions(ops: seq<Op>, max: int, window: real): map<string, seq<real>> {
    if ops == [] then map[]
    else
      var history, op := Admissions(ops[..|ops| - 1], max, window), ops[|ops| - 1];
      var h := BucketOf(history, op.r.key);
      if Ruling(h, op, max, window) == Verdict(true) then history[op.r.key := h + [op.r.now]] else history
  }

  function Rulings(ops: seq<Op>, max: int, window: real): seq<Answer> {
    if ops == [] then []
    else
      var init, op := ops[..|ops| - 1], ops[|ops| - 1];
      Rulings(init, max, window) + [Ruling(BucketOf(Admissions(init, max, window), op.r.key), op, max, window)]
  }

  ghost predicate ClockRuns(ops: seq<Op>) {
    forall i, j :: 0 <= i <= j < |ops| ==> ops[i].r.now <= ops[j].r.now
  }

  /** No call was later than `now`. */
  ghost predicate Until(ops: seq<Op>, now: real) {
    ops != [] ==> ops[|ops| - 1].r.now <= now
  }

  // ------------------------------------------------------------- the object

  class RateLimiter {
    const maxRequests: int
    const window: real
    var buckets: map<string, seq<real>>   // a defaultdict: a missing bucket is empty
    ghost var calls: seq<Op>              // every call so far

    constructor (maxRequests: int, window: real)
      ensures this.maxRequests == maxRequests && this.window == window
      ensures Valid() && calls == []
    {
      this.maxRequests, this.window := maxRequests, window;
      buckets, calls := map[], [];
    }

    ghost predicate Valid()
      reads this
    {
      ClockRuns(calls) && buckets == PrunedRun(calls, maxRequests, window).0
    }

    /** Every admission ever made of a key. */
    ghost function Admitted(key: string): seq<real>
      reads this
    {
      BucketOf(Admissions(calls, maxRequests, window), key)
    }

    /** `check` decides by the whole history of the key, of which it keeps only the window; and no
        window of any key ever holds too many. */
    method Check(key: string, now: real) returns (ok: bool)
      requires Valid() && Until(calls, now)
      modifies this
      ensures Valid() && calls == old(calls) + [CheckCall(Request(key, now))]
      ensures ok <==> Within(old(Admitted(key)), now - window, now) < maxRequests
      ensures Admitted(key) == if ok then old(Admitted(key)) + [now] else old(Admitted(key))
      ensures forall k :: k != key ==> Admitted(k) == old(Admitted(k))
      ensures forall k :: NeverOverflows(Admitted(k), window, maxRequests)
    {
      hide Admissions, PrunedRun, Within, After, ClockRuns, NeverOverflows;
      var windowStart := now - window;
      var timestamps := Pruned(BucketOf(buckets, key), windowStart);
      ghost var op := CheckCall(Request(key, now));
      CallSnoc(calls, op, maxRequests, window);
      calls := calls + [op];
      ok := |timestamps| < maxRequests;
      buckets := buckets[key := if ok then timestamps + [now] else timestamps];
      NoWindowsOverflow(calls, maxRequests, window);
    }

    /** `remaining`: what the whole history leaves. It prunes, and admits nothing. */
    method Remaining(key: string, now: real) returns (n: nat)
      requires Valid() && Until(calls, now)
      modifies this
      ensures Valid() && calls == old(calls) + [RemainingCall(Request(key, now))]
      ensures var used := Within(Admitted(key), now - window, now);
              n == if used < maxRequests then maxRequests - used else 0
      ensures forall k :: Admitted(k) == old(Admitted(k))
    {
      hide Admissions, PrunedRun, Within, After, ClockRuns;
      var windowStart := now - window;
      var timestamps := Pruned(BucketOf(buckets, key), windowStart);
      ghost var op := RemainingCall(Request(key, now));
      CallSnoc(calls, op, maxRequests, window);
      calls := calls + [op];
      buckets := buckets[key := timestamps];
      n := if |timestamps| < maxRequests then maxRequests - |timestamps| else 0;
    }
  }

  /** The interval (from, from + window] holds at most `max` admissions. */
  ghost predicate Fits(history: seq<real>, from: real, window: real, max: int) {
    Within(history, from, from + window) <= Rest(0, max)
  }

  ghost predicate NeverOverflows(history: seq<real>, window: real, max: int) {
    forall from :: Fits(history, from, window, max)
  }

  /** What one more call does to both forms, and that they agree on it. */
  lemma CallSnoc(ops: seq<Op>, op: Op, max: int, window: real)
    requires ClockRuns(ops) && Until(ops, op.r.now)
    ensures ClockRuns(ops + [op])
    ensures PrunedRun(ops + [op], max, window).0 == Pruning(PrunedRun(ops, max, window).0, op, max, window).0
    ensures var h := BucketOf(Admissions(ops, max, window), op.r.key);
            && Pruning(PrunedRun(ops, max, window).0, op, max, window).1 == Ruling(h, op, max, window)
            && forall k :: BucketOf(Admissions(ops + [op], max, window), k)
                           == if k == op.r.key && Ruling(h, op, max, window) == Verdict(true) then h + [op.r.now]
                              else BucketOf(Admissions(ops, max, window), k)
  {
    var more := ops + [op];
    assert more[..|ops|] == ops;
    PruningIsExact(more, max, window);
    hide Pruning, Ruling;
    var (_, answers) := PrunedRun(ops, max, window);
    assert PrunedRun(more, max, window).1[|answers|] == Rulings(more, max, window)[|answers|];
    assert |answers| == |Rulings(ops, max, window)| by { PruningIsExact(ops, max, window); }
  }

  // ------------------------------------------------------------- pruning is exact

  ghost predicate AllRemember(buckets: map<string, seq<real>>, admitted: map<string, seq<real>>, cutoff: real) {
    forall k :: Remembers(BucketOf(buckets, k), BucketOf(admitted, k), cutoff)
  }

  /** The bucket and the history agree on what came after `cutoff`. */
  ghost predicate Remembers(bucket: seq<real>, history: seq<real>, cutoff: real) {
    After(bucket, cutoff) == After(history, cutoff)
  }

  /** Pruning one bucket to a later window loses nothing that any later window could see. */
  lemma PruneKeeps(buckets: map<string, seq<real>>, admitted: map<string, seq<real>>, early: real, late: real, key: string)
    requires AllRemember(buckets, admitted, early) && early <= late
    ensures AllRemember(buckets[key := After(BucketOf(buckets, key), late)], admitted, late)
    ensures After(BucketOf(buckets, key), late) == After(BucketOf(admitted, key), late)
  {
    var pruned := buckets[key := After(BucketOf(buckets, key), late)];
    AfterAfter(BucketOf(buckets, key), late, late);
    forall k ensures Remembers(BucketOf(pruned, k), BucketOf(admitted, k), late) {
      StillRemembers(BucketOf(buckets, k), BucketOf(admitted, k), early, late);
    }
    StillRemembers(BucketOf(buckets, key), BucketOf(admitted, key), early, late);
  }

  lemma AdmitKeeps(buckets: map<string, seq<real>>, admitted: map<string, seq<real>>, cutoff: real, key: string, now: real)
    requires AllRemember(buckets, admitted, cutoff)
    ensures AllRemember(buckets[key := BucketOf(buckets, key) + [now]], admitted[key := BucketOf(admitted, key) + [now]],
                        cutoff)
  {
    var more, history := buckets[key := BucketOf(buckets, key) + [now]], admitted[key := BucketOf(admitted, key) + [now]];
    forall k ensures Remembers(BucketOf(more, k), BucketOf(history, k), cutoff) {
      assert Remembers(BucketOf(buckets, k), BucketOf(admitted, k), cutoff);
      RemembersMore(BucketOf(buckets, k), BucketOf(admitted, k), now, cutoff);
    }
  }

  lemma {:induction false} AfterAfter(ts: seq<real>, early: real, late: real)
    requires early <= late
    ensures After(After(ts, early), late) == After(ts, late)
  {
    if ts != [] {
      var init, last := ts[..|ts| - 1], ts[|ts| - 1];
      AfterAfter(init, early, late);
      if last > early {
        AfterSnoc(After(init, early), last, late);
      }
    }
  }

  lemma {:induction false} AfterSnoc(ts: seq<real>, t: real, cutoff: real)
    ensures After(ts + [t], cutoff) == if t > cutoff then After(ts, cutoff) + [t] else After(ts, cutoff)
  {
    assert (ts + [t])[..|ts|] == ts;
  }

  lemma StillRemembers(bucket: seq<real>, history: seq<real>, early: real, late: real)
    requires Remembers(bucket, history, early) && early <= late
    ensures Remembers(bucket, history, late)
  {
    AfterAfter(bucket, early, late);
    AfterAfter(history, early, late);
  }

  lemma RemembersMore(bucket: seq<real>, history: seq<real>, now: real, cutoff: real)
    requires Remembers(bucket, history, cutoff)
    ensures Remembers(bucket + [now], history + [now], cutoff)
  {
    AfterSnoc(bucket, now, cutoff);
    AfterSnoc(history, now, cutoff);
  }

  ghost predicate Past(ts: seq<real>, now: real) {
    forall i :: 0 <= i < |ts| ==> ts[i] <= now
  }

  /** With nothing in the future, the unpruned timestamps are those inside the window, so
      the limiter's test is the specification's. */
  lemma {:induction false} PrunedCountIsExact(ts: seq<real>, from: real, now: real)
    requires Past(ts, now)
    ensures |After(ts, from)| == Within(ts, from, now)
  {
    if ts != [] {
      PrunedCountIsExact(ts[..|ts| - 1], from, now);
    }
  }

  lemma {:induction false} WithinSnoc(ts: seq<real>, t: real, from: real, to: real)
    ensures Within(ts + [t], from, to) == Within(ts, from, to) + if from < t <= to then 1 else 0
  {
    assert (ts + [t])[..|ts|] == ts;
  }

  lemma {:induction false} WithinGrows(ts: seq<real>, from: real, to: real, from': real, to': real)
    requires from' <= from && to <= to'
    ensures Within(ts, from, to) <= Within(ts, from', to')
  {
    if ts != [] {
      WithinGrows(ts[..|ts| - 1], from, to, from', to');
    }
  }

  lemma {:induction false} WithinPast(ts: seq<real>, from: real, to: real, now: real)
    requires now <= to && Past(ts, now)
    ensures Within(ts, from, to) == Within(ts, from, now)
  {
    if ts != [] {
      WithinPast(ts[..|ts| - 1], from, to, now);
    }
  }

  lemma ClockRunsInit(ops: seq<Op>)
    requires ClockRuns(ops) && ops != []
    ensures ClockRuns(ops[..|ops| - 1]) && Until(ops[..|ops| - 1], ops[|ops| - 1].r.now)
  {
  }

  /** The history of a key, for a clock that never goes back: nothing lies in the future. */
  lemma {:induction false} HistoryIsPast(ops: seq<Op>, max: int, window: real, key: string, now: real)
    requires ClockRuns(ops) && Until(ops, now)
    ensures Past(BucketOf(Admissions(ops, max, window), key), now)
  {
    if ops != [] {
      ClockRunsInit(ops);
      HistoryIsPast(ops[..|ops| - 1], max, window, key, now);
      hide Ruling;
    }
  }

  /** For a clock that never goes back, the limiter that keeps only pruned buckets answers every
      call of every run exactly as the full history does. */
  lemma {:induction false} PruningIsExact(ops: seq<Op>, max: int, window: real)
    requires ClockRuns(ops)
    ensures PrunedRun(ops, max, window).1 == Rulings(ops, max, window)
    ensures ops != [] ==>
              AllRemember(PrunedRun(ops, max, window).0, Admissions(ops, max, window), ops[|ops| - 1].r.now - window)
  {
    hide Pruning, Ruling, AllRemember, Past, BucketOf;
    if ops != [] {
      var init, op := ops[..|ops| - 1], ops[|ops| - 1];
      var buckets, admitted := PrunedRun(init, max, window).0, Admissions(init, max, window);
      var early := if init == [] then op.r.now - window else init[|init| - 1].r.now - window;
      NothingToRemember(early);
      ClockRunsInit(ops);
      PruningIsExact(init, max, window);
      HistoryIsPast(init, max, window, op.r.key, op.r.now);
      OneCall(buckets, admitted, early, op, max, window);
    }
  }

  lemma NothingToRemember(cutoff: real)
    ensures AllRemember(map[], map[], cutoff)
  {
  }

  lemma OneCall(buckets: map<string, seq<real>>, admitted: map<string, seq<real>>, early: real, op: Op, max: int,
                window: real)
    requires AllRemember(buckets, admitted, early) && early <= op.r.now - window
    requires Past(BucketOf(admitted, op.r.key), op.r.now)
    ensures var h := BucketOf(admitted, op.r.key);
            var (buckets', answer) := Pruning(buckets, op, max, window);
            && answer == Ruling(h, op, max, window)
            && AllRemember(buckets',
                           if answer == Verdict(true) then admitted[op.r.key := h + [op.r.now]] else admitted,
                           op.r.now - window)
  {
    var key, now, late := op.r.key, op.r.now, op.r.now - window;
    PruneKeeps(buckets, admitted, early, late, key);
    PrunedCountIsExact(BucketOf(admitted, key), late, now);
    var pruned := buckets[key := After(BucketOf(buckets, key), late)];
    AdmitKeeps(pruned, admitted, late, key, now);
    assert pruned[key := BucketOf(pruned, key) + [now]] == buckets[key := After(BucketOf(buckets, key), late) + [now]];
    hide AllRemember, After;
  }

  /** Whatever is called, no interval (from, from + window] of any key ever holds more than `max`
      admissions, at any time in the past or now. */
  lemma {:induction false} NoWindowOverflows(ops: seq<Op>, max: int, window: real, key: string, from: real)
    requires ClockRuns(ops)
    ensures Within(BucketOf(Admissions(ops, max, window), key), from, from + window) <= Rest(0, max)
  {
    if ops != [] {
      var init, op := ops[..|ops| - 1], ops[|ops| - 1];
      var h, now := BucketOf(Admissions(init, max, window), key), op.r.now;
      ClockRunsInit(ops);
      NoWindowOverflows(init, max, window, key, from);
      if op.CheckCall? && op.r.key == key && Within(h, now - window, now) < max {
        WithinSnoc(h, now, from, from + window);
        if from < now <= from + window {
          HistoryIsPast(init, max, window, key, now);
          WithinPast(h, from, from + window, now);
          WithinGrows(h, from, now, now - window, now);
        }
      }
    }
  }

  lemma NoWindowsOverflow(ops: seq<Op>, max: int, window: real)
    requires ClockRuns(ops)
    ensures forall k :: NeverOverflows(BucketOf(Admissions(ops, max, window), k), window, max)
  {
    forall k ensures NeverOverflows(BucketOf(Admissions(ops, max, window), k), window, max) {
      forall from ensures Fits(BucketOf(Admissions(ops, max, window), k), from, window, max) {
        NoWindowOverflows(ops, max, window, k, from);
      }
    }
  }

  function Copies(now: real, n: nat): seq<real> {
    if n == 0 then [] else Copies(now, n - 1) + [now]
  }

  lemma {:induction false} CopiesCount(history: seq<real>, now: real, window: real, n: nat)
    ensures Within(history + Copies(now, n), now - window, now)
            == Within(history, now - window, now) + if window > 0.0 then n else 0
  {
    hide Within;
    if n == 0 {
      assert history + Copies(now, 0) == history;
    } else {
      CopiesCount(history, now, window, n - 1);
      assert history + Copies(now, n) == (history + Copies(now, n - 1)) + [now];
      WithinSnoc(history + Copies(now, n - 1), now, now - window, now);
    }
  }

  /** The next `check` is admitted after `n` more admissions made at this same instant. */
  predicate AdmittedAfter(history: seq<real>, now: real, max: int, window: real, n: nat) {
    Ruling(history + Copies(now, n), CheckCall(Request("", now)), max, window) == Verdict(true)
  }

  /** `remaining` forecasts `check`: of any number of further checks made at the same instant, the
      first `remaining` are admitted and no more. That holds exactly when the window is positive, or
      nothing remains; an empty window forgets an admission as soon as it is made. */
  lemma RemainingForecastsChecks(history: seq<real>, now: real, max: int, window: real)
    ensures var left := Rest(Within(history, now - window, now), max);
            (forall n: nat :: AdmittedAfter(history, now, max, window, n) <==> n < left) <==> window > 0.0 || left == 0
  {
    var left := Rest(Within(history, now - window, now), max);
    forall n: nat ensures AdmittedAfter(history, now, max, window, n)
                          <==> Within(history, now - window, now) + (if window > 0.0 then n else 0) < max {
      CopiesCount(history, now, window, n);
    }
    if window <= 0.0 && left > 0 {
      assert AdmittedAfter(history, now, max, window, left);
    }
  }

  // ------------------------------------------------------------- the broker proxy

  datatype BrokerMethod = MarketOrder | FlattenOrder | LimitOrder | CancelOrder | StopOrder | TrailingStopOrder
                        | ModifyOrder | AccountBalance | Positions | OpenOrders

  /** The limiter key of a method; `None` for the path that is never throttled. */
  function LimiterKey(m: BrokerMethod): Option<string> {
    match m
    case MarketOrder => Some("place_market_order")
    case FlattenOrder => None
    case LimitOrder => Some("place_limit_order")
    case CancelOrder => Some("cancel_order")
    case StopOrder => Some("place_stop_order")
    case TrailingStopOrder => Some("place_trailing_stop_order")
    case ModifyOrder => Some("modify_order")
    case AccountBalance => Some("get_account_balance")
    case Positions => Some("get_positions")
    case OpenOrders => Some("get_open_orders")
  }

  /** Only a flatten is never throttled, and no two other methods share a budget. */
  lemma BudgetsAreSeparate(m: BrokerMethod, n: BrokerMethod)
    ensures LimiterKey(m).None? <==> m == FlattenOrder
    ensures LimiterKey(m).Some? && LimiterKey(m) == LimiterKey(n) ==> m == n
  {
    assert LimiterKey(CancelOrder).value[0] != LimiterKey(ModifyOrder).value[0];
  }

  class RateLimitedBroker {
    const limiter: RateLimiter
    const enabled: bool
    var forwarded: seq<BrokerMethod>   // what reached the inner broker; a flatten arrives as a market order

    constructor (limiter: RateLimiter, enabled: bool)
      ensures this.limiter == limiter && this.enabled == enabled && forwarded == []
    {
      this.limiter, this.enabled, forwarded := limiter, enabled, [];
    }

    /** Any proxied call; `false` is `RateLimitExceededError`. A refused call does not reach the
        broker. A flatten, or any call when limiting is off, is never refused and leaves every
        budget as it was. */
    method Call(m: BrokerMethod, now: real) returns (ok: bool)
      requires limiter.Valid() && Until(limiter.calls, now)
      modifies this, limiter
      ensures limiter.Valid()
      ensures forwarded == if ok then old(forwarded) + [if m.FlattenOrder? then MarketOrder else m] else old(forwarded)
      ensures m.FlattenOrder? || !enabled ==>
                ok && limiter.calls == old(limiter.calls) && limiter.buckets == old(limiter.buckets)
      ensures !m.FlattenOrder? && enabled ==>
                var key := LimiterKey(m).value;
                && (ok <==> Within(old(limiter.Admitted(key)), now - limiter.window, now) < limiter.maxRequests)
                && limiter.calls == old(limiter.calls) + [CheckCall(Request(key, now))]
                && limiter.Admitted(key) == old(limiter.Admitted(key)) + (if ok then [now] else [])
                && forall k :: k != key ==> limiter.Admitted(k) == old(limiter.Admitted(k))
    {
      hide Admissions, Within, PrunedRun, BucketOf, ClockRuns;
      if !m.FlattenOrder? && enabled {
        ok := limiter.Check(LimiterKey(m).value, now);
        if !ok {
          return;
        }
      }
      forwarded := forwarded + [if m.FlattenOrder? then MarketOrder else m];
      ok := true;
    }
  }
}
