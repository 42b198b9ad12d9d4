/** The three-state circuit breaker with lazy recovery, alone and with calls in flight. */
module CircuitBreaker {
  import opened Wrappers

  datatype Mode = Closed | Open | HalfOpen

  /** How a protected function ends. `Shed` is a non-failure exception such as a rate limit;
      `Unexpected` is an exception the configuration does not count either. */
  datatype Outcome = Success | Shed | CountedFailure | Unexpected

  datatype Config = Config(threshold: int, recovery: real)

  datatype Breaker = Breaker(mode: Mode, failures: nat, successes: nat, lastFailure: real)

  const FRESH := Breaker(Closed, 0, 0, 0.0)

  /** Reading `state` turns an open breaker half-open once the recovery time is over. */
  function Observe(c: Config, b: Breaker, now: real): Breaker {
    if b.mode == Open && now - b.lastFailure >= c.recovery then b.(mode := HalfOpen) else b
  }

  function OnSuccess(b: Breaker): Breaker {
    if b.mode == HalfOpen then
      if b.successes + 1 >= 2 then b.(mode := Closed, failures := 0, successes := 0)
      else b.(successes := b.successes + 1)
    else b.(failures := 0)
  }

  function OnFailure(c: Config, b: Breaker, now: real): Breaker {
    Breaker(if b.mode == HalfOpen || b.failures + 1 >= c.threshold then Open else b.mode, b.failures + 1, 0, now)
  }

  function Finish(c: Config, b: Breaker, o: Outcome, now: real): Breaker {
    match o
    case Success => OnSuccess(b)
    case CountedFailure => OnFailure(c, b, now)
    case Shed => b
    case Unexpected => b
  }

  // ------------------------------------------------------------- the object

  class CircuitBreaker {
    const config: Config
    var mode: Mode
    var failures: nat
    var successes: nat
    var lastFailure: real

    function View(): Breaker
      reads this
    {
      Breaker(mode, failures, successes, lastFailure)
    }

    constructor (config: Config)
      ensures this.config == config && View() == FRESH
    {
      this.config := config;
      mode, failures, successes, lastFailure := Closed, 0, 0, 0.0;
    }

    method State(now: real) returns (m: Mode)
      modifies this`mode
      ensures View() == Observe(config, old(View()), now) && m == mode
    {
      if mode == Open && now - lastFailure >= config.recovery {
        mode := HalfOpen;
      }
      m := mode;
    }

    method RecordSuccess()
      modifies this
      ensures View() == OnSuccess(old(View()))
    {
      if mode == HalfOpen {
        successes := successes + 1;
        if successes >= 2 {
          mode, failures, successes := Closed, 0, 0;
        }
      } else {
        failures := 0;
      }
    }

    method RecordFailure(now: real)
      modifies this
      ensures View() == OnFailure(config, old(View()), now)
    {
      failures := failures + 1;
      successes := 0;
      lastFailure := now;
      if mode == HalfOpen || failures >= config.threshold {
        mode := Open;
      }
    }

    /** `call`: `ran` is false exactly when the circuit was open and failed fast. */
    method Call(o: Outcome, start: real, end: real) returns (ran: bool)
      modifies this
      ensures (View(), ran) == Called(config, old(View()), o, start, end)
    {
      var state := State(start);
      if state == Open {
        return false;
      }
      match o {
        case Success => RecordSuccess();
        case CountedFailure => RecordFailure(end);
        case Shed =>
        case Unexpected =>
      }
      ran := true;
    }

    method Reset()
      modifies this
      ensures View() == FRESH
    {
      mode, failures, successes, lastFailure := Closed, 0, 0, 0.0;
    }
  }

  function Called(c: Config, b: Breaker, o: Outcome, start: real, end: real): (Breaker, bool) {
    var seen := Observe(c, b, start);
    if seen.mode == Open then (seen, false) else (Finish(c, seen, o, end), true)
  }

  // ------------------------------------------------- any number of calls in flight

  /** `admitted` calls have passed the state check, `inFlight` ones have started their function;
      the rest is the history of the run. */
  datatype World = World(now: real, b: Breaker, admitted: nat, inFlight: nat, failureTimes: seq<real>,
                         admissions: seq<Admission>)

  /** An admission, with the breaker as it was and the last counted failure at that moment. */
  datatype Admission = Admission(at: real, before: Breaker, lastFailure: Option<real>)

  datatype Action =
    | Tick(dt: real)
    | Enter            // reads the state; admitted unless open
    | Start            // an admitted call begins its function
    | End(o: Outcome)  // a function in flight ends
    | Look             // somebody reads `state`
    | Reset

  function LastOf(ts: seq<real>): Option<real> {
    if ts == [] then None else Some(ts[|ts| - 1])
  }

  function Step(c: Config, w: World, a: Action): World {
    match a
    case Tick(dt) => if dt < 0.0 then w else w.(now := w.now + dt)
    case Enter =>
      var seen := Observe(c, w.b, w.now);
      if seen.mode == Open then w.(b := seen)
      else w.(b := seen, admitted := w.admitted + 1,
              admissions := w.admissions + [Admission(w.now, w.b, LastOf(w.failureTimes))])
    case Start => if w.admitted == 0 then w else w.(admitted := w.admitted - 1, inFlight := w.inFlight + 1)
    case End(o) =>
      if w.inFlight == 0 then w
      else w.(b := Finish(c, w.b, o, w.now), inFlight := w.inFlight - 1,
              failureTimes := if o.CountedFailure? then w.failureTimes + [w.now] else w.failureTimes)
    case Look => w.(b := Observe(c, w.b, w.now))
    case Reset => w.(b := FRESH, failureTimes := [])
  }

  function Run(c: Config, w: World, acts: seq<Action>): World {
    if acts == [] then w else Step(c, Run(c, w, acts[..|acts| - 1]), acts[|acts| - 1])
  }

  function Initial(now: real): World {
    World(now, FRESH, 0, 0, [], [])
  }

  ghost predicate SoundAdmission(c: Config, ad: Admission) {
    ad.before.mode == Open ==> ad.lastFailure.Some? && ad.at - ad.lastFailure.value >= c.recovery
  }

  ghost predicate Inv(c: Config, w: World) {
    && (w.b.mode == Closed ==> w.b.failures == 0 || w.b.failures < c.threshold)
    && w.b.successes <= 1
    && (w.b.successes == 1 ==> w.b.mode == HalfOpen)
    && (w.b.mode != Closed ==> w.failureTimes != [])
    && (w.failureTimes != [] ==> LastOf(w.failureTimes) == Some(w.b.lastFailure) && w.b.lastFailure <= w.now)
    && (forall ad :: ad in w.admissions ==> SoundAdmission(c, ad))
  }

  /** In every interleaving of any number of calls, state readings and resets, under a clock that
      does not go back: a closed breaker is below its threshold, if that is positive, and has
      counted nothing otherwise; the success counter is 0 or 1,
      and 1 only half-open; and no call is admitted through an open breaker until a full
      recovery time after the last counted failure. */
  lemma {:induction false} BreakerIsSafe(c: Config, start: real, acts: seq<Action>)
    ensures Inv(c, Run(c, Initial(start), acts))
  {
    if acts != [] {
      BreakerIsSafe(c, start, acts[..|acts| - 1]);
    }
  }

  /** The promise is about admission. A call admitted earlier may start its function after
      another's failure has opened the breaker: here both are admitted while it is closed. */
  lemma StartMayFollowOpening(c: Config, now: real)
    requires c.threshold == 1 && c.recovery > 0.0
    ensures var acts := ((((([] + [Enter]) + [Enter]) + [Start]) + [End(CountedFailure)]) + [Start]);
            var w := Run(c, Initial(now), acts);
            w.inFlight == 1 && TooEarly(c, w)
  {
    var a1 := [] + [Enter];
    var a2 := a1 + [Enter];
    var a3 := a2 + [Start];
    var a4 := a3 + [End(CountedFailure)];
    RunSnoc(c, Initial(now), [], Enter);
    RunSnoc(c, Initial(now), a1, Enter);
    RunSnoc(c, Initial(now), a2, Start);
    RunSnoc(c, Initial(now), a3, End(CountedFailure));
    RunSnoc(c, Initial(now), a4, Start);
  }

  /** The last counted failure since `w` that left the breaker open, unless it was reset after. */
  function OpenedSince(c: Config, w: World, acts: seq<Action>): Option<real> {
    if acts == [] then None
    else
      var before, a := Run(c, w, acts[..|acts| - 1]), acts[|acts| - 1];
      if a.Reset? then None
      else if a == End(CountedFailure) && before.inFlight > 0 && Step(c, before, a).b.mode == Open then Some(before.now)
      else OpenedSince(c, w, acts[..|acts| - 1])
  }

  /** A function starting now would start within the recovery time of the failure that keeps the
      breaker open. */
  predicate TooEarly(c: Config, w: World) {
    w.b.mode == Open && w.now - w.b.lastFailure < c.recovery
  }

  lemma {:induction false} OpenedSinceTells(c: Config, w: World, acts: seq<Action>)
    requires w.b.mode != Open
    ensures var w1, since := Run(c, w, acts), OpenedSince(c, w, acts);
            && (since.None? ==> w1.b.mode != Open)
            && (since.Some? ==> if w1.b.mode == Open then w1.b.lastFailure == since.value
                                 else w1.now - since.value >= c.recovery)
  {
    if acts != [] {
      OpenedSinceTells(c, w, acts[..|acts| - 1]);
    }
  }

  /** Exactly when an admitted call starts too early: when, between its admission and its start,
      another call's counted failure opened the breaker, less than the recovery time ago and not
      reset since. A call that starts as soon as it is admitted never does. */
  lemma StartsTooEarlyIff(c: Config, w: World, acts: seq<Action>)
    requires Step(c, w, Enter).admitted == w.admitted + 1
    ensures var w0 := Step(c, w, Enter);
            var w1, since := Run(c, w0, acts), OpenedSince(c, w0, acts);
            && (TooEarly(c, w1) <==> since.Some? && w1.now - since.value < c.recovery)
            && !TooEarly(c, w0)
  {
    OpenedSinceTells(c, Step(c, w, Enter), acts);
  }

  lemma {:induction false} RunSnoc(c: Config, w: World, acts: seq<Action>, a: Action)
    ensures Run(c, w, acts + [a]) == Step(c, Run(c, w, acts), a)
  {
    assert (acts + [a])[..|acts|] == acts;
  }

  // ------------------------------------------------- load shedding, one call at a time

  datatype SequentialCall = SequentialCall(o: Outcome, start: real, end: real)

  /** Calls one after another: whether each ran, and the breaker after them. */
  function Sequence(c: Config, b: Breaker, calls: seq<SequentialCall>): (Breaker, seq<bool>) {
    if calls == [] then (b, [])
    else
      var (b1, ran) := Sequence(c, b, calls[..|calls| - 1]);
      var last := calls[|calls| - 1];
      var (b2, r) := Called(c, b1, last.o, last.start, last.end);
      (b2, ran + [r])
  }

  /** The calls that are not load shedding, and the parts of `ran` that belong to them. */
  function Others(calls: seq<SequentialCall>): seq<SequentialCall> {
    if calls == [] then []
    else
      var init, last := Others(calls[..|calls| - 1]), calls[|calls| - 1];
      if last.o.Shed? then init else init + [last]
  }

  function OthersRan(calls: seq<SequentialCall>, ran: seq<bool>): seq<bool>
    requires |ran| == |calls|
  {
    if calls == [] then []
    else
      var n := |calls| - 1;
      var init := OthersRan(calls[..n], ran[..n]);
      if calls[n].o.Shed? then init else init + [ran[n]]
  }

  ghost predicate InOrder(calls: seq<SequentialCall>) {
    && (forall i :: 0 <= i < |calls| ==> calls[i].start <= calls[i].end)
    && (forall i, j :: 0 <= i < j < |calls| ==> calls[i].end <= calls[j].start)
  }

  function EndOf(calls: seq<SequentialCall>, start: real): real {
    if calls == [] then start else calls[|calls| - 1].end
  }

  lemma {:induction false} SequenceLength(c: Config, b: Breaker, calls: seq<SequentialCall>)
    ensures |Sequence(c, b, calls).1| == |calls|
  {
    if calls != [] {
      SequenceLength(c, b, calls[..|calls| - 1]);
    }
  }

  /** Two breakers that no reading of the state from `now` on can tell apart. */
  ghost predicate SameFrom(c: Config, b: Breaker, d: Breaker, now: real) {
    Observe(c, b, now) == Observe(c, d, now)
  }

  lemma SameLater(c: Config, b: Breaker, d: Breaker, now: real, later: real)
    requires SameFrom(c, b, d, now) && now <= later
    ensures SameFrom(c, b, d, later)
  {
  }

  /** Erasing every load-shedding call from a sequential run changes neither whether any other
      call ran nor any state read afterwards. */
  lemma {:induction false} SheddingIsInvisible(c: Config, b: Breaker, calls: seq<SequentialCall>, start: real, later: real)
    requires InOrder(calls) && (calls != [] ==> start <= calls[0].start) && EndOf(calls, start) <= later
    ensures |Sequence(c, b, calls).1| == |calls|
    ensures SameFrom(c, Sequence(c, b, calls).0, Sequence(c, b, Others(calls)).0, later)
    ensures OthersRan(calls, Sequence(c, b, calls).1) == Sequence(c, b, Others(calls)).1
  {
    SequenceLength(c, b, calls);
    if calls != [] {
      var n := |calls| - 1;
      var init, last := calls[..n], calls[n];
      if n > 0 {
        assert calls[n - 1].end <= last.start;
      }
      SheddingIsInvisible(c, b, init, start, last.start);
      var (b1, ran1) := Sequence(c, b, init);
      var kept := Others(init);
      var (d1, ran2) := Sequence(c, b, kept);
      var (b2, r) := Called(c, b1, last.o, last.start, last.end);
      assert Sequence(c, b, calls).1[..n] == ran1;
      if last.o.Shed? {
        assert SameFrom(c, b2, b1, last.start);
        SameLater(c, b2, b1, last.start, later);
        SameLater(c, b1, d1, last.start, later);
      } else {
        assert (kept + [last])[..|kept|] == kept;
        assert Called(c, d1, last.o, last.start, last.end) == (b2, r);
      }
    }
  }

  // ------------------------------------------------- load shedding, with other calls in flight

  /** Actions that read or change the breaker. */
  predicate Touches(a: Action) {
    a.Enter? || a.Look? || a.Reset? || a == End(Success) || a == End(CountedFailure)
  }

  function FirstTouch(acts: seq<Action>): Option<Action> {
    if acts == [] then None
    else
      var first, last := FirstTouch(acts[..|acts| - 1]), acts[|acts| - 1];
      if first.Some? then first else if Touches(last) then Some(last) else None
  }

  /** Every function that ends in `acts` is in flight there, without borrowing from another call. */
  ghost predicate Proper(c: Config, w: World, acts: seq<Action>) {
    forall i :: 0 <= i < |acts| && acts[i].End? ==> Run(c, w, acts[..i]).inFlight > 0
  }

  /** The world once one more call, the one that will be shed, is admitted and has started. */
  function WithShedCall(c: Config, w: World): World {
    Step(c, Step(c, w, Enter), Start)
  }

  /** `x`, with the call to be shed in flight, and `y`, without, have the same breaker ... */
  predicate Twins(x: World, y: World) {
    x.b == y.b && x.now == y.now && x.admitted == y.admitted && x.inFlight == y.inFlight + 1
  }

  /** ... or the same but that only `x` has noticed that the recovery time is over. */
  predicate Lags(c: Config, x: World, y: World) {
    && y.b.mode == Open && y.b.successes == 0 && y.now - y.b.lastFailure >= c.recovery
    && x.b == y.b.(mode := HalfOpen)
    && x.now == y.now && x.admitted == y.admitted && x.inFlight == y.inFlight + 1
  }

  lemma TwinsStay(c: Config, x: World, y: World, a: Action)
    requires Twins(x, y) && (a.End? ==> y.inFlight > 0)
    ensures Twins(Step(c, x, a), Step(c, y, a))
  {
  }

  lemma LagEnds(c: Config, x: World, y: World, a: Action)
    requires Lags(c, x, y) && (a.End? ==> y.inFlight > 0)
    ensures var x', y' := Step(c, x, a), Step(c, y, a);
            if !Touches(a) then Lags(c, x', y')
            else if a != End(Success) then Twins(x', y')
            else !SameFrom(c, x'.b, y'.b, y'.now)
  {
  }

  lemma ProperInit(c: Config, w: World, acts: seq<Action>)
    requires Proper(c, w, acts) && acts != []
    ensures var init, last := acts[..|acts| - 1], acts[|acts| - 1];
            Proper(c, w, init) && (last.End? ==> Run(c, w, init).inFlight > 0)
  {
    var init := acts[..|acts| - 1];
    assert forall i :: 0 <= i < |init| ==> init[..i] == acts[..i] && init[i] == acts[i];
  }

  lemma {:induction false} ShedTracks(c: Config, w: World, acts: seq<Action>)
    requires Step(c, w, Enter).admitted == w.admitted + 1 && (w.b.mode == Open ==> w.b.successes == 0)
    requires Proper(c, w, acts)
    ensures var x, y, first := Run(c, WithShedCall(c, w), acts), Run(c, w, acts), FirstTouch(acts);
            && (first.None? ==> if w.b.mode == Open then Lags(c, x, y) else Twins(x, y))
            && (first.Some? && !(w.b.mode == Open && first.value == End(Success)) ==> Twins(x, y))
  {
    if acts != [] {
      var init, last := acts[..|acts| - 1], acts[|acts| - 1];
      var x, y := Run(c, WithShedCall(c, w), init), Run(c, w, init);
      ProperInit(c, w, acts);
      ShedTracks(c, w, init);
      hide Step, SameFrom;
      if Twins(x, y) {
        TwinsStay(c, x, y, last);
      } else if FirstTouch(init).None? {
        LagEnds(c, x, y, last);
      }
    }
  }

  /** After `n` of the others' actions the breaker reads differently for the call to be shed. */
  ghost predicate ShowsAt(c: Config, w: World, acts: seq<Action>, n: nat)
    requires n <= |acts|
  {
    var x, y := Run(c, WithShedCall(c, w), acts[..n]), Run(c, w, acts[..n]);
    !SameFrom(c, x.b, y.b, y.now)
  }

  /** Exactly when a load-shedding call shows: when it was let through an open breaker, and the
      first of the other calls' actions to touch the breaker afterwards is a success. Then that
      success counts towards closing; without the shed call it clears the failures instead. */
  lemma SheddingShowsIff(c: Config, start: real, before: seq<Action>, acts: seq<Action>)
    requires var w := Run(c, Initial(start), before);
             Step(c, w, Enter).admitted == w.admitted + 1 && Proper(c, w, acts)
    ensures var w := Run(c, Initial(start), before);
            (exists n :: 0 <= n <= |acts| && ShowsAt(c, w, acts, n))
            <==> w.b.mode == Open && FirstTouch(acts) == Some(End(Success))
  {
    var w := Run(c, Initial(start), before);
    BreakerIsSafe(c, start, before);
    if w.b.mode == Open && FirstTouch(acts) == Some(End(Success)) {
      SuccessShows(c, w, acts);
    } else {
      forall n | 0 <= n <= |acts| ensures !ShowsAt(c, w, acts, n) {
        OthersDoNotShow(c, w, acts, n);
      }
    }
  }

  lemma {:induction false} SuccessShows(c: Config, w: World, acts: seq<Action>)
    requires Step(c, w, Enter).admitted == w.admitted + 1 && w.b.mode == Open && w.b.successes == 0
    requires Proper(c, w, acts) && FirstTouch(acts) == Some(End(Success))
    ensures exists n :: 0 <= n <= |acts| && ShowsAt(c, w, acts, n)
  {
    var init, last := acts[..|acts| - 1], acts[|acts| - 1];
    ProperInit(c, w, acts);
    hide Step, SameFrom;
    if FirstTouch(init).Some? {
      SuccessShows(c, w, init);
      var n :| 0 <= n <= |init| && ShowsAt(c, w, init, n);
      assert init[..n] == acts[..n];
      assert ShowsAt(c, w, acts, n);
    } else {
      ShedTracks(c, w, init);
      LagEnds(c, Run(c, WithShedCall(c, w), init), Run(c, w, init), last);
      assert acts[..|acts|] == acts;
      assert ShowsAt(c, w, acts, |acts|);
    }
  }

  lemma {:induction false} OthersDoNotShow(c: Config, w: World, acts: seq<Action>, n: nat)
    requires Step(c, w, Enter).admitted == w.admitted + 1 && (w.b.mode == Open ==> w.b.successes == 0)
    requires Proper(c, w, acts) && !(w.b.mode == Open && FirstTouch(acts) == Some(End(Success))) && n <= |acts|
    ensures !ShowsAt(c, w, acts, n)
  {
    if n == |acts| {
      assert acts[..n] == acts;
      ShedTracks(c, w, acts);
      hide Step, Run;
    } else {
      var init := acts[..|acts| - 1];
      ProperInit(c, w, acts);
      OthersDoNotShow(c, w, init, n);
      assert init[..n] == acts[..n];
    }
  }

  /** Three calls in flight, of which one has failed and opened the breaker, and the recovery time
      over. */
  function Tripped(c: Config): seq<Action> {
    [] + [Enter] + [Enter] + [Enter] + [Start] + [Start] + [Start] + [End(CountedFailure)] + [Tick(c.recovery)]
  }

  lemma TrippedWorld(c: Config)
    requires c.threshold == 1 && c.recovery >= 0.0
    ensures var w := Run(c, Initial(0.0), Tripped(c));
            w.b == Breaker(Open, 1, 0, 0.0) && w.now == c.recovery && w.admitted == 0 && w.inFlight == 2
  {
    var i := Initial(0.0);
    var a3 := [] + [Enter] + [Enter] + [Enter];
    RunSnoc(c, i, [], Enter);
    RunSnoc(c, i, [] + [Enter], Enter);
    RunSnoc(c, i, [] + [Enter] + [Enter], Enter);
    RunSnoc(c, i, a3, Start);
    RunSnoc(c, i, a3 + [Start], Start);
    RunSnoc(c, i, a3 + [Start] + [Start], Start);
    RunSnoc(c, i, a3 + [Start] + [Start] + [Start], End(CountedFailure));
    RunSnoc(c, i, a3 + [Start] + [Start] + [Start] + [End(CountedFailure)], Tick(c.recovery));
  }

  /** Two runs that differ only in the actions of a call that is shed, and end one with a closed
      breaker and the other with a half-open one. */
  lemma SheddingShowsWithOverlap(c: Config)
    requires c.threshold == 1 && c.recovery >= 0.0
    ensures var with := Tripped(c) + [Enter] + [Start] + [End(Success)] + [End(Shed)] + [Look] + [End(Success)];
            var without := Tripped(c) + [End(Success)] + [Look] + [End(Success)];
            Run(c, Initial(0.0), with).b.mode == Closed && Run(c, Initial(0.0), without).b.mode == HalfOpen
  {
    var i, t := Initial(0.0), Tripped(c);
    TrippedWorld(c);
    hide Run, Tripped;
    RunSnoc(c, i, t, End(Success));
    RunSnoc(c, i, t + [End(Success)], Look);
    RunSnoc(c, i, t + [End(Success)] + [Look], End(Success));
    RunSnoc(c, i, t, Enter);
    RunSnoc(c, i, t + [Enter], Start);
    RunSnoc(c, i, t + [Enter] + [Start], End(Success));
    RunSnoc(c, i, t + [Enter] + [Start] + [End(Success)], End(Shed));
    RunSnoc(c, i, t + [Enter] + [Start] + [End(Success)] + [End(Shed)], Look);
    RunSnoc(c, i, t + [Enter] + [Start] + [End(Success)] + [End(Shed)] + [Look], End(Success));
  }
}
