/** The trading cycle's gated submission and its audit trail. The services around it are
    oracles: a script holds what each of them will answer, in the order they are asked. */
module CycleExecutor {
  import opened Wrappers

  /** An answer, or an exception; `caught` says that it is one the cycle handles. */
  datatype Reply<+T> = Returns(value: T) | Raises(caught: bool)

  predicate Passes(r: Reply<bool>) {
    r.Returns? && r.value
  }

  predicate Positive(r: Reply<real>) {
    r.Returns? && r.value > 0.0
  }

  datatype Fill = Fill(filled: bool, quantity: real, price: real)

  /** What will happen to one strategy in one cycle. Each `...Noted` is the writing of one audit
      record, which is a database statement and may raise like any other service. */
  datatype Script = Script(
    known: bool,                 // the registry has the template
    evaluated: Reply<bool>,      // the strategy gives a result
    processed: Reply<bool>,      // the signal service gives a signal
    signalId: string, long: bool,
    signalNoted: Reply<()>,
    announced: Reply<()>,        // publishing the signal
    preflight: Reply<bool>,
    canTrade: Reply<bool>,
    stopped: Reply<()>,          // flattening or reporting after a refusal to trade
    kelly: Reply<real>,          // balance, equity, win rate and sizing assessment
    refusalNoted: Reply<()>,
    quantity: Reply<real>,
    recheck: Reply<bool>,        // preflight again, just before authorization
    authorized: Reply<bool>,
    blockNoted: Reply<()>,
    clientOrderId: string,       // drawn afresh
    decisionNoted: Reply<()>,
    placed: Reply<Fill>,
    placementNoted: Reply<()>,
    booked: Reply<()>,           // opening, submitting and filling the trade
    fillNoted: Reply<()>,
    settled: Reply<()>,          // what follows the last record
    reported: Reply<()>)         // publishing the error, if one was caught

  /** What will happen to one retail order. */
  datatype Retail = Retail(
    price: real, qty: real, side: string, clientOrderId: Option<string>, drawn: string, signalId: string,
    authorized: Reply<bool>, blockNoted: Reply<()>, retailNoted: Reply<()>, decisionNoted: Reply<()>,
    placed: Reply<Fill>, placementNoted: Reply<()>, booked: Reply<()>, fillNoted: Reply<()>, settled: Reply<()>)
  {
    /** The caller's id, unless absent or empty. */
    function OrderId(): string {
      if clientOrderId.Some? && clientOrderId.value != "" then clientOrderId.value else drawn
    }
  }

  datatype Mode = Live | Paper

  /** The cycle's own circumstances. `feed` is the timestamps of the fetched candles. */
  datatype Scene = Scene(mode: Mode, feed: Option<seq<int>>, now: int, maxStaleness: int, price: real,
                         hasPreflight: bool, prelude: Reply<()>)

  /** A live cycle with a data feed that is empty or too old. */
  predicate DataGap(c: Scene) {
    c.mode == Live && c.feed.Some?
    && (c.feed.value == [] || c.now - c.feed.value[|c.feed.value| - 1] > c.maxStaleness)
  }

  datatype Record =
    | SignalGenerated(signal: string)
    | SizingRefused(signal: string)
    | DecisionBlocked(signal: string, qty: real, price: real)
    | DecisionAllowed(signal: string, side: string, qty: real, price: real, clientOrderId: string)
    | OrderPlaced(signal: string, side: string, qty: real, price: real, clientOrderId: string, fill: Fill)
    | TradeFilled(signal: string, side: string, qty: real, price: real)
    | RetailBlocked(signal: string, qty: real)

  datatype BrokerCall = BrokerCall(side: string, qty: real, clientOrderId: string)

  function Side(long: bool): string {
    if long then "buy" else "sell"
  }

  // ------------------------------------------------- the trail, as a table of outcomes

  predicate Signalled(s: Script) {
    s.known && Passes(s.evaluated) && Passes(s.processed)
  }

  /** The gates before sizing. */
  predicate MayTrade(c: Scene, s: Script) {
    && Signalled(s) && s.signalNoted.Returns? && s.announced.Returns? && !DataGap(c)
    && (c.hasPreflight ==> Passes(s.preflight)) && Passes(s.canTrade)
  }

  /** The gates before authorization. */
  predicate Sized(c: Scene, s: Script) {
    MayTrade(c, s) && Positive(s.kelly) && Positive(s.quantity) && (c.hasPreflight ==> Passes(s.recheck))
  }

  /** Every gate on the path to the broker; the last is that the decision is on record. */
  predicate AllGates(c: Scene, s: Script) {
    Sized(c, s) && Passes(s.authorized) && s.decisionNoted.Returns?
  }

  /** An order came back filled and was booked. */
  predicate Booked(c: Scene, s: Script) {
    AllGates(c, s) && s.placed.Returns? && s.placementNoted.Returns? && s.placed.value.filled && s.booked.Returns?
  }

  function Submission(c: Scene, s: Script): seq<Record>
    requires s.quantity.Returns?
  {
    var qty, side := s.quantity.value, Side(s.long);
    var allowed := [SignalGenerated(s.signalId), DecisionAllowed(s.signalId, side, qty, c.price, s.clientOrderId)];
    if s.placed.Raises? || s.placementNoted.Raises? then allowed
    else
      var fill := s.placed.value;
      var placed := allowed + [OrderPlaced(s.signalId, side, qty, c.price, s.clientOrderId, fill)];
      if fill.filled && s.booked.Returns? && s.fillNoted.Returns?
      then placed + [TradeFilled(s.signalId, side, fill.quantity, fill.price)]
      else placed
  }

  /** What a strategy leaves in the audit trail. */
  function TrailOf(c: Scene, s: Script): seq<Record> {
    if !Signalled(s) || s.signalNoted.Raises? then []
    else if AllGates(c, s) then Submission(c, s)
    else if Sized(c, s) && s.authorized == Returns(false) && s.blockNoted.Returns? then
      [SignalGenerated(s.signalId), DecisionBlocked(s.signalId, s.quantity.value, c.price)]
    else if MayTrade(c, s) && s.kelly.Returns? && s.kelly.value <= 0.0 && s.refusalNoted.Returns? then
      [SignalGenerated(s.signalId), SizingRefused(s.signalId)]
    else [SignalGenerated(s.signalId)]
  }

  function OrderOf(s: Script): BrokerCall
    requires s.quantity.Returns?
  {
    BrokerCall(Side(s.long), s.quantity.value, s.clientOrderId)
  }

  function CallsOf(c: Scene, s: Script): seq<BrokerCall> {
    if AllGates(c, s) then [OrderOf(s)] else []
  }

  function TradesOf(c: Scene, s: Script): nat {
    if Booked(c, s) then 1 else 0
  }

  /** How the body of the loop ends: with the exception that left it, if one did. */
  function EndOf(c: Scene, s: Script): Reply<()> {
    if !s.known then Returns(())
    else if !Passes(s.evaluated) then Gate(s.evaluated)
    else if !Passes(s.processed) then Gate(s.processed)
    else if s.signalNoted.Raises? then s.signalNoted
    else if s.announced.Raises? then s.announced
    else if DataGap(c) then Returns(())
    else if c.hasPreflight && !Passes(s.preflight) then Gate(s.preflight)
    else if s.canTrade.Raises? then Gate(s.canTrade)
    else if !s.canTrade.value then s.stopped
    else if s.kelly.Raises? then Raises(s.kelly.caught)
    else if s.kelly.value <= 0.0 then s.refusalNoted
    else if s.quantity.Raises? then Raises(s.quantity.caught)
    else if s.quantity.value <= 0.0 then Returns(())
    else if c.hasPreflight && !Passes(s.recheck) then Gate(s.recheck)
    else EndOfSubmission(s)
  }

  /** A gate that is not passed ends the strategy, quietly if it answered. */
  function Gate(r: Reply<bool>): Reply<()> {
    if r.Raises? then Raises(r.caught) else Returns(())
  }

  function EndOfSubmission(s: Script): Reply<()> {
    if s.authorized.Raises? then Gate(s.authorized)
    else if !s.authorized.value then s.blockNoted
    else if s.decisionNoted.Raises? then s.decisionNoted
    else if s.placed.Raises? then Raises(s.placed.caught)
    else if s.placementNoted.Raises? then s.placementNoted
    else if s.placed.value.filled && s.booked.Raises? then s.booked
    else if s.placed.value.filled && s.fillNoted.Raises? then s.fillNoted
    else s.settled
  }

  /** What ends the whole cycle: an exception it does not handle, or one while it reports another. */
  predicate Breaks(c: Scene, s: Script) {
    EndOf(c, s).Raises? && (EndOf(c, s).caught ==> s.reported.Raises?)
  }

  predicate Escapes(c: Scene, s: Script) {
    EndOf(c, s) == Raises(false) || (EndOf(c, s) == Raises(true) && s.reported == Raises(false))
  }

  /** None of the services asked about this strategy raises. */
  predicate Calm(s: Script) {
    && s.evaluated.Returns? && s.processed.Returns? && s.announced.Returns? && s.preflight.Returns?
    && s.canTrade.Returns? && s.stopped.Returns? && s.kelly.Returns? && s.quantity.Returns?
    && s.recheck.Returns? && s.authorized.Returns?
    && s.placed.Returns? && s.booked.Returns? && s.settled.Returns? && s.reported.Returns?
    && s.signalNoted.Returns? && s.refusalNoted.Returns? && s.blockNoted.Returns? && s.decisionNoted.Returns?
    && s.placementNoted.Returns? && s.fillNoted.Returns?
  }

  // ------------------------------------------------------------- the object

  datatype CycleResult = CycleResult(signals: nat, trades: nat)

  class CycleExecutor {
    var trail: seq<Record>
    var calls: seq<BrokerCall>   // orders placed with the broker

    constructor ()
      ensures trail == [] && calls == []
    {
      trail, calls := [], [];
    }

    /** The body of the strategy loop. */
    method RunStrategy(c: Scene, s: Script) returns (r: Reply<()>, signals: nat, trades: nat)
      modifies this
      ensures trail == old(trail) + TrailOf(c, s)
      ensures calls == old(calls) + CallsOf(c, s)
      ensures trades == TradesOf(c, s) && signals == if Signalled(s) then 1 else 0
      ensures r == EndOf(c, s)
    {
      signals, trades := 0, 0;
      if !s.known { return Returns(()), 0, 0; }
      if s.evaluated.Raises? { return Raises(s.evaluated.caught), 0, 0; }
      if !s.evaluated.value { return Returns(()), 0, 0; }
      if s.processed.Raises? { return Raises(s.processed.caught), 0, 0; }
      if !s.processed.value { return Returns(()), 0, 0; }
      signals := 1;
      if s.signalNoted.Raises? { return Raises(s.signalNoted.caught), signals, 0; }
      trail := trail + [SignalGenerated(s.signalId)];
      if s.announced.Raises? { return Raises(s.announced.caught), signals, 0; }
      if DataGap(c) { return Returns(()), signals, 0; }
      if c.hasPreflight {
        if s.preflight.Raises? { return Raises(s.preflight.caught), signals, 0; }
        if !s.preflight.value { return Returns(()), signals, 0; }
      }
      if s.canTrade.Raises? { return Raises(s.canTrade.caught), signals, 0; }
      if !s.canTrade.value { return s.stopped, signals, 0; }
      if s.kelly.Raises? { return Raises(s.kelly.caught), signals, 0; }
      if s.kelly.value <= 0.0 {
        if s.refusalNoted.Raises? { return Raises(s.refusalNoted.caught), signals, 0; }
        trail := trail + [SizingRefused(s.signalId)];
        return s.refusalNoted, signals, 0;
      }
      if s.quantity.Raises? { return Raises(s.quantity.caught), signals, 0; }
      var qty := s.quantity.value;
      if qty <= 0.0 { return Returns(()), signals, 0; }
      if c.hasPreflight {
        if s.recheck.Raises? { return Raises(s.recheck.caught), signals, 0; }
        if !s.recheck.value { return Returns(()), signals, 0; }
      }
      r, trades := Submit(c, s, qty);
    }

    /** Its tail: authorization, the broker call and the booking of a fill. */
    method Submit(c: Scene, s: Script, qty: real) returns (r: Reply<()>, trades: nat)
      requires s.quantity == Returns(qty) && Sized(c, s)
      modifies this
      ensures old(trail) <= trail
      ensures [SignalGenerated(s.signalId)] + trail[|old(trail)|..] == TrailOf(c, s)
      ensures calls == old(calls) + CallsOf(c, s)
      ensures trades == TradesOf(c, s)
      ensures r == EndOfSubmission(s)
    {
      trades := 0;
      var side := Side(s.long);
      if s.authorized.Raises? { return Raises(s.authorized.caught), 0; }
      if !s.authorized.value {
        if s.blockNoted.Raises? { return Raises(s.blockNoted.caught), 0; }
        trail := trail + [DecisionBlocked(s.signalId, qty, c.price)];
        return s.blockNoted, 0;
      }
      if s.decisionNoted.Raises? { return Raises(s.decisionNoted.caught), 0; }
      trail := trail + [DecisionAllowed(s.signalId, side, qty, c.price, s.clientOrderId)];
      calls := calls + [BrokerCall(side, qty, s.clientOrderId)];
      if s.placed.Raises? { return Raises(s.placed.caught), 0; }
      var fill := s.placed.value;
      if s.placementNoted.Raises? { return Raises(s.placementNoted.caught), 0; }
      trail := trail + [OrderPlaced(s.signalId, side, qty, c.price, s.clientOrderId, fill)];
      if fill.filled {
        if s.booked.Raises? { return Raises(s.booked.caught), 0; }
        trades := 1;
        if s.fillNoted.Raises? { return Raises(s.fillNoted.caught), trades; }
        trail := trail + [TradeFilled(s.signalId, side, fill.quantity, fill.price)];
      }
      r := s.settled;
    }

    /** `run`, outside backtest mode. `escaped` says that an exception left the cycle;
        `done` is the number of strategies it came to. */
    method Run(c: Scene, scripts: seq<Script>) returns (result: CycleResult, escaped: bool, ghost done: nat)
      modifies this
      ensures done <= |scripts|
      ensures trail == old(trail) + CycleTrail(c, scripts, done)
      ensures calls == old(calls) + CycleCalls(c, scripts, done)
      ensures result.trades == Trades(c, scripts, done) && result.signals == Signals(scripts, done)
      ensures c.prelude.Raises? ==> done == 0 && escaped == !c.prelude.caught
      ensures c.prelude.Returns? && done < |scripts| ==> done > 0 && Breaks(c, scripts[done - 1])
      ensures forall i :: 0 <= i < done - 1 ==> !Breaks(c, scripts[i])
      ensures c.prelude.Returns? ==> (escaped <==> done > 0 && Escapes(c, scripts[done - 1]))
    {
      hide TrailOf, CallsOf, TradesOf, Signalled, EndOf;
      result, escaped, done := CycleResult(0, 0), false, 0;
      if c.prelude.Raises? {
        return result, !c.prelude.caught, 0;
      }
      for i := 0 to |scripts|
        invariant done == i && !escaped && forall j :: 0 <= j < i ==> !Breaks(c, scripts[j]) && !Escapes(c, scripts[j])
        invariant trail == old(trail) + CycleTrail(c, scripts, i)
        invariant calls == old(calls) + CycleCalls(c, scripts, i)
        invariant result.trades == Trades(c, scripts, i) && result.signals == Signals(scripts, i)
      {
        var r, m, n := RunStrategy(c, scripts[i]);
        result, done := CycleResult(result.signals + m, result.trades + n), i + 1;
        if r.Raises? {
          var reported := if r.caught then scripts[i].reported else Raises(false);
          if reported.Raises? {
            escaped := !reported.caught;
            break;
          }
        }
      }
    }

    /** `submit_retail_order`; `None` when an exception leaves it. */
    method SubmitRetailOrder(o: Retail) returns (accepted: Option<bool>)
      modifies this
      ensures trail == old(trail) + RetailTrail(o)
      ensures calls == old(calls) + RetailCalls(o)
      ensures accepted == Some(false) <==> o.authorized == Returns(false) && o.blockNoted.Returns? && o.retailNoted.Returns?
      ensures accepted == Some(true)
              <==> && o.authorized == Returns(true) && o.decisionNoted.Returns? && o.placed.Returns?
                   && o.placementNoted.Returns? && o.settled.Returns?
                   && (o.placed.value.filled ==> o.booked.Returns? && o.fillNoted.Returns?)
    {
      if o.authorized.Raises? { return None; }
      if !o.authorized.value {
        if o.blockNoted.Raises? { return None; }
        trail := trail + [DecisionBlocked(o.signalId, o.qty, o.price)];
        if o.retailNoted.Raises? { return None; }
        trail := trail + [RetailBlocked(o.signalId, o.qty)];
        return Some(false);
      }
      var coid := if o.clientOrderId.Some? && o.clientOrderId.value != "" then o.clientOrderId.value else o.drawn;
      if o.decisionNoted.Raises? { return None; }
      trail := trail + [DecisionAllowed(o.signalId, o.side, o.qty, o.price, coid)];
      calls := calls + [BrokerCall(o.side, o.qty, coid)];
      if o.placed.Raises? { return None; }
      var fill := o.placed.value;
      if o.placementNoted.Raises? { return None; }
      trail := trail + [OrderPlaced(o.signalId, o.side, o.qty, o.price, coid, fill)];
      if fill.filled {
        if o.booked.Raises? || o.fillNoted.Raises? { return None; }
        trail := trail + [TradeFilled(o.signalId, o.side, fill.quantity, fill.price)];
      }
      if o.settled.Raises? { return None; }
      accepted := Some(true);
    }
  }

  function RetailTrail(o: Retail): seq<Record> {
    if o.authorized.Raises? then []
    else if !o.authorized.value then
      if o.blockNoted.Raises? then []
      else [DecisionBlocked(o.signalId, o.qty, o.price)]
           + if o.retailNoted.Returns? then [RetailBlocked(o.signalId, o.qty)] else []
    else if o.decisionNoted.Raises? then []
    else
      [DecisionAllowed(o.signalId, o.side, o.qty, o.price, o.OrderId())]
      + if o.placed.Raises? || o.placementNoted.Raises? then []
        else [OrderPlaced(o.signalId, o.side, o.qty, o.price, o.OrderId(), o.placed.value)]
             + if o.placed.value.filled && o.booked.Returns? && o.fillNoted.Returns?
               then [TradeFilled(o.signalId, o.side, o.placed.value.quantity, o.placed.value.price)] else []
  }

  function RetailCalls(o: Retail): seq<BrokerCall> {
    if Passes(o.authorized) && o.decisionNoted.Returns? then [BrokerCall(o.side, o.qty, o.OrderId())] else []
  }

  /** What the first `n` strategies leave in the trail, ask of the broker, and count for. */
  function CycleTrail(c: Scene, scripts: seq<Script>, n: nat): seq<Record>
    requires n <= |scripts|
  {
    if n == 0 then [] else CycleTrail(c, scripts, n - 1) + TrailOf(c, scripts[n - 1])
  }

  function CycleCalls(c: Scene, scripts: seq<Script>, n: nat): seq<BrokerCall>
    requires n <= |scripts|
  {
    if n == 0 then [] else CycleCalls(c, scripts, n - 1) + CallsOf(c, scripts[n - 1])
  }

  function Trades(c: Scene, scripts: seq<Script>, n: nat): nat
    requires n <= |scripts|
  {
    if n == 0 then 0 else Trades(c, scripts, n - 1) + TradesOf(c, scripts[n - 1])
  }

  function Signals(scripts: seq<Script>, n: nat): nat
    requires n <= |scripts|
  {
    if n == 0 then 0 else Signals(scripts, n - 1) + if Signalled(scripts[n - 1]) then 1 else 0
  }

  // ------------------------------------------------- the automaton of a causal trail

  /** How far one signal's story has come, with what the next record has to repeat. */
  datatype Node =
    | Fresh                                                          // a cycle's signal, not yet announced
    | Generated
    | RetailFresh                                                    // a retail order, which has no announcement
    | Allowed(side: string, qty: real, clientOrderId: string)
    | Placed(side: string, fill: Fill)
    | RetailRefused
    | Ended

  function Next(n: Node, r: Record): Option<Node> {
    match n
    case Fresh => if r.SignalGenerated? then Some(Generated) else None
    case Generated =>
      if r.SizingRefused? || r.DecisionBlocked? then Some(Ended)
      else if r.DecisionAllowed? then Some(Allowed(r.side, r.qty, r.clientOrderId)) else None
    case RetailFresh =>
      if r.DecisionBlocked? then Some(RetailRefused)
      else if r.DecisionAllowed? then Some(Allowed(r.side, r.qty, r.clientOrderId)) else None
    case RetailRefused => if r.RetailBlocked? then Some(Ended) else None
    case Allowed(side, qty, coid) =>
      if r.OrderPlaced? && r.side == side && r.qty == qty && r.clientOrderId == coid then Some(Placed(side, r.fill))
      else None
    case Placed(side, fill) =>
      if r.TradeFilled? && fill.filled && r.side == side && r.qty == fill.quantity && r.price == fill.price then Some(Ended)
      else None
    case Ended => None
  }

  function Drive(n: Node, rs: seq<Record>): Option<Node>
    decreases |rs|
  {
    if rs == [] then Some(n)
    else match Next(n, rs[0])
      case None => None
      case Some(m) => Drive(m, rs[1..])
  }

  /** The records that concern one signal. */
  function About(rs: seq<Record>, signal: string): seq<Record> {
    if rs == [] then []
    else
      var rest, last := About(rs[..|rs| - 1], signal), rs[|rs| - 1];
      if last.signal == signal then rest + [last] else rest
  }

  lemma {:induction false} AboutConcat(rs: seq<Record>, ts: seq<Record>, signal: string)
    ensures About(rs + ts, signal) == About(rs, signal) + About(ts, signal)
  {
    if ts == [] {
      assert rs + ts == rs;
    } else {
      assert (rs + ts)[..|rs + ts| - 1] == rs + ts[..|ts| - 1];
      AboutConcat(rs, ts[..|ts| - 1], signal);
    }
  }

  lemma {:induction false} AboutOwn(rs: seq<Record>, owner: string, signal: string)
    requires forall i :: 0 <= i < |rs| ==> rs[i].signal == owner
    ensures About(rs, signal) == if owner == signal then rs else []
  {
    if rs != [] {
      AboutOwn(rs[..|rs| - 1], owner, signal);
      assert rs == rs[..|rs| - 1] + [rs[|rs| - 1]];
    }
  }

  /** The story of one strategy's signal obeys the automaton, whichever record or service raises.
      It stays at an allowed order exactly when the broker call or the record of its answer raised,
      and at a placed one when no fill was booked and recorded. */
  lemma StrategyTrailObeys(c: Scene, s: Script)
    ensures Drive(Fresh, TrailOf(c, s)).Some?
    ensures Drive(Fresh, TrailOf(c, s)).value.Allowed?
      <==> AllGates(c, s) && (s.placed.Raises? || s.placementNoted.Raises?)
    ensures Drive(Fresh, TrailOf(c, s)).value.Placed?
      <==> AllGates(c, s) && s.placed.Returns? && s.placementNoted.Returns? && !(Booked(c, s) && s.fillNoted.Returns?)
    ensures forall i :: 0 <= i < |TrailOf(c, s)| ==> TrailOf(c, s)[i].signal == s.signalId
  {
    var rs := TrailOf(c, s);
    if |rs| > 0 {
      DriveCons(Fresh, rs);
      if |rs| > 1 {
        DriveCons(Generated, rs[1..]);
        if |rs| > 2 {
          DriveCons(Next(Generated, rs[1]).value, rs[2..]);
        }
      }
    }
  }

  lemma DriveCons(n: Node, rs: seq<Record>)
    requires rs != []
    ensures Drive(n, rs) == match Next(n, rs[0]) case None => None case Some(m) => Drive(m, rs[1..])
    ensures forall m :: Drive(m, []) == Some(m)
  {
  }

  lemma OneSignalOnly(c: Scene, s: Script, signal: string)
    ensures About(TrailOf(c, s), signal) == if s.signalId == signal then TrailOf(c, s) else []
  {
    StrategyTrailObeys(c, s);
    AboutOwn(TrailOf(c, s), s.signalId, signal);
  }

  /** Strategies whose signals carry other ids leave nothing about this one. */
  lemma {:induction false} OthersAreSilent(c: Scene, scripts: seq<Script>, n: nat, signal: string)
    requires n <= |scripts| && forall i :: 0 <= i < n ==> scripts[i].signalId != signal
    ensures About(CycleTrail(c, scripts, n), signal) == []
  {
    hide TrailOf;
    if n > 0 {
      OthersAreSilent(c, scripts, n - 1, signal);
      AboutConcat(CycleTrail(c, scripts, n - 1), TrailOf(c, scripts[n - 1]), signal);
      OneSignalOnly(c, scripts[n - 1], signal);
    }
  }

  /** Signal ids are drawn at random; this is what that is for. */
  predicate DistinctSignals(scripts: seq<Script>) {
    forall i, j :: 0 <= i < j < |scripts| ==> scripts[i].signalId != scripts[j].signalId
  }

  /** In the trail of a cycle, finished or not, each signal's records are its own strategy's story,
      undisturbed by the others. */
  lemma {:induction false} EverySignalTellsItsStory(c: Scene, scripts: seq<Script>, n: nat, k: nat)
    requires DistinctSignals(scripts) && k < n <= |scripts|
    ensures About(CycleTrail(c, scripts, n), scripts[k].signalId) == TrailOf(c, scripts[k])
  {
    hide TrailOf, About;
    var id := scripts[k].signalId;
    AboutConcat(CycleTrail(c, scripts, n - 1), TrailOf(c, scripts[n - 1]), id);
    OneSignalOnly(c, scripts[n - 1], id);
    if k == n - 1 {
      OthersAreSilent(c, scripts, n - 1, id);
    } else {
      EverySignalTellsItsStory(c, scripts, n - 1, k);
    }
  }

  /** Whatever the id, the records about it obey the automaton, wherever the cycle stopped. */
  lemma CycleTrailObeys(c: Scene, scripts: seq<Script>, n: nat, signal: string)
    requires DistinctSignals(scripts) && n <= |scripts|
    ensures Drive(Fresh, About(CycleTrail(c, scripts, n), signal)).Some?
  {
    if k :| 0 <= k < n && scripts[k].signalId == signal {
      EverySignalTellsItsStory(c, scripts, n, k);
      StrategyTrailObeys(c, scripts[k]);
    } else {
      OthersAreSilent(c, scripts, n, signal);
    }
  }

  /** A retail order's records obey the automaton from its retail start. */
  lemma RetailTrailObeys(o: Retail)
    ensures Drive(RetailFresh, RetailTrail(o)).Some?
  {
    var rs := RetailTrail(o);
    if |rs| > 0 {
      DriveCons(RetailFresh, rs);
      if |rs| > 1 {
        DriveCons(Next(RetailFresh, rs[0]).value, rs[1..]);
        if |rs| > 2 {
          DriveCons(Placed(o.side, o.placed.value), rs[2..]);
        }
      }
    }
  }

  // ------------------------------------------------- the trail against what was done

  /** The broker calls a trail says were allowed. */
  function CallsIn(rs: seq<Record>): seq<BrokerCall> {
    if rs == [] then []
    else
      var rest, last := CallsIn(rs[..|rs| - 1]), rs[|rs| - 1];
      if last.DecisionAllowed? then rest + [BrokerCall(last.side, last.qty, last.clientOrderId)] else rest
  }

  function Announced(rs: seq<Record>): nat {
    if rs == [] then 0 else Announced(rs[..|rs| - 1]) + if rs[|rs| - 1].SignalGenerated? then 1 else 0
  }

  function Filled(rs: seq<Record>): nat {
    if rs == [] then 0 else Filled(rs[..|rs| - 1]) + if rs[|rs| - 1].TradeFilled? then 1 else 0
  }

  lemma {:induction false} ProjectionsConcat(rs: seq<Record>, ts: seq<Record>)
    ensures CallsIn(rs + ts) == CallsIn(rs) + CallsIn(ts)
    ensures Announced(rs + ts) == Announced(rs) + Announced(ts)
    ensures Filled(rs + ts) == Filled(rs) + Filled(ts)
  {
    if ts == [] {
      assert rs + ts == rs;
    } else {
      assert (rs + ts)[..|rs + ts| - 1] == rs + ts[..|ts| - 1];
      ProjectionsConcat(rs, ts[..|ts| - 1]);
    }
  }

  /** The trade was counted and the record of its fill raised; likewise for the signal. */
  predicate FillUnrecorded(c: Scene, s: Script) {
    Booked(c, s) && s.fillNoted.Raises?
  }

  predicate SignalUnrecorded(s: Script) {
    Signalled(s) && s.signalNoted.Raises?
  }

  function FillsUnrecorded(c: Scene, scripts: seq<Script>, n: nat): nat
    requires n <= |scripts|
  {
    if n == 0 then 0 else FillsUnrecorded(c, scripts, n - 1) + if FillUnrecorded(c, scripts[n - 1]) then 1 else 0
  }

  function SignalsUnrecorded(scripts: seq<Script>, n: nat): nat
    requires n <= |scripts|
  {
    if n == 0 then 0 else SignalsUnrecorded(scripts, n - 1) + if SignalUnrecorded(scripts[n - 1]) then 1 else 0
  }

  lemma ProjectionsSnoc(rs: seq<Record>, r: Record)
    ensures CallsIn(rs + [r])
            == CallsIn(rs) + if r.DecisionAllowed? then [BrokerCall(r.side, r.qty, r.clientOrderId)] else []
    ensures Announced(rs + [r]) == Announced(rs) + if r.SignalGenerated? then 1 else 0
    ensures Filled(rs + [r]) == Filled(rs) + if r.TradeFilled? then 1 else 0
    ensures CallsIn([]) == [] && Announced([]) == 0 && Filled([]) == 0
  {
    assert (rs + [r])[..|rs|] == rs;
  }

  /** An announced and allowed order, then `rest`, which announces and allows nothing. */
  lemma AllowedThen(id: string, side: string, qty: real, price: real, coid: string, rest: seq<Record>)
    requires CallsIn(rest) == [] && Announced(rest) == 0
    ensures var rs := [SignalGenerated(id), DecisionAllowed(id, side, qty, price, coid)] + rest;
            CallsIn(rs) == [BrokerCall(side, qty, coid)] && Announced(rs) == 1 && Filled(rs) == Filled(rest)
  {
    var a, b := SignalGenerated(id), DecisionAllowed(id, side, qty, price, coid);
    hide CallsIn, Announced, Filled;
    ProjectionsSnoc([], a);
    ProjectionsSnoc([a], b);
    assert [] + [a] == [a] && [a] + [b] == [a, b];
    ProjectionsConcat([a, b], rest);
  }

  /** What a placement and perhaps a fill project to. */
  lemma PlacedThen(p: Record, t: Record)
    requires p.OrderPlaced? && t.TradeFilled?
    ensures CallsIn([p]) == [] && Announced([p]) == 0 && Filled([p]) == 0
    ensures CallsIn([p, t]) == [] && Announced([p, t]) == 0 && Filled([p, t]) == 1
    ensures CallsIn([]) == [] && Announced([]) == 0 && Filled([]) == 0
  {
    hide CallsIn, Announced, Filled;
    ProjectionsSnoc([], p);
    ProjectionsSnoc([p], t);
    assert [] + [p] == [p] && [p] + [t] == [p, t];
  }

  lemma SubmissionIsAccountedFor(c: Scene, s: Script)
    requires AllGates(c, s)
    ensures CallsIn(Submission(c, s)) == [OrderOf(s)] && Announced(Submission(c, s)) == 1
    ensures Filled(Submission(c, s)) == if Booked(c, s) && s.fillNoted.Returns? then 1 else 0
  {
    hide CallsIn, Announced, Filled;
    var id, side, qty, coid := s.signalId, Side(s.long), s.quantity.value, s.clientOrderId;
    var allowed := [SignalGenerated(id), DecisionAllowed(id, side, qty, c.price, coid)];
    var fill := if s.placed.Returns? then s.placed.value else Fill(false, 0.0, 0.0);
    var p, t := OrderPlaced(id, side, qty, c.price, coid, fill), TradeFilled(id, side, fill.quantity, fill.price);
    PlacedThen(p, t);
    var rest := if s.placed.Raises? || s.placementNoted.Raises? then []
                else if Booked(c, s) && s.fillNoted.Returns? then [p, t] else [p];
    assert Submission(c, s) == allowed + rest;
    AllowedThen(id, side, qty, c.price, coid, rest);
  }

  /** One strategy's records name exactly its broker calls, and its signal and its trade unless
      their records raised. */
  lemma StrategyIsAccountedFor(c: Scene, s: Script)
    ensures CallsIn(TrailOf(c, s)) == CallsOf(c, s)
    ensures Filled(TrailOf(c, s)) + (if FillUnrecorded(c, s) then 1 else 0) == TradesOf(c, s)
    ensures Announced(TrailOf(c, s)) + (if SignalUnrecorded(s) then 1 else 0) == if Signalled(s) then 1 else 0
  {
    hide CallsIn, Announced, Filled, Submission;
    var rs := TrailOf(c, s);
    ProjectionsSnoc([], SignalGenerated(s.signalId));
    assert [] + [SignalGenerated(s.signalId)] == [SignalGenerated(s.signalId)];
    if AllGates(c, s) {
      SubmissionIsAccountedFor(c, s);
    } else if |rs| == 2 {
      ProjectionsSnoc([rs[0]], rs[1]);
      assert [rs[0]] + [rs[1]] == rs;
    }
  }

  lemma {:induction false} TrailSums(c: Scene, scripts: seq<Script>, n: nat)
    requires n <= |scripts|
    ensures CallsIn(CycleTrail(c, scripts, n)) == CycleCalls(c, scripts, n)
    ensures Filled(CycleTrail(c, scripts, n)) + FillsUnrecorded(c, scripts, n) == Trades(c, scripts, n)
    ensures Announced(CycleTrail(c, scripts, n)) + SignalsUnrecorded(scripts, n) == Signals(scripts, n)
  {
    hide TrailOf, CallsOf, TradesOf, Signalled, FillUnrecorded, SignalUnrecorded;
    if n > 0 {
      TrailSums(c, scripts, n - 1);
      StrategyIsAccountedFor(c, scripts[n - 1]);
      ProjectionsConcat(CycleTrail(c, scripts, n - 1), TrailOf(c, scripts[n - 1]));
    }
  }

  lemma {:induction false} NoneUnrecorded(c: Scene, scripts: seq<Script>, n: nat)
    requires n <= |scripts|
    ensures FillsUnrecorded(c, scripts, n) == 0 <==> forall i :: 0 <= i < n ==> !FillUnrecorded(c, scripts[i])
    ensures SignalsUnrecorded(scripts, n) == 0 <==> forall i :: 0 <= i < n ==> !SignalUnrecorded(scripts[i])
  {
    hide FillUnrecorded, SignalUnrecorded;
    if n > 0 {
      NoneUnrecorded(c, scripts, n - 1);
    }
  }

  /** Whatever raises, the broker is called exactly as the trail says it was allowed to be, in that
      order. The cycle's two counters, which go up before their records are written, are the
      numbers of the trail's fills and announcements exactly when none of those records raised. */
  lemma TrailAccountsForTheCycle(c: Scene, scripts: seq<Script>, n: nat)
    requires n <= |scripts|
    ensures CallsIn(CycleTrail(c, scripts, n)) == CycleCalls(c, scripts, n)
    ensures Filled(CycleTrail(c, scripts, n)) == Trades(c, scripts, n)
            <==> forall i :: 0 <= i < n ==> !FillUnrecorded(c, scripts[i])
    ensures Announced(CycleTrail(c, scripts, n)) == Signals(scripts, n)
            <==> forall i :: 0 <= i < n ==> !SignalUnrecorded(scripts[i])
  {
    TrailSums(c, scripts, n);
    NoneUnrecorded(c, scripts, n);
  }

  /** A cycle in which they differ: everything passes, and the record of the fill raises. */
  lemma UnrecordedFillShows(c: Scene, s: Script)
    requires !DataGap(c) && Calm(s.(fillNoted := Returns(())))
    requires s.known && s.evaluated.value && s.processed.value && s.preflight.value && s.canTrade.value
    requires s.kelly.value > 0.0 && s.quantity.value > 0.0 && s.recheck.value && s.authorized.value && s.placed.value.filled
    requires s.fillNoted == Raises(true)
    ensures Trades(c, [s], 1) == 1 && Filled(CycleTrail(c, [s], 1)) == 0
    ensures CycleCalls(c, [s], 1) == [OrderOf(s)]
  {
    TrailAccountsForTheCycle(c, [s], 1);
    assert [s][0] == s && FillUnrecorded(c, [s][0]);
    assert Trades(c, [s], 0) == 0;
    TrailSums(c, [s], 1);
    assert FillsUnrecorded(c, [s], 0) == 0;
  }

  // ------------------------------------------------- what happened, reply by reply

  /** A strategy gave a signal. */
  predicate Spoke(s: Script) {
    s.known && s.evaluated == Returns(true) && s.processed == Returns(true)
  }

  /** A live cycle with an empty feed, or one whose last candle is older than the bound. */
  predicate Stale(c: Scene) {
    match c.feed
    case None => false
    case Some(ts) => c.mode == Live && (|ts| == 0 || ts[|ts| - 1] + c.maxStaleness < c.now)
  }

  /** Its signal came as far as `can_trade`. */
  predicate Heard(c: Scene, s: Script) {
    && Spoke(s) && s.signalNoted.Returns? && s.announced.Returns? && !Stale(c)
    && (c.hasPreflight ==> s.preflight == Returns(true))
  }

  /** It came as far as sizing. */
  predicate Offered(c: Scene, s: Script) {
    Heard(c, s) && s.canTrade == Returns(true)
  }

  predicate Kept(s: Script) {
    s.kelly.Returns? && s.kelly.value > 0.0
  }

  /** It came as far as authorization. */
  predicate Weighed(c: Scene, s: Script) {
    && Offered(c, s) && Kept(s) && s.quantity.Returns? && s.quantity.value > 0.0
    && (c.hasPreflight ==> s.recheck == Returns(true))
  }

  /** It came as far as the broker. */
  predicate Due(c: Scene, s: Script) {
    Weighed(c, s) && s.authorized == Returns(true) && s.decisionNoted.Returns?
  }

  /** Its order came back filled and was booked. */
  predicate Settled(c: Scene, s: Script) {
    Due(c, s) && s.placed.Returns? && s.placementNoted.Returns? && s.placed.value.filled && s.booked.Returns?
  }

  /** The order of a strategy that came as far as the broker. */
  predicate Orders(c: Scene, s: Script, o: BrokerCall) {
    && Due(c, s) && o.qty == s.quantity.value && o.clientOrderId == s.clientOrderId
    && o.side == (if s.long then "buy" else "sell")
  }

  /** What each record of the trail says of the strategy that left it. */
  predicate Tells(c: Scene, s: Script, r: Record) {
    && r.signal == s.signalId
    && match r
       case SignalGenerated(_) => Spoke(s) && s.signalNoted.Returns?
       case SizingRefused(_) =>
         Offered(c, s) && s.kelly.Returns? && s.kelly.value <= 0.0 && s.refusalNoted.Returns?
       case DecisionBlocked(_, qty, price) =>
         && Weighed(c, s) && s.authorized == Returns(false) && s.blockNoted.Returns?
         && s.quantity == Returns(qty) && price == c.price
       case DecisionAllowed(_, side, qty, price, coid) => Orders(c, s, BrokerCall(side, qty, coid)) && price == c.price
       case OrderPlaced(_, side, qty, price, coid, fill) =>
         && Orders(c, s, BrokerCall(side, qty, coid)) && price == c.price
         && s.placed == Returns(fill) && s.placementNoted.Returns?
       case TradeFilled(_, side, qty, price) =>
         && Settled(c, s) && s.fillNoted.Returns? && side == (if s.long then "buy" else "sell")
         && s.placed.value.quantity == qty && s.placed.value.price == price
       case RetailBlocked(_, _) => false
  }

  lemma GatesSpelledOut(c: Scene, s: Script)
    ensures Signalled(s) <==> Spoke(s)
    ensures MayTrade(c, s) <==> Offered(c, s)
    ensures Sized(c, s) <==> Weighed(c, s)
    ensures AllGates(c, s) <==> Due(c, s)
    ensures Booked(c, s) <==> Settled(c, s)
    ensures DataGap(c) <==> Stale(c)
  {
  }

  lemma StrategyTells(c: Scene, s: Script, r: Record)
    ensures r in TrailOf(c, s) <==> Tells(c, s, r)
  {
    GatesSpelledOut(c, s);
    hide DataGap, Spoke, Offered, Weighed, Due, Settled, Signalled, MayTrade, Sized, AllGates, Booked;
    Widening(c, s);
  }

  lemma Widening(c: Scene, s: Script)
    ensures Settled(c, s) ==> Due(c, s)
    ensures Settled(c, s) <==> Due(c, s) && s.placed.Returns? && s.placementNoted.Returns? && s.placed.value.filled
                               && s.booked.Returns?
    ensures Due(c, s) <==> Weighed(c, s) && s.authorized == Returns(true) && s.decisionNoted.Returns?
    ensures Weighed(c, s) ==> Offered(c, s) && s.quantity.Returns? && s.kelly.Returns? && s.kelly.value > 0.0
    ensures Offered(c, s) ==> Spoke(s) && s.signalNoted.Returns?
  {
  }

  /** Some of the first `n` strategies left this record. */
  ghost predicate Told(c: Scene, scripts: seq<Script>, n: nat, r: Record)
    requires n <= |scripts|
  {
    exists i :: 0 <= i < n && Tells(c, scripts[i], r)
  }

  /** The trail of a cycle holds exactly the records that say what the services answered: which of
      them passed the signal on, which refused it, and what the broker made of it. */
  lemma {:induction false} RecordsTellWhatHappened(c: Scene, scripts: seq<Script>, n: nat, r: Record)
    requires n <= |scripts|
    ensures r in CycleTrail(c, scripts, n) <==> Told(c, scripts, n, r)
  {
    hide TrailOf, Tells;
    if n > 0 {
      RecordsTellWhatHappened(c, scripts, n - 1, r);
      StrategyTells(c, scripts[n - 1], r);
    }
  }

  /** One of the first `n` strategies came as far as the broker with this order. */
  ghost predicate Authorized(c: Scene, scripts: seq<Script>, n: nat, o: BrokerCall)
    requires n <= |scripts|
  {
    exists i :: 0 <= i < n && Orders(c, scripts[i], o)
  }

  /** A cycle orders exactly what strategies whose gates all answered yes asked for: buying when the
      signal is long and selling otherwise. */
  lemma {:induction false} OrdersPassedEveryGate(c: Scene, scripts: seq<Script>, n: nat, o: BrokerCall)
    requires n <= |scripts|
    ensures o in CycleCalls(c, scripts, n) <==> Authorized(c, scripts, n, o)
  {
    hide AllGates, Due;
    if n > 0 {
      OrdersPassedEveryGate(c, scripts, n - 1, o);
      GatesSpelledOut(c, scripts[n - 1]);
      var mine := CallsOf(c, scripts[n - 1]);
      assert o in mine <==> Orders(c, scripts[n - 1], o);
      assert o in CycleCalls(c, scripts, n) <==> o in CycleCalls(c, scripts, n - 1) || o in mine;
      assert Authorized(c, scripts, n, o) <==> Authorized(c, scripts, n - 1, o) || o in mine;
    }
  }

  /** The cycle's counters: the strategies that gave a signal, and those whose fill was booked. */
  lemma {:induction false} CountersTell(c: Scene, scripts: seq<Script>, n: nat)
    requires n <= |scripts|
    ensures Signals(scripts, n) == |Counted(scripts, n, s => Spoke(s))|
    ensures Trades(c, scripts, n) == |Counted(scripts, n, s => Settled(c, s))|
  {
    hide Spoke, Settled, Signalled, Booked;
    if n > 0 {
      CountersTell(c, scripts, n - 1);
      GatesSpelledOut(c, scripts[n - 1]);
      OneMoreCounted(scripts, n, s => Spoke(s));
      OneMoreCounted(scripts, n, s => Settled(c, s));
    }
  }

  function Counted(scripts: seq<Script>, n: nat, p: Script -> bool): set<nat>
    requires n <= |scripts|
  {
    set i: nat | 0 <= i < n && p(scripts[i])
  }

  lemma OneMoreCounted(scripts: seq<Script>, n: nat, p: Script -> bool)
    requires 0 < n <= |scripts|
    ensures |Counted(scripts, n, p)| == |Counted(scripts, n - 1, p)| + if p(scripts[n - 1]) then 1 else 0
  {
    assert Counted(scripts, n, p) == Counted(scripts, n - 1, p) + if p(scripts[n - 1]) then {n - 1} else {};
  }

  /** Only an exception that is not handled, or one raised while another is reported, ends the cycle;
      and it leaves it exactly if the last one raised is not handled. */
  lemma BreaksTell(c: Scene, s: Script)
    ensures Breaks(c, s) <==> EndOf(c, s) == Raises(false) || (EndOf(c, s) == Raises(true) && s.reported.Raises?)
    ensures Escapes(c, s) <==> EndOf(c, s) == Raises(false) || (EndOf(c, s) == Raises(true) && s.reported == Raises(false))
  {
    hide EndOf;
  }

  /** A strategy whose services all answer does not end the cycle. */
  lemma CalmGoesOn(c: Scene, s: Script)
    requires Calm(s)
    ensures EndOf(c, s).Returns? && !Breaks(c, s) && !Escapes(c, s)
  {
  }

  /** A strategy ends in an exception exactly if one of the services it came as far as raised it. */
  lemma InterruptedIff(c: Scene, s: Script, caught: bool)
    ensures EndOf(c, s) == Raises(caught)
            <==> || (s.known && s.evaluated == Raises(caught))
                 || (s.known && s.evaluated == Returns(true) && s.processed == Raises(caught))
                 || (Spoke(s) && s.signalNoted == Raises(caught))
                 || (Spoke(s) && s.signalNoted.Returns? && s.announced == Raises(caught))
                 || (Spoke(s) && s.signalNoted.Returns? && s.announced.Returns? && !Stale(c)
                     && c.hasPreflight && s.preflight == Raises(caught))
                 || (Heard(c, s) && s.canTrade == Raises(caught))
                 || (Heard(c, s) && s.canTrade == Returns(false) && s.stopped == Raises(caught))
                 || (Offered(c, s) && s.kelly == Raises(caught))
                 || (Offered(c, s) && s.kelly.Returns? && s.kelly.value <= 0.0 && s.refusalNoted == Raises(caught))
                 || (Offered(c, s) && Kept(s) && s.quantity == Raises(caught))
                 || (Offered(c, s) && Kept(s) && s.quantity.Returns? && s.quantity.value > 0.0
                     && c.hasPreflight && s.recheck == Raises(caught))
                 || (Weighed(c, s) && SubmissionRaises(c, s, caught))
  {
    GatesSpelledOut(c, s);
    if Weighed(c, s) {
      SubmissionInterruptedIff(c, s, caught);
    }
    hide EndOfSubmission, SubmissionRaises;
  }

  /** A service asked from authorization on raised. */
  predicate SubmissionRaises(c: Scene, s: Script, caught: bool) {
    || s.authorized == Raises(caught)
    || (s.authorized == Returns(false) && s.blockNoted == Raises(caught))
    || (s.authorized == Returns(true) && s.decisionNoted == Raises(caught))
    || (Due(c, s) && s.placed == Raises(caught))
    || (Due(c, s) && s.placed.Returns? && s.placementNoted == Raises(caught))
    || (Due(c, s) && s.placed.Returns? && s.placementNoted.Returns? && s.placed.value.filled && s.booked == Raises(caught))
    || (Settled(c, s) && s.fillNoted == Raises(caught))
    || (Due(c, s) && s.placed.Returns? && s.placementNoted.Returns?
        && (s.placed.value.filled ==> s.booked.Returns? && s.fillNoted.Returns?) && s.settled == Raises(caught))
  }

  lemma SubmissionInterruptedIff(c: Scene, s: Script, caught: bool)
    requires Weighed(c, s)
    ensures EndOfSubmission(s) == Raises(caught) <==> SubmissionRaises(c, s, caught)
  {
  }

  /** A live cycle whose market data is missing or stale orders nothing. */
  lemma {:induction false} NoOrderInADataGap(c: Scene, scripts: seq<Script>, n: nat)
    requires Stale(c) && n <= |scripts|
    ensures CycleCalls(c, scripts, n) == []
  {
    if n > 0 {
      NoOrderInADataGap(c, scripts, n - 1);
      GatesSpelledOut(c, scripts[n - 1]);
    }
  }

  /** What each record says of the retail order that left it. */
  predicate RetailTells(o: Retail, r: Record) {
    var coid := match o.clientOrderId case None => o.drawn case Some(x) => if x == "" then o.drawn else x;
    var due := o.authorized == Returns(true) && o.decisionNoted.Returns?;
    var placed := due && o.placed.Returns? && o.placementNoted.Returns?;
    && r.signal == o.signalId
    && match r
       case DecisionBlocked(_, qty, price) =>
         o.authorized == Returns(false) && o.blockNoted.Returns? && qty == o.qty && price == o.price
       case RetailBlocked(_, qty) =>
         o.authorized == Returns(false) && o.blockNoted.Returns? && o.retailNoted.Returns? && qty == o.qty
       case DecisionAllowed(_, side, qty, price, id) =>
         due && side == o.side && qty == o.qty && price == o.price && id == coid
       case OrderPlaced(_, side, qty, price, id, fill) =>
         placed && side == o.side && qty == o.qty && price == o.price && id == coid && fill == o.placed.value
       case TradeFilled(_, side, qty, price) =>
         && placed && o.placed.value.filled && o.booked.Returns? && o.fillNoted.Returns?
         && side == o.side && qty == o.placed.value.quantity && price == o.placed.value.price
       case SignalGenerated(_) => false
       case SizingRefused(_) => false
  }

  /** The retail trail holds exactly those records, and the broker is called exactly for an order that
      is authorized and on record, under the caller's id unless that is absent or empty. */
  lemma RetailRecordsTell(o: Retail, r: Record)
    ensures r in RetailTrail(o) <==> RetailTells(o, r)
    ensures RetailCalls(o)
            == if o.authorized == Returns(true) && o.decisionNoted.Returns?
               then [BrokerCall(o.side, o.qty, match o.clientOrderId case None => o.drawn
                                                                     case Some(x) => if x == "" then o.drawn else x)]
               else []
  {
  }

  /** A retail order reaches the broker exactly when the trail says it was allowed. */
  lemma RetailIsAccountedFor(o: Retail)
    ensures CallsIn(RetailTrail(o)) == RetailCalls(o)
  {
    var rs := RetailTrail(o);
    if |rs| > 1 {
      assert rs[..1] + rs[1..2] == rs[..2];
      ProjectionsConcat(rs[..1], rs[1..2]);
      if |rs| > 2 {
        ProjectionsConcat(rs[..2], rs[2..3]);
      }
    }
  }
}
