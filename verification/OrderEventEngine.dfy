/** The idempotent broker-event coordinator: duplicate suppression, a guarded transition,
    then commit, persist, publish and mark in that order, and the replay of what a crash
    left unpublished. */
module OrderEventEngine {
  import opened Wrappers
  import opened OrderedDict
  import opened Sequences
  import opened Journal
  import opened TradeEntity

  // ------------------------------------------------------------- one transition

  /** A broker callback. `derived` is the key composed from its fields when it has no id. */
  datatype BrokerEvent = BrokerEvent(eventId: string, derived: string, status: Status,
                                     quantity: Option<real>, price: Option<real>, traceId: string)
  {
    function Key(): string {
      if eventId != "" then eventId else derived
    }
  }

  datatype Refusal = InvalidFill | InvalidTransition | UnsupportedTransition

  function OrElse(x: Option<real>, default: real): real {
    if x.Some? then x.value else default
  }

  /** Python's `x or default`: zero counts as absent. */
  function OrTruthy(x: Option<real>, default: real): real {
    if x.Some? && x.value != 0.0 then x.value else default
  }

  predicate ValidFill(t: TradeState, ev: BrokerEvent) {
    ev.status in {PartiallyFilled, Filled} ==>
      && 0.0 < OrElse(ev.quantity, t.quantity) <= t.quantity
      && 0.0 < OrElse(ev.price, t.price)
  }

  function Guarded(t: Option<TradeState>): Result<TradeState, Refusal> {
    if t.Some? then Ok(t.value) else Err(InvalidTransition)
  }

  function Transition(t: TradeState, ev: BrokerEvent): Result<TradeState, Refusal> {
    if !ValidFill(t, ev) then Err(InvalidFill)
    else match ev.status
      case PartiallyFilled => Guarded(WithFill(t, PartiallyFilled, OrTruthy(ev.quantity, 0.0), OrTruthy(ev.price, 0.0)))
      case Filled => Guarded(WithFill(t, Filled, OrTruthy(ev.quantity, t.quantity), OrTruthy(ev.price, t.price)))
      case Pending => if t.status == Pending then Ok(t) else Err(UnsupportedTransition)
      case Submitted => if t.status == Submitted then Ok(t) else Err(UnsupportedTransition)
      case other => Guarded(MoveTo(t, other))
  }

  /** An event that is not refused: its fill, if it is one, is positive and within the order, and its
      status is one the trade may go to, or is pending or submitted and the trade's already. */
  predicate Acceptable(t: TradeState, ev: BrokerEvent) {
    && FillAcceptable(t, ev)
    && if ev.status == Pending || ev.status == Submitted then t.status == ev.status
       else Follows(t.status, ev.status)
  }

  predicate FillAcceptable(t: TradeState, ev: BrokerEvent) {
    var quantity := match ev.quantity case None => t.quantity case Some(q) => q;
    var price := match ev.price case None => t.price case Some(p) => p;
    ev.status == PartiallyFilled || ev.status == Filled ==> quantity > 0.0 && quantity <= t.quantity && price > 0.0
  }

  /** The trade has the event's status, and of a fill what it carries: without a quantity or price, a
      partial fill leaves zero and a complete one the order's. */
  predicate Moved(t: TradeState, ev: BrokerEvent, t': TradeState) {
    && t'.status == ev.status
    && t' == t.(status := t'.status, filledQuantity := t'.filledQuantity, filledPrice := t'.filledPrice)
    && t'.filledQuantity == (match ev.status
                             case PartiallyFilled => (match ev.quantity case None => 0.0 case Some(q) => q)
                             case Filled => (match ev.quantity case None => t.quantity case Some(q) => q)
                             case _ => t.filledQuantity)
    && t'.filledPrice == (match ev.status
                          case PartiallyFilled => (match ev.price case None => 0.0 case Some(p) => p)
                          case Filled => (match ev.price case None => t.price case Some(p) => p)
                          case _ => t.filledPrice)
  }

  /** An event is followed exactly if it is acceptable, and then to where it says; a bad fill is
      refused before the lifecycle is asked. */
  lemma TransitionIff(t: TradeState, ev: BrokerEvent)
    ensures Transition(t, ev).Ok? <==> Acceptable(t, ev)
    ensures Transition(t, ev).Ok? ==> Moved(t, ev, Transition(t, ev).value)
    ensures Transition(t, ev) == Err(InvalidFill) <==> !FillAcceptable(t, ev)
    ensures Transition(t, ev) == Err(UnsupportedTransition)
            <==> (ev.status == Pending || ev.status == Submitted) && t.status != ev.status
  {
    EdgesByTarget(t.status, ev.status);
  }

  // ------------------------------------------------------------- the bus event

  datatype StatusPayload = StatusPayload(tradeId: string, externalOrderId: Option<string>, from: Status, to: Status,
                                         filledQuantity: real, filledPrice: real, eventId: string)

  /** An event as the bus carries it; `uuid` is drawn afresh for every event object. */
  datatype BusEvent = BusEvent(uuid: string, eventType: string, payload: StatusPayload, timestamp: string,
                               correlationId: string, traceId: string, market: string, strategy: string,
                               receivedAt: string)

  /** The envelope the journal keeps. */
  datatype Envelope = Envelope(eventType: string, payload: StatusPayload, correlationId: string, traceId: string,
                               market: string, strategy: string, receivedAt: string, timestamp: string)

  function Encode(e: BusEvent): Envelope {
    Envelope(e.eventType, e.payload, e.correlationId, e.traceId, e.market, e.strategy, e.receivedAt, e.timestamp)
  }

  function Decode(v: Envelope, uuid: string): BusEvent {
    BusEvent(uuid, v.eventType, v.payload, v.timestamp, v.correlationId, v.traceId, v.market, v.strategy, v.receivedAt)
  }

  /** What the clock and the uuid source supply to one call. */
  datatype Stamp = Stamp(uuid: string, now: string)

  function EventFor(before: TradeState, after: TradeState, ev: BrokerEvent, stamp: Stamp): BusEvent {
    BusEvent(stamp.uuid, "execution.order_status",
             StatusPayload(before.id, after.externalOrderId, before.status, after.status,
                           after.filledQuantity, after.filledPrice, ev.Key()),
             stamp.now, before.id, ev.traceId, before.marketId, "", stamp.now)
  }

  /** Replaying loses exactly the event object's own uuid. */
  lemma DecodeEncode(e: BusEvent, uuid: string)
    ensures Encode(Decode(Encode(e), uuid)) == Encode(e)
    ensures Decode(Encode(e), uuid) == e.(uuid := uuid)
    ensures Decode(Encode(e), uuid) == e <==> uuid == e.uuid
  {
  }

  // ------------------------------------------------------------- the object

  /** Which of the steps after the key is noted succeed; the others raise. */
  datatype Faults = Faults(recordOk: bool, persistOk: bool, publishOk: bool, markOk: bool, afterOk: bool)

  datatype Stage = Recording | Persisting | Publishing | Marking | AfterPublishing

  datatype ApplyResult = Applied | Duplicate | Refused(why: Refusal) | Failed(stage: Stage)

  datatype EngineState = EngineState(seen: set<string>, table: Table<Envelope>, published: seq<BusEvent>)

  class EventBus {
    var published: seq<BusEvent>

    constructor ()
      ensures published == []
    {
      published := [];
    }

    method Publish(e: BusEvent, ok: bool)
      modifies this
      ensures published == if ok then old(published) + [e] else old(published)
    {
      if ok {
        published := published + [e];
      }
    }
  }

  class OrderEventEngine {
    const bus: EventBus
    const journal: OrderEventJournal<Envelope>
    var seen: set<string>

    constructor (bus: EventBus, journal: OrderEventJournal<Envelope>)
      ensures this.bus == bus && this.journal == journal && seen == journal.table.entries.Keys
    {
      this.bus, this.journal := bus, journal;
      seen := journal.table.entries.Keys;
    }

    function View(): EngineState
      reads this, journal, bus
    {
      EngineState(seen, journal.table, bus.published)
    }

    method Dispatch(trade: Trade, ev: BrokerEvent) returns (r: Option<Refusal>)
      modifies trade
      ensures r.None? ==> Ok(trade.View()) == Transition(old(trade.View()), ev)
      ensures r.Some? ==> trade.View() == old(trade.View()) && Transition(old(trade.View()), ev) == Err(r.value)
      ensures r.None? ==> trade.status == ev.status
    {
      if !ValidFill(trade.View(), ev) {
        return Some(InvalidFill);
      }
      var ok;
      match ev.status {
        case Acknowledged => ok := trade.Acknowledge();
        case PartiallyFilled => ok := trade.PartialFill(OrTruthy(ev.quantity, 0.0), OrTruthy(ev.price, 0.0));
        case Filled => ok := trade.Fill(OrTruthy(ev.quantity, trade.quantity), OrTruthy(ev.price, trade.price));
        case Cancelled => ok := trade.Close(Cancelled);
        case Rejected => ok := trade.Close(Rejected);
        case Expired => ok := trade.Close(Expired);
        case _ =>
          if ev.status != trade.status {
            return Some(UnsupportedTransition);
          }
          ok := true;
      }
      r := if ok then None else Some(InvalidTransition);
    }

    /** `apply`, with the outcome of each callback supplied by `faults`. */
    method Apply(trade: Trade, ev: BrokerEvent, stamp: Stamp, faults: Faults) returns (r: ApplyResult)
      modifies this, journal, bus, trade
      ensures (View(), trade.View(), r) == ApplyStep(old(View()), old(trade.View()), ev, stamp, faults)
    {
      var key := ev.Key();
      if key in seen || Has(journal.table, key) {
        return Duplicate;
      }
      var before := trade.View();
      var refusal := Dispatch(trade, ev);
      if refusal.Some? {
        return Refused(refusal.value);
      }
      seen := seen + {key};
      var event := EventFor(before, trade.View(), ev, stamp);
      if !faults.recordOk {
        return Failed(Recording);
      }
      var ok := journal.Record(key, trade.id, Text(trade.status), Encode(event));
      if !faults.persistOk {
        return Failed(Persisting);
      }
      bus.Publish(event, faults.publishOk);
      if !faults.publishOk {
        return Failed(Publishing);
      }
      if !faults.markOk {
        return Failed(Marking);
      }
      journal.Mark(key);
      r := if faults.afterOk then Applied else Failed(AfterPublishing);
    }

    /** `replay`: republish and mark each pending row in turn. At the row numbered `failAt`, if there
        is one, publishing raises, or marking if `inMark`; `uuids` supplies the rebuilt events' own
        ids. */
    method Replay(failAt: Option<nat>, inMark: bool, uuids: nat -> string) returns (count: nat)
      modifies journal, bus
      ensures var n := |PendingIds(old(journal.table))|;
              count == if failAt.Some? && failAt.value < n then failAt.value else n
      ensures var ids := PendingIds(old(journal.table));
              var (table, sent) := Replayed(old(journal.table), old(bus.published), ids, count, uuids);
              && journal.table == table
              && bus.published
                 == if count < |ids| && inMark
                    then sent + [Decode(old(journal.table).entries[ids[count]].payload, uuids(count))] else sent
    {
      hide PendingIds, MarkPublished, Decode, Replayed, WellFormed, Distinct;
      ghost var before, sent := journal.table, bus.published;
      NothingReplayed(before, sent, PendingIds(before), uuids);
      var pending, rows := PendingIds(journal.table), journal.table.entries;
      count := 0;
      while count < |pending|
        invariant 0 <= count <= |pending|
        invariant failAt.Some? && failAt.value < |pending| ==> count <= failAt.value
        invariant (journal.table, bus.published) == Replayed(before, sent, pending, count, uuids)
      {
        if failAt == Some(count) {
          if inMark {
            bus.Publish(Decode(rows[pending[count]].payload, uuids(count)), true);
          }
          return;
        }
        bus.Publish(Decode(rows[pending[count]].payload, uuids(count)), true);
        journal.Mark(pending[count]);
        OneMoreReplayed(before, sent, pending, count, uuids);
        count := count + 1;
      }
    }
  }

  /** The table and the bus after the first `n` rows of `ids` have been republished and marked. */
  function Replayed(t: Table<Envelope>, sent: seq<BusEvent>, ids: seq<string>, n: nat, uuids: nat -> string)
    : (Table<Envelope>, seq<BusEvent>)
    requires n <= |ids| && forall i :: 0 <= i < |ids| ==> Has(t, ids[i])
  {
    if n == 0 then (t, sent)
    else
      var (t1, sent1) := Replayed(t, sent, ids, n - 1, uuids);
      (MarkPublished(t1, ids[n - 1]), sent1 + [Decode(t.entries[ids[n - 1]].payload, uuids(n - 1))])
  }

  lemma NothingReplayed(t: Table<Envelope>, sent: seq<BusEvent>, ids: seq<string>, uuids: nat -> string)
    requires forall i :: 0 <= i < |ids| ==> Has(t, ids[i])
    ensures Replayed(t, sent, ids, 0, uuids) == (t, sent)
  {
  }

  lemma OneMoreReplayed(t: Table<Envelope>, sent: seq<BusEvent>, ids: seq<string>, n: nat, uuids: nat -> string)
    requires n < |ids| && forall i :: 0 <= i < |ids| ==> Has(t, ids[i])
    ensures var (t1, sent1) := Replayed(t, sent, ids, n, uuids);
            Replayed(t, sent, ids, n + 1, uuids)
            == (MarkPublished(t1, ids[n]), sent1 + [Decode(t.entries[ids[n]].payload, uuids(n))])
  {
  }

  function ApplyStep(es: EngineState, t: TradeState, ev: BrokerEvent, stamp: Stamp, faults: Faults)
    : (EngineState, TradeState, ApplyResult)
  {
    var key := ev.Key();
    if key in es.seen || Has(es.table, key) then (es, t, Duplicate)
    else match Transition(t, ev)
      case Err(why) => (es, t, Refused(why))
      case Ok(t') =>
        var event := EventFor(t, t', ev, stamp);
        var noted := es.(seen := es.seen + {key});
        var journaled := noted.(table := Put(es.table, key, Row(t.id, Text(t'.status), Encode(event), false)));
        if !faults.recordOk then (noted, t', Failed(Recording))
        else if !faults.persistOk then (journaled, t', Failed(Persisting))
        else if !faults.publishOk then (journaled, t', Failed(Publishing))
        else if !faults.markOk then (journaled.(published := es.published + [event]), t', Failed(Marking))
        else (journaled.(table := MarkPublished(journaled.table, key), published := es.published + [event]), t',
              if faults.afterOk then Applied else Failed(AfterPublishing))
  }

  /** What one call tells the journal and the bus, whichever of its steps raises. */
  lemma ApplyTells(es: EngineState, t: TradeState, ev: BrokerEvent, stamp: Stamp, faults: Faults)
    ensures var (es', t', r) := ApplyStep(es, t, ev, stamp, faults);
            var id := if ev.eventId == "" then ev.derived else ev.eventId;
            var payload := StatusPayload(t.id, t.externalOrderId, t.status, ev.status,
                                         t'.filledQuantity, t'.filledPrice, id);
            var envelope := Envelope("execution.order_status", payload, t.id, ev.traceId, t.marketId, "",
                                     stamp.now, stamp.now);
            var sent := BusEvent(stamp.uuid, "execution.order_status", payload, stamp.now, t.id, ev.traceId,
                                 t.marketId, "", stamp.now);
            var accepted := id !in es.seen && !Has(es.table, id) && Acceptable(t, ev);
            var delivered := faults.recordOk && faults.persistOk && faults.publishOk;
            && (r == Duplicate <==> id in es.seen || Has(es.table, id))
            && (accepted <==> r.Applied? || r.Failed?)
            && (if accepted then Moved(t, ev, t') else t' == t && es' == es)
            && (accepted ==> es'.seen == es.seen + {id})
            && es'.published == (if accepted && delivered then es.published + [sent] else es.published)
            && (accepted && faults.recordOk ==>
                  Get(es'.table, id) == Some(Row(t.id, Text(ev.status), envelope, delivered && faults.markOk)))
            && (!(accepted && faults.recordOk) ==> es'.table == es.table)
            && (forall k :: k != id ==> Get(es'.table, k) == Get(es.table, k))
            && (r == Applied <==> accepted && delivered && faults.markOk && faults.afterOk)
            && (accepted ==> (r == Failed(Recording) <==> !faults.recordOk))
  {
    hide WellFormed, Distinct, Acceptable, Moved, Transition;
    TransitionIff(t, ev);
  }

  // ------------------------------------------------------------- the lifecycle

  datatype LifecycleOp = Submission(externalOrderId: string) | Callback(ev: BrokerEvent)

  /** One call on a trade: a refused one leaves it as it was. */
  function LifecycleStep(t: TradeState, op: LifecycleOp): TradeState {
    match op
    case Submission(ext) => (match WithSubmission(t, ext) case Some(t') => t' case None => t)
    case Callback(ev) => (match Transition(t, ev) case Ok(t') => t' case Err(_) => t)
  }

  function Lifecycle(t: TradeState, ops: seq<LifecycleOp>): TradeState {
    if ops == [] then t else LifecycleStep(Lifecycle(t, ops[..|ops| - 1]), ops[|ops| - 1])
  }

  function StatusChanges(t: TradeState, ops: seq<LifecycleOp>): nat {
    if ops == [] then 0
    else
      var init := ops[..|ops| - 1];
      StatusChanges(t, init) + if Lifecycle(t, ops).status != Lifecycle(t, init).status then 1 else 0
  }

  predicate FillInBounds(t: TradeState) {
    && 0.0 <= t.filledQuantity
    && (t.filledQuantity == 0.0 || t.filledQuantity <= t.quantity)
    && (t.status == Filled ==> 0.0 < t.filledQuantity <= t.quantity && 0.0 < t.filledPrice)
  }

  lemma LifecycleStepLegal(t: TradeState, op: LifecycleOp)
    requires FillInBounds(t)
    ensures var t' := LifecycleStep(t, op);
            && FillInBounds(t') && t'.quantity == t.quantity
            && (t'.status == t.status || t'.status in Successors(t.status))
            && (t.status !in OPEN_TRADE_STATUSES ==> t' == t)
  {
  }

  /** Every run of submissions and broker events follows the transition table, and can change
      the status at most as often as the rank of its start allows: four times for a new trade.
      The fill stays within the order, and a trade that ends FILLED has a positive fill. */
  lemma {:induction false} LifecycleIsRanked(t: TradeState, ops: seq<LifecycleOp>)
    requires FillInBounds(t)
    ensures StatusChanges(t, ops) + Rank(Lifecycle(t, ops).status) <= Rank(t.status) <= 4
    ensures FillInBounds(Lifecycle(t, ops)) && Lifecycle(t, ops).quantity == t.quantity
  {
    if ops != [] {
      var init := ops[..|ops| - 1];
      LifecycleIsRanked(t, init);
      LifecycleStepLegal(Lifecycle(t, init), ops[|ops| - 1]);
      TransitionsLowerRank(Lifecycle(t, init).status);
    }
  }

  /** A closed trade never changes again. */
  lemma {:induction false} ClosedForGood(t: TradeState, ops: seq<LifecycleOp>)
    requires FillInBounds(t) && t.status !in OPEN_TRADE_STATUSES
    ensures Lifecycle(t, ops) == t
  {
    if ops != [] {
      ClosedForGood(t, ops[..|ops| - 1]);
      LifecycleStepLegal(t, ops[|ops| - 1]);
    }
  }

  /** An accepted partial fill records the quantity and price that were validated exactly when
      the event carries them: an omitted one is validated as the order's and recorded as zero. */
  lemma PartialFillRecordsWhatItValidated(t: TradeState, ev: BrokerEvent)
    requires ev.status == PartiallyFilled && Transition(t, ev).Ok?
    ensures var t' := Transition(t, ev).value;
            && (t'.filledQuantity == OrElse(ev.quantity, t.quantity) <==> ev.quantity.Some?)
            && (t'.filledPrice == OrElse(ev.price, t.price) <==> ev.price.Some?)
  {
    assert ValidFill(t, ev);
  }

  /** An input where it does not: the whole order is validated, and nothing is recorded. */
  lemma OmittedFillIsRecordedAsZero(t: TradeState, ev: BrokerEvent)
    requires t.status == Submitted && t.quantity > 0.0 && t.price > 0.0
    requires ev.status == PartiallyFilled && ev.quantity == None && ev.price == None
    ensures ValidFill(t, ev)
    ensures Transition(t, ev) == Ok(t.(status := PartiallyFilled, filledQuantity := 0.0, filledPrice := 0.0))
  {
  }

  /** A complete fill always records what was validated. */
  lemma FullFillRecordsWhatItValidated(t: TradeState, ev: BrokerEvent)
    requires ev.status == Filled && Transition(t, ev).Ok?
    ensures var t' := Transition(t, ev).value;
            t'.filledQuantity == OrElse(ev.quantity, t.quantity) && t'.filledPrice == OrElse(ev.price, t.price)
  {
    assert ValidFill(t, ev);
  }

  // ------------------------------------------------- when restarts are invisible

  datatype EngineOp = Deliver(tradeId: string, ev: BrokerEvent, stamp: Stamp, faults: Faults) | Rebuild

  /** An engine, the trades it is handed, and the history of what it returned, of the keys it
      accepted, and of those whose journal insert raised. */
  datatype Desk = Desk(es: EngineState, trades: map<string, TradeState>, results: seq<ApplyResult>,
                       accepted: seq<string>, lost: seq<string>)

  predicate Accepts(r: ApplyResult) {
    r.Applied? || r.Failed?
  }

  /** What a call on a desk returns; `None` for a rebuild, or a trade the desk does not have. */
  function ResultOf(d: Desk, op: EngineOp): Option<ApplyResult> {
    if op.Deliver? && op.tradeId in d.trades
    then Some(ApplyStep(d.es, d.trades[op.tradeId], op.ev, op.stamp, op.faults).2) else None
  }

  function DeskStep(d: Desk, op: EngineOp): Desk {
    match op
    case Rebuild => d.(es := d.es.(seen := d.es.table.entries.Keys))
    case Deliver(id, ev, stamp, faults) =>
      if id !in d.trades then d
      else
        var (es, t, r) := ApplyStep(d.es, d.trades[id], ev, stamp, faults);
        Desk(es, d.trades[id := t], d.results + [r],
             if Accepts(r) then d.accepted + [ev.Key()] else d.accepted,
             if r == Failed(Recording) then d.lost + [ev.Key()] else d.lost)
  }

  function DeskRun(d: Desk, ops: seq<EngineOp>): Desk {
    if ops == [] then d else DeskStep(DeskRun(d, ops[..|ops| - 1]), ops[|ops| - 1])
  }

  /** What one delivery does to the keys. */
  lemma Delivered(e: Desk, op: EngineOp)
    requires op.Deliver? && op.tradeId in e.trades
    ensures ResultOf(e, op).Some?
    ensures var e', r, key := DeskStep(e, op), ResultOf(e, op).value, op.ev.Key();
            && (Accepts(r) ==> key !in e.es.seen && !Has(e.es.table, key))
            && e'.es.seen == e.es.seen + (if Accepts(r) then {key} else {})
            && e'.es.table.entries.Keys
               == e.es.table.entries.Keys + (if Accepts(r) && r != Failed(Recording) then {key} else {})
            && e'.accepted == (if Accepts(r) then e.accepted + [key] else e.accepted)
            && e'.lost == (if r == Failed(Recording) then e.lost + [key] else e.lost)
            && e'.results == e.results + [r]
            && (e'.es.published == e.es.published
                || exists event :: e'.es.published == e.es.published + [event] && event.payload.eventId == key
                                   && Accepts(r) && r != Failed(Recording))
  {
    hide WellFormed, Distinct;
  }

  /** An engine just built from its journal. */
  ghost predicate Fresh(d: Desk) {
    d.es.seen == d.es.table.entries.Keys
  }

  /** The keys whose insert raised since the engine was last built. */
  function Lost(d: Desk, ops: seq<EngineOp>): set<string> {
    if ops == [] then {}
    else
      var init, last := ops[..|ops| - 1], ops[|ops| - 1];
      if last.Rebuild? then {}
      else if ResultOf(DeskRun(d, init), last) == Some(Failed(Recording)) then Lost(d, init) + {last.ev.Key()}
      else Lost(d, init)
  }

  lemma NoResult(e: Desk, op: EngineOp)
    requires op.Rebuild? || op.tradeId !in e.trades
    ensures ResultOf(e, op) == None
  {
  }

  /** Between calls the seen set is the journaled ids and, apart from them, the lost ones. */
  lemma {:induction false} SeenIsJournaledOrLost(d: Desk, ops: seq<EngineOp>)
    requires Fresh(d)
    ensures var es := DeskRun(d, ops).es;
            es.seen == es.table.entries.Keys + Lost(d, ops) && es.table.entries.Keys !! Lost(d, ops)
  {
    hide ApplyStep, ResultOf;
    if ops != [] {
      var e, last := DeskRun(d, ops[..|ops| - 1]), ops[|ops| - 1];
      SeenIsJournaledOrLost(d, ops[..|ops| - 1]);
      if last.Deliver? && last.tradeId in e.trades {
        hide DeskStep;
        Delivered(e, last);
      } else {
        assert ResultOf(e, last) == None by { NoResult(e, last); }
      }
    }
  }

  /** A restart changes the answer to the next delivery exactly when that event is a lost one. */
  lemma RedeliveryTells(d: Desk, ops: seq<EngineOp>, next: EngineOp)
    requires Fresh(d) && next.Deliver? && next.tradeId in DeskRun(d, ops).trades
    ensures var e := DeskRun(d, ops);
            ResultOf(DeskStep(e, Rebuild), next) == ResultOf(e, next) <==> next.ev.Key() !in Lost(d, ops)
  {
    SeenIsJournaledOrLost(d, ops);
  }

  function Deliveries(ops: seq<EngineOp>): seq<EngineOp> {
    if ops == [] then []
    else
      var kept := Deliveries(ops[..|ops| - 1]);
      if ops[|ops| - 1].Deliver? then kept + [ops[|ops| - 1]] else kept
  }

  /** Every rebuild falls where nothing is lost. */
  ghost predicate LosesNothing(d: Desk, ops: seq<EngineOp>) {
    forall i :: 0 <= i < |ops| && ops[i].Rebuild? ==> Lost(d, ops[..i]) == {}
  }

  lemma LosesNothingSnoc(d: Desk, ops: seq<EngineOp>)
    requires ops != []
    ensures var init, last := ops[..|ops| - 1], ops[|ops| - 1];
            LosesNothing(d, ops) <==> LosesNothing(d, init) && (last.Rebuild? ==> Lost(d, init) == {})
  {
    var init := ops[..|ops| - 1];
    assert forall i :: 0 <= i < |init| ==> init[..i] == ops[..i] && init[i] == ops[i];
  }

  lemma DuplicateIff(e: Desk, op: EngineOp)
    requires op.Deliver? && op.tradeId in e.trades
    ensures ResultOf(e, op) == Some(Duplicate) <==> op.ev.Key() in e.es.seen || Has(e.es.table, op.ev.Key())
  {
  }

  lemma KeepsTrades(e: Desk, op: EngineOp)
    ensures DeskStep(e, op).trades.Keys == e.trades.Keys
  {
  }

  /** The keys lost when a rebuild came, which the rebuilt engine has forgotten. */
  function Forgotten(d: Desk, ops: seq<EngineOp>): set<string> {
    if ops == [] then {}
    else
      var init := ops[..|ops| - 1];
      if ops[|ops| - 1].Rebuild? then Forgotten(d, init) + Lost(d, init) else Forgotten(d, init)
  }

  /** Some forgotten event is delivered again. */
  predicate Redelivers(d: Desk, ops: seq<EngineOp>) {
    ops != []
    && var init, last := ops[..|ops| - 1], ops[|ops| - 1];
       Redelivers(d, init)
       || (last.Deliver? && last.tradeId in DeskRun(d, init).trades && last.ev.Key() in Forgotten(d, init))
  }

  /** Results, trades, journal, published events and history are the same. */
  predicate LookAlike(x: Desk, y: Desk) {
    x == y.(es := y.es.(seen := x.es.seen))
  }

  /** A delivery to two desks that look alike, of an event they agree to have seen or not. */
  lemma DeliverAlike(x: Desk, y: Desk, op: EngineOp, forgotten: set<string>)
    requires LookAlike(x, y) && y.es.seen == x.es.seen + forgotten && x.es.seen !! forgotten
    requires op.Deliver? && (op.tradeId in x.trades ==> op.ev.Key() !in forgotten)
    ensures var x', y' := DeskStep(x, op), DeskStep(y, op);
            LookAlike(x', y') && y'.es.seen == x'.es.seen + forgotten && x'.es.seen !! forgotten
  {
    hide Transition, WellFormed, Distinct;
  }

  /** Rebuilding the engine from the journal, at any boundaries between calls, changes no result,
      trade, journal row or published event if and only if no event is delivered again whose
      insert had raised before a rebuild. If one is, a result already differs; if none is, the seen
      sets differ by exactly the forgotten keys. */
  lemma {:induction false} RestartsAreInvisible(d: Desk, ops: seq<EngineOp>)
    requires Fresh(d)
    ensures var x, y := DeskRun(d, ops), DeskRun(d, Deliveries(ops));
            && (LookAlike(x, y) <==> !Redelivers(d, ops))
            && (Redelivers(d, ops) ==> x.results != y.results)
            && (!Redelivers(d, ops) ==> y.es.seen == x.es.seen + Forgotten(d, ops) && x.es.seen !! Forgotten(d, ops))
            && |x.results| == |y.results| && x.trades.Keys == y.trades.Keys
  {
    if ops != [] {
      var init, last := ops[..|ops| - 1], ops[|ops| - 1];
      var kept := Deliveries(init);
      var x, y := DeskRun(d, init), DeskRun(d, kept);
      RestartsAreInvisible(d, init);
      assert (kept + [last])[..|kept|] == kept;
      if last.Rebuild? {
        SeenIsJournaledOrLost(d, init);
        KeepsTrades(x, last);
      } else {
        KeepsTrades(x, last);
        KeepsTrades(y, last);
        ResultsGrow(x, y, last);
        if Redelivers(d, init) {
        } else if Redelivers(d, ops) {
          DuplicateIff(x, last);
          DuplicateIff(y, last);
          SeenHasJournaled(d, init);
        } else {
          DeliverAlike(x, y, last, Forgotten(d, init));
        }
        hide DeskStep, ResultOf, ApplyStep, Lost;
      }
    }
  }

  /** One more result each: they stay as long, and stay different if they were. */
  lemma ResultsGrow(x: Desk, y: Desk, op: EngineOp)
    requires |x.results| == |y.results| && x.trades.Keys == y.trades.Keys && op.Deliver?
    ensures var x', y' := DeskStep(x, op), DeskStep(y, op);
            && |x'.results| == |y'.results|
            && (x.results != y.results || ResultOf(x, op) != ResultOf(y, op) ==> x'.results != y'.results)
  {
    if op.tradeId in x.trades {
      Delivered(x, op);
      Delivered(y, op);
      hide DeskStep, ResultOf, ApplyStep;
      var x', y' := DeskStep(x, op), DeskStep(y, op);
      assert x'.results[..|x.results|] == x.results && y'.results[..|y.results|] == y.results;
      assert x'.results[|x.results|] == ResultOf(x, op).value && y'.results[|y.results|] == ResultOf(y, op).value;
    }
  }

  lemma SeenHasJournaled(d: Desk, ops: seq<EngineOp>)
    requires Fresh(d)
    ensures forall k :: Has(DeskRun(d, ops).es.table, k) ==> k in DeskRun(d, ops).es.seen
  {
    SeenIsJournaledOrLost(d, ops);
  }

  lemma {:induction false} NothingForgotten(d: Desk, ops: seq<EngineOp>)
    ensures Forgotten(d, ops) == {} <==> LosesNothing(d, ops)
    ensures Forgotten(d, ops) == {} ==> !Redelivers(d, ops)
  {
    if ops != [] {
      NothingForgotten(d, ops[..|ops| - 1]);
      LosesNothingSnoc(d, ops);
      hide LosesNothing, Lost, DeskRun;
    }
  }

  /** The whole state, seen set included, is the same if and only if nothing is lost when a rebuild
      comes. */
  lemma RestartsForgetNothing(d: Desk, ops: seq<EngineOp>)
    requires Fresh(d)
    ensures DeskRun(d, ops) == DeskRun(d, Deliveries(ops)) <==> LosesNothing(d, ops)
  {
    RestartsAreInvisible(d, ops);
    NothingForgotten(d, ops);
    hide DeskRun, LosesNothing, Forgotten, Redelivers;
  }

  lemma DeskRunSnoc(d: Desk, ops: seq<EngineOp>, op: EngineOp)
    ensures DeskRun(d, ops + [op]) == DeskStep(DeskRun(d, ops), op)
    ensures DeskRun(d, []) == d
  {
    assert (ops + [op])[..|ops|] == ops;
  }

  /** A desk with one trade and nothing journaled yet. */
  function NewDesk(t: TradeState): Desk {
    Desk(EngineState({}, Empty(), []), map[t.id := t], [], [], [])
  }

  lemma InsertRaises(t: TradeState, ev: BrokerEvent, stamp: Stamp)
    requires t.status == Submitted && ev.status == Acknowledged
    ensures DeskStep(NewDesk(t), Deliver(t.id, ev, stamp, Faults(false, true, true, true, true)))
            == Desk(EngineState({ev.Key()}, Empty(), []), map[t.id := t.(status := Acknowledged)], [Failed(Recording)],
                    [ev.Key()], [ev.Key()])
  {
  }

  /** A run that shows it: the insert of an acknowledgement raises and the broker delivers it
      again. Without a restart it is called a duplicate, though it was never journaled; after one
      it is dispatched again, and refused. */
  lemma LostInsertShows(t: TradeState, ev: BrokerEvent, stamp: Stamp)
    requires t.status == Submitted && ev.status == Acknowledged
    ensures var fails := Deliver(t.id, ev, stamp, Faults(false, true, true, true, true));
            var again := Deliver(t.id, ev, stamp, Faults(true, true, true, true, true));
            var x, y := DeskRun(NewDesk(t), [fails] + [Rebuild] + [again]), DeskRun(NewDesk(t), [fails] + [again]);
            && y.results == [Failed(Recording), Duplicate]
            && x.results == [Failed(Recording), Refused(InvalidTransition)]
            && x.es.table == y.es.table == Empty()
  {
    hide WellFormed, Distinct;
    var d := NewDesk(t);
    var fails := Deliver(t.id, ev, stamp, Faults(false, true, true, true, true));
    var again := Deliver(t.id, ev, stamp, Faults(true, true, true, true, true));
    hide DeskRun, NewDesk;
    InsertRaises(t, ev, stamp);
    DeskRunSnoc(d, [], fails);
    assert [] + [fails] == [fails];
    DeskRunSnoc(d, [fails], again);
    DeskRunSnoc(d, [fails], Rebuild);
    DeskRunSnoc(d, [fails] + [Rebuild], again);
  }

  function Once(yes: bool): nat {
    if yes then 1 else 0
  }

  /** Conservation over any deliveries and rebuilds: a key is accepted once for its journal row,
      and once more for each time its insert raised. So without a raising insert it is accepted at
      most once, and an accepted key is in the journal. */
  lemma {:induction false} AcceptedAtMostOnce(d: Desk, ops: seq<EngineOp>, key: string)
    requires Fresh(d) && d.accepted == [] && d.lost == []
    ensures var d' := DeskRun(d, ops);
            Count(d'.accepted, key) + Once(Has(d.es.table, key)) == Once(Has(d'.es.table, key)) + Count(d'.lost, key)
  {
    if ops != [] {
      var e, last := DeskRun(d, ops[..|ops| - 1]), ops[|ops| - 1];
      AcceptedAtMostOnce(d, ops[..|ops| - 1], key);
      if last.Deliver? && last.tradeId in e.trades {
        hide DeskStep, ApplyStep, ResultOf, Count;
        Delivered(e, last);
        CountSnoc(e.accepted, last.ev.Key(), key);
        CountSnoc(e.lost, last.ev.Key(), key);
      }
    }
  }

  ghost predicate OnlyJournaled(es: EngineState) {
    forall event :: event in es.published ==>
      Has(es.table, event.payload.eventId) && es.table.entries[event.payload.eventId].payload == Encode(event)
  }

  /** The bus carries only journaled events, each as its row has it, so a lost event is never
      published. */
  lemma {:induction false} PublishedIsJournaled(d: Desk, ops: seq<EngineOp>)
    requires OnlyJournaled(d.es)
    ensures OnlyJournaled(DeskRun(d, ops).es)
  {
    if ops != [] {
      var e, last := DeskRun(d, ops[..|ops| - 1]), ops[|ops| - 1];
      PublishedIsJournaled(d, ops[..|ops| - 1]);
      if last.Deliver? && last.tradeId in e.trades {
        hide ApplyStep, WellFormed, Distinct, Moved, Acceptable;
        ApplyTells(e.es, e.trades[last.tradeId], last.ev, last.stamp, last.faults);
        var es := DeskStep(e, last).es;
        forall event | event in es.published
          ensures Has(es.table, event.payload.eventId) && es.table.entries[event.payload.eventId].payload == Encode(event)
        {
          if event in e.es.published {
            assert Get(es.table, event.payload.eventId) == Get(e.es.table, event.payload.eventId);
          }
        }
      }
    }
  }

  /** Operation number `i` of the run delivered the event of this row to its trade: the row says what
      the trade was, what the event asked for, and the fill the trade had then. */
  ghost predicate Explains(d: Desk, ops: seq<EngineOp>, i: nat, key: string, row: Row<Envelope>)
    requires i < |ops|
  {
    var e, e' := DeskRun(d, ops[..i]), DeskRun(d, ops[..i + 1]);
    && ops[i].Deliver? && ops[i].tradeId in e.trades && ops[i].tradeId in e'.trades
    && var ev, t, t' := ops[i].ev, e.trades[ops[i].tradeId], e'.trades[ops[i].tradeId];
       && Acceptable(t, ev) && Moved(t, ev, t')
       && key == (if ev.eventId == "" then ev.derived else ev.eventId)
       && row.tradeId == t.id && row.status == Text(ev.status)
       && row.payload.payload == StatusPayload(t.id, t.externalOrderId, t.status, ev.status,
                                               t'.filledQuantity, t'.filledPrice, key)
  }

  lemma ExplainsGrows(d: Desk, ops: seq<EngineOp>, op: EngineOp, i: nat, key: string, row: Row<Envelope>,
                      row': Row<Envelope>)
    requires i < |ops| && Explains(d, ops, i, key, row) && row' == row.(published := row'.published)
    ensures Explains(d, ops + [op], i, key, row')
  {
    hide DeskRun, Acceptable, Moved;
    var more := ops + [op];
    assert more[..i] == ops[..i] && more[..i + 1] == ops[..i + 1] && more[i] == ops[i];
  }

  lemma DeliveryExplains(d: Desk, ops: seq<EngineOp>, op: EngineOp)
    requires op.Deliver? && op.tradeId in DeskRun(d, ops).trades
    requires ResultOf(DeskRun(d, ops), op).Some? && Accepts(ResultOf(DeskRun(d, ops), op).value) && op.faults.recordOk
    ensures var id, es := op.ev.Key(), DeskRun(d, ops + [op]).es;
            Has(es.table, id) && Explains(d, ops + [op], |ops|, id, es.table.entries[id])
  {
    var more, e := ops + [op], DeskRun(d, ops);
    assert more[..|ops|] == ops && more[..|ops| + 1] == more && more[|ops|] == op;
    ApplyTells(e.es, e.trades[op.tradeId], op.ev, op.stamp, op.faults);
    hide ApplyStep, WellFormed, Distinct, Moved, Acceptable;
  }

  /** Every row that a run adds to the journal, whatever raised or was rebuilt meanwhile, is that of an
      event some call followed. */
  lemma {:induction false} JournalTells(d: Desk, ops: seq<EngineOp>, key: string)
    requires !Has(d.es.table, key) && Has(DeskRun(d, ops).es.table, key)
    ensures exists i :: 0 <= i < |ops| && Explains(d, ops, i, key, DeskRun(d, ops).es.table.entries[key])
  {
    var init, last := ops[..|ops| - 1], ops[|ops| - 1];
    assert ops == init + [last];
    var e, e' := DeskRun(d, init), DeskRun(d, ops);
    RowsStay(e, last, key);
    if Has(e.es.table, key) {
      JournalTells(d, init, key);
      hide Explains, DeskRun;
      var i :| 0 <= i < |init| && Explains(d, init, i, key, e.es.table.entries[key]);
      ExplainsGrows(d, init, last, i, key, e.es.table.entries[key], e'.es.table.entries[key]);
    } else {
      hide Explains, DeskRun;
      DeliveryExplains(d, init, last);
    }
  }

  lemma RowsStay(e: Desk, op: EngineOp, key: string)
    ensures var e' := DeskStep(e, op);
            && (Has(e.es.table, key) ==> Get(e'.es.table, key) == Get(e.es.table, key))
            && (Has(e'.es.table, key) && !Has(e.es.table, key) ==>
                  && op.Deliver? && op.tradeId in e.trades && op.faults.recordOk && key == op.ev.Key()
                  && ResultOf(e, op).Some? && Accepts(ResultOf(e, op).value))
  {
    if op.Deliver? && op.tradeId in e.trades {
      ApplyTells(e.es, e.trades[op.tradeId], op.ev, op.stamp, op.faults);
    }
    hide ApplyStep, WellFormed, Distinct, Moved, Acceptable;
  }

  /** Once an event with an id is journaled, every later event with that id is a duplicate, whatever
      else it says, on whichever trade, and however often the engine is rebuilt. */
  lemma {:induction false} JournaledIdIsDuplicate(d: Desk, ops: seq<EngineOp>, op: EngineOp)
    requires op.Deliver? && op.ev.eventId != "" && Has(d.es.table, op.ev.eventId)
    requires op.tradeId in DeskRun(d, ops).trades
    ensures Has(DeskRun(d, ops).es.table, op.ev.eventId)
    ensures DeskRun(d, ops + [op]).results == DeskRun(d, ops).results + [Duplicate]
    ensures DeskRun(d, ops + [op]).es == DeskRun(d, ops).es && DeskRun(d, ops + [op]).trades == DeskRun(d, ops).trades
  {
    RowStays(d, ops, op.ev.eventId);
    var e := DeskRun(d, ops);
    ApplyTells(e.es, e.trades[op.tradeId], op.ev, op.stamp, op.faults);
    assert (ops + [op])[..|ops|] == ops;
    hide ApplyStep, WellFormed, Distinct, Moved, Acceptable;
    assert e.trades[op.tradeId := e.trades[op.tradeId]] == e.trades;
  }

  lemma {:induction false} RowStays(d: Desk, ops: seq<EngineOp>, key: string)
    requires Has(d.es.table, key)
    ensures Has(DeskRun(d, ops).es.table, key)
  {
    if ops != [] {
      RowStays(d, ops[..|ops| - 1], key);
      RowsStay(DeskRun(d, ops[..|ops| - 1]), ops[|ops| - 1], key);
    }
  }

  /** A call changes the seen set exactly when it accepts its event, and the journal exactly when
      it accepts it and the insert does not raise; a duplicate or refused event leaves the trade
      untouched as well. */
  lemma OnlyAcceptanceCommits(es: EngineState, t: TradeState, ev: BrokerEvent, stamp: Stamp, faults: Faults)
    ensures var (es', t', r) := ApplyStep(es, t, ev, stamp, faults);
            && (Accepts(r) <==> es'.seen != es.seen)
            && (Accepts(r) && r != Failed(Recording) <==> es'.table != es.table)
            && (!Accepts(r) ==> es' == es && t' == t)
            && (Accepts(r) ==> Ok(t') == Transition(t, ev) && !Has(es.table, ev.Key()))
            && (Has(es'.table, ev.Key()) <==> Has(es.table, ev.Key()) || (Accepts(r) && faults.recordOk))
  {
    var key := ev.Key();
    var (es', t', r) := ApplyStep(es, t, ev, stamp, faults);
    if Accepts(r) {
      assert key in es'.seen && key !in es.seen;
      assert Has(es'.table, key) <==> faults.recordOk;
    }
  }
}
