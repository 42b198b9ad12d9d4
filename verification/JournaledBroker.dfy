/** Write-ahead order submission: an intent row, the broker call, a confirmed row.
    `JournaledBroker` is the object; `World` is the same code under interleaving,
    one action per journal statement or broker call. */
module JournaledBroker {
  import opened Wrappers
  import opened OrderedDict
  import opened Sequences
  import opened Journal

  datatype Method = PlaceMarket | PlaceFlatten | PlaceLimit | PlaceStop | PlaceTrailingStop
  {
    function Name(): (s: string)
      ensures s != ""
    {
      match this
      case PlaceMarket => "place_market_order"
      case PlaceFlatten => "place_flatten_order"
      case PlaceLimit => "place_limit_order"
      case PlaceStop => "place_stop_order"
      case PlaceTrailingStop => "place_trailing_stop_order"
    }
  }

  /** The broker's method of that name. */
  function MethodNamed(name: string): Option<Method> {
    if name == "place_market_order" then Some(PlaceMarket)
    else if name == "place_flatten_order" then Some(PlaceFlatten)
    else if name == "place_limit_order" then Some(PlaceLimit)
    else if name == "place_stop_order" then Some(PlaceStop)
    else if name == "place_trailing_stop_order" then Some(PlaceTrailingStop)
    else None
  }

  /** What an intent row names is the method that was called. */
  lemma NameFindsMethod(m: Method)
    ensures MethodNamed(m.Name()) == Some(m)
  {
    match m
    case PlaceMarket =>
    case PlaceFlatten =>
      assert "place_flatten_order"[6] != "place_market_order"[6];
    case PlaceLimit =>
      assert "place_limit_order"[6] != "place_market_order"[6];
    case PlaceStop =>
      assert "place_stop_order"[6] != "place_market_order"[6];
    case PlaceTrailingStop =>
      assert "place_trailing_stop_order"[6] != "place_market_order"[6];
  }

  datatype Request = Request(kind: Method, marketId: string, side: string, quantity: real,
                             clientOrderId: Option<string>)

  /** What a broker may put in `order_id`: text, nothing, or an object with a text form. */
  datatype OrderId = TextId(text: string) | NoId | ObjectId(text: string)

  datatype FillResult = FillResult(filled: bool, fillQuantity: real, fillPrice: real,
                                   remaining: real, status: string, orderId: OrderId)

  datatype Payload =
    | IntentPayload(name: string, marketId: string, side: string, quantity: real, clientOrderId: string)
    | ConfirmedPayload(filled: bool, fillQuantity: real, fillPrice: real, remaining: real,
                       status: string, jsonOrderId: Option<string>)

  const INTENT := "intent"
  const CONFIRMED := "confirmed"
  const NEEDS_RECONCILE := "needs_reconcile"

  /** The idempotency key: the caller's id, unless absent or empty, else the call's own nonce. */
  function KeyOf(req: Request, nonce: string): string {
    if req.clientOrderId.Some? && req.clientOrderId.value != "" then req.clientOrderId.value else nonce
  }

  function IntentOf(req: Request): Payload {
    IntentPayload(req.kind.Name(), req.marketId, req.side, req.quantity,
                  if req.clientOrderId.Some? then req.clientOrderId.value else "")
  }

  /** The confirmed payload as JSON keeps it: text stays, an object becomes its text, nothing becomes null. */
  function ConfirmedOf(f: FillResult): Payload {
    ConfirmedPayload(f.filled, f.fillQuantity, f.fillPrice, f.remaining, f.status,
                     match f.orderId
                     case TextId(s) => Some(s)
                     case ObjectId(s) => Some(s)
                     case NoId => None)
  }

  /** `_to_result`: missing fields take their defaults, and `str(None)` is "None". */
  function ToResult(p: Payload): FillResult {
    match p
    case ConfirmedPayload(filled, q, price, rem, status, id) =>
      FillResult(filled, q, price, rem, status, TextId(if id.Some? then id.value else "None"))
    case IntentPayload(_, _, _, _, _) =>
      FillResult(false, 0.0, 0.0, 0.0, "rejected", TextId(""))
  }

  /** A broker fill with its order id as text. */
  function WithTextId(f: FillResult): FillResult {
    f.(orderId := TextId(match f.orderId
                         case TextId(s) => s
                         case ObjectId(s) => s
                         case NoId => "None"))
  }

  function NeedsReconcile(quantity: real): FillResult {
    FillResult(false, 0.0, 0.0, quantity, NEEDS_RECONCILE, TextId(""))
  }

  // ---------------------------------------------------------------- the object

  /** One invocation of the wrapped broker; `outcome` is `None` when it raised. */
  datatype Call = Call(key: string, req: Request, outcome: Option<FillResult>)

  class Broker {
    var calls: seq<Call>

    constructor ()
      ensures calls == []
    {
      calls := [];
    }

    method Place(key: string, req: Request, outcome: Option<FillResult>) returns (r: Option<FillResult>)
      modifies this
      ensures r == outcome && calls == old(calls) + [Call(key, req, outcome)]
    {
      calls := calls + [Call(key, req, outcome)];
      r := outcome;
    }
  }

  class JournaledBroker {
    const broker: Broker
    const journal: OrderEventJournal?<Payload>

    constructor (broker: Broker, journal: OrderEventJournal?<Payload>, disable: bool)
      ensures this.broker == broker && this.journal == if disable then null else journal
    {
      this.broker := broker;
      this.journal := if disable then null else journal;
    }

    /** `_submit`; the result is `None` exactly when the broker raised. */
    method Submit(req: Request, nonce: string, outcome: Option<FillResult>) returns (r: Option<FillResult>)
      modifies broker, journal
      ensures journal == null ==>
                r == outcome && broker.calls == old(broker.calls) + [Call(KeyOf(req, nonce), req, outcome)]
      ensures journal != null ==>
                (journal.table, broker.calls, r)
                == Submitted(old(journal.table), old(broker.calls), req, nonce, outcome)
    {
      var key := KeyOf(req, nonce);
      if journal == null {
        r := broker.Place(key, req, outcome);
        return;
      }
      var existing := Get(journal.table, key);
      if existing.Some? {
        if existing.value.status == CONFIRMED {
          return Some(ToResult(existing.value.payload));
        }
        return Some(NeedsReconcile(req.quantity));
      }
      var ok := journal.Record(key, key, INTENT, IntentOf(req));
      assert ok;
      r := broker.Place(key, req, outcome);
      if r.Some? {
        journal.UpdateRow(key, CONFIRMED, ConfirmedOf(r.value));
        journal.Mark(key);
      }
    }
  }

  /** The sequential effect of one submission on the table and the broker, and its result. */
  function Submitted(t: Table<Payload>, calls: seq<Call>, req: Request, nonce: string,
                     outcome: Option<FillResult>): (Table<Payload>, seq<Call>, Option<FillResult>)
  {
    var key := KeyOf(req, nonce);
    match Get(t, key)
    case Some(row) =>
      (t, calls, Some(if row.status == CONFIRMED then ToResult(row.payload) else NeedsReconcile(req.quantity)))
    case None =>
      var t1 := Put(t, key, Row(key, INTENT, IntentOf(req), false));
      var calls1 := calls + [Call(key, req, outcome)];
      if outcome.None? then (t1, calls1, None)
      else (MarkPublished(Update(t1, key, CONFIRMED, ConfirmedOf(outcome.value)), key), calls1, outcome)
  }

  // ------------------------------------------------ the same code, interleaved

  /** Where a submitting thread stands between two atomic statements. */
  datatype Phase =
    | Absent(key: string, req: Request)                       // `get` found no row
    | Recorded(key: string, req: Request)                     // intent committed
    | Returned(key: string, req: Request, fill: FillResult)   // the broker answered
    | Confirmed(key: string, fill: FillResult)                // confirmation committed

  datatype Answer =
    | Original(key: string, fill: FillResult)
    | Replay(key: string, fill: FillResult)
    | Unresolved(key: string, fill: FillResult)

  /** Only `table` is durable. `calls`, `inserted` and `answers` are the history of the run. */
  datatype World = World(table: Table<Payload>, threads: map<nat, Phase>,
                         calls: seq<Call>, inserted: seq<string>, answers: seq<Answer>)

  datatype Action =
    | Lookup(tid: nat, req: Request, nonce: string)
    | WriteIntent(tid: nat)
    | Invoke(tid: nat, outcome: Option<FillResult>)
    | WriteConfirmed(tid: nat)
    | Publish(tid: nat)
    | Die(tid: nat)          // one thread, or one process sharing the table, is lost
    | Restart                // every thread is lost; the table is reopened

  const START := World(Empty(), map[], [], [], [])

  predicate AtAbsent(w: World, t: nat) { t in w.threads && w.threads[t].Absent? }
  predicate AtRecorded(w: World, t: nat) { t in w.threads && w.threads[t].Recorded? }
  predicate AtReturned(w: World, t: nat) { t in w.threads && w.threads[t].Returned? }
  predicate AtConfirmed(w: World, t: nat) { t in w.threads && w.threads[t].Confirmed? }

  function LookupStep(w: World, tid: nat, req: Request, nonce: string): World {
    var key := KeyOf(req, nonce);
    if tid in w.threads then w
    else match Get(w.table, key)
      case None => w.(threads := w.threads[tid := Absent(key, req)])
      case Some(row) =>
        w.(answers := w.answers + [if row.status == CONFIRMED then Replay(key, ToResult(row.payload))
                                   else Unresolved(key, NeedsReconcile(req.quantity))])
  }

  function WriteIntentStep(w: World, tid: nat): World {
    if !AtAbsent(w, tid) then w
    else
      var th := w.threads[tid];
      match Insert(w.table, th.key, th.key, INTENT, IntentOf(th.req))
      case None => w.(threads := w.threads - {tid})   // integrity error propagates
      case Some(t) => w.(table := t, inserted := w.inserted + [th.key],
                         threads := w.threads[tid := Recorded(th.key, th.req)])
  }

  function InvokeStep(w: World, tid: nat, outcome: Option<FillResult>): World {
    if !AtRecorded(w, tid) then w
    else
      var th := w.threads[tid];
      w.(calls := w.calls + [Call(th.key, th.req, outcome)],
         threads := if outcome.None? then w.threads - {tid}
                    else w.threads[tid := Returned(th.key, th.req, outcome.value)])
  }

  function WriteConfirmedStep(w: World, tid: nat): World {
    if !AtReturned(w, tid) then w
    else
      var th := w.threads[tid];
      w.(table := Update(w.table, th.key, CONFIRMED, ConfirmedOf(th.fill)),
         threads := w.threads[tid := Confirmed(th.key, th.fill)])
  }

  function PublishStep(w: World, tid: nat): World {
    if !AtConfirmed(w, tid) then w
    else
      var th := w.threads[tid];
      w.(table := MarkPublished(w.table, th.key), answers := w.answers + [Original(th.key, th.fill)],
         threads := w.threads - {tid})
  }

  function Step(w: World, a: Action): World {
    match a
    case Lookup(tid, req, nonce) => LookupStep(w, tid, req, nonce)
    case WriteIntent(tid) => WriteIntentStep(w, tid)
    case Invoke(tid, outcome) => InvokeStep(w, tid, outcome)
    case WriteConfirmed(tid) => WriteConfirmedStep(w, tid)
    case Publish(tid) => PublishStep(w, tid)
    case Die(tid) => w.(threads := w.threads - {tid})
    case Restart => w.(threads := map[])
  }

  function Run(w: World, acts: seq<Action>): World {
    if acts == [] then w else Step(Run(w, acts[..|acts| - 1]), acts[|acts| - 1])
  }

  // ------------------------------------------------------------- the invariant

  predicate Owns(p: Phase) {
    !p.Absent?
  }

  ghost predicate Called(calls: seq<Call>, key: string) {
    exists c :: c in calls && c.key == key
  }

  ghost predicate Answered(calls: seq<Call>, key: string, f: FillResult) {
    exists c :: c in calls && c.key == key && c.outcome == Some(f)
  }

  ghost predicate CallsOnce(table: Table<Payload>, calls: seq<Call>) {
    && (forall i, j :: 0 <= i < j < |calls| ==> calls[i].key != calls[j].key)
    && (forall c :: c in calls ==> Has(table, c.key))
  }

  /** At most one thread is past the insert of a key. */
  ghost predicate OwnersAlone(threads: map<nat, Phase>) {
    forall t, u :: t in threads && u in threads && t != u && Owns(threads[t]) && Owns(threads[u])
                   ==> threads[t].key != threads[u].key
  }

  /** The row a thread owns is as the thread left it. */
  ghost predicate OwnerRow(table: Table<Payload>, calls: seq<Call>, p: Phase) {
    match p
    case Absent(_, _) => true
    case Recorded(key, _) => Has(table, key) && table.entries[key].status == INTENT && !Called(calls, key)
    case Returned(key, _, f) => Has(table, key) && table.entries[key].status == INTENT && Answered(calls, key, f)
    case Confirmed(key, f) => Has(table, key) && table.entries[key].status == CONFIRMED && Answered(calls, key, f)
  }

  ghost predicate Holds(row: Row<Payload>, calls: seq<Call>, key: string, f: FillResult) {
    row.payload == ConfirmedOf(f) && Answered(calls, key, f)
  }

  ghost predicate RowTold(row: Row<Payload>, calls: seq<Call>, key: string) {
    || (row.status == INTENT && !row.published && row.payload.IntentPayload? && row.payload.name != "")
    || (row.status == CONFIRMED && exists f :: Holds(row, calls, key, f))
  }

  ghost predicate AnswerTold(table: Table<Payload>, calls: seq<Call>, a: Answer) {
    match a
    case Original(key, f) => Answered(calls, key, f)
    case Replay(key, f) => exists g :: f == WithTextId(g) && Answered(calls, key, g)
    case Unresolved(key, f) =>
      Has(table, key) && !f.filled && f.fillQuantity == 0.0 && f.fillPrice == 0.0 && f.status == "needs_reconcile"
  }

  ghost predicate Inv(w: World) {
    && CallsOnce(w.table, w.calls)
    && OwnersAlone(w.threads)
    && (forall t :: t in w.threads ==> OwnerRow(w.table, w.calls, w.threads[t]))
    && (forall k :: Has(w.table, k) ==> RowTold(w.table.entries[k], w.calls, k))
    && (forall a :: a in w.answers ==> AnswerTold(w.table, w.calls, a))
    && w.table.order == w.inserted
  }

  /** Confirming a fill loses only the form of its order id. */
  lemma ReplayIsTextual(f: FillResult)
    ensures ToResult(ConfirmedOf(f)) == WithTextId(f) && SameFill(f, WithTextId(f))
  {
  }

  /** `g` is the fill `f` with its order id as text. */
  predicate SameFill(f: FillResult, g: FillResult) {
    && g.filled == f.filled && g.fillQuantity == f.fillQuantity && g.fillPrice == f.fillPrice
    && g.remaining == f.remaining && g.status == f.status
    && g.orderId == TextId(if f.orderId.NoId? then "None" else f.orderId.text)
  }

  lemma {:induction false} LookupKeeps(w: World, tid: nat, req: Request, nonce: string)
    requires Inv(w)
    ensures Inv(LookupStep(w, tid, req, nonce))
  {
    hide WellFormed, Distinct;
    var key := KeyOf(req, nonce);
    if tid !in w.threads && Has(w.table, key) {
      var row := w.table.entries[key];
      assert RowTold(row, w.calls, key);
      if row.status == CONFIRMED {
        var f :| Holds(row, w.calls, key, f);
        ReplayIsTextual(f);
        assert AnswerTold(w.table, w.calls, Replay(key, ToResult(row.payload)));
      }
    }
  }

  lemma {:induction false} WriteIntentKeeps(w: World, tid: nat)
    requires Inv(w)
    ensures Inv(WriteIntentStep(w, tid))
  {
    hide WellFormed, Distinct;
    if AtAbsent(w, tid) && !Has(w.table, w.threads[tid].key) {
      var w', key := WriteIntentStep(w, tid), w.threads[tid].key;
      forall t | t in w'.threads ensures OwnerRow(w'.table, w.calls, w'.threads[t]) {
        assert t != tid ==> OwnerRow(w.table, w.calls, w.threads[t]);
      }
      forall a | a in w'.answers ensures AnswerTold(w'.table, w.calls, a) {
        assert AnswerTold(w.table, w.calls, a);
      }
      assert OwnersAlone(w'.threads) by {
        forall t | t in w.threads && Owns(w.threads[t]) ensures w.threads[t].key != key {
          assert OwnerRow(w.table, w.calls, w.threads[t]);
        }
      }
    }
  }

  /** What has been called or answered stays so when the broker is called again. */
  lemma {:induction false} CallsGrow(calls: seq<Call>, c: Call)
    ensures forall k :: Called(calls + [c], k) <==> Called(calls, k) || k == c.key
    ensures forall k, f :: Answered(calls, k, f) ==> Answered(calls + [c], k, f)
    ensures c.outcome.Some? ==> Answered(calls + [c], c.key, c.outcome.value)
  {
    var more := calls + [c];
    assert c in more;
    forall k ensures Called(more, k) <==> Called(calls, k) || k == c.key {
      if Called(calls, k) {
        var d :| d in calls && d.key == k;
        assert d in more;
      }
    }
    forall k, f | Answered(calls, k, f) ensures Answered(more, k, f) {
      var d :| d in calls && d.key == k && d.outcome == Some(f);
      assert d in more;
    }
  }

  lemma CallsOnceGrows(t: Table<Payload>, calls: seq<Call>, c: Call)
    requires CallsOnce(t, calls) && !Called(calls, c.key) && Has(t, c.key)
    ensures CallsOnce(t, calls + [c])
  {
    forall i | 0 <= i < |calls| ensures calls[i].key != c.key {
      assert calls[i] in calls;
    }
  }

  lemma RowToldGrows(row: Row<Payload>, calls: seq<Call>, c: Call, key: string)
    requires RowTold(row, calls, key)
    ensures RowTold(row, calls + [c], key)
  {
    if row.status == CONFIRMED {
      var f :| Holds(row, calls, key, f);
      CallsGrow(calls, c);
      assert Holds(row, calls + [c], key, f);
    }
  }

  lemma AnswerToldGrows(t: Table<Payload>, calls: seq<Call>, c: Call, a: Answer)
    requires AnswerTold(t, calls, a)
    ensures AnswerTold(t, calls + [c], a)
  {
    CallsGrow(calls, c);
  }

  lemma OwnerRowGrows(t: Table<Payload>, calls: seq<Call>, c: Call, p: Phase)
    requires OwnerRow(t, calls, p) && (p.Recorded? ==> p.key != c.key)
    ensures OwnerRow(t, calls + [c], p)
  {
    CallsGrow(calls, c);
  }

  /** Another key's thread, and any answer, survive a change of one row. */
  lemma OthersSurvive(t: Table<Payload>, t': Table<Payload>, calls: seq<Call>, key: string)
    requires forall k :: k != key ==> Get(t', k) == Get(t, k)
    requires Has(t, key) ==> Has(t', key)
    ensures forall p: Phase :: p.key != key && OwnerRow(t, calls, p) ==> OwnerRow(t', calls, p)
    ensures forall a :: AnswerTold(t, calls, a) ==> AnswerTold(t', calls, a)
  {
    forall p: Phase | p.key != key && OwnerRow(t, calls, p) ensures OwnerRow(t', calls, p) {
      assert Get(t', p.key) == Get(t, p.key);
    }
    forall a | AnswerTold(t, calls, a) ensures AnswerTold(t', calls, a) {
      assert a.key != key ==> Get(t', a.key) == Get(t, a.key);
    }
  }

  /** Only one thread owns the row of a key. */
  lemma OwnsAlone(w: World, tid: nat)
    requires Inv(w) && tid in w.threads && Owns(w.threads[tid])
    ensures forall t :: t in w.threads && t != tid && Owns(w.threads[t]) ==> w.threads[t].key != w.threads[tid].key
    ensures OwnerRow(w.table, w.calls, w.threads[tid])
  {
  }

  lemma {:induction false} InvokeKeeps(w: World, tid: nat, outcome: Option<FillResult>)
    requires Inv(w)
    ensures Inv(InvokeStep(w, tid, outcome))
  {
    if AtRecorded(w, tid) {
      var w', th := InvokeStep(w, tid, outcome), w.threads[tid];
      var c := Call(th.key, th.req, outcome);
      OwnsAlone(w, tid);
      CallsOnceGrows(w.table, w.calls, c);
      if outcome.Some? { AnsweredOwner(w, th.key, th.req, outcome.value); }
      hide CallsOnce, RowTold, AnswerTold, OwnerRow, WellFormed, Distinct;
      forall t | t in w'.threads ensures OwnerRow(w.table, w'.calls, w'.threads[t]) {
        if t != tid {
          OwnerRowGrows(w.table, w.calls, c, w.threads[t]);
        }
      }
      forall k | Has(w.table, k) ensures RowTold(w.table.entries[k], w'.calls, k) {
        RowToldGrows(w.table.entries[k], w.calls, c, k);
      }
      forall a | a in w'.answers ensures AnswerTold(w.table, w'.calls, a) {
        AnswerToldGrows(w.table, w.calls, c, a);
      }
    }
  }

  lemma AnsweredOwner(w: World, key: string, req: Request, f: FillResult)
    requires OwnerRow(w.table, w.calls, Recorded(key, req))
    ensures OwnerRow(w.table, w.calls + [Call(key, req, Some(f))], Returned(key, req, f))
  {
    CallsGrow(w.calls, Call(key, req, Some(f)));
  }

  lemma {:induction false} WriteConfirmedKeeps(w: World, tid: nat)
    requires Inv(w)
    ensures Inv(WriteConfirmedStep(w, tid))
  {
    if AtReturned(w, tid) {
      var w', th := WriteConfirmedStep(w, tid), w.threads[tid];
      OwnsAlone(w, tid);
      assert Holds(w'.table.entries[th.key], w.calls, th.key, th.fill);
      assert OwnerRow(w'.table, w.calls, Confirmed(th.key, th.fill));
      assert RowTold(w'.table.entries[th.key], w.calls, th.key);
      OthersSurvive(w.table, w'.table, w.calls, th.key);
      AbsentFits(w'.table, w.calls);
      hide RowTold, AnswerTold, OwnerRow, WellFormed, Distinct;
    }
  }

  lemma AbsentFits(t: Table<Payload>, calls: seq<Call>)
    ensures forall p: Phase :: !Owns(p) ==> OwnerRow(t, calls, p)
  {
  }

  lemma {:induction false} PublishKeeps(w: World, tid: nat)
    requires Inv(w)
    ensures Inv(PublishStep(w, tid))
  {
    if AtConfirmed(w, tid) {
      var w', th := PublishStep(w, tid), w.threads[tid];
      OwnsAlone(w, tid);
      var row := w.table.entries[th.key];
      assert RowTold(row, w.calls, th.key);
      var f :| Holds(row, w.calls, th.key, f);
      assert Holds(row.(published := true), w.calls, th.key, f);
      assert RowTold(w'.table.entries[th.key], w.calls, th.key);
      assert AnswerTold(w'.table, w.calls, Original(th.key, th.fill));
      OthersSurvive(w.table, w'.table, w.calls, th.key);
      AbsentFits(w'.table, w.calls);
      hide RowTold, AnswerTold, OwnerRow, WellFormed, Distinct;
    }
  }

  lemma LosingThreadsKeeps(w: World, w': World)
    requires Inv(w) && w' == w.(threads := w'.threads)
    requires forall t :: t in w'.threads ==> t in w.threads && w'.threads[t] == w.threads[t]
    ensures Inv(w')
  {
  }

  lemma {:induction false} StepKeeps(w: World, a: Action)
    requires Inv(w)
    ensures Inv(Step(w, a))
  {
    hide Inv;
    match a
    case Lookup(tid, req, nonce) => LookupKeeps(w, tid, req, nonce);
    case WriteIntent(tid) => WriteIntentKeeps(w, tid);
    case Invoke(tid, outcome) => InvokeKeeps(w, tid, outcome);
    case WriteConfirmed(tid) => WriteConfirmedKeeps(w, tid);
    case Publish(tid) => PublishKeeps(w, tid);
    case Die(_) => LosingThreadsKeeps(w, Step(w, a));
    case Restart => LosingThreadsKeeps(w, Step(w, a));
  }

  lemma {:induction false} RunKeeps(acts: seq<Action>)
    ensures Inv(Run(START, acts))
  {
    if acts != [] {
      RunKeeps(acts[..|acts| - 1]);
      StepKeeps(Run(START, acts[..|acts| - 1]), acts[|acts| - 1]);
      hide Step, Inv;
    }
  }

  // ------------------------------------------------------------ what runs keep

  function CallKeys(w: World): seq<string> {
    Map(w.calls, (c: Call) => c.key)
  }

  predicate IsConfirmed(t: Table<Payload>, key: string) {
    Has(t, key) && t.entries[key].status == CONFIRMED
  }

  predicate IsIntent(t: Table<Payload>, key: string) {
    Has(t, key) && t.entries[key].status == INTENT
  }

  predicate NamesMethod(t: Table<Payload>, key: string) {
    Has(t, key) && t.entries[key].payload.IntentPayload? && t.entries[key].payload.name != ""
  }

  /** `pending()`: the unpublished rows whose payload names a method, in insertion order. */
  function Pending(t: Table<Payload>): seq<string> {
    Filter(PendingIds(t), id => NamesMethod(t, id))
  }

  lemma {:induction false} CalledIsCounted(calls: seq<Call>, key: string)
    ensures Called(calls, key) <==> key in Map(calls, (c: Call) => c.key)
  {
    var keys := Map(calls, (c: Call) => c.key);
    if Called(calls, key) {
      var c :| c in calls && c.key == key;
      var i :| 0 <= i < |calls| && calls[i] == c;
      assert keys[i] == key;
    }
  }

  /** In every interleaving, with threads dying, processes restarting and the broker
      raising anywhere, the broker is invoked at most once per key, and exactly once
      for a key whose row is confirmed. */
  lemma {:induction false} AtMostOnce(acts: seq<Action>, key: string)
    ensures var w := Run(START, acts);
            && Count(CallKeys(w), key) <= 1
            && (IsConfirmed(w.table, key) ==> Count(CallKeys(w), key) == 1)
  {
    var w := Run(START, acts);
    RunKeeps(acts);
    CountDistinct(CallKeys(w), key);
    CalledIsCounted(w.calls, key);
    if IsConfirmed(w.table, key) {
      assert RowTold(w.table.entries[key], w.calls, key);
      var f :| Holds(w.table.entries[key], w.calls, key, f);
      assert Answered(w.calls, key, f);
    }
  }

  /** `pending()` is exactly the intent-only keys, in the order their rows were
      inserted, even when a crash fell between confirming and publishing. */
  lemma {:induction false} PendingIsTheUnconfirmed(acts: seq<Action>)
    ensures var w := Run(START, acts);
            Pending(w.table) == Filter(w.inserted, k => IsIntent(w.table, k))
  {
    var w := Run(START, acts);
    RunKeeps(acts);
    var order := w.table.order;
    forall i | 0 <= i < |order|
      ensures IsIntent(w.table, order[i]) == (Unpublished(w.table, order[i]) && NamesMethod(w.table, order[i]))
    {
      assert order[i] in order;
      assert RowTold(w.table.entries[order[i]], w.calls, order[i]);
    }
    FilterFilter(order, id => Unpublished(w.table, id), id => NamesMethod(w.table, id), k => IsIntent(w.table, k));
  }

  /** A key the broker was asked about is either confirmed or still in `pending()`:
      no submission is ever forgotten. */
  lemma {:induction false} InvokedIsNeverLost(acts: seq<Action>, key: string)
    requires Called(Run(START, acts).calls, key)
    ensures var w := Run(START, acts);
            IsConfirmed(w.table, key) != (key in Pending(w.table))
  {
    var w := Run(START, acts);
    RunKeeps(acts);
    PendingIsTheUnconfirmed(acts);
    assert RowTold(w.table.entries[key], w.calls, key);
  }

  lemma {:induction false} RunConcat(w: World, xs: seq<Action>, ys: seq<Action>)
    ensures Run(w, xs + ys) == Run(Run(w, xs), ys)
  {
    if ys == [] {
      assert xs + ys == xs;
    } else {
      var init := ys[..|ys| - 1];
      assert (xs + ys)[..|xs + ys| - 1] == xs + init;
      RunConcat(w, xs, init);
    }
  }

  /** No step rewrites a confirmed row: its thread would have to be waiting on the broker,
      and then the row would still be an intent. */
  lemma StepKeepsConfirmed(w: World, a: Action, key: string)
    requires Inv(w) && IsConfirmed(w.table, key)
    ensures IsConfirmed(Step(w, a).table, key)
    ensures Step(w, a).table.entries[key].payload == w.table.entries[key].payload
  {
    if a.WriteConfirmed? && AtReturned(w, a.tid) {
      assert OwnerRow(w.table, w.calls, w.threads[a.tid]);
    }
  }

  lemma {:induction false} ConfirmedStays(before: seq<Action>, after: seq<Action>, key: string)
    requires IsConfirmed(Run(START, before).table, key)
    ensures var w := Run(START, before + after);
            IsConfirmed(w.table, key) && w.table.entries[key].payload == Run(START, before).table.entries[key].payload
  {
    hide Step, Inv, WellFormed, Distinct;
    if after == [] {
      assert before + after == before;
    } else {
      var init := after[..|after| - 1];
      assert (before + after)[..|before + after| - 1] == before + init;
      ConfirmedStays(before, init, key);
      RunKeeps(before + init);
      StepKeepsConfirmed(Run(START, before + init), after[|after| - 1], key);
    }
  }

  // ------------------------------------------------------- the caller's order id

  /** The caller named the order. */
  predicate Named(req: Request) {
    req.clientOrderId.Some? && req.clientOrderId.value != ""
  }

  predicate KeyTold(key: string, req: Request) {
    Named(req) ==> key == req.clientOrderId.value
  }

  /** An intent's payload is the request's. */
  predicate Describes(p: Payload, req: Request) {
    && p.IntentPayload? && p.name == req.kind.Name() && p.marketId == req.marketId && p.side == req.side
    && p.quantity == req.quantity && p.clientOrderId == if Named(req) then req.clientOrderId.value else ""
  }

  ghost predicate PhaseNamed(table: Table<Payload>, p: Phase) {
    match p
    case Absent(key, req) => KeyTold(key, req)
    case Recorded(key, req) => KeyTold(key, req) && Has(table, key) && Describes(table.entries[key].payload, req)
    case Returned(key, req, _) => KeyTold(key, req)
    case Confirmed(_, _) => true
  }

  ghost predicate CallNamed(table: Table<Payload>, c: Call) {
    && KeyTold(c.key, c.req)
    && (IsIntent(table, c.key) ==> Describes(table.entries[c.key].payload, c.req))
  }

  /** Every key in play is the order id of its request, if the caller gave one, and an intent row
      describes the request that the broker was, or is about to be, asked. */
  ghost predicate AllNamed(w: World) {
    && (forall t :: t in w.threads ==> PhaseNamed(w.table, w.threads[t]))
    && (forall c :: c in w.calls ==> CallNamed(w.table, c))
  }

  lemma NamedLookup(w: World, tid: nat, req: Request, nonce: string)
    requires AllNamed(w)
    ensures AllNamed(LookupStep(w, tid, req, nonce))
  {
    hide WellFormed, Distinct;
  }

  lemma NamedWriteIntent(w: World, tid: nat)
    requires Inv(w) && AllNamed(w)
    ensures AllNamed(WriteIntentStep(w, tid))
  {
    hide WellFormed, Distinct;
    if AtAbsent(w, tid) && !Has(w.table, w.threads[tid].key) {
      var w', key := WriteIntentStep(w, tid), w.threads[tid].key;
      assert PhaseNamed(w.table, w.threads[tid]);
      forall t | t in w'.threads ensures PhaseNamed(w'.table, w'.threads[t]) {
        assert t != tid ==> PhaseNamed(w.table, w.threads[t]);
      }
      forall c | c in w'.calls ensures CallNamed(w'.table, c) {
        assert CallNamed(w.table, c) && Has(w.table, c.key);
      }
    }
  }

  lemma NamedInvoke(w: World, tid: nat, outcome: Option<FillResult>)
    requires AllNamed(w)
    ensures AllNamed(InvokeStep(w, tid, outcome))
  {
    hide WellFormed, Distinct;
    if AtRecorded(w, tid) {
      assert PhaseNamed(w.table, w.threads[tid]);
    }
  }

  lemma NamedConfirm(w: World, tid: nat)
    requires Inv(w) && AllNamed(w)
    ensures AllNamed(WriteConfirmedStep(w, tid))
  {
    hide WellFormed, Distinct;
    if AtReturned(w, tid) {
      var w', th := WriteConfirmedStep(w, tid), w.threads[tid];
      OwnsAlone(w, tid);
      hide Inv, OwnerRow;
      forall t | t in w'.threads ensures PhaseNamed(w'.table, w'.threads[t]) {
        assert PhaseNamed(w.table, w.threads[t]);
      }
      forall c | c in w'.calls ensures CallNamed(w'.table, c) {
        assert CallNamed(w.table, c);
      }
    }
  }

  lemma NamedPublish(w: World, tid: nat)
    requires AllNamed(w)
    ensures AllNamed(PublishStep(w, tid))
  {
    hide WellFormed, Distinct;
    var w' := PublishStep(w, tid);
    forall t | t in w'.threads ensures PhaseNamed(w'.table, w'.threads[t]) {
      assert PhaseNamed(w.table, w.threads[t]);
    }
    forall c | c in w'.calls ensures CallNamed(w'.table, c) {
      assert CallNamed(w.table, c);
    }
  }

  lemma NamedLoss(w: World, w': World)
    requires AllNamed(w) && w' == w.(threads := w'.threads)
    requires forall t :: t in w'.threads ==> t in w.threads && w'.threads[t] == w.threads[t]
    ensures AllNamed(w')
  {
  }

  lemma {:induction false} RunKeepsNames(acts: seq<Action>)
    ensures AllNamed(Run(START, acts))
  {
    if acts != [] {
      var w, a := Run(START, acts[..|acts| - 1]), acts[|acts| - 1];
      RunKeeps(acts[..|acts| - 1]);
      RunKeepsNames(acts[..|acts| - 1]);
      hide Inv, AllNamed;
      match a
      case Lookup(tid, req, nonce) => NamedLookup(w, tid, req, nonce);
      case WriteIntent(tid) => NamedWriteIntent(w, tid);
      case Invoke(tid, outcome) => NamedInvoke(w, tid, outcome);
      case WriteConfirmed(tid) => NamedConfirm(w, tid);
      case Publish(tid) => NamedPublish(w, tid);
      case Die(_) => NamedLoss(w, Step(w, a));
      case Restart => NamedLoss(w, Step(w, a));
    }
  }

  /** In every interleaving, whatever nonces are drawn, the broker is asked at most once for the
      orders that carry one id; and what is pending under that id describes what it was asked. */
  lemma {:induction false} OneCallPerOrderId(acts: seq<Action>, x: string)
    requires x != ""
    ensures var w := Run(START, acts);
            && (forall i, j :: 0 <= i < |w.calls| && 0 <= j < |w.calls|
                               && w.calls[i].req.clientOrderId == Some(x) && w.calls[j].req.clientOrderId == Some(x)
                               ==> i == j)
            && (forall c :: c in w.calls && c.req.clientOrderId == Some(x) ==>
                  if c.outcome.None? then x in Pending(w.table) else IsConfirmed(w.table, x) != (x in Pending(w.table)))
            && (forall c :: c in w.calls && c.req.clientOrderId == Some(x) && x in Pending(w.table) ==>
                  w.table.entries[x].payload
                  == IntentPayload(c.req.kind.Name(), c.req.marketId, c.req.side, c.req.quantity, x))
  {
    var w := Run(START, acts);
    RunKeeps(acts);
    RunKeepsNames(acts);
    hide Run, WellFormed, Distinct;
    forall c | c in w.calls ensures CallNamed(w.table, c) && Has(w.table, c.key) && Called(w.calls, c.key) {
    }
    forall i, j | 0 <= i < |w.calls| && 0 <= j < |w.calls| && w.calls[i].req.clientOrderId == Some(x)
                  && w.calls[j].req.clientOrderId == Some(x)
      ensures i == j
    {
      assert w.calls[i] in w.calls && w.calls[j] in w.calls;
      assert CallNamed(w.table, w.calls[i]) && CallNamed(w.table, w.calls[j]);
    }
    forall c | c in w.calls && c.req.clientOrderId == Some(x)
      ensures c.key == x
    {
      assert CallNamed(w.table, c);
    }
  }

  /** Once the broker has been asked for an order with an id and its fill is confirmed, every later
      call with that id, whatever else it asks for and whatever nonce it draws, after any further
      steps, restarts and deaths, gets that fill back with the broker's order id as text, and
      changes nothing else: in particular it does not reach the broker. */
  lemma LaterCallsReplay(before: seq<Action>, after: seq<Action>, x: string, first: Call,
                         tid: nat, req: Request, nonce: string)
    requires x != "" && first.req.clientOrderId == Some(x) && req.clientOrderId == Some(x)
    requires var w := Run(START, before); first in w.calls && first.outcome.Some? && IsConfirmed(w.table, x)
    requires tid !in Run(START, before + after).threads
    ensures var w := Run(START, before + after);
            var w' := Run(START, before + after + [Lookup(tid, req, nonce)]);
            && w' == w.(answers := w'.answers) && |w'.answers| == |w.answers| + 1 && w.answers <= w'.answers
            && w'.answers[|w.answers|].Replay? && w'.answers[|w.answers|].key == x
            && SameFill(first.outcome.value, w'.answers[|w.answers|].fill)
  {
    var w := Run(START, before);
    RunKeepsNames(before);
    assert CallNamed(w.table, first);
    assert Answered(w.calls, x, first.outcome.value);
    hide Run, AllNamed;
    KeyReplays(before, after, tid, req, nonce, first.outcome.value);
    ReplayIsTextual(first.outcome.value);
  }

  lemma {:induction false} KeyReplays(before: seq<Action>, after: seq<Action>,
                                      tid: nat, req: Request, nonce: string, f: FillResult)
    requires var w := Run(START, before);
             IsConfirmed(w.table, KeyOf(req, nonce)) && Answered(w.calls, KeyOf(req, nonce), f)
    requires tid !in Run(START, before + after).threads
    ensures var w := Run(START, before + after);
            var w' := Run(START, before + after + [Lookup(tid, req, nonce)]);
            w' == w.(answers := w.answers + [Replay(KeyOf(req, nonce), WithTextId(f))])
  {
    var key := KeyOf(req, nonce);
    var w := Run(START, before);
    RunKeeps(before);
    assert RowTold(w.table.entries[key], w.calls, key);
    var g :| Holds(w.table.entries[key], w.calls, key, g);
    OneAnswer(w, key, f, g);
    ConfirmedStays(before, after, key);
    ReplayIsTextual(f);
    var all := before + after;
    assert (all + [Lookup(tid, req, nonce)])[..|all|] == all;
  }

  lemma OneAnswer(w: World, key: string, f: FillResult, g: FillResult)
    requires CallsOnce(w.table, w.calls) && Answered(w.calls, key, f) && Answered(w.calls, key, g)
    ensures f == g
  {
    var c :| c in w.calls && c.key == key && c.outcome == Some(f);
    var d :| d in w.calls && d.key == key && d.outcome == Some(g);
    var i :| 0 <= i < |w.calls| && w.calls[i] == c;
    var j :| 0 <= j < |w.calls| && w.calls[j] == d;
    if i < j {
      assert w.calls[i].key != w.calls[j].key;
    } else if j < i {
      assert w.calls[j].key != w.calls[i].key;
    }
  }

  /** Every answer a run ever gave is the broker's own fill for the key, that fill with a
      text id, or a demand to reconcile a key whose row exists. */
  lemma {:induction false} AnswersAreTrue(acts: seq<Action>, a: Answer)
    requires a in Run(START, acts).answers
    ensures AnswerTold(Run(START, acts).table, Run(START, acts).calls, a)
  {
    RunKeeps(acts);
  }

  // ------------------------------------------- the object against the interleaving

  function WholeSubmission(tid: nat, req: Request, nonce: string, outcome: Option<FillResult>): seq<Action> {
    [Lookup(tid, req, nonce), WriteIntent(tid), Invoke(tid, outcome), WriteConfirmed(tid), Publish(tid)]
  }

  /** The method's effect is the uninterrupted run of one thread, from any state of the world. */
  lemma {:induction false} SubmissionIsARun(w: World, tid: nat, req: Request, nonce: string, outcome: Option<FillResult>)
    requires tid !in w.threads
    ensures var w' := Run(w, WholeSubmission(tid, req, nonce, outcome));
            var (t, calls, r) := Submitted(w.table, w.calls, req, nonce, outcome);
            && w'.table == t && w'.calls == calls && w'.threads == w.threads
            && (r.Some? <==> w'.answers != w.answers)
            && (r.Some? ==> |w'.answers| == |w.answers| + 1 && w'.answers[|w.answers|].fill == r.value)
  {
    RunFive(w, Lookup(tid, req, nonce), WriteIntent(tid), Invoke(tid, outcome), WriteConfirmed(tid), Publish(tid));
    hide Run, WellFormed, Distinct;
    assert w.threads - {tid} == w.threads;
    if Has(w.table, KeyOf(req, nonce)) {
      NothingToDo(Step(w, Lookup(tid, req, nonce)), tid, outcome);
    } else if outcome.Some? {
      FourSteps(w, tid, KeyOf(req, nonce), req, outcome.value);
    } else {
      TwoSteps(w, tid, KeyOf(req, nonce), req);
    }
  }

  lemma NothingToDo(w: World, tid: nat, outcome: Option<FillResult>)
    requires tid !in w.threads
    ensures Step(Step(Step(Step(w, WriteIntent(tid)), Invoke(tid, outcome)), WriteConfirmed(tid)), Publish(tid)) == w
  {
    hide WellFormed, Distinct;
  }

  /** The steps of a thread that found no row, with the broker answering ... */
  lemma FourSteps(w: World, tid: nat, key: string, req: Request, f: FillResult)
    requires tid !in w.threads && !Has(w.table, key)
    ensures var w1 := w.(threads := w.threads[tid := Absent(key, req)]);
            var t1 := Put(w.table, key, Row(key, INTENT, IntentOf(req), false));
            Step(Step(Step(Step(w1, WriteIntent(tid)), Invoke(tid, Some(f))), WriteConfirmed(tid)), Publish(tid))
            == w.(table := MarkPublished(Update(t1, key, CONFIRMED, ConfirmedOf(f)), key),
                  calls := w.calls + [Call(key, req, Some(f))], inserted := w.inserted + [key],
                  answers := w.answers + [Original(key, f)], threads := w.threads - {tid})
  {
    hide WellFormed, Distinct;
    var w1 := w.(threads := w.threads[tid := Absent(key, req)]);
    var w2, w3 := Step(w1, WriteIntent(tid)), Step(Step(w1, WriteIntent(tid)), Invoke(tid, Some(f)));
    assert w2.threads[tid] == Recorded(key, req) && w3.threads[tid] == Returned(key, req, f);
    assert w.threads[tid := Confirmed(key, f)] - {tid} == w.threads - {tid};
  }

  /** ... and with the broker raising. */
  lemma TwoSteps(w: World, tid: nat, key: string, req: Request)
    requires tid !in w.threads && !Has(w.table, key)
    ensures var w1 := w.(threads := w.threads[tid := Absent(key, req)]);
            Step(Step(Step(Step(w1, WriteIntent(tid)), Invoke(tid, None)), WriteConfirmed(tid)), Publish(tid))
            == w.(table := Put(w.table, key, Row(key, INTENT, IntentOf(req), false)),
                  calls := w.calls + [Call(key, req, None)], inserted := w.inserted + [key], threads := w.threads - {tid})
  {
    hide WellFormed, Distinct;
    assert w.threads[tid := Recorded(key, req)] - {tid} == w.threads - {tid};
  }

  lemma {:induction false} RunFive(w: World, a: Action, b: Action, c: Action, d: Action, e: Action)
    ensures Run(w, [a, b, c, d, e]) == Step(Step(Step(Step(Step(w, a), b), c), d), e)
  {
    assert [a][..0] == [] && Run(w, [a]) == Step(w, a);
    assert [a, b][..1] == [a] && Run(w, [a, b]) == Step(Step(w, a), b);
    assert [a, b, c][..2] == [a, b] && Run(w, [a, b, c]) == Step(Run(w, [a, b]), c);
    assert [a, b, c, d][..3] == [a, b, c] && Run(w, [a, b, c, d]) == Step(Run(w, [a, b, c]), d);
    assert [a, b, c, d, e][..4] == [a, b, c, d];
  }

  /** A second submission under the same order id never reaches the broker, whatever else it asks
      for and whatever nonces the two draw: it replays the first fill, or asks for reconciliation
      when the broker raised. */
  lemma ResubmissionReplays(t: Table<Payload>, calls: seq<Call>, x: string, req: Request, req2: Request,
                            nonce: string, nonce2: string, first: Option<FillResult>, again: Option<FillResult>)
    requires x != "" && req.clientOrderId == Some(x) && req2.clientOrderId == Some(x) && !Has(t, x)
    ensures var (t1, calls1, r1) := Submitted(t, calls, req, nonce, first);
            var (t2, calls2, r2) := Submitted(t1, calls1, req2, nonce2, again);
            && calls1 == calls + [Call(x, req, first)] && r1 == first
            && t2 == t1 && calls2 == calls1 && r2.Some?
            && (first.Some? ==> SameFill(first.value, r2.value))
            && (first.None? ==> r2.value == FillResult(false, 0.0, 0.0, req2.quantity, "needs_reconcile", TextId("")))
  {
    if first.Some? {
      ReplayIsTextual(first.value);
    }
  }

  /** Submissions without an id, or with an empty one, are different orders as long as their nonces
      are new: each reaches the broker, and its answer is the caller's. */
  lemma AnonymousSubmissionReaches(w: World, tid: nat, req: Request, nonce: string, outcome: Option<FillResult>)
    requires tid !in w.threads && !Has(w.table, nonce)
    requires req.clientOrderId == None || req.clientOrderId == Some("")
    ensures var w' := Run(w, WholeSubmission(tid, req, nonce, outcome));
            && w'.calls == w.calls + [Call(nonce, req, outcome)]
            && (outcome.Some? ==> |w'.answers| == |w.answers| + 1 && w'.answers[|w.answers|].fill == outcome.value)
  {
    SubmissionIsARun(w, tid, req, nonce, outcome);
    hide Run, WholeSubmission;
  }

  /** When a whole submission reaches the broker: exactly if no row has its order id, or the nonce
      that stands in for one. If a row that is not confirmed has it, the answer is that nothing
      was filled and the whole quantity remains to be reconciled. */
  lemma SubmissionReachesIff(w: World, tid: nat, req: Request, nonce: string, outcome: Option<FillResult>)
    requires tid !in w.threads
    ensures var w' := Run(w, WholeSubmission(tid, req, nonce, outcome));
            var id := match req.clientOrderId case None => nonce case Some(x) => if x == "" then nonce else x;
            && w'.calls == (if Has(w.table, id) then w.calls else w.calls + [Call(id, req, outcome)])
            && (Has(w.table, id) ==> w'.table == w.table && |w'.answers| == |w.answers| + 1)
            && (Has(w.table, id) && !IsConfirmed(w.table, id) ==>
                  w'.answers[|w.answers|].fill == FillResult(false, 0.0, 0.0, req.quantity, "needs_reconcile", TextId("")))
            && (!Has(w.table, id) ==> IsConfirmed(w'.table, id) == outcome.Some?)
            && (!Has(w.table, id) && outcome.Some? ==>
                  w'.table.entries[id].published && SameFill(outcome.value, ToResult(w'.table.entries[id].payload)))
            && (forall k :: k != id ==> Get(w'.table, k) == Get(w.table, k))
  {
    SubmissionIsARun(w, tid, req, nonce, outcome);
    if outcome.Some? {
      ReplayIsTextual(outcome.value);
    }
    hide Run, WholeSubmission, WellFormed, Distinct;
  }

  // ------------------------------------------------- why the primary key matters

  /** The same protocol over a table whose insert overwrites instead of failing. */
  function OverwritingStep(w: World, a: Action): World {
    if a.WriteIntent? && AtAbsent(w, a.tid) then
      var th := w.threads[a.tid];
      w.(table := Put(w.table, th.key, Row(th.key, INTENT, IntentOf(th.req), false)),
         inserted := w.inserted + [th.key], threads := w.threads[a.tid := Recorded(th.key, th.req)])
    else
      Step(w, a)
  }

  function OverwritingRun(w: World, acts: seq<Action>): World
    decreases |acts|
  {
    if acts == [] then w else OverwritingRun(OverwritingStep(w, acts[0]), acts[1..])
  }

  lemma OverwritingCons(w: World, a: Action, rest: seq<Action>)
    ensures OverwritingRun(w, [a] + rest) == OverwritingRun(OverwritingStep(w, a), rest)
  {
    assert ([a] + rest)[1..] == rest;
  }

  function TwoRacers(req: Request, nonce: string): seq<Action> {
    [Lookup(0, req, nonce)] + ([Lookup(1, req, nonce)] + ([WriteIntent(0)] + ([WriteIntent(1)]
    + ([Invoke(0, None)] + ([Invoke(1, None)] + [])))))
  }

  /** Without it, two threads that both looked before either inserted submit the same key twice. */
  lemma OverwritingSubmitsTwice(req: Request, nonce: string)
    ensures Count(CallKeys(OverwritingRun(START, TwoRacers(req, nonce))), KeyOf(req, nonce)) == 2
  {
    hide WellFormed, Distinct;
    var key := KeyOf(req, nonce);
    var w1 := OverwritingStep(START, Lookup(0, req, nonce));
    var w2 := OverwritingStep(w1, Lookup(1, req, nonce));
    var w3 := OverwritingStep(w2, WriteIntent(0));
    var w4 := OverwritingStep(w3, WriteIntent(1));
    var w5 := OverwritingStep(w4, Invoke(0, None));
    var w6 := OverwritingStep(w5, Invoke(1, None));
    assert CallKeys(w6) == [key] + [key];
    CountSnoc([key], key, key);
    OverwritingCons(w5, Invoke(1, None), []);
    OverwritingCons(w4, Invoke(0, None), [Invoke(1, None)] + []);
    OverwritingCons(w3, WriteIntent(1), [Invoke(0, None)] + ([Invoke(1, None)] + []));
    OverwritingCons(w2, WriteIntent(0), [WriteIntent(1)] + ([Invoke(0, None)] + ([Invoke(1, None)] + [])));
    OverwritingCons(w1, Lookup(1, req, nonce),
                    [WriteIntent(0)] + ([WriteIntent(1)] + ([Invoke(0, None)] + ([Invoke(1, None)] + []))));
    OverwritingCons(START, Lookup(0, req, nonce),
                    [Lookup(1, req, nonce)] + ([WriteIntent(0)] + ([WriteIntent(1)] + ([Invoke(0, None)] + ([Invoke(1, None)] + [])))));
  }
}
