/** The trade entity and its lifecycle table. */
module TradeEntity {
  import opened Wrappers
  import opened OrderedDict

  datatype Status = Pending | Submitted | Acknowledged | PartiallyFilled | Filled | Cancelled | Rejected | Expired

  function Text(s: Status): string {
    match s
    case Pending => "pending"
    case Submitted => "submitted"
    case Acknowledged => "acknowledged"
    case PartiallyFilled => "partially_filled"
    case Filled => "filled"
    case Cancelled => "cancelled"
    case Rejected => "rejected"
    case Expired => "expired"
  }

  /** The status a stored text stands for. */
  function StatusOf(text: string): Option<Status> {
    if text == "pending" then Some(Pending) else if text == "submitted" then Some(Submitted)
    else if text == "acknowledged" then Some(Acknowledged) else if text == "partially_filled" then Some(PartiallyFilled)
    else if text == "filled" then Some(Filled) else if text == "cancelled" then Some(Cancelled)
    else if text == "rejected" then Some(Rejected) else if text == "expired" then Some(Expired) else None
  }

  lemma TextTellsStatus(s: Status)
    ensures StatusOf(Text(s)) == Some(s)
  {
    assert "pending"[0] != "expired"[0];
    assert "rejected"[0] != "filled"[0] && "rejected"[0] != "pending"[0] && "rejected"[0] != "expired"[0];
    assert "cancelled"[0] != "submitted"[0] && "cancelled"[0] != "rejected"[0];
  }

  function Successors(s: Status): set<Status> {
    match s
    case Pending => {Submitted, Cancelled, Rejected}
    case Submitted => {Acknowledged, PartiallyFilled, Filled, Cancelled, Rejected}
    case Acknowledged => {PartiallyFilled, Filled, Cancelled, Rejected, Expired}
    case PartiallyFilled => {Filled, Cancelled, Rejected, Expired}
    case Filled => {}
    case Cancelled => {}
    case Rejected => {}
    case Expired => {}
  }

  const OPEN_TRADE_STATUSES: set<Status> := {Pending, Submitted, Acknowledged, PartiallyFilled}

  /** The value of a trade object: its identity and order, then what its methods overwrite. */
  datatype TradeState = TradeState(id: string, marketId: string, quantity: real, price: real,
                                   status: Status, filledQuantity: real, filledPrice: real,
                                   externalOrderId: Option<string>)

  /** A guarded change of status: `None` is `InvalidTradeTransitionError`. */
  function MoveTo(t: TradeState, target: Status): Option<TradeState> {
    if target in Successors(t.status) then Some(t.(status := target)) else None
  }

  function WithFill(t: TradeState, target: Status, quantity: real, price: real): Option<TradeState> {
    if target in Successors(t.status)
    then Some(t.(status := target, filledQuantity := quantity, filledPrice := price)) else None
  }

  function WithSubmission(t: TradeState, externalOrderId: string): Option<TradeState> {
    if Submitted in Successors(t.status)
    then Some(t.(status := Submitted, externalOrderId := Some(externalOrderId))) else None
  }

  class Trade {
    const id: string
    const marketId: string
    const quantity: real
    const price: real
    var status: Status
    var filledQuantity: real
    var filledPrice: real
    var externalOrderId: Option<string>

    function View(): TradeState
      reads this
    {
      TradeState(id, marketId, quantity, price, status, filledQuantity, filledPrice, externalOrderId)
    }

    constructor (id: string, marketId: string, quantity: real, price: real)
      ensures View() == TradeState(id, marketId, quantity, price, Pending, 0.0, 0.0, None)
    {
      this.id, this.marketId, this.quantity, this.price := id, marketId, quantity, price;
      status, filledQuantity, filledPrice, externalOrderId := Pending, 0.0, 0.0, None;
    }

    method Submit(externalOrderId: string) returns (ok: bool)
      modifies this
      ensures ok ==> Some(View()) == WithSubmission(old(View()), externalOrderId)
      ensures !ok ==> View() == old(View()) && WithSubmission(old(View()), externalOrderId) == None
    {
      ok := Submitted in Successors(status);
      if ok {
        status := Submitted;
        this.externalOrderId := Some(externalOrderId);
      }
    }

    method Acknowledge() returns (ok: bool)
      modifies this
      ensures ok ==> Some(View()) == MoveTo(old(View()), Acknowledged)
      ensures !ok ==> View() == old(View()) && MoveTo(old(View()), Acknowledged) == None
    {
      ok := Acknowledged in Successors(status);
      if ok { status := Acknowledged; }
    }

    method PartialFill(fillQuantity: real, fillPrice: real) returns (ok: bool)
      modifies this
      ensures ok ==> Some(View()) == WithFill(old(View()), PartiallyFilled, fillQuantity, fillPrice)
      ensures !ok ==> View() == old(View()) && WithFill(old(View()), PartiallyFilled, fillQuantity, fillPrice) == None
    {
      ok := PartiallyFilled in Successors(status);
      if ok {
        status := PartiallyFilled;
        filledQuantity := fillQuantity;
        filledPrice := fillPrice;
      }
    }

    method Fill(fillQuantity: real, fillPrice: real) returns (ok: bool)
      modifies this
      ensures ok ==> Some(View()) == WithFill(old(View()), Filled, fillQuantity, fillPrice)
      ensures !ok ==> View() == old(View()) && WithFill(old(View()), Filled, fillQuantity, fillPrice) == None
    {
      ok := Filled in Successors(status);
      if ok {
        status := Filled;
        filledQuantity := fillQuantity;
        filledPrice := fillPrice;
      }
    }

    /** `cancel`, `reject` and `expire`, which differ only in their target. */
    method Close(target: Status) returns (ok: bool)
      requires target in {Cancelled, Rejected, Expired}
      modifies this
      ensures ok ==> Some(View()) == MoveTo(old(View()), target)
      ensures !ok ==> View() == old(View()) && MoveTo(old(View()), target) == None
    {
      ok := target in Successors(status);
      if ok { status := target; }
    }
  }

  /** The lifecycle read backwards: what a trade may come from. */
  predicate Follows(from: Status, to: Status) {
    match to
    case Pending => false
    case Submitted => from == Pending
    case Acknowledged => from == Submitted
    case PartiallyFilled => from == Submitted || from == Acknowledged
    case Filled => from == Submitted || from == Acknowledged || from == PartiallyFilled
    case Cancelled => from == Pending || from == Submitted || from == Acknowledged || from == PartiallyFilled
    case Rejected => from == Pending || from == Submitted || from == Acknowledged || from == PartiallyFilled
    case Expired => from == Acknowledged || from == PartiallyFilled
  }

  lemma EdgesByTarget(from: Status, to: Status)
    ensures to in Successors(from) <==> Follows(from, to)
  {
  }

  /** What the trade's own methods do: each is refused exactly when its status may not follow, and
      otherwise sets that status and what it is given, and nothing else. */
  lemma GuardsTell(t: TradeState, to: Status, quantity: real, price: real, id: string)
    ensures MoveTo(t, to) == if Follows(t.status, to) then Some(t.(status := to)) else None
    ensures WithFill(t, to, quantity, price)
            == if Follows(t.status, to) then Some(t.(status := to, filledQuantity := quantity, filledPrice := price))
               else None
    ensures WithSubmission(t, id)
            == if t.status == Pending then Some(t.(status := Submitted, externalOrderId := Some(id))) else None
  {
    EdgesByTarget(t.status, to);
  }

  /** How many changes of status are still possible. */
  function Rank(s: Status): nat {
    match s
    case Pending => 4
    case Submitted => 3
    case Acknowledged => 2
    case PartiallyFilled => 1
    case _ => 0
  }

  /** Every transition of the table lowers the rank; each rank above zero can be lowered by
      exactly one, so four changes really occur. */
  lemma TransitionsLowerRank(s: Status)
    ensures forall t :: t in Successors(s) ==> Rank(t) < Rank(s)
    ensures Rank(s) > 0 <==> exists t :: t in Successors(s) && Rank(t) == Rank(s) - 1
  {
    match s
    case Pending => assert Submitted in Successors(s);
    case Submitted => assert Acknowledged in Successors(s);
    case Acknowledged => assert PartiallyFilled in Successors(s);
    case PartiallyFilled => assert Filled in Successors(s);
    case _ =>
  }

  /** The open statuses are those with a successor; the others absorb. */
  lemma OpenMeansUnfinished(s: Status)
    ensures s in OPEN_TRADE_STATUSES <==> Successors(s) != {}
    ensures s in OPEN_TRADE_STATUSES <==> Rank(s) > 0
  {
    match s
    case Pending => assert Submitted in Successors(s);
    case Submitted => assert Acknowledged in Successors(s);
    case Acknowledged => assert PartiallyFilled in Successors(s);
    case PartiallyFilled => assert Filled in Successors(s);
    case _ =>
  }
}
