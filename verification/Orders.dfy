/** The order lifecycle (internal/orders): placing, paying, producing and ending
    an order. Each action runs in one transaction with the order's row locked. */
module Orders {
  import opened Base
  import opened Clock
  import L = PaymentLedger
  import Payments
  import Totals

  datatype Status = AwaitingDP | Confirmed | Expired | InProduction | Ready | OutForDelivery | Completed | Cancelled

  datatype Fulfillment = Pickup | Delivery

  datatype Order = Order(
    customer: Id, key: Id, status: Status, payment: L.Status, fulfillment: Fulfillment,
    total: int, dp: int, dpDue: Instant, balanceDue: Instant, date: Date, items: seq<Totals.Item>,
    ledger: seq<L.Payment>)

  /** Whether an order is in its batch's shopping list and production: from its
      deposit on, until it is refunded or forfeited. */
  predicate Committed(o: Order) {
    CountsForProduction(o.status) && (o.payment == L.DPPaid || o.payment == L.PaidInFull)
  }

  predicate CountsForProduction(s: Status) {
    s == Confirmed || s == InProduction || s == Ready || s == OutForDelivery || s == Completed
  }

  datatype Reason =
    | InvalidInput | IllegalTransition | PaymentRequired | PaymentsClosed | NothingOwed | NotOpen | TooMuch
    | BelowDP | AlreadyPaid | NotForfeitable | NothingToRefund | BalanceNotDue | BadAmount | NoMethod

  /** An order as an action leaves it; a refused action leaves it as it was. */
  datatype Result = Done(order: Order) | Refused(reason: Reason)

  // ----- The lifecycle -----

  /** The payment statuses a step needs. */
  datatype Needs = NothingPaid | DPIn | PaidUp | ClosedPayments

  predicate Meets(needs: Needs, payment: L.Status) {
    match needs
    case NothingPaid => payment == L.Unpaid
    case DPIn => payment == L.DPPaid || payment == L.PaidInFull
    case PaidUp => payment == L.PaidInFull
    case ClosedPayments => payment == L.Forfeited || payment == L.Refunded
  }

  datatype How = Either | Only(way: Fulfillment)

  datatype Edge = Edge(source: Status, target: Status, needs: Needs, how: How)

  datatype Permission = Allowed | NoSuchStep | NotPaidEnough

  predicate Fits(e: Edge, at: Status, fulfillment: Fulfillment, to: Status) {
    e.source == at && e.target == to && (e.how.Either? || e.how.way == fulfillment)
  }

  /** What an edge says of a step, and the later edges when it does not fit. */
  function Says(
      e: Edge, at: Status, payment: L.Status, fulfillment: Fulfillment, to: Status, later: Permission)
    : Permission
  {
    if !Fits(e, at, fulfillment, to) then later
    else if Meets(e.needs, payment) then Allowed
    else NotPaidEnough
  }

  /** The table of the lifecycle; the first edge that fits decides. */
  function Transition(at: Status, payment: L.Status, fulfillment: Fulfillment, to: Status): Permission {
    Says(Edge(AwaitingDP, Confirmed, DPIn, Either), at, payment, fulfillment, to,
    Says(Edge(AwaitingDP, Expired, NothingPaid, Either), at, payment, fulfillment, to,
    Says(Edge(Confirmed, InProduction, PaidUp, Either), at, payment, fulfillment, to,
    Says(Edge(Confirmed, Cancelled, ClosedPayments, Either), at, payment, fulfillment, to,
    Says(Edge(InProduction, Ready, PaidUp, Either), at, payment, fulfillment, to,
    Says(Edge(Ready, OutForDelivery, PaidUp, Only(Delivery)), at, payment, fulfillment, to,
    Says(Edge(Ready, Completed, PaidUp, Only(Pickup)), at, payment, fulfillment, to,
    Says(Edge(OutForDelivery, Completed, PaidUp, Only(Delivery)), at, payment, fulfillment, to,
    NoSuchStep))))))))
  }

  /** Every step towards the customer needs the order paid in full, an order ends
      unpaid or closed, and nothing leaves an end. */
  lemma TheLifecycle(at: Status, payment: L.Status, fulfillment: Fulfillment, to: Status)
    ensures Transition(at, payment, fulfillment, to) == Allowed <==>
              || (at == AwaitingDP && to == Confirmed && (payment == L.DPPaid || payment == L.PaidInFull))
              || (at == AwaitingDP && to == Expired && payment == L.Unpaid)
              || (at == Confirmed && to == InProduction && payment == L.PaidInFull)
              || (at == Confirmed && to == Cancelled && (payment == L.Forfeited || payment == L.Refunded))
              || (at == InProduction && to == Ready && payment == L.PaidInFull)
              || (at == Ready && payment == L.PaidInFull
                  && to == if fulfillment == Pickup then Completed else OutForDelivery)
              || (at == OutForDelivery && to == Completed && payment == L.PaidInFull && fulfillment == Delivery)
    ensures Transition(at, payment, fulfillment, to) != NoSuchStep <==>
              || (at == AwaitingDP && (to == Confirmed || to == Expired))
              || (at == Confirmed && (to == InProduction || to == Cancelled))
              || (at == InProduction && to == Ready)
              || (at == Ready && to == if fulfillment == Pickup then Completed else OutForDelivery)
              || (at == OutForDelivery && to == Completed && fulfillment == Delivery)
  {
  }

  // ----- What each action does to an order -----

  const GRACE := 30 * MINUTE

  /** An order's new statuses; its open invoices close with them. */
  function Settled(o: Order, ledger: seq<L.Payment>, status: Status, payment: L.Status): Order {
    o.(status := status, payment := payment, ledger := L.ExpirePending(ledger))
  }

  function Forbidden(p: Permission): Result
    requires p != Allowed
  {
    Refused(if p == NoSuchStep then IllegalTransition else PaymentRequired)
  }

  /** The kitchen moves an order on; asking for where it is changes nothing. */
  function AdvanceStep(o: Order, to: Status): Result {
    if to != InProduction && to != Ready && to != Completed then Refused(InvalidInput)
    else if o.status == to then Done(o)
    else
      var p := Transition(o.status, o.payment, o.fulfillment, to);
      if p != Allowed then Forbidden(p) else Done(o.(status := to))
  }

  datatype KindResult = Is(kind: L.Kind) | Not(reason: Reason)

  /** What a manual payment is for, or why the order takes none. */
  function ManualKind(o: Order, paid: int, amount: int): KindResult {
    if L.Closed(o.payment) then Not(PaymentsClosed)
    else if o.total - paid <= 0 then Not(NothingOwed)
    else if o.status != AwaitingDP && o.status != Confirmed then Not(NotOpen)
    else if amount > o.total - paid then Not(TooMuch)
    else if o.status == Confirmed then Is(L.Balance)
    else if paid + amount < o.dp then Not(BelowDP)
    else if paid + amount == o.total then Is(L.Full)
    else Is(L.DP)
  }

  /** The order with a payment of a kind, settled by it. */
  function Received(o: Order, kind: L.Kind, amount: int): Result {
    var s := L.Settle(o.payment, o.total, o.dp, L.TotalPaid(o.ledger) + amount);
    if !s.Now? then Refused(PaymentsClosed)
    else
      var p := Transition(o.status, s.status, o.fulfillment, Confirmed);
      if o.status == AwaitingDP && p != Allowed then Forbidden(p)
      else
        var a := L.AddManual(o.ledger, kind, amount);
        if a.BadAmount? then Refused(BadAmount) else Done(Settled(o, a.ps, Confirmed, s.status))
  }

  /** Money the owner received: a waiting order is confirmed by it. */
  function RecordStep(o: Order, amount: int): Result {
    if !(0 < amount <= Payments.MAX_ORDER_TOTAL) then Refused(InvalidInput)
    else
      match ManualKind(o, L.TotalPaid(o.ledger), amount)
      case Not(reason) => Refused(reason)
      case Is(kind) => Received(o, kind, amount)
  }

  datatype CancelMode = CancelUnpaid | CancelForfeit | CancelRefund

  datatype Ending = Ends(status: Status, payment: L.Status) | Stays(reason: Reason)

  /** Where an order ends up when cancelled, or why it cannot be. */
  function EndingOf(o: Order, mode: CancelMode, now: Instant): Ending {
    if mode == CancelUnpaid then
      if o.status == Confirmed then Stays(AlreadyPaid)
      else
        var p := Transition(o.status, o.payment, o.fulfillment, Expired);
        if p != Allowed then Stays(Forbidden(p).reason) else Ends(Expired, o.payment)
    else
      var closing := if mode == CancelRefund then L.Refunded else L.Forfeited;
      var c := L.Close(o.payment, closing);
      if !c.Now? then Stays(if mode == CancelRefund then NothingToRefund else NotForfeitable)
      else
        var p := Transition(o.status, c.status, o.fulfillment, Cancelled);
        if p != Allowed then Stays(Forbidden(p).reason)
        else if mode == CancelForfeit && now < o.balanceDue then Stays(BalanceNotDue)
        else Ends(Cancelled, c.status)
  }

  /** The order as it ends, with the row of what is paid back, if any. */
  function EndedAs(o: Order, mode: CancelMode, ending: Ending): Result {
    match ending
    case Stays(reason) => Refused(reason)
    case Ends(status, payment) =>
      var a := if mode == CancelRefund then L.AddManual(o.ledger, L.Refund, -L.TotalPaid(o.ledger))
               else L.Added(o.ledger);
      if a.BadAmount? then Refused(BadAmount) else Done(Settled(o, a.ps, status, payment))
  }

  function CancelStep(o: Order, mode: CancelMode, now: Instant): Result { EndedAs(o, mode, EndingOf(o, mode, now)) }

  datatype Sweep = Unpaid | Forfeit

  /** What the worker ends: orders past a deadline and its grace, checked again
      under the lock. */
  predicate IsDue(o: Order, sweep: Sweep, now: Instant) {
    match sweep
    case Unpaid => o.status == AwaitingDP && o.payment == L.Unpaid && now >= o.dpDue + GRACE
    case Forfeit => o.status == Confirmed && o.payment == L.DPPaid && now >= o.balanceDue + GRACE
  }

  function SweepStep(o: Order, sweep: Sweep, now: Instant): Order {
    if !IsDue(o, sweep, now) then o
    else if sweep == Unpaid then Settled(o, o.ledger, Expired, o.payment)
    else Settled(o, o.ledger, Cancelled, L.Forfeited)
  }

  predicate Bills(p: L.Payment) { p.state == L.Pending && p.kind == L.Balance }

  predicate Billed(ps: seq<L.Payment>) { exists i :: 0 <= i < |ps| && Bills(ps[i]) }

  /** Bills what a confirmed order still owes, once, until its deadline. */
  function BillStep(o: Order, now: Instant, fee: Option<int>): Result {
    var owed := o.total - L.TotalPaid(o.ledger);
    if o.status != Confirmed || o.payment != L.DPPaid || now >= o.balanceDue then Done(o)
    else if owed <= 0 || Billed(o.ledger) then Done(o)
    else if fee.None? then Refused(NoMethod)
    else
      var a := L.AddPending(o.ledger, L.Balance, owed, fee.value);
      if a.BadAmount? then Refused(BadAmount) else Done(o.(ledger := a.ps))
  }

  // ----- Placing -----

  const MAX_AWAITING := 2

  /** A checkout: what is ordered is priced again on the server, and so is the fee of
      paying all of it or the deposit. */
  datatype Checkout = Checkout(
    customer: Id, key: Id, policy: Payments.Policy, total: int, cost: int, tight: bool,
    payInFull: bool, fullFee: int, dpFee: int, dpDue: Instant, balanceDue: Instant, date: Date, items: seq<Totals.Item>)

  /** Small orders, and orders whose schedule leaves no time for a balance, are
      paid in full at once. */
  predicate FullRequired(c: Checkout) { c.total < c.policy.dpMinTotal || c.tight }

  function LockedDP(c: Checkout): Option<int> {
    match Payments.DPRequired(c.policy, c.total, c.cost)
    case None => None
    case Some(dp) => Some(if FullRequired(c) then c.total else dp)
  }

  /** The order a checkout becomes, waiting for its first payment. */
  function NewOrder(c: Checkout): Result {
    match LockedDP(c)
    case None => Refused(InvalidInput)
    case Some(dp) =>
      var (kind, amount, fee) :=
        if FullRequired(c) || c.payInFull then (L.Full, c.total, c.fullFee) else (L.DP, dp, c.dpFee);
      var a := L.AddPending([], kind, amount, fee);
      if a.BadAmount? then Refused(BadAmount)
      else
        Done(Order(c.customer, c.key, AwaitingDP, L.Unpaid, Pickup, c.total, dp, c.dpDue, c.balanceDue,
                   c.date, c.items, a.ps))
  }

  datatype PlaceResult = Placed(id: nat) | Existing(id: nat) | TooManyUnpaid | NotPlaced(reason: Reason)

  /** The order a customer placed with a key. */
  function Find(orders: seq<Order>, customer: Id, key: Id): (r: Option<nat>)
    ensures r.Some? ==> r.value < |orders| && orders[r.value].customer == customer && orders[r.value].key == key
    ensures r.None? ==> forall i :: 0 <= i < |orders| ==> !(orders[i].customer == customer && orders[i].key == key)
  {
    if orders == [] then None
    else
      var earlier := Find(orders[..|orders| - 1], customer, key);
      var last := orders[|orders| - 1];
      if earlier.Some? then earlier
      else if last.customer == customer && last.key == key then Some(|orders| - 1)
      else None
  }

  predicate Waits(o: Order, customer: Id) { o.customer == customer && o.status == AwaitingDP }

  function CountAwaiting(orders: seq<Order>, customer: Id): nat {
    if orders == [] then 0
    else CountAwaiting(orders[..|orders| - 1], customer) + if Waits(orders[|orders| - 1], customer) then 1 else 0
  }

  /** The transaction of a checkout, under the customer's lock. */
  function PlaceStep(orders: seq<Order>, c: Checkout): (seq<Order>, PlaceResult) {
    var twin := Find(orders, c.customer, c.key);
    if twin.Some? then (orders, Existing(twin.value))
    else if CountAwaiting(orders, c.customer) >= MAX_AWAITING then (orders, TooManyUnpaid)
    else
      match NewOrder(c)
      case Refused(reason) => (orders, NotPlaced(reason))
      case Done(o) => (orders + [o], Placed(|orders|))
  }
}
