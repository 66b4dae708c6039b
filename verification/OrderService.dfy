/** The three services that change orders (internal/orders/admin.go,
    automation.go, place.go), over the stored orders. A method is one
    transaction, except for the sweeps, which take one transaction an order. */
module OrderService {
  import opened Base
  import opened Clock
  import opened Orders
  import opened OrderLaws
  import L = PaymentLedger
  import Payments

  datatype Reply = Changed | Refusal(reason: Reason) | NotFound

  datatype SweepOutcome = Ended | Left | Failed(why: Reply)

  /** How many ids name no order. */
  function MissingCount(orders: seq<Order>, ids: seq<nat>): nat {
    if ids == [] then 0
    else MissingCount(orders, ids[..|ids| - 1]) + if ids[|ids| - 1] >= |orders| then 1 else 0
  }

  /** What an action answers, from what it did to the order. */
  function ReplyTo(r: Result): Reply {
    match r
    case Done(_) => Changed
    case Refused(reason) => Refusal(reason)
  }

  /** An action answers that it changed the order just when it is done, and else why
      not. */
  lemma RepliesTell(r: Result)
    ensures ReplyTo(r) == Changed <==> r.Done?
    ensures r.Refused? ==> ReplyTo(r) == Refusal(r.reason)
  {
  }

  /** The sweep's transactions, as steps of a run. */
  function SweepSteps(ids: seq<nat>, sweep: Sweep, now: Instant): (steps: seq<Step>)
    ensures |steps| == |ids|
  {
    seq(|ids|, k requires 0 <= k < |ids| => Act(ids[k], Sweeping(sweep, now)))
  }

  /** Whether a sweep's transaction on an id changes its order. */
  predicate Changes(orders: seq<Order>, id: nat, sweep: Sweep, now: Instant) {
    id < |orders| && SweepStep(orders[id], sweep, now) != orders[id]
  }

  /** How many orders a sweep ends: the transactions that change one. */
  function SweptCount(orders: seq<Order>, ids: seq<nat>, sweep: Sweep, now: Instant): nat {
    if ids == [] then 0
    else
      var before := Run(orders, SweepSteps(ids[..|ids| - 1], sweep, now));
      SweptCount(orders, ids[..|ids| - 1], sweep, now)
      + if Changes(before, ids[|ids| - 1], sweep, now) then 1 else 0
  }

  /** The number that fails is that of the ids without an order. */
  lemma {:induction false} MissingAreCounted(orders: seq<Order>, ids: seq<nat>)
    ensures MissingCount(orders, ids) == |set k | 0 <= k < |ids| && |orders| <= ids[k]|
  {
    if ids != [] {
      var front, last := ids[..|ids| - 1], |ids| - 1;
      MissingAreCounted(orders, front);
      var earlier := set k | 0 <= k < |front| && |orders| <= front[k];
      var all := set k | 0 <= k < |ids| && |orders| <= ids[k];
      assert all == earlier + if |orders| <= ids[last] then {last} else {};
    }
  }

  /** The next id of a sweep is one step of the run. */
  lemma RunOneMore(orders: seq<Order>, ids: seq<nat>, k: nat, sweep: Sweep, now: Instant)
    requires k < |ids|
    ensures Run(orders, SweepSteps(ids[..k + 1], sweep, now))
         == Next(Run(orders, SweepSteps(ids[..k], sweep, now)), Act(ids[k], Sweeping(sweep, now)))
  {
    var steps := SweepSteps(ids[..k + 1], sweep, now);
    assert steps[..k] == SweepSteps(ids[..k], sweep, now);
    assert steps[k] == Act(ids[k], Sweeping(sweep, now));
  }

  /** It is counted when it changes an order, or has none. */
  lemma OneMoreIsCounted(orders: seq<Order>, ids: seq<nat>, k: nat, sweep: Sweep, now: Instant)
    requires k < |ids|
    ensures SweptCount(orders, [], sweep, now) == MissingCount(orders, []) == 0
    ensures SweptCount(orders, ids[..k + 1], sweep, now)
         == SweptCount(orders, ids[..k], sweep, now)
            + if Changes(Run(orders, SweepSteps(ids[..k], sweep, now)), ids[k], sweep, now) then 1 else 0
    ensures MissingCount(orders, ids[..k + 1])
         == MissingCount(orders, ids[..k]) + if ids[k] >= |orders| then 1 else 0
  {
    var front := ids[..k + 1];
    assert front[..k] == ids[..k];
  }

  class Service {
    var orders: seq<Order>

    constructor ()
      ensures orders == []
    {
      orders := [];
    }

    method SetStatus(i: nat, status: Status, payment: L.Status)
      requires i < |orders|
      modifies this
      ensures orders == old(orders)[i := old(orders)[i].(status := status, payment := payment)]
    {
      orders := orders[i := orders[i].(status := status, payment := payment)];
    }

    method SetLedger(i: nat, ps: seq<L.Payment>)
      requires i < |orders|
      modifies this
      ensures orders == old(orders)[i := old(orders)[i].(ledger := ps)]
    {
      orders := orders[i := orders[i].(ledger := ps)];
    }

    /** Stores the new statuses and closes the open invoices. */
    method Settle(i: nat, status: Status, payment: L.Status)
      requires i < |orders|
      modifies this
      ensures orders == old(orders)[i := Settled(old(orders)[i], old(orders)[i].ledger, status, payment)]
    {
      SetStatus(i, status, payment);
      var ps, _ := L.CloseOpen(orders[i].ledger);
      SetLedger(i, ps);
    }

    /** Stores a row more and what it settles. */
    method Store(i: nat, ps: seq<L.Payment>, status: Status, payment: L.Status)
      requires i < |orders|
      modifies this
      ensures orders == old(orders)[i := Settled(old(orders)[i], ps, status, payment)]
    {
      SetLedger(i, ps);
      Settle(i, status, payment);
    }

    // ----- Staff -----

    method Advance(i: nat, to: Status) returns (reply: Reply)
      modifies this
      ensures orders == Next(old(orders), Act(i, Advancing(to)))
      ensures reply == if i >= |old(orders)| then NotFound else ReplyTo(ResultOf(old(orders)[i], Advancing(to)))
    {
      if to != InProduction && to != Ready && to != Completed {
        return if i < |orders| then Refusal(InvalidInput) else NotFound;
      }
      if i >= |orders| {
        return NotFound;
      }
      var o := orders[i];
      if o.status == to {
        assert orders == orders[i := o];
        return Changed;
      }
      var p := Transition(o.status, o.payment, o.fulfillment, to);
      if p != Allowed {
        return ReplyTo(Forbidden(p));
      }
      SetStatus(i, to, o.payment);
      reply := Changed;
    }

    method RecordPayment(i: nat, amount: int) returns (reply: Reply)
      modifies this
      ensures orders == Next(old(orders), Act(i, Recording(amount)))
      ensures reply == if i >= |old(orders)| then NotFound else ReplyTo(ResultOf(old(orders)[i], Recording(amount)))
    {
      if i >= |orders| {
        return NotFound;
      }
      if !(0 < amount <= Payments.MAX_ORDER_TOTAL) {
        return Refusal(InvalidInput);
      }
      var paid := L.SumPaid(orders[i].ledger);
      var kind := ManualKind(orders[i], paid, amount);
      if kind.Not? {
        return Refusal(kind.reason);
      }
      reply := Receive(i, kind.kind, amount, paid);
    }

    /** Stores a payment of a known kind, and confirms a waiting order by it. */
    method Receive(i: nat, kind: L.Kind, amount: int, paid: int) returns (reply: Reply)
      requires i < |orders| && paid == L.TotalPaid(orders[i].ledger)
      modifies this
      ensures var r := Received(old(orders)[i], kind, amount);
              reply == ReplyTo(r) && orders == if r.Done? then old(orders)[i := r.order] else old(orders)
    {
      var o := orders[i];
      var pay := L.Settle(o.payment, o.total, o.dp, paid + amount);
      if !pay.Now? {
        return Refusal(Reason.PaymentsClosed);
      }
      var p := Transition(o.status, pay.status, o.fulfillment, Confirmed);
      if o.status == AwaitingDP && p != Allowed {
        return ReplyTo(Forbidden(p));
      }
      var added := L.AddManual(o.ledger, kind, amount);
      if added.BadAmount? {
        return Refusal(Reason.BadAmount);
      }
      assert Received(o, kind, amount) == Done(Orders.Settled(o, added.ps, Confirmed, pay.status));
      Store(i, added.ps, Confirmed, pay.status);
      reply := Changed;
    }

    method Cancel(i: nat, mode: CancelMode, now: Instant) returns (reply: Reply)
      modifies this
      ensures orders == Next(old(orders), Act(i, Cancelling(mode, now)))
      ensures reply == if i >= |old(orders)| then NotFound else ReplyTo(ResultOf(old(orders)[i], Cancelling(mode, now)))
    {
      if i >= |orders| {
        return NotFound;
      }
      reply := End(i, mode, EndingOf(orders[i], mode, now));
    }

    /** Ends an order as decided, the refund row included, or leaves it. */
    method End(i: nat, mode: CancelMode, ending: Ending) returns (reply: Reply)
      requires i < |orders|
      modifies this
      ensures var r := EndedAs(old(orders)[i], mode, ending);
              reply == ReplyTo(r) && orders == if r.Done? then old(orders)[i := r.order] else old(orders)
    {
      if ending.Stays? {
        return Refusal(ending.reason);
      }
      var o := orders[i];
      var paid := L.SumPaid(o.ledger);
      if mode == CancelRefund {
        var added := L.AddManual(o.ledger, L.Refund, -paid);
        if added.BadAmount? {
          return Refusal(Reason.BadAmount);
        }
        SetLedger(i, added.ps);
      }
      Settle(i, ending.status, ending.payment);
      reply := Changed;
    }

    // ----- The worker -----

    /** Ends the orders past their deadline, one transaction an order. The ids were
        read before, so each order is checked again under its lock. */
    method RunSweep(ids: seq<nat>, sweep: Sweep, now: Instant) returns (changed: nat, failed: nat)
      modifies this
      ensures orders == Run(old(orders), SweepSteps(ids, sweep, now))
      ensures changed == SweptCount(old(orders), ids, sweep, now)
      ensures failed == MissingCount(old(orders), ids)
    {
      changed, failed := 0, 0;
      for k := 0 to |ids|
        invariant orders == Run(old(orders), SweepSteps(ids[..k], sweep, now)) && |orders| == |old(orders)|
        invariant changed == SweptCount(old(orders), ids[..k], sweep, now)
        invariant failed == MissingCount(old(orders), ids[..k])
      {
        RunOneMore(old(orders), ids, k, sweep, now);
        OneMoreIsCounted(old(orders), ids, k, sweep, now);
        var outcome := EndOne(ids[k], sweep, now);
        match outcome {
          case Ended => changed := changed + 1;
          case Left =>
          case Failed(_) => failed := failed + 1;
        }
      }
      assert ids[..|ids|] == ids;
    }

    /** One order of a sweep, left when it was paid or ended meanwhile. Only an
        order that is not there fails: the lifecycle refuses none that is due. */
    method EndOne(i: nat, sweep: Sweep, now: Instant) returns (outcome: SweepOutcome)
      modifies this
      ensures orders == Next(old(orders), Act(i, Sweeping(sweep, now)))
      ensures outcome == if i >= |old(orders)| then Failed(NotFound)
                         else if Changes(old(orders), i, sweep, now) then Ended
                         else Left
      ensures outcome == Ended <==>
                && i < |old(orders)|
                && var o := old(orders)[i];
                   match sweep
                   case Unpaid => o.status == AwaitingDP && o.payment == L.Unpaid && now >= o.dpDue + 30 * MINUTE
                   case Forfeit => o.status == Confirmed && o.payment == L.DPPaid && now >= o.balanceDue + 30 * MINUTE
    {
      if i >= |orders| {
        return Failed(NotFound);
      }
      var o := orders[i];
      if !IsDue(o, sweep, now) {
        assert orders == orders[i := o];
        return Left;
      }
      var pay := o.payment;
      if sweep == Forfeit {
        var closed := L.Close(o.payment, L.Forfeited);
        if !closed.Now? {
          return Failed(Refusal(NotForfeitable));
        }
        pay := closed.status;
      }
      var to := if sweep == Forfeit then Cancelled else Expired;
      var p := Transition(o.status, pay, o.fulfillment, to);
      if p != Allowed {
        return Failed(Refusal(if p == NoSuchStep then IllegalTransition else PaymentRequired));
      }
      Settle(i, to, pay);
      outcome := Ended;
    }

    /** Whether an open balance payment exists already. */
    method IsBilled(ps: seq<L.Payment>) returns (b: bool)
      ensures b == Billed(ps)
    {
      for i := 0 to |ps|
        invariant forall k :: 0 <= k < i ==> !Bills(ps[k])
      {
        if ps[i].state == L.Pending && ps[i].kind == L.Balance {
          assert Bills(ps[i]);
          return true;
        }
      }
      return false;
    }

    method EnsureBalanceInvoice(i: nat, now: Instant, fee: Option<int>) returns (reply: Reply)
      modifies this
      ensures orders == Next(old(orders), Act(i, Billing(now, fee)))
      ensures reply == if i >= |old(orders)| then NotFound else ReplyTo(ResultOf(old(orders)[i], Billing(now, fee)))
    {
      if i >= |orders| {
        return NotFound;
      }
      var o := orders[i];
      assert orders == orders[i := o];
      if o.status != Confirmed || o.payment != L.DPPaid || !(now < o.balanceDue) {
        return Changed;
      }
      var paid := L.SumPaid(o.ledger);
      var owed := o.total - paid;
      var billed := IsBilled(o.ledger);
      if owed <= 0 || billed {
        return Changed;
      }
      if fee.None? {
        return Refusal(NoMethod);
      }
      var added := L.AddPending(o.ledger, L.Balance, owed, fee.value);
      if added.BadAmount? {
        return Refusal(Reason.BadAmount);
      }
      SetLedger(i, added.ps);
      reply := Changed;
    }

    // ----- The customer -----

    /** Looks the key up before pricing, without a lock. */
    method FindByKey(customer: Id, key: Id) returns (r: Option<nat>)
      ensures r == Find(orders, customer, key)
    {
      r := Find(orders, customer, key);
    }

    /** A checkout: priced without a lock, stored under the customer's. */
    method Place(c: Checkout) returns (r: PlaceResult)
      modifies this
      ensures orders == Next(old(orders), Step.Place(c))
      ensures r == if LockedDP(c).None? && Find(old(orders), c.customer, c.key).None? then NotPlaced(InvalidInput)
                   else PlaceStep(old(orders), c).1
    {
      var first := FindByKey(c.customer, c.key);
      if first.Some? {
        return Existing(first.value);
      }
      var dp := LockedDP(c);
      if dp.None? {
        return NotPlaced(InvalidInput);
      }
      r := PlaceTx(c);
    }

    /** A twin request may have committed meanwhile, so the key is looked up again. */
    method PlaceTx(c: Checkout) returns (r: PlaceResult)
      modifies this
      ensures orders == Next(old(orders), Step.Place(c)) && r == PlaceStep(old(orders), c).1
    {
      var twin := FindByKey(c.customer, c.key);
      if twin.Some? {
        return Existing(twin.value);
      }
      var waiting := CountAwaiting(orders, c.customer);
      if waiting >= MAX_AWAITING {
        return TooManyUnpaid;
      }
      var o := NewOrder(c);
      if o.Refused? {
        return NotPlaced(o.reason);
      }
      orders := orders + [o.order];
      r := Placed(|orders| - 1);
    }
  }
}
