/** What every run of the order system keeps: no cake leaves unpaid, and no
    rupiah is billed twice. */
module OrderLaws {
  import opened Base
  import opened Clock
  import opened Orders
  import L = PaymentLedger
  import Payments

  /** Where an order stands says what was paid of it. */
  ghost predicate PaidAsItStands(o: Order) {
    var paid := L.TotalPaid(o.ledger);
    match o.status
    case AwaitingDP => o.payment == L.Unpaid && paid == 0
    case Expired => o.payment == L.Unpaid && paid == 0
    case Confirmed =>
      || (o.payment == L.DPPaid && o.dp <= paid < o.total)
      || (o.payment == L.PaidInFull && paid == o.total)
    case Cancelled =>
      || (o.payment == L.Forfeited && o.dp <= paid < o.total)
      || (o.payment == L.Refunded && paid == 0)
    case _ => o.payment == L.PaidInFull && paid == o.total
  }

  /** At most one invoice is open, never for more than is owed; an open balance is
      all that is owed; an order that ended or is paid in full has none open. */
  ghost predicate BilledOnce(o: Order) {
    && L.OpenCount(o.ledger) <= 1
    && 0 <= L.TotalOpen(o.ledger)
    && L.TotalPaid(o.ledger) + L.TotalOpen(o.ledger) <= o.total
    && (o.status != AwaitingDP && o.payment != L.DPPaid ==> L.OpenCount(o.ledger) == 0)
    && (L.OpenCount(o.ledger) == 1 ==> OneIsOpen(o))
    && (L.OpenCount(o.ledger) == 0 ==> L.TotalOpen(o.ledger) == 0)
  }

  /** The newest payment is the open one: the first payment of a waiting order, or
      the whole balance of a confirmed one. */
  ghost predicate OneIsOpen(o: Order)
  {
    && o.ledger != []
    && var p := o.ledger[|o.ledger| - 1];
       && p.state == L.Pending && p.amount > 0 && L.TotalOpen(o.ledger) == p.amount
       && match o.status
          case AwaitingDP => p.kind == L.DP || p.kind == L.Full
          case Confirmed => p.kind == L.Balance && p.amount == o.total - L.TotalPaid(o.ledger)
          case _ => false
  }

  ghost predicate Sound(o: Order) {
    && 0 < o.dp <= o.total <= Payments.MAX_ORDER_TOTAL
    && PaidAsItStands(o)
    && BilledOnce(o)
  }

  /** Closing the open invoices and settling on right statuses keeps an order sound. */
  lemma SettlingKeepsSound(o: Order, ledger: seq<L.Payment>, status: Status, payment: L.Status)
    requires 0 < o.dp <= o.total <= Payments.MAX_ORDER_TOTAL && status != AwaitingDP
    requires PaidAsItStands(o.(status := status, payment := payment, ledger := ledger))
    ensures Sound(Settled(o, ledger, status, payment))
  {
    L.ExpiringKeepsWhatWasPaid(ledger);
  }

  lemma AdvancingKeepsSound(o: Order, to: Status)
    requires Sound(o) && AdvanceStep(o, to).Done?
    ensures Sound(AdvanceStep(o, to).order)
  {
    TheLifecycle(o.status, o.payment, o.fulfillment, to);
  }

  /** The row a payment that is taken adds. */
  lemma AddedRow(ledger: seq<L.Payment>, kind: L.Kind, amount: int)
    requires amount > 0 && L.AddManual(ledger, kind, amount).Added?
    ensures L.AddManual(ledger, kind, amount) == L.Added(ledger + [L.Payment(kind, amount, 0, L.Paid)])
  {
  }

  /** What an accepted payment does to an order. */
  lemma ReceivedAs(o: Order, kind: L.Kind, amount: int)
    requires amount > 0 && Received(o, kind, amount).Done?
    ensures var pay := L.Settle(o.payment, o.total, o.dp, L.TotalPaid(o.ledger) + amount);
            && pay.Now?
            && Received(o, kind, amount).order
                 == Settled(o, o.ledger + [L.Payment(kind, amount, 0, L.Paid)], Confirmed, pay.status)
  {
    var s := L.Settle(o.payment, o.total, o.dp, L.TotalPaid(o.ledger) + amount);
    var a := L.AddManual(o.ledger, kind, amount);
    assert s.Now? && a.Added? && Received(o, kind, amount) == Done(Settled(o, a.ps, Confirmed, s.status));
    AddedRow(o.ledger, kind, amount);
  }

  lemma RecordedIs(o: Order, amount: int)
    requires RecordStep(o, amount).Done?
    ensures 0 < amount && (o.status == AwaitingDP || o.status == Confirmed)
    ensures var kind := ManualKind(o, L.TotalPaid(o.ledger), amount);
            kind.Is? && RecordStep(o, amount) == Received(o, kind.kind, amount)
  {
  }

  lemma KindOfAccepted(o: Order, amount: int)
    requires Sound(o) && ManualKind(o, L.TotalPaid(o.ledger), amount).Is? && 0 < amount
    ensures ManualKind(o, L.TotalPaid(o.ledger), amount)
         == Is(if o.status == Confirmed then L.Balance else if amount == o.total then L.Full else L.DP)
    ensures var paid := L.TotalPaid(o.ledger) + amount;
            && o.dp <= paid <= o.total
            && L.Settle(o.payment, o.total, o.dp, paid) == L.Now(if paid == o.total then L.PaidInFull else L.DPPaid)
  {
  }

  lemma RecordingKeepsSound(o: Order, amount: int)
    requires Sound(o) && RecordStep(o, amount).Done?
    ensures Sound(RecordStep(o, amount).order)
  {
    KindOfAccepted(o, amount);
    var paid := L.TotalPaid(o.ledger);
    var kind := ManualKind(o, paid, amount).kind;
    ReceivedAs(o, kind, amount);
    var p := L.Payment(kind, amount, 0, L.Paid);
    L.OneMore(o.ledger, p);
    SettlingKeepsSound(o, o.ledger + [p], Confirmed, L.Settle(o.payment, o.total, o.dp, paid + amount).status);
  }

  /** Where a cancelled order ends, it is settled: unpaid, with its deposit
      kept, or with all of it returned. */
  lemma EndingsAreRight(o: Order, mode: CancelMode, now: Instant)
    requires Sound(o) && EndingOf(o, mode, now).Ends?
    ensures var e := EndingOf(o, mode, now);
            match mode
            case CancelUnpaid => o.status == AwaitingDP && e == Ends(Expired, L.Unpaid)
            case CancelForfeit =>
              o.status == Confirmed && o.payment == L.DPPaid && now >= o.balanceDue && e == Ends(Cancelled, L.Forfeited)
            case CancelRefund => o.status == Confirmed && e == Ends(Cancelled, L.Refunded)
  {
  }

  lemma ClosingKeepsSound(o: Order, mode: CancelMode, now: Instant)
    requires Sound(o) && mode != CancelRefund && CancelStep(o, mode, now).Done?
    ensures Sound(CancelStep(o, mode, now).order)
  {
    EndingsAreRight(o, mode, now);
    var ending := EndingOf(o, mode, now);
    SettlingKeepsSound(o, o.ledger, ending.status, ending.payment);
  }

  function RefundOf(o: Order): L.Payment { L.Payment(L.Refund, -L.TotalPaid(o.ledger), 0, L.Paid) }

  lemma RefundStep(o: Order)
    requires EndedAs(o, CancelRefund, Ends(Cancelled, L.Refunded)).Done?
    ensures EndedAs(o, CancelRefund, Ends(Cancelled, L.Refunded)).order
         == Settled(o, o.ledger + [RefundOf(o)], Cancelled, L.Refunded)
  {
    assert L.AddManual(o.ledger, L.Refund, -L.TotalPaid(o.ledger)) == L.Added(o.ledger + [RefundOf(o)]);
  }

  lemma RefundingKeepsSound(o: Order, now: Instant)
    requires Sound(o) && CancelStep(o, CancelRefund, now).Done?
    ensures Sound(CancelStep(o, CancelRefund, now).order)
  {
    EndingsAreRight(o, CancelRefund, now);
    RefundStep(o);
    RefundedOrderIsSound(o);
  }

  lemma RefundedOrderIsSound(o: Order)
    requires Sound(o)
    ensures Sound(Settled(o, o.ledger + [RefundOf(o)], Cancelled, L.Refunded))
  {
    L.OneMore(o.ledger, RefundOf(o));
    SettlingKeepsSound(o, o.ledger + [RefundOf(o)], Cancelled, L.Refunded);
  }

  lemma CancellingKeepsSound(o: Order, mode: CancelMode, now: Instant)
    requires Sound(o) && CancelStep(o, mode, now).Done?
    ensures Sound(CancelStep(o, mode, now).order)
  {
    if mode == CancelRefund {
      RefundingKeepsSound(o, now);
    } else {
      ClosingKeepsSound(o, mode, now);
    }
  }

  lemma SweepingKeepsSound(o: Order, sweep: Sweep, now: Instant)
    requires Sound(o)
    ensures Sound(SweepStep(o, sweep, now))
  {
    if IsDue(o, sweep, now) {
      SettlingKeepsSound(o, o.ledger, if sweep == Unpaid then Expired else Cancelled,
                         if sweep == Unpaid then o.payment else L.Forfeited);
    }
  }

  lemma BillingKeepsSound(o: Order, now: Instant, fee: Option<int>)
    requires Sound(o) && BillStep(o, now, fee).Done?
    ensures Sound(BillStep(o, now, fee).order)
  {
  }

  /** The locked deposit is positive and at most the total, all of it when the
      order must be paid in full. */
  lemma LockedDPIsInRange(c: Checkout)
    requires LockedDP(c).Some?
    ensures 0 < LockedDP(c).value <= c.total <= Payments.MAX_ORDER_TOTAL
    ensures FullRequired(c) ==> LockedDP(c).value == c.total
  {
  }

  lemma FirstPaymentIsOpen(kind: L.Kind, amount: int, fee: int)
    ensures var ps := [L.Payment(kind, amount, fee, L.Pending)];
            L.TotalPaid(ps) == 0 && L.TotalOpen(ps) == amount && L.OpenCount(ps) == 1
  {
  }

  lemma NewOrdersAreSound(c: Checkout)
    requires NewOrder(c).Done?
    ensures Sound(NewOrder(c).order)
  {
    LockedDPIsInRange(c);
    var o := NewOrder(c).order;
    var full := FullRequired(c) || c.payInFull;
    var (kind, amount, fee) := if full then (L.Full, c.total, c.fullFee) else (L.DP, o.dp, c.dpFee);
    FirstPaymentIsOpen(kind, amount, fee);
    assert o.ledger == [L.Payment(kind, amount, fee, L.Pending)];
  }

  /** The order a checkout becomes, column by column. It is paid in full at once when
      it is small, when the schedule is tight, or when the customer wishes; its
      deposit is all of it in the first two cases alone. */
  lemma NewOrderIs(c: Checkout)
    ensures var small := c.total < c.policy.dpMinTotal || c.tight;
            var priced :=
              && 1 <= c.policy.dpMinPercent <= 100
              && 0 < c.total <= 0x100_0000_0000 && 0 <= c.cost <= 0x100_0000_0000;
            var fee := if small || c.payInFull then c.fullFee else c.dpFee;
            && (!priced <==> NewOrder(c) == Refused(InvalidInput))
            && (priced && fee < 0 <==> NewOrder(c) == Refused(BadAmount))
            && (NewOrder(c).Refused? ==> NewOrder(c).reason in {InvalidInput, BadAmount})
    ensures NewOrder(c).Done? ==>
              var o, small := NewOrder(c).order, c.total < c.policy.dpMinTotal || c.tight;
              && o.customer == c.customer && o.key == c.key && o.date == c.date && o.items == c.items
              && o.status == AwaitingDP && o.payment == L.Unpaid && o.fulfillment == Pickup
              && o.total == c.total && o.dpDue == c.dpDue && o.balanceDue == c.balanceDue
              && Some(o.dp) == (if small then Some(c.total) else Payments.DPRequired(c.policy, c.total, c.cost))
              && o.ledger == [if small || c.payInFull then L.Payment(L.Full, c.total, c.fullFee, L.Pending)
                              else L.Payment(L.DP, o.dp, c.dpFee, L.Pending)]
  {
    Payments.DPExactlyWhen(c.policy, c.total, c.cost);
    if NewOrder(c).Done? {
      LockedDPIsInRange(c);
    }
  }

  /** Where a customer's orders that wait for a deposit are. */
  ghost function WaitingAt(orders: seq<Order>, customer: Id): set<int> {
    set i | 0 <= i < |orders| && orders[i].customer == customer && orders[i].status == AwaitingDP
  }

  lemma WaitingAtLast(orders: seq<Order>, customer: Id)
    requires orders != []
    ensures var last := |orders| - 1;
            && last !in WaitingAt(orders[..last], customer)
            && WaitingAt(orders, customer)
                 == WaitingAt(orders[..last], customer) + if Waits(orders[last], customer) then {last} else {}
  {
  }

  /** Counting a customer's waiting orders counts each once. */
  lemma {:induction false} AwaitingCounted(orders: seq<Order>, customer: Id)
    ensures CountAwaiting(orders, customer) == |WaitingAt(orders, customer)|
  {
    if orders != [] {
      AwaitingCounted(orders[..|orders| - 1], customer);
      WaitingAtLast(orders, customer);
    }
  }

  /** What a checkout gets: its own order when it has the key of one, a refusal when
      the customer has two orders waiting, and else a new order, the last one. */
  lemma PlacedExactlyWhen(orders: seq<Order>, c: Checkout)
    ensures var (later, r) := PlaceStep(orders, c);
            var twin := exists i :: 0 <= i < |orders| && orders[i].customer == c.customer && orders[i].key == c.key;
            if twin then
              && later == orders && r.Existing? && r.id < |orders|
              && orders[r.id].customer == c.customer && orders[r.id].key == c.key
            else if |WaitingAt(orders, c.customer)| >= 2 then later == orders && r == TooManyUnpaid
            else if NewOrder(c).Refused? then later == orders && r == NotPlaced(NewOrder(c).reason)
            else later == orders + [NewOrder(c).order] && r == Placed(|orders|)
  {
    AwaitingCounted(orders, c.customer);
    NewOrderIs(c);
  }

  // ----- What is accepted, exactly -----

  ghost predicate PaidIn(o: Order, amount: int, p: Order) {
    && L.TotalPaid(p.ledger) == L.TotalPaid(o.ledger) + amount
    && var kind := if o.status == Confirmed then L.Balance else if amount == o.total then L.Full else L.DP;
       p == o.(status := Confirmed,
               payment := if L.TotalPaid(p.ledger) == o.total then L.PaidInFull else L.DPPaid,
               ledger := L.ExpirePending(o.ledger) + [L.Payment(kind, amount, 0, L.Paid)])
  }

  /** What a row adds to a ledger that is closed with it. */
  lemma RowAdded(ledger: seq<L.Payment>, row: L.Payment)
    requires row.state == L.Paid
    ensures var ps := L.ExpirePending(ledger + [row]);
            L.TotalPaid(ps) == L.TotalPaid(ledger) + row.amount && ps == L.ExpirePending(ledger) + [row]
  {
    L.OneMore(ledger, row);
    L.ExpiringKeepsWhatWasPaid(ledger + [row]);
  }

  lemma AcceptedPaymentsAreIn(o: Order, amount: int)
    requires Sound(o) && RecordStep(o, amount).Done?
    ensures PaidIn(o, amount, RecordStep(o, amount).order)
  {
    RecordedIs(o, amount);
    KindOfAccepted(o, amount);
    var kind := ManualKind(o, L.TotalPaid(o.ledger), amount).kind;
    var row := L.Payment(kind, amount, 0, L.Paid);
    ReceivedAs(o, kind, amount);
    RowAdded(o.ledger, row);
    SettledIsPaidIn(o, kind, amount);
  }

  lemma SettledIsPaidIn(o: Order, kind: L.Kind, amount: int)
    requires var ps := L.ExpirePending(o.ledger + [L.Payment(kind, amount, 0, L.Paid)]);
             && L.TotalPaid(ps) == L.TotalPaid(o.ledger) + amount
             && ps == L.ExpirePending(o.ledger) + [L.Payment(kind, amount, 0, L.Paid)]
    requires kind == if o.status == Confirmed then L.Balance else if amount == o.total then L.Full else L.DP
    ensures var paid := L.TotalPaid(o.ledger) + amount;
            PaidIn(o, amount, Settled(o, o.ledger + [L.Payment(kind, amount, 0, L.Paid)], Confirmed,
                                      if paid == o.total then L.PaidInFull else L.DPPaid))
  {
  }

  /** A payment is accepted just when a waiting order gets its deposit at least,
      or a confirmed one no more than it still owes. It adds what was paid, for
      the purpose its size says, and confirms the order. */
  lemma PaymentsAcceptedExactlyWhen(o: Order, amount: int)
    requires Sound(o)
    ensures RecordStep(o, amount).Done? <==>
              || (o.status == AwaitingDP && o.dp <= amount <= o.total)
              || (o.status == Confirmed && o.payment == L.DPPaid && 0 < amount <= o.total - L.TotalPaid(o.ledger))
    ensures RecordStep(o, amount).Done? ==> PaidIn(o, amount, RecordStep(o, amount).order)
  {
    TheLifecycle(o.status, L.DPPaid, o.fulfillment, Confirmed);
    TheLifecycle(o.status, L.PaidInFull, o.fulfillment, Confirmed);
    if RecordStep(o, amount).Done? {
      AcceptedPaymentsAreIn(o, amount);
    }
  }

  /** An order moves on just when it is asked where it is, or one step further and
      paid in full. */
  lemma StepsAcceptedExactlyWhen(o: Order, to: Status)
    requires Sound(o)
    ensures AdvanceStep(o, to).Done? <==>
              && to in {InProduction, Ready, Completed}
              && (|| o.status == to
                  || (o.status == Confirmed && to == InProduction && L.TotalPaid(o.ledger) == o.total)
                  || (o.status == InProduction && to == Ready)
                  || (o.status == Ready && to == Completed && o.fulfillment == Pickup)
                  || (o.status == OutForDelivery && to == Completed && o.fulfillment == Delivery))
  {
    TheLifecycle(o.status, o.payment, o.fulfillment, to);
  }

  /** An order is ended early just when it waits unpaid, or is confirmed and either
      refunded or past the deadline of a balance it still owes. */
  lemma CancellingAcceptedExactlyWhen(o: Order, mode: CancelMode, now: Instant)
    requires Sound(o)
    ensures CancelStep(o, mode, now).Done? <==>
              match mode
              case CancelUnpaid => o.status == AwaitingDP
              case CancelForfeit => o.status == Confirmed && o.payment == L.DPPaid && now >= o.balanceDue
              case CancelRefund => o.status == Confirmed
  {
    TheLifecycle(o.status, o.payment, o.fulfillment, Expired);
    TheLifecycle(o.status, L.Forfeited, o.fulfillment, Cancelled);
    TheLifecycle(o.status, L.Refunded, o.fulfillment, Cancelled);
  }

  /** The only reason a step is refused when the order is there is money: one that
      is confirmed and not paid in full does not go into production. A step that is
      taken changes where the order stands and nothing else. */
  lemma StepsAre(o: Order, to: Status)
    requires Sound(o)
    ensures AdvanceStep(o, to).Done? ==> AdvanceStep(o, to).order == o.(status := to)
    ensures AdvanceStep(o, to) == Refused(InvalidInput) <==> to !in {InProduction, Ready, Completed}
    ensures AdvanceStep(o, to) == Refused(PaymentRequired) <==>
              o.status == Confirmed && to == InProduction && L.TotalPaid(o.ledger) < o.total
    ensures AdvanceStep(o, to).Refused? ==>
              AdvanceStep(o, to).reason in {InvalidInput, PaymentRequired, IllegalTransition}
  {
    TheLifecycle(o.status, o.payment, o.fulfillment, to);
  }

  /** Why money is refused: the amount makes no sense, the payments are closed, all is
      paid, the order expired, it is more than is owed, or less than the deposit. */
  lemma PaymentsRefusedBecause(o: Order, amount: int)
    requires Sound(o) && RecordStep(o, amount).Refused?
    ensures RecordStep(o, amount).reason
         == if !(0 < amount <= 0x100_0000_0000) then InvalidInput
            else if o.status == Cancelled then PaymentsClosed
            else if o.payment == L.PaidInFull then NothingOwed
            else if o.status == Expired then NotOpen
            else if amount > o.total - L.TotalPaid(o.ledger) then TooMuch
            else BelowDP
  {
    PaymentsAcceptedExactlyWhen(o, amount);
  }

  /** How an order ends early: unpaid, with its deposit kept, or with all of it
      returned in one row; the open invoices close, and nothing else changes. */
  ghost predicate EndedRightly(o: Order, mode: CancelMode, p: Order) {
    var closed := L.ExpirePending(o.ledger);
    match mode
    case CancelUnpaid => p == o.(status := Expired, ledger := closed)
    case CancelForfeit => p == o.(status := Cancelled, payment := L.Forfeited, ledger := closed)
    case CancelRefund =>
      p == o.(status := Cancelled, payment := L.Refunded,
              ledger := closed + [L.Payment(L.Refund, -L.TotalPaid(o.ledger), 0, L.Paid)])
  }

  lemma CancelledAs(o: Order, mode: CancelMode, now: Instant)
    requires Sound(o) && CancelStep(o, mode, now).Done?
    ensures EndedRightly(o, mode, CancelStep(o, mode, now).order)
  {
    EndingsAreRight(o, mode, now);
    if mode == CancelRefund {
      RefundStep(o);
      RowAdded(o.ledger, RefundOf(o));
    } else {
      ClosedAs(o, mode, EndingOf(o, mode, now));
    }
  }

  lemma ClosedAs(o: Order, mode: CancelMode, ending: Ending)
    requires mode != CancelRefund && ending.Ends?
    ensures EndedAs(o, mode, ending)
         == Done(o.(status := ending.status, payment := ending.payment, ledger := L.ExpirePending(o.ledger)))
  {
  }

  /** Why an order does not end early. */
  lemma CancellingRefusedBecause(o: Order, mode: CancelMode, now: Instant)
    requires Sound(o) && CancelStep(o, mode, now).Refused?
    ensures CancelStep(o, mode, now).reason
         == match mode
            case CancelUnpaid => if o.status == Confirmed then AlreadyPaid else IllegalTransition
            case CancelForfeit =>
              if o.status == Confirmed && o.payment == L.DPPaid then BalanceNotDue else NotForfeitable
            case CancelRefund =>
              if o.status in {AwaitingDP, Expired, Cancelled} then NothingToRefund else IllegalTransition
  {
    CancellingAcceptedExactlyWhen(o, mode, now);
    TheLifecycle(o.status, o.payment, o.fulfillment, Expired);
    TheLifecycle(o.status, L.Forfeited, o.fulfillment, Cancelled);
    TheLifecycle(o.status, L.Refunded, o.fulfillment, Cancelled);
  }

  /** The worker ends an order half an hour after its deadline: a waiting one after
      the deposit's, unpaid, and one with only its deposit paid after the balance's,
      which it forfeits. It touches no other order. */
  lemma SweptExactlyWhen(o: Order, now: Instant)
    requires Sound(o)
    ensures SweepStep(o, Unpaid, now)
         == if o.status == AwaitingDP && now >= o.dpDue + 30 * MINUTE
            then o.(status := Expired, ledger := L.ExpirePending(o.ledger)) else o
    ensures SweepStep(o, Forfeit, now)
         == if o.status == Confirmed && o.payment == L.DPPaid && now >= o.balanceDue + 30 * MINUTE
            then o.(status := Cancelled, payment := L.Forfeited, ledger := L.ExpirePending(o.ledger)) else o
    ensures SweepStep(o, Unpaid, now) != o <==> o.status == AwaitingDP && now >= o.dpDue + 30 * MINUTE
    ensures SweepStep(o, Forfeit, now) != o <==>
              o.status == Confirmed && o.payment == L.DPPaid && now >= o.balanceDue + 30 * MINUTE
  {
  }

  /** A balance is billed just when the deposit is in, its deadline has not come and
      nothing is open: one pending invoice for all that is owed, whose fee must be
      known. Nothing else is ever billed. */
  lemma BilledExactlyWhen(o: Order, now: Instant, fee: Option<int>)
    requires Sound(o)
    ensures var owed, unbilled := o.total - L.TotalPaid(o.ledger), L.OpenCount(o.ledger) == 0;
            var due := o.status == Confirmed && o.payment == L.DPPaid && now < o.balanceDue && unbilled;
            && (!due ==> BillStep(o, now, fee) == Done(o))
            && (due && fee.None? ==> BillStep(o, now, fee) == Refused(NoMethod))
            && (due && fee.Some? && fee.value < 0 ==> BillStep(o, now, fee) == Refused(BadAmount))
            && (due && fee.Some? && fee.value >= 0 ==>
                  BillStep(o, now, fee)
                    == Done(o.(ledger := o.ledger + [L.Payment(L.Balance, owed, fee.value, L.Pending)])))
  {
    if L.OpenCount(o.ledger) == 0 {
      L.NoneOpen(o.ledger);
    } else {
      assert L.OpenCount(o.ledger) == 1 ==> OneIsOpen(o);
      assert o.status == Confirmed ==> Bills(o.ledger[|o.ledger| - 1]);
    }
  }

  /** No row of a ledger is ever lost or rewritten; an open invoice may only close. */
  ghost predicate OnlyGrows(was: seq<L.Payment>, now: seq<L.Payment>) {
    && |was| <= |now|
    && forall i :: 0 <= i < |was| ==> now[i] == was[i] || now[i] == L.Expire(was[i])
  }

  lemma LedgersOnlyGrow(o: Order, a: Action)
    ensures OnlyGrows(o.ledger, OrderAfter(o, a).ledger)
  {
  }

  // ----- Runs -----

  datatype Action =
    | Advancing(to: Status) | Recording(amount: int) | Cancelling(mode: CancelMode, at: Instant)
    | Sweeping(sweep: Sweep, at: Instant) | Billing(at: Instant, fee: Option<int>)

  /** Any action on any order, or any checkout, in any order. */
  datatype Step = Act(i: nat, action: Action) | Place(checkout: Checkout)

  function ResultOf(o: Order, a: Action): Result {
    match a
    case Advancing(to) => AdvanceStep(o, to)
    case Recording(amount) => RecordStep(o, amount)
    case Cancelling(mode, now) => CancelStep(o, mode, now)
    case Sweeping(sweep, now) => Done(SweepStep(o, sweep, now))
    case Billing(now, fee) => BillStep(o, now, fee)
  }

  function OrderAfter(o: Order, a: Action): Order {
    var r := ResultOf(o, a);
    if r.Done? then r.order else o
  }

  function Next(orders: seq<Order>, step: Step): seq<Order> {
    match step
    case Act(i, action) => if i < |orders| then orders[i := OrderAfter(orders[i], action)] else orders
    case Place(checkout) => PlaceStep(orders, checkout).0
  }

  function Run(orders: seq<Order>, steps: seq<Step>): seq<Order> {
    if steps == [] then orders else Next(Run(orders, steps[..|steps| - 1]), steps[|steps| - 1])
  }

  /** An action does its step to its order, when that is done, and nothing to any other. */
  lemma ActingIs(orders: seq<Order>, i: nat, a: Action)
    ensures i >= |orders| ==> Next(orders, Act(i, a)) == orders
    ensures i < |orders| ==>
              var o := orders[i];
              var r := match a
                       case Advancing(to) => AdvanceStep(o, to)
                       case Recording(amount) => RecordStep(o, amount)
                       case Cancelling(mode, now) => CancelStep(o, mode, now)
                       case Sweeping(sweep, now) => Done(SweepStep(o, sweep, now))
                       case Billing(now, fee) => BillStep(o, now, fee);
              Next(orders, Act(i, a)) == if r.Done? then orders[i := r.order] else orders
  {
    if i < |orders| {
      assert orders == orders[i := orders[i]];
    }
  }

  ghost predicate SameKey(o: Order, p: Order) { o.customer == p.customer && o.key == p.key }

  ghost predicate OneOrderPerKey(orders: seq<Order>) {
    forall i, j :: 0 <= i < j < |orders| ==> !SameKey(orders[i], orders[j])
  }

  ghost predicate FewAwaiting(orders: seq<Order>) {
    forall customer :: CountAwaiting(orders, customer) <= 2
  }

  ghost predicate Inv(orders: seq<Order>) {
    && (forall i :: 0 <= i < |orders| ==> Sound(orders[i]))
    && OneOrderPerKey(orders)
    && FewAwaiting(orders)
  }

  lemma ActingKeepsSound(o: Order, a: Action)
    requires Sound(o)
    ensures Sound(OrderAfter(o, a))
  {
    if ResultOf(o, a).Done? {
      match a {
        case Advancing(to) => AdvancingKeepsSound(o, to);
        case Recording(amount) => RecordingKeepsSound(o, amount);
        case Cancelling(mode, now) => CancellingKeepsSound(o, mode, now);
        case Sweeping(sweep, now) => SweepingKeepsSound(o, sweep, now);
        case Billing(now, fee) => BillingKeepsSound(o, now, fee);
      }
    }
  }

  ghost predicate Ended(o: Order) { o.status == Expired || o.status == Completed || o.status == Cancelled }

  /** Whose order it is, what it is for and costs, that it was placed, and that it
      ended. */
  ghost predicate KeepsWhatItIs(o: Order, p: Order) {
    && SameKey(p, o) && p.total == o.total && p.dp == o.dp && p.date == o.date && p.items == o.items
    && (p.status == AwaitingDP ==> o.status == AwaitingDP)
    && (Ended(o) ==> p == o)
  }

  lemma WhatCancellingKeeps(o: Order, mode: CancelMode, now: Instant)
    requires Sound(o) && CancelStep(o, mode, now).Done?
    ensures KeepsWhatItIs(o, CancelStep(o, mode, now).order)
  {
    EndingsAreRight(o, mode, now);
  }

  lemma WhatSettlingKeeps(o: Order, ledger: seq<L.Payment>, payment: L.Status)
    requires !Ended(o)
    ensures KeepsWhatItIs(o, Settled(o, ledger, Confirmed, payment))
  {
  }

  lemma WhatReceivingKeeps(o: Order, kind: L.Kind, amount: int)
    requires !Ended(o) && amount > 0 && Received(o, kind, amount).Done?
    ensures KeepsWhatItIs(o, Received(o, kind, amount).order)
  {
    ReceivedAs(o, kind, amount);
    WhatSettlingKeeps(o, o.ledger + [L.Payment(kind, amount, 0, L.Paid)],
                      L.Settle(o.payment, o.total, o.dp, L.TotalPaid(o.ledger) + amount).status);
  }

  lemma WhatRecordingKeeps(o: Order, amount: int)
    requires RecordStep(o, amount).Done?
    ensures KeepsWhatItIs(o, RecordStep(o, amount).order)
  {
    RecordedIs(o, amount);
    var kind := ManualKind(o, L.TotalPaid(o.ledger), amount).kind;
    assert RecordStep(o, amount) == Received(o, kind, amount);
    WhatReceivingKeeps(o, kind, amount);
  }

  /** No action changes whose order it is or what it costs, brings an order back
      to waiting, or changes one that ended. */
  lemma WhatActionsKeep(o: Order, a: Action)
    requires Sound(o)
    ensures KeepsWhatItIs(o, OrderAfter(o, a))
  {
    if ResultOf(o, a).Done? {
      match a {
        case Advancing(to) => TheLifecycle(o.status, o.payment, o.fulfillment, to);
        case Recording(amount) => WhatRecordingKeeps(o, amount);
        case Cancelling(mode, now) => WhatCancellingKeeps(o, mode, now);
        case _ =>
      }
    }
  }

  lemma {:induction false} ActingNeverAddsAwaiting(orders: seq<Order>, i: nat, later: Order, customer: Id)
    requires i < |orders| && (Waits(later, customer) ==> Waits(orders[i], customer))
    ensures CountAwaiting(orders[i := later], customer) <= CountAwaiting(orders, customer)
  {
    var front := orders[..|orders| - 1];
    if i == |orders| - 1 {
      assert orders[i := later][..|orders| - 1] == front;
    } else {
      assert orders[i := later][..|orders| - 1] == front[i := later];
      ActingNeverAddsAwaiting(front, i, later, customer);
    }
  }

  lemma ActingKeepsInv(orders: seq<Order>, i: nat, a: Action)
    requires Inv(orders) && i < |orders|
    ensures Inv(Next(orders, Act(i, a)))
  {
    var later := OrderAfter(orders[i], a);
    assert Sound(orders[i]);
    ActingKeepsSound(orders[i], a);
    WhatActionsKeep(orders[i], a);
    var after := orders[i := later];
    forall customer ensures CountAwaiting(after, customer) <= MAX_AWAITING {
      ActingNeverAddsAwaiting(orders, i, later, customer);
    }
    forall j, k | 0 <= j < k < |orders| ensures !SameKey(after[j], after[k]) {
      assert !SameKey(orders[j], orders[k]);
    }
  }

  /** A checkout is one order more, waiting, or changes nothing. */
  lemma PlacedIs(orders: seq<Order>, c: Checkout)
    ensures var later := Next(orders, Place(c));
            || later == orders
            || (&& NewOrder(c).Done? && later == orders + [NewOrder(c).order]
                && Find(orders, c.customer, c.key).None? && CountAwaiting(orders, c.customer) < MAX_AWAITING)
  {
  }

  lemma NewOrdersWait(c: Checkout)
    requires NewOrder(c).Done?
    ensures var o := NewOrder(c).order; o.customer == c.customer && o.key == c.key && o.status == AwaitingDP
  {
  }

  lemma OneMoreKeepsInv(orders: seq<Order>, o: Order)
    requires Inv(orders) && Sound(o) && Find(orders, o.customer, o.key).None?
    requires CountAwaiting(orders, o.customer) < MAX_AWAITING
    ensures Inv(orders + [o])
  {
    var later := orders + [o];
    assert later[..|later| - 1] == orders;
    forall customer ensures CountAwaiting(later, customer) <= MAX_AWAITING {
      assert CountAwaiting(orders, customer) <= MAX_AWAITING;
    }
    forall j, k | 0 <= j < k < |later| ensures !SameKey(later[j], later[k]) {
      assert k < |orders| ==> !SameKey(orders[j], orders[k]);
    }
  }

  lemma PlacingKeepsInv(orders: seq<Order>, c: Checkout)
    requires Inv(orders)
    ensures Inv(Next(orders, Place(c)))
  {
    PlacedIs(orders, c);
    if Next(orders, Place(c)) != orders {
      NewOrdersAreSound(c);
      NewOrdersWait(c);
      OneMoreKeepsInv(orders, NewOrder(c).order);
    }
  }

  lemma NextKeepsInv(orders: seq<Order>, step: Step)
    requires Inv(orders)
    ensures Inv(Next(orders, step))
  {
    match step
    case Act(i, a) =>
      if i < |orders| {
        ActingKeepsInv(orders, i, a);
      }
    case Place(c) => PlacingKeepsInv(orders, c);
  }

  /** Every reachable state: whatever customers, staff and the worker do, and in
      whatever order, every order is sound, no key has two orders, and no customer
      has more than two orders waiting for a deposit. */
  lemma {:induction false} EveryReachableStateIsSound(steps: seq<Step>)
    ensures Inv(Run([], steps))
  {
    if steps != [] {
      EveryReachableStateIsSound(steps[..|steps| - 1]);
      NextKeepsInv(Run([], steps[..|steps| - 1]), steps[|steps| - 1]);
    }
  }

  /** No cake leaves unpaid, and no rupiah is billed twice: an order in production
      or later was paid exactly its total and has no open invoice; at no time is
      more paid or asked for than the total, nor two invoices open. */
  lemma NoCakeLeavesUnpaid(steps: seq<Step>, i: nat)
    requires i < |Run([], steps)|
    ensures var o := Run([], steps)[i];
            && (o.status in {InProduction, Ready, OutForDelivery, Completed} ==>
                  L.TotalPaid(o.ledger) == o.total && L.OpenCount(o.ledger) == 0)
            && L.TotalPaid(o.ledger) + L.TotalOpen(o.ledger) <= o.total
            && L.OpenCount(o.ledger) <= 1
            && (Ended(o) || o.payment == L.PaidInFull ==> L.OpenCount(o.ledger) == 0)
            && (o.status == Cancelled ==> L.TotalPaid(o.ledger) == 0 || o.dp <= L.TotalPaid(o.ledger) < o.total)
            && (o.status == Expired ==> L.TotalPaid(o.ledger) == 0)
  {
    EveryReachableStateIsSound(steps);
    assert Sound(Run([], steps)[i]);
  }

  // ----- What later steps cannot change -----

  lemma {:induction false} FoundStaysFound(orders: seq<Order>, i: nat, later: Order, customer: Id, key: Id)
    requires i < |orders| && SameKey(later, orders[i])
    ensures Find(orders[i := later], customer, key) == Find(orders, customer, key)
  {
    var front := orders[..|orders| - 1];
    if i == |orders| - 1 {
      assert orders[i := later][..|orders| - 1] == front;
    } else {
      assert orders[i := later][..|orders| - 1] == front[i := later];
      FoundStaysFound(front, i, later, customer, key);
    }
  }

  lemma IdentityIsKept(o: Order, a: Action)
    ensures SameKey(OrderAfter(o, a), o)
  {
  }

  /** The key is looked up before the lock is taken. That read stays right: the
      order it found is the one any later, locked read finds. */
  lemma {:induction false} UnlockedReadStaysRight(orders: seq<Order>, steps: seq<Step>, customer: Id, key: Id)
    requires Find(orders, customer, key).Some?
    ensures Find(Run(orders, steps), customer, key) == Find(orders, customer, key)
  {
    if steps != [] {
      UnlockedReadStaysRight(orders, steps[..|steps| - 1], customer, key);
      var before, step := Run(orders, steps[..|steps| - 1]), steps[|steps| - 1];
      var later := Next(before, step);
      if later != before {
        match step {
          case Act(i, a) =>
            IdentityIsKept(before[i], a);
            FoundStaysFound(before, i, OrderAfter(before[i], a), customer, key);
          case Place(c) => assert later[..|later| - 1] == before;
        }
      }
    }
  }

  /** An order that ended stays as it is, money included, whatever follows. */
  lemma {:induction false} EndedOrdersStay(first: seq<Step>, more: seq<Step>, i: nat)
    requires i < |Run([], first)| && Ended(Run([], first)[i])
    ensures i < |Run([], first + more)| && Run([], first + more)[i] == Run([], first)[i]
  {
    if more == [] {
      assert first + more == first;
    } else {
      EndedOrdersStay(first, more[..|more| - 1], i);
      var earlier := first + more[..|more| - 1];
      assert (first + more)[..|first + more| - 1] == earlier;
      EveryReachableStateIsSound(earlier);
      var before, step := Run([], earlier), more[|more| - 1];
      if step.Act? && step.i == i {
        assert Sound(before[i]);
        WhatActionsKeep(before[i], step.action);
      }
    }
  }

  /** Whatever follows, no row of an order's ledger is lost or rewritten. */
  lemma {:induction false} HistoryIsKept(first: seq<Step>, more: seq<Step>, i: nat)
    requires i < |Run([], first)|
    ensures i < |Run([], first + more)|
    ensures OnlyGrows(Run([], first)[i].ledger, Run([], first + more)[i].ledger)
  {
    if more == [] {
      assert first + more == first;
    } else {
      HistoryIsKept(first, more[..|more| - 1], i);
      var earlier := first + more[..|more| - 1];
      assert (first + more)[..|first + more| - 1] == earlier;
      StepKeepsHistory(Run([], earlier), more[|more| - 1], i);
      GrowsTwice(Run([], first)[i].ledger, Run([], earlier)[i].ledger, Run([], first + more)[i].ledger);
    }
  }

  lemma GrowsTwice(a: seq<L.Payment>, b: seq<L.Payment>, c: seq<L.Payment>)
    requires OnlyGrows(a, b) && OnlyGrows(b, c)
    ensures OnlyGrows(a, c)
  {
  }

  lemma StepKeepsHistory(orders: seq<Order>, step: Step, i: nat)
    requires i < |orders|
    ensures i < |Next(orders, step)| && OnlyGrows(orders[i].ledger, Next(orders, step)[i].ledger)
  {
    if step.Act? && step.i == i {
      LedgersOnlyGrow(orders[i], step.action);
    }
  }
}
