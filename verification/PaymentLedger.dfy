/** The payment ledger of one order (internal/payments/ledger.go, status.go):
    rows that are pending, paid or expired, and how far they pay the order. */
module PaymentLedger {
  import opened Base
  import Payments

  datatype Kind = DP | Balance | Full | Refund

  datatype State = Pending | Paid | Expired | Failed

  datatype Payment = Payment(kind: Kind, amount: int, fee: int, state: State)

  datatype Status = Unpaid | DPPaid | PaidInFull | Forfeited | Refunded

  predicate Closed(s: Status) { s == Forfeited || s == Refunded }

  /** Payments only ever move up this order. */
  function Rank(s: Status): int {
    match s
    case Unpaid => 0
    case DPPaid => 1
    case PaidInFull => 2
    case _ => -1
  }

  // ----- What the ledger adds up to -----

  function PaidOf(p: Payment): int { if p.state == State.Paid then p.amount else 0 }

  function OpenOf(p: Payment): int { if p.state == Pending then p.amount else 0 }

  /** What was paid, refunds included; fees never count. */
  function TotalPaid(ps: seq<Payment>): int {
    if ps == [] then 0 else TotalPaid(ps[..|ps| - 1]) + PaidOf(ps[|ps| - 1])
  }

  /** What open invoices still ask for. */
  function TotalOpen(ps: seq<Payment>): int {
    if ps == [] then 0 else TotalOpen(ps[..|ps| - 1]) + OpenOf(ps[|ps| - 1])
  }

  function OpenCount(ps: seq<Payment>): nat {
    if ps == [] then 0 else OpenCount(ps[..|ps| - 1]) + if ps[|ps| - 1].state == Pending then 1 else 0
  }

  method SumPaid(ps: seq<Payment>) returns (sum: int)
    ensures sum == TotalPaid(ps)
  {
    sum := 0;
    for i := 0 to |ps|
      invariant sum == TotalPaid(ps[..i])
    {
      assert ps[..i + 1][..i] == ps[..i];
      if ps[i].state == State.Paid {
        sum := sum + ps[i].amount;
      }
    }
    assert ps[..|ps|] == ps;
  }

  lemma OneMore(ps: seq<Payment>, p: Payment)
    ensures TotalPaid(ps + [p]) == TotalPaid(ps) + if p.state == State.Paid then p.amount else 0
    ensures TotalOpen(ps + [p]) == TotalOpen(ps) + if p.state == Pending then p.amount else 0
    ensures OpenCount(ps + [p]) == OpenCount(ps) + if p.state == Pending then 1 else 0
  {
  }

  /** A ledger without open invoices has none at any place. */
  lemma {:induction false} NoneOpen(ps: seq<Payment>)
    requires OpenCount(ps) == 0
    ensures TotalOpen(ps) == 0
    ensures forall i :: 0 <= i < |ps| ==> ps[i].state != Pending
  {
    if ps != [] {
      NoneOpen(ps[..|ps| - 1]);
    }
  }

  // ----- Its rows -----

  datatype AddResult = Added(ps: seq<Payment>) | BadAmount

  /** A payment the customer is yet to make. */
  function AddPending(ps: seq<Payment>, kind: Kind, amount: int, fee: int): AddResult {
    if kind == Refund || amount <= 0 || amount > Payments.MAX_ORDER_TOTAL || fee < 0 then BadAmount
    else Added(ps + [Payment(kind, amount, fee, Pending)])
  }

  /** Money the owner received or returned outside the provider. */
  function AddManual(ps: seq<Payment>, kind: Kind, amount: int): AddResult {
    if kind != Refund && (amount <= 0 || amount > Payments.MAX_ORDER_TOTAL) then BadAmount
    else if kind == Refund && (amount >= 0 || amount < -Payments.MAX_ORDER_TOTAL) then BadAmount
    else Added(ps + [Payment(kind, amount, 0, State.Paid)])
  }

  /** A pending row is a whole positive amount for the order with a fee on top; a
      manual row is money received, or money returned as a refund. */
  lemma RowsTakenExactlyWhen(ps: seq<Payment>, kind: Kind, amount: int, fee: int)
    ensures AddPending(ps, kind, amount, fee)
         == if kind != Refund && 0 < amount <= 0x100_0000_0000 && fee >= 0
            then Added(ps + [Payment(kind, amount, fee, Pending)]) else BadAmount
    ensures AddManual(ps, kind, amount)
         == if 0 < (if kind == Refund then -amount else amount) <= 0x100_0000_0000
            then Added(ps + [Payment(kind, amount, 0, State.Paid)]) else BadAmount
  {
  }

  function Expire(p: Payment): Payment { if p.state == Pending then p.(state := Expired) else p }

  /** Closes the open invoices and touches nothing else. */
  function ExpirePending(ps: seq<Payment>): (r: seq<Payment>)
    ensures |r| == |ps|
    ensures forall i :: 0 <= i < |ps| ==> r[i] == if ps[i].state == Pending then ps[i].(state := Expired) else ps[i]
  {
    if ps == [] then [] else ExpirePending(ps[..|ps| - 1]) + [Expire(ps[|ps| - 1])]
  }

  lemma {:induction false} ExpiringKeepsWhatWasPaid(ps: seq<Payment>)
    ensures TotalPaid(ExpirePending(ps)) == TotalPaid(ps)
    ensures OpenCount(ExpirePending(ps)) == 0 && TotalOpen(ExpirePending(ps)) == 0
  {
    if ps != [] {
      ExpiringKeepsWhatWasPaid(ps[..|ps| - 1]);
      OneMore(ExpirePending(ps[..|ps| - 1]), Expire(ps[|ps| - 1]));
    }
  }

  /** The update statement, row by row. */
  method CloseOpen(ps: seq<Payment>) returns (r: seq<Payment>, n: nat)
    ensures r == ExpirePending(ps) && n == OpenCount(ps)
  {
    r, n := [], 0;
    for i := 0 to |ps|
      invariant r == ExpirePending(ps[..i]) && n == OpenCount(ps[..i])
    {
      assert ps[..i + 1][..i] == ps[..i];
      if ps[i].state == Pending {
        n := n + 1;
      }
      r := r + [Expire(ps[i])];
    }
    assert ps[..|ps|] == ps;
  }

  // ----- How far the order is paid -----

  datatype StatusResult = Now(status: Status) | PaymentsClosed | IllegalClose

  function Settle(current: Status, total: int, dp: int, paid: int): StatusResult {
    if Closed(current) then PaymentsClosed
    else
      var next := if paid >= total && total > 0 then PaidInFull
                  else if paid >= dp && paid > 0 then DPPaid
                  else Unpaid;
      Now(if Rank(next) < Rank(current) then current else next)
  }

  /** Payments that are open settle on all when the total is paid, on the deposit when
      that is, and never go back. */
  lemma SettlesExactlyWhen(current: Status, total: int, dp: int, paid: int)
    requires !Closed(current)
    ensures var all, part := total > 0 && paid >= total, paid > 0 && paid >= dp;
            Settle(current, total, dp, paid) == Now(if all || current == PaidInFull then PaidInFull
                                                    else if part || current == DPPaid then DPPaid
                                                    else Unpaid)
  {
  }

  function Close(current: Status, to: Status): StatusResult {
    if to == Forfeited && current == DPPaid then Now(to)
    else if to == Refunded && (current == DPPaid || current == PaidInFull) then Now(to)
    else IllegalClose
  }

  /** What a status says of the amounts while payments are open. */
  ghost predicate Tells(s: Status, total: int, dp: int, paid: int) {
    match s
    case Unpaid => paid < dp
    case DPPaid => dp <= paid < total
    case PaidInFull => paid >= total
    case _ => true
  }

  /** While money only comes in, the status tells how far the order is paid; when
      the ledger falls, it stays where it was. */
  lemma SettleTellsTheAmounts(current: Status, total: int, dp: int, before: int, paid: int)
    requires !Closed(current) && 0 < dp <= total && Tells(current, total, dp, before)
    ensures var r := Settle(current, total, dp, paid);
            && r.Now? && Rank(r.status) >= Rank(current)
            && (before <= paid ==> Tells(r.status, total, dp, paid))
            && (paid < before ==> r.status == current)
  {
  }

  /** A status is closed only from a paid deposit, and never opened again. */
  lemma ClosedIsFinal(current: Status, to: Status, total: int, dp: int, paid: int)
    ensures Close(current, to).Now? ==> Close(current, to).status == to && Closed(to) && Rank(current) > 0
    ensures Closed(current) ==> Settle(current, total, dp, paid) == PaymentsClosed && Close(current, to) == IllegalClose
  {
  }
}
