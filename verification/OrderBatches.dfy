/** Orders and batches together (internal/orders/status.go,
    internal/aggregation/worker/worker.go): an order counts for the batch of its
    day from its deposit on; starting and stopping to count publishes an event,
    the event queues a computation, and workers take the jobs in any order. */
module OrderBatches {
  import opened Base
  import opened Clock
  import opened Dates
  import opened BatchNeeds
  import opened Allocation
  import opened AllocationLaws
  import opened AllocationRuns
  import opened TotalsLaws
  import Totals
  import O = Orders
  import OL = OrderLaws

  type Item = Totals.Item

  // ----- What a date's orders make -----

  function ItemsFor(o: O.Order, d: Date): seq<Item> { if O.Committed(o) && o.date == d then o.items else [] }

  /** The items of a date's orders that count; the query also sums them by variant. */
  function CommittedItems(orders: seq<O.Order>, d: Date): seq<Item> {
    if orders == [] then []
    else CommittedItems(orders[..|orders| - 1], d) + ItemsFor(orders[|orders| - 1], d)
  }

  /** An order more adds its items to the date it is for, if its deposit is in and it
      was not ended, and adds nothing to any other date. */
  lemma OneOrderMore(orders: seq<O.Order>, o: O.Order, d: Date)
    requires OL.Sound(o)
    ensures CommittedItems(orders + [o], d)
         == CommittedItems(orders, d)
            + if o.date == d && o.status !in {O.AwaitingDP, O.Expired, O.Cancelled} then o.items else []
  {
    assert (orders + [o])[..|orders|] == orders;
  }

  /** Items that order the same of each variant need the same: summing them by
      variant changes nothing. */
  lemma SummedItemsNeedTheSame(items: seq<Item>, again: seq<Item>, cat: Catalog)
    requires SameOrdered(items, again) && forall v: Id :: Asked(items, v) <==> Asked(again, v)
    ensures NeedsFrom(items, cat) == NeedsFrom(again, cat)
  {
    forall g: Id ensures Totals.NeedOf(items, cat.uses, cat.lines, g) == Totals.NeedOf(again, cat.uses, cat.lines, g) {
      NeedsInAnyOrder(items, again, cat.uses, cat.uses, cat.lines, cat.lines, g);
    }
    forall i | 0 <= i < |cat.lines|
      ensures Totals.Fails(items, cat.uses, cat.lines[i]) <==> Totals.Fails(again, cat.uses, cat.lines[i])
    {
      LinesInAnyOrder(items, again, cat.uses, cat.uses, cat.lines[i]);
    }
    forall g: Id
      ensures g in NeededOf(items, cat.uses, cat.lines) <==> g in NeededOf(again, cat.uses, cat.lines)
    {
      NeededIsNeedOf(items, cat.uses, cat.lines, g);
      NeededIsNeedOf(again, cat.uses, cat.lines, g);
    }
    assert Unbuildable(items, cat) <==> Unbuildable(again, cat);
  }

  // ----- Which actions change what counts -----

  ghost predicate Starts(o: O.Order, a: OL.Action) {
    a.Recording? && o.status == O.AwaitingDP && o.dp <= a.amount <= o.total
  }

  ghost predicate Stops(o: O.Order, a: OL.Action) {
    match a
    case Cancelling(mode, now) =>
      && o.status == O.Confirmed
      && (mode == O.CancelRefund || (mode == O.CancelForfeit && o.payment == O.L.DPPaid && now >= o.balanceDue))
    case Sweeping(sweep, now) =>
      && sweep == O.Forfeit
      && o.status == O.Confirmed && o.payment == O.L.DPPaid && now >= o.balanceDue + 30 * MINUTE
    case _ => false
  }

  ghost predicate CountsAsSaid(o: O.Order, a: OL.Action) {
    var p := OL.OrderAfter(o, a);
    && (!O.Committed(o) && O.Committed(p) <==> Starts(o, a))
    && (O.Committed(o) && !O.Committed(p) <==> Stops(o, a))
  }

  lemma SoundOrdersCount(o: O.Order)
    requires OL.Sound(o)
    ensures O.Committed(o) <==> o.status in {O.Confirmed, O.InProduction, O.Ready, O.OutForDelivery, O.Completed}
  {
  }

  lemma AdvancingCounts(o: O.Order, to: O.Status)
    requires OL.Sound(o)
    ensures CountsAsSaid(o, OL.Advancing(to))
  {
    O.TheLifecycle(o.status, o.payment, o.fulfillment, to);
  }

  lemma RecordingCounts(o: O.Order, amount: int)
    requires OL.Sound(o)
    ensures CountsAsSaid(o, OL.Recording(amount))
  {
    OL.PaymentsAcceptedExactlyWhen(o, amount);
    SoundOrdersCount(o);
    if O.RecordStep(o, amount).Done? {
      OL.RecordingKeepsSound(o, amount);
      SoundOrdersCount(O.RecordStep(o, amount).order);
    }
  }

  /** An order cancelled does not count. */
  lemma CancelledDoesNotCount(o: O.Order, mode: O.CancelMode, now: Instant)
    requires OL.Sound(o) && O.CancelStep(o, mode, now).Done?
    ensures !O.Committed(O.CancelStep(o, mode, now).order)
  {
    OL.EndingsAreRight(o, mode, now);
  }

  lemma CancellingCounts(o: O.Order, mode: O.CancelMode, now: Instant)
    requires OL.Sound(o)
    ensures CountsAsSaid(o, OL.Cancelling(mode, now))
  {
    OL.CancellingAcceptedExactlyWhen(o, mode, now);
    SoundOrdersCount(o);
    if O.CancelStep(o, mode, now).Done? {
      CancelledDoesNotCount(o, mode, now);
    }
  }

  /** An order starts to count just when its deposit is recorded, and stops just
      when it is refunded, or forfeited past a balance deadline it missed. */
  lemma CountsFromItsDeposit(o: O.Order, a: OL.Action)
    requires OL.Sound(o)
    ensures CountsAsSaid(o, a)
    ensures OL.OrderAfter(o, a).date == o.date && OL.OrderAfter(o, a).items == o.items
  {
    OL.WhatActionsKeep(o, a);
    match a {
      case Advancing(to) => AdvancingCounts(o, to);
      case Recording(amount) => RecordingCounts(o, amount);
      case Cancelling(mode, now) => CancellingCounts(o, mode, now);
      case _ =>
    }
  }

  // ----- Which dates a step changes -----

  /** The date whose batch the step's event asks to compute, if it publishes one. */
  ghost function ChangedDate(orders: seq<O.Order>, step: OL.Step): Option<Date> {
    match step
    case Act(i, a) =>
      if i < |orders| && (Starts(orders[i], a) || Stops(orders[i], a)) then Some(orders[i].date) else None
    case Place(_) => None
  }

  lemma {:induction false} ItemsWithOneChanged(orders: seq<O.Order>, i: nat, later: O.Order, d: Date)
    requires i < |orders| && ItemsFor(later, d) == ItemsFor(orders[i], d)
    ensures CommittedItems(orders[i := later], d) == CommittedItems(orders, d)
  {
    var front := orders[..|orders| - 1];
    if i == |front| {
      assert orders[i := later][..|orders| - 1] == front;
    } else {
      assert orders[i := later][..|orders| - 1] == front[i := later];
      ItemsWithOneChanged(front, i, later, d);
    }
  }

  lemma ActingMakesTheSame(orders: seq<O.Order>, i: nat, a: OL.Action, d: Date)
    requires OL.Inv(orders) && i < |orders| && ChangedDate(orders, OL.Act(i, a)) != Some(d)
    ensures CommittedItems(OL.Next(orders, OL.Act(i, a)), d) == CommittedItems(orders, d)
  {
    assert OL.Sound(orders[i]);
    CountsFromItsDeposit(orders[i], a);
    ItemsWithOneChanged(orders, i, OL.OrderAfter(orders[i], a), d);
  }

  lemma PlacingMakesTheSame(orders: seq<O.Order>, c: O.Checkout, d: Date)
    ensures CommittedItems(OL.Next(orders, OL.Place(c)), d) == CommittedItems(orders, d)
  {
    OL.PlacedIs(orders, c);
    var later := OL.Next(orders, OL.Place(c));
    if later != orders {
      OL.NewOrdersWait(c);
      assert later[..|later| - 1] == orders;
    }
  }

  /** No step changes what another date's orders make. */
  lemma OtherDatesMakeTheSame(orders: seq<O.Order>, step: OL.Step, d: Date)
    requires OL.Inv(orders) && ChangedDate(orders, step) != Some(d)
    ensures CommittedItems(OL.Next(orders, step), d) == CommittedItems(orders, d)
  {
    match step
    case Act(i, a) =>
      if i < |orders| {
        ActingMakesTheSame(orders, i, a, d);
      }
    case Place(c) => PlacingMakesTheSame(orders, c, d);
  }

  // ----- The shop: orders, batches and the jobs that compute them -----

  function DatesOf(orders: seq<O.Order>): set<Date> { set i | 0 <= i < |orders| :: orders[i].date }

  /** What a computation reads: the shop's stock and recipes, and the orders. */
  function Reads(shop: Inputs, orders: seq<O.Order>): Inputs {
    shop.(items := map d | d in DatesOf(orders) :: CommittedItems(orders, d))
  }

  lemma {:induction false} NothingOnOtherDates(orders: seq<O.Order>, d: Date)
    requires forall i :: 0 <= i < |orders| ==> orders[i].date != d
    ensures CommittedItems(orders, d) == []
  {
    if orders != [] {
      NothingOnOtherDates(orders[..|orders| - 1], d);
    }
  }

  lemma ReadsTheOrders(shop: Inputs, orders: seq<O.Order>, d: Date)
    ensures Reads(shop, orders).ItemsOn(d) == CommittedItems(orders, d)
  {
    if d !in DatesOf(orders) {
      forall i | 0 <= i < |orders| ensures orders[i].date != d {
        assert orders[i].date in DatesOf(orders);
      }
      NothingOnOtherDates(orders, d);
    }
  }

  datatype Job = From(date: Date) | All

  datatype System = System(orders: seq<O.Order>, batches: Batches, shop: Inputs, jobs: seq<Job>)
  {
    function Read(): Inputs { Reads(shop, orders) }

    function Today(): Date { DateOf(shop.now) }
  }

  /** Anything on the orders; a change of the stock or the recipes; a worker taking
      any of the jobs. */
  datatype Event =
    | Ordering(step: OL.Step)
    | Changing(shop: Inputs)
    | Working(k: nat)

  ghost function Queued(orders: seq<O.Order>, step: OL.Step): seq<Job> {
    match ChangedDate(orders, step)
    case Some(d) => [From(d)]
    case None => []
  }

  function DatesOfJob(b: Batches, today: Date, job: Job): set<Date> {
    match job
    case From(d) => Upcoming(b, d) + {d}
    case All => Upcoming(b, today)
  }

  function Worked(b: Batches, inp: Inputs, job: Job): Batches {
    RecomputedAll(b, inp, Sorted(DatesOfJob(b, DateOf(inp.now), job)))
  }

  ghost function Next(s: System, e: Event): System {
    match e
    case Ordering(step) =>
      s.(orders := OL.Next(s.orders, step), jobs := s.jobs + Queued(s.orders, step))
    case Changing(shop) => s.(shop := shop.(now := s.shop.now), jobs := s.jobs + [All])
    case Working(k) =>
      if k >= |s.jobs| then s
      else s.(batches := Worked(s.batches, s.Read(), s.jobs[k]), jobs := s.jobs[..k] + s.jobs[k + 1..])
  }

  ghost function Run(s: System, events: seq<Event>): System {
    if events == [] then s else Next(Run(s, events[..|events| - 1]), events[|events| - 1])
  }

  function Opening(shop: Inputs): System { System([], map[], shop, []) }

  // ----- What every run keeps -----

  ghost predicate Fine(s: System, d: Date) {
    if d in s.batches then s.batches[d].status == Done || Settled(s.batches, s.Read(), d)
    else CommittedItems(s.orders, d) == []
  }

  ghost predicate Covers(job: Job, b: Batches, d: Date) {
    match job
    case From(p) => p == d || (p < d && d in b)
    case All => d in b
  }

  ghost predicate Awaited(s: System, d: Date) { exists k :: 0 <= k < |s.jobs| && Covers(s.jobs[k], s.batches, d) }

  /** From today on, every batch is as a computation would leave it now, or a job
      that will compute it waits. */
  ghost predicate Inv(s: System) {
    && OL.Inv(s.orders)
    && forall d {:trigger Fine(s, d)} :: s.Today() <= d ==> Fine(s, d) || Awaited(s, d)
  }

  /** Batches and orders read alike stay fine. */
  lemma ReadAlike(s: System, t: System, d: Date)
    requires t.batches == s.batches && t.shop == s.shop && Fine(s, d)
    requires CommittedItems(t.orders, d) == CommittedItems(s.orders, d)
    ensures Fine(t, d)
  {
    ReadsTheOrders(s.shop, s.orders, d);
    ReadsTheOrders(t.shop, t.orders, d);
    if d in s.batches && s.batches[d].status != Done {
      SameItemsSettle(s.batches, s.Read(), t.Read(), d);
    }
  }

  lemma MoreJobsAwait(s: System, t: System, d: Date)
    requires Awaited(s, d) && t.batches == s.batches && s.jobs <= t.jobs
    ensures Awaited(t, d)
  {
    var k :| 0 <= k < |s.jobs| && Covers(s.jobs[k], s.batches, d);
    assert Covers(t.jobs[k], t.batches, d);
  }

  lemma OrderingKeepsInv(s: System, step: OL.Step)
    requires Inv(s)
    ensures Inv(Next(s, Ordering(step)))
  {
    var t := Next(s, Ordering(step));
    OL.NextKeepsInv(s.orders, step);
    forall d | t.Today() <= d ensures Fine(t, d) || Awaited(t, d) {
      assert Fine(s, d) || Awaited(s, d);
      if Awaited(s, d) {
        MoreJobsAwait(s, t, d);
      } else if ChangedDate(s.orders, step) == Some(d) {
        assert Covers(t.jobs[|s.jobs|], t.batches, d);
      } else {
        OtherDatesMakeTheSame(s.orders, step, d);
        ReadAlike(s, t, d);
      }
    }
  }

  lemma ChangingKeepsInv(s: System, shop: Inputs)
    requires Inv(s)
    ensures Inv(Next(s, Changing(shop)))
  {
    var t := Next(s, Changing(shop));
    forall d | t.Today() <= d ensures Fine(t, d) || Awaited(t, d) {
      assert Fine(s, d) || Awaited(s, d);
      if d in s.batches {
        assert Covers(t.jobs[|s.jobs|], t.batches, d);
      } else if Awaited(s, d) {
        MoreJobsAwait(s, t, d);
      }
    }
  }

  /** A job settles the dates it computes. */
  lemma JobsSettle(b: Batches, inp: Inputs, job: Job, d: Date)
    requires d in DatesOfJob(b, DateOf(inp.now), job)
    ensures Settled(Worked(b, inp, job), inp, d)
  {
    var ds := Sorted(DatesOfJob(b, DateOf(inp.now), job));
    SortedLists(DatesOfJob(b, DateOf(inp.now), job));
    RunSettlesItsDates(b, inp, ds);
    assert d in ds;
  }

  /** It leaves the others as they were, and those before it settled. */
  lemma JobsLeaveOthers(b: Batches, inp: Inputs, job: Job, d: Date)
    requires d !in DatesOfJob(b, DateOf(inp.now), job)
    ensures d in Worked(b, inp, job) <==> d in b
    ensures BatchOf(Worked(b, inp, job), d) == BatchOf(b, d)
  {
    SortedLists(DatesOfJob(b, DateOf(inp.now), job));
    OtherDatesAreKept(b, inp, Sorted(DatesOfJob(b, DateOf(inp.now), job)), d);
  }

  lemma JobsDoNotUnsettle(b: Batches, inp: Inputs, job: Job, d: Date)
    requires d !in DatesOfJob(b, DateOf(inp.now), job) && DateOf(inp.now) <= d && d in NotDone(b)
    requires Settled(b, inp, d)
    ensures Settled(Worked(b, inp, job), inp, d)
  {
    var dates := DatesOfJob(b, DateOf(inp.now), job);
    SortedLists(dates);
    forall i | 0 <= i < |Sorted(dates)| ensures d < Sorted(dates)[i] {
      assert Sorted(dates)[i] in Sorted(dates);
    }
    LaterRunsDoNotUnsettle(b, inp, Sorted(dates), d);
  }

  lemma ComputedDatesAreFine(s: System, k: nat, d: Date)
    requires k < |s.jobs| && d in DatesOfJob(s.batches, s.Today(), s.jobs[k])
    ensures Fine(Next(s, Working(k)), d)
  {
    var t := Next(s, Working(k));
    assert t.Read() == s.Read() && t.batches == Worked(s.batches, s.Read(), s.jobs[k]);
    JobsSettle(s.batches, s.Read(), s.jobs[k], d);
  }

  lemma OtherDatesStayFine(s: System, k: nat, d: Date)
    requires k < |s.jobs| && d !in DatesOfJob(s.batches, s.Today(), s.jobs[k]) && Fine(s, d) && s.Today() <= d
    ensures Fine(Next(s, Working(k)), d)
  {
    var t := Next(s, Working(k));
    assert t.Read() == s.Read() && t.batches == Worked(s.batches, s.Read(), s.jobs[k]);
    JobsLeaveOthers(s.batches, s.Read(), s.jobs[k], d);
    if d in NotDone(s.batches) {
      JobsDoNotUnsettle(s.batches, s.Read(), s.jobs[k], d);
    }
  }

  lemma OtherJobsStay(jobs: seq<Job>, k: nat, j: nat)
    requires k < |jobs| && j < |jobs| && j != k
    ensures var left := jobs[..k] + jobs[k + 1..]; exists i :: 0 <= i < |left| && left[i] == jobs[j]
  {
    var left := jobs[..k] + jobs[k + 1..];
    var i := if j < k then j else j - 1;
    assert left[i] == jobs[j];
  }

  /** A date that waits for a job the worker did not take still waits for it, and
      one the job passed over is done. */
  lemma OtherDatesStillWait(s: System, k: nat, d: Date)
    requires k < |s.jobs| && d !in DatesOfJob(s.batches, s.Today(), s.jobs[k]) && Awaited(s, d) && s.Today() <= d
    ensures Awaited(Next(s, Working(k)), d) || Fine(Next(s, Working(k)), d)
  {
    var t := Next(s, Working(k));
    var j :| 0 <= j < |s.jobs| && Covers(s.jobs[j], s.batches, d);
    JobsLeaveOthers(s.batches, s.Read(), s.jobs[k], d);
    if j == k {
      PassedOverIsDone(s.jobs[k], s.batches, s.Today(), d);
    } else {
      OtherJobsStay(s.jobs, k, j);
      var i :| 0 <= i < |t.jobs| && t.jobs[i] == s.jobs[j];
      CoveredStays(t.jobs[i], s.batches, t.batches, d);
    }
  }

  lemma PassedOverIsDone(job: Job, b: Batches, today: Date, d: Date)
    requires Covers(job, b, d) && d !in DatesOfJob(b, today, job) && today <= d
    ensures d in b && b[d].status == Done
  {
  }

  lemma CoveredStays(job: Job, b: Batches, c: Batches, d: Date)
    requires Covers(job, b, d) && (d in b <==> d in c)
    ensures Covers(job, c, d)
  {
  }

  lemma WorkingKeepsInv(s: System, k: nat)
    requires Inv(s)
    ensures Inv(Next(s, Working(k)))
  {
    var t := Next(s, Working(k));
    if k < |s.jobs| {
      forall d | t.Today() <= d ensures Fine(t, d) || Awaited(t, d) {
        if d in DatesOfJob(s.batches, s.Today(), s.jobs[k]) {
          ComputedDatesAreFine(s, k, d);
        } else {
          assert Fine(s, d) || Awaited(s, d);
          if Fine(s, d) {
            OtherDatesStayFine(s, k, d);
          } else {
            OtherDatesStillWait(s, k, d);
          }
        }
      }
    }
  }

  /** Over every run: whatever happens to the orders, the stock and the recipes, and
      in whatever order workers take the jobs, every batch from today on is as a
      computation would leave it now, or a job that will compute it waits. */
  lemma {:induction false} NoChangeIsForgotten(shop: Inputs, events: seq<Event>)
    ensures Inv(Run(Opening(shop), events))
  {
    if events != [] {
      var s := Run(Opening(shop), events[..|events| - 1]);
      NoChangeIsForgotten(shop, events[..|events| - 1]);
      match events[|events| - 1]
      case Ordering(step) => OrderingKeepsInv(s, step);
      case Changing(changed) => ChangingKeepsInv(s, changed);
      case Working(k) => WorkingKeepsInv(s, k);
    }
  }

  ghost predicate KnownFrom(b: Batches, inp: Inputs, from: Date) {
    forall d :: d in Upcoming(b, from) ==> inp.NeedsOf(d).Known?
  }

  ghost predicate EveryDateHasItsBatch(s: System) {
    forall d {:trigger CommittedItems(s.orders, d)} ::
      s.Today() <= d && CommittedItems(s.orders, d) != [] ==> d in s.batches
  }

  lemma SettledClaimsAreBacked(b: Batches, inp: Inputs, from: Date, g: Id)
    requires AllSettled(b, inp, Upcoming(b, from))
    requires KnownFrom(b, inp, from)
    ensures BackedFrom(b, inp, from, g)
  {
    forall d | d in Upcoming(b, from) ensures UpToDate(b, inp, d) {
      assert Settled(b, inp, d);
    }
    LateClaimsCanBeBacked(b, inp, from, g);
  }

  lemma NothingIsAwaited(s: System, d: Date)
    requires Inv(s) && s.jobs == [] && s.Today() <= d
    ensures Fine(s, d)
  {
    assert Fine(s, d) || Awaited(s, d);
  }

  lemma SettledWhenNoJobWaits(s: System)
    requires Inv(s) && s.jobs == []
    ensures EveryDateHasItsBatch(s) && AllSettled(s.batches, s.Read(), Upcoming(s.batches, s.Today()))
  {
    forall d | s.Today() <= d && CommittedItems(s.orders, d) != [] ensures d in s.batches {
      NothingIsAwaited(s, d);
    }
    forall d | d in Upcoming(s.batches, s.Today()) ensures Settled(s.batches, s.Read(), d) {
      NothingIsAwaited(s, d);
    }
  }

  /** When no job waits, every date with orders that count has its batch, every
      batch from today on that is not done is as a computation would leave it,
      and unless a recipe is broken distinct grams back all their claims. */
  lemma WhenNoJobWaits(shop: Inputs, events: seq<Event>, g: Id)
    requires Run(Opening(shop), events).jobs == []
    ensures var s := Run(Opening(shop), events);
            && EveryDateHasItsBatch(s)
            && AllSettled(s.batches, s.Read(), Upcoming(s.batches, s.Today()))
            && (KnownFrom(s.batches, s.Read(), s.Today()) ==> BackedFrom(s.batches, s.Read(), s.Today(), g))
  {
    var s := Run(Opening(shop), events);
    NoChangeIsForgotten(shop, events);
    SettledWhenNoJobWaits(s);
    if KnownFrom(s.batches, s.Read(), s.Today()) {
      SettledClaimsAreBacked(s.batches, s.Read(), s.Today(), g);
    }
  }
}
