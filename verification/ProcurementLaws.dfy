/** Orders and shopping lists agree in every reachable state, whatever the
    order in which staff order, receive and cancel and the engine computes. */
module ProcurementLaws {
  import opened Base
  import opened Clock
  import opened Packs
  import opened ShoppingList
  import opened Allocation
  import opened AllocationLaws
  import opened Procurement
  import Deliveries
  import I = Inventory

  function OpenIn(o: Order, d: Date, g: Id): int {
    if o.date == d && g in o.items && o.items[g].status == Waiting then o.items[g].qty else 0
  }

  function ArrivedIn(o: Order, d: Date, g: Id): int {
    if o.date == d && g in o.items && o.items[g].status == Arrived then o.items[g].arrived else 0
  }

  function Opens(orders: seq<Order>, d: Date, g: Id): (r: seq<int>)
    ensures |r| == |orders|
  {
    seq(|orders|, i requires 0 <= i < |orders| => OpenIn(orders[i], d, g))
  }

  function Arrivals(orders: seq<Order>, d: Date, g: Id): (r: seq<int>)
    ensures |r| == |orders|
  {
    seq(|orders|, i requires 0 <= i < |orders| => ArrivedIn(orders[i], d, g))
  }

  /** What is ordered of g for a date and has not arrived, over all orders. */
  function OpenTotal(orders: seq<Order>, d: Date, g: Id): int { Sum(Opens(orders, d, g)) }

  /** What arrived of g for a date, over all orders. */
  function ArrivedTotal(orders: seq<Order>, d: Date, g: Id): int { Sum(Arrivals(orders, d, g)) }

  function Stocked(ds: seq<Delivery>, d: Date, g: Id): int {
    if ds == [] then 0
    else (if ds[0].date == d && ds[0].ingredient == g then ds[0].qty else 0) + Stocked(ds[1..], d, g)
  }

  /** A list's line says what the orders say. */
  ghost predicate BooksAgree(lines: Lines, g: Id, open: int, arrived: int) {
    if g in lines then
      && lines[g].ordered == open
      && lines[g].received == arrived
      && lines[g].status == StatusFrom(open, arrived)
    else open == 0 && arrived == 0
  }

  ghost predicate ToBuyIsCurrent(lines: Lines, g: Id) {
    g in lines ==> lines[g].toBuy == Max(lines[g].needed - lines[g].usable - lines[g].ordered, 0)
  }

  ghost predicate OrderIsSound(o: Order) {
    && (forall g :: g in o.items ==> o.items[g].qty > 0 && o.items[g].arrived >= 0)
    && o.status == StatusOf(o.items)
  }

  ghost predicate Sound(orders: seq<Order>) { forall i :: 0 <= i < |orders| ==> OrderIsSound(orders[i]) }

  ghost predicate Books(b: Batches, orders: seq<Order>) {
    forall d, g :: BooksAgree(LinesOf(b, d), g, OpenTotal(orders, d, g), ArrivedTotal(orders, d, g))
  }

  ghost predicate StockAgrees(deliveries: seq<Delivery>, orders: seq<Order>) {
    forall d, g :: Stocked(deliveries, d, g) == ArrivedTotal(orders, d, g)
  }

  /** What holds in every reachable state. */
  ghost predicate Inv(s: State) {
    && Sound(s.orders)
    && Books(s.batches, s.orders)
    && (forall d, g :: ToBuyIsCurrent(LinesOf(s.batches, d), g))
    && StockAgrees(s.deliveries, s.orders)
  }

  // ----- Totals over orders -----

  lemma TotalsAreNonNegative(orders: seq<Order>, d: Date, g: Id)
    requires Sound(orders)
    ensures OpenTotal(orders, d, g) >= 0 && ArrivedTotal(orders, d, g) >= 0
  {
    SumNonNegative(Opens(orders, d, g));
    SumNonNegative(Arrivals(orders, d, g));
  }

  lemma TotalsWithOneMore(orders: seq<Order>, o: Order, d: Date, g: Id)
    ensures OpenTotal(orders + [o], d, g) == OpenTotal(orders, d, g) + OpenIn(o, d, g)
    ensures ArrivedTotal(orders + [o], d, g) == ArrivedTotal(orders, d, g) + ArrivedIn(o, d, g)
  {
    var a, b := Opens(orders, d, g), Arrivals(orders, d, g);
    assert Opens(orders + [o], d, g) == a + [OpenIn(o, d, g)];
    assert Arrivals(orders + [o], d, g) == b + [ArrivedIn(o, d, g)];
    SumConcat(a, [OpenIn(o, d, g)]);
    SumConcat(b, [ArrivedIn(o, d, g)]);
    assert [OpenIn(o, d, g)][1..] == [] && [ArrivedIn(o, d, g)][1..] == [];
  }

  lemma TotalsWithOneChanged(orders: seq<Order>, id: nat, o: Order, d: Date, g: Id)
    requires id < |orders|
    ensures OpenTotal(orders[id := o], d, g) == OpenTotal(orders, d, g) - OpenIn(orders[id], d, g) + OpenIn(o, d, g)
    ensures ArrivedTotal(orders[id := o], d, g)
        == ArrivedTotal(orders, d, g) - ArrivedIn(orders[id], d, g) + ArrivedIn(o, d, g)
  {
    SumUpdate(Opens(orders, d, g), id, OpenIn(o, d, g));
    SumUpdate(Arrivals(orders, d, g), id, ArrivedIn(o, d, g));
    assert Opens(orders[id := o], d, g) == Opens(orders, d, g)[id := OpenIn(o, d, g)];
    assert Arrivals(orders[id := o], d, g) == Arrivals(orders, d, g)[id := ArrivedIn(o, d, g)];
  }

  lemma {:induction false} OneOfManyIsAtMostAll(s: seq<int>, i: nat)
    requires i < |s| && forall j :: 0 <= j < |s| ==> 0 <= s[j]
    ensures s[i] <= Sum(s)
  {
    SumNonNegative(s[1..]);
    if i > 0 {
      OneOfManyIsAtMostAll(s[1..], i - 1);
    }
  }

  lemma {:induction false} StockedConcat(a: seq<Delivery>, b: seq<Delivery>, d: Date, g: Id)
    ensures Stocked(a + b, d, g) == Stocked(a, d, g) + Stocked(b, d, g)
  {
    if a == [] {
      assert a + b == b;
    } else {
      assert (a + b)[1..] == a[1..] + b;
      StockedConcat(a[1..], b, d, g);
    }
  }

  // ----- A computation -----

  /** Rebuilding a list loses nothing procurement put there: a dropped line had
      nothing open and nothing arrived. */
  lemma RebuildingKeepsTheBooks(
      stored: Lines, needs: map<Id, int>, stock: map<Id, int>, packs: map<Id, Pack>, g: Id, open: int, arrived: int)
    requires BooksAgree(stored, g, open, arrived) && open >= 0 && arrived >= 0
    ensures var lines := Rebuilt(stored, needs, stock, packs);
            BooksAgree(lines, g, open, arrived) && ToBuyIsCurrent(lines, g)
  {
    RebuiltRow(stored, needs, stock, packs, g);
  }

  lemma ComputingKeepsTheBooks(b: Batches, orders: seq<Order>, inp: Inputs, date: Date)
    requires Sound(orders) && Books(b, orders)
    ensures var after := Recomputed(b, inp, date);
            && Books(after, orders)
            && (forall d, g :: d != date ==> ToBuyIsCurrent(LinesOf(b, d), g) ==> ToBuyIsCurrent(LinesOf(after, d), g))
            && (inp.NeedsOf(date).Known? ==> forall g :: ToBuyIsCurrent(LinesOf(after, date), g))
            && (inp.NeedsOf(date).Broken? ==> LinesOf(after, date) == LinesOf(b, date))
  {
    var after := Recomputed(b, inp, date);
    forall d, g
      ensures BooksAgree(LinesOf(after, d), g, OpenTotal(orders, d, g), ArrivedTotal(orders, d, g))
      ensures d == date && inp.NeedsOf(date).Known? ==> ToBuyIsCurrent(LinesOf(after, d), g)
    {
      assert BooksAgree(LinesOf(b, d), g, OpenTotal(orders, d, g), ArrivedTotal(orders, d, g));
      if d == date && inp.NeedsOf(date).Known? {
        var needs, stored := inp.NeedsOf(date).qty, LinesOf(b, date);
        TotalsAreNonNegative(orders, d, g);
        RebuildingKeepsTheBooks(stored, needs, FreeOf(b, inp, date, needs.Keys + Touched(stored)), inp.packs, g,
          OpenTotal(orders, d, g), ArrivedTotal(orders, d, g));
      }
    }
  }

  // ----- Recording procurement's changes -----

  /** The orders changed by exactly the deltas recorded. */
  ghost predicate OrdersMovedBy(was: seq<Order>, now: seq<Order>, date: Date, changes: map<Id, Delta>) {
    forall d, g :: MovedBy(was, now, date, changes, d, g)
  }

  ghost predicate MovedBy(was: seq<Order>, now: seq<Order>, date: Date, changes: map<Id, Delta>, d: Date, g: Id) {
    var delta := if d == date && g in changes then changes[g] else Delta(0, 0);
    && OpenTotal(now, d, g) == OpenTotal(was, d, g) + delta.ordered
    && ArrivedTotal(now, d, g) == ArrivedTotal(was, d, g) + delta.received
  }

  lemma RecordingKeepsTheBooks(s: State, inp: Inputs, date: Date, changes: map<Id, Delta>, orders: seq<Order>)
    requires Inv(s) && Sound(orders) && OrdersMovedBy(s.orders, orders, date, changes)
    requires Recorded(s.batches, inp, date, changes).Some?
    ensures var after := Recorded(s.batches, inp, date, changes).value;
            Books(after, orders) && forall d, g :: ToBuyIsCurrent(LinesOf(after, d), g)
  {
    var rows := Applied(s.batches[date].lines, changes).value;
    var mid := s.batches[date := s.batches[date].(lines := rows)];
    forall d, g
      ensures BooksAgree(LinesOf(mid, d), g, OpenTotal(orders, d, g), ArrivedTotal(orders, d, g))
    {
      assert BooksAgree(LinesOf(s.batches, d), g, OpenTotal(s.orders, d, g), ArrivedTotal(s.orders, d, g));
      assert MovedBy(s.orders, orders, date, changes, d, g);
      if d == date && g in changes {
        assert CanApply(s.batches[date].lines, g, changes[g]);
      }
    }
    ComputingKeepsTheBooks(mid, orders, inp, date);
    var after := Recomputed(mid, inp, date);
    forall d, g ensures ToBuyIsCurrent(LinesOf(after, d), g) {
      assert ToBuyIsCurrent(LinesOf(s.batches, d), g);
    }
  }

  /** Recording what the orders moved by, with the stock that came of it. */
  lemma RecordingKeepsInv(
      s: State, inp: Inputs, date: Date, changes: map<Id, Delta>, orders: seq<Order>, deliveries: seq<Delivery>)
    requires Inv(s) && Sound(orders) && OrdersMovedBy(s.orders, orders, date, changes)
    requires StockAgrees(deliveries, orders)
    requires Recorded(s.batches, inp, date, changes).Some?
    ensures Inv(State(Recorded(s.batches, inp, date, changes).value, orders, deliveries))
  {
    RecordingKeepsTheBooks(s, inp, date, changes, orders);
  }

  // ----- Create -----

  lemma NewOrderIsSound(lines: Lines, supplier: Option<Id>, o: Order)
    requires o.items == NewItems(lines, supplier) && o.items != map[] && o.status == AllWaiting
    requires forall g :: g in o.items ==> o.items[g].qty > 0
    ensures OrderIsSound(o)
  {
  }

  lemma CreatingKeepsInv(s: State, inp: Inputs, date: Date, supplier: Option<Id>)
    requires Inv(s)
    ensures Inv(CreateStep(s, inp, date, supplier).0)
  {
    if CreateStep(s, inp, date, supplier).1.Accepted? {
      var items := NewItems(s.batches[date].lines, supplier);
      var o := Order(date, supplier, AllWaiting, items);
      var orders := s.orders + [o];
      NewOrderIsSound(s.batches[date].lines, supplier, o);
      OneMoreOrder(s, o);
      RecordingKeepsInv(s, inp, date, Ordering(items), orders, s.deliveries);
    }
  }

  lemma OneMoreOrder(s: State, o: Order)
    requires Inv(s) && OrderIsSound(o) && forall g :: g in o.items ==> o.items[g].status == Waiting
    ensures Sound(s.orders + [o]) && OrdersMovedBy(s.orders, s.orders + [o], o.date, Ordering(o.items))
    ensures StockAgrees(s.deliveries, s.orders + [o])
  {
    forall d, g ensures MovedBy(s.orders, s.orders + [o], o.date, Ordering(o.items), d, g) {
      TotalsWithOneMore(s.orders, o, d, g);
    }
    forall d, g ensures Stocked(s.deliveries, d, g) == ArrivedTotal(s.orders + [o], d, g) {
      TotalsWithOneMore(s.orders, o, d, g);
    }
  }

  /** What an accepted order is: one more, waiting, with the lines its supplier packs
      that have something to buy, each for a positive quantity. */
  lemma CreatedOrderIs(s: State, inp: Inputs, date: Date, supplier: Option<Id>)
    requires CreateStep(s, inp, date, supplier).1.Accepted?
    ensures var (t, r) := CreateStep(s, inp, date, supplier);
            && date in s.batches && r.order == |s.orders| && |t.orders| == |s.orders| + 1
            && t.orders[..|s.orders|] == s.orders && t.deliveries == s.deliveries
            && var o, lines := t.orders[r.order], s.batches[date].lines;
               && o.date == date && o.supplier == supplier && o.status == AllWaiting && o.items != map[]
               && (forall g :: g in o.items <==>
                     && g in lines && lines[g].toBuy > 0
                     && if supplier.Some? then lines[g].pack.Some? && lines[g].pack.value.supplier == supplier.value
                        else lines[g].pack.None?)
               && forall g :: g in o.items ==> o.items[g].qty > 0 && o.items[g].status == Waiting
  {
    forall g { WhatIsOrdered(s.batches[date].lines, supplier, g); }
  }

  /** What is ordered is on the list at once, line by line, and no line loses or gains
      anything else of procurement's. */
  lemma OrderedIsOnTheList(s: State, inp: Inputs, date: Date, supplier: Option<Id>, g: Id)
    requires CreateStep(s, inp, date, supplier).1.Accepted?
    ensures var (t, r) := CreateStep(s, inp, date, supplier);
            && date in s.batches && date in t.batches && r.order < |t.orders|
            && var before, after, items := s.batches[date].lines, t.batches[date].lines, t.orders[r.order].items;
               g in before && g in after ==>
                 && after[g].ordered == before[g].ordered + (if g in items then items[g].qty else 0)
                 && after[g].received == before[g].received
  {
    var rows, mid := CreatedFrom(s, inp, date, supplier);
    AppliedExactlyWhen(s.batches[date].lines, Ordering(NewItems(s.batches[date].lines, supplier)));
    var needs := inp.NeedsOf(date).qty;
    StoredLine(rows, needs, FreeOf(mid, inp, date, needs.Keys + Touched(rows)), inp.packs, g);
  }

  /** What an order to a supplier gets, in every state that can be reached: a refusal
      for a date without a batch, a batch that is done, or a list with nothing to buy
      there; else it is accepted, but for a recipe that is broken or packs that hold
      nothing. */
  lemma CreatedExactlyWhen(s: State, inp: Inputs, date: Date, supplier: Option<Id>)
    requires Inv(s)
    ensures var (t, r) := CreateStep(s, inp, date, supplier);
            if date !in s.batches then t == s && r == NotFound
            else if s.batches[date].status == Done then t == s && r == BatchDone
            else
              var items := NewItems(s.batches[date].lines, supplier);
              if items == map[] then t == s && r == NothingToOrder
              else if inp.NeedsOf(date).Broken? || (exists g :: g in items && items[g].qty <= 0) then
                t == s && r == Failed
              else r == Accepted(|s.orders|)
  {
    if date in s.batches {
      var items := NewItems(s.batches[date].lines, supplier);
      if !(exists g :: g in items && items[g].qty <= 0) {
        forall g | g in items ensures CanApply(s.batches[date].lines, g, Ordering(items)[g]) {
          assert BooksAgree(LinesOf(s.batches, date), g, OpenTotal(s.orders, date, g), ArrivedTotal(s.orders, date, g));
          TotalsAreNonNegative(s.orders, date, g);
        }
      }
    }
  }

  // ----- Receive and Cancel -----

  /** Items changed by exactly the deltas, each from waiting. */
  ghost predicate ItemsMovedBy(was: Items, now: Items, changes: map<Id, Delta>) {
    && now.Keys == was.Keys
    && (forall g :: g in changes ==>
          && g in was && was[g].status == Waiting && changes[g].ordered == -was[g].qty && changes[g].received >= 0
          && now[g].qty == was[g].qty
          && ((now[g].status == Arrived && now[g].arrived == changes[g].received)
              || (now[g].status == Dropped && now[g].arrived == was[g].arrived && changes[g].received == 0)))
    && (forall g :: g in was && g !in changes ==> now[g] == was[g])
  }

  /** What a checklist does to the items, the list and the stock. */
  lemma {:induction false} TickingBalances(o: Order, ticks: seq<Tick>)
    requires forall i :: 0 <= i < |ticks| ==> 0 <= ticks[i].qty
    requires TickAll(o, ticks).Going?
    ensures var p := TickAll(o, ticks);
            && ItemsMovedBy(o.items, p.items, p.changes)
            && (forall g :: g in p.changes ==> p.items[g].status == Arrived)
            && forall d, g :: Stocked(p.brought, d, g)
                           == if d == o.date && g in p.changes then p.changes[g].received else 0
  {
    if ticks != [] {
      var front, t := ticks[..|ticks| - 1], ticks[|ticks| - 1];
      TickingBalances(o, front);
      var q := TickAll(o, front);
      var p := TickAll(o, ticks);
      forall d, g
        ensures Stocked(p.brought, d, g) == if d == o.date && g in p.changes then p.changes[g].received else 0
      {
        var one := [Delivery(o.date, t.item, t.qty)];
        assert one[1..] == [];
        StockedConcat(q.brought, one, d, g);
        assert Stocked(q.brought, d, g) == if d == o.date && g in q.changes then q.changes[g].received else 0;
      }
    }
  }

  lemma DroppingBalances(items: Items)
    ensures ItemsMovedBy(items, Dropping(items), TakingBack(items))
  {
  }

  /** Settling an order that still waited keeps the books, provided its items
      moved by exactly the deltas and the stock got exactly what arrived. */
  lemma SettlingKeepsInv(s: State, inp: Inputs, id: nat, items: Items, changes: map<Id, Delta>, brought: seq<Delivery>)
    requires Inv(s) && id < |s.orders| && s.orders[id].status == AllWaiting
    requires ItemsMovedBy(s.orders[id].items, items, changes)
    requires forall d, g :: Stocked(brought, d, g)
               == if d == s.orders[id].date && g in changes then changes[g].received else 0
    ensures Inv(SettleStep(s, inp, id, items, changes, brought).0)
  {
    if SettleStep(s, inp, id, items, changes, brought).1.Accepted? {
      var o := s.orders[id];
      var orders := s.orders[id := Closed(o, items)];
      SettledOrder(s, id, items, changes, brought);
      RecordingKeepsInv(s, inp, o.date, changes, orders, s.deliveries + brought);
    }
  }

  lemma SettledOrder(s: State, id: nat, items: Items, changes: map<Id, Delta>, brought: seq<Delivery>)
    requires Inv(s) && id < |s.orders| && ItemsMovedBy(s.orders[id].items, items, changes)
    requires forall d, g :: Stocked(brought, d, g)
               == if d == s.orders[id].date && g in changes then changes[g].received else 0
    ensures var orders := s.orders[id := Closed(s.orders[id], items)];
            && Sound(orders) && OrdersMovedBy(s.orders, orders, s.orders[id].date, changes)
            && StockAgrees(s.deliveries + brought, orders)
  {
    var o := s.orders[id];
    var orders := s.orders[id := Closed(o, items)];
    assert OrderIsSound(o);
    assert OrderIsSound(Closed(o, items));
    forall d, g ensures MovedBy(s.orders, orders, o.date, changes, d, g) {
      SettlingMoves(s.orders, id, items, changes, d, g);
    }
    forall d, g ensures Stocked(s.deliveries + brought, d, g) == ArrivedTotal(orders, d, g) {
      StockedConcat(s.deliveries, brought, d, g);
      assert MovedBy(s.orders, orders, o.date, changes, d, g);
    }
  }

  lemma SettlingMoves(orders: seq<Order>, id: nat, items: Items, changes: map<Id, Delta>, d: Date, g: Id)
    requires id < |orders| && OrderIsSound(orders[id]) && ItemsMovedBy(orders[id].items, items, changes)
    ensures MovedBy(orders, orders[id := Closed(orders[id], items)], orders[id].date, changes, d, g)
  {
    TotalsWithOneChanged(orders, id, Closed(orders[id], items), d, g);
  }

  lemma ReceivingKeepsInv(s: State, inp: Inputs, id: nat, ticks: seq<Tick>)
    requires Inv(s)
    ensures Inv(ReceiveStep(s, inp, id, ticks).0)
  {
    if && ValidTicks(ticks) && id < |s.orders| && s.orders[id].status == AllWaiting
       && TickAll(s.orders[id], ticks).Going? {
      var p := TickAll(s.orders[id], ticks);
      TickingBalances(s.orders[id], ticks);
      SettlingKeepsInv(s, inp, id, p.items, p.changes, p.brought);
    }
  }

  lemma {:induction false} BroughtIsWhatCame(
      o: Order, came: seq<I.Came>, at: Instant, ingredients: map<Id, I.Ingredient>, d: Date, g: Id)
    requires TickAll(o, Ticks(came, at, ingredients)).Going?
    ensures Stocked(TickAll(o, Ticks(came, at, ingredients)).brought, d, g)
         == if d == o.date then Deliveries.CameOf(came, g) else 0
  {
    if came != [] {
      var ticks := Ticks(came, at, ingredients);
      var front := came[..|came| - 1];
      assert ticks[..|ticks| - 1] == Ticks(front, at, ingredients);
      BroughtIsWhatCame(o, front, at, ingredients, d, g);
      var t := ticks[|ticks| - 1];
      if t.qty > 0 {
        var brought := [Delivery(o.date, t.item, t.qty)];
        StockedConcat(TickAll(o, ticks[..|ticks| - 1]).brought, brought, d, g);
        assert brought[1..] == [];
      }
    }
  }

  /** What the books say arrived with an accepted checklist is what the stock gained
      by it. */
  lemma BooksRiseByWhatCame(
      s: State, inp: Inputs, id: nat, came: seq<I.Came>, at: Instant, ingredients: map<Id, I.Ingredient>,
      d: Date, g: Id)
    requires ReceiveStep(s, inp, id, Ticks(came, at, ingredients)).1.Accepted?
    ensures var t := ReceiveStep(s, inp, id, Ticks(came, at, ingredients)).0;
            Stocked(t.deliveries, d, g)
              == Stocked(s.deliveries, d, g) + (if d == s.orders[id].date then Deliveries.CameOf(came, g) else 0)
  {
    var p := TickAll(s.orders[id], Ticks(came, at, ingredients));
    StopsAreRefusals(s.orders[id], Ticks(came, at, ingredients));
    BroughtIsWhatCame(s.orders[id], came, at, ingredients, d, g);
    StockedConcat(s.deliveries, p.brought, d, g);
  }

  lemma CancellingKeepsInv(s: State, inp: Inputs, id: nat)
    requires Inv(s)
    ensures Inv(CancelStep(s, inp, id).0)
  {
    if id < |s.orders| && s.orders[id].status == AllWaiting {
      var items := s.orders[id].items;
      DroppingBalances(items);
      SettlingKeepsInv(s, inp, id, Dropping(items), TakingBack(items), []);
    }
  }

  // ----- Runs -----

  /** Anything that may happen next, each with what the engine then reads: the
      orders, the recipes and the stock may have changed in any way. */
  datatype Event =
    | Create(inp: Inputs, date: Date, supplier: Option<Id>)
    | Receive(inp: Inputs, id: nat, ticks: seq<Tick>)
    | Cancel(inp: Inputs, id: nat)
    | Compute(inp: Inputs, date: Date)
    | SetStatus(date: Date, status: BatchStatus)

  function Next(s: State, e: Event): State {
    match e
    case Create(inp, date, supplier) => CreateStep(s, inp, date, supplier).0
    case Receive(inp, id, ticks) => ReceiveStep(s, inp, id, ticks).0
    case Cancel(inp, id) => CancelStep(s, inp, id).0
    case Compute(inp, date) => s.(batches := Recomputed(s.batches, inp, date))
    case SetStatus(date, status) =>
      if date in s.batches then s.(batches := s.batches[date := s.batches[date].(status := status)]) else s
  }

  function Run(s: State, es: seq<Event>): State {
    if es == [] then s else Next(Run(s, es[..|es| - 1]), es[|es| - 1])
  }

  const START := State(map[], [], [])

  lemma NextKeepsInv(s: State, e: Event)
    requires Inv(s)
    ensures Inv(Next(s, e))
  {
    match e
    case Create(inp, date, supplier) => CreatingKeepsInv(s, inp, date, supplier);
    case Receive(inp, id, ticks) => ReceivingKeepsInv(s, inp, id, ticks);
    case Cancel(inp, id) => CancellingKeepsInv(s, inp, id);
    case Compute(inp, date) =>
      ComputingKeepsTheBooks(s.batches, s.orders, inp, date);
      forall d, g ensures ToBuyIsCurrent(LinesOf(Next(s, e).batches, d), g) {
        assert ToBuyIsCurrent(LinesOf(s.batches, d), g);
      }
    case SetStatus(date, status) =>
      forall d ensures LinesOf(Next(s, e).batches, d) == LinesOf(s.batches, d) {
      }
  }

  /** In every state reachable by any interleaving, each line of each list says
      exactly what the orders say, what to buy follows from it, each order's
      status follows from its items, and the stock got exactly what arrived. */
  lemma {:induction false} EveryReachableStateIsConsistent(es: seq<Event>)
    ensures Inv(Run(START, es))
  {
    if es == [] {
      forall d, g ensures OpenTotal([], d, g) == 0 && ArrivedTotal([], d, g) == 0 {
      }
    } else {
      EveryReachableStateIsConsistent(es[..|es| - 1]);
      NextKeepsInv(Run(START, es[..|es| - 1]), es[|es| - 1]);
    }
  }

  // ----- What follows -----

  /** The deltas of a waiting order always find their lines. */
  lemma WaitingItemsHaveTheirLines(s: State, id: nat, items: Items, changes: map<Id, Delta>)
    requires Inv(s) && id < |s.orders|
    requires ItemsMovedBy(s.orders[id].items, items, changes)
    ensures Applied(LinesOf(s.batches, s.orders[id].date), changes).Some?
  {
    var o := s.orders[id];
    assert OrderIsSound(o);
    forall g | g in changes ensures CanApply(LinesOf(s.batches, o.date), g, changes[g]) {
      assert BooksAgree(
        LinesOf(s.batches, o.date), g, OpenTotal(s.orders, o.date, g), ArrivedTotal(s.orders, o.date, g));
      var opens := Opens(s.orders, o.date, g);
      assert opens[id] == o.items[g].qty;
      assert forall i :: 0 <= i < |s.orders| ==> OrderIsSound(s.orders[i]);
      OneOfManyIsAtMostAll(opens, id);
      TotalsAreNonNegative(s.orders, o.date, g);
    }
  }

  /** Cancelling an order that waits fails for one reason only: a recipe of that
      day cannot be evaluated. */
  lemma CancelNeverMissesItsLines(s: State, inp: Inputs, id: nat)
    requires Inv(s) && id < |s.orders| && s.orders[id].status == AllWaiting
    ensures CancelStep(s, inp, id).1.Accepted? <==> inp.NeedsOf(s.orders[id].date).Known?
  {
    var o := s.orders[id];
    assert OrderIsSound(o);
    var g :| g in o.items && o.items[g].status == Waiting;
    assert g in TakingBack(o.items);
    DroppingBalances(o.items);
    ChangesFindTheirLines(s, inp, id, Dropping(o.items), TakingBack(o.items), g);
  }

  /** So does receiving any checklist of items that wait. */
  lemma ReceiveNeverMissesItsLines(s: State, inp: Inputs, id: nat, ticks: seq<Tick>)
    requires Inv(s) && id < |s.orders| && s.orders[id].status == AllWaiting
    requires ValidTicks(ticks) && TickAll(s.orders[id], ticks).Going?
    ensures ReceiveStep(s, inp, id, ticks).1.Accepted? <==> inp.NeedsOf(s.orders[id].date).Known?
  {
    var o := s.orders[id];
    var p := TickAll(o, ticks);
    TickingBalances(o, ticks);
    assert p == TickOne(TickAll(o, ticks[..|ticks| - 1]), o.date, ticks[|ticks| - 1]);
    ChangesFindTheirLines(s, inp, id, p.items, p.changes, ticks[|ticks| - 1].item);
  }

  lemma ChangesFindTheirLines(s: State, inp: Inputs, id: nat, items: Items, changes: map<Id, Delta>, g: Id)
    requires Inv(s) && id < |s.orders|
    requires ItemsMovedBy(s.orders[id].items, items, changes) && g in changes
    ensures Recorded(s.batches, inp, s.orders[id].date, changes).Some? <==> inp.NeedsOf(s.orders[id].date).Known?
  {
    var date := s.orders[id].date;
    WaitingItemsHaveTheirLines(s, id, items, changes);
    assert CanApply(LinesOf(s.batches, date), g, changes[g]);
    assert date in s.batches;
  }

  /** An order with new items, closed once none waits. */
  ghost predicate ClosedWith(o: Order, p: Order) {
    && p == o.(items := p.items, status := p.status)
    && p.items.Keys == o.items.Keys
    && p.status == if exists g :: g in p.items && p.items[g].status == Waiting then AllWaiting
                   else if exists g :: g in p.items && p.items[g].status == Arrived then SomethingArrived
                   else NothingArrived
  }

  lemma ClosedIs(o: Order, items: Items)
    requires o.status == AllWaiting && items.Keys == o.items.Keys
    ensures ClosedWith(o, Closed(o, items)) && Closed(o, items).items == items
  {
    ClosedExactlyWhen(o, items);
  }

  /** A checklist is accepted, in every state that can be reached, just when the order
      still waits, each item is ticked once for at most a hundred million, waits on the
      order and is taken by the stock, and the recipes can be evaluated. Then the ticked
      items have arrived and the order closes if none waits. */
  lemma ReceivedExactlyWhen(s: State, inp: Inputs, id: nat, ticks: seq<Tick>)
    requires Inv(s)
    ensures var (t, r) := ReceiveStep(s, inp, id, ticks);
            var valid :=
              ticks != [] && EachOnce(ticks) && forall i :: 0 <= i < |ticks| ==> 0 <= ticks[i].qty <= 100_000_000;
            && (!valid ==> r == Invalid)
            && (valid && id >= |s.orders| ==> r == NotFound)
            && (valid && id < |s.orders| && s.orders[id].status != AllWaiting ==> r == OrderClosed)
            && (r.Accepted? <==>
                  && valid && id < |s.orders| && s.orders[id].status == AllWaiting
                  && (forall i :: 0 <= i < |ticks| ==> CanTick(s.orders[id].items, ticks[i]))
                  && inp.NeedsOf(s.orders[id].date).Known?)
            && (!r.Accepted? ==> t == s)
            && (r.Accepted? ==>
                  && r.order == id && |t.orders| == |s.orders| && t.orders == s.orders[id := t.orders[id]]
                  && ClosedWith(s.orders[id], t.orders[id])
                  && TickedOff(s.orders[id].items, t.orders[id].items, ticks))
  {
    if ValidTicks(ticks) && id < |s.orders| && s.orders[id].status == AllWaiting {
      var o := s.orders[id];
      TicksGoThroughExactlyWhen(o, ticks);
      StopsAreRefusals(o, ticks);
      if TickAll(o, ticks).Going? {
        ReceiveNeverMissesItsLines(s, inp, id, ticks);
        ClosedIs(o, TickAll(o, ticks).items);
      }
    }
  }

  /** Cancelling an order that waits drops just the items that wait, and closes it. */
  lemma CancelledExactlyWhen(s: State, inp: Inputs, id: nat)
    requires Inv(s)
    ensures var (t, r) := CancelStep(s, inp, id);
            if id >= |s.orders| then t == s && r == NotFound
            else if s.orders[id].status != AllWaiting then t == s && r == OrderClosed
            else if inp.NeedsOf(s.orders[id].date).Broken? then t == s && r == Failed
            else
              && r == Accepted(id) && t.deliveries == s.deliveries && |t.orders| == |s.orders|
              && t.orders == s.orders[id := t.orders[id]]
              && ClosedWith(s.orders[id], t.orders[id]) && t.orders[id].status != AllWaiting
              && forall g :: g in s.orders[id].items ==>
                   var was := s.orders[id].items[g];
                   t.orders[id].items[g] == if was.status == Waiting then was.(status := Dropped) else was
  {
    if id < |s.orders| && s.orders[id].status == AllWaiting {
      CancelNeverMissesItsLines(s, inp, id);
      ClosedIs(s.orders[id], Dropping(s.orders[id].items));
    }
  }

  ghost predicate SensiblePacks(packs: map<Id, Pack>) {
    forall g :: g in packs ==> packs[g].size < 1_000_000_000.0 - 1.0
  }

  /** A line that computing again would not change. */
  ghost predicate CurrentLine(lines: Lines, needs: map<Id, int>, stock: map<Id, int>, packs: map<Id, Pack>, g: Id) {
    && g in lines
    && lines[g] == Row(lines, needs, stock, packs, g)
    && lines[g].ordered >= 0
    && (lines[g].status == Needed ==> lines[g].ordered == 0)
  }

  /** An item orders at least what its line has to buy. */
  lemma ItemsCoverTheirLines(lines: Lines, needs: map<Id, int>, stock: map<Id, int>, packs: map<Id, Pack>, g: Id)
    requires CurrentLine(lines, needs, stock, packs, g) && SensiblePacks(packs)
    requires lines[g].toBuy > 0
    ensures QtyToOrder(lines[g]) >= lines[g].toBuy
  {
    var l := lines[g];
    if l.pack.Some? {
      PacksAreEnoughAndNoneTooMany(l.toBuy, l.pack.value.size);
    }
  }

  /** What is ordered comes off what is to buy; the supplier stays. */
  lemma LineAfterOrdering(
      lines: Lines, rows: Lines, needs: map<Id, int>, was: map<Id, int>, now: map<Id, int>, packs: map<Id, Pack>,
      g: Id, supplier: Option<Id>)
    requires CurrentLine(lines, needs, was, packs, g) && SensiblePacks(packs) && Get(was, g) == Get(now, g)
    requires g in rows && (rows[g].status == Needed ==> rows[g].ordered == 0)
    requires rows[g].ordered == lines[g].ordered + if ToOrder(lines[g], supplier) then QtyToOrder(lines[g]) else 0
    ensures !ToOrder(Row(rows, needs, now, packs, g), supplier)
  {
    if ToOrder(lines[g], supplier) {
      ItemsCoverTheirLines(lines, needs, was, packs, g);
    }
  }

  /** The rows after ordering from a supplier, before computing. */
  lemma RowsAfterOrdering(lines: Lines, supplier: Option<Id>, rows: Lines, g: Id)
    requires Applied(lines, Ordering(NewItems(lines, supplier))) == Some(rows)
    requires g in lines && lines[g].ordered >= 0 && (lines[g].status == Needed ==> lines[g].ordered == 0)
    ensures g in rows
    ensures rows[g].ordered == lines[g].ordered + if ToOrder(lines[g], supplier) then QtyToOrder(lines[g]) else 0
    ensures rows[g].status == Needed ==> rows[g].ordered == 0
  {
  }

  /** Every line of a list, and every ingredient needed, is current. */
  ghost predicate CurrentList(b: Batches, inp: Inputs, date: Date)
    requires date in b && inp.NeedsOf(date).Known?
  {
    var needs, lines := inp.NeedsOf(date).qty, b[date].lines;
    var ids := needs.Keys + Touched(lines);
    forall g :: g in lines.Keys + needs.Keys ==>
        g in ids && CurrentLine(lines, needs, FreeOf(b, inp, date, ids), inp.packs, g)
  }

  lemma UpToDateListsAreCurrent(s: State, inp: Inputs, date: Date)
    requires Inv(s) && date in s.batches && UpToDate(s.batches, inp, date)
    ensures CurrentList(s.batches, inp, date)
  {
    var needs, lines := inp.NeedsOf(date).qty, s.batches[date].lines;
    assert lines == Recomputed(s.batches, inp, date)[date].lines;
    RebuiltRows(lines, needs, FreeOf(s.batches, inp, date, needs.Keys + Touched(lines)), inp.packs);
    forall g | g in lines ensures lines[g].ordered >= 0 && (lines[g].status == Needed ==> lines[g].ordered == 0) {
      assert BooksAgree(LinesOf(s.batches, date), g, OpenTotal(s.orders, date, g), ArrivedTotal(s.orders, date, g));
      TotalsAreNonNegative(s.orders, date, g);
    }
  }

  lemma FreeOfTheSame(b: Batches, c: Batches, inp: Inputs, date: Date, ids: set<Id>, jds: set<Id>, g: Id)
    requires forall e :: e < date ==> (e in b <==> e in c) && (e in b ==> b[e] == c[e])
    requires g in ids && g in jds
    ensures Get(FreeOf(b, inp, date, ids), g) == Get(FreeOf(c, inp, date, jds), g)
  {
    EarlierClaimsDecide(b, c, date, g);
  }

  lemma NothingLeftToOrder(
      lines: Lines, rows: Lines, needs: map<Id, int>, was: map<Id, int>, now: map<Id, int>, packs: map<Id, Pack>,
      supplier: Option<Id>, g: Id)
    requires CurrentLine(lines, needs, was, packs, g) && SensiblePacks(packs) && Get(was, g) == Get(now, g)
    requires Applied(lines, Ordering(NewItems(lines, supplier))) == Some(rows)
    ensures !ToOrder(Row(rows, needs, now, packs, g), supplier)
  {
    RowsAfterOrdering(lines, supplier, rows, g);
    LineAfterOrdering(lines, rows, needs, was, now, packs, g, supplier);
  }

  lemma RowsHaveTheSameKeys(lines: Lines, changes: map<Id, Delta>, rows: Lines)
    requires Applied(lines, changes) == Some(rows)
    ensures rows.Keys == lines.Keys && Touched(rows) <= lines.Keys
  {
  }

  /** Ordering changes no stock that is free for the batch itself. */
  lemma StockStaysFree(b: Batches, inp: Inputs, date: Date, rows: Lines, ids: set<Id>, jds: set<Id>)
    requires date in b
    ensures var mid := b[date := b[date].(lines := rows)];
            forall g :: g in ids && g in jds ==>
                Get(FreeOf(b, inp, date, ids), g) == Get(FreeOf(mid, inp, date, jds), g)
  {
    var mid := b[date := b[date].(lines := rows)];
    forall g | g in ids && g in jds
      ensures Get(FreeOf(b, inp, date, ids), g) == Get(FreeOf(mid, inp, date, jds), g)
    {
      FreeOfTheSame(b, mid, inp, date, ids, jds, g);
    }
  }

  lemma NothingLeftInTheRows(
      before: Lines, rows: Lines, needs: map<Id, int>, was: map<Id, int>, now: map<Id, int>, packs: map<Id, Pack>,
      supplier: Option<Id>)
    requires Applied(before, Ordering(NewItems(before, supplier))) == Some(rows) && SensiblePacks(packs)
    requires forall g :: g in before.Keys + needs.Keys ==> CurrentLine(before, needs, was, packs, g)
    requires forall g :: g in before.Keys + needs.Keys && (g in needs || g in Touched(rows)) ==>
        Get(was, g) == Get(now, g)
    ensures forall g :: g in Rebuilt(rows, needs, now, packs) ==>
        !ToOrder(Rebuilt(rows, needs, now, packs)[g], supplier)
  {
    RowsHaveTheSameKeys(before, Ordering(NewItems(before, supplier)), rows);
    forall g | g in Rebuilt(rows, needs, now, packs) ensures !ToOrder(Rebuilt(rows, needs, now, packs)[g], supplier) {
      RebuiltRow(rows, needs, now, packs, g);
      NothingLeftInTheRow(before, rows, needs, was, now, packs, supplier, g);
    }
  }

  lemma NothingLeftInTheList(
      b: Batches, inp: Inputs, date: Date, supplier: Option<Id>, rows: Lines, mid: Batches, lines: Lines)
    requires date in b && inp.NeedsOf(date).Known? && SensiblePacks(inp.packs) && CurrentList(b, inp, date)
    requires Applied(b[date].lines, Ordering(NewItems(b[date].lines, supplier))) == Some(rows)
    requires mid == b[date := b[date].(lines := rows)]
    requires var needs := inp.NeedsOf(date).qty;
             lines == Rebuilt(rows, needs, FreeOf(mid, inp, date, needs.Keys + Touched(rows)), inp.packs)
    ensures forall g :: g in lines ==> !ToOrder(lines[g], supplier)
  {
    var needs, before := inp.NeedsOf(date).qty, b[date].lines;
    var ids, jds := needs.Keys + Touched(before), needs.Keys + Touched(rows);
    StockStaysFree(b, inp, date, rows, ids, jds);
    NothingLeftInTheRows(
      before, rows, needs, FreeOf(b, inp, date, ids), FreeOf(mid, inp, date, jds), inp.packs, supplier);
  }

  lemma NothingLeftInTheRow(
      before: Lines, rows: Lines, needs: map<Id, int>, was: map<Id, int>, now: map<Id, int>, packs: map<Id, Pack>,
      supplier: Option<Id>, g: Id)
    requires CurrentLine(before, needs, was, packs, g) && SensiblePacks(packs) && Get(was, g) == Get(now, g)
    requires Applied(before, Ordering(NewItems(before, supplier))) == Some(rows)
    requires g in Rebuilt(rows, needs, now, packs)
    ensures !ToOrder(Rebuilt(rows, needs, now, packs)[g], supplier)
  {
    RebuiltRow(rows, needs, now, packs, g);
    NothingLeftToOrder(before, rows, needs, was, now, packs, supplier, g);
  }

  /** Ordering twice: when the list was current and nothing else changes, a
      second order to the same supplier finds nothing left and is refused. */
  lemma SecondOrderIsRefused(s: State, inp: Inputs, date: Date, supplier: Option<Id>)
    requires Inv(s) && date in s.batches && UpToDate(s.batches, inp, date) && SensiblePacks(inp.packs)
    requires CreateStep(s, inp, date, supplier).1.Accepted?
    ensures CreateStep(CreateStep(s, inp, date, supplier).0, inp, date, supplier).1 == NothingToOrder
  {
    var rows, mid := CreatedFrom(s, inp, date, supplier);
    var lines := CreateStep(s, inp, date, supplier).0.batches[date].lines;
    UpToDateListsAreCurrent(s, inp, date);
    NothingLeftInTheList(s.batches, inp, date, supplier, rows, mid, lines);
    NoItems(lines, supplier);
  }

  lemma NoItems(lines: Lines, supplier: Option<Id>)
    requires forall g :: g in lines ==> !ToOrder(lines[g], supplier)
    ensures NewItems(lines, supplier) == map[]
  {
  }

  /** The list an accepted order was computed from. */
  lemma CreatedFrom(s: State, inp: Inputs, date: Date, supplier: Option<Id>) returns (rows: Lines, mid: Batches)
    requires CreateStep(s, inp, date, supplier).1.Accepted?
    ensures date in s.batches && s.batches[date].status != Done && inp.NeedsOf(date).Known?
    ensures Applied(s.batches[date].lines, Ordering(NewItems(s.batches[date].lines, supplier))) == Some(rows)
    ensures mid == s.batches[date := s.batches[date].(lines := rows)]
    ensures var after := CreateStep(s, inp, date, supplier).0.batches;
            var needs := inp.NeedsOf(date).qty;
            && date in after && after[date].status == s.batches[date].status
            && after[date].lines == Rebuilt(rows, needs, FreeOf(mid, inp, date, needs.Keys + Touched(rows)), inp.packs)
  {
    rows := Applied(s.batches[date].lines, Ordering(NewItems(s.batches[date].lines, supplier))).value;
    mid := s.batches[date := s.batches[date].(lines := rows)];
  }
}
