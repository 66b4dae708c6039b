/** Purchase orders made from shopping lists, and the checklist of what arrived
    (internal/procurement/service.go, internal/aggregation/purchasing.go). The
    same quantities live twice: as items of orders here, and as deltas added to
    the lines of the list. */
module Procurement {
  import opened Base
  import opened Clock
  import opened Packs
  import opened ShoppingList
  import opened Allocation
  import opened Deliveries
  import I = Inventory

  datatype ItemStatus = Waiting | Arrived | Dropped

  /** One ingredient of an order; `arrived` is what came of it. */
  datatype Item = Item(qty: int, status: ItemStatus, arrived: int)

  /** An order's items, one per ingredient. */
  type Items = map<Id, Item>

  datatype OrderStatus = AllWaiting | SomethingArrived | NothingArrived

  datatype Order = Order(date: Date, supplier: Option<Id>, status: OrderStatus, items: Items)

  /** What went into the stock for an item of an order. */
  datatype Delivery = Delivery(date: Date, ingredient: Id, qty: int)

  datatype State = State(batches: Batches, orders: seq<Order>, deliveries: seq<Delivery>)

  datatype Outcome =
    | Accepted(order: nat)
    | NotFound | BatchDone | NothingToOrder | OrderClosed | ItemClosed | Invalid | Failed

  // ----- Create -----

  predicate SameSupplier(l: Line, supplier: Option<Id>) {
    if l.pack.None? then supplier.None? else supplier == Some(l.pack.value.supplier)
  }

  predicate ToOrder(l: Line, supplier: Option<Id>) { l.toBuy > 0 && SameSupplier(l, supplier) }

  function QtyToOrder(l: Line): int {
    if l.pack.None? then l.toBuy else PackQty(l.packs, l.pack.value.size)
  }

  function NewItems(lines: Lines, supplier: Option<Id>): Items {
    map g | g in lines && ToOrder(lines[g], supplier) :: Item(QtyToOrder(lines[g]), Waiting, 0)
  }

  /** An order takes the lines that have something to buy and are packed by its
      supplier, or that no supplier packs when it has none. It asks for what their
      packs hold, or without packs for what is to buy. */
  lemma WhatIsOrdered(lines: Lines, supplier: Option<Id>, g: Id)
    ensures g in NewItems(lines, supplier) <==>
              && g in lines && lines[g].toBuy > 0
              && if supplier.Some? then lines[g].pack.Some? && lines[g].pack.value.supplier == supplier.value
                 else lines[g].pack.None?
    ensures g in NewItems(lines, supplier) ==>
              var l, item := lines[g], NewItems(lines, supplier)[g];
              && item.status == Waiting && item.arrived == 0
              && match l.pack
                 case None => item.qty == l.toBuy
                 case Some(pack) =>
                   item.qty as real - 1.0 < l.packs as real * pack.size - 0.000000001 <= item.qty as real
  {
  }

  /** The list after changes and a computation, in one transaction: a missing
      line or a broken recipe undoes it all. */
  function Recorded(b: Batches, inp: Inputs, date: Date, changes: map<Id, Delta>): Option<Batches> {
    if date !in b then None
    else
      var applied := Applied(b[date].lines, changes);
      if applied.None? || inp.NeedsOf(date).Broken? then None
      else Some(Recomputed(b[date := b[date].(lines := applied.value)], inp, date))
  }

  function Ordering(items: Items): map<Id, Delta> { map g | g in items :: Delta(items[g].qty, 0) }

  function CreateStep(s: State, inp: Inputs, date: Date, supplier: Option<Id>): (State, Outcome) {
    if date !in s.batches then (s, NotFound)
    else if s.batches[date].status == Done then (s, BatchDone)
    else
      var items := NewItems(s.batches[date].lines, supplier);
      if items == map[] then (s, NothingToOrder)
      else if exists g :: g in items && items[g].qty <= 0 then (s, Failed)
      else
        var after := Recorded(s.batches, inp, date, Ordering(items));
        if after.None? then (s, Failed)
        else
          (s.(batches := after.value, orders := s.orders + [Order(date, supplier, AllWaiting, items)]),
           Accepted(|s.orders|))
  }

  // ----- Receive and Cancel -----

  /** What the kitchen ticks of one item; `accepted` is whether the stock takes
      the delivery (a known ingredient that is not past its expiry). */
  datatype Tick = Tick(item: Id, qty: int, accepted: bool)

  const MAX_QTY := 100_000_000

  predicate ValidTicks(ticks: seq<Tick>) {
    && ticks != []
    && (forall i :: 0 <= i < |ticks| ==> 0 <= ticks[i].qty <= MAX_QTY)
    && forall i, j :: 0 <= i < j < |ticks| ==> ticks[i].item != ticks[j].item
  }

  datatype Progress =
    | Stopped(why: Outcome)
    | Going(items: Items, changes: map<Id, Delta>, brought: seq<Delivery>)

  function TickOne(p: Progress, date: Date, t: Tick): Progress {
    if p.Stopped? then p
    else if t.item !in p.items then Stopped(Invalid)
    else
      var item := p.items[t.item];
      if item.status != Waiting then Stopped(ItemClosed)
      else if t.qty > 0 && !t.accepted then Stopped(Failed)
      else
        Going(p.items[t.item := item.(status := Arrived, arrived := t.qty)],
              p.changes[t.item := Delta(-item.qty, t.qty)],
              if t.qty > 0 then p.brought + [Delivery(date, t.item, t.qty)] else p.brought)
  }

  function TickAll(o: Order, ticks: seq<Tick>): Progress {
    if ticks == [] then Going(o.items, map[], [])
    else TickOne(TickAll(o, ticks[..|ticks| - 1]), o.date, ticks[|ticks| - 1])
  }

  /** The first tick that is wrong decides: what is not on the order, what does not wait
      any more, and what the stock refuses. */
  lemma FirstWrongTickDecides(o: Order, ticks: seq<Tick>, i: nat)
    requires i < |ticks| && TickAll(o, ticks[..i]).Going?
    ensures var items, t := TickAll(o, ticks[..i]).items, ticks[i];
            && (t.item !in items ==> TickAll(o, ticks) == Stopped(Invalid))
            && (t.item in items && items[t.item].status != Waiting ==> TickAll(o, ticks) == Stopped(ItemClosed))
            && (t.item in items && items[t.item].status == Waiting && t.qty > 0 && !t.accepted ==>
                  TickAll(o, ticks) == Stopped(Failed))
  {
    TickNext(o, ticks, i);
  }

  /** Items with some ticked off: each with what arrived of it, and the others as they
      were. */
  ghost predicate TickedOff(was: Items, now: Items, ticks: seq<Tick>) {
    && now.Keys == was.Keys
    && (forall g :: g in was && (forall i :: 0 <= i < |ticks| ==> ticks[i].item != g) ==> now[g] == was[g])
    && forall i :: 0 <= i < |ticks| ==>
         && ticks[i].item in was
         && now[ticks[i].item] == was[ticks[i].item].(status := Arrived, arrived := ticks[i].qty)
  }

  lemma TickedOffOneMore(was: Items, mid: Items, ticks: seq<Tick>, t: Tick)
    requires TickedOff(was, mid, ticks) && t.item in was && forall i :: 0 <= i < |ticks| ==> ticks[i].item != t.item
    ensures mid[t.item] == was[t.item]
    ensures TickedOff(was, mid[t.item := mid[t.item].(status := Arrived, arrived := t.qty)], ticks + [t])
  {
    var now, all := mid[t.item := mid[t.item].(status := Arrived, arrived := t.qty)], ticks + [t];
    forall g | g in was && forall i :: 0 <= i < |all| ==> all[i].item != g ensures now[g] == was[g] {
      assert all[|ticks|].item != g;
      assert forall i :: 0 <= i < |ticks| ==> all[i] == ticks[i];
    }
  }

  ghost predicate CanTick(items: Items, t: Tick) {
    t.item in items && items[t.item].status == Waiting && (t.qty > 0 ==> t.accepted)
  }

  ghost predicate EachOnce(ticks: seq<Tick>) {
    forall i, j :: 0 <= i < j < |ticks| ==> ticks[i].item != ticks[j].item
  }

  lemma TickOneIs(p: Progress, date: Date, t: Tick)
    requires p.Going?
    ensures TickOne(p, date, t).Going? <==> CanTick(p.items, t)
    ensures CanTick(p.items, t) ==>
              TickOne(p, date, t).items == p.items[t.item := p.items[t.item].(status := Arrived, arrived := t.qty)]
  {
  }

  /** A checklist goes through just when each of its items waits on the order and the
      stock takes what came of it. */
  lemma {:induction false} TicksGoThroughExactlyWhen(o: Order, ticks: seq<Tick>)
    requires EachOnce(ticks)
    ensures TickAll(o, ticks).Going? <==> forall i :: 0 <= i < |ticks| ==> CanTick(o.items, ticks[i])
    ensures TickAll(o, ticks).Going? ==> TickedOff(o.items, TickAll(o, ticks).items, ticks)
  {
    if ticks != [] {
      var front, last := ticks[..|ticks| - 1], ticks[|ticks| - 1];
      var p := TickAll(o, front);
      TicksGoThroughExactlyWhen(o, front);
      assert ticks == front + [last] && TickAll(o, ticks) == TickOne(p, o.date, last);
      if p.Going? {
        TickOneIs(p, o.date, last);
        if last.item in o.items {
          TickedOffOneMore(o.items, p.items, front, last);
        }
      }
    }
  }

  predicate SomeAre(items: Items, status: ItemStatus) { exists g :: g in items && items[g].status == status }

  /** An order waits while some item does; then what arrived decides. */
  function StatusOf(items: Items): OrderStatus {
    if SomeAre(items, Waiting) then AllWaiting
    else if SomeAre(items, Arrived) then SomethingArrived
    else NothingArrived
  }

  /** An order closed by its items, or left as it is while some wait. */
  function Closed(o: Order, items: Items): Order {
    o.(items := items, status := if SomeAre(items, Waiting) then o.status else StatusOf(items))
  }

  /** An order stays as it stands while an item waits; then it closes, by whether
      anything arrived. */
  lemma ClosedExactlyWhen(o: Order, items: Items)
    ensures var p := Closed(o, items);
            var waits := exists g :: g in items && items[g].status == Waiting;
            var came := exists g :: g in items && items[g].status == Arrived;
            && p.items == items && p.date == o.date && p.supplier == o.supplier
            && p.status == if waits then o.status else if came then SomethingArrived else NothingArrived
  {
  }

  function SettleStep(
      s: State, inp: Inputs, id: nat, items: Items, changes: map<Id, Delta>, brought: seq<Delivery>)
    : (State, Outcome)
    requires id < |s.orders|
  {
    var o := s.orders[id];
    var after := Recorded(s.batches, inp, o.date, changes);
    if after.None? then (s, Failed)
    else (State(after.value, s.orders[id := Closed(o, items)], s.deliveries + brought), Accepted(id))
  }

  function ReceiveStep(s: State, inp: Inputs, id: nat, ticks: seq<Tick>): (State, Outcome) {
    if !ValidTicks(ticks) then (s, Invalid)
    else if id >= |s.orders| then (s, NotFound)
    else if s.orders[id].status != AllWaiting then (s, OrderClosed)
    else
      match TickAll(s.orders[id], ticks)
      case Stopped(why) => (s, why)
      case Going(items, changes, brought) => SettleStep(s, inp, id, items, changes, brought)
  }

  function Dropping(items: Items): Items {
    map g | g in items :: if items[g].status == Waiting then items[g].(status := Dropped) else items[g]
  }

  function TakingBack(items: Items): map<Id, Delta> {
    map g | g in items && items[g].status == Waiting :: Delta(-items[g].qty, 0)
  }

  function CancelStep(s: State, inp: Inputs, id: nat): (State, Outcome) {
    if id >= |s.orders| then (s, NotFound)
    else if s.orders[id].status != AllWaiting then (s, OrderClosed)
    else SettleStep(s, inp, id, Dropping(s.orders[id].items), TakingBack(s.orders[id].items), [])
  }

  // ----- What the stock takes of a checklist -----

  /** The kitchen's ticks, and whether the stock takes what came. */
  function Ticks(came: seq<I.Came>, at: Instant, ingredients: map<Id, I.Ingredient>): (ticks: seq<Tick>)
    ensures |ticks| == |came|
  {
    seq(|came|, i requires 0 <= i < |came| =>
      Tick(came[i].ingredient, came[i].qty, I.Receivable(came[i], at, ingredients)))
  }

  function ReceivedAt(at: Option<Instant>, now: Instant): Instant { if at.Some? then at.value else now }

  predicate InTime(at: Instant, now: Instant) { now - I.RECEIVED_WITHIN <= at <= now + 5 * MINUTE }

  // ----- The service -----

  class Service {
    const engine: Engine
    const stock: I.Service
    var orders: seq<Order>
    var deliveries: seq<Delivery>

    function Now(): State
      reads this, engine
    {
      State(engine.batches, orders, deliveries)
    }

    constructor (engine: Engine, stock: I.Service)
      ensures this.engine == engine && this.stock == stock && orders == [] && deliveries == []
    {
      this.engine, this.stock := engine, stock;
      orders, deliveries := [], [];
    }

    /** Applies the changes to the batch of date and computes it again; the
        caller's transaction undoes both when it fails. */
    method Record(inp: Inputs, date: Date, changes: map<Id, Delta>) returns (ok: bool)
      modifies engine
      ensures ok <==> Recorded(old(engine.batches), inp, date, changes).Some?
      ensures ok ==> engine.batches == Recorded(old(engine.batches), inp, date, changes).value
    {
      if date !in engine.batches {
        return false;
      }
      var rows := Apply(engine.batches[date].lines, changes);
      if rows.None? {
        return false;
      }
      engine.batches := engine.batches[date := engine.batches[date].(lines := rows.value)];
      ok := engine.Recompute(inp, date);
    }

    /** Orders what is still to buy from one supplier. */
    method Create(inp: Inputs, date: Date, supplier: Option<Id>) returns (r: Outcome)
      modifies this, engine
      ensures (Now(), r) == CreateStep(old(Now()), inp, date, supplier)
    {
      if date !in engine.batches {
        return NotFound;
      }
      var batch := engine.batches[date];
      if batch.status == Done {
        return BatchDone;
      }
      var items := ItemsToOrder(batch.lines, supplier);
      if items == map[] {
        return NothingToOrder;
      }
      if exists g :: g in items && items[g].qty <= 0 {
        return Failed;
      }
      var before := engine.batches;
      var ok := Record(inp, date, Ordering(items));
      if !ok {
        engine.batches := before;
        return Failed;
      }
      r := Accepted(|orders|);
      orders := orders + [Order(date, supplier, AllWaiting, items)];
    }

    /** What is still to buy from one supplier, in its packs. */
    method ItemsToOrder(lines: Lines, supplier: Option<Id>) returns (items: Items)
      ensures items == NewItems(lines, supplier)
    {
      items := map[];
      var todo := lines.Keys;
      while todo != {}
        invariant todo <= lines.Keys
        invariant items.Keys == NewItems(lines, supplier).Keys - todo
        invariant forall g :: g in items ==> items[g] == Item(QtyToOrder(lines[g]), Waiting, 0)
        decreases todo
      {
        var g :| g in todo;
        todo := todo - {g};
        var l := lines[g];
        if l.toBuy <= 0 || !SameSupplier(l, supplier) {
          continue;
        }
        var qty := l.toBuy;
        if l.pack.Some? {
          qty := Ceil(l.packs as real * l.pack.value.size - EPSILON);
        }
        items := items[g := Item(qty, Waiting, 0)];
      }
    }

    /** Ticks what arrived: into the stock, off the order, and onto the list. Each
        item that came is a lot more; a checklist that fails leaves nothing. */
    method Receive(inp: Inputs, id: nat, came: seq<I.Came>, receivedAt: Option<Instant>,
                   ingredients: map<Id, I.Ingredient>, ids: seq<Id>)
      returns (r: Outcome)
      requires stock.Valid() && |ids| == |came| && NewIds(ids, stock.lots)
      modifies this, engine, stock
      ensures stock.Valid() && old(stock.clock) <= stock.clock && stock.requests == old(stock.requests)
      ensures var at := if receivedAt.Some? then receivedAt.value else old(stock.clock);
              (Now(), r) == if at + 30 * DAY < old(stock.clock) || at > old(stock.clock) + 5 * MINUTE
                            then (old(Now()), Invalid)
                            else ReceiveStep(old(Now()), inp, id, Ticks(came, at, ingredients))
      ensures var at := if receivedAt.Some? then receivedAt.value else old(stock.clock);
              r.Accepted? ==> TookIn(old(StocksOf(stock)), StocksOf(stock), came, ids, at, ingredients)
      ensures !r.Accepted? ==> OnlyAged(old(StocksOf(stock)), StocksOf(stock))
    {
      var at := ReceivedAt(receivedAt, stock.clock);
      var ticks := Ticks(came, at, ingredients);
      if !InTime(at, stock.clock) || !ValidTicks(ticks) {
        return Invalid;
      }
      if id >= |orders| {
        return NotFound;
      }
      var o := orders[id];
      if o.status != AllWaiting {
        return OrderClosed;
      }
      var kept, movements, checks := stock.lots.Keys, stock.movements, stock.checks;
      var p := TickItems(o, came, at, ingredients, ids);
      StopsAreRefusals(o, ticks);
      r := Store(inp, id, p);
      if !r.Accepted? {
        stock.Undo(old(stock.lots), kept, movements, checks);
      }
    }

    /** The loop over the checklist. */
    method TickItems(o: Order, came: seq<I.Came>, at: Instant, ingredients: map<Id, I.Ingredient>, ids: seq<Id>)
      returns (p: Progress)
      requires stock.Valid() && |ids| == |came| && NewIds(ids, stock.lots)
      modifies stock
      ensures stock.Valid() && old(stock.clock) <= stock.clock && stock.requests == old(stock.requests)
      ensures p == TickAll(o, Ticks(came, at, ingredients))
      ensures p.Going? ==> TookIn(old(StocksOf(stock)), StocksOf(stock), came, ids, at, ingredients)
      ensures OldLotsStay(old(stock.lots), stock.lots, stock.clock)
    {
      var ticks := Ticks(came, at, ingredients);
      ghost var was := StocksOf(stock);
      p := Going(o.items, map[], []);
      NothingTakenIn(was, ids, at, ingredients);
      for i := 0 to |came|
        invariant stock.Valid() && old(stock.clock) <= stock.clock && stock.requests == old(stock.requests)
        invariant p.Going? && p == TickAll(o, ticks[..i])
        invariant TookIn(was, StocksOf(stock), came[..i], ids, at, ingredients)
      {
        TickNext(o, ticks, i);
        p := TickItem(p, o.date, came, i, at, ingredients, ids, was);
        if p.Stopped? {
          TookInKeepsOldLots(was, StocksOf(stock), came[..i], ids, at, ingredients);
          return;
        }
      }
      assert ticks[..|came|] == ticks && came[..|came|] == came;
      TookInKeepsOldLots(was, StocksOf(stock), came, ids, at, ingredients);
    }

    /** One item: off the order, onto the list, and into the stock. */
    method TickItem(p: Progress, date: Date, came: seq<I.Came>, i: nat, at: Instant,
                    ingredients: map<Id, I.Ingredient>, ids: seq<Id>, ghost was: Stocks)
      returns (q: Progress)
      requires p.Going? && stock.Valid() && i < |came| == |ids| && NewIds(ids, was.lots)
      requires TookIn(was, StocksOf(stock), came[..i], ids, at, ingredients)
      modifies stock
      ensures stock.Valid() && old(stock.clock) <= stock.clock && stock.requests == old(stock.requests)
      ensures q == TickOne(p, date, Ticks(came, at, ingredients)[i])
      ensures TookIn(was, StocksOf(stock), came[..if q.Going? then i + 1 else i], ids, at, ingredients)
    {
      var c := came[i];
      RefusedByTheStock(p, date, c.ingredient, c.qty, I.Receivable(c, at, ingredients));
      q := TickOff(p, date, c.ingredient, c.qty);
      if q.Going? {
        var ok := TakeIn(came, i, at, ingredients, ids, was);
        if !ok {
          q := Stopped(Failed);
        }
      }
    }

    /** Off the order and onto the list. */
    method TickOff(p: Progress, date: Date, g: Id, qty: int) returns (q: Progress)
      requires p.Going?
      ensures q == TickOne(p, date, Tick(g, qty, true))
    {
      if g !in p.items {
        return Stopped(Invalid);
      }
      var item := p.items[g];
      if item.status != Waiting {
        return Stopped(ItemClosed);
      }
      q := Going(p.items[g := item.(status := Arrived, arrived := qty)],
                 p.changes[g := Delta(-item.qty, qty)],
                 if qty > 0 then p.brought + [Delivery(date, g, qty)] else p.brought);
    }

    /** What came of one item, into the stock. */
    method TakeIn(came: seq<I.Came>, i: nat, at: Instant, ingredients: map<Id, I.Ingredient>, ids: seq<Id>,
                  ghost was: Stocks)
      returns (ok: bool)
      requires stock.Valid() && i < |came| == |ids| && NewIds(ids, was.lots)
      requires TookIn(was, StocksOf(stock), came[..i], ids, at, ingredients)
      modifies stock
      ensures stock.Valid() && old(stock.clock) <= stock.clock && stock.requests == old(stock.requests)
      ensures ok <==> !(came[i].qty > 0 && !I.Receivable(came[i], at, ingredients))
      ensures TookIn(was, StocksOf(stock), came[..if ok then i + 1 else i], ids, at, ingredients)
    {
      ghost var mid := StocksOf(stock);
      if came[i].qty <= 0 {
        NothingCame(was, mid, came, i, ids, at, ingredients);
        return true;
      }
      NextIdIsNew(was, mid, came, i, ids, at, ingredients);
      ok := stock.ReceiveOrdered(came[i], at, ingredients, ids[i]);
      if ok {
        TookInOneMore(was, mid, StocksOf(stock), came, i, ids, at, ingredients);
      }
    }

    /** The rest of the transaction: the list and the order, or nothing. */
    method Store(inp: Inputs, id: nat, p: Progress) returns (r: Outcome)
      requires id < |orders|
      modifies this, engine
      ensures (Now(), r) == match p
                            case Stopped(why) => (old(Now()), why)
                            case Going(items, changes, brought) =>
                              SettleStep(old(Now()), inp, id, items, changes, brought)
    {
      match p
      case Stopped(why) => r := why;
      case Going(items, changes, brought) =>
        var before := engine.batches;
        var ok := Record(inp, orders[id].date, changes);
        if !ok {
          engine.batches := before;
          return Failed;
        }
        CloseIfDone(id, items);
        deliveries := deliveries + brought;
        r := Accepted(id);
    }

    /** Closes what still waits; what arrived stays. */
    method Cancel(inp: Inputs, id: nat) returns (r: Outcome)
      modifies this, engine
      ensures (Now(), r) == CancelStep(old(Now()), inp, id)
    {
      if id >= |orders| {
        return NotFound;
      }
      var o := orders[id];
      if o.status != AllWaiting {
        return OrderClosed;
      }
      var items, changes := DropWaiting(o.items);
      var before := engine.batches;
      var ok := Record(inp, o.date, changes);
      if !ok {
        engine.batches := before;
        return Failed;
      }
      CloseIfDone(id, items);
      assert deliveries + [] == deliveries;
      r := Accepted(id);
    }

    /** Drops the items that still wait. */
    method DropWaiting(before: Items) returns (items: Items, changes: map<Id, Delta>)
      ensures items == Dropping(before) && changes == TakingBack(before)
    {
      items, changes := map[], map[];
      var todo := before.Keys;
      while todo != {}
        invariant todo <= before.Keys
        invariant items.Keys == before.Keys - todo
        invariant forall g :: g in items ==> items[g] == Dropping(before)[g]
        invariant changes.Keys == TakingBack(before).Keys - todo
        invariant forall g :: g in changes ==> changes[g] == TakingBack(before)[g]
        decreases todo
      {
        var g :| g in todo;
        todo := todo - {g};
        var it := before[g];
        if it.status == Waiting {
          it := it.(status := Dropped);
          changes := changes[g := Delta(-it.qty, 0)];
        }
        items := items[g := it];
      }
    }

    /** Stores an order's items, and closes it once none waits. */
    method CloseIfDone(id: nat, items: Items)
      requires id < |orders|
      modifies `orders
      ensures orders == old(orders)[id := Closed(old(orders)[id], items)]
    {
      orders := orders[id := orders[id].(items := items)];
      var status := NothingArrived;
      var todo := items.Keys;
      while todo != {}
        invariant todo <= items.Keys
        invariant forall g :: g in items && g !in todo ==> items[g].status != Waiting
        invariant status == if exists g :: g in items && g !in todo && items[g].status == Arrived
                            then SomethingArrived else NothingArrived
        decreases todo
      {
        var g :| g in todo;
        todo := todo - {g};
        match items[g].status
        case Waiting =>
          assert SomeAre(items, Waiting);
          return;
        case Arrived => status := SomethingArrived;
        case Dropped =>
      }
      orders := orders[id := orders[id].(status := status)];
    }
  }

  lemma TickNext(o: Order, ticks: seq<Tick>, i: nat)
    requires i < |ticks|
    ensures var p := TickOne(TickAll(o, ticks[..i]), o.date, ticks[i]);
            TickAll(o, ticks[..i + 1]) == p && (p.Stopped? ==> TickAll(o, ticks) == p)
  {
    assert ticks[..i + 1][..i] == ticks[..i];
    if TickAll(o, ticks[..i + 1]).Stopped? {
      StoppedForGood(o, ticks, i + 1);
    }
  }

  /** What the stock refuses stops a checklist that was right so far. */
  lemma RefusedByTheStock(p: Progress, date: Date, g: Id, qty: int, accepted: bool)
    ensures var q := TickOne(p, date, Tick(g, qty, true));
            TickOne(p, date, Tick(g, qty, accepted)) == if q.Going? && qty > 0 && !accepted then
                                                          if p.Stopped? then p else Stopped(Failed)
                                                        else q
  {
  }

  lemma {:induction false} StopsAreRefusals(o: Order, ticks: seq<Tick>)
    ensures TickAll(o, ticks).Stopped? ==> !TickAll(o, ticks).why.Accepted?
  {
    if ticks != [] {
      StopsAreRefusals(o, ticks[..|ticks| - 1]);
    }
  }

  /** Once a checklist stops, nothing after it counts. */
  lemma {:induction false} StoppedForGood(o: Order, ticks: seq<Tick>, i: nat)
    requires i <= |ticks| && TickAll(o, ticks[..i]).Stopped?
    ensures TickAll(o, ticks) == TickAll(o, ticks[..i])
    decreases |ticks|
  {
    if i < |ticks| {
      var front := ticks[..|ticks| - 1];
      assert front[..i] == ticks[..i];
      StoppedForGood(o, front, i);
    } else {
      assert ticks[..i] == ticks;
    }
  }
}
