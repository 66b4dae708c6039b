/** The actions of the kitchen on the stock (internal/inventory/service.go):
    deliveries, checks, counts and consumption. Each holds the lock of its
    ingredient until it commits, but the daily expiry takes no such lock, so it
    may change statuses between any two statements. */
module Stockroom {
  import opened Base
  import opened Clock
  import opened Stock
  import opened Ledger
  import opened Requests
  import Fifo

  predicate PastExpiry(l: LotRow, at: Instant) { l.expiresAt.Some? && l.expiresAt.value <= at }

  /** Statuses may have moved on by a moment: some lots were emptied, and others
      past their expiry by then may have been marked. */
  ghost predicate MovedOn(was: Lots, now: Lots, emptied: set<Id>, at: Instant) {
    && now.Keys == was.Keys
    && forall id :: id in was ==> RowMovedOn(was[id], now[id], id in emptied, at)
  }

  ghost predicate RowMovedOn(was: LotRow, now: LotRow, emptied: bool, at: Instant) {
    && now == was.(status := now.status)
    && if emptied then now.status == Exhausted
       else now.status == was.status || (was.status == Available && now.status == Expired && PastExpiry(was, at))
  }

  /** What the daily job marks: available lots past their expiry. */
  function Expire(lots: Lots, now: Instant): Lots {
    map id | id in lots :: ExpireRow(lots[id], now)
  }

  function ExpireRow(l: LotRow, now: Instant): LotRow {
    if l.status == Available && PastExpiry(l, now) then l.(status := Expired) else l
  }

  /** The lots the daily job marks. */
  function Expiring(lots: Lots, now: Instant): set<Id> {
    set id | id in lots && lots[id].status == Available && PastExpiry(lots[id], now)
  }

  /** The daily job marks the available lots whose time of expiry has come, and
      changes nothing else. */
  lemma MarkedExactlyWhen(lots: Lots, now: Instant, id: Id)
    requires id in lots
    ensures var l, marked := lots[id], Expire(lots, now);
            var due := l.status == Available && l.expiresAt.Some? && l.expiresAt.value <= now;
            && marked.Keys == lots.Keys
            && marked[id] == (if due then l.(status := Expired) else l)
            && (id in Expiring(lots, now) <==> due)
  {
  }

  lemma ExpiringMovesOn(lots: Lots, now: Instant)
    ensures MovedOn(lots, Expire(lots, now), {}, now)
  {
  }

  lemma MovingOnTwice(a: Lots, b: Lots, c: Lots, first: set<Id>, second: set<Id>, earlier: Instant, now: Instant)
    requires MovedOn(a, b, first, earlier) && MovedOn(b, c, second, now) && earlier <= now
    ensures MovedOn(a, c, first + second, now)
  {
  }

  lemma ExpiringKeepsSound(lots: Lots, later: Lots, ms: seq<Movement>, at: Instant)
    requires Sound(lots, ms) && MovedOn(lots, later, {}, at)
    ensures Sound(later, ms)
  {
  }

  // ----- Listing lots, oldest first -----

  predicate Older(lots: Lots, a: Id, b: Id)
    requires a in lots && b in lots
  {
    lots[a].receivedAt < lots[b].receivedAt || (lots[a].receivedAt == lots[b].receivedAt && a < b)
  }

  predicate Listed(lots: Lots, id: Id, g: Id, statuses: set<LotStatus>) {
    id in lots && lots[id].ingredient == g && lots[id].status in statuses
  }

  ghost predicate OldestFirst(order: seq<Id>, lots: Lots)
    requires forall id :: id in order ==> id in lots
  {
    forall i, j :: 0 <= i < j < |order| ==> Older(lots, order[i], order[j])
  }

  /** The lots of an ingredient in some statuses, each once, oldest first. */
  ghost predicate Listing(order: seq<Id>, lots: Lots, g: Id, statuses: set<LotStatus>) {
    && (forall id :: id in order <==> Listed(lots, id, g, statuses))
    && OldestFirst(order, lots)
  }

  /** A listing goes by time of arrival, and by id among lots that came together. */
  lemma ListingsGoByArrival(order: seq<Id>, lots: Lots, g: Id, statuses: set<LotStatus>, i: nat, j: nat)
    requires Listing(order, lots, g, statuses) && i < j < |order|
    ensures order[i] in lots && order[j] in lots
    ensures lots[order[i]].receivedAt <= lots[order[j]].receivedAt
    ensures lots[order[i]].receivedAt == lots[order[j]].receivedAt ==> order[i] < order[j]
  {
    assert order[i] in order && order[j] in order;
    assert Older(lots, order[i], order[j]);
  }

  lemma ListingsAreDistinct(order: seq<Id>, lots: Lots, g: Id, statuses: set<LotStatus>)
    requires Listing(order, lots, g, statuses)
    ensures Distinct(order)
  {
  }

  function Inserted(order: seq<Id>, lots: Lots, id: Id): seq<Id>
    requires id in lots && forall x :: x in order ==> x in lots
  {
    if order == [] || Older(lots, id, order[0]) then [id] + order
    else [order[0]] + Inserted(order[1..], lots, id)
  }

  lemma {:induction false} InsertedInOrder(order: seq<Id>, lots: Lots, id: Id)
    requires id in lots && id !in order && forall x :: x in order ==> x in lots
    requires OldestFirst(order, lots)
    ensures forall x :: x in Inserted(order, lots, id) <==> x in order || x == id
    ensures OldestFirst(Inserted(order, lots, id), lots)
  {
    if order != [] {
      assert order == [order[0]] + order[1..];
      if !Older(lots, id, order[0]) {
        var longer := Inserted(order[1..], lots, id);
        InsertedInOrder(order[1..], lots, id);
        assert forall x :: x in longer ==> Older(lots, order[0], x);
      }
    }
  }

  /** The query's result: its `order by` as insertion of one row after another. */
  method InOrder(lots: Lots, g: Id, statuses: set<LotStatus>) returns (order: seq<Id>)
    ensures Listing(order, lots, g, statuses)
  {
    order := [];
    var todo := lots.Keys;
    while todo != {}
      invariant todo <= lots.Keys
      invariant forall id :: id in order <==> id !in todo && Listed(lots, id, g, statuses)
      invariant OldestFirst(order, lots)
      decreases |todo|
    {
      var id :| id in todo;
      if Listed(lots, id, g, statuses) {
        InsertedInOrder(order, lots, id);
        order := Inserted(order, lots, id);
      }
      todo := todo - {id};
    }
  }

  // ----- What draining keeps -----

  ghost predicate Drainable(lots: Lots, order: seq<Id>) {
    Distinct(order) && forall id :: id in order ==> id in lots && MayHold(lots[id].status)
  }

  /** The listed lots that hold nothing any more. */
  ghost function EmptyOf(order: seq<Id>, ms: seq<Movement>): set<Id> {
    set id | id in order && Balance(ms, id) == 0
  }

  lemma SoundListsHold(lots: Lots, ms: seq<Movement>, order: seq<Id>)
    requires Sound(lots, ms) && Drainable(lots, order)
    ensures Fifo.NonNegative(Balances(ms, order))
    ensures forall i :: 0 <= i < |order| ==> Balances(ms, order)[i] > 0
  {
    forall i | 0 <= i < |order| ensures Balances(ms, order)[i] > 0 {
      assert order[i] in order && LotIsSound(lots, ms, order[i]);
    }
  }

  lemma MovementsOfListedLots(lots: Lots, ms: seq<Movement>, order: seq<Id>, q: nat, kind: Ledger.Kind)
    requires Sound(lots, ms) && Drainable(lots, order)
    ensures forall i :: 0 <= i < |Drained(ms, order, q, kind)| ==> Drained(ms, order, q, kind)[i].lot in lots
  {
    var takes := Fifo.Takes(Balances(ms, order), q);
    DrainsAreOfListedLots(order, takes, kind);
    forall i | 0 <= i < |Drained(ms, order, q, kind)| ensures Drained(ms, order, q, kind)[i].lot in lots {
      if i >= |ms| {
        assert Drained(ms, order, q, kind)[i] in Drains(order, takes, kind);
      }
    }
  }

  /** Draining listed lots and marking the emptied ones leaves a sound ledger,
      whatever expires meanwhile. */
  lemma DrainingKeepsSound(
      lots: Lots, later: Lots, ms: seq<Movement>, order: seq<Id>, q: nat, kind: Ledger.Kind, at: Instant)
    requires Sound(lots, ms) && Drainable(lots, order)
    requires MovedOn(lots, later, EmptyOf(order, Drained(ms, order, q, kind)), at)
    ensures Sound(later, Drained(ms, order, q, kind))
  {
    var after := Drained(ms, order, q, kind);
    SoundListsHold(lots, ms, order);
    NoneIsOverdrawn(ms, order, q, kind);
    MovementsOfListedLots(lots, ms, order, q, kind);
    forall id | id in later ensures LotIsSound(later, after, id) {
      assert LotIsSound(lots, ms, id) && RowMovedOn(lots[id], later[id], id in EmptyOf(order, after), at);
      if i :| 0 <= i < |order| && order[i] == id {
        assert Balances(after, order)[i] >= 0;
      } else {
        DrainingOthers(ms, order, q, kind, id);
      }
    }
  }

  /** The listed lots a drain has emptied after its first i lots. */
  ghost predicate EmptiedSoFar(emptied: set<Id>, order: seq<Id>, bs: seq<int>, takes: seq<int>, i: nat)
    requires |order| == |bs| == |takes|
  {
    && (forall k :: 0 <= k < |order| ==> (order[k] in emptied <==> k < i && takes[k] == bs[k]))
    && forall id :: id in emptied ==> id in order
  }

  /** A drain after its first i lots: what moved, and what is still to take. */
  ghost predicate Progress(
      before: seq<Movement>, now: seq<Movement>, order: seq<Id>, bs: seq<int>, q: nat, kind: Ledger.Kind,
      i: nat, remaining: int, emptied: set<Id>)
    requires |order| == |bs| && i <= |order|
  {
    var takes := Fifo.Takes(bs, q);
    && remaining == q - Sum(takes[..i])
    && now == before + Drains(order[..i], takes[..i], kind)
    && EmptiedSoFar(emptied, order, bs, takes, i)
  }

  /** One more lot: what it gives, what is then still to take, and whether it
      is emptied. */
  lemma DrainOneMore(bs: seq<int>, order: seq<Id>, q: nat, kind: Ledger.Kind, i: nat, emptied: set<Id>)
    requires |bs| == |order| && i < |order| && Distinct(order)
    requires EmptiedSoFar(emptied, order, bs, Fifo.Takes(bs, q), i)
    ensures var takes := Fifo.Takes(bs, q);
            && Sum(takes[..i]) <= q
            && takes[i] == Fifo.Take(bs[i], q - Sum(takes[..i]))
            && Sum(takes[..i + 1]) == Sum(takes[..i]) + takes[i]
            && Drains(order[..i + 1], takes[..i + 1], kind)
            == Drains(order[..i], takes[..i], kind) + DrainOf(order[i], takes[i], kind)
            && EmptiedSoFar(if takes[i] == bs[i] then emptied + {order[i]} else emptied, order, bs, takes, i + 1)
  {
    NextTake(bs, q, i);
    SumOneMore(Fifo.Takes(bs, q), i);
    DrainsOneMore(order, Fifo.Takes(bs, q), kind, i);
  }

  /** A drain stops at the end of the list or when all is taken; either way it
      took what first in, first out takes. */
  lemma DrainEnds(bs: seq<int>, order: seq<Id>, q: nat, kind: Ledger.Kind, i: nat)
    requires |bs| == |order| && Fifo.NonNegative(bs) && i <= |order|
    requires i == |order| || Sum(Fifo.Takes(bs, q)[..i]) == q
    ensures var takes := Fifo.Takes(bs, q);
            && Drains(order[..i], takes[..i], kind) == Drains(order, takes, kind)
            && Sum(takes[..i]) == Min(q, Sum(bs))
            && forall k :: i <= k < |order| ==> takes[k] == 0
  {
    var takes := Fifo.Takes(bs, q);
    Fifo.TakesTotal(bs, q);
    if i == |order| {
      assert order[..i] == order && takes[..i] == takes;
    } else {
      NothingMoreIsTaken(order, bs, q, kind, i);
      assert takes == takes[..i] + takes[i..];
      SumConcat(takes[..i], takes[i..]);
      SumNonNegative(takes[i..]);
    }
  }

  /** It emptied the lots that now hold nothing. */
  lemma DrainEmpties(ms: seq<Movement>, order: seq<Id>, q: nat, kind: Ledger.Kind, i: nat, emptied: set<Id>)
    requires Distinct(order) && i <= |order|
    requires var bs := Balances(ms, order);
             var takes := Fifo.Takes(bs, q);
             && EmptiedSoFar(emptied, order, bs, takes, i)
             && (forall k :: 0 <= k < |order| ==> bs[k] > 0)
             && forall k :: i <= k < |order| ==> takes[k] == 0
    ensures emptied == EmptyOf(order, Drained(ms, order, q, kind))
  {
    var bs := Balances(ms, order);
    var after := Drained(ms, order, q, kind);
    DrainLeaves(ms, order, q, kind);
    forall k | 0 <= k < |order| ensures order[k] in emptied <==> Balance(after, order[k]) == 0 {
      Fifo.LeftIsWhatWasNotTaken(bs, q, k);
      assert Balances(after, order)[k] == bs[k] - Fifo.Takes(bs, q)[k];
    }
  }

  /** When a drain asks for more than there is, none of the lots is left. */
  lemma NoneIsLeft(
      lots: Lots, later: Lots, ms: seq<Movement>, order: seq<Id>, q: nat, kind: Ledger.Kind, g: Id, at: Instant)
    requires Sound(lots, ms) && Drainable(lots, order) && Listing(order, lots, g, {Available})
    requires Sum(Balances(ms, order)) <= q
    requires MovedOn(lots, later, EmptyOf(order, Drained(ms, order, q, kind)), at)
    ensures forall id :: !Listed(later, id, g, {Available})
  {
    var after := Drained(ms, order, q, kind);
    SoundListsHold(lots, ms, order);
    DrainLeaves(ms, order, q, kind);
    forall id | id in later ensures !Listed(later, id, g, {Available}) {
      assert RowMovedOn(lots[id], later[id], id in EmptyOf(order, after), at);
      if i :| 0 <= i < |order| && order[i] == id {
        Fifo.AllIsTaken(Balances(ms, order), q, i);
        assert Balances(after, order)[i] == 0;
      }
    }
  }

  // ----- What an ingredient holds in all -----

  /** All the lots an ingredient ever had. */
  ghost function LotsOf(lots: Lots, g: Id): set<Id> {
    set id | id in lots && lots[id].ingredient == g
  }

  /** The recorded stock of an ingredient. */
  ghost function Stocked(lots: Lots, ms: seq<Movement>, g: Id): int { Held(ms, LotsOf(lots, g)) }

  lemma HeldOfOneDrain(lot: Id, take: int, kind: Ledger.Kind, among: set<Id>)
    requires 0 <= take
    ensures Held(DrainOf(lot, take, kind), among) == if lot in among then -take else 0
  {
  }

  lemma {:induction false} HeldOfDrains(ids: seq<Id>, takes: seq<int>, kind: Ledger.Kind, among: set<Id>)
    requires |ids| == |takes| && forall i :: 0 <= i < |takes| ==> 0 <= takes[i]
    ensures (forall id :: id in ids ==> id in among) ==> Held(Drains(ids, takes, kind), among) == -Sum(takes)
    ensures (forall id :: id in ids ==> id !in among) ==> Held(Drains(ids, takes, kind), among) == 0
  {
    if ids != [] {
      HeldOfDrains(ids[1..], takes[1..], kind, among);
      HeldOfOneDrain(ids[0], takes[0], kind, among);
      HeldConcat(DrainOf(ids[0], takes[0], kind), Drains(ids[1..], takes[1..], kind), among);
      assert forall id :: id in ids[1..] ==> id in ids;
    }
  }

  /** Draining takes what it says out of one ingredient and nothing of others. */
  lemma DrainingOneIngredient(lots: Lots, ms: seq<Movement>, order: seq<Id>, q: nat, kind: Ledger.Kind, g: Id, h: Id)
    requires Sound(lots, ms) && Drainable(lots, order) && forall id :: id in order ==> id in LotsOf(lots, g)
    ensures Stocked(lots, Drained(ms, order, q, kind), h)
         == Stocked(lots, ms, h) - if h == g then Min(q, Sum(Balances(ms, order))) else 0
  {
    var takes := Fifo.Takes(Balances(ms, order), q);
    SoundListsHold(lots, ms, order);
    Fifo.TakesTotal(Balances(ms, order), q);
    HeldOfDrains(order, takes, kind, LotsOf(lots, h));
    HeldConcat(ms, Drains(order, takes, kind), LotsOf(lots, h));
  }

  /** What may hold something holds all of it. */
  lemma ListedHoldAll(lots: Lots, ms: seq<Movement>, order: seq<Id>, g: Id)
    requires Sound(lots, ms) && Listing(order, lots, g, {Available, Expired})
    ensures Stocked(lots, ms, g) == Sum(Balances(ms, order))
  {
    ListingsAreDistinct(order, lots, g, {Available, Expired});
    HeldIsSumOfBalances(ms, order);
    var empty := LotsOf(lots, g) - SetOf(order);
    forall id | id in empty ensures Balance(ms, id) == 0 {
      assert LotIsSound(lots, ms, id) && !Listed(lots, id, g, {Available, Expired});
    }
    EmptyLotsDoNotCount(ms, SetOf(order), empty);
    assert SetOf(order) + empty == LotsOf(lots, g);
  }

  lemma MovedOnLotsAreTheSame(lots: Lots, later: Lots, emptied: set<Id>, at: Instant, g: Id)
    requires MovedOn(lots, later, emptied, at)
    ensures LotsOf(later, g) == LotsOf(lots, g)
  {
  }

  /** One more lot, with what it received. */
  lemma NewLotIsSound(lots: Lots, ms: seq<Movement>, id: Id, row: LotRow, kind: Ledger.Kind, qty: int)
    requires Sound(lots, ms) && id !in lots && MayHold(row.status) && qty > 0
    ensures Sound(lots[id := row], ms + [Movement(id, kind, qty)])
  {
    var more, m := lots[id := row], Movement(id, kind, qty);
    NothingMoved(ms, id);
    forall x | x in more ensures LotIsSound(more, ms + [m], x) {
      HeldOneMore(ms, m, {x});
      assert x in lots ==> LotIsSound(lots, ms, x);
    }
  }

  /** One lot is new or as given, while others may have expired. */
  ghost predicate OneLotMore(was: Lots, now: Lots, id: Id, row: LotRow, at: Instant) {
    && now.Keys == was.Keys + {id}
    && now[id] == row
    && forall x :: x in was && x != id ==> RowMovedOn(was[x], now[x], false, at)
  }

  lemma OneLotAdded(was: Lots, now: Lots, id: Id, row: LotRow, at: Instant)
    requires MovedOn(was, now, {}, at)
    ensures OneLotMore(was, now[id := row], id, row, at)
  {
    forall x | x in was && x != id ensures RowMovedOn(was[x], now[x], false, at) {
      assert RowMovedOn(was[x], now[x], x in {}, at);
    }
  }

  lemma NewLotAddsStock(lots: Lots, ms: seq<Movement>, id: Id, row: LotRow, kind: Ledger.Kind, qty: int, h: Id)
    requires Sound(lots, ms) && id !in lots
    ensures Stocked(lots[id := row], ms + [Movement(id, kind, qty)], h)
         == Stocked(lots, ms, h) + if row.ingredient == h then qty else 0
  {
    var more := lots[id := row];
    NothingMoved(ms, id);
    HeldOneMore(ms, Movement(id, kind, qty), LotsOf(more, h));
    if row.ingredient == h {
      assert LotsOf(more, h) == LotsOf(lots, h) + {id};
      HeldByOneMore(ms, id, LotsOf(lots, h));
    } else {
      assert LotsOf(more, h) == LotsOf(lots, h);
    }
  }

  /** Something more in a lot that holds something. */
  lemma RaisedLotIsSound(lots: Lots, ms: seq<Movement>, id: Id, kind: Ledger.Kind, qty: int)
    requires Sound(lots, ms) && id in lots && MayHold(lots[id].status) && qty > 0
    ensures Sound(lots, ms + [Movement(id, kind, qty)])
  {
  }

  /** Throwing away all a lot holds. */
  lemma DiscardedLotIsSound(lots: Lots, ms: seq<Movement>, id: Id)
    requires Sound(lots, ms) && id in lots
    ensures Sound(lots[id := lots[id].(status := Discarded)], ms + [Movement(id, Waste, -Balance(ms, id))])
  {
  }

  lemma RemarkedLotsAreTheSame(lots: Lots, id: Id, status: LotStatus, h: Id)
    requires id in lots
    ensures LotsOf(lots[id := lots[id].(status := status)], h) == LotsOf(lots, h)
  {
  }

  /** What one movement does to the stock, while lots only change status. */
  lemma MovingChangesStock(lots: Lots, later: Lots, ms: seq<Movement>, m: Movement, h: Id)
    requires m.lot in lots && LotsOf(later, h) == LotsOf(lots, h)
    ensures Stocked(later, ms + [m], h) == Stocked(lots, ms, h) + if lots[m.lot].ingredient == h then m.qty else 0
  {
  }
}
