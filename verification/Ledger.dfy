/** The stock ledger (internal/inventory/service.go): lots, an append-only list
    of what moved in and out of them, and the actions of the kitchen. No balance
    is stored; a balance is the sum of a lot's movements. */
module Ledger {
  import opened Base
  import opened Clock
  import Stock
  import Fifo

  datatype Kind = Receive | Consume | Waste | Adjust

  datatype Movement = Movement(lot: Id, kind: Kind, qty: int)

  /** A stored lot; its balance is not among its columns. */
  datatype LotRow = LotRow(ingredient: Id, receivedAt: Instant, expiresAt: Option<Instant>, status: Stock.LotStatus)

  type Lots = map<Id, LotRow>

  function Moved(m: Movement, ids: set<Id>): int { if m.lot in ids then m.qty else 0 }

  /** What some lots hold together: the sum of their movements. */
  function Held(ms: seq<Movement>, ids: set<Id>): int {
    if ms == [] then 0 else Held(ms[..|ms| - 1], ids) + Moved(ms[|ms| - 1], ids)
  }

  function Balance(ms: seq<Movement>, id: Id): int { Held(ms, {id}) }

  function Balances(ms: seq<Movement>, ids: seq<Id>): (bs: seq<int>)
    ensures |bs| == |ids|
  {
    seq(|ids|, i requires 0 <= i < |ids| => Balance(ms, ids[i]))
  }

  predicate MayHold(status: Stock.LotStatus) { status == Stock.Available || status == Stock.Expired }

  /** A lot that may hold something does, and another holds nothing. */
  ghost predicate LotIsSound(lots: Lots, ms: seq<Movement>, id: Id)
    requires id in lots
  {
    if MayHold(lots[id].status) then Balance(ms, id) > 0 else Balance(ms, id) == 0
  }

  ghost predicate Sound(lots: Lots, ms: seq<Movement>) {
    && (forall id :: id in lots ==> LotIsSound(lots, ms, id))
    && forall i :: 0 <= i < |ms| ==> ms[i].lot in lots
  }

  // ----- Sums of movements -----

  lemma HeldOneMore(ms: seq<Movement>, m: Movement, ids: set<Id>)
    ensures Held(ms + [m], ids) == Held(ms, ids) + if m.lot in ids then m.qty else 0
  {
  }

  lemma {:induction false} HeldConcat(ms: seq<Movement>, ns: seq<Movement>, ids: set<Id>)
    ensures Held(ms + ns, ids) == Held(ms, ids) + Held(ns, ids)
  {
    if ns == [] {
      assert ms + ns == ms;
    } else {
      var front := ns[..|ns| - 1];
      HeldConcat(ms, front, ids);
      assert ms + ns == (ms + front) + [ns[|ns| - 1]];
      HeldOneMore(ms + front, ns[|ns| - 1], ids);
    }
  }

  lemma {:induction false} HeldByOneMore(ms: seq<Movement>, id: Id, ids: set<Id>)
    requires id !in ids
    ensures Held(ms, ids + {id}) == Held(ms, ids) + Balance(ms, id)
  {
    if ms != [] {
      HeldByOneMore(ms[..|ms| - 1], id, ids);
    }
  }

  lemma {:induction false} NothingMoved(ms: seq<Movement>, id: Id)
    requires forall i :: 0 <= i < |ms| ==> ms[i].lot != id
    ensures Balance(ms, id) == 0
  {
    if ms != [] {
      NothingMoved(ms[..|ms| - 1], id);
    }
  }

  ghost predicate Distinct(ids: seq<Id>) { forall i, j :: 0 <= i < j < |ids| ==> ids[i] != ids[j] }

  function SetOf(ids: seq<Id>): set<Id> { set id | id in ids }

  /** What listed lots hold together is the sum of their balances. */
  lemma {:induction false} HeldIsSumOfBalances(ms: seq<Movement>, ids: seq<Id>)
    requires Distinct(ids)
    ensures Held(ms, SetOf(ids)) == Sum(Balances(ms, ids))
  {
    if ids == [] {
      HeldByNone(ms);
      assert SetOf(ids) == {};
    } else {
      var rest := ids[1..];
      HeldIsSumOfBalances(ms, rest);
      assert SetOf(ids) == SetOf(rest) + {ids[0]};
      HeldByOneMore(ms, ids[0], SetOf(rest));
      assert Balances(ms, ids)[1..] == Balances(ms, rest);
    }
  }

  lemma {:induction false} HeldByNone(ms: seq<Movement>)
    ensures Held(ms, {}) == 0
  {
    if ms != [] {
      HeldByNone(ms[..|ms| - 1]);
    }
  }

  /** Lots that hold nothing do not count. */
  lemma {:induction false} EmptyLotsDoNotCount(ms: seq<Movement>, ids: set<Id>, empty: set<Id>)
    requires ids !! empty
    requires forall id :: id in empty ==> Balance(ms, id) == 0
    ensures Held(ms, ids + empty) == Held(ms, ids)
    decreases |empty|
  {
    if id :| id in empty {
      var rest := empty - {id};
      EmptyLotsDoNotCount(ms, ids, rest);
      assert ids + empty == (ids + rest) + {id};
      HeldByOneMore(ms, id, ids + rest);
    } else {
      assert ids + empty == ids;
    }
  }

  // ----- Drains, oldest first -----

  function DrainOf(id: Id, take: int, kind: Kind): seq<Movement> {
    if take > 0 then [Movement(id, kind, -take)] else []
  }

  /** The movements that take quantities out of listed lots. */
  function Drains(ids: seq<Id>, takes: seq<int>, kind: Kind): seq<Movement>
    requires |ids| == |takes|
  {
    if ids == [] then [] else DrainOf(ids[0], takes[0], kind) + Drains(ids[1..], takes[1..], kind)
  }

  lemma DrainsFirst(ids: seq<Id>, takes: seq<int>, kind: Kind, i: nat)
    requires |ids| == |takes| && 0 < i <= |ids|
    ensures Drains(ids[..i], takes[..i], kind)
         == DrainOf(ids[0], takes[0], kind) + Drains(ids[1..][..i - 1], takes[1..][..i - 1], kind)
  {
    assert ids[..i][1..] == ids[1..][..i - 1] && takes[..i][1..] == takes[1..][..i - 1];
  }

  lemma {:induction false} DrainsOneMore(ids: seq<Id>, takes: seq<int>, kind: Kind, i: nat)
    requires |ids| == |takes| && i < |ids|
    ensures Drains(ids[..i + 1], takes[..i + 1], kind)
        == Drains(ids[..i], takes[..i], kind) + DrainOf(ids[i], takes[i], kind)
  {
    if i == 0 {
      assert ids[..1] == [ids[0]] && takes[..1] == [takes[0]];
      assert [ids[0]][1..] == [] && [takes[0]][1..] == [];
    } else {
      DrainsOneMore(ids[1..], takes[1..], kind, i - 1);
      DrainsFirst(ids, takes, kind, i + 1);
      DrainsFirst(ids, takes, kind, i);
      var first := DrainOf(ids[0], takes[0], kind);
      var middle, last := Drains(ids[1..][..i - 1], takes[1..][..i - 1], kind), DrainOf(ids[i], takes[i], kind);
      assert first + (middle + last) == (first + middle) + last;
    }
  }

  /** What is taken of one lot. */
  function TakenOf(ids: seq<Id>, takes: seq<int>, id: Id): int
    requires |ids| == |takes|
  {
    if ids == [] then 0
    else (if ids[0] == id && takes[0] > 0 then takes[0] else 0) + TakenOf(ids[1..], takes[1..], id)
  }

  lemma HeldOfDrain(lot: Id, take: int, kind: Kind, id: Id)
    ensures Balance(DrainOf(lot, take, kind), id) == if lot == id && take > 0 then -take else 0
  {
    if take > 0 {
      HeldOneMore([], Movement(lot, kind, -take), {id});
      assert [] + DrainOf(lot, take, kind) == DrainOf(lot, take, kind);
    }
  }

  lemma {:induction false} DrainsTake(ids: seq<Id>, takes: seq<int>, kind: Kind, id: Id)
    requires |ids| == |takes|
    ensures Balance(Drains(ids, takes, kind), id) == -TakenOf(ids, takes, id)
  {
    if ids != [] {
      DrainsTake(ids[1..], takes[1..], kind, id);
      HeldOfDrain(ids[0], takes[0], kind, id);
      HeldConcat(DrainOf(ids[0], takes[0], kind), Drains(ids[1..], takes[1..], kind), {id});
    }
  }

  lemma {:induction false} NothingTakenOfOthers(ids: seq<Id>, takes: seq<int>, id: Id)
    requires |ids| == |takes| && forall i :: 0 <= i < |ids| ==> ids[i] != id
    ensures TakenOf(ids, takes, id) == 0
  {
    if ids != [] {
      NothingTakenOfOthers(ids[1..], takes[1..], id);
    }
  }

  /** Each lot is listed once, so it loses just what is taken of it. */
  lemma {:induction false} TakenOnce(ids: seq<Id>, takes: seq<int>, i: nat)
    requires |ids| == |takes| && Distinct(ids) && i < |ids| && 0 <= takes[i]
    ensures TakenOf(ids, takes, ids[i]) == takes[i]
  {
    if i == 0 {
      NothingTakenOfOthers(ids[1..], takes[1..], ids[0]);
    } else {
      TakenOnce(ids[1..], takes[1..], i - 1);
    }
  }

  lemma {:induction false} DrainsAreOfListedLots(ids: seq<Id>, takes: seq<int>, kind: Kind)
    requires |ids| == |takes|
    ensures forall m :: m in Drains(ids, takes, kind) ==> m.lot in ids && m.kind == kind && m.qty < 0
  {
    if ids != [] {
      DrainsAreOfListedLots(ids[1..], takes[1..], kind);
    }
  }

  /** The ledger after taking a quantity out of listed lots. */
  function Drained(ms: seq<Movement>, ids: seq<Id>, q: nat, kind: Kind): seq<Movement> {
    ms + Drains(ids, Fifo.Takes(Balances(ms, ids), q), kind)
  }

  lemma DrainedBalance(ms: seq<Movement>, ids: seq<Id>, q: nat, kind: Kind, id: Id)
    ensures Balance(Drained(ms, ids, q, kind), id)
         == Balance(ms, id) - TakenOf(ids, Fifo.Takes(Balances(ms, ids), q), id)
  {
    var takes := Fifo.Takes(Balances(ms, ids), q);
    DrainsTake(ids, takes, kind, id);
    HeldConcat(ms, Drains(ids, takes, kind), {id});
  }

  /** What the i-th oldest lot keeps when it gives what the older ones lack. */
  ghost function FifoLeft(bs: seq<int>, q: nat, i: nat): int
    requires i < |bs|
  {
    bs[i] - Min(bs[i], Max(q - Sum(bs[..i]), 0))
  }

  /** First in, first out: the i-th oldest lot gives min(balance, what the older
      ones could not), so a younger lot is touched only when all older ones are
      empty; a lot not listed keeps its balance. */
  lemma DrainIsFirstInFirstOut(ms: seq<Movement>, ids: seq<Id>, q: nat, kind: Kind)
    requires Distinct(ids) && Fifo.NonNegative(Balances(ms, ids))
    ensures forall i :: 0 <= i < |ids| ==>
        Balance(Drained(ms, ids, q, kind), ids[i]) == FifoLeft(Balances(ms, ids), q, i)
    ensures forall id :: id !in ids ==> Balance(Drained(ms, ids, q, kind), id) == Balance(ms, id)
    ensures Held(Drained(ms, ids, q, kind), SetOf(ids)) == Held(ms, SetOf(ids)) - Min(q, Held(ms, SetOf(ids)))
  {
    var bs := Balances(ms, ids);
    var takes := Fifo.Takes(bs, q);
    Fifo.TakesTotal(bs, q);
    forall i | 0 <= i < |ids|
      ensures Balance(Drained(ms, ids, q, kind), ids[i]) == bs[i] - takes[i]
      ensures takes[i] == Min(bs[i], Max(q - Sum(bs[..i]), 0))
    {
      DrainedBalance(ms, ids, q, kind, ids[i]);
      TakenOnce(ids, takes, i);
      Fifo.TakeIsWhatOlderLotsLack(bs, q, i);
    }
    forall id | id !in ids ensures Balance(Drained(ms, ids, q, kind), id) == Balance(ms, id) {
      DrainedBalance(ms, ids, q, kind, id);
      NothingTakenOfOthers(ids, takes, id);
    }
    HeldIsSumOfBalances(ms, ids);
    HeldIsSumOfBalances(Drained(ms, ids, q, kind), ids);
    var after := Balances(Drained(ms, ids, q, kind), ids);
    assert forall i :: 0 <= i < |ids| ==> bs[i] == takes[i] + after[i];
    SumPointwise(takes, after, bs);
  }

  /** The listed lots that still hold something, as the next query lists them. */
  function Holding(ids: seq<Id>, bs: seq<int>): seq<Id>
    requires |ids| == |bs|
  {
    if ids == [] then []
    else (if bs[0] > 0 then [ids[0]] else []) + Holding(ids[1..], bs[1..])
  }

  /** The balances of the lots that hold something. */
  function Positive(bs: seq<int>): seq<int> {
    if bs == [] then [] else (if bs[0] > 0 then [bs[0]] else []) + Positive(bs[1..])
  }

  lemma {:induction false} HoldingHoldsPositive(ms: seq<Movement>, ids: seq<Id>)
    ensures Balances(ms, Holding(ids, Balances(ms, ids))) == Positive(Balances(ms, ids))
  {
    if ids != [] {
      HoldingHoldsPositive(ms, ids[1..]);
      assert Balances(ms, ids)[1..] == Balances(ms, ids[1..]);
    }
  }

  lemma TakenOfOneMore(first: Id, ids: seq<Id>, take: int, takes: seq<int>, id: Id)
    requires |ids| == |takes|
    ensures TakenOf([first] + ids, [take] + takes, id)
         == (if first == id && take > 0 then take else 0) + TakenOf(ids, takes, id)
  {
  }

  lemma {:induction false} HoldingLength(ids: seq<Id>, bs: seq<int>)
    requires |ids| == |bs|
    ensures |Holding(ids, bs)| == |Positive(bs)|
  {
    if ids != [] {
      HoldingLength(ids[1..], bs[1..]);
    }
  }

  /** The oldest listed lot gives its take, the others the rest. */
  lemma TakenOfOldest(ids: seq<Id>, bs: seq<int>, q: nat, id: Id)
    requires |ids| == |bs| > 0
    ensures var take := Fifo.Take(bs[0], q);
            TakenOf(ids, Fifo.Takes(bs, q), id)
              == (if ids[0] == id && take > 0 then take else 0)
                 + TakenOf(ids[1..], Fifo.Takes(bs[1..], q - take), id)
  {
    var take := Fifo.Take(bs[0], q);
    assert ids == [ids[0]] + ids[1..];
    assert Fifo.Takes(bs, q) == [take] + Fifo.Takes(bs[1..], q - take);
    TakenOfOneMore(ids[0], ids[1..], take, Fifo.Takes(bs[1..], q - take), id);
  }

  /** Empty lots give nothing, listed or not. */
  lemma {:induction false} EmptyLotsGiveNothing(ids: seq<Id>, bs: seq<int>, q: nat, id: Id)
    requires |ids| == |bs| && Fifo.NonNegative(bs)
    ensures |Holding(ids, bs)| == |Positive(bs)|
    ensures TakenOf(Holding(ids, bs), Fifo.Takes(Positive(bs), q), id) == TakenOf(ids, Fifo.Takes(bs, q), id)
  {
    HoldingLength(ids, bs);
    if ids != [] {
      var take := Fifo.Take(bs[0], q);
      EmptyLotsGiveNothing(ids[1..], bs[1..], q - take, id);
      TakenOfOldest(ids, bs, q, id);
      if bs[0] > 0 {
        HeldLotGives(ids, bs, q, id);
      } else {
        assert Holding(ids, bs) == Holding(ids[1..], bs[1..]) && Positive(bs) == Positive(bs[1..]);
      }
    }
  }

  lemma HeldLotGives(ids: seq<Id>, bs: seq<int>, q: nat, id: Id)
    requires |ids| == |bs| > 0 && bs[0] > 0
    ensures |Holding(ids, bs)| == |Positive(bs)| && |Holding(ids[1..], bs[1..])| == |Positive(bs[1..])|
    ensures var take := Fifo.Take(bs[0], q);
            (TakenOf(Holding(ids, bs), Fifo.Takes(Positive(bs), q), id)
             == (if ids[0] == id && take > 0 then take else 0)
                + TakenOf(Holding(ids[1..], bs[1..]), Fifo.Takes(Positive(bs[1..]), q - take), id))
  {
    HoldingLength(ids[1..], bs[1..]);
    var take := Fifo.Take(bs[0], q);
    var held, positive := Holding(ids[1..], bs[1..]), Positive(bs[1..]);
    assert Holding(ids, bs) == [ids[0]] + held && Positive(bs) == [bs[0]] + positive;
    assert ([bs[0]] + positive)[1..] == positive;
    TakenOfOneMore(ids[0], held, take, Fifo.Takes(positive, q - take), id);
  }

  /** Listing only the lots that hold something changes nothing. */
  lemma DrainingHeldLots(ms: seq<Movement>, ids: seq<Id>, q: nat, kind: Kind, id: Id)
    requires Fifo.NonNegative(Balances(ms, ids))
    ensures Balance(Drained(ms, Holding(ids, Balances(ms, ids)), q, kind), id) == Balance(Drained(ms, ids, q, kind), id)
  {
    HoldingHoldsPositive(ms, ids);
    EmptyLotsGiveNothing(ids, Balances(ms, ids), q, id);
    DrainedBalance(ms, Holding(ids, Balances(ms, ids)), q, kind, id);
    DrainedBalance(ms, ids, q, kind, id);
  }

  lemma DrainingOthers(ms: seq<Movement>, ids: seq<Id>, q: nat, kind: Kind, id: Id)
    requires id !in ids
    ensures Balance(Drained(ms, ids, q, kind), id) == Balance(ms, id)
  {
    DrainedBalance(ms, ids, q, kind, id);
    NothingTakenOfOthers(ids, Fifo.Takes(Balances(ms, ids), q), id);
  }

  lemma DrainingTwice(ms: seq<Movement>, ids: seq<Id>, q1: nat, q2: nat, kind: Kind, id: Id)
    requires Distinct(ids)
    ensures Balance(Drained(Drained(ms, ids, q1, kind), ids, q2, kind), id)
        == Balance(Drained(ms, ids, q1 + q2, kind), id)
  {
    var first := Drained(ms, ids, q1, kind);
    if i :| 0 <= i < |ids| && ids[i] == id {
      DrainLeaves(ms, ids, q1, kind);
      DrainLeaves(first, ids, q2, kind);
      DrainLeaves(ms, ids, q1 + q2, kind);
      Fifo.TakingTwiceIsTakingOnce(Balances(ms, ids), q1, q2);
      assert Balances(Drained(first, ids, q2, kind), ids)[i] == Balances(Drained(ms, ids, q1 + q2, kind), ids)[i];
    } else {
      DrainingOthers(ms, ids, q1, kind, id);
      DrainingOthers(first, ids, q2, kind, id);
      DrainingOthers(ms, ids, q1 + q2, kind, id);
    }
  }

  lemma NoneIsOverdrawn(ms: seq<Movement>, ids: seq<Id>, q: nat, kind: Kind)
    requires Distinct(ids) && Fifo.NonNegative(Balances(ms, ids))
    ensures Fifo.NonNegative(Balances(Drained(ms, ids, q, kind), ids))
  {
    var bs := Balances(ms, ids);
    DrainLeaves(ms, ids, q, kind);
    Fifo.TakesTotal(bs, q);
    forall i | 0 <= i < |ids| ensures Fifo.Left(bs, q)[i] >= 0 {
      Fifo.LeftIsWhatWasNotTaken(bs, q, i);
    }
  }

  /** Consuming twice leaves every lot as consuming once: the second time the
      emptied lots are no longer listed. */
  lemma ConsumingTwiceIsConsumingOnce(ms: seq<Movement>, ids: seq<Id>, q1: nat, q2: nat, kind: Kind, id: Id)
    requires Distinct(ids) && Fifo.NonNegative(Balances(ms, ids))
    ensures var first := Drained(ms, ids, q1, kind);
            var held := Holding(ids, Balances(first, ids));
            Balance(Drained(first, held, q2, kind), id) == Balance(Drained(ms, ids, q1 + q2, kind), id)
  {
    NoneIsOverdrawn(ms, ids, q1, kind);
    DrainingHeldLots(Drained(ms, ids, q1, kind), ids, q2, kind, id);
    DrainingTwice(ms, ids, q1, q2, kind, id);
  }

  lemma DrainLeaves(ms: seq<Movement>, ids: seq<Id>, q: nat, kind: Kind)
    requires Distinct(ids)
    ensures Balances(Drained(ms, ids, q, kind), ids) == Fifo.Left(Balances(ms, ids), q)
  {
    var bs := Balances(ms, ids);
    forall i | 0 <= i < |ids|
      ensures Balance(Drained(ms, ids, q, kind), ids[i]) == Fifo.Left(bs, q)[i]
    {
      DrainedBalance(ms, ids, q, kind, ids[i]);
      NextTake(bs, q, i);
      TakenOnce(ids, Fifo.Takes(bs, q), i);
      Fifo.LeftIsWhatWasNotTaken(bs, q, i);
    }
  }

  /** The next take, from what the earlier ones left to take. */
  lemma {:induction false} NextTake(bs: seq<int>, q: nat, i: nat)
    requires i < |bs|
    ensures Sum(Fifo.Takes(bs, q)[..i]) <= q
    ensures Fifo.Takes(bs, q)[i] == Fifo.Take(bs[i], q - Sum(Fifo.Takes(bs, q)[..i]))
  {
    var ts := Fifo.Takes(bs, q);
    if i == 0 {
      assert ts[..0] == [];
    } else {
      NextTake(bs[1..], q - Fifo.Take(bs[0], q), i - 1);
      assert ts[..i] == [ts[0]] + ts[1..][..i - 1];
      assert ts[1..] == Fifo.Takes(bs[1..], q - Fifo.Take(bs[0], q));
    }
  }

  /** Once all is taken, the younger lots give nothing. */
  lemma {:induction false} NothingMoreIsTaken(ids: seq<Id>, bs: seq<int>, q: nat, kind: Kind, i: nat)
    requires |ids| == |bs| && i <= |ids| && Sum(Fifo.Takes(bs, q)[..i]) == q
    ensures forall k :: i <= k < |ids| ==> Fifo.Takes(bs, q)[k] == 0
    ensures Drains(ids, Fifo.Takes(bs, q), kind) == Drains(ids[..i], Fifo.Takes(bs, q)[..i], kind)
    decreases |ids| - i
  {
    var takes := Fifo.Takes(bs, q);
    if i < |ids| {
      NextTake(bs, q, i);
      SumOneMore(takes, i);
      DrainsOneMore(ids, takes, kind, i);
      NothingMoreIsTaken(ids, bs, q, kind, i + 1);
    } else {
      assert ids[..i] == ids && takes[..i] == takes;
    }
  }
}
