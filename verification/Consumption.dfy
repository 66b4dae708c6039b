/** What consumption does to the stock as a whole (internal/inventory/service.go):
    it takes only from available lots, the oldest first, all that is asked or all
    there is. */
module Consumption {
  import opened Base
  import opened Clock
  import opened Stock
  import opened Ledger
  import opened Stockroom
  import Fifo

  datatype Use = Use(ingredient: Id, qty: int)

  datatype Used = Used(ingredient: Id, consumed: int, missing: int)

  // ----- What is reported -----

  /** One entry per use that uses something: consumed and missing make it up. */
  ghost predicate Accounts(uses: seq<Use>, out: seq<Used>) {
    if uses == [] then out == []
    else
      var last := uses[|uses| - 1];
      if last.qty <= 0 then Accounts(uses[..|uses| - 1], out)
      else out != [] && Accounts(uses[..|uses| - 1], out[..|out| - 1]) && AccountsFor(last, out[|out| - 1])
  }

  ghost predicate AccountsFor(use: Use, used: Used) {
    && used.ingredient == use.ingredient && 0 <= used.consumed && 0 <= used.missing
    && used.consumed + used.missing == use.qty
  }

  lemma AccountsSkip(uses: seq<Use>, out: seq<Used>, use: Use)
    requires Accounts(uses, out) && use.qty <= 0
    ensures Accounts(uses + [use], out)
  {
  }

  lemma AccountsOneMore(uses: seq<Use>, out: seq<Used>, use: Use, used: Used)
    requires Accounts(uses, out) && use.qty > 0 && AccountsFor(use, used)
    ensures Accounts(uses + [use], out + [used])
  {
  }

  /** What was used of an ingredient, taken of it, and missing of it. */
  function UsesOf(uses: seq<Use>, g: Id): int {
    if uses == [] then 0
    else UsesOf(uses[..|uses| - 1], g) + if uses[|uses| - 1].ingredient == g then Max(uses[|uses| - 1].qty, 0) else 0
  }

  function ConsumedOf(out: seq<Used>, g: Id): int {
    if out == [] then 0
    else ConsumedOf(out[..|out| - 1], g) + if out[|out| - 1].ingredient == g then out[|out| - 1].consumed else 0
  }

  function MissingOf(out: seq<Used>, g: Id): int {
    if out == [] then 0
    else MissingOf(out[..|out| - 1], g) + if out[|out| - 1].ingredient == g then out[|out| - 1].missing else 0
  }

  /** What was consumed and what was missing make up what was used. */
  lemma {:induction false} AccountsAddUp(uses: seq<Use>, out: seq<Used>, g: Id)
    requires Accounts(uses, out)
    ensures ConsumedOf(out, g) + MissingOf(out, g) == UsesOf(uses, g)
    ensures 0 <= ConsumedOf(out, g) && 0 <= MissingOf(out, g)
  {
    if uses != [] {
      if uses[|uses| - 1].qty <= 0 {
        AccountsAddUp(uses[..|uses| - 1], out, g);
      } else {
        AccountsAddUp(uses[..|uses| - 1], out[..|out| - 1], g);
      }
    }
  }

  /** Something missing in all is missing in some entry. */
  lemma {:induction false} MissingSomewhere(out: seq<Used>, g: Id)
    requires MissingOf(out, g) > 0
    ensures exists k :: 0 <= k < |out| && out[k].ingredient == g && out[k].missing > 0
  {
    var last := out[|out| - 1];
    if !(last.ingredient == g && last.missing > 0) {
      MissingSomewhere(out[..|out| - 1], g);
      var k :| 0 <= k < |out| - 1 && out[..|out| - 1][k].ingredient == g && out[..|out| - 1][k].missing > 0;
      assert out[k].ingredient == g;
    }
  }

  // ----- What happens to the lots -----

  /** Available lots may have been emptied, or marked once past their expiry;
      nothing else about the lots changed, and none became available. */
  ghost predicate Aged(was: Lots, now: Lots, at: Instant) {
    && now.Keys == was.Keys
    && forall id :: id in was ==> RowAged(was[id], now[id], at)
  }

  ghost predicate RowAged(was: LotRow, now: LotRow, at: Instant) {
    && now == was.(status := now.status)
    && (now.status != was.status ==>
          was.status == Available && (now.status == Exhausted || (now.status == Expired && PastExpiry(was, at))))
  }

  /** Everything that moved was taken out of lots that were available. */
  ghost predicate OnlyTaken(was: Lots, before: seq<Movement>, after: seq<Movement>) {
    && before <= after
    && forall i :: |before| <= i < |after| ==>
         && after[i].kind == Ledger.Consume && after[i].qty < 0
         && after[i].lot in was && was[after[i].lot].status == Available
  }

  /** A lot gives something only when no older one of its ingredient is left. */
  ghost predicate OlderGoFirst(was: Lots, before: seq<Movement>, now: Lots, after: seq<Movement>) {
    forall x, y :: x in was && y in was && x in now && GivesAfter(was, before, after, x, y) ==>
      now[x].status != Available
  }

  ghost predicate GivesAfter(was: Lots, before: seq<Movement>, after: seq<Movement>, x: Id, y: Id)
    requires x in was && y in was
  {
    was[x].ingredient == was[y].ingredient && Older(was, x, y) && Balance(after, y) < Balance(before, y)
  }

  ghost predicate ConsumedFrom(was: Lots, before: seq<Movement>, now: Lots, after: seq<Movement>, at: Instant) {
    Aged(was, now, at) && OnlyTaken(was, before, after) && OlderGoFirst(was, before, now, after)
  }

  /** Consumption goes by time of arrival: when a lot gave something, none that came
      before it is still available, nor one that came with it and has a lower id. */
  lemma EarlierArrivalsGoFirst(
      was: Lots, before: seq<Movement>, now: Lots, after: seq<Movement>, at: Instant, x: Id, y: Id)
    requires ConsumedFrom(was, before, now, after, at) && x in was && y in was
    requires was[x].ingredient == was[y].ingredient
    requires was[x].receivedAt < was[y].receivedAt || (was[x].receivedAt == was[y].receivedAt && x < y)
    requires Balance(after, y) < Balance(before, y)
    ensures x in now && now[x].status != Available
  {
    assert GivesAfter(was, before, after, x, y);
  }

  ghost predicate NoneAvailable(lots: Lots, g: Id) { forall id :: !Listed(lots, id, g, {Available}) }

  lemma NoneStaysNone(was: Lots, now: Lots, at: Instant, g: Id)
    requires NoneAvailable(was, g) && Aged(was, now, at)
    ensures NoneAvailable(now, g)
  {
    forall id | id in now ensures !Listed(now, id, g, {Available}) {
      assert !Listed(was, id, g, {Available}) && RowAged(was[id], now[id], at);
    }
  }

  lemma AgedTwice(a: Lots, b: Lots, c: Lots, earlier: Instant, at: Instant)
    requires Aged(a, b, earlier) && Aged(b, c, at) && earlier <= at
    ensures Aged(a, c, at)
  {
    forall id | id in a ensures RowAged(a[id], c[id], at) {
      assert RowAged(a[id], b[id], earlier) && RowAged(b[id], c[id], at);
    }
  }

  lemma TakenTwice(a: Lots, x: seq<Movement>, b: Lots, y: seq<Movement>, z: seq<Movement>, at: Instant)
    requires Aged(a, b, at) && OnlyTaken(a, x, y) && OnlyTaken(b, y, z)
    ensures OnlyTaken(a, x, z)
  {
    forall i | |x| <= i < |z|
      ensures z[i].kind == Ledger.Consume && z[i].qty < 0 && z[i].lot in a && a[z[i].lot].status == Available
    {
      if i < |y| {
        assert z[i] == y[i];
      } else {
        assert RowAged(a[z[i].lot], b[z[i].lot], at);
      }
    }
  }

  lemma FirstTwice(
      a: Lots, x: seq<Movement>, b: Lots, y: seq<Movement>, c: Lots, z: seq<Movement>, earlier: Instant, at: Instant)
    requires OlderGoFirst(a, x, b, y) && OlderGoFirst(b, y, c, z) && Aged(a, b, earlier) && Aged(b, c, at)
    ensures OlderGoFirst(a, x, c, z)
  {
    forall u, v | u in a && v in a && u in c && GivesAfter(a, x, z, u, v) ensures c[u].status != Available {
      assert RowAged(a[u], b[u], earlier) && RowAged(a[v], b[v], earlier) && RowAged(b[u], c[u], at);
      if Balance(y, v) < Balance(x, v) {
        assert GivesAfter(a, x, y, u, v);
      } else {
        assert GivesAfter(b, y, z, u, v);
      }
    }
  }

  lemma ConsumedTwice(
      a: Lots, x: seq<Movement>, b: Lots, y: seq<Movement>, c: Lots, z: seq<Movement>, earlier: Instant, at: Instant)
    requires ConsumedFrom(a, x, b, y, earlier) && ConsumedFrom(b, y, c, z, at) && earlier <= at
    ensures ConsumedFrom(a, x, c, z, at)
  {
    AgedTwice(a, b, c, earlier, at);
    AgedLater(a, b, earlier, at);
    TakenTwice(a, x, b, y, z, at);
    FirstTwice(a, x, b, y, c, z, earlier, at);
  }

  lemma AgedLater(a: Lots, b: Lots, earlier: Instant, at: Instant)
    requires Aged(a, b, earlier) && earlier <= at
    ensures Aged(a, b, at)
  {
    forall id | id in a ensures RowAged(a[id], b[id], at) {
      assert RowAged(a[id], b[id], earlier);
    }
  }

  lemma NothingConsumed(lots: Lots, ms: seq<Movement>, at: Instant)
    ensures ConsumedFrom(lots, ms, lots, ms, at)
  {
  }

  // ----- A drain of the available lots -----

  lemma YoungerGivesLast(bs: seq<int>, q: nat, i: nat, j: nat)
    requires Fifo.NonNegative(bs) && i < j < |bs| && Fifo.Takes(bs, q)[j] > 0
    ensures Fifo.Left(bs, q)[i] == 0
  {
    Fifo.TakeIsWhatOlderLotsLack(bs, q, i);
    Fifo.TakeIsWhatOlderLotsLack(bs, q, j);
    Fifo.LeftIsWhatWasNotTaken(bs, q, i);
    SumOneMore(bs, i);
    assert bs[..j] == bs[..i + 1] + bs[i + 1..j];
    SumConcat(bs[..i + 1], bs[i + 1..j]);
    SumNonNegative(bs[i + 1..j]);
  }

  lemma DrainAges(lots: Lots, ms: seq<Movement>, later: Lots, order: seq<Id>, q: nat, g: Id, at: Instant)
    requires Listing(order, lots, g, {Available})
    requires MovedOn(lots, later, EmptyOf(order, Drained(ms, order, q, Ledger.Consume)), at)
    ensures Aged(lots, later, at)
  {
    var emptied := EmptyOf(order, Drained(ms, order, q, Ledger.Consume));
    forall id | id in lots ensures RowAged(lots[id], later[id], at) {
      assert RowMovedOn(lots[id], later[id], id in emptied, at);
      assert id in emptied ==> Listed(lots, id, g, {Available});
    }
  }

  lemma DrainOnlyTakes(lots: Lots, ms: seq<Movement>, order: seq<Id>, q: nat, g: Id)
    requires Listing(order, lots, g, {Available})
    ensures OnlyTaken(lots, ms, Drained(ms, order, q, Ledger.Consume))
  {
    var takes := Fifo.Takes(Balances(ms, order), q);
    var after := Drained(ms, order, q, Ledger.Consume);
    DrainsAreOfListedLots(order, takes, Ledger.Consume);
    forall i | |ms| <= i < |after|
      ensures after[i].kind == Ledger.Consume && after[i].qty < 0
      ensures after[i].lot in lots && lots[after[i].lot].status == Available
    {
      assert after[i] in Drains(order, takes, Ledger.Consume);
      assert Listed(lots, after[i].lot, g, {Available});
    }
  }

  lemma DrainTakesOldestFirst(lots: Lots, ms: seq<Movement>, later: Lots, order: seq<Id>, q: nat, g: Id, at: Instant)
    requires Sound(lots, ms) && Listing(order, lots, g, {Available}) && Distinct(order)
    requires MovedOn(lots, later, EmptyOf(order, Drained(ms, order, q, Ledger.Consume)), at)
    ensures OlderGoFirst(lots, ms, later, Drained(ms, order, q, Ledger.Consume))
  {
    var after := Drained(ms, order, q, Ledger.Consume);
    forall x, y | x in lots && y in lots && x in later && GivesAfter(lots, ms, after, x, y)
      ensures later[x].status != Available
    {
      OlderWasEmptied(lots, ms, order, q, g, x, y);
      assert RowMovedOn(lots[x], later[x], x in EmptyOf(order, after), at);
    }
  }

  lemma OlderWasEmptied(lots: Lots, ms: seq<Movement>, order: seq<Id>, q: nat, g: Id, x: Id, y: Id)
    requires Sound(lots, ms) && Listing(order, lots, g, {Available}) && Distinct(order)
    requires x in lots && y in lots && GivesAfter(lots, ms, Drained(ms, order, q, Ledger.Consume), x, y)
    ensures lots[x].status == Available ==> x in EmptyOf(order, Drained(ms, order, q, Ledger.Consume))
  {
    var after := Drained(ms, order, q, Ledger.Consume);
    var bs := Balances(ms, order);
    if y !in order {
      DrainingOthers(ms, order, q, Ledger.Consume, y);
    } else if lots[x].status == Available {
      SoundListsHold(lots, ms, order);
      DrainLeaves(ms, order, q, Ledger.Consume);
      var j :| 0 <= j < |order| && order[j] == y;
      assert Listed(lots, y, g, {Available}) && Listed(lots, x, g, {Available});
      var i :| 0 <= i < |order| && order[i] == x;
      OrderIsByAge(order, lots, i, j);
      Fifo.LeftIsWhatWasNotTaken(bs, q, j);
      assert Balances(after, order)[j] == bs[j] - Fifo.Takes(bs, q)[j];
      YoungerGivesLast(bs, q, i, j);
      assert Balances(after, order)[i] == 0;
    }
  }

  lemma OrderIsByAge(order: seq<Id>, lots: Lots, i: nat, j: nat)
    requires i < |order| && j < |order| && forall id :: id in order ==> id in lots
    requires OldestFirst(order, lots) && Older(lots, order[i], order[j])
    ensures i < j
  {
    assert order[i] in order && order[j] in order;
  }

  lemma DrainConsumes(lots: Lots, ms: seq<Movement>, later: Lots, order: seq<Id>, q: nat, g: Id, at: Instant)
    requires Sound(lots, ms) && Listing(order, lots, g, {Available}) && Distinct(order)
    requires MovedOn(lots, later, EmptyOf(order, Drained(ms, order, q, Ledger.Consume)), at)
    ensures ConsumedFrom(lots, ms, later, Drained(ms, order, q, Ledger.Consume), at)
  {
    DrainAges(lots, ms, later, order, q, g, at);
    DrainOnlyTakes(lots, ms, order, q, g);
    DrainTakesOldestFirst(lots, ms, later, order, q, g, at);
  }

  // ----- How much is consumed -----

  /** The available lots of an ingredient. */
  ghost function AvailableOf(lots: Lots, g: Id): set<Id> { set id | id in lots && Listed(lots, id, g, {Available}) }

  /** Those that do not expire by a moment. */
  ghost function LastingOf(lots: Lots, g: Id, at: Instant): set<Id> {
    set id | id in lots && Listed(lots, id, g, {Available}) && !PastExpiry(lots[id], at)
  }

  /** All that is asked or all there is: lots that expire meanwhile may or may
      not have given what they held. When none does, it is exactly the least of
      what is asked and what is available. */
  ghost predicate ConsumesWhatThereIs(was: Lots, before: seq<Movement>, at: Instant, g: Id, q: int, consumed: int) {
    Min(q, Held(before, LastingOf(was, g, at))) <= consumed <= Min(q, Held(before, AvailableOf(was, g)))
  }

  lemma {:induction false} TakenOutOf(ns: seq<Movement>, fewer: set<Id>, all: set<Id>)
    requires fewer <= all && forall i :: 0 <= i < |ns| ==> ns[i].qty < 0
    ensures Held(ns, all) <= Held(ns, fewer) <= 0
  {
    if ns != [] {
      TakenOutOf(ns[..|ns| - 1], fewer, all);
    }
  }

  lemma {:induction false} SameAmong(ns: seq<Movement>, some: set<Id>, all: set<Id>)
    requires forall i :: 0 <= i < |ns| ==> (ns[i].lot in some <==> ns[i].lot in all)
    ensures Held(ns, some) == Held(ns, all)
  {
    if ns != [] {
      SameAmong(ns[..|ns| - 1], some, all);
    }
  }

  lemma {:induction false} SoundLotsAreNotOverdrawn(lots: Lots, ms: seq<Movement>, ids: set<Id>)
    requires Sound(lots, ms) && ids <= lots.Keys
    ensures Held(ms, ids) >= 0
    decreases |ids|
  {
    if id :| id in ids {
      SoundLotsAreNotOverdrawn(lots, ms, ids - {id});
      assert ids == (ids - {id}) + {id};
      HeldByOneMore(ms, id, ids - {id});
      assert LotIsSound(lots, ms, id);
    } else {
      assert ids == {};
      HeldByNone(ms);
    }
  }

  /** When no available lot is left, the ones that have not expired are empty. */
  lemma LastingLotsWereEmptied(was: Lots, now: Lots, after: seq<Movement>, at: Instant, g: Id)
    requires Sound(now, after) && Aged(was, now, at) && NoneAvailable(now, g)
    ensures Held(after, LastingOf(was, g, at)) == 0
  {
    var lasting := LastingOf(was, g, at);
    forall id | id in lasting ensures Balance(after, id) == 0 {
      assert RowAged(was[id], now[id], at) && !Listed(now, id, g, {Available}) && LotIsSound(now, after, id);
    }
    EmptyLotsDoNotCount(after, {}, lasting);
    HeldByNone(after);
    assert {} + lasting == lasting;
  }

  /** What an ingredient's stock lost is what its available lots gave. */
  lemma LossIsOfAvailableLots(was: Lots, before: seq<Movement>, now: Lots, after: seq<Movement>, at: Instant, g: Id)
    requires ConsumedFrom(was, before, now, after, at)
    ensures var a, l := AvailableOf(was, g), LastingOf(was, g, at);
            var loss := Stocked(was, before, g) - Stocked(now, after, g);
            loss == Held(before, a) - Held(after, a) && loss >= Held(before, l) - Held(after, l)
  {
    var a, l, all := AvailableOf(was, g), LastingOf(was, g, at), LotsOf(was, g);
    AgedLotsAreTheSame(was, now, at, g);
    var ns := after[|before|..];
    assert after == before + ns;
    HeldConcat(before, ns, a);
    HeldConcat(before, ns, l);
    HeldConcat(before, ns, all);
    forall i | 0 <= i < |ns| ensures ns[i].qty < 0 && (ns[i].lot in a <==> ns[i].lot in all) {
      assert ns[i] == after[|before| + i];
    }
    SameAmong(ns, a, all);
    TakenOutOf(ns, l, a);
  }

  lemma AgedLotsAreTheSame(was: Lots, now: Lots, at: Instant, g: Id)
    requires Aged(was, now, at)
    ensures LotsOf(now, g) == LotsOf(was, g)
  {
    forall id | id in was ensures now[id].ingredient == was[id].ingredient {
      assert RowAged(was[id], now[id], at);
    }
  }

  lemma ConsumedIsWhatThereWas(
      was: Lots, before: seq<Movement>, now: Lots, after: seq<Movement>, at: Instant, g: Id,
      consumed: int, missing: int)
    requires Sound(was, before) && Sound(now, after) && ConsumedFrom(was, before, now, after, at)
    requires consumed == Stocked(was, before, g) - Stocked(now, after, g)
    requires consumed >= 0 && missing >= 0 && (missing > 0 ==> NoneAvailable(now, g))
    ensures ConsumesWhatThereIs(was, before, at, g, consumed + missing, consumed)
  {
    LossIsOfAvailableLots(was, before, now, after, at, g);
    SoundLotsAreNotOverdrawn(now, after, AvailableOf(was, g));
    if missing > 0 {
      LastingLotsWereEmptied(was, now, after, at, g);
    }
  }

  // ----- Entry by entry -----

  ghost predicate Reported(out: seq<Used>) {
    forall k :: 0 <= k < |out| ==> out[k].consumed >= 0 && out[k].missing >= 0
  }

  /** Once an ingredient ran short, later entries take nothing of it. */
  ghost predicate ShortStaysShort(out: seq<Used>) {
    forall j, k :: 0 <= j < k < |out| && out[j].ingredient == out[k].ingredient && out[j].missing > 0 ==>
      out[k].consumed == 0
  }

  /** An entry takes all it asks for, or all that earlier entries left. */
  ghost predicate EntryTakesWhatIsLeft(was: Lots, before: seq<Movement>, at: Instant, out: seq<Used>, k: nat)
    requires k < |out|
  {
    var g, asked := out[k].ingredient, out[k].consumed + out[k].missing;
    var earlier := ConsumedOf(out[..k], g);
    && Min(asked, Held(before, LastingOf(was, g, at)) - earlier) <= out[k].consumed
    && out[k].consumed <= Min(asked, Held(before, AvailableOf(was, g)) - earlier)
  }

  lemma {:induction false} LaterEntriesTakeMore(out: seq<Used>, k: nat, g: Id)
    requires Reported(out) && k < |out|
    ensures ConsumedOf(out[..k + 1], g) <= ConsumedOf(out, g)
    ensures (forall j :: k < j < |out| && out[j].ingredient == g ==> out[j].consumed == 0) ==>
              ConsumedOf(out[..k + 1], g) == ConsumedOf(out, g)
    ensures out[k].ingredient == g ==> out[k].missing <= MissingOf(out, g)
    ensures 0 <= MissingOf(out, g)
  {
    var front := out[..|out| - 1];
    if k == |out| - 1 {
      assert out[..k + 1] == out;
      MissingIsNotNegative(front, g);
    } else {
      LaterEntriesTakeMore(front, k, g);
      assert front[..k + 1] == out[..k + 1];
    }
  }

  lemma {:induction false} MissingIsNotNegative(out: seq<Used>, g: Id)
    requires Reported(out)
    ensures 0 <= MissingOf(out, g)
  {
    if out != [] {
      MissingIsNotNegative(out[..|out| - 1], g);
    }
  }

  lemma EntriesTakeWhatIsLeft(was: Lots, before: seq<Movement>, at: Instant, out: seq<Used>, k: nat)
    requires Reported(out) && ShortStaysShort(out) && k < |out|
    requires var g := out[k].ingredient;
             ConsumesWhatThereIs(was, before, at, g, ConsumedOf(out, g) + MissingOf(out, g), ConsumedOf(out, g))
    ensures EntryTakesWhatIsLeft(was, before, at, out, k)
  {
    var g := out[k].ingredient;
    LaterEntriesTakeMore(out, k, g);
    assert out[..k + 1][..k] == out[..k];
    assert ConsumedOf(out[..k + 1], g) == ConsumedOf(out[..k], g) + out[k].consumed;
  }

  /** What ran short has no available lot left. */
  ghost predicate Short(out: seq<Used>, lots: Lots) {
    forall k :: 0 <= k < |out| && out[k].missing > 0 ==> NoneAvailable(lots, out[k].ingredient)
  }

  lemma ShortOneMore(out: seq<Used>, used: Used, was: Lots, now: Lots, at: Instant)
    requires Reported(out) && ShortStaysShort(out) && Short(out, was) && Aged(was, now, at)
    requires used.consumed >= 0 && used.missing >= 0 && (used.missing > 0 ==> NoneAvailable(now, used.ingredient))
    requires NoneAvailable(was, used.ingredient) ==> used.consumed == 0
    ensures Reported(out + [used]) && ShortStaysShort(out + [used]) && Short(out + [used], now)
  {
    forall k | 0 <= k < |out| && out[k].missing > 0 ensures NoneAvailable(now, out[k].ingredient) {
      NoneStaysNone(was, now, at, out[k].ingredient);
    }
  }

  lemma NothingListed(lots: Lots, ms: seq<Movement>, order: seq<Id>, g: Id)
    requires Listing(order, lots, g, {Available})
    ensures NoneAvailable(lots, g) ==> Sum(Balances(ms, order)) == 0
  {
    if order != [] {
      assert order[0] in order;
      assert Listed(lots, order[0], g, {Available});
    }
  }
}
