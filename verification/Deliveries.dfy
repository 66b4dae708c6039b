/** What a checklist of a purchase order brings into the stock: a lot for each item
    that came. */
module Deliveries {
  import opened Base
  import opened Clock
  import opened Stock
  import opened Ledger
  import opened Stockroom
  import opened StockView
  import opened Inventory

  // ----- More lots -----

  /** Lots that are there later: the old ones, which may have expired, and new ones,
      which may have too. */
  ghost predicate LotsMore(was: Lots, now: Lots, rows: Lots, at: Instant) {
    && was.Keys !! rows.Keys && now.Keys == was.Keys + rows.Keys
    && (forall id :: id in was ==> RowMovedOn(was[id], now[id], false, at))
    && forall id :: id in rows ==> RowMovedOn(rows[id], now[id], false, at)
  }

  lemma NoLotsMore(lots: Lots, at: Instant)
    ensures LotsMore(lots, lots, map[], at)
  {
  }

  ghost predicate OldLotsStay(was: Lots, now: Lots, at: Instant) {
    forall x :: x in was ==> x in now && RowMovedOn(was[x], now[x], false, at)
  }

  lemma RowMovedTwice(a: LotRow, b: LotRow, c: LotRow, earlier: Instant, at: Instant)
    requires RowMovedOn(a, b, false, earlier) && RowMovedOn(b, c, false, at) && earlier <= at
    ensures RowMovedOn(a, c, false, at)
  {
  }

  lemma AnotherLot(was: Lots, mid: Lots, now: Lots, rows: Lots, id: Id, row: LotRow, earlier: Instant, at: Instant)
    requires LotsMore(was, mid, rows, earlier) && OneLotMore(mid, now, id, row, at) && id !in mid && earlier <= at
    ensures LotsMore(was, now, rows[id := row], at)
  {
    forall x | x in was ensures RowMovedOn(was[x], now[x], false, at) {
      RowMovedTwice(was[x], mid[x], now[x], earlier, at);
    }
    forall x | x in rows ensures RowMovedOn(rows[x], now[x], false, at) {
      RowMovedTwice(rows[x], mid[x], now[x], earlier, at);
    }
  }

  // ----- What came -----

  /** Ids nobody has yet, each once. */
  ghost predicate NewIds(ids: seq<Id>, lots: Lots) {
    (forall i :: 0 <= i < |ids| ==> ids[i] !in lots) && forall i, j :: 0 <= i < j < |ids| ==> ids[i] != ids[j]
  }

  /** A lot for each item that came, with the id of its place on the list. */
  function NewRows(came: seq<Came>, ids: seq<Id>, at: Instant, ingredients: map<Id, Ingredient>): (rows: Lots)
    requires |came| <= |ids|
    ensures forall id :: id in rows ==> exists i :: 0 <= i < |came| && ids[i] == id
  {
    if came == [] then map[]
    else
      var i := |came| - 1;
      var rows := NewRows(came[..i], ids, at, ingredients);
      if came[i].qty > 0 then rows[ids[i] := CameRow(came[i], at, ingredients)] else rows
  }

  function Receipts(came: seq<Came>, ids: seq<Id>): seq<Movement>
    requires |came| <= |ids|
  {
    if came == [] then []
    else
      var i := |came| - 1;
      Receipts(came[..i], ids) + if came[i].qty > 0 then [Movement(ids[i], Ledger.Receive, came[i].qty)] else []
  }

  function FirstChecks(came: seq<Came>, ids: seq<Id>, at: Instant, ingredients: map<Id, Ingredient>): seq<Check>
    requires |came| <= |ids|
  {
    if came == [] then []
    else
      var i := |came| - 1;
      FirstChecks(came[..i], ids, at, ingredients)
      + if came[i].qty > 0 then CameCheck(came[i], ids[i], at, ingredients) else []
  }

  /** How much of an ingredient came. */
  function CameOf(came: seq<Came>, g: Id): int {
    if came == [] then 0
    else
      var c := came[|came| - 1];
      CameOf(came[..|came| - 1], g) + if c.ingredient == g && c.qty > 0 then c.qty else 0
  }

  /** The stock as its tables stand. */
  datatype Stocks = Stocks(lots: Lots, movements: seq<Movement>, checks: seq<Check>, clock: Instant)

  function StocksOf(s: Service): Stocks
    reads s
  {
    Stocks(s.lots, s.movements, s.checks, s.clock)
  }

  /** The stock with more lots, all that came: a movement each, and a check for what
      perishes. */
  ghost predicate TookLots(
      was: Stocks, now: Stocks, rows: Lots, came: seq<Came>, ids: seq<Id>, at: Instant,
      ingredients: map<Id, Ingredient>)
    requires |came| <= |ids|
  {
    && rows == NewRows(came, ids, at, ingredients) && LotsMore(was.lots, now.lots, rows, now.clock)
    && now.movements == was.movements + Receipts(came, ids)
    && now.checks == was.checks + FirstChecks(came, ids, at, ingredients)
    && forall h: Id :: Stocked(now.lots, now.movements, h) == Stocked(was.lots, was.movements, h) + CameOf(came, h)
  }

  ghost predicate TookIn(
      was: Stocks, now: Stocks, came: seq<Came>, ids: seq<Id>, at: Instant, ingredients: map<Id, Ingredient>)
    requires |came| <= |ids|
  {
    exists rows :: TookLots(was, now, rows, came, ids, at, ingredients)
  }

  /** Nothing but time and the daily job changed it. */
  ghost predicate OnlyAged(was: Stocks, now: Stocks) {
    MovedOn(was.lots, now.lots, {}, now.clock) && now.movements == was.movements && now.checks == was.checks
  }

  lemma OneMoreCame(came: seq<Came>, i: nat, ids: seq<Id>, at: Instant, ingredients: map<Id, Ingredient>)
    requires i < |came| <= |ids| && came[i].qty > 0
    ensures NewRows(came[..i + 1], ids, at, ingredients)
         == NewRows(came[..i], ids, at, ingredients)[ids[i] := CameRow(came[i], at, ingredients)]
    ensures Receipts(came[..i + 1], ids)
         == Receipts(came[..i], ids) + [Movement(ids[i], Ledger.Receive, came[i].qty)]
    ensures FirstChecks(came[..i + 1], ids, at, ingredients)
         == FirstChecks(came[..i], ids, at, ingredients) + CameCheck(came[i], ids[i], at, ingredients)
  {
    assert came[..i + 1][..i] == came[..i];
  }

  lemma Appended<T>(a: seq<T>, b: seq<T>, c: seq<T>)
    ensures a + b + c == a + (b + c)
  {
  }

  lemma RisesTogether(was: Stocks, mid: Stocks, now: Stocks, came: seq<Came>, i: nat)
    requires i < |came| && came[i].qty > 0
    requires forall h: Id :: Stocked(mid.lots, mid.movements, h)
                          == Stocked(was.lots, was.movements, h) + CameOf(came[..i], h)
    requires forall h: Id :: Stocked(now.lots, now.movements, h)
                          == Stocked(mid.lots, mid.movements, h) + if came[i].ingredient == h then came[i].qty else 0
    ensures forall h: Id :: Stocked(now.lots, now.movements, h)
                         == Stocked(was.lots, was.movements, h) + CameOf(came[..i + 1], h)
  {
    assert came[..i + 1][..i] == came[..i];
  }

  /** An item more, taken in or not there. */
  lemma TookInOneMore(
      was: Stocks, mid: Stocks, now: Stocks, came: seq<Came>, i: nat, ids: seq<Id>, at: Instant,
      ingredients: map<Id, Ingredient>)
    requires i < |came| <= |ids| && came[i].qty > 0 && NewIds(ids, was.lots) && ids[i] !in mid.lots
    requires TookIn(was, mid, came[..i], ids, at, ingredients) && mid.clock <= now.clock
    requires OneLotMore(mid.lots, now.lots, ids[i], CameRow(came[i], at, ingredients), now.clock)
    requires now.movements == mid.movements + [Movement(ids[i], Ledger.Receive, came[i].qty)]
    requires now.checks == mid.checks + CameCheck(came[i], ids[i], at, ingredients)
    requires forall h: Id :: Stocked(now.lots, now.movements, h)
                          == Stocked(mid.lots, mid.movements, h) + if came[i].ingredient == h then came[i].qty else 0
    ensures TookIn(was, now, came[..i + 1], ids, at, ingredients)
  {
    var rows :| TookLots(was, mid, rows, came[..i], ids, at, ingredients);
    var row := CameRow(came[i], at, ingredients);
    AnotherLot(was.lots, mid.lots, now.lots, rows, ids[i], row, mid.clock, now.clock);
    OneMoreCame(came, i, ids, at, ingredients);
    Appended(was.movements, Receipts(came[..i], ids), [Movement(ids[i], Ledger.Receive, came[i].qty)]);
    Appended(was.checks, FirstChecks(came[..i], ids, at, ingredients), CameCheck(came[i], ids[i], at, ingredients));
    RisesTogether(was, mid, now, came, i);
    assert TookLots(was, now, rows[ids[i] := row], came[..i + 1], ids, at, ingredients);
  }

  lemma NothingCame(
      was: Stocks, now: Stocks, came: seq<Came>, i: nat, ids: seq<Id>, at: Instant, ingredients: map<Id, Ingredient>)
    requires i < |came| <= |ids| && came[i].qty <= 0 && TookIn(was, now, came[..i], ids, at, ingredients)
    ensures TookIn(was, now, came[..i + 1], ids, at, ingredients)
  {
    assert came[..i + 1][..i] == came[..i];
    var rows :| TookLots(was, now, rows, came[..i], ids, at, ingredients);
    assert TookLots(was, now, rows, came[..i + 1], ids, at, ingredients);
  }

  lemma NothingTakenIn(was: Stocks, ids: seq<Id>, at: Instant, ingredients: map<Id, Ingredient>)
    ensures TookIn(was, was, [], ids, at, ingredients)
  {
    NoLotsMore(was.lots, was.clock);
    assert TookLots(was, was, map[], [], ids, at, ingredients);
  }

  /** The next id is new still. */
  lemma NextIdIsNew(
      was: Stocks, now: Stocks, came: seq<Came>, i: nat, ids: seq<Id>, at: Instant, ingredients: map<Id, Ingredient>)
    requires i < |came| <= |ids| && NewIds(ids, was.lots) && TookIn(was, now, came[..i], ids, at, ingredients)
    ensures ids[i] !in now.lots
  {
  }

  lemma TookInKeepsOldLots(
      was: Stocks, now: Stocks, came: seq<Came>, ids: seq<Id>, at: Instant, ingredients: map<Id, Ingredient>)
    requires |came| <= |ids| && TookIn(was, now, came, ids, at, ingredients)
    ensures OldLotsStay(was.lots, now.lots, now.clock)
  {
  }
}
