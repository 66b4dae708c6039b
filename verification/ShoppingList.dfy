/** A batch's shopping list: what a computation puts in it, how it replaces
    the stored one, and what procurement adds
    (internal/aggregation/compute.go, internal/aggregation/postgres). */
module ShoppingList {
  import opened Base
  import opened Packs

  datatype LineStatus = Needed | Ordered | Received

  datatype Pack = Pack(supplier: Id, size: real)

  /** One ingredient of a shopping list, in its base unit. */
  datatype Line = Line(
    needed: int, usable: int, ordered: int, received: int, toBuy: int,
    pack: Option<Pack>, packs: int, status: LineStatus)

  /** A batch's rows, one per ingredient. */
  type Lines = map<Id, Line>

  const NEW_LINE := Line(0, 0, 0, 0, 0, None, 0, Needed)

  /** The ingredients procurement has touched: their lines always stay. */
  function Touched(existing: Lines): set<Id> {
    set g | g in existing && existing[g].status != Needed
  }

  /** The line a computation starts from: procurement's side, or nothing. */
  function Start(existing: Lines, g: Id): Line {
    if g in Touched(existing)
    then NEW_LINE.(ordered := existing[g].ordered, received := existing[g].received, status := existing[g].status)
    else NEW_LINE
  }

  /** What is bought of a line whose need, stock and orders are known. */
  function Bought(l: Line, stock: int, pack: Option<Pack>): Line {
    var usable := Min(Max(stock, 0), l.needed);
    var toBuy := Max(l.needed - usable - l.ordered, 0);
    if pack.Some? && pack.value.size > 0.0
    then l.(usable := usable, toBuy := toBuy, pack := pack, packs := PacksFor(toBuy, pack.value.size))
    else l.(usable := usable, toBuy := toBuy)
  }

  function PackOf(packs: map<Id, Pack>, g: Id): Option<Pack> { if g in packs then Some(packs[g]) else None }

  /** Level 3, as one formula: every ingredient needed or touched has a line. */
  function Shopped(needs: map<Id, int>, stock: map<Id, int>, existing: Lines, packs: map<Id, Pack>): Lines {
    map g | g in needs.Keys + Touched(existing) ::
      Bought(Start(existing, g).(needed := Get(needs, g)), Get(stock, g), PackOf(packs, g))
  }

  /** The same in three passes, as the code does it. */
  method Shop(needs: map<Id, int>, stock: map<Id, int>, existing: Lines, packs: map<Id, Pack>) returns (out: Lines)
    ensures out == Shopped(needs, stock, existing, packs)
  {
    var lines := TouchedLines(existing);
    lines := AddNeeds(lines, needs);
    out := Buy(lines, stock, packs);
  }

  /** First pass: the lines procurement has touched, with nothing needed. */
  method TouchedLines(existing: Lines) returns (lines: Lines)
    ensures lines == map g | g in Touched(existing) :: Start(existing, g)
  {
    lines := map[];
    var todo := existing.Keys;
    while todo != {}
      invariant todo <= existing.Keys
      invariant lines.Keys == Touched(existing) - todo
      invariant forall g :: g in lines ==> lines[g] == Start(existing, g)
      decreases todo
    {
      var g :| g in todo;
      todo := todo - {g};
      var e := existing[g];
      if e.status != Needed {
        lines := lines[g := Line(0, 0, e.ordered, e.received, 0, None, 0, e.status)];
      }
    }
  }

  /** Second pass: what is needed, on a new line where there is none. */
  method AddNeeds(before: Lines, needs: map<Id, int>) returns (lines: Lines)
    ensures lines.Keys == before.Keys + needs.Keys
    ensures forall g :: g in lines ==>
      var l := if g in before then before[g] else NEW_LINE;
      lines[g] == if g in needs then l.(needed := needs[g]) else l
  {
    lines := before;
    var todo := needs.Keys;
    while todo != {}
      invariant todo <= needs.Keys
      invariant lines.Keys == before.Keys + (needs.Keys - todo)
      invariant forall g :: g in lines ==>
        var l := if g in before then before[g] else NEW_LINE;
        lines[g] == if g in needs && g !in todo then l.(needed := needs[g]) else l
      decreases todo
    {
      var g :| g in todo;
      todo := todo - {g};
      var l := if g in lines then lines[g] else NEW_LINE;
      lines := lines[g := l.(needed := needs[g])];
    }
  }

  /** Third pass: stock, what is left to buy, and its packs. */
  method Buy(lines: Lines, stock: map<Id, int>, packs: map<Id, Pack>) returns (out: Lines)
    ensures out == map g | g in lines :: Bought(lines[g], Get(stock, g), PackOf(packs, g))
  {
    out := map[];
    var todo := lines.Keys;
    while todo != {}
      invariant todo <= lines.Keys
      invariant out.Keys == lines.Keys - todo
      invariant forall g :: g in out ==> out[g] == Bought(lines[g], Get(stock, g), PackOf(packs, g))
      decreases todo
    {
      var g :| g in todo;
      todo := todo - {g};
      var l := lines[g];
      l := l.(usable := Min(Max(Get(stock, g), 0), l.needed));
      l := l.(toBuy := Max(l.needed - l.usable - l.ordered, 0));
      if g in packs && packs[g].size > 0.0 {
        l := l.(pack := Some(packs[g]), packs := PacksFor(l.toBuy, packs[g].size));
      }
      out := out[g := l];
    }
  }

  // ----- A computed list, in quantities -----

  /** Just the ingredients that are needed, ordered or delivered have a line. What a
      line needs is free in the stock, on order, or to buy; nothing is bought that
      is free or on order, and no more counts as usable than is free or needed. */
  lemma ShoppedQuantities(needs: map<Id, int>, stock: map<Id, int>, existing: Lines, packs: map<Id, Pack>, g: Id)
    ensures var lines := Shopped(needs, stock, existing, packs);
            var touched := g in existing && existing[g].status != Needed;
            && (g in lines <==> g in needs || touched)
            && (g in lines ==>
                  var l := lines[g];
                  && l.needed == (if g in needs then needs[g] else 0)
                  && l.ordered == (if touched then existing[g].ordered else 0)
                  && l.usable == Min(Max(Get(stock, g), 0), l.needed)
                  && 0 <= l.toBuy && l.needed <= l.usable + l.ordered + l.toBuy
                  && (l.toBuy > 0 ==> l.needed == l.usable + l.ordered + l.toBuy))
  {
  }

  /** Packs of a size hold what is to buy, and one fewer would not. */
  ghost predicate Fill(packs: int, size: real, toBuy: int) {
    if toBuy == 0 then packs == 0
    else (packs - 1) as real * size < toBuy as real && PackQty(packs, size) >= toBuy
  }

  lemma PacksFill(toBuy: int, size: real)
    requires 0 <= toBuy && 0.0 < size < 1_000_000_000.0 - 1.0
    ensures Fill(PacksFor(toBuy, size), size, toBuy)
  {
    if toBuy > 0 {
      PacksAreEnoughAndNoneTooMany(toBuy, size);
    }
  }

  /** A line's packs are for what is to buy: none when that is nothing, and else
      enough, and one fewer would not be. */
  lemma ShoppedPacks(needs: map<Id, int>, stock: map<Id, int>, existing: Lines, packs: map<Id, Pack>, g: Id)
    requires g in Shopped(needs, stock, existing, packs)
    ensures var l := Shopped(needs, stock, existing, packs)[g];
            if g in packs && packs[g].size > 0.0 then
              && l.pack == Some(packs[g])
              && (packs[g].size < 1_000_000_000.0 - 1.0 ==> Fill(l.packs, packs[g].size, l.toBuy))
            else l.pack == None && l.packs == 0
  {
    var l := Shopped(needs, stock, existing, packs)[g];
    assert l == Bought(Start(existing, g).(needed := Get(needs, g)), Get(stock, g), PackOf(packs, g));
    if g in packs && 0.0 < packs[g].size < 1_000_000_000.0 - 1.0 {
      PacksFill(l.toBuy, packs[g].size);
      assert l.packs == PacksFor(l.toBuy, packs[g].size);
    }
  }

  /** A computed line written over the stored row: what was ordered, what
      arrived and the status are procurement's, and stay. */
  function Written(stored: Lines, g: Id, l: Line): Line {
    var row := if g in stored then stored[g] else NEW_LINE;
    l.(ordered := row.ordered, received := row.received, status := row.status)
  }

  /** The stored list after a computation. */
  function Saved(stored: Lines, lines: Lines): Lines {
    map g | g in lines.Keys + Touched(stored) :: if g in lines then Written(stored, g, lines[g]) else stored[g]
  }

  /** Writes every computed line, then drops the rows nobody ordered and
      nothing needs. */
  method SaveResult(stored: Lines, lines: Lines) returns (rows: Lines)
    ensures rows == Saved(stored, lines)
  {
    rows := Upsert(stored, lines);
    rows := map g | g in rows && (rows[g].status != Needed || g in lines) :: rows[g];
  }

  /** The upserts: an existing row keeps procurement's columns, a new one gets
      their defaults. */
  method Upsert(stored: Lines, lines: Lines) returns (rows: Lines)
    ensures rows.Keys == stored.Keys + lines.Keys
    ensures forall g :: g in rows ==> rows[g] == if g in lines then Written(stored, g, lines[g]) else stored[g]
  {
    rows := stored;
    var todo := lines.Keys;
    while todo != {}
      invariant todo <= lines.Keys
      invariant rows.Keys == stored.Keys + (lines.Keys - todo)
      invariant forall g :: g in rows ==>
        rows[g] == if g in lines && g !in todo then Written(stored, g, lines[g]) else stored[g]
      decreases todo
    {
      var g :| g in todo;
      todo := todo - {g};
      var l := lines[g];
      if g in rows {
        rows := rows[g := l.(ordered := rows[g].ordered, received := rows[g].received, status := rows[g].status)];
      } else {
        rows := rows[g := l.(ordered := 0, received := 0, status := Needed)];
      }
    }
  }

  /** A whole computation of a batch's list. */
  function Rebuilt(stored: Lines, needs: map<Id, int>, stock: map<Id, int>, packs: map<Id, Pack>): Lines {
    Saved(stored, Shopped(needs, stock, stored, packs))
  }

  /** A row of the result, in one step. */
  function Row(stored: Lines, needs: map<Id, int>, stock: map<Id, int>, packs: map<Id, Pack>, g: Id): Line {
    Written(stored, g, Bought(Start(stored, g).(needed := Get(needs, g)), Get(stock, g), PackOf(packs, g)))
  }

  /** The stored list after a computation holds the lines computed, and of what
      procurement ordered and received what it held. */
  lemma StoredLine(stored: Lines, needs: map<Id, int>, stock: map<Id, int>, packs: map<Id, Pack>, g: Id)
    ensures var rows, lines := Rebuilt(stored, needs, stock, packs), Shopped(needs, stock, stored, packs);
            && rows.Keys == lines.Keys
            && (g in rows ==>
                  var row, l := rows[g], lines[g];
                  && row.needed == l.needed && row.usable == l.usable && row.toBuy == l.toBuy
                  && row.pack == l.pack && row.packs == l.packs
                  && row.ordered == (if g in stored then stored[g].ordered else 0)
                  && row.received == (if g in stored then stored[g].received else 0)
                  && row.status == if g in stored then stored[g].status else Needed)
  {
  }

  lemma RebuiltRows(stored: Lines, needs: map<Id, int>, stock: map<Id, int>, packs: map<Id, Pack>)
    ensures Rebuilt(stored, needs, stock, packs)
         == map g | g in needs.Keys + Touched(stored) :: Row(stored, needs, stock, packs, g)
  {
  }

  lemma RebuiltRow(stored: Lines, needs: map<Id, int>, stock: map<Id, int>, packs: map<Id, Pack>, g: Id)
    ensures var lines := Rebuilt(stored, needs, stock, packs);
            && (g in lines <==> g in needs || g in Touched(stored))
            && (g in lines ==> lines[g] == Row(stored, needs, stock, packs, g))
  {
  }

  /** Only the stock of the ingredients that get a line matters. */
  lemma OtherStockDoesNotMatter(
      stored: Lines, needs: map<Id, int>, stock: map<Id, int>, other: map<Id, int>, packs: map<Id, Pack>)
    requires forall g :: g in needs.Keys + Touched(stored) ==> Get(stock, g) == Get(other, g)
    ensures Rebuilt(stored, needs, stock, packs) == Rebuilt(stored, needs, other, packs)
  {
  }

  /** Procurement's side of a list survives every computation: no touched line
      is dropped, and what it says was ordered and arrived is unchanged. */
  lemma ComputingKeepsProcurement(stored: Lines, needs: map<Id, int>, stock: map<Id, int>, packs: map<Id, Pack>)
    ensures Touched(Rebuilt(stored, needs, stock, packs)) == Touched(stored)
    ensures forall g :: g in stored && g in Rebuilt(stored, needs, stock, packs) ==>
      var row := Rebuilt(stored, needs, stock, packs)[g];
      row.ordered == stored[g].ordered && row.received == stored[g].received && row.status == stored[g].status
  {
  }

  lemma ComputingKeepsStarts(
      stored: Lines, needs: map<Id, int>, stock: map<Id, int>, later: map<Id, int>, packs: map<Id, Pack>, g: Id)
    requires g in needs || g in Touched(stored)
    ensures var once := Rebuilt(stored, needs, stock, packs);
            Row(once, needs, later, packs, g) == Row(stored, needs, later, packs, g)
  {
  }

  /** A computation leaves nothing of an earlier one with the same needs. */
  lemma LastComputationCounts(
      stored: Lines, needs: map<Id, int>, stock: map<Id, int>, later: map<Id, int>, packs: map<Id, Pack>)
    ensures Rebuilt(Rebuilt(stored, needs, stock, packs), needs, later, packs) == Rebuilt(stored, needs, later, packs)
  {
    var once := Rebuilt(stored, needs, stock, packs);
    ComputingKeepsProcurement(stored, needs, stock, packs);
    RebuiltRows(stored, needs, later, packs);
    RebuiltRows(once, needs, later, packs);
    var ids := needs.Keys + Touched(stored);
    assert needs.Keys + Touched(once) == ids;
    forall g | g in ids ensures Row(once, needs, later, packs, g) == Row(stored, needs, later, packs, g) {
      ComputingKeepsStarts(stored, needs, stock, later, packs, g);
    }
  }

  /** Computing again with the same inputs changes nothing. */
  lemma ComputingTwiceIsComputingOnce(stored: Lines, needs: map<Id, int>, stock: map<Id, int>, packs: map<Id, Pack>)
    ensures var once := Rebuilt(stored, needs, stock, packs);
            Rebuilt(once, needs, stock, packs) == once
  {
    LastComputationCounts(stored, needs, stock, stock, packs);
  }

  /** A change procurement makes to a line: what was ordered and what arrived. */
  datatype Delta = Delta(ordered: int, received: int)

  /** A line's status follows from its two quantities. */
  function StatusFrom(ordered: int, received: int): LineStatus {
    if ordered > 0 then Ordered else if received > 0 then Received else Needed
  }

  /** A row after a change; None when a stored quantity would fall below zero. */
  function Procured(l: Line, d: Delta): Option<Line> {
    var o, r := l.ordered + d.ordered, l.received + d.received;
    if o < 0 || r < 0 then None else Some(l.(ordered := o, received := r, status := StatusFrom(o, r)))
  }

  predicate CanApply(lines: Lines, g: Id, d: Delta) { g in lines && Procured(lines[g], d).Some? }

  function AppliedRows(lines: Lines, changes: map<Id, Delta>): (rows: Lines)
    requires forall g :: g in changes ==> CanApply(lines, g, changes[g])
  {
    map g | g in lines ::
      if g in changes then
        assert CanApply(lines, g, changes[g]);
        Procured(lines[g], changes[g]).value
      else lines[g]
  }

  /** A list after procurement's changes; None when some line is missing or
      cannot take its change. */
  function Applied(lines: Lines, changes: map<Id, Delta>): Option<Lines> {
    if forall g :: g in changes ==> CanApply(lines, g, changes[g])
    then Some(AppliedRows(lines, changes))
    else None
  }

  /** A change succeeds just when every line it names is there and no stored
      quantity falls below zero. Then each such line has its two quantities moved
      and a status that tells them, and everything else stays. */
  lemma AppliedExactlyWhen(lines: Lines, changes: map<Id, Delta>)
    ensures Applied(lines, changes).Some? <==>
              forall g :: g in changes ==>
                g in lines && lines[g].ordered + changes[g].ordered >= 0 && lines[g].received + changes[g].received >= 0
    ensures Applied(lines, changes).Some? ==>
              var rows := Applied(lines, changes).value;
              && rows.Keys == lines.Keys
              && forall g :: g in lines ==>
                   if g !in changes then rows[g] == lines[g]
                   else
                     var l, row := lines[g], rows[g];
                     && row == l.(ordered := l.ordered + changes[g].ordered,
                                  received := l.received + changes[g].received, status := row.status)
                     && (row.status == Ordered <==> row.ordered > 0)
                     && (row.status == Received <==> row.ordered == 0 && row.received > 0)
  {
    if forall g :: g in changes ==>
         g in lines && lines[g].ordered + changes[g].ordered >= 0 && lines[g].received + changes[g].received >= 0 {
      forall g | g in changes ensures CanApply(lines, g, changes[g]) {
      }
    } else {
      var g :| g in changes && !(g in lines && lines[g].ordered + changes[g].ordered >= 0
                                 && lines[g].received + changes[g].received >= 0);
      assert !CanApply(lines, g, changes[g]);
    }
    forall g | g in lines && g in changes && Applied(lines, changes).Some? ensures CanApply(lines, g, changes[g]) {
    }
  }

  /** One change after the other, stopping at the first that fails. */
  method Apply(lines: Lines, changes: map<Id, Delta>) returns (r: Option<Lines>)
    ensures r == Applied(lines, changes)
  {
    var rows := lines;
    var todo := changes.Keys;
    while todo != {}
      invariant todo <= changes.Keys
      invariant rows.Keys == lines.Keys
      invariant forall g :: g in changes && g !in todo ==> CanApply(lines, g, changes[g])
      invariant forall g :: g in rows ==>
        rows[g] == if g in changes && g !in todo then Procured(lines[g], changes[g]).value else lines[g]
      decreases todo
    {
      var g :| g in todo;
      if g !in rows {
        assert !CanApply(lines, g, changes[g]);
        return None;
      }
      var row := Procured(rows[g], changes[g]);
      if row.None? {
        assert !CanApply(lines, g, changes[g]);
        return None;
      }
      todo := todo - {g};
      rows := rows[g := row.value];
    }
    assert rows == AppliedRows(lines, changes);
    r := Some(rows);
  }
}
