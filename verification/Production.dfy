/** A batch's way through production (internal/aggregation/production.go): it is
    locked when its shopping closes, marked when baking starts, and completed
    once, which takes what it used out of the stock. */
module Production {
  import opened Base
  import opened Clock
  import opened Dates
  import opened Allocation
  import opened ShoppingList
  import opened Consumption
  import Stockroom
  import Inventory

  function Stage(s: BatchStatus): nat {
    match s
    case Open => 0
    case Locked => 1
    case InProduction => 2
    case Done => 3
  }

  /** Batches may only have moved on: no list changed and no status went back. */
  ghost predicate MovedOn(was: Batches, now: Batches) {
    && now.Keys == was.Keys
    && forall d :: d in was ==>
        now[d] == was[d].(status := now[d].status) && Stage(was[d].status) <= Stage(now[d].status)
  }

  function OpenIn(b: Batches): set<Date> { set d | d in b && b[d].status == Open }

  predicate IsDue(b: Batches, cutoffs: map<Date, Instant>, now: Instant, d: Date) {
    d in b && b[d].status == Open && d in cutoffs && cutoffs[d] <= now
  }

  ghost function DueAmong(b: Batches, cutoffs: map<Date, Instant>, now: Instant, ds: seq<Date>): set<Date> {
    set d | d in ds && IsDue(b, cutoffs, now, d)
  }

  /** The due batches among some dates are locked, and nothing else changed. */
  ghost predicate LockedSoFar(was: Batches, b: Batches, cutoffs: map<Date, Instant>, now: Instant, ds: seq<Date>) {
    && b.Keys == was.Keys
    && forall d :: d in was ==>
        b[d] == if d in ds && IsDue(was, cutoffs, now, d) then was[d].(status := Locked) else was[d]
  }

  lemma LockingOneMore(was: Batches, b: Batches, cutoffs: map<Date, Instant>, now: Instant, ds: seq<Date>, i: nat)
    requires i < |ds| && ds[i] in was && ds[i] !in ds[..i] && LockedSoFar(was, b, cutoffs, now, ds[..i])
    ensures var d := ds[i];
            var before, after := DueAmong(was, cutoffs, now, ds[..i]), DueAmong(was, cutoffs, now, ds[..i + 1]);
            if IsDue(was, cutoffs, now, d)
            then b[d] == was[d] && |after| == |before| + 1
                 && LockedSoFar(was, b[d := b[d].(status := Locked)], cutoffs, now, ds[..i + 1])
            else LockedSoFar(was, b, cutoffs, now, ds[..i + 1]) && after == before
  {
    forall e ensures e in ds[..i + 1] <==> e in ds[..i] || e == ds[i] {
      assert ds[..i + 1] == ds[..i] + [ds[i]];
    }
    var before, after := DueAmong(was, cutoffs, now, ds[..i]), DueAmong(was, cutoffs, now, ds[..i + 1]);
    if IsDue(was, cutoffs, now, ds[i]) {
      assert after == before + {ds[i]};
    }
  }

  lemma AllDueAreListed(b: Batches, cutoffs: map<Date, Instant>, now: Instant)
    ensures DueAmong(b, cutoffs, now, Sorted(OpenIn(b)))
         == set d | d in b && b[d].status == Open && d in cutoffs && cutoffs[d] <= now
  {
    SortedLists(OpenIn(b));
    forall d ensures d in Sorted(OpenIn(b)) <==> d in OpenIn(b) {
    }
  }

  /** What a list says a batch uses. */
  function NeedOf(lines: Lines, g: Id): int { if g in lines then Max(lines[g].needed, 0) else 0 }

  /** The uses of a list whose lines were seen but for some. */
  ghost predicate UsesAllBut(uses: seq<Use>, lines: Lines, todo: set<Id>) {
    forall g: Id :: UsesOf(uses, g) == if g in todo then 0 else NeedOf(lines, g)
  }

  lemma UsesOneMore(uses: seq<Use>, lines: Lines, todo: set<Id>, g: Id)
    requires UsesAllBut(uses, lines, todo) && g in todo && g in lines
    ensures UsesAllBut(if lines[g].needed > 0 then uses + [Use(g, lines[g].needed)] else uses, lines, todo - {g})
  {
    if lines[g].needed > 0 {
      var more := uses + [Use(g, lines[g].needed)];
      assert more[..|uses|] == uses;
      forall h: Id ensures UsesOf(more, h) == if h in todo - {g} then 0 else NeedOf(lines, h) {
        assert UsesOf(uses, h) == if h in todo then 0 else NeedOf(lines, h);
      }
    }
  }

  datatype Outcome = Completed | NotProductionDay | NotFound | AlreadyDone

  class Service {
    var batches: Batches
    const stock: Inventory.Service

    constructor (inventory: Inventory.Service)
      ensures batches == map[] && stock == inventory
    {
      batches, stock := map[], inventory;
    }

    /** Moves a batch on, only from one of the statuses given. */
    method SetStatus(d: Date, from: set<BatchStatus>, to: BatchStatus) returns (moved: bool)
      modifies this
      ensures moved <==> d in old(batches) && old(batches)[d].status in from
      ensures batches == if moved then old(batches)[d := old(batches)[d].(status := to)] else old(batches)
    {
      moved := d in batches && batches[d].status in from;
      if moved {
        batches := batches[d := batches[d].(status := to)];
      }
    }

    /** Locks the open batches whose shopping has closed; a batch without orders
        has no cutoff and stays open. */
    method LockDue(cutoffs: map<Date, Instant>, now: Instant) returns (n: nat)
      modifies this
      ensures MovedOn(old(batches), batches)
      ensures forall d :: d in batches ==>
                batches[d].status == if old(batches)[d].status == Open && d in cutoffs && cutoffs[d] <= now
                                     then Locked else old(batches)[d].status
      ensures n == |set d | d in old(batches) && old(batches)[d].status == Open && d in cutoffs && cutoffs[d] <= now|
    {
      var dates := Sorted(OpenIn(batches));
      SortedLists(OpenIn(batches));
      n := 0;
      for i := 0 to |dates|
        invariant n == |DueAmong(old(batches), cutoffs, now, dates[..i])|
        invariant LockedSoFar(old(batches), batches, cutoffs, now, dates[..i])
      {
        var d := dates[i];
        assert d in dates;
        assert d !in dates[..i];
        LockingOneMore(old(batches), batches, cutoffs, now, dates, i);
        if d !in cutoffs || cutoffs[d] > now {
          continue;
        }
        var moved := SetStatus(d, {Open}, Locked);
        if moved {
          n := n + 1;
        }
      }
      assert dates[..|dates|] == dates;
      AllDueAreListed(old(batches), cutoffs, now);
    }

    /** Once its first order is in production, so is the batch. */
    method MarkInProduction(d: Date)
      modifies this
      ensures MovedOn(old(batches), batches)
      ensures forall e :: e in batches ==>
                batches[e].status == if e == d && old(batches)[e].status in {Open, Locked} then InProduction
                                     else old(batches)[e].status
    {
      var _ := SetStatus(d, {Open, Locked}, InProduction);
    }

    /** What a list uses, ingredient by ingredient. */
    method Uses(lines: Lines) returns (uses: seq<Use>)
      ensures forall g: Id :: UsesOf(uses, g) == NeedOf(lines, g)
    {
      uses := [];
      var todo := lines.Keys;
      while todo != {}
        invariant todo <= lines.Keys
        invariant UsesAllBut(uses, lines, todo)
        decreases |todo|
      {
        var g :| g in todo;
        UsesOneMore(uses, lines, todo, g);
        todo := todo - {g};
        if lines[g].needed > 0 {
          uses := uses + [Use(g, lines[g].needed)];
        }
      }
    }

    /** Closes a day's production, on or after the day and only once. All that the
        recipes need of each ingredient comes out of the stock, or all there is,
        the oldest lots first, and the rest is reported missing; the batch counts
        on no stock any more. */
    method Complete(d: Date) returns (outcome: Outcome, used: seq<Used>)
      requires stock.Valid()
      modifies this, stock
      ensures stock.Valid() && old(stock.clock) <= stock.clock && MovedOn(old(batches), batches)
      ensures stock.checks == old(stock.checks) && stock.requests == old(stock.requests)
      ensures outcome == if DateOf(old(stock.clock)) < d then NotProductionDay
                         else if d !in old(batches) then NotFound
                         else if old(batches)[d].status == Done then AlreadyDone
                         else Completed
      ensures outcome != Completed ==> batches == old(batches) && used == []
      ensures outcome != Completed ==> stock.lots == old(stock.lots) && stock.movements == old(stock.movements)
      ensures outcome == Completed ==> batches == old(batches)[d := old(batches)[d].(status := Done)]
      ensures ConsumedFrom(old(stock.lots), old(stock.movements), stock.lots, stock.movements, stock.clock)
      ensures outcome == Completed ==> forall g: Id :: TookFor(old(batches)[d].lines, used, g)
      ensures outcome == Completed ==> forall g: Id ::
                ConsumesWhatThereIs(old(stock.lots), old(stock.movements), stock.clock, g,
                                    NeedOf(old(batches)[d].lines, g), ConsumedOf(used, g))
      ensures forall k :: 0 <= k < |used| && used[k].missing > 0 ==> NoneAvailable(stock.lots, used[k].ingredient)
      ensures forall k :: 0 <= k < |used| ==>
                EntryTakesWhatIsLeft(old(stock.lots), old(stock.movements), stock.clock, used, k)
      ensures forall g: Id :: Stockroom.Stocked(stock.lots, stock.movements, g)
                           == old(Stockroom.Stocked(stock.lots, stock.movements, g)) - ConsumedOf(used, g)
    {
      used := [];
      NothingConsumed(stock.lots, stock.movements, stock.clock);
      if DateOf(stock.clock) < d {
        return NotProductionDay, used;
      }
      if d !in batches {
        return NotFound, used;
      }
      if batches[d].status == Done {
        return AlreadyDone, used;
      }
      var uses := Uses(batches[d].lines);
      used := stock.Consume(uses);
      forall g: Id ensures TookFor(old(batches)[d].lines, used, g) {
        AccountsAddUp(uses, used, g);
      }
      var moved := SetStatus(d, {Open, Locked, InProduction}, Done);
      outcome := Completed;
    }
  }

  /** What was taken of an ingredient, and what was missing, is what was needed. */
  ghost predicate TookFor(lines: Lines, used: seq<Used>, g: Id) {
    ConsumedOf(used, g) + MissingOf(used, g) == NeedOf(lines, g)
  }

  // ----- What a completed batch frees -----

  lemma OthersClaimTheSame(b: Batches, d: Date, ds: seq<Date>, g: Id)
    requires d in b && d !in ds
    ensures Claims(b[d := b[d].(status := Done)], ds, g) == Claims(b, ds, g)
  {
  }

  lemma ClaimedAround(b: Batches, early: set<Date>, d: Date, late: set<Date>, g: Id)
    requires d in b && (forall x :: x in early ==> x < d) && (forall x :: x in late ==> d < x)
    ensures Sum(Claims(b, Sorted(early + ({d} + late)), g))
         == Sum(Claims(b[d := b[d].(status := Done)], Sorted(early + late), g)) + Claim(b, d, g)
  {
    var c := b[d := b[d].(status := Done)];
    ListedBetween(early, d, late);
    SortedLists(early);
    SortedLists(late);
    OthersClaimTheSame(b, d, Sorted(early), g);
    OthersClaimTheSame(b, d, Sorted(late), g);
    ClaimsTogether(b, Sorted(early), [d] + Sorted(late), g);
    ClaimsTogether(b, [d], Sorted(late), g);
    ClaimsTogether(c, Sorted(early), Sorted(late), g);
    assert Claims(b, [d], g) == [Claim(b, d, g)];
  }

  /** A completed batch gives its whole claim back to the later ones, and changes
      what no earlier one may count on. */
  lemma CompletionFreesItsClaim(b: Batches, d: Date, e: Date, g: Id)
    requires d in b && b[d].status != Done
    ensures var c := b[d := b[d].(status := Done)];
            ClaimedBefore(c, e, g) == ClaimedBefore(b, e, g) - if d < e then Claim(b, d, g) else 0
  {
    var c := b[d := b[d].(status := Done)];
    if d < e {
      var early, late := Before(b, d), set x | x in Before(b, e) && d < x;
      assert Before(b, e) == early + ({d} + late);
      assert Before(c, e) == early + late;
      ClaimedAround(b, early, d, late, g);
    } else {
      assert Before(c, e) == Before(b, e);
      SortedLists(Before(b, e));
      OthersClaimTheSame(b, d, Sorted(Before(b, e)), g);
    }
  }
}
