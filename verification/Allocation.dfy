/** The engine that computes batches, and what it stores
    (internal/aggregation/engine.go). Stock is allocated by date: a batch
    counts on what is usable on its date less what the earlier batches that are
    not done count on. */
module Allocation {
  import opened Base
  import opened Clock
  import opened Dates
  import opened Stock
  import opened ShoppingList
  import opened BatchNeeds
  import Totals

  datatype BatchStatus = Open | Locked | InProduction | Done

  /** A production date's batch; `failed` says its last computation failed. */
  datatype Batch = Batch(status: BatchStatus, lines: Lines, failed: bool)

  type Batches = map<Date, Batch>

  const NEW_BATCH := Batch(Open, map[], false)

  /** Everything a computation reads besides the batches. */
  datatype Inputs = Inputs(
    items: map<Date, seq<Totals.Item>>, catalog: Catalog,
    lots: seq<Lot>, policies: map<Id, Policy>, packs: map<Id, Pack>, now: Instant)
  {
    /** What a date's committed orders make. */
    function ItemsOn(d: Date): seq<Totals.Item> { if d in items then items[d] else [] }

    function NeedsOf(d: Date): Needs { NeedsFrom(ItemsOn(d), catalog) }

    function NeedOf(d: Date, g: Id): int {
      match NeedsOf(d)
      case Known(qty) => Max(Get(qty, g), 0)
      case Broken => 0
    }

    function UsableOn(d: Date, g: Id): int { UsableOf(lots, policies, g, d, now) }
  }

  function NotDone(b: Batches): set<Date> { set d | d in b && b[d].status != Done }

  function Before(b: Batches, d: Date): set<Date> { set e | e in NotDone(b) && e < d }

  /** The stock of g a batch counts on; a done batch has used its own. */
  function Claim(b: Batches, d: Date, g: Id): (c: nat) {
    if d in NotDone(b) && g in b[d].lines then Max(b[d].lines[g].usable, 0) else 0
  }

  function Claims(b: Batches, ds: seq<Date>, g: Id): (cs: seq<int>)
    ensures |cs| == |ds|
  {
    seq(|ds|, i requires 0 <= i < |ds| => Claim(b, ds[i], g))
  }

  function ClaimedBefore(b: Batches, d: Date, g: Id): int {
    Sum(Claims(b, Sorted(Before(b, d)), g))
  }

  function FreeFor(b: Batches, inp: Inputs, d: Date, g: Id): int {
    Max(inp.UsableOn(d, g) - ClaimedBefore(b, d, g), 0)
  }

  function FreeOf(b: Batches, inp: Inputs, d: Date, ids: set<Id>): map<Id, int> {
    map g | g in ids :: FreeFor(b, inp, d, g)
  }

  function LinesOf(b: Batches, d: Date): Lines { if d in b then b[d].lines else map[] }

  function LinesAfter(b: Batches, inp: Inputs, d: Date, needs: map<Id, int>): Lines {
    var stored := LinesOf(b, d);
    Rebuilt(stored, needs, FreeOf(b, inp, d, needs.Keys + Touched(stored)), inp.packs)
  }

  function BatchOf(b: Batches, d: Date): Batch { if d in b then b[d] else NEW_BATCH }

  function WithList(b: Batches, inp: Inputs, d: Date, needs: map<Id, int>): Batches {
    b[d := BatchOf(b, d).(lines := LinesAfter(b, inp, d, needs), failed := false)]
  }

  /** The batches after computing d: its list is replaced, or the batch is
      marked failed and keeps its list. */
  function Recomputed(b: Batches, inp: Inputs, d: Date): Batches {
    match inp.NeedsOf(d)
    case Known(needs) => WithList(b, inp, d, needs)
    case Broken => b[d := BatchOf(b, d).(failed := true)]
  }

  /** Computing dates one after the other. */
  function RecomputedAll(b: Batches, inp: Inputs, ds: seq<Date>): Batches {
    if ds == [] then b
    else Recomputed(RecomputedAll(b, inp, ds[..|ds| - 1]), inp, ds[|ds| - 1])
  }

  /** The dates from d on whose batch is not done. */
  function Upcoming(b: Batches, d: Date): set<Date> { set e | e in NotDone(b) && d <= e }

  /** How many of the dates can be computed, and which cannot, in order. */
  function Successes(inp: Inputs, ds: seq<Date>): nat {
    if ds == [] then 0
    else Successes(inp, ds[..|ds| - 1]) + if inp.NeedsOf(ds[|ds| - 1]).Known? then 1 else 0
  }

  function Failures(inp: Inputs, ds: seq<Date>): seq<Date> {
    if ds == [] then []
    else Failures(inp, ds[..|ds| - 1]) + if inp.NeedsOf(ds[|ds| - 1]).Broken? then [ds[|ds| - 1]] else []
  }

  /** Every date that cannot be computed is reported, and the others are counted. */
  lemma {:induction false} FailuresAreReported(inp: Inputs, ds: seq<Date>, d: Date)
    ensures d in Failures(inp, ds) <==> d in ds && inp.NeedsOf(d).Broken?
    ensures Successes(inp, ds) + |Failures(inp, ds)| == |ds|
  {
    if ds != [] {
      var front, last := ds[..|ds| - 1], ds[|ds| - 1];
      FailuresAreReported(inp, front, d);
      assert d in ds <==> d in front || d == last;
    }
  }

  class Engine {
    var batches: Batches

    constructor ()
      ensures batches == map[]
    {
      batches := map[];
    }

    /** One computation, in one transaction: a broken recipe rolls it back, and
        then marks the batch failed. */
    method Recompute(inp: Inputs, date: Date) returns (ok: bool)
      modifies this
      ensures batches == Recomputed(old(batches), inp, date)
      ensures ok <==> inp.NeedsOf(date).Known?
    {
      var before := batches;
      EnsureBatch(date);
      var read := ReadNeeds(inp.ItemsOn(date), inp.catalog);
      match read
      case Broken =>
        batches := before;
        MarkFailed(date);
        ok := false;
      case Known(needs) =>
        SaveList(inp, date, needs);
        ComputedOverTheStoredList(before, inp, date, needs);
        ok := true;
    }

    /** Replaces the list of a batch by the computed one. */
    method SaveList(inp: Inputs, date: Date, needs: map<Id, int>)
      requires date in batches
      modifies this
      ensures batches == WithList(old(batches), inp, date, needs)
    {
      var rows := ComputeList(inp, date, needs, batches[date].lines);
      batches := batches[date := batches[date].(lines := rows, failed := false)];
    }

    /** Level 3 of a batch, over its stored list. */
    method ComputeList(inp: Inputs, date: Date, needs: map<Id, int>, existing: Lines) returns (rows: Lines)
      ensures var free := FreeOf(batches, inp, date, needs.Keys + Touched(existing));
              rows == Rebuilt(existing, needs, free, inp.packs)
    {
      var stock := FreeStock(inp, date, needs.Keys + existing.Keys);
      var lines := Shop(needs, stock, existing, inp.packs);
      rows := SaveResult(existing, lines);
      OtherStockDoesNotMatter(existing, needs, stock,
        FreeOf(batches, inp, date, needs.Keys + Touched(existing)), inp.packs);
    }

    method EnsureBatch(date: Date)
      modifies this
      ensures batches == Ensured(old(batches), date)
    {
      if date !in batches {
        batches := batches[date := NEW_BATCH];
      }
    }

    method MarkFailed(date: Date)
      modifies this
      ensures batches == old(batches)[date := BatchOf(old(batches), date).(failed := true)]
    {
      batches := batches[date := BatchOf(batches, date).(failed := true)];
    }

    /** What inventory says is usable, less what the earlier batches claim. */
    method FreeStock(inp: Inputs, date: Date, ids: set<Id>) returns (out: map<Id, int>)
      ensures out == FreeOf(batches, inp, date, ids)
    {
      var usable := Usable(inp.lots, inp.policies, date, inp.now);
      out := map[];
      var todo := ids;
      while todo != {}
        invariant todo <= ids
        invariant out.Keys == ids - todo
        invariant forall g :: g in out ==> out[g] == FreeFor(batches, inp, date, g)
        decreases todo
      {
        var g :| g in todo;
        todo := todo - {g};
        out := out[g := Max(Get(usable, g) - ClaimedBefore(batches, date, g), 0)];
      }
    }

    /** Computes the dates in turn; a failing one does not stop the others. */
    method RecomputeAll(inp: Inputs, dates: seq<Date>) returns (n: nat, failed: seq<Date>)
      modifies this
      ensures batches == RecomputedAll(old(batches), inp, dates)
      ensures n == Successes(inp, dates) && failed == Failures(inp, dates)
    {
      n, failed := 0, [];
      for i := 0 to |dates|
        invariant batches == RecomputedAll(old(batches), inp, dates[..i])
        invariant n == Successes(inp, dates[..i]) && failed == Failures(inp, dates[..i])
      {
        assert dates[..i + 1][..i] == dates[..i];
        var ok := Recompute(inp, dates[i]);
        if !ok {
          failed := failed + [dates[i]];
          continue;
        }
        n := n + 1;
      }
      assert dates[..|dates|] == dates;
    }

    /** Computes a date, then every later batch that is not done. */
    method RecomputeFrom(inp: Inputs, date: Date) returns (n: nat, failed: seq<Date>)
      modifies this
      ensures var dates := Sorted(Upcoming(old(batches), date) + {date});
              && batches == RecomputedAll(old(batches), inp, dates)
              && n == Successes(inp, dates) && failed == Failures(inp, dates)
    {
      var dates := Sorted(Upcoming(batches, date));
      DateFirst(batches, date);
      if |dates| == 0 || dates[0] != date {
        dates := [date] + dates;
      }
      n, failed := RecomputeAll(inp, dates);
    }

    /** Computes every batch from today on that is not done. */
    method RecomputeUpcoming(inp: Inputs) returns (n: nat, failed: seq<Date>)
      modifies this
      ensures var dates := Sorted(Upcoming(old(batches), DateOf(inp.now)));
              && batches == RecomputedAll(old(batches), inp, dates)
              && n == Successes(inp, dates) && failed == Failures(inp, dates)
    {
      n, failed := RecomputeAll(inp, Sorted(Upcoming(batches, DateOf(inp.now))));
    }
  }

  function Ensured(b: Batches, date: Date): Batches { if date in b then b else b[date := NEW_BATCH] }

  /** Making sure the batch is there changes nothing it is computed from. */
  lemma ComputedOverTheStoredList(b: Batches, inp: Inputs, date: Date, needs: map<Id, int>)
    ensures WithList(Ensured(b, date), inp, date, needs) == WithList(b, inp, date, needs)
  {
    var c := Ensured(b, date);
    assert LinesOf(c, date) == LinesOf(b, date);
    EarlierBatchesDecide(b, c, inp, date, needs.Keys + Touched(LinesOf(b, date)));
    assert BatchOf(c, date) == BatchOf(b, date);
  }

  /** Putting a date before the later ones lists them all in order. */
  lemma DateFirst(b: Batches, date: Date)
    ensures Sorted(Upcoming(b, date) + {date})
         == (var dates := Sorted(Upcoming(b, date));
             if |dates| == 0 || dates[0] != date then [date] + dates else dates)
  {
    var upcoming := Upcoming(b, date);
    var dates := Sorted(upcoming);
    SortedLists(upcoming);
    if date in upcoming {
      assert upcoming + {date} == upcoming;
      assert date in dates;
      assert dates[0] in dates;
    } else {
      assert date !in dates;
      assert upcoming + {date} == {date} + upcoming;
      SortedLists({date} + upcoming);
      Joined([date], {date}, dates, upcoming);
      SortedOnlyOneWay(Sorted({date} + upcoming), [date] + dates, {date} + upcoming);
    }
  }

  lemma ClaimsTogether(b: Batches, ds: seq<Date>, es: seq<Date>, g: Id)
    ensures Sum(Claims(b, ds + es, g)) == Sum(Claims(b, ds, g)) + Sum(Claims(b, es, g))
  {
    assert Claims(b, ds + es, g) == Claims(b, ds, g) + Claims(b, es, g);
    SumConcat(Claims(b, ds, g), Claims(b, es, g));
  }

  /** What was claimed before a date depends only on the earlier batches. */
  lemma EarlierClaimsDecide(b: Batches, c: Batches, d: Date, g: Id)
    requires forall e :: e < d ==> (e in b <==> e in c) && (e in b ==> b[e] == c[e])
    ensures ClaimedBefore(b, d, g) == ClaimedBefore(c, d, g)
  {
    assert Before(b, d) == Before(c, d);
    SortedLists(Before(b, d));
    var ds := Sorted(Before(b, d));
    forall i | 0 <= i < |ds| ensures Claim(b, ds[i], g) == Claim(c, ds[i], g) {
      assert ds[i] in ds;
    }
    assert Claims(b, ds, g) == Claims(c, ds, g);
  }

  lemma EarlierBatchesDecide(b: Batches, c: Batches, inp: Inputs, d: Date, ids: set<Id>)
    requires forall e :: e < d ==> (e in b <==> e in c) && (e in b ==> b[e] == c[e])
    ensures FreeOf(b, inp, d, ids) == FreeOf(c, inp, d, ids)
  {
    forall g | g in ids ensures ClaimedBefore(b, d, g) == ClaimedBefore(c, d, g) {
      EarlierClaimsDecide(b, c, d, g);
    }
  }
}
