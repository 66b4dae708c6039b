/** What allocation promised a batch is there on its day: a completed batch takes
    at least the stock it counted on. */
module ProductionLaws {
  import opened Base
  import opened Clock
  import opened Stock
  import opened Ledger
  import opened ShoppingList
  import opened Allocation
  import opened AllocationLaws
  import opened Stockroom
  import opened StockView
  import opened Consumption
  import Dates
  import Production

  lemma {:induction false} MoreLotsHoldMore(lots: Lots, ms: seq<Movement>, fewer: set<Id>, more: set<Id>)
    requires Sound(lots, ms) && fewer <= more <= lots.Keys
    ensures Held(ms, fewer) <= Held(ms, more)
    decreases |more|
  {
    if id :| id in more - fewer {
      MoreLotsHoldMore(lots, ms, fewer, more - {id});
      assert more == (more - {id}) + {id};
      HeldByOneMore(ms, id, more - {id});
      assert LotIsSound(lots, ms, id);
    } else {
      forall id | id in more ensures id in fewer {
        assert id !in more - fewer;
      }
      assert fewer == more;
    }
  }

  /** What counts for a day is available and does not expire before the day ends. */
  lemma CountingLotsLast(
      lots: Lots, ms: seq<Movement>, checks: seq<Check>, policies: map<Id, Policy>,
      g: Id, d: Date, now: Instant, at: Instant)
    requires at < At(d + 1, 0)
    ensures CountingOf(lots, ms, checks, policies, g, d, now) <= LastingOf(lots, g, at)
  {
    forall id | id in CountingOf(lots, ms, checks, policies, g, d, now) ensures id in LastingOf(lots, g, at) {
      assert Counts(Seen(lots, ms, checks, id), policies, g, d, now);
    }
  }

  /** An up-to-date list records what its batch needs. */
  lemma NeedsAreRecorded(b: Batches, inp: Inputs, d: Date, g: Id)
    requires d in b && UpToDate(b, inp, d)
    ensures Production.NeedOf(b[d].lines, g) == inp.NeedOf(d, g)
  {
    var needs, stored := inp.NeedsOf(d).qty, b[d].lines;
    assert stored == Recomputed(b, inp, d)[d].lines;
    RebuiltRow(stored, needs, FreeOf(b, inp, d, needs.Keys + Touched(stored)), inp.packs, g);
  }

  /** An up-to-date batch claims no more than it needs, nor than its day can use. */
  lemma ClaimsAreCovered(b: Batches, inp: Inputs, d: Date, g: Id)
    requires d in NotDone(b) && UpToDate(b, inp, d)
    ensures Claim(b, d, g) <= Production.NeedOf(b[d].lines, g)
    ensures Claim(b, d, g) <= Max(inp.UsableOn(d, g), 0)
  {
    NeedsAreRecorded(b, inp, d, g);
    ClaimWhenUpToDate(b, inp, d, g);
    SumNonNegative(Claims(b, Dates.Sorted(Before(b, d)), g));
  }

  lemma UsableLasts(
      inp: Inputs, d: Date, g: Id, ids: seq<Id>, lots: Lots, ms: seq<Movement>, checks: seq<Check>, at: Instant)
    requires Sound(lots, ms) && AllAvailable(ids, lots) && inp.lots == SeenAll(ids, lots, ms, checks)
    requires at < At(d + 1, 0)
    ensures 0 <= inp.UsableOn(d, g) <= Held(ms, LastingOf(lots, g, at))
  {
    UsableOfAvailable(ids, lots, ms, checks, inp.policies, g, d, inp.now);
    CountingLotsLast(lots, ms, checks, inp.policies, g, d, inp.now, at);
    MoreLotsHoldMore(lots, ms, CountingOf(lots, ms, checks, inp.policies, g, d, inp.now), LastingOf(lots, g, at));
    SoundLotsAreNotOverdrawn(lots, ms, CountingOf(lots, ms, checks, inp.policies, g, d, inp.now));
  }

  /** A batch that is up to date with the stock and completed by the end of its
      day consumes at least what it counted on: nothing it claimed expired, went
      to another batch, or was only on paper. */
  lemma CompletedBatchesGetTheirClaims(
      b: Batches, inp: Inputs, d: Date, g: Id, ids: seq<Id>, lots: Lots, ms: seq<Movement>, checks: seq<Check>,
      at: Instant, consumed: int)
    requires d in NotDone(b) && UpToDate(b, inp, d)
    requires Sound(lots, ms) && AllAvailable(ids, lots) && inp.lots == SeenAll(ids, lots, ms, checks)
    requires at < At(d + 1, 0)
    requires ConsumesWhatThereIs(lots, ms, at, g, Production.NeedOf(b[d].lines, g), consumed)
    ensures consumed >= Claim(b, d, g)
  {
    ClaimsAreCovered(b, inp, d, g);
    UsableLasts(inp, d, g, ids, lots, ms, checks, at);
  }

  // ----- One batch after the other -----

  /** The stock at a moment. */
  datatype Room = Room(lots: Lots, ms: seq<Movement>, at: Instant)

  ghost function StockOf(r: Room, g: Id): int { Stocked(r.lots, r.ms, g) }

  /** A completion of a batch by the end of its day, as the service promises it
      of each ingredient. */
  ghost predicate CompletedBy(b: Batches, d: Date, g: Id, was: Room, now: Room, took: int)
    requires d in b
  {
    && Sound(now.lots, now.ms) && was.at <= now.at < At(d + 1, 0)
    && ConsumedFrom(was.lots, was.ms, now.lots, now.ms, now.at)
    && ConsumesWhatThereIs(was.lots, was.ms, now.at, g, Production.NeedOf(b[d].lines, g), took)
    && StockOf(now, g) == StockOf(was, g) - took
  }

  /** The batches completed in date order, nothing else touching the stock. */
  ghost predicate CompletedInOrder(b: Batches, ds: seq<Date>, g: Id, rooms: seq<Room>, took: seq<int>) {
    && |rooms| == |ds| + 1 && |took| == |ds| && (forall i :: 0 <= i < |ds| ==> ds[i] in b)
    && Sound(rooms[0].lots, rooms[0].ms)
    && forall i :: 0 <= i < |ds| ==> CompletedBy(b, ds[i], g, rooms[i], rooms[i + 1], took[i])
  }

  lemma {:induction false} ConsumedSoFar(
      b: Batches, ds: seq<Date>, g: Id, rooms: seq<Room>, took: seq<int>, i: nat)
    requires CompletedInOrder(b, ds, g, rooms, took) && i <= |ds|
    ensures Sound(rooms[i].lots, rooms[i].ms)
    ensures ConsumedFrom(rooms[0].lots, rooms[0].ms, rooms[i].lots, rooms[i].ms, rooms[i].at)
    ensures StockOf(rooms[i], g) == StockOf(rooms[0], g) - Sum(took[..i])
  {
    if i == 0 {
      NothingConsumed(rooms[0].lots, rooms[0].ms, rooms[0].at);
    } else {
      ConsumedSoFar(b, ds, g, rooms, took, i - 1);
      assert CompletedBy(b, ds[i - 1], g, rooms[i - 1], rooms[i], took[i - 1]);
      ConsumedTwice(rooms[0].lots, rooms[0].ms, rooms[i - 1].lots, rooms[i - 1].ms, rooms[i].lots, rooms[i].ms,
                    rooms[i - 1].at, rooms[i].at);
      SumOneMore(took, i - 1);
    }
  }

  /** Some lots of an ingredient lose no more than all of them. */
  lemma SomeLoseNoMore(
      was: Lots, before: seq<Movement>, now: Lots, after: seq<Movement>, at: Instant, g: Id, some: set<Id>)
    requires ConsumedFrom(was, before, now, after, at) && some <= LotsOf(was, g)
    ensures Held(after, some) >= Held(before, some) - (Stocked(was, before, g) - Stocked(now, after, g))
  {
    AgedLotsAreTheSame(was, now, at, g);
    var ns := after[|before|..];
    assert after == before + ns;
    HeldConcat(before, ns, some);
    HeldConcat(before, ns, LotsOf(was, g));
    forall i | 0 <= i < |ns| ensures ns[i].qty < 0 {
      assert ns[i] == after[|before| + i];
    }
    TakenOutOf(ns, some, LotsOf(was, g));
  }

  /** Lots that count for a day are, on that day, available and lasting, or empty. */
  lemma CountingLotsAreLeft(
      was: Lots, now: Lots, after: seq<Movement>, earlier: Instant, at: Instant, g: Id, some: set<Id>)
    requires Aged(was, now, earlier) && earlier <= at && Sound(now, after) && some <= LastingOf(was, g, at)
    ensures Held(after, some) <= Held(after, LastingOf(now, g, at))
  {
    var left := set id | id in some && now[id].status == Available;
    var gone := some - left;
    forall id | id in some
      ensures id in now && (id in left ==> id in LastingOf(now, g, at)) && (id in gone ==> Balance(after, id) == 0)
    {
      assert RowAged(was[id], now[id], earlier) && LotIsSound(now, after, id);
    }
    EmptyLotsDoNotCount(after, left, gone);
    assert left + gone == some;
    MoreLotsHoldMore(now, after, left, LastingOf(now, g, at));
  }

  /** Taking what is needed, or at least what is left. */
  ghost predicate Takes(usable: int, need: int, earlier: int, took: int) {
    0 <= took <= need && took >= Min(need, usable - earlier)
  }

  /** Who takes what is needed, or at least what others left of a stock that falls,
      takes at least a greedy claim: whoever takes more than a claim has claimed
      all that was left, and nothing is left for later claims. */
  lemma TakersGetTheirClaims(usable: seq<int>, needs: seq<int>, claims: seq<int>, took: seq<int>, i: nat)
    requires Greedy(usable, needs, claims) && |took| == |claims| && i < |claims|
    requires forall j, k :: 0 <= j < k < |usable| ==> usable[k] <= usable[j]
    requires forall j :: 0 <= j < |took| ==> Takes(usable[j], needs[j], Sum(took[..j]), took[j])
    ensures took[i] >= claims[i]
  {
    forall j | 0 <= j < |took| ensures 0 <= took[j] <= needs[j] {
      assert Takes(usable[j], needs[j], Sum(took[..j]), took[j]);
    }
    if j :| 0 <= j < i && took[j] > claims[j] {
      SumOneMore(claims, j);
      assert Sum(claims[..j + 1]) >= usable[j];
      PrefixSumsGrow(claims, j + 1, i);
    } else {
      SumMonotone(took[..i], claims[..i]);
    }
  }

  lemma {:induction false} PrefixSumsGrow(claims: seq<int>, j: nat, i: nat)
    requires j <= i <= |claims| && forall k :: 0 <= k < |claims| ==> claims[k] >= 0
    ensures Sum(claims[..j]) <= Sum(claims[..i])
  {
    if j < i {
      PrefixSumsGrow(claims, j, i - 1);
      SumOneMore(claims, i - 1);
    }
  }

  /** What the earlier completions left of what a day could count on. */
  lemma LeftForItsDay(
      b: Batches, inp: Inputs, ds: seq<Date>, g: Id, ids: seq<Id>, checks: seq<Check>,
      rooms: seq<Room>, took: seq<int>, i: nat, at: Instant)
    requires CompletedInOrder(b, ds, g, rooms, took) && i < |ds| && rooms[i].at <= at < At(ds[i] + 1, 0)
    requires AllAvailable(ids, rooms[0].lots) && inp.lots == SeenAll(ids, rooms[0].lots, rooms[0].ms, checks)
    ensures Held(rooms[i].ms, LastingOf(rooms[i].lots, g, at)) >= inp.UsableOn(ds[i], g) - Sum(took[..i])
  {
    var first, was := rooms[0], rooms[i];
    var counting := CountingOf(first.lots, first.ms, checks, inp.policies, g, ds[i], inp.now);
    UsableOfAvailable(ids, first.lots, first.ms, checks, inp.policies, g, ds[i], inp.now);
    CountingLotsLast(first.lots, first.ms, checks, inp.policies, g, ds[i], inp.now, at);
    ConsumedSoFar(b, ds, g, rooms, took, i);
    SomeLoseNoMore(first.lots, first.ms, was.lots, was.ms, was.at, g, counting);
    CountingLotsAreLeft(first.lots, was.lots, was.ms, was.at, at, g, counting);
  }

  /** Each completion takes what is needed, or at least what is left for its day. */
  lemma TakesWhatIsLeft(
      b: Batches, inp: Inputs, ds: seq<Date>, g: Id, ids: seq<Id>, checks: seq<Check>,
      rooms: seq<Room>, took: seq<int>, i: nat)
    requires CompletedInOrder(b, ds, g, rooms, took) && i < |ds|
    requires AllAvailable(ids, rooms[0].lots) && inp.lots == SeenAll(ids, rooms[0].lots, rooms[0].ms, checks)
    ensures Takes(inp.UsableOn(ds[i], g), Production.NeedOf(b[ds[i]].lines, g), Sum(took[..i]), took[i])
  {
    var was, now := rooms[i], rooms[i + 1];
    assert CompletedBy(b, ds[i], g, was, now, took[i]);
    ConsumedSoFar(b, ds, g, rooms, took, i);
    LeftForItsDay(b, inp, ds, g, ids, checks, rooms, took, i, now.at);
    SoundLotsAreNotOverdrawn(was.lots, was.ms, LastingOf(was.lots, g, now.at));
  }

  /** When every batch is up to date with the stock, and they are completed in date
      order, each by the end of its day and with no computation between, every
      one of them consumes at least what it counted on. */
  lemma AllBatchesGetTheirClaims(
      b: Batches, inp: Inputs, g: Id, ids: seq<Id>, checks: seq<Check>, rooms: seq<Room>, took: seq<int>, i: nat)
    requires AllUpToDate(b, inp) && CompletedInOrder(b, Dates.Sorted(NotDone(b)), g, rooms, took)
    requires AllAvailable(ids, rooms[0].lots) && inp.lots == SeenAll(ids, rooms[0].lots, rooms[0].ms, checks)
    requires i < |Dates.Sorted(NotDone(b))|
    ensures took[i] >= Claim(b, Dates.Sorted(NotDone(b))[i], g)
  {
    var ds := Dates.Sorted(NotDone(b));
    var usable, needs := UsableBy(inp, ds, g), NeededBy(inp, ds, g);
    forall j | 0 <= j < |ds| ensures Takes(usable[j], needs[j], Sum(took[..j]), took[j]) {
      Dates.SortedLists(NotDone(b));
      assert ds[j] in ds;
      assert UpToDate(b, inp, ds[j]);
      NeedsAreRecorded(b, inp, ds[j], g);
      TakesWhatIsLeft(b, inp, ds, g, ids, checks, rooms, took, j);
    }
    UpToDateClaimsAreGreedy(b, inp, g);
    UsableFalls(inp, NotDone(b), g);
    TakersGetTheirClaims(usable, needs, Claims(b, ds, g), took, i);
  }
}
