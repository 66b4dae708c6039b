/** The lots as the other modules read them (internal/inventory/postgres/repo.go):
    each row with its balance, the sum of its movements, and its latest check
    that found it still good. */
module StockView {
  import opened Base
  import opened Clock
  import opened Stock
  import opened Ledger
  import opened Stockroom

  /** What the kitchen found when it looked at a lot. */
  datatype Check = Check(lot: Id, ok: bool, at: Instant)

  /** The latest of two times, when there is one. */
  function Latest(a: Option<Instant>, b: Instant): Option<Instant> {
    if a.Some? && a.value > b then a else Some(b)
  }

  /** When a lot was last found good. */
  function LastOK(checks: seq<Check>, id: Id): Option<Instant> {
    if checks == [] then None
    else
      var c, earlier := checks[|checks| - 1], LastOK(checks[..|checks| - 1], id);
      if c.lot == id && c.ok then Latest(earlier, c.at) else earlier
  }

  function Seen(lots: Lots, ms: seq<Movement>, checks: seq<Check>, id: Id): Lot
    requires id in lots
  {
    var l := lots[id];
    Lot(id, l.ingredient, l.receivedAt, l.expiresAt, l.status, Balance(ms, id), LastOK(checks, id))
  }

  function SeenAll(ids: seq<Id>, lots: Lots, ms: seq<Movement>, checks: seq<Check>): (r: seq<Lot>)
    requires forall id :: id in ids ==> id in lots
    ensures |r| == |ids|
  {
    seq(|ids|, i requires 0 <= i < |ids| => Seen(lots, ms, checks, ids[i]))
  }

  /** All the lots that are available, each once: what the query gives. */
  ghost predicate AllAvailable(ids: seq<Id>, lots: Lots) {
    Distinct(ids) && forall id :: id in ids <==> id in lots && lots[id].status == Available
  }

  /** The listed lots that count as stock of g. */
  ghost function Counting(
      ids: seq<Id>, lots: Lots, ms: seq<Movement>, checks: seq<Check>, policies: map<Id, Policy>,
      g: Id, date: Date, now: Instant): set<Id>
    requires forall id :: id in ids ==> id in lots
  {
    set id | id in ids && Counts(Seen(lots, ms, checks, id), policies, g, date, now)
  }

  /** What a batch may count on is what the lots that count hold: the sum of
      their movements. */
  lemma {:induction false} UsableIsHeld(
      ids: seq<Id>, lots: Lots, ms: seq<Movement>, checks: seq<Check>, policies: map<Id, Policy>,
      g: Id, date: Date, now: Instant)
    requires Distinct(ids) && forall id :: id in ids ==> id in lots
    ensures UsableOf(SeenAll(ids, lots, ms, checks), policies, g, date, now)
         == Held(ms, Counting(ids, lots, ms, checks, policies, g, date, now))
  {
    var counting := Counting(ids, lots, ms, checks, policies, g, date, now);
    if ids == [] {
      HeldByNone(ms);
      assert counting == {};
    } else {
      var id, rest := ids[0], ids[1..];
      UsableIsHeld(rest, lots, ms, checks, policies, g, date, now);
      var amounts := Amounts(SeenAll(ids, lots, ms, checks), policies, g, date, now);
      assert amounts[1..] == Amounts(SeenAll(rest, lots, ms, checks), policies, g, date, now);
      CountingOneMore(ids, lots, ms, checks, policies, g, date, now);
      var others := Counting(rest, lots, ms, checks, policies, g, date, now);
      assert id !in others;
      HeldByOneMore(ms, id, others);
      assert others + {} == others;
      assert amounts[0] == if Counts(Seen(lots, ms, checks, id), policies, g, date, now) then Balance(ms, id) else 0;
    }
  }

  lemma CountingOneMore(
      ids: seq<Id>, lots: Lots, ms: seq<Movement>, checks: seq<Check>, policies: map<Id, Policy>,
      g: Id, date: Date, now: Instant)
    requires ids != [] && forall id :: id in ids ==> id in lots
    ensures Counting(ids, lots, ms, checks, policies, g, date, now)
         == Counting(ids[1..], lots, ms, checks, policies, g, date, now)
            + if Counts(Seen(lots, ms, checks, ids[0]), policies, g, date, now) then {ids[0]} else {}
  {
    assert forall id :: id in ids <==> id == ids[0] || id in ids[1..];
  }

  /** All the lots that count as stock of g. */
  ghost function CountingOf(
      lots: Lots, ms: seq<Movement>, checks: seq<Check>, policies: map<Id, Policy>,
      g: Id, date: Date, now: Instant)
    : set<Id>
  {
    set id | id in lots && Counts(Seen(lots, ms, checks, id), policies, g, date, now)
  }

  /** A list of the available lots of g, with others or not, misses none that counts. */
  lemma UsableOfAvailable(
      ids: seq<Id>, lots: Lots, ms: seq<Movement>, checks: seq<Check>, policies: map<Id, Policy>,
      g: Id, date: Date, now: Instant)
    requires Distinct(ids) && forall id :: id in ids ==> id in lots
    requires forall id :: Listed(lots, id, g, {Available}) ==> id in ids
    ensures UsableOf(SeenAll(ids, lots, ms, checks), policies, g, date, now)
         == Held(ms, CountingOf(lots, ms, checks, policies, g, date, now))
  {
    UsableIsHeld(ids, lots, ms, checks, policies, g, date, now);
    forall id | id in CountingOf(lots, ms, checks, policies, g, date, now) ensures id in ids {
      assert Listed(lots, id, g, {Available});
    }
    assert Counting(ids, lots, ms, checks, policies, g, date, now)
        == CountingOf(lots, ms, checks, policies, g, date, now);
  }

  // ----- Checks -----

  lemma {:induction false} LastOKIsLatest(checks: seq<Check>, id: Id)
    ensures var last := LastOK(checks, id);
            && (last.None? <==> forall i :: 0 <= i < |checks| ==> !(checks[i].lot == id && checks[i].ok))
            && (last.Some? ==> Check(id, true, last.value) in checks)
            && (last.Some? ==>
                  forall i :: 0 <= i < |checks| && checks[i].lot == id && checks[i].ok ==> checks[i].at <= last.value)
  {
    if checks != [] {
      LastOKIsLatest(checks[..|checks| - 1], id);
      assert checks == checks[..|checks| - 1] + [checks[|checks| - 1]];
    }
  }

  /** After a check at `at` found a lot good, no older one later than it, a
      perishable lot counts for just the next 24 hours, while it is available,
      holds something and lasts the day. */
  lemma PassedCheckCountsForADay(
      lots: Lots, ms: seq<Movement>, checks: seq<Check>, id: Id, at: Instant, date: Date, now: Instant)
    requires id in lots && now >= at
    requires LastOK(checks, id).Some? ==> LastOK(checks, id).value <= at
    ensures var l := Seen(lots, ms, checks + [Check(id, true, at)], id);
            Countable(l, Confirm, date, now) <==>
              && l.status == Available && l.balance > 0
              && (l.expiresAt.None? || l.expiresAt.value >= At(date + 1, 0))
              && now <= at + 24 * HOUR
  {
    assert (checks + [Check(id, true, at)])[..|checks|] == checks;
  }

  lemma {:induction false} NeverChecked(checks: seq<Check>, id: Id)
    requires forall i :: 0 <= i < |checks| ==> checks[i].lot != id
    ensures LastOK(checks, id).None?
  {
    if checks != [] {
      NeverChecked(checks[..|checks| - 1], id);
    }
  }

  /** A fresh delivery counts at once, for every date it lasts, unless it is of an
      ingredient always bought fresh: a perishable one for the first 24 hours. */
  lemma FreshDeliveryCounts(
      lots: Lots, ms: seq<Movement>, checks: seq<Check>, id: Id, policy: Policy, date: Date, now: Instant)
    requires id in lots && lots[id].status == Available && Balance(ms, id) > 0 && lots[id].receivedAt <= now
    requires forall i :: 0 <= i < |checks| ==> checks[i].lot != id
    ensures var after := checks + if policy == Confirm then [Check(id, true, lots[id].receivedAt)] else [];
            Countable(Seen(lots, ms, after, id), policy, date, now) <==>
              && policy != Never
              && (lots[id].expiresAt.None? || lots[id].expiresAt.value >= At(date + 1, 0))
              && (policy == Confirm ==> now <= lots[id].receivedAt + 24 * HOUR)
  {
    NeverChecked(checks, id);
    if policy == Confirm {
      assert (checks + [Check(id, true, lots[id].receivedAt)])[..|checks|] == checks;
    } else {
      assert checks + [] == checks;
    }
  }
}
