/** The inventory service (internal/inventory/service.go): what the kitchen and
    the delivery and production modules do to the stock. */
module Inventory {
  import opened Base
  import opened Clock
  import opened Stock
  import opened Ledger
  import opened Requests
  import opened Stockroom
  import opened StockView
  import opened Consumption
  import Fifo

  datatype CheckOutcome = Checked | NotFound | LotEmpty | LotExpired

  datatype Ingredient = Ingredient(policy: Policy, shelfLife: Option<int>)

  datatype Delivery = Delivery(
    key: Option<Id>, ingredient: Id, qty: int, receivedAt: Option<Instant>, expiresAt: Option<Instant>)

  const MAX_QTY := 100_000_000
  const RECEIVED_WITHIN := 30 * DAY

  function Expiry(i: Ingredient, receivedAt: Instant, given: Option<Instant>): Option<Instant> {
    if given.Some? then given
    else if i.shelfLife.None? then None
    else Some(receivedAt + i.shelfLife.value * DAY)
  }

  /** A perishable delivery counts as looked at when it arrived. */
  function FirstCheck(id: Id, row: LotRow, policy: Policy): seq<Check> {
    if policy == Confirm then [Check(id, true, row.receivedAt)] else []
  }

  /** What arrived for one item of a purchase order. */
  datatype Came = Came(ingredient: Id, qty: int, expiresAt: Option<Instant>)

  /** Whether the stock takes it. */
  predicate Receivable(c: Came, at: Instant, ingredients: map<Id, Ingredient>) {
    && c.ingredient in ingredients && 0 < c.qty <= MAX_QTY
    && (c.expiresAt.Some? ==> c.expiresAt.value > at)
  }

  function ShelfLifeOf(g: Id, ingredients: map<Id, Ingredient>): Ingredient {
    if g in ingredients then ingredients[g] else Ingredient(Never, None)
  }

  /** The lot it becomes. */
  function CameRow(c: Came, at: Instant, ingredients: map<Id, Ingredient>): LotRow {
    LotRow(c.ingredient, at, Expiry(ShelfLifeOf(c.ingredient, ingredients), at, c.expiresAt), Available)
  }

  function CameCheck(c: Came, id: Id, at: Instant, ingredients: map<Id, Ingredient>): seq<Check> {
    FirstCheck(id, CameRow(c, at, ingredients), ShelfLifeOf(c.ingredient, ingredients).policy)
  }

  /** The newest listed lot that is available. */
  function NewestOf(order: seq<Id>, lots: Lots): Option<Id>
    requires forall id :: id in order ==> id in lots
  {
    if order == [] then None
    else if lots[order[|order| - 1]].status == Available then Some(order[|order| - 1])
    else NewestOf(order[..|order| - 1], lots)
  }

  lemma {:induction false} NewestIsListed(order: seq<Id>, lots: Lots)
    requires forall id :: id in order ==> id in lots
    ensures var target := NewestOf(order, lots);
            target.Some? ==> target.value in order && lots[target.value].status == Available
  {
    if order != [] {
      NewestIsListed(order[..|order| - 1], lots);
    }
  }

  /** It is the available lot that came last. */
  lemma {:induction false} NewestCameLast(order: seq<Id>, lots: Lots, i: nat)
    requires forall id :: id in order ==> id in lots
    requires OldestFirst(order, lots)
    requires i < |order| && lots[order[i]].status == Available
    ensures var target := NewestOf(order, lots);
            && target.Some? && target.value in order && lots[target.value].status == Available
            && lots[order[i]].receivedAt <= lots[target.value].receivedAt
            && (lots[order[i]].receivedAt == lots[target.value].receivedAt ==> order[i] <= target.value)
  {
    var last := |order| - 1;
    NewestIsListed(order, lots);
    if lots[order[last]].status == Available {
      assert i < last ==> Older(lots, order[i], order[last]);
    } else {
      NewestCameLast(order[..last], lots, i);
    }
  }

  /** When a lot stops being good: as the delivery says, or when its shelf life of
      whole days is over, or never. */
  lemma ExpiryIs(i: Ingredient, receivedAt: Instant, given: Option<Instant>)
    ensures given.Some? ==> Expiry(i, receivedAt, given) == given
    ensures given.None? && i.shelfLife.None? ==> Expiry(i, receivedAt, given).None?
    ensures given.None? && i.shelfLife.Some? ==>
              Expiry(i, receivedAt, given) == Some(receivedAt + 24 * i.shelfLife.value * HOUR)
  {
  }

  /** The stock refuses what it does not know, no quantity or more than a hundred
      million, and what is past its expiry when it arrives. What it takes becomes an
      available lot as of its arrival, and one that perishes counts as looked at. */
  lemma ReceivableExactlyWhen(c: Came, at: Instant, ingredients: map<Id, Ingredient>, id: Id)
    ensures !Receivable(c, at, ingredients) <==>
              || c.ingredient !in ingredients || c.qty <= 0 || c.qty > 100_000_000
              || (c.expiresAt.Some? && c.expiresAt.value <= at)
    ensures Receivable(c, at, ingredients) ==>
              var i := ingredients[c.ingredient];
              && CameRow(c, at, ingredients) == LotRow(c.ingredient, at, Expiry(i, at, c.expiresAt), Available)
              && CameCheck(c, id, at, ingredients) == if i.policy == Confirm then [Check(id, true, at)] else []
  {
  }

  /** The recorded total; an overdrawn lot would count as empty. */
  method Total(bs: seq<int>) returns (total: int)
    requires Fifo.NonNegative(bs)
    ensures total == Sum(bs)
  {
    total := 0;
    for i := 0 to |bs|
      invariant total == Sum(bs[..i])
    {
      SumOneMore(bs, i);
      total := total + Max(bs[i], 0);
    }
    assert bs[..|bs|] == bs;
  }

  /** The movements that make a recorded stock the counted one. */
  ghost function Correction(was: Lots, ms: seq<Movement>, order: seq<Id>, recorded: int, actual: nat, newId: Id)
    : (r: seq<Movement>)
    requires forall id :: id in order ==> id in was
  {
    if actual < recorded then Drained(ms, order, recorded - actual, Adjust)
    else if actual == recorded then ms
    else
      var target := NewestOf(order, was);
      ms + [Movement(if target.Some? then target.value else newId, Adjust, actual - recorded)]
  }

  /** The lots after a correction: the emptied ones are exhausted, or one is new. */
  ghost predicate Corrected(
      was: Lots, now: Lots, order: seq<Id>, after: seq<Movement>, recorded: int, actual: nat, newId: Id, row: LotRow,
      at: Instant)
    requires forall id :: id in order ==> id in was
  {
    if actual < recorded then MovedOn(was, now, EmptyOf(order, after), at)
    else if actual > recorded && NewestOf(order, was).None? then OneLotMore(was, now, newId, row, at)
    else MovedOn(was, now, {}, at)
  }

  /** A whole count, over the lots listed oldest first: the movements, the lots
      they leave, and the recorded stock. */
  ghost predicate CountedOver(
      order: seq<Id>, was: Lots, before: seq<Movement>, now: Lots, after: seq<Movement>, g: Id, actual: nat,
      newId: Id, row: LotRow, at: Instant)
  {
    && Listing(order, was, g, {Available, Expired})
    && after == Correction(was, before, order, Stocked(was, before, g), actual, newId)
    && Corrected(was, now, order, after, Stocked(was, before, g), actual, newId, row, at)
    && forall h: Id :: Stocked(now, after, h) == if h == g then actual else Stocked(was, before, h)
  }

  ghost predicate Counted(
      was: Lots, before: seq<Movement>, now: Lots, after: seq<Movement>, g: Id, actual: nat,
      newId: Id, row: LotRow, at: Instant)
  {
    exists order :: CountedOver(order, was, before, now, after, g, actual, newId, row, at)
  }

  /** What a count does: an ingredient's recorded stock becomes what was counted and
      no other's changes. Less comes out of lots of it that may hold something; more
      goes, as one movement, into the available lot that came last, or into the new one
      when there is none. */
  lemma CountedIs(
      was: Lots, before: seq<Movement>, now: Lots, after: seq<Movement>, g: Id, actual: nat,
      newId: Id, row: LotRow, at: Instant)
    requires Counted(was, before, now, after, g, actual, newId, row, at)
    ensures forall h: Id :: Stocked(now, after, h) == if h == g then actual else Stocked(was, before, h)
    ensures before <= after
    ensures actual <= Stocked(was, before, g) ==> OnlyLowered(was, before, after, g)
    ensures actual > Stocked(was, before, g) ==>
              && |after| == |before| + 1
              && var m := after[|before|];
                 && m.kind == Adjust && m.qty == actual - Stocked(was, before, g)
                 && if NoneAvailable(was, g) then m.lot == newId && newId in now && now[newId] == row
                    else ComesLast(was, m.lot, g)
  {
    var order :| CountedOver(order, was, before, now, after, g, actual, newId, row, at);
    var recorded := Stocked(was, before, g);
    if actual < recorded {
      LoweringOnlyLowers(order, was, before, recorded - actual, g);
    } else if actual > recorded {
      NewestOfListing(order, was, g);
    }
  }

  /** All that moved was taken out of lots of an ingredient that may hold something. */
  ghost predicate OnlyLowered(lots: Lots, before: seq<Movement>, after: seq<Movement>, g: Id) {
    forall i :: |before| <= i < |after| ==>
      && after[i].kind == Adjust && after[i].qty < 0 && after[i].lot in lots
      && lots[after[i].lot].ingredient == g && lots[after[i].lot].status in {Available, Expired}
  }

  lemma LoweringOnlyLowers(order: seq<Id>, lots: Lots, before: seq<Movement>, q: nat, g: Id)
    requires Listing(order, lots, g, {Available, Expired})
    ensures OnlyLowered(lots, before, Drained(before, order, q, Adjust), g)
  {
    var takes, after := Fifo.Takes(Balances(before, order), q), Drained(before, order, q, Adjust);
    DrainsAreOfListedLots(order, takes, Adjust);
    forall i | |before| <= i < |after|
      ensures after[i].kind == Adjust && after[i].qty < 0 && Listed(lots, after[i].lot, g, {Available, Expired})
    {
      assert after[i] in Drains(order, takes, Adjust);
    }
  }

  /** An available lot of an ingredient, none of which came later. */
  ghost predicate ComesLast(lots: Lots, id: Id, g: Id) {
    && Listed(lots, id, g, {Available})
    && forall x: Id :: Listed(lots, x, g, {Available}) ==>
         lots[x].receivedAt < lots[id].receivedAt || (lots[x].receivedAt == lots[id].receivedAt && x <= id)
  }

  lemma NewestOfListing(order: seq<Id>, lots: Lots, g: Id)
    requires Listing(order, lots, g, {Available, Expired})
    ensures NewestOf(order, lots).None? <==> NoneAvailable(lots, g)
    ensures NewestOf(order, lots).Some? ==> ComesLast(lots, NewestOf(order, lots).value, g)
  {
    NewestIsListed(order, lots);
    forall x: Id | Listed(lots, x, g, {Available})
      ensures NewestOf(order, lots).Some?
      ensures var id := NewestOf(order, lots).value;
              id in lots
              && (lots[x].receivedAt < lots[id].receivedAt || (lots[x].receivedAt == lots[id].receivedAt && x <= id))
    {
      assert Listed(lots, x, g, {Available, Expired});
      var i :| 0 <= i < |order| && order[i] == x;
      NewestCameLast(order, lots, i);
    }
    if NewestOf(order, lots).Some? {
      var id := NewestOf(order, lots).value;
      assert Listed(lots, id, g, {Available, Expired});
      assert Listed(lots, id, g, {Available});
    }
  }

  class Service {
    var lots: Lots
    var movements: seq<Movement>
    var checks: seq<Check>
    var requests: Table
    var clock: Instant

    ghost predicate Valid()
      reads this
    {
      Sound(lots, movements)
    }

    constructor (now: Instant)
      ensures Valid() && lots == map[] && movements == [] && checks == [] && requests == map[] && clock == now
    {
      lots, movements, checks, requests, clock := map[], [], [], map[], now;
    }

    /** The daily job: marks the available lots past their expiry and counts them. */
    method ExpireLots() returns (n: nat)
      requires Valid()
      modifies `lots
      ensures Valid() && lots == Expire(old(lots), clock)
      ensures n == |Expiring(old(lots), clock)|
    {
      n := |Expiring(lots, clock)|;
      ExpiringMovesOn(lots, clock);
      ExpiringKeepsSound(lots, Expire(lots, clock), movements, clock);
      lots := Expire(lots, clock);
    }

    /** Time passes between two statements of an action, and the daily job may
        run, for it takes no ingredient's lock. */
    method Meanwhile()
      modifies `lots, `clock
      ensures old(clock) <= clock && MovedOn(old(lots), lots, {}, clock)
    {
      var later: Instant := *;
      if later > clock {
        clock := later;
      }
      if * {
        ExpiringMovesOn(lots, clock);
        lots := Expire(lots, clock);
      }
    }

    /** Takes a quantity out of listed lots, oldest first, and marks the lots it
        empties. */
    method Drain(order: seq<Id>, q: nat, kind: Ledger.Kind) returns (remaining: nat)
      requires Valid() && Drainable(lots, order)
      modifies `lots, `movements, `clock
      ensures Valid() && old(clock) <= clock
      ensures movements == Drained(old(movements), order, q, kind)
      ensures remaining == q - Min(q, Sum(Balances(old(movements), order)))
      ensures MovedOn(old(lots), lots, EmptyOf(order, movements), clock)
    {
      SoundListsHold(lots, movements, order);
      ghost var emptied;
      remaining, emptied := TakeInOrder(order, Balances(movements, order), q, kind);
      DrainEmpties(old(movements), order, q, kind, |order|, emptied);
      DrainingKeepsSound(old(lots), lots, old(movements), order, q, kind, clock);
    }

    /** The loop over the lots; the balances are those the listing read. */
    method TakeInOrder(order: seq<Id>, bs: seq<int>, q: nat, kind: Ledger.Kind)
      returns (remaining: nat, ghost emptied: set<Id>)
      requires |bs| == |order| && Distinct(order) && forall k :: 0 <= k < |order| ==> order[k] in lots
      requires forall k :: 0 <= k < |bs| ==> bs[k] > 0
      modifies `lots, `movements, `clock
      ensures old(clock) <= clock
      ensures movements == old(movements) + Drains(order, Fifo.Takes(bs, q), kind)
      ensures remaining == q - Min(q, Sum(bs))
      ensures MovedOn(old(lots), lots, emptied, clock) && EmptiedSoFar(emptied, order, bs, Fifo.Takes(bs, q), |order|)
    {
      emptied := {};
      remaining := q;
      var i := 0;
      while i < |order| && remaining > 0
        invariant i <= |order| && old(clock) <= clock && forall k :: 0 <= k < |order| ==> order[k] in lots
        invariant Progress(old(movements), movements, order, bs, q, kind, i, remaining, emptied)
        invariant MovedOn(old(lots), lots, emptied, clock)
      {
        remaining, emptied := TakeNext(order, bs, q, kind, i, remaining, old(movements), old(lots), emptied);
        i := i + 1;
      }
      DrainEnds(bs, order, q, kind, i);
    }

    /** One lot of the loop. */
    method TakeNext(order: seq<Id>, bs: seq<int>, ghost q: nat, kind: Ledger.Kind, i: nat, remaining: nat,
                    ghost before: seq<Movement>, ghost was: Lots, ghost emptied: set<Id>)
      returns (rest: nat, ghost now: set<Id>)
      requires |bs| == |order| && Distinct(order) && i < |order| && order[i] in lots && bs[i] > 0
      requires Progress(before, movements, order, bs, q, kind, i, remaining, emptied)
      requires MovedOn(was, lots, emptied, clock)
      modifies `lots, `movements, `clock
      ensures Progress(before, movements, order, bs, q, kind, i + 1, rest, now)
      ensures old(clock) <= clock && MovedOn(was, lots, now, clock) && lots.Keys == old(lots).Keys
    {
      DrainOneMore(bs, order, q, kind, i, emptied);
      var take := Min(bs[i], remaining);
      rest, now := remaining, emptied;
      if take > 0 {
        now := TakeFrom(order[i], bs[i], take, kind, was, emptied);
        rest := remaining - take;
      }
    }

    /** Takes something out of one lot, and marks it when it is all there was. */
    method TakeFrom(id: Id, balance: int, take: int, kind: Ledger.Kind, ghost was: Lots, ghost emptied: set<Id>)
      returns (ghost now: set<Id>)
      requires id in lots && take > 0 && MovedOn(was, lots, emptied, clock)
      modifies `lots, `movements, `clock
      ensures movements == old(movements) + DrainOf(id, take, kind)
      ensures now == if take == balance then emptied + {id} else emptied
      ensures old(clock) <= clock && MovedOn(was, lots, now, clock)
    {
      movements := movements + [Movement(id, kind, -take)];
      Meanwhile();
      MovingOnTwice(was, old(lots), lots, emptied, {}, old(clock), clock);
      assert emptied + {} == emptied;
      now := emptied;
      if take == balance {
        now := emptied + {id};
        assert RowMovedOn(was[id], lots[id], id in emptied, clock);
        lots := lots[id := lots[id].(status := Exhausted)];
      }
    }

    // ----- Deliveries -----

    /** A delivery becomes a new lot; a perishable one counts as looked at. */
    method Intake(id: Id, row: LotRow, qty: int, policy: Policy)
      requires Valid() && id !in lots && row.status == Available && qty > 0
      modifies `lots, `movements, `checks, `clock
      ensures Valid() && old(clock) <= clock && OneLotMore(old(lots), lots, id, row, clock)
      ensures movements == old(movements) + [Movement(id, Ledger.Receive, qty)]
      ensures checks == old(checks) + FirstCheck(id, row, policy)
      ensures forall h: Id :: Stocked(lots, movements, h)
                           == old(Stocked(lots, movements, h)) + if row.ingredient == h then qty else 0
    {
      Meanwhile();
      AddLot(id, row, Ledger.Receive, qty, old(lots));
      if policy == Confirm {
        checks := checks + [Check(id, true, row.receivedAt)];
      }
    }

    /** Inserts a lot with what it holds. */
    method AddLot(id: Id, row: LotRow, kind: Ledger.Kind, qty: int, ghost was: Lots)
      requires id !in lots && row.status == Available && qty > 0
      requires Sound(was, movements) && MovedOn(was, lots, {}, clock)
      modifies `lots, `movements
      ensures Valid() && OneLotMore(was, lots, id, row, clock)
      ensures movements == old(movements) + [Movement(id, kind, qty)]
      ensures forall h: Id :: Stocked(lots, movements, h)
                           == Stocked(was, old(movements), h) + if row.ingredient == h then qty else 0
    {
      ExpiringKeepsSound(was, lots, movements, clock);
      forall h: Id { MovedOnLotsAreTheSame(was, lots, {}, clock, h); }
      NewLotIsSound(lots, movements, id, row, kind, qty);
      forall h: Id { NewLotAddsStock(lots, movements, id, row, kind, qty, h); }
      OneLotAdded(was, lots, id, row, clock);
      lots := lots[id := row];
      movements := movements + [Movement(id, kind, qty)];
    }

    /** Looks a key up before the request is checked against clock and catalogue. */
    method Retried(key: Key, body: string, actor: Id) returns (a: Answer)
      ensures a == Lookup(requests, key, body, actor)
    {
      a := if key !in requests then Unused
           else if SameRequest(requests[key], body, actor) then First(requests[key].result)
           else KeyReused;
    }

    /** Claims a key in a transaction; a key already held has no effect again. */
    method Claim(key: Key, body: string, actor: Id, result: Id) returns (a: Answer)
      modifies `requests
      ensures a == Lookup(old(requests), key, body, actor)
      ensures requests == Claimed(old(requests), key, Request(body, actor, result))
    {
      a := Retried(key, body, actor);
      if key !in requests {
        requests := requests[key := Request(body, actor, result)];
      }
    }

    function ReceivedAt(d: Delivery, now: Instant): Instant {
      if d.receivedAt.Some? then d.receivedAt.value else now
    }

    predicate Acceptable(d: Delivery, ingredients: map<Id, Ingredient>, now: Instant) {
      && d.key.Some? && d.ingredient in ingredients && 0 < d.qty <= MAX_QTY
      && now - RECEIVED_WITHIN <= ReceivedAt(d, now) <= now + 5 * MINUTE
      && (d.expiresAt.Some? ==> d.expiresAt.value > ReceivedAt(d, now))
    }

    /** A delivery is refused without a key, for an ingredient nobody knows or a
        quantity out of range, when it came more than 30 days ago or is more than 5
        minutes ahead, and when it was past its expiry as it came. */
    lemma RefusedExactlyWhen(d: Delivery, ingredients: map<Id, Ingredient>, now: Instant)
      ensures var at := if d.receivedAt.Some? then d.receivedAt.value else now;
              && (!Acceptable(d, ingredients, now) <==>
                    || d.key.None? || d.ingredient !in ingredients || d.qty <= 0 || d.qty > 100_000_000
                    || at + 30 * DAY < now || at > now + 5 * MINUTE
                    || (d.expiresAt.Some? && d.expiresAt.value <= at))
              && (Acceptable(d, ingredients, now) ==>
                    var i := ingredients[d.ingredient];
                    NewLot(d, i, now) == LotRow(d.ingredient, at, Expiry(i, at, d.expiresAt), Available))
    {
    }

    function NewLot(d: Delivery, i: Ingredient, now: Instant): LotRow {
      LotRow(d.ingredient, ReceivedAt(d, now), Expiry(i, ReceivedAt(d, now), d.expiresAt), Available)
    }

    /** What the unlocked lookup says; a missing key is left to validation. */
    function FirstLook(table: Table, kind: Requests.Kind, key: Option<Id>, body: string, actor: Id): Answer {
      if key.Some? then Lookup(table, Key(kind, key.value), body, actor) else Unused
    }

    /** A key that is given is looked up; without one, nothing is, and validation says
        what is missing. */
    lemma LooksUpWhatIsGiven(table: Table, kind: Requests.Kind, key: Option<Id>, body: string, actor: Id)
      ensures FirstLook(table, kind, key, body, actor)
           == match key
              case None => Unused
              case Some(id) => Lookup(table, Key(kind, id), body, actor)
    {
    }

    /** A delivery, once per key: a retry gets the first lot, whatever the clock or
        the catalogue say by then, and adds nothing. */
    method Receive(d: Delivery, body: string, actor: Id, ingredients: map<Id, Ingredient>, id: Id)
      returns (reply: Reply)
      requires Valid() && id !in lots
      modifies this
      ensures Valid()
      ensures var a := FirstLook(old(requests), ReceiveStock, d.key, body, actor);
              if !a.Unused? then reply == Answered(a) && unchanged(this)
              else if !Acceptable(d, ingredients, old(clock)) then reply == Rejected && unchanged(this)
              else
                && (requests, reply) == CommitOf(old(requests), Call(Key(ReceiveStock, d.key.value), body, actor, id))
                && reply == Result(id)
                && var row := NewLot(d, ingredients[d.ingredient], old(clock));
                && OneLotMore(old(lots), lots, id, row, clock)
                && movements == old(movements) + [Movement(id, Ledger.Receive, d.qty)]
                && checks == old(checks) + FirstCheck(id, row, ingredients[d.ingredient].policy)
                && (forall h: Id :: Stocked(lots, movements, h)
                                 == old(Stocked(lots, movements, h)) + if d.ingredient == h then d.qty else 0)
    {
      if d.key.Some? {
        var first := Retried(Key(ReceiveStock, d.key.value), body, actor);
        if !first.Unused? {
          return Answered(first);
        }
      }
      var now := clock;
      if !Acceptable(d, ingredients, now) {
        return Rejected;
      }
      reply := ReceiveTx(Call(Key(ReceiveStock, d.key.value), body, actor, id),
                         NewLot(d, ingredients[d.ingredient], now), d.qty, ingredients[d.ingredient].policy);
    }

    /** The transaction, a commit of the call: another with its key may have come first. */
    method ReceiveTx(call: Call, row: LotRow, qty: int, policy: Policy) returns (reply: Reply)
      requires Valid() && call.proposal !in lots && row.status == Available && qty > 0
      modifies this
      ensures Valid() && (requests, reply) == CommitOf(old(requests), call)
      ensures if call.key in old(requests) then unchanged(this)
              else
                && OneLotMore(old(lots), lots, call.proposal, row, clock)
                && movements == old(movements) + [Movement(call.proposal, Ledger.Receive, qty)]
                && checks == old(checks) + FirstCheck(call.proposal, row, policy)
                && (forall h: Id :: Stocked(lots, movements, h)
                                 == old(Stocked(lots, movements, h)) + if row.ingredient == h then qty else 0)
    {
      var first := Claim(call.key, call.body, call.actor, call.proposal);
      if !first.Unused? {
        return Answered(first);
      }
      Intake(call.proposal, row, qty, policy);
      reply := Result(call.proposal);
    }

    /** What a purchase order brought becomes a lot, in the caller's transaction. */
    method ReceiveOrdered(c: Came, at: Instant, ingredients: map<Id, Ingredient>, id: Id) returns (ok: bool)
      requires Valid() && id !in lots
      modifies `lots, `movements, `checks, `clock
      ensures Valid() && old(clock) <= clock
      ensures ok <==> Receivable(c, at, ingredients)
      ensures !ok ==> lots == old(lots) && movements == old(movements) && checks == old(checks) && clock == old(clock)
      ensures ok ==> OneLotMore(old(lots), lots, id, CameRow(c, at, ingredients), clock)
      ensures ok ==> movements == old(movements) + [Movement(id, Ledger.Receive, c.qty)]
      ensures ok ==> checks == old(checks) + CameCheck(c, id, at, ingredients)
      ensures forall h: Id :: Stocked(lots, movements, h)
                           == old(Stocked(lots, movements, h)) + if ok && c.ingredient == h then c.qty else 0
    {
      ok := Receivable(c, at, ingredients);
      if ok {
        Intake(id, CameRow(c, at, ingredients), c.qty, ingredients[c.ingredient].policy);
      }
    }

    /** A transaction that fails undoes its own writes; what the daily job marked
        meanwhile stays marked. */
    method Undo(ghost was: Lots, kept: set<Id>, ms: seq<Movement>, looks: seq<Check>)
      requires kept == was.Keys && Sound(was, ms)
      requires forall id :: id in was ==> id in lots && RowMovedOn(was[id], lots[id], false, clock)
      modifies `lots, `movements, `checks
      ensures Valid() && MovedOn(was, lots, {}, clock) && movements == ms && checks == looks
    {
      lots := map id | id in lots && id in kept :: lots[id];
      movements, checks := ms, looks;
      forall id | id in was ensures RowMovedOn(was[id], lots[id], id in {}, clock) {
        assert id in kept;
      }
      ExpiringKeepsSound(was, lots, movements, clock);
    }

    // ----- Looking at a lot -----

    /** The kitchen's look at a lot: only one that holds something can be looked
        at, an expired one cannot pass, and a bad one is thrown away whole. */
    method LookAt(id: Id, ok: bool) returns (r: CheckOutcome)
      requires Valid()
      modifies `lots, `movements, `checks, `clock
      ensures Valid() && old(clock) <= clock
      ensures r == NotFound <==> id !in old(lots)
      ensures r == LotEmpty <==> id in old(lots) && old(Balance(movements, id)) == 0
      ensures r == LotExpired ==> ok && id in lots && (lots[id].status == Expired || PastExpiry(lots[id], old(clock)))
      ensures r == Checked && ok ==> old(lots)[id].status == Available && !PastExpiry(old(lots)[id], old(clock))
      ensures checks == old(checks) + if r == Checked then [Check(id, ok, old(clock))] else []
      ensures r == Checked && !ok ==> id in lots && lots[id].status == Discarded && Balance(movements, id) == 0
      ensures if r == Checked && !ok then OneLotMore(old(lots), lots, id, lots[id], clock)
              else movements == old(movements) && MovedOn(old(lots), lots, {}, clock)
      ensures forall h: Id :: Stocked(lots, movements, h) == old(Stocked(lots, movements, h))
                - if r == Checked && !ok && old(lots)[id].ingredient == h then old(Balance(movements, id)) else 0
    {
      var now := clock;
      Meanwhile();
      ExpiringKeepsSound(old(lots), lots, movements, clock);
      forall h: Id { MovedOnLotsAreTheSame(old(lots), lots, {}, clock, h); }
      if id !in lots {
        return NotFound;
      }
      assert LotIsSound(lots, movements, id) && LotIsSound(old(lots), movements, id);
      assert RowMovedOn(old(lots)[id], lots[id], id in {}, clock);
      var balance := Balance(movements, id);
      if balance <= 0 || !MayHold(lots[id].status) {
        return LotEmpty;
      }
      if ok && (lots[id].status == Expired || PastExpiry(lots[id], now)) {
        return LotExpired;
      }
      checks := checks + [Check(id, ok, now)];
      r := Checked;
      PassTime(old(lots), old(clock));
      if !ok {
        Discard(id, balance, old(lots));
      }
    }

    /** Time passes once more in an action that has changed no lot yet. */
    method PassTime(ghost was: Lots, ghost since: Instant)
      requires Valid() && MovedOn(was, lots, {}, clock) && since <= clock
      modifies `lots, `clock
      ensures Valid() && MovedOn(was, lots, {}, clock) && since <= clock && old(clock) <= clock
      ensures forall h: Id :: Stocked(lots, movements, h) == old(Stocked(lots, movements, h))
    {
      Meanwhile();
      ExpiringKeepsSound(old(lots), lots, movements, clock);
      ghost var none: set<Id> := {};
      MovingOnTwice(was, old(lots), lots, none, none, old(clock), clock);
      assert none + none == none;
      forall h: Id { MovedOnLotsAreTheSame(old(lots), lots, {}, clock, h); }
    }

    /** Throws away all a lot holds. */
    method Discard(id: Id, balance: int, ghost was: Lots)
      requires Valid() && id in lots && balance == Balance(movements, id) && MovedOn(was, lots, {}, clock)
      modifies `lots, `movements
      ensures Valid() && OneLotMore(was, lots, id, was[id].(status := Discarded), clock)
      ensures Balance(movements, id) == 0
      ensures forall h: Id :: Stocked(lots, movements, h)
                           == old(Stocked(lots, movements, h)) - if was[id].ingredient == h then balance else 0
    {
      DiscardedLotIsSound(lots, movements, id);
      HeldOneMore(movements, Movement(id, Waste, -balance), {id});
      assert RowMovedOn(was[id], lots[id], false, clock);
      movements := movements + [Movement(id, Waste, -balance)];
      lots := lots[id := lots[id].(status := Discarded)];
      forall h: Id { RemarkedLotsAreTheSame(old(lots), id, Discarded, h); }
      forall h: Id { MovingChangesStock(old(lots), lots, old(movements), Movement(id, Waste, -balance), h); }
    }

    // ----- Counting -----

    /** The newest listed lot that is available and holds something. */
    method NewestAvailable(order: seq<Id>, seen: Lots) returns (target: Option<Id>)
      requires Sound(seen, movements) && forall id :: id in order ==> id in seen
      ensures target == NewestOf(order, seen)
    {
      var i := |order|;
      assert order[..i] == order;
      while i > 0
        invariant 0 <= i <= |order|
        invariant NewestOf(order, seen) == NewestOf(order[..i], seen)
      {
        i := i - 1;
        assert order[..i + 1][..i] == order[..i];
        assert order[i] in order && LotIsSound(seen, movements, order[i]);
        if seen[order[i]].status == Available && Balance(movements, order[i]) > 0 {
          return Some(order[i]);
        }
      }
      return None;
    }

    /** More was counted than recorded: the difference goes into the newest
        available lot, or into a new one when there is none. */
    method Raise(order: seq<Id>, g: Id, diff: int, newId: Id, row: LotRow)
      requires Valid() && newId !in lots && diff > 0 && row.status == Available && row.ingredient == g
      requires Listing(order, lots, g, {Available, Expired})
      modifies `lots, `movements, `clock
      ensures Valid() && old(clock) <= clock
      ensures var target := NewestOf(order, old(lots));
              && movements == old(movements) + [Movement(if target.Some? then target.value else newId, Adjust, diff)]
              && if target.Some? then MovedOn(old(lots), lots, {}, clock)
                 else OneLotMore(old(lots), lots, newId, row, clock)
      ensures forall h: Id :: Stocked(lots, movements, h)
                           == old(Stocked(lots, movements, h)) + if h == g then diff else 0
    {
      var target := NewestAvailable(order, lots);
      NewestIsListed(order, lots);
      Meanwhile();
      if target.None? {
        AddLot(newId, row, Adjust, diff, old(lots));
      } else {
        Add(target.value, diff, old(lots));
      }
    }

    /** Puts something more into a lot that holds something. */
    method Add(id: Id, diff: int, ghost was: Lots)
      requires Sound(was, movements) && MovedOn(was, lots, {}, clock)
      requires id in was && was[id].status == Available && diff > 0
      modifies `movements
      ensures Valid() && movements == old(movements) + [Movement(id, Adjust, diff)]
      ensures forall h: Id :: Stocked(lots, movements, h)
                           == Stocked(was, old(movements), h) + if was[id].ingredient == h then diff else 0
    {
      ExpiringKeepsSound(was, lots, movements, clock);
      assert RowMovedOn(was[id], lots[id], id in {}, clock);
      RaisedLotIsSound(lots, movements, id, Adjust, diff);
      forall h: Id { MovedOnLotsAreTheSame(was, lots, {}, clock, h); }
      forall h: Id { MovingChangesStock(was, lots, movements, Movement(id, Adjust, diff), h); }
      movements := movements + [Movement(id, Adjust, diff)];
    }

    /** Less was counted than recorded: the difference comes out of the oldest
        lots first. */
    method Lower(order: seq<Id>, g: Id, diff: nat)
      requires Valid() && Listing(order, lots, g, {Available, Expired}) && diff <= Sum(Balances(movements, order))
      modifies `lots, `movements, `clock
      ensures Valid() && old(clock) <= clock && movements == Drained(old(movements), order, diff, Adjust)
      ensures MovedOn(old(lots), lots, EmptyOf(order, movements), clock)
      ensures forall h: Id :: Stocked(lots, movements, h)
                           == old(Stocked(lots, movements, h)) - if h == g then diff else 0
    {
      ListingsAreDistinct(order, lots, g, {Available, Expired});
      var remaining := Drain(order, diff, Adjust);
      forall h: Id {
        DrainingOneIngredient(old(lots), old(movements), order, diff, Adjust, g, h);
      }
      forall h: Id {
        MovedOnLotsAreTheSame(old(lots), lots, EmptyOf(order, movements), clock, h);
      }
    }

    /** What the kitchen counted replaces what is recorded: less comes out of the
        oldest lots first, more goes in as one movement. */
    method CountStock(g: Id, actual: nat, newId: Id, row: LotRow)
      requires Valid() && newId !in lots && row.status == Available && row.ingredient == g
      modifies `lots, `movements, `clock
      ensures Valid() && old(clock) <= clock && old(movements) <= movements
      ensures Counted(old(lots), old(movements), lots, movements, g, actual, newId, row, clock)
    {
      var order := InOrder(lots, g, {Available, Expired});
      CountedTotal(order, g);
      var total := Total(Balances(movements, order));
      Correct(order, g, total, actual, newId, row);
      assert CountedOver(order, old(lots), old(movements), lots, movements, g, actual, newId, row, clock);
    }

    /** Makes the recorded stock of listed lots the counted one. */
    method Correct(order: seq<Id>, g: Id, recorded: int, actual: nat, newId: Id, row: LotRow)
      requires Valid() && newId !in lots && row.status == Available && row.ingredient == g
      requires Listing(order, lots, g, {Available, Expired}) && recorded == Sum(Balances(movements, order))
      modifies `lots, `movements, `clock
      ensures Valid() && old(clock) <= clock && old(movements) <= movements
      ensures movements == Correction(old(lots), old(movements), order, recorded, actual, newId)
      ensures Corrected(old(lots), lots, order, movements, recorded, actual, newId, row, clock)
      ensures forall h: Id :: Stocked(lots, movements, h)
                           == old(Stocked(lots, movements, h)) + if h == g then actual - recorded else 0
    {
      ghost var was, ms := lots, movements;
      if actual < recorded {
        Lower(order, g, recorded - actual);
        assert movements == Drained(ms, order, recorded - actual, Adjust);
        assert MovedOn(was, lots, EmptyOf(order, movements), clock);
      } else if actual > recorded {
        Raise(order, g, actual - recorded, newId, row);
      } else {
        assert MovedOn(lots, lots, {}, clock);
      }
    }

    lemma CountedTotal(order: seq<Id>, g: Id)
      requires Valid() && Listing(order, lots, g, {Available, Expired})
      ensures Fifo.NonNegative(Balances(movements, order))
      ensures Sum(Balances(movements, order)) == Stocked(lots, movements, g)
    {
      ListedHoldAll(lots, movements, order, g);
      ListingsAreDistinct(order, lots, g, {Available, Expired});
      SoundListsHold(lots, movements, order);
    }

    predicate AcceptableCount(key: Option<Id>, g: Id, ingredients: map<Id, Ingredient>, actual: int, reason: string) {
      key.Some? && g in ingredients && 0 <= actual <= MAX_QTY && reason != ""
    }

    function CountedRow(g: Id, ingredients: map<Id, Ingredient>, now: Instant): LotRow
      requires g in ingredients
    {
      LotRow(g, now, Expiry(ingredients[g], now, None), Available)
    }

    /** A count is refused without a key or a reason, for an ingredient nobody knows, and
        below nothing or above a hundred million. What it finds without a lot becomes
        one that arrives now and lasts its shelf life. */
    lemma CountRefusedExactlyWhen(
        key: Option<Id>, g: Id, ingredients: map<Id, Ingredient>, actual: int, reason: string, now: Instant)
      ensures !AcceptableCount(key, g, ingredients, actual, reason) <==>
                key.None? || g !in ingredients || actual < 0 || actual > 100_000_000 || |reason| == 0
      ensures g in ingredients ==>
                var days := ingredients[g].shelfLife;
                CountedRow(g, ingredients, now)
                  == LotRow(g, now, if days.Some? then Some(now + 24 * days.value * HOUR) else None, Available)
    {
    }

    /** A stock count, once per key: a retry changes nothing again, even when the
        stock has moved since. */
    method Count(key: Option<Id>, g: Id, actual: int, reason: string, body: string, actor: Id,
                 ingredients: map<Id, Ingredient>, newId: Id)
      returns (reply: Reply)
      requires Valid() && newId !in lots
      modifies this
      ensures Valid()
      ensures var a := FirstLook(old(requests), Requests.CountStock, key, body, actor);
              if !a.Unused? then reply == Answered(a) && unchanged(this)
              else if !AcceptableCount(key, g, ingredients, actual, reason) then reply == Rejected && unchanged(this)
              else
                && (requests, reply)
                    == CommitOf(old(requests), Call(Key(Requests.CountStock, key.value), body, actor, g))
                && reply == Result(g) && old(movements) <= movements && checks == old(checks)
                && Counted(old(lots), old(movements), lots, movements, g, actual, newId,
                           CountedRow(g, ingredients, old(clock)), clock)
    {
      if key.Some? {
        var first := Retried(Key(Requests.CountStock, key.value), body, actor);
        if !first.Unused? {
          return Answered(first);
        }
      }
      if !AcceptableCount(key, g, ingredients, actual, reason) {
        return Rejected;
      }
      var row := CountedRow(g, ingredients, clock);
      reply := CountTx(Call(Key(Requests.CountStock, key.value), body, actor, g), actual, newId, row);
    }

    /** The transaction, a commit of the call: another with its key may have come first. */
    method CountTx(call: Call, actual: nat, newId: Id, row: LotRow) returns (reply: Reply)
      requires Valid() && newId !in lots && row.status == Available && row.ingredient == call.proposal
      modifies this
      ensures Valid() && (requests, reply) == CommitOf(old(requests), call)
      ensures if call.key in old(requests) then unchanged(this)
              else
                && old(movements) <= movements && checks == old(checks)
                && Counted(old(lots), old(movements), lots, movements, call.proposal, actual, newId, row, clock)
    {
      var first := Claim(call.key, call.body, call.actor, call.proposal);
      if !first.Unused? {
        return Answered(first);
      }
      CountStock(call.proposal, actual, newId, row);
      reply := Result(call.proposal);
    }

    // ----- Consumption -----

    /** Takes what a batch used of one ingredient out of its available lots,
        oldest first; what they lack is missing, and then none is left. */
    method ConsumeOne(g: Id, q: nat) returns (used: Used, ghost order: seq<Id>)
      requires Valid()
      modifies `lots, `movements, `clock
      ensures Valid() && old(clock) <= clock
      ensures Listing(order, old(lots), g, {Available})
      ensures movements == Drained(old(movements), order, q, Ledger.Consume)
      ensures var taken := Min(q, Sum(Balances(old(movements), order))); used == Used(g, taken, q - taken)
      ensures 0 <= used.consumed && 0 <= used.missing
      ensures used.missing > 0 ==> NoneAvailable(lots, g)
      ensures NoneAvailable(old(lots), g) ==> used.consumed == 0
      ensures ConsumedFrom(old(lots), old(movements), lots, movements, clock)
      ensures forall h: Id :: Stocked(lots, movements, h)
                           == old(Stocked(lots, movements, h)) - if h == g then used.consumed else 0
    {
      var listed := InOrder(lots, g, {Available});
      order := listed;
      ListingsAreDistinct(order, lots, g, {Available});
      SoundListsHold(lots, movements, order);
      SumNonNegative(Balances(movements, order));
      NothingListed(lots, movements, order, g);
      var remaining := Drain(listed, q, Ledger.Consume);
      used := Used(g, q - remaining, remaining);
      if remaining > 0 {
        NoneIsLeft(old(lots), lots, old(movements), order, q, Ledger.Consume, g, clock);
      }
      DrainConsumes(old(lots), old(movements), lots, order, q, g, clock);
      forall h: Id {
        DrainingOneIngredient(old(lots), old(movements), order, q, Ledger.Consume, g, h);
      }
      forall h: Id {
        MovedOnLotsAreTheSame(old(lots), lots, EmptyOf(order, movements), clock, h);
      }
    }

    /** Takes what a finished batch used out of the stock: from available lots
        only, the oldest first, all that is asked or all there is, entry by entry.
        What it reports as consumed is just what the ledger lost. */
    method Consume(uses: seq<Use>) returns (out: seq<Used>)
      requires Valid()
      modifies `lots, `movements, `clock
      ensures Valid() && old(clock) <= clock
      ensures Accounts(uses, out)
      ensures ConsumedFrom(old(lots), old(movements), lots, movements, clock)
      ensures forall h: Id :: Stocked(lots, movements, h) == old(Stocked(lots, movements, h)) - ConsumedOf(out, h)
      ensures forall k :: 0 <= k < |out| && out[k].missing > 0 ==> NoneAvailable(lots, out[k].ingredient)
      ensures forall k :: 0 <= k < |out| ==> EntryTakesWhatIsLeft(old(lots), old(movements), clock, out, k)
      ensures forall h: Id ::
          ConsumesWhatThereIs(old(lots), old(movements), clock, h, UsesOf(uses, h), ConsumedOf(out, h))
    {
      out := [];
      NothingConsumed(lots, movements, clock);
      for i := 0 to |uses|
        invariant Valid() && old(clock) <= clock
        invariant Accounts(uses[..i], out) && Reported(out) && ShortStaysShort(out) && Short(out, lots)
        invariant ConsumedFrom(old(lots), old(movements), lots, movements, clock)
        invariant forall h: Id :: Stocked(lots, movements, h) == old(Stocked(lots, movements, h)) - ConsumedOf(out, h)
      {
        assert uses[..i + 1] == uses[..i] + [uses[i]];
        if uses[i].qty <= 0 {
          AccountsSkip(uses[..i], out, uses[i]);
          continue;
        }
        out := ConsumeNext(uses[..i], out, uses[i], old(lots), old(movements));
      }
      assert uses[..|uses|] == uses;
      ConsumedInAll(uses, out, old(lots), old(movements));
    }

    /** One use of a batch, after others. */
    method ConsumeNext(ghost uses: seq<Use>, out: seq<Used>, use: Use, ghost was: Lots, ghost before: seq<Movement>)
      returns (more: seq<Used>)
      requires Valid() && use.qty > 0
      requires Accounts(uses, out) && Reported(out) && ShortStaysShort(out) && Short(out, lots)
      requires ConsumedFrom(was, before, lots, movements, clock)
      modifies `lots, `movements, `clock
      ensures Valid() && old(clock) <= clock
      ensures Accounts(uses + [use], more) && Reported(more) && ShortStaysShort(more) && Short(more, lots)
      ensures ConsumedFrom(was, before, lots, movements, clock)
      ensures forall h: Id :: Stocked(lots, movements, h) - old(Stocked(lots, movements, h))
                           == ConsumedOf(out, h) - ConsumedOf(more, h)
    {
      var used;
      ghost var order;
      used, order := ConsumeOne(use.ingredient, use.qty);
      more := out + [used];
      AccountsOneMore(uses, out, use, used);
      ShortOneMore(out, used, old(lots), lots, clock);
      ConsumedTwice(was, before, old(lots), old(movements), lots, movements, old(clock), clock);
      assert more[..|out|] == out;
    }

    lemma ConsumedInAll(uses: seq<Use>, out: seq<Used>, was: Lots, before: seq<Movement>)
      requires Valid() && Sound(was, before) && ConsumedFrom(was, before, lots, movements, clock)
      requires Accounts(uses, out) && Reported(out) && ShortStaysShort(out) && Short(out, lots)
      requires forall h: Id :: Stocked(lots, movements, h) == Stocked(was, before, h) - ConsumedOf(out, h)
      ensures forall k :: 0 <= k < |out| ==> EntryTakesWhatIsLeft(was, before, clock, out, k)
      ensures forall h: Id :: ConsumesWhatThereIs(was, before, clock, h, UsesOf(uses, h), ConsumedOf(out, h))
    {
      forall h: Id
        ensures ConsumesWhatThereIs(was, before, clock, h, UsesOf(uses, h), ConsumedOf(out, h))
        ensures ConsumedOf(out, h) + MissingOf(out, h) == UsesOf(uses, h)
      {
        AccountsAddUp(uses, out, h);
        if MissingOf(out, h) > 0 {
          MissingSomewhere(out, h);
        }
        ConsumedIsWhatThereWas(was, before, lots, movements, clock, h, ConsumedOf(out, h), MissingOf(out, h));
      }
      forall k | 0 <= k < |out| ensures EntryTakesWhatIsLeft(was, before, clock, out, k) {
        EntriesTakeWhatIsLeft(was, before, clock, out, k);
      }
    }

    // ----- Reading -----

    /** What a batch made on a date may count on of some ingredients, as of now:
        what the lots that count hold. */
    method UsableStock(ids: set<Id>, policies: map<Id, Policy>, date: Date) returns (out: map<Id, int>)
      ensures forall g: Id :: g in ids ==>
          Get(out, g) == Held(movements, CountingOf(lots, movements, checks, policies, g, date, clock))
    {
      var order := AvailableLots(ids);
      out := Usable(SeenAll(order, lots, movements, checks), policies, date, clock);
      forall g: Id | g in ids
        ensures Get(out, g) == Held(movements, CountingOf(lots, movements, checks, policies, g, date, clock))
      {
        UsableOfAvailable(order, lots, movements, checks, policies, g, date, clock);
      }
    }

    /** The available lots of some ingredients, each once. */
    method AvailableLots(ids: set<Id>) returns (order: seq<Id>)
      ensures Distinct(order)
      ensures forall id :: id in order <==> id in lots && lots[id].status == Available && lots[id].ingredient in ids
    {
      order := [];
      var todo := ids;
      while todo != {}
        invariant todo <= ids && Distinct(order)
        invariant forall id :: id in order <==>
                    id in lots && lots[id].status == Available && lots[id].ingredient in ids - todo
        decreases |todo|
      {
        var g :| g in todo;
        todo := todo - {g};
        var more := InOrder(lots, g, {Available});
        ListingsAreDistinct(more, lots, g, {Available});
        BothDistinct(order, more);
        order := order + more;
      }
    }
  }

  lemma BothDistinct(a: seq<Id>, b: seq<Id>)
    requires Distinct(a) && Distinct(b) && forall id :: id in a ==> id !in b
    ensures Distinct(a + b)
  {
    forall i, j | 0 <= i < |a| && 0 <= j < |b| ensures a[i] != b[j] {
      assert a[i] in a && b[j] in b;
    }
  }
}
