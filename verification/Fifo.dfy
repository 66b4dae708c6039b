/** First in, first out: how a quantity is taken out of balances that are
    listed oldest first. Consumption, stock counts and the backing of claims
    all take stock this way. */
module Fifo {
  import opened Base

  /** What the oldest balance gives, when it holds anything. */
  function Take(b: int, q: nat): (t: nat)
    ensures t <= q
  {
    Max(Min(b, q), 0)
  }

  /** What is taken of each balance, oldest first. */
  function Takes(bs: seq<int>, q: nat): (ts: seq<int>)
    ensures |ts| == |bs|
  {
    if bs == [] then []
    else
      var take := Take(bs[0], q);
      [take] + Takes(bs[1..], q - take)
  }

  /** What each balance holds afterwards. */
  function Left(bs: seq<int>, q: nat): (ls: seq<int>)
    ensures |ls| == |bs|
  {
    if bs == [] then []
    else
      var take := Take(bs[0], q);
      [bs[0] - take] + Left(bs[1..], q - take)
  }

  ghost predicate NonNegative(bs: seq<int>) { forall i :: 0 <= i < |bs| ==> 0 <= bs[i] }

  /** The i-th balance gives min(b_i, max(q - older balances, 0)): nothing is
      taken from a younger lot while an older one still holds something. */
  lemma {:induction false} TakeIsWhatOlderLotsLack(bs: seq<int>, q: nat, i: nat)
    requires NonNegative(bs) && i < |bs|
    ensures Takes(bs, q)[i] == Min(bs[i], Max(q - Sum(bs[..i]), 0))
  {
    if i == 0 {
      assert bs[..0] == [];
    } else {
      var rest := bs[1..];
      var take := Take(bs[0], q);
      TakeIsWhatOlderLotsLack(rest, q - take, i - 1);
      assert bs[..i] == [bs[0]] + rest[..i - 1];
      SumNonNegative(rest[..i - 1]);
    }
  }

  lemma {:induction false} LeftIsWhatWasNotTaken(bs: seq<int>, q: nat, i: nat)
    requires i < |bs|
    ensures Left(bs, q)[i] == bs[i] - Takes(bs, q)[i]
  {
    if i > 0 {
      LeftIsWhatWasNotTaken(bs[1..], q - Take(bs[0], q), i - 1);
    }
  }

  /** All that can be taken is taken, and never more than was asked. */
  lemma {:induction false} TakesTotal(bs: seq<int>, q: nat)
    requires NonNegative(bs)
    ensures Sum(Takes(bs, q)) == Min(q, Sum(bs))
    ensures forall i :: 0 <= i < |bs| ==> 0 <= Takes(bs, q)[i] <= bs[i]
  {
    if bs != [] {
      SumNonNegative(bs[1..]);
      TakesTotal(bs[1..], q - Min(bs[0], q));
    }
  }

  /** The oldest balance is settled first, whatever follows it. */
  lemma LeftOldest(b: int, rest: seq<int>, q: nat)
    ensures Left([b] + rest, q) == [b - Take(b, q)] + Left(rest, q - Take(b, q))
  {
    assert ([b] + rest)[1..] == rest;
  }

  lemma TakeTwice(b: int, q1: nat, q2: nat)
    ensures var t1 := Take(b, q1);
            Take(b, q1 + q2) == t1 + Take(b - t1, q2)
  {
  }

  /** The oldest balance, taken from twice, whatever the others are left with. */
  lemma OldestTakenTwice(b: int, q1: nat, q2: nat, once: seq<int>, rest: seq<int>)
    requires var t1 := Take(b, q1);
             var t2 := Take(b - t1, q2);
             Left(once, q2 - t2) == Left(rest, q1 - t1 + (q2 - t2))
    ensures Left([b - Take(b, q1)] + once, q2) == Left([b] + rest, q1 + q2)
  {
    var t1 := Take(b, q1);
    TakeTwice(b, q1, q2);
    LeftOldest(b - t1, once, q2);
    LeftOldest(b, rest, q1 + q2);
  }

  /** Taking q1 and then q2 leaves every balance as taking q1 + q2 at once. */
  lemma {:induction false} TakingTwiceIsTakingOnce(bs: seq<int>, q1: nat, q2: nat)
    ensures Left(Left(bs, q1), q2) == Left(bs, q1 + q2)
  {
    if bs != [] {
      var b, rest := bs[0], bs[1..];
      var t1 := Take(b, q1);
      TakingTwiceIsTakingOnce(rest, q1 - t1, q2 - Take(b - t1, q2));
      OldestTakenTwice(b, q1, q2, Left(rest, q1 - t1), rest);
      assert bs == [b] + rest;
    }
  }

  /** Asked for all there is, every balance gives all it has. */
  lemma {:induction false} AllIsTaken(bs: seq<int>, q: nat, i: nat)
    requires NonNegative(bs) && Sum(bs) <= q && i < |bs|
    ensures Left(bs, q)[i] == 0
  {
    SumNonNegative(bs[1..]);
    if i > 0 {
      AllIsTaken(bs[1..], q - Take(bs[0], q), i - 1);
    }
  }
}
