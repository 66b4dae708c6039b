/** Sets of dates in date order, as the queries return them. */
module Dates {
  import opened Clock

  ghost predicate Ascending(ds: seq<Date>) {
    forall i, j :: 0 <= i < j < |ds| ==> ds[i] < ds[j]
  }

  ghost predicate Lists(ds: seq<Date>, s: set<Date>) {
    forall d :: d in ds <==> d in s
  }

  predicate Latest(m: Date, s: set<Date>) { m in s && forall d :: d in s ==> d <= m }

  lemma {:induction false} HasLatest(s: set<Date>, x: Date)
    requires x in s
    ensures exists m :: Latest(m, s)
    decreases |s|
  {
    var rest := s - {x};
    assert s == rest + {x};
    if y :| y in rest {
      HasLatest(rest, y);
      var m :| Latest(m, rest);
      LatestWithOneMore(m, rest, x);
    } else {
      OnlyOne(s, x);
    }
  }

  lemma OnlyOne(s: set<Date>, x: Date)
    requires x in s && forall d :: d !in s - {x}
    ensures Latest(x, s)
  {
    forall d | d in s ensures d <= x {
      assert d !in s - {x};
    }
  }

  lemma LatestWithOneMore(m: Date, rest: set<Date>, x: Date)
    requires Latest(m, rest)
    ensures Latest(if m < x then x else m, rest + {x})
  {
  }

  lemma SomeLatest(s: set<Date>)
    ensures (exists d :: d in s) ==> exists m :: Latest(m, s)
  {
    if x :| x in s {
      HasLatest(s, x);
    }
  }

  function Sorted(s: set<Date>): (ds: seq<Date>)
    decreases |s|
  {
    SomeLatest(s);
    if exists d :: d in s then
      var m :| Latest(m, s);
      Sorted(s - {m}) + [m]
    else []
  }

  lemma {:induction false} SortedLists(s: set<Date>)
    ensures Lists(Sorted(s), s) && Ascending(Sorted(s))
    decreases |s|
  {
    SomeLatest(s);
    if exists d :: d in s {
      var m :| Latest(m, s);
      SortedLists(s - {m});
      ThenTheLatest(Sorted(s - {m}), s, m);
    }
  }

  lemma ThenTheLatest(front: seq<Date>, s: set<Date>, m: Date)
    requires Latest(m, s)
    requires Lists(front, s - {m}) && Ascending(front)
    ensures Lists(front + [m], s) && Ascending(front + [m])
  {
    forall d ensures d in front + [m] <==> d in s {
      assert d in front <==> d in s - {m};
    }
    forall i | 0 <= i < |front| ensures front[i] < m {
      assert front[i] in front;
    }
  }

  lemma FrontLists(ds: seq<Date>, s: set<Date>)
    requires ds != [] && Ascending(ds) && Lists(ds, s)
    ensures var m, front := ds[|ds| - 1], ds[..|ds| - 1];
            && ds == front + [m]
            && Ascending(front) && Lists(front, s - {m})
            && m in s && forall d :: d in s ==> d <= m
  {
  }

  /** Two ascending lists of the same dates are the same list. */
  lemma {:induction false} SortedOnlyOneWay(ds: seq<Date>, es: seq<Date>, s: set<Date>)
    requires Ascending(ds) && Ascending(es) && Lists(ds, s) && Lists(es, s)
    ensures ds == es
  {
    assert ds != [] ==> ds[0] in ds;
    assert es != [] ==> es[0] in es;
    if ds != [] && es != [] {
      FrontLists(ds, s);
      FrontLists(es, s);
      var m := ds[|ds| - 1];
      assert m == es[|es| - 1];
      SortedOnlyOneWay(ds[..|ds| - 1], es[..|es| - 1], s - {m});
    }
  }

  /** The dates before the i-th are the first i. */
  lemma SortedPrefix(s: set<Date>, i: nat)
    requires i < |Sorted(s)|
    ensures Sorted(set d | d in s && d < Sorted(s)[i]) == Sorted(s)[..i]
  {
    var all := Sorted(s);
    var early := set d | d in s && d < all[i];
    SortedLists(s);
    SortedLists(early);
    forall d ensures d in all[..i] <==> d in early {
      if d in early {
        var k :| 0 <= k < |all| && all[k] == d;
        assert k < i;
      }
    }
    SortedOnlyOneWay(Sorted(early), all[..i], early);
  }

  /** Dates that all come before others are listed first. */
  lemma SortedSplit(early: set<Date>, late: set<Date>)
    requires forall d, e :: d in early && e in late ==> d < e
    ensures Sorted(early + late) == Sorted(early) + Sorted(late)
  {
    SortedLists(early);
    SortedLists(late);
    SortedLists(early + late);
    Joined(Sorted(early), early, Sorted(late), late);
    SortedOnlyOneWay(Sorted(early + late), Sorted(early) + Sorted(late), early + late);
  }

  lemma Joined(a: seq<Date>, early: set<Date>, b: seq<Date>, late: set<Date>)
    requires Ascending(a) && Ascending(b) && Lists(a, early) && Lists(b, late)
    requires forall d, e :: d in early && e in late ==> d < e
    ensures Ascending(a + b) && Lists(a + b, early + late)
  {
    forall i, j | 0 <= i < |a| && 0 <= j < |b| ensures a[i] < b[j] {
      assert a[i] in a && b[j] in b;
    }
    forall i, j | 0 <= i < j < |a + b| ensures (a + b)[i] < (a + b)[j] {
    }
  }

  lemma OneDateIsListed(date: Date)
    ensures Sorted({date}) == [date]
  {
    SortedLists({date});
    SortedOnlyOneWay(Sorted({date}), [date], {date});
  }

  /** A date between others is listed between them. */
  lemma ListedBetween(early: set<Date>, date: Date, late: set<Date>)
    requires forall d :: d in early ==> d < date
    requires forall d :: d in late ==> date < d
    ensures Sorted(early + late) == Sorted(early) + Sorted(late)
    ensures Sorted(early + ({date} + late)) == Sorted(early) + ([date] + Sorted(late))
  {
    SortedSplit(early, late);
    OneDateIsListed(date);
    SortedSplit({date}, late);
    SortedSplit(early, {date} + late);
  }
}
