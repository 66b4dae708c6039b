/** When an order can be picked up, and what its deadlines are
    (internal/scheduling/plan.go, suggest.go). */
module Scheduling {
  import opened Base
  import opened Clock

  datatype Settings = Settings(bufferHours: int, capacity: Option<int>, pickupStart: int, pickupEnd: int)

  datatype Item = Item(productionMinutes: int, noticeHours: int)

  datatype Request = Request(
    now: Instant, pickupAt: Instant, items: seq<Item>, closed: set<Date>, cutoffs: map<Date, Instant>,
    load: int, order: int, balanceHours: int, dpValidFor: int)

  datatype Plan = Plan(
    pickupAt: Instant, productionStart: Instant, productionDate: Date, cutoff: Instant,
    dpDeadline: Instant, balanceDue: Instant, fullPayment: bool)

  datatype Reason = TooFar | TooSoon | OutsideWindow | Closed | CutoffPassed | Full

  datatype Result = Accepted(plan: Plan) | Rejected(reason: Reason) | Malformed

  const MAX_ADVANCE := 365 * DAY
  const MIN_PAYMENT_WINDOW := 30 * MINUTE

  /** What the settings page accepts. */
  predicate ValidSettings(s: Settings) {
    && 0 <= s.bufferHours <= 168
    && (s.capacity.Some? ==> 1 <= s.capacity.value <= 1440)
    && 0 <= s.pickupStart < s.pickupEnd < 24 * 60
  }

  /** Several cakes are made side by side: the longest counts. */
  function Production(items: seq<Item>): int {
    if items == [] then 0 else Max(Production(items[..|items| - 1]), items[|items| - 1].productionMinutes)
  }

  function Notice(items: seq<Item>): int {
    if items == [] then 0 else Max(Notice(items[..|items| - 1]), items[|items| - 1].noticeHours)
  }

  predicate ValidItem(it: Item) { it.productionMinutes >= 1 && it.noticeHours >= 0 }

  predicate ValidRequest(r: Request) {
    && r.items != [] && (forall i :: 0 <= i < |r.items| ==> ValidItem(r.items[i]))
    && r.dpValidFor >= MIN_PAYMENT_WINDOW && r.balanceHours >= 0
  }

  function ProductionStart(r: Request): Instant { r.pickupAt - Production(r.items) * MINUTE }

  /** The batch's shopping cutoff with this order in it. */
  function Cutoff(s: Settings, r: Request): Instant {
    var own := ProductionStart(r) - s.bufferHours * HOUR;
    var date := DateOf(ProductionStart(r));
    if date in r.cutoffs then Min(own, r.cutoffs[date]) else own
  }

  /** The rules, most basic first. */
  function Verdict(s: Settings, r: Request): Option<Reason> {
    if r.pickupAt - r.now > MAX_ADVANCE then Some(TooFar)
    else if r.pickupAt < r.now + Notice(r.items) * HOUR then Some(TooSoon)
    else if TimeOfDay(r.pickupAt) < s.pickupStart || TimeOfDay(r.pickupAt) > s.pickupEnd then Some(OutsideWindow)
    else if DateOf(r.pickupAt) in r.closed || DateOf(ProductionStart(r)) in r.closed then Some(Closed)
    else if Cutoff(s, r) - r.now < MIN_PAYMENT_WINDOW then Some(CutoffPassed)
    else if s.capacity.Some? && r.load + r.order > s.capacity.value then Some(Full)
    else None
  }

  function PlanOf(s: Settings, r: Request): Result {
    if !ValidRequest(r) then Malformed
    else
      match Verdict(s, r)
      case Some(reason) => Rejected(reason)
      case None =>
        var start, cutoff := ProductionStart(r), Cutoff(s, r);
        var deadline := Min(r.now + r.dpValidFor, cutoff);
        var due := start - r.balanceHours * HOUR;
        Accepted(Plan(r.pickupAt, start, DateOf(start), cutoff, deadline, due, due <= deadline))
  }

  /** The longest cake and the longest notice of some items. */
  lemma {:induction false} TheLongestCounts(items: seq<Item>)
    requires items != [] && forall i :: 0 <= i < |items| ==> ValidItem(items[i])
    ensures forall i :: 0 <= i < |items| ==>
              items[i].productionMinutes <= Production(items) && items[i].noticeHours <= Notice(items)
    ensures exists i :: 0 <= i < |items| && items[i].productionMinutes == Production(items)
    ensures exists i :: 0 <= i < |items| && items[i].noticeHours == Notice(items)
  {
    var last := |items| - 1;
    if last > 0 {
      var front := items[..last];
      TheLongestCounts(front);
      var i :| 0 <= i < |front| && front[i].productionMinutes == Production(front);
      var j :| 0 <= j < |front| && front[j].noticeHours == Notice(front);
      assert items[i] == front[i] && items[j] == front[j];
    } else {
      assert items[..last] == [];
    }
    assert items[last].productionMinutes <= Production(items);
  }

  /** Production starts just early enough for every cake. */
  ghost predicate StartsFor(start: Instant, r: Request) {
    && (forall i :: 0 <= i < |r.items| ==> start + r.items[i].productionMinutes * MINUTE <= r.pickupAt)
    && exists i :: 0 <= i < |r.items| && start + r.items[i].productionMinutes * MINUTE == r.pickupAt
  }

  /** The shopping is done some hours before production, or when the batch's is. */
  ghost predicate CutsOff(cutoff: Instant, start: Instant, s: Settings, r: Request) {
    var own := start - s.bufferHours * HOUR;
    if DateOf(start) in r.cutoffs && r.cutoffs[DateOf(start)] < own then cutoff == r.cutoffs[DateOf(start)]
    else cutoff == own
  }

  /** What it means to break a rule, for a given start of production and cutoff. */
  ghost predicate Breaks(s: Settings, r: Request, start: Instant, cutoff: Instant, rule: Reason) {
    match rule
    case TooFar => r.pickupAt > r.now + 365 * DAY
    case TooSoon => exists i :: 0 <= i < |r.items| && r.pickupAt < r.now + r.items[i].noticeHours * HOUR
    case OutsideWindow => !(s.pickupStart <= TimeOfDay(r.pickupAt) <= s.pickupEnd)
    case Closed => DateOf(r.pickupAt) in r.closed || DateOf(start) in r.closed
    case CutoffPassed => cutoff < r.now + 30 * MINUTE
    case Full => s.capacity.Some? && r.load + r.order > s.capacity.value
  }

  function RuleNumber(rule: Reason): nat {
    match rule
    case TooFar => 0
    case TooSoon => 1
    case OutsideWindow => 2
    case Closed => 3
    case CutoffPassed => 4
    case Full => 5
  }

  /** A request is malformed without items, with an item that takes no time or has a
      negative notice, or with too short a time to pay. */
  lemma MalformedExactlyWhen(s: Settings, r: Request)
    ensures PlanOf(s, r) == Malformed <==>
              || r.items == []
              || r.dpValidFor < 30 * MINUTE || r.balanceHours < 0
              || exists i :: 0 <= i < |r.items| && (r.items[i].productionMinutes < 1 || r.items[i].noticeHours < 0)
  {
    if forall i :: 0 <= i < |r.items| ==> r.items[i].productionMinutes >= 1 && r.items[i].noticeHours >= 0 {
      assert forall i :: 0 <= i < |r.items| ==> ValidItem(r.items[i]);
    } else {
      var i :| 0 <= i < |r.items| && (r.items[i].productionMinutes < 1 || r.items[i].noticeHours < 0);
      assert !ValidItem(r.items[i]);
    }
  }

  lemma StartAndCutoff(s: Settings, r: Request)
    requires ValidRequest(r)
    ensures StartsFor(ProductionStart(r), r) && CutsOff(Cutoff(s, r), ProductionStart(r), s, r)
    ensures Breaks(s, r, ProductionStart(r), Cutoff(s, r), TooSoon) <==> r.pickupAt < r.now + Notice(r.items) * HOUR
  {
    TheLongestCounts(r.items);
    var i :| 0 <= i < |r.items| && r.items[i].productionMinutes == Production(r.items);
    assert ProductionStart(r) + r.items[i].productionMinutes * MINUTE == r.pickupAt;
    var j :| 0 <= j < |r.items| && r.items[j].noticeHours == Notice(r.items);
    assert r.items[j].noticeHours * HOUR == Notice(r.items) * HOUR;
  }

  /** A request that is well formed is planned just when it breaks no rule, and is
      rejected for the first rule it breaks. */
  lemma PlannedExactlyWhen(s: Settings, r: Request, start: Instant, cutoff: Instant)
    requires PlanOf(s, r) != Malformed && StartsFor(start, r) && CutsOff(cutoff, start, s, r)
    ensures PlanOf(s, r).Accepted? <==> forall rule :: !Breaks(s, r, start, cutoff, rule)
    ensures PlanOf(s, r).Rejected? ==>
              var reason := PlanOf(s, r).reason;
              && Breaks(s, r, start, cutoff, reason)
              && forall rule :: RuleNumber(rule) < RuleNumber(reason) ==> !Breaks(s, r, start, cutoff, rule)
  {
    StartAndCutoff(s, r);
    assert start == ProductionStart(r) && cutoff == Cutoff(s, r);
    RulesInOrder(s, r);
  }

  lemma RulesInOrder(s: Settings, r: Request)
    requires ValidRequest(r)
    requires Breaks(s, r, ProductionStart(r), Cutoff(s, r), TooSoon) <==> r.pickupAt < r.now + Notice(r.items) * HOUR
    ensures var broken := rule => Breaks(s, r, ProductionStart(r), Cutoff(s, r), rule);
            match Verdict(s, r)
            case None => forall rule :: !broken(rule)
            case Some(reason) =>
              broken(reason) && forall rule :: RuleNumber(rule) < RuleNumber(reason) ==> !broken(rule)
  {
  }

  /** What an accepted plan promises: the deposit until it runs out or the shopping
      starts, and the balance some hours before production. */
  lemma PlannedAs(s: Settings, r: Request)
    requires PlanOf(s, r).Accepted?
    ensures var p := PlanOf(s, r).plan;
            && p.pickupAt == r.pickupAt && StartsFor(p.productionStart, r)
            && p.productionDate == DateOf(p.productionStart) && CutsOff(p.cutoff, p.productionStart, s, r)
            && p.dpDeadline == (if r.now + r.dpValidFor < p.cutoff then r.now + r.dpValidFor else p.cutoff)
            && p.balanceDue == p.productionStart - r.balanceHours * HOUR
            && (p.fullPayment <==> p.balanceDue <= p.dpDeadline)
  {
    StartAndCutoff(s, r);
  }

  /** Every accepted plan leaves time to pay before the shopping, to shop before
      production, and to produce before the pickup; when the balance would fall
      due by the deposit's deadline, all is paid at once. */
  lemma AcceptedPlansAreInOrder(s: Settings, r: Request)
    requires ValidSettings(s) && PlanOf(s, r).Accepted?
    ensures var p := PlanOf(s, r).plan;
            && r.now + 30 * MINUTE <= p.dpDeadline <= p.cutoff <= p.productionStart < p.pickupAt
            && p.balanceDue <= p.productionStart
            && (p.fullPayment <==> p.balanceDue <= p.dpDeadline)
            && p.pickupAt == r.pickupAt && p.productionDate == DateOf(p.productionStart)
            && (p.productionDate in r.cutoffs ==> p.cutoff <= r.cutoffs[p.productionDate])
            && p.productionDate !in r.closed && DateOf(p.pickupAt) !in r.closed
  {
  }

  /** The plan as the source makes it: one pass over the items, then the rules. */
  method MakePlan(s: Settings, r: Request) returns (result: Result)
    ensures result == PlanOf(s, r)
  {
    if |r.items| == 0 {
      return Malformed;
    }
    if r.dpValidFor < MIN_PAYMENT_WINDOW || r.balanceHours < 0 {
      return Malformed;
    }
    var production, notice := 0, 0;
    for i := 0 to |r.items|
      invariant production == Production(r.items[..i]) && notice == Notice(r.items[..i])
      invariant forall k :: 0 <= k < i ==> ValidItem(r.items[k])
    {
      var it := r.items[i];
      assert r.items[..i + 1][..i] == r.items[..i];
      if it.productionMinutes < 1 || it.noticeHours < 0 {
        assert !ValidItem(r.items[i]);
        return Malformed;
      }
      production := Max(production, it.productionMinutes);
      notice := Max(notice, it.noticeHours);
    }
    assert r.items[..|r.items|] == r.items;
    if r.pickupAt - r.now > MAX_ADVANCE {
      return Rejected(TooFar);
    }
    if r.pickupAt < r.now + notice * HOUR {
      return Rejected(TooSoon);
    }
    var at := TimeOfDay(r.pickupAt);
    if at < s.pickupStart || at > s.pickupEnd {
      return Rejected(OutsideWindow);
    }
    var start := r.pickupAt - production * MINUTE;
    var date := DateOf(start);
    if DateOf(r.pickupAt) in r.closed || date in r.closed {
      return Rejected(Closed);
    }
    var cutoff := start - s.bufferHours * HOUR;
    if date in r.cutoffs && r.cutoffs[date] < cutoff {
      cutoff := r.cutoffs[date];
    }
    if cutoff - r.now < MIN_PAYMENT_WINDOW {
      return Rejected(CutoffPassed);
    }
    if s.capacity.Some? && r.load + r.order > s.capacity.value {
      return Rejected(Full);
    }
    var deadline := r.now + r.dpValidFor;
    if cutoff < deadline {
      deadline := cutoff;
    }
    var due := start - r.balanceHours * HOUR;
    result := Accepted(Plan(r.pickupAt, start, date, cutoff, deadline, due, !(due > deadline)));
  }

  // ----- Suggestions -----

  const SUGGEST_DAYS := 60
  const STEP := 15 * MINUTE

  /** Up to a whole step; Jakarta is whole hours from UTC, so it is one there too. */
  function RoundUp(t: Instant): (r: Instant)
    ensures t <= r < t + 15 * MINUTE && r % (15 * MINUTE) == 0
  {
    if t % STEP == 0 then t else t - t % STEP + STEP
  }

  /** What the notice allows, at a time a person would pick. */
  function Earliest(r: Request): Instant { RoundUp(r.now + Notice(r.items) * HOUR) }

  /** The requested time of day, kept within the pickup hours. */
  function WantedTime(s: Settings, r: Request): int { Min(Max(TimeOfDay(r.pickupAt), s.pickupStart), s.pickupEnd) }

  function FirstDay(r: Request): Date { Max(DateOf(r.pickupAt), DateOf(Earliest(r))) }

  function Candidate(s: Settings, r: Request, k: nat): Instant {
    Max(At(FirstDay(r) + k, WantedTime(s, r)), Earliest(r))
  }

  function Try(s: Settings, r: Request, k: nat): Request { r.(pickupAt := Candidate(s, r, k)) }

  /** A day whose candidate stays on it, within hours, and is accepted. */
  predicate Suggests(s: Settings, r: Request, k: nat) {
    && TimeOfDay(Candidate(s, r, k)) <= s.pickupEnd
    && DateOf(Candidate(s, r, k)) == FirstDay(r) + k
    && PlanOf(s, Try(s, r, k)).Accepted?
  }

  /** The first day tried whose candidate is accepted, or none. */
  method Suggest(s: Settings, r: Request) returns (result: Option<Plan>)
    ensures result.None? <==> forall k :: 0 <= k <= 60 ==> !Suggests(s, r, k)
    ensures result.Some? ==> exists k :: 0 <= k <= 60 && Suggests(s, r, k)
                               && result.value == PlanOf(s, Try(s, r, k)).plan
                               && forall j :: 0 <= j < k ==> !Suggests(s, r, j)
    ensures ValidSettings(s) && result.Some? ==> (result.value.pickupAt < r.pickupAt <==> OffersEarlier(s, r))
  {
    var notice := 0;
    for i := 0 to |r.items|
      invariant notice == Notice(r.items[..i])
    {
      assert r.items[..i + 1][..i] == r.items[..i];
      notice := Max(notice, r.items[i].noticeHours);
    }
    assert r.items[..|r.items|] == r.items;
    var earliest := RoundUp(r.now + notice * HOUR);
    var at := Min(Max(TimeOfDay(r.pickupAt), s.pickupStart), s.pickupEnd);
    var start := DateOf(r.pickupAt);
    if DateOf(earliest) > start {
      start := DateOf(earliest);
    }
    for k := 0 to SUGGEST_DAYS + 1
      invariant forall j :: 0 <= j < k ==> !Suggests(s, r, j)
    {
      var plan := TryDay(s, r, k, start, at, earliest);
      if plan.Some? {
        if ValidSettings(s) {
          SuggestedEarlierExactlyWhen(s, r, k);
        }
        return plan;
      }
    }
    result := None;
  }

  /** One day: the candidate must stay on it and within hours. */
  method TryDay(s: Settings, r: Request, k: nat, start: Date, at: int, earliest: Instant) returns (plan: Option<Plan>)
    requires start == FirstDay(r) && at == WantedTime(s, r) && earliest == Earliest(r)
    ensures plan == if Suggests(s, r, k) then Some(PlanOf(s, Try(s, r, k)).plan) else None
  {
    var candidate := At(start + k, at);
    if candidate < earliest {
      candidate := earliest;
    }
    assert candidate == Candidate(s, r, k);
    if TimeOfDay(candidate) > s.pickupEnd || DateOf(candidate) != start + k {
      return None;
    }
    var tried := MakePlan(s, r.(pickupAt := candidate));
    plan := if tried.Accepted? then Some(tried.plan) else None;
  }

  lemma AtIsOnItsDay(d: Date, minutes: int)
    requires 0 <= minutes < 24 * 60
    ensures DateOf(At(d, minutes)) == d && TimeOfDay(At(d, minutes)) == minutes
  {
  }

  /** Every suggestion is accepted, respects the rounded notice, is within the
      pickup hours, and is on the requested day or later. */
  lemma SuggestionsAreGood(s: Settings, r: Request, k: nat)
    requires ValidSettings(s) && Suggests(s, r, k)
    ensures var p := PlanOf(s, Try(s, r, k)).plan;
            && p.pickupAt >= Earliest(r) >= r.now + Notice(r.items) * HOUR
            && s.pickupStart <= TimeOfDay(p.pickupAt) <= s.pickupEnd
            && DateOf(r.pickupAt) <= DateOf(p.pickupAt) == FirstDay(r) + k
  {
  }

  /** A day is suggested just when its candidate is accepted: it always stays on its
      day, and the rules check the hours. */
  lemma SuggestedExactlyWhen(s: Settings, r: Request, k: nat)
    requires ValidSettings(s)
    ensures Suggests(s, r, k) <==> PlanOf(s, r.(pickupAt := Candidate(s, r, k))).Accepted?
  {
    AtIsOnItsDay(FirstDay(r) + k, WantedTime(s, r));
  }

  /** Whether an instant has no seconds. */
  predicate WholeMinute(t: Instant) { (t + JAKARTA) % MINUTE == 0 }

  lemma WhereItsTimeIs(t: Instant)
    ensures At(DateOf(t), TimeOfDay(t)) <= t < At(DateOf(t), TimeOfDay(t)) + MINUTE
    ensures At(DateOf(t), TimeOfDay(t)) == t <==> WholeMinute(t)
    ensures 0 <= TimeOfDay(t) < 24 * 60
  {
  }

  /** When a request is offered an earlier time than it asks for: its own day is
      tried first and fits, the notice does not reach past the requested time,
      and that time is after closing, or has seconds. */
  predicate OffersEarlier(s: Settings, r: Request) {
    && FirstDay(r) == DateOf(r.pickupAt) && Suggests(s, r, 0)
    && Earliest(r) < r.pickupAt
    && TimeOfDay(r.pickupAt) >= s.pickupStart
    && (TimeOfDay(r.pickupAt) > s.pickupEnd || !WholeMinute(r.pickupAt))
  }

  /** A minute of a day, against an instant. */
  lemma AtIsEarlierWhen(d: Date, minutes: int, t: Instant)
    requires 0 <= minutes < 24 * 60
    ensures At(d, minutes) < t <==>
              || d < DateOf(t)
              || (d == DateOf(t) && minutes < TimeOfDay(t))
              || (d == DateOf(t) && minutes == TimeOfDay(t) && !WholeMinute(t))
  {
    WhereItsTimeIs(t);
  }

  /** A day's candidate is before the requested time only on the day itself. */
  lemma CandidateIsEarlierExactlyWhen(s: Settings, r: Request, k: nat)
    requires ValidSettings(s)
    ensures Candidate(s, r, k) < r.pickupAt <==>
              && k == 0 && FirstDay(r) == DateOf(r.pickupAt) && Earliest(r) < r.pickupAt
              && TimeOfDay(r.pickupAt) >= s.pickupStart
              && (TimeOfDay(r.pickupAt) > s.pickupEnd || !WholeMinute(r.pickupAt))
  {
    WhereItsTimeIs(r.pickupAt);
    AtIsEarlierWhen(FirstDay(r) + k, WantedTime(s, r), r.pickupAt);
  }

  /** A suggestion is meant to be at or after the requested time. What Suggest
      returns is earlier if and only if the request offers earlier, which a caller
      can tell before asking. */
  lemma SuggestedEarlierExactlyWhen(s: Settings, r: Request, k: nat)
    requires ValidSettings(s) && Suggests(s, r, k) && forall j :: 0 <= j < k ==> !Suggests(s, r, j)
    ensures PlanOf(s, Try(s, r, k)).plan.pickupAt < r.pickupAt <==> OffersEarlier(s, r)
  {
    CandidateIsEarlierExactlyWhen(s, r, k);
    CandidateIsEarlierExactlyWhen(s, r, 0);
    if k > 0 {
      assert !Suggests(s, r, 0);
    }
  }

  /** A cake asked for after closing is offered an hour earlier, at closing. */
  lemma AfterClosingIsOfferedEarlier()
    ensures var s := Settings(12, None, 9 * 60, 17 * 60);
            var r := Request(At(0, 0), At(10, 18 * 60), [Item(60, 24)], {}, map[], 0, 0, 12, 3 * HOUR);
            && PlanOf(s, r) == Rejected(OutsideWindow)
            && Suggests(s, r, 0) && PlanOf(s, Try(s, r, 0)).plan.pickupAt == r.pickupAt - HOUR
  {
    OneItem(Item(60, 24));
    AtIsOnItsDay(10, 18 * 60);
    AtIsOnItsDay(10, 17 * 60);
    AtIsOnItsDay(10, 16 * 60);
    AtIsOnItsDay(1, 0);
  }

  lemma OneItem(it: Item)
    requires ValidItem(it)
    ensures Notice([it]) == it.noticeHours && Production([it]) == it.productionMinutes
  {
  }
}
