/** Exactly-once requests (internal/inventory/service.go): a delivery or a
    count carries a key; a retry with the key, at once or days later, gets the
    first result and has no second effect. */
module Requests {
  import opened Base

  datatype Kind = ReceiveStock | CountStock

  datatype Key = Key(kind: Kind, id: Id)

  /** A request as first sent, and its result. */
  datatype Request = Request(body: string, actor: Id, result: Id)

  type Table = map<Key, Request>

  /** What a key that is looked up says to a call. */
  datatype Answer = Unused | First(result: Id) | KeyReused

  /** A key held by other fields or another person is refused. */
  predicate SameRequest(held: Request, body: string, actor: Id) {
    held.body == body && held.actor == actor
  }

  function Lookup(table: Table, key: Key, body: string, actor: Id): Answer {
    if key !in table then Unused
    else if SameRequest(table[key], body, actor) then First(table[key].result)
    else KeyReused
  }

  /** A key nobody holds is unused; one held by the same request of the same person
      answers with its result; any other request with it is refused. */
  lemma AnsweredExactlyWhen(table: Table, key: Key, body: string, actor: Id)
    ensures Lookup(table, key, body, actor)
         == if key !in table then Unused
            else if table[key] == Request(body, actor, table[key].result) then First(table[key].result)
            else KeyReused
  {
  }

  /** Claims a key unless it is held, as the insert does. */
  function Claimed(table: Table, key: Key, r: Request): Table {
    if key in table then table else table[key := r]
  }

  // ----- Concurrent calls -----

  /** One attempt to send a request; `proposal` is the result it would have. */
  datatype Call = Call(key: Key, body: string, actor: Id, proposal: Id)

  datatype Reply = Result(id: Id) | Refused | Rejected

  /** Where a call is: the unlocked read and the claim are separate steps. */
  datatype Phase = Sent | LookedUp | Replied(reply: Reply)

  /** The shared table, where every call is, and which calls had an effect. */
  datatype System = System(table: Table, calls: seq<Call>, phases: seq<Phase>, effects: seq<nat>)

  /** Any call may arrive, read, be rejected by validation, or run its
      transaction, whose effect may also fail and roll the claim back. */
  datatype Step = Arrive(call: Call) | Read(i: nat) | Reject(i: nat) | Commit(i: nat, effectFails: bool)

  function Answered(a: Answer): Reply
    requires !a.Unused?
  {
    match a
    case First(id) => Result(id)
    case KeyReused => Refused
  }

  /** A transaction that commits: what it leaves in the table, and its reply. */
  function CommitOf(table: Table, c: Call): (Table, Reply) {
    var a := Lookup(table, c.key, c.body, c.actor);
    (Claimed(table, c.key, Request(c.body, c.actor, c.proposal)), if a.Unused? then Result(c.proposal) else Answered(a))
  }

  predicate At(s: System, i: nat, phase: Phase) { i < |s.phases| && i < |s.calls| && s.phases[i] == phase }

  function Next(s: System, step: Step): System {
    match step
    case Arrive(call) => s.(calls := s.calls + [call], phases := s.phases + [Sent])
    case Read(i) =>
      if !At(s, i, Sent) then s
      else
        var c := s.calls[i];
        var a := Lookup(s.table, c.key, c.body, c.actor);
        s.(phases := s.phases[i := if a.Unused? then LookedUp else Replied(Answered(a))])
    case Reject(i) =>
      if !At(s, i, LookedUp) then s else s.(phases := s.phases[i := Replied(Rejected)])
    case Commit(i, effectFails) =>
      if !At(s, i, LookedUp) then s
      else
        var c := s.calls[i];
        var unused := c.key !in s.table;
        if unused && effectFails then s.(phases := s.phases[i := Replied(Rejected)])
        else
          var (table, reply) := CommitOf(s.table, c);
          s.(table := table, phases := s.phases[i := Replied(reply)],
             effects := if unused then s.effects + [i] else s.effects)
  }

  /** A call only moves on: from sent by its lookup, from looked up by its rejection or
      its transaction, and once it has its reply it stays as it is. */
  lemma CallsMoveOn(s: System, step: Step, i: nat)
    requires i < |s.calls| == |s.phases|
    ensures var t := Next(s, step);
            && i < |t.calls| == |t.phases| && t.calls[i] == s.calls[i]
            && match s.phases[i]
               case Sent =>
                 if step == Read(i) then
                   if s.calls[i].key in s.table then t.phases[i].Replied? else t.phases[i] == LookedUp
                 else t.phases[i] == Sent
               case LookedUp =>
                 if step == Reject(i) || step == Commit(i, true) || step == Commit(i, false) then t.phases[i].Replied?
                 else t.phases[i] == LookedUp
               case Replied(reply) => t.phases[i] == Replied(reply)
  {
  }

  /** Just the transaction of a call that was looked up, whose key nobody holds and
      whose effect does not fail, has an effect, and it succeeds with its own result. */
  lemma EffectsExactlyWhen(s: System, step: Step)
    requires |s.calls| == |s.phases|
    ensures var t := Next(s, step);
            if step.Commit? && !step.effectFails && step.i < |s.calls| && s.phases[step.i] == LookedUp
               && s.calls[step.i].key !in s.table
            then
              var c := s.calls[step.i];
              && t.effects == s.effects + [step.i] && t.phases[step.i] == Replied(Result(c.proposal))
              && t.table == s.table[c.key := Request(c.body, c.actor, c.proposal)]
            else t.effects == s.effects && t.table == s.table
  {
  }

  function Run(s: System, steps: seq<Step>): System {
    if steps == [] then s else Next(Run(s, steps[..|steps| - 1]), steps[|steps| - 1])
  }

  const IDLE := System(map[], [], [], [])

  /** The call whose effect a held key stands for. */
  ghost predicate Holds(s: System, i: nat) {
    && i < |s.calls|
    && s.calls[i].key in s.table
    && s.table[s.calls[i].key] == Request(s.calls[i].body, s.calls[i].actor, s.calls[i].proposal)
  }

  /** A reply is right: a result is the one the key holds, for the same request,
      and a refusal means the key is held by another. */
  ghost predicate ReplyIsRight(s: System, i: nat)
    requires i < |s.calls| == |s.phases|
  {
    var c := s.calls[i];
    && (s.phases[i] == Replied(Refused) ==> c.key in s.table && !SameRequest(s.table[c.key], c.body, c.actor))
    && (s.phases[i].Replied? && s.phases[i].reply.Result? ==>
          && c.key in s.table && SameRequest(s.table[c.key], c.body, c.actor)
          && s.phases[i].reply.id == s.table[c.key].result)
  }

  ghost predicate HasEffect(s: System, key: Key) {
    exists k :: 0 <= k < |s.effects| && s.effects[k] < |s.calls| && s.calls[s.effects[k]].key == key
  }

  /** The effects are of held keys, one each, and every held key had one. */
  ghost predicate EffectsAreHeld(s: System) {
    && (forall k :: 0 <= k < |s.effects| ==> Holds(s, s.effects[k]))
    && (forall k, l :: 0 <= k < l < |s.effects| ==> s.calls[s.effects[k]].key != s.calls[s.effects[l]].key)
    && (forall key :: key in s.table ==> HasEffect(s, key))
  }

  ghost predicate Inv(s: System) {
    && |s.calls| == |s.phases|
    && EffectsAreHeld(s)
    && forall i :: 0 <= i < |s.calls| ==> ReplyIsRight(s, i)
  }

  /** More calls, or other phases, leave the effects as they are. */
  lemma EffectsStayHeld(s: System, t: System)
    requires EffectsAreHeld(s) && t.table == s.table && t.effects == s.effects && s.calls <= t.calls
    ensures EffectsAreHeld(t)
  {
    forall k | 0 <= k < |s.effects| ensures Holds(t, s.effects[k]) && t.calls[s.effects[k]] == s.calls[s.effects[k]] {
      assert Holds(s, s.effects[k]);
    }
    forall key | key in t.table ensures HasEffect(t, key) {
      assert HasEffect(s, key);
      var k :| 0 <= k < |s.effects| && s.effects[k] < |s.calls| && s.calls[s.effects[k]].key == key;
      assert t.calls[t.effects[k]].key == key;
    }
  }

  lemma ArrivingKeepsInv(s: System, call: Call)
    requires Inv(s)
    ensures Inv(Next(s, Arrive(call)))
  {
    var t := Next(s, Arrive(call));
    EffectsStayHeld(s, t);
    forall i | 0 <= i < |t.calls| ensures ReplyIsRight(t, i) {
      assert i < |s.calls| ==> ReplyIsRight(s, i);
    }
  }

  /** A step that only moves one call on, to a right reply if any. */
  lemma MovingOnKeepsInv(s: System, i: nat, phase: Phase)
    requires Inv(s) && i < |s.phases|
    requires ReplyIsRight(s.(phases := s.phases[i := phase]), i)
    ensures Inv(s.(phases := s.phases[i := phase]))
  {
    var t := s.(phases := s.phases[i := phase]);
    EffectsStayHeld(s, t);
    forall j | 0 <= j < |t.calls| ensures ReplyIsRight(t, j) {
      assert ReplyIsRight(s, j);
    }
  }

  /** The system after the first effect with a key. */
  function Claiming(s: System, i: nat): System
    requires i < |s.calls| && i < |s.phases|
  {
    var c := s.calls[i];
    System(s.table[c.key := Request(c.body, c.actor, c.proposal)], s.calls,
           s.phases[i := Replied(Result(c.proposal))], s.effects + [i])
  }

  lemma ClaimedKeysAreHeld(s: System, i: nat)
    requires EffectsAreHeld(s) && i < |s.calls| && i < |s.phases| && s.calls[i].key !in s.table
    ensures var t := Claiming(s, i);
            && (forall k :: 0 <= k < |t.effects| ==> Holds(t, t.effects[k]))
            && forall k, l :: 0 <= k < l < |t.effects| ==> t.calls[t.effects[k]].key != t.calls[t.effects[l]].key
  {
  }

  lemma ClaimingHoldsItsKey(s: System, i: nat)
    requires EffectsAreHeld(s) && i < |s.calls| && i < |s.phases| && s.calls[i].key !in s.table
    ensures EffectsAreHeld(Claiming(s, i))
  {
    var t := Claiming(s, i);
    ClaimedKeysAreHeld(s, i);
    forall key | key in t.table ensures HasEffect(t, key) {
      if key in s.table {
        var k :| 0 <= k < |s.effects| && s.effects[k] < |s.calls| && s.calls[s.effects[k]].key == key;
        assert t.effects[k] == s.effects[k];
      } else {
        assert t.effects[|s.effects|] == i;
      }
    }
  }

  /** It takes the key; no other key or reply changes. */
  lemma ClaimingKeepsInv(s: System, i: nat)
    requires Inv(s) && i < |s.phases| && s.calls[i].key !in s.table
    ensures Inv(Claiming(s, i))
  {
    ClaimingHoldsItsKey(s, i);
    forall j | 0 <= j < |s.calls| ensures ReplyIsRight(Claiming(s, i), j) {
      assert ReplyIsRight(s, j);
    }
  }

  lemma NextKeepsInv(s: System, step: Step)
    requires Inv(s)
    ensures Inv(Next(s, step))
  {
    if step.Arrive? {
      ArrivingKeepsInv(s, step.call);
    } else if step.i < |s.phases| && Next(s, step) != s {
      if step.Commit? && !step.effectFails && s.calls[step.i].key !in s.table {
        ClaimingKeepsInv(s, step.i);
      } else {
        MovingOnKeepsInv(s, step.i, Next(s, step).phases[step.i]);
      }
    }
  }

  lemma {:induction false} EveryScheduleKeepsInv(steps: seq<Step>)
    ensures Inv(Run(IDLE, steps))
  {
    if steps != [] {
      EveryScheduleKeepsInv(steps[..|steps| - 1]);
      NextKeepsInv(Run(IDLE, steps[..|steps| - 1]), steps[|steps| - 1]);
    }
  }

  /** Exactly once, for every schedule of concurrent and late retries: two calls
      with one key never both have an effect; calls that succeed with it all get
      the same result, that of the one call that had the effect; and a call with
      other fields or another person never succeeds with it. */
  lemma ExactlyOnce(steps: seq<Step>, i: nat, j: nat)
    requires var s := Run(IDLE, steps);
             i < |s.calls| && j < |s.calls| && |s.phases| == |s.calls| && s.calls[i].key == s.calls[j].key
    ensures var s := Run(IDLE, steps);
            && (forall k, l ::
                  0 <= k < |s.effects| && 0 <= l < |s.effects| && s.effects[k] == i && s.effects[l] == j ==>
                  i == j && k == l)
            && (s.phases[i].Replied? && s.phases[i].reply.Result? ==>
                  exists k :: 0 <= k < |s.effects| && s.effects[k] < |s.calls|
                    && s.calls[s.effects[k]].key == s.calls[i].key
                    && s.phases[i].reply.id == s.calls[s.effects[k]].proposal)
            && (&& s.phases[i].Replied? && s.phases[i].reply.Result?
                && s.phases[j].Replied? && s.phases[j].reply.Result? ==>
                  && s.phases[i].reply == s.phases[j].reply
                  && s.calls[i].body == s.calls[j].body && s.calls[i].actor == s.calls[j].actor)
  {
    var s := Run(IDLE, steps);
    EveryScheduleKeepsInv(steps);
    assert ReplyIsRight(s, i) && ReplyIsRight(s, j);
    if s.phases[i].Replied? && s.phases[i].reply.Result? {
      assert HasEffect(s, s.calls[i].key);
      var k :| 0 <= k < |s.effects| && s.effects[k] < |s.calls| && s.calls[s.effects[k]].key == s.calls[i].key;
      assert Holds(s, s.effects[k]);
    }
  }
}
