/** Deferred puts (head/safe.c, head/queue.c): while a queue is frozen, opening or without procedures, messages put to
  it wait in a list, which lis_do_deferred_puts hands to the put procedure later.

  Each operation below is one section under the queue's lock. Any number of threads put messages and run the drain; the
  flags may change at any moment.
  */
module Deferred {
  /** A thread in lis_do_deferred_puts: outside, about to take the next message, holding one, past its check, or about
      to leave. */
  datatype Drain = Out | Next | Holding(m: nat) | Calling(m: nat) | Leaving

  /** `off` is QPROCSOFF or QFROZEN, of a queue that does not pass messages on. `arrived` and `delivered` are histories:
      the messages in the order in which they were put, and in which the put procedure got them. */
  datatype State = State(off: bool, opening: bool, deferring: bool, list: seq<nat>, drains: map<nat, Drain>,
                         arrived: seq<nat>, delivered: seq<nat>)

  datatype Op =
    | Put(m: nat) | SetOff(on: bool) | SetOpening(on: bool)
    | Enter(t: nat) | Take(t: nat) | Check(t: nat) | Call(t: nat) | Leave(t: nat)

  function At(s: State, t: nat): Drain { if t in s.drains then s.drains[t] else Out }

  predicate Can(s: State, op: Op) {
    match op
    case Put(_) => true
    case SetOff(_) => true
    case SetOpening(_) => true
    case Enter(t) => At(s, t).Out?
    case Take(t) => At(s, t).Next?
    case Check(t) => At(s, t).Holding?
    case Call(t) => At(s, t).Calling?
    case Leave(t) => At(s, t).Leaving?
  }

  /** lis_safe_do_putmsg defers: the queue is off or flagged, or other messages are waiting. */
  predicate Defers(s: State, direct: bool) { s.off || s.opening || (direct && s.deferring) || s.list != [] }

  function Do(s: State, op: Op): State
    requires Can(s, op)
  {
    match op
    // lis_safe_putmsg: check, and defer or deliver
    case Put(m) =>
      var s1 := s.(arrived := s.arrived + [m]);
      if Defers(s, true) then s1.(list := s.list + [m]) else s1.(delivered := s.delivered + [m])
    case SetOff(on) => s.(off := on)
    case SetOpening(on) => s.(opening := on)
    // lis_do_deferred_puts
    case Enter(t) => if s.list == [] || s.deferring then s else s.(deferring := true, drains := s.drains[t := Next])
    case Take(t) =>
      if s.list == [] then s.(drains := s.drains[t := Leaving])
      else s.(list := s.list[1..], drains := s.drains[t := Holding(s.list[0])])
    // lis_safe_do_putmsg with retry: the message goes back to the head of the list, or on to the put procedure
    case Check(t) =>
      var m := s.drains[t].m;
      if Defers(s, false) then s.(list := [m] + s.list, drains := s.drains[t := Leaving])
      else s.(drains := s.drains[t := Calling(m)])
    case Call(t) => s.(delivered := s.delivered + [s.drains[t].m], drains := s.drains[t := Next])
    case Leave(t) => s.(deferring := false, drains := s.drains[t := Out])
  }

  /** The message a drain has in hand. */
  function Hand(d: Drain): seq<nat> { if d.Holding? || d.Calling? then [d.m] else [] }

  ghost predicate InOrder(s: State, hand: seq<nat>) { s.delivered + hand + s.list == s.arrived }

  /** At most one drain is inside, exactly while QDEFERRING is set; what was delivered, what it has in hand and what is
      deferred is what arrived, in order. */
  ghost predicate Inv(s: State) {
    if s.deferring then exists t :: OnlyOne(s, t) else (forall t :: At(s, t).Out?) && InOrder(s, [])
  }

  ghost predicate OnlyOne(s: State, t: nat) {
    && !At(s, t).Out? && (forall r :: r != t ==> At(s, r).Out?)
    && InOrder(s, Hand(At(s, t)))
  }

  lemma KeepInv(s: State, op: Op)
    requires Inv(s) && Can(s, op)
    ensures Inv(Do(s, op))
  {
    var s' := Do(s, op);
    if s.deferring {
      var t :| OnlyOne(s, t);
      assert forall r :: r != t ==> At(s', r) == At(s, r);
      StillInOrder(s, op, t);
      if s'.deferring { assert OnlyOne(s', t); }
    } else {
      match op
      case Enter(t) =>
        if s.list != [] {
          assert At(s', t) == Next && forall r :: r != t ==> At(s', r) == At(s, r);
          assert OnlyOne(s', t);
        }
      case Put(m) =>
        PutInOrder(s, m);
        assert InOrder(s', []) && forall r :: At(s', r) == At(s, r);
      case SetOff(_) => assert forall r :: At(s', r) == At(s, r);
      case SetOpening(_) => assert forall r :: At(s', r) == At(s, r);
      case _ =>
    }
  }

  lemma PutInOrder(s: State, m: nat)
    requires InOrder(s, []) && !s.deferring
    ensures InOrder(Do(s, Put(m)), [])
  {
    assert s.arrived == s.delivered + s.list;
    assert s.delivered + [] + (s.list + [m]) == s.arrived + [m];
    if s.list == [] { assert (s.delivered + [m]) + [] + [] == s.arrived + [m]; }
  }

  lemma StillInOrder(s: State, op: Op, t: nat)
    requires OnlyOne(s, t) && s.deferring && Can(s, op)
    ensures InOrder(Do(s, op), Hand(At(Do(s, op), t)))
  {
    var s' := Do(s, op);
    var hand := Hand(At(s, t));
    match op
    case Put(m) => assert s.delivered + hand + (s.list + [m]) == (s.delivered + hand + s.list) + [m];
    case Take(r) => if s.list != [] { assert s.list == [s.list[0]] + s.list[1..]; }
    case Check(r) => assert s.delivered + [] + (hand + s.list) == s.delivered + hand + s.list;
    case Call(r) => assert (s.delivered + hand) + [] + s.list == s.delivered + hand + s.list;
    case _ =>
  }

  ghost predicate Path(ss: seq<State>, ops: seq<Op>) {
    |ss| == |ops| + 1 && forall i :: 0 <= i < |ops| ==> Can(ss[i], ops[i]) && ss[i + 1] == Do(ss[i], ops[i])
  }

  /** A run from an empty queue without drains. */
  ghost predicate Run(ss: seq<State>, ops: seq<Op>) {
    && Path(ss, ops)
    && ss[0].list == [] && ss[0].arrived == [] && ss[0].delivered == [] && !ss[0].deferring && ss[0].drains == map[]
  }

  lemma {:induction false} RunInv(ss: seq<State>, ops: seq<Op>, i: nat)
    requires Run(ss, ops) && i < |ss|
    ensures Inv(ss[i])
  {
    if i > 0 {
      RunInv(ss, ops, i - 1);
      KeepInv(ss[i - 1], ops[i - 1]);
    }
  }

  /** No overtaking: the put procedure gets the messages in the order in which they were put. */
  lemma NoOvertaking(ss: seq<State>, ops: seq<Op>, i: nat)
    requires Run(ss, ops) && i < |ss|
    ensures ss[i].delivered <= ss[i].arrived
    ensures |ss[i].list| <= |ss[i].arrived| && ss[i].list == ss[i].arrived[|ss[i].arrived| - |ss[i].list|..]
  {
    RunInv(ss, ops, i);
    var s := ss[i];
    if s.deferring {
      var t :| OnlyOne(s, t);
      assert s.arrived == s.delivered + (Hand(At(s, t)) + s.list);
      assert s.arrived[|s.arrived| - |s.list|..] == s.list;
    } else {
      assert s.arrived == s.delivered + s.list;
    }
  }

  /** When a message is delivered. A put delivers at once exactly if the queue is on and not opening, nobody drains it
      and nothing waits; else the message goes to the end of the list. The message a drain has taken is let through
      exactly if the queue is on and not opening and nothing else waits; else it goes back to where it was, and the
      drain ends. Nothing else delivers. */
  lemma DeliversExactly(ss: seq<State>, ops: seq<Op>, i: nat)
    requires Run(ss, ops) && i < |ops|
    ensures var s, s' := ss[i], ss[i + 1];
            match ops[i]
            case Put(m) =>
              if s.off || s.opening || s.deferring || s.list != []
              then s'.delivered == s.delivered && s'.list == s.list + [m]
              else s'.delivered == s.delivered + [m] && s'.list == []
            case Check(t) =>
              At(s, t).Holding? && s'.delivered == s.delivered &&
              if s.off || s.opening || s.list != []
              then s'.list == [At(s, t).m] + s.list && At(s', t) == Leaving
              else s'.list == [] && At(s', t) == Calling(At(s, t).m)
            case Call(t) => At(s, t).Calling? && s'.delivered == s.delivered + [At(s, t).m]
            case _ => s'.delivered == s.delivered
  {
    assert ss[i + 1] == Do(ss[i], ops[i]);
  }

  /** Two threads never drain a queue at the same time. */
  lemma OneDrain(ss: seq<State>, ops: seq<Op>, i: nat, t: nat, r: nat)
    requires Run(ss, ops) && i < |ss| && !At(ss[i], t).Out? && !At(ss[i], r).Out?
    ensures t == r && ss[i].deferring
  {
    RunInv(ss, ops, i);
  }

  /** The messages that have not passed a drain's check. */
  function Waiting(s: State, t: nat): seq<nat> { (if At(s, t).Holding? then [At(s, t).m] else []) + s.list }

  /** At least two messages wait, and no drain is past its check. */
  ghost predicate Jammed(s: State) {
    (forall t :: !At(s, t).Calling?) && exists t :: |Waiting(s, t)| >= 2
  }

  /** Whatever is done to the queue, and in whatever order, something is delivered some time. */
  ghost predicate MayDeliver(s: State) {
    exists ss: seq<State>, ops: seq<Op> :: Path(ss, ops) && ss[0] == s && ss[|ops|].delivered != s.delivered
  }

  /** A drain puts a message back if others wait behind it (the retry goes to the head of the list, and the drain ends).
      So once two messages wait nothing is ever delivered again, neither they nor what is put later; and as long as
      they do not, something can be. */
  lemma DeliversOnlyTheLast(ss: seq<State>, ops: seq<Op>, i: nat)
    requires Run(ss, ops) && i < |ss|
    ensures MayDeliver(ss[i]) <==> !Jammed(ss[i])
  {
    RunInv(ss, ops, i);
    if Jammed(ss[i]) {
      forall ts: seq<State>, os: seq<Op> | Path(ts, os) && ts[0] == ss[i]
        ensures ts[|os|].delivered == ss[i].delivered
      {
        JamStays(ts, os, |os|);
      }
    } else {
      var ts, os := Unjammed(ss[i]);
    }
  }

  lemma {:induction false} JamStays(ss: seq<State>, ops: seq<Op>, n: nat)
    requires Path(ss, ops) && n < |ss| && Inv(ss[0]) && Jammed(ss[0])
    ensures Inv(ss[n]) && Jammed(ss[n]) && ss[n].delivered == ss[0].delivered
  {
    if n > 0 {
      JamStays(ss, ops, n - 1);
      KeepInv(ss[n - 1], ops[n - 1]);
      StepKeepsJam(ss[n - 1], ops[n - 1]);
    }
  }

  lemma StepKeepsJam(s: State, op: Op)
    requires Inv(s) && Jammed(s) && Can(s, op)
    ensures Jammed(Do(s, op)) && Do(s, op).delivered == s.delivered
  {
    var s' := Do(s, op);
    var t :| |Waiting(s, t)| >= 2;
    var r := t;
    if s.deferring { r := Drainer(s); }
    assert |Waiting(s', r)| >= 2;
    forall u ensures !At(s', u).Calling? { assert !At(s, u).Calling?; }
  }

  lemma Drainer(s: State) returns (t: nat)
    requires Inv(s) && s.deferring
    ensures OnlyOne(s, t)
  {
    t :| OnlyOne(s, t);
  }

  lemma Extend(ss: seq<State>, ops: seq<Op>, op: Op) returns (ss': seq<State>, ops': seq<Op>)
    requires Path(ss, ops) && Can(ss[|ops|], op)
    ensures Path(ss', ops') && ss'[0] == ss[0] && ops' == ops + [op] && ss'[|ops'|] == Do(ss[|ops|], op)
  {
    ss', ops' := ss + [Do(ss[|ops|], op)], ops + [op];
  }

  /** Two messages put to a queue that is off are enough: it is on again, nobody drains it, and it delivers nothing any
      more. */
  lemma JamIsReachable() returns (ss: seq<State>, ops: seq<Op>)
    ensures Run(ss, ops) && ops == [SetOff(true), Put(1), Put(2), SetOff(false)]
    ensures var s := ss[|ops|];
            s.list == [1, 2] && !s.off && !s.opening && !s.deferring && s.delivered == [] && !MayDeliver(s)
  {
    ss, ops := [State(false, false, false, [], map[], [], [])], [];
    ss, ops := Extend(ss, ops, SetOff(true));
    ss, ops := Extend(ss, ops, Put(1));
    ss, ops := Extend(ss, ops, Put(2));
    ss, ops := Extend(ss, ops, SetOff(false));
    assert |Waiting(ss[|ops|], 0)| == 2;
    DeliversOnlyTheLast(ss, ops, |ops|);
  }

  /** The queue is switched on. */
  lemma SwitchOn(ss: seq<State>, ops: seq<Op>) returns (ss': seq<State>, ops': seq<Op>)
    requires Path(ss, ops)
    ensures Path(ss', ops') && ss'[0] == ss[0] && ss'[|ops'|] == ss[|ops|].(off := false, opening := false)
  {
    ss', ops' := Extend(ss, ops, SetOff(false));
    ss', ops' := Extend(ss', ops', SetOpening(false));
  }

  /** The last waiting message reaches the put procedure. */
  lemma DrainLast(ss0: seq<State>, ops0: seq<Op>, t: nat) returns (ss: seq<State>, ops: seq<Op>)
    requires Path(ss0, ops0) && ss0[0].delivered == ss0[|ops0|].delivered
    requires var s := ss0[|ops0|];
             At(s, t).Calling? || (At(s, t).Holding? && s.list == []) || (At(s, t).Next? && |s.list| == 1)
    ensures Path(ss, ops) && ss[0] == ss0[0] && ss[|ops|].delivered != ss[0].delivered
  {
    ss, ops := SwitchOn(ss0, ops0);
    if At(ss[|ops|], t).Next? { ss, ops := Extend(ss, ops, Take(t)); }
    if At(ss[|ops|], t).Holding? { ss, ops := Extend(ss, ops, Check(t)); }
    ss, ops := Extend(ss, ops, Call(t));
  }

  /** Nobody drains: the message that waits, or the next one put, is delivered. */
  lemma DrainNew(ss0: seq<State>, ops0: seq<Op>) returns (ss: seq<State>, ops: seq<Op>)
    requires Path(ss0, ops0) && ss0[0].delivered == ss0[|ops0|].delivered
    requires var s := ss0[|ops0|]; !s.deferring && |s.list| <= 1 && At(s, 0).Out?
    ensures Path(ss, ops) && ss[0] == ss0[0] && ss[|ops|].delivered != ss[0].delivered
  {
    if ss0[|ops0|].list == [] {
      ss, ops := SwitchOn(ss0, ops0);
      ss, ops := Extend(ss, ops, Put(0));
    } else {
      ss, ops := Extend(ss0, ops0, Enter(0));
      ss, ops := DrainLast(ss, ops, 0);
    }
  }

  lemma Unjammed(s: State) returns (ss: seq<State>, ops: seq<Op>)
    requires Inv(s) && !Jammed(s)
    ensures Path(ss, ops) && ss[0] == s && ss[|ops|].delivered != s.delivered
  {
    ss, ops := [s], [];
    if !s.deferring {
      assert |Waiting(s, 0)| == |s.list|;
      ss, ops := DrainNew(ss, ops);
      return;
    }
    var t := Drainer(s);
    assert t == 0 || At(s, 0).Out?;
    if !At(s, t).Calling? { assert forall r :: !At(s, r).Calling?; }
    assert At(s, t).Calling? || |s.list| <= |Waiting(s, t)| < 2;
    assert At(s, t).Holding? ==> |Waiting(s, t)| == 1 + |s.list|;
    if At(s, t).Calling? || At(s, t).Holding? || (At(s, t).Next? && s.list != []) {
      ss, ops := DrainLast(ss, ops, t);
    } else {
      if At(s, t).Next? { ss, ops := Extend(ss, ops, Take(t)); }
      ss, ops := Extend(ss, ops, Leave(t));
      ss, ops := DrainNew(ss, ops);
    }
  }
}
