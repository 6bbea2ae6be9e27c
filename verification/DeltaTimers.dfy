/** The timer list of head/port-mdep.c: each entry holds the time that passes between the one before it and itself.

  The list stands for a table of absolute deadlines, on the clock that port_announce_time advances.
  */
module DeltaTimers {
  /** A timer_list entry in the list; `delta` is tdelta, an unsigned long that is never to go below zero. */
  datatype Entry = Entry(id: nat, delta: nat)

  /** A timer and the time it is due. */
  datatype Due = Due(id: nat, at: int)

  /** What a timeout routine may do to the list, or what happens to it meanwhile: a nested port_announce_time. */
  datatype Act = Add(id: nat, interval: nat) | Del(id: nat) | Tell(ms: nat)

  /** The table a list stands for, its first delta counted from `base`. */
  ghost function Table(list: seq<Entry>, base: int): seq<Due> {
    if list == [] then []
    else [Due(list[0].id, base + list[0].delta)] + Table(list[1..], base + list[0].delta)
  }

  lemma {:induction false} TableIds(list: seq<Entry>, base: int)
    ensures |Table(list, base)| == |list| && forall i :: 0 <= i < |list| ==> Table(list, base)[i].id == list[i].id
  {
    if list != [] { TableIds(list[1..], base + list[0].delta); }
  }

  ghost predicate Ordered(t: seq<Due>, base: int) {
    (forall i, j :: 0 <= i < j < |t| ==> t[i].at <= t[j].at) && (forall i :: 0 <= i < |t| ==> base <= t[i].at)
  }

  lemma {:induction false} TableOrdered(list: seq<Entry>, base: int)
    ensures Ordered(Table(list, base), base)
  {
    if list != [] {
      var d, t := Due(list[0].id, base + list[0].delta), Table(list[1..], base + list[0].delta);
      TableOrdered(list[1..], d.at);
      ConsOrdered(d, t, base);
    }
  }

  lemma ConsOrdered(d: Due, t: seq<Due>, base: int)
    requires Ordered(t, d.at) && base <= d.at
    ensures Ordered([d] + t, base)
  {
    var n := [d] + t;
    forall i, j | 0 <= i < j < |n| ensures n[i].at <= n[j].at { assert n[j] == t[j - 1]; }
  }

  ghost function Sum(list: seq<Entry>): nat { if list == [] then 0 else list[0].delta + Sum(list[1..]) }

  lemma {:induction false} TableCat(a: seq<Entry>, b: seq<Entry>, base: int)
    ensures Table(a + b, base) == Table(a, base) + Table(b, base + Sum(a))
  {
    if a == [] {
      assert a + b == b;
    } else {
      assert (a + b)[1..] == a[1..] + b;
      TableCat(a[1..], b, base + a[0].delta);
    }
  }

  ghost predicate Unique(list: seq<Entry>) { forall i, j :: 0 <= i < j < |list| ==> list[i].id != list[j].id }

  predicate Holds(list: seq<Entry>, id: nat) { exists i :: 0 <= i < |list| && list[i].id == id }

  /** The table with a new deadline in it: before all that are as late or later. */
  ghost function WithDeadline(t: seq<Due>, d: Due): seq<Due> {
    if t == [] || d.at <= t[0].at then [d] + t else [t[0]] + WithDeadline(t[1..], d)
  }

  ghost function WithoutTimer(t: seq<Due>, id: nat): seq<Due> {
    if t == [] then [] else if t[0].id == id then t[1..] else [t[0]] + WithoutTimer(t[1..], id)
  }

  ghost predicate Balanced(t: seq<Due>, fired: seq<Due>, dropped: multiset<Due>, made: multiset<Due>) {
    multiset(t) + multiset(fired) + dropped == made
  }

  predicate Positive(acts: seq<Act>) { forall i :: 0 <= i < |acts| && acts[i].Add? ==> acts[i].interval > 0 }

  predicate Quiet(acts: seq<Act>) { forall i :: 0 <= i < |acts| ==> !acts[i].Tell? }

  /** How many timers are due at a time. */
  ghost function At(t: seq<Due>, at: int): nat {
    if t == [] then 0 else (if t[0].at == at then 1 else 0) + At(t[1..], at)
  }

  /** What a delta list and the two clocks stand for: the deadlines, the time the first delta counts from, the clock. */
  datatype Tab = Tab(due: seq<Due>, base: int, clock: int)

  ghost predicate HasTimer(t: seq<Due>, id: nat) { exists i :: 0 <= i < |t| && t[i].id == id }

  /** One thing that a timeout routine does, on the table. */
  ghost function Acted(t: Tab, a: Act): Tab {
    match a
    case Add(id, interval) =>
      if HasTimer(t.due, id) then t else t.(due := WithDeadline(t.due, Due(id, t.base + interval)))
    case Del(id) =>
      var due := WithoutTimer(t.due, id);
      Tab(due, if HasTimer(t.due, id) && due == [] then t.clock else t.base, t.clock)
    case Tell(ms) => Tab(t.due, if t.due == [] then t.clock + ms else t.base, t.clock + ms)
  }

  ghost function AllActed(t: Tab, acts: seq<Act>): Tab
  {
    if acts == [] then t else Acted(AllActed(t, acts[..|acts| - 1]), acts[|acts| - 1])
  }

  /** The table after the timers `news` went off, one by one, and their routines ran. */
  ghost function AfterFiring(t: Tab, news: seq<Due>, acts: (nat, nat) -> seq<Act>): Tab {
    if news == [] then t
    else
      var n := |news| - 1;
      var was := AfterFiring(t, news[..n], acts);
      AllActed(Tab(if was.due == [] then [] else was.due[1..], news[n].at, was.clock), acts(news[n].id, n))
  }

  /** Each of them was the first in the table when it went off. */
  ghost predicate FirstEach(t: Tab, news: seq<Due>, acts: (nat, nat) -> seq<Act>) {
    forall i :: 0 <= i < |news| ==>
      var was := AfterFiring(t, news[..i], acts); was.due != [] && was.due[0] == news[i]
  }

  lemma NothingFired(t: Tab, acts: (nat, nat) -> seq<Act>)
    ensures AfterFiring(t, [], acts) == t && FirstEach(t, [], acts)
  {
  }

  lemma FiredNext(t: Tab, news: seq<Due>, acts: (nat, nat) -> seq<Act>, d: Due)
    requires FirstEach(t, news, acts)
    requires var was := AfterFiring(t, news, acts); was.due != [] && was.due[0] == d
    ensures FirstEach(t, news + [d], acts)
    ensures var was := AfterFiring(t, news, acts);
            AfterFiring(t, news + [d], acts) == AllActed(Tab(was.due[1..], d.at, was.clock), acts(d.id, |news|))
  {
    assert (news + [d])[..|news|] == news;
    forall i | 0 <= i < |news + [d]|
      ensures var was := AfterFiring(t, (news + [d])[..i], acts); was.due != [] && was.due[0] == (news + [d])[i]
    {
      if i < |news| { assert (news + [d])[..i] == news[..i]; }
    }
  }

  lemma ActedNext(t: Tab, acts: seq<Act>, i: nat)
    requires i < |acts|
    ensures AllActed(t, acts[..i + 1]) == Acted(AllActed(t, acts[..i]), acts[i])
  {
    assert acts[..i + 1][..i] == acts[..i];
  }

  lemma NothingActed(t: Tab)
    ensures AllActed(t, []) == t
  {
  }

  lemma HoldsTimer(list: seq<Entry>, base: int, id: nat)
    ensures HasTimer(Table(list, base), id) <==> Holds(list, id)
    ensures Table(list, base) == [] <==> list == []
  {
    TableIds(list, base);
    if Holds(list, id) {
      var i :| 0 <= i < |list| && list[i].id == id;
      assert Table(list, base)[i].id == id;
    }
  }

  ghost function Last(news: seq<Due>, base: int): int { if news == [] then base else news[|news| - 1].at }

  class Timers {
    var list: seq<Entry>
    var saved: nat       // milli_secs
    var clock: int       // port_clock
    var entered: bool
    ghost var fired: seq<Due>          // the timers that went off, with their deadlines
    ghost var made: multiset<Due>      // the deadlines ever set
    ghost var dropped: multiset<Due>   // the timers deleted, with their deadlines

    /** Every deadline that was set is still in the list, or went off, or was deleted: once, and unchanged. */
    ghost predicate Valid()
      reads this
    {
      Unique(list) && Balanced(Deadlines(), fired, dropped, made)
    }

    constructor ()
      ensures Valid() && list == [] && fired == [] && saved == 0 && clock == 0 && !entered
    {
      list, saved, clock, entered := [], 0, 0, false;
      fired, made, dropped := [], multiset{}, multiset{};
    }

    /** The deadlines. */
    ghost function Deadlines(): seq<Due>
      reads this
    {
      Table(list, clock - saved)
    }

    ghost function TabNow(): Tab
      reads this
    {
      Tab(Deadlines(), clock - saved, clock)
    }

    /** The loop of port_add_timer: the place of a timer that is due `interval` from base on, and its delta there. */
    method FindPlace(interval: nat, ghost base: int, ghost d: Due) returns (p: nat, delta: nat)
      requires d.at == base + interval
      ensures p <= |list| && (p < |list| ==> delta <= list[p].delta) && base + Sum(list[..p]) + delta == d.at
      ensures WithDeadline(Table(list, base), d)
           == Table(list[..p], base) + WithDeadline(Table(list[p..], base + Sum(list[..p])), d)
    {
      hide Table, WithDeadline, Sum;
      Whole(list, base, d);
      delta, p := interval, 0;
      while p < |list| && delta > list[p].delta
        invariant p <= |list| && base + Sum(list[..p]) + delta == d.at
        invariant WithDeadline(Table(list, base), d)
               == Table(list[..p], base) + WithDeadline(Table(list[p..], base + Sum(list[..p])), d)
      {
        StepDown(list, p, base, d);
        delta := delta - list[p].delta;
        p := p + 1;
      }
    }

    /** port_add_timer. The deadline counts from the clock less the time saved up; nobody else's deadline moves, and of
        equal deadlines the one added last comes first. */
    method AddTimer(id: nat, interval: nat)
      requires Valid()
      modifies this`list, this`made
      ensures Valid()
      ensures Deadlines() == if Holds(old(list), id) then old(Deadlines())
                             else WithDeadline(old(Deadlines()), Due(id, clock - saved + interval))
    {
      hide Table, WithDeadline, Sum, Behind, Unique, Balanced, Holds;
      if Holds(list, id) { return; }
      ghost var base, l := clock - saved, list;
      var p, delta := FindPlace(interval, base, Due(id, base + interval));
      if p < |list| { list := list[p := list[p].(delta := list[p].delta - delta)]; }
      list := list[..p] + [Entry(id, delta)] + list[p..];
      Spliced(l, list, p, id, delta);
      Inserted(l, list, p, base, id, delta);
      MoreDeadlines(Table(l, base), Due(id, base + interval), fired, dropped, made);
      made := made + multiset{Due(id, base + interval)};
    }

    /** port_del_timer. Nobody else's deadline moves; if the list becomes empty the saved time is forgotten. */
    method DelTimer(id: nat) returns (found: bool)
      requires Valid()
      modifies this`list, this`saved, this`dropped
      ensures Valid() && found == Holds(old(list), id)
      ensures !found ==> list == old(list) && saved == old(saved)
      ensures found && list != [] ==> saved == old(saved)
      ensures found && list == [] ==> saved == 0
      ensures Table(list, clock - old(saved)) == WithoutTimer(old(Deadlines()), id)
    {
      hide Table, WithoutTimer, Unique, Balanced;
      var p := 0;
      while p < |list| && list[p].id != id
        invariant p <= |list| && forall i :: 0 <= i < p ==> list[i].id != id
      {
        p := p + 1;
      }
      if p == |list| {
        NotInTable(list, clock - saved, id);
        return false;
      }
      Unlink(p, id);
      if list == [] {
        EmptyTable(clock);
        EmptyTable(clock - saved);
        saved := 0;   // port_announce_time(0)
      }
      return true;
    }

    /** The unlinking of port_del_timer. */
    method Unlink(p: nat, ghost id: nat)
      requires Valid() && p < |list| && list[p].id == id && forall i :: 0 <= i < p ==> list[i].id != id
      modifies this`list, this`dropped
      ensures Valid() && Deadlines() == WithoutTimer(old(Deadlines()), id)
    {
      hide Table, WithoutTimer, Sum, Unique, Balanced;
      ghost var base, l := clock - saved, list;
      ghost var t := Table(l, base);
      TableIds(l, base);
      if p + 1 < |list| { list := list[p + 1 := list[p + 1].(delta := list[p + 1].delta + list[p].delta)]; }
      list := list[..p] + list[p + 1..];
      Removed(l, list, p, base);
      RemovedFrom(l, base, p, id);
      FewerDeadlines(t, p, id, fired, dropped, made);
      dropped := dropped + multiset{t[p]};
    }

    /** port_announce_time up to its loop, which a nested call does not reach. */
    method Tell(ms: nat) returns (go: bool)
      requires Valid()
      modifies this`saved, this`clock
      ensures Valid() && clock == old(clock) + ms && go == (list != [] && !entered)
      ensures saved == if list == [] then 0 else old(saved) + ms
      ensures Deadlines() == old(Deadlines())
    {
      hide Table, Unique, Balanced;
      saved, clock := saved + ms, clock + ms;
      if list == [] {
        EmptyTable(clock - saved);
        EmptyTable(clock);
        saved := 0;
        return false;
      }
      return !entered;
    }

    /** A timeout routine of dki.c runs, and uses the list. */
    method RunActs(acts: seq<Act>)
      requires Valid() && Positive(acts) && entered
      modifies this`list, this`saved, this`clock, this`made, this`dropped
      ensures Valid() && clock - saved >= old(clock - saved) && clock >= old(clock)
      ensures Quiet(acts) ==> clock == old(clock) && saved <= old(saved)
      ensures Quiet(acts) ==>
                saved < old(saved) || At(Deadlines(), clock - saved) <= old(At(Deadlines(), clock - saved))
      ensures acts == [] ==> list == old(list) && saved == old(saved)
      ensures TabNow() == AllActed(old(TabNow()), acts)
    {
      hide Table, Unique, Balanced, WithDeadline, WithoutTimer, Holds, HasTimer, At, Valid, AllActed;
      NothingActed(TabNow());
      var i := 0;
      ghost var measure := At(Deadlines(), clock - saved);
      while i < |acts|
        invariant i <= |acts| && Valid() && clock - saved >= old(clock - saved) && clock >= old(clock)
        invariant Quiet(acts) ==> clock == old(clock) && saved <= old(saved)
        invariant Quiet(acts) ==> saved < old(saved) || At(Deadlines(), clock - saved) <= measure
        invariant acts == [] ==> list == old(list) && saved == old(saved)
        invariant TabNow() == AllActed(old(TabNow()), acts[..i])
      {
        ghost var t, base := Deadlines(), clock - saved;
        ActedNext(old(TabNow()), acts, i);
        match acts[i] {
          case Add(id, interval) =>
            HoldsTimer(list, base, id);
            AddTimer(id, interval);
            AtAdd(t, Due(id, base + interval), base);
          case Del(id) =>
            HoldsTimer(list, base, id);
            var found := DelTimer(id);
            HoldsTimer(list, base, id);
            EmptyTable(clock);
            AtDel(t, id, base);
            NothingDue(clock - saved);
          case Tell(ms) =>
            HoldsTimer(list, base, 0);
            var go := Tell(ms);
        }
        i := i + 1;
      }
      assert acts[..|acts|] == acts;
    }

    /** The first timer of the list is taken off it. */
    method Pop() returns (e: Entry, ghost d: Due)
      requires Valid() && list != [] && list[0].delta <= saved
      modifies this`list, this`saved, this`fired
      ensures Valid() && fired == old(fired) + [d] && e == old(list[0]) && d == Due(e.id, clock - saved)
      ensures saved == old(saved) - e.delta && [d] + Deadlines() == old(Deadlines())
      ensures old(At(Deadlines(), clock - saved))
           == if e.delta == 0 then 1 + At(Deadlines(), clock - saved) else 0
    {
      hide Table, Unique, Balanced, At;
      e := list[0];
      d := Due(e.id, clock - saved + e.delta);
      FirstDeadline(list, clock - saved);
      TailUnique(list);
      FiredDeadline(d, Table(list[1..], d.at), fired, dropped, made);
      saved, list, fired := saved - e.delta, list[1..], fired + [d];
    }

    /** The first timer of the list goes off. */
    method Fire(acts: seq<Act>) returns (ghost d: Due)
      requires Valid() && entered && list != [] && list[0].delta <= saved && Positive(acts)
      modifies this`list, this`saved, this`clock, this`fired, this`made, this`dropped
      ensures Valid() && fired == old(fired) + [d] && clock >= old(clock)
      ensures old(clock - saved) <= d.at <= clock - saved
      ensures Quiet(acts) ==> clock == old(clock)
      ensures Quiet(acts) ==> saved < old(saved) || (saved == old(saved)
                              && At(Deadlines(), clock - saved) < old(At(Deadlines(), clock - saved)))
      ensures acts == [] ==> [d] + Deadlines() == old(Deadlines()) && d.at == clock - saved
      ensures old(Deadlines()) == [d] + old(Deadlines())[1..] && d.id == old(list[0].id)
      ensures TabNow() == AllActed(Tab(old(Deadlines())[1..], d.at, old(clock)), acts)
    {
      hide Table, Unique, Balanced, At, Positive, Valid, AllActed;
      var e;
      e, d := Pop();
      RunActs(acts);
    }

    /** port_announce_time. `acts(id, n)` is what the timeout routine of timer id does to the list when it is the n-th
        to go off; it starts timers with positive intervals only, and time is announced in between only while n is below
        `told`. Afterwards exactly the deadlines up to the clock are over, and they went off in order. */
    method Announce(ms: nat, acts: (nat, nat) -> seq<Act>, ghost told: nat) returns (ghost news: seq<Due>)
      requires Valid() && forall id: nat, n: nat :: Positive(acts(id, n)) && (n >= told ==> Quiet(acts(id, n)))
      modifies this
      ensures Valid() && entered == old(entered) && fired == old(fired) + news
      ensures clock >= old(clock) + ms && ((forall id: nat, n: nat :: Quiet(acts(id, n))) ==> clock == old(clock) + ms)
      ensures old(list) == [] || old(entered) ==> news == [] && list == old(list) && clock == old(clock) + ms
      ensures old(list) == [] ==> saved == 0
      ensures old(list) != [] && old(entered) ==> saved == old(saved) + ms
      ensures Ordered(news, old(clock) - old(saved)) && forall d :: d in news ==> d.at <= clock
      ensures !old(entered) ==> forall d :: d in Deadlines() ==> d.at > clock
      ensures !old(entered) && (forall id: nat, n: nat :: acts(id, n) == []) ==> news + Deadlines() == old(Deadlines())
      ensures !old(entered) && old(list) != [] && (forall id: nat, n: nat :: acts(id, n) == []) ==>
                clock - saved == Last(news, old(clock - saved))
      ensures !old(entered) && old(list) != [] ==>
                var t := Tab(old(Deadlines()), old(clock - saved), old(clock) + ms);
                FirstEach(t, news, acts) && TabNow() == AfterFiring(t, news, acts)
    {
      hide Table, Unique, Balanced, At, Positive, Quiet, Ordered, AfterFiring, FirstEach;
      news := [];
      NothingYet(clock - saved);
      var go := Tell(ms);
      if list == [] { EmptyTable(clock - saved); }
      if go {
        entered := true;
        news := FireAll(acts, told);
        entered := false;
      }
    }

    /** The loop of port_announce_time. */
    method FireAll(acts: (nat, nat) -> seq<Act>, ghost told: nat) returns (ghost news: seq<Due>)
      requires Valid() && entered
      requires forall id: nat, n: nat :: Positive(acts(id, n)) && (n >= told ==> Quiet(acts(id, n)))
      modifies this`list, this`saved, this`clock, this`fired, this`made, this`dropped
      ensures Valid() && fired == old(fired) + news
      ensures clock >= old(clock) && ((forall id: nat, n: nat :: Quiet(acts(id, n))) ==> clock == old(clock))
      ensures Ordered(news, old(clock - saved)) && forall d :: d in news ==> d.at <= clock
      ensures forall d :: d in Deadlines() ==> d.at > clock
      ensures (forall id: nat, n: nat :: acts(id, n) == []) ==>
                news + Deadlines() == old(Deadlines()) && clock - saved == Last(news, old(clock - saved))
      ensures FirstEach(old(TabNow()), news, acts) && TabNow() == AfterFiring(old(TabNow()), news, acts)
    {
      hide Table, Unique, Balanced, At, Positive, Quiet, Ordered, AllActed, AfterFiring, FirstEach, Last;
      news := [];
      NothingFired(TabNow(), acts);
      OneMore([], Due(0, 0), [], clock - saved);
      ghost var base := clock - saved;
      NothingYet(base);
      var count := 0;
      while list != [] && list[0].delta <= saved
        invariant Valid() && fired == old(fired) + news && base <= clock - saved && clock >= old(clock)
        invariant (forall id: nat, n: nat :: Quiet(acts(id, n))) ==> clock == old(clock)
        invariant Ordered(news, base) && forall d :: d in news ==> d.at <= clock - saved
        invariant (forall id: nat, n: nat :: acts(id, n) == []) ==>
                    news + Deadlines() == old(Deadlines()) && clock - saved == Last(news, base)
        invariant FirstEach(old(TabNow()), news, acts) && TabNow() == AfterFiring(old(TabNow()), news, acts)
        invariant count == |news|
        decreases if count < told then told - count else 0, saved, At(Deadlines(), clock - saved)
      {
        ghost var d := Fire(acts(list[0].id, count));
        LaterAndLater(news, d, base);
        OneMore(news, d, Deadlines(), base);
        FiredNext(old(TabNow()), news, acts, d);
        news := news + [d];
        count := count + 1;
      }
      AllLater(list, clock, saved);
    }
  }

  lemma NothingYet(base: int)
    ensures Ordered([], base)
  {
  }

  lemma NothingDue(base: int)
    ensures At(Table([], base), base) == 0
  {
  }

  lemma TailUnique(l: seq<Entry>)
    requires Unique(l) && l != []
    ensures Unique(l[1..])
  {
  }

  lemma AllLater(l: seq<Entry>, clock: int, saved: nat)
    requires l == [] || l[0].delta > saved
    ensures forall d :: d in Table(l, clock - saved) ==> d.at > clock
  {
    if l != [] {
      var t := Table(l[1..], clock - saved + l[0].delta);
      TableOrdered(l[1..], clock - saved + l[0].delta);
    }
  }

  lemma MoreDeadlines(t: seq<Due>, d: Due, fired: seq<Due>, dropped: multiset<Due>, made: multiset<Due>)
    requires Balanced(t, fired, dropped, made)
    ensures Balanced(WithDeadline(t, d), fired, dropped, made + multiset{d})
  {
    WithMultiset(t, d);
  }

  lemma {:induction false} WithMultiset(t: seq<Due>, d: Due)
    ensures multiset(WithDeadline(t, d)) == multiset(t) + multiset{d}
  {
    if t != [] && d.at > t[0].at {
      WithMultiset(t[1..], d);
      assert t == [t[0]] + t[1..];
    }
  }

  lemma FewerDeadlines(t: seq<Due>, p: nat, id: nat, fired: seq<Due>, dropped: multiset<Due>, made: multiset<Due>)
    requires Balanced(t, fired, dropped, made) && p < |t| && t[p].id == id && forall i :: 0 <= i < p ==> t[i].id != id
    ensures Balanced(WithoutTimer(t, id), fired, dropped + multiset{t[p]}, made)
  {
    WithoutMultiset(t, p, id);
  }

  lemma {:induction false} WithoutMultiset(t: seq<Due>, p: nat, id: nat)
    requires p < |t| && t[p].id == id && forall i :: 0 <= i < p ==> t[i].id != id
    ensures multiset(t) == multiset(WithoutTimer(t, id)) + multiset{t[p]}
  {
    assert t == [t[0]] + t[1..];
    if p > 0 { WithoutMultiset(t[1..], p - 1, id); }
  }

  lemma FiredDeadline(d: Due, t: seq<Due>, fired: seq<Due>, dropped: multiset<Due>, made: multiset<Due>)
    requires Balanced([d] + t, fired, dropped, made)
    ensures Balanced(t, fired + [d], dropped, made)
  {
  }

  lemma FirstDeadline(l: seq<Entry>, base: int)
    requires l != []
    ensures Table(l, base) == [Due(l[0].id, base + l[0].delta)] + Table(l[1..], base + l[0].delta)
    ensures At(Table(l, base), base) == if l[0].delta == 0 then 1 + At(Table(l[1..], base), base) else 0
  {
    var d, rest := Due(l[0].id, base + l[0].delta), Table(l[1..], base + l[0].delta);
    AtCons(d, rest, base);
    if l[0].delta > 0 {
      TableOrdered(l[1..], d.at);
      NoneAt(rest, base);
    }
  }

  lemma AtCons(d: Due, rest: seq<Due>, at: int)
    ensures At([d] + rest, at) == (if d.at == at then 1 else 0) + At(rest, at)
  {
    assert ([d] + rest)[1..] == rest;
  }

  lemma {:induction false} NoneAt(t: seq<Due>, at: int)
    requires forall d :: d in t ==> d.at > at
    ensures At(t, at) == 0
  {
    if t != [] {
      assert t[0] in t;
      NoneAt(t[1..], at);
    }
  }

  lemma OneMore(news: seq<Due>, d: Due, rest: seq<Due>, base: int)
    ensures Last(news + [d], base) == d.at && Last([], base) == base
    ensures (news + [d]) + rest == news + ([d] + rest)
  {
  }

  lemma LaterAndLater(news: seq<Due>, d: Due, base: int)
    requires Ordered(news, base) && base <= d.at && forall x :: x in news ==> x.at <= d.at
    ensures Ordered(news + [d], base)
  {
    var n := news + [d];
    forall i, j | 0 <= i < j < |n| ensures n[i].at <= n[j].at { assert n[i] in news; }
  }

  lemma EmptyTable(base: int)
    ensures Table([], base) == []
  {
  }

  lemma {:induction false} AtAdd(t: seq<Due>, d: Due, at: int)
    requires d.at != at
    ensures At(WithDeadline(t, d), at) == At(t, at)
  {
    if t != [] && d.at > t[0].at {
      AtAdd(t[1..], d, at);
      assert WithDeadline(t, d)[1..] == WithDeadline(t[1..], d);
    } else {
      assert WithDeadline(t, d)[1..] == t;
    }
  }

  lemma {:induction false} AtDel(t: seq<Due>, id: nat, at: int)
    ensures At(WithoutTimer(t, id), at) <= At(t, at)
  {
    if t != [] && t[0].id != id {
      AtDel(t[1..], id, at);
      assert WithoutTimer(t, id)[1..] == WithoutTimer(t[1..], id);
    }
  }

  lemma {:induction false} NotInTable(l: seq<Entry>, base: int, id: nat)
    requires forall i :: 0 <= i < |l| ==> l[i].id != id
    ensures WithoutTimer(Table(l, base), id) == Table(l, base)
  {
    if l != [] {
      assert l[0].id != id;
      NotInTable(l[1..], base + l[0].delta, id);
      assert Table(l, base)[1..] == Table(l[1..], base + l[0].delta);
    }
  }

  /** The list behind an entry that leaves: the next one inherits its delta. */
  ghost function Inherits(l: seq<Entry>, delta: nat): seq<Entry> {
    if l == [] then [] else [l[0].(delta := l[0].delta + delta)] + l[1..]
  }

  lemma SameDeadlines(l: seq<Entry>, b: int, delta: nat)
    ensures Table(Inherits(l, delta), b) == Table(l, b + delta)
  {
    if l != [] { assert Inherits(l, delta)[1..] == l[1..]; }
  }

  /** Adding the delta of an entry to the next one keeps the deadlines behind it. */
  lemma Removed(l: seq<Entry>, l': seq<Entry>, p: nat, base: int)
    requires p < |l| && Unique(l)
    requires var l1 := if p + 1 < |l| then l[p + 1 := l[p + 1].(delta := l[p + 1].delta + l[p].delta)] else l;
             l' == l1[..p] + l1[p + 1..]
    ensures Table(l', base) == Table(l[..p], base) + Table(l[p + 1..], base + Sum(l[..p]) + l[p].delta)
    ensures Unique(l')
  {
    hide Table, Sum, Unique, Inherits;
    Bridged(l, l', p);
    TableCat(l[..p], Inherits(l[p + 1..], l[p].delta), base);
    SameDeadlines(l[p + 1..], base + Sum(l[..p]), l[p].delta);
    StillUnique(l, l', p);
  }

  lemma Bridged(l: seq<Entry>, l': seq<Entry>, p: nat)
    requires p < |l|
    requires var l1 := if p + 1 < |l| then l[p + 1 := l[p + 1].(delta := l[p + 1].delta + l[p].delta)] else l;
             l' == l1[..p] + l1[p + 1..]
    ensures l' == l[..p] + Inherits(l[p + 1..], l[p].delta)
    ensures |l'| == |l| - 1 && forall i :: 0 <= i < |l'| ==> l'[i].id == l[if i < p then i else i + 1].id
  {
    var rest := l[p + 1..];
    if p + 1 < |l| {
      var x := l[p + 1].(delta := l[p + 1].delta + l[p].delta);
      assert l[p + 1 := x][..p] == l[..p];
      assert l[p + 1 := x][p + 1..] == [x] + rest[1..];
    }
  }

  lemma StillUnique(l: seq<Entry>, l': seq<Entry>, p: nat)
    requires p < |l| && Unique(l) && |l'| == |l| - 1
    requires forall i :: 0 <= i < |l'| ==> l'[i].id == l[if i < p then i else i + 1].id
    ensures Unique(l')
  {
  }

  lemma {:induction false} RemovedFrom(l: seq<Entry>, base: int, p: nat, id: nat)
    requires p < |l| && l[p].id == id && forall i :: 0 <= i < p ==> l[i].id != id
    ensures WithoutTimer(Table(l, base), id) == Table(l[..p], base) + Table(l[p + 1..], base + Sum(l[..p]) + l[p].delta)
  {
    var t := Table(l, base);
    assert t[1..] == Table(l[1..], base + l[0].delta);
    if p == 0 {
      assert l[..0] == [];
    } else {
      RemovedFrom(l[1..], base + l[0].delta, p - 1, id);
      var front := l[..p];
      assert front[1..] == l[1..][..p - 1] && l[1..][p..] == l[p + 1..];
      assert Table(front, base) == [t[0]] + Table(front[1..], base + l[0].delta);
      assert Sum(front) == l[0].delta + Sum(front[1..]);
    }
  }

  lemma SumSnoc(l: seq<Entry>, p: nat)
    requires p < |l|
    ensures Sum(l[..p + 1]) == Sum(l[..p]) + l[p].delta
  {
    SumCat(l[..p], [l[p]]);
    assert l[..p + 1] == l[..p] + [l[p]];
    assert [l[p]][1..] == [];
  }

  lemma {:induction false} SumCat(a: seq<Entry>, b: seq<Entry>)
    ensures Sum(a + b) == Sum(a) + Sum(b)
  {
    if a == [] {
      assert a + b == b;
    } else {
      assert (a + b)[1..] == a[1..] + b;
      SumCat(a[1..], b);
    }
  }

  lemma StepDown(l: seq<Entry>, p: nat, base: int, d: Due)
    requires p < |l| && d.at > base + Sum(l[..p]) + l[p].delta
    ensures Sum(l[..p + 1]) == Sum(l[..p]) + l[p].delta
    ensures Table(l[..p], base) + WithDeadline(Table(l[p..], base + Sum(l[..p])), d)
         == Table(l[..p + 1], base) + WithDeadline(Table(l[p + 1..], base + Sum(l[..p + 1])), d)
  {
    hide Table, WithDeadline, Sum;
    SumSnoc(l, p);
    var b := base + Sum(l[..p]);
    var x, rest := Due(l[p].id, b + l[p].delta), Table(l[p + 1..], b + l[p].delta);
    TableSnoc(l, p, base);
    TableStep(l, p, b);
    Passes(x, rest, d);
    assert Table(l[..p], base) + ([x] + WithDeadline(rest, d)) == Table(l[..p], base) + [x] + WithDeadline(rest, d);
  }

  lemma Passes(x: Due, rest: seq<Due>, d: Due)
    requires d.at > x.at
    ensures WithDeadline([x] + rest, d) == [x] + WithDeadline(rest, d)
  {
    assert ([x] + rest)[1..] == rest;
  }

  lemma TableStep(l: seq<Entry>, p: nat, b: int)
    requires p < |l|
    ensures Table(l[p..], b) == [Due(l[p].id, b + l[p].delta)] + Table(l[p + 1..], b + l[p].delta)
  {
    assert l[p..][1..] == l[p + 1..];
  }

  lemma TableSnoc(l: seq<Entry>, p: nat, base: int)
    requires p < |l|
    ensures Table(l[..p + 1], base) == Table(l[..p], base) + [Due(l[p].id, base + Sum(l[..p]) + l[p].delta)]
  {
    TableCat(l[..p], [l[p]], base);
    assert l[..p + 1] == l[..p] + [l[p]];
    TableStep([l[p]], 0, base + Sum(l[..p]));
  }

  /** The list from place p on once a new entry stands there. */
  ghost function Behind(l: seq<Entry>, p: nat, id: nat, delta: nat): seq<Entry>
    requires p <= |l| && (p < |l| ==> delta <= l[p].delta)
  {
    [Entry(id, delta)] + (if p < |l| then [l[p].(delta := l[p].delta - delta)] + l[p + 1..] else [])
  }

  lemma Whole(l: seq<Entry>, base: int, d: Due)
    ensures Sum(l[..0]) == 0
    ensures WithDeadline(Table(l, base), d) == Table(l[..0], base) + WithDeadline(Table(l[0..], base + Sum(l[..0])), d)
  {
    assert l[0..] == l;
  }

  lemma Spliced(l: seq<Entry>, l': seq<Entry>, p: nat, id: nat, delta: nat)
    requires p <= |l| && (p < |l| ==> delta <= l[p].delta) && Unique(l) && !Holds(l, id)
    requires var l1 := if p < |l| then l[p := l[p].(delta := l[p].delta - delta)] else l;
             l' == l1[..p] + [Entry(id, delta)] + l1[p..]
    ensures l' == l[..p] + Behind(l, p, id, delta) && Unique(l')
  {
    InsertedUnique(l, l', p, id);
  }

  /** Splitting the delta of the entry after the new one keeps all deadlines. */
  lemma Inserted(l: seq<Entry>, l': seq<Entry>, p: nat, base: int, id: nat, delta: nat)
    requires p <= |l| && (p < |l| ==> delta <= l[p].delta) && l' == l[..p] + Behind(l, p, id, delta)
    ensures var b := base + Sum(l[..p]);
            Table(l', base) == Table(l[..p], base) + WithDeadline(Table(l[p..], b), Due(id, b + delta))
  {
    TableCat(l[..p], Behind(l, p, id, delta), base);
    SplitDelta(l[p..], base + Sum(l[..p]), id, delta);
    if p < |l| { assert l[p..][1..] == l[p + 1..]; }
    assert Behind(l, p, id, delta) == Behind(l[p..], 0, id, delta);
  }

  lemma SplitDelta(l: seq<Entry>, b: int, id: nat, delta: nat)
    requires l != [] ==> delta <= l[0].delta
    ensures Table(Behind(l, 0, id, delta), b) == WithDeadline(Table(l, b), Due(id, b + delta))
  {
    var n := Behind(l, 0, id, delta);
    if l == [] {
      assert n[1..] == [];
    } else {
      assert n[1..] == [l[0].(delta := l[0].delta - delta)] + l[1..];
      assert n[1..][1..] == l[1..];
    }
  }

  lemma InsertedUnique(l: seq<Entry>, l': seq<Entry>, p: nat, id: nat)
    requires p <= |l| && |l'| == |l| + 1 && Unique(l) && !Holds(l, id) && l'[p].id == id
    requires forall i :: 0 <= i < p ==> l'[i].id == l[i].id
    requires forall i :: p <= i < |l| ==> l'[i + 1].id == l[i].id
    ensures Unique(l')
  {
    forall i, j | 0 <= i < j < |l'| ensures l'[i].id != l'[j].id {
      assert i != p ==> l'[i].id == l[if i < p then i else i - 1].id;
      assert j != p ==> l'[j].id == l[if j < p then j else j - 1].id;
    }
  }

  /** Time that passed after the last timer went off stays saved when the list has run empty, and is taken off the next
      timer: whatever its interval, it counts from the last deadline. So it goes off early exactly if the announcement
      came after that deadline. */
  method EarlyTimer(t: Timers, ms: nat, id: nat, interval: nat)
    requires t.Valid() && !t.entered && t.list != [] && forall d :: d in t.Deadlines() ==> d.at <= t.clock + ms
    modifies t
    ensures t.Valid() && t.clock == old(t.clock) + ms
    ensures var due := old(t.Deadlines());
            due != [] &&
            var last := due[|due| - 1].at;
            && t.Deadlines() == [Due(id, last + interval)]
            && (t.Deadlines()[0].at < t.clock + interval <==> last < t.clock)
  {
    hide Table, WithDeadline, Ordered, Balanced, Unique, AfterFiring, FirstEach;
    ghost var due := t.Deadlines();
    TableIds(t.list, t.clock - t.saved);
    ghost var last := due[|due| - 1].at;
    var news := t.Announce(ms, (id, n) => [], 0);
    AllGone(news, t.Deadlines(), due, t.clock);
    TableIds(t.list, t.clock - t.saved);
    InEmpty(Due(id, last + interval), last);
    t.AddTimer(id, interval);
  }

  /** After 15 ms with a 10 ms timer, a new 10 ms timer is due 5 ms from now. */
  method EarlyByFive(t: Timers)
    requires t.Valid() && !t.entered && t.list == [Entry(1, 10)] && t.saved == 0
    modifies t
    ensures t.Valid() && t.clock == old(t.clock) + 15 && t.Deadlines() == [Due(2, t.clock + 5)]
  {
    assert t.list[1..] == [];
    EmptyTable(t.clock + 10);
    assert t.Deadlines() == [Due(1, t.clock + 10)];
    EarlyTimer(t, 15, 2, 10);
  }

  lemma InEmpty(d: Due, base: int)
    ensures Table([], base) == [] && WithDeadline([], d) == [d]
  {
  }

  lemma InBoth(news: seq<Due>, rest: seq<Due>)
    ensures rest != [] ==> exists d :: d in rest && d in news + rest
  {
    if rest != [] { assert rest[0] in rest; }
  }

  lemma AllGone(news: seq<Due>, rest: seq<Due>, due: seq<Due>, clock: int)
    requires news + rest == due && due != [] && forall d :: d in due ==> d.at <= clock
    requires forall d :: d in rest ==> d.at > clock
    ensures rest == [] && Last(news, 0) == due[|due| - 1].at && news != []
  {
    InBoth(news, rest);
  }
}
