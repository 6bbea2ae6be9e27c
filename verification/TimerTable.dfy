/** The hashed table of timeouts (head/dki.c). */
module TimerTable {
  import opened Common

  const THASH: int := 757

  /** Handles are below 2^31. */
  const ROLLOVER: int := 0x8000_0000

  class Timer {
    var handle: int
    var fcn: Option<nat>

    constructor ()
      ensures handle == 0 && fcn == None
    {
      handle, fcn := 0, None;
    }
  }

  /** A handle that alloc_handle may give out. */
  predicate Usable(h: int) { 0 < h < ROLLOVER && h % THASH != 0 }

  ghost function UsableHandles(): set<int> { set h | 0 < h < ROLLOVER && h % THASH != 0 }

  /** The handle that the counter makes after n steps. */
  function Made(counter: int, n: nat): int { (counter + n) % ROLLOVER }

  /** Every usable handle comes up within one turn of the counter. */
  lemma ComesUp(counter: int, h: int) returns (n: nat)
    requires 0 <= h < ROLLOVER
    ensures 0 < n <= ROLLOVER && Made(counter, n) == h
  {
    n := (h - counter - 1) % ROLLOVER + 1;
    var q := (h - counter - 1) / ROLLOVER;
    assert counter + n == h - q * ROLLOVER;
    Turn(h, -q);
  }

  lemma Turn(h: int, q: int)
    requires 0 <= h < ROLLOVER
    ensures (h + q * ROLLOVER) % ROLLOVER == h
  {
  }

  /** There is a handle to give out as long as fewer timers are live than there are usable handles. */
  lemma OneIsFree(live: set<int>)
    requires |live| < |UsableHandles()|
    ensures exists h :: Free(h, live)
  {
    if forall h :: !Free(h, live) {
      assert forall h :: h in UsableHandles() ==> h in live || Free(h, live);
      SubsetCard(UsableHandles(), live);
    }
  }

  lemma {:induction false} SubsetCard<T>(a: set<T>, b: set<T>)
    requires a <= b
    ensures |a| <= |b|
    decreases |a|
  {
    if a != {} {
      var x :| x in a;
      SubsetCard(a - {x}, b - {x});
    }
  }

  ghost predicate Free(h: int, taken: set<int>) { Usable(h) && h !in taken }

  /** The counter has gone to the next free handle, at most one turn. */
  ghost predicate FirstFree(counter: nat, counter': nat, handle: int, taken: set<int>) {
    && counter < counter' <= counter + ROLLOVER
    && handle == Made(counter, counter' - counter) && Free(handle, taken)
    && forall m: nat :: 0 < m < counter' - counter ==> !Free(Made(counter, m), taken)
  }

  /** Every timer structure is on exactly the list its handle hashes to; list 0 has those that are free, handle 0; the
      handles of the live ones are usable, and each names its timer. */
  ghost predicate Sound(hs: seq<seq<Timer>>, live: map<int, Timer>, repr: set<Timer>)
    reads repr
  {
    && |hs| == THASH
    && (forall i, t :: 0 <= i < THASH && t in hs[i] ==> t in repr && OnList(t, i, live, repr))
    && (forall t :: t in repr ==> 0 <= t.handle && t in hs[t.handle % THASH])
    && (forall h :: h in live ==> IsLive(h, live, repr))
    && (forall i, j, k :: 0 <= i < THASH && 0 <= j < k < |hs[i]| ==> hs[i][j] != hs[i][k])
  }

  ghost predicate OnList(t: Timer, i: int, live: map<int, Timer>, repr: set<Timer>)
    requires t in repr
    reads repr
  {
    if i == 0 then t.handle == 0 else t.handle % THASH == i && t.handle in live && live[t.handle] == t
  }

  ghost predicate IsLive(h: int, live: map<int, Timer>, repr: set<Timer>)
    requires h in live
    reads repr
  {
    Usable(h) && live[h] in repr && live[h].handle == h
  }

  /** A list without a timer. */
  ghost function Without(l: seq<Timer>, tp: Timer): seq<Timer> {
    if l == [] then [] else if l[0] == tp then l[1..] else [l[0]] + Without(l[1..], tp)
  }

  ghost predicate NoDuplicates(l: seq<Timer>) { forall j, k :: 0 <= j < k < |l| ==> l[j] != l[k] }

  lemma {:induction false} WithoutMembers(l: seq<Timer>, tp: Timer)
    requires NoDuplicates(l)
    ensures forall t :: t in Without(l, tp) <==> t in l && t != tp
    ensures NoDuplicates(Without(l, tp))
  {
    if l != [] {
      WithoutMembers(l[1..], tp);
      assert l == [l[0]] + l[1..];
      if l[0] != tp {
        var w := Without(l[1..], tp);
        forall j, k | 0 <= j < k < |w| + 1 ensures ([l[0]] + w)[j] != ([l[0]] + w)[k] {
          if j == 0 { assert w[k - 1] in w; }
        }
      }
    }
  }

  /** A timer leaves its list. */
  lemma TakenOff(hs: seq<seq<Timer>>, live: map<int, Timer>, repr: set<Timer>, tp: Timer)
    requires Sound(hs, live, repr) && tp in repr && tp.handle >= 0
    ensures var i := tp.handle % THASH;
      Sound(hs[i := Without(hs[i], tp)], if i == 0 then live else live - {tp.handle}, repr - {tp})
  {
    var i := tp.handle % THASH;
    var hs', live', repr' := hs[i := Without(hs[i], tp)], if i == 0 then live else live - {tp.handle}, repr - {tp};
    WithoutMembers(hs[i], tp);
    assert OnList(tp, i, live, repr);
    forall g, t | 0 <= g < THASH && t in hs'[g] ensures t in repr' && OnList(t, g, live', repr') {
      assert OnList(t, g, live, repr);
    }
    forall h | h in live' ensures IsLive(h, live', repr') { assert IsLive(h, live, repr); }
    forall t | t in repr' ensures 0 <= t.handle && t in hs'[t.handle % THASH] { }
    forall g, j, k | 0 <= g < THASH && 0 <= j < k < |hs'[g]| ensures hs'[g][j] != hs'[g][k] { }
  }

  /** A timer with handle 0 goes on list 0. */
  lemma PutFree(hs: seq<seq<Timer>>, live: map<int, Timer>, repr: set<Timer>, tp: Timer)
    requires Sound(hs, live, repr) && tp !in repr && tp.handle == 0
    ensures Sound(hs[0 := [tp] + hs[0]], live, repr + {tp})
  {
    var hs', repr' := hs[0 := [tp] + hs[0]], repr + {tp};
    forall g, t | 0 <= g < THASH && t in hs'[g] ensures t in repr' && OnList(t, g, live, repr') {
      if t != tp { assert OnList(t, g, live, repr); }
    }
    forall h | h in live ensures IsLive(h, live, repr') { assert IsLive(h, live, repr); }
    forall t | t in repr' ensures 0 <= t.handle && t in hs'[t.handle % THASH] { }
    forall g, j, k | 0 <= g < THASH && 0 <= j < k < |hs'[g]| ensures hs'[g][j] != hs'[g][k] {
      if g == 0 && j == 0 { assert hs'[0][k] == hs[0][k - 1]; }
    }
  }

  /** A timer with a new handle goes on the list of the handle. */
  lemma PutLive(hs: seq<seq<Timer>>, live: map<int, Timer>, repr: set<Timer>, tp: Timer, h: int)
    requires Sound(hs, live, repr) && tp !in repr && tp.handle == h && Free(h, live.Keys)
    ensures Sound(hs[h % THASH := [tp] + hs[h % THASH]], live[h := tp], repr + {tp})
  {
    var i := h % THASH;
    var hs', live', repr' := hs[i := [tp] + hs[i]], live[h := tp], repr + {tp};
    forall g, t | 0 <= g < THASH && t in hs'[g] ensures t in repr' && OnList(t, g, live', repr') {
      if t != tp { assert OnList(t, g, live, repr); }
    }
    forall x | x in live' ensures IsLive(x, live', repr') { if x != h { assert IsLive(x, live, repr); } }
    forall t | t in repr' ensures 0 <= t.handle && t in hs'[t.handle % THASH] { }
    forall g, j, k | 0 <= g < THASH && 0 <= j < k < |hs'[g]| ensures hs'[g][j] != hs'[g][k] {
      if g == i && j == 0 { assert hs'[i][k] == hs[i][k - 1]; }
    }
  }

  class Table {
    const heads: array<seq<Timer>>   // lis_tlist_heads
    var counter: nat                 // lis_tlist_handle, counted without rolling over
    ghost var live: map<int, Timer>
    ghost var repr: set<Timer>

    ghost predicate Valid()
      reads this`live, this`repr, heads, repr
    {
      heads.Length == THASH && Sound(heads[..], live, repr)
    }

    constructor ()
      ensures Valid() && live == map[] && fresh(heads) && fresh(repr)
    {
      heads := new seq<Timer>[THASH](_ => []);
      counter, live, repr := 0, map[], {};
    }

    /** find_timer_by_handle. */
    method Find(handle: int) returns (r: Option<Timer>)
      requires Valid() && handle >= 0
      ensures handle != 0 ==> r == if handle in live then Some(live[handle]) else None
      ensures handle == 0 ==> r == if heads[0] == [] then None else Some(heads[0][0])
    {
      var l := heads[handle % THASH];
      assert l == heads[..][handle % THASH];
      var j := 0;
      while j < |l|
        invariant j <= |l| && (forall k :: 0 <= k < j ==> l[k].handle != handle) && (handle == 0 ==> j == 0)
      {
        assert OnList(l[j], handle % THASH, live, repr);
        if l[j].handle == handle { return Some(l[j]); }
        j := j + 1;
      }
      assert handle in live ==> IsLive(handle, live, repr);
      return None;
    }

    /** alloc_handle: the next usable handle that no timer has; one comes up unless all are taken. */
    method AllocHandle() returns (handle: int)
      requires Valid() && exists h :: Free(h, live.Keys)
      modifies this`counter
      ensures Valid() && FirstFree(old(counter), counter, handle, live.Keys)
    {
      hide Sound;
      ghost var h :| Free(h, live.Keys);
      ghost var last := ComesUp(counter, h);
      ghost var n: nat := 0;
      var c0 := counter;
      handle := 0;
      while true
        invariant Valid() && counter == c0 + n && n < last
        invariant forall m: nat :: 0 < m <= n ==> !Free(Made(c0, m), live.Keys)
        decreases last - n
      {
        counter := counter + 1;
        n := n + 1;
        handle := counter % ROLLOVER;
        if handle % THASH != 0 {
          var tp := Find(handle);
          if tp.None? { break; }
        }
      }
    }

    /** enter_timer_in_list. */
    method Enter(tp: Timer)
      requires heads.Length == THASH && tp.handle >= 0
      modifies heads
      ensures heads[..] == old(heads[..])[tp.handle % THASH := [tp] + old(heads[..])[tp.handle % THASH]]
    {
      heads[tp.handle % THASH] := [tp] + heads[tp.handle % THASH];
    }

    /** remove_timer_from_list. */
    method Remove(tp: Timer) returns (found: bool)
      requires heads.Length == THASH && tp.handle >= 0
      modifies heads
      ensures found == (tp in old(heads[..])[tp.handle % THASH])
      ensures heads[..] == old(heads[..])[tp.handle % THASH := Without(old(heads[..])[tp.handle % THASH], tp)]
    {
      var i := tp.handle % THASH;
      var l, j := heads[i], 0;
      ghost var hs := heads[..];
      assert l[0..] == l && hs[i] == l;
      while j < |l| && l[j] != tp
        invariant j <= |l| && tp !in l[..j]
        invariant Without(l, tp) == l[..j] + Without(l[j..], tp)
      {
        assert l[j..][1..] == l[j + 1..];
        j := j + 1;
      }
      if j < |l| {
        assert l[j..][1..] == l[j + 1..];
        heads[i] := l[..j] + l[j + 1..];
      } else {
        assert l[j..] == [] && l[..j] == l;
        assert Without(l, tp) == l && hs[i := l] == hs;
      }
      return j < |l|;
    }

    /** alloc_timer: from list 0, or from memory if there is some. */
    method AllocTimer(mem: bool) returns (tp: Timer?)
      requires Valid()
      modifies heads, this`repr
      ensures Valid() && (tp == null <==> !mem && old(heads[0]) == [])
      ensures tp != null ==> tp !in repr && (fresh(tp) || (tp in old(heads[0]) && tp in old(repr)))
      ensures repr == if tp == null || fresh(tp) then old(repr) else old(repr) - {tp}
    {
      if heads[0] == [] {
        if mem { tp := new Timer(); } else { tp := null; }
        return;
      }
      tp := heads[0][0];
      ghost var hs := heads[..];
      assert tp in hs[0] && OnList(tp, 0, live, repr);
      TakenOff(hs, live, repr, tp);
      heads[0] := heads[0][1..];
      repr := repr - {tp};
      assert heads[..] == hs[0 := Without(hs[0], tp)];
    }

    /** lis_timeout_fcn: a free timer structure, or a new one, gets a free handle and goes on the list of the handle. */
    method Timeout(fcn: nat, mem: bool) returns (handle: int)
      requires Valid() && exists h :: Free(h, live.Keys)
      modifies this`counter, this`live, this`repr, heads, repr
      ensures Valid() && (handle == 0 <==> !mem && old(heads[0]) == [])
      ensures handle == 0 ==> live == old(live) && repr == old(repr)
      ensures handle != 0 ==> handle in live && repr == old(repr) + {live[handle]}
      ensures handle != 0 ==> handle !in old(live) && handle in live && live == old(live)[handle := live[handle]]
      ensures handle != 0 ==> live[handle].fcn == Some(fcn) && (fresh(live[handle]) || live[handle] in old(heads[0]))
    {
      hide Sound;
      var tp := AllocTimer(mem);
      if tp == null { return 0; }
      handle := AllocHandle();
      tp.handle, tp.fcn := handle, Some(fcn);
      PutLive(heads[..], live, repr, tp, handle);
      live := live[handle := tp];
      Enter(tp);
      repr := repr + {tp};
    }

    /** lis_untimeout: the timer goes back to list 0. `stopped` says that the system timer of a structure is stopped;
        with handle 0 it is that of a free one. */
    method Untimeout(id: int) returns (stopped: bool)
      requires Valid() && id >= 0
      modifies this`live, this`repr, heads, repr
      ensures Valid() && live == old(live) - {id} && repr == old(repr)
      ensures stopped == if id == 0 then old(heads[0]) != [] else id in old(live)
      ensures id == 0 ==> heads[..] == old(heads[..])
    {
      hide Sound;
      var r := Find(id);
      Listed(id);
      if r.None? {
        assert live - {id} == live;
        return false;
      }
      var tp := r.value;
      ghost var hs := heads[..];
      TakenOff(hs, live, repr, tp);
      var found := Remove(tp);
      live, repr := (if id % THASH == 0 then live else live - {id}), repr - {tp};
      tp.handle := 0;
      PutFree(heads[..], live, repr, tp);
      Enter(tp);
      repr := repr + {tp};
      if id == 0 {
        assert [tp] + Without(hs[0], tp) == hs[0];
        assert heads[..] == hs;
      }
      return true;
    }

    lemma Listed(id: int)
      requires Valid()
      ensures id == 0 && heads[0] != [] ==> heads[0][0] in repr && heads[0][0].handle == 0
      ensures id in live ==> live[id] in repr && live[id].handle == id && id % THASH != 0 && id > 0
      ensures 0 !in live
    {
      assert heads[0] != [] ==> heads[0][0] in heads[..][0] && OnList(heads[0][0], 0, live, repr);
      assert forall h :: h in live ==> IsLive(h, live, repr);
    }

    /** sys_timeout_fcn: the system timer of tp has expired. Its function is called only if tp is live. */
    method Expire(tp: Timer) returns (fcn: Option<nat>)
      requires Valid() && tp in repr
      modifies this`live, this`repr, heads, repr
      ensures Valid() && live == old(live) - {old(tp.handle)} && repr == old(repr)
      ensures fcn == if old(tp.handle) in old(live) then old(tp.fcn) else None
      ensures forall h :: h in live ==> live[h].fcn == old(live[h].fcn)
    {
      hide Sound;
      Member(tp);
      ghost var hs, h := heads[..], tp.handle;
      TakenOff(hs, live, repr, tp);
      var found := Remove(tp);
      fcn := if tp.handle != 0 then tp.fcn else None;
      live, repr := (if h % THASH == 0 then live else live - {h}), repr - {tp};
      tp.handle, tp.fcn := 0, None;
      PutFree(heads[..], live, repr, tp);
      Enter(tp);
      repr := repr + {tp};
    }

    lemma Member(tp: Timer)
      requires Valid() && tp in repr
      ensures tp.handle >= 0 && tp in heads[..][tp.handle % THASH]
      ensures tp.handle % THASH == 0 <==> tp.handle == 0
      ensures tp.handle % THASH != 0 <==> tp.handle in live
      ensures tp.handle in live ==> live[tp.handle] == tp
      ensures forall h :: h in live && h != tp.handle ==> live[h] != tp && live[h] in repr
    {
      assert OnList(tp, tp.handle % THASH, live, repr);
      assert tp.handle in live ==> IsLive(tp.handle, live, repr);
      assert forall h :: h in live ==> IsLive(h, live, repr);
    }
  }
}
