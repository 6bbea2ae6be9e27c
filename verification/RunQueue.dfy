/** Scheduling of service procedures (head/stream.c, head/queue.c, head/head.c).

  Queues wait on the run list (`lis_qhead`) and on the scan list (`lis_scanqhead`); any number of runner threads take
  them off, one at a time; lis_qdetach takes a queue pair out of both lists, waits until no runner is busy with it,
  and frees it. Every operation below is one section under a lock of the source.

  Three invariants build on each other. `Inv` holds in every run; `ScanOk` as long as no queue enters the scan list
  while a runner is taking it off; `Tidy`, each queue in one place at a time, exactly as long as callers stay `Orderly`.
  */
module RunQueue {
  /** One side of a queue pair. */
  datatype Qid = Qid(pair: nat, write: bool)

  /** The scheduling bits of q_flag; `srv` says whether the queue has a service procedure, and the history variables
      which runner took the queue off a list last (`taker`), and which off the run list (`picker`). */
  datatype Queue = Queue(srv: bool, enab: bool, scan: bool, running: bool, procsoff: bool, closing: bool,
                         opening: bool, frozen: bool, wantenab: bool, waiting: bool, taker: nat, picker: nat)
  {
    /** Q_INH_ENABLE. */
    predicate Inhibited() { Deferring() || closing }

    /** Q_DEFER_ENABLE. */
    predicate Deferring() { enab || procsoff || running || opening || frozen }

    /** The bits lis_await_qsched waits for. */
    predicate InUse() { enab || scan || running }
  }

  /** A runner between two lock sections of queuerun. */
  datatype Runner =
    | Rest
    | ScanPicked(q: Qid)   // off the scan list, QRUNNING set
    | Scanning(q: Qid)     // QSCAN cleared, sends the held message
    | Picked(q: Qid)       // off the run list, QRUNNING set
    | Serving(q: Qid)      // QENAB cleared, in the service procedure
  {
    predicate On(k: Qid) { !Rest? && q == k }
  }

  /** How far lis_qdetach has got with a pair: QPROCSOFF set, descheduled, asleep in lis_await_qsched, past it. */
  datatype Detach = Off | Await | Asleep | Ready

  /** `owed` is a history variable: the queues for which lis_qenable was called since their service last started. */
  datatype State = State(qs: map<Qid, Queue>, runq: seq<Qid>, scanq: seq<Qid>, cnt: int, runners: map<nat, Runner>,
                         detach: map<nat, Detach>, owed: set<Qid>)

  datatype Op =
    | Enable(q: Qid) | Retry(q: Qid) | Freeze(q: Qid) | Thaw(q: Qid) | ScanAdd(q: Qid)
    | PickScan(r: nat) | ClearScan(r: nat) | EndScan(r: nat) | PickRun(r: nat) | Clear(r: nat) | EndRun(r: nat)
    | Close(p: nat) | CloseDeschedule(p: nat)
    | DetachOff(p: nat) | Deschedule(p: nat) | AwaitIdle(p: nat) | Free(p: nat)

  predicate HasPair(s: State, p: nat) { Qid(p, false) in s.qs && Qid(p, true) in s.qs }

  /** When an operation can happen. Only the write queue of a pair is ever put on the scan list. */
  predicate Can(s: State, op: Op) {
    match op
    case Enable(q) => q in s.qs
    case Retry(q) => q in s.qs
    case Freeze(q) => q in s.qs
    case Thaw(q) => q in s.qs
    case ScanAdd(q) => q in s.qs && q.write
    case PickScan(r) => r in s.runners && s.runners[r].Rest? && s.scanq != [] && s.scanq[0] in s.qs
    case ClearScan(r) => r in s.runners && s.runners[r].ScanPicked? && s.runners[r].q in s.qs
    case EndScan(r) => r in s.runners && s.runners[r].Scanning? && s.runners[r].q in s.qs
    case PickRun(r) => r in s.runners && s.runners[r].Rest? && s.runq != [] && s.runq[0] in s.qs
    case Clear(r) => r in s.runners && s.runners[r].Picked? && s.runners[r].q in s.qs
    case EndRun(r) => r in s.runners && s.runners[r].Serving? && s.runners[r].q in s.qs
    case Close(p) => HasPair(s, p)
    case CloseDeschedule(p) => HasPair(s, p) && s.qs[Qid(p, false)].closing && s.qs[Qid(p, true)].closing
    case DetachOff(p) => HasPair(s, p) && p !in s.detach
    case Deschedule(p) => HasPair(s, p) && p in s.detach && s.detach[p].Off?
    case AwaitIdle(p) => HasPair(s, p) && p in s.detach && s.detach[p].Await?
    case Free(p) => HasPair(s, p) && p in s.detach && s.detach[p].Ready?
  }

  function Do(s: State, op: Op): State
    requires Can(s, op)
  {
    match op
    case Enable(q) => QEnable(s.(owed := if s.qs[q].srv then s.owed + {q} else s.owed), q)
    case Retry(q) => RetryEnable(s, q)
    case Freeze(q) => s.(qs := s.qs[q := s.qs[q].(frozen := true)])
    case Thaw(q) => s.(qs := s.qs[q := s.qs[q].(opening := false, frozen := false)])
    case ScanAdd(q) =>
      if s.qs[q].scan || s.qs[q].procsoff then s
      else s.(qs := s.qs[q := s.qs[q].(scan := true)], scanq := s.scanq + [q], cnt := s.cnt + 1)
    case PickScan(r) =>
      var q := s.scanq[0];
      s.(qs := s.qs[q := s.qs[q].(running := true, taker := r)],
         scanq := s.scanq[1..], cnt := s.cnt - 1, runners := s.runners[r := ScanPicked(q)])
    case ClearScan(r) =>
      var q := s.runners[r].q;
      s.(qs := s.qs[q := s.qs[q].(scan := false)], runners := s.runners[r := Scanning(q)])
    case EndScan(r) =>
      var q := s.runners[r].q;
      Wake(s.(qs := s.qs[q := s.qs[q].(running := false)], runners := s.runners[r := Rest]), q)
    case PickRun(r) =>
      var q := s.runq[0];
      s.(qs := s.qs[q := s.qs[q].(running := true, taker := r, picker := r)],
         runq := s.runq[1..], cnt := s.cnt - 1, runners := s.runners[r := Picked(q)])
    case Clear(r) =>
      var q := s.runners[r].q;
      s.(qs := s.qs[q := s.qs[q].(enab := false)], runners := s.runners[r := Serving(q)],
         owed := if s.qs[q].procsoff then s.owed else s.owed - {q})
    case EndRun(r) =>
      var q := s.runners[r].q;
      var s1 := s.(qs := s.qs[q := s.qs[q].(running := false)], runners := s.runners[r := Rest]);
      if s.qs[q].waiting then Wake(s1, q) else if s.qs[q].wantenab then RetryEnable(s1, q) else s1
    case Close(p) => OnPair(s, p, (k: Queue) => k.(closing := true))
    case CloseDeschedule(p) => Descheduled(s, p)
    case DetachOff(p) => OnPair(s, p, (k: Queue) => k.(procsoff := true)).(detach := s.detach[p := Off])
    case Deschedule(p) => Descheduled(s, p).(detach := s.detach[p := Await])
    case AwaitIdle(p) =>
      var busy := s.qs[Qid(p, false)].InUse() || s.qs[Qid(p, true)].InUse();
      Waiting(s, p, busy).(detach := s.detach[p := if busy then Asleep else Ready])
    case Free(p) =>
      s.(qs := s.qs - {Qid(p, false), Qid(p, true)}, detach := s.detach - {p},
         owed := s.owed - {Qid(p, false), Qid(p, true)})
  }

  /** Whether lis_qenable schedules a queue now. */
  predicate Schedulable(k: Queue) { k.srv && !k.Inhibited() }

  /** lis_qenable. */
  function QEnable(s: State, q: Qid): State
    requires q in s.qs
  {
    var k := s.qs[q];
    if !k.srv then s
    else if k.Inhibited() then s.(qs := s.qs[q := k.(wantenab := k.wantenab || k.Deferring())])
    else s.(qs := s.qs[q := k.(enab := true)], runq := s.runq + [q], cnt := s.cnt + 1)
  }

  /** lis_retry_qenable. */
  function RetryEnable(s: State, q: Qid): State
    requires q in s.qs
  {
    if s.qs[q].wantenab && !s.qs[q].Inhibited() then QEnable(s.(qs := s.qs[q := s.qs[q].(wantenab := false)]), q) else s
  }

  /** lis_up of the semaphore lis_await_qsched sleeps on. */
  function Wake(s: State, q: Qid): State
    requires q in s.qs
  {
    if s.qs[q].waiting && q.pair in s.detach && s.detach[q.pair].Asleep? then s.(detach := s.detach[q.pair := Await])
    else s
  }

  function OnPair(s: State, p: nat, f: Queue -> Queue): State
    requires HasPair(s, p)
  {
    s.(qs := s.qs[Qid(p, false) := f(s.qs[Qid(p, false)])][Qid(p, true) := f(s.qs[Qid(p, true)])])
  }

  /** QWAITING of both queues. */
  function Waiting(s: State, p: nat, w: bool): State
    requires HasPair(s, p)
  {
    OnPair(s, p, (k: Queue) => k.(waiting := w))
  }

  /** The list without the queues of pair p. */
  function Without(list: seq<Qid>, p: nat): seq<Qid> {
    if list == [] then [] else (if list[0].pair == p then [] else [list[0]]) + Without(list[1..], p)
  }

  /** deschedule: the QSCAN bit guards the walk over the scan list, either QENAB bit the walk over the run list. */
  function Descheduled(s: State, p: nat): State
    requires HasPair(s, p)
  {
    var rq, wq := s.qs[Qid(p, false)], s.qs[Qid(p, true)];
    var scanq := if wq.scan then Without(s.scanq, p) else s.scanq;
    var runq := if rq.enab || wq.enab then Without(s.runq, p) else s.runq;
    s.(qs := s.qs[Qid(p, false) := rq.(enab := false)][Qid(p, true) := wq.(scan := false, enab := false)],
       scanq := scanq, runq := runq,
       cnt := s.cnt - (|s.scanq| - |scanq|) - (|s.runq| - |runq|))
  }

  // ---- what holds in every run ----

  ghost predicate Distinct(list: seq<Qid>) {
    forall i, j :: 0 <= i < j < |list| ==> list[i] != list[j]
  }

  ghost predicate ListsOk(s: State) {
    && s.cnt == |s.runq| + |s.scanq|
    && Distinct(s.runq)
    && (forall q :: q in s.runq ==> q in s.qs && s.qs[q].enab)
    && (forall q :: q in s.scanq ==> q.write)
  }

  /** A queue is never on the run list and with a runner that has just taken it off, nor with two of these. */
  ghost predicate PickOk(s: State, r: nat)
    requires r in s.runners
  {
    s.runners[r].Picked? ==>
      var q := s.runners[r].q;
      q !in s.runq
      && (q in s.qs ==> s.qs[q].picker == r && (s.qs[q].enab || s.qs[q].closing || s.qs[q].procsoff))
  }

  /** QENAB and QRUNNING are never set without somebody who will clear them. */
  ghost predicate QueueOk(s: State, q: Qid)
    requires q in s.qs
  {
    var k := s.qs[q];
    && (k.running ==> k.taker in s.runners && s.runners[k.taker].On(q))
    && (k.enab ==> k.srv && (q in s.runq || (k.picker in s.runners && s.runners[k.picker] == Picked(q))))
    && (k.scan ==> q.write)
    && (k.wantenab ==> k.srv)
    && (k.waiting ==> k.procsoff)
    && (q in s.owed ==> k.enab || k.wantenab || k.closing || k.procsoff)
  }

  ghost predicate DetachOk(s: State, p: nat)
    requires p in s.detach
  {
    var rq, wq := Qid(p, false), Qid(p, true);
    && HasPair(s, p) && s.qs[rq].procsoff && s.qs[wq].procsoff
    && (!s.detach[p].Off? ==>
          rq !in s.runq && wq !in s.runq && !s.qs[rq].enab && !s.qs[wq].enab && !s.qs[rq].scan && !s.qs[wq].scan)
    && (s.detach[p].Asleep? ==> s.qs[rq].waiting && s.qs[wq].waiting && (s.qs[rq].running || s.qs[wq].running))
  }

  ghost predicate Inv(s: State) {
    && ListsOk(s)
    && (forall r :: r in s.runners ==> PickOk(s, r))
    && (forall q :: q in s.qs ==> QueueOk(s, q))
    && (forall p :: p in s.detach ==> DetachOk(s, p))
    && (forall q :: q in s.owed ==> q in s.qs)
  }

  lemma Parts(s: State)
    requires Inv(s)
    ensures ListsOk(s) && forall q :: q in s.owed ==> q in s.qs
    ensures forall r :: r in s.runners ==> PickOk(s, r)
    ensures forall q :: q in s.qs ==> QueueOk(s, q)
    ensures forall p :: p in s.detach ==> DetachOk(s, p)
  {
  }

  lemma Whole(s: State)
    requires ListsOk(s) && forall q :: q in s.owed ==> q in s.qs
    requires forall r :: r in s.runners ==> PickOk(s, r)
    requires forall q :: q in s.qs ==> QueueOk(s, q)
    requires forall p :: p in s.detach ==> DetachOk(s, p)
    ensures Inv(s)
  {
  }

  // ---- every operation keeps it ----

  lemma WithoutKeeps(list: seq<Qid>, p: nat)
    ensures forall q :: q in Without(list, p) <==> q in list && q.pair != p
    ensures |Without(list, p)| <= |list|
    ensures Distinct(list) ==> Distinct(Without(list, p))
  {
    if list != [] {
      WithoutKeeps(list[1..], p);
      assert forall q :: q in list <==> q == list[0] || q in list[1..];
      assert Distinct(list) ==> list[0] !in list[1..];
    }
  }

  function Linked(s: State, q: Qid, wantenab: bool, owed: set<Qid>): State
    requires q in s.qs
  {
    s.(qs := s.qs[q := s.qs[q].(enab := true, wantenab := wantenab)], runq := s.runq + [q], cnt := s.cnt + 1,
       owed := owed)
  }

  /** Linking a queue into the run list. */
  lemma KeepLink(s: State, q: Qid, wantenab: bool, owed: set<Qid>)
    requires Inv(s) && q in s.qs && Schedulable(s.qs[q]) && s.owed <= owed <= s.owed + {q}
    ensures Inv(Linked(s, q, wantenab, owed))
  {
    var s' := Linked(s, q, wantenab, owed);
    hide Inv;
    Parts(s);
    forall r | r in s'.runners ensures PickOk(s', r) { assert PickOk(s, r); }
    forall k | k in s'.qs ensures QueueOk(s', k) { assert QueueOk(s, k); }
    forall p | p in s'.detach ensures DetachOk(s', p) {
      assert DetachOk(s, p);
      assert q != Qid(p, false) && q != Qid(p, true);
    }
    Whole(s');
  }

  function Noted(s: State, q: Qid, w: bool): State
    requires q in s.qs
  {
    s.(qs := s.qs[q := s.qs[q].(wantenab := w)], owed := s.owed + {q})
  }

  /** lis_qenable on a queue that cannot be scheduled now. */
  lemma KeepDefer(s: State, q: Qid)
    requires Inv(s) && q in s.qs && s.qs[q].srv && s.qs[q].Inhibited()
    ensures Inv(QEnable(s.(owed := s.owed + {q}), q))
  {
    var w := s.qs[q].wantenab || s.qs[q].Deferring();
    var s' := Noted(s, q, w);
    assert s' == QEnable(s.(owed := s.owed + {q}), q);
    hide Inv, Distinct, QEnable, QueueOk, Noted;
    Parts(s);
    forall r | r in s'.runners ensures PickOk(s', r) { NotedOthers(s, q, w); }
    forall k | k in s'.qs ensures QueueOk(s', k) { NotedQueue(s, q, w, k); }
    forall p | p in s'.detach ensures DetachOk(s', p) { NotedOthers(s, q, w); }
    NotedOthers(s, q, w);
    Whole(s');
  }

  lemma NotedQueue(s: State, q: Qid, w: bool, k: Qid)
    requires q in s.qs && s.qs[q].srv && (s.qs[q].closing || w) && (s.qs[q].wantenab ==> w)
    requires k in Noted(s, q, w).qs && QueueOk(s, k)
    ensures QueueOk(Noted(s, q, w), k)
  {
  }

  lemma NotedOthers(s: State, q: Qid, w: bool)
    requires ListsOk(s) && q in s.qs && forall k :: k in s.owed ==> k in s.qs
    ensures var s' := Noted(s, q, w);
            && ListsOk(s') && (forall k :: k in s'.owed ==> k in s'.qs) && s'.qs.Keys == s.qs.Keys
            && s'.runners == s.runners && s'.detach == s.detach
            && (forall r :: r in s.runners && PickOk(s, r) ==> PickOk(s', r))
            && (forall p :: p in s.detach && DetachOk(s, p) ==> DetachOk(s', p))
  {
  }

  lemma KeepEnable(s: State, q: Qid)
    requires Inv(s) && q in s.qs
    ensures Inv(Do(s, Enable(q)))
  {
    hide Inv;
    if s.qs[q].srv {
      if s.qs[q].Inhibited() {
        KeepDefer(s, q);
      } else {
        KeepLink(s, q, s.qs[q].wantenab, s.owed + {q});
        assert Do(s, Enable(q)) == Linked(s, q, s.qs[q].wantenab, s.owed + {q});
      }
    }
  }

  lemma HasService(s: State, q: Qid)
    requires Inv(s) && q in s.qs && s.qs[q].wantenab
    ensures s.qs[q].srv
  {
    assert QueueOk(s, q);
  }

  lemma KeepRetry(s: State, q: Qid)
    requires Inv(s) && q in s.qs
    ensures Inv(RetryEnable(s, q))
  {
    if s.qs[q].wantenab && !s.qs[q].Inhibited() {
      HasService(s, q);
      hide Inv;
      KeepLink(s, q, false, s.owed);
      RetryLinks(s, q);
    }
  }

  lemma RetryLinks(s: State, q: Qid)
    requires q in s.qs && s.qs[q].wantenab && Schedulable(s.qs[q])
    ensures RetryEnable(s, q) == Linked(s, q, false, s.owed)
  {
    assert s.qs[q := s.qs[q].(wantenab := false)][q := s.qs[q].(enab := true, wantenab := false)]
        == s.qs[q := s.qs[q].(enab := true, wantenab := false)];
  }

  /** The operations that touch one queue or one pair and call nothing else. */
  predicate Simple(op: Op) {
    op.Freeze? || op.Thaw? || op.ScanAdd? || op.PickScan? || op.ClearScan? || op.PickRun? || op.Clear? || op.Close?
    || op.DetachOff? || op.Free?
  }

  lemma PicksKeep(s: State, op: Op, r: nat)
    requires ListsOk(s) && Simple(op) && Can(s, op) && r in Do(s, op).runners
    requires r in s.runners && PickOk(s, r) && (op.Clear? ==> PickOk(s, op.r))
    ensures PickOk(Do(s, op), r)
  {
    hide Without, QEnable, RetryEnable, Wake, Descheduled, Waiting, Inv;
    if op.PickScan? || op.ClearScan? || op.PickRun? || op.Clear? {
      PicksRun(s, op, r);
    }
  }

  lemma PicksRun(s: State, op: Op, r: nat)
    requires ListsOk(s) && (op.PickScan? || op.ClearScan? || op.PickRun? || op.Clear?) && Can(s, op)
    requires r in s.runners && PickOk(s, r) && (op.Clear? ==> PickOk(s, op.r))
    ensures r in Do(s, op).runners && PickOk(Do(s, op), r)
  {
    hide Without, QEnable, RetryEnable, Wake, Descheduled, Waiting, Inv;
  }

  lemma QueuesKeep(s: State, op: Op, q: Qid)
    requires ListsOk(s) && Simple(op) && Can(s, op) && q in Do(s, op).qs
    requires q in s.qs && QueueOk(s, q)
    ensures QueueOk(Do(s, op), q)
  {
    hide Without, QEnable, RetryEnable, Wake, Descheduled, Waiting, Distinct, Inv;
    if op.PickScan? || op.ClearScan? || op.PickRun? || op.Clear? {
      QueuesRun(s, op, q);
    }
  }

  lemma QueuesRun(s: State, op: Op, q: Qid)
    requires ListsOk(s) && (op.PickScan? || op.ClearScan? || op.PickRun? || op.Clear?) && Can(s, op)
    requires q in s.qs && QueueOk(s, q)
    ensures q in Do(s, op).qs && QueueOk(Do(s, op), q)
  {
    hide Without, QEnable, RetryEnable, Wake, Descheduled, Waiting, Distinct, Inv;
  }

  lemma DetachesKeep(s: State, op: Op, p: nat)
    requires ListsOk(s) && Simple(op) && Can(s, op) && p in Do(s, op).detach
    requires p in s.detach ==> DetachOk(s, p)
    ensures DetachOk(Do(s, op), p)
  {
    hide Without, QEnable, RetryEnable, Wake, Descheduled, Waiting, Distinct, PickOk, Inv;
    if op.PickScan? || op.ClearScan? || op.PickRun? || op.Clear? {
      DetachesRun(s, op, p);
    }
  }

  lemma DetachesRun(s: State, op: Op, p: nat)
    requires ListsOk(s) && (op.PickScan? || op.ClearScan? || op.PickRun? || op.Clear?) && Can(s, op)
    requires p in s.detach && DetachOk(s, p)
    ensures p in Do(s, op).detach && DetachOk(Do(s, op), p)
  {
    hide Without, QEnable, RetryEnable, Wake, Descheduled, Waiting, Distinct, PickOk, Inv;
  }

  lemma ListsKeep(s: State, op: Op)
    requires ListsOk(s) && Simple(op) && Can(s, op) && (op.Clear? ==> PickOk(s, op.r))
    requires op.Free? ==> DetachOk(s, op.p)
    requires forall q :: q in s.owed ==> q in s.qs
    ensures ListsOk(Do(s, op)) && forall q :: q in Do(s, op).owed ==> q in Do(s, op).qs
  {
    hide Without, QEnable, RetryEnable, Wake, Descheduled, Waiting;
    if op.PickScan? || op.PickRun? || op.ScanAdd? {
      ListsPick(s, op);
    } else {
      assert Do(s, op).runq == s.runq && Do(s, op).scanq == s.scanq;
    }
  }

  lemma ListsPick(s: State, op: Op)
    requires ListsOk(s) && (op.PickScan? || op.PickRun? || op.ScanAdd?) && Can(s, op)
    ensures ListsOk(Do(s, op)) && Do(s, op).owed == s.owed && Do(s, op).qs.Keys == s.qs.Keys
  {
  }

  /** A runner gives a queue up: QRUNNING cleared. */
  function Released(s: State, r: nat): State
    requires r in s.runners && !s.runners[r].Rest? && s.runners[r].q in s.qs
  {
    var q := s.runners[r].q;
    s.(qs := s.qs[q := s.qs[q].(running := false)], runners := s.runners[r := Rest])
  }

  lemma KeysKept(s: State, op: Op)
    requires Can(s, op)
    ensures Do(s, op).runners.Keys == s.runners.Keys && Do(s, op).qs.Keys <= s.qs.Keys
    ensures !op.Free? ==> Do(s, op).qs.Keys == s.qs.Keys
  {
    hide Without, Descheduled, QEnable, RetryEnable, Wake;
    match op
    case Enable(q) => CallsKeepKeys(s.(owed := if s.qs[q].srv then s.owed + {q} else s.owed), q);
    case Retry(q) => CallsKeepKeys(s, q);
    case EndScan(r) => CallsKeepKeys(Released(s, r), s.runners[r].q);
    case EndRun(r) => CallsKeepKeys(Released(s, r), s.runners[r].q);
    case CloseDeschedule(p) => DescheduleKeepsKeys(s, p);
    case Deschedule(p) => DescheduleKeepsKeys(s, p);
    case _ =>
  }

  lemma CallsKeepKeys(s: State, q: Qid)
    requires q in s.qs
    ensures QEnable(s, q).qs.Keys == RetryEnable(s, q).qs.Keys == Wake(s, q).qs.Keys == s.qs.Keys
    ensures QEnable(s, q).runners == RetryEnable(s, q).runners == Wake(s, q).runners == s.runners
  {
  }

  lemma DescheduleKeepsKeys(s: State, p: nat)
    requires HasPair(s, p)
    ensures Descheduled(s, p).qs.Keys == s.qs.Keys && Descheduled(s, p).runners == s.runners
  {
    hide Without;
  }

  lemma KeepSimple(s: State, op: Op)
    requires Inv(s) && Simple(op) && Can(s, op)
    ensures Inv(Do(s, op))
  {
    hide Do, PickOk, QueueOk, DetachOk, ListsOk;
    KeysKept(s, op);
    ListsKeep(s, op);
    forall r | r in Do(s, op).runners ensures PickOk(Do(s, op), r) { PicksKeep(s, op, r); }
    forall q | q in Do(s, op).qs ensures QueueOk(Do(s, op), q) { QueuesKeep(s, op, q); }
    forall p | p in Do(s, op).detach ensures DetachOk(Do(s, op), p) { DetachesKeep(s, op, p); }
  }

  /** And a sleeping lis_qdetach is woken. */
  lemma KeepRelease(s: State, r: nat)
    requires Inv(s) && r in s.runners && (s.runners[r].Scanning? || s.runners[r].Serving?) && s.runners[r].q in s.qs
    ensures Inv(Wake(Released(s, r), s.runners[r].q))
  {
    hide Inv, Distinct;
    Parts(s);
    var s' := Wake(Released(s, r), s.runners[r].q);
    forall u | u in s'.runners ensures PickOk(s', u) { assert PickOk(s, u); }
    forall k | k in s'.qs ensures QueueOk(s', k) { assert QueueOk(s, k); }
    forall p | p in s'.detach ensures DetachOk(s', p) { ReleaseDetach(s, r, p); }
    Whole(s');
  }

  lemma ReleaseDetach(s: State, r: nat, p: nat)
    requires p in s.detach && DetachOk(s, p)
    requires r in s.runners && (s.runners[r].Scanning? || s.runners[r].Serving?) && s.runners[r].q in s.qs
    ensures DetachOk(Wake(Released(s, r), s.runners[r].q), p)
  {
    var q := s.runners[r].q;
    assert q.pair == p ==> q == Qid(p, q.write);
  }

  lemma KeepEndScan(s: State, op: Op)
    requires Inv(s) && op.EndScan? && Can(s, op)
    ensures Inv(Do(s, op))
  {
    hide Inv;
    KeepRelease(s, op.r);
  }

  lemma KeepEndRun(s: State, op: Op)
    requires Inv(s) && op.EndRun? && Can(s, op)
    ensures Inv(Do(s, op))
  {
    hide Inv, RetryEnable;
    var q := s.runners[op.r].q;
    KeepRelease(s, op.r);
    if !s.qs[q].waiting { KeepRetry(Released(s, op.r), q); }
  }

  lemma {:induction false} WithoutNone(list: seq<Qid>, p: nat)
    requires forall q :: q in list ==> q.pair != p
    ensures Without(list, p) == list
  {
    if list != [] {
      assert list[0] in list && forall q :: q in list[1..] ==> q in list;
      WithoutNone(list[1..], p);
      assert list == [list[0]] + list[1..];
    }
  }

  /** deschedule misses nothing on the run list; on the scan list it misses a queue whose QSCAN bit is clear. */
  lemma GuardsAreExact(s: State, p: nat)
    requires Inv(s) && HasPair(s, p)
    ensures var s' := Descheduled(s, p);
            && s'.runq == Without(s.runq, p)
            && (s'.scanq == Without(s.scanq, p) <==> s.qs[Qid(p, true)].scan || Qid(p, true) !in s.scanq)
            && s'.cnt == |s'.runq| + |s'.scanq|
  {
    var rq, wq := s.qs[Qid(p, false)], s.qs[Qid(p, true)];
    WithoutKeeps(s.scanq, p);
    if Qid(p, true) !in s.scanq {
      forall q | q in s.scanq ensures q.pair != p { assert q == Qid(q.pair, true); }
      WithoutNone(s.scanq, p);
    }
    if !rq.enab && !wq.enab {
      forall q | q in s.runq ensures q.pair != p { assert q == Qid(q.pair, q.write); }
      WithoutNone(s.runq, p);
    }
  }

  /** deschedule on a pair that can be enabled no more. */
  lemma KeepDescheduled(s: State, p: nat)
    requires Inv(s) && HasPair(s, p)
    requires forall w: bool :: s.qs[Qid(p, w)].closing || s.qs[Qid(p, w)].procsoff
    ensures Inv(Descheduled(s, p)) && TakenOff(s, Descheduled(s, p), p)
  {
    hide *;
    var s' := Descheduled(s, p);
    Parts(s);
    TakesOff(s, p);
    forall r | r in s'.runners ensures PickOk(s', r) { OffRunner(s, s', p, r); }
    forall k | k in s'.qs ensures QueueOk(s', k) { OffQueue(s, s', p, k); }
    forall u | u in s'.detach ensures DetachOk(s', u) { OffDetach(s, s', p, u); }
    Whole(s');
  }

  /** s' is s with the pair p off the run list. */
  ghost predicate TakenOff(s: State, s': State, p: nat) {
    && HasPair(s, p) && s'.runners == s.runners && s'.detach == s.detach && s'.owed == s.owed
    && (forall w: bool :: s.qs[Qid(p, w)].closing || s.qs[Qid(p, w)].procsoff)
    && s'.qs == s.qs[Qid(p, false) := s.qs[Qid(p, false)].(enab := false)]
                    [Qid(p, true) := s.qs[Qid(p, true)].(scan := false, enab := false)]
    && (forall q :: q in s'.runq <==> q in s.runq && q.pair != p)
  }

  lemma TakesOff(s: State, p: nat)
    requires Inv(s) && HasPair(s, p)
    requires forall w: bool :: s.qs[Qid(p, w)].closing || s.qs[Qid(p, w)].procsoff
    ensures var s' := Descheduled(s, p);
            ListsOk(s') && TakenOff(s, s', p) && s'.qs.Keys == s.qs.Keys
            && (forall q :: q in s'.owed ==> q in s'.qs)
            && s'.detach == s.detach && s'.runners == s.runners
  {
    hide Without, QueueOk, PickOk, DetachOk;
    GuardsAreExact(s, p);
    WithoutKeeps(s.runq, p);
    WithoutKeeps(s.scanq, p);
  }

  lemma OffRunner(s: State, s': State, p: nat, r: nat)
    requires TakenOff(s, s', p) && r in s.runners && PickOk(s, r)
    ensures PickOk(s', r)
  {
  }

  lemma OffQueue(s: State, s': State, p: nat, k: Qid)
    requires TakenOff(s, s', p) && k in s.qs && QueueOk(s, k)
    ensures k in s'.qs && QueueOk(s', k)
  {
    assert k.pair == p ==> k == Qid(p, k.write);
  }

  lemma OffDetach(s: State, s': State, p: nat, u: nat)
    requires TakenOff(s, s', p) && u in s.detach && DetachOk(s, u)
    ensures DetachOk(s', u)
  {
  }

  lemma KeepCloseDeschedule(s: State, op: Op)
    requires Inv(s) && op.CloseDeschedule? && Can(s, op)
    ensures Inv(Do(s, op))
  {
    hide Inv;
    KeepDescheduled(s, op.p);
  }

  /** Only the stage of one detaching pair changes. */
  lemma KeepStage(s: State, p: nat, d: Detach)
    requires Inv(s) && p in s.detach && DetachOk(s.(detach := s.detach[p := d]), p)
    ensures Inv(s.(detach := s.detach[p := d]))
  {
    var s' := s.(detach := s.detach[p := d]);
    hide Inv;
    Parts(s);
    forall r | r in s'.runners ensures PickOk(s', r) { assert PickOk(s, r); }
    forall k | k in s'.qs ensures QueueOk(s', k) { assert QueueOk(s, k); }
    forall u | u in s'.detach ensures DetachOk(s', u) { assert DetachOk(s, u); }
    Whole(s');
  }

  lemma KeepDeschedule(s: State, op: Op)
    requires Inv(s) && op.Deschedule? && Can(s, op)
    ensures Inv(Do(s, op))
  {
    assert DetachOk(s, op.p) && QueueOk(s, Qid(op.p, false));
    KeepDescheduled(s, op.p);
    hide Inv, Without;
    KeepStage(Descheduled(s, op.p), op.p, Await);
  }

  lemma KeepWaiting(s: State, p: nat, w: bool)
    requires Inv(s) && p in s.detach && HasPair(s, p) && s.detach[p].Await?
    ensures Inv(Waiting(s, p, w))
  {
    hide *;
    var s' := Waiting(s, p, w);
    Parts(s);
    OnlyWaits(s, p, w);
    assert DetachOk(s, p);
    forall r | r in s'.runners ensures PickOk(s', r) { WaitingRunner(s, p, w, r); }
    forall k | k in s'.qs ensures QueueOk(s', k) { WaitingQueue(s, p, w, k); }
    forall u | u in s'.detach ensures DetachOk(s', u) { WaitingDetach(s, p, w, u); }
    Whole(s');
  }

  lemma OnlyWaits(s: State, p: nat, w: bool)
    requires HasPair(s, p) && ListsOk(s)
    ensures var s' := Waiting(s, p, w);
            && s'.qs.Keys == s.qs.Keys && s' == s.(qs := s'.qs) && ListsOk(s')
            && forall k :: k in s.qs ==> s'.qs[k] == if k.pair == p then s.qs[k].(waiting := w) else s.qs[k]
  {
    hide Distinct;
    assert forall k: Qid :: k.pair == p ==> k == Qid(p, k.write);
  }

  lemma WaitingRunner(s: State, p: nat, w: bool, r: nat)
    requires HasPair(s, p) && ListsOk(s) && r in s.runners && PickOk(s, r)
    ensures r in Waiting(s, p, w).runners && PickOk(Waiting(s, p, w), r)
  {
    OnlyWaits(s, p, w);
    hide Waiting, ListsOk;
  }

  lemma WaitingQueue(s: State, p: nat, w: bool, k: Qid)
    requires HasPair(s, p) && p in s.detach && DetachOk(s, p) && ListsOk(s) && k in s.qs && QueueOk(s, k)
    ensures k in Waiting(s, p, w).qs && QueueOk(Waiting(s, p, w), k)
  {
    OnlyWaits(s, p, w);
    hide Waiting, ListsOk;
    assert k.pair == p ==> k == Qid(p, k.write);
  }

  lemma WaitingDetach(s: State, p: nat, w: bool, u: nat)
    requires HasPair(s, p) && p in s.detach && s.detach[p].Await? && ListsOk(s) && u in s.detach && DetachOk(s, u)
    ensures u in Waiting(s, p, w).detach && DetachOk(Waiting(s, p, w), u)
  {
    OnlyWaits(s, p, w);
    hide Waiting, ListsOk;
  }

  lemma KeepAwaitIdle(s: State, op: Op)
    requires Inv(s) && op.AwaitIdle? && Can(s, op)
    ensures Inv(Do(s, op))
  {
    assert DetachOk(s, op.p);
    hide Inv;
    var busy := s.qs[Qid(op.p, false)].InUse() || s.qs[Qid(op.p, true)].InUse();
    KeepWaiting(s, op.p, busy);
    KeepStage(Waiting(s, op.p, busy), op.p, if busy then Asleep else Ready);
  }

  /** Every operation keeps the invariant. */
  lemma KeepInv(s: State, op: Op)
    requires Inv(s) && Can(s, op)
    ensures Inv(Do(s, op))
  {
    hide Inv;
    match op
    case Enable(q) => KeepEnable(s, q);
    case Retry(q) => KeepRetry(s, q);
    case EndScan(_) => KeepEndScan(s, op);
    case EndRun(_) => KeepEndRun(s, op);
    case CloseDeschedule(_) => KeepCloseDeschedule(s, op);
    case Deschedule(_) => KeepDeschedule(s, op);
    case AwaitIdle(_) => KeepAwaitIdle(s, op);
    case _ => KeepSimple(s, op);
  }

  // ---- the scan list ----

  /** The operation puts a queue on the scan list while a runner is still taking it off. The source does not test it. */
  predicate Late(s: State, op: Op) {
    op.ScanAdd? && op.q in s.qs && !s.qs[op.q].scan && !s.qs[op.q].procsoff
    && exists r :: r in s.runners && s.runners[r] == ScanPicked(op.q)
  }

  /** A queue is once on the scan list or with one runner that has just taken it off. */
  ghost predicate ScanOnce(s: State) {
    && Distinct(s.scanq)
    && (forall q :: q in s.scanq ==> q in s.qs && s.qs[q].scan)
    && (forall r :: r in s.runners && s.runners[r].ScanPicked? ==> s.runners[r].q !in s.scanq)
    && (forall r, u :: r in s.runners && u in s.runners && s.runners[r].ScanPicked? && s.runners[u] == s.runners[r]
          ==> r == u)
  }

  ghost predicate ScanOk(s: State) {
    && ScanOnce(s)
    && (forall r :: r in s.runners && s.runners[r].ScanPicked? && s.runners[r].q in s.qs ==>
          var k := s.qs[s.runners[r].q]; k.scan || k.closing || k.procsoff)
    && (forall p, w: bool :: p in s.detach && s.detach[p].Ready? && Qid(p, w) in s.qs ==> !s.qs[Qid(p, w)].running)
  }

  /** A change of flags that adds nothing to what ScanOk watches. */
  predicate CalmQueue(k: Queue, k': Queue) {
    k'.scan == k.scan && (k.closing ==> k'.closing) && (k.procsoff ==> k'.procsoff) && (k'.running ==> k.running)
  }

  ghost predicate Calm(s: State, s': State) {
    && s'.scanq == s.scanq && s'.qs.Keys == s.qs.Keys
    && (forall q :: q in s.qs ==> CalmQueue(s.qs[q], s'.qs[q]))
    && (forall r :: r in s'.runners && s'.runners[r].ScanPicked? ==> r in s.runners && s.runners[r] == s'.runners[r])
    && (forall p :: p in s'.detach && s'.detach[p].Ready? ==> p in s.detach && s.detach[p].Ready?)
  }

  lemma CalmKeeps(s: State, s': State)
    requires ScanOk(s) && Calm(s, s')
    ensures ScanOk(s')
  {
    assert ScanOnce(s');
  }

  lemma CalmTrans(s0: State, s1: State, s2: State)
    requires Calm(s0, s1) && Calm(s1, s2)
    ensures Calm(s0, s2)
  {
  }

  lemma EnableIsCalm(s: State, q: Qid)
    requires q in s.qs
    ensures Calm(s, QEnable(s, q))
  {
  }

  lemma RetryIsCalm(s: State, q: Qid)
    requires q in s.qs
    ensures Calm(s, RetryEnable(s, q))
  {
    hide QEnable;
    if s.qs[q].wantenab && !s.qs[q].Inhibited() {
      var s1 := s.(qs := s.qs[q := s.qs[q].(wantenab := false)]);
      assert Calm(s, s1);
      EnableIsCalm(s1, q);
      hide Calm;
      CalmTrans(s, s1, QEnable(s1, q));
    }
  }

  lemma WakeIsCalm(s: State, q: Qid)
    requires q in s.qs
    ensures Calm(s, Wake(s, q))
  {
  }

  lemma ReleaseIsCalm(s: State, r: nat)
    requires r in s.runners && !s.runners[r].Rest? && s.runners[r].q in s.qs
    ensures Calm(s, Released(s, r))
  {
  }

  lemma IsCalm(s: State, op: Op)
    requires Can(s, op)
    requires op.Enable? || op.Retry? || op.Freeze? || op.Thaw? || op.EndScan? || op.EndRun? || op.Clear? || op.Close?
             || op.DetachOff?
    ensures Calm(s, Do(s, op))
  {
    hide QEnable, RetryEnable, Wake, Calm;
    if op.EndScan? || op.EndRun? {
      ReleaseIsCalm(s, op.r);
      RetryIsCalm(Released(s, op.r), s.runners[op.r].q);
      WakeIsCalm(Released(s, op.r), s.runners[op.r].q);
      if Do(s, op) != Released(s, op.r) { CalmTrans(s, Released(s, op.r), Do(s, op)); }
    } else if op.Enable? {
      var s1 := s.(owed := if s.qs[op.q].srv then s.owed + {op.q} else s.owed);
      EnableIsCalm(s1, op.q);
      SameIsCalm(s, s1);
      CalmTrans(s, s1, Do(s, op));
    } else if op.Retry? {
      RetryIsCalm(s, op.q);
    } else {
      FlagsAreCalm(s, op);
    }
  }

  lemma SameIsCalm(s: State, s': State)
    requires s' == s.(owed := s'.owed)
    ensures Calm(s, s')
  {
  }

  lemma FlagsAreCalm(s: State, op: Op)
    requires Can(s, op) && (op.Freeze? || op.Thaw? || op.Clear? || op.Close? || op.DetachOff?)
    ensures Calm(s, Do(s, op))
  {
    hide QEnable, RetryEnable, Wake, Without, Descheduled, Waiting;
    if op.Freeze? || op.Thaw? || op.Clear? {
      assert Calm(s, Do(s, op));
    } else {
      PairIsCalm(s, op);
    }
  }

  lemma PairIsCalm(s: State, op: Op)
    requires Can(s, op) && (op.Close? || op.DetachOff?)
    ensures Calm(s, Do(s, op))
  {
    hide QEnable, RetryEnable, Wake, Without, Descheduled, Waiting;
  }

  lemma KeepScanPick(s: State, op: Op)
    requires Inv(s) && ScanOk(s) && Can(s, op) && (op.PickScan? || op.ClearScan? || op.PickRun?)
    ensures ScanOk(Do(s, op))
  {
    hide Without, QEnable, RetryEnable, Wake, Descheduled, Waiting, QueueOk, PickOk;
    var s' := Do(s, op);
    forall p | p in s.detach && s.detach[p].Ready? ensures DetachOk(s, p) {}
    hide Inv, DetachOk;
    forall p, w: bool | p in s'.detach && s'.detach[p].Ready? && Qid(p, w) in s'.qs ensures !s'.qs[Qid(p, w)].running {
      ReadyIsOff(s, p, w);
    }
    assert ScanOnce(s');
  }

  lemma ReadyIsOff(s: State, p: nat, w: bool)
    requires p in s.detach && s.detach[p].Ready? && DetachOk(s, p) && ScanOk(s) && Qid(p, w) in s.qs
    ensures Qid(p, w) !in s.runq && Qid(p, w) !in s.scanq && !s.qs[Qid(p, w)].running
  {
  }

  lemma KeepScanAdd(s: State, op: Op)
    requires ScanOk(s) && Can(s, op) && op.ScanAdd? && !Late(s, op)
    ensures ScanOk(Do(s, op))
  {
    assert ScanOnce(Do(s, op));
  }

  lemma KeepScanOff(s: State, p: nat)
    requires Inv(s) && ScanOk(s) && HasPair(s, p)
    requires forall w: bool :: s.qs[Qid(p, w)].closing || s.qs[Qid(p, w)].procsoff
    ensures ScanOk(Descheduled(s, p)) && forall w: bool :: Qid(p, w) !in Descheduled(s, p).scanq
  {
    hide Inv, Descheduled;
    KeepDescheduled(s, p);
    LeavesScan(s, p);
    assert ScanOnce(Descheduled(s, p));
  }

  lemma LeavesScan(s: State, p: nat)
    requires Inv(s) && ScanOnce(s) && HasPair(s, p)
    ensures var s' := Descheduled(s, p);
            Distinct(s'.scanq) && forall q :: q in s'.scanq <==> q in s.scanq && q.pair != p
  {
    hide Without, QueueOk, PickOk, DetachOk;
    GuardsAreExact(s, p);
    WithoutKeeps(s.scanq, p);
  }

  lemma KeepScanStage(s: State, op: Op)
    requires Inv(s) && ScanOk(s) && Can(s, op) && (op.CloseDeschedule? || op.Deschedule? || op.AwaitIdle? || op.Free?)
    ensures ScanOk(Do(s, op))
  {
    match op
    case CloseDeschedule(p) => KeepScanOff(s, p);
    case Deschedule(p) => { assert DetachOk(s, p); KeepScanOff(s, p); KeepScanDetach(Descheduled(s, p), p, Await); }
    case AwaitIdle(p) => KeepScanWait(s, op);
    case Free(p) => KeepScanFree(s, op);
  }

  lemma KeepScanDetach(s: State, p: nat, d: Detach)
    requires ScanOk(s) && (d.Ready? ==> forall w: bool :: Qid(p, w) in s.qs ==> !s.qs[Qid(p, w)].running)
    ensures ScanOk(s.(detach := s.detach[p := d]))
  {
    assert ScanOnce(s.(detach := s.detach[p := d]));
  }

  lemma KeepScanWait(s: State, op: Op)
    requires Inv(s) && ScanOk(s) && Can(s, op) && op.AwaitIdle?
    ensures ScanOk(Do(s, op))
  {
    hide Inv, Waiting, ScanOk, Calm;
    var busy := s.qs[Qid(op.p, false)].InUse() || s.qs[Qid(op.p, true)].InUse();
    WaitingIsCalm(s, op.p, busy);
    CalmKeeps(s, Waiting(s, op.p, busy));
    KeepScanDetach(Waiting(s, op.p, busy), op.p, if busy then Asleep else Ready);
  }

  lemma WaitingIsCalm(s: State, p: nat, w: bool)
    requires Inv(s) && HasPair(s, p)
    ensures Calm(s, Waiting(s, p, w))
    ensures var s' := Waiting(s, p, w);
            s'.detach == s.detach
            && forall i: bool :: Qid(p, i) in s'.qs && s'.qs[Qid(p, i)] == s.qs[Qid(p, i)].(waiting := w)
  {
    Parts(s);
    hide Inv, Waiting, ListsOk, QueueOk, DetachOk, PickOk;
    OnlyWaits(s, p, w);
  }

  lemma KeepScanFree(s: State, op: Op)
    requires Inv(s) && ScanOk(s) && Can(s, op) && op.Free?
    ensures ScanOk(Do(s, op))
  {
    Parts(s);
    hide Inv;
    assert DetachOk(s, op.p);
    assert ScanOnce(Do(s, op));
  }

  /** Every operation keeps it that does not come late. */
  lemma KeepScanOk(s: State, op: Op)
    requires Inv(s) && ScanOk(s) && Can(s, op) && !Late(s, op)
    ensures ScanOk(Do(s, op))
  {
    hide Inv, ScanOk, Calm, Late;
    if op.ScanAdd? {
      KeepScanAdd(s, op);
    } else if op.PickScan? || op.ClearScan? || op.PickRun? {
      KeepScanPick(s, op);
    } else if op.CloseDeschedule? || op.Deschedule? || op.AwaitIdle? || op.Free? {
      KeepScanStage(s, op);
    } else {
      IsCalm(s, op);
      CalmKeeps(s, Do(s, op));
    }
  }

  // ---- one place at a time ----

  /** What callers have to see to: nobody puts a queue that is scheduled or with a runner on the scan list, and nobody
      schedules a queue that is on the scan list. The source tests neither. */
  predicate Orderly(s: State, op: Op)
    requires Can(s, op)
  {
    match op
    case ScanAdd(q) => s.qs[q].scan || s.qs[q].procsoff || !(s.qs[q].enab || s.qs[q].running)
    case Enable(q) => Schedulable(s.qs[q]) ==> !s.qs[q].scan
    case Retry(q) => s.qs[q].wantenab && Schedulable(s.qs[q]) ==> !s.qs[q].scan
    case _ => true
  }

  ghost predicate TidyRunner(s: State, r: nat)
    requires r in s.runners
  {
    !s.runners[r].Rest? ==> var q := s.runners[r].q; q in s.qs && s.qs[q].running && s.qs[q].taker == r
  }

  ghost predicate TidyQueue(s: State, q: Qid)
    requires q in s.qs
  {
    var k := s.qs[q];
    && (q in s.runq ==> !k.running && !k.scan)
    && (q in s.scanq ==> !k.running && !k.enab)
    && (k.scan ==> q in s.scanq || (k.running && k.taker in s.runners && s.runners[k.taker] == ScanPicked(q)))
  }

  /** Each queue is in one place: on the run list, on the scan list, with one runner, or nowhere. */
  ghost predicate Tidy(s: State) {
    && (forall r :: r in s.runners ==> TidyRunner(s, r))
    && (forall q :: q in s.qs ==> TidyQueue(s, q))
  }

  lemma OrderlyIsNotLate(s: State, op: Op)
    requires Tidy(s) && Can(s, op) && Orderly(s, op)
    ensures !Late(s, op)
  {
    assert forall r :: r in s.runners ==> TidyRunner(s, r);
  }

  lemma TidyLink(s: State, q: Qid, w: bool, owed: set<Qid>)
    requires Inv(s) && ScanOk(s) && Tidy(s) && q in s.qs && Schedulable(s.qs[q]) && !s.qs[q].scan
    ensures Tidy(Linked(s, q, w, owed))
  {
    var s' := Linked(s, q, w, owed);
    hide Inv;
    forall r | r in s'.runners ensures TidyRunner(s', r) { assert TidyRunner(s, r); }
    forall k | k in s'.qs ensures TidyQueue(s', k) { assert TidyQueue(s, k); }
  }

  /** lis_qenable where it does not schedule. */
  lemma TidyDefer(s: State, q: Qid, owed: set<Qid>)
    requires Tidy(s) && q in s.qs && !Schedulable(s.qs[q])
    ensures Tidy(QEnable(s.(owed := owed), q))
  {
    var s' := QEnable(s.(owed := owed), q);
    forall r | r in s'.runners ensures TidyRunner(s', r) { assert TidyRunner(s, r); }
    forall k | k in s'.qs ensures TidyQueue(s', k) { assert TidyQueue(s, k); }
  }

  lemma TidyEnable(s: State, op: Op)
    requires Inv(s) && ScanOk(s) && Tidy(s) && op.Enable? && Can(s, op) && Orderly(s, op)
    ensures Tidy(Do(s, op))
  {
    hide Inv, ScanOk, Tidy;
    var q := op.q;
    var owed := if s.qs[q].srv then s.owed + {q} else s.owed;
    if Schedulable(s.qs[q]) {
      TidyLink(s, q, s.qs[q].wantenab, owed);
      assert Do(s, op) == Linked(s, q, s.qs[q].wantenab, owed);
    } else {
      TidyDefer(s, q, owed);
    }
  }

  lemma TidyRetry(s: State, q: Qid)
    requires Inv(s) && ScanOk(s) && Tidy(s) && q in s.qs
    requires s.qs[q].wantenab && Schedulable(s.qs[q]) ==> !s.qs[q].scan
    ensures Tidy(RetryEnable(s, q))
  {
    if s.qs[q].wantenab && !s.qs[q].Inhibited() {
      HasService(s, q);
      TidyLink(s, q, false, s.owed);
      RetryLinks(s, q);
    }
  }

  /** A runner that is past the scan list gives its queue up: QSCAN is clear. */
  lemma TidyRelease(s: State, r: nat)
    requires ScanOk(s) && Tidy(s) && r in s.runners && (s.runners[r].Scanning? || s.runners[r].Serving?)
    ensures s.runners[r].q in s.qs && !s.qs[s.runners[r].q].scan
    ensures Tidy(Released(s, r)) && Tidy(Wake(Released(s, r), s.runners[r].q))
  {
    assert TidyRunner(s, r);
    var s', q := Released(s, r), s.runners[r].q;
    assert TidyQueue(s, q);
    forall u | u in s'.runners ensures TidyRunner(s', u) { assert TidyRunner(s, u); }
    forall k | k in s'.qs ensures TidyQueue(s', k) { assert TidyQueue(s, k); }
    TidyWake(s', q);
  }

  lemma TidyWake(s: State, q: Qid)
    requires Tidy(s) && q in s.qs
    ensures Tidy(Wake(s, q))
  {
    TidyHistory(s, Wake(s, q));
  }

  lemma TidyHistory(s: State, s': State)
    requires Tidy(s) && s' == s.(detach := s'.detach, owed := s'.owed, cnt := s'.cnt)
    ensures Tidy(s')
  {
    forall u | u in s'.runners ensures TidyRunner(s', u) { assert TidyRunner(s, u); }
    forall k | k in s'.qs ensures TidyQueue(s', k) { assert TidyQueue(s, k); }
  }

  lemma TidyEnd(s: State, op: Op)
    requires Inv(s) && ScanOk(s) && Tidy(s) && (op.EndScan? || op.EndRun?) && Can(s, op)
    ensures Tidy(Do(s, op))
  {
    var q := s.runners[op.r].q;
    hide Inv, ScanOk, Tidy, RetryEnable;
    TidyRelease(s, op.r);
    if op.EndRun? && !s.qs[q].waiting {
      KeepRelease(s, op.r);
      assert Wake(Released(s, op.r), q) == Released(s, op.r);
      ReleaseIsCalm(s, op.r);
      CalmKeeps(s, Released(s, op.r));
      TidyRetry(Released(s, op.r), q);
    }
  }

  lemma TidyRun(s: State, op: Op)
    requires Inv(s) && ScanOk(s) && Tidy(s) && Can(s, op)
    requires op.PickScan? || op.ClearScan? || op.PickRun? || op.Clear?
    ensures Tidy(Do(s, op))
  {
    Parts(s);
    hide Inv, QEnable, RetryEnable, Wake, Descheduled, Waiting, Without, DetachOk, QueueOk;
    var s' := Do(s, op);
    forall u | u in s'.runners ensures TidyRunner(s', u) { TidyRunRunner(s, op, u); }
    forall k | k in s'.qs ensures TidyQueue(s', k) { TidyRunQueue(s, op, k); }
  }

  lemma TidyRunRunner(s: State, op: Op, u: nat)
    requires ListsOk(s) && ScanOk(s) && Tidy(s) && Can(s, op) && u in s.runners
    requires op.PickScan? || op.ClearScan? || op.PickRun? || op.Clear?
    ensures u in Do(s, op).runners && TidyRunner(Do(s, op), u)
  {
    hide QEnable, RetryEnable, Wake, Descheduled, Waiting, Without, Distinct;
    assert TidyRunner(s, u);
    if op.PickScan? { assert TidyQueue(s, s.scanq[0]); }
    if op.PickRun? { assert TidyQueue(s, s.runq[0]); }
  }

  lemma TidyRunQueue(s: State, op: Op, k: Qid)
    requires ListsOk(s) && ScanOk(s) && Tidy(s) && Can(s, op) && k in s.qs
    requires op.PickScan? || op.ClearScan? || op.PickRun? || op.Clear?
    ensures k in Do(s, op).qs && TidyQueue(Do(s, op), k)
  {
    hide QEnable, RetryEnable, Wake, Descheduled, Waiting, Without;
    assert TidyQueue(s, k);
    if op.ClearScan? || op.Clear? { assert TidyRunner(s, op.r); }
  }

  lemma TidyAdd(s: State, op: Op)
    requires Inv(s) && ScanOk(s) && Tidy(s) && Can(s, op) && op.ScanAdd? && Orderly(s, op)
    ensures Tidy(Do(s, op))
  {
    var s' := Do(s, op);
    forall u | u in s'.runners ensures TidyRunner(s', u) { assert TidyRunner(s, u); }
    forall k | k in s'.qs ensures TidyQueue(s', k) { assert TidyQueue(s, k); }
  }

  lemma TidyFlags(s: State, op: Op)
    requires Tidy(s) && Can(s, op) && (op.Freeze? || op.Thaw? || op.Close? || op.DetachOff?)
    ensures Tidy(Do(s, op))
  {
    hide QEnable, RetryEnable, Wake, Descheduled, Waiting, Without;
    var s' := Do(s, op);
    forall u | u in s'.runners ensures TidyRunner(s', u) { assert TidyRunner(s, u); }
    forall k | k in s'.qs ensures TidyQueue(s', k) { assert TidyQueue(s, k); }
  }

  lemma TidyOff(s: State, p: nat)
    requires Inv(s) && ScanOk(s) && Tidy(s) && HasPair(s, p)
    requires forall w: bool :: s.qs[Qid(p, w)].closing || s.qs[Qid(p, w)].procsoff
    ensures Tidy(Descheduled(s, p))
  {
    assert QueueOk(s, Qid(p, false));
    hide Inv, Descheduled;
    var s' := Descheduled(s, p);
    KeepDescheduled(s, p);
    LeavesScan(s, p);
    forall u | u in s'.runners ensures TidyRunner(s', u) { assert TidyRunner(s, u); }
    forall k | k in s'.qs ensures TidyQueue(s', k) {
      assert TidyQueue(s, k);
      assert k.pair == p ==> k == Qid(p, k.write);
    }
  }

  lemma TidyWaiting(s: State, p: nat, w: bool)
    requires Inv(s) && Tidy(s) && HasPair(s, p)
    ensures Tidy(Waiting(s, p, w))
  {
    var s' := Waiting(s, p, w);
    Parts(s);
    OnlyWaits(s, p, w);
    hide Inv, ListsOk, Waiting;
    forall u | u in s'.runners ensures TidyRunner(s', u) { assert TidyRunner(s, u); }
    forall k | k in s'.qs ensures TidyQueue(s', k) { assert TidyQueue(s, k); }
  }

  lemma TidyFree(s: State, op: Op)
    requires Inv(s) && ScanOk(s) && Tidy(s) && Can(s, op) && op.Free?
    ensures Tidy(Do(s, op))
  {
    var s', p := Do(s, op), op.p;
    forall u | u in s'.runners ensures TidyRunner(s', u) { assert TidyRunner(s, u); }
    forall k | k in s'.qs ensures TidyQueue(s', k) { assert TidyQueue(s, k); }
  }

  lemma TidyStage(s: State, op: Op)
    requires Inv(s) && ScanOk(s) && Tidy(s) && Can(s, op)
    requires op.CloseDeschedule? || op.Deschedule? || op.AwaitIdle?
    ensures Tidy(Do(s, op))
  {
    match op
    case CloseDeschedule(p) => TidyOff(s, p);
    case Deschedule(p) =>
      assert DetachOk(s, p);
      hide Tidy, Inv, ScanOk, Descheduled;
      TidyOff(s, p);
      TidyHistory(Descheduled(s, p), Do(s, op));
    case AwaitIdle(p) =>
      hide Tidy, Inv, ScanOk, Waiting;
      var busy := s.qs[Qid(p, false)].InUse() || s.qs[Qid(p, true)].InUse();
      TidyWaiting(s, p, busy);
      TidyHistory(Waiting(s, p, busy), Do(s, op));
  }

  /** Every operation of an orderly caller keeps it. */
  lemma KeepTidy(s: State, op: Op)
    requires Inv(s) && ScanOk(s) && Tidy(s) && Can(s, op) && Orderly(s, op)
    ensures Tidy(Do(s, op)) && ScanOk(Do(s, op)) && Inv(Do(s, op))
  {
    hide Inv, ScanOk, Tidy, Late, RetryEnable;
    KeepInv(s, op);
    OrderlyIsNotLate(s, op);
    KeepScanOk(s, op);
    match op
    case Enable(_) => TidyEnable(s, op);
    case Retry(q) => TidyRetry(s, q);
    case ScanAdd(_) => TidyAdd(s, op);
    case EndScan(_) => TidyEnd(s, op);
    case EndRun(_) => TidyEnd(s, op);
    case Free(_) => TidyFree(s, op);
    case CloseDeschedule(_) => TidyStage(s, op);
    case Deschedule(_) => TidyStage(s, op);
    case AwaitIdle(_) => TidyStage(s, op);
    case Freeze(_) => TidyFlags(s, op);
    case Thaw(_) => TidyFlags(s, op);
    case Close(_) => TidyFlags(s, op);
    case DetachOff(_) => TidyFlags(s, op);
    case _ => TidyRun(s, op);
  }

  // ---- runs ----

  /** Queue pairs of which nothing is scheduled, no runner has any, and none is being detached. */
  ghost predicate Init(s: State) {
    && (forall q :: q in s.qs ==> HasPair(s, q.pair))
    && s.runq == [] && s.scanq == [] && s.cnt == 0 && s.detach == map[] && s.owed == {}
    && (forall r :: r in s.runners ==> s.runners[r].Rest?)
    && (forall q :: q in s.qs ==> !s.qs[q].InUse() && !s.qs[q].wantenab && !s.qs[q].waiting)
  }

  /** The states ss[0], ss[1], ... reached by performing ops[0], ops[1], ... */
  ghost predicate Path(ss: seq<State>, ops: seq<Op>) {
    |ss| == |ops| + 1 && forall i :: 0 <= i < |ops| ==> Can(ss[i], ops[i]) && ss[i + 1] == Do(ss[i], ops[i])
  }

  ghost predicate Run(ss: seq<State>, ops: seq<Op>) { Path(ss, ops) && Init(ss[0]) }

  ghost predicate OrderlyRun(ss: seq<State>, ops: seq<Op>)
    requires Run(ss, ops)
  {
    forall i :: 0 <= i < |ops| ==> Orderly(ss[i], ops[i])
  }

  lemma {:induction false} RunInv(ss: seq<State>, ops: seq<Op>, n: nat)
    requires Run(ss, ops) && n < |ss|
    ensures Inv(ss[n])
  {
    if n > 0 {
      RunInv(ss, ops, n - 1);
      hide Inv, Do;
      KeepInv(ss[n - 1], ops[n - 1]);
    }
  }

  lemma {:induction false} ScanRunInv(ss: seq<State>, ops: seq<Op>, n: nat)
    requires Run(ss, ops) && n < |ss| && forall i :: 0 <= i < n ==> !Late(ss[i], ops[i])
    ensures ScanOk(ss[n])
  {
    if n > 0 {
      ScanRunInv(ss, ops, n - 1);
      RunInv(ss, ops, n - 1);
      hide Inv, ScanOk, Do, Late;
      KeepScanOk(ss[n - 1], ops[n - 1]);
    }
  }

  lemma {:induction false} OrderlyRunInv(ss: seq<State>, ops: seq<Op>, n: nat)
    requires Run(ss, ops) && n < |ss| && forall i :: 0 <= i < n ==> Orderly(ss[i], ops[i])
    ensures Inv(ss[n]) && ScanOk(ss[n]) && Tidy(ss[n])
    ensures forall i :: 0 <= i < n ==> !Late(ss[i], ops[i])
  {
    if n > 0 {
      OrderlyRunInv(ss, ops, n - 1);
      hide Inv, ScanOk, Tidy, Do, Late, Orderly, Can;
      OrderlyIsNotLate(ss[n - 1], ops[n - 1]);
      KeepTidy(ss[n - 1], ops[n - 1]);
    } else {
      forall q | q in ss[0].qs ensures TidyQueue(ss[0], q) {}
    }
  }

  // ---- the theorems about every run ----

  /** The request count is the length of both lists; a queue is once on the run list or with one runner that has just
      taken it off; and nothing that lis_qdetach freed is on the run list. */
  lemma RunListOnce(ss: seq<State>, ops: seq<Op>, n: nat)
    requires Run(ss, ops) && n < |ss|
    ensures var s := ss[n];
            && s.cnt == |s.runq| + |s.scanq| && Distinct(s.runq)
            && (forall q :: q in s.runq ==> q in s.qs)
            && (forall r :: r in s.runners && s.runners[r].Picked? ==> s.runners[r].q !in s.runq)
            && (forall r, u :: r in s.runners && u in s.runners && s.runners[r].Picked? && s.runners[u] == s.runners[r]
                  ==> r == u || s.runners[r].q !in s.qs)
  {
    RunInv(ss, ops, n);
    assert forall r :: r in ss[n].runners ==> PickOk(ss[n], r);
  }

  /** An enable is never forgotten: from lis_qenable to the next start of the service procedure the queue is marked
      QENAB or QWANTENAB, unless it is closing or its procedures are off; and a QENAB mark means that the queue is on
      the run list or that a runner has just taken it off and is about to start the service. */
  lemma EnableStaysPending(ss: seq<State>, ops: seq<Op>, m: nat, n: nat, q: Qid)
    requires Run(ss, ops) && m < n <= |ops|
    requires ops[m] == Enable(q) && ss[m].qs[q].srv
    requires forall i :: m < i < n ==> !(ops[i].Clear? && ss[i].runners[ops[i].r].q == q)
    requires forall i :: m < i < n ==> !(ops[i].Free? && ops[i].p == q.pair)
    ensures q in ss[n].qs
    ensures var k := ss[n].qs[q];
            && (k.enab || k.wantenab || k.closing || k.procsoff)
            && (k.enab ==> q in ss[n].runq || exists r :: r in ss[n].runners && ss[n].runners[r] == Picked(q))
  {
    StillOwed(ss, ops, m, n, q);
    RunInv(ss, ops, n);
    assert QueueOk(ss[n], q);
  }

  lemma StepKeepsOwed(s: State, op: Op, q: Qid)
    requires Can(s, op) && q in s.owed && q in s.qs
    requires !(op.Clear? && s.runners[op.r].q == q) && !(op.Free? && op.p == q.pair)
    ensures q in Do(s, op).owed && q in Do(s, op).qs
  {
  }

  lemma {:induction false} StillOwed(ss: seq<State>, ops: seq<Op>, m: nat, n: nat, q: Qid)
    requires Run(ss, ops) && m < n <= |ops| && ops[m] == Enable(q) && ss[m].qs[q].srv
    requires forall i :: m < i < n ==> !(ops[i].Clear? && ss[i].runners[ops[i].r].q == q)
    requires forall i :: m < i < n ==> !(ops[i].Free? && ops[i].p == q.pair)
    ensures q in ss[n].owed && q in ss[n].qs
  {
    if n > m + 1 {
      StillOwed(ss, ops, m, n - 1, q);
      StepKeepsOwed(ss[n - 1], ops[n - 1], q);
    }
    assert ss[n] == Do(ss[n - 1], ops[n - 1]);
  }

  /** A sleeping lis_qdetach is not forgotten: some runner still has one of the two queues and wakes it at the end. */
  lemma SleeperIsWoken(ss: seq<State>, ops: seq<Op>, n: nat, p: nat)
    requires Run(ss, ops) && n < |ss| && p in ss[n].detach && ss[n].detach[p].Asleep?
    ensures exists r, w: bool :: r in ss[n].runners && ss[n].runners[r].On(Qid(p, w))
                                 && Qid(p, w) in ss[n].qs && ss[n].qs[Qid(p, w)].waiting
  {
    RunInv(ss, ops, n);
    var s := ss[n];
    assert DetachOk(s, p) && QueueOk(s, Qid(p, false)) && QueueOk(s, Qid(p, true));
    var w := !s.qs[Qid(p, false)].running;
    assert s.runners[s.qs[Qid(p, w)].taker].On(Qid(p, w));
  }

  /** When a queue gets on the run list: at its end, by lis_qenable of a queue with a service procedure, or by a retry
      of a deferred one, and exactly if none of six bits is set. Otherwise lis_qenable leaves QWANTENAB, but for a queue
      that is only closing. */
  lemma EnablesExactly(ss: seq<State>, ops: seq<Op>, n: nat, q: Qid)
    requires Run(ss, ops) && n < |ops| && (ops[n] == Enable(q) || ops[n] == Retry(q))
    ensures q in ss[n].qs && q in ss[n + 1].qs
    ensures var s, s', k, k' := ss[n], ss[n + 1], ss[n].qs[q], ss[n + 1].qs[q];
            var due := if ops[n].Enable? then k.srv else k.wantenab;
            var deferred := k.enab || k.running || k.procsoff || k.opening || k.frozen;
            if due && !deferred && !k.closing
            then s'.runq == s.runq + [q] && k'.enab && (ops[n].Retry? ==> !k'.wantenab)
            else s'.runq == s.runq && k'.enab == k.enab
                 && k'.wantenab == (k.wantenab || (ops[n].Enable? && due && deferred))
  {
    RunInv(ss, ops, n);
    KnownStep(ss, ops, n, q);
    hide Inv, Run, Path;
    EnableStep(ss[n], ops[n], q);
  }

  lemma EnableStep(s: State, op: Op, q: Qid)
    requires Can(s, op) && (op == Enable(q) || op == Retry(q)) && QueueOk(s, q)
    ensures var s', k := Do(s, op), s.qs[q];
            q in s'.qs &&
            var k' := s'.qs[q];
            var due := if op.Enable? then k.srv else k.wantenab;
            var deferred := k.enab || k.running || k.procsoff || k.opening || k.frozen;
            if due && !deferred && !k.closing
            then s'.runq == s.runq + [q] && k'.enab && (op.Retry? ==> !k'.wantenab)
            else s'.runq == s.runq && k'.enab == k.enab
                 && k'.wantenab == (k.wantenab || (op.Enable? && due && deferred))
  {
  }

  /** So a retry gets a stuck enable going again. */
  lemma RetryRescues(ss: seq<State>, ops: seq<Op>, n: nat, q: Qid)
    requires Run(ss, ops) && n < |ops| && ops[n] == Retry(q)
    ensures q in ss[n].qs && q in ss[n + 1].qs && !Stuck(ss[n + 1].qs[q])
    ensures Stuck(ss[n].qs[q]) ==> q in ss[n + 1].runq && ss[n + 1].qs[q].enab
  {
    EnablesExactly(ss, ops, n, q);
    KnownStep(ss, ops, n, q) by { RunInv(ss, ops, n); }
  }

  /** Who changes which bit of a queue, and nobody else does. */
  ghost predicate BitsOwned(s: State, op: Op, q: Qid, k: Queue, k': Queue)
    requires Can(s, op)
  {
    && k'.frozen == ((k.frozen || op == Freeze(q)) && op != Thaw(q))
    && k'.opening == (k.opening && op != Thaw(q))
    && k'.closing == (k.closing || op == Close(q.pair))
    && k'.procsoff == (k.procsoff || op == DetachOff(q.pair))
    && k'.running == ((k.running || (op.PickScan? && s.scanq[0] == q) || (op.PickRun? && s.runq[0] == q))
                      && !((op.EndScan? || op.EndRun?) && s.runners[op.r].q == q))
    && k'.scan == ((k.scan || (op == ScanAdd(q) && !k.procsoff)) && !(op.ClearScan? && s.runners[op.r].q == q)
                   && !(q.write && (op == Deschedule(q.pair) || op == CloseDeschedule(q.pair))))
  }

  predicate SameBits(k: Queue, k': Queue) {
    k'.frozen == k.frozen && k'.opening == k.opening && k'.closing == k.closing && k'.procsoff == k.procsoff
    && k'.running == k.running && k'.scan == k.scan
  }

  lemma EnableKeepsBits(s: State, c: Qid, q: Qid)
    requires c in s.qs && q in s.qs
    ensures q in QEnable(s, c).qs && SameBits(s.qs[q], QEnable(s, c).qs[q])
  {
    assert q != c ==> q in QEnable(s, c).qs && QEnable(s, c).qs[q] == s.qs[q];
  }

  lemma RetryKeepsBits(s: State, c: Qid, q: Qid)
    requires c in s.qs && q in s.qs
    ensures q in RetryEnable(s, c).qs && SameBits(s.qs[q], RetryEnable(s, c).qs[q])
  {
    hide QEnable;
    var s1 := s.(qs := s.qs[c := s.qs[c].(wantenab := false)]);
    EnableKeepsBits(s1, c, q);
  }

  lemma WakeKeepsBits(s: State, c: Qid)
    requires c in s.qs
    ensures Wake(s, c).qs == s.qs
  {
  }

  lemma BitsAreOwned(s: State, op: Op, q: Qid)
    requires Can(s, op) && q in s.qs && q in Do(s, op).qs
    ensures BitsOwned(s, op, q, s.qs[q], Do(s, op).qs[q])
  {
    hide Do, Can, BitsOwned;
    if op.EndScan? || op.EndRun? || op.Enable? || op.Retry? {
      CallBitsAreOwned(s, op, q);
    } else if op.PickScan? || op.ClearScan? || op.PickRun? || op.Clear? || op.Freeze? || op.Thaw? || op.ScanAdd? {
      OneBitsAreOwned(s, op, q);
    } else if op.CloseDeschedule? || op.Deschedule? {
      OffBitsAreOwned(s, op, q);
    } else {
      PairBitsAreOwned(s, op, q);
    }
  }

  lemma CallBitsAreOwned(s: State, op: Op, q: Qid)
    requires Can(s, op) && q in s.qs && q in Do(s, op).qs && (op.EndScan? || op.EndRun? || op.Enable? || op.Retry?)
    ensures BitsOwned(s, op, q, s.qs[q], Do(s, op).qs[q])
  {
    hide QEnable, RetryEnable, Wake;
    if op.EndScan? || op.EndRun? {
      WakeKeepsBits(Released(s, op.r), s.runners[op.r].q);
      RetryKeepsBits(Released(s, op.r), s.runners[op.r].q, q);
    } else if op.Enable? {
      EnableKeepsBits(s.(owed := if s.qs[op.q].srv then s.owed + {op.q} else s.owed), op.q, q);
    } else {
      RetryKeepsBits(s, op.q, q);
    }
  }

  lemma OneBitsAreOwned(s: State, op: Op, q: Qid)
    requires Can(s, op) && q in s.qs && q in Do(s, op).qs
    requires op.PickScan? || op.ClearScan? || op.PickRun? || op.Clear? || op.Freeze? || op.Thaw? || op.ScanAdd?
    ensures BitsOwned(s, op, q, s.qs[q], Do(s, op).qs[q])
  {
    hide QEnable, RetryEnable, Wake, Without, Descheduled, Waiting;
  }

  lemma OffBitsAreOwned(s: State, op: Op, q: Qid)
    requires Can(s, op) && q in s.qs && q in Do(s, op).qs && (op.CloseDeschedule? || op.Deschedule?)
    ensures BitsOwned(s, op, q, s.qs[q], Do(s, op).qs[q])
  {
    hide QEnable, RetryEnable, Wake, Without, Waiting;
    assert q == Qid(q.pair, q.write);
  }

  lemma PairBitsAreOwned(s: State, op: Op, q: Qid)
    requires Can(s, op) && q in s.qs && q in Do(s, op).qs
    requires op.Close? || op.DetachOff? || op.AwaitIdle? || op.Free?
    ensures BitsOwned(s, op, q, s.qs[q], Do(s, op).qs[q])
  {
    hide QEnable, RetryEnable, Wake, Without, Descheduled;
    assert q == Qid(q.pair, q.write);
  }

  /** Both lists are first in, first out: an operation adds one queue at the end, or a runner takes the first, or a pair
      is taken out of both; nothing else moves a queue. */
  lemma ListsAreFifo(s: State, op: Op)
    requires Can(s, op)
    ensures var s' := Do(s, op);
      && (s'.runq == s.runq || (exists q :: q in s.qs && s'.runq == s.runq + [q])
          || (op.PickRun? && s'.runq == s.runq[1..] && s'.runners[op.r] == Picked(s.runq[0]))
          || ((op.Deschedule? || op.CloseDeschedule?) && s'.runq == Without(s.runq, op.p)))
      && (s'.scanq == s.scanq || (op.ScanAdd? && s'.scanq == s.scanq + [op.q])
          || (op.PickScan? && s'.scanq == s.scanq[1..] && s'.runners[op.r] == ScanPicked(s.scanq[0]))
          || ((op.Deschedule? || op.CloseDeschedule?) && s'.scanq == Without(s.scanq, op.p)))
  {
    hide Without;
  }

  // ---- the theorems about the scan list ----

  /** The scan list holds each queue once and nothing freed, and so do the runners that work on it, in every state of a
      run if and only if no queue enters it while a runner takes it off. */
  lemma ScanOnceIffNotLate(ss: seq<State>, ops: seq<Op>)
    requires Run(ss, ops)
    ensures (forall n :: 0 <= n < |ss| ==> ScanOnce(ss[n])) <==> (forall i :: 0 <= i < |ops| ==> !Late(ss[i], ops[i]))
  {
    if forall i :: 0 <= i < |ops| ==> !Late(ss[i], ops[i]) {
      forall n | 0 <= n < |ss| ensures ScanOnce(ss[n]) { ScanRunInv(ss, ops, n); }
    } else {
      var i :| 0 <= i < |ops| && Late(ss[i], ops[i]);
      assert ss[i + 1] == Do(ss[i], ops[i]) && ops[i].q in ss[i + 1].scanq;
      assert !ScanOnce(ss[i + 1]);
    }
  }

  /** Only a closing queue can do that: a test of QCLOSING in add_to_scanl would be enough. */
  lemma OnlyClosingIsLate(ss: seq<State>, ops: seq<Op>, n: nat)
    requires Run(ss, ops) && n < |ops| && Late(ss[n], ops[n])
    requires forall i :: 0 <= i < n ==> !Late(ss[i], ops[i])
    ensures ss[n].qs[ops[n].q].closing
  {
    ScanRunInv(ss, ops, n);
  }

  /** What is left when lis_qdetach frees a pair: never anything on the run list; nothing on the scan list and no
      QRUNNING, unless a queue entered the scan list late; and no runner, if callers were orderly. */
  lemma FreedWhenIdle(ss: seq<State>, ops: seq<Op>, n: nat, w: bool)
    requires Run(ss, ops) && n < |ops| && ops[n].Free?
    ensures var s, q := ss[n], Qid(ops[n].p, w);
            && q !in s.runq
            && ((forall i :: 0 <= i < n ==> !Late(ss[i], ops[i])) ==> q !in s.scanq && !s.qs[q].running)
            && ((forall i :: 0 <= i < n ==> Orderly(ss[i], ops[i])) ==>
                  forall r :: r in s.runners ==> !s.runners[r].On(q))
  {
    RunInv(ss, ops, n);
    var s, p := ss[n], ops[n].p;
    assert DetachOk(s, p);
    hide Inv, Orderly;
    if forall i :: 0 <= i < n ==> !Late(ss[i], ops[i]) {
      ScanRunInv(ss, ops, n);
      ReadyIsOff(s, p, w);
    }
    if forall i :: 0 <= i < n ==> Orderly(ss[i], ops[i]) {
      OrderlyRunInv(ss, ops, n);
      ReadyIsOff(s, p, w);
      forall r | r in s.runners ensures !s.runners[r].On(Qid(p, w)) { assert TidyRunner(s, r); }
    }
  }

  // ---- the theorems about runs with orderly callers ----

  /** In every state: a queue is on one list, once, or with one runner; and no list and no runner has a freed queue. */
  lemma ScheduledOnce(ss: seq<State>, ops: seq<Op>, n: nat)
    requires Run(ss, ops) && OrderlyRun(ss, ops) && n < |ss|
    ensures var s := ss[n];
            && Distinct(s.runq + s.scanq) && s.cnt == |s.runq + s.scanq|
            && (forall q :: q in s.runq + s.scanq ==> q in s.qs && forall r :: r in s.runners ==> !s.runners[r].On(q))
            && (forall r :: r in s.runners && !s.runners[r].Rest? ==> s.runners[r].q in s.qs)
            && Exclusive(s)
  {
    OrderlyRunInv(ss, ops, n);
    var s := ss[n];
    assert forall r :: r in s.runners ==> TidyRunner(s, r);
    forall q | q in s.runq + s.scanq ensures q in s.qs && TidyQueue(s, q) {}
  }

  ghost predicate Exclusive(s: State) {
    forall r, u :: r in s.runners && u in s.runners && r != u && !s.runners[r].Rest? && !s.runners[u].Rest?
      ==> s.runners[r].q != s.runners[u].q
  }

  lemma StepKeepsNoScan(s: State, op: Op, q: Qid)
    requires Can(s, op) && !op.ScanAdd? && q in Do(s, op).qs && q in s.qs && !s.qs[q].scan
    ensures !Do(s, op).qs[q].scan
  {
    if op.PickScan? || op.ClearScan? || op.PickRun? || op.CloseDeschedule? || op.Deschedule? || op.AwaitIdle?
       || op.Free?
    {
      hide Without, QEnable, RetryEnable, Wake;
    } else {
      IsCalm(s, op);
      hide Do;
    }
  }

  lemma {:induction false} NoScanBit(ss: seq<State>, ops: seq<Op>, n: nat)
    requires Run(ss, ops) && n < |ss| && forall i :: 0 <= i < |ops| ==> !ops[i].ScanAdd?
    ensures forall q :: q in ss[n].qs ==> !ss[n].qs[q].scan
  {
    if n > 0 {
      NoScanBit(ss, ops, n - 1);
      hide Do;
      KeysKept(ss[n - 1], ops[n - 1]);
      forall q | q in ss[n].qs ensures !ss[n].qs[q].scan { StepKeepsNoScan(ss[n - 1], ops[n - 1], q); }
    }
  }

  /** Without the scan list every caller is orderly. */
  lemma NoScanIsOrderly(ss: seq<State>, ops: seq<Op>)
    requires Run(ss, ops) && forall i :: 0 <= i < |ops| ==> !ops[i].ScanAdd?
    ensures OrderlyRun(ss, ops)
  {
    forall i | 0 <= i < |ops| ensures Orderly(ss[i], ops[i]) { NoScanBit(ss, ops, i); }
  }

  /** What a runner does on its own. */
  predicate Work(op: Op) {
    op.PickScan? || op.ClearScan? || op.EndScan? || op.PickRun? || op.Clear? || op.EndRun?
  }

  /** A path on which only runners work. */
  ghost predicate WorkPath(ss: seq<State>, ops: seq<Op>) {
    Path(ss, ops) && forall i :: 0 <= i < |ops| ==> Work(ops[i])
  }

  /** What lis_qdetach does. */
  predicate Detaches(op: Op) { op.DetachOff? || op.Deschedule? || op.AwaitIdle? || op.Free? }

  /** A path on which only runners work and pairs are detached. */
  ghost predicate TearPath(ss: seq<State>, ops: seq<Op>) {
    Path(ss, ops) && forall i :: 0 <= i < |ops| ==> Work(ops[i]) || Detaches(ops[i])
  }

  /** However the runners go on, no two of them come to share a queue. */
  ghost predicate StaysExclusive(s: State) {
    forall ss, ops :: WorkPath(ss, ops) && ss[0] == s ==> Exclusive(ss[|ops|])
  }

  ghost predicate HoldsLive(s: State) { forall r :: r in s.runners && !s.runners[r].Rest? ==> s.runners[r].q in s.qs }

  /** However the runners go on and whatever lis_qdetach does, no queue is freed that a runner has. */
  ghost predicate StaysLive(s: State) {
    forall ss, ops :: TearPath(ss, ops) && ss[0] == s ==> HoldsLive(ss[|ops|])
  }

  ghost predicate TwoRest(s: State, r: nat, u: nat) {
    r != u && r in s.runners && u in s.runners && s.runners[r].Rest? && s.runners[u].Rest?
  }

  /** Orderly is exact: with two runners at rest, an operation leads to a shared queue by the mere work of the runners
      if and only if it is not orderly. */
  lemma OrderlyIsExact(ss: seq<State>, ops: seq<Op>, op: Op, r: nat, u: nat)
    requires Run(ss, ops) && OrderlyRun(ss, ops) && Can(ss[|ops|], op) && TwoRest(ss[|ops|], r, u)
    ensures Orderly(ss[|ops|], op) <==> StaysExclusive(Do(ss[|ops|], op))
  {
    var s := ss[|ops|];
    OrderlyRunInv(ss, ops, |ops|);
    if Orderly(s, op) {
      hide Inv, ScanOk, Tidy, Do, Exclusive;
      KeepTidy(s, op);
      forall ts, os | WorkPath(ts, os) && ts[0] == Do(s, op) ensures Exclusive(ts[|os|]) {
        TearKeepsTidy(ts, os, |os|);
        TidyIsExclusive(ts[|os|]);
      }
    } else {
      DisorderOverlaps(s, op);
      var ts, os, v := OverlapIsShared([Do(s, op)], [], op.q, r, u);
    }
  }

  /** It is exact for lis_qdetach too: under the same conditions an operation can be followed by the freeing of a queue
      that a runner has if and only if it is not orderly. */
  lemma FreedIsExact(ss: seq<State>, ops: seq<Op>, op: Op, r: nat, u: nat)
    requires Run(ss, ops) && OrderlyRun(ss, ops) && Can(ss[|ops|], op) && TwoRest(ss[|ops|], r, u)
    ensures Orderly(ss[|ops|], op) <==> StaysLive(Do(ss[|ops|], op))
  {
    var s := ss[|ops|];
    OrderlyRunInv(ss, ops, |ops|);
    if Orderly(s, op) {
      hide Inv, ScanOk, Tidy, Do, HoldsLive;
      KeepTidy(s, op);
      forall ts, os | TearPath(ts, os) && ts[0] == Do(s, op) ensures HoldsLive(ts[|os|]) {
        TearKeepsTidy(ts, os, |os|);
        TidyIsLive(ts[|os|]);
      }
    } else {
      DisorderOverlaps(s, op);
      DisorderDetaches(s, op);
      PairsStay(ss, ops, |ops|);
      hide Orderly, Tidy, ScanOk;
      KeepInv(s, op);
      KeysKept(s, op);
      var ts, os := OverlapIsFreed(Do(s, op), op.q, r, u);
    }
  }

  lemma TidyIsLive(s: State)
    requires Tidy(s)
    ensures HoldsLive(s)
  {
    assert forall r :: r in s.runners ==> TidyRunner(s, r);
  }

  lemma {:induction false} PairsStay(ss: seq<State>, ops: seq<Op>, n: nat)
    requires Run(ss, ops) && n < |ss|
    ensures forall q :: q in ss[n].qs ==> HasPair(ss[n], q.pair)
  {
    if n > 0 {
      PairsStay(ss, ops, n - 1);
      hide Do;
      StepKeepsPairs(ss[n - 1], ops[n - 1]);
    }
  }

  lemma StepKeepsPairs(s: State, op: Op)
    requires Can(s, op) && forall q :: q in s.qs ==> HasPair(s, q.pair)
    ensures forall q :: q in Do(s, op).qs ==> HasPair(Do(s, op), q.pair)
  {
    KeysKept(s, op);
    hide Without, QEnable, RetryEnable, Wake, Descheduled, Waiting;
    if !op.Free? { hide Do; }
  }

  lemma TidyIsExclusive(s: State)
    requires Tidy(s)
    ensures Exclusive(s)
  {
    assert forall r :: r in s.runners ==> TidyRunner(s, r);
  }

  lemma TearIsOrderly(ss: seq<State>, ops: seq<Op>, n: nat)
    requires TearPath(ss, ops) && n < |ops|
    ensures |ss| == |ops| + 1 && Can(ss[n], ops[n]) && ss[n + 1] == Do(ss[n], ops[n]) && Orderly(ss[n], ops[n])
  {
  }

  lemma {:induction false} TearKeepsTidy(ss: seq<State>, ops: seq<Op>, n: nat)
    requires TearPath(ss, ops) && n < |ss| && Inv(ss[0]) && ScanOk(ss[0]) && Tidy(ss[0])
    ensures Inv(ss[n]) && ScanOk(ss[n]) && Tidy(ss[n])
  {
    if n > 0 {
      TearKeepsTidy(ss, ops, n - 1);
      TearIsOrderly(ss, ops, n - 1);
      hide *;
      KeepTidy(ss[n - 1], ops[n - 1]);
    }
  }

  lemma {:induction false} PathKeepsInv(ss: seq<State>, ops: seq<Op>, n: nat)
    requires Path(ss, ops) && n < |ss| && Inv(ss[0])
    ensures Inv(ss[n])
  {
    if n > 0 {
      PathKeepsInv(ss, ops, n - 1);
      hide Inv, Do;
      KeepInv(ss[n - 1], ops[n - 1]);
    }
  }

  /** q is on the scan list and somewhere else as well. */
  ghost predicate Overlap(s: State, q: Qid) {
    Listed(s) && q in s.scanq && (q in s.runq || exists t :: t in s.runners && s.runners[t].On(q))
  }

  lemma DisorderOverlaps(s: State, op: Op)
    requires Inv(s) && ScanOk(s) && Tidy(s) && Can(s, op) && !Orderly(s, op)
    ensures (op.Enable? || op.Retry? || op.ScanAdd?) && Overlap(Do(s, op), op.q) && Do(s, op).runners == s.runners
  {
    assert QueueOk(s, op.q) && TidyQueue(s, op.q);
  }

  lemma Extend(ss: seq<State>, ops: seq<Op>, op: Op) returns (ss': seq<State>, ops': seq<Op>)
    requires Path(ss, ops) && Can(ss[|ops|], op)
    ensures Path(ss', ops') && |ss'| == |ops'| + 1 && ss <= ss' && ss'[0] == ss[0]
    ensures ops' == ops + [op] && ss'[|ops'|] == Do(ss[|ops|], op)
  {
    ss', ops' := ss + [Do(ss[|ops|], op)], ops + [op];
  }

  /** No queue and no detaching pair comes or goes, and no queue but q is newly marked QRUNNING. */
  ghost predicate Calmer(s: State, t: State, q: Qid) {
    && t.qs.Keys == s.qs.Keys && t.detach.Keys == s.detach.Keys
    && forall k :: k in s.qs && k != q && t.qs[k].running ==> s.qs[k].running
  }

  /** A runner finishes with the queue it has. */
  lemma Finish(ss: seq<State>, ops: seq<Op>, v: nat, q: Qid) returns (ss': seq<State>, ops': seq<Op>)
    requires WorkPath(ss, ops)
    requires var s := ss[|ops|]; v in s.runners && s.runners[v].On(q) && q in s.qs
    ensures WorkPath(ss', ops') && ss'[0] == ss[0]
    ensures Finished(ss[|ops|], ss'[|ops'|], v, q)
  {
    ss', ops' := ss, ops;
    var s := ss[|ops|];
    if s.runners[v].ScanPicked? || s.runners[v].Picked? {
      var op := if s.runners[v].ScanPicked? then ClearScan(v) else Clear(v);
      BeginsWork(s, v, q, op);
      ss', ops' := Extend(ss', ops', op);
    }
    var t := ss'[|ops'|];
    var last := if t.runners[v].Scanning? then EndScan(v) else EndRun(v);
    EndsWork(t, v, q, last);
    hide Do, Can;
    ss', ops' := Extend(ss', ops', last);
  }

  lemma BeginsWork(s: State, v: nat, q: Qid, op: Op)
    requires v in s.runners && s.runners[v].On(q) && q in s.qs
    requires (op == ClearScan(v) && s.runners[v].ScanPicked?) || (op == Clear(v) && s.runners[v].Picked?)
    ensures Can(s, op)
    ensures var t := Do(s, op);
      && t.runq == s.runq && t.scanq == s.scanq && t.detach == s.detach && t.qs.Keys == s.qs.Keys
      && v in t.runners && t.runners[v].On(q) && (t.runners[v].Scanning? || t.runners[v].Serving?)
      && t.runners[v := Rest] == s.runners[v := Rest]
      && forall k :: k in s.qs ==> t.qs[k].running == s.qs[k].running
  {
  }

  ghost predicate Finished(s: State, t: State, v: nat, q: Qid) {
    && t.runners == s.runners[v := Rest] && t.scanq == s.scanq && (t.runq == s.runq || t.runq == s.runq + [q])
    && t.qs.Keys == s.qs.Keys && t.detach.Keys == s.detach.Keys && q in s.qs && !t.qs[q].running
    && forall k :: k in s.qs && t.qs[k].running ==> s.qs[k].running
  }

  lemma EndsWork(s: State, v: nat, q: Qid, op: Op)
    requires v in s.runners && s.runners[v].On(q) && (op == EndScan(v) || op == EndRun(v)) && Can(s, op)
    ensures Finished(s, Do(s, op), v, q)
  {
  }

  /** A runner takes the first queue off a list and is done with it; it may come back to the end of the run list. */
  lemma Round(ss: seq<State>, ops: seq<Op>, v: nat, pick: Op, q: Qid)
      returns (ss': seq<State>, ops': seq<Op>)
    requires WorkPath(ss, ops) && (pick == PickScan(v) || pick == PickRun(v)) && Can(ss[|ops|], pick)
    requires forall k :: k in ss[|ops|].runq ==> k in ss[|ops|].qs
    ensures WorkPath(ss', ops') && ss'[0] == ss[0] && Calmer(ss[|ops|], ss'[|ops'|], q)
    ensures var s, t := ss[|ops|], ss'[|ops'|];
            && t.runners == s.runners && (forall k :: k in t.runq ==> k in t.qs)
            && t.scanq == (if pick.PickScan? then s.scanq[1..] else s.scanq)
            && (if pick.PickScan? then s.runq else s.runq[1..]) <= t.runq
  {
    var s := ss[|ops|];
    var k := if pick.PickScan? then s.scanq[0] else s.runq[0];
    var s1 := Do(s, pick);
    assert s1.runners[v].On(k) && s1.runners[v := Rest] == s.runners;
    assert s1.detach == s.detach && s1.qs.Keys == s.qs.Keys;
    assert forall j :: j in s.qs && j != k ==> s1.qs[j].running == s.qs[j].running;
    ss', ops' := Extend(ss, ops, pick);
    hide Do, Can;
    ss', ops' := Finish(ss', ops', v, k);
  }

  /** A runner works off the n queues in front of the scan list. */
  lemma {:induction false} DrainScan(ss0: seq<State>, ops0: seq<Op>, u: nat, n: nat, q: Qid)
      returns (ss: seq<State>, ops: seq<Op>)
    requires WorkPath(ss0, ops0)
    requires var s := ss0[|ops0|]; u in s.runners && s.runners[u].Rest? && n <= |s.scanq| && Listed(s)
    ensures WorkPath(ss, ops) && ss[0] == ss0[0] && Calmer(ss0[|ops0|], ss[|ops|], q)
    ensures var s, t := ss0[|ops0|], ss[|ops|];
            t.scanq == s.scanq[n..] && s.runq <= t.runq && t.runners == s.runners && Listed(t)
  {
    if n == 0 {
      ss, ops := ss0, ops0;
    } else {
      ss, ops := DrainScan(ss0, ops0, u, n - 1, q);
      hide WorkPath;
      assert ss[|ops|].scanq[0] == ss0[|ops0|].scanq[n - 1];
      ss, ops := Round(ss, ops, u, PickScan(u), q);
    }
  }

  /** All listed queues exist. */
  ghost predicate Listed(s: State) {
    (forall k :: k in s.runq ==> k in s.qs) && (forall k :: k in s.scanq ==> k in s.qs)
  }

  lemma {:induction false} DrainRun(ss0: seq<State>, ops0: seq<Op>, r: nat, n: nat, q: Qid)
      returns (ss: seq<State>, ops: seq<Op>)
    requires WorkPath(ss0, ops0)
    requires var s := ss0[|ops0|]; r in s.runners && s.runners[r].Rest? && n < |s.runq| && Listed(s)
    ensures WorkPath(ss, ops) && ss[0] == ss0[0] && Calmer(ss0[|ops0|], ss[|ops|], q)
    ensures var s, t := ss0[|ops0|], ss[|ops|]; t.runners == s.runners && Listed(t) && s.runq[n..] <= t.runq
  {
    if n == 0 {
      ss, ops := ss0, ops0;
    } else {
      ss, ops := DrainRun(ss0, ops0, r, n - 1, q);
      var was := ss[|ops|].runq;
      hide WorkPath;
      assert was[0] == ss0[|ops0|].runq[n - 1] && was[0] in was;
      ss, ops := Round(ss, ops, r, PickRun(r), q);
      assert ss0[|ops0|].runq[n..] == ss0[|ops0|].runq[n - 1..][1..] <= was[1..];
    }
  }

  /** Then the runners come to share it: u and v. */
  lemma OverlapIsShared(ss0: seq<State>, ops0: seq<Op>, q: Qid, r: nat, u: nat)
      returns (ss: seq<State>, ops: seq<Op>, v: nat)
    requires WorkPath(ss0, ops0) && Overlap(ss0[|ops0|], q) && TwoRest(ss0[|ops0|], r, u)
    ensures WorkPath(ss, ops) && ss[0] == ss0[0] && Calmer(ss0[|ops0|], ss[|ops|], q)
    ensures Shares(ss[|ops|], q, u, v) && !Exclusive(ss[|ops|])
  {
    var s := ss0[|ops0|];
    var i :| 0 <= i < |s.scanq| && s.scanq[i] == q;
    ss, ops := DrainScan(ss0, ops0, u, i, q);
    assert ss[|ops|].scanq[0] == q;
    PickFacts(ss[|ops|], u, PickScan(u), q);
    hide Do, Can, Path;
    ss, ops := Extend(ss, ops, PickScan(u));
    if q in s.runq {
      v := r;
      ss, ops := PickedToo(ss, ops, q, r);
    } else {
      v :| v in s.runners && s.runners[v].On(q);
    }
    SharesIsShared(ss[|ops|], q, u, v);
  }

  /** A runner works off the run list until it gets q. */
  lemma PickedToo(ss0: seq<State>, ops0: seq<Op>, q: Qid, r: nat) returns (ss: seq<State>, ops: seq<Op>)
    requires WorkPath(ss0, ops0)
    requires var s := ss0[|ops0|]; q in s.runq && Listed(s) && r in s.runners && s.runners[r].Rest?
    ensures WorkPath(ss, ops) && ss[0] == ss0[0] && Calmer(ss0[|ops0|], ss[|ops|], q)
    ensures ss[|ops|].runners == ss0[|ops0|].runners[r := Picked(q)]
  {
    var s := ss0[|ops0|];
    var j :| 0 <= j < |s.runq| && s.runq[j] == q;
    ss, ops := DrainRun(ss0, ops0, r, j, q);
    assert ss[|ops|].runq[0] == q;
    PickFacts(ss[|ops|], r, PickRun(r), q);
    hide Do, Can, Path;
    ss, ops := Extend(ss, ops, PickRun(r));
  }

  lemma PickFacts(s: State, v: nat, pick: Op, q: Qid)
    requires v in s.runners && s.runners[v].Rest? && Listed(s)
    requires (pick == PickScan(v) && s.scanq != [] && s.scanq[0] == q)
             || (pick == PickRun(v) && s.runq != [] && s.runq[0] == q)
    ensures Can(s, pick) && Calmer(s, Do(s, pick), q)
    ensures Do(s, pick).runners == s.runners[v := if pick.PickScan? then ScanPicked(q) else Picked(q)]
    ensures pick.PickScan? ==> Listed(Do(s, pick)) && Do(s, pick).runq == s.runq
  {
  }

  lemma SharesIsShared(s: State, q: Qid, u: nat, v: nat)
    requires Shares(s, q, u, v)
    ensures !Exclusive(s)
  {
    assert s.runners[u].q == s.runners[v].q;
  }

  ghost predicate Shares(s: State, q: Qid, u: nat, v: nat) {
    u != v && u in s.runners && v in s.runners && s.runners[u] == ScanPicked(q) && s.runners[v].On(q)
  }

  /** And lis_qdetach frees it while v has it: u is done first and clears QRUNNING. */
  lemma SharedIsFreed(ss0: seq<State>, ops0: seq<Op>, q: Qid, u: nat, v: nat)
      returns (ss: seq<State>, ops: seq<Op>)
    requires TearPath(ss0, ops0) && Inv(ss0[|ops0|]) && Shares(ss0[|ops0|], q, u, v)
    requires var s := ss0[|ops0|];
             q.write && HasPair(s, q.pair) && q.pair !in s.detach && !s.qs[Qid(q.pair, false)].running
    ensures TearPath(ss, ops) && ss[0] == ss0[0] && !HoldsLive(ss[|ops|])
  {
    var s := ss0[|ops0|];
    assert QueueOk(s, Qid(q.pair, false)) && QueueOk(s, q) && q == Qid(q.pair, true);
    hide Inv, QueueOk, QEnable, RetryEnable, Without, Descheduled, Waiting;
    ss, ops := Extend(ss0, ops0, ClearScan(u));
    ss, ops := Extend(ss, ops, EndScan(u));
    assert Unseen(ss[|ops|], q.pair) && ss[|ops|].runners[v].On(q);
    hide Do, Can, Wake, Unseen;
    ss, ops := DetachesUnseen(ss, ops, q.pair);
  }

  lemma StillOverlaps(s: State, t: State, v: nat, k: Qid, q: Qid, r: nat, u: nat)
    requires v in s.runners && s.runners[v].On(k) && k != q && Finished(s, t, v, k)
    requires Overlap(s, q) && TwoRest(s, r, u)
    ensures Overlap(t, q) && TwoRest(t, r, u)
  {
    if q !in s.runq {
      var h :| h in s.runners && s.runners[h].On(q);
      assert h in t.runners && t.runners[h].On(q);
    }
  }

  lemma OverlapIsFreed(s: State, q: Qid, r: nat, u: nat) returns (ss: seq<State>, ops: seq<Op>)
    requires Inv(s) && Overlap(s, q) && TwoRest(s, r, u) && HasPair(s, q.pair) && q.pair !in s.detach
    ensures TearPath(ss, ops) && ss[0] == s && !HoldsLive(ss[|ops|])
  {
    var rq := Qid(q.pair, false);
    assert q.write && QueueOk(s, rq);
    ss, ops := [s], [];
    hide Inv, QueueOk;
    if s.qs[rq].running {
      ss, ops := Finish(ss, ops, s.qs[rq].taker, rq);
      StillOverlaps(s, ss[|ops|], s.qs[rq].taker, rq, q, r, u);
    }
    var v;
    ss, ops, v := OverlapIsShared(ss, ops, q, r, u);
    PathKeepsInv(ss, ops, |ops|);
    ss, ops := SharedIsFreed(ss, ops, q, u, v);
  }

  lemma DisorderDetaches(s: State, op: Op)
    requires Inv(s) && Can(s, op) && !Orderly(s, op)
    ensures op.q in s.qs && op.q.pair !in Do(s, op).detach && Do(s, op).detach == s.detach
    ensures Do(s, op).qs[op.q].scan ==> op.q.write
  {
    var q := op.q;
    assert QueueOk(s, q) && q == Qid(q.pair, q.write);
    assert q.pair in s.detach ==> DetachOk(s, q.pair);
  }

  // ---- where the source falls short ----

  /** Runner r serves and runner u scans the same otherwise idle write queue of pair p. */
  predicate Shared(s: State, r: nat, u: nat, p: nat) {
    && r in s.runners && u in s.runners && r != u && HasPair(s, p) && p !in s.detach
    && s.runners[r] == Serving(Qid(p, true)) && s.runners[u] == Scanning(Qid(p, true))
    && !s.qs[Qid(p, false)].InUse()
    && var k := s.qs[Qid(p, true)]; !k.enab && !k.scan && !k.waiting
  }

  function IdleQueue(): Queue {
    Queue(true, false, false, false, false, false, false, false, false, false, 0, 0)
  }

  /** A pair of idle queues and two runners. */
  lemma Start() returns (ss: seq<State>, ops: seq<Op>)
    ensures Run(ss, ops) && ops == []
    ensures ss[0] == State(map[Qid(0, false) := IdleQueue(), Qid(0, true) := IdleQueue()], [], [], 0,
                           map[1 := Rest, 2 := Rest], map[], {})
  {
    ss, ops := [State(map[Qid(0, false) := IdleQueue(), Qid(0, true) := IdleQueue()], [], [], 0,
                      map[1 := Rest, 2 := Rest], map[], {})], [];
  }

  /** Two runners share a queue in some run: nothing keeps it off the run list while it is on the scan list. */
  lemma SharedIsReachable() returns (ss: seq<State>, ops: seq<Op>)
    ensures Run(ss, ops) && Shared(ss[|ops|], 2, 1, 0)
  {
    var wq := Qid(0, true);
    ss, ops := Start();
    ss, ops := Extend(ss, ops, Enable(wq));
    ss, ops := Extend(ss, ops, ScanAdd(wq));
    assert ss[|ops|].scanq == ss[|ops|].runq == [wq];
    ss, ops := Extend(ss, ops, PickScan(1));
    ss, ops := Extend(ss, ops, PickRun(2));
    ss, ops := Extend(ss, ops, ClearScan(1));
    ss, ops := Extend(ss, ops, Clear(2));
  }

  /** lis_qdetach of a pair that no runner is marked to have and whose QSCAN bit is clear. */
  lemma DetachesUnseen(ss: seq<State>, ops: seq<Op>, p: nat) returns (ss': seq<State>, ops': seq<Op>)
    requires Path(ss, ops) && Unseen(ss[|ops|], p)
    ensures Path(ss', ops') && ss <= ss' && ops' == ops + [DetachOff(p), Deschedule(p), AwaitIdle(p), Free(p)]
    ensures var s, s' := ss[|ops|], ss'[|ops'|];
            s'.runners == s.runners && s'.scanq == s.scanq && Qid(p, true) !in s'.qs
  {
    var s1, s2, s3 := UnseenSteps(ss[|ops|], p);
    hide Do, Can;
    ss', ops' := Extend(ss, ops, DetachOff(p));
    ss', ops' := Extend(ss', ops', Deschedule(p));
    ss', ops' := Extend(ss', ops', AwaitIdle(p));
    ss', ops' := Extend(ss', ops', Free(p));
  }

  predicate Unseen(s: State, p: nat) {
    HasPair(s, p) && p !in s.detach && forall w: bool :: !s.qs[Qid(p, w)].running && !s.qs[Qid(p, w)].scan
  }

  lemma UnseenSteps(s: State, p: nat) returns (s1: State, s2: State, s3: State)
    requires Unseen(s, p)
    ensures Can(s, DetachOff(p)) && s1 == Do(s, DetachOff(p)) && Can(s1, Deschedule(p)) && s2 == Do(s1, Deschedule(p))
    ensures Can(s2, AwaitIdle(p)) && s3 == Do(s2, AwaitIdle(p)) && Can(s3, Free(p))
    ensures var s4 := Do(s3, Free(p)); s4.runners == s.runners && s4.scanq == s.scanq && Qid(p, true) !in s4.qs
  {
    s1, s2 := UnseenOff(s, p);
    s3 := UnseenFree(s2, p);
  }

  lemma UnseenOff(s: State, p: nat) returns (s1: State, s2: State)
    requires Unseen(s, p)
    ensures Can(s, DetachOff(p)) && s1 == Do(s, DetachOff(p)) && Can(s1, Deschedule(p)) && s2 == Do(s1, Deschedule(p))
    ensures HasPair(s2, p) && p in s2.detach && s2.detach[p] == Await && s2.runners == s.runners && s2.scanq == s.scanq
    ensures !s2.qs[Qid(p, false)].InUse() && !s2.qs[Qid(p, true)].InUse()
  {
    hide Without, QEnable, RetryEnable, Wake, Waiting;
    s1 := Do(s, DetachOff(p));
    s2 := Do(s1, Deschedule(p));
  }

  lemma UnseenFree(s: State, p: nat) returns (s1: State)
    requires HasPair(s, p) && p in s.detach && s.detach[p] == Await
    requires !s.qs[Qid(p, false)].InUse() && !s.qs[Qid(p, true)].InUse()
    ensures Can(s, AwaitIdle(p)) && s1 == Do(s, AwaitIdle(p)) && Can(s1, Free(p))
    ensures var s2 := Do(s1, Free(p)); s2.runners == s.runners && s2.scanq == s.scanq && Qid(p, true) !in s2.qs
  {
    hide Without, QEnable, RetryEnable, Wake, Descheduled;
    s1 := Do(s, AwaitIdle(p));
  }

  /** Then the first of the two to finish clears QRUNNING, and a lis_qdetach frees the queue under the other. */
  lemma SharedQueueFreed(ss: seq<State>, ops: seq<Op>, r: nat, u: nat, p: nat)
      returns (ss': seq<State>, ops': seq<Op>)
    requires Path(ss, ops) && Shared(ss[|ops|], r, u, p)
    ensures Path(ss', ops') && ss <= ss' && ops <= ops'
    ensures var s := ss'[|ops'|]; r in s.runners && s.runners[r] == Serving(Qid(p, true)) && Qid(p, true) !in s.qs
  {
    ss', ops' := Extend(ss, ops, EndScan(u));
    ss', ops' := DetachesUnseen(ss', ops', p);
  }

  /** Wherever a queue enters the scan list late, a lis_qdetach can free it while it is still there: the runner that is
      taking it off clears the QSCAN bit of the second entry, and deschedule does not look for it. */
  lemma LateIsFreed(ss: seq<State>, ops: seq<Op>, r: nat, p: nat) returns (ss': seq<State>, ops': seq<Op>)
    requires Run(ss, ops) && Can(ss[|ops|], ScanAdd(Qid(p, true))) && Late(ss[|ops|], ScanAdd(Qid(p, true)))
    requires var s := ss[|ops|]; r in s.runners && s.runners[r] == ScanPicked(Qid(p, true))
    requires var s := ss[|ops|]; HasPair(s, p) && p !in s.detach && !s.qs[Qid(p, false)].running
    ensures Run(ss', ops') && ss <= ss'
    ensures ops' == ops + [ScanAdd(Qid(p, true)), ClearScan(r), EndScan(r)]
                        + [DetachOff(p), Deschedule(p), AwaitIdle(p), Free(p)]
    ensures Qid(p, true) in ss'[|ops'|].scanq && Qid(p, true) !in ss'[|ops'|].qs
  {
    RunInv(ss, ops, |ops|);
    hide Inv, Do, Can, Unseen, Late, HasPair, Init;
    ss', ops' := LateEnters(ss, ops, r, p);
    ss', ops' := DetachesUnseen(ss', ops', p);
  }

  lemma LateEnters(ss: seq<State>, ops: seq<Op>, r: nat, p: nat) returns (ss': seq<State>, ops': seq<Op>)
    requires Path(ss, ops) && Inv(ss[|ops|])
    requires var s := ss[|ops|]; HasPair(s, p) && p !in s.detach && Late(s, ScanAdd(Qid(p, true)))
    requires var s := ss[|ops|];
             r in s.runners && s.runners[r] == ScanPicked(Qid(p, true)) && !s.qs[Qid(p, false)].running
    ensures Path(ss', ops') && ss <= ss' && ops' == ops + [ScanAdd(Qid(p, true)), ClearScan(r), EndScan(r)]
    ensures Unseen(ss'[|ops'|], p) && ss'[|ops'|].scanq == ss[|ops|].scanq + [Qid(p, true)]
  {
    var s1, s2, s3 := LateSteps(ss[|ops|], r, p);
    hide *;
    ss', ops' := Extend(ss, ops, ScanAdd(Qid(p, true)));
    ss', ops' := Extend(ss', ops', ClearScan(r));
    ss', ops' := Extend(ss', ops', EndScan(r));
  }

  lemma LateSteps(s: State, r: nat, p: nat) returns (s1: State, s2: State, s3: State)
    requires Inv(s) && HasPair(s, p) && p !in s.detach && Late(s, ScanAdd(Qid(p, true)))
    requires r in s.runners && s.runners[r] == ScanPicked(Qid(p, true)) && !s.qs[Qid(p, false)].running
    ensures Can(s, ScanAdd(Qid(p, true))) && s1 == Do(s, ScanAdd(Qid(p, true)))
    ensures Can(s1, ClearScan(r)) && s2 == Do(s1, ClearScan(r)) && Can(s2, EndScan(r)) && s3 == Do(s2, EndScan(r))
    ensures Unseen(s3, p) && s3.scanq == s.scanq + [Qid(p, true)]
  {
    assert QueueOk(s, Qid(p, false)) && QueueOk(s, Qid(p, true));
    hide Inv, QueueOk, Without, QEnable, RetryEnable, Descheduled, Waiting;
    s1 := Do(s, ScanAdd(Qid(p, true)));
    s2 := Do(s1, ClearScan(r));
    s3 := Do(s2, EndScan(r));
  }

  /** A run in which the close of a stream lets that happen, though no runner ever takes a queue marked QRUNNING. */
  lemma FreedOnScanList() returns (ss: seq<State>, ops: seq<Op>)
    ensures Run(ss, ops) && Qid(0, true) in ss[|ops|].scanq && Qid(0, true) !in ss[|ops|].qs
    ensures forall i :: 0 <= i < |ops| ==> !ops[i].PickRun? && (ops[i].PickScan? ==> !ss[i].qs[ss[i].scanq[0]].running)
  {
    var wq := Qid(0, true);
    ss, ops := Start();
    ss, ops := Extend(ss, ops, ScanAdd(wq));
    ss, ops := Extend(ss, ops, PickScan(1));
    assert ss[|ops|].runners[1] == ScanPicked(wq);
    ss, ops := CloseMarks(ss, ops, 0);
    hide Without, QEnable, RetryEnable, Wake, Waiting, Descheduled, Do;
    ss, ops := LateIsFreed(ss, ops, 1, 0);
  }

  /** mark_closing on a pair that is on no list. */
  lemma CloseMarks(ss: seq<State>, ops: seq<Op>, p: nat) returns (ss': seq<State>, ops': seq<Op>)
    requires Path(ss, ops) && HasPair(ss[|ops|], p) && ss[|ops|].scanq == []
    ensures Path(ss', ops') && ss <= ss' && ops' == ops + [Close(p), CloseDeschedule(p)]
    ensures var s, s', rq, wq := ss[|ops|], ss'[|ops'|], Qid(p, false), Qid(p, true);
            && s'.runners == s.runners && s'.detach == s.detach && HasPair(s', p)
            && s'.qs[rq] == s.qs[rq].(closing := true, enab := false)
            && s'.qs[wq] == s.qs[wq].(closing := true, scan := false, enab := false)
  {
    ss', ops' := Extend(ss, ops, Close(p));
    ss', ops' := Extend(ss', ops', CloseDeschedule(p));
  }

  /** A deferred enable that nothing will retry: no bit is set whose clearing leads to lis_retry_qenable. */
  predicate Stuck(k: Queue) { k.wantenab && !k.Inhibited() }

  /** The operation takes the last bit that holds a deferred enable back, and does not retry it: the end of a scan run,
      a thaw until its lis_retry_qenable, or the start of a service run on a queue shared with another runner. */
  predicate Strands(s: State, op: Op, q: Qid)
    requires Can(s, op) && q in s.qs
  {
    var k := s.qs[q];
    k.wantenab && !k.closing && !k.procsoff &&
    match op
    case EndScan(r) => s.runners[r].q == q && !k.enab && !k.opening && !k.frozen
    case Thaw(q') => q' == q && !k.enab && !k.running
    case Clear(r) => s.runners[r].q == q && !k.running && !k.opening && !k.frozen
    case _ => false
  }

  /** In every run a deferred enable gets stuck by exactly these, never by the end of a service run. */
  lemma ScanEndStrands(ss: seq<State>, ops: seq<Op>, n: nat, q: Qid)
    requires Run(ss, ops) && n < |ops| && q in ss[n].qs && q in ss[n + 1].qs && !Stuck(ss[n].qs[q])
    ensures Stuck(ss[n + 1].qs[q]) <==> Strands(ss[n], ops[n], q)
  {
    RunInv(ss, ops, n);
    KnownStep(ss, ops, n, q);
    hide *;
    StepStrands(ss[n], ops[n], q);
  }

  lemma KnownStep(ss: seq<State>, ops: seq<Op>, n: nat, q: Qid)
    requires Path(ss, ops) && n < |ops| && Inv(ss[n]) && q in ss[n].qs
    ensures Can(ss[n], ops[n]) && ss[n + 1] == Do(ss[n], ops[n]) && QueueOk(ss[n], q)
    ensures ops[n].Deschedule? ==> DetachOk(ss[n], ops[n].p)
  {
    hide Do, QueueOk, DetachOk;
  }

  lemma StepStrands(s: State, op: Op, q: Qid)
    requires Can(s, op) && q in s.qs && QueueOk(s, q) && q in Do(s, op).qs && !Stuck(s.qs[q])
    requires op.Deschedule? ==> DetachOk(s, op.p)
    ensures Stuck(Do(s, op).qs[q]) <==> Strands(s, op, q)
  {
    hide Without;
  }

  lemma StuckLater(ss: seq<State>, ops: seq<Op>, n: nat, q: Qid)
    requires Run(ss, ops) && n < |ss| && q in ss[n].qs && Stuck(ss[n].qs[q])
    ensures n > 0 && |ss| == |ops| + 1 && Can(ss[n - 1], ops[n - 1]) && q in ss[n - 1].qs
  {
    if n > 0 {
      assert ss[n] == Do(ss[n - 1], ops[n - 1]);
      hide Do;
      KeysKept(ss[n - 1], ops[n - 1]);
    }
  }

  /** A stuck enable was stranded by one of them, and has been stuck ever since. */
  lemma {:induction false} StrandedSince(ss: seq<State>, ops: seq<Op>, n: nat, q: Qid) returns (m: nat)
    requires Run(ss, ops) && n < |ss| && q in ss[n].qs && Stuck(ss[n].qs[q])
    ensures m < n && q in ss[m].qs && Strands(ss[m], ops[m], q)
    ensures forall i :: m < i <= n ==> q in ss[i].qs && Stuck(ss[i].qs[q])
  {
    hide *;
    StuckLater(ss, ops, n, q);
    if Stuck(ss[n - 1].qs[q]) {
      m := StrandedSince(ss, ops, n - 1, q);
    } else {
      m := n - 1;
      ScanEndStrands(ss, ops, m, q);
    }
  }

  /** It happens: an orderly run after which a service procedure is owed to a queue that is on no list, no runner is at
      work, and nothing is left to do. */
  lemma EnableStranded() returns (ss: seq<State>, ops: seq<Op>)
    ensures Run(ss, ops) && OrderlyRun(ss, ops)
    ensures var s, q := ss[|ops|], Qid(0, true);
            && q in s.owed && q in s.qs && Stuck(s.qs[q]) && s.runq == s.scanq == []
            && forall r :: r in s.runners ==> s.runners[r].Rest?
  {
    var wq := Qid(0, true);
    ss, ops := Start();
    ss, ops := Extend(ss, ops, ScanAdd(wq));
    ss, ops := Extend(ss, ops, PickScan(1));
    ss, ops := Extend(ss, ops, ClearScan(1));
    ss, ops := Extend(ss, ops, Enable(wq));
    ss, ops := Extend(ss, ops, EndScan(1));
    assert Orderly(ss[0], ops[0]) && Orderly(ss[3], ops[3]);
  }
}
