/** The open/close protocol of stream heads (head/head.c).

  Any number of threads race over one global semaphore (`lis_stdata_sem`), the `sd_opening` semaphore of each
  stream head, the reference count `sd_refcnt`, the open count `sd_opencnt` and the STRCLOSE flag. A thread stands
  for one file: it opens a device, keeps it open, closes it, and may start again. Each program counter below is a
  point between two atomic steps of `lis_stropen` or `lis_doclose`.
  */
module OpenClose {
  import opened Common

  /** A {major,minor} device; `clone` is LIS_DEV_IS_CLONE of its major number. */
  datatype Dev = Dev(clone: bool, id: nat)

  /** A stream head. `first` (the device planted at allocation), `dismantled` (how often its queues were dismantled) and
      `attached` (how often the driver's open routine was called for a first open) are history variables: no step tests
      them. */
  datatype Head = Head(dev: Dev, first: Dev, refcnt: int, opencnt: int, strclose: bool, opening: Option<nat>,
                       dismantled: nat, attached: nat)

  /** What an opener ends up with: the device it asked for, the one it is to get (another one if the driver answered
      so), and whether the head's device was compared with that. */
  datatype Got = Got(asked: Dev, dev: Dev, checked: bool)

  /** What a thread holds and owns. `on` is the head it works on; `global` and `head` say whether it holds
      lis_stdata_sem and sd_opening of that head; `ref` and `counted` whether it owns a unit of sd_refcnt and of
      sd_opencnt; `closer` whether it has set STRCLOSE and has still to dismantle; `failing` whether it dismantled
      after a failed clone open; `anchor` whether it keeps the head from being freed as long as STRCLOSE is clear;
      `settling` whether the head may carry another device than at allocation although its open count is 0; `attaching`
      whether the driver may have been opened for the head although that count is 0. */
  datatype Roles = Roles(on: Option<nat>, nameonly global: bool := false, nameonly head: bool := false,
                         nameonly ref: bool := false, nameonly counted: bool := false, nameonly closer: bool := false,
                         nameonly failing: bool := false, nameonly anchor: bool := false,
                         nameonly settling: bool := false, nameonly attaching: bool := false)

  datatype Pc =
    | Idle
    // lis_stropen
    | DownGlobal(dev: Dev)                        // before lis_down(&lis_stdata_sem)
    | Lookup(dev: Dev)                            // holds lis_stdata_sem
    | Take(dev: Dev, found: Option<nat>)          // holds it; lookup has returned
    | UpGlobal(dev: Dev, hd: nat, existing: bool) // holds it and a reference on hd
    | DownHead(dev: Dev, hd: nat, existing: bool) // before get_sd_opening_sem(hd)
    | Check(dev: Dev, hd: nat, existing: bool)    // holds sd_opening
    | RetryUp(dev: Dev, hd: nat)                  // about to release sd_opening and start over
    | RetryPut(dev: Dev, hd: nat)                 // about to put hd and start over
    | Attach(dev: Dev, hd: nat)                   // long form: the driver's open routine runs
    | DownAdopt(dev: Dev, hd: nat, ndev: Dev)     // driver changed the device: before lis_down(&lis_stdata_sem)
    | Adopt(dev: Dev, hd: nat, ndev: Dev)         // holds both semaphores
    | UpAdopt(dev: Dev, hd: nat, ndev: Dev)       // ndev stored, still holds both
    | Count(hd: nat, got: Got)                    // successful_rtn: about to count the open
    | UpHead(hd: nat, got: Got)                   // counted, about to release sd_opening
    | Opened(hd: nat, got: Got)
    | FailUpGlobal(hd: nat)                       // clone open picked an in-use device
    | FailUpHead(hd: nat)
    | FailDismantle(hd: nat)
    | FailPut(hd: nat)
    // lis_doclose
    | CloseDown(hd: nat)                          // before lis_down_nosig(&head->sd_opening)
    | CloseDec(hd: nat)                           // holds sd_opening
    | CloseDownGlobal(hd: nat)                    // open count is 0: before lis_down_nosig(&lis_stdata_sem)
    | CloseMark(hd: nat)                          // holds both
    | CloseUpGlobal(hd: nat)                      // STRCLOSE set, holds both
    | CloseUpHead(hd: nat, last: bool)            // about to release sd_opening
    | CloseAction(hd: nat)                        // about to dismantle
    | ClosePut(hd: nat)                           // about to put hd
  {
    /** The roles of a thread at this point. */
    function At(): Roles {
      match this
      case Idle => Roles(None)
      case DownGlobal(_) => Roles(None)
      case Lookup(_) => Roles(None, global := true)
      case Take(_, found) => Roles(found, global := true)
      case UpGlobal(_, h, existing) => Roles(Some(h), global := true, ref := true, anchor := !existing)
      case DownHead(_, h, existing) => Roles(Some(h), ref := true, anchor := !existing)
      case Check(_, h, existing) => Roles(Some(h), head := true, ref := true, anchor := !existing)
      case RetryUp(_, h) => Roles(Some(h), head := true, ref := true)
      case RetryPut(_, h) => Roles(Some(h), ref := true)
      case Attach(_, h) => Roles(Some(h), head := true, ref := true, anchor := true, attaching := true)
      case DownAdopt(_, h, _) => Roles(Some(h), head := true, ref := true, anchor := true, attaching := true)
      case Adopt(_, h, _) =>
        Roles(Some(h), global := true, head := true, ref := true, anchor := true, attaching := true)
      case UpAdopt(_, h, _) =>
        Roles(Some(h), global := true, head := true, ref := true, anchor := true, settling := true, attaching := true)
      case Count(h, _) => Roles(Some(h), head := true, ref := true, anchor := true, settling := true, attaching := true)
      case UpHead(h, _) => Roles(Some(h), head := true, ref := true, counted := true, anchor := true)
      case Opened(h, _) => Roles(Some(h), ref := true, counted := true, anchor := true)
      case FailUpGlobal(h) =>
        Roles(Some(h), global := true, head := true, ref := true, anchor := true, attaching := true)
      case FailUpHead(h) => Roles(Some(h), head := true, ref := true, anchor := true, attaching := true)
      case FailDismantle(h) => Roles(Some(h), ref := true, anchor := true)
      case FailPut(h) => Roles(Some(h), ref := true, failing := true, anchor := true)
      case CloseDown(h) => Roles(Some(h), ref := true, counted := true, anchor := true)
      case CloseDec(h) => Roles(Some(h), head := true, ref := true, counted := true, anchor := true)
      case CloseDownGlobal(h) =>
        Roles(Some(h), head := true, ref := true, anchor := true, settling := true, attaching := true)
      case CloseMark(h) =>
        Roles(Some(h), global := true, head := true, ref := true, anchor := true, settling := true, attaching := true)
      case CloseUpGlobal(h) => Roles(Some(h), global := true, head := true, ref := true, closer := true)
      case CloseUpHead(h, last) => Roles(Some(h), head := true, ref := true, closer := last)
      case CloseAction(h) => Roles(Some(h), ref := true, closer := true)
      case ClosePut(h) => Roles(Some(h), ref := true)
    }

    /** Neither finished nor resting with an open file. */
    predicate Busy() { !Idle? && !Opened? }
  }

  datatype State = State(heads: map<nat, Head>, pcs: map<nat, Pc>, global: Option<nat>) {
    function Goto(t: nat, pc: Pc): State { this.(pcs := pcs[t := pc]) }

    function Set(h: nat, hd: Head): State { this.(heads := heads[h := hd]) }

    /** lis_head_put: gives a reference back and frees the structure with the last one. */
    function Put(h: nat): State
      requires h in heads
    {
      if heads[h].refcnt == 1 then this.(heads := heads - {h})
      else Set(h, heads[h].(refcnt := heads[h].refcnt - 1))
    }
  }

  /** What the environment decides: the device a thread opens, where the allocator puts a new head, and the device
      the driver's open routine leaves behind, or that it refuses a clone open. */
  datatype Choice = Choice(dev: Dev, addr: nat, refused: bool)

  /** lis_lookup_stdata finds a head whose STRCLOSE flag is clear and whose device is d. */
  ghost predicate Matches(s: State, h: nat, d: Dev) {
    h in s.heads && !s.heads[h].strclose && s.heads[h].dev == d
  }

  ghost predicate InUse(s: State, d: Dev, excluded: nat) {
    exists h :: h != excluded && Matches(s, h, d)
  }

  /** Where a step leads that takes or gives the global semaphore, or that is decided outside (the driver's open
      routine, the file's user). */
  function QuietNext(pc: Pc, c: Choice): Option<Pc> {
    match pc
    case Idle => Some(DownGlobal(c.dev))
    case DownGlobal(d) => Some(Lookup(d))
    case UpGlobal(d, h, existing) => Some(DownHead(d, h, existing))
    case Attach(d, h) =>
      Some(if d.clone && c.refused then FailUpHead(h)
           else if c.dev == d then Count(h, Got(d, d, true)) else DownAdopt(d, h, c.dev))
    case DownAdopt(d, h, n) => Some(Adopt(d, h, n))
    case UpAdopt(d, h, n) => Some(Count(h, Got(d, n, true)))
    case FailUpGlobal(h) => Some(FailUpHead(h))
    case Opened(h, _) => Some(CloseDown(h))
    case CloseDownGlobal(h) => Some(CloseMark(h))
    case CloseUpGlobal(h) => Some(CloseUpHead(h, true))
    case _ => None
  }

  /** Where a step leads that takes or gives the sd_opening semaphore of a head. */
  function SemNext(pc: Pc): Option<Pc> {
    match pc
    case DownHead(d, h, existing) => Some(Check(d, h, existing))
    case RetryUp(d, h) => Some(RetryPut(d, h))
    case UpHead(h, got) => Some(Opened(h, got))
    case FailUpHead(h) => Some(FailDismantle(h))
    case CloseDown(h) => Some(CloseDec(h))
    case CloseUpHead(h, last) => Some(if last then CloseAction(h) else ClosePut(h))
    case _ => None
  }

  /** One atomic step of thread t. A step that would have to wait for a semaphore is not a step. A non-clone open that
      fails, as when the driver answers it with a device in use, is outside this model. */
  ghost predicate Step(s: State, t: nat, c: Choice, s': State) {
    t in s.pcs &&
    match s.pcs[t]
    case Lookup(d) => LookupStep(s, t, c.addr, d, s')
    case Take(d, found) => TakeStep(s, t, c.addr, d, found, s')
    case Check(d, h, existing) => CheckStep(s, t, d, h, existing, s')
    case Adopt(d, h, n) => AdoptStep(s, t, d, h, n, s')
    case Count(h, got) => CountStep(s, t, h, got, s')
    case CloseDec(h) => DecStep(s, t, h, s')
    case CloseMark(h) => MarkStep(s, t, h, s')
    case FailDismantle(h) => DismantleStep(s, t, h, FailPut(h), s')
    case CloseAction(h) => DismantleStep(s, t, h, ClosePut(h), s')
    case RetryPut(d, h) => PutStep(s, t, h, DownGlobal(d), s')
    case FailPut(h) => PutStep(s, t, h, Idle, s')
    case ClosePut(h) => PutStep(s, t, h, Idle, s')
    case _ => QuietStep(s, t, c, s') || SemStep(s, t, s')
  }

  /** lis_down waits until nobody holds the semaphore. */
  ghost predicate Moved(t: nat, held: bool, holds: bool, sem: Option<nat>, sem': Option<nat>) {
    if holds && !held then sem == None && sem' == Some(t) else if held && !holds then sem' == None else sem' == sem
  }

  ghost predicate QuietStep(s: State, t: nat, c: Choice, s': State)
    requires t in s.pcs
  {
    var pc, next := s.pcs[t], QuietNext(s.pcs[t], c);
    next.Some? && s'.heads == s.heads && s'.pcs == s.pcs[t := next.value]
    && Moved(t, pc.At().global, next.value.At().global, s.global, s'.global)
  }

  ghost predicate SemStep(s: State, t: nat, s': State)
    requires t in s.pcs
  {
    var pc, next := s.pcs[t], SemNext(s.pcs[t]);
    next.Some? && pc.hd in s.heads && pc.hd in s'.heads && s'.pcs == s.pcs[t := next.value] && s'.global == s.global
    && s'.heads == s.heads[pc.hd := s.heads[pc.hd].(opening := s'.heads[pc.hd].opening)]
    && Moved(t, pc.At().head, next.value.At().head, s.heads[pc.hd].opening, s'.heads[pc.hd].opening)
  }

  ghost predicate LookupStep(s: State, t: nat, h: nat, d: Dev, s': State) {
    if !d.clone && exists k :: Matches(s, k, d) then Matches(s, h, d) && s' == s.Goto(t, Take(d, Some(h)))
    else s' == s.Goto(t, Take(d, None))
  }

  /** lis_head_get on the head found, or on a new head that carries the device to be opened. */
  ghost predicate TakeStep(s: State, t: nat, addr: nat, d: Dev, found: Option<nat>, s': State) {
    match found
    case Some(h) =>
      h in s.heads && s' == s.Set(h, s.heads[h].(refcnt := s.heads[h].refcnt + 1)).Goto(t, UpGlobal(d, h, true))
    case None =>
      addr !in s.heads && s' == s.Set(addr, Head(d, d, 1, 0, false, None, 0, 0)).Goto(t, UpGlobal(d, addr, false))
  }

  /** The race checks an opener makes once it has sd_opening. */
  ghost predicate CheckStep(s: State, t: nat, d: Dev, h: nat, existing: bool, s': State) {
    h in s.heads &&
    var hd := s.heads[h];
    if existing && hd.dev != d then s' == s.Goto(t, RetryUp(d, h))
    else if hd.strclose then s' == s.Goto(t, RetryUp(d, h))
    else if hd.opencnt >= 1 then s' == s.Goto(t, Count(h, Got(d, d, existing)))
    else s' == s.Set(h, hd.(dev := d, attached := hd.attached + 1)).Goto(t, Attach(d, h))
  }

  ghost predicate AdoptStep(s: State, t: nat, d: Dev, h: nat, n: Dev, s': State) {
    h in s.heads &&
    if InUse(s, n, h) then d.clone && s' == s.Goto(t, FailUpGlobal(h))
    else s' == s.Set(h, s.heads[h].(dev := n)).Goto(t, UpAdopt(d, h, n))
  }

  ghost predicate CountStep(s: State, t: nat, h: nat, got: Got, s': State) {
    h in s.heads && s' == s.Set(h, s.heads[h].(opencnt := s.heads[h].opencnt + 1)).Goto(t, UpHead(h, got))
  }

  ghost predicate DecStep(s: State, t: nat, h: nat, s': State) {
    h in s.heads &&
    var n := if s.heads[h].opencnt > 0 then s.heads[h].opencnt - 1 else s.heads[h].opencnt;
    s' == s.Set(h, s.heads[h].(opencnt := n)).Goto(t, if n == 0 then CloseDownGlobal(h) else CloseUpHead(h, false))
  }

  ghost predicate MarkStep(s: State, t: nat, h: nat, s': State) {
    h in s.heads && s' == s.Set(h, s.heads[h].(strclose := true)).Goto(t, CloseUpGlobal(h))
  }

  /** lis_dismantle detaches and frees the queues of the head. */
  ghost predicate DismantleStep(s: State, t: nat, h: nat, pc: Pc, s': State) {
    h in s.heads && s' == s.Set(h, s.heads[h].(dismantled := s.heads[h].dismantled + 1)).Goto(t, pc)
  }

  ghost predicate PutStep(s: State, t: nat, h: nat, pc: Pc, s': State) {
    h in s.heads && s' == s.Put(h).Goto(t, pc)
  }

  ghost predicate Init(s: State) {
    s.heads == map[] && s.global == None && forall t :: t in s.pcs ==> s.pcs[t] == Idle
  }

  ghost predicate Next(s: State, s': State) {
    exists t, c :: Step(s, t, c, s')
  }

  ghost predicate Run(tr: seq<State>) {
    |tr| > 0 && Init(tr[0])
    && forall i :: 0 <= i < |tr| - 1 ==> Next(tr[i], tr[i + 1])
  }

  // ------------------------------------------------------------------ who plays which role

  datatype Role = RefRole | CountRole | CloserRole | FailRole | AnchorRole

  predicate Plays(r: Role, at: Roles, h: nat) {
    at.on == Some(h) &&
    match r
    case RefRole => at.ref
    case CountRole => at.counted
    case CloserRole => at.closer
    case FailRole => at.failing
    case AnchorRole => at.anchor
  }

  function Who(pcs: map<nat, Pc>, r: Role, h: nat): set<nat> {
    set t | t in pcs && Plays(r, pcs[t].At(), h)
  }

  function Weight(r: Role, pc: Pc, h: nat): nat { if Plays(r, pc.At(), h) then 1 else 0 }

  lemma MoveOne(pcs: map<nat, Pc>, t: nat, pc: Pc, r: Role, h: nat)
    requires t in pcs
    ensures |Who(pcs[t := pc], r, h)| == |Who(pcs, r, h)| - Weight(r, pcs[t], h) + Weight(r, pc, h)
  {
    var a, b := Who(pcs, r, h), Who(pcs[t := pc], r, h);
    assert a - {t} == b - {t};
    assert |a - {t}| == |a| - Weight(r, pcs[t], h);
    assert |b - {t}| == |b| - Weight(r, pc, h);
  }

  lemma MoveHead(pcs: map<nat, Pc>, t: nat, pc: Pc, h: nat)
    requires t in pcs
    ensures forall r :: |Who(pcs[t := pc], r, h)| == |Who(pcs, r, h)| - Weight(r, pcs[t], h) + Weight(r, pc, h)
  {
    forall r ensures |Who(pcs[t := pc], r, h)| == |Who(pcs, r, h)| - Weight(r, pcs[t], h) + Weight(r, pc, h) {
      MoveOne(pcs, t, pc, r, h);
    }
  }

  // ------------------------------------------------------------------ the invariant

  /** What a thread at `pc` may rely on about the head it works on. */
  ghost predicate Knows(hd: Head, pc: Pc) {
    match pc
    case Take(d, Some(_)) => !d.clone && hd.dev == d && !hd.strclose
    case UpGlobal(d, _, existing) => if existing then !d.clone else Planted(hd, d)
    case DownHead(d, _, existing) => if existing then !d.clone else Planted(hd, d)
    case Check(d, _, existing) => if existing then !d.clone else Planted(hd, d)
    case Attach(d, _) => Attaching(hd, d)
    case DownAdopt(d, _, n) => Attaching(hd, d) && n != d
    case Adopt(d, _, n) => Attaching(hd, d) && n != d
    case UpAdopt(d, _, n) => InService(hd) && hd.dev == n != d == hd.first
    case Count(_, got) => InService(hd) && (got.checked ==> hd.dev == got.dev)
    case FailUpGlobal(_) => !hd.strclose && hd.opencnt == 0 && hd.dev.clone && hd.dev == hd.first && hd.dismantled == 0
    case FailUpHead(_) => !hd.strclose && hd.opencnt == 0 && hd.dev.clone && hd.dev == hd.first && hd.dismantled == 0
    case FailDismantle(_) => !hd.strclose && hd.opencnt == 0 && hd.dev.clone && hd.dev == hd.first && hd.dismantled == 0
    case FailPut(_) => !hd.strclose && hd.opencnt == 0 && hd.dev.clone && hd.dev == hd.first && hd.dismantled == 1
    case UpHead(_, got) => InService(hd) && (got.checked ==> hd.dev == got.dev)
    case Opened(_, got) => InService(hd) && (got.checked ==> hd.dev == got.dev)
    case CloseDown(_) => InService(hd)
    case CloseDec(_) => InService(hd)
    case CloseDownGlobal(_) => InService(hd) && hd.opencnt == 0
    case CloseMark(_) => InService(hd) && hd.opencnt == 0
    case _ => true
  }

  /** A head that its creator has allocated for device d: nobody else gets at it if d is a clone device. */
  predicate Planted(hd: Head, d: Dev) {
    hd.first == d && (d.clone ==> hd.dev == d && hd.opencnt == 0 && hd.attached == 0)
  }

  predicate InService(hd: Head) { !hd.strclose && hd.dismantled == 0 && hd.attached == 1 }

  predicate Attaching(hd: Head, d: Dev) { InService(hd) && hd.opencnt == 0 && hd.dev == d == hd.first }

  ghost predicate ThreadOk(heads: map<nat, Head>, global: Option<nat>, t: nat, pc: Pc) {
    && (pc.At().global <==> global == Some(t))
    && (pc.At().on.Some? ==>
          var h := pc.At().on.value;
          h in heads && Knows(heads[h], pc) && (pc.At().head ==> heads[h].opening == Some(t)))
    && (pc.Take? && pc.found.None? && !pc.dev.clone ==> Unused(heads, pc.dev))
  }

  ghost predicate Unused(heads: map<nat, Head>, d: Dev) {
    forall h :: h in heads && heads[h].dev == d ==> heads[h].strclose
  }

  ghost predicate HeadOk(pcs: map<nat, Pc>, h: nat, hd: Head) {
    && hd.refcnt == |Who(pcs, RefRole, h)| && hd.refcnt > 0
    && hd.opencnt == |Who(pcs, CountRole, h)|
    && |Who(pcs, CloserRole, h)| == (if hd.strclose && hd.dismantled == 0 then 1 else 0)
    && |Who(pcs, FailRole, h)| == (if hd.strclose then 0 else hd.dismantled)
    && (!hd.strclose ==> |Who(pcs, AnchorRole, h)| > 0)
    && FlagsOk(hd)
    && (hd.opening.Some? ==>
          var t := hd.opening.value;
          t in pcs && pcs[t].At().head && pcs[t].At().on == Some(h))
    && (hd.opencnt == 0 && !hd.strclose && (hd.opening.None? || !pcs[hd.opening.value].At().settling) ==>
          hd.dev == hd.first)
    && (Unopened(hd) && (hd.opening.None? || !pcs[hd.opening.value].At().attaching) ==> hd.attached == 0)
  }

  /** Nobody has counted an open, unless the head belongs to one clone open only. */
  predicate Unopened(hd: Head) { hd.opencnt == 0 && !hd.strclose && !(hd.dev.clone && hd.dev == hd.first) }

  predicate FlagsOk(hd: Head) {
    && (hd.strclose ==> hd.opencnt == 0 && hd.dismantled <= 1)
    && hd.attached <= 1 && (hd.strclose || hd.opencnt > 0 ==> hd.attached == 1)
    && (hd.dev.clone && hd.dev == hd.first ==> hd.refcnt == 1)
  }

  ghost predicate UniqueDevices(heads: map<nat, Head>) {
    forall h, k | h in heads && k in heads && h != k && !heads[h].strclose && !heads[k].strclose
      :: heads[h].dev == heads[k].dev ==> heads[h].dev.clone
  }

  ghost predicate Inv(s: State) {
    && (s.global.Some? ==> s.global.value in s.pcs)
    && (forall t :: t in s.pcs ==> ThreadOk(s.heads, s.global, t, s.pcs[t]))
    && (forall h :: h in s.heads ==> HeadOk(s.pcs, h, s.heads[h]))
    && UniqueDevices(s.heads)
  }


  // ------------------------------------------------------------------ one step keeps the invariant

  lemma AtMostOne(pcs: map<nat, Pc>, r: Role, h: nat, t: nat, u: nat)
    requires t in pcs && u in pcs && t != u && Plays(r, pcs[t].At(), h) && Plays(r, pcs[u].At(), h)
    ensures |Who(pcs, r, h)| >= 2
  {
    assert {t, u} <= Who(pcs, r, h);
    Subset({t, u}, Who(pcs, r, h));
  }

  lemma Subset(a: set<nat>, b: set<nat>)
    requires a <= b
    ensures |a| <= |b|
  {
    assert |b - a| == |b| - |a|;
  }

  /** How thread t may change a head that others work on too. */
  ghost predicate Polite(s: State, t: nat, h: nat, hd': Head)
    requires h in s.heads && t in s.pcs
  {
    var hd := s.heads[h];
    && hd'.first == hd.first
    && s.pcs[t].At().on == Some(h)
    && (hd.opening == Some(t) || (hd'.opencnt == hd.opencnt && hd'.strclose == hd.strclose && hd'.dev == hd.dev))
    && ((hd'.dev == hd.dev && hd'.attached == hd.attached) || (hd.opening == Some(t) && hd.opencnt == 0))
    && (hd.opening == None || hd.opening == Some(t) || hd'.opening == hd.opening)
    && (s.global == Some(t) || (hd'.strclose == hd.strclose && hd'.dev == hd.dev))
    && (hd'.strclose == hd.strclose || hd.opencnt == 0)
    && (hd'.dismantled == hd.dismantled || hd.strclose || (hd.refcnt == 1 && s.pcs[t].At().ref))
  }

  /** What may not change of a head for a thread at `pc`, which has it with others. */
  ghost predicate Spares(hd: Head, hd': Head, pc: Pc) {
    && hd'.first == hd.first
    && (pc.At().head || pc.At().counted ==>
          hd'.dev == hd.dev && hd'.attached == hd.attached && hd'.strclose == hd.strclose)
    && (pc.At().head ==> hd'.opencnt == hd.opencnt)
    && (pc.At().global ==> hd'.dev == hd.dev && hd'.strclose == hd.strclose)
    && (pc.At().ref ==> hd'.dismantled == hd.dismantled || hd.strclose)
    && !(pc.At().ref && hd.dev.clone && hd.dev == hd.first)
  }

  lemma StillKnows(hd: Head, hd': Head, pc: Pc)
    requires Knows(hd, pc) && Spares(hd, hd', pc)
    ensures Knows(hd', pc)
  {
  }

  lemma OthersKnow(s: State, t: nat, h: nat, hd': Head, u: nat)
    requires Inv(s) && t in s.pcs && h in s.heads && Polite(s, t, h, hd')
    requires u in s.pcs && u != t && s.pcs[u].At().on == Some(h)
    ensures Knows(hd', s.pcs[u]) && (s.pcs[u].At().head ==> hd'.opening == Some(u))
  {
    var hd, pc := s.heads[h], s.pcs[u];
    assert ThreadOk(s.heads, s.global, u, pc) && ThreadOk(s.heads, s.global, t, s.pcs[t]) && HeadOk(s.pcs, h, hd);
    hide Inv;
    if pc.At().ref && s.pcs[t].At().ref {
      AtMostOne(s.pcs, RefRole, h, t, u);
    }
    if pc.At().counted {
      assert u in Who(s.pcs, CountRole, h);
    }
    AtHead(hd, s.pcs[t]);
    hide Knows;
    assert Spares(hd, hd', pc);
    StillKnows(hd, hd', pc);
  }

  /** Only a thread that has just looked a head up is there without a reference, and not for a clone device. */
  lemma AtHead(hd: Head, pc: Pc)
    requires pc.At().on.Some? && Knows(hd, pc)
    ensures pc.At().ref || !hd.dev.clone
  {
  }

  ghost predicate SameElsewhere(heads: map<nat, Head>, heads': map<nat, Head>, h: nat) {
    forall k :: k != h ==> (k in heads <==> k in heads') && (k in heads ==> heads'[k] == heads[k])
  }

  /** Head h may become visible under its device only if no other open head carries that device. */
  ghost predicate MayShow(heads: map<nat, Head>, heads': map<nat, Head>, h: nat) {
    h in heads' && !heads'[h].strclose && !heads'[h].dev.clone
    && (h !in heads || heads[h].strclose || heads[h].dev != heads'[h].dev) ==>
      forall k :: k in heads && k != h && heads[k].dev == heads'[h].dev ==> heads[k].strclose
  }

  lemma StillUnique(heads: map<nat, Head>, heads': map<nat, Head>, h: nat)
    requires UniqueDevices(heads) && SameElsewhere(heads, heads', h) && MayShow(heads, heads', h)
    ensures UniqueDevices(heads')
  {
  }

  lemma StillUnused(heads: map<nat, Head>, heads': map<nat, Head>, h: nat, d: Dev)
    requires SameElsewhere(heads, heads', h) && Unused(heads, d)
    requires h in heads' ==> h in heads && heads'[h].dev == heads[h].dev && heads'[h].strclose == heads[h].strclose
    ensures Unused(heads', d)
  {
  }

  /** The step of thread t touched head h only, moved the global semaphore as its program points say, and changed h
      politely. */
  ghost predicate LocalStep(s: State, t: nat, s': State, h: nat)
    requires t in s.pcs && t in s'.pcs
  {
    && s'.pcs == s.pcs[t := s'.pcs[t]]
    && s.pcs[t].At().on in {None, Some(h)} && s'.pcs[t].At().on in {None, Some(h)}
    && SameElsewhere(s.heads, s'.heads, h)
    && s'.global == (if s'.pcs[t].At().global then Some(t) else if s.pcs[t].At().global then None else s.global)
    && (s'.pcs[t].At().global && !s.pcs[t].At().global ==> s.global == None)
    && (h in s.heads && h in s'.heads && s'.heads[h] != s.heads[h] ==> Polite(s, t, h, s'.heads[h]))
    && (h in s.heads && h !in s'.heads ==> forall u :: u in s.pcs && u != t ==> s.pcs[u].At().on != Some(h))
    && (s.pcs[t].At().global
        || (h in s'.heads ==>
              h in s.heads && s'.heads[h].dev == s.heads[h].dev && s'.heads[h].strclose == s.heads[h].strclose))
  }

  lemma OtherThread(s: State, t: nat, s': State, h: nat, u: nat)
    requires Inv(s) && t in s.pcs && t in s'.pcs && LocalStep(s, t, s', h)
    requires u in s.pcs && u != t
    ensures ThreadOk(s'.heads, s'.global, u, s.pcs[u])
  {
    var pc := s.pcs[u];
    assert ThreadOk(s.heads, s.global, u, pc) && ThreadOk(s.heads, s.global, t, s.pcs[t]);
    if pc.At().on == Some(h) && s'.heads[h] != s.heads[h] {
      OthersKnow(s, t, h, s'.heads[h], u);
    }
    if pc.Take? && pc.found.None? && !pc.dev.clone {
      StillUnused(s.heads, s'.heads, h, pc.dev);
    }
  }

  /** Everything that has to be seen to for one step of thread t, which works at head h. */
  ghost predicate Fine(s: State, t: nat, s': State, h: nat) {
    && t in s.pcs && t in s'.pcs && LocalStep(s, t, s', h)
    && ThreadOk(s'.heads, s'.global, t, s'.pcs[t])
    && (h in s'.heads ==> HeadOk(s'.pcs, h, s'.heads[h]))
    && MayShow(s.heads, s'.heads, h)
  }

  lemma Local(s: State, t: nat, s': State, h: nat)
    requires Inv(s) && Fine(s, t, s', h)
    ensures Inv(s')
  {
    forall u | u in s'.pcs ensures ThreadOk(s'.heads, s'.global, u, s'.pcs[u]) {
      if u != t {
        OtherThread(s, t, s', h, u);
      }
    }
    forall k | k in s'.heads ensures HeadOk(s'.pcs, k, s'.heads[k]) {
      if k != h {
        FarHead(s.pcs, t, s'.pcs[t], k, s.heads[k]);
      }
    }
    StillUnique(s.heads, s'.heads, h);
  }

  /** A step at another head leaves every count of head k alone. */
  lemma FarHead(pcs: map<nat, Pc>, t: nat, pc: Pc, k: nat, hd: Head)
    requires t in pcs && HeadOk(pcs, k, hd) && (pcs[t].At().on != Some(k) || pcs[t].Take?)
             && (pc.At().on != Some(k) || pc.Take?)
    ensures HeadOk(pcs[t := pc], k, hd)
  {
    MoveHead(pcs, t, pc, k);
  }

  /** The thread that gives back the last reference is the only one left at the head, and the head was
      dismantled exactly once. */
  lemma LastReference(s: State, t: nat, h: nat)
    requires Inv(s) && t in s.pcs && s.pcs[t].At().on == Some(h)
    requires s.pcs[t].RetryPut? || s.pcs[t].FailPut? || s.pcs[t].ClosePut?
    ensures h in s.heads
    ensures s.heads[h].refcnt == 1 ==>
              && (forall u :: u in s.pcs && u != t ==> s.pcs[u].At().on != Some(h))
              && s.heads[h].dismantled == 1
              && (s.heads[h].strclose || s.pcs[t].FailPut?)
  {
    assert ThreadOk(s.heads, s.global, t, s.pcs[t]) && HeadOk(s.pcs, h, s.heads[h]);
    if s.heads[h].refcnt == 1 {
      OnlyReference(s.pcs, t, h);
      forall u | u in s.pcs && u != t ensures s.pcs[u].At().on != Some(h) {
        assert ThreadOk(s.heads, s.global, u, s.pcs[u]);
      }
    }
  }

  lemma OnlyReference(pcs: map<nat, Pc>, t: nat, h: nat)
    requires t in pcs && Plays(RefRole, pcs[t].At(), h) && |Who(pcs, RefRole, h)| == 1
    ensures forall u :: u in pcs && u != t && pcs[u].At().on == Some(h) ==> pcs[u].Take?
    ensures !pcs[t].At().closer ==> |Who(pcs, CloserRole, h)| == 0
    ensures !pcs[t].At().anchor ==> |Who(pcs, AnchorRole, h)| == 0
  {
    forall u | u in pcs && u != t && pcs[u].At().on == Some(h) ensures pcs[u].Take? {
      if !pcs[u].Take? {
        AtMostOne(pcs, RefRole, h, t, u);
      }
    }
    if !pcs[t].At().closer {
      NobodyElse(pcs, t, h, CloserRole);
    }
    if !pcs[t].At().anchor {
      NobodyElse(pcs, t, h, AnchorRole);
    }
  }

  lemma NobodyElse(pcs: map<nat, Pc>, t: nat, h: nat, r: Role)
    requires t in pcs && !Plays(r, pcs[t].At(), h) && !r.RefRole?
    requires forall u :: u in pcs && u != t && pcs[u].At().on == Some(h) ==> pcs[u].Take?
    ensures |Who(pcs, r, h)| == 0
  {
    assert Who(pcs, r, h) == {};
  }

  function Unit(b: bool): int { if b then 1 else 0 }

  /** How a head may change when thread t goes from roles a to roles b at it. */
  ghost predicate Balanced(t: nat, a: Roles, b: Roles, hd: Head, hd': Head) {
    && hd'.refcnt == hd.refcnt - Unit(a.ref) + Unit(b.ref) && hd'.refcnt > 0
    && hd'.opencnt == hd.opencnt - Unit(a.counted) + Unit(b.counted)
    && Unit(hd'.strclose && hd'.dismantled == 0)
       == Unit(hd.strclose && hd.dismantled == 0) - Unit(a.closer) + Unit(b.closer)
    && (if hd'.strclose then 0 else hd'.dismantled)
       == (if hd.strclose then 0 else hd.dismantled) - Unit(a.failing) + Unit(b.failing)
    && (!hd'.strclose ==> !hd.strclose && (b.anchor || !a.anchor || hd'.opencnt > 0))
    && (hd'.opening.Some? ==> if hd'.opening.value == t then b.head else hd'.opening == hd.opening)
    && (hd'.opencnt == 0 && !hd'.strclose && hd'.dev != hd'.first ==>
          hd'.opening.Some? && if hd'.opening.value == t then b.settling else hd.opencnt == 0 && hd.dev != hd.first)
    && (Unopened(hd') && hd'.attached != 0 ==>
          hd'.opening.Some? && if hd'.opening.value == t then b.attaching else Unopened(hd) && hd.attached != 0)
    && FlagsOk(hd')
  }

  lemma CountedAnchors(pcs: map<nat, Pc>, h: nat)
    ensures |Who(pcs, CountRole, h)| <= |Who(pcs, AnchorRole, h)|
  {
    Subset(Who(pcs, CountRole, h), Who(pcs, AnchorRole, h));
  }

  /** The counts of a head after thread t, and nobody else, moved to `pc`. */
  lemma NearHead(pcs: map<nat, Pc>, t: nat, pc: Pc, h: nat, hd: Head, hd': Head)
    requires t in pcs && HeadOk(pcs, h, hd)
    requires pc.At().on == Some(h) && (pcs[t].At().on == Some(h) || pcs[t].Lookup?)
    requires Balanced(t, pcs[t].At(), pc.At(), hd, hd')
    ensures HeadOk(pcs[t := pc], h, hd')
  {
    hide FlagsOk, Unopened, Knows;
    MoveHead(pcs, t, pc, h);
    CountedAnchors(pcs[t := pc], h);
  }

  /** Thread t is at head h and both are as the invariant wants them. */
  ghost predicate Here(s: State, t: nat, h: nat) {
    t in s.pcs && s.pcs[t].At().on == Some(h) && ThreadOk(s.heads, s.global, t, s.pcs[t]) && h in s.heads
    && HeadOk(s.pcs, h, s.heads[h])
  }

  lemma FineLookup(s: State, t: nat, h: nat, d: Dev, s': State)
    requires t in s.pcs && ThreadOk(s.heads, s.global, t, s.pcs[t]) && (h in s.heads ==> HeadOk(s.pcs, h, s.heads[h]))
    requires s.pcs[t] == Lookup(d) && LookupStep(s, t, h, d, s')
    ensures Fine(s, t, s', h)
  {
    if s'.pcs[t].found.None? && !d.clone {
      assert forall k :: k in s.heads && s.heads[k].dev == d && !s.heads[k].strclose ==> Matches(s, k, d);
    }
    if h in s.heads {
      FarHead(s.pcs, t, s'.pcs[t], h, s.heads[h]);
    }
  }

  /** Steps that leave the roles of the thread as they are and change no more than semaphores. */
  predicate SameRoles(a: Roles, b: Roles, strclose: bool) {
    && a.on == b.on && a.ref && b.ref && a.counted == b.counted && a.closer == b.closer && !a.failing && !b.failing
    && (a.anchor ==> b.anchor || strclose) && (a.settling ==> b.settling)
    && (a.attaching ==> b.attaching || !b.head)
  }

  lemma FineRoles(s: State, t: nat, h: nat, hd': Head, pc: Pc, s': State)
    requires Here(s, t, h) && SameRoles(s.pcs[t].At(), pc.At(), s.heads[h].strclose) && Knows(hd', pc)
    requires s'.heads == s.heads[h := hd'] && s'.pcs == s.pcs[t := pc] && hd' == s.heads[h].(opening := hd'.opening)
    requires Moved(t, s.pcs[t].At().head, pc.At().head, s.heads[h].opening, hd'.opening)
    requires Moved(t, s.pcs[t].At().global, pc.At().global, s.global, s'.global)
    requires s.pcs[t].At().settling ==> pc.At().head
    requires s.pcs[t].At().attaching ==> pc.At().head || !Unopened(hd')
    ensures Fine(s, t, s', h)
  {
    if pc.At().counted {
      assert t in Who(s.pcs, CountRole, h);
    }
    NearHead(s.pcs, t, pc, h, s.heads[h], hd');
  }

  lemma QuietRoles(pc: Pc, c: Choice, hd: Head)
    requires pc.At().on.Some? && QuietNext(pc, c).Some? && Knows(hd, pc)
    ensures SameRoles(pc.At(), QuietNext(pc, c).value.At(), false) && Knows(hd, QuietNext(pc, c).value)
    ensures pc.At().on == Some(pc.hd) && pc.At().head == QuietNext(pc, c).value.At().head
    ensures pc.At().settling ==> pc.At().head
    ensures pc.At().attaching ==> pc.At().head
  {
  }

  lemma FineQuiet(s: State, t: nat, h: nat, c: Choice, s': State)
    requires Here(s, t, h) && QuietStep(s, t, c, s')
    ensures Fine(s, t, s', h)
  {
    QuietRoles(s.pcs[t], c, s.heads[h]);
    assert s.heads == s.heads[h := s.heads[h]];
    FineRoles(s, t, h, s.heads[h], s'.pcs[t], s');
  }

  lemma FineSearch(s: State, t: nat, h: nat, c: Choice, s': State)
    requires t in s.pcs && ThreadOk(s.heads, s.global, t, s.pcs[t]) && (h in s.heads ==> HeadOk(s.pcs, h, s.heads[h]))
    requires (s.pcs[t].Idle? || s.pcs[t].DownGlobal?) && QuietStep(s, t, c, s')
    ensures Fine(s, t, s', h)
  {
    if h in s.heads {
      FarHead(s.pcs, t, s'.pcs[t], h, s.heads[h]);
    }
  }

  lemma SemRoles(pc: Pc, hd: Head, opening: Option<nat>)
    requires SemNext(pc).Some? && Knows(hd, pc)
    ensures SameRoles(pc.At(), SemNext(pc).value.At(), false) && Knows(hd.(opening := opening), SemNext(pc).value)
    ensures pc.At().on == Some(pc.hd) && !pc.At().global && !SemNext(pc).value.At().global && !pc.At().settling
    ensures pc.At().attaching ==> !Unopened(hd)
  {
  }

  lemma FineSem(s: State, t: nat, s': State)
    requires t in s.pcs && SemStep(s, t, s') && Here(s, t, s.pcs[t].hd)
    ensures Fine(s, t, s', s.pcs[t].hd)
  {
    var h := s.pcs[t].hd;
    SemRoles(s.pcs[t], s.heads[h], s'.heads[h].opening);
    FineRoles(s, t, h, s'.heads[h], s'.pcs[t], s');
  }

  lemma FineTakeOld(s: State, t: nat, a: nat, d: Dev, h: nat, s': State)
    requires Here(s, t, h) && s.pcs[t] == Take(d, Some(h)) && TakeStep(s, t, a, d, Some(h), s')
    ensures Fine(s, t, s', h)
  {
    NearHead(s.pcs, t, s'.pcs[t], h, s.heads[h], s'.heads[h]);
  }

  /** Nobody but its allocator knows a new head. */
  lemma FineTakeNew(s: State, t: nat, d: Dev, h: nat, s': State)
    requires t in s.pcs && ThreadOk(s.heads, s.global, t, s.pcs[t])
    requires s.pcs[t] == Take(d, None) && TakeStep(s, t, h, d, None, s')
    requires forall u :: u in s.pcs ==> s.pcs[u].At().on != Some(h)
    ensures Fine(s, t, s', h)
  {
    var pc := UpGlobal(d, h, false);
    MoveHead(s.pcs, t, pc, h);
    forall r ensures Who(s.pcs, r, h) == {} {
    }
    assert |Who(s.pcs, RefRole, h)| == |Who(s.pcs, CountRole, h)| == |Who(s.pcs, CloserRole, h)| == 0;
    assert |Who(s.pcs, FailRole, h)| == |Who(s.pcs, AnchorRole, h)| == 0;
    assert Weight(RefRole, pc, h) == Weight(AnchorRole, pc, h) == 1;
    assert Weight(CountRole, pc, h) == Weight(CloserRole, pc, h) == Weight(FailRole, pc, h) == 0;
  }

  /** A head that somebody works on under STRCLOSE clear, other than a failing clone open, is whole. */
  lemma Whole(s: State, t: nat, h: nat)
    requires Inv(s) && t in s.pcs && h in s.heads && !s.heads[h].strclose
    requires s.pcs[t].At().on == Some(h) && s.pcs[t].At().ref && !s.pcs[t].FailPut?
    ensures s.heads[h].dismantled == 0
  {
    assert HeadOk(s.pcs, h, s.heads[h]);
    forall u | u in Who(s.pcs, FailRole, h) ensures false {
      assert ThreadOk(s.heads, s.global, u, s.pcs[u]);
      AtMostOne(s.pcs, RefRole, h, t, u);
    }
    assert Who(s.pcs, FailRole, h) == {};
  }

  lemma FineCheck(s: State, t: nat, d: Dev, h: nat, existing: bool, s': State)
    requires Here(s, t, h) && s.pcs[t] == Check(d, h, existing) && CheckStep(s, t, d, h, existing, s')
    requires !s.heads[h].strclose ==> s.heads[h].dismantled == 0
    ensures Fine(s, t, s', h)
  {
    if s'.pcs[t].Attach? {
      NearHead(s.pcs, t, s'.pcs[t], h, s.heads[h], s'.heads[h]);
    } else {
      assert s'.heads == s.heads[h := s.heads[h]];
      FineRoles(s, t, h, s.heads[h], s'.pcs[t], s');
    }
  }

  lemma FineAdopt(s: State, t: nat, d: Dev, h: nat, n: Dev, s': State)
    requires Here(s, t, h) && s.pcs[t] == Adopt(d, h, n) && AdoptStep(s, t, d, h, n, s')
    ensures Fine(s, t, s', h)
  {
    if InUse(s, n, h) {
      assert s'.heads == s.heads[h := s.heads[h]];
      FineRoles(s, t, h, s.heads[h], FailUpGlobal(h), s');
    } else {
      NearHead(s.pcs, t, UpAdopt(d, h, n), h, s.heads[h], s'.heads[h]);
      forall k | k in s.heads && k != h && s.heads[k].dev == n ensures s.heads[k].strclose {
        assert !Matches(s, k, n);
      }
    }
  }

  lemma FineCount(s: State, t: nat, h: nat, got: Got, s': State)
    requires Here(s, t, h) && s.pcs[t] == Count(h, got) && CountStep(s, t, h, got, s')
    ensures Fine(s, t, s', h)
  {
    NearHead(s.pcs, t, UpHead(h, got), h, s.heads[h], s'.heads[h]);
  }

  lemma FineDec(s: State, t: nat, h: nat, s': State)
    requires Here(s, t, h) && s.pcs[t] == CloseDec(h) && DecStep(s, t, h, s')
    ensures Fine(s, t, s', h)
  {
    assert t in Who(s.pcs, CountRole, h);
    NearHead(s.pcs, t, s'.pcs[t], h, s.heads[h], s'.heads[h]);
  }

  lemma FineMark(s: State, t: nat, h: nat, s': State)
    requires Here(s, t, h) && s.pcs[t] == CloseMark(h) && MarkStep(s, t, h, s')
    ensures Fine(s, t, s', h)
  {
    NearHead(s.pcs, t, CloseUpGlobal(h), h, s.heads[h], s'.heads[h]);
  }

  lemma FineFail(s: State, t: nat, h: nat, s': State)
    requires Here(s, t, h) && s.pcs[t] == FailDismantle(h) && DismantleStep(s, t, h, FailPut(h), s')
    ensures Fine(s, t, s', h)
  {
    NearHead(s.pcs, t, FailPut(h), h, s.heads[h], s'.heads[h]);
  }

  lemma FineAction(s: State, t: nat, h: nat, s': State)
    requires Here(s, t, h) && s.pcs[t] == CloseAction(h) && DismantleStep(s, t, h, ClosePut(h), s')
    ensures Fine(s, t, s', h)
  {
    assert t in Who(s.pcs, CloserRole, h);
    NearHead(s.pcs, t, ClosePut(h), h, s.heads[h], s'.heads[h]);
  }

  /** Owns a reference and nothing else. */
  predicate OnlyRef(a: Roles, h: nat) {
    a.on == Some(h) && a.ref && !a.global && !a.head && !a.counted && !a.closer && !a.failing && !a.anchor
  }

  lemma FinePut(s: State, t: nat, h: nat, pc: Pc, s': State)
    requires Here(s, t, h) && PutStep(s, t, h, pc, s') && (pc.Idle? || pc.DownGlobal?)
    requires OnlyRef(s.pcs[t].At(), h) || (s.pcs[t].FailPut? && s.heads[h].refcnt == 1)
    requires s.heads[h].refcnt == 1 ==> forall u :: u in s.pcs && u != t ==> s.pcs[u].At().on != Some(h)
    ensures Fine(s, t, s', h)
  {
    if s.heads[h].refcnt != 1 {
      LeaveHead(s.pcs, t, pc, h, s.heads[h]);
    }
  }

  lemma LeaveHead(pcs: map<nat, Pc>, t: nat, pc: Pc, h: nat, hd: Head)
    requires t in pcs && HeadOk(pcs, h, hd) && hd.refcnt != 1 && pc.At().on == None && OnlyRef(pcs[t].At(), h)
    ensures HeadOk(pcs[t := pc], h, hd.(refcnt := hd.refcnt - 1))
  {
    MoveHead(pcs, t, pc, h);
    assert !Plays(CountRole, pcs[t].At(), h);
  }

  /** What the invariant adds to `Here` for a check and for giving a reference back. */
  ghost predicate Guarded(s: State, t: nat, h: nat)
    requires t in s.pcs && h in s.heads
  {
    && (s.pcs[t].Check? && !s.heads[h].strclose ==> s.heads[h].dismantled == 0)
    && (s.pcs[t].RetryPut? || s.pcs[t].FailPut? || s.pcs[t].ClosePut? ==>
          && (s.heads[h].refcnt == 1 ==> forall u :: u in s.pcs && u != t ==> s.pcs[u].At().on != Some(h))
          && (s.pcs[t].FailPut? ==> s.heads[h].refcnt == 1))
  }

  /** Every step of a thread at a head is fine. */
  lemma OpenIsFine(s: State, t: nat, c: Choice, s': State, h: nat)
    requires Here(s, t, h) && Guarded(s, t, h) && Step(s, t, c, s')
    requires s.pcs[t].Take? || s.pcs[t].Check? || s.pcs[t].Adopt? || s.pcs[t].Count?
    ensures Fine(s, t, s', h)
  {
    match s.pcs[t]
    case Take(d, _) => FineTakeOld(s, t, c.addr, d, h, s');
    case Check(d, _, existing) => FineCheck(s, t, d, h, existing, s');
    case Adopt(d, _, n) => FineAdopt(s, t, d, h, n, s');
    case Count(_, got) => FineCount(s, t, h, got, s');
  }

  lemma CloseIsFine(s: State, t: nat, c: Choice, s': State, h: nat)
    requires Here(s, t, h) && Step(s, t, c, s')
    requires s.pcs[t].CloseDec? || s.pcs[t].CloseMark? || s.pcs[t].FailDismantle? || s.pcs[t].CloseAction?
    ensures Fine(s, t, s', h)
  {
    match s.pcs[t]
    case CloseDec(_) => FineDec(s, t, h, s');
    case CloseMark(_) => FineMark(s, t, h, s');
    case FailDismantle(_) => FineFail(s, t, h, s');
    case CloseAction(_) => FineAction(s, t, h, s');
  }

  lemma PutIsFine(s: State, t: nat, c: Choice, s': State, h: nat)
    requires Here(s, t, h) && Guarded(s, t, h) && Step(s, t, c, s')
    requires s.pcs[t].RetryPut? || s.pcs[t].FailPut? || s.pcs[t].ClosePut?
    ensures Fine(s, t, s', h)
  {
    match s.pcs[t]
    case RetryPut(d, _) => FinePut(s, t, h, DownGlobal(d), s');
    case FailPut(_) => FinePut(s, t, h, Idle, s');
    case ClosePut(_) => FinePut(s, t, h, Idle, s');
  }

  lemma HeadStepIsFine(s: State, t: nat, c: Choice, s': State, h: nat)
    requires Here(s, t, h) && Guarded(s, t, h) && Step(s, t, c, s')
    ensures Fine(s, t, s', h)
  {
    var pc := s.pcs[t];
    if pc.Take? || pc.Check? || pc.Adopt? || pc.Count? {
      OpenIsFine(s, t, c, s', h);
    } else if pc.CloseDec? || pc.CloseMark? || pc.FailDismantle? || pc.CloseAction? {
      CloseIsFine(s, t, c, s', h);
    } else if pc.RetryPut? || pc.FailPut? || pc.ClosePut? {
      PutIsFine(s, t, c, s', h);
    } else if QuietStep(s, t, c, s') {
      FineQuiet(s, t, h, c, s');
    } else {
      FineSem(s, t, s');
    }
  }

  lemma InvGuards(s: State, t: nat, h: nat)
    requires Inv(s) && Here(s, t, h)
    ensures Guarded(s, t, h)
  {
    if s.pcs[t].Check? && !s.heads[h].strclose {
      Whole(s, t, h);
    }
    if s.pcs[t].RetryPut? || s.pcs[t].FailPut? || s.pcs[t].ClosePut? {
      LastReference(s, t, h);
    }
  }

  /** Every step of a thread without a head is fine. */
  lemma SearchIsFine(s: State, t: nat, c: Choice, s': State)
    requires Inv(s) && Step(s, t, c, s') && s.pcs[t].At().on == None
    ensures Fine(s, t, s', c.addr)
  {
    var h := c.addr;
    assert ThreadOk(s.heads, s.global, t, s.pcs[t]);
    match s.pcs[t]
    case Lookup(d) => FineLookup(s, t, h, d, s');
    case Take(d, _) =>
      forall u | u in s.pcs ensures s.pcs[u].At().on != Some(h) {
        assert ThreadOk(s.heads, s.global, u, s.pcs[u]);
      }
      FineTakeNew(s, t, d, h, s');
    case _ => FineSearch(s, t, h, c, s');
  }

  /** Every step of every thread keeps the invariant. */
  lemma KeepInv(s: State, t: nat, c: Choice, s': State)
    requires Inv(s) && Step(s, t, c, s')
    ensures Inv(s')
  {
    assert ThreadOk(s.heads, s.global, t, s.pcs[t]);
    if s.pcs[t].At().on.Some? {
      var h := s.pcs[t].At().on.value;
      InvGuards(s, t, h);
      HeadStepIsFine(s, t, c, s', h);
      Local(s, t, s', h);
    } else {
      SearchIsFine(s, t, c, s');
      Local(s, t, s', c.addr);
    }
  }

  // ------------------------------------------------------------------ the theorems

  /** The invariant holds after every run. */
  lemma {:induction false} RunInv(tr: seq<State>)
    requires Run(tr)
    ensures Inv(tr[|tr| - 1])
  {
    var n := |tr| - 1;
    if n > 0 {
      RunInv(tr[..n]);
      assert Next(tr[n - 1], tr[n]);
      var t, c :| Step(tr[n - 1], t, c, tr[n]);
      KeepInv(tr[n - 1], t, c, tr[n]);
    }
  }

  /** No thread ever works on a freed stream head; sd_refcnt and sd_opencnt count exactly the threads that own a
      unit of them; a head with STRCLOSE has open count 0. */
  lemma NoUseAfterFree(tr: seq<State>)
    requires Run(tr)
    ensures var s := tr[|tr| - 1];
            && (forall t :: t in s.pcs && s.pcs[t].At().on.Some? ==> s.pcs[t].At().on.value in s.heads)
            && (forall h :: h in s.heads ==>
                  && s.heads[h].refcnt == |set t | t in s.pcs && s.pcs[t].At().on == Some(h) && s.pcs[t].At().ref|
                  && s.heads[h].opencnt == |set t | t in s.pcs && s.pcs[t].At().on == Some(h) && s.pcs[t].At().counted|
                  && (s.heads[h].strclose ==> s.heads[h].opencnt == 0))
  {
    RunInv(tr);
    var s := tr[|tr| - 1];
    forall t | t in s.pcs && s.pcs[t].At().on.Some? ensures s.pcs[t].At().on.value in s.heads {
      assert ThreadOk(s.heads, s.global, t, s.pcs[t]);
    }
    forall h | h in s.heads
      ensures s.heads[h].refcnt == |set t | t in s.pcs && s.pcs[t].At().on == Some(h) && s.pcs[t].At().ref|
      ensures s.heads[h].opencnt == |set t | t in s.pcs && s.pcs[t].At().on == Some(h) && s.pcs[t].At().counted|
      ensures s.heads[h].strclose ==> s.heads[h].opencnt == 0
    {
      assert HeadOk(s.pcs, h, s.heads[h]);
      assert Who(s.pcs, RefRole, h) == set t | t in s.pcs && s.pcs[t].At().on == Some(h) && s.pcs[t].At().ref;
      assert Who(s.pcs, CountRole, h) == set t | t in s.pcs && s.pcs[t].At().on == Some(h) && s.pcs[t].At().counted;
    }
  }

  /** At no time do two heads that are not closing carry the same non-clone device. */
  lemma OneHeadPerDevice(tr: seq<State>, h: nat, k: nat)
    requires Run(tr)
    requires var s := tr[|tr| - 1];
             && h in s.heads && k in s.heads && !s.heads[h].strclose && !s.heads[k].strclose
             && s.heads[h].dev == s.heads[k].dev && !s.heads[h].dev.clone
    ensures h == k
  {
    RunInv(tr);
  }

  /** Exactly one open of each head that is or was open was a first open: the long form, which makes the driver's open
      routine attach to it. */
  lemma AttachedOnce(tr: seq<State>, h: nat)
    requires Run(tr) && h in tr[|tr| - 1].heads
    ensures var hd := tr[|tr| - 1].heads[h];
            hd.attached <= 1 && (hd.opencnt > 0 || hd.strclose ==> hd.attached == 1)
  {
    RunInv(tr);
    assert HeadOk(tr[|tr| - 1].pcs, h, tr[|tr| - 1].heads[h]);
  }

  /** As long as a file is open its head carries the device that the opener is to get, if the opener compared the two;
      and that is the device it asked for, unless the driver answered another one to this very open. */
  lemma OpensWhatItGets(tr: seq<State>, t: nat)
    requires Run(tr) && t in tr[|tr| - 1].pcs && tr[|tr| - 1].pcs[t].Opened?
    ensures var s := tr[|tr| - 1]; var h, got := s.pcs[t].hd, s.pcs[t].got;
      && h in s.heads && !s.heads[h].strclose && (got.checked ==> s.heads[h].dev == got.dev)
      && (got.dev != got.asked ==>
            exists i :: 0 <= i < |tr| && t in tr[i].pcs && tr[i].pcs[t] == Adopt(got.asked, h, got.dev))
      && (!got.checked ==> exists i :: 0 <= i < |tr| && t in tr[i].pcs && tr[i].pcs[t] == Check(got.asked, h, false))
  {
    RunInv(tr);
    var s := tr[|tr| - 1];
    assert ThreadOk(s.heads, s.global, t, s.pcs[t]);
    CameFrom(tr, t);
  }

  lemma {:induction false} CameFrom(tr: seq<State>, t: nat)
    requires Run(tr) && t in tr[|tr| - 1].pcs
    ensures var pc := tr[|tr| - 1].pcs[t];
      && (pc.UpAdopt? ==> exists i :: 0 <= i < |tr| && t in tr[i].pcs && tr[i].pcs[t] == Adopt(pc.dev, pc.hd, pc.ndev))
      && ((pc.Count? || pc.UpHead? || pc.Opened?) && pc.got.dev != pc.got.asked ==>
            exists i :: 0 <= i < |tr| && t in tr[i].pcs && tr[i].pcs[t] == Adopt(pc.got.asked, pc.hd, pc.got.dev))
      && ((pc.Count? || pc.UpHead? || pc.Opened?) && !pc.got.checked ==>
            exists i :: 0 <= i < |tr| && t in tr[i].pcs && tr[i].pcs[t] == Check(pc.got.asked, pc.hd, false))
  {
    var n := |tr| - 1;
    if n > 0 {
      assert Next(tr[n - 1], tr[n]);
      var u, c :| Step(tr[n - 1], u, c, tr[n]);
      StepOfThread(tr[n - 1], u, c, tr[n], t);
      hide Step;
      ghost var past := tr[..n];
      assert past[n - 1] == tr[n - 1] && forall i :: 0 <= i < n ==> past[i] == tr[i];
      CameFrom(past, t);
    }
  }

  /** Where a step of thread u can lead thread t. */
  lemma StepOfThread(s: State, u: nat, c: Choice, s': State, t: nat)
    requires Step(s, u, c, s') && t in s'.pcs
    ensures t in s.pcs && (s'.pcs[t] == s.pcs[t] || t == u)
    ensures s'.pcs[t].UpAdopt? ==>
              s.pcs[t] == s'.pcs[t] || s.pcs[t] == Adopt(s'.pcs[t].dev, s'.pcs[t].hd, s'.pcs[t].ndev)
    ensures s'.pcs[t].Count? ==> var h, got := s'.pcs[t].hd, s'.pcs[t].got;
              || s.pcs[t] == s'.pcs[t]
              || (got.checked && s.pcs[t] == UpAdopt(got.asked, h, got.dev))
              || (got.checked && got.dev == got.asked && s.pcs[t] == Attach(got.asked, h))
              || (got.dev == got.asked && s.pcs[t] == Check(got.asked, h, got.checked))
    ensures s'.pcs[t].UpHead? ==> s.pcs[t] == s'.pcs[t] || s.pcs[t] == Count(s'.pcs[t].hd, s'.pcs[t].got)
    ensures s'.pcs[t].Opened? ==> s.pcs[t] == s'.pcs[t] || s.pcs[t] == UpHead(s'.pcs[t].hd, s'.pcs[t].got)
  {
  }

  /** The race checks: an opener that finds another device on a head it did not create, or finds the head closing, gives
      the semaphore and its reference back and starts over; otherwise it joins the file, or opens the driver if nobody
      has. */
  lemma RacesRestart(tr: seq<State>, i: nat, t: nat)
    requires Run(tr) && i + 1 < |tr| && t in tr[i].pcs && t in tr[i + 1].pcs && tr[i + 1].pcs[t] != tr[i].pcs[t]
    ensures var s, s', pc, pc' := tr[i], tr[i + 1], tr[i].pcs[t], tr[i + 1].pcs[t];
      && (pc.Check? ==>
            pc.hd in s.heads &&
            pc' == if (pc.existing && s.heads[pc.hd].dev != pc.dev) || s.heads[pc.hd].strclose
                   then RetryUp(pc.dev, pc.hd)
                   else if s.heads[pc.hd].opencnt > 0 then Count(pc.hd, Got(pc.dev, pc.dev, pc.existing))
                   else Attach(pc.dev, pc.hd))
      && (pc.RetryUp? ==> pc' == RetryPut(pc.dev, pc.hd) && pc.hd in s'.heads && s'.heads[pc.hd].opening == None)
      && (pc.RetryPut? ==>
            pc' == DownGlobal(pc.dev) && pc.hd in s.heads &&
            if s.heads[pc.hd].refcnt == 1 then pc.hd !in s'.heads
            else pc.hd in s'.heads && s'.heads[pc.hd].refcnt == s.heads[pc.hd].refcnt - 1)
  {
    assert Next(tr[i], tr[i + 1]);
    var u, c :| Step(tr[i], u, c, tr[i + 1]);
    StepOfThread(tr[i], u, c, tr[i + 1], t);
  }

  /** Past the race checks, until the file is closed. */
  predicate Joined(pc: Pc, h: nat, got: Got) { pc == Count(h, got) || pc == UpHead(h, got) || pc == Opened(h, got) }

  /** An opener that joins a head which is open ends up on another device than it asked for if and only if, at its race
      checks, it had created that head and the head carried another device by then: it does not compare them. */
  lemma MisledExactly(tr: seq<State>, i: nat, j: nat, t: nat, got: Got)
    requires Run(tr) && i < j < |tr| && t in tr[i].pcs && tr[i].pcs[t].Check?
    requires forall k :: i < k <= j ==> t in tr[k].pcs && Joined(tr[k].pcs[t], tr[i].pcs[t].hd, got)
    ensures var pc := tr[i].pcs[t]; var h := pc.hd;
      h in tr[i].heads && h in tr[j].heads &&
      (tr[j].heads[h].dev != pc.dev <==> !pc.existing && tr[i].heads[h].dev != pc.dev)
  {
    var pc := tr[i].pcs[t];
    assert t in tr[i + 1].pcs && Joined(tr[i + 1].pcs[t], pc.hd, got);
    RacesRestart(tr, i, t);
    assert Next(tr[i], tr[i + 1]);
    var u, c :| Step(tr[i], u, c, tr[i + 1]);
    CheckLeaves(tr[i], u, c, tr[i + 1], t);
    hide Step;
    KeepsDevice(tr, i + 1, j, t, pc.hd, got);
  }

  lemma CheckLeaves(s: State, u: nat, c: Choice, s': State, t: nat)
    requires Step(s, u, c, s') && t in s.pcs && s.pcs[t].Check? && t in s'.pcs && s'.pcs[t].Count?
    ensures s'.heads == s.heads
  {
    StepOfThread(s, u, c, s', t);
  }

  /** While a thread has the file of a head open, or is about to count it, the head's device stays. */
  lemma {:induction false} KeepsDevice(tr: seq<State>, i: nat, j: nat, t: nat, h: nat, got: Got)
    requires Run(tr) && i <= j < |tr|
    requires forall k :: i <= k <= j ==> t in tr[k].pcs && Joined(tr[k].pcs[t], h, got)
    ensures h in tr[i].heads && h in tr[j].heads && tr[j].heads[h].dev == tr[i].heads[h].dev
  {
    hide Inv, Next, Init;
    assert Joined(tr[j].pcs[t], h, got);
    InvAt(tr, j);
    HeadThere(tr[j], t);
    if i < j {
      KeepsDevice(tr, i, j - 1, t, h, got);
      assert Joined(tr[j - 1].pcs[t], h, got) && Next(tr[j - 1], tr[j]);
      InvAt(tr, j - 1);
      NextDevice(tr[j - 1], tr[j], t, h);
    }
  }

  lemma HeadThere(s: State, t: nat)
    requires Inv(s) && t in s.pcs && (s.pcs[t].Count? || s.pcs[t].UpHead? || s.pcs[t].Opened?)
    ensures s.pcs[t].hd in s.heads
  {
    assert ThreadOk(s.heads, s.global, t, s.pcs[t]);
  }

  lemma NextDevice(s: State, s': State, t: nat, h: nat)
    requires Inv(s) && Next(s, s') && h in s.heads && h in s'.heads
    requires t in s.pcs && (s.pcs[t].Count? || s.pcs[t].UpHead? || s.pcs[t].Opened?) && s.pcs[t].At().on == Some(h)
    ensures s'.heads[h].dev == s.heads[h].dev
  {
    hide Inv, Step;
    var u, c :| Step(s, u, c, s');
    if s'.heads[h].dev != s.heads[h].dev {
      WhoSetsDevice(s, u, c, s', h);
      NotBoth(s, u, t, h);
    }
  }

  lemma NotBoth(s: State, u: nat, t: nat, h: nat)
    requires Inv(s) && h in s.heads && u in s.pcs && s.pcs[u].At().on == Some(h)
    requires (s.pcs[u].Check? && s.heads[h].opencnt < 1) || s.pcs[u].Adopt?
    requires t in s.pcs && s.pcs[t].At().on == Some(h)
    ensures !s.pcs[t].Count? && !s.pcs[t].UpHead? && !s.pcs[t].Opened?
  {
    hide Inv;
    OnHead(s, u, h);
    OnHead(s, t, h);
    if s.pcs[t].At().counted { OneCounted(s, t, h); }
  }

  lemma OnHead(s: State, t: nat, h: nat)
    requires Inv(s) && h in s.heads && t in s.pcs && s.pcs[t].At().on == Some(h)
    ensures Knows(s.heads[h], s.pcs[t]) && (s.pcs[t].At().head ==> s.heads[h].opening == Some(t))
  {
    assert ThreadOk(s.heads, s.global, t, s.pcs[t]);
    hide Knows;
  }

  lemma OneCounted(s: State, t: nat, h: nat)
    requires Inv(s) && h in s.heads && t in s.pcs && s.pcs[t].At().on == Some(h) && s.pcs[t].At().counted
    ensures s.heads[h].opencnt > 0
  {
    assert HeadOk(s.pcs, h, s.heads[h]);
    assert t in Who(s.pcs, CountRole, h);
  }

  lemma WhoSetsDevice(s: State, u: nat, c: Choice, s': State, h: nat)
    requires Step(s, u, c, s') && h in s.heads && h in s'.heads && s'.heads[h].dev != s.heads[h].dev
    ensures u in s.pcs
    ensures (s.pcs[u].Check? && s.heads[h].opencnt < 1) || s.pcs[u].Adopt?
    ensures s.pcs[u].At().on == Some(h)
  {
  }

  /** In lis_stropen, to open device d. */
  predicate Opening(pc: Pc, d: Dev) {
    match pc
    case DownGlobal(e) => e == d
    case Lookup(e) => e == d
    case Take(e, _) => e == d
    case UpGlobal(e, _, _) => e == d
    case DownHead(e, _, _) => e == d
    case Check(e, _, _) => e == d
    case RetryUp(e, _) => e == d
    case RetryPut(e, _) => e == d
    case Attach(e, _) => e == d
    case DownAdopt(e, _, _) => e == d
    case Adopt(e, _, _) => e == d
    case UpAdopt(e, _, _) => e == d
    case Count(_, got) => got.asked == d
    case UpHead(_, got) => got.asked == d
    case _ => false
  }

  predicate Failing(pc: Pc) { pc.FailUpGlobal? || pc.FailUpHead? || pc.FailDismantle? || pc.FailPut? }

  /** An open goes on, however often it has to start over, until the file is open for it; only a clone open fails, and
      only if the driver refuses it or answers with a device that another head carries. */
  lemma OpenGoesOn(tr: seq<State>, i: nat, t: nat, d: Dev)
    requires Run(tr) && i + 1 < |tr| && t in tr[i].pcs && t in tr[i + 1].pcs && Opening(tr[i].pcs[t], d)
    ensures var pc, pc' := tr[i].pcs[t], tr[i + 1].pcs[t];
      && (Opening(pc', d) || (pc'.Opened? && pc'.got.asked == d) || (Failing(pc') && d.clone))
      && (Failing(pc') ==> pc.Attach? || (pc.Adopt? && InUse(tr[i], pc.ndev, pc.hd)))
      && (pc.Adopt? && pc' != pc && !InUse(tr[i], pc.ndev, pc.hd) ==> pc' == UpAdopt(d, pc.hd, pc.ndev))
  {
    assert Next(tr[i], tr[i + 1]);
    var u, c :| Step(tr[i], u, c, tr[i + 1]);
    StepOfThread(tr[i], u, c, tr[i + 1], t);
  }

  lemma {:induction false} NonCloneOpens(tr: seq<State>, i: nat, j: nat, t: nat, d: Dev)
    requires Run(tr) && i <= j < |tr| && !d.clone && forall k :: i <= k <= j ==> t in tr[k].pcs
    requires Opening(tr[i].pcs[t], d) && forall k :: i <= k <= j ==> !tr[k].pcs[t].Opened?
    ensures Opening(tr[j].pcs[t], d)
  {
    if i < j {
      NonCloneOpens(tr, i, j - 1, t, d);
      OpenGoesOn(tr, j - 1, t, d);
    }
  }

  ghost predicate Reached(s: State) {
    exists tr :: Run(tr) && tr[|tr| - 1] == s
  }

  lemma Reach(s: State, t: nat, c: Choice, s': State)
    requires Reached(s) && Step(s, t, c, s')
    ensures Reached(s')
  {
    var tr :| Run(tr) && tr[|tr| - 1] == s;
    var tr' := tr + [s'];
    assert Next(s, s');
    assert forall i :: 0 <= i < |tr| ==> tr'[i] == tr[i];
    assert Run(tr');
  }

  lemma Begin(s: State)
    requires Init(s)
    ensures Reached(s)
  {
    assert Run([s]);
  }

  /** A device, and another one that the driver may answer with. */
  const D: Dev := Dev(false, 0)
  const N: Dev := Dev(false, 1)
  const C: Choice := Choice(D, 0, false)

  /** Two threads and one head. */
  function Two(hd: Head, pc0: Pc, pc1: Pc, global: Option<nat>): State {
    State(map[0 := hd], map[0 := pc0, 1 := pc1], global)
  }

  /** The head that thread 0 has made, and what becomes of it. */
  const Made: Head := Head(D, D, 1, 0, false, None, 0, 0)
  const Sought: Head := Made.(refcnt := 2, opening := Some(1))
  const Changed: Head := Sought.(dev := N, attached := 1)
  const Joint: Head := Changed.(opencnt := 2, opening := None)

  lemma CreatorWaits()
    ensures Reached(Two(Made, DownHead(D, 0, false), Idle, None))
  {
    hide Reached;
    var s0 := State(map[], map[0 := Idle, 1 := Idle], None);
    var s1, s2 := s0.Goto(0, DownGlobal(D)), s0.Goto(0, Lookup(D)).(global := Some(0));
    var s3, s4 := s2.Goto(0, Take(D, None)), Two(Made, UpGlobal(D, 0, false), Idle, Some(0));
    Begin(s0);
    Reach(s0, 0, C, s1);
    Reach(s1, 0, C, s2);
    Reach(s2, 0, C, s3);
    Reach(s3, 0, C, s4);
    Reach(s4, 0, C, Two(Made, DownHead(D, 0, false), Idle, None));
  }

  lemma OtherFinds()
    ensures Reached(Two(Sought, DownHead(D, 0, false), Check(D, 0, true), None))
  {
    hide Reached;
    CreatorWaits();
    var pc := DownHead(D, 0, false);
    var s0, s1, s2 := Two(Made, pc, Idle, None), Two(Made, pc, DownGlobal(D), None), Two(Made, pc, Lookup(D), Some(1));
    Reach(s0, 1, C, s1);
    Reach(s1, 1, C, s2);
    assert Matches(s2, 0, D);
    var s3, hd := Two(Made, pc, Take(D, Some(0)), Some(1)), Made.(refcnt := 2);
    Reach(s2, 1, C, s3);
    OtherTakes(pc, hd);
  }

  lemma OtherTakes(pc: Pc, hd: Head)
    requires Reached(Two(Made, pc, Take(D, Some(0)), Some(1))) && hd == Made.(refcnt := 2)
    ensures Reached(Two(Sought, pc, Check(D, 0, true), None))
  {
    hide Reached;
    var s4, s5 := Two(hd, pc, UpGlobal(D, 0, true), Some(1)), Two(hd, pc, DownHead(D, 0, true), None);
    Reach(Two(Made, pc, Take(D, Some(0)), Some(1)), 1, C, s4);
    Reach(s4, 1, C, s5);
    Reach(s5, 1, C, Two(Sought, pc, Check(D, 0, true), None));
  }

  lemma OtherAttaches(pc: Pc)
    requires Reached(Two(Sought, pc, Check(D, 0, true), None))
    ensures Reached(Two(Sought.(attached := 1), pc, DownAdopt(D, 0, N), None))
  {
    hide Reached;
    var s1 := Two(Sought.(attached := 1), pc, Attach(D, 0), None);
    Reach(Two(Sought, pc, Check(D, 0, true), None), 1, C, s1);
    Reach(s1, 1, C.(dev := N), Two(Sought.(attached := 1), pc, DownAdopt(D, 0, N), None));
  }

  lemma OtherAdopts(pc: Pc)
    requires Reached(Two(Sought.(attached := 1), pc, DownAdopt(D, 0, N), None))
    ensures Reached(Two(Changed, pc, Count(0, Got(D, N, true)), None))
  {
    hide Reached;
    var s0, s1 := Two(Sought.(attached := 1), pc, DownAdopt(D, 0, N), None),
                  Two(Sought.(attached := 1), pc, Adopt(D, 0, N), Some(1));
    Reach(s0, 1, C, s1);
    assert !InUse(s1, N, 0);
    Reach(s1, 1, C, Two(Changed, pc, UpAdopt(D, 0, N), Some(1)));
    Reach(Two(Changed, pc, UpAdopt(D, 0, N), Some(1)), 1, C, Two(Changed, pc, Count(0, Got(D, N, true)), None));
  }

  lemma OtherOpens(pc: Pc, got: Got)
    requires Reached(Two(Changed, pc, Count(0, got), None))
    ensures Reached(Two(Changed.(opencnt := 1, opening := None), pc, Opened(0, got), None))
  {
    hide Reached;
    var hd := Changed.(opencnt := 1);
    Reach(Two(Changed, pc, Count(0, got), None), 1, C, Two(hd, pc, UpHead(0, got), None));
    Reach(Two(hd, pc, UpHead(0, got), None), 1, C, Two(hd.(opening := None), pc, Opened(0, got), None));
  }

  lemma CreatorChecks(pc: Pc, free: Head, hd: Head)
    requires free == Changed.(opencnt := 1, opening := None) && hd == Changed.(opencnt := 1, opening := Some(0))
    requires Reached(Two(free, DownHead(D, 0, false), pc, None))
    ensures Reached(Two(hd, Count(0, Got(D, D, false)), pc, None))
  {
    hide Reached;
    Reach(Two(free, DownHead(D, 0, false), pc, None), 0, C, Two(hd, Check(D, 0, false), pc, None));
    Reach(Two(hd, Check(D, 0, false), pc, None), 0, C, Two(hd, Count(0, Got(D, D, false)), pc, None));
  }

  lemma CreatorJoins(pc: Pc, got: Got, hd: Head)
    requires hd == Changed.(opencnt := 1, opening := Some(0)) && Reached(Two(hd, Count(0, got), pc, None))
    ensures Reached(Two(Joint, Opened(0, got), pc, None))
  {
    hide Reached;
    var s1 := Two(hd.(opencnt := 2), UpHead(0, got), pc, None);
    Reach(Two(hd, Count(0, got), pc, None), 0, C, s1);
    Reach(s1, 0, C, Two(Joint, Opened(0, got), pc, None));
  }

  /** A run in which a thread has opened D, and its file is on N: another thread found the head it had just created, got
      the semaphore first, and the driver answered N. */
  lemma CreatorIsMisled() returns (tr: seq<State>)
    ensures Run(tr)
    ensures var s := tr[|tr| - 1];
            0 in s.pcs && s.pcs[0].Opened? && s.pcs[0].got.asked == D && 0 in s.heads && s.pcs[0].hd == 0
            && s.heads[0].dev == N && N != D
  {
    OtherFinds();
    OtherAttaches(DownHead(D, 0, false));
    OtherAdopts(DownHead(D, 0, false));
    OtherOpens(DownHead(D, 0, false), Got(D, N, true));
    var one := Changed.(opencnt := 1);
    CreatorChecks(Opened(0, Got(D, N, true)), one.(opening := None), one.(opening := Some(0)));
    CreatorJoins(Opened(0, Got(D, N, true)), Got(D, D, false), one.(opening := Some(0)));
    tr :| Run(tr) && tr[|tr| - 1] == Two(Joint, Opened(0, Got(D, D, false)), Opened(0, Got(D, N, true)), None);
  }

  /** From one state of a run to the next, a head either stays the same structure or is freed. STRCLOSE, once set,
      stays set with open count 0; a freed head had been dismantled exactly once and, unless it belonged to a failed
      clone open, was closed; and nobody dismantles a head twice. */
  lemma ClosedForGood(tr: seq<State>, i: nat, h: nat)
    requires Run(tr) && i + 1 < |tr| && h in tr[i].heads
    ensures var hd := tr[i].heads[h];
            && hd.dismantled <= 1
            && (h in tr[i + 1].heads ==>
                  var hd' := tr[i + 1].heads[h];
                  (hd.strclose ==> hd'.strclose && hd'.opencnt == 0) && hd.dismantled <= hd'.dismantled <= 1)
            && (h !in tr[i + 1].heads ==> hd.dismantled == 1 && hd.refcnt == 1 && (hd.strclose || hd.dev.clone))
  {
    var s, s' := tr[i], tr[i + 1];
    InvAt(tr, i);
    InvAt(tr, i + 1);
    assert Next(s, s');
    var t, c :| Step(s, t, c, s');
    StepOnHead(s, t, c, s', h);
    AtMostOnceDismantled(s, h);
    if h in s'.heads {
      AtMostOnceDismantled(s', h);
    } else {
      assert ThreadOk(s.heads, s.global, t, s.pcs[t]);
      hide *;
      LastReference(s, t, h);
      if s.pcs[t].FailPut? { LeavesClone(s, t, h); }
    }
  }

  lemma InvAt(tr: seq<State>, i: nat)
    requires Run(tr) && i < |tr|
    ensures Inv(tr[i])
  {
    assert Run(tr[..i + 1]);
    RunInv(tr[..i + 1]);
  }

  lemma LeavesClone(s: State, t: nat, h: nat)
    requires Inv(s) && t in s.pcs && s.pcs[t].FailPut? && s.pcs[t].At().on == Some(h)
    ensures h in s.heads && s.heads[h].dev.clone
  {
    assert ThreadOk(s.heads, s.global, t, s.pcs[t]);
  }

  lemma AtMostOnceDismantled(s: State, h: nat)
    requires Inv(s) && h in s.heads
    ensures s.heads[h].dismantled <= 1 && (s.heads[h].strclose ==> s.heads[h].opencnt == 0)
  {
    assert HeadOk(s.pcs, h, s.heads[h]);
    if !s.heads[h].strclose && s.heads[h].dismantled > 0 {
      var u: nat :| u in Who(s.pcs, FailRole, h);
      assert ThreadOk(s.heads, s.global, u, s.pcs[u]);
    }
  }

  /** What a step may do to a head that exists before it. */
  lemma StepOnHead(s: State, t: nat, c: Choice, s': State, h: nat)
    requires Step(s, t, c, s') && h in s.heads
    ensures h in s'.heads ==>
              (s.heads[h].strclose ==> s'.heads[h].strclose) && s.heads[h].dismantled <= s'.heads[h].dismantled
    ensures h !in s'.heads ==> s.pcs[t].At().on == Some(h) && s.heads[h].refcnt == 1
                               && (s.pcs[t].RetryPut? || s.pcs[t].FailPut? || s.pcs[t].ClosePut?)
  {
  }

  /** Nobody waits for sd_opening while holding lis_stdata_sem, and nobody waits for a semaphore that he holds. */
  lemma NoNestedWait(tr: seq<State>, t: nat)
    requires Run(tr) && t in tr[|tr| - 1].pcs
    ensures var s := tr[|tr| - 1];
            var pc := s.pcs[t];
            && (pc.DownHead? || pc.CloseDown? ==>
                  s.global != Some(t) && pc.hd in s.heads && s.heads[pc.hd].opening != Some(t))
            && (pc.DownGlobal? || pc.DownAdopt? || pc.CloseDownGlobal? ==> s.global != Some(t))
  {
    RunInv(tr);
    var s := tr[|tr| - 1];
    assert ThreadOk(s.heads, s.global, t, s.pcs[t]);
    if s.pcs[t].DownHead? || s.pcs[t].CloseDown? {
      assert HeadOk(s.pcs, s.pcs[t].hd, s.heads[s.pcs[t].hd]);
    }
  }

  ghost predicate CanStep(s: State, t: nat) {
    exists c, s' :: Step(s, t, c, s')
  }

  /** In every reachable state in which some thread is in the middle of an open or a close, some such thread can
      take a step, whatever device drivers answer, provided an answer to a non-clone open is not in use. */
  lemma NoDeadlock(tr: seq<State>, t: nat)
    requires Run(tr) && t in tr[|tr| - 1].pcs && tr[|tr| - 1].pcs[t].Busy()
    requires var s := tr[|tr| - 1];
             forall u :: u in s.pcs && s.pcs[u].Adopt? && !s.pcs[u].dev.clone ==> !InUse(s, s.pcs[u].ndev, s.pcs[u].hd)
    ensures var s := tr[|tr| - 1]; exists u :: u in s.pcs && s.pcs[u].Busy() && CanStep(s, u)
  {
    RunInv(tr);
    var s := tr[|tr| - 1];
    if s.global.Some? {
      HolderSteps(s, s.global.value);
    } else if s.pcs[t].DownHead? || s.pcs[t].CloseDown? {
      var k := WaiterOrHolderSteps(s, t);
    } else {
      FreeSteps(s, t);
    }
  }

  lemma WaiterOrHolderSteps(s: State, t: nat) returns (k: nat)
    requires Inv(s) && t in s.pcs && s.global == None && (s.pcs[t].DownHead? || s.pcs[t].CloseDown?)
    ensures k in s.pcs && s.pcs[k].Busy() && CanStep(s, k)
  {
    var h := s.pcs[t].hd;
    Waiting(s.pcs[t]);
    assert ThreadOk(s.heads, s.global, t, s.pcs[t]) && HeadOk(s.pcs, h, s.heads[h]);
    if s.heads[h].opening.Some? {
      k := s.heads[h].opening.value;
      HeadHolder(s.pcs[k]);
      FreeSteps(s, k);
    } else {
      k := t;
      SemCanStep(s, t, Some(t));
    }
  }

  lemma SemCanStep(s: State, t: nat, opening: Option<nat>)
    requires t in s.pcs && SemNext(s.pcs[t]).Some? && s.pcs[t].hd in s.heads
    requires Moved(t, s.pcs[t].At().head, SemNext(s.pcs[t]).value.At().head, s.heads[s.pcs[t].hd].opening, opening)
    ensures CanStep(s, t)
  {
    var h := s.pcs[t].hd;
    var s' := s.Set(h, s.heads[h].(opening := opening)).Goto(t, SemNext(s.pcs[t]).value);
    assert SemStep(s, t, s');
    assert Step(s, t, Choice(Dev(false, 0), 0, false), s');
  }

  lemma QuietCanStep(s: State, t: nat, c: Choice, global: Option<nat>)
    requires t in s.pcs && QuietNext(s.pcs[t], c).Some?
    requires Moved(t, s.pcs[t].At().global, QuietNext(s.pcs[t], c).value.At().global, s.global, global)
    ensures CanStep(s, t)
  {
    var s' := s.(global := global).Goto(t, QuietNext(s.pcs[t], c).value);
    assert QuietStep(s, t, c, s');
    assert Step(s, t, c, s');
  }

  /** The holder of the global semaphore never waits. */
  lemma HolderSteps(s: State, t: nat)
    requires Inv(s) && s.global == Some(t)
    requires t in s.pcs ==> (s.pcs[t].Adopt? && !s.pcs[t].dev.clone ==> !InUse(s, s.pcs[t].ndev, s.pcs[t].hd))
    ensures t in s.pcs && s.pcs[t].Busy() && CanStep(s, t)
  {
    assert ThreadOk(s.heads, s.global, t, s.pcs[t]);
    if s.pcs[t].Lookup? || s.pcs[t].Take? {
      SearchCanStep(s, t);
    } else if s.pcs[t].Adopt? || s.pcs[t].CloseMark? {
      var h := s.pcs[t].hd;
      MarkCanStep(s, t, h);
    } else {
      GlobalHolder(s.pcs[t], Choice(Dev(false, 0), 0, false));
      QuietCanStep(s, t, Choice(Dev(false, 0), 0, false), None);
    }
  }

  lemma GlobalHolder(pc: Pc, c: Choice)
    requires pc.At().global && !pc.Lookup? && !pc.Take? && !pc.Adopt? && !pc.CloseMark?
    ensures QuietNext(pc, c).Some? && !QuietNext(pc, c).value.At().global
  {
  }

  lemma Waiting(pc: Pc)
    requires pc.DownHead? || pc.CloseDown?
    ensures pc.Busy() && pc.At().on == Some(pc.hd) && SemNext(pc).Some? && !pc.At().head && SemNext(pc).value.At().head
  {
  }

  lemma HeadHolder(pc: Pc)
    requires pc.At().head
    ensures pc.Busy() && !pc.DownHead? && !pc.CloseDown?
  {
  }

  lemma SearchCanStep(s: State, t: nat)
    requires t in s.pcs && (s.pcs[t].Lookup? || s.pcs[t].Take?)
    requires s.pcs[t].At().on.Some? ==> s.pcs[t].At().on.value in s.heads
    ensures CanStep(s, t)
  {
    var c := Choice(Dev(false, 0), 0, false);
    match s.pcs[t]
    case Lookup(d) =>
      if !d.clone && exists k :: Matches(s, k, d) {
        var k :| Matches(s, k, d);
        assert LookupStep(s, t, k, d, s.Goto(t, Take(d, Some(k))));
        assert Step(s, t, c.(addr := k), s.Goto(t, Take(d, Some(k))));
      } else {
        assert LookupStep(s, t, 0, d, s.Goto(t, Take(d, None)));
        assert Step(s, t, c, s.Goto(t, Take(d, None)));
      }
    case Take(d, found) =>
      var a := Above(s.heads.Keys);
      var s' := if found.Some?
                then s.Set(found.value, s.heads[found.value].(refcnt := s.heads[found.value].refcnt + 1))
                      .Goto(t, UpGlobal(d, found.value, true))
                else s.Set(a, Head(d, d, 1, 0, false, None, 0, 0)).Goto(t, UpGlobal(d, a, false));
      assert TakeStep(s, t, a, d, found, s');
      assert Step(s, t, c.(addr := a), s');
  }

  lemma MarkCanStep(s: State, t: nat, h: nat)
    requires t in s.pcs && (s.pcs[t].Adopt? || s.pcs[t].CloseMark?) && s.pcs[t].hd == h && h in s.heads
    requires s.pcs[t].Adopt? && !s.pcs[t].dev.clone ==> !InUse(s, s.pcs[t].ndev, h)
    ensures CanStep(s, t)
  {
    var c := Choice(Dev(false, 0), 0, false);
    match s.pcs[t]
    case Adopt(d, _, n) =>
      var s' := if InUse(s, n, h) then s.Goto(t, FailUpGlobal(h))
                else s.Set(h, s.heads[h].(dev := n)).Goto(t, UpAdopt(d, h, n));
      assert AdoptStep(s, t, d, h, n, s');
      assert Step(s, t, c, s');
    case CloseMark(_) =>
      var s' := s.Set(h, s.heads[h].(strclose := true)).Goto(t, CloseUpGlobal(h));
      assert MarkStep(s, t, h, s');
      assert Step(s, t, c, s');
  }

  lemma Above(used: set<nat>) returns (a: nat)
    ensures forall u :: u in used ==> u < a
  {
    if used == {} {
      a := 0;
    } else {
      var m :| m in used;
      a := Above(used - {m});
      a := if m < a then a else m + 1;
      assert used == (used - {m}) + {m};
    }
  }

  /** A thread that works on a head it holds, or gives it back, never waits. */
  lemma HeadCanStep(s: State, t: nat)
    requires t in s.pcs && s.pcs[t].At().on.Some? && s.pcs[t].At().on.value in s.heads
    requires s.pcs[t].Check? || s.pcs[t].Count? || s.pcs[t].CloseDec?
    ensures CanStep(s, t)
  {
    var c := Choice(Dev(false, 0), 0, false);
    match s.pcs[t]
    case Check(d, h, existing) =>
      var hd := s.heads[h];
      var s' := if (existing && hd.dev != d) || hd.strclose then s.Goto(t, RetryUp(d, h))
                else if hd.opencnt >= 1 then s.Goto(t, Count(h, Got(d, d, existing)))
                else s.Set(h, hd.(dev := d, attached := hd.attached + 1)).Goto(t, Attach(d, h));
      assert CheckStep(s, t, d, h, existing, s');
      assert Step(s, t, c, s');
    case Count(h, got) =>
      var s' := s.Set(h, s.heads[h].(opencnt := s.heads[h].opencnt + 1)).Goto(t, UpHead(h, got));
      assert CountStep(s, t, h, got, s');
      assert Step(s, t, c, s');
    case CloseDec(h) =>
      var n := if s.heads[h].opencnt > 0 then s.heads[h].opencnt - 1 else s.heads[h].opencnt;
      var s' := s.Set(h, s.heads[h].(opencnt := n))
                 .Goto(t, if n == 0 then CloseDownGlobal(h) else CloseUpHead(h, false));
      assert DecStep(s, t, h, s');
      assert Step(s, t, c, s');
  }

  lemma LeaveCanStep(s: State, t: nat)
    requires t in s.pcs && s.pcs[t].At().on.Some? && s.pcs[t].At().on.value in s.heads
    requires s.pcs[t].FailDismantle? || s.pcs[t].CloseAction? || s.pcs[t].RetryPut? || s.pcs[t].FailPut?
             || s.pcs[t].ClosePut?
    ensures CanStep(s, t)
  {
    var c, h := Choice(Dev(false, 0), 0, false), s.pcs[t].hd;
    if s.pcs[t].FailDismantle? || s.pcs[t].CloseAction? {
      var pc := if s.pcs[t].FailDismantle? then FailPut(h) else ClosePut(h);
      var s' := s.Set(h, s.heads[h].(dismantled := s.heads[h].dismantled + 1)).Goto(t, pc);
      assert DismantleStep(s, t, h, pc, s');
      assert Step(s, t, c, s');
    } else {
      var pc := if s.pcs[t].RetryPut? then DownGlobal(s.pcs[t].dev) else Idle;
      var s' := s.Put(h).Goto(t, pc);
      assert PutStep(s, t, h, pc, s');
      assert Step(s, t, c, s');
    }
  }

  /** With the global semaphore free, only a thread that waits for sd_opening of a head in use cannot step. */
  lemma FreeSteps(s: State, t: nat)
    requires Inv(s) && t in s.pcs && s.global == None && s.pcs[t].Busy() && !s.pcs[t].DownHead? && !s.pcs[t].CloseDown?
    ensures CanStep(s, t)
  {
    assert ThreadOk(s.heads, s.global, t, s.pcs[t]);
    var pc, c := s.pcs[t], Choice(Dev(false, 0), 0, false);
    if pc.Check? || pc.Count? || pc.CloseDec? {
      HeadCanStep(s, t);
    } else if pc.FailDismantle? || pc.CloseAction? || pc.RetryPut? || pc.FailPut? || pc.ClosePut? {
      LeaveCanStep(s, t);
    } else if QuietNext(pc, c).Some? {
      QuietFree(pc, c);
      QuietCanStep(s, t, c, if QuietNext(pc, c).value.At().global then Some(t) else None);
    } else {
      SemFree(pc);
      SemCanStep(s, t, None);
    }
  }

  lemma QuietFree(pc: Pc, c: Choice)
    requires QuietNext(pc, c).Some?
    ensures pc.At().global ==> !QuietNext(pc, c).value.At().global
  {
  }

  lemma SemFree(pc: Pc)
    requires SemNext(pc).Some? && !pc.DownHead? && !pc.CloseDown?
    ensures pc.At().head && !SemNext(pc).value.At().head
  {
  }
}
