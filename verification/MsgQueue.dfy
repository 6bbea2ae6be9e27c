/** The message queue with flow control (head/queue.c): one queue, its list, its counts and its flags. */
module MsgQueue {
  import opened Priority
  import opened BandIndex

  function At(ms: seq<Mblk>, i: int): Mblk? { if 0 <= i < |ms| then ms[i] else null }

  /** The messages of ms are linked to each other, in this order and to nothing else. */
  ghost predicate Links(ms: seq<Mblk>)
    reads ms
  {
    && AllOk(ms)
    && (forall i {:trigger ms[i].next} :: 0 <= i < |ms| ==> ms[i].next == At(ms, i + 1))
    && (forall i {:trigger ms[i].prev} :: 0 <= i < |ms| ==> ms[i].prev == At(ms, i - 1))
    && (forall i, j :: 0 <= i < j < |ms| ==> ms[i] != ms[j])
  }

  ghost predicate AllOk(ms: seq<Mblk>)
    reads ms
  {
    forall i :: 0 <= i < |ms| ==> ms[i].Ok()
  }

  /** The messages of ms are chained forwards. */
  ghost predicate Chain(ms: seq<Mblk>)
    reads ms
  {
    && AllOk(ms)
    && (forall i {:trigger ms[i].next} :: 0 <= i < |ms| ==> ms[i].next == At(ms, i + 1))
    && (forall i, j :: 0 <= i < j < |ms| ==> ms[i] != ms[j])
  }

  /** Hysteresis of q_flag. */
  predicate MainFlags(count: int, full: bool, wasfull: bool, wantw: bool, back: bool, hiwat: nat, lowat: nat) {
    && (full ==> wasfull && count >= hiwat)
    && (count > hiwat ==> full)
    && (wasfull ==> count > lowat)
    && (wantw ==> wasfull || back)
  }

  /** Hysteresis of qb_flag. */
  predicate BandFlags(r: QBand, hiwat: nat, lowat: nat) { HalfFlags(r, hiwat) && (r.wasfull ==> r.count > lowat) }

  /** What is left of it in a record that a flush has just emptied. */
  predicate HalfFlags(r: QBand, hiwat: nat) {
    (r.full <==> r.count > hiwat) && (r.full ==> r.wasfull) && (r.wantw ==> r.wasfull)
  }

  ghost predicate UsedFlags(tags: seq<nat>, bands: seq<QBand>, hiwat: nat, lowat: nat) {
    && |tags| == |bands|
    && (forall i :: 0 <= i < |tags| ==> HalfFlags(bands[i], hiwat))
    && (forall i :: 0 <= i < |tags| && tags[i] != 0 ==> BandFlags(bands[i], hiwat, lowat))
  }

  ghost predicate AllFlags(bands: seq<QBand>, hiwat: nat, lowat: nat) {
    forall i :: 0 <= i < |bands| ==> BandFlags(bands[i], hiwat, lowat)
  }

  ghost predicate Wanted(bands: seq<QBand>) { exists i :: 0 <= i < |bands| && bands[i].wantw }

  /** The bands whose record has QB_WANTW set. */
  ghost function WantSet(tags: seq<nat>, bands: seq<QBand>): set<nat> {
    set i | 0 <= i < |tags| && i < |bands| && tags[i] != 0 && bands[i].wantw :: tags[i]
  }

  /** The bands whose record has QB_WASFULL set. */
  ghost function FullSet(tags: seq<nat>, bands: seq<QBand>): set<nat> {
    set i | 0 <= i < |tags| && i < |bands| && tags[i] != 0 && bands[i].wasfull :: tags[i]
  }

  /** Flow control of a queue: the flags of q_flag and of the bands; and as history variables which bands (0: the queue)
      have refused a writer since the last back-enable search, and how many searches there were. */
  datatype Flow = Flow(full: bool, wasfull: bool, wantw: bool, back: bool, wants: set<nat>, fulls: set<nat>,
                       refused: set<nat>, searches: nat)
  {
    /** No lost wakeup: each refused writer that has not been looked for is remembered, by the flag of its band or of
        the queue. */
    ghost predicate Remembered() { forall b :: b in refused ==> wantw || b in wants }
  }

  /** A message was put, and its band (or the queue, if it has none) now holds `load` bytes. */
  ghost function AfterPut(f: Flow, m: Mblk, load: int, hiwat: nat): Flow {
    if load <= hiwat then f
    else if m.Banded() then f.(fulls := f.fulls + {m.key})
    else f.(full := true, wasfull := true)
  }

  /** A message was taken out. A drained band hands its waiting writer over to the queue. */
  ghost function AfterRmv(f: Flow, m: Mblk, load: int, hiwat: nat, lowat: nat): Flow {
    if !m.Banded() then
      f.(full := f.full && load >= hiwat, wasfull := f.wasfull && load > lowat,
         back := f.back || (f.wasfull && load <= lowat))
    else if m.key in f.fulls && load <= lowat then
      f.(fulls := f.fulls - {m.key}, wants := f.wants - {m.key}, wantw := f.wantw || m.key in f.wants, back := true)
    else f
  }

  /** The back-enable search is made, if it is due. */
  ghost function AfterSearch(f: Flow, closewt: bool, count: int, lowat: nat): Flow {
    if ((f.wantw && f.back) || closewt) && count <= lowat
    then f.(wantw := false, back := false, refused := {}, searches := f.searches + 1) else f
  }

  /** A writer to the band was refused. */
  ghost function AfterRefusal(f: Flow, band: nat): Flow {
    if band == 0 then f.(wantw := true, refused := f.refused + {0})
    else f.(wants := f.wants + {band}, refused := f.refused + {band})
  }

  ghost predicate FreshFlow(f: Flow, ms: seq<Mblk>, count: int, hiwat: nat) {
    f.full == f.wasfull == (count > hiwat)
    && forall b :: 1 <= b <= MAX_BAND ==> (b in f.fulls <==> Bytes(Run(ms, b)) > hiwat)
  }

  lemma FreshAfterPut(f: Flow, ms: seq<Mblk>, p: nat, m: Mblk, count: int, hiwat: nat)
    requires p <= |ms| && FreshFlow(f, ms, count, hiwat) && m.key <= HIGH
    ensures var n, count' := Ins(ms, p, m), if m.Banded() then count else count + m.size;
      FreshFlow(AfterPut(f, m, if m.Banded() then Bytes(Run(n, m.key)) else count', hiwat), n, count', hiwat)
  {
    var n := Ins(ms, p, m);
    BytesAfterIns(ms, p, m);
    forall b | 1 <= b <= MAX_BAND && b != m.key ensures Run(n, b) == Run(ms, b) { RunAfterIns(ms, p, m, b); }
  }

  lemma NothingFresh(f: Flow, hiwat: nat)
    requires !f.full && !f.wasfull && f.fulls == {}
    ensures FreshFlow(f, [], 0, hiwat)
  {
    assert forall b :: Run([], b) == [] && Bytes([]) == 0;
  }

  ghost predicate DistinctTags(tags: seq<nat>) {
    forall i, j :: 0 <= i < j < |tags| && tags[i] == tags[j] ==> tags[i] == 0
  }

  lemma IndexTags(tags: seq<nat>, bands: seq<QBand>, ms: seq<Mblk>)
    requires Index(tags, bands, ms)
    ensures |tags| == |bands| && DistinctTags(tags)
    ensures forall i :: 0 <= i < |tags| && tags[i] != 0 ==> bands[i].count == Bytes(Run(ms, tags[i]))
  {
    forall i | 0 <= i < |tags| && tags[i] != 0 ensures bands[i].count == Bytes(Run(ms, tags[i])) {
      assert RecordOk(tags[i], bands[i], ms);
    }
  }

  /** One record changes, and serves band t now. */
  lemma SetRecord(tags: seq<nat>, bands: seq<QBand>, i: nat, t: nat, r: QBand)
    requires |tags| == |bands| && i < |tags| && DistinctTags(tags) && (t == 0 || t == tags[i] || t !in tags)
    ensures WantSet(tags[i := t], bands[i := r])
         == WantSet(tags, bands) - {tags[i]} + (if t != 0 && r.wantw then {t} else {})
    ensures FullSet(tags[i := t], bands[i := r])
         == FullSet(tags, bands) - {tags[i]} + (if t != 0 && r.wasfull then {t} else {})
    ensures tags[i] != 0 ==> (tags[i] in WantSet(tags, bands) <==> bands[i].wantw)
                             && (tags[i] in FullSet(tags, bands) <==> bands[i].wasfull)
    ensures tags[i] == 0 ==> 0 !in WantSet(tags, bands) && 0 !in FullSet(tags, bands)
    ensures t !in tags ==> t !in WantSet(tags, bands) && t !in FullSet(tags, bands)
  {
    var tags', bands' := tags[i := t], bands[i := r];
    forall b | b in WantSet(tags, bands) - {tags[i]} ensures b in WantSet(tags', bands') {
      var j :| 0 <= j < |tags| && tags[j] == b && bands[j].wantw && b != 0;
      assert tags'[j] == b && bands'[j] == bands[j];
    }
    forall b | b in FullSet(tags, bands) - {tags[i]} ensures b in FullSet(tags', bands') {
      var j :| 0 <= j < |tags| && tags[j] == b && bands[j].wasfull && b != 0;
      assert tags'[j] == b && bands'[j] == bands[j];
    }
    assert tags'[i] == t && bands'[i] == r;
  }

  lemma AddRecord(tags: seq<nat>, bands: seq<QBand>, r: QBand)
    requires |tags| == |bands|
    ensures WantSet(tags + [0], bands + [r]) == WantSet(tags, bands)
    ensures FullSet(tags + [0], bands + [r]) == FullSet(tags, bands)
  {
    forall b | b in WantSet(tags, bands) ensures b in WantSet(tags + [0], bands + [r]) {
      var j :| 0 <= j < |tags| && tags[j] == b && bands[j].wantw && b != 0;
      assert (tags + [0])[j] == b && (bands + [r])[j] == bands[j];
    }
    forall b | b in FullSet(tags, bands) ensures b in FullSet(tags + [0], bands + [r]) {
      var j :| 0 <= j < |tags| && tags[j] == b && bands[j].wasfull && b != 0;
      assert (tags + [0])[j] == b && (bands + [r])[j] == bands[j];
    }
  }

  lemma SameLength(tags: seq<nat>, bands: seq<QBand>, ms: seq<Mblk>, b: nat)
    requires Index(tags, bands, ms) && 1 <= b <= MAX_BAND
    ensures |tags| == |bands| && (Run(ms, b) != [] ==> b in tags)
  {
  }

  lemma AllUsed(tags: seq<nat>, bands: seq<QBand>, hiwat: nat, lowat: nat)
    requires |tags| == |bands| && AllFlags(bands, hiwat, lowat)
    ensures UsedFlags(tags, bands, hiwat, lowat)
  {
  }

  lemma ServesHere(tags: seq<nat>, bands: seq<QBand>, ms: seq<Mblk>, i: nat)
    requires Index(tags, bands, ms) && i < |tags| && tags[i] != 0
    ensures |tags| == |bands| && Serves(bands[i], tags[i], ms)
  {
    assert RecordOk(tags[i], bands[i], ms);
  }

  /** chk_band makes the flags of a record whose count has shrunk right again. */
  lemma ShrunkFlags(tags: seq<nat>, bands: seq<QBand>, i: nat, r: QBand, hiwat: nat, lowat: nat)
    requires AllFlags(bands, hiwat, lowat) && i < |bands| == |tags| && r.count <= bands[i].count && lowat < hiwat
    requires r.full == bands[i].full && r.wasfull == bands[i].wasfull && r.wantw == bands[i].wantw
    ensures AllFlags(bands[i := r][i := Checked(r, hiwat, lowat)], hiwat, lowat)
    ensures UsedFlags(tags, bands[i := r][i := Checked(r, hiwat, lowat)], hiwat, lowat)
  {
    assert BandFlags(bands[i], hiwat, lowat);
  }

  lemma FlagsAfter(tags: seq<nat>, bands: seq<QBand>, i: nat, r: QBand, hiwat: nat, lowat: nat, tag: nat)
    requires i < |bands| == |tags| && BandFlags(r, hiwat, lowat) && r.wantw == bands[i].wantw
    ensures UsedFlags(tags, bands, hiwat, lowat) ==> UsedFlags(tags[i := tag], bands[i := r], hiwat, lowat)
    ensures AllFlags(bands, hiwat, lowat) ==> AllFlags(bands[i := r], hiwat, lowat)
    ensures Wanted(bands[i := r]) ==> Wanted(bands)
  {
    if Wanted(bands[i := r]) {
      var j :| 0 <= j < |bands| && bands[i := r][j].wantw;
      assert bands[j].wantw;
    }
  }

  /** A band that had been full is at its low water mark. */
  predicate Drained(r: QBand, lowat: nat) { r.wasfull && r.count <= lowat }

  /** What chk_band makes of a record. */
  function Checked(r: QBand, hiwat: nat, lowat: nat): QBand {
    r.(full := r.full && r.count > hiwat,
       wasfull := r.wasfull && !Drained(r, lowat),
       wantw := r.wantw && !Drained(r, lowat))
  }

  class Queue {
    const hiwat: nat
    const lowat: nat
    var first: Mblk?
    var last: Mblk?
    var count: int
    var full: bool      // QFULL
    var wasfull: bool   // QWASFULL
    var wantw: bool     // QWANTW
    var back: bool      // QBACK
    var wantr: bool     // QWANTR
    var noenb: bool     // QNOENB
    var closing: bool   // QCLOSING or QPROCSOFF
    var closewt: bool   // QCLOSEWT
    var bands: seq<QBand>   // the list q_bandp, its first element last
    var deferHead: Mblk?
    var deferTail: Mblk?
    var enables: nat        // calls of lis_qenable for this queue
    var searches: nat       // back-enable searches started from this queue
    var released: seq<Mblk> // what was handed to lis_freemsg
    ghost var msgs: seq<Mblk>
    ghost var tags: seq<nat>
    ghost var deferred: seq<Mblk>   // the list of deferred messages
    ghost var refused: set<nat> // the bands (0: the queue) that refused a writer since the last search

    ghost predicate Linked()
      reads this`first, this`last, this`msgs, msgs
    {
      Links(msgs) && first == At(msgs, 0) && last == At(msgs, |msgs| - 1)
    }

    /** What holds at every moment, even while a flush puts messages back. */
    ghost predicate Sound()
      reads this, msgs
    {
      && lowat < hiwat
      && Linked()
      && Sorted(Keys(msgs))
      && Index(tags, bands, msgs)
      && count == Unbanded(msgs) + Bytes(deferred)
      && MainFlags(count, full, wasfull, wantw, back, hiwat, lowat)
      && UsedFlags(tags, bands, hiwat, lowat)
    }

    /** What holds between operations. */
    ghost predicate Valid()
      reads this, msgs
    {
      && Sound()
      && AllFlags(bands, hiwat, lowat)
    }

    ghost function FlowNow(): Flow
      reads this
    {
      Flow(full, wasfull, wantw, back, WantSet(tags, bands), FullSet(tags, bands), refused, searches)
    }

    /** Nothing that was full before counts: QFULL, QWASFULL and QB_WASFULL tell what is there now. */
    ghost predicate Fresh()
      reads this
    {
      FreshFlow(FlowNow(), msgs, count, hiwat)
    }

    ghost predicate Remembered()
      reads this
    {
      FlowNow().Remembered()
    }

    /** The bytes that count for flow control of mp: those of its band, or q_count. */
    ghost function Load(mp: Mblk, ms: seq<Mblk>): int
      reads this
    {
      if mp.Banded() then Bytes(Run(ms, mp.key)) else count
    }

    /** The deferred list. */
    ghost predicate DeferLinked()
      reads this, deferred
    {
      && Chain(deferred) && deferHead == At(deferred, 0) && deferTail == At(deferred, |deferred| - 1)
      && (forall m :: m in deferred ==> m !in msgs)
    }

    constructor (hiwat: nat, lowat: nat)
      requires lowat < hiwat
      ensures Valid() && Remembered() && DeferLinked() && msgs == [] && deferred == [] && bands == []
      ensures !wantr && !noenb && !closing && !closewt && refused == {}
      ensures this.hiwat == hiwat && this.lowat == lowat
    {
      this.hiwat, this.lowat := hiwat, lowat;
      first, last, count := null, null, 0;
      full, wasfull, wantw, back, wantr := false, false, false, false, false;
      noenb, closing, closewt := false, false, false;
      bands, enables, searches := [], 0, 0;
      deferHead, deferTail, released := null, null, [];
      msgs, tags, deferred, refused := [], [], [], {};
    }

    /** The search of find_qband for a record whose first message is in the band; |bands| if there is none. */
    method FindServing(band: nat, ghost ms: seq<Mblk>) returns (i: nat)
      requires 1 <= band <= MAX_BAND && AllOk(ms) && Index(tags, bands, ms)
      ensures i < |bands| ==> tags[i] == band
      ensures i >= |bands| ==> band !in tags
    {
      var j := |bands|;
      while 0 < j && !(bands[j - 1].first != null && bands[j - 1].first.band == band)
        invariant 0 <= j <= |bands|
        invariant forall l :: j <= l < |bands| ==> tags[l] != band
      {
        RecordBand(tags, bands, ms, j - 1);
        j := j - 1;
      }
      if 0 < j { RecordBand(tags, bands, ms, j - 1); }
      return if 0 < j then j - 1 else |bands|;
    }

    /** Its search for the first record in the list without messages; the records behind j are in use. */
    method FindFree(ghost ms: seq<Mblk>) returns (j: nat)
      requires AllOk(ms) && Index(tags, bands, ms)
      ensures j <= |bands| == |tags| && (0 < j ==> bands[j - 1].first == null)
      ensures forall l :: j <= l < |bands| ==> tags[l] != 0
    {
      j := |bands|;
      while 0 < j && bands[j - 1].first != null
        invariant j <= |bands|
        invariant forall l :: j <= l < |bands| ==> tags[l] != 0
      {
        RecordBand(tags, bands, ms, j - 1);
        j := j - 1;
      }
    }

    /** find_qband, for a band that is not 0. */
    method FindQband(band: nat, ghost ms: seq<Mblk>) returns (i: nat)
      requires 1 <= band <= MAX_BAND && AllOk(ms) && Index(tags, bands, ms)
      modifies this`bands, this`tags
      ensures Index(tags, bands, ms)
      ensures i < |bands| && (tags[i] == band || (tags[i] == 0 && band !in tags))
      ensures tags[i] == band ==> bands == old(bands) && tags == old(tags)
      ensures tags[i] == 0 ==> Free(bands[i]) && !bands[i].wantw && (forall j :: i < j < |tags| ==> tags[j] != 0)
      ensures tags[i] == 0 && i >= |old(tags)| ==> 0 !in old(tags)
      ensures tags[i] == 0 ==> if i < |old(bands)| then tags == old(tags) && bands == old(bands)[i := bands[i]]
                               else tags == old(tags) + [0] && bands == old(bands) + [bands[i]]
      ensures old(UsedFlags(tags, bands, hiwat, lowat)) ==> UsedFlags(tags, bands, hiwat, lowat)
      ensures old(UsedFlags(tags, bands, hiwat, lowat)) ==> BandFlags(bands[i], hiwat, lowat)
      ensures old(AllFlags(bands, hiwat, lowat)) ==> AllFlags(bands, hiwat, lowat)
      ensures Wanted(bands) ==> old(Wanted(bands))
      ensures WantSet(tags, bands) == old(WantSet(tags, bands)) && FullSet(tags, bands) == old(FullSet(tags, bands))
      ensures tags[i] == 0 ==> !bands[i].wasfull
    {
      hide WantSet, FullSet;
      i := FindServing(band, ms);
      if i < |bands| { return; }
      var j := FindFree(ms);
      i := Blank(j, ms);
    }

    /** The record before j is wiped, or a new one made. */
    method Blank(j: nat, ghost ms: seq<Mblk>) returns (i: nat)
      requires AllOk(ms) && Index(tags, bands, ms) && j <= |bands| && (0 < j ==> bands[j - 1].first == null)
      modifies this`bands, this`tags
      ensures Index(tags, bands, ms) && i == if j == 0 then |old(bands)| else j - 1
      ensures i < |tags| == |bands| && tags[i] == 0 && bands[i] == QBand(null, null, 0, false, false, false)
      ensures if j > 0 then tags == old(tags) && bands == old(bands)[i := bands[i]]
              else tags == old(tags) + [0] && bands == old(bands) + [bands[i]]
      ensures WantSet(tags, bands) == old(WantSet(tags, bands)) && FullSet(tags, bands) == old(FullSet(tags, bands))
    {
      hide WantSet, FullSet;
      var blank := QBand(null, null, 0, false, false, false);
      IndexTags(tags, bands, ms);
      if j == 0 {
        Wiped(tags, bands, ms, |bands|, blank);
        AddRecord(tags, bands, blank);
        i := |bands|;
        bands, tags := bands + [blank], tags + [0];
      } else {
        i := j - 1;
        RecordBand(tags, bands, ms, i);
        assert RecordOk(tags[i], bands[i], ms);
        Wiped(tags, bands, ms, i, blank);
        SetRecord(tags, bands, i, 0, blank);
        assert tags[i := 0] == tags;
        bands := bands[i := blank];
      }
    }

    /** ins_before. */
    method InsBefore(before: Mblk?, mp: Mblk, ghost p: nat)
      requires Linked() && p <= |msgs| && before == At(msgs, p) && mp !in msgs && mp.Ok()
      modifies this`first, this`last, this`msgs, mp`next, mp`prev, msgs`next, msgs`prev
      ensures Linked() && p <= |old(msgs)| && msgs == Ins(old(msgs), p, mp)
    {
      ghost var ms := msgs;
      assert p < |ms| ==> before == ms[p] && before.prev == At(ms, p - 1);
      if first == null {
        assert ms == [];
        mp.prev, mp.next := null, null;
        first, last := mp, mp;
      } else if before == null {
        last.next := mp;
        mp.prev := last;
        last := mp;
        mp.next := null;
      } else {
        mp.next := before;
        mp.prev := before.prev;
        if before.prev != null {
          before.prev.next := mp;
        } else {
          first := mp;
        }
        before.prev := mp;
      }
      assert SplicedAt(ms, p, mp);
      hide Links;
      Spliced(ms, p, mp);
      msgs := Ins(ms, p, mp);
    }

    /** find_q_spot_tail: the place after the last message of mp's class. */
    method FindSpotTail(mp: Mblk) returns (spot: Mblk?, ghost p: nat)
      requires Linked() && Sorted(Keys(msgs)) && mp.Ok() && mp !in msgs
      modifies mp`band
      ensures mp.Ok() && p <= |msgs| && p == Tail(Keys(msgs), mp.key) && spot == At(msgs, p)
      ensures mp.band == if mp.Hi() && old(first) != null then 0 else old(mp.band)
    {
      ghost var ks := Keys(msgs);
      if first == null { return null, 0; }
      var msgClass := mp.band;
      if mp.Hi() { mp.band := 0; }
      if last.Hi() || (!mp.Hi() && msgClass <= last.band) {
        TailIs(ks, mp.key, |msgs|);
        return null, |msgs|;
      }
      spot, p := first, 0;
      while spot != null && spot.Hi()
        invariant p <= |msgs| && spot == At(msgs, p) && Linked() && mp.Ok()
        invariant forall i :: 0 <= i < p ==> ks[i] == HIGH
        decreases |msgs| - p
      {
        spot, p := spot.next, p + 1;
      }
      assert p < |ks| ==> msgs[p].Ok() && ks[p] < HIGH;
      if !mp.Hi() {
        while spot != null && spot.band >= msgClass
          invariant p <= |msgs| && spot == At(msgs, p) && Linked() && mp.Ok()
          invariant forall i :: p <= i < |ks| ==> ks[i] < HIGH
          invariant forall i :: 0 <= i < p ==> ks[i] >= mp.key
          decreases |msgs| - p
        {
          spot, p := spot.next, p + 1;
        }
      }
      TailIs(ks, mp.key, p);
    }

    /** find_q_spot_head: the place before the first message of mp's class. */
    method FindSpotHead(mp: Mblk) returns (spot: Mblk?, ghost p: nat)
      requires Linked() && Sorted(Keys(msgs)) && mp.Ok() && mp !in msgs
      modifies mp`band
      ensures mp.Ok() && p <= |msgs| && p == Head(Keys(msgs), mp.key) && spot == At(msgs, p)
      ensures mp.band == if mp.Hi() && old(first) != null then 0 else old(mp.band)
    {
      ghost var ks := Keys(msgs);
      if first == null { return null, 0; }
      var msgClass := mp.band;
      if mp.Hi() { mp.band := 0; }
      if mp.Hi() || (!first.Hi() && msgClass >= first.band) {
        HeadIs(ks, mp.key, 0);
        return first, 0;
      }
      spot, p := first, 0;
      while spot != null && spot.Hi()
        invariant p <= |msgs| && spot == At(msgs, p) && Linked() && mp.Ok()
        invariant forall i :: 0 <= i < p ==> ks[i] == HIGH
        decreases |msgs| - p
      {
        spot, p := spot.next, p + 1;
      }
      assert p < |ks| ==> msgs[p].Ok() && ks[p] < HIGH;
      while spot != null && spot.band > msgClass
        invariant p <= |msgs| && spot == At(msgs, p) && Linked() && mp.Ok()
        invariant forall i :: p <= i < |ks| ==> ks[i] < HIGH
        invariant forall i :: 0 <= i < p ==> ks[i] > mp.key
        decreases |msgs| - p
      {
        spot, p := spot.next, p + 1;
      }
      HeadIs(ks, mp.key, p);
    }

    /** The record of mp's band once mp is in the list. */
    method Grow(record: QBand, mp: Mblk, ghost ms: seq<Mblk>, ghost p: nat, ghost tag: nat) returns (r: QBand)
      requires lowat < hiwat && BandFlags(record, hiwat, lowat)
      requires Sorted(Keys(ms)) && p <= |ms| && Spot(Keys(ms), p, mp.key) && mp.Banded()
      requires forall i, j :: 0 <= i < j < |ms| ==> ms[i] != ms[j]
      requires mp.next == At(ms, p) && mp.prev == At(ms, p - 1)
      requires RecordOk(tag, record, ms) && (tag == mp.key || (tag == 0 && Run(ms, mp.key) == []))
      ensures Grown(record, r, ms, p, mp) && BandFlags(r, hiwat, lowat) && r.wantw == record.wantw
      ensures r.wasfull == (record.wasfull || r.count > hiwat)
    {
      r := record.(count := record.count + mp.size);
      if r.count > hiwat { r := r.(full := true, wasfull := true); }
      if r.first == null {
        r := r.(first := mp);
      } else if mp.next == r.first {
        r := r.(first := mp);
      }
      if r.last == null {
        r := r.(last := mp);
      } else if mp.prev == r.last {
        r := r.(last := mp);
      }
      Neighbours(ms, p, mp, tag, record);
    }

    /** The band part of updatequeue. */
    method UpdateBand(mp: Mblk, ghost ms: seq<Mblk>, ghost p: nat)
      requires Links(msgs) && Sorted(Keys(ms)) && mp.Ok() && mp.Banded() && Index(tags, bands, ms)
      requires p <= |ms| && Spot(Keys(ms), p, mp.key) && msgs == Ins(ms, p, mp)
      requires lowat < hiwat && UsedFlags(tags, bands, hiwat, lowat)
      modifies this`bands, this`tags
      ensures Index(tags, bands, msgs) && UsedFlags(tags, bands, hiwat, lowat)
      ensures old(AllFlags(bands, hiwat, lowat)) ==> AllFlags(bands, hiwat, lowat)
      ensures Wanted(bands) ==> old(Wanted(bands))
      ensures forall sp :: old(Reused(tags, bands, sp)) ==> Reused(tags, bands, sp)
      ensures WantSet(tags, bands) == old(WantSet(tags, bands))
      ensures FullSet(tags, bands)
           == old(FullSet(tags, bands)) + if Bytes(Run(msgs, mp.key)) > hiwat then {mp.key} else {}
    {
      hide Sorted, Unbanded, Grown, Serves, BandFlags, AllFlags, UsedFlags, Wanted, Run, Links, Spot, Free;
      hide Keys, Reused, WantSet, FullSet, Bytes;
      OkBefore(ms, p, mp);
      ghost var tags0, bands0 := tags, bands;
      var i := FindQband(mp.band, ms);
      ghost var tags1, bands1 := tags, bands;
      assert RecordOk(tags1[i], bands1[i], ms);
      var r := Grow(bands[i], mp, ms, p, tags[i]);
      InsBanded(tags1, bands1, ms, p, mp, i, r);
      FlagsAfter(tags1, bands1, i, r, hiwat, lowat, mp.key);
      StaysReused(tags0, bands0, tags1, bands1, i, mp.key, r);
      IndexTags(tags1, bands1, ms);
      SetRecord(tags1, bands1, i, mp.key, r);
      IndexTags(tags1[i := mp.key], bands1[i := r], msgs);
      assert tags1[i := mp.key][i] == mp.key && bands1[i := r][i] == r;
      bands, tags := bands[i := r], tags[i := mp.key];
    }

    /** updatequeue, after mp was put at place p of ms, or (without bandPtrs) on the deferred list. */
    method UpdateQueue(mp: Mblk, fromInsq: bool, bandPtrs: bool, ghost ms: seq<Mblk>, ghost p: nat)
      requires Links(msgs) && Sorted(Keys(ms)) && mp.Ok() && Index(tags, bands, ms)
      requires bandPtrs ==> p <= |ms| && Spot(Keys(ms), p, mp.key) && msgs == Ins(ms, p, mp)
      requires !bandPtrs ==> !mp.Banded() && msgs == ms
      requires lowat < hiwat && UsedFlags(tags, bands, hiwat, lowat)
      modifies this`count, this`full, this`wasfull, this`bands, this`tags, this`enables
      ensures Index(tags, bands, msgs) && UsedFlags(tags, bands, hiwat, lowat)
      ensures old(AllFlags(bands, hiwat, lowat)) ==> AllFlags(bands, hiwat, lowat)
      ensures Wanted(bands) ==> old(Wanted(bands))
      ensures FlowNow() == AfterPut(old(FlowNow()), mp, Load(mp, msgs), hiwat)
      ensures count == old(count) + (if mp.Banded() then 0 else mp.size)
      ensures bandPtrs ==> count - old(count) == Unbanded(msgs) - Unbanded(ms)
      ensures enables == old(enables) + if fromInsq && noenb then 0 else if mp.Hi() || (!noenb && wantr) then 1 else 0
      ensures forall sp :: old(Reused(tags, bands, sp)) ==> Reused(tags, bands, sp)
    {
      hide Reused, WantSet, FullSet, Index, UsedFlags, AllFlags, Links, Sorted, Keys, Spot, Unbanded, Run, Bytes;
      hide Wanted;
      if mp.Hi() || mp.band == 0 {
        count := count + mp.size;
        if count > hiwat { full, wasfull := true, true; }
        if bandPtrs { InsUnbanded(tags, bands, ms, p, mp); }
      } else {
        UpdateBand(mp, ms, p);
        ForgetBanded(ms, p, mp);
      }
      if fromInsq && noenb { return; }
      if mp.Hi() || (!noenb && wantr) { enables := enables + 1; }
    }

    /** The record of mp's band as adjust_q_count leaves it, before chk_band. */
    method Shrink(record: QBand, mp: Mblk, ghost p: nat) returns (r: QBand)
      requires Links(msgs) && Sorted(Keys(msgs)) && p < |msgs| && msgs[p] == mp && mp.Banded()
      requires Serves(record, mp.key, msgs)
      ensures Shrunk(record, r, Del(msgs, p), p, mp)
      ensures r.full == record.full && r.wasfull == record.wasfull && r.wantw == record.wantw
      ensures r.count == record.count - mp.size
    {
      ghost var a, b := Run(msgs[..p], mp.key), Run(msgs[p + 1..], mp.key);
      Surroundings(msgs, p, mp, record, a, b);
      r := record.(count := record.count - mp.size);
      if r.first == mp {
        if mp.next != null && mp.next.band == mp.band {
          r := r.(first := mp.next);
        } else {
          r := r.(first := null, last := null);
        }
      }
      if r.last == mp {
        if mp.prev != null && mp.prev.band == mp.band {
          r := r.(last := mp.prev);
        } else {
          r := r.(first := null, last := null);
        }
      }
    }

    /** chk_band. */
    method ChkBand(i: nat)
      requires i < |bands|
      modifies this`bands, this`wantw, this`back
      ensures bands == old(bands)[i := Checked(old(bands)[i], hiwat, lowat)]
      ensures wantw == (old(wantw) || (Drained(old(bands)[i], lowat) && old(bands)[i].wantw))
      ensures back == (old(back) || Drained(old(bands)[i], lowat))
    {
      var r := bands[i];
      if r.count <= hiwat { r := r.(full := false); }
      if r.wasfull && r.count <= lowat {
        r := r.(wasfull := false);
        if r.wantw {
          r := r.(wantw := false);
          wantw := true;
        }
        back := true;
      }
      bands := bands[i := r];
    }

    /** The band part of adjust_q_count, for the message at place p, which is still linked. */
    method AdjustBand(mp: Mblk, ghost p: nat)
      requires Links(msgs) && Sorted(Keys(msgs)) && p < |msgs| && msgs[p] == mp && mp.Banded()
      requires lowat < hiwat && Index(tags, bands, msgs) && AllFlags(bands, hiwat, lowat)
      modifies this`bands, this`tags, this`wantw, this`back
      ensures Index(tags, bands, Del(msgs, p)) && AllFlags(bands, hiwat, lowat) && UsedFlags(tags, bands, hiwat, lowat)
      ensures FlowNow() == AfterRmv(old(FlowNow()), mp, Bytes(Run(Del(msgs, p), mp.key)), hiwat, lowat)
    {
      hide Sorted, Unbanded, Serves, Shrunk, Bytes, Wanted, Free, Links, AllOk, Index, AllFlags, UsedFlags, BandFlags;
      OfSome(msgs, Keys(msgs), mp.key, p);
      assert Run(msgs, mp.key) != [];
      hide WantSet, FullSet, Run;
      LinksOk(msgs);
      SameLength(tags, bands, msgs, mp.key);
      AllUsed(tags, bands, hiwat, lowat);
      var i := FindQband(mp.band, msgs);
      ghost var n, bands0, tags0 := Del(msgs, p), bands, tags;
      KeysDel(msgs, p);
      ServesHere(tags, bands, msgs, i);
      var r := Shrink(bands[i], mp, p);
      DelBanded(tags, bands, n, p, mp, i, r);
      bands, tags := bands[i := r], tags[i := if Run(n, mp.key) == [] then 0 else mp.key];
      SameButFlags(tags, bands, n, i, Checked(r, hiwat, lowat));
      ShrunkFlags(tags, bands0, i, r, hiwat, lowat);
      LeftOver(tags, bands, n, i, mp.key);
      WaitsOnlyIfFull(bands0, i, hiwat, lowat);
      IndexTags(tags0, bands0, msgs);
      AdjustedFlow(old(FlowNow()), tags0, bands0, i, tags[i], r, mp, hiwat, lowat);
      assert bands[i := Checked(r, hiwat, lowat)] == bands0[i := Checked(r, hiwat, lowat)];
      ChkBand(i);
    }

    /** adjust_q_count, for the message at place p, which is still linked. */
    method AdjustQCount(mp: Mblk, ghost p: nat)
      requires Valid() && p < |msgs| && msgs[p] == mp
      modifies this`bands, this`tags, this`wantw, this`back, this`wantr, this`count, this`full, this`wasfull
      ensures Index(tags, bands, Del(msgs, p)) && AllFlags(bands, hiwat, lowat) && UsedFlags(tags, bands, hiwat, lowat)
      ensures count == Unbanded(Del(msgs, p)) + Bytes(deferred)
      ensures MainFlags(count, full, wasfull, wantw, back, hiwat, lowat) && !wantr
      ensures FlowNow() == AfterRmv(old(FlowNow()), mp, Load(mp, Del(msgs, p)), hiwat, lowat)
    {
      hide Index, Sorted, Unbanded, Keys, WantSet, FullSet;
      assert mp.Ok();
      wantr := false;
      ghost var n := Del(msgs, p);
      KeysDel(msgs, p);
      if !mp.Hi() && mp.band > 0 {
        AdjustBand(mp, p);
        ForgetBanded(n, p, mp);
      } else {
        InsUnbanded(tags, bands, n, p, mp);
        count := count - mp.size;
        if count < hiwat { full := false; }
        if wasfull && count <= lowat { back, wasfull := true, false; }
      }
    }

    /** The links around mp. */
    method Bypass(mp: Mblk, ghost p: nat)
      requires Linked() && p < |msgs| && msgs[p] == mp
      modifies this`first, this`last, msgs`next, msgs`prev
      ensures UnsplicedAt(msgs, p) && mp.next == null && mp.prev == null
      ensures first == At(msgs, if p == 0 then 1 else 0)
      ensures last == At(msgs, if p == |msgs| - 1 then p - 1 else |msgs| - 1)
    {
      assert mp.next == At(msgs, p + 1) && mp.prev == At(msgs, p - 1);
      if mp.prev != null {
        mp.prev.next := mp.next;
      } else {
        first := mp.next;
      }
      if mp.next != null {
        mp.next.prev := mp.prev;
      } else {
        last := mp.prev;
      }
      mp.prev, mp.next := null, null;
    }

    /** The unlinking of rmv_msg. */
    method Unlink(mp: Mblk, ghost p: nat)
      requires Linked() && p < |msgs| && msgs[p] == mp
      modifies this`first, this`last, this`msgs, msgs`next, msgs`prev
      ensures Linked() && p < |old(msgs)| && msgs == Del(old(msgs), p) && mp.next == null && mp.prev == null
    {
      hide UnsplicedAt, Links;
      ghost var ms := msgs;
      Bypass(mp, p);
      Unspliced(ms, p);
      msgs := Del(ms, p);
    }

    /** rmv_msg, for the message at place p. */
    method RmvMsg(mp: Mblk, ghost p: nat)
      requires Valid() && Remembered() && p < |msgs| && msgs[p] == mp
      modifies this`bands, this`tags, this`wantw, this`back, this`wantr, this`count, this`full, this`wasfull
      modifies this`first, this`last, this`msgs, msgs`next, msgs`prev
      ensures Valid() && Remembered() && msgs == Del(old(msgs), p) && mp.next == null && mp.prev == null
      ensures !wantr && FlowNow() == AfterRmv(old(FlowNow()), mp, Load(mp, msgs), hiwat, lowat)
    {
      hide Index, AllFlags, Keys, Unbanded, MainFlags, UsedFlags, Sorted, Wanted, Links, Linked, Bytes, Run;
      hide WantSet, FullSet;
      AdjustQCount(mp, p);
      KeysDel(msgs, p);
      Unlink(mp, p);
    }

    /** lis_backenable up to its search, which Plumbing models: it is due iff a writer waits (or the queue closes) and
        there is room. */
    method BackEnable()
      modifies this`wantw, this`back, this`searches, this`refused
      ensures FlowNow() == AfterSearch(old(FlowNow()), closewt, count, lowat)
    {
      if ((wantw && back) || closewt) && count <= lowat {
        wantw, back, refused := false, false, {};
        searches := searches + 1;
      }
    }

    /** lis_getq. Draining the queue to its low water mark leaves no writer waiting unserved. */
    method GetQ() returns (r: Mblk?)
      requires Valid() && Remembered()
      modifies this`bands, this`tags, this`wantw, this`back, this`wantr, this`count, this`full, this`wasfull
      modifies this`first, this`last, this`msgs, this`searches, this`refused, msgs`next, msgs`prev
      ensures Valid() && Remembered()
      ensures closing ==> r == null && msgs == old(msgs) && FlowNow() == old(FlowNow()) && wantr == old(wantr)
      ensures !closing && old(msgs) == [] ==> r == null && msgs == [] && wantr
      ensures !closing && old(msgs) == [] ==>
                FlowNow() == AfterSearch(old(FlowNow()).(back := true), closewt, count, lowat)
      ensures !closing && old(msgs) != [] ==> r == old(msgs)[0] && msgs == old(msgs)[1..] && !wantr
      ensures !closing && old(msgs) != [] ==>
                var flow := AfterRmv(old(FlowNow()), r, Load(r, msgs), hiwat, lowat);
                FlowNow() == AfterSearch(flow, closewt, count, lowat)
      ensures !closing && count <= lowat ==> !wantw && (old(wantw) ==> searches == old(searches) + 1)
      ensures !closing && count <= lowat && old(refused) - WantSet(tags, bands) != {} ==> searches == old(searches) + 1
    {
      hide Index, AllFlags, Keys, Unbanded, UsedFlags, Sorted, Wanted, Bytes, Links, Run, WantSet, FullSet;
      FirstOrEmpty();
      if closing { return null; }
      if first == null {
        wantr, back := true, true;
        r := null;
      } else {
        r := first;
        TakeOut(first, 0);
        return;
      }
      BackEnable();
    }

    /** rmv_msg and lis_backenable. */
    method TakeOut(mp: Mblk, ghost p: nat)
      requires Valid() && Remembered() && p < |msgs| && msgs[p] == mp
      modifies this`bands, this`tags, this`wantw, this`back, this`wantr, this`count, this`full, this`wasfull
      modifies this`first, this`last, this`msgs, this`searches, this`refused, msgs`next, msgs`prev
      ensures Valid() && Remembered() && msgs == Del(old(msgs), p) && !wantr
      ensures var flow := AfterRmv(old(FlowNow()), mp, Load(mp, msgs), hiwat, lowat);
              FlowNow() == AfterSearch(flow, closewt, count, lowat)
      ensures count <= lowat ==> !wantw && (old(wantw) ==> searches == old(searches) + 1)
      ensures count <= lowat && old(refused) - WantSet(tags, bands) != {} ==> searches == old(searches) + 1
    {
      hide Index, AllFlags, Keys, Unbanded, UsedFlags, Sorted, Wanted, Bytes, Run, WantSet, FullSet, Links, Linked, Del;
      RmvMsg(mp, p);
      BackEnable();
    }

    method Search(mp: Mblk) returns (bp: Mblk?, ghost p: nat)
      requires Linked()
      ensures if mp in msgs then bp == mp && p < |msgs| && msgs[p] == mp else bp == null
    {
      bp, p := first, 0;
      while bp != null && bp != mp
        invariant p <= |msgs| && bp == At(msgs, p)
        invariant mp !in msgs[..p]
        decreases |msgs| - p
      {
        bp, p := bp.next, p + 1;
      }
    }

    /** lis_rmvq: it searches for the message first. */
    method RmvQ(mp: Mblk)
      requires Valid() && Remembered()
      modifies this`bands, this`tags, this`wantw, this`back, this`wantr, this`count, this`full, this`wasfull
      modifies this`first, this`last, this`msgs, this`searches, this`refused, msgs`next, msgs`prev
      ensures Valid() && Remembered()
      ensures closing || mp !in old(msgs) ==> msgs == old(msgs) && FlowNow() == old(FlowNow())
      ensures !closing && mp in old(msgs) ==>
                exists p :: 0 <= p < |old(msgs)| && old(msgs)[p] == mp && msgs == Del(old(msgs), p)
      ensures !closing && mp in old(msgs) ==>
                var flow := AfterRmv(old(FlowNow()), mp, Load(mp, msgs), hiwat, lowat);
                FlowNow() == AfterSearch(flow, closewt, count, lowat)
      ensures !closing && mp in old(msgs) && count <= lowat ==> !wantw && (old(wantw) ==> searches == old(searches) + 1)
      ensures !closing && mp in old(msgs) && count <= lowat && old(refused) - WantSet(tags, bands) != {} ==>
                searches == old(searches) + 1
    {
      hide Index, AllFlags, Keys, Unbanded, UsedFlags, Sorted, Wanted, Bytes, Run, WantSet, FullSet, Links;
      if closing { return; }
      var bp, p := Search(mp);
      if bp == null { return; }
      TakeOut(bp, p);
    }

    /** The part of lis_bcanput for a band. */
    method BandCanPut(band: nat) returns (ok: bool)
      requires AllOk(msgs) && Index(tags, bands, msgs) && 1 <= band <= MAX_BAND
      requires UsedFlags(tags, bands, hiwat, lowat) && AllFlags(bands, hiwat, lowat)
      modifies this`bands, this`tags
      ensures Index(tags, bands, msgs) && UsedFlags(tags, bands, hiwat, lowat) && AllFlags(bands, hiwat, lowat)
      ensures ok <==> Bytes(Run(msgs, band)) <= hiwat
      ensures WantSet(tags, bands) == old(WantSet(tags, bands)) + if ok then {} else {band}
      ensures FullSet(tags, bands) == old(FullSet(tags, bands))
    {
      hide Links, Of, Sum, WantSet, FullSet;
      var i := FindQband(band, msgs);
      assert RecordOk(tags[i], bands[i], msgs);
      if bands[i].full {
        IndexTags(tags, bands, msgs);
        SetRecord(tags, bands, i, tags[i], bands[i].(wantw := true));
        assert tags[i := tags[i]] == tags;
        SameButFlags(tags, bands, msgs, i, bands[i].(wantw := true));
        bands := bands[i := bands[i].(wantw := true)];
        return false;
      }
      BandEmpty(tags, msgs, band, i);
      return true;
    }

    /** The test of lis_bcanput on the queue the forward search stopped at. */
    method BCanPut(band: nat) returns (ok: bool)
      requires Valid() && Remembered() && band <= MAX_BAND
      modifies this`bands, this`tags, this`wantw, this`refused
      ensures Valid() && Remembered()
      ensures ok == if band == 0 then !full else Bytes(Run(msgs, band)) <= hiwat
      ensures FlowNow() == if ok then old(FlowNow()) else AfterRefusal(old(FlowNow()), band)
      ensures band == 0 ==> bands == old(bands)
    {
      hide Index, Unbanded, Sorted, Keys, Wanted, UsedFlags, AllFlags, Run, Bytes, WantSet, FullSet;
      if band > 0 {
        ok := BandCanPut(band);
      } else {
        ok := !full;
        if full { wantw := true; }
      }
      if !ok { refused := refused + {band}; }
    }

    /** ins_before and updatequeue, which always follow each other. */
    method Insert(spot: Mblk?, mp: Mblk, fromInsq: bool, ghost p: nat)
      requires Sound() && mp.Ok() && mp !in msgs && p <= |msgs| && spot == At(msgs, p)
      requires Spot(Keys(msgs), p, mp.key)
      modifies this`bands, this`tags, this`count, this`full, this`wasfull, this`enables
      modifies this`first, this`last, this`msgs
      modifies mp`next, mp`prev, msgs`next, msgs`prev
      ensures Sound() && p <= |old(msgs)| && msgs == Ins(old(msgs), p, mp)
      ensures old(Valid()) ==> Valid()
      ensures old(Valid() && Remembered()) ==> Remembered()
      ensures enables == old(enables) + if fromInsq && noenb then 0 else if mp.Hi() || (!noenb && wantr) then 1 else 0
      ensures Wanted(bands) ==> old(Wanted(bands))
      ensures FlowNow() == AfterPut(old(FlowNow()), mp, Load(mp, msgs), hiwat)
      ensures count == old(count) + if mp.Banded() then 0 else mp.size
      ensures forall sp :: old(Reused(tags, bands, sp)) ==> Reused(tags, bands, sp)
    {
      hide Index, AllFlags, Keys, Unbanded, UsedFlags, Sorted, Wanted, Bytes, Links, Spot, Reused, Run;
      hide WantSet, FullSet;
      ghost var ms := msgs;
      InsBefore(spot, mp, p);
      InsSorted(ms, p, mp);
      UpdateQueue(mp, fromInsq, true, ms, p);
    }

    /** lis_putq. A closing queue frees the message. */
    method PutQ(mp: Mblk) returns (ok: bool)
      requires Sound() && mp.Ok() && mp !in msgs
      modifies this`bands, this`tags, this`count, this`full, this`wasfull, this`enables
      modifies this`first, this`last, this`msgs
      modifies this`released, mp, msgs`next, msgs`prev
      ensures Sound() && mp.Ok() && ok == !closing
      ensures old(Valid()) ==> Valid()
      ensures old(Valid() && Remembered()) ==> Remembered()
      ensures !ok ==> msgs == old(msgs) && enables == old(enables) && released == old(released) + [mp]
      ensures ok ==> msgs == Ins(old(msgs), Tail(Keys(old(msgs)), mp.key), mp) && released == old(released)
      ensures ok ==> enables == old(enables) + if mp.Hi() || (!noenb && wantr) then 1 else 0
      ensures mp.band == if ok && mp.Hi() && old(first) != null then 0 else old(mp.band)
      ensures FlowNow() == if ok then AfterPut(old(FlowNow()), mp, Load(mp, msgs), hiwat) else old(FlowNow())
      ensures count == old(count) + if !ok || mp.Banded() then 0 else mp.size
      ensures Wanted(bands) ==> old(Wanted(bands))
      ensures forall sp :: old(Reused(tags, bands, sp)) ==> Reused(tags, bands, sp)
    {
      hide Index, AllFlags, Keys, Unbanded, UsedFlags, Sorted, Wanted, Bytes, Links, MainFlags, Reused, Run;
      hide WantSet, FullSet;
      if closing {
        released := released + [mp];
        return false;
      }
      var spot, p := FindSpotTail(mp);
      Bounds0(Keys(msgs), mp.key);
      Insert(spot, mp, false, p);
      return true;
    }

    /** lis_putbq. */
    method PutBq(mp: Mblk) returns (ok: bool)
      requires Sound() && mp.Ok() && mp !in msgs
      modifies this`bands, this`tags, this`count, this`full, this`wasfull, this`enables
      modifies this`first, this`last, this`msgs
      modifies mp, msgs`next, msgs`prev
      ensures Sound() && mp.Ok() && ok == !closing
      ensures old(Valid()) ==> Valid()
      ensures old(Valid() && Remembered()) ==> Remembered()
      ensures !ok ==> msgs == old(msgs) && enables == old(enables)
      ensures ok ==> msgs == Ins(old(msgs), Head(Keys(old(msgs)), mp.key), mp)
      ensures ok ==> enables == old(enables) + if mp.Hi() || (!noenb && wantr) then 1 else 0
      ensures mp.band == if ok && mp.Hi() && old(first) != null then 0 else old(mp.band)
      ensures FlowNow() == if ok then AfterPut(old(FlowNow()), mp, Load(mp, msgs), hiwat) else old(FlowNow())
    {
      hide Index, AllFlags, Keys, Unbanded, UsedFlags, Sorted, Wanted, Bytes, Links, MainFlags, Reused, Run;
      hide WantSet, FullSet;
      if closing { return false; }
      var spot, p := FindSpotHead(mp);
      Bounds0(Keys(msgs), mp.key);
      Insert(spot, mp, false, p);
      return true;
    }

    /** lis_getq, then lis_putbq of what it returned: the queue is as it was. */
    method GetThenPutBack() returns (mp: Mblk)
      requires Valid() && Remembered() && !closing && msgs != []
      modifies this`bands, this`tags, this`wantw, this`back, this`wantr, this`count
      modifies this`full, this`wasfull, this`enables
      modifies this`first, this`last, this`msgs, this`searches, this`refused, msgs
      ensures Valid() && Remembered() && msgs == old(msgs) && mp == old(msgs)[0]
    {
      hide Sound, AllFlags, Remembered, Head, Tail, Ins, Keys, Wanted, Reused;
      FirstGoesBack();
      mp := GetQ();
      var ok := PutBq(mp);
    }

    lemma FirstGoesBack()
      requires Valid() && msgs != []
      ensures msgs[0].Ok() && msgs[0] !in msgs[1..]
      ensures Ins(msgs[1..], Head(Keys(msgs[1..]), msgs[0].key), msgs[0]) == msgs
    {
      hide Index, AllFlags, Unbanded, UsedFlags, Bytes, MainFlags, Head, Ins, Sorted;
      TakeThenPutBack(msgs, Keys(msgs));
      assert Keys(msgs)[1..] == Keys(msgs[1..]);
    }

    /** lis_insq, for an ordinary message to be put before emp, the message at place p. */
    method InsQ(emp: Mblk, mp: Mblk, ghost p: nat) returns (ok: bool)
      requires Valid() && Remembered() && mp.Ok() && !mp.Hi() && mp !in msgs && p < |msgs| && msgs[p] == emp
      modifies this`bands, this`tags, this`count, this`full, this`wasfull, this`enables
      modifies this`first, this`last, this`msgs
      modifies mp`next, mp`prev, msgs`next, msgs`prev
      ensures Valid() && Remembered()
      ensures ok <==> !closing && old(Sorted(Ins(Keys(msgs), p, mp.key)) && !AfterHigh(msgs, p, mp))
      ensures p <= |old(msgs)| && msgs == if ok then Ins(old(msgs), p, mp) else old(msgs)
      ensures enables == old(enables) + if ok && !noenb && wantr then 1 else 0
      ensures FlowNow() == if ok then AfterPut(old(FlowNow()), mp, Load(mp, msgs), hiwat) else old(FlowNow())
    {
      hide Index, AllFlags, Unbanded, UsedFlags, Wanted, Bytes, MainFlags, Reused, Run, WantSet, FullSet;
      if closing { return false; }
      InsqGuard(msgs, p, mp);
      if emp.Hi() || mp.band < emp.band || (emp.prev != null && mp.band > emp.prev.band) { return false; }
      Insert(emp, mp, true, p);
      return true;
    }

    /** The linking of lis_defer_msg. */
    method AppendDeferred(mp: Mblk)
      requires DeferLinked() && mp.Ok() && mp !in msgs && mp !in deferred
      modifies this`deferHead, this`deferTail, this`deferred, mp`next, mp`prev, deferred`next
      ensures DeferLinked() && mp.Ok() && unchanged(msgs)
      ensures deferred == old(deferred) + [mp] && Bytes(deferred) == Bytes(old(deferred)) + mp.size
    {
      hide Bytes;
      ghost var df := deferred;
      assert deferTail != null ==> deferTail in df && deferTail !in msgs;
      mp.prev := null;
      mp.next := null;
      if deferHead == null { deferHead := mp; }
      if deferTail != null { deferTail.next := mp; }
      deferTail := mp;
      BytesIns(df, |df|, mp);
      assert Ins(df, |df|, mp) == df + [mp];
      deferred := df + [mp];
    }

    /** lis_defer_msg without retry, for a message outside the bands. */
    method DeferMsg(mp: Mblk)
      requires Valid() && Remembered() && DeferLinked() && mp.Ok() && !mp.Banded() && mp !in msgs && mp !in deferred
      modifies this`count, this`full, this`wasfull, this`bands, this`tags, this`enables
      modifies this`deferHead, this`deferTail, this`deferred, mp`next, mp`prev, deferred`next
      ensures Valid() && Remembered() && DeferLinked() && deferred == old(deferred) + [mp]
      ensures FlowNow() == AfterPut(old(FlowNow()), mp, count, hiwat)
      ensures enables == old(enables) + if !noenb && (mp.Hi() || wantr) then 1 else 0
    {
      hide Index, AllFlags, Keys, Unbanded, UsedFlags, Sorted, Wanted, Links, Chain, Reused, WantSet, FullSet;
      AppendDeferred(mp);
      UpdateQueue(mp, true, false, msgs, 0);
    }

    /** The body of the loop of flush_worker. */
    method FlushOne(mp: Mblk, band: int, flushAll: bool)
      requires Sound() && mp.Ok() && mp !in msgs
      modifies this`bands, this`tags, this`count, this`full, this`wasfull, this`enables
      modifies this`first, this`last, this`msgs
      modifies this`released, mp, msgs`next, msgs`prev
      ensures Sound()
      ensures forall sp :: old(Reused(tags, bands, sp)) ==> Reused(tags, bands, sp)
      ensures old(Fresh()) ==> Fresh()
      ensures var picked := Picked(mp.kind, old(mp.band), band, flushAll);
        && released == old(released) + (if picked then [mp] else if closing then [mp, mp] else [])
        && msgs == if picked || closing then old(msgs) else Ins(old(msgs), Tail(Keys(old(msgs)), mp.key), mp)
      ensures forall m :: m in msgs ==> m == mp || m in old(msgs)
      ensures enables >= old(enables)
    {
      hide Index, AllFlags, Keys, Unbanded, UsedFlags, Sorted, Wanted, Bytes, Links, MainFlags, Reused, Run;
      hide WantSet, FullSet;
      mp.next := null;
      if Picked(mp.kind, mp.band, band, flushAll) {
        released := released + [mp];
      } else {
        ghost var was, flow, bytes := msgs, FlowNow(), count;
        var ok := PutQ(mp);
        StepPut(was, mp, []);
        if ok && FreshFlow(flow, was, bytes, hiwat) {
          FreshAfterPut(flow, was, Tail(Keys(was), mp.key), mp, bytes, hiwat);
        }
        if ok { InsMembers(was, Tail(Keys(was), mp.key), mp); }
        if !ok { released := released + [mp]; }
      }
    }

    /** One pass of the loop of flush_worker: what the selection picks is freed, the rest goes through lis_putq. */
    method FlushNext(mp: Mblk, band: int, flushAll: bool, ghost ms: seq<Mblk>, ghost bs: seq<nat>)
        returns (next: Mblk?)
      requires Sound() && ms != [] && |ms| == |bs| && Chain(ms) && mp == First(ms) && BandsAre(ms, bs)
      requires forall m :: m in ms ==> m !in msgs
      modifies this`bands, this`tags, this`count, this`full, this`wasfull, this`enables
      modifies this`first, this`last, this`msgs, this`released, mp, msgs`next, msgs`prev
      ensures Sound() && Chain(ms[1..]) && BandsAre(ms[1..], bs[1..]) && next == First(ms[1..])
      ensures forall sp :: old(Reused(tags, bands, sp)) ==> Reused(tags, bands, sp)
      ensures old(Fresh()) ==> Fresh()
      ensures forall m :: m in msgs ==> m in old(msgs) || m == mp
      ensures forall m :: m in ms[1..] ==> m in ms && m !in msgs
      ensures closing ==> msgs == old(msgs)
      ensures !closing ==> var kept := Kept(ms[1..], bs[1..], band, flushAll);
                           PutMsgs(msgs, kept) == PutMsgs(old(msgs), Kept(ms, bs, band, flushAll))
      ensures released + Freed(ms[1..], bs[1..], band, flushAll, closing)
           == old(released) + Freed(ms, bs, band, flushAll, closing)
      ensures enables >= old(enables)
    {
      hide *;
      NextOf(ms, bs);
      StepKept(ms, bs, band, flushAll, closing);
      StepPut(msgs, mp, Kept(ms[1..], bs[1..], band, flushAll));
      next := mp.next;
      ghost var tail := ms[1..];
      assert mp in ms;
      assert forall j :: 0 <= j < |msgs| ==> msgs[j] in msgs;
      assert forall j :: 0 <= j < |tail| ==> tail[j] in tail;
      FlushOne(mp, band, flushAll);
    }

    /** The loop of flush_worker over one list. */
    method FlushList(list: Mblk?, band: int, flushAll: bool, ghost ms: seq<Mblk>, ghost bs: seq<nat>)
      requires Sound() && |ms| == |bs| && Chain(ms) && list == First(ms) && BandsAre(ms, bs)
      requires forall m :: m in ms ==> m !in msgs
      modifies this`bands, this`tags, this`count, this`full, this`wasfull, this`enables
      modifies this`first, this`last, this`msgs, this`released, ms, msgs
      ensures Sound()
      ensures forall sp :: old(Reused(tags, bands, sp)) ==> Reused(tags, bands, sp)
      ensures old(Fresh()) ==> Fresh()
      ensures forall m :: m in msgs ==> m in old(msgs) || m in ms
      ensures msgs == if closing then old(msgs) else PutMsgs(old(msgs), Kept(ms, bs, band, flushAll))
      ensures released == old(released) + Freed(ms, bs, band, flushAll, closing)
      ensures enables >= old(enables)
    {
      hide *;
      var mp := list;
      ghost var rest, rb := ms, bs;
      while mp != null
        invariant Sound()
        invariant forall sp :: old(Reused(tags, bands, sp)) ==> Reused(tags, bands, sp)
        invariant old(Fresh()) ==> Fresh()
        invariant |rest| == |rb| && Chain(rest) && BandsAre(rest, rb) && mp == First(rest)
        invariant forall m :: m in rest ==> m in ms && m !in msgs
        invariant forall m :: m in msgs ==> m in old(msgs) || m in ms
        invariant if closing then msgs == old(msgs)
                  else PutMsgs(msgs, Kept(rest, rb, band, flushAll)) == PutMsgs(old(msgs), Kept(ms, bs, band, flushAll))
        invariant released + Freed(rest, rb, band, flushAll, closing)
               == old(released) + Freed(ms, bs, band, flushAll, closing)
        invariant enables >= old(enables)
        decreases |rest|
      {
        assert mp in rest;
        assert forall j :: 0 <= j < |msgs| ==> msgs[j] in msgs;
        var next := FlushNext(mp, band, flushAll, rest, rb);
        mp, rest, rb := next, rest[1..], rb[1..];
      }
      NoneKept(msgs, rest, rb, band, flushAll, closing);
    }

    /** flush_worker empties every record but lets the marks for full bands and waiting writers stand. */
    method ClearBands()
      requires AllFlags(bands, hiwat, lowat)
      modifies this`bands, this`tags
      ensures Index(tags, bands, []) && UsedFlags(tags, bands, hiwat, lowat)
      ensures Reused(tags, bands, Wants(old(bands))) && FullSet(tags, bands) == {}
    {
      var j := |bands|;
      ghost var bands0 := bands;
      while 0 < j
        invariant 0 <= j <= |bands| == |bands0|
        invariant forall i :: 0 <= i < j ==> bands[i] == bands0[i]
        invariant forall i :: j <= i < |bands| ==> bands[i] == Cleared(bands0[i])
      {
        j := j - 1;
        bands := bands[j := bands[j].(first := null, last := null, count := 0, full := false)];
      }
      tags := seq(|bands|, _ => 0);
      Emptied(tags, bands0, bands, hiwat, lowat);
      assert ReusedBy(tags, bands, Wants(bands0), 0);
    }

    /** flush_worker finally runs chk_band on every record. */
    method ChkBands()
      requires lowat < hiwat && Index(tags, bands, msgs) && UsedFlags(tags, bands, hiwat, lowat)
      modifies this`bands, this`wantw, this`back
      ensures Index(tags, bands, msgs) && UsedFlags(tags, bands, hiwat, lowat) && AllFlags(bands, hiwat, lowat)
      ensures wantw == (old(wantw) || Freeing(old(bands), lowat))
      ensures old(back) || Freeing(old(bands), lowat) ==> back
      ensures |bands| == |old(bands)|
      ensures forall i :: 0 <= i < |bands| ==> bands[i] == Checked(old(bands)[i], hiwat, lowat)
    {
      hide Index, UsedFlags, AllFlags, Wanted;
      var j := |bands|;
      while 0 < j
        invariant 0 <= j <= |bands| == |old(bands)|
        invariant forall i :: 0 <= i < j ==> bands[i] == old(bands)[i]
        invariant forall i :: j <= i < |bands| ==> bands[i] == Checked(old(bands)[i], hiwat, lowat)
        invariant wantw == (old(wantw) || Freeing(old(bands)[j..], lowat))
        invariant old(back) || Freeing(old(bands)[j..], lowat) ==> back
      {
        j := j - 1;
        FreeingStep(old(bands), j, lowat);
        ChkBand(j);
      }
      assert old(bands)[0..] == old(bands);
      AllChecked(tags, old(bands), bands, msgs, hiwat, lowat);
    }

    method ClearFlags()
      modifies this`count, this`full, this`wasfull, this`wantr, this`wantw
      ensures count == 0 && !full && !wasfull && !wantr && !wantw
    {
      count, full, wasfull, wantr, wantw := 0, false, false, false, false;
    }

    /** The first part of flush_worker: it takes all messages away. */
    method TakeAll() returns (list: Mblk?, list2: Mblk?)
      requires Valid() && DeferLinked()
      modifies this`first, this`last, this`count, this`full, this`wasfull, this`wantr, this`wantw, this`bands
      modifies this`deferHead, this`deferTail, this`msgs, this`deferred, this`tags
      ensures Sound() && msgs == [] && deferred == [] && deferHead == null && deferTail == null
      ensures list == First(old(msgs)) && list2 == First(old(deferred)) && !wantw
      ensures Reused(tags, bands, Wants(old(bands))) && Fresh()
    {
      hide Reused, Index, Unbanded, Wanted, Sorted, Keys, Bytes, Links, Chain, UsedFlags, AllFlags, FullSet, WantSet;
      hide FreshFlow;
      list, list2 := first, deferHead;
      ClearFlags();
      ClearBands();
      first, last, deferHead, deferTail := null, null, null, null;
      msgs, deferred := [], [];
      EmptySums();
      NothingFresh(FlowNow(), hiwat);
    }

    lemma Chains()
      requires Valid() && DeferLinked()
      ensures Chain(msgs) && Chain(deferred)
    {
      LinksChain(msgs);
    }

    /** flush_worker looks for bands, and then for the queue, that can take messages again; wasFull is the old QWASFULL,
        sp what the band records were before the messages were put back. */
    method CheckAll(wasFull: bool, ghost sp: seq<bool>)
      requires Sound() && !wantw && Reused(tags, bands, sp)
      modifies this`wantr, this`bands, this`wantw, this`back
      ensures Valid() && wantr && !Wanted(bands)
      ensures wantw == (true in Spared(sp, |BandSet(msgs)|) || (wasFull && count <= lowat))
      ensures wantw ==> back
      ensures old(Fresh()) ==> Fresh()
    {
      hide Index, Unbanded, Sorted, Keys, Bytes, Links, Linked, Wanted, Freeing, UsedFlags, AllFlags, Reused, Spared;
      hide Checked, FullSet, WantSet, Run;
      SparedAreFreed(tags, bands, msgs, sp, hiwat, lowat);
      ghost var bands0 := bands;
      wantr := true;
      ChkBands();
      NoneWaits(bands0, bands, hiwat, lowat);
      FullStays(tags, bands0, bands, hiwat, lowat);
      if wasFull && count <= lowat { back, wantw := true, true; }
    }

    /** The last part of flush_worker. */
    method Rearm(wasFull: bool, ghost sp: seq<bool>)
      requires Sound() && deferred == [] && !wantw && Reused(tags, bands, sp)
      modifies this`wantr, this`bands, this`wantw, this`back, this`searches, this`refused, this`enables
      ensures Valid() && wantr && !Wanted(bands)
      ensures !closing ==> Wakes(true in Spared(sp, |BandSet(msgs)|), wasFull, old(searches), old(refused))
      ensures enables == old(enables) + if !closing && msgs != [] && !noenb then 1 else 0
      ensures old(Fresh()) ==> Fresh()
    {
      hide FullSet, WantSet, Run;
      hide Index, Unbanded, Sorted, Keys, Bytes, Links, Linked, Wanted, Freeing, UsedFlags, AllFlags, Reused, Spared;
      CheckAll(wasFull, sp);
      FirstOrEmpty();
      if closing { return; }
      BackEnable();
      if wantr && first != null && !noenb { enables := enables + 1; }
    }

    /** How a flush leaves flow control: w says that a writer waited on a band record that was not needed again. */
    ghost predicate Wakes(w: bool, wasFull: bool, searches0: nat, refused0: set<nat>)
      reads this
    {
      && searches == searches0 + (if (w || wasFull || closewt) && count <= lowat then 1 else 0)
      && wantw == (w && count > lowat)
      && refused == (if searches == searches0 then refused0 else {})
    }

    /** A refused writer is still remembered, or has been looked for, exactly if a band's writer waited on a record that
        the messages retained, `kept` and `kept2`, do not need, or the queue had been full (or closes) and what is
        retained outside the bands is at most at the low water mark. */
    lemma FlushRemembers(kept: seq<Mblk>, kept2: seq<Mblk>, sp: seq<bool>, wasFull: bool, searches0: nat,
                         refused0: set<nat>)
      requires Sound() && deferred == [] && msgs == PutMsgs(PutMsgs([], kept), kept2) && !Wanted(bands)
      requires Wakes(true in Spared(sp, |BandSet(msgs)|), wasFull, searches0, refused0)
      ensures Remembered() <==>
                refused0 == {} || true in Spared(sp, |BandSet(kept) + BandSet(kept2)|)
                || ((wasFull || closewt) && Unbanded(kept) + Unbanded(kept2) <= lowat)
    {
      FlushedSize(kept, kept2);
      NothingUnbanded();
      assert WantSet(tags, bands) == {};
      hide Unbanded, Spared, BandSet, PutMsgs, Index, Linked, UsedFlags, MainFlags, Sorted;
      assert count == Unbanded(kept) + Unbanded(kept2);
    }

    lemma FirstOrEmpty()
      requires Linked()
      ensures if msgs == [] then first == null else first == msgs[0]
    {
    }

    /** The loop of flush_worker, over the queue's own list and then over the deferred messages. */
    method FlushBoth(list: Mblk?, list2: Mblk?, band: int, flushAll: bool,
                     ghost ms: seq<Mblk>, ghost bs: seq<nat>, ghost df: seq<Mblk>, ghost db: seq<nat>)
      requires Sound() && msgs == [] && |ms| == |bs| && |df| == |db|
      requires Chain(ms) && list == First(ms) && BandsAre(ms, bs)
      requires Chain(df) && list2 == First(df) && BandsAre(df, db)
      requires forall m :: m in df ==> m !in ms
      modifies this`bands, this`tags, this`count, this`full, this`wasfull, this`enables
      modifies this`first, this`last, this`msgs
      modifies this`released, ms, df
      ensures Sound()
      ensures forall sp :: old(Reused(tags, bands, sp)) ==> Reused(tags, bands, sp)
      ensures old(Fresh()) ==> Fresh()
      ensures msgs == if closing then []
                      else PutMsgs(PutMsgs([], Kept(ms, bs, band, flushAll)), Kept(df, db, band, flushAll))
      ensures released == old(released) + Freed(ms, bs, band, flushAll, closing)
                                        + Freed(df, db, band, flushAll, closing)
      ensures enables >= old(enables)
    {
      hide *;
      FlushList(list, band, flushAll, ms, bs);
      assert forall j :: 0 <= j < |msgs| ==> msgs[j] in msgs;
      assert forall j :: 0 <= j < |ms| ==> ms[j] in ms;
      assert forall j :: 0 <= j < |df| ==> df[j] in df;
      FlushList(list2, band, flushAll, df, db);
      NoneKept([], [], [], band, flushAll, closing);
    }

    /** flush_worker after it has taken the messages away. */
    method FlushRest(list: Mblk?, list2: Mblk?, band: int, flushAll: bool, wasFull: bool, ghost ms: seq<Mblk>,
                     ghost bs: seq<nat>, ghost df: seq<Mblk>, ghost db: seq<nat>, ghost sp: seq<bool>)
      requires Sound() && msgs == [] && |ms| == |bs| && |df| == |db| && deferred == [] && !wantw
      requires Chain(ms) && list == First(ms) && BandsAre(ms, bs) && Reused(tags, bands, sp)
      requires Chain(df) && list2 == First(df) && BandsAre(df, db)
      requires forall m :: m in df ==> m !in ms
      modifies this`bands, this`tags, this`count, this`full, this`wasfull, this`enables
      modifies this`first, this`last, this`msgs
      modifies this`released, this`wantr, this`wantw, this`back, this`searches, this`refused, ms, df
      ensures Valid() && wantr
      ensures msgs == if closing then []
                      else PutMsgs(PutMsgs([], Kept(ms, bs, band, flushAll)), Kept(df, db, band, flushAll))
      ensures released == old(released) + Freed(ms, bs, band, flushAll, closing)
                                        + Freed(df, db, band, flushAll, closing)
      ensures !closing ==> !Wanted(bands)
                           && Wakes(true in Spared(sp, |BandSet(msgs)|), wasFull, old(searches), old(refused))
      ensures !closing && msgs != [] && !noenb ==> enables > old(enables)
      ensures old(Fresh()) ==> Fresh()
    {
      hide *;
      FlushBoth(list, list2, band, flushAll, ms, bs, df, db);
      Rearm(wasFull, sp);
    }

    /** flush_worker: band is -1 for lis_flushq. */
    method Flush(band: int, flushAll: bool)
      requires Valid() && DeferLinked() && -1 <= band <= MAX_BAND
      requires forall m :: m in deferred ==> m !in msgs
      modifies this, msgs, deferred
      ensures Valid() && Fresh() && deferred == [] && deferHead == null && deferTail == null && wantr
      ensures closing == old(closing) && noenb == old(noenb) && closewt == old(closewt)
      ensures msgs == if closing then [] else PutMsgs(PutMsgs([], old(Kept(msgs, BandsOf(msgs), band, flushAll))),
                                                      old(Kept(deferred, BandsOf(deferred), band, flushAll)))
      ensures released == old(released) + old(Freed(msgs, BandsOf(msgs), band, flushAll, closing))
                                        + old(Freed(deferred, BandsOf(deferred), band, flushAll, closing))
      ensures !closing ==> !Wanted(bands) && Wakes(true in Spared(Wants(old(bands)), |BandSet(msgs)|), old(wasfull),
                                                   old(searches), old(refused))
      ensures !closing ==>
                var kept := old(Kept(msgs, BandsOf(msgs), band, flushAll));
                var kept2 := old(Kept(deferred, BandsOf(deferred), band, flushAll));
                Remembered() <==>
                  old(refused) == {} || true in Spared(Wants(old(bands)), |BandSet(kept) + BandSet(kept2)|)
                  || ((old(wasfull) || old(closewt)) && Unbanded(kept) + Unbanded(kept2) <= lowat)
      ensures !closing && msgs != [] && !noenb ==> enables > old(enables)
    {
      hide *;
      var wasFull := wasfull;
      ghost var searches0, refused0 := searches, refused;
      ghost var ms, bs, df, db := msgs, BandsOf(msgs), deferred, BandsOf(deferred);
      Chains();
      ghost var sp := Wants(bands);
      var list, list2 := TakeAll();
      AreBands(ms);
      AreBands(df);
      FlushRest(list, list2, band, flushAll, wasFull, ms, bs, df, db, sp);
      if !closing {
        ghost var kept, kept2 := Kept(ms, bs, band, flushAll), Kept(df, db, band, flushAll);
        IsSound();
        FlushRemembers(kept, kept2, sp, wasFull, searches0, refused0);
      }
    }

    /** What the caller of a flush gets. Of the messages that were there each is either still there or was freed; no
        message of another band is freed; of band 0 exactly the ordinary ones are; of another band, or of the whole
        queue, all or exactly the data messages. */
    method FlushSelects(band: int, flushAll: bool)
      requires Valid() && DeferLinked() && -1 <= band <= MAX_BAND && !closing
      requires forall m :: m in deferred ==> m !in msgs
      modifies this, msgs, deferred
      ensures Valid() && deferred == [] && |released| >= |old(released)|
      ensures forall m :: m in msgs ==> m in old(msgs) + old(deferred)
      ensures forall m :: m in old(msgs) + old(deferred) ==> (m in msgs <==> m !in released[|old(released)|..])
      ensures band >= 0 ==> forall m :: m in old(msgs) + old(deferred) && old(m.band) != band ==> m in msgs
      ensures band == 0 ==>
                forall m :: m in old(msgs) + old(deferred) && old(m.band) == 0 ==> (m in msgs <==> m.kind >= QPCTL)
      ensures band != 0 && flushAll ==>
                forall m :: m in old(msgs) + old(deferred) && (band < 0 || old(m.band) == band) ==> m !in msgs
      ensures band != 0 && !flushAll ==>
                forall m :: m in old(msgs) + old(deferred) && (band < 0 || old(m.band) == band) ==>
                  (m in msgs <==> m.kind !in {M_DATA, M_PROTO, M_DELAY, M_PCPROTO})
    {
      hide Valid, Fresh, Chain, Kept, Freed, PutMsgs, BandsOf, BandsAre, Wakes, Spared, Wants, BandSet, Unbanded;
      hide Remembered;
      ghost var ms, bs, df, db := msgs, BandsOf(msgs), deferred, BandsOf(deferred);
      Chains();
      AreBands(ms);
      AreBands(df);
      ghost var left, freed := Selection(ms, bs, df, db, band, flushAll);
      Flush(band, flushAll);
      assert msgs == left && released == old(released) + freed && released[|old(released)|..] == freed;
    }

    lemma IsSound()
      requires Valid()
      ensures Sound()
    {
    }
  }

  /** QB_WANTW of every record. */
  function Wants(bands: seq<QBand>): seq<bool> { seq(|bands|, i requires 0 <= i < |bands| => bands[i].wantw) }

  /** The bands that have messages. */
  ghost function BandSet(ms: seq<Mblk>): set<nat> { set m | m in ms && m.Banded() :: m.key }

  /** What find_qband has not touched after k bands needed a record: it takes the first in the list, our last. */
  function Spared(sp: seq<bool>, k: nat): seq<bool> { if k <= |sp| then sp[..|sp| - k] else [] }

  /** The last k records are in use, and newly so; the others have their writers sp as before. */
  ghost predicate ReusedBy(tags: seq<nat>, bands: seq<QBand>, sp: seq<bool>, k: nat) {
    && |tags| == |bands| == (if k <= |sp| then |sp| else k) && k <= |tags|
    && (forall i :: 0 <= i < |tags| - k ==> tags[i] == 0 && bands[i].wantw == sp[i])
    && (forall i: nat :: |tags| - k <= i < |tags| ==> tags[i] != 0 && !bands[i].wantw)
  }

  ghost predicate Reused(tags: seq<nat>, bands: seq<QBand>, sp: seq<bool>) {
    exists k: nat :: ReusedBy(tags, bands, sp, k)
  }

  /** It stays so when find_qband finds a record i for band b and a message goes there. */
  lemma StaysReused(tags0: seq<nat>, bands0: seq<QBand>, tags: seq<nat>, bands: seq<QBand>, i: nat, b: nat, r: QBand)
    requires |tags0| == |bands0| && |tags| == |bands| && i < |tags| && b != 0 && r.wantw == bands[i].wantw
    requires tags[i] == b || tags[i] == 0
    requires tags[i] == b ==> bands == bands0 && tags == tags0
    requires tags[i] == 0 ==> !bands[i].wantw && forall j :: i < j < |tags| ==> tags[j] != 0
    requires tags[i] == 0 ==> if i < |bands0| then tags == tags0 && bands == bands0[i := bands[i]]
                              else tags == tags0 + [0] && bands == bands0 + [bands[i]] && 0 !in tags0
    ensures forall sp :: Reused(tags0, bands0, sp) ==> Reused(tags[i := b], bands[i := r], sp)
  {
    forall sp | Reused(tags0, bands0, sp) ensures Reused(tags[i := b], bands[i := r], sp) {
      var k: nat :| ReusedBy(tags0, bands0, sp, k);
      if tags[i] == b {
        assert ReusedBy(tags[i := b], bands[i := r], sp, k);
      } else {
        assert i < |bands0| ==> i == |tags0| - k - 1 by { if k < |tags0| { assert tags0[|tags0| - k - 1] == 0; } }
        assert i >= |bands0| ==> |tags0| == k by { if |tags0| > k { assert tags0[0] == 0; } }
        assert ReusedBy(tags[i := b], bands[i := r], sp, k + 1);
      }
    }
  }

  /** As many records are in use as bands have messages. */
  lemma UsedIsBands(tags: seq<nat>, bands: seq<QBand>, ms: seq<Mblk>, sp: seq<bool>, k: nat)
    requires Index(tags, bands, ms) && ReusedBy(tags, bands, sp, k)
    ensures k == |BandSet(ms)|
  {
    var used := tags[|tags| - k..];
    forall i | 0 <= i < |used| ensures used[i] in BandSet(ms) {
      var j := |tags| - k + i;
      assert RecordOk(tags[j], bands[j], ms);
      OfHas(ms, Keys(ms), tags[j], 0);
    }
    forall b | b in BandSet(ms) ensures b in used {
      var m :| m in ms && m.Banded() && m.key == b;
      var j :| 0 <= j < |ms| && ms[j] == m;
      OfSome(ms, Keys(ms), b, j);
      assert Run(ms, b) != [] && b in tags;
      var i :| 0 <= i < |tags| && tags[i] == b;
      assert i >= |tags| - k;
      assert used[i - (|tags| - k)] == b;
    }
    assert Elems(used) == BandSet(ms);
    SizeOfDistinct(used);
  }

  ghost function Elems(s: seq<nat>): set<nat> { set b | b in s }

  lemma {:induction false} SizeOfDistinct(s: seq<nat>)
    requires forall i, j :: 0 <= i < j < |s| ==> s[i] != s[j]
    ensures |Elems(s)| == |s|
  {
    if s != [] {
      SizeOfDistinct(s[1..]);
      assert Elems(s) == {s[0]} + Elems(s[1..]) && s[0] !in s[1..];
    }
  }

  /** The writers that wait on records not used again are all freed, and there are no others. */
  lemma SparedAreFreed(tags: seq<nat>, bands: seq<QBand>, ms: seq<Mblk>, sp: seq<bool>, hiwat: nat, lowat: nat)
    requires Index(tags, bands, ms) && UsedFlags(tags, bands, hiwat, lowat) && Reused(tags, bands, sp)
    ensures Freeing(bands, lowat) <==> true in Spared(sp, |BandSet(ms)|)
    ensures forall i :: 0 <= i < |bands| && bands[i].wantw ==> Drained(bands[i], lowat)
  {
    var k: nat :| ReusedBy(tags, bands, sp, k);
    UsedIsBands(tags, bands, ms, sp, k);
    var spared := Spared(sp, k);
    forall i | 0 <= i < |bands| && bands[i].wantw
      ensures i < |spared| && spared[i] && Drained(bands[i], lowat)
    {
      assert RecordOk(tags[i], bands[i], ms);
    }
    if true in spared {
      var i :| 0 <= i < |spared| && spared[i];
      assert bands[i].wantw;
    }
  }

  lemma FullStays(tags: seq<nat>, bands: seq<QBand>, bands': seq<QBand>, hiwat: nat, lowat: nat)
    requires UsedFlags(tags, bands, hiwat, lowat)
    requires |bands| == |bands'| && forall i :: 0 <= i < |bands| ==> bands'[i] == Checked(bands[i], hiwat, lowat)
    ensures FullSet(tags, bands') == FullSet(tags, bands)
  {
  }

  lemma NoneWaits(bands: seq<QBand>, bands': seq<QBand>, hiwat: nat, lowat: nat)
    requires forall i :: 0 <= i < |bands| && bands[i].wantw ==> Drained(bands[i], lowat)
    requires |bands| == |bands'| && forall i :: 0 <= i < |bands| ==> bands'[i] == Checked(bands[i], hiwat, lowat)
    ensures !Wanted(bands')
  {
  }

  lemma AllChecked(tags: seq<nat>, bands: seq<QBand>, bands': seq<QBand>, ms: seq<Mblk>, hiwat: nat, lowat: nat)
    requires lowat < hiwat && Index(tags, bands, ms) && UsedFlags(tags, bands, hiwat, lowat) && |bands'| == |bands|
    requires forall i :: 0 <= i < |bands| ==> bands'[i] == Checked(bands[i], hiwat, lowat)
    ensures Index(tags, bands', ms) && UsedFlags(tags, bands', hiwat, lowat) && AllFlags(bands', hiwat, lowat)
  {
    forall i | 0 <= i < |tags| ensures RecordOk(tags[i], bands'[i], ms) { assert RecordOk(tags[i], bands[i], ms); }
  }

  lemma EmptySums()
    ensures Links([]) && Sorted(Keys([])) && Unbanded([]) == 0 && Bytes([]) == 0
  {
  }

  lemma LinksOk(ms: seq<Mblk>)
    requires Links(ms)
    ensures AllOk(ms) && forall m :: m in ms ==> m.Ok()
  {
  }

  lemma LinksChain(ms: seq<Mblk>)
    requires Links(ms)
    ensures Chain(ms)
  {
  }

  lemma Emptied(tags: seq<nat>, bands: seq<QBand>, bands': seq<QBand>, hiwat: nat, lowat: nat)
    requires |tags| == |bands| == |bands'| && AllFlags(bands, hiwat, lowat)
    requires forall i :: 0 <= i < |bands| ==> tags[i] == 0 && bands'[i] == Cleared(bands[i])
    ensures Index(tags, bands', []) && UsedFlags(tags, bands', hiwat, lowat)
    ensures Wants(bands) == Wants(bands')
  {
    AllFree(tags, bands');
  }

  lemma AreBands(ms: seq<Mblk>)
    ensures |BandsOf(ms)| == |ms| && BandsAre(ms, BandsOf(ms))
  {
  }

  function Cleared(r: QBand): QBand { r.(first := null, last := null, count := 0, full := false) }

  /** A drained band has a waiting writer. */
  ghost predicate Freeing(bands: seq<QBand>, lowat: nat) {
    exists i :: 0 <= i < |bands| && Drained(bands[i], lowat) && bands[i].wantw
  }

  lemma FreeingStep(bands: seq<QBand>, j: nat, lowat: nat)
    requires j < |bands|
    ensures Freeing(bands[j..], lowat) <==>
              (Drained(bands[j], lowat) && bands[j].wantw) || Freeing(bands[j + 1..], lowat)
  {
    var s, t := bands[j..], bands[j + 1..];
    if Drained(bands[j], lowat) && bands[j].wantw { assert s[0] == bands[j]; }
    if Freeing(t, lowat) {
      var i :| 0 <= i < |t| && Drained(t[i], lowat) && t[i].wantw;
      assert s[i + 1] == t[i];
    }
    if Freeing(s, lowat) {
      var i :| 0 <= i < |s| && Drained(s[i], lowat) && s[i].wantw;
      if i > 0 { assert t[i - 1] == s[i]; }
    }
  }

  lemma AllFree(tags: seq<nat>, bands: seq<QBand>)
    requires |tags| == |bands| && forall i :: 0 <= i < |tags| ==> tags[i] == 0 && Free(bands[i])
    ensures Index(tags, bands, []) && Unbanded([]) == 0
  {
  }

  ghost function BandsOf(ms: seq<Mblk>): seq<nat>
    reads ms
  {
    seq(|ms|, i requires 0 <= i < |ms| reads ms => ms[i].band)
  }

  lemma NoneKept(acc: seq<Mblk>, ms: seq<Mblk>, bs: seq<nat>, band: int, flushAll: bool, closing: bool)
    requires ms == [] && bs == []
    ensures Kept(ms, bs, band, flushAll) == [] && Freed(ms, bs, band, flushAll, closing) == []
            && PutMsgs(acc, []) == acc
  {
  }

  function First(ms: seq<Mblk>): (r: Mblk?)
    ensures r == null <==> ms == []
    ensures ms != [] ==> r == ms[0]
  {
    At(ms, 0)
  }

  lemma NextOf(ms: seq<Mblk>, bs: seq<nat>)
    requires Chain(ms) && BandsAre(ms, bs) && ms != []
    ensures |ms| == |bs| && Chain(ms[1..]) && BandsAre(ms[1..], bs[1..]) && ms[0].Ok() && ms[0].band == bs[0]
    ensures ms[0].next == First(ms[1..]) && ms[0] !in ms[1..]
    ensures forall m :: m in ms[1..] ==> m in ms
  {
    var t := ms[1..];
    forall i {:trigger t[i].next} | 0 <= i < |t| ensures t[i].next == At(t, i + 1) {
      assert t[i].next == ms[i + 1].next;
    }
    forall i {:trigger t[i].band} | 0 <= i < |t| ensures t[i].band == bs[1..][i] { assert t[i].band == ms[i + 1].band; }
    assert forall i :: 0 <= i < |t| ==> t[i] == ms[i + 1];
  }

  /** The selection rule of flush_worker; band is -1 to flush all bands. */
  predicate Picked(kind: nat, b: nat, band: int, flushAll: bool) {
    (band < 0 || b == band) && (if band == 0 then kind < QPCTL else flushAll || IsData(kind))
  }

  /** lis_datamsg: M_DATA, M_PROTO, M_DELAY and M_PCPROTO. */
  predicate IsData(kind: nat) { kind == M_DATA || kind == M_PROTO || kind == M_PCPROTO || kind == M_DELAY }

  const M_DATA: nat := 0x00
  const M_PROTO: nat := 0x01
  const M_DELAY: nat := 0x04
  const M_PCPROTO: nat := 0x12

  ghost predicate BandsAre(ms: seq<Mblk>, bs: seq<nat>)
    reads ms
  {
    |bs| == |ms| && forall j {:trigger ms[j].band} :: 0 <= j < |ms| ==> ms[j].band == bs[j]
  }

  /** The messages the selection rule retains, with the bands they had. */
  ghost function Kept(ms: seq<Mblk>, bs: seq<nat>, band: int, flushAll: bool): seq<Mblk>
    requires |ms| == |bs|
  {
    if ms == [] then []
    else (if Picked(ms[0].kind, bs[0], band, flushAll) then [] else [ms[0]]) + Kept(ms[1..], bs[1..], band, flushAll)
  }

  lemma {:induction false} KeptMembers(ms: seq<Mblk>, bs: seq<nat>, band: int, flushAll: bool)
    requires BandsAre(ms, bs) && forall i, j :: 0 <= i < j < |ms| ==> ms[i] != ms[j]
    ensures forall m :: m in Kept(ms, bs, band, flushAll) <==> m in ms && !Picked(m.kind, m.band, band, flushAll)
    ensures forall m :: m in Freed(ms, bs, band, flushAll, false) <==> m in ms && Picked(m.kind, m.band, band, flushAll)
  {
    if ms != [] {
      StepKept(ms, bs, band, flushAll, false);
      KeptMembers(ms[1..], bs[1..], band, flushAll);
      hide Picked;
      assert ms[0].band == bs[0] && forall m :: m in ms <==> m == ms[0] || m in ms[1..];
    }
  }

  lemma {:induction false} PutMembers(acc: seq<Mblk>, ms: seq<Mblk>)
    ensures forall m :: m in PutMsgs(acc, ms) <==> m in acc || m in ms
    decreases |ms|
  {
    if ms == [] {
      NoneKept(acc, [], [], 0, false, false);
    } else {
      var p := Tail(Keys(acc), ms[0].key);
      StepPut(acc, ms[0], ms[1..]);
      InsMembers(acc, p, ms[0]);
      PutMembers(Ins(acc, p, ms[0]), ms[1..]);
      assert ms == [ms[0]] + ms[1..];
    }
  }

  /** Which messages a flush of an open queue leaves, and which it frees. */
  lemma Selection(ms: seq<Mblk>, bs: seq<nat>, df: seq<Mblk>, db: seq<nat>, band: int, flushAll: bool)
      returns (q: seq<Mblk>, r: seq<Mblk>)
    requires BandsAre(ms, bs) && BandsAre(df, db) && Chain(ms) && Chain(df) && forall m :: m in df ==> m !in ms
    ensures q == PutMsgs(PutMsgs([], Kept(ms, bs, band, flushAll)), Kept(df, db, band, flushAll))
    ensures r == Freed(ms, bs, band, flushAll, false) + Freed(df, db, band, flushAll, false)
    ensures (forall j :: 0 <= j < |q| ==> q[j] in ms + df) && (forall j :: 0 <= j < |r| ==> r[j] in ms + df)
    ensures forall m :: m in q <==> m in ms + df && !Picked(m.kind, m.band, band, flushAll)
    ensures forall m :: m in r <==> m in ms + df && Picked(m.kind, m.band, band, flushAll)
  {
    q := PutMsgs(PutMsgs([], Kept(ms, bs, band, flushAll)), Kept(df, db, band, flushAll));
    r := Freed(ms, bs, band, flushAll, false) + Freed(df, db, band, flushAll, false);
    hide Picked, Kept, Freed, PutMsgs;
    KeptMembers(ms, bs, band, flushAll);
    KeptMembers(df, db, band, flushAll);
    PutMembers([], Kept(ms, bs, band, flushAll));
    PutMembers(PutMsgs([], Kept(ms, bs, band, flushAll)), Kept(df, db, band, flushAll));
    var kept, kept2 := Kept(ms, bs, band, flushAll), Kept(df, db, band, flushAll);
    KeptWithin(ms, bs, band, flushAll, ms + df);
    KeptWithin(df, db, band, flushAll, ms + df);
    PutWithin([], kept, ms + df);
    PutWithin(PutMsgs([], kept), kept2, ms + df);
  }

  lemma {:induction false} KeptWithin(ms: seq<Mblk>, bs: seq<nat>, band: int, flushAll: bool, all: seq<Mblk>)
    requires |ms| == |bs| && forall j :: 0 <= j < |ms| ==> ms[j] in all
    ensures forall j :: 0 <= j < |Kept(ms, bs, band, flushAll)| ==> Kept(ms, bs, band, flushAll)[j] in all
    ensures var r := Freed(ms, bs, band, flushAll, false); forall j :: 0 <= j < |r| ==> r[j] in all
  {
    if ms != [] {
      KeptWithin(ms[1..], bs[1..], band, flushAll, all);
      StepKept(ms, bs, band, flushAll, false);
    }
  }

  lemma {:induction false} PutWithin(acc: seq<Mblk>, ms: seq<Mblk>, all: seq<Mblk>)
    requires (forall j :: 0 <= j < |acc| ==> acc[j] in all) && forall j :: 0 <= j < |ms| ==> ms[j] in all
    ensures forall j :: 0 <= j < |PutMsgs(acc, ms)| ==> PutMsgs(acc, ms)[j] in all
    decreases |ms|
  {
    if ms == [] {
      NoneKept(acc, [], [], 0, false, false);
    } else {
      var p := Tail(Keys(acc), ms[0].key);
      StepPut(acc, ms[0], ms[1..]);
      assert ms == [ms[0]] + ms[1..];
      PutWithin(Ins(acc, p, ms[0]), ms[1..], all);
    }
  }

  /** What is handed to lis_freemsg: the others; on a closing queue also the retained ones, and each of them twice. */
  ghost function Freed(ms: seq<Mblk>, bs: seq<nat>, band: int, flushAll: bool, closing: bool): seq<Mblk>
    requires |ms| == |bs|
  {
    if ms == [] then []
    else (if Picked(ms[0].kind, bs[0], band, flushAll) then [ms[0]] else if closing then [ms[0], ms[0]] else [])
         + Freed(ms[1..], bs[1..], band, flushAll, closing)
  }

  ghost function PutMsgs(acc: seq<Mblk>, ms: seq<Mblk>): seq<Mblk> { PutAll(acc, Keys(acc), ms, Keys(ms)).0 }

  lemma StepPut(acc: seq<Mblk>, m: Mblk, ms: seq<Mblk>)
    ensures Tail(Keys(acc), m.key) <= |acc|
    ensures PutMsgs(acc, [m] + ms) == PutMsgs(Ins(acc, Tail(Keys(acc), m.key), m), ms)
  {
    KeysIns(acc, Tail(Keys(acc), m.key), m);
    assert ([m] + ms)[1..] == ms && Keys([m] + ms)[1..] == Keys(ms);
  }

  lemma StepKept(ms: seq<Mblk>, bs: seq<nat>, band: int, flushAll: bool, closing: bool)
    requires ms != [] && |ms| == |bs|
    ensures var picked := Picked(ms[0].kind, bs[0], band, flushAll);
      && |ms[1..]| == |bs[1..]|
      && Kept(ms, bs, band, flushAll)
         == (if picked then Kept(ms[1..], bs[1..], band, flushAll)
             else [ms[0]] + Kept(ms[1..], bs[1..], band, flushAll))
      && Freed(ms, bs, band, flushAll, closing)
         == (if picked then [ms[0]] else if closing then [ms[0], ms[0]] else [])
            + Freed(ms[1..], bs[1..], band, flushAll, closing)
  {
  }

  /** A flush keeps the order: with nothing deferred the queue holds what was retained, in the order it was in. */
  lemma FlushKeepsOrder(ms: seq<Mblk>, bs: seq<nat>, band: int, flushAll: bool)
    requires |ms| == |bs| && Sorted(Keys(ms))
    ensures PutMsgs(PutMsgs([], Kept(ms, bs, band, flushAll)), []) == Kept(ms, bs, band, flushAll)
  {
    var kept := Kept(ms, bs, band, flushAll);
    KeptSorted(ms, bs, band, flushAll);
    PutAllSorted(kept, Keys(kept));
  }

  lemma {:induction false} KeptSorted(ms: seq<Mblk>, bs: seq<nat>, band: int, flushAll: bool)
    requires |ms| == |bs| && Sorted(Keys(ms))
    ensures Sorted(Keys(Kept(ms, bs, band, flushAll)))
    ensures forall m :: m in Kept(ms, bs, band, flushAll) ==> m in ms
  {
    if ms != [] {
      var rest, kept := ms[1..], Kept(ms[1..], bs[1..], band, flushAll);
      assert forall i :: 0 <= i < |rest| ==> Keys(rest)[i] == Keys(ms)[i + 1];
      KeptSorted(rest, bs[1..], band, flushAll);
      forall i | 0 <= i < |kept| ensures ms[0].key >= kept[i].key {
        assert kept[i] in rest;
        var j :| 0 <= j < |rest| && rest[j] == kept[i];
        assert Keys(ms)[0] >= Keys(ms)[j + 1];
      }
      StepKept(ms, bs, band, flushAll, false);
      ConsSorted(ms[0], kept);
    }
  }

  lemma ConsSorted(m: Mblk, ms: seq<Mblk>)
    requires Sorted(Keys(ms)) && forall i :: 0 <= i < |ms| ==> m.key >= ms[i].key
    ensures Sorted(Keys([m] + ms))
  {
    var ks, n := Keys(ms), Keys([m] + ms);
    forall i, j | 0 <= i < j < |n| ensures n[i] >= n[j] {
      assert n[j] == ks[j - 1];
      if i > 0 { assert n[i] == ks[i - 1]; }
    }
  }

  /** Deferred messages come last of their class. */
  lemma FlushMerges(kept: seq<Mblk>, deferred: seq<Mblk>, c: nat)
    ensures var q := PutMsgs(PutMsgs([], kept), deferred);
      Sorted(Keys(q)) && Run(q, c) == Run(kept, c) + Run(deferred, c)
  {
    PutMsgsStable([], kept, c);
    PutMsgsStable(PutMsgs([], kept), deferred, c);
  }

  /** So a flush leaves the bytes outside the bands that were retained, and the bands. */
  lemma FlushedSize(kept: seq<Mblk>, kept2: seq<Mblk>)
    ensures var q := PutMsgs(PutMsgs([], kept), kept2);
      Unbanded(q) == Unbanded(kept) + Unbanded(kept2) && BandSet(q) == BandSet(kept) + BandSet(kept2)
  {
    var q := PutMsgs(PutMsgs([], kept), kept2);
    FlushMerges(kept, kept2, HIGH);
    FlushMerges(kept, kept2, 0);
    BytesCat(Run(kept, HIGH), Run(kept2, HIGH));
    BytesCat(Run(kept, 0), Run(kept2, 0));
    forall b ensures b in BandSet(q) <==> b in BandSet(kept) || b in BandSet(kept2) {
      FlushMerges(kept, kept2, b);
      HasBand(q, b);
      HasBand(kept, b);
      HasBand(kept2, b);
    }
  }

  lemma HasBand(ms: seq<Mblk>, b: nat)
    ensures b in BandSet(ms) <==> 1 <= b <= MAX_BAND && Run(ms, b) != []
  {
    if b in BandSet(ms) {
      var m :| m in ms && m.Banded() && m.key == b;
      var j :| 0 <= j < |ms| && ms[j] == m;
      OfSome(ms, Keys(ms), b, j);
    }
    if Run(ms, b) != [] { OfHas(ms, Keys(ms), b, 0); }
  }

  lemma PutMsgsStable(acc: seq<Mblk>, ms: seq<Mblk>, c: nat)
    requires Sorted(Keys(acc))
    ensures Sorted(Keys(PutMsgs(acc, ms))) && Run(PutMsgs(acc, ms), c) == Run(acc, c) + Run(ms, c)
  {
    PutAllKeys(acc, ms);
    PutAllStable(acc, Keys(acc), ms, Keys(ms), c);
  }

  lemma {:induction false} PutAllKeys(acc: seq<Mblk>, ms: seq<Mblk>)
    ensures PutAll(acc, Keys(acc), ms, Keys(ms)).1 == Keys(PutMsgs(acc, ms))
    decreases |ms|
  {
    if ms != [] {
      var p := Tail(Keys(acc), ms[0].key);
      KeysIns(acc, p, ms[0]);
      assert Keys(ms)[1..] == Keys(ms[1..]);
      PutAllKeys(Ins(acc, p, ms[0]), ms[1..]);
    }
  }

  /** On an open queue every message is either retained or freed, once; on a closing queue a retained one is freed
      twice: by lis_putq, which refuses it, and then by the flush itself. */
  lemma {:induction false} FlushFrees(ms: seq<Mblk>, bs: seq<nat>, band: int, flushAll: bool, m: Mblk)
    requires |ms| == |bs|
    ensures Times(Kept(ms, bs, band, flushAll), m) + Times(Freed(ms, bs, band, flushAll, false), m) == Times(ms, m)
    ensures Times(Freed(ms, bs, band, flushAll, true), m) == Times(ms, m) + Times(Kept(ms, bs, band, flushAll), m)
  {
    if ms != [] {
      var x, rest, rb := ms[0], ms[1..], bs[1..];
      FlushFrees(rest, rb, band, flushAll, m);
      StepKept(ms, bs, band, flushAll, false);
      StepKept(ms, bs, band, flushAll, true);
      hide *;
      assert ms == [x] + rest;
      TimesCons(x, rest, m);
      TimesCons(x, Kept(rest, rb, band, flushAll), m);
      TimesCons(x, Freed(rest, rb, band, flushAll, false), m);
      TimesCons(x, Freed(rest, rb, band, flushAll, true), m);
    }
  }

  /** How often m occurs in ms. */
  ghost function Times(ms: seq<Mblk>, m: Mblk): nat {
    if ms == [] then 0 else (if ms[0] == m then 1 else 0) + Times(ms[1..], m)
  }

  lemma TimesCons(x: Mblk, ms: seq<Mblk>, m: Mblk)
    ensures Times([x] + ms, m) == (if x == m then 1 else 0) + Times(ms, m)
    ensures Times([x, x] + ms, m) == (if x == m then 2 else 0) + Times(ms, m) && [] + ms == ms
  {
    assert ([x] + ms)[1..] == ms && ([x, x] + ms)[1..] == [x] + ms;
  }

  /** What the index is worth: a band that holds messages has one record, whose pointers are the ends of its run in the
      queue and whose count is the size of that run. */
  lemma RecordOfBand(tags: seq<nat>, bands: seq<QBand>, ms: seq<Mblk>, b: nat)
    requires Index(tags, bands, ms) && Sorted(Keys(ms)) && 1 <= b <= MAX_BAND
    requires forall i, j :: 0 <= i < j < |ms| ==> ms[i] != ms[j]
    requires Head(Keys(ms), b) < Tail(Keys(ms), b)
    ensures var h, t := Head(Keys(ms), b), Tail(Keys(ms), b);
      exists i :: 0 <= i < |bands|
               && bands[i] == bands[i].(first := ms[h], last := ms[t - 1], count := Bytes(ms[h..t]))
               && forall j :: 0 <= j < |bands| && j != i ==> bands[j].first != ms[h]
  {
    var h, t := Head(Keys(ms), b), Tail(Keys(ms), b);
    RunIsContiguous(ms, b);
    assert b in tags;
    var i :| 0 <= i < |tags| && tags[i] == b;
    assert RecordOk(tags[i], bands[i], ms);
    forall j | 0 <= j < |bands| && j != i ensures bands[j].first != ms[h] {
      assert RecordOk(tags[j], bands[j], ms);
      if tags[j] != 0 {
        OfHas(ms, Keys(ms), tags[j], 0);
        Above(Keys(ms), h, b);
      }
    }
  }

  /** The place before ms[p] follows a high-priority message whose band is below mp's: lis_insq then refuses to put mp
      there, although the order would allow it. */
  ghost predicate AfterHigh(ms: seq<Mblk>, p: nat, mp: Mblk)
    reads ms, mp
  {
    0 < p <= |ms| && ms[p - 1].Hi() && mp.band > ms[p - 1].band
  }

  /** The test of lis_insq against the order it is to keep. */
  lemma InsqGuard(ms: seq<Mblk>, p: nat, mp: Mblk)
    requires Links(ms) && Sorted(Keys(ms)) && p < |ms| && mp.Ok() && !mp.Hi()
    ensures !ms[p].Hi() && mp.band >= ms[p].band && !(ms[p].prev != null && mp.band > ms[p].prev.band)
       <==> Sorted(Ins(Keys(ms), p, mp.key)) && !AfterHigh(ms, p, mp)
    ensures Sorted(Ins(Keys(ms), p, mp.key)) ==> Spot(Keys(ms), p, mp.key)
  {
    var ks := Keys(ms);
    SpotIffSorted(ks, p, mp.key);
    Above(ks, p, mp.key);
    assert ms[p].Ok();
    if 0 < p {
      Above(ks, p - 1, mp.key);
      assert ms[p - 1].Ok() && ms[p].prev == ms[p - 1];
    }
  }

  /** ms with mp linked in at place p. */
  ghost predicate SplicedAt(ms: seq<Mblk>, p: nat, mp: Mblk)
    reads ms, mp
  {
    && p <= |ms| && mp !in ms && mp.Ok() && mp.next == At(ms, p) && mp.prev == At(ms, p - 1)
    && (forall i, j :: 0 <= i < j < |ms| ==> ms[i] != ms[j])
    && AllOk(ms)
    && (forall i {:trigger ms[i].next} :: 0 <= i < |ms| ==> ms[i].next == if i + 1 == p then mp else At(ms, i + 1))
    && (forall i {:trigger ms[i].prev} :: 0 <= i < |ms| ==> ms[i].prev == if i == p then mp else At(ms, i - 1))
  }

  lemma Spliced(ms: seq<Mblk>, p: nat, mp: Mblk)
    requires SplicedAt(ms, p, mp)
    ensures Links(Ins(ms, p, mp))
    ensures At(Ins(ms, p, mp), 0) == if p == 0 then mp else At(ms, 0)
    ensures At(Ins(ms, p, mp), |ms|) == if p == |ms| then mp else At(ms, |ms| - 1)
  {
    var n := Ins(ms, p, mp);
    forall i {:trigger n[i].next} {:trigger n[i].prev} | 0 <= i < |n|
      ensures n[i].Ok() && n[i].next == At(n, i + 1) && n[i].prev == At(n, i - 1)
    {
      InsAt(ms, p, mp, i);
      if i < |ms| { InsAt(ms, p, mp, i + 1); }
      if 0 < i { InsAt(ms, p, mp, i - 1); }
    }
    forall i, j | 0 <= i < j < |n| ensures n[i] != n[j] {
      InsAt(ms, p, mp, i);
      InsAt(ms, p, mp, j);
    }
  }

  /** ms with ms[p] linked out. */
  ghost predicate UnsplicedAt(ms: seq<Mblk>, p: nat)
    reads ms
  {
    && p < |ms| && AllOk(ms)
    && (forall i, j :: 0 <= i < j < |ms| ==> ms[i] != ms[j])
    && (forall i {:trigger ms[i].next} :: 0 <= i < |ms| && i != p ==>
          ms[i].next == if i + 1 == p then At(ms, p + 1) else At(ms, i + 1))
    && (forall i {:trigger ms[i].prev} :: 0 <= i < |ms| && i != p ==>
          ms[i].prev == if i == p + 1 then At(ms, p - 1) else At(ms, i - 1))
  }

  lemma Unspliced(ms: seq<Mblk>, p: nat)
    requires UnsplicedAt(ms, p)
    ensures Links(Del(ms, p))
    ensures At(Del(ms, p), 0) == At(ms, if p == 0 then 1 else 0)
    ensures At(Del(ms, p), |ms| - 2) == At(ms, if p == |ms| - 1 then p - 1 else |ms| - 1)
  {
    var n := Del(ms, p);
    forall i {:trigger n[i].next} {:trigger n[i].prev} | 0 <= i < |n|
      ensures n[i].Ok() && n[i].next == At(n, i + 1) && n[i].prev == At(n, i - 1)
    {
      assert n[i] == ms[if i < p then i else i + 1];
      if i + 1 < |n| { assert n[i + 1] == ms[if i + 1 < p then i + 1 else i + 2]; }
      if 0 < i { assert n[i - 1] == ms[if i - 1 < p then i - 1 else i]; }
    }
    forall i, j | 0 <= i < j < |n| ensures n[i] != n[j] {
      assert n[i] == ms[if i < p then i else i + 1];
      assert n[j] == ms[if j < p then j else j + 1];
    }
  }

  lemma OkBefore(ms: seq<Mblk>, p: nat, mp: Mblk)
    requires p <= |ms| && Links(Ins(ms, p, mp))
    ensures AllOk(ms) && mp.next == At(ms, p) && mp.prev == At(ms, p - 1)
    ensures forall i, j :: 0 <= i < j < |ms| ==> ms[i] != ms[j]
  {
    var n := Ins(ms, p, mp);
    InsAt(ms, p, mp, p);
    if p < |ms| { InsAt(ms, p, mp, p + 1); }
    if 0 < p { InsAt(ms, p, mp, p - 1); }
    forall i | 0 <= i < |ms| ensures ms[i].Ok() { InsAt(ms, p, mp, if i < p then i else i + 1); }
    forall i, j | 0 <= i < j < |ms| ensures ms[i] != ms[j] {
      InsAt(ms, p, mp, if i < p then i else i + 1);
      InsAt(ms, p, mp, if j < p then j else j + 1);
    }
  }

  /** The neighbours of a place tell whether it is at an end of the run of its class. */
  lemma Neighbours(ms: seq<Mblk>, p: nat, mp: Mblk, tag: nat, r: QBand)
    requires Sorted(Keys(ms)) && p <= |ms| && Spot(Keys(ms), p, mp.key) && mp.Banded()
    requires forall i, j :: 0 <= i < j < |ms| ==> ms[i] != ms[j]
    requires RecordOk(tag, r, ms) && (tag == mp.key || (tag == 0 && Run(ms, mp.key) == []))
    ensures tag == 0 ==> Run(ms[..p], mp.key) == [] && Run(ms[p..], mp.key) == []
    ensures tag != 0 ==> (At(ms, p) == r.first <==> Run(ms[..p], mp.key) == [])
    ensures tag != 0 ==> (At(ms, p - 1) == r.last <==> Run(ms[p..], mp.key) == [])
  {
    RunAfterIns(ms, p, mp, mp.key);
    KeysIns(ms, p, mp);
    Ends(ms, Keys(ms), p, mp.key);
    RunIsContiguous(ms, mp.key);
  }

  lemma RunInFront(s: seq<Mblk>, c: nat)
    requires Sorted(Keys(s)) && forall i :: 0 <= i < |s| ==> s[i].key <= c
    ensures Run(s, c) != [] <==> s != [] && s[0].key == c
    ensures Run(s, c) != [] ==> Run(s, c)[0] == s[0]
  {
    if Run(s, c) != [] {
      OfHas(s, Keys(s), c, 0);
      assert Keys(s)[0] == c;
    }
  }

  lemma RunAtBack(s: seq<Mblk>, c: nat)
    requires Sorted(Keys(s)) && forall i :: 0 <= i < |s| ==> s[i].key >= c
    ensures Run(s, c) != [] <==> s != [] && s[|s| - 1].key == c
    ensures Run(s, c) != [] ==> Run(s, c)[|Run(s, c)| - 1] == s[|s| - 1]
  {
    if s != [] {
      var q := |s| - 1;
      OfSplit(s, Keys(s), q, c);
      assert s[q..] == [s[q]] && Keys(s)[q..] == [Keys(s)[q]];
      if Run(s, c) != [] && s[q].key != c {
        OfHas(s, Keys(s), c, 0);
        assert false;
      }
    }
  }

  lemma NotInRun(s: seq<Mblk>, c: nat, m: Mblk)
    requires m !in s
    ensures m !in Run(s, c)
  {
    forall j | 0 <= j < |Run(s, c)| ensures Run(s, c)[j] != m { OfHas(s, Keys(s), c, j); }
  }

  /** The class of ms[p], with it and without it. */
  lemma WithoutIt(ms: seq<Mblk>, p: nat, a: seq<Mblk>, b: seq<Mblk>, k: nat)
    requires Sorted(Keys(ms)) && p < |ms| && k == ms[p].key
    requires forall i, j :: 0 <= i < j < |ms| ==> ms[i] != ms[j]
    requires a == Run(ms[..p], k) && b == Run(ms[p + 1..], k)
    ensures Run(ms, k) == a + [ms[p]] + b && Run(Del(ms, p), k) == a + b
    ensures ms[p] !in a && ms[p] !in b
    ensures a != [] <==> 0 < p && ms[p - 1].key == k
    ensures b != [] <==> p + 1 < |ms| && ms[p + 1].key == k
    ensures a != [] ==> a[|a| - 1] == ms[p - 1]
    ensures b != [] ==> b[0] == ms[p + 1]
  {
    var n := Del(ms, p);
    KeysDel(ms, p);
    RunAfterIns(n, p, ms[p], k);
    assert n[..p] == ms[..p] && n[p..] == ms[p + 1..];
    NotInRun(ms[..p], k, ms[p]);
    NotInRun(ms[p + 1..], k, ms[p]);
    SplitSorted(ms, p, ms[..p], ms[p + 1..]);
    RunAtBack(ms[..p], k);
    RunInFront(ms[p + 1..], k);
  }

  /** What the record of a band and the links around a message say about the rest of the band. */
  lemma Surroundings(ms: seq<Mblk>, p: nat, mp: Mblk, record: QBand, a: seq<Mblk>, b: seq<Mblk>)
    requires Links(ms) && Sorted(Keys(ms)) && p < |ms| && mp == ms[p] && mp.Banded() && Serves(record, mp.key, ms)
    requires a == Run(ms[..p], mp.key) && b == Run(ms[p + 1..], mp.key)
    ensures Run(Del(ms, p), mp.key) == a + b && Del(ms, p)[..p] == ms[..p] && Del(ms, p)[p..] == ms[p + 1..]
    ensures record.first == mp <==> a == []
    ensures record.last == mp <==> b == []
    ensures (mp.next != null && mp.next.band == mp.band) <==> b != []
    ensures b != [] ==> mp.next == b[0]
    ensures a != [] ==> mp.prev == a[|a| - 1] && mp.prev.band == mp.band
  {
    WithoutIt(ms, p, a, b, mp.key);
    var r := a + [mp] + b;
    assert record.first == r[0] && record.last == r[|a| + |b|];
    assert a != [] ==> r[0] in a;
    assert b != [] ==> r[|a| + |b|] in b;
    if p + 1 < |ms| {
      assert Keys(ms)[p] >= Keys(ms)[p + 1];
      assert ms[p + 1].Ok() && !ms[p + 1].Hi();
    }
    if a != [] { assert ms[p - 1].Ok(); }
  }

  lemma SplitSorted(ms: seq<Mblk>, p: nat, a: seq<Mblk>, b: seq<Mblk>)
    requires Sorted(Keys(ms)) && p < |ms| && a == ms[..p] && b == ms[p + 1..]
    ensures Sorted(Keys(a)) && forall i :: 0 <= i < |a| ==> a[i].key >= ms[p].key
    ensures Sorted(Keys(b)) && forall i :: 0 <= i < |b| ==> b[i].key <= ms[p].key
  {
    var ks := Keys(ms);
    forall i | 0 <= i < |a| ensures a[i].key >= ms[p].key { assert ks[i] >= ks[p]; }
    forall i | 0 <= i < |b| ensures b[i].key <= ms[p].key { assert ks[p] >= ks[p + 1 + i]; }
    assert Keys(a) == ks[..p] && Keys(b) == ks[p + 1..];
  }

  lemma BandEmpty(tags: seq<nat>, ms: seq<Mblk>, band: nat, i: nat)
    requires i < |tags| && (tags[i] == band || band !in tags)
    requires forall b :: 1 <= b <= MAX_BAND && Run(ms, b) != [] ==> b in tags
    ensures 1 <= band <= MAX_BAND && tags[i] != band ==> Bytes(Run(ms, band)) == 0
  {
  }

  /** A record serves the band of the message it points at first. */
  lemma RecordBand(tags: seq<nat>, bands: seq<QBand>, ms: seq<Mblk>, j: nat)
    requires AllOk(ms) && Index(tags, bands, ms) && j < |bands|
    ensures bands[j].first == null <==> tags[j] == 0
    ensures bands[j].first != null ==> bands[j].first in ms && bands[j].first.band == tags[j]
  {
    assert RecordOk(tags[j], bands[j], ms);
    if tags[j] != 0 { OfHas(ms, Keys(ms), tags[j], 0); }
  }

  /** What chk_band does to flow control when a message has left the record of its band. */
  lemma AdjustedFlow(f: Flow, tags: seq<nat>, bands: seq<QBand>, i: nat, t: nat, r: QBand, m: Mblk, hiwat: nat,
                     lowat: nat)
    requires |tags| == |bands| && i < |tags| && DistinctTags(tags) && tags[i] == m.key && m.Banded()
    requires t == m.key || (t == 0 && r.count == 0)
    requires r.wasfull == bands[i].wasfull && r.wantw == bands[i].wantw && (r.wantw ==> r.wasfull)
    requires f.wants == WantSet(tags, bands) && f.fulls == FullSet(tags, bands)
    ensures var bands' := bands[i := Checked(r, hiwat, lowat)];
      AfterRmv(f, m, r.count, hiwat, lowat)
      == f.(wants := WantSet(tags[i := t], bands'), fulls := FullSet(tags[i := t], bands'),
            wantw := f.wantw || (Drained(r, lowat) && r.wantw), back := f.back || Drained(r, lowat))
  {
    SetRecord(tags, bands, i, t, Checked(r, hiwat, lowat));
  }

  lemma WaitsOnlyIfFull(bands: seq<QBand>, i: nat, hiwat: nat, lowat: nat)
    requires AllFlags(bands, hiwat, lowat) && i < |bands|
    ensures bands[i].wantw ==> bands[i].wasfull
  {
    assert BandFlags(bands[i], hiwat, lowat);
  }

  /** What a band's record counts once a message has left it. */
  lemma LeftOver(tags: seq<nat>, bands: seq<QBand>, ms: seq<Mblk>, i: nat, b: nat)
    requires Index(tags, bands, ms) && i < |tags| && (if Run(ms, b) == [] then tags[i] == 0 else tags[i] == b) && b != 0
    ensures i < |bands| && bands[i].count == Bytes(Run(ms, b)) && (tags[i] == 0 ==> bands[i].count == 0)
  {
    assert RecordOk(tags[i], bands[i], ms);
  }

  /** Two messages fill a queue, and a writer is refused. */
  method FillSmall() returns (q: Queue, a: Mblk, b: Mblk)
    ensures fresh(q) && fresh(a) && fresh(b) && a != b
    ensures q.Valid() && q.Remembered() && q.DeferLinked() && q.msgs == [a, b] && q.deferred == []
    ensures q.lowat == 0 && q.refused == {0} && q.wasfull && !q.closing && !q.closewt && !Wanted(q.bands)
    ensures a.kind == 0 && b.kind == 2 && a.Ok() && b.Ok() && a.size == 1 && b.size == 1 && a.band == 0 && b.band == 0
  {
    hide Index, AllFlags, UsedFlags, Sorted, Links, Queue.Linked, Chain, Unbanded, Ins, Tail, Keys, Bytes, Wanted, Run;
    hide Queue.Sound, WantSet, FullSet, AfterPut;
    q := new Queue(1, 0);
    NobodyWaits();
    a := new Mblk(0, 1, 0);
    b := new Mblk(2, 1, 0);
    PutTwo(q, a, b);
    var ok := q.BCanPut(0);
  }

  method PutTwo(q: Queue, a: Mblk, b: Mblk)
    requires q.Valid() && q.Remembered() && q.msgs == [] && q.deferred == [] && !q.closing && q.hiwat == 1 && a != b
    requires a.Ok() && b.Ok() && a.key == 0 && b.key == 0 && a.size == 1 && b.size == 1
    modifies q`bands, q`tags, q`count, q`full, q`wasfull, q`enables, q`first, q`last, q`msgs, q`released, a, b
    ensures q.Valid() && q.Remembered() && q.msgs == [a, b] && q.full && q.wasfull
    ensures Wanted(q.bands) ==> old(Wanted(q.bands))
    ensures a.Ok() && b.Ok() && (!a.Hi() ==> a.band == old(a.band)) && (!b.Hi() ==> b.band == old(b.band))
  {
    hide Index, AllFlags, UsedFlags, Sorted, Links, Queue.Linked, Chain, Unbanded, Ins, Tail, Keys, Bytes, Wanted, Run;
    Filled(a, b);
    var ok := q.PutQ(a);
    ok := q.PutQ(b);
  }

  lemma NobodyWaits()
    ensures !Wanted([])
  {
  }

  /** A flush of the data forgets the writer: it leaves the queue below its high but above its low water mark. */
  method FlushForgetsWriter(q: Queue, a: Mblk, b: Mblk)
    requires q.Valid() && q.Remembered() && q.DeferLinked() && q.msgs == [a, b] && q.deferred == []
    requires q.lowat == 0 && q.refused == {0} && q.wasfull && !q.closing && !q.closewt && !Wanted(q.bands)
    requires a.kind == 0 && b.kind == 2 && a.size == 1 && b.size == 1 && a.band == 0 && b.band == 0
    modifies q, q.msgs, q.deferred
    ensures q.Valid() && q.msgs == [b] && q.released == old(q.released) + [a]
    ensures q.refused == {0} && q.searches == old(q.searches) && !q.wantw && !q.Remembered()
  {
    hide Index, AllFlags, UsedFlags, Sorted, Chain, Unbanded, Kept, PutMsgs, Freed, Bytes, Wanted;
    assert a.key == 0 && b.key == 0;
    assert BandsOf(q.msgs) == [0, 0] && BandsOf(q.deferred) == [];
    hide Links, Queue.Linked;
    NobodyWanted(q.bands);
    FlushedData(a, b);
    Filled(a, b);
    q.Flush(-1, false);
  }

  lemma NobodyWanted(bands: seq<QBand>)
    requires !Wanted(bands)
    ensures forall k: nat :: true !in Spared(Wants(bands), k)
  {
  }

  lemma Filled(a: Mblk, b: Mblk)
    requires a.key == 0 && b.key == 0 && a.size == 1 && b.size == 1
    ensures Ins([], Tail(Keys([]), a.key), a) == [a] && Ins([a], Tail(Keys([a]), b.key), b) == [a, b]
    ensures Unbanded([a, b]) == 2 && Unbanded([b]) == 1 && Bytes([]) == 0
  {
    hide Unbanded, Index, Run, Head;
    assert Keys([]) == [] && Keys([a]) == [0];
    TailIs([0], 0, 1);
    assert Ins<Mblk>([], 0, a) == [a] && Ins<Mblk>([], 0, b) == [b] && Ins([a], 1, b) == [a, b];
    InsUnbanded([], [], [], 0, a);
    InsUnbanded([], [], [], 0, b);
    InsUnbanded([], [], [a], 1, b);
    NothingUnbanded();
  }

  lemma NothingUnbanded()
    ensures Unbanded([]) == 0
  {
  }

  lemma FlushedData(a: Mblk, b: Mblk)
    requires a.kind == 0 && b.kind == 2 && b.key == 0
    ensures Kept([a, b], [0, 0], -1, false) == [b] && Kept([], [], -1, false) == []
    ensures Freed([a, b], [0, 0], -1, false, false) == [a] && Freed([], [], -1, false, false) == []
    ensures PutMsgs(PutMsgs([], [b]), []) == [b]
  {
    assert [a, b][1..] == [b] && [0, 0][1..] == [0] && [b][1..] == [] && [0][1..] == [];
    assert Kept([b], [0], -1, false) == [b] + Kept([], [], -1, false);
    assert Freed([b], [0], -1, false, false) == Freed([], [], -1, false, false);
    PutAllSorted([b], Keys([b]));
  }
}
