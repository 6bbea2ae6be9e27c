/** The messages of a queue and the per-band index that rides on top of them (head/queue.c).

  An index record has no field for its band: it serves the band of the message its `first` points at.
  */
module BandIndex {
  import opened Priority

  /** The first db_type of the high-priority messages. */
  const QPCTL: nat := 10

  const MAX_BAND: nat := 255

  /** A message: its first block's links, type, band and size. */
  class Mblk {
    const kind: nat
    const size: nat
    ghost const key: nat   // where the message belongs: putq may zero the band of a high-priority message, not its key
    var band: nat
    var next: Mblk?
    var prev: Mblk?

    constructor (kind: nat, size: nat, band: nat)
      requires band <= MAX_BAND
      ensures Ok() && this.kind == kind && this.size == size && this.band == band && next == null && prev == null
    {
      this.kind, this.size, this.band := kind, size, band;
      next, prev := null, null;
      key := if kind >= QPCTL then HIGH else band;
    }

    predicate Hi() { kind >= QPCTL }

    ghost predicate Ok()
      reads this`band
    {
      band <= MAX_BAND && key == if Hi() then HIGH else band
    }

    ghost predicate Banded() { 1 <= key <= MAX_BAND }
  }

  /** struct qband. */
  datatype QBand = QBand(first: Mblk?, last: Mblk?, count: int, full: bool, wasfull: bool, wantw: bool)

  ghost function Keys(ms: seq<Mblk>): seq<nat> { seq(|ms|, i requires 0 <= i < |ms| => ms[i].key) }

  ghost function Sizes(ms: seq<Mblk>): seq<nat> { seq(|ms|, i requires 0 <= i < |ms| => ms[i].size) }

  ghost function Bytes(ms: seq<Mblk>): nat { Sum(Sizes(ms)) }

  /** The messages of class b. */
  ghost function Run(ms: seq<Mblk>, b: nat): seq<Mblk> { Of(ms, Keys(ms), b) }

  /** What q_count counts: the messages outside the bands. */
  ghost function Unbanded(ms: seq<Mblk>): nat { Bytes(Run(ms, HIGH)) + Bytes(Run(ms, 0)) }

  /** Record r delimits the messages of band b and counts their bytes. */
  ghost predicate Serves(r: QBand, b: nat, ms: seq<Mblk>) {
    var run := Run(ms, b);
    run != [] && r.first == run[0] && r.last == run[|run| - 1] && r.count == Bytes(run)
  }

  predicate Free(r: QBand) { r.first == null && r.last == null && r.count == 0 }

  ghost predicate RecordOk(tag: nat, r: QBand, ms: seq<Mblk>) {
    if tag == 0 then Free(r) else tag <= MAX_BAND && Serves(r, tag, ms)
  }

  /** Each non-empty band has exactly one record; `tags` says which band a record serves (0: none). */
  ghost predicate Index(tags: seq<nat>, bands: seq<QBand>, ms: seq<Mblk>) {
    && |tags| == |bands|
    && (forall i :: 0 <= i < |tags| ==> RecordOk(tags[i], bands[i], ms))
    && (forall i, j :: 0 <= i < j < |tags| && tags[i] == tags[j] ==> tags[i] == 0)
    && (forall b :: 1 <= b <= MAX_BAND && Run(ms, b) != [] ==> b in tags)
  }

  /** In a sorted queue the messages of a class stand side by side. */
  lemma RunIsContiguous(ms: seq<Mblk>, b: nat)
    requires Sorted(Keys(ms))
    ensures Head(Keys(ms), b) <= Tail(Keys(ms), b)
    ensures Run(ms, b) == ms[Head(Keys(ms), b)..Tail(Keys(ms), b)]
  {
    OfIsSlice(ms, Keys(ms), b);
  }

  lemma KeysIns(ms: seq<Mblk>, p: nat, m: Mblk)
    requires p <= |ms|
    ensures Keys(Ins(ms, p, m)) == Ins(Keys(ms), p, m.key)
    ensures Keys(ms)[..p] == Keys(ms[..p]) && Keys(ms)[p..] == Keys(ms[p..])
  {
  }

  lemma KeysDel(ms: seq<Mblk>, p: nat)
    requires p < |ms|
    ensures Keys(Del(ms, p)) == Del(Keys(ms), p)
    ensures Ins(Del(ms, p), p, ms[p]) == ms
    ensures Sorted(Keys(ms)) ==> Sorted(Keys(Del(ms, p)))
  {
    assert Keys(Del(ms, p)) == Del(Keys(ms), p);
    if Sorted(Keys(ms)) { DelSorted(Keys(ms), p); }
  }

  lemma InsSorted(ms: seq<Mblk>, p: nat, m: Mblk)
    requires Sorted(Keys(ms)) && p <= |ms| && Spot(Keys(ms), p, m.key)
    ensures Sorted(Keys(Ins(ms, p, m)))
  {
    KeysIns(ms, p, m);
    SpotIffSorted(Keys(ms), p, m.key);
  }

  lemma BytesIns(ms: seq<Mblk>, p: nat, m: Mblk)
    requires p <= |ms|
    ensures Bytes(Ins(ms, p, m)) == Bytes(ms) + m.size
  {
    assert Sizes(Ins(ms, p, m)) == Ins(Sizes(ms), p, m.size);
    SumIns(Sizes(ms), p, m.size);
  }

  lemma BytesCat(a: seq<Mblk>, b: seq<Mblk>)
    ensures Bytes(a + b) == Bytes(a) + Bytes(b)
  {
    assert Sizes(a + b) == Sizes(a) + Sizes(b);
    SumCat(Sizes(a), Sizes(b));
  }

  /** Inserting m changes the run of its class and no other. */
  lemma RunAfterIns(ms: seq<Mblk>, p: nat, m: Mblk, b: nat)
    requires p <= |ms|
    ensures Run(ms, b) == Run(ms[..p], b) + Run(ms[p..], b)
    ensures b == m.key ==> Run(Ins(ms, p, m), b) == Run(ms[..p], b) + [m] + Run(ms[p..], b)
    ensures b != m.key ==> Run(Ins(ms, p, m), b) == Run(ms, b)
  {
    KeysIns(ms, p, m);
    OfIns(ms, Keys(ms), p, m, m.key, b);
  }

  lemma BytesAfterIns(ms: seq<Mblk>, p: nat, m: Mblk)
    requires p <= |ms|
    ensures Bytes(Run(Ins(ms, p, m), m.key)) == Bytes(Run(ms, m.key)) + m.size
  {
    RunAfterIns(ms, p, m, m.key);
    var a, b := Run(ms[..p], m.key), Run(ms[p..], m.key);
    BytesCat(a + [m], b);
    BytesCat(a, [m]);
    BytesCat(a, b);
    assert Sizes([m]) == [m.size];
    assert Sum([m.size]) == m.size + Sum([m.size][1..]);
  }

  /** The index depends on the runs of the bands only. */
  lemma SameRuns(tags: seq<nat>, bands: seq<QBand>, ms: seq<Mblk>, n: seq<Mblk>)
    requires forall b :: 1 <= b <= MAX_BAND ==> Run(n, b) == Run(ms, b)
    requires Index(tags, bands, ms)
    ensures Index(tags, bands, n)
  {
    forall i | 0 <= i < |tags| ensures RecordOk(tags[i], bands[i], n) { assert RecordOk(tags[i], bands[i], ms); }
    forall b | 1 <= b <= MAX_BAND && Run(n, b) != [] ensures b in tags { assert Run(ms, b) != []; }
  }

  /** A message outside the bands changes q_count's share and leaves the index alone. */
  lemma InsUnbanded(tags: seq<nat>, bands: seq<QBand>, ms: seq<Mblk>, p: nat, m: Mblk)
    requires p <= |ms| && (m.key == 0 || m.key == HIGH)
    ensures Index(tags, bands, ms) <==> Index(tags, bands, Ins(ms, p, m))
    ensures Unbanded(Ins(ms, p, m)) == Unbanded(ms) + m.size
  {
    var n := Ins(ms, p, m);
    forall b | b != m.key ensures Run(n, b) == Run(ms, b) { RunAfterIns(ms, p, m, b); }
    BytesAfterIns(ms, p, m);
    if Index(tags, bands, ms) { SameRuns(tags, bands, ms, n); }
    if Index(tags, bands, n) { SameRuns(tags, bands, n, ms); }
  }

  /** What becomes of the record of m's band when m is put at place p. */
  ghost predicate Grown(r: QBand, r': QBand, ms: seq<Mblk>, p: nat, m: Mblk)
    requires p <= |ms|
  {
    && r'.count == r.count + m.size
    && r'.first == (if Run(ms[..p], m.key) == [] then m else r.first)
    && r'.last == (if Run(ms[p..], m.key) == [] then m else r.last)
  }

  lemma GrownServes(r: QBand, r': QBand, ms: seq<Mblk>, p: nat, m: Mblk)
    requires p <= |ms| && Grown(r, r', ms, p, m)
    requires Serves(r, m.key, ms) || (Free(r) && Run(ms, m.key) == [])
    ensures Serves(r', m.key, Ins(ms, p, m))
  {
    RunAfterIns(ms, p, m, m.key);
    BytesAfterIns(ms, p, m);
    assert Bytes([]) == 0;
  }

  /** Putting a banded message and updating its band's record, new or not, keeps the index. */
  lemma InsBanded(tags: seq<nat>, bands: seq<QBand>, ms: seq<Mblk>, p: nat, m: Mblk, i: nat, r': QBand)
    requires p <= |ms| && m.Banded() && Index(tags, bands, ms) && i < |tags|
    requires tags[i] == m.key || (tags[i] == 0 && m.key !in tags)
    requires Grown(bands[i], r', ms, p, m)
    ensures Index(tags[i := m.key], bands[i := r'], Ins(ms, p, m))
    ensures Unbanded(Ins(ms, p, m)) == Unbanded(ms)
  {
    var n := Ins(ms, p, m);
    var tags', bands' := tags[i := m.key], bands[i := r'];
    forall b | b != m.key ensures Run(n, b) == Run(ms, b) { RunAfterIns(ms, p, m, b); }
    assert RecordOk(tags[i], bands[i], ms);
    GrownServes(bands[i], r', ms, p, m);
    forall j | 0 <= j < |tags'| ensures RecordOk(tags'[j], bands'[j], n) { assert RecordOk(tags[j], bands[j], ms); }
    forall b | 1 <= b <= MAX_BAND && Run(n, b) != [] ensures b in tags' {
      if b == m.key {
        assert tags'[i] == b;
      } else {
        var j :| 0 <= j < |tags| && tags[j] == b;
        assert tags'[j] == b;
      }
    }
  }

  /** What becomes of the record of m's band when m leaves place p of Ins(ms, p, m). */
  ghost predicate Shrunk(r: QBand, r': QBand, ms: seq<Mblk>, p: nat, m: Mblk)
    requires p <= |ms|
  {
    var run := Run(ms, m.key);
    && r'.count == r.count - m.size
    && r'.first == (if run == [] then null else if Run(ms[..p], m.key) == [] then run[0] else r.first)
    && r'.last == (if run == [] then null else if Run(ms[p..], m.key) == [] then run[|run| - 1] else r.last)
  }

  lemma ShrunkServes(r: QBand, r': QBand, ms: seq<Mblk>, p: nat, m: Mblk)
    requires p <= |ms| && Shrunk(r, r', ms, p, m) && Serves(r, m.key, Ins(ms, p, m))
    ensures if Run(ms, m.key) == [] then Free(r') else Serves(r', m.key, ms)
  {
    RunAfterIns(ms, p, m, m.key);
    BytesAfterIns(ms, p, m);
    assert Bytes([]) == 0;
  }

  /** Taking a banded message out and updating its band's record keeps the index. */
  lemma DelBanded(tags: seq<nat>, bands: seq<QBand>, ms: seq<Mblk>, p: nat, m: Mblk, i: nat, r': QBand)
    requires p <= |ms| && m.Banded() && Index(tags, bands, Ins(ms, p, m)) && i < |tags| && tags[i] == m.key
    requires Shrunk(bands[i], r', ms, p, m)
    ensures Index(tags[i := if Run(ms, m.key) == [] then 0 else m.key], bands[i := r'], ms)
    ensures Unbanded(Ins(ms, p, m)) == Unbanded(ms)
  {
    var n := Ins(ms, p, m);
    var tags', bands' := tags[i := if Run(ms, m.key) == [] then 0 else m.key], bands[i := r'];
    forall b | b != m.key ensures Run(n, b) == Run(ms, b) { RunAfterIns(ms, p, m, b); }
    assert RecordOk(tags[i], bands[i], n);
    ShrunkServes(bands[i], r', ms, p, m);
    forall j | 0 <= j < |tags'| ensures RecordOk(tags'[j], bands'[j], ms) { assert RecordOk(tags[j], bands[j], n); }
    forall b | 1 <= b <= MAX_BAND && Run(ms, b) != [] ensures b in tags' {
      if b == m.key {
        assert tags'[i] == b;
      } else {
        var j :| 0 <= j < |tags| && tags[j] == b;
        assert tags'[j] == b;
      }
    }
  }

  /** A record that serves no band can be wiped, and a new one added. */
  lemma Wiped(tags: seq<nat>, bands: seq<QBand>, ms: seq<Mblk>, i: nat, blank: QBand)
    requires Index(tags, bands, ms) && Free(blank) && i <= |bands| && (i < |tags| ==> tags[i] == 0)
    ensures i < |bands| ==> Index(tags, bands[i := blank], ms)
    ensures i == |bands| ==> Index(tags + [0], bands + [blank], ms)
  {
    forall l | 0 <= l < |tags| ensures RecordOk(tags[l], bands[l], ms) { }
  }

  /** The flags of a record do not matter to the index. */
  lemma SameButFlags(tags: seq<nat>, bands: seq<QBand>, ms: seq<Mblk>, i: nat, r: QBand)
    requires Index(tags, bands, ms) && i < |bands|
    requires r.first == bands[i].first && r.last == bands[i].last && r.count == bands[i].count
    ensures Index(tags, bands[i := r], ms)
  {
    forall l | 0 <= l < |tags| ensures RecordOk(tags[l], bands[i := r][l], ms) {
      assert RecordOk(tags[l], bands[l], ms);
    }
  }

  lemma ForgetBanded(ms: seq<Mblk>, p: nat, m: Mblk)
    requires p <= |ms| && m.Banded()
    ensures Unbanded(Ins(ms, p, m)) == Unbanded(ms)
  {
    RunAfterIns(ms, p, m, 0);
    RunAfterIns(ms, p, m, HIGH);
  }
}
