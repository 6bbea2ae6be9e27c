/** Messages: chains of blocks, and what lis_pullupmsg does to them (head/msgutl.c). */
module MsgUtl {
  import opened Common
  import opened MsgHeap

  /** The bytes of a block, each with the type of the block. */
  ghost function Show(s: Store, m: nat): seq<(nat, nat)> {
    if Readable(s, m) then Typed(KindOf(s, m), Bytes(s, m)) else []
  }

  ghost predicate Readable(s: Store, m: nat) {
    && m in s.mb && s.mb[m].datap.Some?
    && var d := s.mb[m].datap.value;
       && d in s.db && s.db[d].base.Some? && s.db[d].base.value in s.mem
       && s.mb[m].rptr <= s.mb[m].wptr <= |s.mem[s.db[d].base.value]|
  }

  ghost function KindOf(s: Store, m: nat): nat
    requires Readable(s, m)
  {
    s.db[s.mb[m].datap.value].kind
  }

  ghost function Bytes(s: Store, m: nat): seq<nat>
    requires Readable(s, m)
  {
    s.mem[s.db[s.mb[m].datap.value].base.value][s.mb[m].rptr..s.mb[m].wptr]
  }

  ghost function Typed(kind: nat, bytes: seq<nat>): seq<(nat, nat)> {
    seq(|bytes|, i requires 0 <= i < |bytes| => (kind, bytes[i]))
  }

  /** The bytes of a message. */
  ghost function View(s: Store, ch: seq<nat>): seq<(nat, nat)> {
    if ch == [] then [] else Show(s, ch[0]) + View(s, ch[1..])
  }

  function First(ch: seq<nat>): Option<nat> { if ch == [] then None else Some(ch[0]) }

  /** The blocks ch follow each other by b_cont, to the end. */
  ghost predicate Chain(s: Store, ch: seq<nat>) {
    ch == [] || (ch[0] in s.mb && ch[0] !in ch[1..] && s.mb[ch[0]].cont == First(ch[1..]) && Chain(s, ch[1..]))
  }

  /** The number of bytes in the leading blocks of a type. */
  ghost function Lead(s: Store, ch: seq<nat>, kind: nat): nat {
    if ch == [] || !Readable(s, ch[0]) || KindOf(s, ch[0]) != kind then 0 else |Show(s, ch[0])| + Lead(s, ch[1..], kind)
  }

  ghost function Members(ch: seq<nat>): set<nat> { set m | m in ch }

  lemma KeptShow(s: Store, s': Store, m: nat)
    requires Kept(s, s', m) && Readable(s, m)
    ensures Readable(s', m) && Show(s', m) == Show(s, m) && KindOf(s', m) == KindOf(s, m) && s'.mb[m] == s.mb[m]
  {
  }

  /** What keeps the blocks of a message keeps the message. */
  lemma {:induction false} Carry(s: Store, s': Store, ms: set<nat>, ch: seq<nat>)
    requires Keeps(s, s', ms) && Members(ch) <= ms && forall m :: m in ch ==> Readable(s, m)
    ensures View(s', ch) == View(s, ch)
    ensures forall kind :: Lead(s', ch, kind) == Lead(s, ch, kind)
    ensures Chain(s, ch) ==> Chain(s', ch)
    ensures forall m :: m in ch ==> Readable(s', m) && KindOf(s', m) == KindOf(s, m)
  {
    if ch != [] {
      assert ch[0] in Members(ch);
      KeptShow(s, s', ch[0]);
      assert Members(ch[1..]) <= ms by { forall m | m in ch[1..] ensures m in ms { assert m in Members(ch); } }
      Carry(s, s', ms, ch[1..]);
    }
  }

  lemma LiveReadable(s: Store, u: Use, fastbuf: nat, ch: seq<nat>)
    requires Inv(s, u, fastbuf) && u.loose == {} && Members(ch) <= u.live
    ensures forall m :: m in ch ==> Readable(s, m) && |Show(s, m)| == s.mb[m].wptr - s.mb[m].rptr
  {
    forall m | m in ch ensures Readable(s, m) && |Show(s, m)| == s.mb[m].wptr - s.mb[m].rptr {
      assert m in Members(ch);
      AttachedIsLive(s, u, fastbuf, m);
      assert Sane(s, u, m);
    }
  }

  lemma ChainTail(s: Store, ch: seq<nat>, ms: set<nat>)
    requires Chain(s, ch) && ch != [] && Members(ch) <= ms
    ensures ch[0] in s.mb && s.mb[ch[0]].cont == First(ch[1..]) && Chain(s, ch[1..]) && Members(ch[1..]) <= ms
    ensures ch[0] in ms && ch[0] !in Members(ch[1..])
  {
    assert ch[0] in Members(ch);
    forall m | m in Members(ch[1..]) ensures m in ms { assert m in Members(ch); }
  }

  /** lis_xmsgsize: the bytes in the leading blocks of the type of the first. */
  method XMsgSize(h: Heap, mp: nat, ghost ch: seq<nat>) returns (n: nat)
    requires h.Valid() && Chain(h.Now(), ch) && Members(ch) <= h.use.live && First(ch) == Some(mp)
    ensures Readable(h.Now(), mp) && n == Lead(h.Now(), ch, KindOf(h.Now(), mp))
  {
    hide Inv;
    ghost var s := h.Now();
    LiveReadable(s, h.use, h.fastbuf, ch);
    var kind := h.db[h.mb[mp].datap.value].kind;
    n := 0;
    var tmp := Some(mp);
    ghost var rest := ch;
    while tmp.Some? && h.db[h.mb[tmp.value].datap.value].kind == kind
      invariant Chain(s, rest) && Members(rest) <= h.use.live && tmp == First(rest)
      invariant forall m :: m in rest ==> Readable(s, m) && |Show(s, m)| == s.mb[m].wptr - s.mb[m].rptr
      invariant n + Lead(s, rest, kind) == Lead(s, ch, kind)
      decreases |rest|
    {
      ChainTail(s, rest, h.use.live);
      var m := tmp.value;
      if h.mb[m].rptr < h.mb[m].wptr { n := n + (h.mb[m].wptr - h.mb[m].rptr); }
      tmp, rest := h.mb[m].cont, rest[1..];
    }
  }

  lemma Distinct(s: Store, u: Use, fastbuf: nat, nb: nat, t: nat)
    requires Inv(s, u, fastbuf) && u.loose == {} && nb in u.live && t in u.live && t != nb
    requires Readable(s, nb) && Readable(s, t) && s.mb[nb].datap == Some(nb) && s.db[nb].ref == 1
    ensures s.db[nb].base != s.db[s.mb[t].datap.value].base && s.mb[t].datap != Some(nb)
  {
    AttachedIsLive(s, u, fastbuf, t);
    OtherBuffer(s, u, fastbuf, nb, t);
  }

  lemma EditIt(s: Store, s': Store, u: Use, fastbuf: nat, m: nat, blk: Mblk)
    requires Inv(s, u, fastbuf) && u.loose == {} && m in u.live && Readable(s, m) && s' == s.(mb := s.mb[m := blk])
    requires blk.datap == s.mb[m].datap && Readable(s', m)
    ensures Inv(s', u, fastbuf) && Keeps(s, s', u.live - {m})
  {
    AttachedIsLive(s, u, fastbuf, m);
    assert Sane(s', u, m);
    Edit(s, s', u, fastbuf, m, blk);
  }

  /** The effect of the copying on the two blocks. */
  lemma Copied(s: Store, s': Store, nb: nat, t: nat, n: nat, bytes: seq<nat>)
    requires Readable(s, nb) && Readable(s, t) && nb != t && s.mb[nb].datap == Some(nb) && KindOf(s, nb) == KindOf(s, t)
    requires s.db[nb].base != s.db[s.mb[t].datap.value].base
    requires n <= s.mb[t].wptr - s.mb[t].rptr && s.mb[nb].wptr + n <= |s.mem[s.db[nb].base.value]|
    requires s'.db == s.db && s'.mem == s.mem[s.db[nb].base.value := bytes]
    requires s'.mb == s.mb[t := s.mb[t].(rptr := s.mb[t].rptr + n)][nb := s.mb[nb].(wptr := s.mb[nb].wptr + n)]
    requires var buf, w := s.mem[s.db[nb].base.value], s.mb[nb].wptr;
             bytes == buf[..w] + Bytes(s, t)[..n] + buf[w + n..]
    ensures Readable(s', nb) && Readable(s', t) && n <= |Show(s, t)|
    ensures KindOf(s', nb) == KindOf(s, nb) && KindOf(s', t) == KindOf(s, t)
    ensures Show(s', nb) == Show(s, nb) + Show(s, t)[..n] && Show(s', t) == Show(s, t)[n..]
  {
    assert Bytes(s', nb) == Bytes(s, nb) + Bytes(s, t)[..n];
    assert Bytes(s', t) == Bytes(s, t)[n..];
  }

  function Min(a: int, b: int): int { if a < b then a else b }

  /** The copying of lis_pullupmsg: n bytes of block t go behind those of block nb, which has its buffer for itself. */
  method CopyBytes(h: Heap, nb: nat, t: nat, n: nat)
    requires h.Valid() && nb in h.use.live && t in h.use.live && t != nb
    requires Readable(h.Now(), nb) && Readable(h.Now(), t) && KindOf(h.Now(), nb) == KindOf(h.Now(), t)
    requires h.mb[nb].datap == Some(nb) && h.db[nb].ref == 1
    requires n <= h.mb[t].wptr - h.mb[t].rptr && h.mb[nb].wptr + n <= |h.mem[h.db[nb].base.value]|
    modifies h`mem, h`mb
    ensures h.Valid() && Keeps(old(h.Now()), h.Now(), h.use.live - {nb, t})
    ensures Readable(h.Now(), nb) && Readable(h.Now(), t) && n <= |old(Show(h.Now(), t))|
    ensures KindOf(h.Now(), nb) == old(KindOf(h.Now(), nb)) && KindOf(h.Now(), t) == old(KindOf(h.Now(), t))
    ensures Show(h.Now(), nb) == old(Show(h.Now(), nb)) + old(Show(h.Now(), t))[..n]
    ensures Show(h.Now(), t) == old(Show(h.Now(), t))[n..]
    ensures h.mb == old(h.mb)[t := old(h.mb[t]).(rptr := old(h.mb[t].rptr) + n)]
                             [nb := old(h.mb[nb]).(wptr := old(h.mb[nb].wptr) + n)]
    ensures h.mem.Keys == old(h.mem.Keys) && |h.mem[h.db[nb].base.value]| == old(|h.mem[h.db[nb].base.value]|)
  {
    hide Inv, Keeps, Show, Typed;
    ghost var s, u := h.Now(), h.use;
    AttachedIsLive(s, u, h.fastbuf, nb);
    AttachedIsLive(s, u, h.fastbuf, t);
    Distinct(s, u, h.fastbuf, nb, t);
    var b, c := h.db[nb].base.value, h.db[h.mb[t].datap.value].base.value;
    var w, r := h.mb[nb].wptr, h.mb[t].rptr;
    var bytes := h.mem[b][..w] + h.mem[c][r..r + n] + h.mem[b][w + n..];
    assert h.mem[c][r..r + n] == Bytes(s, t)[..n];
    h.mem := h.mem[b := bytes];
    ghost var s1 := h.Now();
    Write(s, s1, u, h.fastbuf, nb, b, bytes);
    h.mb := h.mb[t := h.mb[t].(rptr := r + n)];
    ghost var s2 := h.Now();
    EditIt(s1, s2, u, h.fastbuf, t, h.mb[t]);
    h.mb := h.mb[nb := h.mb[nb].(wptr := w + n)];
    ghost var s3 := h.Now();
    assert Readable(s2, nb) && Readable(s3, nb);
    EditIt(s2, s3, u, h.fastbuf, nb, h.mb[nb]);
    KeepsTrans(s, s1, s2, u.live - {nb}, u.live - {nb, t}) by { KeepsFewer(s1, s2, u.live - {t}, u.live - {nb, t}); }
    KeepsTrans(s, s2, s3, u.live - {nb, t}, u.live - {nb, t}) by {
      KeepsFewer(s2, s3, u.live - {nb}, u.live - {nb, t});
    }
    Copied(s, s3, nb, t, n, bytes);
  }

  /** Nobody else points at the data block of nb. */
  ghost predicate Sole(s: Store, live: set<nat>, nb: nat) {
    && nb in live && nb in s.mb && s.mb[nb].datap == Some(nb)
    && forall m :: m in live && m != nb ==> m in s.mb && s.mb[m].datap != Some(nb)
  }

  lemma SoleRef(s: Store, u: Use, fastbuf: nat, nb: nat)
    requires Inv(s, u, fastbuf) && u.loose == {} && Sole(s, u.live, nb)
    ensures nb in s.db && s.db[nb].ref == 1
  {
    AttachedIsLive(s, u, fastbuf, nb);
    assert Count(s, u, nb);
    assert Pointing(s.mb, u.Attached(), nb) == {nb};
  }

  /** Emptied blocks are linked out and freed. */
  method DropEmpty(h: Heap, prev: nat, t: nat)
    requires h.Valid() && prev in h.use.live && t in h.use.live && t != prev
    requires Readable(h.Now(), prev)
    modifies h
    ensures h.Valid() && h.use.live == old(h.use.live) - {t}
    ensures t in old(h.mb) && prev in old(h.mb) && prev in h.mb
            && h.mb[prev] == old(h.mb[prev]).(cont := old(h.mb[t]).cont)
    ensures Keeps(old(h.Now()), h.Now(), h.use.live - {prev})
    ensures h.use.holds.Keys <= old(h.use.holds).Keys && forall m :: m in h.use.live ==> HoldsOn(old(h.use), h.use, m)
    ensures Readable(h.Now(), prev) && Show(h.Now(), prev) == old(Show(h.Now(), prev))
    ensures KindOf(h.Now(), prev) == old(KindOf(h.Now(), prev))
  {
    hide Inv, Keeps, Show, Bytes;
    ghost var s, u := h.Now(), h.use;
    AttachedIsLive(s, u, h.fastbuf, prev);
    AttachedIsLive(s, u, h.fastbuf, t);
    LiveReadable(s, u, h.fastbuf, [t]);
    h.mb := h.mb[prev := h.mb[prev].(cont := h.mb[t].cont)];
    ghost var s1 := h.Now();
    EditIt(s, s1, u, h.fastbuf, prev, h.mb[prev]);
    SameShow(s, s1, prev);
    h.mb := h.mb[t := h.mb[t].(cont := None)];
    ghost var s2 := h.Now();
    assert Readable(s1, t) && Readable(s2, t);
    EditIt(s1, s2, u, h.fastbuf, t, h.mb[t]);
    SameShow(s1, s2, prev);
    h.FreeB(t);
    ghost var s3 := h.Now();
    KeepsFewer(s1, s2, u.live - {t}, u.live - {t, prev});
    KeepsTrans(s, s1, s2, u.live - {prev}, u.live - {t, prev});
    KeepsTrans(s, s2, s3, u.live - {t, prev}, u.live - {t, prev}) by {
      KeepsFewer(s2, s3, h.use.live, u.live - {t, prev});
    }
    assert h.use.live - {prev} == u.live - {t, prev};
    assert Kept(s2, s3, prev) by { KeepsOne(s2, s3, h.use.live, prev); }
    KeptShow(s2, s3, prev);
  }

  lemma KeepsOne(s: Store, s': Store, ms: set<nat>, m: nat)
    requires Keeps(s, s', ms) && m in ms
    ensures Kept(s, s', m)
  {
  }

  lemma SameShow(s: Store, s': Store, m: nat)
    requires Readable(s, m) && m in s'.mb && s'.db == s.db && s'.mem == s.mem
    requires s'.mb[m].datap == s.mb[m].datap && s'.mb[m].rptr == s.mb[m].rptr && s'.mb[m].wptr == s.mb[m].wptr
    ensures Readable(s', m) && Show(s', m) == Show(s, m) && KindOf(s', m) == KindOf(s, m)
  {
  }

  lemma ViewCons(s: Store, m: nat, rest: seq<nat>)
    ensures View(s, [m] + rest) == Show(s, m) + View(s, rest)
  {
    assert ([m] + rest)[1..] == rest;
  }

  /** The buffer of nb takes another n bytes. */
  ghost predicate Room(s: Store, nb: nat, n: nat)
    requires Readable(s, nb)
  {
    s.mb[nb].wptr + n <= |s.mem[s.db[s.mb[nb].datap.value].base.value]|
  }

  /** Inside lis_pullupmsg: the message is mp and rest, `length` bytes of it are still to be copied to nb; at the
      `front` the first block is to be copied next, later it is empty. */
  ghost predicate Pulling(s: Store, live: set<nat>, nb: nat, mp: nat, rest: seq<nat>, front: bool, length: nat,
                          kind: nat)
  {
    && mp in s.mb && s.mb[mp].cont == First(rest) && Chain(s, rest) && mp !in rest && nb !in rest && mp != nb
    && mp in live && Members(rest) <= live && (forall m :: m in rest ==> Readable(s, m)) && Readable(s, mp)
    && Sole(s, live, nb) && Readable(s, nb) && KindOf(s, nb) == kind && Room(s, nb, length)
    && (if front then KindOf(s, mp) == kind && |Show(s, mp)| <= length <= |Show(s, mp)| + Lead(s, rest, kind)
        else Show(s, mp) == [] && length <= Lead(s, rest, kind))
  }

  /** The copying from one block. */
  method CopyFrom(h: Heap, nb: nat, t: nat, length: nat) returns (left: nat)
    requires h.Valid() && t in h.use.live && t != nb && length > 0
    requires Sole(h.Now(), h.use.live, nb) && Readable(h.Now(), nb) && Readable(h.Now(), t)
    requires KindOf(h.Now(), nb) == KindOf(h.Now(), t) && Room(h.Now(), nb, length)
    modifies h`mem, h`mb
    ensures h.Valid() && left <= length && Keeps(old(h.Now()), h.Now(), h.use.live - {nb, t})
    ensures Readable(h.Now(), nb) && Readable(h.Now(), t) && Room(h.Now(), nb, left) && Sole(h.Now(), h.use.live, nb)
    ensures KindOf(h.Now(), nb) == KindOf(h.Now(), t) == old(KindOf(h.Now(), t))
    ensures length - left == Min(length, |old(Show(h.Now(), t))|)
    ensures Show(h.Now(), nb) == old(Show(h.Now(), nb)) + old(Show(h.Now(), t))[..length - left]
    ensures Show(h.Now(), t) == old(Show(h.Now(), t))[length - left..]
    ensures t in h.mb && t in old(h.mb) && h.mb[t].cont == old(h.mb[t].cont)
    ensures |Show(h.Now(), t)| == h.mb[t].wptr - h.mb[t].rptr
  {
    hide Inv, Keeps;
    ghost var s := h.Now();
    LiveReadable(s, h.use, h.fastbuf, [t]);
    SoleRef(s, h.use, h.fastbuf, nb);
    assert [t][0] == t;
    left := length;
    var n := h.mb[t].wptr - h.mb[t].rptr;
    if n > 0 {
      var nbytes := Min(n, length);
      CopyBytes(h, nb, t, nbytes);
      left := length - nbytes;
    } else {
      SameLive(s, h.use, h.fastbuf);
      KeepsFewer(s, s, h.use.live, h.use.live - {nb, t});
    }
    LiveReadable(h.Now(), h.use, h.fastbuf, [t]);
  }

  /** The first pass of the loop of lis_pullupmsg, over the block that stays. */
  method PassFirst(h: Heap, nb: nat, mp: nat, length: nat, ghost rest: seq<nat>, ghost kind: nat) returns (left: nat)
    requires h.Valid() && length > 0 && Pulling(h.Now(), h.use.live, nb, mp, rest, true, length, kind)
    modifies h`mem, h`mb
    ensures h.Valid() && Pulling(h.Now(), h.use.live, nb, mp, rest, false, left, kind)
    ensures |Show(h.Now(), nb)| + left == |old(Show(h.Now(), nb))| + length
    ensures Show(h.Now(), nb) + View(h.Now(), rest) == old(Show(h.Now(), nb) + Show(h.Now(), mp) + View(h.Now(), rest))
    ensures Keeps(old(h.Now()), h.Now(), h.use.live - {nb, mp} - Members(rest))
  {
    hide Inv, Keeps, Show, Lead, View, Sole;
    ghost var s, live := h.Now(), h.use.live;
    left := CopyFrom(h, nb, mp, length);
    ghost var s' := h.Now();
    InOthers(rest, live, {nb, mp});
    Carry(s, s', live - {nb, mp}, rest);
    KeepsFewer(s, s', live - {nb, mp}, live - {nb, mp} - Members(rest));
  }

  lemma InOthers(rest: seq<nat>, live: set<nat>, out: set<nat>)
    requires Members(rest) <= live && forall m :: m in out ==> m !in rest
    ensures Members(rest) <= live - out
  {
  }

  /** A later pass, over the first block t of the rest; `gone` says whether it was emptied and freed. */
  method PassNext(h: Heap, nb: nat, mp: nat, t: nat, length: nat, ghost rest: seq<nat>, ghost kind: nat)
      returns (left: nat, gone: bool)
    requires h.Valid() && length > 0 && Pulling(h.Now(), h.use.live, nb, mp, rest, false, length, kind)
    requires First(rest) == Some(t) && KindOf(h.Now(), t) == kind
    modifies h
    ensures h.Valid() && (left > 0 ==> gone)
    ensures h.use.live == if gone then old(h.use.live) - {t} else old(h.use.live)
    ensures Pulling(h.Now(), h.use.live, nb, mp, if gone then rest[1..] else rest, false, left, kind)
    ensures |Show(h.Now(), nb)| + left == |old(Show(h.Now(), nb))| + length
    ensures Show(h.Now(), nb) + View(h.Now(), if gone then rest[1..] else rest)
         == old(Show(h.Now(), nb) + View(h.Now(), rest))
    ensures Keeps(old(h.Now()), h.Now(), old(h.use.live) - {nb, mp} - Members(rest))
    ensures h.use.holds.Keys <= old(h.use.holds).Keys && HoldsOn(old(h.use), h.use, mp)
  {
    hide Inv, Keeps, Show, Lead, View, Sole, Room;
    ghost var s, live, tail, others := h.Now(), h.use.live, rest[1..], h.use.live - {nb, mp} - Members(rest);
    ChainTail(s, rest, live);
    left := CopyFrom(h, nb, t, length);
    ghost var s1 := h.Now();
    InOthers(tail, live, {nb, t});
    Carry(s, s1, live - {nb, t}, tail);
    KeepsFewer(s, s1, live - {nb, t}, others);
    KeepsOne(s, s1, live - {nb, t}, mp);
    KeptShow(s, s1, mp);
    Unfold(s, rest, kind);
    Unfold(s1, rest, kind);
    gone := h.mb[t].rptr == h.mb[t].wptr;
    assert gone <==> Show(s1, t) == [];
    if gone {
      ghost var live1 := live - {t};
      DropEmpty(h, mp, t);
      ghost var s2 := h.Now();
      InOthers(tail, live1, {mp});
      Carry(s1, s2, live1 - {mp}, tail);
      SoleKept(s1, s2, live, t, nb, mp);
      KeepsOne(s1, s2, live1 - {mp}, nb);
      KeptShow(s1, s2, nb);
      RoomKept(s1, s2, nb, left);
      KeepsFewer(s1, s2, live1 - {mp}, others) by { assert t in Members(rest); }
      KeepsTrans(s, s1, s2, others, others);
    }
  }

  lemma Unfold(s: Store, ch: seq<nat>, kind: nat)
    requires ch != []
    ensures View(s, ch) == Show(s, ch[0]) + View(s, ch[1..])
    ensures Readable(s, ch[0]) && KindOf(s, ch[0]) == kind ==>
              Lead(s, ch, kind) == |Show(s, ch[0])| + Lead(s, ch[1..], kind)
  {
  }

  lemma SoleKept(s: Store, s': Store, live: set<nat>, t: nat, nb: nat, mp: nat)
    requires Sole(s, live, nb) && Keeps(s, s', live - {t} - {mp}) && nb != t && nb != mp
    requires mp in s.mb && mp in s'.mb && s'.mb[mp].datap == s.mb[mp].datap
    ensures Sole(s', live - {t}, nb) && nb in live - {t} - {mp}
  {
    var live' := live - {t};
    assert Kept(s, s', nb);
    forall m | m in live' && m != nb ensures m in s'.mb && s'.mb[m].datap != Some(nb) {
      if m != mp { assert Kept(s, s', m); }
    }
  }

  lemma RoomKept(s: Store, s': Store, nb: nat, n: nat)
    requires Kept(s, s', nb) && Readable(s, nb) && Readable(s', nb) && Room(s, nb, n)
    ensures Room(s', nb, n)
  {
  }

  /** lis_pullupmsg gets the new block: it is empty, has the message's type, and its buffer is outside its header. */
  method NewPulled(h: Heap, mp: nat, length: nat, hdr: Option<nat>, buf: Option<nat>, ghost rest: seq<nat>)
      returns (r: Option<nat>)
    requires h.Valid() && Chain(h.Now(), [mp] + rest) && Members([mp] + rest) <= h.use.live && Readable(h.Now(), mp)
    requires |Show(h.Now(), mp)| <= length <= |Show(h.Now(), mp)| + Lead(h.Now(), rest, KindOf(h.Now(), mp))
    requires (hdr.Some? ==> hdr.value !in h.db) && (buf.Some? ==> Kernel(buf.value) !in h.mem)
    modifies h
    ensures h.Valid() && (r == if buf.None? then None else hdr)
    ensures r.None? ==> h.Now() == old(h.Now()) && h.use == old(h.use)
    ensures r.Some? ==>
              h.use.live == old(h.use.live) + {r.value} && r.value !in old(h.use.live) && Readable(h.Now(), mp)
    ensures r.Some? ==> Pulling(h.Now(), h.use.live, r.value, mp, rest, true, length, KindOf(h.Now(), mp))
    ensures r.Some? ==> Show(h.Now(), r.value) == []
    ensures r.Some? ==> Show(h.Now(), mp) == old(Show(h.Now(), mp)) && View(h.Now(), rest) == old(View(h.Now(), rest))
    ensures r.Some? ==> Keeps(old(h.Now()), h.Now(), old(h.use.live))
    ensures r.Some? ==> h.use.holds.Keys <= old(h.use.holds).Keys + {r.value}
    ensures r.Some? ==> HoldsOn(old(h.use), h.use, mp) && r.value !in old(h.db)
  {
    hide Inv, Keeps, Lead, View, Show, Chain, Sole;
    ghost var s, u, live := h.Now(), h.use, h.use.live;
    var need := if length <= h.fastbuf then h.fastbuf + 1 else length;
    r := h.AllocB(need, hdr, buf);
    if r.None? { return; }
    var nb := r.value;
    ghost var s1, u1 := h.Now(), h.use;
    ChainTail(s, [mp] + rest, live);
    assert ([mp] + rest)[1..] == rest;
    AttachedIsLive(s, u, h.fastbuf, mp);
    LiveReadable(s, u, h.fastbuf, rest);
    NewIsSole(s, s1, live, nb);
    h.db := h.db[nb := h.db[nb].(kind := h.db[h.mb[mp].datap.value].kind)];
    ghost var s2 := h.Now();
    AttachedIsLive(s1, u1, h.fastbuf, nb);
    Retype(s1, s2, u1, h.fastbuf, nb, h.db[nb].kind);
    KeepsFewer(s1, s2, u1.Attached() - {nb}, live);
    KeepsTrans(s, s1, s2, live, live);
    Carry(s, s2, live, rest);
    KeepsOne(s, s2, live, mp);
    KeptShow(s, s2, mp);
    Blank(s2, nb);
    NewIsSole(s, s2, live, nb);
  }

  lemma Blank(s: Store, m: nat)
    requires Readable(s, m) && s.mb[m].rptr == s.mb[m].wptr
    ensures Show(s, m) == []
  {
  }

  lemma NewIsSole(s: Store, s': Store, live: set<nat>, nb: nat)
    requires nb !in live && nb in s'.mb && s'.mb[nb].datap == Some(nb) && nb !in s.db
    requires Keeps(s, s', live)
    ensures Sole(s', live + {nb}, nb)
  {
    forall m | m in live ensures m in s'.mb && s'.mb[m].datap != Some(nb) { assert Kept(s, s', m); }
  }

  /** The end of lis_pullupmsg: mp gives up its data block and takes over that of nb. */
  method TakeOver(h: Heap, mp: nat, nb: nat, ghost rest: seq<nat>, ghost kind: nat)
    requires h.Valid() && Pulling(h.Now(), h.use.live, nb, mp, rest, false, 0, kind)
    modifies h
    ensures h.Valid() && h.use.live == old(h.use.live) - {nb}
    ensures Readable(h.Now(), mp) && Show(h.Now(), mp) == old(Show(h.Now(), nb))
    ensures View(h.Now(), rest) == old(View(h.Now(), rest)) && Chain(h.Now(), [mp] + rest)
    ensures Keeps(old(h.Now()), h.Now(), old(h.use.live) - {nb, mp})
    ensures mp in h.mb && h.mb[mp].datap == Some(nb) && h.use.holds.Keys <= old(h.use.holds).Keys
    ensures forall x :: x in old(h.use.live) && x != mp && x in old(h.mb) && old(h.mb[x]).datap == Some(mp) ==>
              HoldsOn(old(h.use), h.use, mp)
  {
    hide Inv, Keeps, Lead, View, Show;
    ghost var s, live, others := h.Now(), h.use.live, h.use.live - {nb, mp};
    SoleLive(s, live, nb);
    StillShared(s, h.use, h.fastbuf, mp);
    h.FreeDb(mp, false);
    ghost var s1, u1 := h.Now(), h.use;
    KeepsOne(s, s1, live - {mp}, nb);
    KeptShow(s, s1, nb);
    h.mb := h.mb[mp := h.mb[mp].(datap := h.mb[nb].datap, rptr := h.mb[nb].rptr, wptr := h.mb[nb].wptr)]
                [nb := h.mb[nb].(datap := None, rptr := 0, wptr := 0)];
    h.use := h.use.(live := h.use.live - {nb}, loose := {});
    ghost var s2 := h.Now();
    HandOver(s1, s2, u1, h.use, h.fastbuf, mp, nb);
    Handed(s1, s2, mp, nb);
    assert u1.Attached() == live - {mp};
    KeepsFewer(s, s1, live - {mp}, others);
    KeepsFewer(s1, s2, u1.Attached() - {nb}, others);
    KeepsTrans(s, s1, s2, others, others);
    InOthers(rest, live, {nb, mp});
    Carry(s, s2, others, rest);
    assert ([mp] + rest)[1..] == rest;
  }

  lemma StillShared(s: Store, u: Use, fastbuf: nat, mp: nat)
    requires Inv(s, u, fastbuf) && u.loose == {} && mp in u.live
    ensures forall x :: x in u.live && x != mp && x in s.mb && s.mb[x].datap == Some(mp) ==>
              mp in s.db && s.db[mp].ref > 1
  {
    forall x | x in u.live && x != mp && x in s.mb && s.mb[x].datap == Some(mp) ensures mp in s.db && s.db[mp].ref > 1 {
      TwoUsers(s, u, fastbuf, x, mp);
    }
  }

  lemma SoleLive(s: Store, live: set<nat>, nb: nat)
    requires Sole(s, live, nb)
    ensures nb in live
  {
  }

  lemma Handed(s: Store, s': Store, mp: nat, nb: nat)
    requires Readable(s, nb) && s.mb[nb].datap == Some(nb) && s'.db == s.db && s'.mem == s.mem && mp in s'.mb
    requires s'.mb[mp].datap == Some(nb) && s'.mb[mp].rptr == s.mb[nb].rptr && s'.mb[mp].wptr == s.mb[nb].wptr
    ensures Readable(s', mp) && Show(s', mp) == Show(s, nb)
  {
  }

  /** The loop of lis_pullupmsg. */
  method PullAll(h: Heap, mp: nat, nb: nat, length: nat, ghost rest: seq<nat>, ghost kind: nat)
      returns (ghost rest': seq<nat>)
    requires h.Valid() && length > 0 && Pulling(h.Now(), h.use.live, nb, mp, rest, true, length, kind)
    modifies h
    ensures h.Valid() && Pulling(h.Now(), h.use.live, nb, mp, rest', false, 0, kind)
    ensures |Show(h.Now(), nb)| == |old(Show(h.Now(), nb))| + length
    ensures Show(h.Now(), nb) + View(h.Now(), rest') == old(Show(h.Now(), nb) + Show(h.Now(), mp) + View(h.Now(), rest))
    ensures Members(rest') <= Members(rest) && h.use.live == old(h.use.live) - (Members(rest) - Members(rest'))
    ensures Keeps(old(h.Now()), h.Now(), old(h.use.live) - {nb, mp} - Members(rest))
    ensures h.use.holds.Keys <= old(h.use.holds).Keys && HoldsOn(old(h.use), h.use, mp)
  {
    hide Inv, Keeps, Show, Lead, View, Sole;
    ghost var s, live, others := h.Now(), h.use.live, h.use.live - {nb, mp} - Members(rest);
    var left := PassFirst(h, nb, mp, length, rest, kind);
    var tmp := h.mb[mp].cont;
    rest' := rest;
    while left > 0 && tmp.Some?
      invariant h.Valid() && Pulling(h.Now(), h.use.live, nb, mp, rest', false, left, kind)
      invariant left > 0 ==> tmp == First(rest')
      invariant |Show(h.Now(), nb)| + left == |old(Show(h.Now(), nb))| + length
      invariant Show(h.Now(), nb) + View(h.Now(), rest')
             == old(Show(h.Now(), nb) + Show(h.Now(), mp) + View(h.Now(), rest))
      invariant Members(rest') <= Members(rest) && h.use.live == live - (Members(rest) - Members(rest'))
      invariant Keeps(s, h.Now(), others)
      invariant h.use.holds.Keys <= old(h.use.holds).Keys && HoldsOn(old(h.use), h.use, mp)
      decreases if left == 0 then 0 else 1 + |rest'|
    {
      var t := tmp.value;
      assert t in rest';
      LeadOf(h.Now(), rest', kind);
      if h.db[h.mb[t].datap.value].kind != h.db[h.mb[nb].datap.value].kind { break; }
      ghost var s1, live1 := h.Now(), h.use.live;
      var gone;
      left, gone := PassNext(h, nb, mp, t, left, rest', kind);
      ghost var others1 := live1 - {nb, mp} - Members(rest');
      assert others <= others1;
      KeepsFewer(s1, h.Now(), others1, others);
      KeepsTrans(s, s1, h.Now(), others, others);
      if gone {
        ChainHead(s1, rest');
        tmp, rest' := h.mb[mp].cont, rest'[1..];
      } else {
        tmp := h.mb[t].cont;
      }
    }
    LeadOf(h.Now(), rest', kind);
  }

  lemma ChainHead(s: Store, ch: seq<nat>)
    requires Chain(s, ch) && ch != []
    ensures Members(ch[1..]) == Members(ch) - {ch[0]}
  {
    forall m | m in Members(ch) && m != ch[0] ensures m in Members(ch[1..]) {
      var i :| 0 <= i < |ch| && ch[i] == m;
      assert ch[1..][i - 1] == m;
    }
  }

  lemma LeadOf(s: Store, ch: seq<nat>, kind: nat)
    ensures ch == [] || (Readable(s, ch[0]) && KindOf(s, ch[0]) != kind) ==> Lead(s, ch, kind) == 0
  {
  }

  /** The message ch from s is the message ch' now: the same bytes of the same types. Blocks that left it are freed,
      other messages are untouched. */
  ghost predicate Pulled(s: Store, live: set<nat>, ch: seq<nat>, s': Store, live': set<nat>, ch': seq<nat>) {
    && First(ch') == First(ch) && Chain(s', ch') && Members(ch') <= Members(ch)
    && live' == live - (Members(ch) - Members(ch'))
    && View(s', ch') == View(s, ch)
    && Keeps(s, s', live - Members(ch))
  }

  lemma Unpulled(s: Store, u: Use, fastbuf: nat, ch: seq<nat>)
    requires Inv(s, u, fastbuf) && u.loose == {} && Chain(s, ch) && Members(ch) <= u.live
    ensures Pulled(s, u.live, ch, s, u.live, ch)
  {
    SameLive(s, u, fastbuf);
    KeepsFewer(s, s, u.live, u.live - Members(ch));
  }

  /** The first block of ch left its own data block for that of the new header nb. If a message outside ch shares its
      buffer, the header of the first block still holds that. */
  ghost predicate Moved(s: Store, u: Use, ch: seq<nat>, s': Store, u': Use, nb: nat) {
    && ch != [] && ch[0] in s'.mb && s'.mb[ch[0]].datap == Some(nb) && nb !in s.db
    && u'.holds.Keys <= u.holds.Keys + {nb}
    && (forall x :: x in u.live - Members(ch) && x in s.mb && s.mb[x].datap == Some(ch[0]) ==> HoldsOn(u, u', ch[0]))
  }

  lemma HasMoved(s: Store, u: Use, s1: Store, u1: Use, s2: Store, u2: Use, s3: Store, u3: Use, ch: seq<nat>, nb: nat)
    requires ch != [] && nb !in s.db && nb !in u.live && u1.live == u.live + {nb} && u1.live - Members(ch) <= u2.live
    requires Keeps(s, s1, u.live) && Keeps(s1, s2, u1.live - {nb, ch[0]} - Members(ch[1..]))
    requires HoldsOn(u, u1, ch[0]) && HoldsOn(u1, u2, ch[0])
    requires u1.holds.Keys <= u.holds.Keys + {nb} && u2.holds.Keys <= u1.holds.Keys && u3.holds.Keys <= u2.holds.Keys
    requires forall x :: x in u2.live && x != ch[0] && x in s2.mb && s2.mb[x].datap == Some(ch[0]) ==>
               HoldsOn(u2, u3, ch[0])
    requires ch[0] in s3.mb && s3.mb[ch[0]].datap == Some(nb)
    ensures Moved(s, u, ch, s3, u3, nb)
  {
    forall x | x in u.live - Members(ch) && x in s.mb && s.mb[x].datap == Some(ch[0]) ensures HoldsOn(u, u3, ch[0]) {
      assert ch[0] in Members(ch) && x !in Members(ch[1..]);
      assert Kept(s, s1, x) && Kept(s1, s2, x);
    }
  }

  /** lis_pullupmsg once it is clear that len bytes must go into a new block. */
  method PullInto(h: Heap, mp: nat, len: nat, hdr: Option<nat>, buf: Option<nat>, ghost rest: seq<nat>)
      returns (ok: bool, ghost ch': seq<nat>)
    requires h.Valid() && Chain(h.Now(), [mp] + rest) && Members([mp] + rest) <= h.use.live && Readable(h.Now(), mp)
    requires |Show(h.Now(), mp)| <= len <= |Show(h.Now(), mp)| + Lead(h.Now(), rest, KindOf(h.Now(), mp)) && len > 0
    requires (hdr.Some? ==> hdr.value !in h.db) && (buf.Some? ==> Kernel(buf.value) !in h.mem)
    modifies h
    ensures h.Valid() && (ok <==> hdr.Some? && buf.Some?)
    ensures !ok ==> h.Now() == old(h.Now()) && h.use == old(h.use)
    ensures ok ==>
              Pulled(old(h.Now()), old(h.use.live), [mp] + rest, h.Now(), h.use.live, ch') && |Show(h.Now(), mp)| == len
    ensures ok ==> Moved(old(h.Now()), old(h.use), [mp] + rest, h.Now(), h.use, hdr.value)
  {
    hide Inv, Keeps, Lead, View, Show, Readable, Chain, Sole;
    ghost var s, u, live := h.Now(), h.use, h.use.live;
    ch' := [mp] + rest;
    ChainTail(s, ch', live);
    assert ch'[1..] == rest;
    ViewCons(s, mp, rest);
    var r := NewPulled(h, mp, len, hdr, buf, rest);
    ok := r.Some?;
    if ok {
      var nb := r.value;
      ghost var s1, u1, kind := h.Now(), h.use, KindOf(h.Now(), mp);
      ghost var rest' := PullAll(h, mp, nb, len, rest, kind);
      ghost var s2, u2, live2 := h.Now(), h.use, h.use.live;
      TakeOver(h, mp, nb, rest', kind);
      ch' := [mp] + rest';
      ViewCons(h.Now(), mp, rest');
      SumUp(s, s1, s2, h.Now(), live, live2, nb, mp, rest, rest', live - Members([mp] + rest));
      HasMoved(s, u, s1, u1, s2, u2, h.Now(), h.use, [mp] + rest, nb);
    }
  }

  /** lis_pullupmsg. `hdr` and `buf` are what the allocators give for a new block, `aligned` says whether the first byte
      stands at an aligned address. */
  method PullupMsg(h: Heap, mp: nat, length: int, aligned: bool, hdr: Option<nat>, buf: Option<nat>, ghost ch: seq<nat>)
      returns (ok: bool, ghost ch': seq<nat>)
    requires h.Valid() && Chain(h.Now(), ch) && Members(ch) <= h.use.live && First(ch) == Some(mp)
    requires (hdr.Some? ==> hdr.value !in h.db) && (buf.Some? ==> Kernel(buf.value) !in h.mem)
    modifies h
    ensures h.Valid() && old(Readable(h.Now(), mp))
    ensures var size := old(Lead(h.Now(), ch, KindOf(h.Now(), mp))); var want := if length == -1 then size else length;
      && (ok <==> want == 0 || (0 < want <= size && ((aligned && want <= old(|Show(h.Now(), mp)|))
                                                     || (hdr.Some? && buf.Some?))))
      && (ok ==> |Show(h.Now(), mp)| >= want)
    ensures !ok ==> h.Now() == old(h.Now()) && h.use == old(h.use)
    ensures ok ==> Pulled(old(h.Now()), old(h.use.live), ch, h.Now(), h.use.live, ch')
    ensures ok && length != 0 && length != -1 && !aligned ==>
              hdr.Some? && Moved(old(h.Now()), old(h.use), ch, h.Now(), h.use, hdr.value)
  {
    hide Inv, Keeps, Lead, View, Show, Pulled, Chain, Moved;
    ghost var s := h.Now();
    ChainTail(s, ch, h.use.live);
    LiveReadable(s, h.use, h.fastbuf, ch);
    assert ch == [mp] + ch[1..];
    Unpulled(s, h.use, h.fastbuf, ch);
    ok, ch' := false, ch;
    if length >= -1 {
      var size := XMsgSize(h, mp, ch);
      Unfold(s, ch, KindOf(s, mp));
      var len := if length == -1 then size else length;
      var n := h.mb[mp].wptr - h.mb[mp].rptr;
      if len == 0 || (len <= size && len <= n && aligned) {
        ok := true;
      } else if len <= size {
        ok, ch' := PullInto(h, mp, if len <= n then n else len, hdr, buf, ch[1..]);
      }
    }
  }

  /** Who is still there after lis_pullupmsg, and who is untouched. */
  lemma SumUp(s: Store, s1: Store, s2: Store, s3: Store, live: set<nat>, live2: set<nat>, nb: nat, mp: nat,
              rest: seq<nat>, rest': seq<nat>, others: set<nat>)
    requires nb !in live && mp in live && mp !in rest && mp !in rest' && Members(rest) <= live
    requires Members(rest') <= Members(rest) && live2 == live + {nb} - (Members(rest) - Members(rest'))
    requires others == live - Members([mp] + rest)
    requires Keeps(s, s1, live) && Keeps(s1, s2, live + {nb} - {nb, mp} - Members(rest))
             && Keeps(s2, s3, live2 - {nb, mp})
    ensures Keeps(s, s3, others)
    ensures live2 - {nb} == live - (Members([mp] + rest) - Members([mp] + rest'))
    ensures Members([mp] + rest') <= Members([mp] + rest)
  {
    assert forall q: seq<nat> :: Members([mp] + q) == {mp} + Members(q) by {
      forall q: seq<nat> ensures Members([mp] + q) == {mp} + Members(q) { MembersCons(mp, q); }
    }
    assert others == live + {nb} - {nb, mp} - Members(rest);
    assert others <= live2 - {nb, mp};
    KeepsFewer(s2, s3, live2 - {nb, mp}, others);
    KeepsTrans(s, s1, s2, live, others);
    KeepsTrans(s, s2, s3, others, others);
  }

  lemma MembersCons(m: nat, q: seq<nat>)
    ensures Members([m] + q) == {m} + Members(q)
  {
    forall x | x in {m} + Members(q) ensures x in Members([m] + q) {
      if x == m { assert ([m] + q)[0] == m; } else { var i :| 0 <= i < |q| && q[i] == x; assert ([m] + q)[i + 1] == x; }
    }
  }

  /** lis_freemsg: all blocks of a message are freed, and no other message notices. */
  method FreeMsg(h: Heap, mp: Option<nat>, ghost ch: seq<nat>)
    requires h.Valid() && Chain(h.Now(), ch) && Members(ch) <= h.use.live && mp == First(ch)
    modifies h
    ensures h.Valid() && h.use.live == old(h.use.live) - Members(ch)
    ensures Keeps(old(h.Now()), h.Now(), h.use.live)
    ensures old(Plain(h.Now(), h.use)) ==> Plain(h.Now(), h.use) && h.use.lost == old(h.use.lost)
  {
    hide Inv, Keeps, Plain;
    var tmp := mp;
    ghost var s, rest, live := h.Now(), ch, h.use.live;
    SameLive(s, h.use, h.fastbuf);
    while tmp.Some?
      invariant h.Valid() && Chain(h.Now(), rest) && Members(rest) <= h.use.live && tmp == First(rest)
      invariant h.use.live - Members(rest) == live - Members(ch) && Keeps(s, h.Now(), h.use.live) && h.use.live <= live
      invariant old(Plain(h.Now(), h.use)) ==> Plain(h.Now(), h.use) && h.use.lost == old(h.use.lost)
      decreases |rest|
    {
      ghost var s1, before := h.Now(), h.use.live;
      ChainTail(s1, rest, before);
      LiveReadable(s1, h.use, h.fastbuf, rest[1..]);
      ChainHead(s1, rest);
      var now := tmp.value;
      tmp := h.mb[now].cont;
      h.FreeB(now);
      Carry(s1, h.Now(), h.use.live, rest[1..]);
      KeepsTrans(s, s1, h.Now(), before, h.use.live);
      rest := rest[1..];
    }
  }

  // ---- a buffer is lost ----

  /** Message m is one block over its own external buffer, which holds bytes and which one other message, x, shares. */
  ghost predicate SharesOwn(s: Store, u: Use, m: nat, x: nat) {
    && m in u.live && x in u.live && m != x && m in u.holds
    && Readable(s, m) && s.mb[m].datap == Some(m) && s.mb[m].cont == None && s.mb[m].rptr < s.mb[m].wptr
    && (forall y :: y in u.live && y != m ==> y in s.mb && (s.mb[y].datap == Some(m) <==> y == x))
  }

  /** Pulled up, and freed after the other, such a message loses its buffer: nobody gives it back. */
  method LosesBuffer(h: Heap, m: nat, x: nat, hdr: nat, buf: nat)
    requires h.Valid() && SharesOwn(h.Now(), h.use, m, x) && hdr !in h.db && Kernel(buf) !in h.mem
    modifies h
    ensures h.Valid() && h.use.live == old(h.use.live) - {m, x}
    ensures var b := old(h.use.holds[m]); b in h.use.lost && b !in old(h.use.lost) && b in h.mem
    ensures Keeps(old(h.Now()), h.Now(), h.use.live)
  {
    hide Inv, Keeps, View, Show, Lead;
    ghost var s, u := h.Now(), h.use;
    NotLost(s, u, h.fastbuf, m);
    OneBlock(s, u, h.fastbuf, m);
    var n := h.mb[m].wptr - h.mb[m].rptr;
    ghost var ch;
    var ok;
    ok, ch := PullupMsg(h, m, n, false, Some(hdr), Some(buf), [m]);
    ghost var s1, u1 := h.Now(), h.use;
    assert u1.live == u.live by { FirstIsMember(ch); }
    PulledFacts(s, s1, u, u1, m, x, hdr);
    h.FreeB(x);
    ghost var s2, u2 := h.Now(), h.use;
    KeepsOne(s1, s2, u2.live, m);
    OnlyOwnUse(s, s1, s2, u, u2, h.fastbuf, m, x);
    h.FreeB(m);
    KeepsFewer(s, s1, u.live - {m}, h.use.live);
    KeepsFewer(s1, s2, u2.live, h.use.live);
    KeepsTrans(s, s1, s2, h.use.live, h.use.live);
    KeepsTrans(s, s2, h.Now(), h.use.live, h.use.live);
    LostIsThere(h.Now(), h.use, h.fastbuf);
  }

  lemma NotLost(s: Store, u: Use, fastbuf: nat, m: nat)
    requires Inv(s, u, fastbuf) && m in u.holds
    ensures u.holds[m] !in u.lost && m in s.db
  {
    assert HoldOk(s, u, fastbuf, m);
  }

  lemma LostIsThere(s: Store, u: Use, fastbuf: nat)
    requires Inv(s, u, fastbuf)
    ensures forall b :: b in u.lost ==> b in s.mem
  {
  }

  lemma OneBlock(s: Store, u: Use, fastbuf: nat, m: nat)
    requires Inv(s, u, fastbuf) && u.loose == {} && m in u.live && Readable(s, m) && s.mb[m].cont == None
    ensures Chain(s, [m]) && Members([m]) == {m} && |Show(s, m)| == s.mb[m].wptr - s.mb[m].rptr
    ensures Lead(s, [m], KindOf(s, m)) == |Show(s, m)|
  {
    assert [m][1..] == [];
    LiveReadable(s, u, fastbuf, [m]);
    assert [m][0] == m;
  }

  lemma FirstIsMember(ch: seq<nat>)
    ensures ch != [] ==> ch[0] in Members(ch)
  {
  }

  lemma PulledFacts(s: Store, s1: Store, u: Use, u1: Use, m: nat, x: nat, hdr: nat)
    requires SharesOwn(s, u, m, x) && Moved(s, u, [m], s1, u1, hdr) && Members([m]) == {m}
    ensures HoldsOn(u, u1, m) && m in s1.mb && s1.mb[m].datap == Some(hdr)
  {
    assert x in u.live - Members([m]);
  }

  lemma OnlyOwnUse(s: Store, s1: Store, s2: Store, u: Use, u2: Use, fastbuf: nat, m: nat, x: nat)
    requires SharesOwn(s, u, m, x) && Keeps(s, s1, u.live - {m}) && Keeps(s1, s2, u2.live) && u2.live == u.live - {x}
    requires Inv(s2, u2, fastbuf) && u2.loose == {} && m in s2.mb && s2.mb[m].datap != Some(m)
    ensures m in s2.db && s2.db[m].ref == 1
  {
    assert Count(s2, u2, m);
    forall y | y in u2.live ensures y !in Pointing(s2.mb, u2.live, m) {
      if y != m { assert Kept(s, s1, y) && Kept(s1, s2, y); }
    }
    assert Pointing(s2.mb, u2.live, m) == {};
  }

  /** A user writes behind the bytes of a block that nobody shares. */
  method Fill(h: Heap, m: nat, bytes: seq<nat>)
    requires h.Valid() && m in h.use.live && Readable(h.Now(), m) && h.mb[m].datap == Some(m) && h.db[m].ref == 1
    requires h.mb[m].wptr + |bytes| <= |h.mem[h.db[m].base.value]|
    modifies h`mem, h`mb
    ensures h.Valid() && Keeps(old(h.Now()), h.Now(), h.use.live - {m})
    ensures Readable(h.Now(), m) && Bytes(h.Now(), m) == old(Bytes(h.Now(), m)) + bytes
    ensures h.mb == old(h.mb)[m := old(h.mb)[m].(wptr := old(h.mb)[m].wptr + |bytes|)] && h.mem.Keys == old(h.mem).Keys
  {
    hide Inv, Keeps;
    ghost var s, u := h.Now(), h.use;
    AttachedIsLive(s, u, h.fastbuf, m);
    var b, w := h.db[m].base.value, h.mb[m].wptr;
    var buf := h.mem[b][..w] + bytes + h.mem[b][w + |bytes|..];
    h.mem := h.mem[b := buf];
    ghost var s1 := h.Now();
    Write(s, s1, u, h.fastbuf, m, b, buf);
    h.mb := h.mb[m := h.mb[m].(wptr := w + |bytes|)];
    ghost var s2 := h.Now();
    EditIt(s1, s2, u, h.fastbuf, m, h.mb[m]);
    KeepsTrans(s, s1, s2, u.live - {m}, u.live - {m});
    assert Bytes(s2, m) == Bytes(s, m) + bytes;
  }

  /** The message of a run that shares its buffer so. */
  method ShareBuffer() returns (h: Heap)
    ensures fresh(h) && h.Valid() && SharesOwn(h.Now(), h.use, 0, 1) && 2 !in h.db && Kernel(20) !in h.mem
    ensures h.use.holds == map[0 := Kernel(10)] && h.released == []
  {
    hide Inv, Keeps;
    h := new Heap(1);
    var a := h.AllocB(2, Some(0), Some(10));
    Fill(h, 0, [7, 8]);
    ghost var s, u := h.Now(), h.use;
    var d := h.DupB(0, Some(1));
    KeepsOne(s, h.Now(), u.live, 0);
    KeptShow(s, h.Now(), 0);
  }
}
