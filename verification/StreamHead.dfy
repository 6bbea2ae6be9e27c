/** The readers at the stream head (head/head.c): read and getmsg take messages off the read queue and put what they
  leave of one back to its front. */
module StreamHead {
  import opened Common

  const M_DATA: nat := 0

  /** A message block: its type, the bytes between b_rptr and b_wptr, and MSGMARK. */
  datatype Blk = Blk(kind: nat, bytes: seq<nat>, mark: bool)

  type Msg = seq<Blk>

  /** The read modes of sd_rdopt. */
  datatype Mode = RNORM | RMSGN | RMSGD

  /** The bytes of a message. */
  ghost function Bytes(m: Msg): seq<nat> { if m == [] then [] else m[0].bytes + Bytes(m[1..]) }

  /** The bytes of a queue. */
  ghost function All(q: seq<Msg>): seq<nat> { if q == [] then [] else Bytes(q[0]) + All(q[1..]) }

  ghost predicate DataMsg(m: Msg) { m != [] && forall b :: b in m ==> b.kind == M_DATA }

  function Min(a: int, b: int): int { if a < b then a else b }

  lemma BytesOf(m: Msg)
    ensures m != [] ==> Bytes(m) == m[0].bytes + Bytes(m[1..])
    ensures m == [] ==> Bytes(m) == []
  {
  }

  lemma AllOf(q: seq<Msg>)
    ensures q != [] ==> All(q) == Bytes(q[0]) + All(q[1..])
    ensures q == [] ==> All(q) == []
  {
  }

  /** What is left of a message when `want` bytes of it were read: used-up blocks are gone, and a block that was cut
      keeps its other bytes, its type and its mark. */
  ghost function Left(m: Msg, want: nat): Msg {
    if m == [] then []
    else if |m[0].bytes| > want then [m[0].(bytes := m[0].bytes[want..])] + m[1..]
    else if |m[0].bytes| == want then m[1..]
    else Left(m[1..], want - |m[0].bytes|)
  }

  lemma {:induction false} LeftBytes(m: Msg, want: nat)
    ensures Bytes(m)[..Min(want, |Bytes(m)|)] + Bytes(Left(m, want)) == Bytes(m)
    ensures |Bytes(m)| < want ==> Left(m, want) == []
  {
    if m != [] {
      var b, l := m[0].bytes, Left(m, want);
      if |b| > want {
        assert l[0].bytes == b[want..] && l[1..] == m[1..];
        assert Bytes(m)[..want] == b[..want];
      } else if |b| == want {
        assert Bytes(m)[..want] == b;
      } else {
        LeftBytes(m[1..], want - |b|);
        assert Bytes(m)[..Min(want, |Bytes(m)|)] == b + Bytes(m[1..])[..Min(want - |b|, |Bytes(m[1..])|)];
      }
    }
  }

  /** The rest of a message is its last blocks, the first of them possibly cut. */
  lemma {:induction false} LeftIsTail(m: Msg, want: nat)
    ensures var l := Left(m, want);
            |l| <= |m| && (l != [] ==> var k := |m| - |l|;
              l[1..] == m[k + 1..] && l[0].kind == m[k].kind && l[0].mark == m[k].mark
              && |l[0].bytes| <= |m[k].bytes| && l[0].bytes == m[k].bytes[|m[k].bytes| - |l[0].bytes|..])
  {
    if m != [] && |m[0].bytes| < want {
      LeftIsTail(m[1..], want - |m[0].bytes|);
    }
  }

  class Head {
    var queue: seq<Msg>   // of sd_rq
    var mode: Mode

    /** One pass of the inner loop of lis_strread: bytes of the first block go to the user; a used-up block is freed. */
    method ReadBlk(m: Msg, want: nat) returns (out: seq<nat>, rest: Msg, n: nat)
      requires DataMsg(m)
      ensures out + Bytes(rest) == Bytes(m) && |out| <= want
      ensures |out| < want ==> rest == m[1..]
      ensures rest == [] || DataMsg(rest)
      ensures rest == if |m[0].bytes| > want then [m[0].(bytes := m[0].bytes[want..])] + m[1..] else m[1..]
      ensures |out| == Min(want, |m[0].bytes|)
      ensures n == |m[0].bytes| && (n == 0 ==> out == [] && rest == m[1..]) && (n > 0 && want > 0 ==> out != [])
    {
      out := [];
      var b := m[0];
      var nbytes := |b.bytes|;
      n := nbytes;
      rest := m;
      if nbytes > 0 {
        var chunk := Min(want, nbytes);
        out := b.bytes[..chunk];
        rest := [b.(bytes := b.bytes[chunk..])] + m[1..];
        nbytes := nbytes - chunk;
      }
      if nbytes <= 0 { rest := rest[1..]; }
      BytesOf(m);
      BytesOf(rest);
      assert rest != m[1..] ==> rest[1..] == m[1..];
    }

    /** The inner loop of lis_strread: bytes of one message go to the user, `want` at most. `length` is msg_lgth. */
    method ReadMsg(m: Msg, want: nat) returns (out: seq<nat>, rest: Msg, length: nat)
      requires DataMsg(m)
      ensures out + Bytes(rest) == Bytes(m) && |out| <= want
      ensures |out| < want ==> rest == []
      ensures (length == 0 ==> out == []) && (want > 0 && out == [] ==> length == 0)
      ensures rest == [] || DataMsg(rest)
      ensures rest == Left(m, want)
    {
      hide Bytes;
      var first := true;
      out, rest, length := [], m, 0;
      while first || (|out| < want && rest != [])
        invariant out + Bytes(rest) == Bytes(m) && |out| <= want
        invariant first ==> rest == m
        invariant rest == [] || DataMsg(rest)
        invariant Left(m, want) == if first || |out| < want then Left(rest, want - |out|) else rest
        invariant (length == 0 ==> out == []) && (want > 0 && out == [] ==> length == 0)
        decreases first, want - |out|, |rest|
      {
        var got, n;
        ghost var rest0, out0 := rest, out;
        got, rest, n := ReadBlk(rest, want - |out|);
        assert out0 + (got + Bytes(rest)) == out0 + got + Bytes(rest);
        out, length, first := out + got, length + n, false;
      }
    }

    /** One pass of the outer loop of lis_strread, with `want` bytes still wanted: a message is taken off the queue, and
        what is left of it put back or discarded. `stop` says that the read returns. */
    method ReadNext(want: nat) returns (got: seq<nat>, stop: bool)
      requires queue != [] && forall m :: m in queue ==> DataMsg(m)
      modifies this`queue
      ensures forall m :: m in queue ==> DataMsg(m)
      ensures |got| <= want && got <= Bytes(old(queue)[0]) && (|got| < want ==> got == Bytes(old(queue)[0]))
      ensures mode != RMSGD ==> got + All(queue) == All(old(queue))
      ensures queue == Requeued(mode, old(queue)[0], want) + old(queue)[1..]
      ensures |got| < want ==> queue == old(queue)[1..]
      ensures stop <==> |got| == want || mode != RNORM || got == [] || (old(queue)[0] != [] && old(queue)[0][0].mark)
    {
      hide Bytes, All, Left;
      var mp := queue[0];
      assert mp in queue;
      AllOf(queue);
      queue := queue[1..];
      var marked := mp[0].mark;
      var rest, length;
      got, rest, length := ReadMsg(mp, want);
      Prefix(got, Bytes(rest), Bytes(mp));
      BytesOf([]);
      if rest != [] && mode != RMSGD {
        queue := [rest] + queue;
        AllOf(queue);
      }
      stop := want == |got| || mode != RNORM || length == 0 || marked;
    }

    /** lis_strread, of at most ulen bytes, from a queue of M_DATA messages; None if there is nothing to read. */
    method Read(ulen: nat) returns (r: Option<seq<nat>>, ghost k: nat)
      requires forall m :: m in queue ==> DataMsg(m)
      modifies this`queue
      ensures forall m :: m in queue ==> DataMsg(m)
      ensures r.None? <==> old(queue) == []
      ensures r.Some? ==> |r.value| <= ulen
      ensures r.Some? && mode != RMSGD ==> r.value + All(queue) == All(old(queue))
      ensures r.Some? && mode != RNORM ==> r.value == Bytes(old(queue)[0])[..Min(ulen, |Bytes(old(queue)[0])|)]
      ensures r.Some? && mode == RMSGD ==> queue == old(queue)[1..]
      ensures r.Some? && mode == RNORM && |r.value| < ulen ==> Ended(old(queue), k, queue)
      ensures r.Some? ==> 0 < k <= |old(queue)| && (mode != RNORM ==> k == 1)
      ensures r.Some? ==> var before := |All(old(queue)[..k - 1])|;
                before <= ulen && queue == Requeued(mode, old(queue)[k - 1], ulen - before) + old(queue)[k..]
    {
      hide Bytes, All, Left, Requeued, Ended;
      k := 0;
      ghost var q0 := queue;
      var count, msgsRead, out := 0, 0, [];
      AllOf(q0[..0]);
      while true
        invariant |out| == count <= ulen && (forall m :: m in queue ==> DataMsg(m))
        invariant msgsRead > 0 ==> mode == RNORM && count < ulen
        invariant msgsRead <= |q0| && queue == q0[msgsRead..] && out == All(q0[..msgsRead])
        decreases |queue|
      {
        if queue == [] && msgsRead == 0 { return None, 0; }
        if queue == [] {
          assert q0[..|q0|] == q0;
          ReadAll(mode, q0, ulen);
          return Some(out), |q0|;
        }
        assert queue[0] == q0[msgsRead] && queue[1..] == q0[msgsRead + 1..];
        var got, stop := ReadNext(ulen - count);
        if stop {
          Stopped(mode, q0, msgsRead, ulen, out, got, queue);
          return Some(out + got), msgsRead + 1;
        }
        AllUpTo(q0, msgsRead);
        out, count, msgsRead := out + got, count + |got|, msgsRead + 1;
      }
    }

    /** A series of reads in RMSGN mode: none spans two messages, and what the reads at one message return is the
        message, in order. `at` tells for each read the message it was at, and p messages are used up. */
    method ReadSeries(sizes: seq<nat>) returns (pieces: seq<seq<nat>>, ghost at: seq<nat>, ghost p: nat)
      requires mode == RMSGN && forall m :: m in queue ==> DataMsg(m)
      modifies this`queue
      ensures |pieces| <= |sizes| && (|pieces| < |sizes| ==> queue == [])
      ensures Series(pieces, at, p, old(queue), queue)
    {
      hide Bytes, All, Left, Series;
      pieces, at, p := [], [], 0;
      ghost var q0 := queue;
      NoReads(q0);
      var i := 0;
      while i < |sizes| && queue != []
        invariant |pieces| == i <= |sizes| && Series(pieces, at, p, q0, queue)
        invariant forall m :: m in queue ==> DataMsg(m)
      {
        ghost var q := queue;
        var r, _ := Read(sizes[i]);
        AllOf(q[..0]);
        OneRead(pieces, at, p, q0, q, sizes[i], r.value, queue);
        pieces, at, p := pieces + [r.value], at + [p], if Left(q[0], sizes[i]) == [] then p + 1 else p;
        i := i + 1;
      }
    }

    /** lis_strgetpmsg on a message of normal priority: both parts are read, and the message goes back to the front of
        the queue exactly if bytes of it remain; `rest` is what it has become. */
    method GetMsg(maxctl: int, maxdat: int, ghost k: nat)
        returns (ctl: seq<nat>, dat: seq<nat>, ctlLen: int, datLen: int, moreCtl: bool, moreDat: bool, ghost rest: Msg)
      requires queue != [] && queue[0] != [] && ControlThenData(queue[0], k)
      modifies this`queue
      ensures ControlThenData(rest, k) && |rest| == |old(queue)[0]|
      ensures ctl + Control(rest, k) == Control(old(queue)[0], k) && dat + Data(rest, k) == Data(old(queue)[0], k)
      ensures |ctl| == (if maxctl < 0 then 0 else Min(maxctl, |Control(old(queue)[0], k)|))
      ensures |dat| == (if maxdat < 0 then 0 else Min(maxdat, |Data(old(queue)[0], k)|))
      ensures (moreCtl <==> Control(rest, k) != []) && (moreDat <==> Data(rest, k) != [])
      ensures queue == if moreCtl || moreDat then [rest] + old(queue)[1..] else old(queue)[1..]
      ensures ctlLen == (if k == 0 then -1 else |ctl|) && datLen == if k == |rest| then -1 else |dat|
    {
      hide Bytes;
      var m := queue[0];
      queue := queue[1..];
      var m1, m2;
      m1, ctl, ctlLen, moreCtl := CopyoutMsgPart(m, maxctl, true, true, k);
      KindsKept(m, m1, 0, k, ctl, k);
      m2, dat, datLen, moreDat := CopyoutMsgPart(m1, maxdat, false, true, k);
      KindsKept(m1, m2, k, |m1|, dat, k);
      PartsKept(m, m1, m2, k, ctl, dat);
      rest := m2;
      if moreCtl || moreDat { queue := [m2] + queue; }
    }

    /** Any series of getmsg calls on one message. */
    method GetMsgs(sizes: seq<(int, int)>, ghost k: nat)
        returns (ctl: seq<nat>, dat: seq<nat>, more: bool, ghost rest: Msg)
      requires queue != [] && queue[0] != [] && ControlThenData(queue[0], k)
      modifies this`queue
      ensures ctl + Control(rest, k) == Control(old(queue)[0], k) && dat + Data(rest, k) == Data(old(queue)[0], k)
      ensures queue == if more then [rest] + old(queue)[1..] else old(queue)[1..]
      ensures !more ==> Control(rest, k) == [] && Data(rest, k) == []
      ensures more && sizes != [] ==> Control(rest, k) != [] || Data(rest, k) != []
    {
      hide Control, Data, ControlThenData;
      ctl, dat, more, rest := [], [], true, queue[0];
      ghost var m, q := queue[0], queue[1..];
      var i := 0;
      while i < |sizes| && more
        invariant i <= |sizes| && ControlThenData(rest, k) && rest != []
        invariant ctl + Control(rest, k) == Control(m, k) && dat + Data(rest, k) == Data(m, k)
        invariant queue == if more then [rest] + q else q
        invariant if more then i > 0 ==> Control(rest, k) != [] || Data(rest, k) != []
                  else Control(rest, k) == [] && Data(rest, k) == []
      {
        ghost var rest0, ctl0, dat0 := rest, ctl, dat;
        var c, d, cl, dl, mc, md;
        c, d, cl, dl, mc, md, rest := GetMsg(sizes[i].0, sizes[i].1, k);
        ctl, dat, more := ctl + c, dat + d, mc || md;
        Appended(ctl0, c, Control(rest, k), Control(rest0, k), Control(m, k));
        Appended(dat0, d, Data(rest, k), Data(rest0, k), Data(m, k));
        i := i + 1;
      }
    }
  }

  /** The control part and the data part of a message with k control blocks. */
  ghost function Control(m: Msg, k: nat): seq<nat> { if k <= |m| then Bytes(m[0..k]) else [] }

  ghost function Data(m: Msg, k: nat): seq<nat> { if k <= |m| then Bytes(m[k..|m|]) else [] }

  lemma KindsKept(m: Msg, g: Msg, lo: nat, hi: nat, out: seq<nat>, k: nat)
    requires Took(m, g, lo, hi, out) && ControlThenData(m, k)
    ensures ControlThenData(g, k) && |g| == |m|
  {
  }

  lemma PartsKept(m: Msg, m1: Msg, m2: Msg, k: nat, ctl: seq<nat>, dat: seq<nat>)
    requires k <= |m| && Took(m, m1, 0, k, ctl) && Took(m1, m2, k, |m1|, dat)
    ensures |m2| == |m1| == |m| && ctl + Control(m2, k) == Control(m, k) && dat + Data(m2, k) == Data(m, k)
    ensures Data(m1, k) == Data(m, k)
  {
    assert m2[0..k] == m1[0..k] && m1[k..|m1|] == m[k..|m|];
  }

  lemma Appended(a: seq<nat>, b: seq<nat>, c: seq<nat>, bc: seq<nat>, abc: seq<nat>)
    requires b + c == bc && a + bc == abc
    ensures (a + b) + c == abc
  {
  }

  lemma {:induction false} AllSplit(q: seq<Msg>, n: nat)
    requires n <= |q|
    ensures All(q) == All(q[..n]) + All(q[n..])
  {
    hide All, Bytes;
    AllOf(q);
    AllOf(q[..n]);
    if n > 0 {
      AllSplit(q[1..], n - 1);
      assert q[..n][1..] == q[1..][..n - 1] && q[n..] == q[1..][n - 1..];
    } else {
      assert q[0..] == q;
    }
  }

  /** The queue is empty before the buffer is full. */
  lemma ReadAll(mode: Mode, q: seq<Msg>, ulen: nat)
    requires q != [] && |All(q)| < ulen
    ensures var before := |All(q[..|q| - 1])|;
            before <= ulen && Requeued(mode, q[|q| - 1], ulen - before) == []
    ensures Ended(q, |q|, []) && All([]) == []
  {
    hide All;
    AllUpTo(q, |q| - 1);
    assert q[..|q| - 1 + 1] == q;
    LeftBytes(q[|q| - 1], ulen - |All(q[..|q| - 1])|);
    AllOf([]);
  }

  /** The read returns after message n. */
  lemma Stopped(mode: Mode, q: seq<Msg>, n: nat, ulen: nat, out: seq<nat>, got: seq<nat>, q': seq<Msg>)
    requires n < |q| && |out| <= ulen && out == All(q[..n]) && (mode != RNORM ==> n == 0)
    requires q' == Requeued(mode, q[n], ulen - |out|) + q[n + 1..] && |got| <= ulen - |out|
    requires mode != RMSGD ==> got + All(q') == All(q[n..])
    requires |out| + |got| == ulen || mode != RNORM || got == [] || (q[n] != [] && q[n][0].mark)
    requires |out| + |got| < ulen ==> got == Bytes(q[n])
    ensures mode != RMSGD ==> (out + got) + All(q') == All(q)
    ensures mode == RNORM && |out + got| < ulen ==> Ended(q, n + 1, q')
    ensures mode == RMSGD ==> q' == q[1..]
    ensures mode != RNORM ==> out == []
  {
    LeftBytes(q[n], ulen - |out|);
    AllSplit(q, n);
    hide Bytes, Left;
    if mode != RMSGD { Appended(out, got, All(q'), All(q[n..]), All(q)); }
    AllOf(q[..0]);
  }

  /** What the reads at message j returned. */
  ghost function Parts(pieces: seq<seq<nat>>, at: seq<nat>, j: nat): seq<nat>
    requires |pieces| == |at|
  {
    if pieces == [] then []
    else Parts(pieces[..|pieces| - 1], at[..|at| - 1], j) + if at[|at| - 1] == j then pieces[|pieces| - 1] else []
  }

  /** The reads were at messages in order; those at the p messages used up returned all of each, those at the next what
      is not left of it; and the messages behind are untouched. */
  ghost predicate Series(pieces: seq<seq<nat>>, at: seq<nat>, p: nat, q0: seq<Msg>, q: seq<Msg>) {
    && |at| == |pieces| && p <= |q0| && |q| == |q0| - p
    && (q != [] ==> q[1..] == q0[p + 1..])
    && (forall i :: 0 <= i < |at| ==> at[i] <= p && at[i] < |q0|)
    && (forall i, j :: 0 <= i < j < |at| ==> at[i] <= at[j])
    && (forall j :: 0 <= j < p ==> Parts(pieces, at, j) == Bytes(q0[j]))
    && (q != [] ==> Parts(pieces, at, p) + Bytes(q[0]) == Bytes(q0[p]))
  }

  lemma NoReads(q: seq<Msg>)
    ensures Series([], [], 0, q, q)
  {
  }

  lemma OneRead(pieces: seq<seq<nat>>, at: seq<nat>, p: nat, q0: seq<Msg>, q: seq<Msg>, want: nat, r: seq<nat>,
                q': seq<Msg>)
    requires Series(pieces, at, p, q0, q) && q != []
    requires r == Bytes(q[0])[..Min(want, |Bytes(q[0])|)] && q' == Requeued(RMSGN, q[0], want) + q[1..]
    ensures Series(pieces + [r], at + [p], if Left(q[0], want) == [] then p + 1 else p, q0, q')
  {
    LeftBytes(q[0], want);
    BytesOf([]);
    OnePart(pieces, at, p, q0, q, r, Bytes(Left(q[0], want)));
    hide Bytes, Left, Parts;
    if Left(q[0], want) == [] {
      assert q' == q[1..] == q0[p + 1..];
      assert Parts(pieces + [r], at + [p], p) == Bytes(q0[p]);
    }
  }

  /** A read adds its bytes to those of the message it was at. */
  lemma OnePart(pieces: seq<seq<nat>>, at: seq<nat>, p: nat, q0: seq<Msg>, q: seq<Msg>, r: seq<nat>, left: seq<nat>)
    requires Series(pieces, at, p, q0, q) && q != [] && r + left == Bytes(q[0])
    ensures forall j :: 0 <= j < p ==> Parts(pieces + [r], at + [p], j) == Bytes(q0[j])
    ensures Parts(pieces + [r], at + [p], p) + left == Bytes(q0[p]) && Parts(pieces + [r], at + [p], p + 1) == []
  {
    Snoc(pieces, at, r, p);
    Later(pieces, at, p);
    hide Bytes, Parts;
    Appended(Parts(pieces, at, p), r, left, Bytes(q[0]), Bytes(q0[p]));
  }

  lemma Snoc(pieces: seq<seq<nat>>, at: seq<nat>, r: seq<nat>, p: nat)
    requires |pieces| == |at|
    ensures forall j :: Parts(pieces + [r], at + [p], j) == Parts(pieces, at, j) + if j == p then r else []
  {
    assert (pieces + [r])[..|pieces|] == pieces && (at + [p])[..|at|] == at;
  }

  lemma {:induction false} Later(pieces: seq<seq<nat>>, at: seq<nat>, p: nat)
    requires |pieces| == |at| && forall i :: 0 <= i < |at| ==> at[i] <= p
    ensures forall j :: j > p ==> Parts(pieces, at, j) == []
  {
    if pieces != [] { Later(pieces[..|pieces| - 1], at[..|at| - 1], p); }
  }

  /** What of a message goes back to the queue when `want` bytes of it were read. */
  ghost function Requeued(mode: Mode, m: Msg, want: nat): seq<Msg> {
    if mode == RMSGD || Left(m, want) == [] then [] else [Left(m, want)]
  }

  lemma {:induction false} AllUpTo(q: seq<Msg>, n: nat)
    requires n < |q|
    ensures All(q[..n + 1]) == All(q[..n]) + Bytes(q[n])
  {
    if n == 0 {
      assert q[..1][1..] == [];
    } else {
      AllUpTo(q[1..], n - 1);
      assert q[..n + 1][1..] == q[1..][..n] && q[..n][1..] == q[1..][..n - 1];
    }
  }

  lemma Prefix(a: seq<nat>, b: seq<nat>, c: seq<nat>)
    requires a + b == c
    ensures a <= c && (b == [] ==> a == c)
  {
  }

  /** A short read in byte-stream mode ended with the k-th message: there was no other, or that one was empty or marked.
      An empty message is not put back. */
  ghost predicate Ended(q: seq<Msg>, k: nat, q': seq<Msg>) {
    && 0 < k <= |q| && q' == q[k..]
    && (k == |q| || Bytes(q[k - 1]) == [] || (q[k - 1] != [] && q[k - 1][0].mark))
  }

  // ---- getmsg ----

  lemma {:induction false} BytesCat(a: Msg, b: Msg)
    ensures Bytes(a + b) == Bytes(a) + Bytes(b)
  {
    if a == [] {
      assert a + b == b;
    } else {
      assert (a + b)[1..] == a[1..] + b;
      BytesCat(a[1..], b);
    }
  }

  /** A message with k control blocks of one type in front of its data blocks. */
  ghost predicate ControlThenData(m: Msg, k: nat) {
    && k <= |m|
    && (forall i :: 0 <= i < k ==> m[i].kind != M_DATA && m[i].kind == m[0].kind)
    && (forall i :: k <= i < |m| ==> m[i].kind == M_DATA)
  }

  /** lis_xmsgsize from block i on: the bytes in consecutive blocks of its type. */
  method XMsgSize(m: Msg, i: nat, ghost hi: nat) returns (n: nat)
    requires i < hi <= |m| && (forall j :: i <= j < hi ==> m[j].kind == m[i].kind)
             && (hi < |m| ==> m[hi].kind != m[i].kind)
    ensures n == |Bytes(m[i..hi])|
  {
    hide Bytes;
    n := 0;
    var j := i;
    BytesOf(m[i..i]);
    while j < |m| && m[j].kind == m[i].kind
      invariant i <= j <= hi && n == |Bytes(m[i..j])|
    {
      BytesCat(m[i..j], [m[j]]);
      assert m[i..j + 1] == m[i..j] + [m[j]] && [m[j]][1..] == [];
      BytesOf([m[j]]);
      BytesOf([]);
      n := n + |m[j].bytes|;
      j := j + 1;
    }
  }

  /** The bytes `out` were taken from the front of the blocks lo to hi of m, which left g. */
  ghost predicate Took(m: Msg, g: Msg, lo: nat, hi: nat, out: seq<nat>) {
    && lo <= hi <= |m| == |g|
    && out + Bytes(g[lo..hi]) == Bytes(m[lo..hi])
    && g[..lo] == m[..lo] && g[hi..] == m[hi..]
    && (forall j :: 0 <= j < |m| ==> g[j].kind == m[j].kind)
  }

  lemma TookMore(m: Msg, g: Msg, lo: nat, hi: nat, out: seq<nat>, i: nat, chunk: nat)
    requires Took(m, g, lo, hi, out) && lo <= i < hi <= |g| && chunk <= |g[i].bytes|
    requires forall j :: lo <= j < i ==> g[j].bytes == []
    ensures Took(m, g[i := g[i].(bytes := g[i].bytes[chunk..])], lo, hi, out + g[i].bytes[..chunk])
  {
    var g' := g[i := g[i].(bytes := g[i].bytes[chunk..])];
    FirstLeft(g, lo, hi, i);
    FirstLeft(g', lo, hi, i);
    assert g'[i + 1..hi] == g[i + 1..hi] && g'[..lo] == g[..lo] && g'[hi..] == g[hi..];
    Regroup(out, g[i].bytes, chunk, Bytes(g[i + 1..hi]));
  }

  lemma Regroup(out: seq<nat>, b: seq<nat>, chunk: nat, t: seq<nat>)
    requires chunk <= |b|
    ensures (out + b[..chunk]) + (b[chunk..] + t) == out + (b + t)
  {
  }

  lemma FirstLeft(g: Msg, lo: nat, hi: nat, i: nat)
    requires lo <= i < hi <= |g| && forall j :: lo <= j < i ==> g[j].bytes == []
    ensures Bytes(g[lo..hi]) == g[i].bytes + Bytes(g[i + 1..hi])
  {
    SplitAt(g, lo, hi, i);
    Emptied(g[lo..i]);
  }

  lemma SplitAt(g: Msg, lo: nat, hi: nat, i: nat)
    requires lo <= i < hi <= |g|
    ensures Bytes(g[lo..hi]) == Bytes(g[lo..i]) + (g[i].bytes + Bytes(g[i + 1..hi]))
  {
    BytesCat(g[lo..i], g[i..hi]);
    assert g[lo..hi] == g[lo..i] + g[i..hi];
    BytesOf(g[i..hi]);
    assert g[i..hi][1..] == g[i + 1..hi];
  }

  lemma {:induction false} Emptied(g: Msg)
    requires forall j :: 0 <= j < |g| ==> g[j].bytes == []
    ensures Bytes(g) == []
  {
    if g != [] { Emptied(g[1..]); }
  }

  /** copyout_msgpart: bytes of the control part (isCtl) or the data part of m go to a buffer of maxlen bytes, or to
      none if maxlen is negative. len is -1 if m has no such part; `more` says that bytes of the part remain. Without
      doit the message stays as it is. */
  method CopyoutMsgPart(m: Msg, maxlen: int, isCtl: bool, doit: bool, ghost k: nat)
      returns (m': Msg, out: seq<nat>, len: int, more: bool)
    requires m != [] && ControlThenData(m, k)
    ensures var lo, hi := if isCtl then 0 else k, if isCtl then k else |m|; var part := Bytes(m[lo..hi]);
      && out == part[..if maxlen < 0 then 0 else Min(maxlen, |part|)]
      && (more <==> |out| < |part|)
      && len == (if lo == hi then -1 else |out|)
      && (if doit then Took(m, m', lo, hi, out) else m' == m)
  {
    hide Bytes, Took;
    ghost var lo, hi := if isCtl then 0 else k, if isCtl then k else |m|;
    ghost var part, g := Bytes(m[lo..hi]), m;
    var max, mlen, sizeSet, gotsome := maxlen, 0, false, false;
    m', out := m, [];
    TookNothing(m, lo, hi);
    var i := 0;
    while i < |m'|
      invariant i <= |m| == |g| && Took(m, g, lo, hi, out) && m' == (if doit then g else m) && max == maxlen - |out|
      invariant if sizeSet then lo < i <= hi && gotsome && mlen == |part| && max > 0
                && (forall j :: lo <= j < i ==> g[j].bytes == [])
                else !gotsome && out == [] && (i <= lo || lo == hi)
      invariant forall j :: i <= j < |m| ==> g[j] == m[j]
    {
      var mtype := m'[i].kind;
      if !sizeSet && (if isCtl then mtype != M_DATA else mtype == M_DATA) {
        mlen := XMsgSize(m', i, hi);
        assert m'[i..hi] == m[lo..hi];
        sizeSet := true;
      }
      if !sizeSet {
        i := i + 1;
        continue;
      }
      if isCtl && mtype == M_DATA { break; }
      if !isCtl && mtype != M_DATA {
        i := i + 1;
        continue;
      }
      gotsome := true;
      if max < 0 { break; }
      var chunk := Min(max, |m'[i].bytes|);
      TookMore(m, g, lo, hi, out, i, chunk);
      out := out + m'[i].bytes[..chunk];
      g := g[i := g[i].(bytes := g[i].bytes[chunk..])];
      if doit { m' := m'[i := m'[i].(bytes := m'[i].bytes[chunk..])]; }
      max := max - chunk;
      if max <= 0 { break; }
      i := i + 1;
    }
    TookPart(m, g, lo, hi, out);
    len := if gotsome then |out| else -1;
    more := gotsome && |out| < mlen;
  }

  lemma TookNothing(m: Msg, lo: nat, hi: nat)
    requires lo <= hi <= |m|
    ensures Took(m, m, lo, hi, [])
  {
  }

  lemma TookPart(m: Msg, g: Msg, lo: nat, hi: nat, out: seq<nat>)
    requires Took(m, g, lo, hi, out)
    ensures lo <= hi <= |m| == |g| && |out| <= |Bytes(m[lo..hi])| && out == Bytes(m[lo..hi])[..|out|]
    ensures (forall j :: lo <= j < hi ==> g[j].bytes == []) ==> out == Bytes(m[lo..hi])
  {
    if forall j :: lo <= j < hi ==> g[j].bytes == [] { Emptied(g[lo..hi]); }
  }
}
