/** How queues are linked into streams, FIFOs and pipes (head/head.c, head/user-mdep.c), and the two searches along the
    links that flow control needs (head/queue.c). */
module Plumbing {
  class Queue {
    const rd: bool        // QREADR
    var other: Queue?     // q_other: the queue of the other direction
    var next: Queue?      // q_next
    var srv: bool         // has a service procedure
    var noenb: bool       // QNOENB
    var off: bool         // QPROCSOFF or QCLOSING
    var closewt: bool     // QCLOSEWT
    var count: int        // q_count
    ghost var rank: real  // grows along q_next

    constructor (rd: bool, srv: bool)
      ensures this.rd == rd && this.srv == srv && next == null && other == null
      ensures !noenb && !off && !closewt && count == 0
    {
      this.rd, this.srv := rd, srv;
      next, other, noenb, off, closewt, count := null, null, false, false, false, 0;
    }
  }

  /** A set of queues in pairs, linked among themselves as nx says. A stream is mirrored: where one queue leads to a
      second, the partner of the second leads to the partner of the first. Ranks show that no walk returns. */
  ghost predicate NetBy(qs: set<Queue>, nx: map<Queue, Queue?>)
    reads qs`other, qs`rank
  {
    && nx.Keys == qs
    && (forall q :: q in qs ==> Paired(q, qs))
    && (forall q :: q in qs && nx[q] != null ==> MirroredBy(q, qs, nx))
  }

  ghost function Links(qs: set<Queue>): map<Queue, Queue?>
    reads qs`next
  {
    map q | q in qs :: q.next
  }

  ghost predicate Net(qs: set<Queue>)
    reads qs
  {
    NetBy(qs, Links(qs))
  }

  ghost predicate Paired(q: Queue, qs: set<Queue>)
    requires q in qs
    reads qs`other, qs`rank
  {
    q.other in qs && q.other != null && q.other.other == q && q.other.rd != q.rd
  }

  ghost predicate MirroredBy(q: Queue, qs: set<Queue>, nx: map<Queue, Queue?>)
    requires q in qs && Paired(q, qs) && nx.Keys == qs && nx[q] != null
    reads qs`other, qs`rank
  {
    && nx[q] in qs && nx[q].other in qs && nx[q].other != null
    && nx[nx[q].other] == q.other
    && q.rank < nx[q].rank
    && (q.rd ==> nx[q].rd)
  }

  /** backq, with its case for the twist at the end of a FIFO. */
  function BackQ(q: Queue, ghost qs: set<Queue>): (r: Queue?)
    requires Net(qs) && q in qs
    reads qs
  {
    assert Paired(q, qs);
    var oq := q.other;
    var nq := oq.next;
    if nq == null then null
    else
      assert Paired(oq, qs) && MirroredBy(oq, qs, Links(qs));
      if nq == q then oq else nq.other
  }

  /** backq is the exact inverse of q_next. */
  lemma BackQIsInverse(q: Queue, n: Queue, qs: set<Queue>)
    requires Net(qs) && q in qs && n in qs
    ensures q.next == n <==> BackQ(n, qs) == q
    ensures BackQ(n, qs) != null ==> BackQ(n, qs) in qs
  {
    assert Paired(q, qs) && Paired(n, qs) && Paired(q.other, qs) && Paired(n.other, qs);
    if n.other.next != null {
      assert MirroredBy(n.other, qs, Links(qs));
      assert Paired(n.other.next, qs);
    }
    if q.next != null { assert MirroredBy(q, qs, Links(qs)); }
  }

  /** A walk along q_next. */
  ghost predicate Walk(p: seq<Queue>)
    reads p
  {
    forall i :: 0 <= i < |p| - 1 ==> p[i].next == p[i + 1]
  }

  /** No walk comes back: streams, FIFOs and pipes are acyclic. */
  lemma {:induction false} NoReturn(p: seq<Queue>, qs: set<Queue>)
    requires Net(qs) && Walk(p) && |p| > 1 && p[0] in qs
    ensures p[0] != p[|p| - 1] && p[0].rank < p[|p| - 1].rank
    decreases |p|
  {
    assert Paired(p[0], qs) && p[0].next == p[1] && MirroredBy(p[0], qs, Links(qs));
    if |p| > 2 {
      var t := p[1..];
      forall i | 0 <= i < |t| - 1 ensures t[i].next == t[i + 1] { assert p[i + 1].next == p[i + 2]; }
      NoReturn(t, qs);
    }
  }

  /** The links once newq and newwq are below rq and wq. */
  ghost function Attached(nx: map<Queue, Queue?>, rq: Queue, wq: Queue, newq: Queue, newwq: Queue): map<Queue, Queue?>
    requires wq in nx
  {
    map q | q in nx.Keys + {newq, newwq} ::
      if q == newq then rq
      else if q == newwq then (if nx[wq] == rq then newq else nx[wq])
      else if q == wq then newwq
      else if nx[q] == rq then newq
      else nx[q]
  }

  lemma AttachedNet(qs: set<Queue>, nx: map<Queue, Queue?>, rq: Queue, wq: Queue, newq: Queue, newwq: Queue)
    requires NetBy(qs, nx) && rq in qs && rq.rd && wq == rq.other && newq !in qs && newwq !in qs && newq != newwq
    requires newq.rd && !newwq.rd && newq.other == newwq && newwq.other == newq
    requires wq in nx && wq.rank < newwq.rank && newq.rank < rq.rank
    requires nx[wq] == rq ==> newwq.rank < newq.rank
    requires nx[wq] != null && nx[wq] != rq ==> nx[wq].other in qs && nx[wq].other != null
    requires nx[wq] != null && nx[wq] != rq ==> newwq.rank < nx[wq].rank && nx[wq].other.rank < newq.rank
    ensures NetBy(qs + {newq, newwq}, Attached(nx, rq, wq, newq, newwq))
  {
    var qs', nx' := qs + {newq, newwq}, Attached(nx, rq, wq, newq, newwq);
    assert Paired(rq, qs) && Paired(wq, qs);
    if nx[wq] != null { assert MirroredBy(wq, qs, nx) && Paired(nx[wq], qs); }
    forall q | q in qs' ensures Paired(q, qs') { if q in qs { assert Paired(q, qs); } }
    forall q | q in qs' && nx'[q] != null ensures MirroredBy(q, qs', nx') {
      if q in qs && nx[q] != null {
        assert MirroredBy(q, qs, nx) && Paired(q, qs) && Paired(nx[q], qs) && Paired(q.other, qs);
      }
    }
  }

  /** The assignments of lis_qattach. */
  method LinkBelow(rq: Queue, wq: Queue, newq: Queue, newwq: Queue, ghost qs: set<Queue>)
    requires Net(qs) && rq in qs && wq in qs && rq.other == wq && newq !in qs && newwq !in qs && newq != newwq
    requires newq.other == newwq && newwq.other == newq
    modifies qs`next, newq`next, newwq`next
    ensures newq.next == rq && newwq.next == if old(wq.next) == rq then newq else old(wq.next)
    ensures forall q :: q in qs ==>
              (q.next == if q == wq then newwq
                         else if old(wq.next) != null && q == old(wq.next.other) then newq else old(q.next))
  {
    assert wq.next != null ==> MirroredBy(wq, qs, Links(qs));
    newq.next := rq;
    newwq.next := if wq.next == rq then newq else wq.next;
    if wq.next != null { newwq.next.other.next := newq; }
    wq.next := newwq;
  }

  /** lis_allocq: a pair of queues. */
  method NewPair(srvRd: bool, srvWr: bool) returns (rq: Queue)
    ensures fresh(rq) && rq.rd && rq.srv == srvRd && rq.next == null && rq.other != null && fresh(rq.other)
            && rq != rq.other
    ensures !rq.other.rd && rq.other.srv == srvWr && rq.other.next == null && rq.other.other == rq
    ensures Net({rq, rq.other})
  {
    rq := new Queue(true, srvRd);
    var wq := new Queue(false, srvWr);
    rq.other := wq;
    wq.other := rq;
  }

  /** lis_qattach: a new pair of queues goes below q. */
  method QAttach(q: Queue, srvRd: bool, srvWr: bool, ghost qs: set<Queue>) returns (newq: Queue)
    requires Net(qs) && q in qs && q.rd
    modifies qs`next
    ensures newq.rd && newq.other != null && fresh(newq) && fresh(newq.other) && newq != newq.other && q.other in qs
    ensures Net(qs + {newq, newq.other}) && q.other != null
    ensures Links(qs + {newq, newq.other}) == Attached(old(Links(qs)), q, q.other, newq, newq.other)
  {
    hide NetBy, Attached;
    ghost var nx := Links(qs);
    Partner(q, qs);
    var rq, wq := q, q.other;
    newq := NewPair(srvRd, srvWr);
    var newwq := newq.other;
    RankBetween(rq, wq, newq, newwq, qs);
    AttachedNet(qs, nx, rq, wq, newq, newwq);
    LinkBelow(rq, wq, newq, newwq, qs);
    AttachedLinks(qs, nx, rq, wq, newq, newwq);
  }

  lemma Partner(q: Queue, qs: set<Queue>)
    requires Net(qs) && q in qs
    ensures q.other != null && q.other in qs && q.other.other == q && q.other != q && q.other.rd != q.rd
  {
    assert Paired(q, qs);
  }

  /** Ranks for a new pair. */
  ghost method RankBetween(rq: Queue, wq: Queue, newq: Queue, newwq: Queue, qs: set<Queue>)
    requires Net(qs) && rq in qs && rq.other == wq && wq in qs && newq !in qs && newwq !in qs && newq != newwq
    modifies newq`rank, newwq`rank
    ensures wq.rank < newwq.rank && newq.rank < rq.rank
    ensures wq.next == rq ==> newwq.rank < newq.rank
    ensures wq.next != null && wq.next != rq ==> wq.next.other in qs && wq.next.other != null
    ensures wq.next != null && wq.next != rq ==> newwq.rank < wq.next.rank && wq.next.other.rank < newq.rank
  {
    ghost var n := wq.next;
    assert Paired(rq, qs) && Paired(wq, qs);
    if n == null {
      newwq.rank := wq.rank + 1.0;
      newq.rank := rq.rank - 1.0;
    } else {
      assert MirroredBy(wq, qs, Links(qs)) && Paired(n, qs);
      if n == rq {
        ghost var third := (rq.rank - wq.rank) / 3.0;
        newwq.rank := wq.rank + third;
        newq.rank := rq.rank - third;
      } else {
        assert MirroredBy(n.other, qs, Links(qs));
        newwq.rank := (wq.rank + n.rank) / 2.0;
        newq.rank := (n.other.rank + rq.rank) / 2.0;
      }
    }
  }

  lemma AttachedLinks(qs: set<Queue>, nx: map<Queue, Queue?>, rq: Queue, wq: Queue, newq: Queue, newwq: Queue)
    requires NetBy(qs, nx) && rq in qs && rq.rd && wq == rq.other && newq !in qs && newwq !in qs && newq != newwq
             && wq in qs
    requires newq.next == rq && newwq.next == (if nx[wq] == rq then newq else nx[wq])
    requires forall q :: q in qs ==>
               (q.next == if q == wq then newwq else if nx[wq] != null && q == nx[wq].other then newq else nx[q])
    ensures Links(qs + {newq, newwq}) == Attached(nx, rq, wq, newq, newwq)
  {
    assert Paired(rq, qs);
    if nx[wq] != null { assert MirroredBy(wq, qs, nx) && Paired(nx[wq], qs); }
    forall q | q in qs && nx[q] == rq ensures nx[wq] != null && q == nx[wq].other {
      assert MirroredBy(q, qs, nx) && Paired(q, qs);
    }
  }

  /** The links once the pair rq, wq is gone: who led to one of them leads to the queue behind. */
  ghost function Detached(nx: map<Queue, Queue?>, rq: Queue, wq: Queue): map<Queue, Queue?>
    requires rq in nx && wq in nx
  {
    map q | q in nx.Keys - {rq, wq} ::
      if nx[q] == wq then (if nx[wq] == rq then nx[rq] else nx[wq])
      else if nx[q] == rq then nx[rq]
      else nx[q]
  }

  lemma DetachedNet(qs: set<Queue>, nx: map<Queue, Queue?>, rq: Queue, wq: Queue)
    requires NetBy(qs, nx) && rq in qs && rq.rd && wq == rq.other && wq in nx
    ensures NetBy(qs - {rq, wq}, Detached(nx, rq, wq))
  {
    var qs', nx' := qs - {rq, wq}, Detached(nx, rq, wq);
    assert Paired(rq, qs) && Paired(wq, qs);
    forall q | q in qs' ensures Paired(q, qs') { assert Paired(q, qs) && Paired(q.other, qs); }
    forall q | q in qs' && nx'[q] != null ensures MirroredBy(q, qs', nx') { DetachedMirrored(qs, nx, rq, wq, q); }
  }

  lemma DetachedMirrored(qs: set<Queue>, nx: map<Queue, Queue?>, rq: Queue, wq: Queue, q: Queue)
    requires NetBy(qs, nx) && rq in qs && rq.rd && wq == rq.other && wq in nx && q in qs && q != rq && q != wq
    requires Detached(nx, rq, wq)[q] != null && Paired(q, qs - {rq, wq})
    ensures MirroredBy(q, qs - {rq, wq}, Detached(nx, rq, wq))
  {
    assert Paired(rq, qs) && Paired(wq, qs) && Paired(q, qs);
    assert MirroredBy(q, qs, nx) && Paired(nx[q], qs);
    if nx[wq] != null { assert MirroredBy(wq, qs, nx) && Paired(nx[wq], qs); }
    if nx[rq] != null { assert MirroredBy(rq, qs, nx) && Paired(nx[rq], qs); }
  }

  /** lis_qdetach: the links around the pair of q. */
  method QDetach(q: Queue, ghost qs: set<Queue>)
    requires Net(qs) && q in qs && q.rd
    modifies qs`next
    ensures q.other != null && q.other in qs && Net(qs - {q, q.other})
    ensures Links(qs - {q, q.other}) == Detached(old(Links(qs)), q, q.other)
  {
    hide NetBy, Detached;
    ghost var nx := Links(qs);
    Partner(q, qs);
    var rq, wq := q, q.other;
    DetachedNet(qs, nx, rq, wq);
    LinkAround(rq, wq, qs);
    DetachedLinks(qs, nx, rq, wq);
  }

  /** The assignments of lis_qdetach. */
  method LinkAround(rq: Queue, wq: Queue, ghost qs: set<Queue>)
    requires Net(qs) && rq in qs && wq in qs && rq.other == wq && rq.rd
    modifies qs`next
    ensures var nx, nxt := old(Links(qs)), if old(wq.next) == rq then old(rq.next) else old(wq.next);
      forall x :: x in qs && x != rq && x != wq ==>
        (x.next == if old(rq.next) != null && x == old(rq.next.other) then nxt
                   else if nxt != null && x == old(nxt.other) then old(rq.next)
                   else nx[x])
  {
    var nextQ, prevQ := wq.next, rq.next;
    if nextQ == rq { nextQ := prevQ; }
    if prevQ != null { assert MirroredBy(rq, qs, Links(qs)); }
    if wq.next != null { assert MirroredBy(wq, qs, Links(qs)); }
    if nextQ != null { nextQ.other.next := prevQ; }
    if prevQ != null { prevQ.other.next := nextQ; }
  }

  lemma DetachedLinks(qs: set<Queue>, nx: map<Queue, Queue?>, rq: Queue, wq: Queue)
    requires NetBy(qs, nx) && rq in qs && rq.rd && wq == rq.other && wq in qs
    requires var nxt := if nx[wq] == rq then nx[rq] else nx[wq];
      forall x :: x in qs && x != rq && x != wq ==>
        (x.next == if nx[rq] != null && x == nx[rq].other then nxt
                   else if nxt != null && x == nxt.other then nx[rq] else nx[x])
    ensures Links(qs - {rq, wq}) == Detached(nx, rq, wq)
  {
    assert Paired(rq, qs) && Paired(wq, qs);
    if nx[wq] != null { assert MirroredBy(wq, qs, nx) && Paired(nx[wq], qs); }
    if nx[rq] != null { assert MirroredBy(rq, qs, nx) && Paired(nx[rq], qs); }
    forall x | x in qs && x != rq && x != wq && nx[x] != null
      ensures nx[x] == wq <==> nx[rq] != null && x == nx[rq].other
      ensures nx[x] == rq <==> nx[wq] != null && nx[wq] != rq && x == nx[wq].other
    {
      assert MirroredBy(x, qs, nx) && Paired(x, qs);
    }
  }

  /** Detaching what was just attached restores the links. */
  lemma AttachThenDetach(qs: set<Queue>, nx: map<Queue, Queue?>, rq: Queue, wq: Queue, newq: Queue, newwq: Queue)
    requires NetBy(qs, nx) && rq in qs && rq.other == wq && wq in nx && newq !in qs && newwq !in qs && newq != newwq
    ensures newq in Attached(nx, rq, wq, newq, newwq) && newwq in Attached(nx, rq, wq, newq, newwq)
    ensures Detached(Attached(nx, rq, wq, newq, newwq), newq, newwq) == nx
  {
    forall q | q in qs && nx[q] != null ensures nx[q] in qs { assert MirroredBy(q, qs, nx); }
  }

  /** The links once the upper ends of two streams lead to each other. */
  ghost function Twisted(nx: map<Queue, Queue?>, rq0: Queue, rq1: Queue, wq0: Queue, wq1: Queue): map<Queue, Queue?> {
    nx[wq0 := rq1][wq1 := rq0]
  }

  /** fifo_open, on a stream without modules: its write queue is made to lead to its read queue. */
  method FifoOpen(rq: Queue, ghost qs: set<Queue>)
    requires Net(qs) && rq in qs && rq.rd && rq.next == null && rq.other != null && rq.other.next == null
    modifies rq.other`next, rq.other`rank
    ensures Net(qs) && rq.other != null && rq.other in old(Links(qs))
    ensures Links(qs) == old(Links(qs))[rq.other := rq]
  {
    hide NetBy, MirrorBy, Ranked;
    ghost var nx := Links(qs);
    Partner(rq, qs);
    NobodyAbove(qs, nx, rq);
    FifoMirror(qs, nx, rq);
    NetParts(qs, nx);
    var wq := rq.other;
    LowerOne(rq, wq, qs, nx);
    wq.next := rq;
    NetParts(qs, nx[wq := rq]);
    FifoLinks(qs, nx, rq, wq);
  }

  lemma FifoLinks(qs: set<Queue>, nx: map<Queue, Queue?>, rq: Queue, wq: Queue)
    requires nx.Keys == qs && wq in qs && wq.next == rq && forall q :: q in qs && q != wq ==> q.next == nx[q]
    ensures Links(qs) == nx[wq := rq]
  {
  }

  lemma FifoMirror(qs: set<Queue>, nx: map<Queue, Queue?>, rq: Queue)
    requires NetBy(qs, nx) && rq in qs && rq.rd && nx[rq] == null && rq.other in qs && nx[rq.other] == null
    ensures MirrorBy(qs, nx[rq.other := rq])
  {
    var wq := rq.other;
    assert Paired(rq, qs);
    forall q | q in qs ensures q.other in qs && q.other != null && q.other.other == q && q.other.rd != q.rd {
      assert Paired(q, qs);
    }
    forall q | q in qs && nx[q] != null
      ensures nx[q] in qs && nx[q].other in qs && nx[q].other != null && nx[nx[q].other] == q.other
      ensures q.rd ==> nx[q].rd
      ensures q != wq && nx[q].other != wq
    {
      assert MirroredBy(q, qs, nx) && Paired(q, qs) && Paired(nx[q], qs);
    }
  }

  /** The upper end gets a low rank. */
  ghost method LowerOne(rq: Queue, wq: Queue, qs: set<Queue>, nx: map<Queue, Queue?>)
    requires Ranked(qs, nx) && rq in qs && wq in qs && rq.rd && !wq.rd && forall q :: q in qs ==> nx[q] != wq
    modifies wq`rank
    ensures Ranked(qs, nx[wq := rq])
  {
    wq.rank := rq.rank - 1.0;
  }

  /** Two nets without a common queue are one net: streams that were made separately can be joined. */
  lemma JoinedNet(qs: set<Queue>, qs': set<Queue>)
    requires Net(qs) && Net(qs') && qs !! qs'
    ensures Net(qs + qs')
    ensures Links(qs + qs') == (map q | q in qs + qs' :: if q in qs then Links(qs)[q] else Links(qs')[q])
  {
    var all := qs + qs';
    forall q | q in all ensures Paired(q, all) { assert if q in qs then Paired(q, qs) else Paired(q, qs'); }
    forall q | q in all && q.next != null ensures MirroredBy(q, all, Links(all)) {
      assert if q in qs then MirroredBy(q, qs, Links(qs)) else MirroredBy(q, qs', Links(qs'));
    }
  }

  /** user_get_pipe: two FIFOs without modules become a pipe. */
  method Twist(rq0: Queue, rq1: Queue, ghost qs: set<Queue>)
    requires Net(qs) && rq0 in qs && rq1 in qs && rq0 != rq1 && rq0.rd && rq1.rd
    requires rq0.next == null && rq1.next == null
    requires rq0.other != null && rq1.other != null && rq0.other in qs && rq1.other in qs
    requires rq0.other.next == rq0 && rq1.other.next == rq1
    modifies qs`next, qs`rank
    ensures Net(qs)
    ensures rq0.other != null && rq1.other != null
    ensures Links(qs) == Twisted(old(Links(qs)), rq0, rq1, rq0.other, rq1.other)
  {
    hide NetBy, MirrorBy, Ranked, Twisted;
    ghost var nx := Links(qs);
    Partner(rq0, qs);
    Partner(rq1, qs);
    NobodyAbove(qs, nx, rq0);
    NobodyAbove(qs, nx, rq1);
    TwistedMirror(qs, nx, rq0, rq1);
    NetParts(qs, nx);
    var wq0, wq1 := rq0.other, rq1.other;
    ghost var nx' := Twisted(nx, rq0, rq1, wq0, wq1);
    LowerBoth(rq0, rq1, wq0, wq1, qs, nx);
    wq0.next := rq1;
    wq1.next := rq0;
    NetParts(qs, nx');
    TwistedLinks(qs, nx, rq0, rq1, wq0, wq1);
  }

  /** A stream without modules that is a FIFO. */
  method NewFifo() returns (rq: Queue)
    ensures fresh(rq) && rq.rd && rq.other != null && fresh(rq.other) && rq != rq.other && Net({rq, rq.other})
    ensures rq.next == null && rq.other.next == rq
  {
    hide NetBy;
    rq := NewPair(true, true);
    ghost var nx := Links({rq, rq.other});
    FifoOpen(rq, {rq, rq.other});
    assert Links({rq, rq.other})[rq] == nx[rq];
  }

  /** The history of a pipe: two streams are made FIFOs, and then twisted. */
  method MakePipe() returns (rq0: Queue, rq1: Queue, ghost qs: set<Queue>)
    ensures fresh(qs) && Net(qs) && rq0 in qs && rq1 in qs && rq0 != rq1 && rq0.rd && rq1.rd
    ensures rq0.other != null && rq1.other != null && qs == {rq0, rq0.other, rq1, rq1.other}
    ensures Links(qs) == map[rq0 := null, rq1 := null, rq0.other := rq1, rq1.other := rq0]
  {
    hide NetBy, Twisted;
    rq0 := NewFifo();
    rq1 := NewFifo();
    qs := {rq0, rq0.other} + {rq1, rq1.other};
    JoinedNet({rq0, rq0.other}, {rq1, rq1.other});
    PipeLinks(Links(qs), rq0, rq1, rq0.other, rq1.other);
    Twist(rq0, rq1, qs);
  }

  lemma PipeLinks(nx: map<Queue, Queue?>, rq0: Queue, rq1: Queue, wq0: Queue, wq1: Queue)
    requires nx.Keys == {rq0, wq0, rq1, wq1} && rq0 != wq0 && rq1 != wq1 && rq0 != wq1 && rq1 != wq0
    requires nx[rq0] == null && nx[rq1] == null
    ensures Twisted(nx, rq0, rq1, wq0, wq1) == map[rq0 := null, rq1 := null, wq0 := rq1, wq1 := rq0]
  {
  }

  lemma TwistedLinks(qs: set<Queue>, nx: map<Queue, Queue?>, rq0: Queue, rq1: Queue, wq0: Queue, wq1: Queue)
    requires nx.Keys == qs && wq0 in qs && wq1 in qs && wq0 != wq1 && wq0.next == rq1 && wq1.next == rq0
    requires forall q :: q in qs && q != wq0 && q != wq1 ==> q.next == nx[q]
    ensures Links(qs) == Twisted(nx, rq0, rq1, wq0, wq1)
  {
  }

  /** Nobody leads to the write queue at the top of a stream. */
  lemma NobodyAbove(qs: set<Queue>, nx: map<Queue, Queue?>, rq: Queue)
    requires NetBy(qs, nx) && rq in qs && nx[rq] == null && rq.other in qs
    ensures forall q :: q in qs ==> nx[q] != rq.other
  {
    assert Paired(rq, qs);
    forall q | q in qs ensures nx[q] != rq.other {
      if nx[q] != null { assert MirroredBy(q, qs, nx) && Paired(q, qs); }
    }
  }

  /** MirroredBy without ranks. */
  ghost predicate MirrorBy(qs: set<Queue>, nx: map<Queue, Queue?>)
    reads qs`other
  {
    && nx.Keys == qs
    && (forall q :: q in qs ==> q.other in qs && q.other != null && q.other.other == q && q.other.rd != q.rd)
    && (forall q :: q in qs && nx[q] != null ==>
         nx[q] in qs && nx[q].other in qs && nx[q].other != null && nx[nx[q].other] == q.other && (q.rd ==> nx[q].rd))
  }

  lemma TwistedMirror(qs: set<Queue>, nx: map<Queue, Queue?>, rq0: Queue, rq1: Queue)
    requires NetBy(qs, nx) && rq0 in qs && rq1 in qs && rq0 != rq1 && rq0.rd && rq1.rd && nx[rq0] == null
             && nx[rq1] == null
    requires rq0.other in qs && rq1.other in qs && nx[rq0.other] == rq0 && nx[rq1.other] == rq1
    ensures MirrorBy(qs, Twisted(nx, rq0, rq1, rq0.other, rq1.other))
  {
    var nx' := Twisted(nx, rq0, rq1, rq0.other, rq1.other);
    assert Paired(rq0, qs) && Paired(rq1, qs);
    forall q | q in qs ensures q.other in qs && q.other != null && q.other.other == q && q.other.rd != q.rd {
      assert Paired(q, qs);
    }
    forall q | q in qs && nx'[q] != null
      ensures nx'[q] in qs && nx'[q].other in qs && nx'[q].other != null && nx'[nx'[q].other] == q.other
              && (q.rd ==> nx'[q].rd)
    {
      if nx[q] != null { assert MirroredBy(q, qs, nx) && Paired(q, qs) && Paired(nx[q], qs); }
    }
  }

  ghost predicate Ranked(qs: set<Queue>, nx: map<Queue, Queue?>)
    reads qs`rank
  {
    nx.Keys == qs && forall q :: q in qs && nx[q] != null && nx[q] in qs ==> q.rank < nx[q].rank
  }

  lemma NetParts(qs: set<Queue>, nx: map<Queue, Queue?>)
    ensures NetBy(qs, nx) ==> Ranked(qs, nx)
    ensures MirrorBy(qs, nx) && Ranked(qs, nx) ==> NetBy(qs, nx)
  {
    if NetBy(qs, nx) {
      forall q | q in qs && nx[q] != null && nx[q] in qs ensures q.rank < nx[q].rank { assert MirroredBy(q, qs, nx); }
    }
    if MirrorBy(qs, nx) && Ranked(qs, nx) {
      forall q | q in qs ensures Paired(q, qs) { }
      forall q | q in qs && nx[q] != null ensures MirroredBy(q, qs, nx) { }
    }
  }

  /** The two upper ends get low ranks. */
  ghost method LowerBoth(rq0: Queue, rq1: Queue, wq0: Queue, wq1: Queue, qs: set<Queue>, nx: map<Queue, Queue?>)
    requires Ranked(qs, nx) && rq0 in qs && rq1 in qs && wq0 in qs && wq1 in qs && rq0.rd && rq1.rd && !wq0.rd
             && !wq1.rd
    requires forall q :: q in qs ==> nx[q] != wq0 && nx[q] != wq1
    modifies wq0`rank, wq1`rank
    ensures Ranked(qs, Twisted(nx, rq0, rq1, wq0, wq1))
  {
    var low := (if rq0.rank < rq1.rank then rq0.rank else rq1.rank) - 1.0;
    wq0.rank := low;
    wq1.rank := low;
  }

  // ---- the searches of flow control ----

  /** The search of lis_bcanput: the first queue from q on with a service procedure, or the last one. */
  method ForwardSearch(q: Queue, ghost qs: set<Queue>) returns (f: Queue, ghost p: seq<Queue>)
    requires Net(qs) && q in qs
    ensures Walk(p) && p != [] && p[0] == q && p[|p| - 1] == f && f in qs && (forall x :: x in p ==> x in qs)
    ensures forall i :: 0 <= i < |p| - 1 ==> !p[i].srv
    ensures f.srv || f.next == null
  {
    f, p := q, [q];
    ghost var left := qs - {q};
    while f.next != null && !f.srv
      invariant f in qs && Walk(p) && p != [] && p[0] == q && p[|p| - 1] == f
      invariant forall x :: x in p ==> x in qs
      invariant forall i :: 0 <= i < |p| - 1 ==> !p[i].srv
      invariant forall x :: x in qs && x.rank > f.rank ==> x in left
      decreases left
    {
      assert MirroredBy(f, qs, Links(qs));
      left := left - {f.next};
      f := f.next;
      p := p + [f];
    }
  }

  /** A queue that the search of lis_backenable stops at after enabling it. */
  predicate Stops(q: Queue)
    reads q
  {
    Enables(q) && (!q.closewt || q.count != 0)
  }

  predicate Enables(q: Queue)
    reads q
  {
    q.srv && !q.noenb && !q.off
  }

  /** A writer p[0] was sent to the last queue of p by the forward search from the queue after it. */
  ghost predicate SentAlong(p: seq<Queue>)
    reads p
  {
    Walk(p) && |p| > 1 && Stops(p[0]) && forall i :: 0 < i < |p| - 1 ==> !p[i].srv
  }

  /** A queue between the ends of p is switched off or closing. */
  ghost predicate Blocked(p: seq<Queue>)
    reads p
  {
    exists i :: 0 < i < |p| - 1 && p[i].off
  }

  /** What the search of lis_backenable enables if the way to its start is p: going up, each queue that may be enabled,
      until one is off or stops the search. */
  ghost function Found(p: seq<Queue>): seq<Queue>
    reads p
  {
    if |p| <= 1 || p[|p| - 2].off then []
    else
      var q := p[|p| - 2];
      (if Enables(q) then [q] else []) + if Stops(q) then [] else Found(p[..|p| - 1])
  }

  /** These are the queues upstream that may be enabled, with none between that is off or stops the search. */
  lemma FoundExactly(p: seq<Queue>, x: Queue)
    ensures x in Found(p) <==> exists i :: 0 <= i < |p| - 1 && p[i] == x && Enables(x) && Passed(p, i)
  {
    if x in Found(p) { var i := FoundOnly(p, x); }
    forall i | 0 <= i < |p| - 1 && p[i] == x && Enables(x) && Passed(p, i) ensures x in Found(p) { FoundAll(p, i); }
  }

  lemma {:induction false} FoundAll(p: seq<Queue>, i: nat)
    requires i < |p| - 1 && Enables(p[i]) && Passed(p, i)
    ensures p[i] in Found(p)
  {
    if i < |p| - 2 {
      PassedOn(p, i);
      FoundAll(p[..|p| - 1], i);
    }
  }

  lemma {:induction false} FoundOnly(p: seq<Queue>, x: Queue) returns (i: nat)
    requires x in Found(p)
    ensures i < |p| - 1 && p[i] == x && Enables(x) && Passed(p, i)
  {
    var q := p[|p| - 2];
    if Enables(q) && q == x {
      i := |p| - 2;
    } else {
      i := FoundOnly(p[..|p| - 1], x);
      PassedOn(p, i);
    }
  }

  ghost predicate Passed(p: seq<Queue>, i: nat)
    reads p
  {
    forall j :: i < j < |p| - 1 ==> !p[j].off && !Stops(p[j])
  }

  lemma PassedOn(p: seq<Queue>, i: nat)
    requires i + 2 < |p|
    ensures Passed(p, i) <==> Passed(p[..|p| - 1], i) && !p[|p| - 2].off && !Stops(p[|p| - 2])
  {
    var t := p[..|p| - 1];
    assert forall j :: i < j < |t| - 1 ==> t[j] == p[j];
    if Passed(t, i) && !p[|p| - 2].off && !Stops(p[|p| - 2]) {
      forall j | i < j < |p| - 1 ensures !p[j].off && !Stops(p[j]) {
        if j < |p| - 2 { assert t[j] == p[j]; }
      }
    }
  }

  /** The whole way to f. */
  ghost predicate Upstream(up: seq<Queue>, f: Queue, qs: set<Queue>)
    requires Net(qs)
    reads qs, up
  {
    && up != [] && up[|up| - 1] == f && Walk(up) && (forall i :: 0 <= i < |up| ==> up[i] in qs)
    && BackQ(up[0], qs) == null
  }

  lemma {:induction false} FindUpstream(f: Queue, qs: set<Queue>, left: set<Queue>) returns (up: seq<Queue>)
    requires Net(qs) && f in qs && forall x :: x in qs && x.rank < f.rank ==> x in left
    ensures Upstream(up, f, qs)
    decreases left
  {
    var b := BackQ(f, qs);
    if b == null {
      up := [f];
    } else {
      BackQInNet(f, qs);
      BackQIsInverse(b, f, qs);
      assert MirroredBy(b, qs, Links(qs));
      var t := FindUpstream(b, qs, left - {b});
      up := t + [f];
      forall i | 0 <= i < |up| - 1 ensures up[i].next == up[i + 1] {
        if i < |t| - 1 { assert t[i].next == t[i + 1]; }
      }
    }
  }

  /** The search of lis_backenable from f. */
  method BackwardSearch(f: Queue, ghost qs: set<Queue>) returns (enabled: seq<Queue>, ghost up: seq<Queue>)
    requires Net(qs) && f in qs
    ensures Upstream(up, f, qs) && enabled == Found(up)
    ensures forall p :: SentAlong(p) && p[|p| - 1] == f && (forall i :: 0 <= i < |p| ==> p[i] in qs) ==>
              enabled == if Blocked(p) then [] else [p[0]]
  {
    up := FindUpstream(f, qs, qs);
    enabled := SearchUp(f, qs, up);
    FoundWhenSent(f, qs, up);
  }

  /** Its loop. */
  method SearchUp(f: Queue, ghost qs: set<Queue>, ghost up: seq<Queue>) returns (enabled: seq<Queue>)
    requires Net(qs) && Upstream(up, f, qs)
    ensures enabled == Found(up)
  {
    hide Found, Upstream, NetBy;
    enabled := [];
    var q := f;
    ghost var k := |up| - 1;
    UpstreamFacts(up, f, qs);
    assert up[..|up|] == up;
    while true
      invariant 0 <= k < |up| && q == up[k]
      invariant enabled + Found(up[..k + 1]) == Found(up)
      decreases k
    {
      UpstreamStep(up, k, f, qs);
      FoundStep(up, k);
      var b := BackQ(q, qs);
      if b == null { break; }
      ghost var was := enabled;
      q, k := b, k - 1;
      if q.off { break; }
      if q.srv && !q.noenb {
        enabled := enabled + [q];
        if !q.closewt || q.count != 0 { break; }
        assert was + ([q] + Found(up[..k + 1])) == enabled + Found(up[..k + 1]);
      }
    }
  }

  lemma UpstreamFacts(up: seq<Queue>, f: Queue, qs: set<Queue>)
    requires Net(qs) && Upstream(up, f, qs)
    ensures up != [] && up[|up| - 1] == f
  {
  }

  lemma UpstreamStep(up: seq<Queue>, k: nat, f: Queue, qs: set<Queue>)
    requires Net(qs) && Upstream(up, f, qs) && k < |up|
    ensures up[k] in qs && BackQ(up[k], qs) == if k == 0 then null else up[k - 1]
  {
    if k > 0 {
      assert up[k - 1].next == up[k];
      BackQIsInverse(up[k - 1], up[k], qs);
    }
  }

  lemma FoundStep(up: seq<Queue>, k: nat)
    requires k < |up|
    ensures Found(up[..k + 1]) ==
            if k == 0 || up[k - 1].off then []
            else (if Enables(up[k - 1]) then [up[k - 1]] else []) + if Stops(up[k - 1]) then [] else Found(up[..k])
  {
    assert up[..k + 1][..k] == up[..k];
  }

  lemma FoundWhenSent(f: Queue, qs: set<Queue>, up: seq<Queue>)
    requires Net(qs) && Upstream(up, f, qs)
    ensures forall p :: SentAlong(p) && p[|p| - 1] == f && (forall i :: 0 <= i < |p| ==> p[i] in qs) ==>
              Found(up) == if Blocked(p) then [] else [p[0]]
  {
    forall p | SentAlong(p) && p[|p| - 1] == f && (forall i :: 0 <= i < |p| ==> p[i] in qs)
      ensures Found(up) == if Blocked(p) then [] else [p[0]]
    {
      SameWay(p, up, f, qs);
      FoundAlong(up, p);
    }
  }

  /** Ways to a queue differ only in how far up they begin. */
  lemma {:induction false} SameWay(p: seq<Queue>, up: seq<Queue>, f: Queue, qs: set<Queue>)
    requires Net(qs) && Upstream(up, f, qs) && p != [] && Walk(p) && p[|p| - 1] == f
    requires forall i :: 0 <= i < |p| ==> p[i] in qs
    ensures |p| <= |up| && up[|up| - |p|..] == p
    decreases |p|
  {
    if |p| > 1 {
      var b := p[|p| - 2];
      BackQIsInverse(b, f, qs);
      assert b.next == f;
      assert |up| > 1;
      BackQIsInverse(up[|up| - 2], f, qs);
      assert up[|up| - 2].next == f;
      var t, w := p[..|p| - 1], up[..|up| - 1];
      assert Walk(t) by { forall i | 0 <= i < |t| - 1 ensures t[i].next == t[i + 1] { assert p[i].next == p[i + 1]; } }
      assert Walk(w) by {
        forall i | 0 <= i < |w| - 1 ensures w[i].next == w[i + 1] { assert up[i].next == up[i + 1]; }
      }
      SameWay(t, w, b, qs);
      assert up[|up| - |p|..] == w[|w| - |t|..] + [f] && p == t + [f];
    }
  }

  lemma {:induction false} FoundAlong(up: seq<Queue>, p: seq<Queue>)
    requires 1 < |p| <= |up| && up[|up| - |p|..] == p && Stops(p[0]) && forall i :: 0 < i < |p| - 1 ==> !p[i].srv
    ensures Found(up) == if Blocked(p) then [] else [p[0]]
    decreases |p|
  {
    var b := p[|p| - 2];
    assert up[|up| - 2] == b;
    if |p| > 2 {
      var t, w := p[..|p| - 1], up[..|up| - 1];
      assert w[|w| - |t|..] == t;
      FoundAlong(w, t);
      assert Blocked(p) <==> b.off || Blocked(t) by {
        if Blocked(p) {
          var i :| 0 < i < |p| - 1 && p[i].off;
          if i < |p| - 2 { assert t[i].off; }
        }
        if Blocked(t) {
          var i :| 0 < i < |t| - 1 && t[i].off;
          assert p[i].off;
        }
        if b.off { assert p[|p| - 2].off; }
      }
    }
  }

  lemma BackQInNet(q: Queue, qs: set<Queue>)
    requires Net(qs) && q in qs && BackQ(q, qs) != null
    ensures BackQ(q, qs) in qs
  {
    BackQIsInverse(q, q, qs);
  }

  /** Canput and back-enable are dual, exactly if no queue between is off: whatever queue f the test of a writer w ends
      at, the search from f then enables exactly w, across queues without service procedure and across the twist of a
      FIFO or a pipe; otherwise it enables nobody. */
  method CanPutNextThenBackEnable(w: Queue, ghost qs: set<Queue>)
      returns (f: Queue, ghost p: seq<Queue>, enabled: seq<Queue>)
    requires Net(qs) && w in qs && w.next != null && Stops(w)
    ensures Walk(p) && p != [] && p[0] == w.next && p[|p| - 1] == f && (f.srv || f.next == null)
    ensures enabled == [w] <==> forall i :: 0 <= i < |p| - 1 ==> !p[i].off
    ensures enabled != [w] ==> enabled == []
  {
    assert MirroredBy(w, qs, Links(qs));
    f, p := ForwardSearch(w.next, qs);
    ghost var all := [w] + p;
    assert Walk(all) by {
      forall i | 0 <= i < |all| - 1 ensures all[i].next == all[i + 1] { if i > 0 { assert p[i - 1].next == p[i]; } }
    }
    ghost var up;
    enabled, up := BackwardSearch(f, qs);
    assert forall i :: 0 <= i < |all| ==> all[i] in qs;
    assert SentAlong(all);
    assert forall i :: 0 < i < |all| - 1 ==> all[i] == p[i - 1];
    assert forall i :: 0 <= i < |p| - 1 ==> p[i] == all[i + 1];
  }
}
