/** Sequences sorted by priority: what the queue discipline of head/queue.c is about, apart from the links.

  A message has a key: HIGH for a high-priority message, else its band. `Head(ks, k)` and `Tail(ks, k)` delimit the run
  of class k in a sorted sequence of keys.
  */
module Priority {
  const HIGH: nat := 256

  ghost predicate Sorted(ks: seq<nat>) {
    forall i, j :: 0 <= i < j < |ks| ==> ks[i] >= ks[j]
  }

  /** The first place whose key is not above k. */
  ghost function Head(ks: seq<nat>, k: nat): (r: nat)
    ensures r <= |ks|
    ensures forall i :: 0 <= i < r ==> ks[i] > k
    ensures r < |ks| ==> ks[r] <= k
  {
    if ks == [] || ks[0] <= k then 0 else 1 + Head(ks[1..], k)
  }

  /** The first place whose key is below k. */
  ghost function Tail(ks: seq<nat>, k: nat): (r: nat)
    ensures r <= |ks|
    ensures forall i :: 0 <= i < r ==> ks[i] >= k
    ensures r < |ks| ==> ks[r] < k
  {
    if ks == [] || ks[0] < k then 0 else 1 + Tail(ks[1..], k)
  }

  ghost function Ins<T>(s: seq<T>, p: nat, x: T): seq<T>
    requires p <= |s|
  {
    s[..p] + [x] + s[p..]
  }

  ghost function Del<T>(s: seq<T>, p: nat): seq<T>
    requires p < |s|
  {
    s[..p] + s[p + 1..]
  }

  ghost predicate Spot(ks: seq<nat>, p: nat, k: nat) { Head(ks, k) <= p <= Tail(ks, k) }

  /** What stands where after an insertion. */
  lemma InsAt<T>(s: seq<T>, p: nat, x: T, i: nat)
    requires p <= |s| && i <= |s|
    ensures |Ins(s, p, x)| == |s| + 1
    ensures i < p ==> Ins(s, p, x)[i] == s[i]
    ensures i == p ==> Ins(s, p, x)[i] == x
    ensures i > p ==> Ins(s, p, x)[i] == s[i - 1]
  {
  }

  /** The places where a message of class k may stand are those between Head and Tail. */
  lemma SpotIffSorted(ks: seq<nat>, p: nat, k: nat)
    requires Sorted(ks) && p <= |ks|
    ensures Sorted(Ins(ks, p, k)) <==> Spot(ks, p, k)
  {
    var n := Ins(ks, p, k);
    if Spot(ks, p, k) {
      SpotSorted(ks, p, k);
    } else if p < Head(ks, k) {
      InsAt(ks, p, k, p);
      InsAt(ks, p, k, p + 1);
    } else {
      InsAt(ks, p, k, p);
      InsAt(ks, p, k, p - 1);
      assert ks[p - 1] <= ks[Tail(ks, k)];
    }
  }

  lemma SpotSorted(ks: seq<nat>, p: nat, k: nat)
    requires Sorted(ks) && p <= |ks| && Spot(ks, p, k)
    ensures Sorted(Ins(ks, p, k))
  {
    var n := Ins(ks, p, k);
    forall i, j | 0 <= i < j < |n| ensures n[i] >= n[j] {
      InsAt(ks, p, k, i);
      InsAt(ks, p, k, j);
      if j > p { Above(ks, j - 1, k); }
    }
  }

  lemma Above(ks: seq<nat>, i: nat, b: nat)
    requires Sorted(ks) && i < |ks|
    ensures i < Head(ks, b) <==> ks[i] > b
    ensures i < Tail(ks, b) <==> ks[i] >= b
  {
    if Head(ks, b) < i { assert ks[Head(ks, b)] >= ks[i]; }
    if Tail(ks, b) < i { assert ks[Tail(ks, b)] >= ks[i]; }
  }

  lemma HeadIs(ks: seq<nat>, b: nat, h: nat)
    requires Sorted(ks) && h <= |ks|
    requires 0 < h ==> ks[h - 1] > b
    requires h < |ks| ==> ks[h] <= b
    ensures Head(ks, b) == h
  {
    if 0 < h { Above(ks, h - 1, b); }
    if h < |ks| { Above(ks, h, b); }
  }

  lemma TailIs(ks: seq<nat>, b: nat, t: nat)
    requires Sorted(ks) && t <= |ks|
    requires 0 < t ==> ks[t - 1] >= b
    requires t < |ks| ==> ks[t] < b
    ensures Tail(ks, b) == t
  {
    if 0 < t { Above(ks, t - 1, b); }
    if t < |ks| { Above(ks, t, b); }
  }

  lemma InsMembers<T>(s: seq<T>, p: nat, x: T)
    requires p <= |s|
    ensures forall y :: y in Ins(s, p, x) <==> y == x || y in s
  {
    assert s == s[..p] + s[p..];
  }

  lemma DelSorted(ks: seq<nat>, p: nat)
    requires Sorted(ks) && p < |ks|
    ensures Sorted(Del(ks, p)) && Spot(Del(ks, p), p, ks[p]) && Ins(Del(ks, p), p, ks[p]) == ks
  {
    var d := Del(ks, p);
    forall i, j | 0 <= i < j < |d| ensures d[i] >= d[j] {
      assert d[i] == ks[if i < p then i else i + 1] && d[j] == ks[if j < p then j else j + 1];
    }
    assert Ins(d, p, ks[p]) == ks;
    SpotIffSorted(d, p, ks[p]);
  }

  ghost function Sum(zs: seq<nat>): nat { if zs == [] then 0 else zs[0] + Sum(zs[1..]) }

  lemma {:induction false} SumCat(a: seq<nat>, b: seq<nat>)
    ensures Sum(a + b) == Sum(a) + Sum(b)
  {
    if a == [] {
      assert a + b == b;
    } else {
      assert (a + b)[1..] == a[1..] + b;
      SumCat(a[1..], b);
    }
  }

  lemma SumIns(zs: seq<nat>, p: nat, z: nat)
    requires p <= |zs|
    ensures Sum(Ins(zs, p, z)) == Sum(zs) + z
  {
    assert Ins(zs, p, z) == zs[..p] + ([z] + zs[p..]);
    SumCat(zs[..p], [z] + zs[p..]);
    SumCat(zs[..p], zs[p..]);
    assert zs[..p] + zs[p..] == zs;
    assert ([z] + zs[p..])[1..] == zs[p..];
  }

  // ---- the reference: one FIFO sequence for each class ----

  /** The messages of class c, in order. */
  ghost function Of<T>(ms: seq<T>, ks: seq<nat>, c: nat): (r: seq<T>)
    requires |ms| == |ks|
  {
    if ms == [] then [] else (if ks[0] == c then [ms[0]] else []) + Of(ms[1..], ks[1..], c)
  }

  lemma {:induction false} OfCat<T>(a: seq<T>, ka: seq<nat>, b: seq<T>, kb: seq<nat>, c: nat)
    requires |a| == |ka| && |b| == |kb|
    ensures Of(a + b, ka + kb, c) == Of(a, ka, c) + Of(b, kb, c)
  {
    if a == [] {
      assert a + b == b && ka + kb == kb;
    } else {
      var s, ks := a + b, ka + kb;
      assert s[1..] == a[1..] + b && ks[1..] == ka[1..] + kb;
      OfCat(a[1..], ka[1..], b, kb, c);
      assert s[0] == a[0] && ks[0] == ka[0];
      assert Of(s, ks, c) == (if ks[0] == c then [s[0]] else []) + Of(s[1..], ks[1..], c);
    }
  }

  lemma {:induction false} OfNone<T>(a: seq<T>, ka: seq<nat>, c: nat)
    requires |a| == |ka| && c !in ka
    ensures Of(a, ka, c) == []
  {
    if a != [] { OfNone(a[1..], ka[1..], c); }
  }

  lemma {:induction false} OfAll<T>(a: seq<T>, ka: seq<nat>, c: nat)
    requires |a| == |ka| && forall i :: 0 <= i < |ka| ==> ka[i] == c
    ensures Of(a, ka, c) == a
  {
    if a != [] { OfAll(a[1..], ka[1..], c); }
  }

  /** Of selects messages of the class, from the sequence. */
  lemma {:induction false} OfHas<T>(ms: seq<T>, ks: seq<nat>, c: nat, j: nat)
    requires |ms| == |ks| && j < |Of(ms, ks, c)|
    ensures exists i :: 0 <= i < |ms| && ms[i] == Of(ms, ks, c)[j] && ks[i] == c
  {
    if ks[0] == c && j == 0 {
      assert ms[0] == Of(ms, ks, c)[0];
    } else {
      var k := if ks[0] == c then j - 1 else j;
      OfHas(ms[1..], ks[1..], c, k);
      var i :| 0 <= i < |ms[1..]| && ms[1..][i] == Of(ms[1..], ks[1..], c)[k] && ks[1..][i] == c;
      assert ms[i + 1] == Of(ms, ks, c)[j] && ks[i + 1] == c;
    }
  }

  lemma {:induction false} OfSome<T>(ms: seq<T>, ks: seq<nat>, c: nat, i: nat)
    requires |ms| == |ks| && i < |ks| && ks[i] == c
    ensures Of(ms, ks, c) != []
  {
    if i > 0 { OfSome(ms[1..], ks[1..], c, i - 1); }
  }

  /** A message put at place p is the first of its class exactly at Head, and the last exactly at Tail. */
  lemma Ends<T>(ms: seq<T>, ks: seq<nat>, p: nat, k: nat)
    requires |ms| == |ks| && Sorted(ks) && p <= |ks| && Spot(ks, p, k)
    ensures Of(ms[..p], ks[..p], k) == [] <==> p == Head(ks, k)
    ensures Of(ms[p..], ks[p..], k) == [] <==> p == Tail(ks, k)
  {
    if p == Head(ks, k) {
      OfNone(ms[..p], ks[..p], k);
    } else {
      Above(ks, p - 1, k);
      OfSome(ms[..p], ks[..p], k, p - 1);
    }
    if p == Tail(ks, k) {
      forall i | p <= i < |ks| ensures ks[i] != k { Above(ks, i, k); }
      OfNone(ms[p..], ks[p..], k);
    } else {
      Above(ks, p, k);
      OfSome(ms[p..], ks[p..], k, 0);
    }
  }

  lemma OfIns<T>(ms: seq<T>, ks: seq<nat>, p: nat, m: T, k: nat, c: nat)
    requires |ms| == |ks| && p <= |ms|
    ensures Of(Ins(ms, p, m), Ins(ks, p, k), c)
         == Of(ms[..p], ks[..p], c) + (if c == k then [m] else []) + Of(ms[p..], ks[p..], c)
    ensures Of(ms, ks, c) == Of(ms[..p], ks[..p], c) + Of(ms[p..], ks[p..], c)
  {
    OfSplit(ms, ks, p, c);
    OfCat(ms[..p] + [m], ks[..p] + [k], ms[p..], ks[p..], c);
    OfCat(ms[..p], ks[..p], [m], [k], c);
    assert [m][1..] == [] && [k][1..] == [];
  }

  /** Inserting at the end of the run of its class makes a message the last of its class. */
  lemma LastInClass<T>(ms: seq<T>, ks: seq<nat>, m: T, k: nat, c: nat)
    requires |ms| == |ks| && Sorted(ks)
    ensures Of(Ins(ms, Tail(ks, k), m), Ins(ks, Tail(ks, k), k), c) == Of(ms, ks, c) + (if c == k then [m] else [])
    ensures Sorted(Ins(ks, Tail(ks, k), k))
  {
    var p := Tail(ks, k);
    Bounds0(ks, k);
    SpotIffSorted(ks, p, k);
    OfIns(ms, ks, p, m, k, c);
    if c == k {
      forall i | p <= i < |ks| ensures ks[i] != k { Above(ks, i, k); }
      OfNone(ms[p..], ks[p..], c);
    }
  }

  /** Inserting at the front of the run of its class makes a message the first of its class. */
  lemma FirstInClass<T>(ms: seq<T>, ks: seq<nat>, m: T, k: nat, c: nat)
    requires |ms| == |ks| && Sorted(ks)
    ensures Of(Ins(ms, Head(ks, k), m), Ins(ks, Head(ks, k), k), c) == (if c == k then [m] else []) + Of(ms, ks, c)
    ensures Sorted(Ins(ks, Head(ks, k), k))
  {
    var p := Head(ks, k);
    Bounds0(ks, k);
    SpotIffSorted(ks, p, k);
    OfIns(ms, ks, p, m, k, c);
    if c == k { OfNone(ms[..p], ks[..p], c); }
  }

  lemma Bounds0(ks: seq<nat>, k: nat)
    requires Sorted(ks)
    ensures Head(ks, k) <= Tail(ks, k)
  {
    if Tail(ks, k) < |ks| { Above(ks, Tail(ks, k), k); }
  }

  /** In a sorted queue the messages of a class stand side by side. */
  lemma OfIsSlice<T>(ms: seq<T>, ks: seq<nat>, b: nat)
    requires |ms| == |ks| && Sorted(ks)
    ensures Head(ks, b) <= Tail(ks, b)
    ensures Of(ms, ks, b) == ms[Head(ks, b)..Tail(ks, b)]
  {
    Bounds0(ks, b);
    AroundRun(ks, b);
    RunIsSlice(ms, ks, Head(ks, b), Tail(ks, b), b);
  }

  lemma RunIsSlice<T>(ms: seq<T>, ks: seq<nat>, h: nat, t: nat, b: nat)
    requires |ms| == |ks| && h <= t <= |ks|
    requires b !in ks[..h] && b !in ks[t..]
    requires forall i :: h <= i < t ==> ks[i] == b
    ensures Of(ms, ks, b) == ms[h..t]
  {
    OfSplit(ms, ks, t, b);
    OfSplit(ms[..t], ks[..t], h, b);
    assert ks[..t][..h] == ks[..h] && ms[..t][h..] == ms[h..t];
    OfNone(ms[..t][..h], ks[..t][..h], b);
    OfNone(ms[t..], ks[t..], b);
    OfAll(ms[h..t], ks[..t][h..], b);
  }

  lemma AroundRun(ks: seq<nat>, b: nat)
    requires Sorted(ks) && Head(ks, b) <= Tail(ks, b)
    ensures b !in ks[..Head(ks, b)] && b !in ks[Tail(ks, b)..]
    ensures forall i :: Head(ks, b) <= i < Tail(ks, b) ==> ks[i] == b
  {
    forall i | Tail(ks, b) <= i < |ks| ensures ks[i] != b { Above(ks, i, b); }
    forall i | Head(ks, b) <= i < Tail(ks, b) ensures ks[i] == b { Above(ks, i, b); }
  }

  lemma OfSplit<T>(ms: seq<T>, ks: seq<nat>, p: nat, c: nat)
    requires |ms| == |ks| && p <= |ms|
    ensures Of(ms, ks, c) == Of(ms[..p], ks[..p], c) + Of(ms[p..], ks[p..], c)
  {
    OfCat(ms[..p], ks[..p], ms[p..], ks[p..], c);
    assert ms == ms[..p] + ms[p..] && ks == ks[..p] + ks[p..];
  }

  /** A sorted queue is determined by what each class holds. */
  lemma {:induction false} ClassesDetermine<T>(a: seq<T>, ka: seq<nat>, b: seq<T>, kb: seq<nat>)
    requires |a| == |ka| && |b| == |kb| && Sorted(ka) && Sorted(kb)
    requires forall c :: Of(a, ka, c) == Of(b, kb, c)
    ensures a == b && ka == kb
  {
    if a == [] {
      if b != [] { TopClass(b, kb, a, ka); }
    } else {
      TopClass(a, ka, b, kb);
      TopClass(b, kb, a, ka);
      SameRest(a, ka, b, kb);
      TailSorted(ka);
      TailSorted(kb);
      ClassesDetermine(a[1..], ka[1..], b[1..], kb[1..]);
      assert a == [a[0]] + a[1..] && b == [b[0]] + b[1..];
      assert ka == [ka[0]] + ka[1..] && kb == [kb[0]] + kb[1..];
    }
  }

  lemma TailSorted(ks: seq<nat>)
    requires Sorted(ks) && ks != []
    ensures Sorted(ks[1..])
  {
  }

  /** Two queues with the same classes and the same first class have the same first message, and agree on the rest. */
  lemma SameRest<T>(a: seq<T>, ka: seq<nat>, b: seq<T>, kb: seq<nat>)
    requires |a| == |ka| && |b| == |kb| && a != [] && b != [] && ka[0] == kb[0]
    requires forall c :: Of(a, ka, c) == Of(b, kb, c)
    ensures a[0] == b[0] && forall c :: Of(a[1..], ka[1..], c) == Of(b[1..], kb[1..], c)
  {
    assert Of(a, ka, ka[0])[0] == a[0] && Of(b, kb, ka[0])[0] == b[0];
    forall c ensures Of(a[1..], ka[1..], c) == Of(b[1..], kb[1..], c) {
      RestOfClass(a, ka, c);
      RestOfClass(b, kb, c);
    }
  }

  lemma RestOfClass<T>(a: seq<T>, ka: seq<nat>, d: nat)
    requires |a| == |ka| && a != []
    ensures Of(a[1..], ka[1..], d) == if ka[0] == d then Of(a, ka, d)[1..] else Of(a, ka, d)
  {
  }

  lemma TopClass<T>(a: seq<T>, ka: seq<nat>, b: seq<T>, kb: seq<nat>)
    requires |a| == |ka| && |b| == |kb| && Sorted(kb) && a != []
    requires Of(a, ka, ka[0]) == Of(b, kb, ka[0])
    ensures b != [] && kb[0] >= ka[0]
  {
    if ka[0] !in kb { OfNone(b, kb, ka[0]); }
  }

  /** Taking the first message and putting it back in front of its class gives the same queue. */
  lemma TakeThenPutBack<T>(ms: seq<T>, ks: seq<nat>)
    requires |ms| == |ks| && Sorted(ks) && ms != []
    ensures Ins(ms[1..], Head(ks[1..], ks[0]), ms[0]) == ms
  {
    if |ks| > 1 { assert ks[1] <= ks[0]; }
    assert Head(ks[1..], ks[0]) == 0;
  }

  /** Putting the messages of a sequence into a queue, one after the other. */
  ghost function PutAll<T>(acc: seq<T>, ka: seq<nat>, ms: seq<T>, ks: seq<nat>): (r: (seq<T>, seq<nat>))
    requires |acc| == |ka| && |ms| == |ks|
    ensures |r.0| == |r.1|
    decreases |ms|
  {
    if ms == [] then (acc, ka)
    else PutAll(Ins(acc, Tail(ka, ks[0]), ms[0]), Ins(ka, Tail(ka, ks[0]), ks[0]), ms[1..], ks[1..])
  }

  lemma {:induction false} PutAllStable<T>(acc: seq<T>, ka: seq<nat>, ms: seq<T>, ks: seq<nat>, c: nat)
    requires |acc| == |ka| && |ms| == |ks| && Sorted(ka)
    ensures Sorted(PutAll(acc, ka, ms, ks).1)
    ensures Of(PutAll(acc, ka, ms, ks).0, PutAll(acc, ka, ms, ks).1, c) == Of(acc, ka, c) + Of(ms, ks, c)
    decreases |ms|
  {
    if ms != [] {
      LastInClass(acc, ka, ms[0], ks[0], c);
      PutAllStable(Ins(acc, Tail(ka, ks[0]), ms[0]), Ins(ka, Tail(ka, ks[0]), ks[0]), ms[1..], ks[1..], c);
    }
  }

  /** Putting the messages of a sorted queue into an empty one gives the same queue. */
  lemma PutAllSorted<T>(ms: seq<T>, ks: seq<nat>)
    requires |ms| == |ks| && Sorted(ks)
    ensures PutAll([], [], ms, ks) == (ms, ks)
  {
    var r := PutAll([], [], ms, ks);
    PutAllStable([], [], ms, ks, 0);
    forall c ensures Of(r.0, r.1, c) == Of(ms, ks, c) { PutAllStable([], [], ms, ks, c); }
    ClassesDetermine(r.0, r.1, ms, ks);
  }
}
