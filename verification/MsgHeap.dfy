/** Message blocks and their reference counts (head/msg.c, head/msgutl.c).

  A header embeds a message block, a data block and a small buffer, but its message block may point at the data block of
  another header. db_ref counts the message blocks that point at a data block, and one more for its own header as long
  as that header is in use and points elsewhere.
  */
module MsgHeap {
  import opened Common

  /** The buffer inside a header, one from the kernel's allocator, one of a driver (esballoc). */
  datatype Buf = Internal(hdr: nat) | Kernel(id: nat) | User(id: nat)

  /** struct msgb; `datap` names the header whose data block it points at. */
  datatype Mblk = Mblk(datap: Option<nat>, rptr: nat, wptr: nat, cont: Option<nat>)

  /** struct datab; `user` says that frtnp is set. */
  datatype Dblk = Dblk(ref: nat, kind: nat, base: Option<Buf>, size: nat, user: bool)

  /** The memory of the message system. */
  datatype Store = Store(mb: map<nat, Mblk>, db: map<nat, Dblk>, mem: map<Buf, seq<nat>>)

  // ---- counting pointers ----

  ghost function Pointing(mb: map<nat, Mblk>, att: set<nat>, d: nat): set<nat> {
    set m | m in att && m in mb && mb[m].datap == Some(d)
  }

  lemma Detach(mb: map<nat, Mblk>, mb': map<nat, Mblk>, att: set<nat>, x: nat, d: nat)
    requires x in att && x in mb && forall m :: m in att && m != x ==>
               m in mb && m in mb' && mb'[m].datap == mb[m].datap
    ensures |Pointing(mb', att - {x}, d)| == |Pointing(mb, att, d)| - (if mb[x].datap == Some(d) then 1 else 0)
  {
    assert Pointing(mb', att - {x}, d) == Pointing(mb, att, d) - {x};
  }

  lemma Attach(mb: map<nat, Mblk>, mb': map<nat, Mblk>, att: set<nat>, x: nat, d: nat)
    requires x !in att && x in mb' && forall m :: m in att ==> m in mb && m in mb' && mb'[m].datap == mb[m].datap
    ensures |Pointing(mb', att + {x}, d)| == |Pointing(mb, att, d)| + (if mb'[x].datap == Some(d) then 1 else 0)
  {
    Detach(mb', mb, att + {x}, x, d);
    assert att + {x} - {x} == att;
  }

  // ---- the invariant ----

  /** What the store is used for. `live`: the messages their users hold; `loose`: those of them that are between two
      data blocks; `holds`: the external buffers that are not released, under the header that is to release them;
      `lost`: those that nobody will release any more; `zero`: headers whose count may just have reached 0. */
  datatype Use = Use(live: set<nat>, loose: set<nat>, holds: map<nat, Buf>, lost: set<Buf>, zero: set<nat>)
  {
    function Attached(): set<nat> { live - loose }
  }

  ghost predicate Count(s: Store, u: Use, h: nat)
    requires h in s.db
  {
    && s.db[h].ref == |Pointing(s.mb, u.Attached(), h)| + OwnUse(s, u, h)
    && (h !in u.zero ==> s.db[h].ref > 0)
  }

  /** The use of a data block by its own header. */
  ghost function OwnUse(s: Store, u: Use, h: nat): nat {
    if h in u.live && h in s.mb && (h in u.loose || s.mb[h].datap != Some(h)) then 1 else 0
  }

  /** What a message block points at is there. */
  ghost predicate Sane(s: Store, u: Use, m: nat) {
    && m in s.mb && s.mb[m].datap.Some?
    && var d := s.mb[m].datap.value;
       && d in s.db && HasBuf(s, u, d)
       && s.mb[m].rptr <= s.mb[m].wptr <= |s.mem[s.db[d].base.value]|
  }

  ghost predicate HasBuf(s: Store, u: Use, d: nat)
    requires d in s.db
  {
    s.db[d].base.Some? && s.db[d].base.value in s.mem
    && (s.db[d].base == Some(Internal(d)) || (d in u.holds && u.holds[d] == s.db[d].base.value))
  }

  ghost predicate BlockOk(s: Store, u: Use, fastbuf: nat, h: nat)
    requires h in s.db
  {
    && Internal(h) in s.mem && |s.mem[Internal(h)]| == fastbuf
    && (s.db[h].base == Some(Internal(h)) ==> !s.db[h].user && s.db[h].size == fastbuf && h !in u.holds)
  }

  ghost predicate HoldOk(s: Store, u: Use, fastbuf: nat, h: nat)
    requires h in u.holds
  {
    && h in s.db && s.db[h].base == Some(u.holds[h]) && u.holds[h] in s.mem && !u.holds[h].Internal?
    && |s.mem[u.holds[h]]| == s.db[h].size
    && (s.db[h].user <==> u.holds[h].User?)
    && (u.holds[h].Kernel? ==> s.db[h].size > fastbuf)
    && u.holds[h] !in u.lost
  }

  ghost predicate Domains(s: Store, u: Use) {
    && s.mb.Keys == s.db.Keys && u.loose <= u.live <= s.db.Keys
    && (forall b :: b in s.mem <==> (if b.Internal? then b.hdr in s.db else b in u.holds.Values || b in u.lost))
    && (forall b :: b in u.lost ==> !b.Internal?)
    && (forall g, h :: g in u.holds && h in u.holds && u.holds[g] == u.holds[h] ==> g == h)
  }

  /** All but the counts. */
  ghost predicate Shape(s: Store, u: Use, fastbuf: nat) {
    && Domains(s, u)
    && (forall m :: m in u.Attached() ==> Sane(s, u, m))
    && (forall h :: h in s.db ==> BlockOk(s, u, fastbuf, h))
    && (forall h :: h in u.holds ==> HoldOk(s, u, fastbuf, h))
  }

  ghost predicate Counts(s: Store, u: Use) { forall h :: h in s.db ==> Count(s, u, h) }

  ghost predicate Inv(s: Store, u: Use, fastbuf: nat) { Shape(s, u, fastbuf) && Counts(s, u) }

  /** The messages ms show the same bytes of the same type. */
  ghost predicate Keeps(s: Store, s': Store, ms: set<nat>) {
    forall m :: m in ms ==> Kept(s, s', m)
  }

  ghost predicate Kept(s: Store, s': Store, m: nat) {
    && m in s.mb && m in s'.mb && s'.mb[m] == s.mb[m] && s.mb[m].datap.Some?
    && var d := s.mb[m].datap.value;
       && d in s.db && d in s'.db && s'.db[d].kind == s.db[d].kind && s'.db[d].base == s.db[d].base
       && s.db[d].base.Some? && s.db[d].base.value in s.mem && s.db[d].base.value in s'.mem
       && s'.mem[s.db[d].base.value] == s.mem[s.db[d].base.value]
  }

  /** What header m has to release it still has. */
  ghost predicate HoldsOn(u: Use, u': Use, m: nat) {
    m in u.holds ==> m in u'.holds && u'.holds[m] == u.holds[m]
  }

  /** No message has left its own external buffer behind: only lis_pullupmsg makes one do that. */
  ghost predicate Plain(s: Store, u: Use) {
    forall m :: m in u.live ==> m in s.mb && (s.mb[m].datap != Some(m) ==> m !in u.holds)
  }

  /** The last message over a data block is the one that finds its count at 1: as long as nothing was pulled up, freeing
      a message releases the buffer it shows exactly if no other message shows it. */
  lemma ReleasedAtLastFree(s: Store, u: Use, fastbuf: nat, bp: nat, dp: nat)
    requires Inv(s, u, fastbuf) && u.loose == {} && Plain(s, u) && bp in u.live && bp in s.mb
             && s.mb[bp].datap == Some(dp)
    requires dp in u.holds
    ensures dp in s.db
            && (s.db[dp].ref == 1 <==> forall m :: m in u.live && m != bp ==> m in s.mb && s.mb[m].datap != Some(dp))
  {
    assert u.Attached() == u.live && Sane(s, u, bp);
    assert Count(s, u, dp);
    var ps := Pointing(s.mb, u.live, dp);
    assert bp in ps && |ps - {bp}| == |ps| - 1;
    if s.db[dp].ref == 1 {
      assert ps - {bp} == {};
      forall m | m in u.live && m != bp ensures m in s.mb && s.mb[m].datap != Some(dp) { assert m !in ps - {bp}; }
    } else {
      assert dp in u.live ==> dp in ps - {bp} || dp == bp || dp !in u.holds;
      assert |ps - {bp}| > 0;
      var m :| m in ps - {bp};
    }
  }

  // ---- the steps of lis_freedb ----

  function Ref(s: Store, h: nat, n: int): Store
    requires h in s.db && 0 <= s.db[h].ref + n
  {
    s.(db := s.db[h := s.db[h].(ref := s.db[h].ref + n)])
  }

  function Without(s: Store, h: nat): Store { Store(s.mb - {h}, s.db - {h}, s.mem - {Internal(h)}) }

  /** Changing counts changes nothing else. */
  lemma Recount(s: Store, s': Store, u: Use, u': Use, fastbuf: nat)
    requires Shape(s, u, fastbuf) && s'.mb == s.mb && s'.mem == s.mem && s'.db.Keys == s.db.Keys
    requires forall h :: h in s.db ==> s'.db[h] == s.db[h].(ref := s'.db[h].ref)
    requires u'.holds == u.holds && u'.lost == u.lost && u'.Attached() <= u.Attached()
    requires u'.loose <= u'.live <= s.db.Keys
    ensures Shape(s', u', fastbuf) && Keeps(s, s', u.Attached())
  {
    forall m | m in u.Attached() ensures Sane(s', u', m) && Kept(s, s', m) { assert Sane(s, u, m); }
    forall h | h in s'.db ensures BlockOk(s', u', fastbuf, h) { assert BlockOk(s, u, fastbuf, h); }
    forall h | h in u'.holds ensures HoldOk(s', u', fastbuf, h) { assert HoldOk(s, u, fastbuf, h); }
  }

  /** A message gives up its own data block; its header is not in use any more. */
  lemma GiveUpOwn(s: Store, u: Use, fastbuf: nat, bp: nat)
    requires Inv(s, u, fastbuf) && bp in u.Attached() && bp in s.db && s.mb[bp].datap == Some(bp) && u.zero == {}
    ensures s.db[bp].ref > 0
    ensures Inv(Ref(s, bp, -1), u.(live := u.live - {bp}, zero := {bp}), fastbuf)
    ensures Keeps(s, Ref(s, bp, -1), u.Attached())
  {
    hide Shape, Keeps;
    assert Count(s, u, bp);
    var s', u' := Ref(s, bp, -1), u.(live := u.live - {bp}, zero := {bp});
    assert u'.Attached() == u.Attached() - {bp};
    assert u'.loose <= u'.live <= s.db.Keys by { InvDomains(s, u, fastbuf); }
    Recount(s, s', u, u', fastbuf);
    forall h | h in s'.db ensures Count(s', u', h) {
      assert Count(s, u, h);
      InvDomains(s, u, fastbuf);
      Detach(s.mb, s'.mb, u.Attached(), bp, h);
    }
  }

  lemma InvDomains(s: Store, u: Use, fastbuf: nat)
    requires Shape(s, u, fastbuf)
    ensures s.mb.Keys == s.db.Keys && u.loose <= u.live <= s.db.Keys
  {
  }

  /** A message gives up the data block of another header. */
  lemma GiveUpOther(s: Store, u: Use, fastbuf: nat, bp: nat, dp: nat)
    requires Inv(s, u, fastbuf) && bp in u.Attached() && bp in s.mb && s.mb[bp].datap == Some(dp) && dp != bp
             && u.zero == {}
    ensures dp in s.db && s.db[dp].ref > 0
    ensures Inv(Ref(s, dp, -1), u.(loose := u.loose + {bp}, zero := {dp}), fastbuf)
    ensures Keeps(s, Ref(s, dp, -1), u.Attached())
  {
    hide Keeps, BlockOk, HoldOk, HasBuf;
    assert Sane(s, u, bp);
    assert Count(s, u, dp);
    var s', u' := Ref(s, dp, -1), u.(loose := u.loose + {bp}, zero := {dp});
    assert u'.Attached() == u.Attached() - {bp};
    Recount(s, s', u, u', fastbuf);
    forall h | h in s'.db ensures Count(s', u', h) {
      assert Count(s, u, h);
      Detach(s.mb, s'.mb, u.Attached(), bp, h);
    }
    assert bp in Pointing(s.mb, u.Attached(), dp);
  }

  /** The header whose data block a message of another header is the last to point at is not in use. */
  lemma LastPointer(s: Store, u: Use, fastbuf: nat, bp: nat, dp: nat)
    requires Inv(s, u, fastbuf) && bp in u.Attached() && bp in s.mb && s.mb[bp].datap == Some(dp) && dp != bp
    requires dp in s.db && s.db[dp].ref == 1
    ensures dp !in u.live
  {
    assert Count(s, u, dp);
    var ps := Pointing(s.mb, u.Attached(), dp);
    assert bp in ps && |ps - {bp}| == |ps| - 1;
    assert dp in u.live ==> OwnUse(s, u, dp) == 1 || dp in ps;
    assert |ps| == 1 ==> ps - {bp} == {};
  }

  /** Nothing points at h, and its header is not in use. */
  ghost predicate Dead(s: Store, u: Use, h: nat) {
    h in s.db && s.db[h].ref == 0 && h !in u.live && u.zero == {h}
  }

  /** No message points at h or at a buffer of h. */
  ghost predicate Unseen(s: Store, u: Use, h: nat, m: nat) {
    && m in s.mb && s.mb[m].datap.Some? && s.mb[m].datap != Some(h)
    && var d := s.mb[m].datap.value;
       d in s.db && s.db[d].base.Some? && s.db[d].base != Some(Internal(h))
       && (h in u.holds ==> s.db[d].base.value != u.holds[h])
  }

  lemma DeadUnseen(s: Store, u: Use, fastbuf: nat, h: nat, m: nat)
    requires Inv(s, u, fastbuf) && Dead(s, u, h) && m in u.Attached()
    ensures Unseen(s, u, h, m) && m != h
  {
    assert Count(s, u, h);
    assert Sane(s, u, m);
    assert m !in Pointing(s.mb, u.Attached(), h);
    if h in u.holds { assert HoldOk(s, u, fastbuf, h); }
    var d := s.mb[m].datap.value;
    if d in u.holds { assert HoldOk(s, u, fastbuf, d); }
  }

  /** The buffer of h is taken away. */
  ghost predicate Gone(s: Store, s': Store, u: Use, u': Use, h: nat) {
    && h in u.holds && h in s.db && h in s'.db && u' == u.(holds := u.holds - {h})
    && s'.mb == s.mb && s'.db == s.db[h := s'.db[h]] && s'.mem == s.mem - {u.holds[h]}
    && s'.db[h].ref == s.db[h].ref && s'.db[h].base != Some(Internal(h))
  }

  /** The buffer of a data block nobody points at is released: it was there, and it is gone. */
  lemma ReleaseBuffer(s: Store, s': Store, u: Use, u': Use, fastbuf: nat, h: nat)
    requires Inv(s, u, fastbuf) && Dead(s, u, h) && Gone(s, s', u, u', h)
    ensures u.holds[h] in s.mem
    ensures Inv(s', u', fastbuf) && Keeps(s, s', u.Attached())
  {
    hide *;
    Parts(s, u, fastbuf);
    UseUpdate(s, s', u, u', h);
    assert u.holds[h] in s.mem && Domains(s', u') by { ReleaseDomains(s, s', u, u', fastbuf, h); }
    forall m | m in u.Attached() ensures Sane(s', u', m) && Kept(s, s', m) {
      DeadUnseen(s, u, fastbuf, h, m);
      ReleaseSane(s, s', u, u', h, m);
    }
    forall g | g in s'.db ensures BlockOk(s', u', fastbuf, g) && Count(s', u', g) {
      ReleaseBlock(s, s', u, u', fastbuf, h, g);
    }
    forall g | g in u'.holds ensures HoldOk(s', u', fastbuf, g) { ReleaseHold(s, s', u, u', fastbuf, h, g); }
    Assemble(s', u', fastbuf);
    AllKept(s, s', u.Attached());
  }

  lemma UseUpdate(s: Store, s': Store, u: Use, u': Use, h: nat)
    requires Gone(s, s', u, u', h)
    ensures h in u.holds && u'.Attached() == u.Attached() && s'.db.Keys == s.db.Keys && u'.holds == u.holds - {h}
  {
  }

  lemma AllKept(s: Store, s': Store, ms: set<nat>)
    requires forall m :: m in ms ==> Kept(s, s', m)
    ensures Keeps(s, s', ms)
  {
  }

  lemma ReleaseSane(s: Store, s': Store, u: Use, u': Use, h: nat, m: nat)
    requires Gone(s, s', u, u', h) && Sane(s, u, m) && Unseen(s, u, h, m)
    ensures Sane(s', u', m) && Kept(s, s', m)
  {
  }

  lemma ReleaseBlock(s: Store, s': Store, u: Use, u': Use, fastbuf: nat, h: nat, g: nat)
    requires Gone(s, s', u, u', h) && g in s.db && BlockOk(s, u, fastbuf, g) && Count(s, u, g)
             && HoldOk(s, u, fastbuf, h)
    ensures BlockOk(s', u', fastbuf, g) && Count(s', u', g)
  {
    UseUpdate(s, s', u, u', h);
  }

  lemma ReleaseHold(s: Store, s': Store, u: Use, u': Use, fastbuf: nat, h: nat, g: nat)
    requires Gone(s, s', u, u', h) && g in u.holds && g != h && HoldOk(s, u, fastbuf, g) && Domains(s, u)
    ensures HoldOk(s', u', fastbuf, g)
  {
    assert u.holds[g] != u.holds[h];
  }

  lemma Parts(s: Store, u: Use, fastbuf: nat)
    requires Inv(s, u, fastbuf)
    ensures Domains(s, u)
    ensures forall m :: m in u.Attached() ==> Sane(s, u, m)
    ensures forall h :: h in s.db ==> Count(s, u, h) && BlockOk(s, u, fastbuf, h)
    ensures forall h :: h in u.holds ==> HoldOk(s, u, fastbuf, h)
  {
  }

  lemma Assemble(s: Store, u: Use, fastbuf: nat)
    requires Domains(s, u)
    requires forall m :: m in u.Attached() ==> Sane(s, u, m)
    requires forall h :: h in s.db ==> Count(s, u, h) && BlockOk(s, u, fastbuf, h)
    requires forall h :: h in u.holds ==> HoldOk(s, u, fastbuf, h)
    ensures Inv(s, u, fastbuf)
  {
  }

  lemma ReleaseDomains(s: Store, s': Store, u: Use, u': Use, fastbuf: nat, h: nat)
    requires Domains(s, u) && Gone(s, s', u, u', h) && HoldOk(s, u, fastbuf, h)
    ensures u.holds[h] in s.mem && Domains(s', u')
  {
    UseUpdate(s, s', u, u', h);
    forall b: Buf | !b.Internal? ensures b in s'.mem <==> b in u'.holds.Values || b in u'.lost {
      if b in s'.mem && b !in u.lost {
        var g :| g in u.holds && u.holds[g] == b;
        assert u'.holds[g] == b;
      }
      if b in u'.holds.Values {
        var g :| g in u'.holds && u'.holds[g] == b;
        assert u.holds[g] == b;
      }
    }
  }

  /** freehdr: a dead header leaves; a buffer it still held is lost. */
  function Dropped(u: Use, h: nat): Use {
    u.(holds := u.holds - {h}, lost := if h in u.holds then u.lost + {u.holds[h]} else u.lost, zero := {})
  }

  lemma DropHeader(s: Store, u: Use, fastbuf: nat, h: nat)
    requires Inv(s, u, fastbuf) && Dead(s, u, h)
    ensures Inv(Without(s, h), Dropped(u, h), fastbuf) && Keeps(s, Without(s, h), u.Attached())
  {
    hide *;
    var s', u' := Without(s, h), Dropped(u, h);
    Parts(s, u, fastbuf);
    DropUpdate(s, u, h);
    assert Domains(s', u') by { DropDomains(s, u, fastbuf, h); }
    forall m | m in u.Attached() ensures Sane(s', u', m) && Kept(s, s', m) {
      DeadUnseen(s, u, fastbuf, h, m);
      DropSane(s, u, h, m);
    }
    forall g | g in s'.db ensures BlockOk(s', u', fastbuf, g) && Count(s', u', g) { DropBlock(s, u, fastbuf, h, g); }
    forall g | g in u'.holds ensures HoldOk(s', u', fastbuf, g) { DropHold(s, u, fastbuf, h, g); }
    Assemble(s', u', fastbuf);
    AllKept(s, s', u.Attached());
  }

  lemma DropUpdate(s: Store, u: Use, h: nat)
    ensures Dropped(u, h).Attached() == u.Attached() && Without(s, h).db.Keys == s.db.Keys - {h}
    ensures Dropped(u, h).holds == u.holds - {h}
  {
  }

  lemma DropSane(s: Store, u: Use, h: nat, m: nat)
    requires Sane(s, u, m) && Unseen(s, u, h, m) && m != h
    ensures Sane(Without(s, h), Dropped(u, h), m) && Kept(s, Without(s, h), m)
  {
  }

  lemma DropBlock(s: Store, u: Use, fastbuf: nat, h: nat, g: nat)
    requires g in s.db && g != h && BlockOk(s, u, fastbuf, g) && Count(s, u, g) && Dead(s, u, h)
    requires Domains(s, u)
    ensures g in Without(s, h).db && BlockOk(Without(s, h), Dropped(u, h), fastbuf, g)
            && Count(Without(s, h), Dropped(u, h), g)
  {
    DropUpdate(s, u, h);
    assert Pointing(s.mb - {h}, u.Attached(), g) == Pointing(s.mb, u.Attached(), g);
  }

  lemma DropHold(s: Store, u: Use, fastbuf: nat, h: nat, g: nat)
    requires g in u.holds && g != h && HoldOk(s, u, fastbuf, g) && Domains(s, u)
    ensures g in Dropped(u, h).holds && HoldOk(Without(s, h), Dropped(u, h), fastbuf, g)
  {
    assert h in u.holds ==> u.holds[g] != u.holds[h];
  }

  lemma DropDomains(s: Store, u: Use, fastbuf: nat, h: nat)
    requires Domains(s, u) && Dead(s, u, h) && (h in u.holds ==> HoldOk(s, u, fastbuf, h))
    ensures Domains(Without(s, h), Dropped(u, h))
  {
    var s', u' := Without(s, h), Dropped(u, h);
    forall b: Buf | !b.Internal? ensures b in s'.mem <==> b in u'.holds.Values || b in u'.lost {
      if b in u.holds.Values {
        var g :| g in u.holds && u.holds[g] == b;
        if g != h { assert u'.holds[g] == b; }
      }
      if b in u'.holds.Values {
        var g :| g in u'.holds && u'.holds[g] == b;
        assert u.holds[g] == b;
      }
    }
  }

  /** Where a message between two data blocks points does not matter. */
  lemma Repoint(s: Store, s': Store, u: Use, fastbuf: nat, bp: nat, blk: Mblk)
    requires Inv(s, u, fastbuf) && bp in u.loose && s' == s.(mb := s.mb[bp := blk])
    ensures Inv(s', u, fastbuf) && Keeps(s, s', u.Attached())
  {
    hide *;
    Parts(s, u, fastbuf);
    LooseDomains(s, s', u, bp, blk);
    forall m | m in u.Attached() ensures Sane(s', u, m) && Kept(s, s', m) { LooseSane(s, s', u, bp, blk, m); }
    forall h | h in s'.db ensures BlockOk(s', u, fastbuf, h) && Count(s', u, h) {
      LooseBlock(s, s', u, fastbuf, bp, blk, h);
    }
    forall h | h in u.holds ensures HoldOk(s', u, fastbuf, h) { LooseHold(s, s', u, fastbuf, bp, blk, h); }
    Assemble(s', u, fastbuf);
    AllKept(s, s', u.Attached());
  }

  lemma LooseDomains(s: Store, s': Store, u: Use, bp: nat, blk: Mblk)
    requires Domains(s, u) && bp in u.loose && s' == s.(mb := s.mb[bp := blk])
    ensures Domains(s', u) && s'.db == s.db && bp !in u.Attached()
  {
  }

  lemma LooseSane(s: Store, s': Store, u: Use, bp: nat, blk: Mblk, m: nat)
    requires Sane(s, u, m) && m != bp && s' == s.(mb := s.mb[bp := blk])
    ensures Sane(s', u, m) && Kept(s, s', m)
  {
  }

  lemma LooseBlock(s: Store, s': Store, u: Use, fastbuf: nat, bp: nat, blk: Mblk, h: nat)
    requires Domains(s, u) && bp in u.loose && h in s.db && s' == s.(mb := s.mb[bp := blk])
    requires BlockOk(s, u, fastbuf, h) && Count(s, u, h)
    ensures BlockOk(s', u, fastbuf, h) && Count(s', u, h)
  {
    assert Pointing(s'.mb, u.Attached(), h) == Pointing(s.mb, u.Attached(), h);
  }

  lemma LooseHold(s: Store, s': Store, u: Use, fastbuf: nat, bp: nat, blk: Mblk, h: nat)
    requires h in u.holds && HoldOk(s, u, fastbuf, h) && s' == s.(mb := s.mb[bp := blk])
    ensures HoldOk(s', u, fastbuf, h)
  {
  }

  /** The use of a header and its count go together. */
  lemma OwnCount(s: Store, s': Store, u: Use, u': Use, bp: nat, h: nat)
    requires h in s.db && bp in s.db && s.mb.Keys == s.db.Keys && s'.mb == s.mb && bp in s'.db
             && s'.db == s.db[bp := s'.db[bp]]
    requires u'.Attached() == u.Attached() && u'.live - {bp} == u.live - {bp} && u'.loose - {bp} == u.loose - {bp}
    requires Count(s, u, h) && bp !in u.Attached() && u.zero <= {bp} && u'.zero <= {bp}
    requires s'.db[bp].ref == s.db[bp].ref + (if bp in u'.live then 1 else 0) - (if bp in u.live then 1 else 0)
    requires bp !in u'.zero ==> s'.db[bp].ref > 0
    ensures Count(s', u', h)
  {
    assert h != bp ==> (h in u'.live <==> h in u.live) && (h in u'.loose <==> h in u.loose) by {
      if h != bp {
        assert h in u'.live - {bp} <==> h in u.live - {bp};
        assert h in u'.loose - {bp} <==> h in u.loose - {bp};
      }
    }
  }

  lemma LooseInUse(s: Store, u: Use, fastbuf: nat, bp: nat)
    requires Inv(s, u, fastbuf) && bp in u.loose
    ensures bp in s.db && s.db[bp].ref > 0
  {
    assert Count(s, u, bp);
  }

  /** A message that has given up its data block gives up its header. */
  lemma GiveUpHeader(s: Store, u: Use, fastbuf: nat, bp: nat)
    requires Inv(s, u, fastbuf) && bp in u.loose && u.zero == {}
    ensures bp in s.db && s.db[bp].ref > 0
    ensures Inv(Ref(s, bp, -1), u.(live := u.live - {bp}, loose := u.loose - {bp}, zero := {bp}), fastbuf)
    ensures Keeps(s, Ref(s, bp, -1), u.Attached())
  {
    hide Shape, Keeps, Count, OwnUse, Pointing;
    InvDomains(s, u, fastbuf);
    LooseInUse(s, u, fastbuf, bp);
    var s', u' := Ref(s, bp, -1), u.(live := u.live - {bp}, loose := u.loose - {bp}, zero := {bp});
    assert u'.Attached() == u.Attached();
    Recount(s, s', u, u', fastbuf);
    forall h | h in s'.db ensures Count(s', u', h) { assert Count(s, u, h); OwnCount(s, s', u, u', bp, h); }
  }

  /** The header of a data block is in use again, without the block. */
  lemma TakeBack(s: Store, u: Use, fastbuf: nat, bp: nat)
    requires Inv(s, u, fastbuf) && bp in s.db && bp !in u.live && u.zero == {bp}
    ensures Inv(Ref(s, bp, 1), u.(live := u.live + {bp}, loose := u.loose + {bp}, zero := {}), fastbuf)
    ensures Keeps(s, Ref(s, bp, 1), u.Attached())
  {
    hide Shape, Keeps, Count, OwnUse, Pointing;
    InvDomains(s, u, fastbuf);
    var s', u' := Ref(s, bp, 1), u.(live := u.live + {bp}, loose := u.loose + {bp}, zero := {});
    assert u'.Attached() == u.Attached();
    Recount(s, s', u, u', fastbuf);
    forall h | h in s'.db ensures Count(s', u', h) { assert Count(s, u, h); OwnCount(s, s', u, u', bp, h); }
  }

  lemma StillUsed(s: Store, u: Use, fastbuf: nat, h: nat)
    requires Inv(s, u, fastbuf) && u.zero == {h} && h in s.db && s.db[h].ref > 0
    ensures Inv(s, u.(zero := {}), fastbuf)
  {
    hide Shape, Keeps;
    InvDomains(s, u, fastbuf);
    var u' := u.(zero := {});
    assert u'.Attached() == u.Attached();
    Recount(s, s, u, u', fastbuf);
    forall g | g in s.db ensures Count(s, u', g) { assert Count(s, u, g); }
  }

  lemma KeepsBlocks(s: Store, t: Store, ms: set<nat>)
    requires Keeps(s, t, ms)
    ensures forall m :: m in ms ==> m in s.mb && m in t.mb && t.mb[m] == s.mb[m]
  {
    forall m | m in ms ensures m in s.mb && m in t.mb && t.mb[m] == s.mb[m] { assert Kept(s, t, m); }
  }

  lemma KeepsFewer(s: Store, t: Store, ms: set<nat>, ms': set<nat>)
    requires Keeps(s, t, ms) && ms' <= ms
    ensures Keeps(s, t, ms')
  {
  }

  lemma KeepsTrans(s: Store, t: Store, r: Store, ms: set<nat>, ms': set<nat>)
    requires Keeps(s, t, ms) && Keeps(t, r, ms') && ms' <= ms
    ensures Keeps(s, r, ms')
  {
    forall m | m in ms' ensures Kept(s, r, m) { assert Kept(s, t, m) && Kept(t, r, m); }
  }

  lemma BufferKinds(s: Store, u: Use, fastbuf: nat, d: nat)
    requires Inv(s, u, fastbuf) && d in s.db && HasBuf(s, u, d)
    ensures s.db[d].base.Some? && (s.db[d].user ==> d in u.holds)
    ensures d in u.holds ==> s.db[d].base == Some(u.holds[d]) && !u.holds[d].Internal?
    ensures !s.db[d].user ==> (s.db[d].size > fastbuf <==> d in u.holds)
  {
    assert BlockOk(s, u, fastbuf, d);
    if d in u.holds { assert HoldOk(s, u, fastbuf, d); }
  }

  lemma AllSame(s: Store, u: Use, fastbuf: nat)
    requires Inv(s, u, fastbuf)
    ensures Keeps(s, s, u.Attached())
  {
    forall m | m in u.Attached() ensures Kept(s, s, m) { assert Sane(s, u, m); }
  }

  lemma SameLive(s: Store, u: Use, fastbuf: nat)
    requires Inv(s, u, fastbuf) && u.loose == {}
    ensures Keeps(s, s, u.live)
  {
    assert u.Attached() == u.live;
    AllSame(s, u, fastbuf);
  }

  class Heap {
    const fastbuf: nat   // FASTBUF
    var mb: map<nat, Mblk>
    var db: map<nat, Dblk>
    var mem: map<Buf, seq<nat>>
    var released: seq<Buf>   // the external buffers given back, in order
    ghost var use: Use

    ghost function Now(): Store
      reads this
    {
      Store(mb, db, mem)
    }

    /** Between operations. */
    ghost predicate Valid()
      reads this
    {
      Inv(Now(), use, fastbuf) && use.zero == {} && use.loose == {}
    }

    /** No messages yet: every run starts here. */
    constructor (fastbuf: nat)
      ensures Valid() && this.fastbuf == fastbuf && use == Use({}, {}, map[], {}, {}) && released == []
      ensures mb == map[] && db == map[] && mem == map[]
    {
      this.fastbuf := fastbuf;
      mb, db, mem, released, use := map[], map[], map[], [], Use({}, {}, map[], {}, {});
    }

    /** freehdr. */
    method FreeHdr(h: nat)
      requires Inv(Now(), use, fastbuf) && Dead(Now(), use, h)
      modifies this`mb, this`db, this`mem, this`use
      ensures Inv(Now(), use, fastbuf) && use == Dropped(old(use), h) && Now() == Without(old(Now()), h)
      ensures Keeps(old(Now()), Now(), use.Attached())
    {
      DropHeader(Now(), use, fastbuf, h);
      DropUpdate(Now(), use, h);
      mb, db, mem := mb - {h}, db - {h}, mem - {Internal(h)};
      use := Dropped(use, h);
    }

    /** The buffer of a data block whose count has reached 0 is given back. */
    method FreeBuffer(dp: nat)
      requires Inv(Now(), use, fastbuf) && Dead(Now(), use, dp) && HasBuf(Now(), use, dp)
      modifies this`db, this`mem, this`use, this`released
      ensures Inv(Now(), use, fastbuf) && Dead(Now(), use, dp) && dp !in use.holds
      ensures use == old(use).(holds := old(use).holds - {dp})
      ensures released == old(released) + (if dp in old(use).holds then [old(use).holds[dp]] else [])
      ensures Keeps(old(Now()), Now(), use.Attached())
      ensures mb == old(mb) && dp in old(db) && dp in db && db == old(db)[dp := db[dp]]
    {
      hide Inv, HasBuf, Keeps;
      ghost var s, u := Now(), use;
      BufferKinds(s, u, fastbuf, dp);
      AllSame(s, u, fastbuf);
      if db[dp].user {
        released := released + [db[dp].base.value];
        mem := mem - {db[dp].base.value};
        db := db[dp := db[dp].(size := 0)];
        use := use.(holds := use.holds - {dp});
        ReleaseBuffer(s, Now(), u, use, fastbuf, dp);
      }
      if db[dp].size > fastbuf {
        released := released + [db[dp].base.value];
        mem := mem - {db[dp].base.value};
        db := db[dp := db[dp].(base := None)];
        use := use.(holds := use.holds - {dp});
        ReleaseBuffer(s, Now(), u, use, fastbuf, dp);
      }
    }

    /** lis_freedb for a message that points at its own data block. */
    method FreeOwn(bp: nat, freeHdr: bool)
      requires Valid() && bp in use.live && bp in mb && mb[bp].datap == Some(bp)
      modifies this`mb, this`db, this`mem, this`use, this`released
      ensures Inv(Now(), use, fastbuf) && use.zero == {}
      ensures use.live == (if freeHdr then old(use.live) - {bp} else old(use.live))
      ensures use.loose == if freeHdr then {} else {bp}
      ensures Keeps(old(Now()), Now(), old(use.live) - {bp})
      ensures bp in old(db)
      ensures var last := old(db)[bp].ref == 1 && bp in old(use).holds;
        && released == old(released) + (if last then [old(use).holds[bp]] else [])
        && use.holds == (if last then old(use).holds - {bp} else old(use).holds)
      ensures use.lost == old(use).lost
      ensures !freeHdr ==> bp in mb && mb[bp] == old(mb[bp])
    {
      hide Inv, Keeps, Domains, Sane;
      ghost var s, u, others := Now(), use, use.live - {bp};
      AttachedIsLive(s, u, fastbuf, bp);
      GiveUpOwn(s, u, fastbuf, bp);
      db := db[bp := db[bp].(ref := db[bp].ref - 1)];
      use := use.(live := use.live - {bp}, zero := {bp});
      assert use.Attached() == others;
      ghost var s1 := Now();
      if db[bp].ref == 0 {
        FreeBuffer(bp);
        KeepsTrans(s, s1, Now(), u.Attached(), others);
      } else {
        KeepsTrans(s, s1, Now(), u.Attached(), others) by { AllSame(s1, use, fastbuf); }
      }
      ghost var s2, u2 := Now(), use;
      if !freeHdr {
        TakeBack(s2, u2, fastbuf, bp);
        db := db[bp := db[bp].(ref := db[bp].ref + 1)];
        use := use.(live := use.live + {bp}, loose := use.loose + {bp}, zero := {});
        assert u.live == u2.live + {bp};
        KeepsTrans(s, s2, Now(), others, others);
      } else if db[bp].ref == 0 {
        FreeHdr(bp);
        KeepsTrans(s, s2, Now(), others, others);
      } else {
        StillUsed(s2, u2, fastbuf, bp);
        use := use.(zero := {});
      }
    }

    /** lis_freedb for a message that points at the data block of another header. */
    method FreeOther(bp: nat, dp: nat, freeHdr: bool)
      requires Valid() && bp in use.live && bp in mb && mb[bp].datap == Some(dp) && dp != bp
      modifies this`mb, this`db, this`mem, this`use, this`released
      ensures Inv(Now(), use, fastbuf) && use.zero == {}
      ensures use.live == (if freeHdr then old(use.live) - {bp} else old(use.live))
      ensures use.loose == if freeHdr then {} else {bp}
      ensures Keeps(old(Now()), Now(), old(use.live) - {bp})
      ensures bp in old(db) && dp in old(db)
      ensures var last, forgets := old(db)[dp].ref == 1 && dp in old(use).holds, freeHdr && old(db)[bp].ref == 1
              && bp in old(use).holds;
        && released == old(released) + (if last then [old(use).holds[dp]] else [])
        && use.holds == old(use).holds - (if last then {dp} else {}) - (if forgets then {bp} else {})
        && use.lost == old(use).lost + (if forgets then {old(use).holds[bp]} else {})
      ensures !freeHdr ==> bp in mb && mb[bp] == old(mb[bp]).(datap := mb[bp].datap)
    {
      hide Inv, Keeps, Domains, Sane;
      ghost var s, u, others := Now(), use, use.live - {bp};
      AttachedIsLive(s, u, fastbuf, bp);
      GiveUpOther(s, u, fastbuf, bp, dp);
      db := db[dp := db[dp].(ref := db[dp].ref - 1)];
      use := use.(loose := use.loose + {bp}, zero := {dp});
      assert use.Attached() == others;
      ghost var s1 := Now();
      if db[dp].ref == 0 {
        LastPointer(s, u, fastbuf, bp, dp);
        FreeBlock(bp, dp);
        KeepsTrans(s, s1, Now(), u.Attached(), others);
      } else {
        KeepsTrans(s, s1, Now(), u.Attached(), others) by { AllSame(s1, use, fastbuf); }
        StillUsed(s1, use, fastbuf, dp);
        use := use.(zero := {});
      }
      if freeHdr { DropOwn(bp, s, others); }
    }

    /** The data block bp was the last to point at goes, with the header it is in; bp is pointed at its own block. */
    method FreeBlock(bp: nat, dp: nat)
      requires Inv(Now(), use, fastbuf) && Dead(Now(), use, dp) && HasBuf(Now(), use, dp)
      requires bp in use.loose && bp in mb && bp != dp
      modifies this`mb, this`db, this`mem, this`use, this`released
      ensures Inv(Now(), use, fastbuf)
      ensures use == old(use).(holds := old(use).holds - {dp}, zero := {})
      ensures released == old(released) + (if dp in old(use).holds then [old(use).holds[dp]] else [])
      ensures Keeps(old(Now()), Now(), use.Attached())
      ensures mb == (old(mb) - {dp})[bp := old(mb)[bp].(datap := Some(bp))]
      ensures bp in old(db) ==> bp in db && db[bp] == old(db)[bp]
    {
      hide Inv, Keeps, Domains, Sane;
      ghost var s1 := Now();
      FreeBuffer(dp);
      ghost var s2 := Now();
      FreeHdr(dp);
      ghost var s3 := Now();
      mb := mb[bp := mb[bp].(datap := Some(bp))];
      Repoint(s3, Now(), use, fastbuf, bp, mb[bp]);
      assert use.Attached() == old(use).Attached();
      KeepsTrans(s1, s2, s3, use.Attached(), use.Attached());
      KeepsTrans(s1, s3, Now(), use.Attached(), use.Attached());
    }

    /** The header of a message without data block is given up. */
    method DropOwn(bp: nat, ghost s: Store, ghost others: set<nat>)
      requires Inv(Now(), use, fastbuf) && use.zero == {} && bp in use.loose && bp in db
      requires Keeps(s, Now(), others) && others == use.Attached()
      modifies this`mb, this`db, this`mem, this`use
      ensures Inv(Now(), use, fastbuf) && use.zero == {} && Keeps(s, Now(), others)
      ensures use.live == old(use.live) - {bp} && use.loose == old(use.loose) - {bp}
      ensures var forgets := old(db)[bp].ref == 1 && bp in old(use).holds;
        && use.holds == old(use).holds - (if forgets then {bp} else {})
        && use.lost == old(use).lost + (if forgets then {old(use).holds[bp]} else {})
    {
      hide Inv, Keeps, Domains, Sane;
      ghost var s1 := Now();
      GiveUpHeader(s1, use, fastbuf, bp);
      db := db[bp := db[bp].(ref := db[bp].ref - 1)];
      use := use.(live := use.live - {bp}, loose := use.loose - {bp}, zero := {bp});
      assert use.Attached() == others;
      ghost var s2 := Now();
      KeepsTrans(s, s1, s2, others, others);
      if db[bp].ref == 0 {
        FreeHdr(bp);
        KeepsTrans(s, s2, Now(), others, others);
      } else {
        StillUsed(s2, use, fastbuf, bp);
        use := use.(zero := {});
      }
    }

    /** lis_freedb: a message gives up its data block and, with freeHdr, its header. Of its own external buffer nobody
        takes care any more if the message does not use it, nobody else points at it, and it goes away: such a buffer is
        lost. */
    method FreeDb(bp: nat, freeHdr: bool)
      requires Valid() && bp in use.live
      modifies this`mb, this`db, this`mem, this`use, this`released
      ensures Inv(Now(), use, fastbuf) && use.zero == {}
      ensures use.live == (if freeHdr then old(use.live) - {bp} else old(use.live))
      ensures use.loose == if freeHdr then {} else {bp}
      ensures Keeps(old(Now()), Now(), old(use.live) - {bp})
      ensures bp in old(db) && bp in old(mb) && old(mb)[bp].datap.Some? && old(mb)[bp].datap.value in old(db)
      ensures var dp := old(mb)[bp].datap.value;
              var last, forgets := old(db)[dp].ref == 1 && dp in old(use).holds,
                                   freeHdr && dp != bp && old(db)[bp].ref == 1 && bp in old(use).holds;
        && released == old(released) + (if last then [old(use).holds[dp]] else [])
        && use.holds == old(use).holds - (if last then {dp} else {}) - (if forgets then {bp} else {})
        && use.lost == old(use).lost + (if forgets then {old(use).holds[bp]} else {})
      ensures !freeHdr ==> bp in mb && mb[bp] == old(mb[bp]).(datap := mb[bp].datap)
    {
      hide Inv, Keeps;
      AttachedIsLive(Now(), use, fastbuf, bp);
      var dp := mb[bp].datap.value;
      if dp == bp {
        FreeOwn(bp, freeHdr);
      } else {
        FreeOther(bp, dp, freeHdr);
      }
    }

    /** lis_freeb. */
    method FreeB(bp: nat)
      requires Valid() && bp in use.live
      modifies this`mb, this`db, this`mem, this`use, this`released
      ensures Valid() && use.live == old(use.live) - {bp}
      ensures Keeps(old(Now()), Now(), use.live)
      ensures old(Plain(Now(), use)) ==> Plain(Now(), use) && use.lost == old(use).lost
      ensures use.holds.Keys <= old(use).holds.Keys && forall m :: m in use.live ==> HoldsOn(old(use), use, m)
      ensures bp in old(db) && bp in old(mb) && old(mb)[bp].datap.Some? && old(mb)[bp].datap.value in old(db)
      ensures var dp := old(mb)[bp].datap.value;
              var last, forgets := old(db)[dp].ref == 1 && dp in old(use).holds,
                                   dp != bp && old(db)[bp].ref == 1 && bp in old(use).holds;
        && released == old(released) + (if last then [old(use).holds[dp]] else [])
        && use.lost == old(use).lost + (if forgets then {old(use).holds[bp]} else {})
    {
      hide Inv, Keeps;
      ghost var s, u := Now(), use;
      SharedBlock(s, u, fastbuf, bp);
      FreeDb(bp, true);
      KeepsBlocks(s, Now(), use.live);
    }

    /** lis_allocb: `hdr` is what the list of free headers gives, `buf` the name of the new external buffer, if any. */
    method AllocB(size: nat, hdr: Option<nat>, buf: Option<nat>) returns (r: Option<nat>)
      requires Valid()
      requires hdr.Some? ==> hdr.value !in db
      requires buf.Some? ==> Kernel(buf.value) !in mem
      modifies this`mb, this`db, this`mem, this`use
      ensures Valid() && Keeps(old(Now()), Now(), old(use.live)) && (old(Plain(Now(), use)) ==> Plain(Now(), use))
      ensures r == if size > fastbuf && buf.None? then None else hdr
      ensures r.None? ==> Now() == old(Now()) && use == old(use)
      ensures r.Some? ==> NewBlock(old(Now()), Now(), old(use), use, r.value,
                                   if size > fastbuf then Kernel(buf.value) else Internal(r.value),
                                   if size > fastbuf then size else fastbuf, false)
    {
      hide Inv, Keeps;
      SameLive(Now(), use, fastbuf);
      if hdr.None? || (size > fastbuf && buf.None?) { return None; }
      if size > fastbuf {
        InitB(hdr.value, Kernel(buf.value), size, false);
      } else {
        InitB(hdr.value, Internal(hdr.value), fastbuf, false);
      }
      return hdr;
    }

    /** lis_esballoc. */
    method EsbAlloc(base: nat, size: nat, hdr: Option<nat>) returns (r: Option<nat>)
      requires Valid() && User(base) !in mem && (hdr.Some? ==> hdr.value !in db)
      modifies this`mb, this`db, this`mem, this`use
      ensures Valid() && Keeps(old(Now()), Now(), old(use.live)) && r == hdr
      ensures old(Plain(Now(), use)) ==> Plain(Now(), use)
      ensures r.None? ==> Now() == old(Now()) && use == old(use)
      ensures r.Some? ==> NewBlock(old(Now()), Now(), old(use), use, r.value, User(base), size, true)
    {
      hide Inv, Keeps;
      SameLive(Now(), use, fastbuf);
      if hdr.None? { return None; }
      InitB(hdr.value, User(base), size, true);
      return hdr;
    }

    /** initb, on a header that was free. */
    method InitB(h: nat, b: Buf, size: nat, user: bool)
      requires Valid() && h !in db && (if b.Internal? then b == Internal(h) && size == fastbuf && !user else b !in mem)
      requires (user <==> b.User?) && (b.Kernel? ==> size > fastbuf)
      modifies this`mb, this`db, this`mem, this`use
      ensures Valid() && NewBlock(old(Now()), Now(), old(use), use, h, b, size, user)
      ensures Keeps(old(Now()), Now(), old(use.live)) && (old(Plain(Now(), use)) ==> Plain(Now(), use))
    {
      hide Inv, Keeps;
      ghost var s, u := Now(), use;
      NotHeld(s, u, fastbuf, h, b);
      mb := mb[h := Mblk(Some(h), 0, 0, None)];
      db := db[h := Dblk(1, 0, Some(b), size, user)];
      mem := mem[Internal(h) := seq(fastbuf, _ => 0)];
      if !b.Internal? { mem := mem[b := seq(size, _ => 0)]; }
      use := use.(live := use.live + {h}, holds := if b.Internal? then use.holds else use.holds[h := b]);
      NewHeader(s, Now(), u, use, fastbuf, h, b, size, user);
    }

    /** lis_dupb. The duplicate shows the same bytes. */
    method DupB(mp: nat, hdr: Option<nat>) returns (r: Option<nat>)
      requires Valid() && mp in use.live && (hdr.Some? ==> hdr.value !in db)
      modifies this`mb, this`db, this`mem, this`use
      ensures Valid() && Keeps(old(Now()), Now(), old(use.live)) && r == hdr
      ensures old(Plain(Now(), use)) ==> Plain(Now(), use)
      ensures r.None? ==> Now() == old(Now()) && use == old(use)
      ensures r.Some? ==>
                use.live == old(use.live) + {r.value} && use.holds == old(use.holds) && use.lost == old(use.lost)
      ensures r.Some? ==> mp in old(mb) && r.value in mb && mb[r.value] == old(mb[mp]).(cont := None)
      ensures r.Some? ==> db.Keys == old(db.Keys) + {r.value} && mem.Keys == old(mem.Keys) + {Internal(r.value)}
    {
      hide Inv, Keeps;
      ghost var s, u := Now(), use;
      AttachedIsLive(s, u, fastbuf, mp);
      if hdr.Some? { NotHeld(s, u, fastbuf, hdr.value, Internal(hdr.value)); }
      r := AllocB(0, hdr, None);
      if r.None? { return; }
      var bp := r.value;
      ghost var s1, u1 := Now(), use;
      mb := mb[bp := mb[mp]];
      var d := mb[mp].datap.value;
      db := db[d := db[d].(ref := db[d].ref + 1)];
      mb := mb[bp := mb[bp].(cont := None)];
      Duplicate(s1, Now(), u1, fastbuf, bp, mp, d);
      KeepsFewer(s1, Now(), u1.live - u1.loose - {bp}, u.live);
      KeepsTrans(s, s1, Now(), u.live, u.live);
    }
  }

  /** The data block of a live message that another one points at has not its last user there. */
  lemma SharedBlock(s: Store, u: Use, fastbuf: nat, bp: nat)
    requires Inv(s, u, fastbuf) && u.loose == {} && bp in u.live
    ensures forall m :: m in u.live && m != bp && bp in s.mb && s.mb[bp].datap == Some(m) ==>
              m in s.db && s.db[m].ref > 1
  {
    forall m | m in u.live && m != bp && bp in s.mb && s.mb[bp].datap == Some(m) ensures m in s.db && s.db[m].ref > 1 {
      TwoUsers(s, u, fastbuf, bp, m);
    }
  }

  lemma TwoUsers(s: Store, u: Use, fastbuf: nat, bp: nat, m: nat)
    requires Inv(s, u, fastbuf) && u.loose == {} && bp in u.live && m in u.live && m != bp
    requires bp in s.mb && s.mb[bp].datap == Some(m)
    ensures m in s.db && s.db[m].ref > 1
  {
    assert Count(s, u, m) && bp in Pointing(s.mb, u.Attached(), m);
    if s.mb[m].datap == Some(m) {
      assert {bp, m} <= Pointing(s.mb, u.Attached(), m);
      assert |Pointing(s.mb, u.Attached(), m) - {bp}| == |Pointing(s.mb, u.Attached(), m)| - 1;
      assert m in Pointing(s.mb, u.Attached(), m) - {bp};
    }
  }

  /** A new message over a new buffer b. */
  ghost predicate NewBlock(s: Store, s': Store, u: Use, u': Use, h: nat, b: Buf, size: nat, user: bool) {
    && h !in s.db && s'.mb == s.mb[h := Mblk(Some(h), 0, 0, None)]
       && s'.db == s.db[h := Dblk(1, 0, Some(b), size, user)]
    && b in s'.mem && |s'.mem[b]| == size && Internal(h) in s'.mem
    && s'.mem == s.mem[Internal(h) := s'.mem[Internal(h)]][b := s'.mem[b]]
    && u' == u.(live := u.live + {h}, holds := if b.Internal? then u.holds else u.holds[h := b])
  }

  lemma NewHeader(s: Store, s': Store, u: Use, u': Use, fastbuf: nat, h: nat, b: Buf, size: nat, user: bool)
    requires Inv(s, u, fastbuf) && u.zero == {} && u.loose == {} && h !in s.db
             && NewBlock(s, s', u, u', h, b, size, user)
    requires if b.Internal? then b == Internal(h) && size == fastbuf && !user else b !in s.mem
    requires (user <==> b.User?) && (b.Kernel? ==> size > fastbuf) && |s'.mem[Internal(h)]| == fastbuf
    ensures Inv(s', u', fastbuf) && Keeps(s, s', u.live)
  {
    hide *;
    Parts(s, u, fastbuf);
    NotHeld(s, u, fastbuf, h, b);
    NewUpdate(s, s', u, u', fastbuf, h, b, size, user);
    forall m | m in u.live ensures Sane(s', u', m) && Kept(s, s', m) { NewSane(s, s', u, u', h, b, size, user, m); }
    forall g | g in s'.db ensures BlockOk(s', u', fastbuf, g) && Count(s', u', g) {
      NewDblk(s, s', u, u', fastbuf, h, b, size, user, g);
    }
    forall g | g in u'.holds ensures HoldOk(s', u', fastbuf, g) { NewHold(s, s', u, u', fastbuf, h, b, size, user, g); }
    Assemble(s', u', fastbuf);
    AllKept(s, s', u.live);
  }

  lemma NotHeld(s: Store, u: Use, fastbuf: nat, h: nat, b: Buf)
    requires Inv(s, u, fastbuf) && h !in s.db
    ensures h !in u.holds && h !in s.mb && h !in u.live && Internal(h) !in s.mem
    ensures b !in s.mem ==> b !in u.lost && b !in u.holds.Values
  {
    assert h in u.holds ==> HoldOk(s, u, fastbuf, h);
    if b in u.holds.Values {
      var g :| g in u.holds && u.holds[g] == b;
      assert HoldOk(s, u, fastbuf, g);
    }
  }

  lemma NewSane(s: Store, s': Store, u: Use, u': Use, h: nat, b: Buf, size: nat, user: bool, m: nat)
    requires NewBlock(s, s', u, u', h, b, size, user) && h !in u.holds && Internal(h) !in s.mem
             && (b.Internal? ==> b == Internal(h))
    requires b.Internal? || b !in s.mem
    requires Sane(s, u, m) && m != h
    ensures Sane(s', u', m) && Kept(s, s', m)
  {
  }

  lemma NewDblk(s: Store, s': Store, u: Use, u': Use, fastbuf: nat, h: nat, b: Buf, size: nat, user: bool, g: nat)
    requires NewBlock(s, s', u, u', h, b, size, user) && h !in u.live && u.loose == {} && h !in u.holds
    requires g in s'.db
    requires |s'.mem[Internal(h)]| == fastbuf && (b.Internal? ==> b == Internal(h) && size == fastbuf && !user)
    requires u.Attached() == u.live && u'.Attached() == u.live + {h} && Domains(s, u) && Sane(s', u', h)
    requires g != h ==> g in s.db && BlockOk(s, u, fastbuf, g) && Count(s, u, g)
    requires h !in s.db && forall m :: m in u.live ==> Sane(s, u, m)
    ensures BlockOk(s', u', fastbuf, g) && Count(s', u', g)
  {
    Attach(s.mb, s'.mb, u.live, h, g);
    if g == h {
      assert forall m :: m in u.live ==> Sane(s, u, m);
      assert Pointing(s.mb, u.live, h) == {};
    }
  }

  lemma NewHold(s: Store, s': Store, u: Use, u': Use, fastbuf: nat, h: nat, b: Buf, size: nat, user: bool, g: nat)
    requires NewBlock(s, s', u, u', h, b, size, user) && g in u'.holds && h !in u.holds && Internal(h) !in s.mem
    requires (user <==> b.User?) && (b.Kernel? ==> size > fastbuf) && (b.Internal? ==> b == Internal(h))
    requires b.Internal? || (b !in s.mem && b !in u.lost)
    requires g in u.holds ==> HoldOk(s, u, fastbuf, g)
    ensures HoldOk(s', u', fastbuf, g)
  {
  }

  lemma NewUpdate(s: Store, s': Store, u: Use, u': Use, fastbuf: nat, h: nat, b: Buf, size: nat, user: bool)
    requires Domains(s, u) && u.loose == {} && NewBlock(s, s', u, u', h, b, size, user)
    requires h !in u.holds && h !in u.live
    requires if b.Internal? then b == Internal(h) && size == fastbuf && !user else b !in s.mem
    ensures u.Attached() == u.live && u'.Attached() == u.live + {h} && Sane(s', u', h) && Domains(s', u')
    ensures s'.db.Keys == s.db.Keys + {h}
  {
    if !b.Internal? {
      assert u'.holds[h] == b;
      forall c: Buf | !c.Internal? ensures c in s'.mem <==> c in u'.holds.Values || c in u'.lost {
        if c in u.holds.Values {
          var g :| g in u.holds && u.holds[g] == c;
          assert u'.holds[g] == c;
        }
        if c in u'.holds.Values {
          var g :| g in u'.holds && u'.holds[g] == c;
          assert g == h || u.holds[g] == c;
        }
      }
    }
  }

  lemma AttachedIsLive(s: Store, u: Use, fastbuf: nat, bp: nat)
    requires Inv(s, u, fastbuf) && u.loose == {} && bp in u.live
    ensures u.Attached() == u.live <= s.db.Keys == s.mb.Keys && bp in s.mb
    ensures s.mb[bp].datap.Some? && s.mb[bp].datap.value in s.db && HasBuf(s, u, s.mb[bp].datap.value)
  {
    assert u.Attached() == u.live;
    assert Sane(s, u, bp);
  }

  /** A message that points at its own block is made to point where mp points. */
  lemma Duplicate(s: Store, s': Store, u: Use, fastbuf: nat, bp: nat, mp: nat, d: nat)
    requires Inv(s, u, fastbuf) && bp in u.Attached() && mp in u.Attached() && mp != bp && bp in s.mb && mp in s.mb
    requires s.mb[bp].datap == Some(bp) && s.mb[mp].datap == Some(d) && d != bp && d in s.db
    requires s' == s.(mb := s.mb[bp := s.mb[mp].(cont := None)], db := s.db[d := s.db[d].(ref := s.db[d].ref + 1)])
    ensures Inv(s', u, fastbuf) && Keeps(s, s', u.live - u.loose - {bp})
  {
    hide *;
    Parts(s, u, fastbuf);
    forall m | m in u.Attached() ensures Sane(s', u, m) && (m != bp ==> Kept(s, s', m)) {
      DuplicateSane(s, s', u, bp, mp, d, m);
    }
    DuplicateDomains(s, s', u, bp, mp, d);
    forall g | g in s'.db ensures BlockOk(s', u, fastbuf, g) && Count(s', u, g) {
      DuplicateDblk(s, s', u, fastbuf, bp, mp, d, g);
    }
    forall g | g in u.holds ensures HoldOk(s', u, fastbuf, g) { DuplicateHold(s, s', u, fastbuf, bp, mp, d, g); }
    Assemble(s', u, fastbuf);
    assert u.Attached() == u.live - u.loose by { AttachedDef(u); }
    AllKept(s, s', u.live - u.loose - {bp});
  }

  lemma AttachedDef(u: Use)
    ensures u.Attached() == u.live - u.loose
  {
  }

  lemma DuplicateSane(s: Store, s': Store, u: Use, bp: nat, mp: nat, d: nat, m: nat)
    requires bp in s.mb && mp in s.mb && d in s.db && s.mb[mp].datap == Some(d) && mp != bp && Sane(s, u, m)
             && Sane(s, u, mp)
    requires s' == s.(mb := s.mb[bp := s.mb[mp].(cont := None)], db := s.db[d := s.db[d].(ref := s.db[d].ref + 1)])
    ensures Sane(s', u, m) && (m != bp ==> Kept(s, s', m))
  {
  }

  lemma DuplicateDomains(s: Store, s': Store, u: Use, bp: nat, mp: nat, d: nat)
    requires bp in s.mb && mp in s.mb && d in s.db && Domains(s, u)
    requires s' == s.(mb := s.mb[bp := s.mb[mp].(cont := None)], db := s.db[d := s.db[d].(ref := s.db[d].ref + 1)])
    ensures Domains(s', u) && s'.db.Keys == s.db.Keys
  {
  }

  lemma DuplicateDblk(s: Store, s': Store, u: Use, fastbuf: nat, bp: nat, mp: nat, d: nat, g: nat)
    requires bp in s.mb && mp in s.mb && d in s.db && mp != bp && bp in u.Attached() && d != bp && Domains(s, u)
    requires s.mb[bp].datap == Some(bp) && s.mb[mp].datap == Some(d)
    requires s' == s.(mb := s.mb[bp := s.mb[mp].(cont := None)], db := s.db[d := s.db[d].(ref := s.db[d].ref + 1)])
    requires g in s.db && BlockOk(s, u, fastbuf, g) && Count(s, u, g)
    ensures BlockOk(s', u, fastbuf, g) && Count(s', u, g)
  {
    Detach(s.mb, s.mb, u.Attached(), bp, g);
    Attach(s.mb, s'.mb, u.Attached() - {bp}, bp, g);
    assert u.Attached() - {bp} + {bp} == u.Attached();
  }

  lemma DuplicateHold(s: Store, s': Store, u: Use, fastbuf: nat, bp: nat, mp: nat, d: nat, g: nat)
    requires bp in s.mb && mp in s.mb && d in s.db && g in u.holds && HoldOk(s, u, fastbuf, g)
    requires s' == s.(mb := s.mb[bp := s.mb[mp].(cont := None)], db := s.db[d := s.db[d].(ref := s.db[d].ref + 1)])
    ensures HoldOk(s', u, fastbuf, g)
  {
  }

  // ---- changes that leave every pointer where it is ----

  /** A message block moves its pointers within its buffer, or is linked elsewhere. */
  lemma Edit(s: Store, s': Store, u: Use, fastbuf: nat, m: nat, blk: Mblk)
    requires Inv(s, u, fastbuf) && m in u.Attached() && m in s.mb && s' == s.(mb := s.mb[m := blk])
    requires blk.datap == s.mb[m].datap && Sane(s', u, m)
    ensures Inv(s', u, fastbuf) && Keeps(s, s', u.Attached() - {m})
  {
    hide *;
    Parts(s, u, fastbuf);
    EditDomains(s, s', u, m, blk);
    forall g | g in u.Attached() ensures Sane(s', u, g) && (g != m ==> Kept(s, s', g)) {
      if g != m { EditSane(s, s', u, m, blk, g); }
    }
    forall g | g in s'.db ensures BlockOk(s', u, fastbuf, g) && Count(s', u, g) {
      EditDblk(s, s', u, fastbuf, m, blk, g);
    }
    forall g | g in u.holds ensures HoldOk(s', u, fastbuf, g) { EditHold(s, s', u, fastbuf, m, blk, g); }
    Assemble(s', u, fastbuf);
    AllKept(s, s', u.Attached() - {m});
  }

  lemma EditDomains(s: Store, s': Store, u: Use, m: nat, blk: Mblk)
    requires Domains(s, u) && m in s.mb && s' == s.(mb := s.mb[m := blk])
    ensures Domains(s', u) && s'.db == s.db
  {
  }

  lemma EditSane(s: Store, s': Store, u: Use, m: nat, blk: Mblk, g: nat)
    requires Sane(s, u, g) && g != m && s' == s.(mb := s.mb[m := blk])
    ensures Sane(s', u, g) && Kept(s, s', g)
  {
  }

  lemma EditDblk(s: Store, s': Store, u: Use, fastbuf: nat, m: nat, blk: Mblk, g: nat)
    requires g in s.db && BlockOk(s, u, fastbuf, g) && Count(s, u, g) && m in s.mb
    requires s' == s.(mb := s.mb[m := blk]) && blk.datap == s.mb[m].datap
    ensures BlockOk(s', u, fastbuf, g) && Count(s', u, g)
  {
    assert Pointing(s'.mb, u.Attached(), g) == Pointing(s.mb, u.Attached(), g);
  }

  lemma EditHold(s: Store, s': Store, u: Use, fastbuf: nat, m: nat, blk: Mblk, g: nat)
    requires g in u.holds && HoldOk(s, u, fastbuf, g) && s' == s.(mb := s.mb[m := blk])
    ensures HoldOk(s', u, fastbuf, g)
  {
  }

  /** The only message over a data block writes into its buffer. */
  lemma Write(s: Store, s': Store, u: Use, fastbuf: nat, m: nat, b: Buf, bytes: seq<nat>)
    requires Inv(s, u, fastbuf) && m in u.Attached() && m in s.mb && s.mb[m].datap == Some(m) && m in s.db
    requires s.db[m].ref == 1 && s.db[m].base == Some(b) && b in s.mem && |bytes| == |s.mem[b]|
             && s' == s.(mem := s.mem[b := bytes])
    ensures Inv(s', u, fastbuf) && Keeps(s, s', u.Attached() - {m})
  {
    hide *;
    Parts(s, u, fastbuf);
    WriteDomains(s, s', u, b, bytes);
    forall g | g in u.Attached() ensures Sane(s', u, g) && (g != m ==> Kept(s, s', g)) {
      if g != m { OtherBuffer(s, u, fastbuf, m, g); }
      WriteSane(s, s', u, m, b, bytes, g);
    }
    forall g | g in s'.db ensures BlockOk(s', u, fastbuf, g) && Count(s', u, g) {
      WriteDblk(s, s', u, fastbuf, b, bytes, g);
    }
    forall g | g in u.holds ensures HoldOk(s', u, fastbuf, g) { WriteHold(s, s', u, fastbuf, b, bytes, g); }
    Assemble(s', u, fastbuf);
    AllKept(s, s', u.Attached() - {m});
  }

  lemma WriteDomains(s: Store, s': Store, u: Use, b: Buf, bytes: seq<nat>)
    requires Domains(s, u) && b in s.mem && s' == s.(mem := s.mem[b := bytes])
    ensures Domains(s', u) && s'.db == s.db && s'.mb == s.mb
  {
  }

  /** Messages over different data blocks use different buffers. */
  lemma OtherBuffer(s: Store, u: Use, fastbuf: nat, m: nat, g: nat)
    requires Inv(s, u, fastbuf) && m in u.Attached() && g in u.Attached() && g != m
    requires m in s.mb && s.mb[m].datap == Some(m) && m in s.db && s.db[m].ref == 1
    ensures Sane(s, u, g) && s.db[s.mb[g].datap.value].base != s.db[m].base
  {
    assert Sane(s, u, m) && Sane(s, u, g) && Count(s, u, m);
    var ps := Pointing(s.mb, u.Attached(), m);
    assert m in ps && |ps - {m}| == |ps| - 1;
    assert g !in ps - {m};
    var d := s.mb[g].datap.value;
    if d in u.holds { assert HoldOk(s, u, fastbuf, d); }
    if m in u.holds { assert HoldOk(s, u, fastbuf, m); }
  }

  lemma WriteSane(s: Store, s': Store, u: Use, m: nat, b: Buf, bytes: seq<nat>, g: nat)
    requires Sane(s, u, g) && b in s.mem && |bytes| == |s.mem[b]| && s' == s.(mem := s.mem[b := bytes])
    ensures Sane(s', u, g)
    ensures s.db[s.mb[g].datap.value].base != Some(b) ==> Kept(s, s', g)
  {
  }

  lemma WriteDblk(s: Store, s': Store, u: Use, fastbuf: nat, b: Buf, bytes: seq<nat>, g: nat)
    requires g in s.db && BlockOk(s, u, fastbuf, g) && Count(s, u, g)
    requires b in s.mem && |bytes| == |s.mem[b]| && s' == s.(mem := s.mem[b := bytes])
    ensures BlockOk(s', u, fastbuf, g) && Count(s', u, g)
  {
  }

  lemma WriteHold(s: Store, s': Store, u: Use, fastbuf: nat, b: Buf, bytes: seq<nat>, g: nat)
    requires g in u.holds && HoldOk(s, u, fastbuf, g)
    requires b in s.mem && |bytes| == |s.mem[b]| && s' == s.(mem := s.mem[b := bytes])
    ensures HoldOk(s', u, fastbuf, g)
  {
  }

  /** A message without data block takes over that of nb, which has no other user and is forgotten. */
  lemma HandOver(s: Store, s': Store, u: Use, u': Use, fastbuf: nat, mp: nat, nb: nat)
    requires Inv(s, u, fastbuf) && u.loose == {mp} && nb in u.Attached() && nb in s.mb && mp in s.mb
             && s.mb[nb].datap == Some(nb)
    requires s'.db == s.db && s'.mem == s.mem && s'.mb.Keys == s.mb.Keys
    requires forall g :: g in s.mb && g != mp && g != nb ==> s'.mb[g] == s.mb[g]
    requires mp in s'.mb && nb in s'.mb && s'.mb[nb].datap == None
    requires s'.mb[mp].datap == Some(nb) && s'.mb[mp].rptr == s.mb[nb].rptr && s'.mb[mp].wptr == s.mb[nb].wptr
    requires u' == u.(live := u.live - {nb}, loose := {})
    ensures Inv(s', u', fastbuf) && Keeps(s, s', u.Attached() - {nb})
  {
    hide *;
    Parts(s, u, fastbuf);
    HandDomains(s, s', u, u', mp, nb);
    forall g | g in u'.Attached() ensures Sane(s', u', g) && (g != mp ==> Kept(s, s', g)) {
      HandSane(s, s', u, u', mp, nb, g);
    }
    forall g | g in s'.db ensures BlockOk(s', u', fastbuf, g) && Count(s', u', g) {
      HandDblk(s, s', u, u', fastbuf, mp, nb, g);
    }
    forall g | g in u'.holds ensures HoldOk(s', u', fastbuf, g) { HandHold(s, s', u, u', fastbuf, nb, g); }
    Assemble(s', u', fastbuf);
    AllKept(s, s', u.Attached() - {nb});
  }

  lemma HandDomains(s: Store, s': Store, u: Use, u': Use, mp: nat, nb: nat)
    requires Domains(s, u) && u.loose == {mp} && nb in u.Attached() && u' == u.(live := u.live - {nb}, loose := {})
    requires s'.db == s.db && s'.mem == s.mem && s'.mb.Keys == s.mb.Keys
    ensures Domains(s', u') && mp != nb && u'.holds == u.holds
    ensures u'.Attached() == u.Attached() - {nb} + {mp} && mp !in u.Attached()
  {
  }

  lemma HandSane(s: Store, s': Store, u: Use, u': Use, mp: nat, nb: nat, g: nat)
    requires g == mp || (g != nb && Sane(s, u, g))
    requires Sane(s, u, nb) && nb in s.mb && mp in s.mb && s.mb[nb].datap == Some(nb) && mp != nb
    requires s'.db == s.db && s'.mem == s.mem && s'.mb.Keys == s.mb.Keys && u'.holds == u.holds
    requires forall g :: g in s.mb && g != mp && g != nb ==> s'.mb[g] == s.mb[g]
    requires s'.mb[mp].datap == Some(nb) && s'.mb[mp].rptr == s.mb[nb].rptr && s'.mb[mp].wptr == s.mb[nb].wptr
    ensures Sane(s', u', g) && (g != mp ==> Kept(s, s', g))
  {
  }

  lemma HandDblk(s: Store, s': Store, u: Use, u': Use, fastbuf: nat, mp: nat, nb: nat, g: nat)
    requires Domains(s, u) && u.loose == {mp} && nb in u.Attached() && nb in s.mb && mp in s.mb
             && s.mb[nb].datap == Some(nb)
    requires s'.db == s.db && s'.mem == s.mem && s'.mb.Keys == s.mb.Keys && mp != nb
    requires forall g :: g in s.mb && g != mp && g != nb ==> s'.mb[g] == s.mb[g]
    requires s'.mb[mp].datap == Some(nb) && s'.mb[nb].datap == None
    requires u' == u.(live := u.live - {nb}, loose := {}) && u'.Attached() == u.Attached() - {nb} + {mp}
             && mp !in u.Attached()
    requires g in s.db && BlockOk(s, u, fastbuf, g) && Count(s, u, g)
    ensures BlockOk(s', u', fastbuf, g) && Count(s', u', g)
  {
    Detach(s.mb, s'.mb, u.Attached(), nb, g);
    Attach(s'.mb, s'.mb, u.Attached() - {nb}, mp, g);
  }

  lemma HandHold(s: Store, s': Store, u: Use, u': Use, fastbuf: nat, nb: nat, g: nat)
    requires g in u.holds && HoldOk(s, u, fastbuf, g) && s'.db == s.db && s'.mem == s.mem
    requires u' == u.(live := u.live - {nb}, loose := {})
    ensures HoldOk(s', u', fastbuf, g)
  {
  }

  /** The only message over a data block changes its type. */
  lemma Retype(s: Store, s': Store, u: Use, fastbuf: nat, m: nat, kind: nat)
    requires Inv(s, u, fastbuf) && m in u.Attached() && m in s.mb && s.mb[m].datap == Some(m) && m in s.db
             && s.db[m].ref == 1
    requires s' == s.(db := s.db[m := s.db[m].(kind := kind)])
    ensures Inv(s', u, fastbuf) && Keeps(s, s', u.Attached() - {m})
  {
    hide *;
    Parts(s, u, fastbuf);
    RetypeDomains(s, s', u, m, kind);
    forall g | g in u.Attached() ensures Sane(s', u, g) && (g != m ==> Kept(s, s', g)) {
      if g != m { OtherBuffer(s, u, fastbuf, m, g); }
      RetypeSane(s, s', u, m, kind, g);
    }
    forall g | g in s'.db ensures BlockOk(s', u, fastbuf, g) && Count(s', u, g) {
      RetypeDblk(s, s', u, fastbuf, m, kind, g);
    }
    forall g | g in u.holds ensures HoldOk(s', u, fastbuf, g) { RetypeHold(s, s', u, fastbuf, m, kind, g); }
    Assemble(s', u, fastbuf);
    AllKept(s, s', u.Attached() - {m});
  }

  lemma RetypeDomains(s: Store, s': Store, u: Use, m: nat, kind: nat)
    requires Domains(s, u) && m in s.db && s' == s.(db := s.db[m := s.db[m].(kind := kind)])
    ensures Domains(s', u) && s'.db.Keys == s.db.Keys && s'.mb == s.mb
  {
  }

  lemma RetypeSane(s: Store, s': Store, u: Use, m: nat, kind: nat, g: nat)
    requires Sane(s, u, g) && m in s.db && s' == s.(db := s.db[m := s.db[m].(kind := kind)])
    ensures Sane(s', u, g)
    ensures s.db[s.mb[g].datap.value].base != s.db[m].base ==> Kept(s, s', g)
  {
  }

  lemma RetypeDblk(s: Store, s': Store, u: Use, fastbuf: nat, m: nat, kind: nat, g: nat)
    requires g in s.db && BlockOk(s, u, fastbuf, g) && Count(s, u, g)
    requires m in s.db && s' == s.(db := s.db[m := s.db[m].(kind := kind)])
    ensures BlockOk(s', u, fastbuf, g) && Count(s', u, g)
  {
  }

  lemma RetypeHold(s: Store, s': Store, u: Use, fastbuf: nat, m: nat, kind: nat, g: nat)
    requires g in u.holds && HoldOk(s, u, fastbuf, g)
    requires m in s.db && s' == s.(db := s.db[m := s.db[m].(kind := kind)])
    ensures HoldOk(s', u, fastbuf, g)
  {
  }
}
