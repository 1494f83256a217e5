/** Bytes of user memory, and what copyout and copyin do to them. */
module UserCopy {
  import opened Blocks
  import opened PageTable
  import opened VmSpec
  import opened FreeWalk

  /** Address a of root r lies on a user page; for write, one user code may store to. */
  ghost predicate Reachable(u: Space, r: nat, a: nat, write: bool)
    requires TreeOk(u.t) && IsRoot(u.t, r)
  {
    a / PGSIZE < MAXVPN && var e := Lookup(u.t, r, a / PGSIZE); e.valid && e.perm.u && (write ==> e.perm.w)
  }

  /** The byte there. */
  ghost function UserByte(u: Space, r: nat, a: nat): (b: Byte)
    requires UserOk(u.t, u.data, u.home) && IsRoot(u.t, r) && Reachable(u, r, a, false)
  {
    ReachableData(u, r, a);
    u.data[Lookup(u.t, r, a / PGSIZE).ppn].bytes[a % PGSIZE]
  }

  lemma ReachableData(u: Space, r: nat, a: nat)
    requires UserOk(u.t, u.data, u.home) && IsRoot(u.t, r) && Reachable(u, r, a, false)
    ensures a / PGSIZE < TRAPFRAME && Lookup(u.t, r, a / PGSIZE).ppn in u.data
            && Lookup(u.t, r, a / PGSIZE).ppn in u.home
  {
    assert OwnedAt(u.t, u.data, u.home, r, a / PGSIZE);
  }

  /** Bytes src stored in a page from offset off. */
  function Splice(p: Page, off: nat, src: seq<Byte>): (q: Page)
    requires off + |src| <= PGSIZE
    ensures forall j :: 0 <= j < PGSIZE ==> q.bytes[j] == if off <= j < off + |src| then src[j - off] else p.bytes[j]
  {
    Page(p.bytes[..off] + src + p.bytes[off + |src|..])
  }

  /** From s to u, user bytes from dst of root r became those of src, and no other byte of any data
      page changed. */
  ghost predicate Wrote(s: Space, u: Space, r: nat, dst: nat, src: seq<Byte>) {
    && UserOk(s.t, s.data, s.home) && UserOk(u.t, u.data, u.home) && u.t == s.t && u.home == s.home && IsRoot(s.t, r)
    && (forall q :: q in u.data <==> q in s.data)
    && (forall q :: q in s.data && q !in s.home ==> u.data[q] == s.data[q])
    && (forall x: nat, a: nat {:trigger UserByte(u, x, a)} :: IsRoot(s.t, x) && Reachable(s, x, a, false) ==>
          UserByte(u, x, a) == if x == r && dst <= a < dst + |src| then src[a - dst] else UserByte(s, x, a))
    && (forall a: nat {:trigger Reachable(s, r, a, true)} :: dst <= a < dst + |src| ==> Reachable(s, r, a, true))
  }

  lemma WroteNothing(s: Space, r: nat, dst: nat)
    requires UserOk(s.t, s.data, s.home) && IsRoot(s.t, r)
    ensures Wrote(s, s, r, dst, [])
  {
  }

  /** One memmove into the page of dst. */
  ghost function Stored(s: Space, r: nat, dst: nat, src: seq<Byte>): (u: Space)
    requires TreeOk(s.t) && IsRoot(s.t, r) && dst % PGSIZE + |src| <= PGSIZE
             && Lookup(s.t, r, dst / PGSIZE).ppn in s.data
  {
    var q := Lookup(s.t, r, dst / PGSIZE).ppn;
    Space(s.t, s.data[q := Splice(s.data[q], dst % PGSIZE, src)], s.home)
  }

  lemma SamePage(dst: nat, a: nat, n: nat)
    requires dst % PGSIZE + n <= PGSIZE
    ensures dst <= a < dst + n <==> a / PGSIZE == dst / PGSIZE && dst % PGSIZE <= a % PGSIZE < dst % PGSIZE + n
  {
    assert a == a / PGSIZE * PGSIZE + a % PGSIZE && dst == dst / PGSIZE * PGSIZE + dst % PGSIZE;
    if dst <= a < dst + n { assert a / PGSIZE == dst / PGSIZE; }
  }

  lemma StoredByte(s: Space, r: nat, dst: nat, src: seq<Byte>, x: nat, a: nat)
    requires UserOk(s.t, s.data, s.home) && IsRoot(s.t, r) && IsRoot(s.t, x) && dst % PGSIZE + |src| <= PGSIZE
    requires Reachable(s, r, dst, true) && Reachable(s, x, a, false)
    ensures Lookup(s.t, r, dst / PGSIZE).ppn in s.data
    ensures var u := Stored(s, r, dst, src);
            UserOk(u.t, u.data, u.home) && UserByte(u, x, a) == if x == r && dst <= a < dst + |src| then src[a - dst]
                else UserByte(s, x, a)
  {
    ReachableData(s, r, dst);
    ReachableData(s, x, a);
    var u := Stored(s, r, dst, src);
    HomesAreData(s.t, s.data, s.home);
    UserData(s.t, s.data, u.data, s.home);
    SamePage(dst, a, |src|);
    if Lookup(s.t, x, a / PGSIZE).ppn == Lookup(s.t, r, dst / PGSIZE).ppn {
      UserPagesDiffer(s, x, a / PGSIZE, r, dst / PGSIZE);
    }
  }

  lemma StoredWrote(s: Space, r: nat, dst: nat, src: seq<Byte>)
    requires UserOk(s.t, s.data, s.home) && IsRoot(s.t, r) && dst % PGSIZE + |src| <= PGSIZE
             && Reachable(s, r, dst, true)
    ensures Lookup(s.t, r, dst / PGSIZE).ppn in s.data && Wrote(s, Stored(s, r, dst, src), r, dst, src)
  {
    StoredByte(s, r, dst, src, r, dst);
    ReachableData(s, r, dst);
    var u := Stored(s, r, dst, src);
    forall x: nat, a: nat | IsRoot(s.t, x) && Reachable(s, x, a, false)
      ensures UserByte(u, x, a) == if x == r && dst <= a < dst + |src| then src[a - dst] else UserByte(s, x, a)
    {
      StoredByte(s, r, dst, src, x, a);
    }
    forall a: nat | dst <= a < dst + |src| ensures Reachable(s, r, a, true) { SamePage(dst, a, |src|); }
  }

  lemma WroteMore(s: Space, u: Space, w: Space, r: nat, dst: nat, src: seq<Byte>, more: seq<Byte>)
    requires Wrote(s, u, r, dst, src) && Wrote(u, w, r, dst + |src|, more)
    ensures Wrote(s, w, r, dst, src + more)
  {
    hide OwnedAt, HomeAt, DownAt, UpAt, Lookup, UserByte;
    forall x: nat, a: nat | IsRoot(s.t, x) && Reachable(s, x, a, false)
      ensures UserByte(w, x, a) == if x == r && dst <= a < dst + |src + more| then (src + more)[a - dst]
          else UserByte(s, x, a)
    {
      assert Reachable(u, x, a, false);
      assert UserByte(u, x, a) == if x == r && dst <= a < dst + |src| then src[a - dst] else UserByte(s, x, a);
    }
    forall a: nat | dst <= a < dst + |src + more| ensures Reachable(s, r, a, true) {
      if a >= dst + |src| { assert Reachable(u, r, a, true); }
    }
  }

  /** bytes are those of user memory from src of root r. */
  ghost predicate Reads(u: Space, r: nat, src: nat, bytes: seq<Byte>) {
    && UserOk(u.t, u.data, u.home) && IsRoot(u.t, r)
    && (forall k: nat :: k < |bytes| ==> ByteIs(u, r, src + k, bytes[k]))
  }

  ghost predicate ByteIs(u: Space, r: nat, a: nat, b: Byte)
    requires UserOk(u.t, u.data, u.home) && IsRoot(u.t, r)
  {
    Reachable(u, r, a, false) && UserByte(u, r, a) == b
  }

  lemma ReadsMore(u: Space, r: nat, src: nat, bytes: seq<Byte>, n: nat)
    requires Reads(u, r, src, bytes) && (src + |bytes|) % PGSIZE + n <= PGSIZE
             && (n > 0 ==> Reachable(u, r, src + |bytes|, false))
    ensures n > 0 ==> Lookup(u.t, r, (src + |bytes|) / PGSIZE).ppn in u.data
    ensures n > 0 ==>
              var off := (src + |bytes|) % PGSIZE;
              Reads(u, r, src, bytes + u.data[Lookup(u.t, r, (src + |bytes|) / PGSIZE).ppn].bytes[off..off + n])
  {
    var a := src + |bytes|;
    if n > 0 {
      ReachableData(u, r, a);
      var page := u.data[Lookup(u.t, r, a / PGSIZE).ppn].bytes;
      var all := bytes + page[a % PGSIZE..a % PGSIZE + n];
      forall k: nat | k < |all| ensures ByteIs(u, r, src + k, all[k]) {
        if k < |bytes| {
          assert all[k] == bytes[k] && ByteIs(u, r, src + k, bytes[k]);
        } else {
          SamePage(a, src + k, n);
          ModSame(a, src + k);
        }
      }
    }
  }

  lemma ModSame(a: nat, b: nat)
    requires a / PGSIZE == b / PGSIZE
    ensures b % PGSIZE - a % PGSIZE == b - a
  {
  }

  /** copyin after copyout gives back the bytes written, whatever page boundaries they cross. */
  lemma ReadBack(s: Space, u: Space, r: nat, dst: nat, src: seq<Byte>, bytes: seq<Byte>)
    requires Wrote(s, u, r, dst, src) && Reads(u, r, dst, bytes) && |bytes| == |src|
    ensures bytes == src
  {
    forall k: nat | k < |src| ensures bytes[k] == src[k] {
      assert Reachable(s, r, dst + k, true);
      assert ByteIs(u, r, dst + k, bytes[k]);
    }
  }

  lemma WroteReachable(s: Space, u: Space, r: nat, dst: nat, src: seq<Byte>, k: nat)
    requires Wrote(s, u, r, dst, src)
    ensures TreeOk(u.t) && IsRoot(u.t, r) && (k < |src| ==> Reachable(u, r, dst + k, false))
  {
    if k < |src| { assert Reachable(s, r, dst + k, true); }
  }
}
