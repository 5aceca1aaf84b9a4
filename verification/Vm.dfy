/** The page allocator (kernel/kalloc.c) and user page tables (kernel/vm.c). */
module Vm {
  import opened Common
  import opened Riscv
  import opened VmModel

  const FIVES: seq<Byte> := seq(PGSIZE, _ => 5)

  function Head(free: seq<nat>): (n: nat) {
    if |free| == 0 then 0 else free[0]
  }

  /** The link out of the k-th free page. */
  function Link(free: seq<nat>, k: nat): (n: nat) {
    if k + 1 < |free| then free[k + 1] else 0
  }

  predicate InPool(lo: nat, hi: nat, n: nat) { lo <= n < hi }

  lemma WholePages(p: nat, end: nat)
    ensures (p + 1) * PGSIZE <= end <==> p < end / PGSIZE
  {
  }

  lemma NextPage(va: nat, v: nat)
    requires va / PGSIZE == v
    ensures RoundDown(va) + PGSIZE == (v + 1) * PGSIZE && (v + 1) * PGSIZE / PGSIZE == v + 1
  {
  }

  /** `free` spells out the linked free list that starts at `head`. */
  ghost predicate ListOk(mem: Mem, own: Owners, head: nat, free: seq<nat>) {
    && head == Head(free) && own.Keys == mem.Keys && 0 !in own
    && (forall k :: 0 <= k < |free| ==> free[k] in own && own[free[k]] == Free)
    && (forall k {:trigger mem[free[k]]} :: 0 <= k < |free| ==> mem[free[k]] == Run(Link(free, k)))
    && (forall j, k :: 0 <= j < k < |free| ==> free[j] != free[k])
    && (forall n {:trigger n in free} :: n in own && own[n] == Free ==> n in free)
  }

  lemma ListPush(mem: Mem, own: Owners, head: nat, free: seq<nat>, n: nat)
    requires ListOk(mem, own, head, free) && n in own && own[n] != Free
    ensures ListOk(mem[n := Run(head)], own[n := Free], n, [n] + free)
  {
    var free' := [n] + free;
    forall k | 0 <= k < |free'| ensures mem[n := Run(head)][free'[k]] == Run(Link(free', k)) {
      LinkPush(free, n, k);
      if k > 0 {
        assert mem[free[k - 1]] == Run(Link(free, k - 1));
      }
    }
    forall j, k | 0 <= j < k < |free'| ensures free'[j] != free'[k] {
      LinkPush(free, n, j);
      LinkPush(free, n, k);
    }
    forall x | x in own && own[n := Free][x] == Free ensures x in free' {
      assert free'[0] == n;
      if x != n { InPush(free, n, x); }
    }
  }

  lemma LinkPush(free: seq<nat>, n: nat, k: nat)
    requires k <= |free|
    ensures Link([n] + free, k) == if k == 0 then Head(free) else Link(free, k - 1)
    ensures ([n] + free)[k] == if k == 0 then n else free[k - 1]
  {
  }

  lemma InPush(free: seq<nat>, n: nat, x: nat)
    requires x in free
    ensures x in [n] + free
  {
  }

  lemma ListFrame(mem: Mem, own: Owners, mem': Mem, own': Owners, head: nat, free: seq<nat>)
    requires ListOk(mem, own, head, free) && own'.Keys == own.Keys && mem'.Keys == mem.Keys
    requires forall x :: x in own ==> (own'[x] == Free <==> own[x] == Free) && (own[x] == Free ==> mem'[x] == mem[x])
    ensures ListOk(mem', own', head, free)
  {
  }

  /** Every page is what its owner says, a fact that is opened only where it is needed. */
  ghost predicate Sound(mem: Mem, own: Owners) {
    forall k: int {:trigger Asked(k)} :: Asked(k) ==> TreeOk(mem, own)
  }

  lemma FreeOk(mem: Mem, own: Owners, head: nat, free: seq<nat>)
    requires ListOk(mem, own, head, free) && forall n :: n in own ==> own[n] == Free
    ensures TreeOk(mem, own)
  {
    forall n | n in own ensures PageOk(mem, own, n) {
      assert n in free;
      var j :| 0 <= j < |free| && free[j] == n;
    }
  }

  /** Whatever was owned still is, with its contents; free pages may have gone to table `t`. */
  ghost predicate Keeps(mem: Mem, own: Owners, mem': Mem, own': Owners, t: nat, users: bool) {
    && mem.Keys == own.Keys == mem'.Keys == own'.Keys
    && (forall x :: x in own ==>
          if own[x] == Free then
            own'[x] == Free || ((own'[x].Mid? || own'[x].Low? || (users && own'[x].User?)) && own'[x].t == t)
          else own'[x] == own[x] && (own[x].User? || own[x].Other? ==> mem'[x] == mem[x]))
  }

  /** No page has changed hands, but for free ones that are now tables or user pages of `t`. */
  ghost predicate Passes(own: Owners, own': Owners, t: nat) {
    && own'.Keys == own.Keys
    && (forall x {:trigger own'[x]} :: x in own ==>
          own'[x] == own[x] || (own[x] == Free && (own'[x].Mid? || own'[x].Low? || own'[x].User?) && own'[x].t == t))
  }

  lemma PassesMore(own: Owners, own1: Owners, own2: Owners, t: nat)
    requires Passes(own, own1, t) && Passes(own1, own2, t)
    ensures Passes(own, own2, t)
    ensures forall s :: IsRoot(own, s) ==> IsRoot(own2, s)
  {
    forall x | x in own
      ensures own2[x] == own[x] || (own[x] == Free && (own2[x].Mid? || own2[x].Low? || own2[x].User?) && own2[x].t == t)
    {
      assert own1[x] == own[x] || (own[x] == Free && own1[x] != Free);
    }
  }

  /** A step that may add empty tables to `t` and changes no mapping and no contents. */
  ghost predicate Grew(mem: Mem, own: Owners, mem': Mem, own': Owners, t: nat) {
    Keeps(mem, own, mem', own', t, false) && SameMaps(own, mem, mem')
  }

  /** `k` pages from `pg` on are mapped at `v` on, with `perm`; the user pages among them now belong to the table. */
  ghost predicate Mapped(mem: Mem, own: Owners, mem': Mem, own': Owners, t: nat, v: nat, k: nat, pg: nat, perm: Perm) {
    && mem.Keys == own.Keys == mem'.Keys == own'.Keys
    && (forall s, w: nat :: IsRoot(own, s) && w < MAXV ==>
          Lookup(mem', s, w) == if s == t && v <= w < v + k then Pte(true, pg + (w - v), perm) else Lookup(mem, s, w))
    && (forall x :: x in own ==> MappedAt(own[x], mem[x], own'[x], mem'[x], x, t, v, k, pg))
  }

  /** What mapping `k` pages from `pg` on at `v` on does to page `x`. */
  predicate MappedAt(o: Owner, p: Page, o': Owner, p': Page, x: nat, t: nat, v: nat, k: nat, pg: nat) {
    if pg <= x < pg + k && v + (x - pg) < USERV then o == Other && o' == User(t, v + (x - pg)) && p' == p
    else if o == Free then o' == Free || ((o'.Mid? || o'.Low?) && o'.t == t)
    else o' == o && (o.User? || o.Other? ==> p' == p)
  }

  /** Nothing is mapped in pages lo..hi. */
  ghost predicate Vacant(mem: Mem, t: nat, lo: nat, hi: nat) {
    forall w :: lo <= w < hi ==> !Lookup(mem, t, w).v
  }

  /** What mappages asks: room for the range, and user pages that the caller owns. */
  ghost predicate CanMap(mem: Mem, own: Owners, t: nat, v: nat, n: nat, pg: nat, perm: Perm) {
    && v + n <= MAXV && Pte(true, pg, perm).Leaf() && (v + n > USERV ==> !perm.u)
    && Vacant(mem, t, v, v + n)
    && (forall x :: pg <= x < pg + n && v + (x - pg) < USERV ==>
        x in own && own[x] == Other && x in mem && IsData(mem[x]))
  }

  lemma MappedZero(mem: Mem, own: Owners, mem': Mem, own': Owners, t: nat, v: nat, pg: nat, perm: Perm)
    requires Grew(mem, own, mem', own', t)
    ensures Mapped(mem, own, mem', own', t, v, 0, pg, perm)
  {
  }

  lemma MappedOne(mem: Mem, own: Owners, mem1: Mem, own1: Owners, mem2: Mem, own2: Owners, t: nat, v: nat, pg: nat,
                  perm: Perm)
    requires Grew(mem, own, mem1, own1, t) && IsRoot(own, t) && v < MAXV
    requires mem2.Keys == mem1.Keys && Lookup(mem2, t, v) == Pte(true, pg, perm) && SameMapsBut(own1, mem1, mem2, t, v)
    requires v < USERV ==> pg in own && own[pg] == Other
    requires own2 == if v < USERV then own1[pg := User(t, v)] else own1
    requires forall x :: x in own1 && (own1[x].User? || own1[x].Other?) ==> mem2[x] == mem1[x]
    ensures Mapped(mem, own, mem2, own2, t, v, 1, pg, perm)
  {
    assert forall s :: IsRoot(own, s) ==> IsRoot(own1, s);
  }

  lemma MappedMore(mem: Mem, own: Owners, mem1: Mem, own1: Owners, mem2: Mem, own2: Owners,
                   t: nat, v: nat, k: nat, v1: nat, j: nat, pg: nat, pg1: nat, perm: Perm)
    requires Mapped(mem, own, mem1, own1, t, v, k, pg, perm) && Mapped(mem1, own1, mem2, own2, t, v1, j, pg1, perm)
    requires v1 == v + k && pg1 == pg + k
    requires IsRoot(own, t)
    ensures Mapped(mem, own, mem2, own2, t, v, k + j, pg, perm)
  {
    forall s, w: nat | IsRoot(own, s) && w < MAXV
      ensures Lookup(mem2, s, w) == if s == t && v <= w < v + (k + j) then Pte(true, pg + (w - v), perm)
              else Lookup(mem, s, w)
    {
      assert IsRoot(own1, s);
    }
    forall x | x in own ensures MappedAt(own[x], mem[x], own2[x], mem2[x], x, t, v, k + j, pg) {
      assert MappedAt(own[x], mem[x], own1[x], mem1[x], x, t, v, k, pg);
      assert MappedAt(own1[x], mem1[x], own2[x], mem2[x], x, t, v1, j, pg1);
    }
  }

  lemma CanMapNext(mem: Mem, own: Owners, mem1: Mem, own1: Owners, t: nat, v: nat, n: nat, k: nat, v1: nat, pg: nat,
                   pg1: nat, perm: Perm)
    requires CanMap(mem, own, t, v, n, pg, perm) && Mapping(mem, own, mem1, own1, t, v, k, pg, perm) && k < n
             && IsRoot(own, t)
    requires v1 == v + k && pg1 == pg + k
    ensures CanMap(mem1, own1, t, v1, 1, pg1, perm) && IsRoot(own1, t)
  {
    assert Sought(0);
  }

  /** mappages under way. */
  ghost predicate Mapping(mem: Mem, own: Owners, mem': Mem, own': Owners, t: nat, v: nat, k: nat, pg: nat, perm: Perm) {
    forall q: int {:trigger Sought(q)} :: Sought(q) ==> Mapped(mem, own, mem', own', t, v, k, pg, perm)
  }

  lemma MappingMore(mem: Mem, own: Owners, mem1: Mem, own1: Owners, mem2: Mem, own2: Owners,
                    t: nat, v: nat, k: nat, v1: nat, j: nat, pg: nat, pg1: nat, perm: Perm)
    requires Mapping(mem, own, mem1, own1, t, v, k, pg, perm) && Mapped(mem1, own1, mem2, own2, t, v1, j, pg1, perm)
    requires v1 == v + k && pg1 == pg + k && IsRoot(own, t)
    ensures Mapping(mem, own, mem2, own2, t, v, k + j, pg, perm) && IsRoot(own2, t)
  {
    assert Sought(0);
    MappedMore(mem, own, mem1, own1, mem2, own2, t, v, k, v1, j, pg, pg1, perm);
  }

  predicate UserIn(o: Owner, t: nat, lo: nat, hi: nat) {
    o.User? && o.t == t && lo <= o.v < hi
  }

  /** Pages lo..hi of table `t` are unmapped, their memory passed to `o`, and nothing else changed. */
  ghost predicate Unmapped(mem: Mem, own: Owners, mem': Mem, own': Owners, t: nat, lo: nat, hi: nat, o: Owner) {
    && mem.Keys == own.Keys == mem'.Keys == own'.Keys
    && (forall s, w: nat :: IsRoot(own, s) && w < MAXV ==>
          Lookup(mem', s, w) == if s == t && lo <= w < hi then ZERO else Lookup(mem, s, w))
    && (forall x :: x in own ==>
          if UserIn(own[x], t, lo, hi) then own'[x] == o
          else own'[x] == own[x] && (own[x].User? || own[x].Other? ==> mem'[x] == mem[x]))
  }

  lemma UnmappedMore(mem: Mem, own: Owners, mem1: Mem, own1: Owners, mem2: Mem, own2: Owners, t: nat, lo: nat, m: nat,
                     hi: nat, o: Owner)
    requires Unmapped(mem, own, mem1, own1, t, lo, m, o) && Unmapped(mem1, own1, mem2, own2, t, m, hi, o)
    requires lo <= m <= hi && IsRoot(own, t) && (o.Free? || o.Other?)
    ensures Unmapped(mem, own, mem2, own2, t, lo, hi, o)
  {
    assert forall s :: IsRoot(own, s) ==> IsRoot(own1, s);
  }

  lemma UnmappedNone(mem: Mem, own: Owners, t: nat, v: nat, o: Owner)
    requires Sound(mem, own) && IsRoot(own, t) && v < MAXV && !Lookup(mem, t, v).v
    ensures Unmapped(mem, own, mem, own, t, v, v + 1, o)
  {
    assert Asked(0);
    UnmappedIsZero(mem, own, t, v);
    forall x | x in own ensures !UserIn(own[x], t, v, v + 1) {
      assert PageOk(mem, own, x);
    }
  }

  /** Clearing a valid entry unmaps one page. */
  lemma UnmappedOne(mem: Mem, own: Owners, mem': Mem, own': Owners, t: nat, v: nat, o: Owner)
    requires TreeOk(mem, own) && IsRoot(own, t) && v < MAXV && Lookup(mem, t, v).v && mem'.Keys == mem.Keys
    requires o.Other? || (o.Free? && v < USERV && Lookup(mem, t, v).page in mem' && mem'[Lookup(mem, t, v).page].Run?)
    requires own' == if v < USERV then own[Lookup(mem, t, v).page := o] else own
    requires forall x :: x in mem && x != LowOf(mem, t, v) && !(v < USERV && x == Lookup(mem, t, v).page) ==>
               mem'[x] == mem[x]
    requires var lo := LowOf(mem, t, v);
             lo in mem && IsNode(mem[lo]) && mem'[lo] == Node(mem[lo].ptes[Px0(v) := ZERO])
    ensures TreeOk(mem', own') && Unmapped(mem, own, mem', own', t, v, v + 1, o)
  {
    UserIs(mem, own, t, v);
    LowIs(mem, own, t, v);
    DropLeaf(mem, own, mem', own', t, v);
    forall x | x in own && UserIn(own[x], t, v, v + 1) ensures v < USERV && x == Lookup(mem, t, v).page {
      assert PageOk(mem, own, x);
    }
  }

  /** One user page with the given contents and permissions has been added at `v`. */
  ghost predicate Filled(mem: Mem, own: Owners, mem': Mem, own': Owners, t: nat, v: nat, bytes: seq<Byte>, perm: Perm) {
    && Keeps(mem, own, mem', own', t, true) && SameMapsBut(own, mem, mem', t, v)
    && var e := Lookup(mem', t, v);
       && e == Pte(true, e.page, perm) && e.page in own && own[e.page] == Free && own'[e.page] == User(t, v)
       && mem'[e.page] == Data(bytes)
  }

  /** Every table maps what it did, except pages lo..hi of table `t`. */
  ghost predicate SameOutside(own: Owners, mem: Mem, mem': Mem, t: nat, lo: nat, hi: nat) {
    forall s, w: nat :: IsRoot(own, s) && w < MAXV && !(s == t && lo <= w < hi) ==>
          Lookup(mem', s, w) == Lookup(mem, s, w)
  }

  /** Pages lo..hi of table `t` are mapped to zero pages of their own. */
  ghost predicate Zeroed(mem: Mem, own: Owners, mem': Mem, own': Owners, t: nat, lo: nat, hi: nat, perm: Perm) {
    && Keeps(mem, own, mem', own', t, true) && SameOutside(own, mem, mem', t, lo, hi)
    && (forall w: nat :: lo <= w < hi ==> ZeroAt(mem', t, w, perm))
  }

  predicate ZeroAt(mem: Mem, t: nat, w: nat, perm: Perm) {
    var e := Lookup(mem, t, w);
    e.v && e.perm == perm && e.page in mem && mem[e.page].Data? && AllZero(mem[e.page].bytes)
  }

  /** Page `w` of table `t` is a copy of page `w` that table `s` had in `mem`, or as unmapped. */
  predicate CopyAt(mem: Mem, mem': Mem, s: nat, t: nat, w: nat) {
    var e, e' := Lookup(mem, s, w), Lookup(mem', t, w);
    if e.v then e'.v && e'.perm == e.perm && e.page in mem && e'.page in mem' && mem'[e'.page] == mem[e.page]
    else e' == ZERO
  }

  /** The first `hi` pages of table `t` are copies of those of table `s`. */
  ghost predicate Copied(mem: Mem, own: Owners, mem': Mem, own': Owners, s: nat, t: nat, hi: nat) {
    && Keeps(mem, own, mem', own', t, true) && SameOutside(own, mem, mem', t, 0, hi)
    && (forall w: nat :: w < hi ==> CopyAt(mem, mem', s, t, w))
  }

  lemma KeepsTrans(mem: Mem, own: Owners, mem1: Mem, own1: Owners, mem2: Mem, own2: Owners, t: nat, users: bool)
    requires Keeps(mem, own, mem1, own1, t, true) && Keeps(mem1, own1, mem2, own2, t, users)
    ensures Keeps(mem, own, mem2, own2, t, true)
    ensures forall r :: IsRoot(own, r) ==> IsRoot(own1, r)
  {
  }

  lemma ZeroedMore(mem: Mem, own: Owners, mem1: Mem, own1: Owners, mem2: Mem, own2: Owners, t: nat, lo: nat, k: nat,
                   perm: Perm,
                   zeros: seq<Byte>)
    requires Sound(mem1, own1) && IsRoot(own, t) && lo <= k < USERV
    requires Zeroed(mem, own, mem1, own1, t, lo, k, perm) && AllZero(zeros)
             && Filled(mem1, own1, mem2, own2, t, k, zeros, perm)
    ensures Zeroed(mem, own, mem2, own2, t, lo, k + 1, perm)
  {
    assert Asked(0);
    KeepsTrans(mem, own, mem1, own1, mem2, own2, t, true);
    forall w: nat | lo <= w < k + 1 ensures ZeroAt(mem2, t, w, perm) {
      if w < k {
        assert ZeroAt(mem1, t, w, perm);
        UserIs(mem1, own1, t, w);
      }
    }
  }

  lemma CopiedMore(mem: Mem, own: Owners, mem1: Mem, own1: Owners, mem2: Mem, own2: Owners, s: nat, t: nat, k: nat,
                   bytes: seq<Byte>, perm: Perm)
    requires Sound(mem, own) && Sound(mem1, own1) && IsRoot(own, t) && IsRoot(own, s) && s != t && k < USERV
    requires Copied(mem, own, mem1, own1, s, t, k) && Filled(mem1, own1, mem2, own2, t, k, bytes, perm)
    requires var e := Lookup(mem, s, k); e.v && e.perm == perm && e.page in mem && mem[e.page] == Data(bytes)
    ensures Copied(mem, own, mem2, own2, s, t, k + 1)
  {
    assert Asked(0);
    KeepsTrans(mem, own, mem1, own1, mem2, own2, t, true);
    forall w: nat | w < k + 1 ensures CopyAt(mem, mem2, s, t, w) {
      if w < k {
        assert CopyAt(mem, mem1, s, t, w);
        if Lookup(mem, s, w).v { UserIs(mem1, own1, t, w); }
      }
    }
  }

  /** The page being copied still has its first contents. */
  lemma SameUserPage(mem: Mem, own: Owners, mem1: Mem, own1: Owners, s: nat, t: nat, k: nat, bytes: seq<Byte>)
    requires Sound(mem, own) && IsRoot(own, s) && k < USERV && Keeps(mem, own, mem1, own1, t, true)
    requires var e := Lookup(mem, s, k); e.v && e.page in mem1 && mem1[e.page].Data? && bytes == mem1[e.page].bytes
    ensures var e := Lookup(mem, s, k); e.page in mem && mem[e.page] == Data(bytes)
  {
    assert Asked(0);
    UserIs(mem, own, s, k);
  }

  lemma CopiedHole(mem: Mem, own: Owners, mem1: Mem, own1: Owners, s: nat, t: nat, k: nat)
    requires Sound(mem, own) && IsRoot(own, t) && IsRoot(own, s) && s != t && k < USERV
    requires Copied(mem, own, mem1, own1, s, t, k) && !Lookup(mem, s, k).v && !Lookup(mem, t, k).v
    ensures Copied(mem, own, mem1, own1, s, t, k + 1)
  {
    assert Asked(0);
    UnmappedIsZero(mem, own, t, k);
  }

  /** One zero page has been added at `v`, as vmfault does. */
  ghost predicate Faulted(mem: Mem, own: Owners, mem': Mem, own': Owners, t: nat, v: nat) {
    && Keeps(mem, own, mem', own', t, true) && SameMapsBut(own, mem, mem', t, v)
    && ZeroAt(mem', t, v, Perm(true, true, false, true))
  }

  // ------------------------------------------------------------ what users see

  /** Every user address space reads as it did. */
  ghost predicate SameUser(own: Owners, mem: Mem, mem': Mem) {
    forall s, a: nat :: IsRoot(own, s) && a < TRAPFRAME ==> View(mem', s, a) == View(mem, s, a)
  }

  /** Every user address space reads as it did, except that `t` has the first `k` bytes of `src` at `dst`. */
  ghost predicate Wrote(own: Owners, mem: Mem, mem': Mem, t: nat, dst: nat, src: seq<Byte>, k: nat)
    requires k <= |src|
  {
    forall s, a: nat :: IsRoot(own, s) && a < TRAPFRAME ==>
      View(mem', s, a) == if s == t && dst <= a < dst + k then src[a - dst] else View(mem, s, a)
  }

  lemma GrewView(mem: Mem, own: Owners, mem': Mem, own': Owners, t: nat)
    requires Sound(mem, own) && Grew(mem, own, mem', own', t)
    ensures SameUser(own, mem, mem')
  {
    assert Asked(0);
    forall s, a: nat | IsRoot(own, s) && a < TRAPFRAME ensures View(mem', s, a) == View(mem, s, a) {
      SameView(mem, own, mem', s, a);
    }
  }

  /** Allocating on demand cannot be seen: the new page reads as the missing one did. */
  lemma FaultedView(mem: Mem, own: Owners, mem': Mem, own': Owners, t: nat, v: nat)
    requires Sound(mem, own) && IsRoot(own, t) && Faulted(mem, own, mem', own', t, v) && !Lookup(mem, t, v).v
    ensures SameUser(own, mem, mem')
  {
    assert Asked(0);
    forall s, a: nat | IsRoot(own, s) && a < TRAPFRAME ensures View(mem', s, a) == View(mem, s, a) {
      if !(s == t && a / PGSIZE == v) { SameView(mem, own, mem', s, a); }
    }
  }

  /** Growing a process eagerly reads the same as leaving its new pages to vmfault. */
  lemma ZeroedView(mem: Mem, own: Owners, mem': Mem, own': Owners, t: nat, lo: nat, hi: nat, perm: Perm)
    requires TreeOk(mem, own) && IsRoot(own, t) && Zeroed(mem, own, mem', own', t, lo, hi, perm)
             && Vacant(mem, t, lo, hi)
    ensures SameUser(own, mem, mem')
  {
    forall s, a: nat | IsRoot(own, s) && a < TRAPFRAME ensures View(mem', s, a) == View(mem, s, a) {
      if s == t && lo <= a / PGSIZE < hi {
        assert ZeroAt(mem', t, a / PGSIZE, perm);
      } else {
        SameView(mem, own, mem', s, a);
      }
    }
  }

  /** Unmapped pages read as zeros; everything else reads as before. */
  lemma UnmappedView(mem: Mem, own: Owners, mem': Mem, own': Owners, t: nat, lo: nat, hi: nat, s: nat, a: nat)
    requires TreeOk(mem, own) && IsRoot(own, t) && Unmapped(mem, own, mem', own', t, lo, hi, Free)
    requires IsRoot(own, s) && a < TRAPFRAME
    ensures View(mem', s, a) == if s == t && lo <= a / PGSIZE < hi then 0 else View(mem, s, a)
  {
    var v := a / PGSIZE;
    if !(s == t && lo <= v < hi) && Lookup(mem, s, v).v {
      UserIs(mem, own, s, v);
    }
  }

  /** After a successful uvmcopy the child reads what the parent does, from pages that are not the parent's. */
  lemma CopiedView(mem: Mem, own: Owners, mem': Mem, own': Owners, s: nat, t: nat, hi: nat, a: nat)
    requires TreeOk(mem, own) && TreeOk(mem', own') && IsRoot(own, s) && IsRoot(own, t) && s != t
    requires Copied(mem, own, mem', own', s, t, hi) && hi <= USERV && a < hi * PGSIZE
    ensures View(mem', t, a) == View(mem, s, a) && View(mem', s, a) == View(mem, s, a)
    ensures Lookup(mem', t, a / PGSIZE).v ==> Lookup(mem', t, a / PGSIZE).page != Lookup(mem', s, a / PGSIZE).page
  {
    var v := a / PGSIZE;
    assert CopyAt(mem, mem', s, t, v);
    if Lookup(mem, s, v).v { UserIs(mem, own, s, v); }
    if Lookup(mem', t, v).v { UserIs(mem', own', t, v); }
    SameView(mem, own, mem', s, a);
  }

  /** An access to page `v` is refused: mapped but not for users, or unmapped and not below `sz`. */
  predicate Refused(mem: Mem, t: nat, sz: nat, v: nat) {
    v >= MAXV || (if Lookup(mem, t, v).v then !Lookup(mem, t, v).perm.u else v * PGSIZE >= sz)
  }

  /** Page `v` is not mapped, so that an access needs memory for it. */
  predicate Missing(mem: Mem, t: nat, v: nat) { v < MAXV && !Lookup(mem, t, v).v }

  /** A write to page `v` is refused, or the page is mapped read-only. */
  predicate Unwritable(mem: Mem, t: nat, sz: nat, v: nat) {
    Refused(mem, t, sz, v) || (Lookup(mem, t, v).v && !Lookup(mem, t, v).perm.w)
  }

  /** copyout under way: `k` bytes are written and the pages from `v` on are as they were. */
  ghost predicate Sending(own: Owners, mem: Mem, own': Owners, mem': Mem, t: nat, dst: nat, src: seq<Byte>, k: nat,
                          v: nat)
    requires k <= |src|
  {
    forall q: int {:trigger Sought(q)} :: Sought(q) ==>
      Wrote(own, mem, mem', t, dst, src, k) && Passes(own, own', t) && Untouched(mem, mem', t, v)
  }

  lemma SendingIs(own: Owners, mem: Mem, own': Owners, mem': Mem, t: nat, dst: nat, src: seq<Byte>, k: nat, v: nat)
    requires k <= |src| && Sending(own, mem, own', mem', t, dst, src, k, v)
    ensures Wrote(own, mem, mem', t, dst, src, k) && Passes(own, own', t)
  {
    assert Sought(0);
  }

  /** A further chunk, within page `v`, extends what has been written. */
  lemma SendingMore(own: Owners, mem: Mem, own1: Owners, mem1: Mem, own2: Owners, mem2: Mem,
                    t: nat, dst: nat, src: seq<Byte>, k: nat, n: nat, v: nat, sz: nat)
    requires k + n <= |src| && Sending(own, mem, own1, mem1, t, dst, src, k, v)
    requires Wrote(own1, mem1, mem2, t, dst + k, src[k..], n) && Passes(own1, own2, t)
             && Untouched(mem1, mem2, t, v + 1)
    ensures Sending(own, mem, own2, mem2, t, dst, src, k + n, v + 1)
    ensures Unwritable(mem1, t, sz, v) <==> Unwritable(mem, t, sz, v)
    ensures Missing(mem1, t, v) <==> Missing(mem, t, v)
  {
    assert Sought(0);
    PassesMore(own, own1, own2, t);
    forall s | IsRoot(own, s) ensures IsRoot(own1, s) {}
    WroteMore(own, own1, mem, mem1, mem2, t, dst, src, k, n);
  }

  lemma WroteMore(own: Owners, own1: Owners, mem: Mem, mem1: Mem, mem2: Mem, t: nat, dst: nat, src: seq<Byte>, k: nat,
                  n: nat)
    requires k + n <= |src| && forall s :: IsRoot(own, s) ==> IsRoot(own1, s)
    requires Wrote(own, mem, mem1, t, dst, src, k) && Wrote(own1, mem1, mem2, t, dst + k, src[k..], n)
    ensures Wrote(own, mem, mem2, t, dst, src, k + n)
  {
  }

  lemma WroteFirst(own: Owners, own1: Owners, mem: Mem, mem1: Mem, mem2: Mem, t: nat, dst: nat, rest: seq<Byte>, n: nat)
    requires n <= |rest| && Passes(own, own1, t) && SameUser(own, mem, mem1)
    requires Wrote(own1, mem1, mem2, t, dst, rest[..n], n)
    ensures Wrote(own, mem, mem2, t, dst, rest, n)
  {
    forall s | IsRoot(own, s) ensures IsRoot(own1, s) {}
  }

  /** A copy into a user page shows at its addresses and nowhere else. */
  lemma WroteChunk(mem: Mem, own: Owners, t: nat, v: nat, off: nat, chunk: seq<Byte>)
    requires TreeOk(mem, own) && IsRoot(own, t) && v < USERV && Lookup(mem, t, v).v && off + |chunk| <= PGSIZE
    requires var pg := Lookup(mem, t, v).page; pg in mem && IsData(mem[pg])
    ensures var pg := Lookup(mem, t, v).page;
            var b := mem[pg].bytes;
            var mem' := mem[pg := Data(b[..off] + chunk + b[off + |chunk|..])];
            Wrote(own, mem, mem', t, v * PGSIZE + off, chunk, |chunk|)
  {
    forall s, a: nat | IsRoot(own, s) && a < TRAPFRAME
      ensures
        var pg := Lookup(mem, t, v).page;
        var b := mem[pg].bytes;
        var lo := v * PGSIZE + off;
        View(mem[pg := Data(b[..off] + chunk + b[off + |chunk|..])], s, a) ==
        if s == t && lo <= a < lo + |chunk| then chunk[a - lo] else View(mem, s, a)
    {
      WroteByte(mem, own, t, v, off, chunk, s, a);
    }
  }

  lemma WroteByte(mem: Mem, own: Owners, t: nat, v: nat, off: nat, chunk: seq<Byte>, s: nat, a: nat)
    requires TreeOk(mem, own) && IsRoot(own, t) && v < USERV && Lookup(mem, t, v).v && off + |chunk| <= PGSIZE
    requires var pg := Lookup(mem, t, v).page; pg in mem && IsData(mem[pg])
    requires IsRoot(own, s) && a < TRAPFRAME
    ensures var pg := Lookup(mem, t, v).page;
            var b := mem[pg].bytes;
            var lo := v * PGSIZE + off;
            View(mem[pg := Data(b[..off] + chunk + b[off + |chunk|..])], s, a) ==
            if s == t && lo <= a < lo + |chunk| then chunk[a - lo] else View(mem, s, a)
  {
    var b := mem[Lookup(mem, t, v).page].bytes;
    WriteView(mem, own, t, v, b[..off] + chunk + b[off + |chunk|..], s, a);
  }

  /** The bytes `dst` are what table `t` has at `src` on. */
  ghost predicate Reads(mem: Mem, t: nat, src: nat, dst: seq<Byte>) {
    forall i :: 0 <= i < |dst| ==> dst[i] == View(mem, t, src + i)
  }

  lemma ReadsPage(own: Owners, mem: Mem, mem': Mem, t: nat, v: nat, off: nat, chunk: seq<Byte>)
    requires IsRoot(own, t) && SameUser(own, mem, mem') && v < USERV && off + |chunk| <= PGSIZE
    requires var e := Lookup(mem', t, v);
             e.v && e.page in mem' && IsData(mem'[e.page]) && chunk == mem'[e.page].bytes[off..off + |chunk|]
    ensures Reads(mem, t, v * PGSIZE + off, chunk)
  {
  }

  lemma ReadsMore(mem: Mem, t: nat, src: nat, dst: seq<Byte>, va: nat, chunk: seq<Byte>)
    requires Reads(mem, t, src, dst) && Reads(mem, t, va, chunk) && va == src + |dst|
    ensures Reads(mem, t, src, dst + chunk)
  {
    forall i | 0 <= i < |dst + chunk| ensures (dst + chunk)[i] == View(mem, t, src + i) {
      if i >= |dst| { assert chunk[i - |dst|] == View(mem, t, va + (i - |dst|)); }
    }
  }

  /** Pages from `v` on are mapped as they were. */
  ghost predicate Untouched(mem: Mem, mem': Mem, t: nat, v: nat) {
    forall w: nat :: v <= w < MAXV ==> Lookup(mem', t, w) == Lookup(mem, t, w)
  }

  /** Page `x` belongs to the tree of table `t`: a table page of it, or a user page it maps. */
  predicate Owned(t: nat, x: nat, o: Owner) {
    x == t || ((o.Mid? || o.Low? || o.User?) && o.t == t)
  }

  lemma FreedAll(mem: Mem, own: Owners, mem1: Mem, own1: Owners, mem2: Mem, own2: Owners, t: nat, hi: nat)
    requires Sound(mem, own) && Sound(mem1, own1) && IsRoot(own, t) && Vacant(mem, t, hi, MAXV) && hi <= USERV
    requires Unmapped(mem, own, mem1, own1, t, 0, hi, Free) && Freed(mem1, own1, mem2, own2, t, Root)
    ensures forall x :: x in own ==> own2[x] == if Owned(t, x, own[x]) then Free else own[x]
    ensures forall s, v: nat :: IsRoot(own, s) && s != t && v < MAXV ==> Lookup(mem2, s, v) == Lookup(mem, s, v)
    ensures forall x :: x in own && (own2[x].User? || own2[x].Other?) ==> mem2[x] == mem[x]
  {
    assert Asked(0);
    forall x | x in own ensures own2[x] == if Owned(t, x, own[x]) then Free else own[x] {
      assert PageOk(mem, own, x);
      assert PageOk(mem1, own1, x);
    }
    forall s, v: nat | IsRoot(own, s) && s != t && v < MAXV ensures Lookup(mem2, s, v) == Lookup(mem, s, v) {
      FreedMaps(mem1, own1, mem2, own2, t, s, v);
    }
  }

  /** A turn of freewalk's loop: the subtree under entry `i` is gone and the entry is cleared. */
  lemma CutStep(mem0: Mem, own0: Owners, mem1: Mem, own1: Owners, mem2: Mem, own2: Owners, n: nat, top: Owner, i: nat,
                c: nat)
    requires Sound(mem1, own1) && n in own1 && own1[n] == top && IsTable(top) && !top.Low? && i < NPTE
    requires NoLeaves(mem1, own1, n, top) && Entry(mem1, n, i).v && Entry(mem1, n, i).page == c
    requires c in own1 && own1[c] == ChildOwner(n, top, i) && Freed(mem1, own1, mem2, own2, c, own1[c])
    requires n in own0 && own0[n] == top && FreedTo(mem0, own0, mem1, own1, n, top, i)
    requires forall k :: 0 <= k < i ==> !Entry(mem1, n, k).v
    ensures n in mem2 && IsNode(mem2[n]) && n in own2 && own2[n] == top
    ensures var mem3 := mem2[n := Node(mem2[n].ptes[i := ZERO])];
            && Sound(mem3, own2) && NoLeaves(mem3, own2, n, top) && FreedTo(mem0, own0, mem3, own2, n, top, i + 1)
            && forall k :: 0 <= k < i + 1 ==> !Entry(mem3, n, k).v
  {
    assert Asked(0);
    assert PageOk(mem1, own1, n);
    assert mem2[n] == mem1[n];
    CutChild(mem1, own1, mem2, own2, n, top, i);
    var mem3 := mem2[n := Node(mem2[n].ptes[i := ZERO])];
    FreedMore(mem0, own0, mem1, own1, mem2, own2, mem3, n, top, i, c);
    forall k | 0 <= k < i + 1 ensures !Entry(mem3, n, k).v {
      assert k < i ==> !Entry(mem1, n, k).v;
    }
  }

  /** A turn of freewalk's loop over an empty entry. */
  lemma SkipStep(mem0: Mem, own0: Owners, mem: Mem, own: Owners, n: nat, top: Owner, i: nat)
    requires TreeOk(mem, own) && n in own && own[n] == top && IsTable(top) && i < NPTE && !Entry(mem, n, i).v
    requires FreedTo(mem0, own0, mem, own, n, top, i)
    ensures FreedTo(mem0, own0, mem, own, n, top, i + 1)
  {
    forall x | x in own ensures Under(n, top, i + 1, own[x]) ==> Under(n, top, i, own[x]) {
      NothingBelow(mem, own, n, top, i, x);
    }
  }

  /** A page on the free list is in no tree: not a table of any level, not a mapped user page. */
  lemma FreeIsUnused(mem: Mem, own: Owners, head: nat, free: seq<nat>, n: nat, t: nat, v: nat)
    requires ListOk(mem, own, head, free) && TreeOk(mem, own) && n in free && IsRoot(own, t) && v < MAXV
    ensures n != t && LowOf(mem, t, v) != n
    ensures Entry(mem, t, Px2(v)).v ==> Entry(mem, t, Px2(v)).page != n
    ensures v < USERV && Lookup(mem, t, v).v ==> Lookup(mem, t, v).page != n
  {
    var k :| 0 <= k < |free| && free[k] == n;
    if Entry(mem, t, Px2(v)).v { MidIs(mem, own, t, Px2(v)); }
    if LowOf(mem, t, v) != 0 { LowIs(mem, own, t, v); }
    if Lookup(mem, t, v).v { UserIs(mem, own, t, v); }
  }

  lemma CanMapFresh(mem: Mem, own: Owners, n: nat, bytes: seq<Byte>, t: nat, v: nat, perm: Perm)
    requires n in own && own[n] == Free && mem.Keys == own.Keys && SameMaps(own, mem, mem[n := Data(bytes)])
             && IsRoot(own, t)
    requires v < USERV && !Lookup(mem, t, v).v && |bytes| == PGSIZE && Pte(true, n, perm).Leaf()
    ensures CanMap(mem[n := Data(bytes)], own[n := Other], t, v, 1, n, perm)
  {
  }

  lemma FillDone(mem: Mem, own: Owners, n: nat, bytes: seq<Byte>, mem2: Mem, own2: Owners, t: nat, v: nat, perm: Perm)
    requires n in own && own[n] == Free && mem.Keys == own.Keys && SameMaps(own, mem, mem[n := Data(bytes)])
             && IsRoot(own, t) && v < USERV
    requires Mapped(mem[n := Data(bytes)], own[n := Other], mem2, own2, t, v, 1, n, perm)
    ensures Filled(mem, own, mem2, own2, t, v, bytes, perm) && Lookup(mem2, t, v).page == n
  {
  }

  lemma FillFailed(mem: Mem, own: Owners, n: nat, bytes: seq<Byte>, mem2: Mem, own2: Owners, pg: Page, t: nat, v: nat,
                   perm: Perm)
    requires n in own && own[n] == Free && mem.Keys == own.Keys && SameMaps(own, mem, mem[n := Data(bytes)])
             && IsRoot(own, t)
    requires Mapped(mem[n := Data(bytes)], own[n := Other], mem2, own2, t, v, 0, n, perm)
    requires TreeOk(mem2, own2) && |bytes| == PGSIZE && pg.Run?
    ensures n in own2 && own2[n] == Other
    ensures TreeOk(mem2[n := pg], own2[n := Free]) && Grew(mem, own, mem2[n := pg], own2[n := Free], t)
  {
    Handover(mem2, own2, n, Free, pg);
    assert forall s :: IsRoot(own, s) ==> IsRoot(own[n := Other], s) && IsRoot(own2, s);
  }

  /** Removing the range that has been filled so far leaves at most new tables behind. */
  lemma UndoRange(mem: Mem, own: Owners, mem1: Mem, own1: Owners, mem2: Mem, own2: Owners, t: nat, lo: nat, hi: nat)
    requires Sound(mem, own) && Sound(mem1, own1) && IsRoot(own, t) && hi <= MAXV && Vacant(mem, t, lo, hi)
    requires Keeps(mem, own, mem1, own1, t, true) && SameOutside(own, mem, mem1, t, lo, hi)
    requires Unmapped(mem1, own1, mem2, own2, t, lo, hi, Free)
    ensures Grew(mem, own, mem2, own2, t)
  {
    assert Asked(0);
    forall x | x in own && own[x] == Free && own1[x].User? ensures lo <= own1[x].v < hi {
      assert PageOk(mem1, own1, x);
      if !(lo <= own1[x].v < hi) {
        UserIs(mem, own, t, own1[x].v);
      }
    }
    forall x | x in own && own[x].User? ensures !UserIn(own[x], t, lo, hi) {
      assert PageOk(mem, own, x);
    }
    forall s, w: nat | IsRoot(own, s) && w < MAXV ensures Lookup(mem2, s, w) == Lookup(mem, s, w) {
      if s == t && lo <= w < hi { UnmappedIsZero(mem, own, t, w); }
    }
  }

  /** The same after a last page could not be added. */
  lemma UndoFill(mem: Mem, own: Owners, mem1: Mem, own1: Owners, mem2: Mem, own2: Owners, mem3: Mem, own3: Owners,
                 t: nat, lo: nat, hi: nat)
    requires Sound(mem, own) && Sound(mem2, own2) && IsRoot(own, t) && hi <= MAXV && Vacant(mem, t, lo, hi)
    requires Keeps(mem, own, mem1, own1, t, true) && SameOutside(own, mem, mem1, t, lo, hi)
    requires Grew(mem1, own1, mem2, own2, t) && Unmapped(mem2, own2, mem3, own3, t, lo, hi, Free)
    ensures Grew(mem, own, mem3, own3, t)
  {
    assert Asked(0);
    KeepsTrans(mem, own, mem1, own1, mem2, own2, t, false);
    UndoRange(mem, own, mem2, own2, mem3, own3, t, lo, hi);
  }

  lemma GrewTrans(mem: Mem, own: Owners, mem1: Mem, own1: Owners, mem2: Mem, own2: Owners, t: nat)
    requires Grew(mem, own, mem1, own1, t) && Grew(mem1, own1, mem2, own2, t)
    ensures Grew(mem, own, mem2, own2, t)
  {
  }

  class Kernel {
    var mem: Mem
    var freelist: nat
    ghost var own: Owners
    ghost var free: seq<nat>

    ghost predicate Valid()
      reads this
    {
      && own.Keys == mem.Keys && 0 !in own
      && Sound(mem, own) && forall k: int {:trigger Asked(k)} :: Asked(k) ==> ListOk(mem, own, freelist, free)
    }

    lemma ValidIs()
      requires Valid()
      ensures ListOk(mem, own, freelist, free) && TreeOk(mem, own)
    {
      assert Asked(0);
    }

    // -------------------------------------------------------------- kalloc.c

    /** kfree: push the page on the free list. */
    method Kfree(n: nat)
      requires ListOk(mem, own, freelist, free) && n in own && own[n] != Free
      modifies this
      ensures ListOk(mem, own, freelist, free)
      ensures mem == old(mem)[n := Run(old(freelist))] && own == old(own)[n := Free] && free == [n] + old(free)
    {
      ListPush(mem, own, freelist, free, n);
      mem := mem[n := Run(freelist)];
      freelist := n;
      free, own := [n] + free, own[n := Free];
    }

    /** kalloc: pop a page, 0 when there is none. */
    method Kalloc() returns (n: nat)
      requires ListOk(mem, own, freelist, free)
      modifies this
      ensures ListOk(mem, own, freelist, free)
      ensures n == 0 <==> old(free) == []
      ensures n == 0 ==> mem == old(mem) && own == old(own) && free == old(free)
      ensures n != 0 ==> n in old(own) && old(own)[n] == Free && free == old(free)[1..]
      ensures n != 0 ==> mem == old(mem)[n := Data(FIVES)] && own == old(own)[n := Other]
    {
      n := freelist;
      assert free != [] ==> free[0] in own;
      if n != 0 {
        forall x | x in own && own[x] == Free && x != n ensures x in free[1..] {
          assert x in free;
        }
        freelist := mem[n].next;
        mem := mem[n := Data(FIVES)];
        free, own := free[1..], own[n := Other];
      }
    }

    /** Boot: the pages wholly inside the range, all in the hands of the caller. */
    constructor Boot(lo: nat, hi: nat)
      requires lo > 0
      ensures ListOk(mem, own, freelist, free)
      ensures forall n: nat :: n in own <==> InPool(lo, hi, n)
      ensures forall n :: n in own ==> own[n] == Other
    {
      mem := map n: nat | n < hi && InPool(lo, hi, n) :: Data(FIVES);
      own := map n: nat | n < hi && InPool(lo, hi, n) :: Other;
      freelist, free := 0, [];
    }

    /** freerange: every whole page between the two addresses goes on the free list. */
    method Freerange(start: nat, end: nat)
      requires ListOk(mem, own, freelist, free)
      requires forall n: nat :: n in own <==> InPool(RoundUp(start) / PGSIZE, end / PGSIZE, n)
      requires forall n :: n in own ==> own[n] == Other
      modifies this
      ensures Valid() && own.Keys == old(own).Keys
      ensures forall n :: n in own ==> own[n] == Free
    {
      ghost var lo, hi := RoundUp(start) / PGSIZE, end / PGSIZE;
      var p := RoundUp(start) / PGSIZE;
      WholePages(p, end);
      while (p + 1) * PGSIZE <= end
        invariant lo <= p && ((p + 1) * PGSIZE <= end <==> p < hi)
        invariant ListOk(mem, own, freelist, free) && own.Keys == old(own).Keys
        invariant forall n :: n in own ==> own[n] == if n < p then Free else Other
      {
        assert InPool(lo, hi, p);
        Kfree(p);
        p := p + 1;
        WholePages(p, end);
      }
      assert forall n: nat :: n in own ==> InPool(lo, hi, n);
      FreeOk(mem, own, freelist, free);
    }

    /** A page from kalloc, with the tree undisturbed. */
    method AllocPage() returns (n: nat)
      requires Valid()
      modifies this
      ensures Valid()
      ensures n == 0 <==> old(free) == []
      ensures n == 0 ==> mem == old(mem) && own == old(own) && free == old(free)
      ensures n != 0 ==> n in old(own) && old(own)[n] == Free && free == old(free)[1..]
      ensures n != 0 ==> mem == old(mem)[n := Data(FIVES)] && own == old(own)[n := Other]
                         && SameMaps(own, old(mem), mem)
    {
      ValidIs();
      ghost var mem0, own0 := mem, own;
      n := Kalloc();
      if n != 0 {
        assert PageOk(mem0, own0, n);
        Handover(mem0, own0, n, Other, Data(FIVES));
      }
    }

    // ------------------------------------------------------------------ vm.c

    /** uvmcreate: an empty table, 0 when out of memory. */
    method UvmCreate() returns (t: nat)
      requires Valid()
      modifies this
      ensures Valid()
      ensures t == 0 <==> old(free) == []
      ensures t == 0 ==> mem == old(mem) && own == old(own) && free == old(free)
      ensures t != 0 ==> t in old(own) && old(own)[t] == Free && own == old(own)[t := Root]
                         && SameMaps(old(own), old(mem), mem)
      ensures t != 0 ==> forall v: nat :: !Lookup(mem, t, v).v
    {
      t := AllocPage();
      if t != 0 {
        ValidIs();
        NewRoot(mem, own, t);
        ListFrame(mem, own, mem[t := Node(EMPTY)], own[t := Root], freelist, free);
        mem := mem[t := Node(EMPTY)];
        own := own[t := Root];
      }
    }

    /** One level of walk: follow entry `i` of table page `p`, or link a fresh table there. */
    method Descend(t: nat, p: nat, i: nat, alloc: bool) returns (q: nat)
      requires Valid() && IsRoot(own, t) && p in own && i < NPTE
      requires p == t || (own[p].Mid? && own[p].t == t)
      requires p == t ==> i < HALF
      modifies this
      ensures Valid() && Grew(old(mem), old(own), mem, own, t)
      ensures !alloc || Entry(old(mem), p, i).v ==> mem == old(mem) && own == old(own) && free == old(free)
      ensures q == if Entry(mem, p, i).v then Entry(mem, p, i).page else 0
      ensures q != 0 ==> q in own && own[q] == if p == t then Mid(t, i) else Low(t, old(own)[p].i, i)
      ensures alloc && q == 0 ==> free == [] == old(free)
      ensures |free| + 1 >= |old(free)|
      ensures p in own && own[p] == old(own)[p]
      ensures p != t ==> forall k: nat :: Entry(mem, t, k) == Entry(old(mem), t, k)
    {
      ValidIs();
      assert PageOk(mem, own, p);
      var e := mem[p].ptes[i];
      if e.v {
        q := e.page;
        return;
      }
      if !alloc { return 0; }
      q := AllocPage();
      if q != 0 {
        LinkTable(t, p, i, q);
      }
    }

    /** Clear the fresh page `q` and make entry `i` of table page `p` point to it. */
    method LinkTable(t: nat, p: nat, i: nat, q: nat)
      requires Valid() && IsRoot(own, t) && p in own && i < NPTE && !Entry(mem, p, i).v
      requires p == t || (own[p].Mid? && own[p].t == t)
      requires p == t ==> i < HALF
      requires q in own && own[q] == Other && !mem[q].Node?
      modifies this`mem, this`own
      ensures Valid() && SameMaps(old(own), old(mem), mem) && mem.Keys == old(mem).Keys
      ensures own == old(own)[q := if p == t then Mid(t, i) else Low(t, old(own)[p].i, i)]
      ensures forall x :: x in mem && x != p && x != q ==> mem[x] == old(mem)[x]
      ensures Entry(mem, p, i) == Pte(true, q, NONE)
    {
      ValidIs();
      assert PageOk(mem, own, p);
      ghost var o := if p == t then Mid(t, i) else Low(t, own[p].i, i);
      var e := Pte(true, q, NONE);
      if p == t {
        AddMid(mem, own, t, i, q, e);
      } else {
        AddLow(mem, own, t, own[p].i, i, p, q, e);
      }
      ListFrame(mem, own, mem[q := Node(EMPTY)][p := Node(mem[p].ptes[i := e])], own[q := o], freelist, free);
      mem := mem[q := Node(EMPTY)];
      mem := mem[p := Node(mem[p].ptes[i := e])];
      own := own[q := o];
    }

    /** walk: the third-level table and index for `va`; table 0 when there is none. */
    method Walk(t: nat, va: nat, alloc: bool) returns (p: nat, i: nat)
      requires Valid() && IsRoot(own, t) && va < MAXVA
      modifies this
      ensures Valid() && Grew(old(mem), old(own), mem, own, t)
      ensures !alloc ==> mem == old(mem) && own == old(own) && free == old(free)
      ensures p == LowOf(mem, t, va / PGSIZE) && i == Px0(va / PGSIZE)
      ensures p != 0 ==> p in mem && IsNode(mem[p])
      ensures alloc && p == 0 ==> free == [] && |old(free)| <= 1
      ensures |free| + 2 >= |old(free)|
    {
      ghost var v: nat := va / PGSIZE;
      PxOfPage(va);
      p := t;
      i := PX(0, va);
      var level := 2;
      while level > 0
        invariant 0 <= level <= 2
        invariant Valid() && IsRoot(own, t) && Grew(old(mem), old(own), mem, own, t)
        invariant !alloc ==> mem == old(mem) && own == old(own) && free == old(free)
        invariant |free| + 2 - level >= |old(free)|
        invariant level == 2 ==> p == t
        invariant level == 1 ==> p in own && own[p] == Mid(t, Px2(v)) && Entry(mem, t, Px2(v)).v
                                 && Entry(mem, t, Px2(v)).page == p
        invariant level == 0 ==> p == LowOf(mem, t, v) && p != 0
      {
        ghost var mem0, own0 := mem, own;
        var q := Descend(t, p, PX(level, va), alloc);
        GrewTrans(old(mem), old(own), mem0, own0, mem, own, t);
        if q == 0 {
          p := 0;
          return;
        }
        p := q;
        level := level - 1;
      }
      ValidIs();
      LowIs(mem, own, t, v);
    }

    /** The entry for `va`, zero when walk finds no table for it. */
    method ReadPte(t: nat, va: nat, ghost v: nat) returns (e: Pte)
      requires Valid() && IsRoot(own, t) && v < MAXV && va / PGSIZE == v
      modifies this
      ensures Valid() && mem == old(mem) && own == old(own) && free == old(free)
      ensures e == Lookup(mem, t, v)
      ensures e.v ==> e.Leaf() && (v < USERV ==> e.page in mem && IsData(mem[e.page]) && own[e.page] == User(t, v))
      ensures e.v && v >= USERV ==> !e.perm.u
    {
      var p, i := Walk(t, va, false);
      e := if p == 0 then ZERO else mem[p].ptes[i];
      if e.v {
        ValidIs();
        UserIs(mem, own, t, v);
      }
    }

    /** Store a valid leaf entry for page `v` in its third-level table. */
    method StoreLeaf(ghost t: nat, ghost v: nat, p: nat, i: nat, e: Pte)
      requires Valid() && IsRoot(own, t) && v < MAXV && p == LowOf(mem, t, v) != 0 && i == Px0(v)
               && !Lookup(mem, t, v).v
      requires e.v && e.Leaf()
      requires if v < USERV then e.page in own && own[e.page] == Other && IsData(mem[e.page]) else !e.perm.u
      modifies this`mem, this`own
      ensures Valid() && mem.Keys == old(mem).Keys
      ensures own == if v < USERV then old(own)[e.page := User(t, v)] else old(own)
      ensures Lookup(mem, t, v) == e && SameMapsBut(old(own), old(mem), mem, t, v)
      ensures forall x :: x in mem && x != p ==> mem[x] == old(mem)[x]
      ensures p in old(own) && old(own)[p].Low?
    {
      ValidIs();
      LowIs(mem, own, t, v);
      PutLeaf(mem, own, t, v, e);
      ghost var own' := if v < USERV then own[e.page := User(t, v)] else own;
      ListFrame(mem, own, mem[p := Node(mem[p].ptes[i := e])], own', freelist, free);
      mem := mem[p := Node(mem[p].ptes[i := e])];
      own := own';
    }

    /** One turn of mappages' loop. */
    method MapPage(t: nat, a: nat, pg: nat, perm: Perm, ghost v: nat) returns (ok: bool)
      requires Valid() && IsRoot(own, t) && a / PGSIZE == v && CanMap(mem, own, t, v, 1, pg, perm)
      modifies this
      ensures Valid() && Mapped(old(mem), old(own), mem, own, t, v, if ok then 1 else 0, pg, perm)
      ensures |free| + 2 >= |old(free)| && (!ok ==> free == [] && |old(free)| <= 1)
    {
      var p, i := Walk(t, a, true);
      if p == 0 {
        MappedZero(old(mem), old(own), mem, own, t, v, pg, perm);
        return false;
      }
      ghost var mem1, own1 := mem, own;
      StoreLeaf(t, v, p, i, Pte(true, pg, perm));
      MappedOne(old(mem), old(own), mem1, own1, mem, own, t, v, pg, perm);
      return true;
    }

    /** mappages: map `size` bytes at `va` to the physical pages from `pg` on. On failure a prefix is mapped. */
    method MapPages(t: nat, va: nat, size: nat, pg: nat, perm: Perm) returns (ok: bool, ghost k: nat)
      requires Valid() && IsRoot(own, t)
      requires va % PGSIZE == 0 && size % PGSIZE == 0 && size > 0
      requires CanMap(mem, own, t, va / PGSIZE, size / PGSIZE, pg, perm)
      modifies this
      ensures Valid() && Mapped(old(mem), old(own), mem, own, t, va / PGSIZE, k, pg, perm)
      ensures ok ==> k == size / PGSIZE && |free| + 2 * k >= |old(free)|
      ensures !ok ==> k < size / PGSIZE && free == [] && |old(free)| <= 2 * k + 1
    {
      ghost var mem0, own0 := mem, own;
      ghost var v, n := va / PGSIZE, size / PGSIZE;
      var a, last, b := va, va + size - PGSIZE, pg;
      k := 0;
      while true
        invariant 0 <= k < n && a == (v + k) * PGSIZE && b == pg + k && |free| + 2 * k >= |old(free)|
        invariant Valid() && IsRoot(own, t) && Mapping(mem0, own0, mem, own, t, v, k, pg, perm)
        decreases n - k
      {
        ghost var mem1, own1 := mem, own;
        ghost var w := v + k;
        CanMapNext(mem0, own0, mem, own, t, v, n, k, w, pg, b, perm);
        ok := MapPage(t, a, b, perm, w);
        if !ok {
          MappingMore(mem0, own0, mem1, own1, mem, own, t, v, k, w, 0, pg, b, perm);
          assert Sought(0);
          return;
        }
        MappingMore(mem0, own0, mem1, own1, mem, own, t, v, k, w, 1, pg, b, perm);
        k := k + 1;
        if a == last {
          assert Sought(0);
          return;
        }
        a, b := a + PGSIZE, b + 1;
      }
    }

    /** One turn of uvmunmap's loop. */
    method UnmapPage(t: nat, a: nat, doFree: bool, ghost v: nat)
      requires Valid() && IsRoot(own, t) && a / PGSIZE == v && v < MAXV && (doFree ==> v < USERV)
      modifies this
      ensures Valid() && Unmapped(old(mem), old(own), mem, own, t, v, v + 1, if doFree then Free else Other)
    {
      var p, i := Walk(t, a, false);
      if p == 0 || !mem[p].ptes[i].v {
        assert !Lookup(mem, t, v).v;
        UnmappedNone(mem, own, t, v, if doFree then Free else Other);
        return;
      }
      ValidIs();
      UserIs(mem, own, t, v);
      LowIs(mem, own, t, v);
      ghost var mem0, own0 := mem, own;
      var pg := mem[p].ptes[i].page;
      if doFree {
        Kfree(pg);
      }
      ghost var own' := if doFree then own else if v < USERV then own[pg := Other] else own;
      ghost var mem' := mem[p := Node(mem[p].ptes[i := ZERO])];
      ListFrame(mem, own, mem', own', freelist, free);
      UnmappedOne(mem0, own0, mem', own', t, v, if doFree then Free else Other);
      mem := mem[p := Node(mem[p].ptes[i := ZERO])];
      own := own';
    }

    /** uvmunmap: unmap `n` pages from `va` on; it is fine if some were not mapped. */
    method UvmUnmap(t: nat, va: nat, n: nat, doFree: bool)
      requires Valid() && IsRoot(own, t) && va % PGSIZE == 0
      requires va / PGSIZE + n <= if doFree then USERV else MAXV
      modifies this
      ensures Valid() && Unmapped(old(mem), old(own), mem, own, t, va / PGSIZE, va / PGSIZE + n,
                                  if doFree then Free else Other)
    {
      ghost var o := if doFree then Free else Other;
      ghost var v: nat := va / PGSIZE;
      ghost var k := v;
      var a := va;
      while a < va + n * PGSIZE
        invariant v <= k <= v + n && a == k * PGSIZE
        invariant Valid() && IsRoot(own, t) && Unmapped(old(mem), old(own), mem, own, t, v, k, o)
      {
        ghost var mem0, own0 := mem, own;
        UnmapPage(t, a, doFree, k);
        UnmappedMore(old(mem), old(own), mem0, own0, mem, own, t, v, k, k + 1, o);
        a, k := a + PGSIZE, k + 1;
      }
    }

    /** uvmdealloc: shrink the user memory from oldsz to newsz. */
    method UvmDealloc(t: nat, oldsz: nat, newsz: nat) returns (r: nat)
      requires Valid() && IsRoot(own, t) && oldsz <= TRAPFRAME
      modifies this
      ensures Valid() && r == if newsz >= oldsz then oldsz else newsz
      ensures Unmapped(old(mem), old(own), mem, own, t, RoundUp(r) / PGSIZE, RoundUp(oldsz) / PGSIZE, Free)
    {
      if newsz >= oldsz {
        return oldsz;
      }
      if RoundUp(newsz) < RoundUp(oldsz) {
        var n := (RoundUp(oldsz) - RoundUp(newsz)) / PGSIZE;
        UvmUnmap(t, RoundUp(newsz), n, true);
      }
      return newsz;
    }

    /** A page from kalloc with the given contents, 0 when out of memory. */
    method FreshPage(bytes: seq<Byte>) returns (n: nat)
      requires Valid() && |bytes| == PGSIZE
      modifies this
      ensures Valid()
      ensures n == 0 ==> mem == old(mem) && own == old(own) && free == [] == old(free)
      ensures n != 0 ==> n in old(own) && old(own)[n] == Free && own == old(own)[n := Other]
                         && |free| == |old(free)| - 1
      ensures n != 0 ==> mem == old(mem)[n := Data(bytes)] && SameMaps(old(own), old(mem), mem)
    {
      n := AllocPage();
      if n != 0 {
        ValidIs();
        PutData(mem, own, n, bytes);
        ListFrame(mem, own, mem[n := Data(bytes)], own, freelist, free);
        mem := mem[n := Data(bytes)];
      }
    }

    /** A fresh page mapped at `a`: kalloc, fill, mappages, and kfree if that fails. 0 when it fails. */
    method FillPage(t: nat, a: nat, bytes: seq<Byte>, perm: Perm, ghost v: nat) returns (n: nat)
      requires Valid() && IsRoot(own, t) && a == v * PGSIZE && v < USERV && !Lookup(mem, t, v).v
      requires |bytes| == PGSIZE && Pte(true, 0, perm).Leaf()
      modifies this
      ensures Valid()
      ensures n != 0 ==> Filled(old(mem), old(own), mem, own, t, v, bytes, perm) && Lookup(mem, t, v).page == n
                         && |free| + 3 >= |old(free)|
      ensures n == 0 ==> Grew(old(mem), old(own), mem, own, t) && |free| <= 1 && |old(free)| <= 2
    {
      ghost var mem0, own0 := mem, own;
      n := FreshPage(bytes);
      if n == 0 {
        return;
      }
      CanMapFresh(mem0, own0, n, bytes, t, v, perm);
      assert a / PGSIZE == v && PGSIZE / PGSIZE == 1;
      ghost var k;
      var ok;
      ok, k := MapPages(t, a, PGSIZE, n, perm);
      if ok {
        FillDone(mem0, own0, n, bytes, mem, own, t, v, perm);
      } else {
        ValidIs();
        FillFailed(mem0, own0, n, bytes, mem, own, Run(freelist), t, v, perm);
        Kfree(n);
        n := 0;
      }
    }

    /** uvmalloc: grow the user memory from oldsz to newsz with zero pages; undo everything when memory runs out. */
    method UvmAlloc(t: nat, oldsz: nat, newsz: nat, xperm: Perm) returns (r: nat, ghost ok: bool)
      requires Valid() && IsRoot(own, t) && newsz <= TRAPFRAME
      requires Vacant(mem, t, RoundUp(oldsz) / PGSIZE, RoundUp(newsz) / PGSIZE)
      modifies this
      ensures Valid()
      ensures newsz < oldsz ==> ok && r == oldsz && mem == old(mem) && own == old(own)
      ensures newsz >= oldsz && ok ==>
        r == newsz && Zeroed(old(mem), old(own), mem, own, t, RoundUp(oldsz) / PGSIZE, RoundUp(newsz) / PGSIZE,
                             Perm(true, xperm.w, xperm.x, true))
      ensures !ok ==> r == 0 && Grew(old(mem), old(own), mem, own, t)
      ensures !ok ==> |old(free)| < 3 * (RoundUp(newsz) / PGSIZE - RoundUp(oldsz) / PGSIZE)
    {
      if newsz < oldsz {
        return oldsz, true;
      }
      ghost var mem0, own0 := mem, own;
      ghost var lo, hi := RoundUp(oldsz) / PGSIZE, RoundUp(newsz) / PGSIZE;
      ghost var k := lo;
      var perm := Perm(true, xperm.w, xperm.x, true);
      var a := RoundUp(oldsz);
      while a < newsz
        invariant lo <= k <= hi && a == k * PGSIZE && |free| + 3 * (k - lo) >= |old(free)|
        invariant Valid() && IsRoot(own, t) && Zeroed(mem0, own0, mem, own, t, lo, k, perm)
      {
        ghost var mem1, own1 := mem, own;
        PageCount(k, newsz);
        var n := FillPage(t, a, ZEROS, perm, k);
        if n == 0 {
          ghost var mem2, own2 := mem, own;
          r := UvmDealloc(t, a, RoundUp(oldsz));
          UndoFill(mem0, own0, mem1, own1, mem2, own2, mem, own, t, lo, k);
          return 0, false;
        }
        ZeroedMore(mem0, own0, mem1, own1, mem, own, t, lo, k, perm, ZEROS);
        a, k := a + PGSIZE, k + 1;
      }
      PageCount(k, newsz);
      return newsz, true;
    }

    /** freewalk: free a table page and every table page below it. No leaf may be left. */
    method Freewalk(n: nat, ghost top: Owner)
      requires Valid() && n in own && own[n] == top && IsTable(top) && NoLeaves(mem, own, n, top)
      modifies this
      ensures ListOk(mem, own, freelist, free) && Freed(old(mem), old(own), mem, own, n, top)
      ensures top.Root? ==> Valid()
      decreases Height(top)
    {
      ghost var mem0, own0 := mem, own;
      var i := 0;
      while i < NPTE
        invariant 0 <= i <= NPTE
        invariant Valid() && n in own && own[n] == top && NoLeaves(mem, own, n, top)
        invariant FreedTo(mem0, own0, mem, own, n, top, i)
        invariant forall k :: 0 <= k < i ==> !Entry(mem, n, k).v
      {
        ValidIs();
        EntryIsTable(mem, own, n, top, i);
        var pte := mem[n].ptes[i];
        if pte.v && !pte.Leaf() {
          FreeChild(n, i, pte.page, top, mem0, own0);
        } else if pte.v {
          assert false;
        } else {
          SkipStep(mem0, own0, mem, own, n, top, i);
        }
        i := i + 1;
      }
      ValidIs();
      if top.Root? {
        DropRoot(mem, own, n, Run(freelist));
      }
      Kfree(n);
    }

    /** The body of freewalk's loop for an entry that points to a lower-level table. */
    method FreeChild(n: nat, i: nat, c: nat, ghost top: Owner, ghost mem0: Mem, ghost own0: Owners)
      requires Valid() && n in own && own[n] == top && IsTable(top) && !top.Low? && i < NPTE
               && NoLeaves(mem, own, n, top)
      requires IsNode(mem[n]) && mem[n].ptes[i].v && mem[n].ptes[i].page == c
      requires c in own && own[c] == ChildOwner(n, top, i) && NoLeaves(mem, own, c, own[c])
      requires n in own0 && own0[n] == top && FreedTo(mem0, own0, mem, own, n, top, i)
      requires forall k :: 0 <= k < i ==> !Entry(mem, n, k).v
      modifies this
      ensures Valid() && n in own && own[n] == top && NoLeaves(mem, own, n, top)
      ensures FreedTo(mem0, own0, mem, own, n, top, i + 1)
      ensures forall k :: 0 <= k < i + 1 ==> !Entry(mem, n, k).v
      decreases Height(top), 0
    {
      ghost var mem1, own1 := mem, own;
      ValidIs();
      Freewalk(c, own[c]);
      CutStep(mem0, own0, mem1, own1, mem, own, n, top, i, c);
      ListFrame(mem, own, mem[n := Node(mem[n].ptes[i := ZERO])], own, freelist, free);
      mem := mem[n := Node(mem[n].ptes[i := ZERO])];
    }

    /** uvmcopy: give table `t` a copy of the first `sz` bytes of table `s`; undo everything when memory runs out. */
    method UvmCopy(s: nat, t: nat, sz: nat) returns (ok: bool)
      requires Valid() && IsRoot(own, s) && IsRoot(own, t) && s != t && sz <= TRAPFRAME
      requires Vacant(mem, t, 0, RoundUp(sz) / PGSIZE)
      modifies this
      ensures Valid()
      ensures ok ==> Copied(old(mem), old(own), mem, own, s, t, RoundUp(sz) / PGSIZE)
      ensures !ok ==> Grew(old(mem), old(own), mem, own, t) && |old(free)| < 3 * (RoundUp(sz) / PGSIZE)
    {
      ghost var mem0, own0 := mem, own;
      ghost var hi, k := RoundUp(sz) / PGSIZE, 0;
      var i := 0;
      while i < sz
        invariant i == k * PGSIZE && k <= hi && |free| + 3 * k >= |old(free)|
        invariant Valid() && IsRoot(own, s) && IsRoot(own, t) && Copied(mem0, own0, mem, own, s, t, k)
      {
        ghost var mem1, own1 := mem, own;
        PageCount(k, sz);
        ok := CopyPage(s, t, i, k, mem0, own0);
        if !ok {
          ghost var mem2, own2 := mem, own;
          assert i / PGSIZE == k;
          UvmUnmap(t, 0, i / PGSIZE, true);
          UndoFill(mem0, own0, mem1, own1, mem2, own2, mem, own, t, 0, k);
          return false;
        }
        i, k := i + PGSIZE, k + 1;
      }
      PageCount(k, sz);
      return true;
    }

    /** One turn of uvmcopy's loop; false when memory runs out. */
    method CopyPage(s: nat, t: nat, i: nat, ghost k: nat, ghost mem0: Mem, ghost own0: Owners) returns (ok: bool)
      requires Valid() && IsRoot(own, s) && IsRoot(own, t) && i == k * PGSIZE && k < USERV
      requires Sound(mem0, own0) && IsRoot(own0, s) && IsRoot(own0, t) && s != t && !Lookup(mem0, t, k).v
      requires Copied(mem0, own0, mem, own, s, t, k)
      modifies this
      ensures Valid() && IsRoot(own, s) && IsRoot(own, t)
      ensures ok ==> Copied(mem0, own0, mem, own, s, t, k + 1) && |free| + 3 >= |old(free)|
      ensures !ok ==> Grew(old(mem), old(own), mem, own, t) && |free| <= 1 && |old(free)| <= 2
    {
      ghost var mem1, own1 := mem, own;
      var e := ReadPte(s, i, k);
      assert e == Lookup(mem0, s, k);
      if !e.v {
        CopiedHole(mem0, own0, mem, own, s, t, k);
        return true;
      }
      var bytes := mem[e.page].bytes;
      SameUserPage(mem0, own0, mem, own, s, t, k, bytes);
      var n := FillPage(t, i, bytes, e.perm, k);
      if n != 0 {
        CopiedMore(mem0, own0, mem1, own1, mem, own, s, t, k, bytes, e.perm);
      }
      return n != 0;
    }

    /** vmfault: map a zero page for an address below `sz` that has none; 0 when it cannot. */
    method VmFault(t: nat, va: nat, sz: nat) returns (pg: nat)
      requires Valid() && IsRoot(own, t) && sz <= TRAPFRAME
      modifies this
      ensures Valid() && SameUser(old(own), old(mem), mem)
      ensures pg != 0 ==> va < sz && !Lookup(old(mem), t, va / PGSIZE).v
                          && Faulted(old(mem), old(own), mem, own, t, va / PGSIZE)
      ensures pg != 0 ==> pg == Lookup(mem, t, va / PGSIZE).page
      ensures pg == 0 ==> Grew(old(mem), old(own), mem, own, t)
                          && (va >= sz || Lookup(old(mem), t, va / PGSIZE).v || (|free| <= 1 && |old(free)| <= 2))
    {
      if va >= sz {
        return 0;
      }
      ghost var mem0, own0 := mem, own;
      ghost var v: nat := va / PGSIZE;
      var a := RoundDown(va);
      var e := ReadPte(t, a, v);
      if e.v {
        return 0;
      }
      var n := FillPage(t, a, ZEROS, Perm(true, true, false, true), v);
      if n == 0 {
        GrewView(mem0, own0, mem, own, t);
        return 0;
      }
      assert ZeroAt(mem, t, v, Perm(true, true, false, true));
      FaultedView(mem0, own0, mem, own, t, v);
      return n;
    }

    /** The page that copyin and copyout use for `va0`: walkaddr, then vmfault. 0 when there is none. */
    method UserPage(t: nat, va0: nat, sz: nat, ghost v: nat) returns (pg: nat)
      requires Valid() && IsRoot(own, t) && sz <= TRAPFRAME && va0 == v * PGSIZE
      modifies this
      ensures Valid() && IsRoot(own, t) && SameUser(old(own), old(mem), mem) && Passes(old(own), own, t)
      ensures forall w: nat :: w < MAXV && w != v ==> Lookup(mem, t, w) == Lookup(old(mem), t, w)
      ensures pg != 0 ==> v < USERV && Lookup(mem, t, v).v && Lookup(mem, t, v).page == pg
      ensures pg != 0 ==> pg in mem && IsData(mem[pg]) && own[pg] == User(t, v)
      ensures pg != 0 ==> Lookup(mem, t, v).perm.w == (!Lookup(old(mem), t, v).v || Lookup(old(mem), t, v).perm.w)
      ensures pg != 0 ==> !Refused(old(mem), t, sz, v)
      ensures pg == 0 ==> Refused(old(mem), t, sz, v) || (Missing(old(mem), t, v) && |free| <= 1)
    {
      pg := 0;
      if va0 < MAXVA {
        var e := ReadPte(t, va0, v);
        if e.v && e.perm.u {
          return e.page;
        }
      }
      assert va0 / PGSIZE == v;
      pg := VmFault(t, va0, sz);
      if pg != 0 {
        ValidIs();
        UserIs(mem, own, t, v);
      }
    }

    /** memmove into the user page at `v` of table `t`. */
    method WriteBytes(ghost t: nat, pg: nat, off: nat, chunk: seq<Byte>, ghost v: nat)
      requires Valid() && IsRoot(own, t) && v < USERV && Lookup(mem, t, v).v && Lookup(mem, t, v).page == pg
      requires pg in mem && IsData(mem[pg]) && own[pg] == User(t, v) && off + |chunk| <= PGSIZE
      modifies this`mem
      ensures Valid() && SameMaps(own, old(mem), mem)
      ensures Wrote(own, old(mem), mem, t, v * PGSIZE + off, chunk, |chunk|)
    {
      ValidIs();
      var b := mem[pg].bytes;
      var bytes := b[..off] + chunk + b[off + |chunk|..];
      PutData(mem, own, pg, bytes);
      ListFrame(mem, own, mem[pg := Data(bytes)], own, freelist, free);
      WroteChunk(mem, own, t, v, off, chunk);
      mem := mem[pg := Data(bytes)];
    }

    /** copyin: read `len` bytes at `srcva`; on failure `bad` is the page that could not be read. */
    method CopyIn(t: nat, srcva: nat, len: nat, sz: nat) returns (ok: bool, dst: seq<Byte>, ghost bad: nat)
      requires Valid() && IsRoot(own, t) && sz <= TRAPFRAME
      modifies this
      ensures Valid() && SameUser(old(own), old(mem), mem) && Passes(old(own), own, t)
      ensures ok ==> |dst| == len && (len > 0 ==> srcva + len <= TRAPFRAME)
      ensures ok ==> Reads(old(mem), t, srcva, dst)
      ensures ok ==> forall w: nat :: srcva / PGSIZE <= w && w * PGSIZE < srcva + len && len > 0 ==>
                       !Refused(old(mem), t, sz, w)
      ensures !ok ==> srcva / PGSIZE <= bad < (srcva + len + PGSIZE - 1) / PGSIZE
                      && (Refused(old(mem), t, sz, bad) || (Missing(old(mem), t, bad) && |free| <= 1))
    {
      ghost var mem0, own0 := mem, own;
      bad := 0;
      dst := [];
      var va := srcva;
      ghost var v: nat := va / PGSIZE;
      while |dst| < len
        invariant |dst| <= len && (|dst| > 0 ==> srcva + |dst| <= TRAPFRAME)
        invariant |dst| < len ==> va == srcva + |dst| && va / PGSIZE == v
        invariant Valid() && IsRoot(own, t) && SameUser(own0, mem0, mem) && Passes(own0, own, t)
        invariant Untouched(mem0, mem, t, v)
        invariant Reads(mem0, t, srcva, dst)
        invariant srcva / PGSIZE <= v && (|dst| == len ==> srcva + len <= v * PGSIZE || len == 0)
        invariant forall w: nat :: srcva / PGSIZE <= w < v ==> !Refused(mem0, t, sz, w)
      {
        var chunk;
        ok, chunk := ReadPiece(t, va, len - |dst|, sz, v, mem0, own0);
        if !ok {
          bad := v;
          return;
        }
        ReadsMore(mem0, t, srcva, dst, va, chunk);
        NextPage(va, v);
        dst := dst + chunk;
        va, v := RoundDown(va) + PGSIZE, v + 1;
      }
      ok := true;
    }

    /** One turn of copyin's loop: the bytes at `va`, as far as they are wanted and lie in its page. */
    method ReadPiece(t: nat, va: nat, want: nat, sz: nat, ghost v: nat, ghost mem0: Mem, ghost own0: Owners)
      returns (ok: bool, chunk: seq<Byte>)
      requires Valid() && IsRoot(own, t) && sz <= TRAPFRAME && va / PGSIZE == v && want > 0
      requires IsRoot(own0, t) && SameUser(own0, mem0, mem) && Passes(own0, own, t) && Untouched(mem0, mem, t, v)
      modifies this
      ensures Valid() && IsRoot(own, t) && SameUser(own0, mem0, mem) && Passes(own0, own, t)
      ensures Untouched(mem0, mem, t, v + 1)
      ensures ok ==>
                && 0 < |chunk| <= want && va + |chunk| <= (v + 1) * PGSIZE
                   && (|chunk| < want ==> va + |chunk| == (v + 1) * PGSIZE)
                && va + |chunk| <= TRAPFRAME && Reads(mem0, t, va, chunk) && !Refused(mem0, t, sz, v)
      ensures !ok ==> Refused(mem0, t, sz, v) || (Missing(mem0, t, v) && |free| <= 1)
    {
      var va0 := RoundDown(va);
      ghost var own1 := own;
      var pg := UserPage(t, va0, sz, v);
      PassesMore(own0, own1, own, t);
      if pg == 0 {
        return false, [];
      }
      var off := va - va0;
      var n := PGSIZE - off;
      if n > want {
        n := want;
      }
      chunk := mem[pg].bytes[off..off + n];
      ReadsPage(own0, mem0, mem, t, v, off, chunk);
      return true, chunk;
    }

    /** copyout: write `src` at `dstva`. On failure the first `k` bytes are written and page `bad` stopped it. */
    method CopyOut(t: nat, dstva: nat, src: seq<Byte>, sz: nat) returns (ok: bool, ghost k: nat, ghost bad: nat)
      requires Valid() && IsRoot(own, t) && sz <= TRAPFRAME
      modifies this
      ensures Valid() && k <= |src| && Wrote(old(own), old(mem), mem, t, dstva, src, k) && Passes(old(own), own, t)
      ensures k > 0 ==> dstva + k <= TRAPFRAME
      ensures ok ==> k == |src|
      ensures forall w: nat :: dstva / PGSIZE <= w && w * PGSIZE < dstva + k && k > 0 ==>
                !Unwritable(old(mem), t, sz, w)
      ensures !ok ==> bad == (dstva + k) / PGSIZE && k < |src|
                      && (Unwritable(old(mem), t, sz, bad) || (Missing(old(mem), t, bad) && |free| <= 1))
    {
      ghost var mem0, own0 := mem, own;
      bad := 0;
      var done, va := 0, dstva;
      ghost var v: nat := va / PGSIZE;
      while done < |src|
        invariant done <= |src| && (done > 0 ==> dstva + done <= TRAPFRAME)
        invariant done < |src| ==> va == dstva + done && va / PGSIZE == v
        invariant Valid() && IsRoot(own, t) && Sending(own0, mem0, own, mem, t, dstva, src, done, v)
        invariant dstva / PGSIZE <= v && (done > 0 ==> dstva + done <= v * PGSIZE)
        invariant forall w: nat :: dstva / PGSIZE <= w < v ==> !Unwritable(mem0, t, sz, w)
      {
        ghost var mem1, own1 := mem, own;
        var n := WritePiece(t, va, src[done..], sz, v);
        SendingMore(own0, mem0, own1, mem1, own, mem, t, dstva, src, done, n, v, sz);
        if n == 0 {
          bad, k := v, done;
          ok := false;
          SendingIs(own0, mem0, own, mem, t, dstva, src, done, v + 1);
          return;
        }
        NextPage(va, v);
        done := done + n;
        va, v := RoundDown(va) + PGSIZE, v + 1;
      }
      ok := true;
      k := done;
      SendingIs(own0, mem0, own, mem, t, dstva, src, done, v);
    }

    /**
     * One turn of copyout's loop: as much of `rest` as fits in the page of `va`; 0 when that page cannot be written.
     */
    method WritePiece(t: nat, va: nat, rest: seq<Byte>, sz: nat, ghost v: nat) returns (n: nat)
      requires Valid() && IsRoot(own, t) && sz <= TRAPFRAME && va / PGSIZE == v && |rest| > 0
      modifies this
      ensures Valid() && IsRoot(own, t) && Passes(old(own), own, t) && n <= |rest|
      ensures Wrote(old(own), old(mem), mem, t, va, rest, n)
      ensures Untouched(old(mem), mem, t, v + 1)
      ensures n > 0 ==> va + n <= TRAPFRAME && va + n <= (v + 1) * PGSIZE && (n < |rest| ==> va + n == (v + 1) * PGSIZE)
      ensures n > 0 ==> !Unwritable(old(mem), t, sz, v)
      ensures n == 0 ==> Unwritable(old(mem), t, sz, v) || (Missing(old(mem), t, v) && |free| <= 1)
    {
      var va0 := RoundDown(va);
      var pg := UserPage(t, va0, sz, v);
      if pg == 0 {
        return 0;
      }
      var e := ReadPte(t, va0, v);
      if !e.perm.w {
        return 0;
      }
      var off := va - va0;
      n := PGSIZE - off;
      if n > |rest| {
        n := |rest|;
      }
      ghost var mem1 := mem;
      WriteBytes(t, pg, off, rest[..n], v);
      WroteFirst(old(own), own, old(mem), mem1, mem, t, va, rest, n);
    }

    /** uvmfree: free the user pages below `sz`, then the table pages. */
    method UvmFree(t: nat, sz: nat)
      requires Valid() && IsRoot(own, t) && sz <= TRAPFRAME && Vacant(mem, t, RoundUp(sz) / PGSIZE, MAXV)
      modifies this
      ensures Valid() && own.Keys == old(own).Keys
      ensures forall x :: x in own ==> own[x] == if Owned(t, x, old(own)[x]) then Free else old(own)[x]
      ensures forall s, v: nat :: IsRoot(old(own), s) && s != t && v < MAXV ==>
                Lookup(mem, s, v) == Lookup(old(mem), s, v)
      ensures forall x :: x in own && (own[x].User? || own[x].Other?) ==> mem[x] == old(mem)[x]
    {
      ghost var mem0, own0 := mem, own;
      if sz > 0 {
        UvmUnmap(t, 0, RoundUp(sz) / PGSIZE, true);
      }
      ghost var mem1, own1 := mem, own;
      assert Unmapped(mem0, own0, mem1, own1, t, 0, RoundUp(sz) / PGSIZE, Free);
      Freewalk(t, Root);
      FreedAll(mem0, own0, mem1, own1, mem, own, t, RoundUp(sz) / PGSIZE);
    }
  }
}
