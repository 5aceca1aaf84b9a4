/**
 * Physical memory as pages, the Sv39 tree in it, and who owns each page.
 *
 * A page is a page-table node, user or kernel data, or a node of the free list.
 * `own` records for every page the one place that owns it; TreeOk ties each record
 * to the page tables, so no page can be in two places.
 */
module VmModel {
  import opened Common
  import opened Riscv

  datatype Page =
    | Node(ptes: seq<Pte>)
    | Data(bytes: seq<Byte>)
    | Run(next: nat)               // struct run of the free list; 0 ends it

  type Mem = map<nat, Page>

  datatype Owner =
    | Free
    | Root                         // top-level table
    | Mid(t: nat, i: nat)          // second-level table, under entry i of table t
    | Low(t: nat, i: nat, j: nat)  // third-level table
    | User(t: nat, v: nat)         // user page v of table t
    | Other                        // any other caller of kalloc

  type Owners = map<nat, Owner>

  /** Addresses below MAXVA use half of a top-level table. */
  const HALF: nat := NPTE / 2

  const EMPTY: seq<Pte> := seq(NPTE, _ => ZERO)
  const ZEROS: seq<Byte> := seq(PGSIZE, _ => 0)

  predicate AllZero(bytes: seq<Byte>) { |bytes| == PGSIZE && forall i :: 0 <= i < PGSIZE ==> bytes[i] == 0 }

  predicate IsNode(pg: Page) { pg.Node? && |pg.ptes| == NPTE }

  predicate IsData(pg: Page) { pg.Data? && |pg.bytes| == PGSIZE }

  // ------------------------------------------------------- the tree as a map

  function Entry(mem: Mem, n: nat, i: nat): (e: Pte) {
    if n in mem && mem[n].Node? && i < |mem[n].ptes| then mem[n].ptes[i] else ZERO
  }

  /** The third-level table for page `v`, if there is one. */
  function LowOf(mem: Mem, t: nat, v: nat): (r: nat) {
    var e := Entry(mem, t, Px2(v));
    if !e.v then 0
    else
      var f := Entry(mem, e.page, Px1(v));
      if !f.v then 0 else f.page
  }

  /** The flat map a tree stands for: page number to entry, invalid where nothing is mapped. */
  function Lookup(mem: Mem, t: nat, v: nat): (e: Pte) {
    Entry(mem, LowOf(mem, t, v), Px0(v))
  }

  /** User memory: contents where mapped, zeros elsewhere. */
  function View(mem: Mem, t: nat, a: nat): (b: Byte) {
    var e := Lookup(mem, t, a / PGSIZE);
    if e.v && e.page in mem && IsData(mem[e.page]) then mem[e.page].bytes[a % PGSIZE] else 0
  }

  // -------------------------------------------------------------- ownership

  /** A valid entry of a non-leaf table leads to the table that records it as its own place. */
  predicate ChildOk(own: Owners, e: Pte, o: Owner) {
    e.v ==> !e.Leaf() && e.page in own && own[e.page] == o
  }

  /** A valid leaf entry leads to the user page it owns; the two pages at the top are not user pages. */
  predicate LeafOk(own: Owners, t: nat, v: nat, e: Pte) {
    if e.v then
      && e.Leaf()
      && (if v < USERV then e.page in own && own[e.page] == User(t, v) else !e.perm.u)
    else e == ZERO
  }

  predicate IsRoot(own: Owners, t: nat) { t in own && own[t] == Root }

  /** Page `n` is where its owner says it is, and what it refers to belongs to it. */
  ghost predicate PageOk(mem: Mem, own: Owners, n: nat)
    requires n in own && n in mem
  {
    match own[n]
    case Free => mem[n].Run?
    case Root => IsNode(mem[n]) && forall i :: 0 <= i < NPTE ==> ChildOk(own, mem[n].ptes[i], Mid(n, i))
    case Mid(t, i) =>
      && i < HALF && IsRoot(own, t) && Entry(mem, t, i).v && Entry(mem, t, i).page == n
      && IsNode(mem[n]) && forall j :: 0 <= j < NPTE ==> ChildOk(own, mem[n].ptes[j], Low(t, i, j))
    case Low(t, i, j) =>
      && i < HALF && j < NPTE && IsRoot(own, t) && Entry(mem, t, i).v
      && Entry(mem, Entry(mem, t, i).page, j).v && Entry(mem, Entry(mem, t, i).page, j).page == n
      && IsNode(mem[n]) && forall k :: 0 <= k < NPTE ==> LeafOk(own, t, Vpn(i, j, k), mem[n].ptes[k])
    case User(t, v) => v < USERV && IsRoot(own, t) && Lookup(mem, t, v).v && Lookup(mem, t, v).page == n
      && IsData(mem[n])
    case Other => true
  }

  ghost predicate TreeOk(mem: Mem, own: Owners) {
    && mem.Keys == own.Keys && 0 !in mem
    && (forall n {:trigger PageOk(mem, own, n)} :: n in own ==> PageOk(mem, own, n))
  }

  /** The same tables map the same pages. */
  ghost predicate SameMaps(own: Owners, mem: Mem, mem': Mem) {
    forall t, v: nat :: IsRoot(own, t) && v < MAXV ==> Lookup(mem', t, v) == Lookup(mem, t, v)
  }

  /** Every table maps what it did, except page `v` of table `t`. */
  ghost predicate SameMapsBut(own: Owners, mem: Mem, mem': Mem, t: nat, v: nat) {
    forall s, w: nat :: IsRoot(own, s) && w < MAXV && !(s == t && w == v) ==> Lookup(mem', s, w) == Lookup(mem, s, w)
  }

  // ------------------------------------------- what the tree says about one page

  lemma MidIs(mem: Mem, own: Owners, t: nat, i: nat)
    requires TreeOk(mem, own) && IsRoot(own, t) && i < NPTE && Entry(mem, t, i).v
    ensures var m := Entry(mem, t, i).page;
            !Entry(mem, t, i).Leaf() && m in own && own[m] == Mid(t, i) && IsNode(mem[m])
  {
    assert PageOk(mem, own, t);
    assert PageOk(mem, own, Entry(mem, t, i).page);
  }

  lemma LowIs(mem: Mem, own: Owners, t: nat, v: nat)
    requires TreeOk(mem, own) && IsRoot(own, t) && LowOf(mem, t, v) != 0
    ensures var n := LowOf(mem, t, v); n in own && own[n] == Low(t, Px2(v), Px1(v)) && IsNode(mem[n])
  {
    MidIs(mem, own, t, Px2(v));
    var m := Entry(mem, t, Px2(v)).page;
    assert PageOk(mem, own, m);
    assert PageOk(mem, own, LowOf(mem, t, v));
  }

  /** A valid entry below USERV leads to a page of bytes that this table alone owns. */
  lemma UserIs(mem: Mem, own: Owners, t: nat, v: nat)
    requires TreeOk(mem, own) && IsRoot(own, t) && v < MAXV && Lookup(mem, t, v).v
    ensures Lookup(mem, t, v).Leaf() && LowOf(mem, t, v) != 0
    ensures v < USERV ==> var n := Lookup(mem, t, v).page; n in own && own[n] == User(t, v) && IsData(mem[n])
    ensures v >= USERV ==> !Lookup(mem, t, v).perm.u
  {
    assert Entry(mem, 0, Px0(v)) == ZERO;
    LowIs(mem, own, t, v);
    var n := LowOf(mem, t, v);
    assert PageOk(mem, own, n);
    VpnOfPx(v);
    assert LeafOk(own, t, v, mem[n].ptes[Px0(v)]);
    if v < USERV {
      assert PageOk(mem, own, Lookup(mem, t, v).page);
    }
  }

  /** An invalid leaf entry is a zero word. */
  lemma UnmappedIsZero(mem: Mem, own: Owners, t: nat, v: nat)
    requires TreeOk(mem, own) && IsRoot(own, t) && v < MAXV && !Lookup(mem, t, v).v
    ensures Lookup(mem, t, v) == ZERO
  {
    var n := LowOf(mem, t, v);
    if n == 0 {
      assert Entry(mem, 0, Px0(v)) == ZERO;
    } else {
      LowIs(mem, own, t, v);
      assert PageOk(mem, own, n);
      assert LeafOk(own, t, Vpn(Px2(v), Px1(v), Px0(v)), mem[n].ptes[Px0(v)]);
    }
  }

  /** No physical page is mapped at two places. */
  lemma NoSharing(mem: Mem, own: Owners, t: nat, v: nat, s: nat, w: nat)
    requires TreeOk(mem, own) && IsRoot(own, t) && IsRoot(own, s) && v < USERV && w < USERV
    requires Lookup(mem, t, v).v && Lookup(mem, s, w).v && Lookup(mem, t, v).page == Lookup(mem, s, w).page
    ensures t == s && v == w
  {
    UserIs(mem, own, t, v);
    UserIs(mem, own, s, w);
  }

  // ---------------------------------------------------------- adding tables

  /** Linking an empty table where there was none maps nothing. */
  lemma LinkMaps(mem: Mem, own: Owners, m: nat, i: nat, n: nat, e: Pte)
    requires TreeOk(mem, own) && m in own && (own[m].Root? || own[m].Mid?) && IsNode(mem[m]) && i < NPTE
             && !mem[m].ptes[i].v
    requires n in own && own[n] == Other && e == Pte(true, n, NONE)
    ensures SameMaps(own, mem, mem[n := Node(EMPTY)][m := Node(mem[m].ptes[i := e])])
  {
    var mem' := mem[n := Node(EMPTY)][m := Node(mem[m].ptes[i := e])];
    assert PageOk(mem, own, m);
    forall s, v: nat | IsRoot(own, s) && v < MAXV ensures Lookup(mem', s, v) == Lookup(mem, s, v) {
      if Entry(mem, s, Px2(v)).v { MidIs(mem, own, s, Px2(v)); }
      if LowOf(mem, s, v) != 0 { LowIs(mem, own, s, v); }
    }
  }

  /** walk links a fresh second-level table. */
  lemma AddMid(mem: Mem, own: Owners, t: nat, i: nat, n: nat, e: Pte)
    requires TreeOk(mem, own) && IsRoot(own, t) && i < HALF && !Entry(mem, t, i).v
    requires n in own && own[n] == Other && !mem[n].Node?
    requires IsNode(mem[t]) && e == Pte(true, n, NONE)
    ensures var mem' := mem[n := Node(EMPTY)][t := Node(mem[t].ptes[i := e])];
            TreeOk(mem', own[n := Mid(t, i)]) && SameMaps(own, mem, mem')
  {
    var mem' := mem[n := Node(EMPTY)][t := Node(mem[t].ptes[i := e])];
    LinkMaps(mem, own, t, i, n, e);
    forall x | x in own ensures PageOk(mem', own[n := Mid(t, i)], x) {
      assert PageOk(mem, own, x);
    }
  }

  /** walk links a fresh third-level table. */
  lemma AddLow(mem: Mem, own: Owners, t: nat, i: nat, j: nat, m: nat, n: nat, e: Pte)
    requires TreeOk(mem, own) && IsRoot(own, t) && i < HALF && j < NPTE
    requires m in own && own[m] == Mid(t, i) && IsNode(mem[m]) && !mem[m].ptes[j].v
    requires n in own && own[n] == Other && !mem[n].Node? && e == Pte(true, n, NONE)
    ensures var mem' := mem[n := Node(EMPTY)][m := Node(mem[m].ptes[j := e])];
            TreeOk(mem', own[n := Low(t, i, j)]) && SameMaps(own, mem, mem')
  {
    var mem' := mem[n := Node(EMPTY)][m := Node(mem[m].ptes[j := e])];
    LinkMaps(mem, own, m, j, n, e);
    assert PageOk(mem, own, m);
    forall x | x in own ensures PageOk(mem', own[n := Low(t, i, j)], x) {
      assert PageOk(mem, own, x);
    }
  }

  // ------------------------------------------------------ adding and removing leaves

  /** A write to one third-level table leaves every path to a third-level table as it was. */
  lemma SamePaths(mem: Mem, own: Owners, mem': Mem, lo: nat, t: nat, v: nat)
    requires TreeOk(mem, own) && mem'.Keys == mem.Keys && lo in own && own[lo].Low?
    requires forall x :: x in own && (own[x].Root? || own[x].Mid?) ==> mem'[x] == mem[x]
    requires IsRoot(own, t)
    ensures LowOf(mem', t, v) == LowOf(mem, t, v)
  {
    if Entry(mem, t, Px2(v)).v { MidIs(mem, own, t, Px2(v)); }
  }

  lemma SetLeafMaps(mem: Mem, own: Owners, mem': Mem, t: nat, v: nat, e: Pte)
    requires TreeOk(mem, own) && mem'.Keys == mem.Keys && IsRoot(own, t) && v < MAXV && LowOf(mem, t, v) != 0
    requires forall x :: x in own && (own[x].Root? || own[x].Mid? || own[x].Low?) && x != LowOf(mem, t, v) ==>
               mem'[x] == mem[x]
    requires var lo := LowOf(mem, t, v);
             lo in own && IsNode(mem[lo]) && mem'[lo] == Node(mem[lo].ptes[Px0(v) := e])
    ensures Lookup(mem', t, v) == e && SameMapsBut(own, mem, mem', t, v)
  {
    var lo := LowOf(mem, t, v);
    LowIs(mem, own, t, v);
    SamePaths(mem, own, mem', lo, t, v);
    forall s, w: nat | IsRoot(own, s) && w < MAXV && !(s == t && w == v) ensures Lookup(mem', s, w) == Lookup(mem, s, w)
    {
      SamePaths(mem, own, mem', lo, s, w);
      if LowOf(mem, s, w) != 0 { LowIs(mem, own, s, w); }
      if LowOf(mem, s, w) == lo && Px0(w) == Px0(v) { PxInjective(v, w); }
    }
  }

  /** mappages fills one entry; a user page passes from the caller to the table. */
  lemma PutLeaf(mem: Mem, own: Owners, t: nat, v: nat, e: Pte)
    requires TreeOk(mem, own) && IsRoot(own, t) && v < MAXV && LowOf(mem, t, v) != 0 && !Lookup(mem, t, v).v
    requires e.v && e.Leaf()
    requires if v < USERV then e.page in own && own[e.page] == Other && IsData(mem[e.page]) else !e.perm.u
    requires LowOf(mem, t, v) in mem && IsNode(mem[LowOf(mem, t, v)])
    ensures var lo := LowOf(mem, t, v);
            var mem' := mem[lo := Node(mem[lo].ptes[Px0(v) := e])];
            && TreeOk(mem', if v < USERV then own[e.page := User(t, v)] else own)
            && Lookup(mem', t, v) == e && SameMapsBut(own, mem, mem', t, v)
  {
    var lo := LowOf(mem, t, v);
    var mem' := mem[lo := Node(mem[lo].ptes[Px0(v) := e])];
    var own' := if v < USERV then own[e.page := User(t, v)] else own;
    LowIs(mem, own, t, v);
    VpnOfPx(v);
    SetLeafMaps(mem, own, mem', t, v, e);
    forall x | x in own ensures PageOk(mem', own', x) {
      assert PageOk(mem, own, x);
      PutLeafPage(mem, own, t, v, e, x);
    }
  }

  lemma PutLeafPage(mem: Mem, own: Owners, t: nat, v: nat, e: Pte, x: nat)
    requires TreeOk(mem, own) && IsRoot(own, t) && v < MAXV && LowOf(mem, t, v) != 0 && !Lookup(mem, t, v).v
    requires e.v && e.Leaf() && Vpn(Px2(v), Px1(v), Px0(v)) == v
    requires if v < USERV then e.page in own && own[e.page] == Other && IsData(mem[e.page]) else !e.perm.u
    requires var lo := LowOf(mem, t, v); lo in own && own[lo] == Low(t, Px2(v), Px1(v)) && IsNode(mem[lo])
    requires var lo := LowOf(mem, t, v);
             var mem' := mem[lo := Node(mem[lo].ptes[Px0(v) := e])];
             Lookup(mem', t, v) == e && SameMapsBut(own, mem, mem', t, v)
    requires x in own
    ensures var lo := LowOf(mem, t, v);
            var mem' := mem[lo := Node(mem[lo].ptes[Px0(v) := e])];
            PageOk(mem', if v < USERV then own[e.page := User(t, v)] else own, x)
  {
    assert PageOk(mem, own, x);
    assert PageOk(mem, own, LowOf(mem, t, v));
  }

  /** uvmunmap clears one entry; the page leaves the table, freed or handed back to the caller. */
  lemma DropLeaf(mem: Mem, own: Owners, mem': Mem, own': Owners, t: nat, v: nat)
    requires TreeOk(mem, own) && IsRoot(own, t) && v < MAXV && Lookup(mem, t, v).v && mem'.Keys == mem.Keys
    requires var pg := Lookup(mem, t, v).page;
             if v < USERV then pg in own && (own' == own[pg := Other] || (own' == own[pg := Free] && mem'[pg].Run?))
             else own' == own
    requires forall x :: x in mem && x != LowOf(mem, t, v) && !(v < USERV && x == Lookup(mem, t, v).page) ==>
               mem'[x] == mem[x]
    requires var lo := LowOf(mem, t, v);
             lo in mem && IsNode(mem[lo]) && mem'[lo] == Node(mem[lo].ptes[Px0(v) := ZERO])
    ensures TreeOk(mem', own') && Lookup(mem', t, v) == ZERO && SameMapsBut(own, mem, mem', t, v)
  {
    UserIs(mem, own, t, v);
    LowIs(mem, own, t, v);
    SetLeafMaps(mem, own, mem', t, v, ZERO);
    forall x | x in own ensures PageOk(mem', own', x) {
      DropLeafPage(mem, own, mem', own', t, v, x);
    }
  }

  /** Page `v` of table `t`, which was mapped, has had its entry cleared and its page taken away. */
  ghost predicate Dropped(mem: Mem, own: Owners, mem': Mem, own': Owners, t: nat, v: nat) {
    && TreeOk(mem, own) && IsRoot(own, t) && v < MAXV && Lookup(mem, t, v).v && mem'.Keys == mem.Keys
    && var lo, pg := LowOf(mem, t, v), Lookup(mem, t, v).page;
       && lo in own && own[lo] == Low(t, Px2(v), Px1(v)) && IsNode(mem[lo])
       && mem'[lo] == Node(mem[lo].ptes[Px0(v) := ZERO])
       && (if v < USERV then
             && pg in own && own[pg] == User(t, v)
             && (own' == own[pg := Other] || (own' == own[pg := Free] && mem'[pg].Run?))
           else own' == own)
       && (forall y :: y in mem && y != lo && !(v < USERV && y == pg) ==> mem'[y] == mem[y])
       && Lookup(mem', t, v) == ZERO && SameMapsBut(own, mem, mem', t, v)
  }

  lemma DropLeafPage(mem: Mem, own: Owners, mem': Mem, own': Owners, t: nat, v: nat, x: nat)
    requires Dropped(mem, own, mem', own', t, v) && x in own
    ensures PageOk(mem', own', x)
  {
    match own[x]
    case Root => DropLeafRoot(mem, own, mem', own', t, v, x);
    case Mid(_, _) => DropLeafMid(mem, own, mem', own', t, v, x);
    case Low(_, _, _) => DropLeafLow(mem, own, mem', own', t, v, x);
    case _ => assert PageOk(mem, own, x);
  }

  lemma DropLeafRoot(mem: Mem, own: Owners, mem': Mem, own': Owners, t: nat, v: nat, x: nat)
    requires Dropped(mem, own, mem', own', t, v) && x in own && own[x].Root?
    ensures PageOk(mem', own', x)
  {
    assert PageOk(mem, own, x);
  }

  lemma DropLeafMid(mem: Mem, own: Owners, mem': Mem, own': Owners, t: nat, v: nat, x: nat)
    requires Dropped(mem, own, mem', own', t, v) && x in own && own[x].Mid?
    ensures PageOk(mem', own', x)
  {
    assert PageOk(mem, own, x);
  }

  lemma DropLeafLow(mem: Mem, own: Owners, mem': Mem, own': Owners, t: nat, v: nat, x: nat)
    requires Dropped(mem, own, mem', own', t, v) && x in own && own[x].Low?
    ensures PageOk(mem', own', x)
  {
    assert PageOk(mem, own, x);
    var i, j := own[x].i, own[x].j;
    MidIs(mem, own, own[x].t, i);
    forall k | 0 <= k < NPTE ensures LeafOk(own', own[x].t, Vpn(i, j, k), mem'[x].ptes[k]) {
      assert LeafOk(own, own[x].t, Vpn(i, j, k), mem[x].ptes[k]);
      PxOfVpn(i, j, k);
    }
  }

  /** A copy into a page of bytes leaves the tree alone. */
  lemma PutData(mem: Mem, own: Owners, pg: nat, bytes: seq<Byte>)
    requires TreeOk(mem, own) && pg in own && (own[pg].User? || own[pg].Other?) && mem[pg].Data? && |bytes| == PGSIZE
    ensures var mem' := mem[pg := Data(bytes)]; TreeOk(mem', own) && SameMaps(own, mem, mem')
  {
    var mem' := mem[pg := Data(bytes)];
    forall n, i ensures Entry(mem', n, i) == Entry(mem, n, i) {}
    forall x | x in own ensures PageOk(mem', own, x) {
      assert PageOk(mem, own, x);
    }
  }

  /** kalloc hands a free page to its caller; kfree takes one back. */
  lemma Handover(mem: Mem, own: Owners, n: nat, o: Owner, pg: Page)
    requires TreeOk(mem, own) && n in own && (own[n].Free? || own[n].Other?)
    requires !mem[n].Node? && !pg.Node? && (o.Other? || (o.Free? && pg.Run?))
    ensures var mem' := mem[n := pg]; TreeOk(mem', own[n := o]) && SameMaps(own, mem, mem')
  {
    var mem' := mem[n := pg];
    forall m, i ensures Entry(mem', m, i) == Entry(mem, m, i) {}
    forall x | x in own ensures PageOk(mem', own[n := o], x) {
      assert PageOk(mem, own, x);
    }
  }

  // -------------------------------------------------------------- user memory

  /** Where the maps and the user pages are the same, user memory is. */
  lemma SameView(mem: Mem, own: Owners, mem': Mem, t: nat, a: nat)
    requires TreeOk(mem, own) && IsRoot(own, t) && a / PGSIZE < USERV && mem'.Keys == mem.Keys
    requires Lookup(mem', t, a / PGSIZE) == Lookup(mem, t, a / PGSIZE)
    requires forall x :: x in own && own[x].User? ==> mem'[x] == mem[x]
    ensures View(mem', t, a) == View(mem, t, a)
  {
    if Lookup(mem, t, a / PGSIZE).v { UserIs(mem, own, t, a / PGSIZE); }
  }

  /** A write to the bytes of one user page shows in one page of one address space. */
  lemma WriteView(mem: Mem, own: Owners, t: nat, v: nat, bytes: seq<Byte>, s: nat, a: nat)
    requires TreeOk(mem, own) && IsRoot(own, t) && IsRoot(own, s) && v < USERV && a / PGSIZE < USERV
    requires Lookup(mem, t, v).v && |bytes| == PGSIZE
    ensures var mem' := mem[Lookup(mem, t, v).page := Data(bytes)];
            View(mem', s, a) == if s == t && a / PGSIZE == v then bytes[a % PGSIZE] else View(mem, s, a)
  {
    UserIs(mem, own, t, v);
    PutData(mem, own, Lookup(mem, t, v).page, bytes);
    if Lookup(mem, s, a / PGSIZE).v {
      UserIs(mem, own, s, a / PGSIZE);
    }
  }

  // ------------------------------------------------------------ freeing tables

  /** Owner `o` lies under the first `k` entries of the table page `n`, itself owned as `top`. */
  predicate Under(n: nat, top: Owner, k: nat, o: Owner) {
    match top
    case Root => (o.Mid? || o.Low?) && o.t == n && o.i < k
    case Mid(t, i) => o.Low? && o.t == t && o.i == i && o.j < k
    case _ => false
  }

  /** The pages freewalk(n) frees: the table and every table below it. */
  predicate Below(n: nat, top: Owner, x: nat, o: Owner) {
    x == n || Under(n, top, NPTE, o)
  }

  /** The page numbers whose path goes through the table. */
  predicate Through(n: nat, top: Owner, t: nat, v: nat) {
    match top
    case Root => t == n
    case Mid(s, i) => t == s && Px2(v) == i
    case Low(s, i, j) => t == s && Px2(v) == i && Px1(v) == j
    case _ => false
  }

  ghost predicate NoLeaves(mem: Mem, own: Owners, n: nat, top: Owner) {
    forall t, v: nat :: IsRoot(own, t) && v < MAXV && Through(n, top, t, v) ==> !Lookup(mem, t, v).v
  }

  /** The owner record of the table that entry `i` of page `n` points to. */
  function ChildOwner(n: nat, top: Owner, i: nat): (o: Owner) {
    match top
    case Root => Mid(n, i)
    case Mid(t, j) => Low(t, j, i)
    case _ => Other
  }

  /** What freeing the subtree below page `c` does to memory and owners. */
  ghost predicate Freed(mem: Mem, own: Owners, mem': Mem, own': Owners, c: nat, top: Owner) {
    && mem'.Keys == mem.Keys && own'.Keys == own.Keys && own.Keys == mem.Keys
    && (forall x :: x in own ==>
          if Below(c, top, x, own[x]) then own'[x] == Free && mem'[x].Run? else own'[x] == own[x] && mem'[x] == mem[x])
  }

  /** What is mapped stays mapped when an empty subtree is freed and its entry in page `n` cleared. */
  lemma CutKeepsLeaf(mem: Mem, own: Owners, mem1: Mem, own1: Owners, mem': Mem, n: nat, top: Owner, i: nat, s: nat,
                     v: nat)
    requires TreeOk(mem, own) && n in own && own[n] == top && (top.Root? || top.Mid?) && i < NPTE && Entry(mem, n, i).v
    requires NoLeaves(mem, own, n, top) && Freed(mem, own, mem1, own1, Entry(mem, n, i).page, ChildOwner(n, top, i))
    requires mem'.Keys == mem1.Keys && forall x :: x in mem1 && x != n ==> mem'[x] == mem1[x]
    requires IsRoot(own, s) && v < MAXV && Lookup(mem, s, v).v
    ensures Lookup(mem', s, v) == Lookup(mem, s, v)
  {
    UserIs(mem, own, s, v);
    LowIs(mem, own, s, v);
    MidIs(mem, own, s, Px2(v));
    assert PageOk(mem, own, n);
    assert PageOk(mem, own, Entry(mem, n, i).page);
  }

  lemma CutPage(mem: Mem, own: Owners, mem1: Mem, own1: Owners, n: nat, top: Owner, i: nat, x: nat)
    requires TreeOk(mem, own) && n in own && own[n] == top && (top.Root? || top.Mid?) && i < NPTE && Entry(mem, n, i).v
    requires NoLeaves(mem, own, n, top) && Freed(mem, own, mem1, own1, Entry(mem, n, i).page, ChildOwner(n, top, i))
    requires IsNode(mem1[n]) && x in own
    ensures PageOk(mem1[n := Node(mem1[n].ptes[i := ZERO])], own1, x)
  {
    var mem' := mem1[n := Node(mem1[n].ptes[i := ZERO])];
    assert PageOk(mem, own, x);
    if own[x].Low? {
      CutLow(mem, own, mem1, own1, n, top, i, x);
    } else if own[x].User? {
      CutKeepsLeaf(mem, own, mem1, own1, mem', n, top, i, own[x].t, own[x].v);
    } else {
      assert PageOk(mem, own, n);
      assert PageOk(mem, own, Entry(mem, n, i).page);
    }
  }

  lemma CutLow(mem: Mem, own: Owners, mem1: Mem, own1: Owners, n: nat, top: Owner, i: nat, x: nat)
    requires TreeOk(mem, own) && n in own && own[n] == top && (top.Root? || top.Mid?) && i < NPTE && Entry(mem, n, i).v
    requires NoLeaves(mem, own, n, top) && Freed(mem, own, mem1, own1, Entry(mem, n, i).page, ChildOwner(n, top, i))
    requires IsNode(mem1[n]) && x in own && own[x].Low?
    ensures PageOk(mem1[n := Node(mem1[n].ptes[i := ZERO])], own1, x)
  {
    assert PageOk(mem, own, x);
    assert PageOk(mem, own, n);
    assert PageOk(mem, own, Entry(mem, n, i).page);
    MidIs(mem, own, own[x].t, own[x].i);
  }

  /** freewalk clears the entry of the table it has just freed. */
  lemma CutChild(mem: Mem, own: Owners, mem1: Mem, own1: Owners, n: nat, top: Owner, i: nat)
    requires TreeOk(mem, own) && n in own && own[n] == top && (top.Root? || top.Mid?) && i < NPTE && Entry(mem, n, i).v
    requires NoLeaves(mem, own, n, top) && Freed(mem, own, mem1, own1, Entry(mem, n, i).page, ChildOwner(n, top, i))
    requires IsNode(mem1[n])
    ensures var mem' := mem1[n := Node(mem1[n].ptes[i := ZERO])];
            TreeOk(mem', own1) && NoLeaves(mem', own1, n, top)
  {
    var mem' := mem1[n := Node(mem1[n].ptes[i := ZERO])];
    forall x | x in own ensures PageOk(mem', own1, x) {
      CutPage(mem, own, mem1, own1, n, top, i, x);
    }
    assert PageOk(mem, own, n);
    assert PageOk(mem, own, Entry(mem, n, i).page);
    forall t, v: nat | IsRoot(own1, t) && v < MAXV && Through(n, top, t, v) ensures !Lookup(mem', t, v).v {
      if Lookup(mem', t, v).v {
        UserIs(mem', own1, t, v);
        MidIs(mem', own1, t, Px2(v));
        LowIs(mem', own1, t, v);
      }
    }
  }

  /** The last step of freewalk on a whole tree: the emptied top-level table itself. */
  lemma DropRoot(mem: Mem, own: Owners, t: nat, pg: Page)
    requires TreeOk(mem, own) && IsRoot(own, t) && pg.Run?
    requires forall i :: 0 <= i < NPTE ==> !Entry(mem, t, i).v
    ensures TreeOk(mem[t := pg], own[t := Free])
    ensures forall x :: x in own ==> match own[x]
              case Mid(s, _) => s != t
              case Low(s, _, _) => s != t
              case User(s, _) => s != t
              case _ => true
    ensures forall s, v: nat :: IsRoot(own, s) && s != t && v < MAXV ==> Lookup(mem[t := pg], s, v) == Lookup(mem, s, v)
  {
    var mem' := mem[t := pg];
    forall s, v: nat | IsRoot(own, s) && s != t && v < MAXV ensures Lookup(mem', s, v) == Lookup(mem, s, v) {
      if Entry(mem, s, Px2(v)).v { MidIs(mem, own, s, Px2(v)); }
      if LowOf(mem, s, v) != 0 { LowIs(mem, own, s, v); }
    }
    forall x | x in own ensures PageOk(mem', own[t := Free], x) {
      assert PageOk(mem, own, x);
    }
    forall x | x in own && own[x].User? ensures own[x].t != t {
      assert PageOk(mem, own, x);
    }
  }

  /** uvmcreate makes a table that maps nothing. */
  lemma NewRoot(mem: Mem, own: Owners, t: nat)
    requires TreeOk(mem, own) && t in own && own[t] == Other && !mem[t].Node?
    ensures var mem' := mem[t := Node(EMPTY)];
            && TreeOk(mem', own[t := Root]) && SameMaps(own, mem, mem')
            && (forall v: nat :: !Lookup(mem', t, v).v)
  {
    var mem' := mem[t := Node(EMPTY)];
    forall s, v: nat | IsRoot(own, s) && v < MAXV ensures Lookup(mem', s, v) == Lookup(mem, s, v) {
      if Entry(mem, s, Px2(v)).v { MidIs(mem, own, s, Px2(v)); }
      if LowOf(mem, s, v) != 0 { LowIs(mem, own, s, v); }
    }
    forall x | x in own ensures PageOk(mem', own[t := Root], x) {
      assert PageOk(mem, own, x);
    }
  }

  /** How far below a table page there can be more table pages. */
  function Height(top: Owner): (h: nat) {
    if top.Root? then 2 else if top.Mid? then 1 else 0
  }

  predicate IsTable(o: Owner) { o.Root? || o.Mid? || o.Low? }

  /** Where no leaves are left, a valid entry points to a lower-level table. */
  lemma EntryIsTable(mem: Mem, own: Owners, n: nat, top: Owner, i: nat)
    requires TreeOk(mem, own) && n in own && own[n] == top && IsTable(top) && i < NPTE && NoLeaves(mem, own, n, top)
    ensures IsNode(mem[n])
    ensures mem[n].ptes[i].v ==>
      var c := mem[n].ptes[i].page;
      && !top.Low? && !mem[n].ptes[i].Leaf() && c in own && own[c] == ChildOwner(n, top, i)
      && NoLeaves(mem, own, c, own[c])
  {
    assert PageOk(mem, own, n);
    if top.Low? {
      var v := Vpn(top.i, top.j, i);
      PxOfVpn(top.i, top.j, i);
      assert Lookup(mem, top.t, v) == mem[n].ptes[i];
      assert Through(n, top, top.t, v);
    }
  }

  /** An entry that is not valid has nothing below it. */
  lemma NothingBelow(mem: Mem, own: Owners, n: nat, top: Owner, i: nat, x: nat)
    requires TreeOk(mem, own) && n in own && own[n] == top && IsTable(top) && i < NPTE && !Entry(mem, n, i).v
             && x in own
    ensures Under(n, top, i + 1, own[x]) ==> Under(n, top, i, own[x])
  {
    assert PageOk(mem, own, x);
    assert PageOk(mem, own, n);
  }

  /** What freewalk has done to the entries below `k`. */
  ghost predicate FreedTo(mem: Mem, own: Owners, mem': Mem, own': Owners, n: nat, top: Owner, k: nat) {
    && mem'.Keys == mem.Keys && own'.Keys == own.Keys && own.Keys == mem.Keys
    && (forall x :: x in own ==>
          if Under(n, top, k, own[x]) then own'[x] == Free && mem'[x].Run?
          else own'[x] == own[x] && (x != n ==> mem'[x] == mem[x]))
  }

  lemma FreedMore(mem: Mem, own: Owners, mem1: Mem, own1: Owners, mem2: Mem, own2: Owners, mem3: Mem, n: nat,
                  top: Owner, i: nat, c: nat)
    requires TreeOk(mem1, own1) && n in own && own[n] == top && IsTable(top) && c in own1
             && own1[c] == ChildOwner(n, top, i) && i < NPTE
    requires !top.Low?
    requires FreedTo(mem, own, mem1, own1, n, top, i) && Freed(mem1, own1, mem2, own2, c, own1[c])
    requires mem3.Keys == mem2.Keys && forall x :: x in mem2 && x != n ==> mem3[x] == mem2[x]
    ensures FreedTo(mem, own, mem3, own2, n, top, i + 1)
  {
    forall x | x in own
      ensures if Under(n, top, i + 1, own[x]) then own2[x] == Free && mem3[x].Run?
              else own2[x] == own[x] && (x != n ==> mem3[x] == mem[x])
    {
      assert PageOk(mem1, own1, c);
      assert PageOk(mem1, own1, x);
    }
  }

  /** Freeing one tree does not touch the others. */
  lemma FreedMaps(mem: Mem, own: Owners, mem': Mem, own': Owners, n: nat, s: nat, v: nat)
    requires TreeOk(mem, own) && IsRoot(own, n) && Freed(mem, own, mem', own', n, Root) && IsRoot(own, s) && s != n
    ensures Lookup(mem', s, v) == Lookup(mem, s, v)
  {
    if Entry(mem, s, Px2(v)).v { MidIs(mem, own, s, Px2(v)); }
    if LowOf(mem, s, v) != 0 { LowIs(mem, own, s, v); }
  }
}
