/** malloc, free and morecore (user/umalloc.c). */
module Malloc {
  import opened Common
  import opened MallocModel

  /** Requests must keep sbrk's byte count within an int: units of 16 bytes, below 2^31 bytes. */
  const MAXUNITS: nat := 0x800_0000

  /** Positions go once round the list and a little further. */
  function Wrap(j: nat, n: nat): (k: nat) {
    if j < n then j else j - n
  }

  /** Following the link of the i-th element leads to the next one, round the end to `base`. */
  lemma Hop(mem: Mem, fl: seq<nat>, own: Owners, i: nat)
    requires ListOk(mem, fl, own) && i < |fl|
    ensures BASE <= fl[i] < |mem| && mem[fl[i]].ptr == fl[Wrap(i + 1, |fl|)] && fl[Wrap(i + 1, |fl|)] < |mem|
    ensures mem[fl[i]].size >= 1 ==> i >= 1
  {
    assert Node(mem, fl, i) && Node(mem, fl, 0);
    assert i + 1 < |fl| ==> Node(mem, fl, i + 1);
  }

  /** The addresses on the list go up, with one step down: from the last block back to `base`. */
  lemma OneWrap(mem: Mem, fl: seq<nat>, own: Owners, i: nat)
    requires ListOk(mem, fl, own) && i < |fl|
    ensures fl[i] < |mem| && (mem[fl[i]].ptr <= fl[i] <==> i == |fl| - 1)
    ensures i + 1 < |fl| ==> End(mem, fl, i) < mem[fl[i]].ptr
  {
    Hop(mem, fl, own, i);
    assert Node(mem, fl, i) && Node(mem, fl, 0);
  }

  /** The owners, with what sbrk has added. */
  function After(own: Owners, grant: Option<nat>, grew: bool, more: nat): (r: Owners) {
    if grew && grant.Some? then Grown(own, grant.value, more, Free) else own
  }

  /** At position `g`, between `j` and the return to position `f`, there is a block of at least `n` units. */
  ghost predicate Ahead(mem: Mem, fl: seq<nat>, f: nat, j: nat, g: nat, n: nat) {
    f < |fl| && j <= g <= f + |fl| && fl[Wrap(g, |fl|)] < |mem| && mem[fl[Wrap(g, |fl|)]].size >= n
  }

  /** The block at position `i` is smaller than `n` units. */
  ghost predicate Small(mem: Mem, fl: seq<nat>, i: nat, n: nat) {
    Wrap(i, |fl|) < |fl| && fl[Wrap(i, |fl|)] < |mem| ==> mem[fl[Wrap(i, |fl|)]].size < n
  }

  /** So are all the blocks at positions after `f` and before `j`. */
  ghost predicate Passed(mem: Mem, fl: seq<nat>, f: nat, j: nat, n: nat) {
    forall i: nat {:trigger Small(mem, fl, i, n)} :: f < i < j ==> Small(mem, fl, i, n)
  }

  ghost predicate FreeAt(own: Owners, u: nat, n: nat) {
    u + n <= |own| && forall v :: u <= v < u + n ==> own[v] == Free
  }

  /** Nowhere are `n` units in a row free. */
  ghost predicate Tight(own: Owners, n: nat) {
    forall u: nat {:trigger FreeAt(own, u, n)} :: BASE < u ==> !FreeAt(own, u, n)
  }

  lemma PassOne(mem: Mem, fl: seq<nat>, f: nat, j: nat, n: nat)
    requires Passed(mem, fl, f, j, n) && Wrap(j, |fl|) < |fl| && fl[Wrap(j, |fl|)] < |mem|
             && mem[fl[Wrap(j, |fl|)]].size < n
    ensures Passed(mem, fl, f, j + 1, n)
  {
  }

  /** Free units in a row lie in a block that a search from position `f` meets before it is round. */
  lemma Meets(mem: Mem, fl: seq<nat>, own: Owners, f: nat, u: nat, n: nat) returns (i: nat)
    requires ListOk(mem, fl, own) && f < |fl| && n >= 1 && BASE < u && FreeAt(own, u, n)
    ensures f < i <= f + |fl| && !Small(mem, fl, i, n)
  {
    FreeRun(mem, fl, own, u, n);
    var k := Slot(fl, u + 1, |fl| - 1);
    i := if k > f then k else k + |fl|;
  }

  /** A search that has come round has seen every block of the list. */
  lemma AllPassed(mem: Mem, fl: seq<nat>, own: Owners, f: nat, n: nat)
    requires ListOk(mem, fl, own) && f < |fl| && n >= 1 && Passed(mem, fl, f, f + |fl| + 1, n)
    ensures Tight(own, n)
  {
    forall u: nat | BASE < u ensures !FreeAt(own, u, n) {
      if FreeAt(own, u, n) {
        var _ := Meets(mem, fl, own, f, u, n);
      }
    }
  }

  /** free's two tests single out one element of the list: the last one below `b`. */
  lemma StopsAt(mem: Mem, fl: seq<nat>, own: Owners, b: nat, t: nat, i: nat)
    requires ListOk(mem, fl, own) && t < |fl| && i < |fl| && fl[t] < b && (t + 1 < |fl| ==> b < fl[t + 1]) && BASE < b
    ensures Node(mem, fl, i) && fl[i] >= BASE
    ensures var p, q := fl[i], mem[fl[i]].ptr;
            && ((b > p && b < q) || (p >= q && (b > p || b < q)) <==> i == t)
            && q == fl[Wrap(i + 1, |fl|)] && q < |mem|
  {
    assert Node(mem, fl, i) && Node(mem, fl, 0);
    assert i + 1 < |fl| ==> Node(mem, fl, i + 1);
  }

  /** Wherever it goes, a freed block leaves the heap in order and its predecessor on the list. */
  lemma Inserts(mem: Mem, fl: seq<nat>, own: Owners, live: map<nat, nat>, t: nat, b: nat, n: nat)
    requires HeapOk(mem, fl, own, live) && b in live && live[b] == n && t < |fl| && Fits(mem, fl, own, t, b, n)
             && fl[t] < b
    ensures forall k :: 0 <= k < |fl| ==> fl[k] < |mem|
    ensures b + n <= |own| && HeapOk(Merged(mem, fl, t, b), Inserted(mem, fl, t, b, n), Released(own, b, n), live - {b})
    ensures fl[t] >= BASE && fl[t] in Inserted(mem, fl, t, b, n)
            && mem[fl[t]].ptr == (if t + 1 < |fl| then fl[t + 1] else BASE) && mem[fl[t]].ptr < |mem|
  {
    forall k | 0 <= k < |fl| ensures fl[k] < |mem| { assert Node(mem, fl, k); }
    assert Node(mem, fl, 0);
    var mem' := Merged(mem, fl, t, b);
    forall a | a in live && a != b ensures a < |mem| && mem'[a].size == mem[a].size {
      assert Block(mem, own, live, a);
      LiveNotFree(mem, fl, own, live, a, t);
    }
    ReleaseLive(mem, own, live, mem', b);
    var fl' := Inserted(mem, fl, t, b, n);
    assert fl'[t] == fl[t];
    var up := t + 1 < |fl| && b + n == fl[t + 1];
    var down := End(mem, fl, t) == b;
    if up && down { InsertBoth(mem, fl, own, t, b, n); }
    else if up { InsertUp(mem, fl, own, t, b, n); }
    else if down { InsertDown(mem, fl, own, t, b, n); }
    else { InsertApart(mem, fl, own, t, b, n); }
  }

  /** The heap is in order, a fact that is opened only where it is needed. */
  ghost predicate Sane(mem: Mem, fl: seq<nat>, own: Owners, live: map<nat, nat>) {
    forall k: int {:trigger Asked(k)} :: Asked(k) ==> HeapOk(mem, fl, own, live)
  }

  /** `n` free units at `b` have become a block of their own. */
  ghost predicate Gave(own: Owners, live: map<nat, nat>, own': Owners, live': map<nat, nat>, b: nat, n: nat) {
    && b > BASE && b !in live && live' == live[b := n]
    && b + n <= |own| && own' == Taken(own, b, n) && forall u :: b <= u < b + n ==> own[u] == Free
  }

  lemma WholeStep(mem: Mem, fl: seq<nat>, own: Owners, live: map<nat, nat>, k: nat)
    requires Sane(mem, fl, own, live) && 1 <= k < |fl|
    ensures fl[k - 1] < |mem| && fl[k] < |mem| && fl[k] + mem[fl[k]].size <= |own|
    ensures var p, q, n := fl[k], fl[k - 1], mem[fl[k]].size;
            var fl' := fl[..k] + fl[k + 1..];
            && Sane(mem[q := mem[q].(ptr := mem[p].ptr)], fl', Taken(own, p, n), live[p := n])
            && q in fl' && q != NULL && Gave(own, live, Taken(own, p, n), live[p := n], p, n)
  {
    assert Asked(0);
    assert Node(mem, fl, k) && Node(mem, fl, k - 1) && Node(mem, fl, 0) && Units(mem, fl, own, k);
    TakeWhole(mem, fl, own, live, k);
    assert (fl[..k] + fl[k + 1..])[k - 1] == fl[k - 1];
  }

  lemma TailStep(mem: Mem, fl: seq<nat>, own: Owners, live: map<nat, nat>, k: nat, n: nat, rest: nat)
    requires Sane(mem, fl, own, live) && 1 <= k < |fl| && n >= 1 && rest >= 1
    requires fl[k] < |mem| && mem[fl[k]].size == rest + n
    ensures fl[k] + rest < |mem| && fl[k] + rest + n <= |own| && fl[k - 1] != NULL
    ensures var b := fl[k] + rest;
            var mem' := mem[fl[k] := mem[fl[k]].(size := rest)];
            && Sane(mem'[b := mem'[b].(size := n)], fl, Taken(own, b, n), live[b := n])
            && Gave(own, live, Taken(own, b, n), live[b := n], b, n)
  {
    assert Asked(0);
    assert Node(mem, fl, k) && Node(mem, fl, k - 1) && Node(mem, fl, 0) && Units(mem, fl, own, k);
    TakeTail(mem, fl, own, live, k, n, rest);
  }

  /** Where a freed block goes, and that the heap is then in order. */
  lemma FreeStep(mem: Mem, fl: seq<nat>, own: Owners, live: map<nat, nat>, b: nat) returns (t: nat)
    requires Sane(mem, fl, own, live) && b in live
    ensures ListOk(mem, fl, own) && b < |mem| && mem[b].size == live[b] && BASE < b
    ensures t < |fl| && fl[t] < b && (t + 1 < |fl| ==> b < fl[t + 1]) && fl[t] != NULL
    ensures forall k :: 0 <= k < |fl| ==> fl[k] < |mem|
    ensures mem[fl[t]].ptr == (if t + 1 < |fl| then fl[t + 1] else BASE)
    ensures b + live[b] <= |own| && fl[t] in Inserted(mem, fl, t, b, live[b])
    ensures Sane(Merged(mem, fl, t, b), Inserted(mem, fl, t, b, live[b]), Released(own, b, live[b]), live - {b})
  {
    assert Asked(0);
    SlotGap(mem, fl, own, live, b);
    assert Block(mem, own, live, b);
    t := Slot(fl, b, |fl| - 1);
    Inserts(mem, fl, own, live, t, b, live[b]);
  }

  /**
   * malloc's search has come from position `f`, where it began, to block `p` at position `j`, after `prevp`.
   * Until the heap has grown, all blocks on the way were too small; then one at `g` is big enough.
   */
  ghost predicate Seeks(mem: Mem, fl: seq<nat>, f: nat, j: nat, g: nat, p: nat, prevp: nat, n: nat, grew: bool) {
    && NULL != p < |mem| && f + 1 <= j <= f + |fl|
    && forall q: int {:trigger Sought(q)} :: Sought(q) ==>
         && f < |fl| && p == fl[Wrap(j, |fl|)] && prevp == fl[Wrap(j - 1, |fl|)]
         && (if grew then Ahead(mem, fl, f, j, g, n) else Passed(mem, fl, f, j, n))
  }

  class Heap {
    var mem: Mem
    var freep: nat
    ghost var fl: seq<nat>
    ghost var own: Owners
    ghost var live: map<nat, nat>

    /** Once malloc has been called, freep is somewhere on the list. */
    ghost predicate Valid()
      reads this
    {
      if freep == NULL then
        fl == [] && live == map[] && |own| == |mem| > BASE && own[BASE] == Base
        && forall u {:trigger own[u]} :: 0 <= u < |own| ==> own[u] != Free && !own[u].Live?
      else freep in fl && Sane(mem, fl, own, live)
    }

    lemma ValidIs()
      requires Valid() && freep != NULL
      ensures HeapOk(mem, fl, own, live) && freep in fl
    {
      assert Asked(0);
    }

    /** The search can go on from position `i`, and back at freep it has come round. */
    lemma Onward(i: nat)
      requires Valid() && freep != NULL && i < |fl|
      ensures NULL != fl[i] < |mem| && mem[fl[i]].ptr == fl[Wrap(i + 1, |fl|)] && fl[Wrap(i + 1, |fl|)] < |mem|
      ensures mem[fl[i]].size >= 1 ==> i >= 1
      ensures forall k :: 0 <= k < |fl| && fl[k] == fl[i] ==> k == i
    {
      ValidIs();
      Hop(mem, fl, own, i);
    }

    /** A heap that has not been used; the allocator's memory begins with `base`. */
    constructor (size: nat)
      requires size > BASE
      ensures Valid() && freep == NULL && |mem| == size == |own|
      ensures forall u {:trigger own[u]} :: 0 <= u < size && u != BASE ==> own[u] == Foreign
    {
      mem := seq(size, _ => Header(NULL, 0));
      own := seq(size, u => if u == BASE then Base else Foreign);
      freep, fl, live := NULL, [], map[];
    }

    /** free's search: from freep round the list to the place for `b`. */
    method FindSlot(b: nat, ghost t: nat) returns (p: nat)
      requires ListOk(mem, fl, own) && freep in fl && BASE < b
      requires t < |fl| && fl[t] < b && (t + 1 < |fl| ==> b < fl[t + 1])
      ensures p == fl[t]
    {
      ghost var len := |fl|;
      ghost var f: nat :| f < |fl| && fl[f] == freep;
      ghost var goal := if t >= f then t else t + len;
      ghost var j: nat, i: nat := f, f;
      StopsAt(mem, fl, own, b, t, i);
      p := freep;
      while !(b > p && b < mem[p].ptr)
        invariant f <= j <= goal && i == Wrap(j, len) && i < |fl| && p == fl[i] && p < |mem|
        decreases goal - j
      {
        StopsAt(mem, fl, own, b, t, i);
        if p >= mem[p].ptr && (b > p || b < mem[p].ptr) {
          break;
        }
        p := mem[p].ptr;
        j, i := j + 1, Wrap(i + 1, len);
      }
      StopsAt(mem, fl, own, b, t, i);
    }

    /** free: put the block at `ap` back on the list, merging it with its neighbours. */
    method FreeBlock(ap: nat)
      requires Valid() && freep != NULL && ap > 0 && ap - 1 in live
      modifies this
      ensures Valid() && freep != NULL && |mem| == |old(mem)|
      ensures live == old(live) - {ap - 1}
      ensures ap - 1 + old(live)[ap - 1] <= |old(own)| && own == Released(old(own), ap - 1, old(live)[ap - 1])
    {
      var b := ap - 1;
      ghost var n := live[b];
      ghost var mem0 := mem;
      ghost var t := FreeStep(mem, fl, own, live, b);
      var p := FindSlot(b, t);
      var nx := mem[p].ptr;
      if b + mem[b].size == nx {
        mem := mem[b := Header(mem[nx].ptr, mem[b].size + mem[nx].size)];
      } else {
        mem := mem[b := mem[b].(ptr := nx)];
      }
      if p + mem[p].size == b {
        mem := mem[p := Header(mem[b].ptr, mem[p].size + mem[b].size)];
      } else {
        mem := mem[p := mem[p].(ptr := b)];
      }
      freep := p;
      assert mem == Merged(mem0, fl, t, b);
      fl, own, live := Inserted(mem0, fl, t, b, n), Released(own, b, n), live - {b};
    }

    /**
     * morecore: ask sbrk for at least `nu` units and free them. `grant` is sbrk's answer: how far the break had moved,
     * or failure.
     */
    method MoreCore(nu: nat, grant: Option<nat>) returns (p: nat, ghost n: nat)
      requires Valid() && freep != NULL && 1 <= nu < MAXUNITS
      modifies this
      ensures Valid() && freep != NULL && live == old(live) && nu <= n && 4096 <= n && (n == nu || n == 4096)
      ensures p == if grant.None? then NULL else freep
      ensures grant.None? ==> mem == old(mem) && fl == old(fl) && own == old(own) && freep == old(freep)
      ensures grant.Some? ==> own == Grown(old(own), grant.value, n, Free)
    {
      var units := if nu < 4096 then 4096 else nu;
      n := units;
      if grant.None? {
        return NULL, n;
      }
      ValidIs();
      var hp := |mem| + grant.value;
      var more := mem + seq(grant.value, _ => Header(NULL, 0)) + [Header(NULL, units)]
        + seq(units - 1, _ => Header(NULL, 0));
      Grow(mem, fl, own, live, more, grant.value, n);
      ghost var own0 := own;
      mem := more;
      own, live := Grown(own, grant.value, n, Live(hp)), live[hp := n];
      FreeBlock(hp + 1);
      assert own == Grown(own0, grant.value, n, Free);
      assert live == old(live) by {
        assert hp in old(live) ==> Block(old(mem), own0, old(live), hp);
      }
      p := freep;
    }

    /** Take `n` units from the k-th block, which is big enough. Returns the header of the new block. */
    method TakeFrom(p: nat, prevp: nat, n: nat, ghost k: nat) returns (b: nat)
      requires Valid() && freep != NULL && 1 <= k < |fl| && p == fl[k] && prevp == fl[k - 1] && p < |mem|
               && mem[p].size >= n >= 1
      modifies this
      ensures Valid() && freep != NULL && |mem| == |old(mem)|
      ensures Gave(old(own), old(live), own, live, b, n)
    {
      b := p;
      if mem[p].size == n {
        WholeStep(mem, fl, own, live, k);
        mem := mem[prevp := mem[prevp].(ptr := mem[p].ptr)];
        fl := fl[..k] + fl[k + 1..];
      } else {
        TailStep(mem, fl, own, live, k, n, mem[p].size - n);
        mem := mem[p := mem[p].(size := mem[p].size - n)];
        b := p + mem[p].size;
        mem := mem[b := mem[b].(size := n)];
      }
      own, live := Taken(own, b, n), live[b := n];
      freep := prevp;
    }

    /** The first call: `base` alone is the list. */
    method Init()
      requires Valid()
      modifies this
      ensures Valid() && freep != NULL && live == old(live) && own == old(own)
      ensures old(freep) != NULL ==> mem == old(mem) && fl == old(fl) && freep == old(freep)
    {
      if freep == NULL {
        mem := mem[BASE := Header(BASE, 0)];
        freep := BASE;
        fl := [BASE];
        assert Node(mem, fl, 0) && Units(mem, fl, own, 0);
      }
    }

    /** Grow the heap; afterwards a search from freep meets a big enough block, at position `g`, before it is round. */
    method Regrow(n: nat, grant: Option<nat>, ghost f0: nat)
      returns (p: nat, ghost more: nat, ghost f: nat, ghost g: nat)
      requires Valid() && freep != NULL && 1 <= n < MAXUNITS && f0 < |fl| && Passed(mem, fl, f0, f0 + |fl| + 1, n)
      modifies this
      ensures Tight(old(own), n)
      ensures Valid() && freep != NULL && live == old(live) && more >= n
      ensures p == NULL <==> grant.None?
      ensures grant.None? ==> own == old(own)
      ensures grant.Some? ==> own == Grown(old(own), grant.value, more, Free) && p == freep
      ensures grant.Some? ==> f < |fl| && fl[f] == freep && Ahead(mem, fl, f, f + 1, g, n)
    {
      ghost var own0 := own;
      ValidIs();
      AllPassed(mem, fl, own, f0, n);
      p, more := MoreCore(n, grant);
      f, g := 0, 0;
      if grant.Some? {
        ghost var hp := |own0| + grant.value;
        ValidIs();
        f :| 0 <= f < |fl| && fl[f] == freep;
        g := Meets(mem, fl, own, f, hp, more);
      }
    }

    lemma SetOut(f: nat, g: nat, n: nat, grew: bool)
      requires Valid() && freep != NULL && f < |fl| && fl[f] == freep && (grew ==> Ahead(mem, fl, f, f + 1, g, n))
      ensures freep < |mem| && Seeks(mem, fl, f, f + 1, g, mem[freep].ptr, freep, n, grew)
    {
      Onward(f);
      Onward(Wrap(f + 1, |fl|));
    }

    lemma GoOn(f: nat, j: nat, g: nat, p: nat, prevp: nat, n: nat, grew: bool)
      requires Valid() && freep != NULL && f < |fl| && fl[f] == freep && Seeks(mem, fl, f, j, g, p, prevp, n, grew)
               && mem[p].size < n && p != freep
      ensures j < f + |fl| && Seeks(mem, fl, f, j + 1, g, mem[p].ptr, p, n, grew)
    {
      assert Sought(0);
      Onward(Wrap(j, |fl|));
      Onward(Wrap(j + 1, |fl|));
      if !grew {
        PassOne(mem, fl, f, j, n);
      }
    }

    lemma ComeRound(f: nat, j: nat, g: nat, p: nat, prevp: nat, n: nat, grew: bool)
      requires Valid() && freep != NULL && f < |fl| && fl[f] == freep && Seeks(mem, fl, f, j, g, p, prevp, n, grew)
               && mem[p].size < n && p == freep
      ensures !grew && f < |fl| && Passed(mem, fl, f, f + |fl| + 1, n)
    {
      assert Sought(0);
      Onward(f);
      if !grew {
        PassOne(mem, fl, f, j, n);
      }
    }

    lemma Found(f: nat, j: nat, g: nat, p: nat, prevp: nat, n: nat, grew: bool) returns (k: nat)
      requires Valid() && freep != NULL && Seeks(mem, fl, f, j, g, p, prevp, n, grew) && mem[p].size >= n >= 1
      ensures 1 <= k < |fl| && p == fl[k] && prevp == fl[k - 1]
    {
      assert Sought(0);
      k := Wrap(j, |fl|);
      Onward(k);
    }

    /**
     * malloc: the first block after freep that is big enough, growing the heap when the search has come
     * round without finding one. Returns the address after the header, 0 when sbrk fails.
     */
    method Alloc(nbytes: nat, grant: Option<nat>) returns (r: nat, ghost grew: bool, ghost more: nat)
      requires Valid() && (nbytes + 15) / 16 + 1 < MAXUNITS
      modifies this
      ensures Valid() && freep != NULL
      ensures r == 0 ==> grant.None? && live == old(live) && own == old(own)
      ensures r == 0 || grew ==> Tight(old(own), (nbytes + 15) / 16 + 1)
      ensures r != 0 ==>
                && (grew ==> grant.Some? && more >= (nbytes + 15) / 16 + 1)
                && Gave(After(old(own), grant, grew, more), old(live), own, live, r - 1, (nbytes + 15) / 16 + 1)
    {
      var nunits := (nbytes + 15) / 16 + 1;
      grew, more := false, 0;
      Init();
      ghost var live0, own0 := live, own;
      ghost var f: nat :| f < |fl| && fl[f] == freep;
      ghost var j: nat, g: nat := f + 1, 0;
      SetOut(f, g, nunits, false);
      var prevp := freep;
      var p := mem[prevp].ptr;
      while true
        invariant Valid() && freep != NULL && live == live0 && own == After(own0, grant, grew, more)
        invariant grew ==> grant.Some? && more >= nunits && Tight(own0, nunits)
        invariant f < |fl| && fl[f] == freep && Seeks(mem, fl, f, j, g, p, prevp, nunits, grew)
        decreases if grew then 0 else 1, f + |fl| - j
      {
        if mem[p].size >= nunits {
          ghost var k := Found(f, j, g, p, prevp, nunits, grew);
          var b := TakeFrom(p, prevp, nunits, k);
          return b + 1, grew, more;
        }
        if p == freep {
          ComeRound(f, j, g, p, prevp, nunits, grew);
          p, more, f, g := Regrow(nunits, grant, f);
          if p == NULL {
            return 0, false, more;
          }
          grew, j := true, f + 1;
          SetOut(f, g, nunits, true);
        } else {
          GoOn(f, j, g, p, prevp, nunits, grew);
          j := j + 1;
        }
        prevp := p;
        p := mem[p].ptr;
      }
    }
  }
}
