/**
 * The heap of user/umalloc.c in header-sized units: a circular, address-ordered free
 * list of blocks, and an owner for every unit.
 */
module MallocModel {
  /** NULL, and the static header `base`, which lies below everything sbrk returns. */
  const NULL: nat := 0
  const BASE: nat := 1

  datatype Header = Header(ptr: nat, size: nat)

  /** Memory, one header per unit; only the headers of blocks matter. */
  type Mem = seq<Header>

  datatype Owner =
    | Foreign          // not the allocator's: below the heap, or other callers of sbrk
    | Base
    | Free
    | Live(a: nat)     // in the allocated block whose header is at a

  type Owners = seq<Owner>

  /** Where the k-th free block ends, and where the next one (or the memory's end) begins. */
  function End(mem: Mem, fl: seq<nat>, k: nat): (e: nat)
    requires k < |fl| && fl[k] < |mem|
  {
    fl[k] + mem[fl[k]].size
  }

  function Next(mem: Mem, fl: seq<nat>, k: nat): (n: nat)
    requires k < |fl|
  {
    if k + 1 < |fl| then fl[k + 1] else |mem|
  }

  /** The k-th block of the list: linked, disjoint from the next, and not adjacent to it. */
  ghost predicate Node(mem: Mem, fl: seq<nat>, k: nat)
    requires k < |fl|
  {
    && fl[k] < |mem| && mem[fl[k]].ptr == (if k + 1 < |fl| then fl[k + 1] else BASE)
    && (if k == 0 then fl[k] == BASE && mem[BASE].size == 0 else mem[fl[k]].size >= 1)
    && End(mem, fl, k) <= |mem| && End(mem, fl, k) <= Next(mem, fl, k) && (k + 1 < |fl| ==> End(mem, fl, k) < fl[k + 1])
  }

  /** Its units are free, and those up to the next block are not. */
  ghost predicate Units(mem: Mem, fl: seq<nat>, own: Owners, k: nat)
    requires k < |fl| && |own| == |mem| && Node(mem, fl, k)
  {
    && (forall u {:trigger own[u]} :: 0 <= u < |own| && fl[k] <= u < End(mem, fl, k) ==> own[u] == Free)
    && (forall u {:trigger own[u]} :: 0 <= u < |own| && End(mem, fl, k) <= u < Next(mem, fl, k) ==> own[u] != Free)
  }

  ghost predicate ListOk(mem: Mem, fl: seq<nat>, own: Owners) {
    && |fl| >= 1 && |own| == |mem| > BASE
    && (forall j, k :: 0 <= j < k < |fl| ==> fl[j] < fl[k])
    && (forall k {:trigger Node(mem, fl, k)} :: 0 <= k < |fl| ==> Node(mem, fl, k))
    && (forall k {:trigger Units(mem, fl, own, k)} :: 0 <= k < |fl| ==> Units(mem, fl, own, k))
  }

  /** An allocated block owns its units. */
  ghost predicate Block(mem: Mem, own: Owners, live: map<nat, nat>, a: nat)
    requires a in live && |own| == |mem|
  {
    && BASE < a && live[a] >= 1 && a + live[a] <= |mem| && mem[a].size == live[a]
    && (forall u {:trigger own[u]} :: a <= u < a + live[a] ==> own[u] == Live(a))
  }

  ghost predicate LiveOk(mem: Mem, own: Owners, live: map<nat, nat>) {
    && |own| == |mem| > BASE && own[BASE] == Base
    && (forall a {:trigger Block(mem, own, live, a)} :: a in live ==> Block(mem, own, live, a))
    && (forall u {:trigger own[u]} :: 0 <= u < |own| && own[u].Live? ==>
          own[u].a in live && own[u].a <= u < own[u].a + live[own[u].a])
  }

  ghost predicate HeapOk(mem: Mem, fl: seq<nat>, own: Owners, live: map<nat, nat>) {
    ListOk(mem, fl, own) && LiveOk(mem, own, live)
  }

  /** Allocated blocks do not overlap. */
  lemma LiveDisjoint(mem: Mem, own: Owners, live: map<nat, nat>, a: nat, b: nat)
    requires LiveOk(mem, own, live) && a in live && b in live && a < b
    ensures a + live[a] <= b
  {
    assert Block(mem, own, live, a) && Block(mem, own, live, b);
    assert own[b] == Live(b);
  }

  /** No allocated block overlaps a free one. */
  lemma LiveNotFree(mem: Mem, fl: seq<nat>, own: Owners, live: map<nat, nat>, a: nat, k: nat)
    requires HeapOk(mem, fl, own, live) && a in live && k < |fl|
    ensures Node(mem, fl, k) && (a + live[a] <= fl[k] || End(mem, fl, k) <= a)
  {
    assert Block(mem, own, live, a) && Node(mem, fl, k) && Units(mem, fl, own, k);
    assert own[a] == Live(a);
    assert fl[k] < End(mem, fl, k) ==> own[fl[k]] == Free;
  }

  // ----------------------------------------------------- where a block belongs

  /** The last list element below `b`. */
  function Slot(fl: seq<nat>, b: nat, k: nat): (t: nat)
    requires k < |fl| && fl[0] < b
    ensures t <= k && fl[t] < b
    ensures (forall i, j :: 0 <= i < j < |fl| ==> fl[i] < fl[j]) ==> t == k || b <= fl[t + 1]
  {
    if fl[k] < b then k else Slot(fl, b, k - 1)
  }

  /** A live block lies in the gap after its slot. */
  lemma SlotGap(mem: Mem, fl: seq<nat>, own: Owners, live: map<nat, nat>, b: nat)
    requires HeapOk(mem, fl, own, live) && b in live
    ensures fl[0] == BASE < b
    ensures var t := Slot(fl, b, |fl| - 1);
            Node(mem, fl, t) && End(mem, fl, t) <= b && b + live[b] <= Next(mem, fl, t)
  {
    assert Node(mem, fl, 0) && Block(mem, own, live, b);
    var t := Slot(fl, b, |fl| - 1);
    LiveNotFree(mem, fl, own, live, b, t);
    if t + 1 < |fl| { LiveNotFree(mem, fl, own, live, b, t + 1); }
  }

  // ---------------------------------------------------------- freeing a block

  /** The block's units, given back. */
  function Released(own: Owners, b: nat, n: nat): (own': Owners)
    requires b + n <= |own|
    ensures |own'| == |own|
    ensures forall u {:trigger own'[u]} :: 0 <= u < |own| ==> own'[u] == if b <= u < b + n then Free else own[u]
  {
    seq(|own|, u requires 0 <= u < |own| => if b <= u < b + n then Free else own[u])
  }

  lemma ReleaseLive(mem: Mem, own: Owners, live: map<nat, nat>, mem': Mem, b: nat)
    requires LiveOk(mem, own, live) && b in live && b + live[b] <= |own| && |mem'| == |mem|
    requires forall a :: a in live && a != b ==> a < |mem| && mem'[a].size == mem[a].size
    ensures LiveOk(mem', Released(own, b, live[b]), live - {b})
  {
    var own', live' := Released(own, b, live[b]), live - {b};
    assert Block(mem, own, live, b);
    forall a | a in live' ensures Block(mem', own', live', a) {
      assert Block(mem, own, live, a);
      forall u | a <= u < a + live[a] ensures own'[u] == Live(a) { assert own[u] == Live(a); }
    }
    forall u | 0 <= u < |own'| && own'[u].Live?
      ensures own'[u].a in live' && own'[u].a <= u < own'[u].a + live'[own'[u].a]
    {
      assert own[u] == own'[u];
    }
  }

  /** The free list with the block in it: merged with the next block, with the previous one, with both or neither. */
  function Inserted(mem: Mem, fl: seq<nat>, t: nat, b: nat, n: nat): (r: seq<nat>)
    requires t < |fl| && fl[t] < |mem|
  {
    var up := t + 1 < |fl| && b + n == fl[t + 1];
    var down := End(mem, fl, t) == b;
    if up && down then fl[..t + 1] + fl[t + 2..]
    else if up then fl[t + 1 := b]
    else if down then fl
    else fl[..t + 1] + [b] + fl[t + 1..]
  }

  /** The headers that free writes. */
  function Merged(mem: Mem, fl: seq<nat>, t: nat, b: nat): (mem': Mem)
    requires t < |fl| && fl[t] < |mem| && b < |mem| && fl[t] != b
    requires forall k :: 0 <= k < |fl| ==> fl[k] < |mem|
    ensures |mem'| == |mem|
  {
    var p := fl[t];
    var nx := if t + 1 < |fl| then fl[t + 1] else BASE;
    var h := if b + mem[b].size == nx then Header(mem[nx].ptr, mem[b].size + mem[nx].size) else Header(nx, mem[b].size);
    var mem1 := mem[b := h];
    if p + mem[p].size == b then mem1[p := Header(h.ptr, mem[p].size + h.size)]
    else mem1[p := Header(b, mem[p].size)]
  }

  /** What free needs to know about the slot it found. */
  ghost predicate Fits(mem: Mem, fl: seq<nat>, own: Owners, t: nat, b: nat, n: nat) {
    && ListOk(mem, fl, own) && t < |fl| && b + n <= |mem| && n >= 1 && BASE < b
    && Node(mem, fl, t) && End(mem, fl, t) <= b && b + n <= Next(mem, fl, t) && mem[b].size == n
  }

  /** A block that free did not write, seen from both lists. */
  lemma SameNode(mem: Mem, fl: seq<nat>, own: Owners, mem': Mem, fl': seq<nat>, own': Owners, j: nat, k: nat)
    requires ListOk(mem, fl, own) && j < |fl| && k < |fl'| && |own'| == |mem'| == |mem|
    requires fl'[k] == fl[j] && (k == 0 <==> j == 0)
    requires if j + 1 < |fl| then k + 1 < |fl'| && fl'[k + 1] == fl[j + 1] else k + 1 == |fl'|
    requires fl[j] < |mem| && mem'[fl[j]] == mem[fl[j]]
    requires forall u {:trigger own'[u]} :: 0 <= u < |own| && fl[j] <= u < Next(mem, fl, j) ==> own'[u] == own[u]
    ensures Node(mem', fl', k) && Units(mem', fl', own', k)
  {
    assert Node(mem, fl, j) && Units(mem, fl, own, j);
  }

  ghost predicate Sorted(fl: seq<nat>) {
    forall j, k :: 0 <= j < k < |fl| ==> fl[j] < fl[k]
  }

  // free merges with neither neighbour

  lemma ApartAt(mem: Mem, fl: seq<nat>, own: Owners, t: nat, b: nat, n: nat, k: nat)
    requires Fits(mem, fl, own, t, b, n) && fl[t] < b && (forall k :: 0 <= k < |fl| ==> fl[k] < |mem|)
    requires End(mem, fl, t) != b && !(t + 1 < |fl| && b + n == fl[t + 1])
    requires k < |fl| + 1
    ensures var mem', fl', own' := Merged(mem, fl, t, b), fl[..t + 1] + [b] + fl[t + 1..], Released(own, b, n);
            Node(mem', fl', k) && Units(mem', fl', own', k)
  {
    var mem', fl', own' := Merged(mem, fl, t, b), fl[..t + 1] + [b] + fl[t + 1..], Released(own, b, n);
    if k < t {
      Ordered(mem, fl, own, k, t);
      SameNode(mem, fl, own, mem', fl', own', k, k);
    } else if k > t + 1 {
      SameNode(mem, fl, own, mem', fl', own', k - 1, k);
    } else {
      assert Units(mem, fl, own, t);
      assert fl'[t] == fl[t] && fl'[t + 1] == b && (t + 1 < |fl| ==> fl'[t + 2] == fl[t + 1]);
    }
  }

  lemma InsertApart(mem: Mem, fl: seq<nat>, own: Owners, t: nat, b: nat, n: nat)
    requires Fits(mem, fl, own, t, b, n) && fl[t] < b && (forall k :: 0 <= k < |fl| ==> fl[k] < |mem|)
    requires End(mem, fl, t) != b && !(t + 1 < |fl| && b + n == fl[t + 1])
    ensures ListOk(Merged(mem, fl, t, b), Inserted(mem, fl, t, b, n), Released(own, b, n))
  {
    var mem', fl', own' := Merged(mem, fl, t, b), fl[..t + 1] + [b] + fl[t + 1..], Released(own, b, n);
    assert Sorted(fl');
    forall k | 0 <= k < |fl'| ensures Node(mem', fl', k) && Units(mem', fl', own', k) {
      ApartAt(mem, fl, own, t, b, n, k);
    }
  }

  // free merges with the next block only

  lemma UpAt(mem: Mem, fl: seq<nat>, own: Owners, t: nat, b: nat, n: nat, k: nat)
    requires Fits(mem, fl, own, t, b, n) && fl[t] < b && (forall k :: 0 <= k < |fl| ==> fl[k] < |mem|)
    requires End(mem, fl, t) != b && t + 1 < |fl| && b + n == fl[t + 1] && k < |fl|
    ensures var mem', fl', own' := Merged(mem, fl, t, b), fl[t + 1 := b], Released(own, b, n);
            Node(mem', fl', k) && Units(mem', fl', own', k)
  {
    var mem', fl', own' := Merged(mem, fl, t, b), fl[t + 1 := b], Released(own, b, n);
    if k < t {
      Ordered(mem, fl, own, k, t);
      SameNode(mem, fl, own, mem', fl', own', k, k);
    } else if k > t + 1 {
      SameNode(mem, fl, own, mem', fl', own', k, k);
    } else {
      assert Units(mem, fl, own, t) && Node(mem, fl, t + 1) && Units(mem, fl, own, t + 1);
    }
  }

  lemma InsertUp(mem: Mem, fl: seq<nat>, own: Owners, t: nat, b: nat, n: nat)
    requires Fits(mem, fl, own, t, b, n) && fl[t] < b && (forall k :: 0 <= k < |fl| ==> fl[k] < |mem|)
    requires End(mem, fl, t) != b && t + 1 < |fl| && b + n == fl[t + 1]
    ensures ListOk(Merged(mem, fl, t, b), Inserted(mem, fl, t, b, n), Released(own, b, n))
  {
    var mem', fl', own' := Merged(mem, fl, t, b), fl[t + 1 := b], Released(own, b, n);
    assert Sorted(fl');
    forall k | 0 <= k < |fl'| ensures Node(mem', fl', k) && Units(mem', fl', own', k) {
      UpAt(mem, fl, own, t, b, n, k);
    }
  }

  // free merges with the previous block only

  lemma DownAt(mem: Mem, fl: seq<nat>, own: Owners, t: nat, b: nat, n: nat, k: nat)
    requires Fits(mem, fl, own, t, b, n) && fl[t] < b && (forall k :: 0 <= k < |fl| ==> fl[k] < |mem|)
    requires End(mem, fl, t) == b && !(t + 1 < |fl| && b + n == fl[t + 1]) && k < |fl|
    ensures var mem', own' := Merged(mem, fl, t, b), Released(own, b, n);
            Node(mem', fl, k) && Units(mem', fl, own', k)
  {
    var mem', own' := Merged(mem, fl, t, b), Released(own, b, n);
    if k < t {
      Ordered(mem, fl, own, k, t);
      SameNode(mem, fl, own, mem', fl, own', k, k);
    } else if k > t {
      SameNode(mem, fl, own, mem', fl, own', k, k);
    } else {
      assert Units(mem, fl, own, t);
    }
  }

  lemma InsertDown(mem: Mem, fl: seq<nat>, own: Owners, t: nat, b: nat, n: nat)
    requires Fits(mem, fl, own, t, b, n) && fl[t] < b && (forall k :: 0 <= k < |fl| ==> fl[k] < |mem|)
    requires End(mem, fl, t) == b && !(t + 1 < |fl| && b + n == fl[t + 1])
    ensures ListOk(Merged(mem, fl, t, b), Inserted(mem, fl, t, b, n), Released(own, b, n))
  {
    var mem', own' := Merged(mem, fl, t, b), Released(own, b, n);
    forall k | 0 <= k < |fl| ensures Node(mem', fl, k) && Units(mem', fl, own', k) {
      DownAt(mem, fl, own, t, b, n, k);
    }
  }

  // free closes the gap between two blocks

  lemma BothAt(mem: Mem, fl: seq<nat>, own: Owners, t: nat, b: nat, n: nat, k: nat)
    requires Fits(mem, fl, own, t, b, n) && fl[t] < b && (forall k :: 0 <= k < |fl| ==> fl[k] < |mem|)
    requires End(mem, fl, t) == b && t + 1 < |fl| && b + n == fl[t + 1] && k < |fl| - 1
    ensures var mem', fl', own' := Merged(mem, fl, t, b), fl[..t + 1] + fl[t + 2..], Released(own, b, n);
            Node(mem', fl', k) && Units(mem', fl', own', k)
  {
    var mem', fl', own' := Merged(mem, fl, t, b), fl[..t + 1] + fl[t + 2..], Released(own, b, n);
    if k < t {
      Ordered(mem, fl, own, k, t);
      SameNode(mem, fl, own, mem', fl', own', k, k);
    } else if k > t {
      SameNode(mem, fl, own, mem', fl', own', k + 1, k);
    } else {
      assert Units(mem, fl, own, t) && Node(mem, fl, t + 1) && Units(mem, fl, own, t + 1);
      assert fl'[t] == fl[t] && (t + 2 < |fl| ==> fl'[t + 1] == fl[t + 2]);
    }
  }

  lemma InsertBoth(mem: Mem, fl: seq<nat>, own: Owners, t: nat, b: nat, n: nat)
    requires Fits(mem, fl, own, t, b, n) && fl[t] < b && (forall k :: 0 <= k < |fl| ==> fl[k] < |mem|)
    requires End(mem, fl, t) == b && t + 1 < |fl| && b + n == fl[t + 1]
    ensures ListOk(Merged(mem, fl, t, b), Inserted(mem, fl, t, b, n), Released(own, b, n))
  {
    var mem', fl', own' := Merged(mem, fl, t, b), fl[..t + 1] + fl[t + 2..], Released(own, b, n);
    assert Sorted(fl');
    forall k | 0 <= k < |fl'| ensures Node(mem', fl', k) && Units(mem', fl', own', k) {
      BothAt(mem, fl, own, t, b, n, k);
    }
  }

  /** Free blocks come in order, each ending before the next begins. */
  lemma Ordered(mem: Mem, fl: seq<nat>, own: Owners, j: nat, k: nat)
    requires ListOk(mem, fl, own) && j < k < |fl|
    ensures fl[j] < |mem| && End(mem, fl, j) <= fl[j + 1] <= fl[k]
  {
    assert Node(mem, fl, j);
  }

  // -------------------------------------------------------- allocating a block

  function Taken(own: Owners, b: nat, n: nat): (own': Owners)
    requires b + n <= |own|
    ensures |own'| == |own|
    ensures forall u {:trigger own'[u]} :: 0 <= u < |own| ==> own'[u] == if b <= u < b + n then Live(b) else own[u]
  {
    seq(|own|, u requires 0 <= u < |own| => if b <= u < b + n then Live(b) else own[u])
  }

  /** Free units made into a block disturb no other block. */
  lemma TakeLive(mem: Mem, own: Owners, live: map<nat, nat>, mem': Mem, b: nat, n: nat)
    requires LiveOk(mem, own, live) && BASE < b && n >= 1 && b + n <= |own| && |mem'| == |mem| && mem'[b].size == n
    requires forall u :: b <= u < b + n ==> own[u] == Free
    requires forall a :: a in live ==> a < |mem| && mem'[a].size == mem[a].size
    ensures LiveOk(mem', Taken(own, b, n), live[b := n]) && b !in live
  {
    var own', live' := Taken(own, b, n), live[b := n];
    assert own[b] == Free;
    assert b in live ==> Block(mem, own, live, b);
    forall a | a in live' ensures Block(mem', own', live', a) {
      if a != b {
        assert Block(mem, own, live, a);
        forall u | a <= u < a + live[a] ensures own'[u] == Live(a) { assert own[u] == Live(a); }
      }
    }
    forall u | 0 <= u < |own'| && own'[u].Live?
      ensures own'[u].a in live' && own'[u].a <= u < own'[u].a + live'[own'[u].a]
    {
      assert own'[u] == if b <= u < b + n then Live(b) else own[u];
    }
  }

  lemma WholeAt(mem: Mem, fl: seq<nat>, own: Owners, k: nat, j: nat)
    requires ListOk(mem, fl, own) && 1 <= k < |fl| && Node(mem, fl, k) && Node(mem, fl, k - 1) && j < |fl| - 1
    ensures var n := mem[fl[k]].size;
            var mem', fl', own' := mem[fl[k - 1] := mem[fl[k - 1]].(ptr := mem[fl[k]].ptr)], fl[..k] + fl[k + 1..],
              Taken(own, fl[k], n);
            Node(mem', fl', j) && Units(mem', fl', own', j)
  {
    var n := mem[fl[k]].size;
    var mem', fl', own' := mem[fl[k - 1] := mem[fl[k - 1]].(ptr := mem[fl[k]].ptr)], fl[..k] + fl[k + 1..],
      Taken(own, fl[k], n);
    if j + 1 < k {
      Ordered(mem, fl, own, j, k - 1);
      SameNode(mem, fl, own, mem', fl', own', j, j);
    } else if j >= k {
      Ordered(mem, fl, own, k, j + 1);
      assert Node(mem, fl, j + 1);
      SameNode(mem, fl, own, mem', fl', own', j + 1, j);
    } else {
      assert Units(mem, fl, own, k - 1) && Units(mem, fl, own, k);
      assert fl'[j] == fl[j] && (k + 1 < |fl| ==> fl'[k] == fl[k + 1]);
    }
  }

  /** malloc unlinks a block of just the right size. */
  lemma TakeWhole(mem: Mem, fl: seq<nat>, own: Owners, live: map<nat, nat>, k: nat)
    requires HeapOk(mem, fl, own, live) && 1 <= k < |fl| && Node(mem, fl, k) && Node(mem, fl, k - 1)
    ensures var p, n := fl[k], mem[fl[k]].size;
            && p !in live
            && HeapOk(mem[fl[k - 1] := mem[fl[k - 1]].(ptr := mem[p].ptr)], fl[..k] + fl[k + 1..], Taken(own, p, n),
                      live[p := n])
  {
    var p, n := fl[k], mem[fl[k]].size;
    var mem', fl', own' := mem[fl[k - 1] := mem[fl[k - 1]].(ptr := mem[p].ptr)], fl[..k] + fl[k + 1..],
      Taken(own, p, n);
    assert Units(mem, fl, own, k);
    assert Node(mem, fl, 0);
    forall a | a in live ensures a < |mem| && mem'[a].size == mem[a].size { assert Block(mem, own, live, a); }
    TakeLive(mem, own, live, mem', p, n);
    assert Sorted(fl');
    forall j | 0 <= j < |fl'| ensures Node(mem', fl', j) && Units(mem', fl', own', j) {
      WholeAt(mem, fl, own, k, j);
    }
  }

  /** malloc cuts the tail off a larger block. */
  lemma TakeTail(mem: Mem, fl: seq<nat>, own: Owners, live: map<nat, nat>, k: nat, n: nat, rest: nat)
    requires HeapOk(mem, fl, own, live) && 1 <= k < |fl| && Node(mem, fl, k) && n >= 1 && rest >= 1
             && mem[fl[k]].size == rest + n
    ensures fl[k] + rest < |mem| && fl[k] + rest !in live
    ensures var b := fl[k] + rest;
            var mem' := mem[fl[k] := mem[fl[k]].(size := rest)];
            HeapOk(mem'[b := mem'[b].(size := n)], fl, Taken(own, b, n), live[b := n])
  {
    var p, b := fl[k], fl[k] + rest;
    var mem' := mem[p := mem[p].(size := rest)][b := mem[b].(size := n)];
    var own' := Taken(own, b, n);
    assert Units(mem, fl, own, k);
    assert Node(mem, fl, 0);
    assert own[p] == Free && own[b] == Free;
    forall a | a in live ensures a < |mem| && mem'[a].size == mem[a].size {
      assert Block(mem, own, live, a); assert own[a] == Live(a);
    }
    TakeLive(mem, own, live, mem', b, n);
    forall j | 0 <= j < |fl| ensures Node(mem', fl, j) && Units(mem', fl, own', j) {
      if j < k {
        Ordered(mem, fl, own, j, k);
        SameNode(mem, fl, own, mem', fl, own', j, j);
      } else if j > k {
        Ordered(mem, fl, own, k, j);
        assert Node(mem, fl, j);
        SameNode(mem, fl, own, mem', fl, own', j, j);
      }
    }
  }

  // ------------------------------------------------------------- growing the heap

  /** What sbrk adds: perhaps space that others have claimed meanwhile, then `n` units for the caller. */
  function Grown(own: Owners, gap: nat, n: nat, o: Owner): (own': Owners)
    ensures |own'| == |own| + gap + n
    ensures forall u {:trigger own'[u]} :: 0 <= u < |own'| ==>
      own'[u] == if u < |own| then own[u] else if u < |own| + gap then Foreign else o
  {
    own + seq(gap, _ => Foreign) + seq(n, _ => o)
  }

  /** morecore's new block, before it is handed to free. */
  lemma Grow(mem: Mem, fl: seq<nat>, own: Owners, live: map<nat, nat>, mem': Mem, gap: nat, n: nat)
    requires HeapOk(mem, fl, own, live) && n >= 1 && |mem'| == |mem| + gap + n && mem'[..|mem|] == mem
    requires mem'[|mem| + gap].size == n
    ensures HeapOk(mem', fl, Grown(own, gap, n, Live(|mem| + gap)), live[|mem| + gap := n])
  {
    var hp := |mem| + gap;
    var own', live' := Grown(own, gap, n, Live(hp)), live[hp := n];
    assert forall a :: 0 <= a < |mem| ==> mem'[a] == mem[a];
    forall k | 0 <= k < |fl| ensures Node(mem', fl, k) && Units(mem', fl, own', k) {
      assert Node(mem, fl, k) && Units(mem, fl, own, k);
    }
    forall a | a in live' ensures Block(mem', own', live', a) {
      if a != hp {
        assert Block(mem, own, live, a);
        forall u | a <= u < a + live[a] ensures own'[u] == Live(a) { assert own[u] == Live(a); }
      }
    }
    forall a | a in live ensures a != hp { assert Block(mem, own, live, a); }
    forall u | 0 <= u < |own'| && own'[u].Live?
      ensures own'[u].a in live' && own'[u].a <= u < own'[u].a + live'[own'[u].a]
    {
      assert u < |own| ==> own[u] == own'[u];
    }
  }

  /** A run of free units lies within one block of the list. */
  lemma FreeRun(mem: Mem, fl: seq<nat>, own: Owners, u: nat, n: nat)
    requires ListOk(mem, fl, own) && n >= 1 && u + n <= |own| && BASE < u
    requires forall v :: u <= v < u + n ==> own[v] == Free
    ensures fl[0] < u + 1
    ensures var k := Slot(fl, u + 1, |fl| - 1); k >= 1 && Node(mem, fl, k) && mem[fl[k]].size >= n
  {
    assert Node(mem, fl, 0);
    var k := Slot(fl, u + 1, |fl| - 1);
    assert Node(mem, fl, k) && Units(mem, fl, own, k);
    assert own[u] == Free;
    var e := End(mem, fl, k);
    var after := if e < |own| then own[e] else Foreign;
    assert u <= e < u + n ==> after == Free;
  }
}
