/** Descriptors, rings and requests of kernel/virtio_disk.c, with the history that ties them together. */
module VirtioModel {
  import opened Common
  import opened Sets

  /** Descriptors in the table, and entries in each ring. */
  const NUM: nat := 8

  datatype Addr = Nowhere | Req(i: nat) | Buf(b: nat) | Status(i: nat)

  /** A descriptor: address, the device-writes flag, the next flag and link. */
  datatype Desc = Desc(addr: Addr, write: bool, more: bool, next: nat)

  const NODESC: Desc := Desc(Nowhere, false, false, 0)

  /** struct virtio_blk_req: write or read, and the sector. */
  datatype Op = Op(out: bool, sector: nat)

  /** disk.info[i]: the buffer of the request, and the status byte. */
  datatype Info = Info(b: Option<nat>, status: nat)

  /** What a descriptor is used for. */
  datatype Role = Idle | Held | Head | Second(h: nat) | Third(h: nat)

  /**
   * How far a request has got: posted as the c-th, taken by the device, completed as the c-th, seen by the interrupt
   * handler.
   */
  datatype Phase = Posted(c: nat) | Taken | Done(c: nat) | Seen

  /** A request in flight: its other two descriptors, buffer, block number and direction. */
  datatype Chain = Chain(d1: nat, d2: nat, b: nat, bno: nat, out: bool, phase: Phase)

  /** The request that starts at each descriptor, if one does. */
  type Chains = seq<Option<Chain>>

  /** A counter as a uint16, n mod 65536. */
  function U16(n: nat): (r: nat)
    ensures r < 65536
  {
    if n < 65536 then n else U16(n - 65536)
  }

  /** Ring position, n mod NUM; it does not matter that the counter behind it wraps. */
  function At(n: nat): (r: nat)
    ensures r < NUM
  {
    if n < NUM then n else At(n - NUM)
  }

  lemma {:induction false} U16Is(n: nat)
    ensures U16(n) == n % 65536
  {
    if n >= 65536 { U16Is(n - 65536); }
  }

  lemma {:induction false} AtIs(n: nat)
    ensures At(n) == n % 8
  {
    if n >= NUM { AtIs(n - NUM); }
  }

  lemma WrapAgrees(n: nat)
    ensures At(U16(n)) == At(n) && U16(U16(n) + 1) == U16(n + 1)
  {
    U16Is(n);
    U16Is(n + 1);
    U16Is(n % 65536 + 1);
    AtIs(n);
    AtIs(n % 65536);
    ModMod(n);
  }

  lemma ModMod(n: nat)
    ensures n % 65536 % 8 == n % 8 && (n % 65536 + 1) % 65536 == (n + 1) % 65536
  {
    var q := n / 65536;
    assert n == 65536 * q + n % 65536;
    assert n % 8 == (n % 65536) % 8;
  }

  /** Counters less than a wrap apart are equal exactly when their 16-bit images are. */
  lemma WrapExact(a: nat, b: nat)
    requires a <= b <= a + NUM
    ensures U16(a) == U16(b) <==> a == b
  {
  }

  // ------------------------------------------------------------- counting

  function Count(free: seq<bool>): (n: nat) {
    if |free| == 0 then 0 else Count(free[..|free| - 1]) + (if free[|free| - 1] then 1 else 0)
  }

  lemma {:induction false} CountSet(free: seq<bool>, i: nat, v: bool)
    requires i < |free|
    ensures Count(free[i := v]) == Count(free) - (if free[i] then 1 else 0) + (if v then 1 else 0)
  {
    var n := |free| - 1;
    if i == n {
      assert free[i := v][..n] == free[..n];
    } else {
      assert free[i := v][..n] == free[..n][i := v];
      CountSet(free[..n], i, v);
    }
  }

  lemma {:induction false} CountNone(free: seq<bool>)
    requires forall i :: 0 <= i < |free| ==> !free[i]
    ensures Count(free) == 0
  {
    if |free| > 0 { CountNone(free[..|free| - 1]); }
  }

  lemma {:induction false} CountAll(free: seq<bool>)
    requires forall i :: 0 <= i < |free| ==> free[i]
    ensures Count(free) == |free|
  {
    if |free| > 0 { CountAll(free[..|free| - 1]); }
  }

  /** Whether `i` is one of the first `n` (at most three) numbers of a list. */
  predicate Among(idx: seq<nat>, n: nat, i: nat)
    requires n <= |idx|
  {
    (n > 0 && idx[0] == i) || (n > 1 && idx[1] == i) || (n > 2 && idx[2] == i)
  }

  /** Distinct numbers below NUM other than `h`: at most NUM - 1 of them. */
  lemma Pigeons(s: seq<nat>, h: nat)
    requires h < NUM && (forall i :: 0 <= i < |s| ==> s[i] < NUM && s[i] != h)
    requires forall i, j :: 0 <= i < j < |s| ==> s[i] != s[j]
    ensures |s| < NUM
  {
    var t := set i | 0 <= i < |s| :: s[i];
    Image(s, t);
    assert |t + {h}| == |t| + 1;
    RangeSize(0, NUM, t + {h});
  }

  // ------------------------------------------------------------- invariants

  predicate Uses(c: Chain, h: nat, i: nat) { i == h || i == c.d1 || i == c.d2 }

  /** Request `h` has its three descriptors to itself. */
  ghost predicate Placed(role: seq<Role>, h: nat, c: Chain) {
    && |role| == NUM && h < NUM && c.d1 < NUM && c.d2 < NUM
    && role[h] == Head && role[c.d1] == Second(h) && role[c.d2] == Third(h)
  }

  /** Descriptor `i` is free, held by running driver code, or one of the three of the request it names. */
  ghost predicate Named(free: seq<bool>, role: seq<Role>, chains: Chains, i: nat)
    requires |free| == NUM && |role| == NUM && |chains| == NUM && i < NUM
  {
    && (free[i] <==> role[i] == Idle)
    && match role[i]
       case Head => chains[i].Some?
       case Second(h) => h < NUM && chains[h].Some? && chains[h].value.d1 == i
       case Third(h) => h < NUM && chains[h].Some? && chains[h].value.d2 == i
       case _ => true
  }

  ghost predicate RolesOk(free: seq<bool>, role: seq<Role>, chains: Chains) {
    && |free| == NUM && |role| == NUM && |chains| == NUM
    && (forall i {:trigger Named(free, role, chains, i)} :: 0 <= i < NUM ==> Named(free, role, chains, i))
    && (forall h {:trigger Placed(role, h, chains[h].value)} :: 0 <= h < NUM && chains[h].Some? ==>
        Placed(role, h, chains[h].value))
  }

  /** A request is laid out in its descriptors as the device expects to find it. */
  ghost predicate ChainOk(desc: seq<Desc>, ops: seq<Op>, info: seq<Info>, busy: set<nat>, h: nat, c: Chain) {
    && |desc| == NUM && |ops| == NUM && |info| == NUM && h < NUM && c.d1 < NUM && c.d2 < NUM
    && desc[h] == Desc(Req(h), false, true, c.d1)
    && desc[c.d1] == Desc(Buf(c.b), !c.out, true, c.d2)
    && desc[c.d2] == Desc(Status(h), true, false, 0)
    && ops[h] == Op(c.out, 2 * c.bno) && info[h].b == Some(c.b)
    && (c.phase.Done? || c.phase.Seen? ==> info[h].status == 0)
    && (c.b in busy <==> !c.phase.Seen?)
  }

  ghost predicate ChainsOk(desc: seq<Desc>, ops: seq<Op>, info: seq<Info>, busy: set<nat>, chains: Chains) {
    && |chains| == NUM
    && (forall h {:trigger ChainOk(desc, ops, info, busy, h, chains[h].value)} :: 0 <= h < NUM && chains[h].Some? ==>
          ChainOk(desc, ops, info, busy, h, chains[h].value))
  }

  /** No buffer is in two requests. */
  ghost predicate BuffersOk(chains: Chains) {
    && |chains| == NUM
    && (forall g, h :: 0 <= g < h < NUM && chains[g].Some? && chains[h].Some? ==>
        chains[g].value.b != chains[h].value.b)
  }

  /** The c-th entry of the available ring, not yet taken by the device. */
  ghost predicate Waiting(ring: seq<nat>, subs: seq<nat>, chains: Chains, c: nat)
    requires |ring| == NUM && |chains| == NUM && c < |subs|
  {
    var h := subs[c];
    h < NUM && chains[h].Some? && chains[h].value.phase == Posted(c) && ring[At(c)] == h
  }

  /** The available ring from the device's place on holds the posted requests, in order. */
  ghost predicate AvailOk(ring: seq<nat>, subs: seq<nat>, taken: nat, chains: Chains) {
    && |ring| == NUM && |chains| == NUM && taken <= |subs|
    && (forall c {:trigger Waiting(ring, subs, chains, c)} :: taken <= c < |subs| ==> Waiting(ring, subs, chains, c))
    && (forall h {:trigger chains[h].value.phase.c} :: 0 <= h < NUM && chains[h].Some?
                                                       && chains[h].value.phase.Posted? ==>
          taken <= chains[h].value.phase.c < |subs| && subs[chains[h].value.phase.c] == h)
  }

  /** The c-th entry of the used ring, not yet seen by the driver. */
  ghost predicate Reported(ring: seq<nat>, comps: seq<nat>, chains: Chains, c: nat)
    requires |ring| == NUM && |chains| == NUM && c < |comps|
  {
    var h := comps[c];
    h < NUM && chains[h].Some? && chains[h].value.phase == Done(c) && ring[At(c)] == h
  }

  /** The used ring from the driver's place on holds the completed requests, in order. */
  ghost predicate UsedOk(ring: seq<nat>, comps: seq<nat>, seen: nat, chains: Chains) {
    && |ring| == NUM && |chains| == NUM && seen <= |comps|
    && (forall c {:trigger Reported(ring, comps, chains, c)} :: seen <= c < |comps| ==>
        Reported(ring, comps, chains, c))
    && (forall h {:trigger chains[h].value.phase.c} :: 0 <= h < NUM && chains[h].Some?
                                                       && chains[h].value.phase.Done? ==>
          seen <= chains[h].value.phase.c < |comps| && comps[chains[h].value.phase.c] == h)
  }

  /** All of the above. */
  ghost predicate All(desc: seq<Desc>, ops: seq<Op>, info: seq<Info>, busy: set<nat>, free: seq<bool>, role: seq<Role>,
                      chains: Chains, aring: seq<nat>, subs: seq<nat>, taken: nat, uring: seq<nat>, comps: seq<nat>,
                          seen: nat) {
    && RolesOk(free, role, chains) && ChainsOk(desc, ops, info, busy, chains) && BuffersOk(chains)
    && |desc| == NUM && |ops| == NUM && |info| == NUM
    && AvailOk(aring, subs, taken, chains) && UsedOk(uring, comps, seen, chains)
  }

  /** A descriptor that nobody holds is free, or one of the three of exactly one request. */
  lemma Partition(free: seq<bool>, role: seq<Role>, chains: Chains, i: nat)
    requires RolesOk(free, role, chains) && i < NUM && role[i] != Held
    ensures free[i] <==> forall h :: 0 <= h < NUM && chains[h].Some? ==> !Uses(chains[h].value, h, i)
    ensures forall g, h :: 0 <= g < NUM && 0 <= h < NUM && chains[g].Some? && chains[h].Some? ==>
      Uses(chains[g].value, g, i) && Uses(chains[h].value, h, i) ==> g == h
    ensures forall h :: 0 <= h < NUM && chains[h].Some? ==>
      var c := chains[h].value; h != c.d1 && c.d1 != c.d2 && h != c.d2
  {
    assert Named(free, role, chains, i);
    if !free[i] {
      var h := match role[i] case Second(h) => h case Third(h) => h case _ => i;
      assert chains[h].Some? && Uses(chains[h].value, h, i);
    }
    forall h | 0 <= h < NUM && chains[h].Some?
      ensures Placed(role, h, chains[h].value) && (Uses(chains[h].value, h, i) ==>
                !free[i] && (role[i].Second? || role[i].Third? ==> role[i].h == h) && (role[i] == Head ==> h == i))
    {
      assert Placed(role, h, chains[h].value);
    }
  }

  /** No more requests are posted than the ring has room for, whatever descriptor comes next. */
  lemma AvailRoom(ring: seq<nat>, subs: seq<nat>, taken: nat, chains: Chains, h: nat)
    requires AvailOk(ring, subs, taken, chains) && h < NUM && (chains[h].None? || !chains[h].value.phase.Posted?)
    ensures |subs| - taken < NUM
  {
    var s := subs[taken..];
    forall i | 0 <= i < |s|
      ensures s[i] < NUM && s[i] != h && chains[s[i]].Some? && chains[s[i]].value.phase == Posted(taken + i)
    {
      assert subs[taken + i] == s[i] && Waiting(ring, subs, chains, taken + i);
    }
    Pigeons(s, h);
  }

  lemma UsedRoom(ring: seq<nat>, comps: seq<nat>, seen: nat, chains: Chains, h: nat)
    requires UsedOk(ring, comps, seen, chains) && h < NUM && (chains[h].None? || !chains[h].value.phase.Done?)
    ensures |comps| - seen < NUM
  {
    var s := comps[seen..];
    forall i | 0 <= i < |s|
      ensures s[i] < NUM && s[i] != h && chains[s[i]].Some? && chains[s[i]].value.phase == Done(seen + i)
    {
      assert comps[seen + i] == s[i] && Reported(ring, comps, chains, seen + i);
    }
    Pigeons(s, h);
  }

  /** Ring places of fewer than NUM consecutive counts are distinct. */
  lemma AtDistinct(a: nat, b: nat)
    requires a < b < a + NUM
    ensures At(a) != At(b)
  {
  }

  // ------------------------------------------------- changes to one request

  /** One more entry on the available ring overwrites none that the device has yet to take. */
  lemma PostedOk(ring: seq<nat>, subs: seq<nat>, taken: nat, chains: Chains, h: nat, c: Chain)
    requires AvailOk(ring, subs, taken, chains) && h < NUM && chains[h].None? && c.phase == Posted(|subs|)
    ensures AvailOk(ring[At(|subs|) := h], subs + [h], taken, chains[h := Some(c)])
  {
    var ring', subs', chains' := ring[At(|subs|) := h], subs + [h], chains[h := Some(c)];
    AvailRoom(ring, subs, taken, chains, h);
    forall k | taken <= k < |subs'| ensures Waiting(ring', subs', chains', k) {
      if k < |subs| {
        assert Waiting(ring, subs, chains, k);
        AtDistinct(k, |subs|);
      }
    }
    forall x | 0 <= x < NUM && chains'[x].Some? && chains'[x].value.phase.Posted?
      ensures taken <= chains'[x].value.phase.c < |subs'| && subs'[chains'[x].value.phase.c] == x
    {
      assert x != h ==> chains'[x] == chains[x] && taken <= chains[x].value.phase.c < |subs|;
    }
  }

  /** Taking the oldest entry leaves the rest in order. */
  lemma TookOk(ring: seq<nat>, subs: seq<nat>, taken: nat, chains: Chains, h: nat, c: Option<Chain>)
    requires AvailOk(ring, subs, taken, chains) && taken < |subs| && h == subs[taken] < NUM
             && (c.None? || !c.value.phase.Posted?)
    ensures AvailOk(ring, subs, taken + 1, chains[h := c])
  {
    var chains' := chains[h := c];
    assert Waiting(ring, subs, chains, taken);
    forall k | taken + 1 <= k < |subs| ensures Waiting(ring, subs, chains', k) {
      assert Waiting(ring, subs, chains, k);
    }
    forall x | 0 <= x < NUM && chains'[x].Some? && chains'[x].value.phase.Posted?
      ensures taken + 1 <= chains'[x].value.phase.c < |subs| && subs[chains'[x].value.phase.c] == x
    {
      assert chains'[x] == chains[x] && taken <= chains[x].value.phase.c;
    }
  }

  /** A change that is not to or from Posted leaves the available ring's meaning alone. */
  lemma AvailSame(ring: seq<nat>, subs: seq<nat>, taken: nat, chains: Chains, h: nat, c: Option<Chain>)
    requires AvailOk(ring, subs, taken, chains) && h < NUM
    requires (c.None? || !c.value.phase.Posted?) && (chains[h].None? || !chains[h].value.phase.Posted?)
    ensures AvailOk(ring, subs, taken, chains[h := c])
  {
    var chains' := chains[h := c];
    forall k | taken <= k < |subs| ensures Waiting(ring, subs, chains', k) { assert Waiting(ring, subs, chains, k); }
    forall x | 0 <= x < NUM && chains'[x].Some? && chains'[x].value.phase.Posted?
      ensures taken <= chains'[x].value.phase.c < |subs| && subs[chains'[x].value.phase.c] == x
    {
      assert chains'[x] == chains[x] && taken <= chains[x].value.phase.c;
    }
  }

  /** The used ring has room, and the new entry overwrites none that the driver has yet to see. */
  lemma CompletedOk(ring: seq<nat>, comps: seq<nat>, seen: nat, chains: Chains, h: nat, c: Chain)
    requires UsedOk(ring, comps, seen, chains) && h < NUM && (chains[h].None? || !chains[h].value.phase.Done?)
             && c.phase == Done(|comps|)
    ensures UsedOk(ring[At(|comps|) := h], comps + [h], seen, chains[h := Some(c)])
  {
    var ring', comps', chains' := ring[At(|comps|) := h], comps + [h], chains[h := Some(c)];
    UsedRoom(ring, comps, seen, chains, h);
    forall k | seen <= k < |comps'| ensures Reported(ring', comps', chains', k) {
      if k < |comps| {
        assert Reported(ring, comps, chains, k);
        AtDistinct(k, |comps|);
      }
    }
    forall x | 0 <= x < NUM && chains'[x].Some? && chains'[x].value.phase.Done?
      ensures seen <= chains'[x].value.phase.c < |comps'| && comps'[chains'[x].value.phase.c] == x
    {
      assert x != h ==> chains'[x] == chains[x] && seen <= chains[x].value.phase.c < |comps|;
    }
  }

  /** Seeing the oldest completion leaves the rest in order. */
  lemma SawOk(ring: seq<nat>, comps: seq<nat>, seen: nat, chains: Chains, h: nat, c: Option<Chain>)
    requires UsedOk(ring, comps, seen, chains) && seen < |comps| && h == comps[seen] < NUM
             && (c.None? || !c.value.phase.Done?)
    ensures UsedOk(ring, comps, seen + 1, chains[h := c])
  {
    var chains' := chains[h := c];
    assert Reported(ring, comps, chains, seen);
    forall k | seen + 1 <= k < |comps| ensures Reported(ring, comps, chains', k) {
      assert Reported(ring, comps, chains, k);
    }
    forall x | 0 <= x < NUM && chains'[x].Some? && chains'[x].value.phase.Done?
      ensures seen + 1 <= chains'[x].value.phase.c < |comps| && comps[chains'[x].value.phase.c] == x
    {
      assert chains'[x] == chains[x] && seen <= chains[x].value.phase.c;
    }
  }

  /** A change that is not to or from Done leaves the used ring's meaning alone. */
  lemma UsedSame(ring: seq<nat>, comps: seq<nat>, seen: nat, chains: Chains, h: nat, c: Option<Chain>)
    requires UsedOk(ring, comps, seen, chains) && h < NUM
    requires (c.None? || !c.value.phase.Done?) && (chains[h].None? || !chains[h].value.phase.Done?)
    ensures UsedOk(ring, comps, seen, chains[h := c])
  {
    var chains' := chains[h := c];
    forall k | seen <= k < |comps| ensures Reported(ring, comps, chains', k) {
      assert Reported(ring, comps, chains, k);
    }
    forall x | 0 <= x < NUM && chains'[x].Some? && chains'[x].value.phase.Done?
      ensures seen <= chains'[x].value.phase.c < |comps| && comps[chains'[x].value.phase.c] == x
    {
      assert chains'[x] == chains[x] && seen <= chains[x].value.phase.c;
    }
  }

  lemma AvailGap(ring: seq<nat>, subs: seq<nat>, taken: nat, chains: Chains)
    requires AvailOk(ring, subs, taken, chains)
    ensures |subs| <= taken + NUM
  {
    if taken < |subs| {
      assert Waiting(ring, subs, chains, taken);
      TookOk(ring, subs, taken, chains, subs[taken], None);
      AvailRoom(ring, subs, taken + 1, chains[subs[taken] := None], subs[taken]);
    }
  }

  lemma UsedGap(ring: seq<nat>, comps: seq<nat>, seen: nat, chains: Chains)
    requires UsedOk(ring, comps, seen, chains)
    ensures |comps| <= seen + NUM
  {
    if seen < |comps| {
      assert Reported(ring, comps, chains, seen);
      SawOk(ring, comps, seen, chains, comps[seen], None);
      UsedRoom(ring, comps, seen + 1, chains[comps[seen] := None], comps[seen]);
    }
  }

  /** A change of phase leaves descriptors where they are. */
  lemma RolesSame(free: seq<bool>, role: seq<Role>, chains: Chains, h: nat, c: Chain)
    requires RolesOk(free, role, chains) && BuffersOk(chains) && h < NUM && chains[h].Some?
             && c == chains[h].value.(phase := c.phase)
    ensures RolesOk(free, role, chains[h := Some(c)]) && BuffersOk(chains[h := Some(c)])
  {
    var chains' := chains[h := Some(c)];
    forall i | 0 <= i < NUM ensures Named(free, role, chains', i) { assert Named(free, role, chains, i); }
    forall x | 0 <= x < NUM && chains'[x].Some? ensures Placed(role, x, chains'[x].value) {
      assert Placed(role, x, chains[x].value);
    }
  }

  /** The driver takes a free descriptor into its hands, or frees one it holds. */
  lemma RoleFlip(free: seq<bool>, role: seq<Role>, chains: Chains, i: nat, v: bool)
    requires RolesOk(free, role, chains) && i < NUM && (role[i] == Idle || role[i] == Held)
    ensures free[i] <==> role[i] == Idle
    ensures RolesOk(free[i := v], role[i := if v then Idle else Held], chains)
  {
    var free', role' := free[i := v], role[i := if v then Idle else Held];
    assert Named(free, role, chains, i);
    forall j | 0 <= j < NUM ensures Named(free', role', chains, j) { assert Named(free, role, chains, j); }
    forall x | 0 <= x < NUM && chains[x].Some? ensures Placed(role', x, chains[x].value) {
      assert Placed(role, x, chains[x].value);
    }
  }

  lemma RolesPost(free: seq<bool>, role: seq<Role>, chains: Chains, h: nat, c: Chain)
    requires RolesOk(free, role, chains) && h < NUM && c.d1 < NUM && c.d2 < NUM && h != c.d1 && c.d1 != c.d2
             && h != c.d2
    requires role[h] == Held && role[c.d1] == Held && role[c.d2] == Held
    ensures chains[h].None? && RolesOk(free, role[h := Head][c.d1 := Second(h)][c.d2 := Third(h)], chains[h := Some(c)])
  {
    var role', chains' := role[h := Head][c.d1 := Second(h)][c.d2 := Third(h)], chains[h := Some(c)];
    assert chains[h].Some? ==> Placed(role, h, chains[h].value);
    forall i | 0 <= i < NUM ensures Named(free, role', chains', i) { assert Named(free, role, chains, i); }
    forall x | 0 <= x < NUM && chains'[x].Some? ensures Placed(role', x, chains'[x].value) {
      assert x != h ==> Placed(role, x, chains[x].value);
    }
  }

  lemma RolesDrop(free: seq<bool>, role: seq<Role>, chains: Chains, h: nat)
    requires RolesOk(free, role, chains) && h < NUM && chains[h].Some?
    ensures var c := chains[h].value;
            && c.d1 < NUM && c.d2 < NUM && h != c.d1 && c.d1 != c.d2 && h != c.d2
            && RolesOk(free, role[h := Held][c.d1 := Held][c.d2 := Held], chains[h := None])
  {
    var c := chains[h].value;
    assert Placed(role, h, c);
    var chains', role' := chains[h := None], role[h := Held][c.d1 := Held][c.d2 := Held];
    forall i | 0 <= i < NUM ensures Named(free, role', chains', i) { assert Named(free, role, chains, i); }
    forall x | 0 <= x < NUM && chains'[x].Some? ensures Placed(role', x, chains'[x].value) {
      assert Placed(role, x, chains[x].value);
    }
  }

  /** Requests other than `h` are not touched by changes to descriptors that are none of theirs. */
  lemma ChainsSame(desc: seq<Desc>, desc': seq<Desc>, ops: seq<Op>, ops': seq<Op>, info: seq<Info>, info': seq<Info>,
                   busy: set<nat>, busy': set<nat>,
                   role: seq<Role>, chains: Chains, h: nat, c: Option<Chain>)
    requires ChainsOk(desc, ops, info, busy, chains) && h < NUM && |role| == NUM && (role[h] == Held || role[h] == Head)
    requires forall x {:trigger Placed(role, x, chains[x].value)} :: 0 <= x < NUM && chains[x].Some? ==>
               Placed(role, x, chains[x].value)
    requires |desc| == |desc'| == |ops'| == |info'| == NUM
    requires forall i :: 0 <= i < NUM && i != h && desc'[i] != desc[i] ==>
               role[i] == Idle || role[i] == Held || ((role[i].Second? || role[i].Third?) && role[i].h == h)
    requires |ops| == |info| == NUM && forall i :: 0 <= i < NUM && i != h ==> ops'[i] == ops[i] && info'[i] == info[i]
    requires forall x :: 0 <= x < NUM && x != h && chains[x].Some? ==>
               (chains[x].value.b in busy' <==> chains[x].value.b in busy)
    requires c.Some? ==> ChainOk(desc', ops', info', busy', h, c.value)
    ensures ChainsOk(desc', ops', info', busy', chains[h := c])
  {
    var chains' := chains[h := c];
    forall x | 0 <= x < NUM && chains'[x].Some? ensures ChainOk(desc', ops', info', busy', x, chains'[x].value) {
      if x != h {
        var k := chains[x].value;
        assert Placed(role, x, k) && ChainOk(desc, ops, info, busy, x, k);
        assert desc'[x] == desc[x] && desc'[k.d1] == desc[k.d1] && desc'[k.d2] == desc[k.d2];
      }
    }
  }

  // ---------------------------------------------------------- the steps

  /** The request at `h` moves on. */
  function InPhase(chains: Chains, h: nat, p: Phase): (r: Chains)
    requires h < |chains| && chains[h].Some?
  {
    chains[h := Some(chains[h].value.(phase := p))]
  }

  /** The device has yet to do the work of this request. */
  predicate Active(c: Chain) { c.phase.Posted? || c.phase.Taken? }

  /** What the device can make of a request. */
  predicate MovedOn(c: Option<Chain>, c': Option<Chain>) {
    if c.None? then c'.None?
    else
      && c'.Some? && c'.value == c.value.(phase := c'.value.phase)
      && (c' == c || (Active(c.value) && (c'.value.phase == Taken || c'.value.phase.Done?)))
  }

  ghost predicate Later(chains: Chains, chains': Chains) {
    && |chains| == NUM && |chains'| == NUM
    && (forall h {:trigger MovedOn(chains[h], chains'[h])} {:trigger chains'[h]} :: 0 <= h < NUM ==>
        MovedOn(chains[h], chains'[h]))
  }

  lemma LaterTrans(chains: Chains, chains1: Chains, chains2: Chains)
    requires Later(chains, chains1) && Later(chains1, chains2)
    ensures Later(chains, chains2)
  {
    forall h | 0 <= h < NUM ensures MovedOn(chains[h], chains2[h]) {
      assert MovedOn(chains[h], chains1[h]) && MovedOn(chains1[h], chains2[h]);
    }
  }

  /** A change to one request, before or after the device has moved on with the others. */
  lemma LaterBut(chains: Chains, chains': Chains, h: nat, c: Option<Chain>)
    requires Later(chains, chains') && h < NUM
    ensures Later(chains[h := c], chains'[h := c])
  {
    var from, to := chains[h := c], chains'[h := c];
    forall x | 0 <= x < NUM ensures MovedOn(from[x], to[x]) {
      assert MovedOn(chains[x], chains'[x]);
    }
  }

  /** The heads that the device has taken and not completed. */
  ghost predicate HandOk(hand: set<nat>, chains: Chains) {
    forall h: nat {:trigger h in hand} :: h in hand <==>
          h < |chains| && chains[h].Some? && chains[h].value.phase == Taken
  }

  /**
   * The device: its place on the available ring, the requests it has taken and not completed, of those the ones whose
   * data it has moved and whose status it has written, and the head it has put on the used ring without raising the
   * index yet.
   */
  datatype Device = Device(idx: nat, hand: set<nat>, moved: set<nat>, told: set<nat>, entry: Option<nat>)

  ghost predicate DeviceOk(dev: Device, info: seq<Info>, uring: seq<nat>, comps: seq<nat>, chains: Chains) {
    && HandOk(dev.hand, chains) && dev.told <= dev.moved <= dev.hand
    && (forall h :: h in dev.told ==> h < |info| && info[h].status == 0)
    && (dev.entry.Some? ==> dev.entry.value in dev.told && |uring| == NUM && uring[At(|comps|)] == dev.entry.value)
  }

  /** What the driver does to places of no request does not concern the device. */
  lemma DeviceApart(dev: Device, info: seq<Info>, info': seq<Info>, uring: seq<nat>, comps: seq<nat>, chains: Chains)
    requires DeviceOk(dev, info, uring, comps, chains) && |info| == |info'| == |chains|
    requires forall i :: 0 <= i < |chains| && chains[i].Some? ==> info'[i].status == info[i].status
    ensures DeviceOk(dev, info', uring, comps, chains)
  {
    forall h | h in dev.told ensures info'[h].status == 0 { assert h in dev.hand; }
  }

  /** The entry that the device prepares is none that the driver has yet to see. */
  lemma EntryStep(ring: seq<nat>, comps: seq<nat>, seen: nat, chains: Chains, h: nat)
    requires UsedOk(ring, comps, seen, chains) && h < NUM && chains[h].Some? && chains[h].value.phase == Taken
    ensures UsedOk(ring[At(|comps|) := h], comps, seen, chains)
  {
    var ring' := ring[At(|comps|) := h];
    UsedRoom(ring, comps, seen, chains, h);
    forall k | seen <= k < |comps| ensures Reported(ring', comps, chains, k) {
      assert Reported(ring, comps, chains, k);
      AtDistinct(k, |comps|);
    }
  }

  lemma HandLess(hand: set<nat>, chains: Chains, h: nat, p: Phase)
    requires HandOk(hand, chains) && h < |chains| && chains[h].Some? && p != Taken
    ensures HandOk(hand - {h}, InPhase(chains, h, p))
  {
  }

  lemma UnusedLater(chains: Chains, chains': Chains, b: nat)
    requires Later(chains, chains') && forall h :: 0 <= h < NUM && chains[h].Some? ==> chains[h].value.b != b
    ensures forall h :: 0 <= h < NUM && chains'[h].Some? ==> chains'[h].value.b != b
  {
    forall h | 0 <= h < NUM && chains'[h].Some? ensures chains'[h].value.b != b {
      assert MovedOn(chains[h], chains'[h]);
    }
  }

  function Rank(p: Phase): (r: nat) {
    match p case Posted(_) => 0 case Taken => 1 case Done(_) => 2 case Seen => 3
  }

  /** The same request, at the same point or further on. */
  predicate Further(c: Option<Chain>, c': Option<Chain>) {
    if c.None? then c'.None?
    else c'.Some? && c'.value == c.value.(phase := c'.value.phase) && Rank(c.value.phase) <= Rank(c'.value.phase)
  }

  ghost predicate Onward(chains: Chains, chains': Chains) {
    && |chains| == NUM && |chains'| == NUM
    && (forall h {:trigger Further(chains[h], chains'[h])} :: 0 <= h < NUM ==> Further(chains[h], chains'[h]))
  }

  lemma OnwardSee(chains: Chains, chains1: Chains, h: nat)
    requires Onward(chains, chains1) && h < NUM && chains1[h].Some? && chains1[h].value.phase.Done?
    ensures Onward(chains, InPhase(chains1, h, Seen)) && Count(Unseen(InPhase(chains1, h,
                                                                              Seen))) < Count(Unseen(chains1))
  {
    var chains2 := InPhase(chains1, h, Seen);
    forall x | 0 <= x < NUM ensures Further(chains[x], chains2[x]) { assert Further(chains[x], chains1[x]); }
    assert Unseen(chains2) == Unseen(chains1)[h := false];
    CountSet(Unseen(chains1), h, false);
  }

  lemma OnwardLater(chains: Chains, chains1: Chains, chains2: Chains)
    requires Onward(chains, chains1) && Later(chains1, chains2)
    ensures Onward(chains, chains2) && Unseen(chains2) == Unseen(chains1)
  {
    forall x | 0 <= x < NUM ensures Further(chains[x], chains2[x]) && Unseen(chains2)[x] == Unseen(chains1)[x] {
      assert Further(chains[x], chains1[x]) && MovedOn(chains1[x], chains2[x]);
    }
  }

  /** Which requests the interrupt handler has yet to see. */
  function Unseen(chains: Chains): (s: seq<bool>) {
    seq(|chains|, h requires 0 <= h < |chains| => chains[h].Some? && !chains[h].value.phase.Seen?)
  }

  lemma NoneDone(ring: seq<nat>, comps: seq<nat>, seen: nat, chains: Chains)
    requires UsedOk(ring, comps, seen, chains) && seen == |comps|
    ensures forall h :: 0 <= h < NUM && chains[h].Some? ==> !chains[h].value.phase.Done?
  {
  }

  /** Stores into descriptors that the driver holds and into places of no request keep everything in order. */
  lemma HeldStep(desc: seq<Desc>, ops: seq<Op>, info: seq<Info>, busy: set<nat>, free: seq<bool>, role: seq<Role>,
                 chains: Chains,
                 desc': seq<Desc>, ops': seq<Op>, info': seq<Info>, busy': set<nat>)
    requires RolesOk(free, role, chains) && ChainsOk(desc, ops, info, busy, chains)
    requires |desc| == |ops| == |info| == |desc'| == |ops'| == |info'| == NUM
    requires forall i :: 0 <= i < NUM && desc'[i] != desc[i] ==> role[i] == Held
    requires forall i :: 0 <= i < NUM && chains[i].Some? ==> ops'[i] == ops[i] && info'[i] == info[i]
    requires forall h :: 0 <= h < NUM && chains[h].Some? ==> (chains[h].value.b in busy' <==> chains[h].value.b in busy)
    ensures ChainsOk(desc', ops', info', busy', chains)
  {
    forall h | 0 <= h < NUM && chains[h].Some? ensures ChainOk(desc', ops', info', busy', h, chains[h].value) {
      var c := chains[h].value;
      assert Placed(role, h, c) && ChainOk(desc, ops, info, busy, h, c);
      assert desc'[h] == desc[h] && desc'[c.d1] == desc[c.d1] && desc'[c.d2] == desc[c.d2];
    }
  }

  /** The next entry of the available ring is none that the device has yet to take. */
  lemma RingStep(ring: seq<nat>, subs: seq<nat>, taken: nat, chains: Chains, h: nat)
    requires AvailOk(ring, subs, taken, chains) && h < NUM && chains[h].None?
    ensures AvailOk(ring[At(|subs|) := h], subs, taken, chains)
  {
    var ring' := ring[At(|subs|) := h];
    AvailRoom(ring, subs, taken, chains, h);
    forall k | taken <= k < |subs| ensures Waiting(ring', subs, chains, k) {
      assert Waiting(ring, subs, chains, k);
      AtDistinct(k, |subs|);
    }
  }

  /** Raising the index hands a request to the device; by then it is laid out and its head is in the ring. */
  lemma PublishStep(desc: seq<Desc>, ops: seq<Op>, info: seq<Info>, busy: set<nat>, free: seq<bool>, role: seq<Role>,
                    chains: Chains, aring: seq<nat>, subs: seq<nat>, taken: nat, uring: seq<nat>, comps: seq<nat>,
                    seen: nat, h: nat, c: Chain)
    requires All(desc, ops, info, busy, free, role, chains, aring, subs, taken, uring, comps, seen)
    requires h < NUM && c.d1 < NUM && c.d2 < NUM && h != c.d1 && c.d1 != c.d2 && h != c.d2
    requires role[h] == Held && role[c.d1] == Held && role[c.d2] == Held
    requires forall x :: 0 <= x < NUM && chains[x].Some? ==> chains[x].value.b != c.b
    requires c.phase == Posted(|subs|) && ChainOk(desc, ops, info, busy, h, c) && aring[At(|subs|)] == h
    ensures chains[h].None?
    ensures All(desc, ops, info, busy, free, role[h := Head][c.d1 := Second(h)][c.d2 := Third(h)], chains[h := Some(c)],
                aring, subs + [h], taken, uring, comps, seen)
  {
    RolesPost(free, role, chains, h, c);
    PostedOk(aring, subs, taken, chains, h, c);
    assert aring[At(|subs|) := h] == aring;
    UsedSame(uring, comps, seen, chains, h, Some(c));
    ChainsSame(desc, desc, ops, ops, info, info, busy, busy, role, chains, h, Some(c));
  }

  lemma TakeStep(desc: seq<Desc>, ops: seq<Op>, info: seq<Info>, busy: set<nat>, free: seq<bool>, role: seq<Role>,
                 chains: Chains,
                 aring: seq<nat>, subs: seq<nat>, taken: nat, uring: seq<nat>, comps: seq<nat>, seen: nat)
    requires All(desc, ops, info, busy, free, role, chains, aring, subs, taken, uring, comps, seen)
    ensures U16(taken) != U16(|subs|) <==> taken < |subs|
    ensures U16(U16(taken) + 1) == U16(taken + 1)
    ensures taken < |subs| ==>
      var h := subs[taken];
      && h < NUM && aring[At(U16(taken))] == h && chains[h].Some? && chains[h].value.phase == Posted(taken)
      && All(desc, ops, info, busy, free, role, InPhase(chains, h, Taken), aring, subs, taken + 1, uring, comps, seen)
  {
    AvailGap(aring, subs, taken, chains);
    WrapExact(taken, |subs|);
    WrapAgrees(taken);
    if taken < |subs| {
      assert Waiting(aring, subs, chains, taken);
      var h := subs[taken];
      var c := chains[h].value.(phase := Taken);
      TookOk(aring, subs, taken, chains, h, Some(c));
      UsedSame(uring, comps, seen, chains, h, Some(c));
      RolesSame(free, role, chains, h, c);
      assert Placed(role, h, chains[h].value) && ChainOk(desc, ops, info, busy, h, chains[h].value);
      ChainsSame(desc, desc, ops, ops, info, info, busy, busy, role, chains, h, Some(c));
    }
  }

  lemma CompleteStep(desc: seq<Desc>, ops: seq<Op>, info: seq<Info>, busy: set<nat>, free: seq<bool>, role: seq<Role>,
                     chains: Chains,
                     aring: seq<nat>, subs: seq<nat>, taken: nat, uring: seq<nat>, comps: seq<nat>, seen: nat, h: nat)
    requires All(desc, ops, info, busy, free, role, chains, aring, subs, taken, uring, comps, seen)
    requires h < NUM && chains[h].Some? && chains[h].value.phase == Taken && info[h].status == 0
    requires uring[At(|comps|)] == h
    ensures All(desc, ops, info, busy, free, role, InPhase(chains, h, Done(|comps|)),
                aring, subs, taken, uring, comps + [h], seen)
  {
    assert uring[At(|comps|) := h] == uring;
    var c := chains[h].value.(phase := Done(|comps|));
    CompletedOk(uring, comps, seen, chains, h, c);
    AvailSame(aring, subs, taken, chains, h, Some(c));
    RolesSame(free, role, chains, h, c);
    assert Placed(role, h, chains[h].value) && ChainOk(desc, ops, info, busy, h, chains[h].value);
    ChainsSame(desc, desc, ops, ops, info, info, busy, busy, role, chains, h, Some(c));
  }

  /** The status byte of a request that the device is at work on may have any value. */
  lemma StatusStep(desc: seq<Desc>, ops: seq<Op>, info: seq<Info>, busy: set<nat>, free: seq<bool>, role: seq<Role>,
                   chains: Chains, h: nat)
    requires RolesOk(free, role, chains) && ChainsOk(desc, ops, info, busy, chains) && |desc| == |ops| == |info| == NUM
    requires h < NUM && chains[h].Some? && chains[h].value.phase == Taken
    ensures ChainOk(desc, ops, info, busy, h, chains[h].value)
    ensures ChainsOk(desc, ops, info[h := info[h].(status := 0)], busy, chains)
  {
    assert Placed(role, h, chains[h].value) && ChainOk(desc, ops, info, busy, h, chains[h].value);
    ChainsSame(desc, desc, ops, ops, info, info[h := info[h].(status := 0)], busy, busy, role, chains, h, chains[h]);
    assert chains[h := chains[h]] == chains;
  }

  lemma SeeStep(desc: seq<Desc>, ops: seq<Op>, info: seq<Info>, busy: set<nat>, free: seq<bool>, role: seq<Role>,
                chains: Chains,
                aring: seq<nat>, subs: seq<nat>, taken: nat, uring: seq<nat>, comps: seq<nat>, seen: nat)
    requires All(desc, ops, info, busy, free, role, chains, aring, subs, taken, uring, comps, seen)
    ensures U16(seen) != U16(|comps|) <==> seen < |comps|
    ensures U16(U16(seen) + 1) == U16(seen + 1)
    ensures seen < |comps| ==>
      var h := comps[seen];
      && h < NUM && uring[At(U16(seen))] == h && chains[h].Some? && chains[h].value.phase == Done(seen)
      && info[h] == Info(Some(chains[h].value.b), 0) && chains[h].value.b in busy
      && All(desc, ops, info, busy - {chains[h].value.b}, free, role, InPhase(chains, h, Seen), aring, subs, taken,
             uring, comps, seen + 1)
  {
    UsedGap(uring, comps, seen, chains);
    WrapExact(seen, |comps|);
    WrapAgrees(seen);
    if seen < |comps| {
      assert Reported(uring, comps, chains, seen);
      var h := comps[seen];
      var c := chains[h].value.(phase := Seen);
      SawOk(uring, comps, seen, chains, h, Some(c));
      AvailSame(aring, subs, taken, chains, h, Some(c));
      RolesSame(free, role, chains, h, c);
      assert Placed(role, h, chains[h].value) && ChainOk(desc, ops, info, busy, h, chains[h].value);
      ChainsSame(desc, desc, ops, ops, info, info, busy, busy - {c.b}, role, chains, h, Some(c));
    }
  }

  /** A finished request leaves: its descriptors are in the driver's hands, its buffer free. */
  lemma FinishStep(desc: seq<Desc>, ops: seq<Op>, info: seq<Info>, busy: set<nat>, free: seq<bool>, role: seq<Role>,
                   chains: Chains,
                   aring: seq<nat>, subs: seq<nat>, taken: nat, uring: seq<nat>, comps: seq<nat>, seen: nat, h: nat)
    requires All(desc, ops, info, busy, free, role, chains, aring, subs, taken, uring, comps, seen)
    requires h < NUM && chains[h].Some? && chains[h].value.b !in busy
    ensures ChainOk(desc, ops, info, busy, h, chains[h].value) && chains[h].value.phase == Seen
    ensures var c := chains[h].value;
            && h != c.d1 && c.d1 != c.d2 && h != c.d2
            && All(desc, ops, info[h := Info(None, info[h].status)], busy, free,
                   role[h := Held][c.d1 := Held][c.d2 := Held],
                   chains[h := None], aring, subs, taken, uring, comps, seen)
  {
    assert Placed(role, h, chains[h].value) && ChainOk(desc, ops, info, busy, h, chains[h].value);
    RolesDrop(free, role, chains, h);
    AvailSame(aring, subs, taken, chains, h, None);
    UsedSame(uring, comps, seen, chains, h, None);
    ChainsSame(desc, desc, ops, ops, info, info[h := Info(None, info[h].status)], busy, busy, role, chains, h, None);
  }
}
