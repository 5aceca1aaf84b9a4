/**
 * The disk driver of kernel/virtio_disk.c and its device. The device does not know of vdisk_lock: it may act between
 * any
 * two stores of the driver, as `script` says, and takes, moves, reports and raises its index in separate acts.
 */
module Virtio {
  import opened Common
  import opened VirtioModel

  type Content = int

  function Fetch(m: map<nat, Content>, k: nat): (x: Content) {
    if k in m then m[k] else 0
  }

  /**
   * One act of the device: take the next request, move the data of one it has taken, write its status, put its head on
   * the used ring, raise the index of the used ring.
   */
  datatype Move = Take | Copy(h: nat) | Tell(h: nat) | Enter(h: nat) | Raise

  /** The data of a request moves exactly once, and the buffer holds what was moved, from then on. */
  predicate Landed(c: Chain, h: nat, moved: set<nat>, copied: map<nat, Content>, data: map<nat, Content>) {
    && (h in copied <==> c.phase.Done? || c.phase.Seen? || (c.phase == Taken && h in moved))
    && (h in copied ==> Fetch(data, c.b) == copied[h])
  }

  ghost predicate AllLanded(chains: Chains, moved: set<nat>, copied: map<nat, Content>, data: map<nat, Content>) {
    forall h {:trigger Landed(chains[h].value, h, moved, copied, data)} :: 0 <= h < |chains| && chains[h].Some? ==>
          Landed(chains[h].value, h, moved, copied, data)
  }

  /** One request changes; what the others have got stays. */
  lemma LandedBut(chains: Chains, moved: set<nat>, copied: map<nat, Content>, data: map<nat, Content>, h: nat,
                  c: Option<Chain>, moved': set<nat>, copied': map<nat, Content>, data': map<nat, Content>)
    requires AllLanded(chains, moved, copied, data) && h < |chains|
             && (c.Some? ==> Landed(c.value, h, moved', copied', data'))
    requires forall i :: i != h ==> (i in moved <==> i in moved') && (i in copied <==> i in copied')
    requires forall i :: i != h && i in copied ==> copied'[i] == copied[i]
    requires forall i :: 0 <= i < |chains| && i != h && chains[i].Some? ==>
               Fetch(data', chains[i].value.b) == Fetch(data, chains[i].value.b)
    ensures AllLanded(chains[h := c], moved', copied', data')
  {
    var chains' := chains[h := c];
    forall i | 0 <= i < |chains'| && chains'[i].Some? ensures Landed(chains'[i].value, i, moved', copied', data') {
      assert i != h ==> chains'[i] == chains[i] && Landed(chains[i].value, i, moved, copied, data);
    }
  }

  /** Request `c` moves data to block `k` (`out`) or to buffer `k`. */
  predicate Touches(c: Chain, out: bool, k: nat) {
    Active(c) && c.out == out && k == if out then c.bno else c.b
  }

  ghost predicate Reaches(chains: Chains, out: bool, k: nat) {
    exists h :: 0 <= h < |chains| && chains[h].Some? && Touches(chains[h].value, out, k)
  }

  /** Only blocks, or buffers, that requests are to move data to have changed. */
  ghost predicate Spares(chains: Chains, out: bool, m: map<nat, Content>, m': map<nat, Content>) {
    forall k: nat {:trigger Fetch(m', k)} :: Fetch(m', k) != Fetch(m, k) ==> Reaches(chains, out, k)
  }

  lemma ReachesLess(chains: Chains, chains': Chains, out: bool, k: nat)
    requires Later(chains, chains') && Reaches(chains', out, k)
    ensures Reaches(chains, out, k)
  {
    var h :| 0 <= h < |chains'| && chains'[h].Some? && Touches(chains'[h].value, out, k);
    assert MovedOn(chains[h], chains'[h]) && Touches(chains[h].value, out, k);
  }

  lemma SparesMore(chains: Chains, chains': Chains, out: bool,
                   m: map<nat, Content>, m1: map<nat, Content>, m2: map<nat, Content>)
    requires Later(chains, chains') && Spares(chains, out, m, m1) && Spares(chains', out, m1, m2)
    ensures Spares(chains, out, m, m2)
  {
    forall k: nat | Fetch(m2, k) != Fetch(m, k) ensures Reaches(chains, out, k) {
      if Fetch(m2, k) != Fetch(m1, k) { ReachesLess(chains, chains', out, k); }
    }
  }

  /** A script with `n` moments gone by. */
  function Past(script: seq<seq<Move>>, n: nat): (r: seq<seq<Move>>) {
    if n <= |script| then script[n..] else []
  }

  /** What the device may change, besides its own counters and the status bytes of requests. */
  datatype Snap = Snap(chains: Chains, comps: seq<nat>, blocks: map<nat, Content>, data: map<nat, Content>)

  /** The device has moved on with requests that were posted, and touched nothing else. */
  ghost predicate After(s: Snap, s': Snap) {
    && Later(s.chains, s'.chains) && s.comps <= s'.comps
    && Spares(s.chains, true, s.blocks, s'.blocks) && Spares(s.chains, false, s.data, s'.data)
  }

  lemma AfterMore(s: Snap, s1: Snap, s2: Snap)
    requires After(s, s1) && After(s1, s2)
    ensures After(s, s2)
  {
    LaterTrans(s.chains, s1.chains, s2.chains);
    SparesMore(s.chains, s1.chains, true, s.blocks, s1.blocks, s2.blocks);
    SparesMore(s.chains, s1.chains, false, s.data, s1.data, s2.data);
  }

  lemma AfterSame(s: Snap)
    requires |s.chains| == NUM
    ensures After(s, s)
  {
    forall h | 0 <= h < NUM ensures MovedOn(s.chains[h], s.chains[h]) {}
  }

  /** The buffer of no request stays as it is. */
  lemma SparesUnused(s: Snap, s': Snap, b: nat)
    requires After(s, s') && forall h :: 0 <= h < |s.chains| && s.chains[h].Some? ==> s.chains[h].value.b != b
    ensures Fetch(s'.data, b) == Fetch(s.data, b)
  {
    assert !Reaches(s.chains, false, b);
  }

  lemma AfterAdd(s: Snap, s': Snap, h: nat, c: Chain)
    requires After(s, s') && h < NUM && s'.chains[h].None?
    ensures s.chains[h].None?
    ensures After(s.(chains := s.chains[h := Some(c)]), s'.(chains := s'.chains[h := Some(c)]))
  {
    assert MovedOn(s.chains[h], s'.chains[h]);
    LaterBut(s.chains, s'.chains, h, Some(c));
    var more := s.chains[h := Some(c)];
    forall out, k: nat | Reaches(s.chains, out, k) ensures Reaches(more, out, k) {
      var x :| 0 <= x < |s.chains| && s.chains[x].Some? && Touches(s.chains[x].value, out, k);
      assert more[x] == s.chains[x];
    }
  }

  /** Exactly the descriptors `idx[from..]` are held, of those that were free in `free0`. */
  ghost predicate Holding(idx: seq<nat>, from: nat, free0: seq<bool>, role0: seq<Role>, free: seq<bool>,
                          role: seq<Role>)
  {
    && |idx| <= 3 && from <= |idx| && |free0| == NUM && |role0| == NUM && |free| == NUM && |role| == NUM
    && (forall k :: 0 <= k < |idx| ==> idx[k] < NUM && free0[idx[k]] && role0[idx[k]] == Idle)
    && (forall j, k :: 0 <= j < k < |idx| ==> idx[j] != idx[k])
    && (forall i {:trigger role[i]} {:trigger free[i]} :: 0 <= i < NUM ==>
          var held := Among(idx, |idx|, i) && !Among(idx, from, i);
          role[i] == (if held then Held else role0[i]) && free[i] == (free0[i] && !held))
    && Count(free) == Count(free0) - (|idx| - from)
  }

  lemma HoldMore(idx: seq<nat>, r: nat, free0: seq<bool>, role0: seq<Role>, free: seq<bool>, role: seq<Role>)
    requires Holding(idx, 0, free0, role0, free, role) && |idx| < 3 && r < NUM && free[r] && role[r] == Idle
    requires Count(free[r := false]) == Count(free) - 1
    ensures Holding(idx + [r], 0, free0, role0, free[r := false], role[r := Held])
  {
  }

  lemma HoldLess(idx: seq<nat>, j: nat, free0: seq<bool>, role0: seq<Role>, free: seq<bool>, role: seq<Role>)
    requires Holding(idx, j, free0, role0, free, role) && j < |idx|
    ensures idx[j] < NUM && role[idx[j]] == Held
    ensures Count(free[idx[j] := true]) == Count(free) + 1 ==>
      Holding(idx, j + 1, free0, role0, free[idx[j] := true], role[idx[j] := Idle])
  {
  }

  lemma HoldNone(idx: seq<nat>, free0: seq<bool>, role0: seq<Role>, free: seq<bool>, role: seq<Role>)
    requires Holding(idx, |idx|, free0, role0, free, role)
    ensures free == free0 && role == role0
  {
  }

  /** Once its three descriptors are a request's, the driver holds none. */
  lemma HandOver(idx: seq<nat>, free0: seq<bool>, role0: seq<Role>, free: seq<bool>, role: seq<Role>, role': seq<Role>)
    requires Holding(idx, 0, free0, role0, free, role) && |idx| == 3 && forall i :: 0 <= i < NUM ==> role0[i] != Held
    ensures forall k :: 0 <= k < 3 ==> idx[k] < NUM && role[idx[k]] == Held
    ensures idx[0] != idx[1] && idx[1] != idx[2] && idx[0] != idx[2]
    ensures role' == role[idx[0] := Head][idx[1] := Second(idx[0])][idx[2] := Third(idx[0])] ==>
      forall i :: 0 <= i < NUM ==> role'[i] != Held
  {
  }

  class VirtioDisk {
    // shared with the device
    var desc: seq<Desc>
    var ops: seq<Op>
    var availRing: seq<nat>
    var availIdx: nat
    var usedRing: seq<nat>
    var usedIdx: nat
    // the driver's own
    var free: seq<bool>
    var info: seq<Info>
    var seenIdx: nat                   // disk.used_idx
    var busy: set<nat>                 // buffers with b->disk set
    var data: map<nat, Content>        // what the buffers hold
    // the device's own
    var dev: Device
    var blocks: map<nat, Content>
    var script: seq<seq<Move>>         // what it is going to do, one moment after the other
    // history
    ghost var role: seq<Role>
    ghost var chains: Chains
    ghost var subs: seq<nat>           // heads, in the order posted
    ghost var taken: nat               // how many of them the device has taken
    ghost var comps: seq<nat>          // heads, in the order completed
    ghost var seen: nat                // how many of them the interrupt handler has seen
    ghost var copied: map<nat, Content>   // what has been moved for the request at a head
    ghost var waiters: nat             // processes asleep on &disk.free[0]

    /**
     * Descriptors, requests and rings agree. Code that holds vdisk_lock may hold descriptors, and this holds at every
     * moment.
     */
    ghost predicate Core()
      reads this
    {
      && |desc| == NUM && |ops| == NUM && |info| == NUM && |free| == NUM && |role| == NUM && |chains| == NUM
         && |availRing| == NUM
      && forall k: int {:trigger Asked(k)} :: Asked(k) ==>
           && All(desc, ops, info, busy, free, role, chains, availRing, subs, taken, usedRing, comps, seen)
           && DeviceOk(dev, info, usedRing, comps, chains) && AllLanded(chains, dev.moved, copied, data)
           && availIdx == U16(|subs|) && dev.idx == U16(taken) && usedIdx == U16(|comps|)
    }

    lemma CoreIs()
      requires Core()
      ensures All(desc, ops, info, busy, free, role, chains, availRing, subs, taken, usedRing, comps, seen)
      ensures DeviceOk(dev, info, usedRing, comps, chains) && AllLanded(chains, dev.moved, copied, data)
      ensures availIdx == U16(|subs|) && dev.idx == U16(taken) && usedIdx == U16(|comps|)
    {
      assert Asked(0);
    }

    /** No descriptor is in limbo, and nobody waits for descriptors while three are free. */
    ghost predicate Orderly()
      reads this
    {
      && Core() && (forall i :: 0 <= i < NUM ==> role[i] != Held)
      && (waiters > 0 ==> Count(free) < 3)
    }

    /** Whenever vdisk_lock is free. */
    ghost predicate Valid()
      reads this
    {
      Orderly() && seenIdx == U16(seen)
    }

    constructor (moves: seq<seq<Move>>)
      ensures Valid() && Count(free) == NUM && waiters == 0 && script == moves
      ensures forall h :: 0 <= h < NUM ==> chains[h].None?
    {
      desc := seq(NUM, _ => NODESC);
      ops := seq(NUM, _ => Op(false, 0));
      info := seq(NUM, _ => Info(None, 0));
      availRing, availIdx, usedRing, usedIdx := seq(NUM, _ => 0), 0, seq(NUM, _ => 0), 0;
      free, seenIdx, busy, data, blocks := seq(NUM, _ => true), 0, {}, map[], map[];
      dev := Device(0, {}, {}, {}, None);
      script := moves;
      role, chains := seq(NUM, _ => Idle), seq(NUM, _ => None);
      subs, taken, comps, seen, copied, waiters := [], 0, [], 0, map[], 0;
      new;
      CountAll(free);
    }

    // --------------------------------------------------------------- the device

    /** The device takes the next entry of the available ring, if there is one. */
    method DeviceTake() returns (h: nat, got: bool)
      requires Core()
      modifies this`dev, this`taken, this`chains
      ensures Core()
      ensures got <==> old(taken) < |subs|
      ensures !got ==> chains == old(chains) && taken == old(taken) && dev == old(dev)
      ensures got ==> h == subs[old(taken)] < NUM && taken == old(taken) + 1
      ensures got ==> old(chains)[h].Some? && old(chains)[h].value.phase.Posted?
                      && chains == InPhase(old(chains), h, Taken)
    {
      CoreIs();
      h, got := 0, false;
      TakeStep(desc, ops, info, busy, free, role, chains, availRing, subs, taken, usedRing, comps, seen);
      if dev.idx != availIdx {
        h, got := availRing[At(dev.idx)], true;
        assert Landed(chains[h].value, h, dev.moved, copied, data);
        LandedBut(chains, dev.moved, copied, data, h, InPhase(chains, h, Taken)[h], dev.moved, copied, data);
        dev := dev.(idx := U16(dev.idx + 1), hand := dev.hand + {h});
        taken, chains := taken + 1, InPhase(chains, h, Taken);
      }
    }

    /** It moves the data of a request that it has taken, as the chain of descriptors at `h` says. */
    method DeviceCopy(h: nat)
      requires Core() && h in dev.hand && h !in dev.moved
      modifies this`blocks, this`data, this`dev, this`copied
      ensures Core() && dev == old(dev).(moved := old(dev).moved + {h}) && h < NUM && chains[h].Some?
      ensures var c := chains[h].value;
              if c.out
              then blocks == old(blocks)[c.bno := Fetch(old(data), c.b)] && data == old(data)
                   && copied == old(copied)[h := Fetch(old(data), c.b)]
              else data == old(data)[c.b := Fetch(old(blocks), c.bno)] && blocks == old(blocks)
                   && copied == old(copied)[h := Fetch(old(blocks), c.bno)]
    {
      CoreIs();
      StatusStep(desc, ops, info, busy, free, role, chains, h);
      ghost var c, data0, copied0, moved0 := chains[h].value, data, copied, dev.moved;
      var d0 := desc[h];
      var op := ops[d0.addr.i];
      var d1 := desc[d0.next];
      if op.out {
        copied := copied[h := Fetch(data, d1.addr.b)];
        blocks := blocks[op.sector / 2 := Fetch(data, d1.addr.b)];
      } else {
        copied := copied[h := Fetch(blocks, op.sector / 2)];
        data := data[d1.addr.b := Fetch(blocks, op.sector / 2)];
      }
      dev := dev.(moved := dev.moved + {h});
      CopyLands(h, c, data0, copied0, moved0);
    }

    /** No other request is read into the same buffer. */
    lemma CopyLands(h: nat, c: Chain, data0: map<nat, Content>, copied0: map<nat, Content>, moved0: set<nat>)
      requires |chains| == NUM && h < NUM && chains[h] == Some(c) && c.phase == Taken && BuffersOk(chains)
      requires AllLanded(chains, moved0, copied0, data0) && dev.moved == moved0 + {h}
      requires h in copied && copied == copied0[h := copied[h]]
      requires if c.out then data == data0 && copied[h] == Fetch(data, c.b) else data == data0[c.b := copied[h]]
      ensures AllLanded(chains, dev.moved, copied, data)
    {
      assert chains[h := chains[h]] == chains;
      LandedBut(chains, moved0, copied0, data0, h, chains[h], dev.moved, copied, data);
    }

    /** It reports success in the status byte, which the third descriptor names. */
    method DeviceTell(h: nat)
      requires Core() && h in dev.moved && h !in dev.told
      modifies this`info, this`dev
      ensures Core() && dev == old(dev).(told := old(dev).told + {h})
      ensures h < NUM && chains[h].Some? && info == old(info)[h := old(info)[h].(status := 0)]
    {
      CoreIs();
      StatusStep(desc, ops, info, busy, free, role, chains, h);
      var d2 := desc[desc[desc[h].next].next];
      info := info[d2.addr.i := info[d2.addr.i].(status := 0)];
      dev := dev.(told := dev.told + {h});
    }

    /** It puts the head on the used ring, where the driver does not look yet. */
    method DeviceEnter(h: nat)
      requires Core() && h in dev.told && dev.entry == None
      modifies this`usedRing, this`dev
      ensures Core() && dev == old(dev).(entry := Some(h))
    {
      CoreIs();
      EntryStep(usedRing, comps, seen, chains, h);
      WrapAgrees(|comps|);
      usedRing := usedRing[At(usedIdx) := h];
      dev := dev.(entry := Some(h));
    }

    /** It raises the index: the request is completed. */
    method DeviceRaise() returns (ghost h: nat)
      requires Core() && dev.entry.Some?
      modifies this`usedIdx, this`dev, this`chains, this`comps
      ensures Core() && old(dev).entry == Some(h) && h < NUM && old(chains)[h].Some?
      ensures comps == old(comps) + [h] && chains == InPhase(old(chains), h, Done(|old(comps)|)) && h in copied
    {
      CoreIs();
      h := dev.entry.value;
      var i := dev.entry.value;
      ghost var p := Done(|comps|);
      CompleteStep(desc, ops, info, busy, free, role, chains, availRing, subs, taken, usedRing, comps, seen, h);
      WrapAgrees(|comps|);
      HandLess(dev.hand, chains, h, p);
      assert Landed(chains[h].value, h, dev.moved, copied, data);
      LandedBut(chains, dev.moved, copied, data, h, InPhase(chains, h, p)[h], dev.moved - {h}, copied, data);
      usedIdx := U16(usedIdx + 1);
      dev := dev.(hand := dev.hand - {i}, moved := dev.moved - {i}, told := dev.told - {i}, entry := None);
      chains, comps := InPhase(chains, h, p), comps + [h];
    }

    ghost function Now(): (s: Snap)
      reads this
    {
      Snap(chains, comps, blocks, data)
    }

    /** One act. */
    method Act(v: Move)
      requires Core()
      modifies this`info, this`usedRing, this`usedIdx, this`dev, this`copied, this`blocks, this`data, this`chains,
               this`comps, this`taken
      ensures Core() && After(old(Now()), Now())
      ensures forall i :: 0 <= i < NUM && old(chains)[i].None? ==> info[i] == old(info)[i]
      ensures v.Take? && old(taken) < |subs| ==> taken == old(taken) + 1
      ensures v.Copy? && v.h in old(dev).hand ==> v.h in dev.moved
      ensures v.Tell? && v.h in old(dev).moved ==> v.h in dev.told
      ensures v.Enter? && v.h in old(dev).told && old(dev).entry == None ==> dev.entry == Some(v.h)
      ensures v.Raise? && old(dev).entry.Some? ==> comps == old(comps) + [old(dev).entry.value]
    {
      AfterSame(Now());
      CoreIs();
      if v.Take? {
        var h, got := DeviceTake();
      } else if v.Copy? {
        if v.h in dev.hand && v.h !in dev.moved {
          ghost var c := chains[v.h].value;
          assert Touches(c, c.out, if c.out then c.bno else c.b);
          DeviceCopy(v.h);
        }
      } else if v.Tell? {
        if v.h in dev.moved && v.h !in dev.told { DeviceTell(v.h); }
      } else if v.Enter? {
        if v.h in dev.told && dev.entry == None { DeviceEnter(v.h); }
      } else if dev.entry.Some? {
        ghost var h := DeviceRaise();
      }
    }

    /** A moment at which the device may act, as often as it likes. */
    method Moment()
      requires Core()
      modifies this`info, this`usedRing, this`usedIdx, this`dev, this`copied, this`blocks, this`data, this`chains,
               this`comps, this`taken, this`script
      ensures Core() && After(old(Now()), Now()) && (old(Orderly()) ==> Orderly())
      ensures forall i :: 0 <= i < NUM && old(chains)[i].None? ==> info[i] == old(info)[i]
      ensures script == Past(old(script), 1)
    {
      ghost var s := Now();
      AfterSame(s);
      if |script| == 0 {
        assert Past(script, 1) == script;
        return;
      }
      var moves := script[0];
      script := script[1..];
      var k := 0;
      while k < |moves|
        invariant 0 <= k <= |moves| && Core() && After(s, Now()) && script == Past(old(script), 1)
        invariant forall i :: 0 <= i < NUM && s.chains[i].None? ==> info[i] == old(info)[i]
      {
        ghost var s1 := Now();
        Act(moves[k]);
        AfterMore(s, s1, Now());
        k := k + 1;
      }
    }

    /** The same, in the middle of something that began at `s`. */
    method Pause(ghost s: Snap)
      requires Core() && After(s, Now())
      modifies this`info, this`usedRing, this`usedIdx, this`dev, this`copied, this`blocks, this`data, this`chains,
               this`comps, this`taken, this`script
      ensures Core() && After(s, Now()) && Later(old(chains), chains)
      ensures forall i :: 0 <= i < NUM && old(chains)[i].None? ==> info[i] == old(info)[i]
      ensures script == Past(old(script), 1)
    {
      ghost var s1 := Now();
      Moment();
      AfterMore(s, s1, Now());
    }

    // ------------------------------------------------------------- descriptors

    /** alloc_desc: the lowest free descriptor, -1 when none is free. */
    method AllocDesc() returns (r: int)
      requires Core()
      modifies this`free, this`role
      ensures Core() && (r == -1 <==> Count(old(free)) == 0)
      ensures r == -1 ==> free == old(free) && role == old(role)
      ensures r != -1 ==> 0 <= r < NUM && old(free)[r] && old(role)[r] == Idle && free == old(free)[r := false]
                          && role == old(role)[r := Held]
      ensures r != -1 ==> Count(free) == Count(old(free)) - 1
    {
      CoreIs();
      var i := 0;
      while i < NUM
        invariant 0 <= i <= NUM && free == old(free) && role == old(role)
        invariant forall j :: 0 <= j < i ==> !free[j]
      {
        if free[i] {
          CountSet(free, i, false);
          assert Named(free, role, chains, i);
          RoleFlip(free, role, chains, i, false);
          free := free[i := false];
          role := role[i := Held];
          return i;
        }
        i := i + 1;
      }
      CountNone(free);
      return -1;
    }

    /** One store into a descriptor that the driver holds, then perhaps the device. */
    method StoreDesc(i: nat, d: Desc, ghost s: Snap)
      requires Core() && After(s, Now()) && i < NUM && role[i] == Held
      modifies this`desc, this`info, this`usedRing, this`usedIdx, this`dev, this`copied, this`blocks, this`data,
               this`chains, this`comps, this`taken, this`script
      ensures Core() && After(s, Now()) && desc == old(desc)[i := d] && Later(old(chains), chains)
      ensures forall x :: 0 <= x < NUM && old(chains)[x].None? ==> info[x] == old(info)[x]
      ensures script == Past(old(script), 1)
    {
      CoreIs();
      HeldStep(desc, ops, info, busy, free, role, chains, desc[i := d], ops, info, busy);
      desc := desc[i := d];
      Pause(s);
    }

    method ClearDesc(i: nat, ghost s: Snap)
      requires Core() && After(s, Now()) && i < NUM && role[i] == Held
      modifies this`desc, this`info, this`usedRing, this`usedIdx, this`dev, this`copied, this`blocks, this`data,
               this`chains, this`comps, this`taken, this`script
      ensures Core() && After(s, Now()) && desc == old(desc)[i := NODESC]
      ensures script == Past(old(script), 3)
    {
      StoreDesc(i, desc[i].(addr := Nowhere), s);
      StoreDesc(i, desc[i].(write := false, more := false), s);
      StoreDesc(i, desc[i].(next := 0), s);
    }

    /** free_desc: neither of its panics can happen to a descriptor that the driver holds. */
    method FreeDesc(i: nat, ghost s: Snap)
      requires Core() && After(s, Now()) && i < NUM && role[i] == Held
      modifies this`free, this`role, this`desc, this`waiters, this`info, this`usedRing, this`usedIdx, this`dev,
               this`copied, this`blocks, this`data, this`chains, this`comps, this`taken, this`script
      ensures Core() && After(s, Now())
      ensures free == old(free)[i := true] && role == old(role)[i := Idle] && desc == old(desc)[i := NODESC]
      ensures waiters == 0 && Count(free) == Count(old(free)) + 1
      ensures script == Past(old(script), 4)
    {
      HeldIsNot(i);
      if i >= NUM || free[i] {
        assert false;
      }
      ClearDesc(i, s);
      MarkFree(i);
      Pause(s);
      waiters := 0;
    }

    lemma HeldIsNot(i: nat)
      requires Core() && i < NUM && role[i] == Held
      ensures !free[i]
    {
      CoreIs();
      assert Named(free, role, chains, i);
    }

    method MarkFree(i: nat)
      requires Core() && i < NUM && role[i] == Held
      modifies this`free, this`role
      ensures Core() && free == old(free)[i := true] && role == old(role)[i := Idle]
      ensures Count(free) == Count(old(free)) + 1
    {
      CoreIs();
      HeldIsNot(i);
      RoleFlip(free, role, chains, i, true);
      CountSet(free, i, true);
      free := free[i := true];
      role := role[i := Idle];
    }

    /** alloc3_desc: three descriptors or none. */
    method Alloc3() returns (ok: bool, idx: seq<nat>)
      requires Core()
      modifies this`free, this`role, this`desc, this`waiters, this`info, this`usedRing, this`usedIdx, this`dev,
               this`copied,
                this`blocks,
        this`data, this`chains, this`comps, this`taken, this`script
      ensures Core() && After(old(Now()), Now()) && (ok <==> Count(old(free)) >= 3)
      ensures !ok ==> free == old(free) && role == old(role) && (waiters == 0 || waiters == old(waiters))
      ensures ok ==> |idx| == 3 && Holding(idx, 0, old(free), old(role), free, role) && waiters == old(waiters)
    {
      idx := [];
      ghost var s, free0, role0 := Now(), free, role;
      AfterSame(s);
      while |idx| < 3
        invariant Core() && Holding(idx, 0, free0, role0, free, role) && waiters == old(waiters) && After(s, Now())
      {
        var r := Grab(idx, free0, role0, s);
        if r < 0 {
          PutBack(idx, free0, role0, s);
          return false, idx;
        }
        idx := idx + [r];
      }
      ok := true;
    }

    /** One more descriptor. */
    method Grab(ghost idx: seq<nat>, ghost free0: seq<bool>, ghost role0: seq<Role>, ghost s: Snap) returns (r: int)
      requires Core() && Holding(idx, 0, free0, role0, free, role) && After(s, Now()) && |idx| < 3
      modifies this`free, this`role, this`info, this`usedRing, this`usedIdx, this`dev, this`copied, this`blocks,
        this`data, this`chains, this`comps, this`taken, this`script
      ensures Core() && After(s, Now()) && -1 <= r < NUM && (r == -1 <==> Count(old(free)) == 0)
      ensures Holding(if r < 0 then idx else idx + [r], 0, free0, role0, free, role)
      ensures r >= 0 ==> script == Past(old(script), 1)
    {
      ghost var free1, role1 := free, role;
      r := AllocDesc();
      if r >= 0 {
        HoldMore(idx, r, free0, role0, free1, role1);
        Pause(s);
      }
    }

    /** alloc3_desc's way out: free what it had got. */
    method PutBack(idx: seq<nat>, ghost free0: seq<bool>, ghost role0: seq<Role>, ghost s: Snap)
      requires Core() && Holding(idx, 0, free0, role0, free, role) && After(s, Now())
      modifies this`free, this`role, this`desc, this`waiters, this`info, this`usedRing, this`usedIdx, this`dev,
               this`copied,
                this`blocks,
        this`data, this`chains, this`comps, this`taken, this`script
      ensures Core() && After(s, Now()) && free == free0 && role == role0 && (waiters == 0 || waiters == old(waiters))
    {
      var j := 0;
      while j < |idx|
        invariant 0 <= j <= |idx| && Core() && Holding(idx, j, free0, role0, free, role) && After(s, Now())
        invariant waiters == 0 || waiters == old(waiters)
      {
        HoldLess(idx, j, free0, role0, free, role);
        FreeDesc(idx[j], s);
        j := j + 1;
      }
      HoldNone(idx, free0, role0, free, role);
    }

    // ----------------------------------------------------------- virtio_disk_rw

    /** Buffer `b` is in no request. */
    ghost predicate Unused(b: nat)
      reads this
    {
      forall h :: 0 <= h < |chains| && chains[h].Some? ==> chains[h].value.b != b
    }

    /** virtio_disk_rw up to its wait: post the request, or go to sleep for want of descriptors. */
    method StartRw(b: nat, bno: nat, out: bool) returns (ok: bool, h: nat)
      requires Valid() && Unused(b)
      modifies this
      ensures Valid() && seen == old(seen) && (ok <==> Count(old(free)) >= 3)
      ensures !ok ==> After(old(Now()), Now()) && free == old(free) && subs == old(subs) && busy == old(busy)
                      && waiters > 0
      ensures ok ==> h < NUM && old(chains)[h].None? && chains[h].Some? && subs == old(subs) + [h]
                     && busy == old(busy) + {b}
      ensures ok ==> var c := chains[h].value;
        && c.b == b && c.bno == bno && c.out == out
        && After(old(Now()).(chains := old(chains)[h := Some(c.(phase := Posted(|old(subs)|)))]), Now())
    {
      h := 0;
      ghost var s := Now();
      var idx;
      ok, idx := Alloc3();
      if !ok {
        waiters := waiters + 1;
        return;
      }
      h := idx[0];
      ghost var free1, role1 := free, role;
      HandOver(idx, old(free), old(role), free, role, role);
      UnusedLater(s.chains, chains, b);
      ghost var c := Submit(b, bno, out, h, idx[1], idx[2], s);
      HandOver(idx, old(free), old(role), free1, role1, role);
    }

    /** Post, then perhaps the device. */
    method Submit(b: nat, bno: nat, out: bool, h: nat, d1: nat, d2: nat, ghost s: Snap) returns (ghost c: Chain)
      requires Core() && Unused(b) && h < NUM && d1 < NUM && d2 < NUM && h != d1 && d1 != d2 && h != d2
      requires role[h] == Held && role[d1] == Held && role[d2] == Held && After(s, Now())
      modifies this`ops, this`desc, this`busy, this`availRing, this`availIdx, this`role, this`subs,
               this`info, this`usedRing, this`usedIdx, this`dev, this`copied, this`blocks, this`data, this`chains,
               this`comps, this`taken, this`script
      ensures Core() && free == old(free) && waiters == old(waiters) && seen == old(seen) && seenIdx == old(seenIdx)
      ensures role == old(role)[h := Head][d1 := Second(h)][d2 := Third(h)]
      ensures subs == old(subs) + [h] && busy == old(busy) + {b}
      ensures s.chains[h].None? && chains[h].Some? && c == chains[h].value.(phase := Posted(|old(subs)|))
      ensures c.b == b && c.bno == bno && c.out == out && After(s.(chains := s.chains[h := Some(c)]), Now())
      ensures script == Past(old(script), 17)
    {
      c := Post(b, bno, out, h, d1, d2, s);
      ghost var s1 := s.(chains := s.chains[h := Some(c)]);
      Pause(s1);
      assert MovedOn(s1.chains[h], chains[h]);
    }

    /** Lay out the request, put its head on the available ring, and raise the index, with the device looking on. */
    method Post(b: nat, bno: nat, out: bool, h: nat, d1: nat, d2: nat, ghost s: Snap) returns (ghost c: Chain)
      requires Core() && Unused(b) && h < NUM && d1 < NUM && d2 < NUM && h != d1 && d1 != d2 && h != d2
      requires role[h] == Held && role[d1] == Held && role[d2] == Held && After(s, Now())
      modifies this`ops, this`desc, this`busy, this`availRing, this`availIdx, this`role, this`subs,
               this`info, this`usedRing, this`usedIdx, this`dev, this`copied, this`blocks, this`data, this`chains,
               this`comps, this`taken, this`script
      ensures Core()
      ensures role == old(role)[h := Head][d1 := Second(h)][d2 := Third(h)]
      ensures subs == old(subs) + [h] && busy == old(busy) + {b}
      ensures s.chains[h].None? && c == Chain(d1, d2, b, bno, out, Posted(|old(subs)|))
              && After(s.(chains := s.chains[h := Some(c)]), Now())
      ensures script == Past(old(script), 16)
    {
      c := Chain(d1, d2, b, bno, out, Posted(|subs|));
      Format(b, bno, out, h, d1, d2, s);
      PublishAfter(h, c, s);
    }

    /** No request begins at a descriptor that the driver holds. */
    lemma HeldIs(h: nat)
      requires Core() && h < NUM && role[h] == Held
      ensures chains[h].None?
    {
      CoreIs();
      assert chains[h].Some? ==> Placed(role, h, chains[h].value);
    }

    /** The fields of a descriptor, one store after the other, while `h` and `b` are reserved. */
    method SetDesc(i: nat, d: Desc, ghost h: nat, ghost b: nat, ghost s: Snap)
      requires Core() && After(s, Now()) && Reserved(h, b) && i < NUM && role[i] == Held
      modifies this`desc, this`info, this`usedRing, this`usedIdx, this`dev, this`copied, this`blocks, this`data,
               this`chains, this`comps, this`taken, this`script
      ensures Core() && After(s, Now()) && Reserved(h, b) && desc == old(desc)[i := d] && info[h] == old(info)[h]
      ensures script == Past(old(script), 3)
    {
      SetField(i, desc[i].(addr := d.addr), h, b, s);
      SetField(i, desc[i].(write := d.write, more := d.more), h, b, s);
      SetField(i, desc[i].(next := d.next), h, b, s);
    }

    method SetField(i: nat, d: Desc, ghost h: nat, ghost b: nat, ghost s: Snap)
      requires Core() && After(s, Now()) && Reserved(h, b) && i < NUM && role[i] == Held
      modifies this`desc, this`info, this`usedRing, this`usedIdx, this`dev, this`copied, this`blocks, this`data,
               this`chains, this`comps, this`taken, this`script
      ensures Core() && After(s, Now()) && Reserved(h, b) && desc == old(desc)[i := d] && info[h] == old(info)[h]
      ensures script == Past(old(script), 1)
    {
      ghost var chains1 := chains;
      StoreDesc(i, d, s);
      UnusedLater(chains1, chains, b);
      assert MovedOn(chains1[h], chains[h]);
    }

    /** The data descriptor gets its flags in two stores. */
    method SetData(i: nat, write: bool, next: nat, h: nat, b: nat, ghost s: Snap)
      requires Core() && After(s, Now()) && Reserved(h, b) && i < NUM && role[i] == Held
      modifies this`desc, this`info, this`usedRing, this`usedIdx, this`dev, this`copied, this`blocks, this`data,
               this`chains, this`comps, this`taken, this`script
      ensures Core() && After(s, Now()) && Reserved(h, b) && desc == old(desc)[i := Desc(Buf(b), write, true, next)]
              && info[h] == old(info)[h]
      ensures script == Past(old(script), 4)
    {
      SetField(i, desc[i].(addr := Buf(b)), h, b, s);
      SetField(i, desc[i].(write := write, more := false), h, b, s);
      SetField(i, desc[i].(more := true), h, b, s);
      SetField(i, desc[i].(next := next), h, b, s);
    }

    method SetOp(h: nat, op: Op, ghost b: nat, ghost s: Snap)
      requires Core() && After(s, Now()) && Reserved(h, b)
      modifies this`ops, this`info, this`usedRing, this`usedIdx, this`dev, this`copied, this`blocks, this`data,
               this`chains, this`comps, this`taken, this`script
      ensures Core() && After(s, Now()) && Reserved(h, b) && ops == old(ops)[h := op] && info[h] == old(info)[h]
      ensures script == Past(old(script), 1)
    {
      CoreIs();
      HeldStep(desc, ops, info, busy, free, role, chains, desc, ops[h := op], info, busy);
      ops := ops[h := op];
      Look(h, b, s);
    }

    /** The type of the request and its sector. */
    method SetRequest(h: nat, out: bool, bno: nat, ghost b: nat, ghost s: Snap)
      requires Core() && After(s, Now()) && Reserved(h, b)
      modifies this`ops, this`info, this`usedRing, this`usedIdx, this`dev, this`copied, this`blocks, this`data,
               this`chains, this`comps, this`taken, this`script
      ensures Core() && After(s, Now()) && Reserved(h, b) && ops == old(ops)[h := Op(out, 2 * bno)]
              && info[h] == old(info)[h]
      ensures script == Past(old(script), 2)
    {
      SetOp(h, Op(out, ops[h].sector), b, s);
      SetOp(h, Op(out, bno * 2), b, s);
    }

    method SetInfo(h: nat, x: Info, ghost b: nat, ghost s: Snap)
      requires Core() && After(s, Now()) && Reserved(h, b)
      modifies this`info, this`usedRing, this`usedIdx, this`dev, this`copied, this`blocks, this`data, this`chains,
               this`comps, this`taken, this`script
      ensures Core() && After(s, Now()) && Reserved(h, b) && info[h] == x
      ensures script == Past(old(script), 1)
    {
      CoreIs();
      HeldStep(desc, ops, info, busy, free, role, chains, desc, ops, info[h := x], busy);
      DeviceApart(dev, info, info[h := x], usedRing, comps, chains);
      info := info[h := x];
      Look(h, b, s);
    }

    method SetBusy(b: nat, ghost h: nat, ghost s: Snap)
      requires Core() && After(s, Now()) && Reserved(h, b)
      modifies this`busy, this`info, this`usedRing, this`usedIdx, this`dev, this`copied, this`blocks, this`data,
               this`chains, this`comps, this`taken, this`script
      ensures Core() && After(s, Now()) && Reserved(h, b) && busy == old(busy) + {b} && info[h] == old(info)[h]
      ensures script == Past(old(script), 1)
    {
      CoreIs();
      HeldStep(desc, ops, info, busy, free, role, chains, desc, ops, info, busy + {b});
      busy := busy + {b};
      Look(h, b, s);
    }

    /** The ring entry: the device does not look at it before the index is raised. */
    method SetRing(h: nat, ghost b: nat, ghost s: Snap)
      requires Core() && After(s, Now()) && Reserved(h, b)
      modifies this`availRing, this`info, this`usedRing, this`usedIdx, this`dev, this`copied, this`blocks, this`data,
               this`chains, this`comps, this`taken, this`script
      ensures Core() && After(s, Now()) && Reserved(h, b) && availRing[At(|subs|)] == h && info[h] == old(info)[h]
      ensures script == Past(old(script), 1)
    {
      CoreIs();
      WrapAgrees(|subs|);
      RingStep(availRing, subs, taken, chains, h);
      availRing := availRing[At(availIdx) := h];
      Look(h, b, s);
    }

    /** No request begins at `h` or has buffer `b`. */
    ghost predicate Reserved(h: nat, b: nat)
      reads this
    {
      h < NUM && |chains| == NUM && |info| == NUM && chains[h].None? && Unused(b)
    }

    method Look(ghost h: nat, ghost b: nat, ghost s: Snap)
      requires Core() && After(s, Now()) && Reserved(h, b)
      modifies this`info, this`usedRing, this`usedIdx, this`dev, this`copied, this`blocks, this`data, this`chains,
               this`comps, this`taken, this`script
      ensures Core() && After(s, Now()) && Reserved(h, b) && info[h] == old(info)[h]
      ensures script == Past(old(script), 1)
    {
      ghost var chains1 := chains;
      Pause(s);
      UnusedLater(chains1, chains, b);
      assert MovedOn(chains1[h], chains[h]);
    }

    /**
     * What virtio_disk_rw stores for a request: header and first two descriptors, then status and third, then buffer
     * and ring entry.
     */
    method Format(b: nat, bno: nat, out: bool, h: nat, d1: nat, d2: nat, ghost s: Snap)
      requires Core() && Unused(b) && h < NUM && d1 < NUM && d2 < NUM && h != d1 && d1 != d2 && h != d2
      requires role[h] == Held && role[d1] == Held && role[d2] == Held && After(s, Now())
      modifies this`ops, this`desc, this`busy, this`availRing,
               this`info, this`usedRing, this`usedIdx, this`dev, this`copied, this`blocks, this`data, this`chains,
                   this`comps,
               this`taken, this`script
      ensures Core() && After(s, Now()) && Reserved(h, b) && availRing[At(|subs|)] == h && busy == old(busy) + {b}
      ensures ChainOk(desc, ops, info, busy, h, Chain(d1, d2, b, bno, out, Posted(|subs|)))
      ensures script == Past(old(script), 16)
    {
      HeldIs(h);
      FormatTwo(b, bno, out, h, d1, d2, s);
      FormatStatus(h, d2, b, s);
      FormatBuffer(b, h, s);
    }

    method FormatTwo(b: nat, bno: nat, out: bool, h: nat, d1: nat, d2: nat, ghost s: Snap)
      requires Core() && After(s, Now()) && Reserved(h, b) && d1 < NUM && d2 < NUM && h != d1
      requires role[h] == Held && role[d1] == Held
      modifies this`ops, this`desc,
               this`info, this`usedRing, this`usedIdx, this`dev, this`copied, this`blocks, this`data, this`chains,
                   this`comps,
               this`taken, this`script
      ensures Core() && After(s, Now()) && Reserved(h, b) && ops[h] == Op(out, 2 * bno)
      ensures desc[h] == Desc(Req(h), false, true, d1) && desc[d1] == Desc(Buf(b), !out, true, d2)
      ensures script == Past(old(script), 9)
    {
      SetRequest(h, out, bno, b, s);
      SetDesc(h, Desc(Req(h), false, true, d1), h, b, s);
      SetData(d1, !out, d2, h, b, s);
    }

    method FormatStatus(h: nat, d2: nat, ghost b: nat, ghost s: Snap)
      requires Core() && After(s, Now()) && Reserved(h, b) && d2 < NUM && role[d2] == Held
      modifies this`desc,
               this`info, this`usedRing, this`usedIdx, this`dev, this`copied, this`blocks, this`data, this`chains,
                   this`comps,
               this`taken, this`script
      ensures Core() && After(s, Now()) && Reserved(h, b) && desc == old(desc)[d2 := Desc(Status(h), true, false, 0)]
              && info[h].status == 0xff
      ensures script == Past(old(script), 4)
    {
      SetInfo(h, Info(info[h].b, 0xff), b, s);
      SetDesc(d2, Desc(Status(h), true, false, 0), h, b, s);
    }

    method FormatBuffer(b: nat, h: nat, ghost s: Snap)
      requires Core() && After(s, Now()) && Reserved(h, b)
      modifies this`busy, this`availRing,
               this`info, this`usedRing, this`usedIdx, this`dev, this`copied, this`blocks, this`data, this`chains,
                   this`comps,
               this`taken, this`script
      ensures Core() && After(s, Now()) && Reserved(h, b) && busy == old(busy) + {b} && availRing[At(|subs|)] == h
      ensures info[h] == Info(Some(b), old(info)[h].status)
      ensures script == Past(old(script), 3)
    {
      SetBusy(b, h, s);
      SetInfo(h, Info(Some(b), info[h].status), b, s);
      SetRing(h, b, s);
    }

    /** Nothing has been moved for a new request. */
    lemma NewLands(h: nat, c: Chain)
      requires Core() && h < NUM && chains[h].None? && c.phase.Posted?
      ensures AllLanded(chains[h := Some(c)], dev.moved, copied - {h}, data)
      ensures DeviceOk(dev, info, usedRing, comps, chains[h := Some(c)])
    {
      CoreIs();
      LandedBut(chains, dev.moved, copied, data, h, Some(c), dev.moved, copied - {h}, data);
    }

    /** The store that hands the request over. */
    method Publish(h: nat, ghost c: Chain)
      requires Core() && Reserved(h, c.b) && c.d1 < NUM && c.d2 < NUM && h != c.d1 && c.d1 != c.d2
               && h != c.d2
      requires role[h] == Held && role[c.d1] == Held && role[c.d2] == Held
      requires c.phase == Posted(|subs|) && availRing[At(|subs|)] == h && ChainOk(desc, ops, info, busy, h, c)
      modifies this`availIdx, this`role, this`chains, this`subs, this`copied
      ensures Core() && subs == old(subs) + [h] && role == old(role)[h := Head][c.d1 := Second(h)][c.d2 := Third(h)]
      ensures chains == old(chains)[h := Some(c)]
    {
      CoreIs();
      PublishStep(desc, ops, info, busy, free, role, chains, availRing, subs, taken, usedRing, comps, seen, h, c);
      WrapAgrees(|subs|);
      NewLands(h, c);
      copied := copied - {h};
      availIdx := U16(availIdx + 1);
      role := role[h := Head][c.d1 := Second(h)][c.d2 := Third(h)];
      chains, subs := chains[h := Some(c)], subs + [h];
    }

    method PublishAfter(h: nat, ghost c: Chain, ghost s: Snap)
      requires Core() && After(s, Now()) && Reserved(h, c.b) && c.d1 < NUM && c.d2 < NUM && h != c.d1 && c.d1 != c.d2
               && h != c.d2
      requires role[h] == Held && role[c.d1] == Held && role[c.d2] == Held
      requires c.phase == Posted(|subs|) && availRing[At(|subs|)] == h && ChainOk(desc, ops, info, busy, h, c)
      modifies this`availIdx, this`role, this`chains, this`subs, this`copied
      ensures Core() && subs == old(subs) + [h] && role == old(role)[h := Head][c.d1 := Second(h)][c.d2 := Third(h)]
      ensures |s.chains| == NUM && s.chains[h].None? && After(s.(chains := s.chains[h := Some(c)]), Now())
    {
      AfterAdd(s, Now(), h, c);
      Publish(h, c);
    }

    // ---------------------------------------------------------- virtio_disk_intr

    /** One turn of virtio_disk_intr's loop, up to the store that clears the buffer of the next completion. */
    method IntrOne() returns (more: bool, ghost b: nat)
      requires Valid()
      modifies this`busy, this`seen, this`chains
      ensures Orderly()
      ensures more <==> old(seen) < |comps|
      ensures !more ==> busy == old(busy) && chains == old(chains) && seen == old(seen) == |comps|
      ensures more ==> var h := comps[old(seen)];
        && seen == old(seen) + 1 && h < NUM && old(chains)[h].Some? && old(chains)[h].value.phase == Done(old(seen))
        && b == old(chains)[h].value.b && b in old(busy) && busy == old(busy) - {b}
        && chains == InPhase(old(chains), h, Seen) && U16(seenIdx + 1) == U16(seen)
    {
      CoreIs();
      more, b := false, 0;
      SeeStep(desc, ops, info, busy, free, role, chains, availRing, subs, taken, usedRing, comps, seen);
      if seenIdx != usedIdx {
        more := true;
        var id := usedRing[At(seenIdx)];
        if info[id].status != 0 {
          assert false;
        }
        var buf := info[id].b.value;
        b := buf;
        busy := busy - {buf};
        assert Landed(chains[id].value, id, dev.moved, copied, data);
        LandedBut(chains, dev.moved, copied, data, id, InPhase(chains, id, Seen)[id], dev.moved, copied, data);
        seen, chains := seen + 1, InPhase(chains, id, Seen);
      }
    }

    /** The same turn, with the device looking on, and the store that counts it. */
    method IntrTurn(ghost chains0: Chains) returns (more: bool)
      requires Valid() && Onward(chains0, chains)
      modifies this`busy, this`seenIdx, this`seen,
               this`info, this`usedRing, this`usedIdx, this`dev, this`copied, this`blocks, this`data, this`chains,
               this`comps, this`taken, this`script
      ensures Valid() && Onward(chains0, chains)
      ensures if more then Count(Unseen(chains)) < old(Count(Unseen(chains)))
              else seen == |comps| && chains == old(chains)
      ensures more ==> script == Past(old(script), 2)
    {
      more := IntrSee(chains0);
      if more {
        seenIdx := U16(seenIdx + 1);
        WatchOn(chains0);
      }
    }

    method IntrSee(ghost chains0: Chains) returns (more: bool)
      requires Valid() && Onward(chains0, chains)
      modifies this`busy, this`seen,
               this`info, this`usedRing, this`usedIdx, this`dev, this`copied, this`blocks, this`data, this`chains,
               this`comps, this`taken, this`script
      ensures Orderly() && Onward(chains0, chains)
      ensures if more then Count(Unseen(chains)) < old(Count(Unseen(chains))) && U16(seenIdx + 1) == U16(seen)
              else seen == old(seen) == |comps| && chains == old(chains)
      ensures more ==> script == Past(old(script), 1)
    {
      ghost var b, chains1 := 0, chains;
      more, b := IntrOne();
      if more {
        OnwardSee(chains0, chains1, comps[seen - 1]);
        WatchOn(chains0);
      }
    }

    /** The device acts; nothing becomes seen or unseen by that. */
    method WatchOn(ghost chains0: Chains)
      requires Orderly() && Onward(chains0, chains)
      modifies this`info, this`usedRing, this`usedIdx, this`dev, this`copied, this`blocks, this`data, this`chains,
               this`comps, this`taken, this`script
      ensures Orderly() && Onward(chains0, chains) && Unseen(chains) == old(Unseen(chains))
      ensures script == Past(old(script), 1)
    {
      ghost var chains1 := chains;
      Moment();
      OnwardLater(chains0, chains1, chains);
    }

    /** virtio_disk_intr: every completion there is, also those that come in meanwhile, in order. */
    method Intr()
      requires Valid()
      modifies this`busy, this`seenIdx, this`seen,
               this`info, this`usedRing, this`usedIdx, this`dev, this`copied, this`blocks, this`data, this`chains,
               this`comps, this`taken, this`script
      ensures Valid() && seen == |comps| && Onward(old(chains), chains)
      ensures forall h :: 0 <= h < NUM && old(chains)[h].Some? && Rank(old(chains)[h].value.phase) >= 2 ==>
        chains[h].Some? && chains[h].value.phase == Seen && chains[h].value.b !in busy
    {
      var more := true;
      forall h | 0 <= h < NUM ensures Further(chains[h], chains[h]) {}
      while more
        invariant Valid() && Onward(old(chains), chains) && (!more ==> seen == |comps|)
        decreases Count(Unseen(chains)), more
      {
        more := IntrTurn(old(chains));
      }
      AllSeen(old(chains));
    }

    lemma AllSeen(chains0: Chains)
      requires Core() && seen == |comps| && Onward(chains0, chains)
      ensures forall h :: 0 <= h < NUM && chains0[h].Some? && Rank(chains0[h].value.phase) >= 2 ==>
        chains[h].Some? && chains[h].value.phase == Seen && chains[h].value.b !in busy
    {
      CoreIs();
      NoneDone(usedRing, comps, seen, chains);
      forall h | 0 <= h < NUM && chains0[h].Some? && Rank(chains0[h].value.phase) >= 2
        ensures chains[h].Some? && chains[h].value.phase == Seen && chains[h].value.b !in busy
      {
        assert Further(chains0[h], chains[h]) && ChainOk(desc, ops, info, busy, h, chains[h].value);
      }
    }

    // ------------------------------------------------- the end of virtio_disk_rw

    /** free_chain: the head and whatever it links to, three descriptors in all. */
    method FreeChain(h: nat, ghost d1: nat, ghost d2: nat, ghost s: Snap)
      requires Core() && After(s, Now()) && h < NUM && d1 < NUM && d2 < NUM && h != d1 && d1 != d2 && h != d2
      requires role[h] == Held && role[d1] == Held && role[d2] == Held
      requires desc[h].more && desc[h].next == d1 && desc[d1].more && desc[d1].next == d2 && !desc[d2].more
      modifies this`free, this`role, this`desc, this`waiters, this`info, this`usedRing, this`usedIdx, this`dev,
               this`copied,
                this`blocks,
        this`data, this`chains, this`comps, this`taken, this`script
      ensures Core() && After(s, Now()) && waiters == 0
      ensures role == old(role)[h := Idle][d1 := Idle][d2 := Idle] && Count(free) == Count(old(free)) + 3
    {
      var i := h;
      ghost var k := 0;
      while true
        invariant 0 <= k < 3 && i == (if k == 0 then h else if k == 1 then d1 else d2) && (k > 0 ==> waiters == 0)
        invariant Core() && After(s, Now()) && Count(free) == Count(old(free)) + k
        invariant role == if k == 0 then old(role) else if k == 1 then old(role)[h := Idle]
                  else old(role)[h := Idle][d1 := Idle]
        invariant desc[d2] == old(desc)[d2] && (k < 2 ==> desc[d1] == old(desc)[d1])
                  && (k < 1 ==> desc[h] == old(desc)[h])
        decreases 3 - k
      {
        var flag, nxt := desc[i].more, desc[i].next;
        FreeDesc(i, s);
        if !flag {
          break;
        }
        i := nxt;
        k := k + 1;
      }
    }

    /**
     * virtio_disk_rw after its wait: the request is over, its descriptors go free, and waiters for descriptors wake.
     */
    method FinishRw(h: nat)
      requires Valid() && h < NUM && chains[h].Some? && chains[h].value.b !in busy
      modifies this
      ensures Valid() && busy == old(busy) && subs == old(subs) && seen == old(seen)
      ensures After(old(Now()).(chains := old(chains)[h := None]), Now())
      ensures Count(free) == Count(old(free)) + 3 && waiters == 0
      ensures h in old(copied) && Fetch(data, old(chains)[h].value.b) == old(copied)[h]
    {
      ghost var c, s := Withdraw(h);
      FreeChain(h, c.d1, c.d2, s);
      SparesUnused(s, Now(), c.b);
    }

    /** The store that forgets the request, then perhaps the device. */
    method Withdraw(h: nat) returns (ghost c: Chain, ghost s: Snap)
      requires Core() && h < NUM && chains[h].Some? && chains[h].value.b !in busy
      modifies this`role, this`info, this`usedRing, this`usedIdx, this`dev, this`copied, this`blocks, this`data,
               this`chains, this`comps, this`taken, this`script
      ensures Core() && c == old(chains)[h].value && s == old(Now()).(chains := old(chains)[h := None])
              && After(s, Now())
      ensures c.d1 < NUM && c.d2 < NUM && h != c.d1 && c.d1 != c.d2 && h != c.d2
      ensures role == old(role)[h := Held][c.d1 := Held][c.d2 := Held]
      ensures desc[h].more && desc[h].next == c.d1 && desc[c.d1].more && desc[c.d1].next == c.d2 && !desc[c.d2].more
      ensures h in old(copied) && Fetch(s.data, c.b) == old(copied)[h]
      ensures forall x :: 0 <= x < |s.chains| && s.chains[x].Some? ==> s.chains[x].value.b != c.b
      ensures script == Past(old(script), 1)
      ensures info[h].b == None
    {
      c := Retire(h);
      s := Now();
      AfterSame(s);
      Pause(s);
    }

    /** The request is forgotten: its descriptors are in the driver's hands. */
    method Retire(h: nat) returns (ghost c: Chain)
      requires Core() && h < NUM && chains[h].Some? && chains[h].value.b !in busy
      modifies this`info, this`role, this`chains
      ensures Core() && c == old(chains)[h].value && chains == old(chains)[h := None]
      ensures c.d1 < NUM && c.d2 < NUM && h != c.d1 && c.d1 != c.d2 && h != c.d2
      ensures role == old(role)[h := Held][c.d1 := Held][c.d2 := Held]
      ensures desc[h].more && desc[h].next == c.d1 && desc[c.d1].more && desc[c.d1].next == c.d2 && !desc[c.d2].more
      ensures h in copied && Fetch(data, c.b) == copied[h] && Unused(c.b)
      ensures info == old(info)[h := Info(None, old(info)[h].status)]
    {
      CoreIs();
      c := chains[h].value;
      assert Landed(c, h, dev.moved, copied, data);
      LandedBut(chains, dev.moved, copied, data, h, None, dev.moved, copied, data);
      DeviceApart(dev, info, info[h := Info(None, info[h].status)], usedRing, comps, chains);
      FinishStep(desc, ops, info, busy, free, role, chains, availRing, subs, taken, usedRing, comps, seen, h);
      info := info[h := Info(None, info[h].status)];
      role, chains := role[h := Held][c.d1 := Held][c.d2 := Held], chains[h := None];
    }
  }
}
