/** Eviction is in the order of release: which blocks a run gives back, and in which
    order, is computed from the run alone; the LRU list is shown to be in that order,
    so that the block an eviction takes is the one that was given back longest ago. */
module PagedKvOrder {
  import opened Sums
  import opened PagedKv
  import opened PagedKvSound
  import opened PagedKvOps
  import opened PagedKvRuns

  // ----- The blocks given back -----

  /** The entries of a table that give up the last reference of a block with a hash, in
      the order of the table: those before which the table has all other references. */
  function GivenBack(cfg: Config, c: Cache, t: seq<nat>): (r: seq<nat>) {
    if t == [] then []
    else
      var b := t[|t| - 1];
      GivenBack(cfg, c, t[..|t| - 1])
      + if cfg.caching && b < |c.blocks| && c.blocks[b].hash != 0 && c.blocks[b].refCount == multiset(t)[b]
        then [b] else []
  }

  /** The blocks that a run has given back so far; a block occurs once for each time. */
  ghost function Returned(cfg: Config, ops: seq<Op>): seq<nat> {
    if ops == [] then []
    else
      var u, op := ops[..|ops| - 1], ops[|ops| - 1];
      Returned(cfg, u)
      + match op
        case DoUnregister(id) =>
          var c := Run(cfg, u).cache;
          if id in c.tables then GivenBack(cfg, c, c.tables[id]) else []
        case _ => []
  }

  /** The position of the last time that x was given back, or -1. */
  ghost function LastAt(returned: seq<nat>, x: nat): (k: int)
    ensures -1 <= k < |returned|
    ensures k >= 0 ==> returned[k] == x && forall i :: k < i < |returned| ==> returned[i] != x
    ensures k < 0 ==> x !in returned
  {
    if returned == [] then -1
    else if returned[|returned| - 1] == x then |returned| - 1
    else LastAt(returned[..|returned| - 1], x)
  }

  /** All of the list have been given back, the front last. */
  ghost predicate InOrder(lru: seq<nat>, returned: seq<nat>) {
    && (forall i :: 0 <= i < |lru| ==> LastAt(returned, lru[i]) >= 0)
    && forall i, j :: 0 <= i < j < |lru| ==> LastAt(returned, lru[i]) > LastAt(returned, lru[j])
  }

  // ----- What takes blocks off the list keeps its order -----

  lemma SpliceInOrder(lru: seq<nat>, returned: seq<nat>, k: nat)
    requires InOrder(lru, returned) && k < |lru|
    ensures InOrder(lru[..k] + lru[k + 1..], returned)
  {
    var r := lru[..k] + lru[k + 1..];
    forall i, j | 0 <= i < j < |r| ensures LastAt(returned, r[i]) > LastAt(returned, r[j]) {
      var i', j' := if i < k then i else i + 1, if j < k then j else j + 1;
      assert r[i] == lru[i'] && r[j] == lru[j'];
    }
  }

  lemma WithoutInOrder(lru: seq<nat>, returned: seq<nat>, b: nat)
    requires InOrder(lru, returned)
    ensures InOrder(Without(lru, b), returned)
  {
    if b in lru {
      var k := WithoutSplice(lru, b);
      SpliceInOrder(lru, returned, k);
    } else {
      WithoutNothing(lru, b);
    }
  }

  lemma {:induction false} WithoutNothing(s: seq<nat>, x: nat)
    requires x !in s
    ensures Without(s, x) == s
  {
    if s != [] {
      WithoutNothing(s[1..], x);
    }
  }

  lemma PushInOrder(lru: seq<nat>, returned: seq<nat>, b: nat)
    requires InOrder(lru, returned) && b !in lru
    ensures InOrder([b] + lru, returned + [b])
  {
    var more := returned + [b];
    assert more[..|returned|] == returned;
    assert forall x :: LastAt(more, x) == if x == b then |returned| else LastAt(returned, x);
  }

  lemma AllocateInOrder(cfg: Config, c: Cache, returned: seq<nat>)
    requires Shape(cfg, c) && InOrder(c.lru, returned)
    ensures InOrder(Allocate(cfg, c).cache.lru, returned)
  {
    if c.free == [] {
      match Victim(cfg, c, |c.lru|)
      case None =>
      case Some(k) => SpliceInOrder(c.lru, returned, k);
    }
  }

  lemma {:induction false} ClaimAllInOrder(cfg: Config, c: Cache, t: seq<nat>, returned: seq<nat>)
    requires Shape(cfg, c) && InRange(t, cfg.totalBlocks) && InOrder(c.lru, returned)
    ensures InOrder(ClaimAll(cfg, c, t).lru, returned)
    decreases |t|
  {
    hide Shape, InOrder;
    if t != [] {
      ClaimAllInOrder(cfg, c, t[..|t| - 1], returned);
      WithoutInOrder(ClaimAll(cfg, c, t[..|t| - 1]).lru, returned, t[|t| - 1]);
    }
  }

  lemma InsertInOrder(cfg: Config, f: Filling, hv: nat, returned: seq<nat>)
    requires FillShape(cfg, f) && InOrder(f.cache.lru, returned)
    ensures InOrder(InsertChunk(cfg, f, hv).cache.lru, returned)
  {
    hide Shape, InOrder, Allocate;
    AllocateInOrder(cfg, f.cache, returned);
  }

  lemma {:induction false} FillToInOrder(cfg: Config, q: seq<seq<int>>, f: Filling, lo: nat, hi: nat,
                                         returned: seq<nat>)
    requires FillShape(cfg, f) && lo <= hi <= |q| && InOrder(f.cache.lru, returned)
    ensures InOrder(FillTo(cfg, q, f, lo, hi).cache.lru, returned)
    decreases hi
  {
    hide Shape, InOrder, InsertChunk, Chain;
    if hi > lo {
      FillToInOrder(cfg, q, f, lo, hi - 1, returned);
      InsertInOrder(cfg, FillTo(cfg, q, f, lo, hi - 1), Chain(cfg, q, hi), returned);
    }
  }

  lemma AddTailInOrder(cfg: Config, f: Filling, tail: nat, returned: seq<nat>)
    requires FillShape(cfg, f) && tail < cfg.blockSize && InOrder(f.cache.lru, returned)
    ensures InOrder(AddTail(cfg, f, tail).cache.lru, returned)
  {
    hide Shape, InOrder, Allocate;
    AllocateInOrder(cfg, f.cache, returned);
  }

  lemma RegisterInOrder(cfg: Config, c: Cache, id: nat, prompt: seq<int>, returned: seq<nat>)
    requires Shape(cfg, c) && InOrder(c.lru, returned)
    ensures InOrder(Register(cfg, c, id, prompt).cache.lru, returned)
  {
    hide Shape, InOrder, FillTo, AddTail, Chunks, TailLength, Lookup, ClaimAll;
    if id !in c.tables {
      var q := Chunks(prompt, cfg.blockSize);
      LookupInOrder(cfg, c, q, returned);
      FillToInOrder(cfg, q, AfterLookup(cfg, c, q), Lookup(cfg, c.tree, q), |q|, returned);
      AddTailInOrder(cfg, Placed(cfg, c, prompt), TailLength(prompt, cfg.blockSize), returned);
    }
  }

  lemma LookupInOrder(cfg: Config, c: Cache, q: seq<seq<int>>, returned: seq<nat>)
    requires Shape(cfg, c) && InOrder(c.lru, returned)
    ensures TreeShape(c.tree, cfg.totalBlocks) && InOrder(AfterLookup(cfg, c, q).cache.lru, returned)
  {
    ClaimAllInOrder(cfg, c, AfterLookup(cfg, c, q).table, returned);
  }

  lemma {:induction false} ExtendInOrder(cfg: Config, c: Cache, id: nat, remaining: nat, returned: seq<nat>)
    requires Shape(cfg, c) && id in c.tables && InOrder(c.lru, returned)
    ensures InOrder(Extend(cfg, c, id, remaining).cache.lru, returned)
    decreases remaining
  {
    hide Shape, InOrder, Allocate;
    if remaining > 0 {
      var added := if remaining < cfg.blockSize then remaining else cfg.blockSize;
      AllocateInOrder(cfg, c, returned);
      var g := Grow(cfg, c, id, added);
      if g.Return? {
        ExtendInOrder(cfg, g.cache, id, remaining - added, returned);
      }
    }
  }

  lemma AppendInOrder(cfg: Config, c: Cache, id: nat, n: nat, returned: seq<nat>)
    requires Shape(cfg, c) && InOrder(c.lru, returned)
    ensures InOrder(Append(cfg, c, id, n).cache.lru, returned)
  {
    hide InRange, TreeShape, InOrder, Extend;
    if id in c.tables && n > Room(cfg, c, id) {
      ExtendInOrder(cfg, FillLast(cfg, c, id, Room(cfg, c, id)), id, n - Room(cfg, c, id), returned);
    }
  }

  lemma {:induction false} ShareLru(cfg: Config, c: Cache, t: seq<nat>)
    requires Shape(cfg, c) && InRange(t, cfg.totalBlocks)
    ensures Share(cfg, c, t).lru == c.lru
    decreases |t|
  {
    if t != [] {
      ShareLru(cfg, c, t[..|t| - 1]);
    }
  }

  // ----- Giving back puts blocks in front -----

  /** Releasing some entries of a table takes off one reference for each. */
  lemma {:induction false} ReleasedCounts(cfg: Config, c: Cache, t: seq<nat>)
    requires Shape(cfg, c) && InRange(t, cfg.totalBlocks)
    requires forall b :: 0 <= b < |c.blocks| ==> c.blocks[b].refCount >= multiset(t)[b]
    ensures var c' := ReleaseAll(cfg, c, t);
      |c'.blocks| == |c.blocks| && forall b :: 0 <= b < |c.blocks| ==>
        c'.blocks[b].refCount == c.blocks[b].refCount - multiset(t)[b] && c'.blocks[b].hash == c.blocks[b].hash
    decreases |t|
  {
    if t != [] {
      var u := t[..|t| - 1];
      assert t == u + [t[|t| - 1]];
      ReleasedCounts(cfg, c, u);
    }
  }

  /** The last reference of a block with a hash puts it in front of the list, which is
      otherwise unchanged; any other reference leaves the list as it is. */
  lemma ReleaseFront(cfg: Config, c: Cache, b: nat)
    requires Shape(cfg, c) && b < cfg.totalBlocks && c.blocks[b].refCount > 0
    ensures Release(cfg, c, b).lru
      == if cfg.caching && c.blocks[b].hash != 0 && c.blocks[b].refCount == 1 then [b] + c.lru else c.lru
  {
  }

  /** The reference to b comes last of those given back, and is the last one there is. */
  predicate IsLast(cfg: Config, c: Cache, u: seq<nat>, b: nat) {
    cfg.caching && b < |c.blocks| && c.blocks[b].hash != 0 && c.blocks[b].refCount == multiset(u)[b] + 1
  }

  lemma ReleaseNext(cfg: Config, c: Cache, held: multiset<nat>, u: seq<nat>, b: nat)
    requires Sound(cfg, c, held + multiset{b} + multiset(u)) && InRange(u, cfg.totalBlocks) && b < cfg.totalBlocks
    ensures var c1 := ReleaseAll(cfg, c, u);
      && b !in c1.lru && Release(cfg, c1, b).lru == if IsLast(cfg, c, u, b) then [b] + c1.lru else c1.lru
  {
    hide Partition, HashRules, Accounted, Release, ReleaseAll;
    var c1 := ReleaseAll(cfg, c, u);
    ReleaseAllSound(cfg, c, held + multiset{b}, u);
    HeldCounts(cfg, c, held + multiset{b}, u);
    HeldOnce(cfg, c1, held, b);
    ReleasedCounts(cfg, c, u);
    ReleaseFront(cfg, c1, b);
    InUseNotListed(cfg, c1, held + multiset{b}, b);
  }

  lemma HeldOnce(cfg: Config, c: Cache, held: multiset<nat>, b: nat)
    requires Sound(cfg, c, held + multiset{b}) && b < cfg.totalBlocks
    ensures b < |c.blocks| && c.blocks[b].refCount > 0
  {
  }

  lemma GivenBackNext(cfg: Config, c: Cache, t: seq<nat>)
    requires t != []
    ensures var u, b := t[..|t| - 1], t[|t| - 1];
      GivenBack(cfg, c, t) == GivenBack(cfg, c, u) + if IsLast(cfg, c, u, b) then [b] else []
  {
    assert t == t[..|t| - 1] + [t[|t| - 1]];
  }

  lemma {:induction false} ReleaseInOrder(cfg: Config, c: Cache, held: multiset<nat>, t: seq<nat>, returned: seq<nat>)
    requires Sound(cfg, c, held + multiset(t)) && InRange(t, cfg.totalBlocks) && InOrder(c.lru, returned)
    ensures InOrder(ReleaseAll(cfg, c, t).lru, returned + GivenBack(cfg, c, t))
    decreases |t|
  {
    hide InOrder, Release, Sound, GivenBack, IsLast;
    SoundIsShape(cfg, c, held + multiset(t));
    if t == [] {
      NothingBack(cfg, c, returned);
    } else {
      var u, b := t[..|t| - 1], t[|t| - 1];
      assert t == u + [b];
      assert held + multiset(t) == held + multiset{b} + multiset(u);
      ReleaseInOrder(cfg, c, held + multiset{b}, u, returned);
      ReleaseNext(cfg, c, held, u, b);
      GivenBackNext(cfg, c, t);
      var all := returned + GivenBack(cfg, c, u);
      PushInOrderIf(ReleaseAll(cfg, c, u).lru, all, b);
      assert all + [b] == returned + (GivenBack(cfg, c, u) + [b]);
      assert all == returned + (GivenBack(cfg, c, u) + []);
    }
  }

  lemma PushInOrderIf(lru: seq<nat>, returned: seq<nat>, b: nat)
    requires InOrder(lru, returned) && b !in lru
    ensures InOrder([b] + lru, returned + [b]) && returned + [] == returned
  {
    PushInOrder(lru, returned, b);
  }

  lemma NothingBack(cfg: Config, c: Cache, returned: seq<nat>)
    ensures returned + GivenBack(cfg, c, []) == returned
  {
  }

  lemma SoundIsShape(cfg: Config, c: Cache, held: multiset<nat>)
    requires Sound(cfg, c, held)
    ensures Shape(cfg, c)
  {
  }

  lemma HeldCounts(cfg: Config, c: Cache, held: multiset<nat>, t: seq<nat>)
    requires Sound(cfg, c, held + multiset(t))
    ensures |c.blocks| == cfg.totalBlocks
    ensures forall b :: 0 <= b < |c.blocks| ==> c.blocks[b].refCount >= multiset(t)[b]
  {
  }

  lemma InUseNotListed(cfg: Config, c: Cache, held: multiset<nat>, b: nat)
    requires Sound(cfg, c, held) && b < |c.blocks| && c.blocks[b].refCount > 0
    ensures b !in c.lru
  {
  }

  lemma UnregisterInOrder(cfg: Config, c: Cache, held: multiset<nat>, id: nat, returned: seq<nat>)
    requires Sound(cfg, c, held) && id in c.tables && InOrder(c.lru, returned)
    ensures InOrder(Unregister(cfg, c, id).lru, returned + GivenBack(cfg, c, c.tables[id]))
  {
    var t := c.tables[id];
    EraseSound(cfg, c, held, id);
    hide InOrder, Partition, HashRules, Accounted, GivenBack, ReleaseAll;
    var c0 := c.(tables := c.tables - {id});
    ReleaseInOrder(cfg, c0, held, t, returned);
    TablesAside(cfg, c, c.tables - {id}, t);
  }

  /** Releasing and giving back do not look at the page tables. */
  lemma {:induction false} TablesAside(cfg: Config, c: Cache, tables: map<nat, seq<nat>>, t: seq<nat>)
    requires Shape(cfg, c) && Shape(cfg, c.(tables := tables))
    ensures ReleaseAll(cfg, c.(tables := tables), t) == ReleaseAll(cfg, c, t).(tables := tables)
    ensures GivenBack(cfg, c.(tables := tables), t) == GivenBack(cfg, c, t)
    decreases |t|
  {
    if t != [] {
      TablesAside(cfg, c, tables, t[..|t| - 1]);
    }
  }

  // ----- Whole runs -----

  lemma StepInOrder(cfg: Config, w: World, op: Op, returned: seq<nat>)
    requires Sound(cfg, w.cache, w.leaked) && InOrder(w.cache.lru, returned)
    ensures op.DoUnregister? && op.id in w.cache.tables ==>
      InOrder(Step(cfg, w, op).cache.lru, returned + GivenBack(cfg, w.cache, w.cache.tables[op.id]))
    ensures !(op.DoUnregister? && op.id in w.cache.tables) ==> InOrder(Step(cfg, w, op).cache.lru, returned)
  {
    hide Partition, HashRules, Accounted, InOrder, Register, Append, Share, GivenBack;
    match op
    case DoRegister(id, prompt) => RegisterInOrder(cfg, w.cache, id, prompt, returned);
    case DoAppend(id, n) => AppendInOrder(cfg, w.cache, id, n, returned);
    case DoUnregister(id) =>
      if id in w.cache.tables {
        UnregisterInOrder(cfg, w.cache, w.leaked, id, returned);
      }
    case DoFork(parent, child) =>
      if parent in w.cache.tables {
        ShareLru(cfg, w.cache, w.cache.tables[parent]);
      }
  }

  /** In every run whose lookups hit no free block, the LRU list is in the order in which
      its blocks were given back, the most recent in front. */
  lemma {:induction false} RunInOrder(cfg: Config, ops: seq<Op>)
    requires RunWalks(cfg, ops)
    ensures InOrder(Run(cfg, ops).cache.lru, Returned(cfg, ops))
  {
    hide Sound, InOrder, Shape, Step, StepWalks, GivenBack;
    if ops == [] {
      EmptyInOrder(cfg);
    } else {
      var u, op := ops[..|ops| - 1], ops[|ops| - 1];
      RunInOrder(cfg, u);
      RunSound(cfg, u);
      StepInOrder(cfg, Run(cfg, u), op, Returned(cfg, u));
      assert Returned(cfg, u) + [] == Returned(cfg, u);
    }
  }

  lemma EmptyInOrder(cfg: Config)
    ensures InOrder(Run(cfg, []).cache.lru, [])
  {
  }

  /** After such a run an allocation that evicts takes the block that was given back
      longest ago of all cached ones. */
  lemma VictimIsOldest(cfg: Config, ops: seq<Op>)
    requires RunWalks(cfg, ops)
    ensures var c, returned := Run(cfg, ops).cache, Returned(cfg, ops); var r := Allocate(cfg, c);
      c.free == [] && r.Return? ==>
        && r.value in c.lru && r.value in returned
        && forall b :: b in c.lru && b != r.value ==> LastAt(returned, r.value) < LastAt(returned, b)
  {
    hide Shape, Step, Run, Returned, LastAt;
    RunInOrder(cfg, ops);
    RunSound(cfg, ops);
    var c, returned := Run(cfg, ops).cache, Returned(cfg, ops);
    VictimIsLast(cfg, c, Run(cfg, ops).leaked);
    if c.free == [] && c.lru != [] {
      assert LastAt(returned, c.lru[|c.lru| - 1]) >= 0;
    }
  }

  /** A block that is freed is the next one to be handed out. */
  lemma FreedIsNext(cfg: Config, c: Cache, b: nat)
    requires Shape(cfg, c) && b < cfg.totalBlocks && c.blocks[b].refCount == 1
    requires !cfg.caching || c.blocks[b].hash == 0
    ensures var r := Allocate(cfg, Release(cfg, c, b)); r.Return? && r.value == b && r.cache.free == c.free
  {
    assert (c.free + [b])[..|c.free|] == c.free;
  }

  // ----- The counters -----

  lemma {:induction false} ClaimAllCounts(cfg: Config, c: Cache, t: seq<nat>)
    requires Shape(cfg, c) && InRange(t, cfg.totalBlocks)
    ensures var c' := ClaimAll(cfg, c, t); c'.hits == c.hits + |t| && c'.misses == c.misses
    decreases |t|
  {
    hide Shape;
    if t != [] {
      ClaimAllCounts(cfg, c, t[..|t| - 1]);
    }
  }

  lemma AllocateCounts(cfg: Config, c: Cache)
    requires Shape(cfg, c)
    ensures Allocate(cfg, c).cache.hits == c.hits && Allocate(cfg, c).cache.misses == c.misses
  {
  }

  lemma {:induction false} FillToCounts(cfg: Config, q: seq<seq<int>>, f: Filling, lo: nat, hi: nat)
    requires FillShape(cfg, f) && lo <= hi <= |q| && f.ok
    ensures var g := FillTo(cfg, q, f, lo, hi);
      && g.cache.hits == f.cache.hits && g.cache.misses + |f.table| == f.cache.misses + |g.table|
      && (g.ok ==> |g.table| == |f.table| + (hi - lo))
    decreases hi
  {
    hide Shape, Allocate, Chain;
    if hi > lo {
      FillToCounts(cfg, q, f, lo, hi - 1);
      AllocateCounts(cfg, FillTo(cfg, q, f, lo, hi - 1).cache);
    }
  }

  /** A registration counts one hit for each block it matches and one miss for each block
      it places: together one for every full block of the prompt, unless it throws. */
  lemma RegisterCounts(cfg: Config, c: Cache, id: nat, prompt: seq<int>)
    requires Shape(cfg, c) && id !in c.tables
    ensures var r := Register(cfg, c, id, prompt); var c', matched := r.cache, |Hits(cfg, c, prompt)|;
      && c'.hits == c.hits + matched
      && c'.misses + matched == c.misses + |Placed(cfg, c, prompt).table|
      && (r.Return? ==> r.value == TokensIn(c'.hits - c.hits, cfg.blockSize))
      && (r.Return? ==> c'.hits + c'.misses == c.hits + c.misses + |Chunks(prompt, cfg.blockSize)|)
  {
    hide Shape, FillTo, Chunks, TailLength, ClaimAll, TokensIn, Allocate;
    var q := Chunks(prompt, cfg.blockSize);
    LookupCounts(cfg, c, prompt);
    FillToCounts(cfg, q, AfterLookup(cfg, c, q), Lookup(cfg, c.tree, q), |q|);
    AllocateCounts(cfg, Placed(cfg, c, prompt).cache);
  }

  lemma LookupCounts(cfg: Config, c: Cache, prompt: seq<int>)
    requires Shape(cfg, c)
    ensures var q, t := Chunks(prompt, cfg.blockSize), Hits(cfg, c, prompt); var f := AfterLookup(cfg, c, q);
      && TreeShape(c.tree, cfg.totalBlocks) && |t| == Lookup(cfg, c.tree, q) && f.table == t
      && f.cache.hits == c.hits + |t| && f.cache.misses == c.misses
  {
    ClaimAllCounts(cfg, c, Hits(cfg, c, prompt));
  }

  lemma {:induction false} ReleaseAllCounts(cfg: Config, c: Cache, t: seq<nat>)
    requires Shape(cfg, c)
    ensures var c' := ReleaseAll(cfg, c, t); c'.hits == c.hits && c'.misses == c.misses
    decreases |t|
  {
    hide Shape;
    if t != [] {
      ReleaseAllCounts(cfg, c, t[..|t| - 1]);
    }
  }

  lemma {:induction false} ExtendCounts(cfg: Config, c: Cache, id: nat, remaining: nat)
    requires Shape(cfg, c) && id in c.tables
    ensures var c' := Extend(cfg, c, id, remaining).cache; c'.hits == c.hits && c'.misses == c.misses
    decreases remaining
  {
    hide Shape, Allocate;
    AllocateCounts(cfg, c);
    if remaining > 0 {
      var added := if remaining < cfg.blockSize then remaining else cfg.blockSize;
      var g := Grow(cfg, c, id, added);
      if g.Return? {
        ExtendCounts(cfg, g.cache, id, remaining - added);
      }
    }
  }

  lemma {:induction false} ShareCounts(cfg: Config, c: Cache, t: seq<nat>)
    requires Shape(cfg, c) && InRange(t, cfg.totalBlocks)
    ensures var c' := Share(cfg, c, t); c'.hits == c.hits && c'.misses == c.misses
    decreases |t|
  {
    hide Shape;
    if t != [] {
      ShareCounts(cfg, c, t[..|t| - 1]);
    }
  }

  /** Nothing but a registration of a new id counts hits or misses. */
  lemma OthersCountNothing(cfg: Config, w: World, op: Op)
    requires Shape(cfg, w.cache) && (op.DoRegister? ==> op.id in w.cache.tables)
    ensures var c' := Step(cfg, w, op).cache; c'.hits == w.cache.hits && c'.misses == w.cache.misses
  {
    hide InRange, TreeShape, Extend, ReleaseAll, Share;
    match op
    case DoRegister(id, prompt) =>
    case DoAppend(id, n) =>
      if id in w.cache.tables && n > Room(cfg, w.cache, id) {
        var c1 := FillLast(cfg, w.cache, id, Room(cfg, w.cache, id));
        ExtendCounts(cfg, c1, id, n - Room(cfg, w.cache, id));
      }
    case DoUnregister(id) =>
      if id in w.cache.tables {
        ReleaseAllCounts(cfg, w.cache, w.cache.tables[id]);
      }
    case DoFork(parent, child) =>
      if parent in w.cache.tables {
        ShareCounts(cfg, w.cache, w.cache.tables[parent]);
      }
  }
}
