/** How many blocks an operation needs against how many are to be had: exactly when
    registering and appending run out of pages, and exactly what that leaks. */
module PagedKvSpare {
  import opened Sums
  import opened PagedKv
  import opened PagedKvChunks
  import opened PagedKvSound
  import opened PagedKvOps

  /** The blocks an allocation can hand out: free ones and cached ones. */
  function Spare(c: Cache): nat {
    |c.free| + |c.lru|
  }

  /** The cached blocks that the lookup of a prompt takes off the LRU list. */
  function CachedHits(cfg: Config, c: Cache, prompt: seq<int>): set<nat>
    requires Shape(cfg, c)
  {
    set b | b in Hits(cfg, c, prompt) && b in c.lru
  }

  /** What is to be had once the lookup has claimed its hits. */
  function Available(cfg: Config, c: Cache, prompt: seq<int>): int
    requires Shape(cfg, c)
  {
    Spare(c) - |CachedHits(cfg, c, prompt)|
  }

  /** The unmatched full blocks, and one for a tail or for an empty table. */
  function Needed(cfg: Config, c: Cache, prompt: seq<int>): nat
    requires Shape(cfg, c)
  {
    var q := Chunks(prompt, cfg.blockSize);
    |q| - Lookup(cfg, c.tree, q) + if TailLength(prompt, cfg.blockSize) > 0 || q == [] then 1 else 0
  }

  function Least(a: nat, b: nat): nat {
    if a < b then a else b
  }

  // ----- One allocation -----

  lemma AllocateSpare(cfg: Config, c: Cache, held: multiset<nat>)
    requires Sound(cfg, c, held)
    ensures var r := Allocate(cfg, c);
      && (r.Return? <==> Spare(c) > 0)
      && (r.Return? ==> Spare(r.cache) == Spare(c) - 1)
      && (r.Throw? ==> r.cache == c)
  {
    VictimIsLast(cfg, c, held);
    hide Accounted, HashRules;
  }

  // ----- Claiming the hits -----

  lemma {:induction false} ClaimAllLru(cfg: Config, c: Cache, held: multiset<nat>, t: seq<nat>)
    requires Sound(cfg, c, held) && InRange(t, cfg.totalBlocks) && forall b :: b in t ==> b !in c.free
    ensures var c' := ClaimAll(cfg, c, t); forall x :: x in c'.lru <==> x in c.lru && x !in t
    decreases |t|
  {
    hide Accounted, HashRules, TreeShape;
    if t != [] {
      var u, b := t[..|t| - 1], t[|t| - 1];
      assert t == u + [b];
      ClaimAllLru(cfg, c, held, u);
      ClaimAllSound(cfg, c, held, u);
      ClaimLru(cfg, ClaimAll(cfg, c, u), held + multiset(u), b);
    }
  }

  lemma ClaimLru(cfg: Config, c: Cache, held: multiset<nat>, b: nat)
    requires Sound(cfg, c, held) && b < cfg.totalBlocks
    ensures forall x :: x in Claim(cfg, c, b).lru <==> x in c.lru && x != b
  {
    WithoutNoDup(c.lru, b);
  }

  /** The spare blocks after the lookup loop are the available ones. */
  lemma LookupSpare(cfg: Config, c: Cache, held: multiset<nat>, prompt: seq<int>)
    requires Sound(cfg, c, held) && Walkable(cfg, c, prompt)
    ensures var f := AfterLookup(cfg, c, Chunks(prompt, cfg.blockSize));
      Spare(f.cache) == Available(cfg, c, prompt) >= 0
  {
    hide Sound, FillSound, Walkable, Shape, Lookup, HitBlocks, Chunks;
    ShapeOf(cfg, c, held);
    var t, h := Hits(cfg, c, prompt), CachedHits(cfg, c, prompt);
    var f := AfterLookup(cfg, c, Chunks(prompt, cfg.blockSize));
    ClaimHitsLru(cfg, c, held, prompt);
    AfterLookupSound(cfg, c, held, prompt);
    SoundAfter(cfg, c, held, prompt);
    LruSize(cfg, c, held);
    LruSize(cfg, f.cache, held + multiset(f.table));
    assert Elements(f.cache.lru) == Elements(c.lru) - h && h <= Elements(c.lru);
  }

  lemma ClaimHitsLru(cfg: Config, c: Cache, held: multiset<nat>, prompt: seq<int>)
    requires Sound(cfg, c, held) && Walkable(cfg, c, prompt)
    ensures var t, f := Hits(cfg, c, prompt), AfterLookup(cfg, c, Chunks(prompt, cfg.blockSize));
      f.cache.free == c.free && forall x :: x in f.cache.lru <==> x in c.lru && x !in t
  {
    ClaimAllLru(cfg, c, held, Hits(cfg, c, prompt));
  }

  lemma SoundAfter(cfg: Config, c: Cache, held: multiset<nat>, prompt: seq<int>)
    requires Shape(cfg, c) && FillSound(cfg, AfterLookup(cfg, c, Chunks(prompt, cfg.blockSize)), held)
    ensures var f := AfterLookup(cfg, c, Chunks(prompt, cfg.blockSize));
      Sound(cfg, f.cache, held + multiset(f.table))
  {
  }

  lemma LruSize(cfg: Config, c: Cache, held: multiset<nat>)
    requires Sound(cfg, c, held)
    ensures |Elements(c.lru)| == |c.lru|
  {
    ElementsSize(c.lru);
  }

  // ----- Placing blocks -----

  lemma InsertSpare(cfg: Config, f: Filling, held: multiset<nat>, hv: nat)
    requires FillSound(cfg, f, held) && f.ok
    ensures var g := InsertChunk(cfg, f, hv);
      && (g.ok <==> Spare(f.cache) > 0)
      && (g.ok ==> |g.table| == |f.table| + 1 && Spare(g.cache) == Spare(f.cache) - 1)
      && (!g.ok ==> |g.table| == |f.table|)
  {
    AllocateSpare(cfg, f.cache, held + multiset(f.table));
    hide Sound, TreeShape, InRange;
  }

  lemma {:induction false} FillToSpare(cfg: Config, q: seq<seq<int>>, f: Filling, held: multiset<nat>, lo: nat, hi: nat)
    requires FillSound(cfg, f, held) && f.ok && lo <= hi <= |q|
    ensures var g := FillTo(cfg, q, f, lo, hi);
      && (g.ok <==> hi - lo <= Spare(f.cache))
      && |g.table| == |f.table| + Least(hi - lo, Spare(f.cache))
      && (g.ok ==> Spare(g.cache) == Spare(f.cache) - (hi - lo))
    decreases hi
  {
    hide FillSound, Shape, InsertChunk, Chain;
    FillShapeOf(cfg, f, held);
    if hi > lo {
      var g := FillTo(cfg, q, f, lo, hi - 1);
      FillToSpare(cfg, q, f, held, lo, hi - 1);
      FillToSound(cfg, q, f, held, lo, hi - 1);
      FillShapeOf(cfg, g, held);
      if g.ok {
        InsertSpare(cfg, g, held, Chain(cfg, q, hi));
      } else {
        InsertStuck(cfg, g, Chain(cfg, q, hi));
      }
    }
  }

  lemma FillShapeOf(cfg: Config, f: Filling, held: multiset<nat>)
    requires FillSound(cfg, f, held)
    ensures FillShape(cfg, f)
  {
  }

  lemma AddTailSpare(cfg: Config, f: Filling, held: multiset<nat>, tail: nat)
    requires FillSound(cfg, f, held) && tail < cfg.blockSize
    ensures var g := AddTail(cfg, f, tail); var wants := tail > 0 || f.table == [];
      && (g.ok <==> f.ok && (wants ==> Spare(f.cache) > 0))
      && (!g.ok ==> g.table == f.table)
  {
    AllocateSpare(cfg, f.cache, held + multiset(f.table));
    hide Sound, TreeShape, InRange;
  }

  // ----- Registering -----

  lemma PreparedSpare(cfg: Config, c: Cache, held: multiset<nat>, prompt: seq<int>)
    requires Sound(cfg, c, held) && Walkable(cfg, c, prompt)
    ensures Available(cfg, c, prompt) >= 0
    ensures var g := Prepared(cfg, c, prompt);
      && (g.ok <==> Needed(cfg, c, prompt) <= Available(cfg, c, prompt))
      && (!g.ok ==>
            |g.table| == Lookup(cfg, c.tree, Chunks(prompt, cfg.blockSize)) + Available(cfg, c, prompt))
  {
    hide Sound, FillSound, Walkable, Shape, FillTo, AddTail, TailLength, Chunks, CachedHits;
    var q := Chunks(prompt, cfg.blockSize);
    ShapeOf(cfg, c, held);
    LookupSpare(cfg, c, held, prompt);
    AfterLookupSound(cfg, c, held, prompt);
    PlacedSound(cfg, c, held, prompt);
    FillToSpare(cfg, q, AfterLookup(cfg, c, q), held, Lookup(cfg, c.tree, q), |q|);
    AddTailSpare(cfg, Placed(cfg, c, prompt), held, TailLength(prompt, cfg.blockSize));
  }

  lemma ShapeOf(cfg: Config, c: Cache, held: multiset<nat>)
    requires Sound(cfg, c, held)
    ensures Shape(cfg, c)
  {
  }

  /** A registration throws if and only if it needs more blocks than are available. */
  predicate RunsOut(cfg: Config, c: Cache, prompt: seq<int>)
    requires Shape(cfg, c)
  {
    Needed(cfg, c, prompt) > Available(cfg, c, prompt)
  }

  /** It throws exactly then, and leaks the hits and everything it could still get. */
  lemma RegisterThrowsIff(cfg: Config, c: Cache, held: multiset<nat>, id: nat, prompt: seq<int>)
    requires Sound(cfg, c, held) && Walkable(cfg, c, prompt) && id !in c.tables
    ensures Register(cfg, c, id, prompt).Throw? <==> RunsOut(cfg, c, prompt)
    ensures |RegisterLeak(cfg, c, id, prompt)| ==
      if RunsOut(cfg, c, prompt)
      then Lookup(cfg, c.tree, Chunks(prompt, cfg.blockSize)) + Available(cfg, c, prompt) else 0
  {
    hide Sound, Walkable, Shape, Prepared, Needed, Available, Chunks, Lookup;
    ShapeOf(cfg, c, held);
    PreparedSpare(cfg, c, held, prompt);
  }

  // ----- Appending -----

  /** The blocks an append has to add. */
  function AppendNeeds(cfg: Config, c: Cache, id: nat, n: nat): nat
    requires Shape(cfg, c) && id in c.tables
  {
    if n <= Room(cfg, c, id) then 0 else BlocksFor(n - Room(cfg, c, id), cfg.blockSize)
  }

  lemma GrowSpare(cfg: Config, c: Cache, held: multiset<nat>, id: nat, added: nat)
    requires Sound(cfg, c, held) && id in c.tables && added <= cfg.blockSize
    ensures var r := Grow(cfg, c, id, added);
      && (r.Return? <==> Spare(c) > 0)
      && (r.Return? ==> Spare(r.cache) == Spare(c) - 1)
  {
    AllocateSpare(cfg, c, held);
    hide Sound, TreeShape, InRange;
  }

  lemma {:induction false} ExtendSpare(cfg: Config, c: Cache, held: multiset<nat>, id: nat, remaining: nat)
    requires Sound(cfg, c, held) && id in c.tables
    ensures Extend(cfg, c, id, remaining).Throw? <==> BlocksFor(remaining, cfg.blockSize) > Spare(c)
    ensures var r := Extend(cfg, c, id, remaining);
      r.Return? ==> Spare(r.cache) == Spare(c) - BlocksFor(remaining, cfg.blockSize)
    decreases remaining
  {
    hide Shape, Partition, HashRules, Accounted, Grow, BlocksFor, Spare;
    BlocksForStep(remaining, cfg.blockSize);
    SpareNat(c);
    if remaining > 0 {
      var added := if remaining < cfg.blockSize then remaining else cfg.blockSize;
      BlocksForStep(remaining - added, cfg.blockSize);
      GrowSpare(cfg, c, held, id, added);
      GrowSound(cfg, c, held, id, added);
      var g := Grow(cfg, c, id, added);
      if g.Return? {
        ExtendSpare(cfg, g.cache, held, id, remaining - added);
      }
    }
  }

  lemma SpareNat(c: Cache)
    ensures Spare(c) >= 0
  {
  }

  /** An append throws if and only if it needs more blocks than there are spare; if it
      returns it has used exactly those. */
  lemma AppendThrowsIff(cfg: Config, c: Cache, held: multiset<nat>, id: nat, n: nat)
    requires Sound(cfg, c, held) && id in c.tables
    ensures var r := Append(cfg, c, id, n);
      && (r.Throw? <==> AppendNeeds(cfg, c, id, n) > Spare(c))
      && (r.Return? ==> Spare(r.cache) == Spare(c) - AppendNeeds(cfg, c, id, n))
  {
    hide Shape, Partition, HashRules, Accounted, BlocksFor;
    var k := if n <= Room(cfg, c, id) then n else Room(cfg, c, id);
    FillLastSound(cfg, c, held, id, k);
    FillLastSpare(cfg, c, id, k);
    ExtendSpare(cfg, FillLast(cfg, c, id, k), held, id, n - k);
    BlocksForStep(n - k, cfg.blockSize);
  }

  lemma FillLastSpare(cfg: Config, c: Cache, id: nat, n: nat)
    requires Shape(cfg, c) && id in c.tables && n <= Room(cfg, c, id)
    ensures Spare(FillLast(cfg, c, id, n)) == Spare(c)
  {
  }
}
