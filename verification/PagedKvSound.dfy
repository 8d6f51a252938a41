/** The pool invariant: one partition of the blocks and exact reference counts, kept by
    each primitive. */
module PagedKvSound {
  import opened Wrappers
  import opened Sums
  import opened PagedKv

  ghost function Counts(tables: map<nat, seq<nat>>, b: nat): map<nat, nat> {
    map id | id in tables :: multiset(tables[id])[b]
  }

  /** How often b occurs in all page tables together. */
  ghost function Occ(tables: map<nat, seq<nat>>, b: nat): nat {
    Total(Counts(tables, b))
  }

  /** A block is on the free stack, on the LRU list, or referenced. */
  ghost predicate Partition(c: Cache) {
    && NoDup(c.free) && NoDup(c.lru)
    && forall b :: 0 <= b < |c.blocks| ==>
         && (b in c.free <==> c.blocks[b].refCount == 0 && !c.blocks[b].cached)
         && (b in c.lru <==> c.blocks[b].cached)
         && (c.blocks[b].cached ==> c.blocks[b].refCount == 0)
  }

  ghost predicate HashRules(cfg: Config, c: Cache) {
    forall b :: 0 <= b < |c.blocks| ==>
      && (c.blocks[b].cached ==> cfg.caching && c.blocks[b].hash != 0)
      && (cfg.caching && b in c.free ==> c.blocks[b].hash == 0)
      && (cfg.caching && c.blocks[b].hash != 0 ==> c.blocks[b].filled == cfg.blockSize)
  }

  /** Each reference count is the number of table entries plus the references
      held outside of the page tables. */
  ghost predicate Accounted(c: Cache, held: multiset<nat>) {
    forall b :: 0 <= b < |c.blocks| ==> c.blocks[b].refCount == Occ(c.tables, b) + held[b]
  }

  ghost predicate Sound(cfg: Config, c: Cache, held: multiset<nat>) {
    Shape(cfg, c) && Partition(c) && HashRules(cfg, c) && Accounted(c, held)
  }

  // ----- Occurrences -----

  lemma OccInsert(tables: map<nat, seq<nat>>, id: nat, t: seq<nat>, b: nat)
    ensures id !in tables ==> Occ(tables[id := t], b) == Occ(tables, b) + multiset(t)[b]
    ensures id in tables ==> Occ(tables[id := t], b) + multiset(tables[id])[b] == Occ(tables, b) + multiset(t)[b]
  {
    TotalInsert(Counts(tables, b), id, multiset(t)[b]);
    assert Counts(tables, b)[id := multiset(t)[b]] == Counts(tables[id := t], b);
  }

  lemma OccRemove(tables: map<nat, seq<nat>>, id: nat, b: nat)
    requires id in tables
    ensures Occ(tables, b) == Occ(tables - {id}, b) + multiset(tables[id])[b]
  {
    TotalRemove(Counts(tables, b), id);
    assert Counts(tables, b) - {id} == Counts(tables - {id}, b);
  }

  lemma OccPositive(tables: map<nat, seq<nat>>, id: nat, b: nat)
    requires id in tables && b in tables[id]
    ensures Occ(tables, b) > 0
  {
    OccRemove(tables, id, b);
  }

  /** Storing a table moves its references from the holder to the tables; the
      references of a table it overwrites are left without an entry. */
  lemma PublishSound(cfg: Config, c: Cache, held: multiset<nat>, id: nat, t: seq<nat>)
    requires Sound(cfg, c, held + multiset(t)) && t != [] && InRange(t, cfg.totalBlocks)
    ensures Sound(cfg, Publish(cfg, c, id, t), held + if id in c.tables then multiset(c.tables[id]) else multiset{})
  {
    var c' := Publish(cfg, c, id, t);
    var left := if id in c.tables then multiset(c.tables[id]) else multiset{};
    forall b | 0 <= b < |c.blocks| ensures c'.blocks[b].refCount == Occ(c'.tables, b) + (held + left)[b]
    {
      OccInsert(c.tables, id, t, b);
    }
  }

  lemma EraseSound(cfg: Config, c: Cache, held: multiset<nat>, id: nat)
    requires Sound(cfg, c, held) && id in c.tables
    ensures Sound(cfg, c.(tables := c.tables - {id}), held + multiset(c.tables[id]))
  {
    var c' := c.(tables := c.tables - {id});
    forall b | 0 <= b < |c.blocks|
      ensures c'.blocks[b].refCount == Occ(c'.tables, b) + (held + multiset(c.tables[id]))[b]
    {
      OccRemove(c.tables, id, b);
    }
  }

  // ----- Primitives -----

  lemma {:induction false} InitSound(cfg: Config)
    ensures Sound(cfg, Init(cfg), multiset{})
  {
    var c := Init(cfg);
    forall b | 0 <= b < cfg.totalBlocks
      ensures b in c.free && Occ(c.tables, b) == 0
    {
      assert c.free[cfg.totalBlocks - 1 - b] == b;
      assert Counts(c.tables, b) == map[];
    }
  }

  lemma ClaimSound(cfg: Config, c: Cache, held: multiset<nat>, b: nat)
    requires Sound(cfg, c, held) && b < cfg.totalBlocks && b !in c.free
    ensures Sound(cfg, Claim(cfg, c, b), held + multiset{b})
  {
    if c.blocks[b].cached {
      WithoutNoDup(c.lru, b);
    }
  }

  /** Under the invariant the back of the LRU list is always the victim. */
  lemma VictimIsLast(cfg: Config, c: Cache, held: multiset<nat>)
    requires Sound(cfg, c, held)
    ensures Victim(cfg, c, |c.lru|) == if c.lru == [] then None else Some(|c.lru| - 1)
  {
    if c.lru != [] {
      assert c.lru[|c.lru| - 1] in c.lru;
    }
  }

  lemma EvictSound(cfg: Config, c: Cache, held: multiset<nat>)
    requires Sound(cfg, c, held) && c.lru != []
    ensures Sound(cfg, EvictAt(cfg, c, |c.lru| - 1), held)
  {
    var b := c.lru[|c.lru| - 1];
    assert b in c.lru;
    var c' := EvictAt(cfg, c, |c.lru| - 1);
    assert forall x :: x in c'.lru <==> x in c.lru && x != b;
    assert forall x :: x in c'.free <==> x in c.free || x == b;
  }

  lemma PopSound(cfg: Config, c: Cache, held: multiset<nat>)
    requires Sound(cfg, c, held) && c.free != []
    ensures Sound(cfg, Pop(cfg, c), held + multiset{c.free[|c.free| - 1]})
  {
    var b := c.free[|c.free| - 1];
    assert b in c.free;
    var c' := Pop(cfg, c);
    assert forall x :: x in c'.free <==> x in c.free && x != b;
  }

  /** Allocation yields an unreferenced block, evicting only when the free stack
      is empty, and throws exactly when every block is referenced. */
  lemma AllocateSound(cfg: Config, c: Cache, held: multiset<nat>)
    requires Sound(cfg, c, held)
    ensures var r := Allocate(cfg, c);
      && (r.Throw? <==> forall b :: 0 <= b < |c.blocks| ==> c.blocks[b].refCount > 0)
      && (r.Throw? ==> r.cache == c && r.error == OutOfPages)
      && (r.Return? ==> c.blocks[r.value].refCount == 0 && Sound(cfg, r.cache, held + multiset{r.value}))
      && (r.Return? ==> r.cache.blocks[r.value].refCount == 1)
      && (r.Return? && cfg.caching ==> r.cache.blocks[r.value].hash == 0)
      && (r.Return? ==> forall b :: 0 <= b < |c.blocks| && b != r.value ==> r.cache.blocks[b] == c.blocks[b])
      && (r.cache.evictions == c.evictions + if r.Return? && c.free == [] then 1 else 0)
  {
    hide Accounted, NoDup, TreeShape;
    if c.free != [] {
      PopSound(cfg, c, held);
      assert c.free[|c.free| - 1] in c.free;
    } else {
      VictimIsLast(cfg, c, held);
      if c.lru != [] {
        EvictSound(cfg, c, held);
        assert c.lru[|c.lru| - 1] in c.lru;
        PopSound(cfg, EvictAt(cfg, c, |c.lru| - 1), held);
      }
    }
  }

  lemma ReleaseSound(cfg: Config, c: Cache, held: multiset<nat>, b: nat)
    requires Sound(cfg, c, held) && held[b] > 0 && b < cfg.totalBlocks
    ensures Sound(cfg, Release(cfg, c, b), held - multiset{b})
  {
    hide InRange, TreeShape;
    var c' := Release(cfg, c, b);
    assert c.blocks[b].refCount > 0;
    assert forall x :: x in c'.lru <==> x in c.lru || (x == b && c'.blocks[b].cached);
    assert forall x :: x in c'.free ==> x in c.free || x == b;
    assert b !in c.lru;
  }

  lemma {:induction false} ReleaseAllSound(cfg: Config, c: Cache, held: multiset<nat>, t: seq<nat>)
    requires Sound(cfg, c, held + multiset(t)) && InRange(t, cfg.totalBlocks)
    ensures Sound(cfg, ReleaseAll(cfg, c, t), held)
    decreases |t|
  {
    if t == [] {
      assert held + multiset(t) == held;
    } else {
      var u, b := t[..|t| - 1], t[|t| - 1];
      assert t == u + [b];
      assert held + multiset(t) == (held + multiset{b}) + multiset(u);
      ReleaseAllSound(cfg, c, held + multiset{b}, u);
      ReleaseSound(cfg, ReleaseAll(cfg, c, u), held + multiset{b}, b);
      assert held + multiset{b} - multiset{b} == held;
    }
  }

  lemma SetFilledSound(cfg: Config, c: Cache, held: multiset<nat>, b: nat, n: nat)
    requires Sound(cfg, c, held) && b < cfg.totalBlocks && n <= cfg.blockSize
    requires cfg.caching && c.blocks[b].hash != 0 ==> n == cfg.blockSize
    ensures Sound(cfg, SetFilled(cfg, c, b, n), held)
  {
  }

  lemma RetainSound(cfg: Config, c: Cache, held: multiset<nat>, b: nat)
    requires Sound(cfg, c, held) && b < cfg.totalBlocks && c.blocks[b].refCount > 0
    ensures Sound(cfg, Retain(cfg, c, b), held + multiset{b})
  {
  }

  lemma {:induction false} ShareSound(cfg: Config, c: Cache, held: multiset<nat>, t: seq<nat>)
    requires Sound(cfg, c, held) && InRange(t, cfg.totalBlocks)
    requires forall i :: 0 <= i < |t| ==> c.blocks[t[i]].refCount > 0
    ensures Sound(cfg, Share(cfg, c, t), held + multiset(t))
    ensures forall b :: 0 <= b < |c.blocks| ==> Share(cfg, c, t).blocks[b].refCount >= c.blocks[b].refCount
  {
    if t == [] {
      assert held + multiset(t) == held;
    } else {
      var u, b := t[..|t| - 1], t[|t| - 1];
      assert t == u + [b];
      ShareSound(cfg, c, held, u);
      RetainSound(cfg, Share(cfg, c, u), held + multiset(u), b);
      assert held + multiset(t) == held + multiset(u) + multiset{b};
    }
  }
}
