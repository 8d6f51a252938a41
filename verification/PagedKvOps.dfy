/** Every public operation keeps the pool invariant. The references that an
    exception or an overwriting fork leaves behind are computed exactly, and a
    registration keeps the invariant exactly when no block it hits is free. */
module PagedKvOps {
  import opened PagedKv
  import opened PagedKvSound

  /** The blocks the lookup loop of a registration takes over. */
  function Hits(cfg: Config, c: Cache, prompt: seq<int>): (t: seq<nat>)
    requires Shape(cfg, c)
    ensures InRange(t, cfg.totalBlocks)
  {
    var chunks := Chunks(prompt, cfg.blockSize);
    HitBlocks(cfg, c.tree, chunks, Lookup(cfg, c.tree, chunks))
  }

  /** No block the lookup hits is on the free stack. */
  ghost predicate Walkable(cfg: Config, c: Cache, prompt: seq<int>)
    requires Shape(cfg, c)
  {
    forall b :: b in Hits(cfg, c, prompt) ==> b !in c.free
  }

  /** What a registration that throws has taken and never gives back. */
  function RegisterLeak(cfg: Config, c: Cache, id: nat, prompt: seq<int>): multiset<nat>
    requires Shape(cfg, c)
  {
    if id in c.tables || Prepared(cfg, c, prompt).ok then multiset{}
    else multiset(Prepared(cfg, c, prompt).table)
  }

  lemma {:induction false} ClaimAllSound(cfg: Config, c: Cache, held: multiset<nat>, t: seq<nat>)
    requires Sound(cfg, c, held) && InRange(t, cfg.totalBlocks)
    requires forall b :: b in t ==> b !in c.free
    ensures Sound(cfg, ClaimAll(cfg, c, t), held + multiset(t))
    decreases |t|
  {
    if t == [] {
      assert held + multiset(t) == held;
    } else {
      var u, b := t[..|t| - 1], t[|t| - 1];
      assert t == u + [b];
      ClaimAllSound(cfg, c, held, u);
      ClaimSound(cfg, ClaimAll(cfg, c, u), held + multiset(u), b);
      assert held + multiset(t) == held + multiset(u) + multiset{b};
    }
  }

  ghost predicate FillSound(cfg: Config, f: Filling, held: multiset<nat>) {
    FillShape(cfg, f) && Sound(cfg, f.cache, held + multiset(f.table))
  }

  lemma HashBlockSound(cfg: Config, c: Cache, held: multiset<nat>, b: nat, hv: nat)
    requires Sound(cfg, c, held) && b < cfg.totalBlocks && c.blocks[b].refCount > 0
    ensures Sound(cfg, HashBlock(cfg, c, b, hv), held)
  {
  }

  lemma GraftSound(cfg: Config, c: Cache, held: multiset<nat>, n: nat, hv: nat, b: nat)
    requires Sound(cfg, c, held) && b < cfg.totalBlocks && n < |c.tree|
    ensures Sound(cfg, Graft(cfg, c, n, hv, b), held)
  {
  }

  lemma InsertChunkSound(cfg: Config, f: Filling, held: multiset<nat>, hv: nat)
    requires FillSound(cfg, f, held)
    ensures FillSound(cfg, InsertChunk(cfg, f, hv), held)
  {
    if f.ok {
      AllocateSound(cfg, f.cache, held + multiset(f.table));
      var r := Allocate(cfg, f.cache);
      if r.Return? {
        var b := r.value;
        var all := held + multiset(f.table + [b]);
        assert all == held + multiset(f.table) + multiset{b};
        HashBlockSound(cfg, r.cache, all, b, hv);
        GraftSound(cfg, HashBlock(cfg, r.cache, b, hv), all, f.node, hv, b);
      }
    }
  }

  /** After an exception nothing more is placed. */
  lemma InsertStuck(cfg: Config, f: Filling, hv: nat)
    requires FillShape(cfg, f)
    ensures !f.ok ==> InsertChunk(cfg, f, hv) == f
  {
  }

  lemma {:induction false} FillToStuck(cfg: Config, q: seq<seq<int>>, f: Filling, lo: nat, j: nat, hi: nat)
    requires FillShape(cfg, f) && lo <= j <= hi <= |q| && !FillTo(cfg, q, f, lo, j).ok
    ensures FillTo(cfg, q, f, lo, hi) == FillTo(cfg, q, f, lo, j)
    decreases hi
  {
    hide Shape, FillShape, InsertChunk;
    if hi > j {
      FillToStuck(cfg, q, f, lo, j, hi - 1);
      InsertStuck(cfg, FillTo(cfg, q, f, lo, hi - 1), Chain(cfg, q, hi));
    }
  }

  lemma {:induction false} FillToSound(cfg: Config, chunks: seq<seq<int>>, f: Filling, held: multiset<nat>, lo: nat,
                                       hi: nat)
    requires FillSound(cfg, f, held) && lo <= hi <= |chunks|
    ensures FillSound(cfg, FillTo(cfg, chunks, f, lo, hi), held)
    decreases hi
  {
    if hi > lo {
      FillToSound(cfg, chunks, f, held, lo, hi - 1);
      InsertChunkSound(cfg, FillTo(cfg, chunks, f, lo, hi - 1), held, Chain(cfg, chunks, hi));
    }
  }

  lemma AddTailSound(cfg: Config, f: Filling, held: multiset<nat>, tail: nat)
    requires FillSound(cfg, f, held) && tail < cfg.blockSize
    ensures FillSound(cfg, AddTail(cfg, f, tail), held)
  {
    if f.ok && (tail != 0 || f.table == []) {
      AllocateSound(cfg, f.cache, held + multiset(f.table));
      var r := Allocate(cfg, f.cache);
      if r.Return? {
        assert held + multiset(f.table + [r.value]) == held + multiset(f.table) + multiset{r.value};
        SetFilledSound(cfg, r.cache, held + multiset(f.table + [r.value]), r.value, tail);
      }
    }
  }

  lemma AfterLookupSound(cfg: Config, c: Cache, held: multiset<nat>, prompt: seq<int>)
    requires Sound(cfg, c, held) && Walkable(cfg, c, prompt)
    ensures FillSound(cfg, AfterLookup(cfg, c, Chunks(prompt, cfg.blockSize)), held)
  {
    ClaimAllSound(cfg, c, held, Hits(cfg, c, prompt));
  }

  lemma PlacedSound(cfg: Config, c: Cache, held: multiset<nat>, prompt: seq<int>)
    requires Sound(cfg, c, held) && Walkable(cfg, c, prompt)
    ensures FillSound(cfg, Placed(cfg, c, prompt), held)
  {
    var q := Chunks(prompt, cfg.blockSize);
    AfterLookupSound(cfg, c, held, prompt);
    FillToSound(cfg, q, AfterLookup(cfg, c, q), held, Lookup(cfg, c.tree, q), |q|);
  }

  lemma PreparedSound(cfg: Config, c: Cache, held: multiset<nat>, prompt: seq<int>)
    requires Sound(cfg, c, held) && Walkable(cfg, c, prompt)
    ensures FillSound(cfg, Prepared(cfg, c, prompt), held)
  {
    PlacedSound(cfg, c, held, prompt);
    AddTailSound(cfg, Placed(cfg, c, prompt), held, TailLength(prompt, cfg.blockSize));
  }

  // ----- Registration breaks the invariant when a hit block is free -----

  /** Some block has fewer references than holders, or is free and held. */
  ghost predicate Broken(c: Cache, held: multiset<nat>) {
    exists b :: 0 <= b < |c.blocks| && BrokenAt(c, held, b)
  }

  ghost predicate BrokenAt(c: Cache, held: multiset<nat>, b: nat)
    requires b < |c.blocks|
  {
    || (b in c.free && Occ(c.tables, b) + held[b] > 0)
    || c.blocks[b].refCount < Occ(c.tables, b) + held[b]
  }

  lemma SoundIsNotBroken(cfg: Config, c: Cache, held: multiset<nat>)
    requires Sound(cfg, c, held)
    ensures !Broken(c, held)
  {
  }

  lemma AllocateKeepsBroken(cfg: Config, c: Cache, held: multiset<nat>)
    requires Shape(cfg, c) && Broken(c, held)
    ensures var r := Allocate(cfg, c);
      Broken(r.cache, if r.Return? then held + multiset{r.value} else held)
  {
    var b :| 0 <= b < |c.blocks| && BrokenAt(c, held, b);
    var r := Allocate(cfg, c);
    if r.Return? {
      if c.free != [] && b in c.free && b != r.value {
        var i :| 0 <= i < |c.free| && c.free[i] == b;
        assert r.cache.free[i] == b;
      }
      assert BrokenAt(r.cache, held + multiset{r.value}, b);
    }
  }

  lemma FillStepKeepsBroken(cfg: Config, f: Filling, held: multiset<nat>, hv: nat, tail: nat)
    requires FillShape(cfg, f) && Broken(f.cache, held + multiset(f.table)) && tail < cfg.blockSize
    ensures var g := InsertChunk(cfg, f, hv); Broken(g.cache, held + multiset(g.table))
    ensures var g := AddTail(cfg, f, tail); Broken(g.cache, held + multiset(g.table))
  {
    AllocateKeepsBroken(cfg, f.cache, held + multiset(f.table));
    var r := Allocate(cfg, f.cache);
    if r.Return? {
      assert held + multiset(f.table + [r.value]) == held + multiset(f.table) + multiset{r.value};
      var b :| 0 <= b < |r.cache.blocks| && BrokenAt(r.cache, held + multiset(f.table + [r.value]), b);
      if f.ok {
        assert BrokenAt(InsertChunk(cfg, f, hv).cache, held + multiset(f.table + [r.value]), b);
        assert tail != 0 || f.table == [] ==>
          BrokenAt(AddTail(cfg, f, tail).cache, held + multiset(f.table + [r.value]), b);
      }
    }
  }

  lemma {:induction false} FillToKeepsBroken(cfg: Config, chunks: seq<seq<int>>, f: Filling, held: multiset<nat>,
                                             lo: nat, hi: nat)
    requires FillShape(cfg, f) && Broken(f.cache, held + multiset(f.table)) && lo <= hi <= |chunks|
    ensures var g := FillTo(cfg, chunks, f, lo, hi); Broken(g.cache, held + multiset(g.table))
    decreases hi
  {
    if hi > lo {
      FillToKeepsBroken(cfg, chunks, f, held, lo, hi - 1);
      FillStepKeepsBroken(cfg, FillTo(cfg, chunks, f, lo, hi - 1), held, Chain(cfg, chunks, hi), 0);
    }
  }

  lemma PreparedBroken(cfg: Config, c: Cache, held: multiset<nat>, prompt: seq<int>)
    requires Shape(cfg, c) && !Walkable(cfg, c, prompt)
    ensures var g := Prepared(cfg, c, prompt); Broken(g.cache, held + multiset(g.table))
  {
    var chunks := Chunks(prompt, cfg.blockSize);
    var m := Lookup(cfg, c.tree, chunks);
    var f := AfterLookup(cfg, c, chunks);
    var b :| b in Hits(cfg, c, prompt) && b in c.free;
    assert BrokenAt(f.cache, held + multiset(f.table), b);
    FillToKeepsBroken(cfg, chunks, f, held, m, |chunks|);
    FillStepKeepsBroken(cfg, FillTo(cfg, chunks, f, m, |chunks|), held, 0, TailLength(prompt, cfg.blockSize));
  }

  lemma PublishKeepsBroken(cfg: Config, c: Cache, held: multiset<nat>, id: nat, t: seq<nat>)
    requires Shape(cfg, c) && t != [] && InRange(t, cfg.totalBlocks) && id !in c.tables
    requires Broken(c, held + multiset(t))
    ensures Broken(Publish(cfg, c, id, t), held)
  {
    var b :| 0 <= b < |c.blocks| && BrokenAt(c, held + multiset(t), b);
    OccInsert(c.tables, id, t, b);
    assert BrokenAt(Publish(cfg, c, id, t), held, b);
  }

  /** A registration keeps the invariant, with exactly the leaked references as
      additional holders, if and only if it hits no free block. */
  lemma RegisterSoundIff(cfg: Config, c: Cache, held: multiset<nat>, id: nat, prompt: seq<int>)
    requires Sound(cfg, c, held) && id !in c.tables
    ensures Sound(cfg, Register(cfg, c, id, prompt).cache, held + RegisterLeak(cfg, c, id, prompt))
      <==> Walkable(cfg, c, prompt)
  {
    var g := Prepared(cfg, c, prompt);
    if Walkable(cfg, c, prompt) {
      PreparedSound(cfg, c, held, prompt);
      if g.ok {
        PublishSound(cfg, g.cache, held, id, g.table);
        assert held + multiset{} == held;
      }
    } else {
      PreparedBroken(cfg, c, held, prompt);
      if g.ok {
        PublishKeepsBroken(cfg, g.cache, held, id, g.table);
        assert held + multiset{} == held;
      }
      var r := Register(cfg, c, id, prompt).cache;
      var leak := RegisterLeak(cfg, c, id, prompt);
      if Sound(cfg, r, held + leak) {
        SoundIsNotBroken(cfg, r, held + leak);
      }
    }
  }

  // ----- Append, unregister, fork -----

  lemma GrowSound(cfg: Config, c: Cache, held: multiset<nat>, id: nat, added: nat)
    requires Sound(cfg, c, held) && id in c.tables && added <= cfg.blockSize
    ensures Sound(cfg, Grow(cfg, c, id, added).cache, held)
  {
    hide Shape, Partition, HashRules, Accounted;
    AllocateSound(cfg, c, held);
    var r := Allocate(cfg, c);
    if r.Return? {
      SetFilledSound(cfg, r.cache, held + multiset{r.value}, r.value, added);
      PushBlockSound(cfg, SetFilled(cfg, r.cache, r.value, added), held, id, r.value);
    }
  }

  lemma {:induction false} ExtendSound(cfg: Config, c: Cache, held: multiset<nat>, id: nat, remaining: nat)
    requires Sound(cfg, c, held) && id in c.tables
    ensures Sound(cfg, Extend(cfg, c, id, remaining).cache, held)
    decreases remaining
  {
    hide Shape, Partition, HashRules, Accounted;
    if remaining > 0 {
      var added := if remaining < cfg.blockSize then remaining else cfg.blockSize;
      GrowSound(cfg, c, held, id, added);
      var r := Grow(cfg, c, id, added);
      if r.Return? {
        ExtendSound(cfg, r.cache, held, id, remaining - added);
      }
    }
  }

  lemma PushBlockSound(cfg: Config, c: Cache, held: multiset<nat>, id: nat, b: nat)
    requires Sound(cfg, c, held + multiset{b}) && id in c.tables && b < cfg.totalBlocks
    ensures Sound(cfg, PushBlock(cfg, c, id, b), held)
  {
    var t := c.tables[id] + [b];
    var c' := PushBlock(cfg, c, id, b);
    assert multiset(t) == multiset(c.tables[id]) + multiset{b};
    forall x | 0 <= x < |c.blocks|
      ensures c'.blocks[x].refCount == Occ(c'.tables, x) + held[x]
    {
      OccInsert(c.tables, id, t, x);
    }
  }

  /** A hashed block in use is full, so filling it up leaves it alone. */
  lemma FillLastSound(cfg: Config, c: Cache, held: multiset<nat>, id: nat, n: nat)
    requires Sound(cfg, c, held) && id in c.tables && n <= Room(cfg, c, id)
    ensures Sound(cfg, FillLast(cfg, c, id, n), held)
  {
    SetFilledSound(cfg, c, held, Last(c.tables[id]), c.blocks[Last(c.tables[id])].filled + n);
  }

  /** Whether an append throws or not, no reference is lost. */
  lemma AppendSound(cfg: Config, c: Cache, held: multiset<nat>, id: nat, n: nat)
    requires Sound(cfg, c, held)
    ensures Sound(cfg, Append(cfg, c, id, n).cache, held)
  {
    hide Partition, HashRules, Accounted, InRange, TreeShape;
    if id in c.tables {
      if n <= Room(cfg, c, id) {
        FillLastSound(cfg, c, held, id, n);
      } else {
        FillLastSound(cfg, c, held, id, Room(cfg, c, id));
        ExtendSound(cfg, FillLast(cfg, c, id, Room(cfg, c, id)), held, id, n - Room(cfg, c, id));
      }
    }
  }

  lemma {:induction false} ReleaseAllIgnoresTables(cfg: Config, c: Cache, tables: map<nat, seq<nat>>, t: seq<nat>)
    requires Shape(cfg, c) && Shape(cfg, c.(tables := tables))
    ensures ReleaseAll(cfg, c.(tables := tables), t) == ReleaseAll(cfg, c, t).(tables := tables)
    decreases |t|
  {
    if t != [] {
      ReleaseAllIgnoresTables(cfg, c, tables, t[..|t| - 1]);
    }
  }

  lemma UnregisterSound(cfg: Config, c: Cache, held: multiset<nat>, id: nat)
    requires Sound(cfg, c, held)
    ensures Sound(cfg, Unregister(cfg, c, id), held)
  {
    if id in c.tables {
      var rest := c.tables - {id};
      EraseSound(cfg, c, held, id);
      ReleaseAllSound(cfg, c.(tables := rest), held, c.tables[id]);
      ReleaseAllIgnoresTables(cfg, c, rest, c.tables[id]);
    }
  }

  /** What a fork onto an existing sequence takes and never gives back. */
  function ForkLeak(c: Cache, parent: nat, child: nat): multiset<nat> {
    if parent in c.tables && child in c.tables then multiset(c.tables[child]) else multiset{}
  }

  lemma ForkSound(cfg: Config, c: Cache, held: multiset<nat>, parent: nat, child: nat)
    requires Sound(cfg, c, held)
    ensures Sound(cfg, Fork(cfg, c, parent, child).cache, held + ForkLeak(c, parent, child))
  {
    if parent in c.tables {
      var t := c.tables[parent];
      forall i | 0 <= i < |t| ensures c.blocks[t[i]].refCount > 0 {
        OccPositive(c.tables, parent, t[i]);
      }
      ShareSound(cfg, c, held, t);
      PublishSound(cfg, Share(cfg, c, t), held, child, t);
    } else {
      assert held + multiset{} == held;
    }
  }
}
