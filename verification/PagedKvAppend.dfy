/** Appending to and releasing one sequence leaves all other sequences in order,
    and two sequences share a block only where their prompts agree. */
module PagedKvAppend {
  import opened PagedKv
  import opened PagedKvSound
  import opened PagedKvOps
  import opened PagedKvPrefix
  import opened PagedKvContent
  import opened PagedKvOwnership

  // ----- Append -----

  /** A block with one reference occurs once: at this place of this table. */
  lemma UniqueOwner(cfg: Config, c: Cache, held: multiset<nat>, id: nat)
    requires Sound(cfg, c, held) && id in c.tables && c.blocks[Last(c.tables[id])].refCount <= 1
    ensures var t := c.tables[id];
      && Last(t) !in t[..|t| - 1]
      && forall k :: k in c.tables && k != id ==> Last(t) !in c.tables[k]
  {
    var t := c.tables[id];
    var b := Last(t);
    assert t == t[..|t| - 1] + [b];
    OccRemove(c.tables, id, b);
    forall k | k in c.tables && k != id ensures b !in c.tables[k] {
      if b in c.tables[k] {
        OccPositive(c.tables - {id}, k, b);
      }
    }
  }

  lemma FillLastFills(cfg: Config, c: Cache, id: nat, n: nat)
    requires Shape(cfg, c) && id in c.tables && n <= Room(cfg, c, id)
    requires Last(c.tables[id]) !in c.tables[id][..|c.tables[id]| - 1]
    ensures Fills(FillLast(cfg, c, id, n), c.tables[id]) == Fills(c, c.tables[id]) + n
  {
    var t := c.tables[id];
    FillsFrame(c, FillLast(cfg, c, id, n), t[..|t| - 1]);
  }

  /** The last block of a sequence is nowhere else in the page tables. */
  ghost predicate Unshared(tables: map<nat, seq<nat>>, id: nat)
    requires id in tables && tables[id] != []
  {
    && Last(tables[id]) !in tables[id][..|tables[id]| - 1]
    && forall k :: k in tables && k != id ==> Last(tables[id]) !in tables[k]
  }

  /** An append writes into the last block only if that block is not shared. */
  ghost predicate Appendable(cfg: Config, c: Cache, id: nat, n: nat)
    requires Shape(cfg, c)
  {
    id in c.tables && n > 0 && Room(cfg, c, id) > 0 ==> Unshared(c.tables, id)
  }

  lemma SoloAppendable(cfg: Config, c: Cache, held: multiset<nat>, id: nat, n: nat)
    requires Sound(cfg, c, held) && Solo(cfg, c)
    ensures Appendable(cfg, c, id, n)
  {
    if id in c.tables && n > 0 && Room(cfg, c, id) > 0 {
      RoomIsSolo(cfg, c, held, id);
      UniqueOwner(cfg, c, held, id);
    }
  }

  /** Only a block without a hash has room, and such a block is not shared. */
  lemma RoomIsSolo(cfg: Config, c: Cache, held: multiset<nat>, id: nat)
    requires Sound(cfg, c, held) && Solo(cfg, c) && id in c.tables && Room(cfg, c, id) > 0
    ensures c.blocks[Last(c.tables[id])].refCount <= 1
  {
  }

  lemma OwnedLength(cfg: Config, c: Cache, id: nat, prompts: map<nat, seq<int>>, lens: map<nat, nat>)
    requires Shape(cfg, c) && Owned(cfg, c, prompts, lens) && id in c.tables
    ensures id in lens && id in prompts && LengthIn(cfg, c, id) == lens[id]
    ensures SeqOk(cfg, c, c.tables[id], prompts[id], lens[id])
    ensures prompts[id := prompts[id]] == prompts && lens[id := lens[id]] == lens
  {
  }

  lemma FillLastSeq(cfg: Config, c: Cache, id: nat, n: nat, prompt: seq<int>, len: nat)
    requires Shape(cfg, c) && id in c.tables && n <= Room(cfg, c, id) && SeqOk(cfg, c, c.tables[id], prompt, len)
    requires Last(c.tables[id]) !in c.tables[id][..|c.tables[id]| - 1]
    ensures SeqOk(cfg, FillLast(cfg, c, id, n), c.tables[id], prompt, len + n)
  {
    FillLastFills(cfg, c, id, n);
  }

  lemma FillLastChanges(cfg: Config, c: Cache, id: nat, n: nat)
    requires Shape(cfg, c) && id in c.tables && n <= Room(cfg, c, id)
    ensures var c' := FillLast(cfg, c, id, n);
      && (n == 0 ==> c' == c)
      && c'.tables == c.tables[id := c.tables[id]]
      && (Solo(cfg, c) ==> Solo(cfg, c'))
      && (forall k :: k in c.tables && Last(c.tables[id]) !in c.tables[k] ==> Untouched(c, c', c.tables[k]))
  {
    var c' := FillLast(cfg, c, id, n);
    if n == 0 {
      assert c'.blocks == c.blocks;
    }
  }

  lemma FillLastOwned(cfg: Config, c: Cache, held: multiset<nat>, id: nat, n: nat,
                      prompts: map<nat, seq<int>>, lens: map<nat, nat>)
    requires Sound(cfg, c, held) && Owned(cfg, c, prompts, lens) && id in c.tables && n <= Room(cfg, c, id)
    requires Appendable(cfg, c, id, n)
    ensures id in lens && Owned(cfg, FillLast(cfg, c, id, n), prompts, lens[id := lens[id] + n])
  {
    hide Shape, Partition, HashRules, Accounted, SeqOk, Solo, Untouched, FillLast;
    var c' := FillLast(cfg, c, id, n);
    OwnedLength(cfg, c, id, prompts, lens);
    FillLastChanges(cfg, c, id, n);
    if n > 0 {
      FillLastSeq(cfg, c, id, n, prompts[id], lens[id]);
      OwnedUpdate(cfg, c, c', id, prompts[id], lens[id] + n, prompts, lens);
    }
  }

  lemma GrowSeq(cfg: Config, c: Cache, c': Cache, t: seq<nat>, b: nat, prompt: seq<int>, len: nat, added: nat)
    requires SeqOk(cfg, c, t, prompt, len) && FullUpTo(cfg, c, t, |t|) && Untouched(c, c', t) && b < |c'.blocks|
    requires c'.blocks[b].filled == added > 0 && (cfg.caching ==> c'.blocks[b].hash == 0)
    ensures SeqOk(cfg, c', t + [b], prompt, len + added)
    ensures added == cfg.blockSize ==> FullUpTo(cfg, c', t + [b], |t| + 1)
  {
    FillsFrame(c, c', t);
    FillsPush(c', t, b);
  }

  /** A new block, allocated and filled, is the only one touched. */
  lemma GrowKeeps(cfg: Config, c: Cache, held: multiset<nat>, id: nat, added: nat)
    requires Sound(cfg, c, held) && id in c.tables && added <= cfg.blockSize
    ensures var r := Grow(cfg, c, id, added);
      && InUseKept(c, r.cache)
      && (Solo(cfg, c) ==> Solo(cfg, r.cache))
      && (r.Throw? ==> r.cache == c)
      && (r.Return? ==> r.value < |r.cache.blocks|)
      && (r.Return? ==>
            && r.cache.tables == c.tables[id := c.tables[id] + [r.value]]
            && r.cache.blocks[r.value].filled == added
            && (cfg.caching ==> r.cache.blocks[r.value].hash == 0))
  {
    AllocateSound(cfg, c, held);
    hide Sound, TreeShape, InRange;
  }

  lemma GrowOwned(cfg: Config, c: Cache, held: multiset<nat>, id: nat, added: nat,
                  prompts: map<nat, seq<int>>, lens: map<nat, nat>)
    requires Sound(cfg, c, held) && Owned(cfg, c, prompts, lens) && id in c.tables && 0 < added <= cfg.blockSize
    requires FullUpTo(cfg, c, c.tables[id], |c.tables[id]|) && Grow(cfg, c, id, added).Return?
    ensures var c' := Grow(cfg, c, id, added).cache;
      && id in lens && Owned(cfg, c', prompts, lens[id := lens[id] + added])
      && (added == cfg.blockSize ==> FullUpTo(cfg, c', c'.tables[id], |c'.tables[id]|))
  {
    hide Shape, Partition, HashRules, Accounted, SeqOk, Solo, InUseKept, Untouched, Grow, FullUpTo;
    var r := Grow(cfg, c, id, added);
    var c' := r.cache;
    GrowKeeps(cfg, c, held, id, added);
    OwnedLength(cfg, c, id, prompts, lens);
    forall k | k in c.tables ensures Untouched(c, c', c.tables[k]) {
      KeptUntouched(cfg, c, held, c', k);
    }
    GrowSeq(cfg, c, c', c.tables[id], r.value, prompts[id], lens[id], added);
    OwnedUpdate(cfg, c, c', id, prompts[id], lens[id] + added, prompts, lens);
  }

  /** The length of a sequence after an append that may have thrown half way. */
  ghost function LengthIn(cfg: Config, c: Cache, id: nat): nat
    requires Shape(cfg, c) && id in c.tables
  {
    Fills(c, c.tables[id])
  }

  lemma OverwriteTwice(m: map<nat, nat>, k: nat, u: nat, v: nat)
    ensures m[k := u][k := v] == m[k := v]
  {
  }

  lemma {:induction false} ExtendOwned(cfg: Config, c: Cache, held: multiset<nat>, id: nat, remaining: nat,
                                       prompts: map<nat, seq<int>>, lens: map<nat, nat>)
    requires Sound(cfg, c, held) && Owned(cfg, c, prompts, lens) && id in c.tables
    requires FullUpTo(cfg, c, c.tables[id], |c.tables[id]|)
    ensures var r := Extend(cfg, c, id, remaining);
      && id in r.cache.tables && id in lens
      && Owned(cfg, r.cache, prompts, lens[id := LengthIn(cfg, r.cache, id)])
      && (r.Return? ==> LengthIn(cfg, r.cache, id) == lens[id] + remaining)
    decreases remaining, 0
  {
    hide Shape, Partition, HashRules, Accounted, SeqOk, Solo, InUseKept, FullUpTo, LengthIn, Grow;
    OwnedLength(cfg, c, id, prompts, lens);
    var added := if remaining < cfg.blockSize then remaining else cfg.blockSize;
    GrowSound(cfg, c, held, id, added);
    GrowKeeps(cfg, c, held, id, added);
    var g := Grow(cfg, c, id, added);
    if remaining > 0 && g.Return? {
      GrowOwned(cfg, c, held, id, added, prompts, lens);
      var lens1 := lens[id := lens[id] + added];
      ExtendGrown(cfg, g.cache, held, id, remaining - added, added == cfg.blockSize, prompts, lens1);
      OverwriteTwice(lens, id, lens[id] + added, LengthIn(cfg, Extend(cfg, c, id, remaining).cache, id));
    }
  }

  /** After one more block either nothing remains or all blocks are full. */
  lemma ExtendGrown(cfg: Config, c: Cache, held: multiset<nat>, id: nat, remaining: nat, full: bool,
                    prompts: map<nat, seq<int>>, lens: map<nat, nat>)
    requires Sound(cfg, c, held) && Owned(cfg, c, prompts, lens) && id in c.tables
    requires (remaining == 0 || full) && (full ==> FullUpTo(cfg, c, c.tables[id], |c.tables[id]|))
    ensures var r := Extend(cfg, c, id, remaining);
      && id in r.cache.tables && id in lens
      && Owned(cfg, r.cache, prompts, lens[id := LengthIn(cfg, r.cache, id)])
      && (r.Return? ==> LengthIn(cfg, r.cache, id) == lens[id] + remaining)
    decreases remaining, 1
  {
    hide Shape, Partition, HashRules, Accounted, SeqOk, Solo, FullUpTo, LengthIn;
    OwnedLength(cfg, c, id, prompts, lens);
    if full {
      ExtendOwned(cfg, c, held, id, remaining, prompts, lens);
    }
  }

  /** An append lengthens its own sequence and leaves the others in order. */
  lemma AppendOwned(cfg: Config, c: Cache, held: multiset<nat>, id: nat, n: nat,
                    prompts: map<nat, seq<int>>, lens: map<nat, nat>)
    requires Sound(cfg, c, held) && Owned(cfg, c, prompts, lens) && id in c.tables && Appendable(cfg, c, id, n)
    ensures var r := Append(cfg, c, id, n);
      && id in r.cache.tables && id in lens
      && Owned(cfg, r.cache, prompts, lens[id := LengthIn(cfg, r.cache, id)])
      && (r.Return? ==> LengthIn(cfg, r.cache, id) == lens[id] + n)
  {
    hide Shape, Partition, HashRules, Accounted, SeqOk, Solo, FullUpTo, LengthIn, FillLast, Room, Appendable;
    var k := if n <= Room(cfg, c, id) then n else Room(cfg, c, id);
    var c1 := FillLast(cfg, c, id, k);
    RoomLeft(cfg, c, id, k);
    AppendableLess(cfg, c, id, n, k);
    FillLastOwned(cfg, c, held, id, k, prompts, lens);
    FillLastSound(cfg, c, held, id, k);
    var lens1 := lens[id := lens[id] + k];
    if n > k {
      LastFull(cfg, c1, id, prompts, lens1);
    }
    ExtendGrown(cfg, c1, held, id, n - k, n > k, prompts, lens1);
    OverwriteTwice(lens, id, lens[id] + k, LengthIn(cfg, Append(cfg, c, id, n).cache, id));
  }

  lemma AppendableLess(cfg: Config, c: Cache, id: nat, n: nat, k: nat)
    requires Shape(cfg, c) && Appendable(cfg, c, id, n) && k <= n
    ensures Appendable(cfg, c, id, k)
  {
  }

  lemma RoomLeft(cfg: Config, c: Cache, id: nat, k: nat)
    requires Shape(cfg, c) && id in c.tables && k <= Room(cfg, c, id)
    ensures Room(cfg, FillLast(cfg, c, id, k), id) == Room(cfg, c, id) - k
  {
  }

  lemma LastFull(cfg: Config, c: Cache, id: nat, prompts: map<nat, seq<int>>, lens: map<nat, nat>)
    requires Shape(cfg, c) && Owned(cfg, c, prompts, lens) && id in c.tables && Room(cfg, c, id) == 0
    ensures FullUpTo(cfg, c, c.tables[id], |c.tables[id]|)
  {
  }

  /** An append leaves blocks without a hash with one holder. */
  lemma AppendSolo(cfg: Config, c: Cache, held: multiset<nat>, id: nat, n: nat)
    requires Sound(cfg, c, held) && Solo(cfg, c)
    ensures Solo(cfg, Append(cfg, c, id, n).cache)
  {
    hide Partition, HashRules, Accounted, Solo, FillLast;
    if id in c.tables {
      var k := if n <= Room(cfg, c, id) then n else Room(cfg, c, id);
      FillLastChanges(cfg, c, id, k);
      FillLastSound(cfg, c, held, id, k);
      ExtendKeeps(cfg, FillLast(cfg, c, id, k), held, id, n - k);
    }
  }

  lemma {:induction false} ExtendKeeps(cfg: Config, c: Cache, held: multiset<nat>, id: nat, remaining: nat)
    requires Sound(cfg, c, held) && id in c.tables
    ensures var c' := Extend(cfg, c, id, remaining).cache;
      && InUseKept(c, c') && (Solo(cfg, c) ==> Solo(cfg, c'))
      && c'.tables.Keys == c.tables.Keys && (forall k :: k in c.tables && k != id ==> c'.tables[k] == c.tables[k])
    decreases remaining
  {
    hide Shape, Partition, HashRules, Accounted, Solo, Grow;
    if remaining > 0 {
      var added := if remaining < cfg.blockSize then remaining else cfg.blockSize;
      GrowSound(cfg, c, held, id, added);
      GrowKeeps(cfg, c, held, id, added);
      var g := Grow(cfg, c, id, added);
      if g.Return? {
        ExtendKeeps(cfg, g.cache, held, id, remaining - added);
      }
    }
  }

  /** A shared last block that is written into makes another sequence longer than it
      is recorded to be. */
  lemma {:induction false} FillsGrow(c: Cache, c': Cache, t: seq<nat>, b: nat)
    requires InRange(t, |c.blocks|) && |c'.blocks| == |c.blocks| && b in t
    requires forall i :: 0 <= i < |t| ==> c'.blocks[t[i]].filled >= c.blocks[t[i]].filled
    requires c'.blocks[b].filled > c.blocks[b].filled
    ensures Fills(c', t) > Fills(c, t)
    decreases |t|
  {
    var u := t[..|t| - 1];
    if b in u {
      FillsGrow(c, c', u, b);
    } else {
      FillsNotLess(c, c', u);
    }
  }

  lemma {:induction false} FillsNotLess(c: Cache, c': Cache, t: seq<nat>)
    requires InRange(t, |c.blocks|) && |c'.blocks| == |c.blocks|
    requires forall i :: 0 <= i < |t| ==> c'.blocks[t[i]].filled >= c.blocks[t[i]].filled
    ensures Fills(c', t) >= Fills(c, t)
    decreases |t|
  {
    if t != [] {
      FillsNotLess(c, c', t[..|t| - 1]);
    }
  }

  lemma FillLastGrows(cfg: Config, c: Cache, id: nat, n: nat)
    requires Shape(cfg, c) && id in c.tables && 0 < n <= Room(cfg, c, id)
    ensures var c' := FillLast(cfg, c, id, n); var b := Last(c.tables[id]);
      && |c'.blocks| == |c.blocks| && b < |c.blocks| && c'.blocks[b].filled > c.blocks[b].filled
      && forall x :: 0 <= x < |c.blocks| ==> c'.blocks[x].filled >= c.blocks[x].filled
  {
  }

  /** Another sequence has the last block of this one, which is not full. */
  lemma SharedWith(cfg: Config, c: Cache, id: nat, n: nat, prompts: map<nat, seq<int>>, lens: map<nat, nat>)
    returns (x: nat)
    requires Shape(cfg, c) && Owned(cfg, c, prompts, lens) && !Appendable(cfg, c, id, n)
    ensures id in c.tables && c.tables[id] != [] && n > 0 && Room(cfg, c, id) > 0
    ensures x in c.tables && x != id && Last(c.tables[id]) in c.tables[x]
  {
    assert SeqOk(cfg, c, c.tables[id], prompts[id], lens[id]);
    x :| x in c.tables && x != id && Last(c.tables[id]) in c.tables[x];
  }

  /** An append records every sequence rightly if and only if it writes into no shared
      block. */
  lemma AppendOwnedIff(cfg: Config, c: Cache, held: multiset<nat>, id: nat, n: nat,
                       prompts: map<nat, seq<int>>, lens: map<nat, nat>)
    requires Sound(cfg, c, held) && Owned(cfg, c, prompts, lens) && id in c.tables
    ensures id in Append(cfg, c, id, n).cache.tables
    ensures var c' := Append(cfg, c, id, n).cache;
      Owned(cfg, c', prompts, lens[id := LengthIn(cfg, c', id)]) <==> Appendable(cfg, c, id, n)
  {
    hide Shape, Partition, HashRules, Accounted, SeqOk, LengthIn, FillLast, Room;
    var k := if n <= Room(cfg, c, id) then n else Room(cfg, c, id);
    FillLastSound(cfg, c, held, id, k);
    ExtendKeeps(cfg, FillLast(cfg, c, id, k), held, id, n - k);
    var c' := Append(cfg, c, id, n).cache;
    if Appendable(cfg, c, id, n) {
      AppendOwned(cfg, c, held, id, n, prompts, lens);
    } else {
      var x := SharedWith(cfg, c, id, n, prompts, lens);
      SharedGrows(cfg, c, held, id, k, x, c');
      OwnedLength(cfg, c, x, prompts, lens);
      if Owned(cfg, c', prompts, lens[id := LengthIn(cfg, c', id)]) {
        OwnedLength(cfg, c', x, prompts, lens[id := LengthIn(cfg, c', id)]);
        assert false;
      }
    }
  }

  lemma SharedGrows(cfg: Config, c: Cache, held: multiset<nat>, id: nat, k: nat, x: nat, c': Cache)
    requires Sound(cfg, c, held) && id in c.tables && 0 < k <= Room(cfg, c, id)
    requires x in c.tables && x != id && c.tables[id] != [] && Last(c.tables[id]) in c.tables[x]
    requires Shape(cfg, c') && InUseKept(FillLast(cfg, c, id, k), c') && x in c'.tables && c'.tables[x] == c.tables[x]
    ensures LengthIn(cfg, c', x) > LengthIn(cfg, c, x)
  {
    FillLastGrows(cfg, c, id, k);
    FillLastSound(cfg, c, held, id, k);
    var c1 := FillLast(cfg, c, id, k);
    TableInUse(cfg, c1, held, x);
    hide Sound, FillLast;
    FillsGrow(c, c', c.tables[x], Last(c.tables[id]));
  }

  // ----- Unregister -----

  lemma UnregisterKeeps(cfg: Config, c: Cache, held: multiset<nat>, id: nat)
    requires Sound(cfg, c, held) && id in c.tables
    ensures var c' := Unregister(cfg, c, id);
      && c'.tables == c.tables - {id}
      && (Solo(cfg, c) ==> Solo(cfg, c'))
      && forall k :: k in c.tables && k != id ==> Untouched(c, c', c.tables[k])
  {
    var c' := Unregister(cfg, c, id);
    UnregisterSound(cfg, c, held, id);
    ReleaseAllKeeps(cfg, c, c.tables[id]);
    forall k | k in c'.tables ensures Untouched(c, c', c.tables[k]) {
      TableInUse(cfg, c', held, k);
    }
    hide Partition, HashRules, Accounted, TreeShape;
  }

  lemma UnregisterOwned(cfg: Config, c: Cache, held: multiset<nat>, id: nat,
                        prompts: map<nat, seq<int>>, lens: map<nat, nat>)
    requires Sound(cfg, c, held) && Owned(cfg, c, prompts, lens) && id in c.tables
    ensures Owned(cfg, Unregister(cfg, c, id), prompts - {id}, lens - {id})
  {
    hide Shape, Partition, HashRules, Accounted, SeqOk;
    var c' := Unregister(cfg, c, id);
    UnregisterSound(cfg, c, held, id);
    UnregisterKeeps(cfg, c, held, id);
    forall k | k in c'.tables ensures SeqOk(cfg, c', c'.tables[k], prompts[k], lens[k]) {
      SeqOkFrame(cfg, c, c', c.tables[k], prompts[k], lens[k]);
    }
  }

  // ----- Sharing -----

  lemma SharedIsHashed(cfg: Config, c: Cache, held: multiset<nat>, b: nat)
    requires Sound(cfg, c, held) && Solo(cfg, c) && Occ(c.tables, b) >= 2
    requires exists id :: id in c.tables && b in c.tables[id]
    ensures b < |c.blocks| && cfg.caching && c.blocks[b].hash != 0
  {
  }

  /** Two positions that hold the same hashed block are the same position of two
      sequences, inside a common prefix of full token blocks. */
  lemma SharedBlocksSharePrefix(cfg: Config, c: Cache, held: multiset<nat>,
                                prompts: map<nat, seq<int>>, lens: map<nat, nat>, id1: nat, j1: nat, id2: nat, j2: nat)
    requires Sound(cfg, c, held) && Owned(cfg, c, prompts, lens) && NonZeroHash(cfg) && InjectiveHash(cfg)
    requires id1 in c.tables && j1 < |c.tables[id1]| && id2 in c.tables && j2 < |c.tables[id2]|
    requires c.tables[id1][j1] == c.tables[id2][j2] && (id1 != id2 || j1 != j2)
    requires Solo(cfg, c) || (cfg.caching && c.tables[id1][j1] < |c.blocks| && c.blocks[c.tables[id1][j1]].hash != 0)
    ensures cfg.caching && id1 != id2 && j1 == j2
    ensures Shares(Chunks(prompts[id1], cfg.blockSize), Chunks(prompts[id2], cfg.blockSize), j1 + 1)
  {
    hide Shape, Partition, HashRules, Accounted, Solo, SeqOk, NonZeroHash, InjectiveHash;
    if Solo(cfg, c) {
      OccAtLeastTwo(c.tables, id1, j1, id2, j2);
      SharedIsHashed(cfg, c, held, c.tables[id1][j1]);
    }
    OwnedLength(cfg, c, id1, prompts, lens);
    OwnedLength(cfg, c, id2, prompts, lens);
    SeqOkShare(cfg, c, c.tables[id1], prompts[id1], lens[id1], j1, c.tables[id2], prompts[id2], lens[id2], j2);
  }

  lemma SeqOkShare(cfg: Config, c: Cache, t1: seq<nat>, p1: seq<int>, len1: nat, j1: nat,
                   t2: seq<nat>, p2: seq<int>, len2: nat, j2: nat)
    requires NonZeroHash(cfg) && InjectiveHash(cfg) && cfg.caching
    requires SeqOk(cfg, c, t1, p1, len1) && SeqOk(cfg, c, t2, p2, len2)
    requires j1 < |t1| && j2 < |t2| && t1[j1] == t2[j2] < |c.blocks| && c.blocks[t1[j1]].hash != 0
    ensures j1 == j2 && Shares(Chunks(p1, cfg.blockSize), Chunks(p2, cfg.blockSize), j1 + 1)
  {
    hide Chunks, FullUpTo, Fills, NonZeroHash, InjectiveHash;
    ChainInjective(cfg, Chunks(p1, cfg.blockSize), j1 + 1, Chunks(p2, cfg.blockSize), j2 + 1);
  }

  lemma OccAtLeastTwo(tables: map<nat, seq<nat>>, id1: nat, j1: nat, id2: nat, j2: nat)
    requires id1 in tables && j1 < |tables[id1]| && id2 in tables && j2 < |tables[id2]|
    requires tables[id1][j1] == tables[id2][j2] && (id1 != id2 || j1 != j2)
    ensures Occ(tables, tables[id1][j1]) >= 2
  {
    var b := tables[id1][j1];
    OccRemove(tables, id1, b);
    assert b in multiset(tables[id1]);
    if id1 != id2 {
      OccPositive(tables - {id1}, id2, b);
    } else {
      var t, lo, hi := tables[id1], if j1 < j2 then j1 else j2, if j1 < j2 then j2 else j1;
      assert t == t[..lo] + [b] + t[lo + 1..hi] + [b] + t[hi + 1..];
    }
  }
}
