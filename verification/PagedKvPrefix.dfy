/** The prefix tree is a trie of all token blocks ever registered, so a lookup
    finds the longest prefix shared with any earlier prompt. */
module PagedKvPrefix {
  import opened PagedKv

  // ----- The chain hash -----

  /** compute_block_hash never yields the root's hash, 0. */
  ghost predicate NonZeroHash(cfg: Config) {
    forall t, p :: cfg.hash(t, p) != 0
  }

  /** compute_block_hash has no collisions on (block tokens, parent hash). */
  ghost predicate InjectiveHash(cfg: Config) {
    forall t1, p1, t2, p2 :: cfg.hash(t1, p1) == cfg.hash(t2, p2) ==> t1 == t2 && p1 == p2
  }

  /** The chain hash identifies the depth and every block up to it. */
  lemma {:induction false} ChainInjective(cfg: Config, p: seq<seq<int>>, i: nat, q: seq<seq<int>>, j: nat)
    requires NonZeroHash(cfg) && InjectiveHash(cfg) && i <= |p| && j <= |q|
    ensures Chain(cfg, p, i) == Chain(cfg, q, j) <==> i == j && p[..i] == q[..j]
    decreases i + j
  {
    if i > 0 && j > 0 {
      ChainInjective(cfg, p, i - 1, q, j - 1);
      assert p[..i] == p[..i - 1] + [p[i - 1]] && q[..j] == q[..j - 1] + [q[j - 1]];
      if i == j && p[..i] == q[..j] {
        assert p[..i - 1] == p[..i][..i - 1] && q[..j - 1] == q[..j][..j - 1];
        assert p[i - 1] == p[..i][i - 1] && q[j - 1] == q[..j][j - 1];
      }
    }
  }

  // ----- The tree -----

  ghost predicate HasHash(tree: seq<Node>, hv: nat) {
    exists n :: 0 < n < |tree| && tree[n].hash == hv
  }

  ghost predicate IsChild(tree: seq<Node>, i: nat, n: nat)
    requires i < |tree| && n < |tree|
  {
    tree[n].hash in tree[i].children && tree[i].children[tree[n].hash] == n
  }

  /** n is filed under its parent i, whose hash its own hash was computed from. */
  ghost predicate Filed(cfg: Config, tree: seq<Node>, i: nat, n: nat)
    requires i < |tree| && n < |tree|
  {
    IsChild(tree, i, n) && exists t :: tree[n].hash == cfg.hash(t, tree[i].hash)
  }

  ghost predicate HasParent(cfg: Config, tree: seq<Node>, n: nat)
    requires n < |tree|
  {
    exists i :: 0 <= i < |tree| && Filed(cfg, tree, i, n)
  }

  ghost predicate TreeSound(cfg: Config, tree: seq<Node>) {
    && TreeShape(tree, cfg.totalBlocks)
    && tree[0].hash == 0
    && (forall n :: 0 < n < |tree| ==> tree[n].hash != 0)
    && (forall n, n' :: 0 < n < |tree| && 0 < n' < |tree| && tree[n].hash == tree[n'].hash ==> n == n')
    && (forall i, k :: 0 <= i < |tree| && k in tree[i].children ==> tree[tree[i].children[k]].hash == k)
    && (forall n :: 0 < n < |tree| ==> HasParent(cfg, tree, n))
  }

  /** A lookup of j blocks succeeds exactly when their chain hash is in the tree,
      and it ends at the node with that hash. */
  lemma {:induction false} ReachIff(cfg: Config, tree: seq<Node>, q: seq<seq<int>>, j: nat)
    requires TreeSound(cfg, tree) && NonZeroHash(cfg) && InjectiveHash(cfg) && 0 < j <= |q|
    ensures Reach(cfg, tree, q, j).Some? <==> HasHash(tree, Chain(cfg, q, j))
    ensures Reach(cfg, tree, q, j).Some? ==> tree[Reach(cfg, tree, q, j).value].hash == Chain(cfg, q, j)
  {
    if j > 1 {
      ReachIff(cfg, tree, q, j - 1);
    }
    if HasHash(tree, Chain(cfg, q, j)) {
      var n :| 0 < n < |tree| && tree[n].hash == Chain(cfg, q, j);
      assert HasParent(cfg, tree, n);
      var i :| 0 <= i < |tree| && Filed(cfg, tree, i, n);
      var t :| tree[n].hash == cfg.hash(t, tree[i].hash);
      assert tree[n].hash == cfg.hash(q[j - 1], Chain(cfg, q, j - 1));
      assert tree[i].hash == Chain(cfg, q, j - 1);
      if j > 1 {
        assert i > 0;
        assert HasHash(tree, Chain(cfg, q, j - 1));
      }
    }
  }

  lemma {:induction false} ReachMonotone(cfg: Config, tree: seq<Node>, q: seq<seq<int>>, i: nat, j: nat)
    requires TreeShape(tree, cfg.totalBlocks) && i <= j <= |q|
    requires Reach(cfg, tree, q, j).Some?
    ensures Reach(cfg, tree, q, i).Some?
    decreases j
  {
    if i < j {
      ReachMonotone(cfg, tree, q, i, j - 1);
    }
  }

  lemma AddNodeHashes(tree: seq<Node>, i: nat, hv: nat, b: nat)
    requires i < |tree|
    ensures forall x :: HasHash(AddNode(tree, i, hv, b), x) <==> HasHash(tree, x) || x == hv
  {
    var tree' := AddNode(tree, i, hv, b);
    forall x ensures HasHash(tree', x) <==> HasHash(tree, x) || x == hv {
      if HasHash(tree, x) {
        var n :| 0 < n < |tree| && tree[n].hash == x;
        assert tree'[n].hash == x;
      }
      assert tree'[|tree|].hash == hv;
    }
  }

  lemma AddNodeParents(cfg: Config, tree: seq<Node>, i: nat, hv: nat, b: nat, n: nat)
    requires i < |tree| && 0 < n < |tree| && HasParent(cfg, tree, n) && !HasHash(tree, hv)
    ensures HasParent(cfg, AddNode(tree, i, hv, b), n)
  {
    var tree' := AddNode(tree, i, hv, b);
    var k :| 0 <= k < |tree| && Filed(cfg, tree, k, n);
    assert tree[n].hash != hv && IsChild(tree', k, n);
    assert Filed(cfg, tree', k, n);
  }

  lemma AddNodeUnique(tree: seq<Node>, i: nat, hv: nat, b: nat)
    requires i < |tree| && !HasHash(tree, hv)
    requires forall n, n' :: 0 < n < |tree| && 0 < n' < |tree| && tree[n].hash == tree[n'].hash ==> n == n'
    ensures var t := AddNode(tree, i, hv, b);
      forall n, n' :: 0 < n < |t| && 0 < n' < |t| && t[n].hash == t[n'].hash ==> n == n'
  {
    var t := AddNode(tree, i, hv, b);
    forall n | 0 < n < |tree| ensures t[n].hash == tree[n].hash != hv {
    }
  }

  lemma AddNodeChildren(tree: seq<Node>, n: nat, i: nat, hv: nat, b: nat)
    requires TreeShape(tree, n) && i < |tree|
    requires forall x, k :: 0 <= x < |tree| && k in tree[x].children ==> tree[tree[x].children[k]].hash == k
    ensures var t := AddNode(tree, i, hv, b);
      forall x, k :: 0 <= x < |t| && k in t[x].children ==>
        0 < t[x].children[k] < |t| && t[t[x].children[k]].hash == k
  {
  }

  /** Filing a new hash keeps the tree sound. */
  lemma AddNodeSound(cfg: Config, tree: seq<Node>, i: nat, hv: nat, b: nat, t: seq<int>)
    requires TreeSound(cfg, tree) && NonZeroHash(cfg) && i < |tree| && b < cfg.totalBlocks
    requires hv == cfg.hash(t, tree[i].hash) && !HasHash(tree, hv)
    ensures TreeSound(cfg, AddNode(tree, i, hv, b))
  {
    var tree' := AddNode(tree, i, hv, b);
    assert IsChild(tree', i, |tree|) && tree'[|tree|].hash == cfg.hash(t, tree'[i].hash);
    assert Filed(cfg, tree', i, |tree|);
    forall n | 0 < n < |tree'| ensures HasParent(cfg, tree', n) {
      if n < |tree| {
        AddNodeParents(cfg, tree, i, hv, b, n);
      }
    }
    AddNodeUnique(tree, i, hv, b);
    AddNodeChildren(tree, cfg.totalBlocks, i, hv, b);
  }

  // ----- The prompts the tree stands for -----

  /** The two block lists agree on their first j blocks. */
  ghost predicate Shares(p: seq<seq<int>>, q: seq<seq<int>>, j: nat) {
    j <= |p| && j <= |q| && p[..j] == q[..j]
  }

  ghost predicate SeenPrefix(seen: set<seq<seq<int>>>, q: seq<seq<int>>, j: nat) {
    exists p :: p in seen && Shares(p, q, j)
  }

  /** The tree holds exactly the chain hashes of the prefixes of the prompts seen. */
  ghost predicate TrieOf(cfg: Config, tree: seq<Node>, seen: set<seq<seq<int>>>) {
    && TreeSound(cfg, tree)
    && forall q: seq<seq<int>>, j: nat :: 0 < j <= |q| ==>
         (HasHash(tree, Chain(cfg, q, j)) <==> SeenPrefix(seen, q, j))
  }

  lemma InitTrie(cfg: Config)
    ensures TrieOf(cfg, Init(cfg).tree, {})
  {
  }

  /** A prefix of j blocks was seen exactly when the lookup gets that far. */
  lemma LookupMatchesSeen(cfg: Config, tree: seq<Node>, seen: set<seq<seq<int>>>, q: seq<seq<int>>, j: nat)
    requires cfg.caching && NonZeroHash(cfg) && InjectiveHash(cfg) && TrieOf(cfg, tree, seen) && 0 < j <= |q|
    ensures SeenPrefix(seen, q, j) <==> j <= Lookup(cfg, tree, q)
  {
    var m := Lookup(cfg, tree, q);
    ReachIff(cfg, tree, q, j);
    if j <= m {
      ReachMonotone(cfg, tree, q, j, m);
    } else if Reach(cfg, tree, q, j).Some? {
      ReachMonotone(cfg, tree, q, m + 1, j);
    }
  }

  /** The lookup matches the longest block-aligned prefix that the prompt shares
      with any prompt seen before. */
  lemma LookupIsLongest(cfg: Config, tree: seq<Node>, seen: set<seq<seq<int>>>, q: seq<seq<int>>)
    requires cfg.caching && NonZeroHash(cfg) && InjectiveHash(cfg) && TrieOf(cfg, tree, seen)
    ensures var m := Lookup(cfg, tree, q);
      && (m == 0 || SeenPrefix(seen, q, m))
      && (forall p, j: nat :: p in seen && Shares(p, q, j) ==> j <= m)
  {
    var m := Lookup(cfg, tree, q);
    if m > 0 {
      LookupMatchesSeen(cfg, tree, seen, q, m);
    }
    forall p, j: nat | p in seen && Shares(p, q, j) ensures j <= m {
      if j > 0 {
        assert SeenPrefix(seen, q, j);
        LookupMatchesSeen(cfg, tree, seen, q, j);
      }
    }
  }

  // ----- A registration extends the trie by the blocks it placed -----

  /** The tree part of a registration that has placed the blocks of q[..j]. */
  ghost predicate FilledTrie(cfg: Config, f: Filling, seen: set<seq<seq<int>>>, q: seq<seq<int>>, j: nat) {
    && j <= |q| && f.node < |f.cache.tree|
    && TrieOf(cfg, f.cache.tree, seen + {q[..j]})
    && f.cache.tree[f.node].hash == Chain(cfg, q, j)
  }

  lemma SeenPrefixGrows(seen: set<seq<seq<int>>>, q: seq<seq<int>>, j: nat, r: seq<seq<int>>, i: nat)
    requires j < |q|
    ensures SeenPrefix(seen + {q[..j + 1]}, r, i)
      <==> SeenPrefix(seen + {q[..j]}, r, i) || (i == j + 1 && Shares(q, r, i))
  {
    if SeenPrefix(seen + {q[..j + 1]}, r, i) {
      var p :| p in seen + {q[..j + 1]} && Shares(p, r, i);
      if p !in seen {
        assert i <= j ==> q[..j + 1][..i] == q[..j][..i];
        assert i == j + 1 ==> q[..j + 1][..i] == q[..i];
        assert i <= j ==> q[..j] in seen + {q[..j]} && Shares(q[..j], r, i);
      } else {
        assert p in seen + {q[..j]};
      }
    }
    if SeenPrefix(seen + {q[..j]}, r, i) {
      var p :| p in seen + {q[..j]} && Shares(p, r, i);
      if p !in seen {
        assert q[..j + 1][..i] == q[..j][..i];
        assert q[..j + 1] in seen + {q[..j + 1]} && Shares(q[..j + 1], r, i);
      } else {
        assert p in seen + {q[..j + 1]};
      }
    }
    if i == j + 1 && Shares(q, r, i) {
      assert q[..j + 1][..i] == q[..i];
      assert q[..j + 1] in seen + {q[..j + 1]} && Shares(q[..j + 1], r, i);
    }
  }

  lemma InsertTrie(cfg: Config, f: Filling, seen: set<seq<seq<int>>>, q: seq<seq<int>>, j: nat, g: Filling)
    requires NonZeroHash(cfg) && InjectiveHash(cfg) && FillShape(cfg, f)
    requires FilledTrie(cfg, f, seen, q, j) && j < |q| && !SeenPrefix(seen + {q[..j]}, q, j + 1)
    requires g == InsertChunk(cfg, f, Chain(cfg, q, j + 1)) && f.ok && g.ok
    ensures FilledTrie(cfg, g, seen, q, j + 1)
  {
    var hv := Chain(cfg, q, j + 1);
    var b := Allocate(cfg, f.cache).value;
    AddNodeSound(cfg, f.cache.tree, f.node, hv, b, q[j]);
    AddNodeHashes(f.cache.tree, f.node, hv, b);
    forall r: seq<seq<int>>, i: nat | 0 < i <= |r|
      ensures HasHash(g.cache.tree, Chain(cfg, r, i)) <==> SeenPrefix(seen + {q[..j + 1]}, r, i)
    {
      SeenPrefixGrows(seen, q, j, r, i);
      ChainInjective(cfg, r, i, q, j + 1);
    }
  }

  lemma LookupTrie(cfg: Config, c: Cache, seen: set<seq<seq<int>>>, q: seq<seq<int>>)
    requires cfg.caching && NonZeroHash(cfg) && InjectiveHash(cfg) && Shape(cfg, c) && TrieOf(cfg, c.tree, seen)
    ensures FilledTrie(cfg, AfterLookup(cfg, c, q), seen, q, Lookup(cfg, c.tree, q))
  {
    var m := Lookup(cfg, c.tree, q);
    LookupIsLongest(cfg, c.tree, seen, q);
    if m > 0 {
      ReachIff(cfg, c.tree, q, m);
    }
    forall r: seq<seq<int>>, i: nat | 0 < i <= |r|
      ensures SeenPrefix(seen + {q[..m]}, r, i) <==> SeenPrefix(seen, r, i)
    {
      if Shares(q[..m], r, i) {
        var p :| p in seen && Shares(p, q, m);
        assert p[..i] == p[..m][..i] && q[..m][..i] == q[..i];
        assert Shares(p, r, i);
      }
      if SeenPrefix(seen, r, i) {
        var p :| p in seen && Shares(p, r, i);
        assert p in seen + {q[..m]};
      }
    }
  }

  /** No prompt seen before shares more than the first lo blocks of q. */
  ghost predicate FreshFrom(seen: set<seq<seq<int>>>, q: seq<seq<int>>, lo: nat) {
    forall j: nat :: lo <= j < |q| ==> !SeenPrefix(seen + {q[..j]}, q, j + 1)
  }

  lemma LookupFresh(cfg: Config, tree: seq<Node>, seen: set<seq<seq<int>>>, q: seq<seq<int>>)
    requires cfg.caching && NonZeroHash(cfg) && InjectiveHash(cfg) && TrieOf(cfg, tree, seen)
    ensures FreshFrom(seen, q, Lookup(cfg, tree, q))
  {
    LookupIsLongest(cfg, tree, seen, q);
  }

  /** One step of the loop that places the blocks the lookup did not find. */
  lemma FillStepTrie(cfg: Config, seen: set<seq<seq<int>>>, q: seq<seq<int>>, f: Filling, lo: nat)
    returns (g: Filling)
    requires NonZeroHash(cfg) && InjectiveHash(cfg) && FillShape(cfg, f) && FreshFrom(seen, q, lo)
    requires FilledTrie(cfg, f, seen, q, |f.table|) && lo <= |f.table| < |q|
    ensures g == InsertChunk(cfg, f, Chain(cfg, q, |f.table| + 1))
    ensures f.ok && g.ok ==> |g.table| == |f.table| + 1
    ensures FilledTrie(cfg, g, seen, q, |g.table|)
  {
    hide TrieOf, NonZeroHash, InjectiveHash;
    g := InsertChunk(cfg, f, Chain(cfg, q, |f.table| + 1));
    if f.ok && g.ok {
      InsertTrie(cfg, f, seen, q, |f.table|, g);
    }
  }

  lemma {:induction false} FillToTrie(cfg: Config, seen: set<seq<seq<int>>>, q: seq<seq<int>>, f: Filling, lo: nat,
                                      hi: nat)
    returns (g: Filling)
    requires NonZeroHash(cfg) && InjectiveHash(cfg) && FillShape(cfg, f) && FreshFrom(seen, q, lo)
    requires FilledTrie(cfg, f, seen, q, lo) && |f.table| == lo <= hi <= |q|
    ensures g == FillTo(cfg, q, f, lo, hi) && FillShape(cfg, g)
    ensures FilledTrie(cfg, g, seen, q, |g.table|) && lo <= |g.table| && (g.ok ==> |g.table| == hi)
    decreases hi
  {
    hide FilledTrie, NonZeroHash, InjectiveHash, Shape, FreshFrom;
    if hi == lo {
      g := f;
    } else {
      g := FillToTrie(cfg, seen, q, f, lo, hi - 1);
      if g.ok {
        g := FillStepTrie(cfg, seen, q, g, lo);
      }
    }
  }

  lemma RegisterTree(cfg: Config, c: Cache, id: nat, prompt: seq<int>)
    requires Shape(cfg, c) && id !in c.tables
    ensures Register(cfg, c, id, prompt).cache.tree == Placed(cfg, c, prompt).cache.tree
    ensures Register(cfg, c, id, prompt).Return? ==> Placed(cfg, c, prompt).ok
  {
  }

  /** After a registration the tree stands for the prompts seen before and the
      token blocks this one placed: all of them unless it threw. */
  lemma RegisterTrie(cfg: Config, c: Cache, seen: set<seq<seq<int>>>, id: nat, prompt: seq<int>)
    requires cfg.caching && NonZeroHash(cfg) && InjectiveHash(cfg) && Shape(cfg, c) && TrieOf(cfg, c.tree, seen)
    requires id !in c.tables
    ensures var q, f := Chunks(prompt, cfg.blockSize), Placed(cfg, c, prompt);
      && |f.table| <= |q|
      && TrieOf(cfg, Register(cfg, c, id, prompt).cache.tree, seen + {q[..|f.table|]})
      && (Register(cfg, c, id, prompt).Return? ==> |f.table| == |q|)
  {
    var q := Chunks(prompt, cfg.blockSize);
    LookupTrie(cfg, c, seen, q);
    LookupFresh(cfg, c.tree, seen, q);
    var f := FillToTrie(cfg, seen, q, AfterLookup(cfg, c, q), Lookup(cfg, c.tree, q), |q|);
    RegisterTree(cfg, c, id, prompt);
  }
}
