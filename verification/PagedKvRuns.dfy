/** Whole runs of the KV cache: any sequence of registrations, appends, releases
    and forks, with the ghost record of what each sequence should hold. */
module PagedKvRuns {
  import opened PagedKv
  import opened PagedKvSound
  import opened PagedKvOps
  import opened PagedKvPrefix
  import opened PagedKvContent
  import opened PagedKvAppend
  import opened PagedKvSpare

  datatype Op =
    | DoRegister(id: nat, prompt: seq<int>)
    | DoAppend(id: nat, n: nat)
    | DoUnregister(id: nat)
    | DoFork(parent: nat, child: nat)

  /** leaked: references without a table entry; prompts and lens: what the live
      sequences were registered with and how long they are; seen: the block
      lists of all prompts registered so far. */
  datatype World = World(
    cache: Cache, leaked: multiset<nat>,
    prompts: map<nat, seq<int>>, lens: map<nat, nat>, seen: set<seq<seq<int>>>)

  ghost function Step(cfg: Config, w: World, op: Op): (w': World)
    requires Shape(cfg, w.cache)
    ensures Shape(cfg, w'.cache) && w'.cache.evictions >= w.cache.evictions
  {
    match op
    case DoRegister(id, prompt) =>
      var r := Register(cfg, w.cache, id, prompt);
      var q := Chunks(prompt, cfg.blockSize);
      if id in w.cache.tables then w
      else if r.Return? then
        World(r.cache, w.leaked, w.prompts[id := prompt], w.lens[id := |prompt|], w.seen + {q})
      else
        var t := Placed(cfg, w.cache, prompt).table;
        World(r.cache, w.leaked + RegisterLeak(cfg, w.cache, id, prompt), w.prompts, w.lens,
              w.seen + {if |t| <= |q| then q[..|t|] else q})
    case DoAppend(id, n) =>
      var r := Append(cfg, w.cache, id, n);
      if id in w.cache.tables && id in w.lens && id in r.cache.tables then
        w.(cache := r.cache, lens := w.lens[id := if r.Return? then w.lens[id] + n else LengthIn(cfg, r.cache, id)])
      else w.(cache := r.cache)
    case DoUnregister(id) =>
      UnregisterEvictions(cfg, w.cache, id);
      w.(cache := Unregister(cfg, w.cache, id), prompts := w.prompts - {id}, lens := w.lens - {id})
    case DoFork(parent, child) =>
      ForkEvictions(cfg, w.cache, parent, child);
      w.(cache := Fork(cfg, w.cache, parent, child).cache,
         leaked := w.leaked + ForkLeak(w.cache, parent, child),
         prompts := Inherit(w.prompts, parent, child),
         lens := Inherit(w.lens, parent, child))
  }

  /** A forked sequence is recorded as its parent is. */
  function Inherit<V>(m: map<nat, V>, parent: nat, child: nat): map<nat, V> {
    if parent in m then m[child := m[parent]] else m
  }

  lemma UnregisterEvictions(cfg: Config, c: Cache, id: nat)
    requires Shape(cfg, c)
    ensures Unregister(cfg, c, id).evictions == c.evictions
  {
    if id in c.tables {
      ReleaseAllKeeps(cfg, c, c.tables[id]);
    }
  }

  lemma ForkEvictions(cfg: Config, c: Cache, parent: nat, child: nat)
    requires Shape(cfg, c)
    ensures Fork(cfg, c, parent, child).cache.evictions == c.evictions
  {
    if parent in c.tables {
      ShareKeeps(cfg, c, c.tables[parent]);
    }
  }

  ghost function Run(cfg: Config, ops: seq<Op>): (w: World)
    ensures Shape(cfg, w.cache)
  {
    if ops == [] then World(Init(cfg), multiset{}, map[], map[], {})
    else Step(cfg, Run(cfg, ops[..|ops| - 1]), ops[|ops| - 1])
  }

  // ----- Conditions on a step and on a run -----

  /** A fresh registration hits no block on the free stack. */
  ghost predicate StepWalks(cfg: Config, w: World, op: Op)
    requires Shape(cfg, w.cache)
  {
    op.DoRegister? && op.id !in w.cache.tables ==> Walkable(cfg, w.cache, op.prompt)
  }

  /** A fresh registration walks live nodes (nothing to ask when caching is off). */
  ghost predicate StepLive(cfg: Config, w: World, op: Op)
    requires Shape(cfg, w.cache)
  {
    op.DoRegister? && op.id !in w.cache.tables && cfg.caching ==> WalkLive(cfg, w.cache, op.prompt)
  }

  /** An append writes into no shared block. */
  ghost predicate StepUnshared(cfg: Config, w: World, op: Op)
    requires Shape(cfg, w.cache)
  {
    op.DoAppend? ==> Appendable(cfg, w.cache, op.id, op.n)
  }

  ghost predicate RunWalks(cfg: Config, ops: seq<Op>) {
    ops == [] || (RunWalks(cfg, ops[..|ops| - 1]) && StepWalks(cfg, Run(cfg, ops[..|ops| - 1]), ops[|ops| - 1]))
  }

  ghost predicate RunLive(cfg: Config, ops: seq<Op>) {
    ops == [] || (RunLive(cfg, ops[..|ops| - 1]) && StepLive(cfg, Run(cfg, ops[..|ops| - 1]), ops[|ops| - 1]))
  }

  ghost predicate RunUnshared(cfg: Config, ops: seq<Op>) {
    ops == []
    || (RunUnshared(cfg, ops[..|ops| - 1]) && StepUnshared(cfg, Run(cfg, ops[..|ops| - 1]), ops[|ops| - 1]))
  }

  ghost predicate NoForks(ops: seq<Op>) {
    forall i :: 0 <= i < |ops| ==> !ops[i].DoFork?
  }

  // ----- The pool -----

  lemma StepSound(cfg: Config, w: World, op: Op)
    requires Sound(cfg, w.cache, w.leaked) && StepWalks(cfg, w, op)
    ensures var w' := Step(cfg, w, op); Sound(cfg, w'.cache, w'.leaked)
  {
    hide Shape, Partition, HashRules, Accounted;
    match op
    case DoRegister(id, prompt) =>
      if id !in w.cache.tables {
        RegisterSoundIff(cfg, w.cache, w.leaked, id, prompt);
        assert w.leaked + multiset{} == w.leaked;
      }
    case DoAppend(id, n) => AppendSound(cfg, w.cache, w.leaked, id, n);
    case DoUnregister(id) => UnregisterSound(cfg, w.cache, w.leaked, id);
    case DoFork(parent, child) => ForkSound(cfg, w.cache, w.leaked, parent, child);
  }

  /** In every run that walks no free block, each block is free, cached or in use,
      and its count is its table entries plus the leaked references. */
  lemma {:induction false} RunSound(cfg: Config, ops: seq<Op>)
    requires RunWalks(cfg, ops)
    ensures Sound(cfg, Run(cfg, ops).cache, Run(cfg, ops).leaked)
  {
    hide Sound;
    if ops == [] {
      InitSound(cfg);
    } else {
      RunSound(cfg, ops[..|ops| - 1]);
      StepSound(cfg, Run(cfg, ops[..|ops| - 1]), ops[|ops| - 1]);
    }
  }

  /** A step leaks when a registration needs more blocks than are available and finds
      some, or a fork overwrites a sequence. */
  ghost predicate StepLeaks(cfg: Config, w: World, op: Op)
    requires Shape(cfg, w.cache)
  {
    match op
    case DoRegister(id, prompt) =>
      && id !in w.cache.tables && RunsOut(cfg, w.cache, prompt)
      && (Lookup(cfg, w.cache.tree, Chunks(prompt, cfg.blockSize)) > 0 || Available(cfg, w.cache, prompt) > 0)
    case DoFork(parent, child) => parent in w.cache.tables && child in w.cache.tables
    case _ => false
  }

  lemma StepLeakIff(cfg: Config, w: World, op: Op)
    requires Sound(cfg, w.cache, w.leaked) && StepWalks(cfg, w, op)
    ensures var w' := Step(cfg, w, op); w.leaked <= w'.leaked && (w'.leaked == w.leaked <==> !StepLeaks(cfg, w, op))
  {
    hide Sound, Walkable, Register, RunsOut, Available, Lookup, Chunks, RegisterLeak, Fork;
    ShapeOf(cfg, w.cache, w.leaked);
    if op.DoRegister? {
      if op.id !in w.cache.tables {
        RegisterThrowsIff(cfg, w.cache, w.leaked, op.id, op.prompt);
        PreparedSpare(cfg, w.cache, w.leaked, op.prompt);
        LeakReturned(cfg, w.cache, op.id, op.prompt);
        MoreHeld(w.leaked, RegisterLeak(cfg, w.cache, op.id, op.prompt));
      }
    } else if op.DoFork? && op.child in w.cache.tables {
      ShapeTable(cfg, w.cache, op.child);
      MoreHeld(w.leaked, multiset(w.cache.tables[op.child]));
    }
  }

  lemma LeakReturned(cfg: Config, c: Cache, id: nat, prompt: seq<int>)
    requires Shape(cfg, c) && id !in c.tables
    ensures Register(cfg, c, id, prompt).Return? ==> RegisterLeak(cfg, c, id, prompt) == multiset{}
  {
  }

  lemma MoreHeld(m: multiset<nat>, more: multiset<nat>)
    ensures m <= m + more && (m + more == m <==> |more| == 0)
  {
    if more != multiset{} {
      var x :| x in more;
      assert (m + more)[x] > m[x];
    }
  }

  lemma ShapeTable(cfg: Config, c: Cache, id: nat)
    requires Shape(cfg, c) && id in c.tables
    ensures c.tables[id] != []
  {
  }

  ghost predicate RunLeaks(cfg: Config, ops: seq<Op>) {
    ops != [] && (RunLeaks(cfg, ops[..|ops| - 1]) || StepLeaks(cfg, Run(cfg, ops[..|ops| - 1]), ops[|ops| - 1]))
  }

  /** References and table entries agree exactly in the runs without a leaking step. */
  lemma {:induction false} RunLeakIff(cfg: Config, ops: seq<Op>)
    requires RunWalks(cfg, ops)
    ensures Run(cfg, ops).leaked == multiset{} <==> !RunLeaks(cfg, ops)
  {
    hide Sound;
    if ops != [] {
      RunLeakIff(cfg, ops[..|ops| - 1]);
      RunSound(cfg, ops[..|ops| - 1]);
      StepLeakIff(cfg, Run(cfg, ops[..|ops| - 1]), ops[|ops| - 1]);
    }
  }

  // ----- Runs without eviction -----

  lemma StepKeepsLive(cfg: Config, w: World, op: Op)
    requires cfg.caching && NonZeroHash(cfg) && Sound(cfg, w.cache, w.leaked) && Live(cfg, w.cache)
    requires Step(cfg, w, op).cache.evictions == w.cache.evictions
    ensures Live(cfg, Step(cfg, w, op).cache)
  {
    hide Shape, Partition, HashRules, Accounted, Live, NonZeroHash;
    match op
    case DoRegister(id, prompt) =>
      if id !in w.cache.tables {
        RegisterLive(cfg, w.cache, w.leaked, id, prompt);
      }
    case DoAppend(id, n) => AppendLive(cfg, w.cache, w.leaked, id, n);
    case DoUnregister(id) => ReleaseLive(cfg, w.cache, id);
    case DoFork(parent, child) => ForkLive(cfg, w.cache, parent, child);
  }

  /** As long as nothing has been evicted every node is live and no walk hits a
      free block. */
  lemma {:induction false} EvictionFreeRun(cfg: Config, ops: seq<Op>)
    requires cfg.caching && NonZeroHash(cfg) && Run(cfg, ops).cache.evictions == 0
    ensures RunWalks(cfg, ops) && RunLive(cfg, ops) && Live(cfg, Run(cfg, ops).cache)
  {
    if ops != [] {
      var w, op := Run(cfg, ops[..|ops| - 1]), ops[|ops| - 1];
      EvictionFreeRun(cfg, ops[..|ops| - 1]);
      RunSound(cfg, ops[..|ops| - 1]);
      StepKeepsLive(cfg, w, op);
      if op.DoRegister? {
        LiveWalks(cfg, w.cache, op.prompt);
        WalkLiveIsWalkable(cfg, w.cache, w.leaked, op.prompt);
      }
    }
  }

  /** With caching off no lookup is made, so every run walks no free block. */
  lemma {:induction false} UncachedRun(cfg: Config, ops: seq<Op>)
    requires !cfg.caching
    ensures RunWalks(cfg, ops) && RunLive(cfg, ops)
  {
    if ops != [] {
      UncachedRun(cfg, ops[..|ops| - 1]);
    }
  }
}
