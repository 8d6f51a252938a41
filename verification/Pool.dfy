/** The bucketed buffer pool on top of the block allocator, as a value. The pool is
    used by one thread at a time, so each call of the allocator is its steps in a
    row. What the driver answers is a parameter of the operations. */
module Pool {
  import opened Sums
  import opened Wrappers
  import opened Allocator

  // ----- Calls of the allocator -----

  datatype Allocated = NullPtr | OutOfMemory | Address(ptr: nat)

  ghost predicate Sequential(s: State) {
    s.threads == map[0 := Idle]
  }

  /** The driver hands out only addresses that it has not handed out already. */
  predicate Grants(s: State, answer: Option<nat>) {
    answer.Some? && answer.value != 0 && answer.value !in s.driver
  }

  ghost function Allocate(s: State, bytes: nat, category: Category, answer: Option<nat>): (r: (Allocated, State))
    requires Sequential(s)
  {
    if bytes == 0 then (NullPtr, s)
    else if !Passes(s, bytes) then (OutOfMemory, s)
    else
      var s1 := Next(s, Check(0, bytes, category));
      if !Grants(s, answer) then (OutOfMemory, Next(s1, DriverRefuses(0)))
      else (Address(answer.value), Next(Next(s1, DriverGrants(0, answer.value)), Record(0)))
  }

  ghost function Free(s: State, ptr: nat, ok: bool): State
    requires Sequential(s)
  {
    var s1 := Next(s, Erase(0, ptr));
    if s1.threads[0].Idle? then s1 else Next(s1, DriverFrees(0, ok))
  }

  /** What an allocation comes to. */
  lemma AllocateResult(s: State, bytes: nat, category: Category, answer: Option<nat>)
    requires Sequential(s) && AllocatorOk(s)
    ensures var (r, s') := Allocate(s, bytes, category, answer); var size := AlignBytes(bytes);
      && Sequential(s') && AllocatorOk(s')
      && (r.Address? <==> bytes > 0 && s.total + size <= s.threshold && Grants(s, answer))
      && (!r.Address? ==> s' == s && r == if bytes == 0 then NullPtr else OutOfMemory)
      && (r.Address? ==>
            && r.ptr == answer.value && r.ptr != 0 && r.ptr !in s.active
            && s' == s.(active := s.active[r.ptr := Handle(size, category)],
                        total := s.total + size,
                        counters := Plus(s.counters, category, size),
                        peak := if s.peak > s.total + size then s.peak else s.total + size,
                        driver := s.driver + {r.ptr}))
  {
    hide AllocatorOk, AlignBytes, Plus;
    RecordedByDriver(s);
    if Passes(s, bytes) {
      var s1 := Next(s, Check(0, bytes, category));
      NextOk(s, Check(0, bytes, category));
      if Grants(s, answer) {
        var s2 := Next(s1, DriverGrants(0, answer.value));
        NextOk(s1, DriverGrants(0, answer.value));
        NextOk(s2, Record(0));
        assert s2.threads[0 := Idle] == s.threads;
      } else {
        NextOk(s1, DriverRefuses(0));
        assert s1.threads[0 := Idle] == s.threads;
      }
    }
  }

  lemma RecordedByDriver(s: State)
    requires AllocatorOk(s)
    ensures s.active.Keys <= s.driver
  {
  }

  lemma FreeResult(s: State, ptr: nat, ok: bool)
    requires Sequential(s) && AllocatorOk(s)
    ensures var s' := Free(s, ptr, ok);
      && Sequential(s') && AllocatorOk(s')
      && if ptr !in s.active then s' == s
         else
           && s' == s.(active := s.active - {ptr},
                       total := s.total - s.active[ptr].size,
                       counters := Plus(s.counters, s.active[ptr].category, -(s.active[ptr].size as int)),
                       driver := if ok then s.driver - {ptr} else s.driver)
  {
    hide Shares, Plus;
    var s1 := Next(s, Erase(0, ptr));
    NextOk(s, Erase(0, ptr));
    if ptr in s.active {
      NextOk(s1, DriverFrees(0, ok));
      assert s1.threads[0 := Idle] == s.threads;
    }
  }

  // ----- Bucket sizes -----

  function Pow2(k: nat): (n: nat)
    ensures n >= 1
  {
    if k == 0 then 1 else 2 * Pow2(k - 1)
  }

  lemma {:induction false} Pow2Monotone(j: nat, k: nat)
    ensures j <= k <==> Pow2(j) <= Pow2(k)
    decreases j + k
  {
    if j > 0 && k > 0 {
      Pow2Monotone(j - 1, k - 1);
    }
  }

  /** The doubling loop, from a power on. */
  function Doubled(power: nat, bytes: nat): (n: nat)
    requires power > 0
    decreases if power < bytes then bytes - power else 0
  {
    if power < bytes then Doubled(2 * power, bytes) else power
  }

  function BucketSize(bytes: nat): nat {
    Doubled(256, bytes)
  }

  lemma {:induction false} DoubledIsLeast(k: nat, bytes: nat) returns (n: nat)
    ensures Doubled(Pow2(k), bytes) == Pow2(n) && n >= k && Pow2(n) >= bytes
    ensures forall j :: k <= j < n ==> Pow2(j) < bytes
    decreases if Pow2(k) < bytes then bytes - Pow2(k) else 0
  {
    if Pow2(k) < bytes {
      assert Pow2(k + 1) == 2 * Pow2(k);
      n := DoubledIsLeast(k + 1, bytes);
    } else {
      n := k;
    }
  }

  /** The least power of two that holds the bytes and is at least 256. */
  lemma BucketIsLeast(bytes: nat) returns (n: nat)
    ensures n >= 8 && BucketSize(bytes) == Pow2(n) >= bytes
    ensures forall k :: k >= 8 && Pow2(k) >= bytes ==> BucketSize(bytes) <= Pow2(k)
    ensures AlignBytes(BucketSize(bytes)) == BucketSize(bytes) && BucketSize(bytes) >= 256
  {
    hide AlignBytes, Doubled, Pow2;
    Pow2Eight();
    n := DoubledIsLeast(8, bytes);
    forall k | k >= 8 && Pow2(k) >= bytes ensures BucketSize(bytes) <= Pow2(k) {
      Pow2Monotone(n, k);
    }
    Pow2Shift(n);
    AlignIsLeast(256 * Pow2(n - 8), 0);
    Pow2Monotone(8, n);
  }

  lemma Pow2Eight()
    ensures Pow2(8) == 256 && Pow2(0) == 1
  {
    assert Pow2(4) == 16;
  }

  lemma {:induction false} Pow2Shift(n: nat)
    requires n >= 8
    ensures Pow2(n) == 256 * Pow2(n - 8)
  {
    Pow2Eight();
    if n > 8 {
      Pow2Shift(n - 1);
    }
  }

  // ----- The pool -----

  datatype Node = Node(capacity: nat, requested: nat, category: Category, inUse: bool, frame: nat)

  datatype PoolState = PoolState(
    alloc: State, nodes: map<nat, Node>, buckets: map<nat, seq<nat>>,
    pooled: int, active: int, cached: int, peak: int, requested: int,
    allocations: nat, hits: nat, misses: nat, recoveries: nat, frames: nat)

  datatype Acquired = NullBuffer | Buffer(ptr: nat) | PoolExhausted

  function Bucket(p: PoolState, size: nat): seq<nat> {
    if size in p.buckets then p.buckets[size] else []
  }

  function HitBuffer(p: PoolState, size: nat, bytes: nat): PoolState
    requires Bucket(p, size) != [] && Bucket(p, size)[|Bucket(p, size)| - 1] in p.nodes
  {
    var v := Bucket(p, size);
    var ptr := v[|v| - 1];
    p.(buckets := p.buckets[size := v[..|v| - 1]],
       nodes := p.nodes[ptr := p.nodes[ptr].(inUse := true, requested := bytes, frame := p.frames + 1)],
       frames := p.frames + 1, cached := p.cached - size, active := p.active + size,
       requested := p.requested + bytes, hits := p.hits + 1)
  }

  ghost function Attempt(p: PoolState, size: nat, bytes: nat, category: Category,
                         answer: Option<nat>): (r: (Allocated, PoolState))
    requires Sequential(p.alloc)
  {
    var (a, alloc) := Allocate(p.alloc, size, category, answer);
    if !a.Address? then (a, p.(alloc := alloc))
    else
      var pooled := p.pooled + size;
      (a, p.(alloc := alloc,
             nodes := p.nodes[a.ptr := Node(size, bytes, category, true, p.frames + 1)],
             frames := p.frames + 1, pooled := pooled, active := p.active + size, requested := p.requested + bytes,
             peak := if p.peak > pooled then p.peak else pooled))
  }

  function Release(p: PoolState, ptr: nat): PoolState {
    if ptr == 0 || ptr !in p.nodes || !p.nodes[ptr].inUse then p
    else
      var n := p.nodes[ptr];
      p.(nodes := p.nodes[ptr := n.(inUse := false)],
         active := p.active - n.capacity, requested := p.requested - n.requested, cached := p.cached + n.capacity,
         buckets := p.buckets[n.capacity := Bucket(p, n.capacity) + [ptr]])
  }

  // ----- Its invariant -----

  function Capacity(n: Node): nat {
    n.capacity
  }

  function UsedPart(n: Node): nat {
    if n.inUse then n.capacity else 0
  }

  function FreePart(n: Node): nat {
    if n.inUse then 0 else n.capacity
  }

  function AskedPart(n: Node): nat {
    if n.inUse then n.requested else 0
  }

  function Parts(nodes: map<nat, Node>, f: Node -> nat): map<nat, nat> {
    map q | q in nodes :: f(nodes[q])
  }

  ghost function Sum(nodes: map<nat, Node>, f: Node -> nat): nat {
    Total(Parts(nodes, f))
  }

  /** The nodes are recorded by the allocator, with their capacity as their size. */
  ghost predicate Backed(p: PoolState) {
    forall q :: q in p.nodes ==>
      && q in p.alloc.active && p.alloc.active[q].size == p.nodes[q].capacity
      && p.nodes[q].requested <= p.nodes[q].capacity
  }

  /** Each bucket lists exactly the free nodes of its capacity, once each. */
  ghost predicate Listed(p: PoolState) {
    && (forall b :: NoDup(Bucket(p, b)))
    && (forall b, q :: q in Bucket(p, b) <==> q in p.nodes && !p.nodes[q].inUse && p.nodes[q].capacity == b)
  }

  ghost predicate Counted(p: PoolState) {
    && p.pooled == Sum(p.nodes, Capacity)
    && p.active == Sum(p.nodes, UsedPart)
    && p.cached == Sum(p.nodes, FreePart)
    && p.requested == Sum(p.nodes, AskedPart)
    && p.peak >= p.pooled
  }

  ghost predicate PoolOk(p: PoolState) {
    Sequential(p.alloc) && AllocatorOk(p.alloc) && Backed(p) && Listed(p) && Counted(p)
  }

  lemma SumInsert(nodes: map<nat, Node>, q: nat, n: Node, f: Node -> nat)
    ensures q !in nodes ==> Sum(nodes[q := n], f) == Sum(nodes, f) + f(n)
    ensures q in nodes ==> Sum(nodes[q := n], f) + f(nodes[q]) == Sum(nodes, f) + f(n)
  {
    TotalInsert(Parts(nodes, f), q, f(n));
    assert Parts(nodes, f)[q := f(n)] == Parts(nodes[q := n], f);
  }

  /** The four sums after one node has changed. */
  lemma SumsInsert(nodes: map<nat, Node>, q: nat, n: Node)
    ensures var was := if q in nodes then nodes[q] else Node(0, 0, Weights, false, 0);
      && Sum(nodes[q := n], Capacity) == Sum(nodes, Capacity) + n.capacity - was.capacity
      && Sum(nodes[q := n], UsedPart) == Sum(nodes, UsedPart) + UsedPart(n) - UsedPart(was)
      && Sum(nodes[q := n], FreePart) == Sum(nodes, FreePart) + FreePart(n) - FreePart(was)
      && Sum(nodes[q := n], AskedPart) == Sum(nodes, AskedPart) + AskedPart(n) - AskedPart(was)
  {
    hide Sum;
    SumInsert(nodes, q, n, Capacity);
    SumInsert(nodes, q, n, UsedPart);
    SumInsert(nodes, q, n, FreePart);
    SumInsert(nodes, q, n, AskedPart);
  }

  /** Pooled bytes are the active and the cached ones and are the allocator's record
      of the pool's addresses; what callers asked for is at most what is active. */
  lemma {:induction false} PoolTotals(p: PoolState)
    requires PoolOk(p)
    ensures p.pooled == p.active + p.cached
    ensures p.pooled == Total(Sizes(Only(p.alloc.active, p.nodes.Keys)))
    ensures 0 <= p.requested <= p.active && p.cached >= 0 && p.pooled <= p.alloc.total
  {
    hide AllocatorOk, Listed;
    PartsAdd(p.nodes);
    assert Sizes(Only(p.alloc.active, p.nodes.Keys)) == Parts(p.nodes, Capacity);
    TotalSplit(Sizes(p.alloc.active), p.nodes.Keys);
    assert Only(Sizes(p.alloc.active), p.nodes.Keys) == Parts(p.nodes, Capacity);
    TotalMonotone(Parts(p.nodes, UsedPart), Parts(p.nodes, AskedPart));
    AllocatorTotal(p.alloc);
  }

  lemma AllocatorTotal(s: State)
    requires AllocatorOk(s)
    ensures s.total == Total(Sizes(s.active))
  {
  }

  lemma {:induction false} PartsAdd(nodes: map<nat, Node>)
    ensures Sum(nodes, Capacity) == Sum(nodes, UsedPart) + Sum(nodes, FreePart)
    decreases |nodes|
  {
    if nodes == map[] {
      assert Parts(nodes, Capacity) == map[] && Parts(nodes, UsedPart) == map[] && Parts(nodes, FreePart) == map[];
    } else {
      var q :| q in nodes;
      var rest := nodes - {q};
      assert rest.Keys == nodes.Keys - {q};
      PartsAdd(rest);
      SumsInsert(rest, q, nodes[q]);
      assert rest[q := nodes[q]] == nodes;
    }
  }

  // ----- Acquiring from a bucket, allocating, releasing -----

  /** The counters follow when one node changes and they change with it. */
  lemma CountedChange(p: PoolState, q: nat, n: Node, p': PoolState)
    requires Counted(p) && p'.nodes == p.nodes[q := n] && p'.peak >= p'.pooled
    requires var was := if q in p.nodes then p.nodes[q] else Node(0, 0, Weights, false, 0);
      && p'.pooled == p.pooled + n.capacity - was.capacity
      && p'.active == p.active + UsedPart(n) - UsedPart(was)
      && p'.cached == p.cached + FreePart(n) - FreePart(was)
      && p'.requested == p.requested + AskedPart(n) - AskedPart(was)
    ensures Counted(p')
  {
    hide Sum;
    SumsInsert(p.nodes, q, n);
  }

  lemma HitOk(p: PoolState, size: nat, bytes: nat)
    requires PoolOk(p) && Bucket(p, size) != [] && bytes <= size
    ensures var q := Bucket(p, size)[|Bucket(p, size)| - 1];
      q in p.nodes && !p.nodes[q].inUse && p.nodes[q].capacity == size
    ensures PoolOk(HitBuffer(p, size, bytes))
  {
    hide AllocatorOk, Listed, Counted, Bucket;
    var v := Bucket(p, size);
    var q := v[|v| - 1];
    BucketNode(p, size, q);
    HitListed(p, size, bytes);
    PeakAbove(p);
    var n := p.nodes[q].(inUse := true, requested := bytes, frame := p.frames + 1);
    CountedChange(p, q, n, HitBuffer(p, size, bytes));
  }

  lemma PeakAbove(p: PoolState)
    requires Counted(p)
    ensures p.peak >= p.pooled
  {
  }

  lemma BucketNode(p: PoolState, size: nat, q: nat)
    requires Listed(p) && q in Bucket(p, size)
    ensures q in p.nodes && !p.nodes[q].inUse && p.nodes[q].capacity == size
  {
  }

  lemma HitListed(p: PoolState, size: nat, bytes: nat)
    requires Listed(p) && Bucket(p, size) != [] && Bucket(p, size)[|Bucket(p, size)| - 1] in p.nodes
    ensures Listed(HitBuffer(p, size, bytes))
  {
    var p', v := HitBuffer(p, size, bytes), Bucket(p, size);
    var q := v[|v| - 1];
    BucketNode(p, size, q);
    assert v == v[..|v| - 1] + [q];
    forall b ensures NoDup(Bucket(p', b)) {
      assert NoDup(Bucket(p, b));
    }
    forall b, x ensures x in Bucket(p', b) <==> x in p'.nodes && !p'.nodes[x].inUse && p'.nodes[x].capacity == b {
      assert x in Bucket(p, b) <==> x in p.nodes && !p.nodes[x].inUse && p.nodes[x].capacity == b;
    }
  }

  /** The limit stays, and a total within it stays within it. */
  predicate KeepsLimit(p: PoolState, p': PoolState) {
    && p'.alloc.threshold == p.alloc.threshold
    && (p.alloc.total <= p.alloc.threshold ==> p'.alloc.total <= p.alloc.threshold)
  }

  /** An attempt succeeds exactly within the budget and with the driver's consent;
      then a new node is in use, and otherwise nothing changes. */
  lemma AttemptOk(p: PoolState, size: nat, bytes: nat, category: Category, answer: Option<nat>)
    requires PoolOk(p) && bytes <= size && size > 0 && AlignBytes(size) == size
    ensures var (a, p') := Attempt(p, size, bytes, category, answer);
      && PoolOk(p') && KeepsLimit(p, p') && (!a.Address? ==> p' == p)
      && (a.Address? <==> p.alloc.total + size <= p.alloc.threshold && Grants(p.alloc, answer))
      && (a.Address? ==>
            && a.ptr != 0 && a.ptr !in p.nodes
            && p'.nodes == p.nodes[a.ptr := Node(size, bytes, category, true, p.frames + 1)])
  {
    hide AllocatorOk, AlignBytes, Allocate, Grants, Listed, Counted, Sequential;
    AllocateResult(p.alloc, size, category, answer);
    var (a, alloc) := Allocate(p.alloc, size, category, answer);
    if a.Address? {
      var p' := Attempt(p, size, bytes, category, answer).1;
      AttemptListed(p, a.ptr, p');
      CountedChange(p, a.ptr, Node(size, bytes, category, true, p.frames + 1), p');
    }
  }

  lemma AttemptListed(p: PoolState, q: nat, p': PoolState)
    requires Listed(p) && q !in p.nodes && q in p'.nodes && p'.nodes[q].inUse
    requires p'.nodes == p.nodes[q := p'.nodes[q]] && p'.buckets == p.buckets
    ensures Listed(p')
  {
    assert forall b :: Bucket(p', b) == Bucket(p, b);
  }

  lemma ReleaseOk(p: PoolState, ptr: nat)
    requires PoolOk(p)
    ensures PoolOk(Release(p, ptr))
  {
    hide AllocatorOk, Listed, Counted, Bucket;
    if ptr in p.nodes && p.nodes[ptr].inUse {
      PeakAbove(p);
      ReleaseListed(p, ptr);
      if ptr != 0 {
        CountedChange(p, ptr, p.nodes[ptr].(inUse := false), Release(p, ptr));
      }
    }
  }

  lemma ReleaseListed(p: PoolState, ptr: nat)
    requires Listed(p)
    ensures Listed(Release(p, ptr))
  {
    var p' := Release(p, ptr);
    if p' != p {
      var c := p.nodes[ptr].capacity;
      forall b, x ensures x in Bucket(p', b) <==> x in p'.nodes && !p'.nodes[x].inUse && p'.nodes[x].capacity == b {
        assert x in Bucket(p, b) <==> x in p.nodes && !p.nodes[x].inUse && p.nodes[x].capacity == b;
      }
      forall b ensures NoDup(Bucket(p', b)) {
        assert NoDup(Bucket(p, b)) && (ptr in Bucket(p, b) <==> ptr in p.nodes && !p.nodes[ptr].inUse && c == b);
      }
    }
  }

  // ----- Purging -----

  ghost function FreeNodes(p: PoolState): set<nat> {
    set q | q in p.nodes && !p.nodes[q].inUse
  }

  /** The addresses d go back to the allocator; the driver frees those it agrees to. */
  ghost function Returned(s: State, d: set<nat>, frees: set<nat>): State {
    s.(active := s.active - d,
       total := s.total - Total(Sizes(Only(s.active, d))),
       counters := Less(s.counters, Only(s.active, d)),
       driver := s.driver - d * frees)
  }

  ghost function Less(c: Counters, gone: map<nat, Handle>): Counters {
    Counters(c.weights - Total(SizesOf(gone, Weights)), c.activations - Total(SizesOf(gone, Activations)),
             c.workspace - Total(SizesOf(gone, Workspace)), c.kvCache - Total(SizesOf(gone, KvCache)))
  }

  lemma LessMore(c: Counters, gone: map<nat, Handle>, q: nat, h: Handle)
    requires q !in gone
    ensures Less(c, gone[q := h]) == Plus(Less(c, gone), h.category, -(h.size as int))
  {
    ShareInsert(gone, q, h, Weights);
    ShareInsert(gone, q, h, Activations);
    ShareInsert(gone, q, h, Workspace);
    ShareInsert(gone, q, h, KvCache);
  }

  /** The free nodes d are given back; the buckets are as they were. */
  ghost function Purged(p: PoolState, d: set<nat>, frees: set<nat>): PoolState {
    var bytes := Sum(Only(p.nodes, d), Capacity);
    p.(alloc := Returned(p.alloc, d, frees), nodes := p.nodes - d,
       pooled := p.pooled - bytes, cached := p.cached - bytes)
  }

  ghost function Purge(p: PoolState, frees: set<nat>): PoolState {
    Purged(p, FreeNodes(p), frees).(buckets := map[])
  }

  lemma OnlyMore<V>(m: map<nat, V>, d: set<nat>, q: nat)
    requires q in m && q !in d
    ensures Only(m, d + {q}) == Only(m, d)[q := m[q]] && q !in Only(m, d)
    ensures m - (d + {q}) == m - d - {q} && q in m - d && (m - d)[q] == m[q]
  {
  }

  /** Giving back one more address is one call of the allocator's free. */
  lemma ReturnedMore(s: State, d: set<nat>, q: nat, frees: set<nat>)
    requires Sequential(s) && AllocatorOk(Returned(s, d, frees)) && q in s.active && q !in d
    ensures Sequential(Returned(s, d, frees))
    ensures Free(Returned(s, d, frees), q, q in frees) == Returned(s, d + {q}, frees)
  {
    hide AllocatorOk, Free, Less, Plus, SizesOf, Sizes, Total, Only;
    var s1 := Returned(s, d, frees);
    OnlyMore(s.active, d, q);
    FreeResult(s1, q, q in frees);
    SizesInsert(Only(s.active, d), q, s.active[q]);
    LessMore(s.counters, Only(s.active, d), q, s.active[q]);
    assert (if q in frees then s1.driver - {q} else s1.driver) == s.driver - (d + {q}) * frees;
  }

  lemma ReturnedNone(s: State, frees: set<nat>)
    ensures Returned(s, {}, frees) == s
  {
    assert Only(s.active, {}) == map[] && s.active - {} == s.active && s.driver - {} * frees == s.driver;
    assert Sizes(map[]) == map[] && forall k :: SizesOf(map[], k) == map[];
  }

  lemma {:induction false} ReturnedOk(s: State, d: set<nat>, frees: set<nat>)
    requires Sequential(s) && AllocatorOk(s) && d <= s.active.Keys
    ensures Sequential(Returned(s, d, frees)) && AllocatorOk(Returned(s, d, frees))
    decreases |d|
  {
    hide AllocatorOk, Free, Returned;
    if d == {} {
      ReturnedNone(s, frees);
    } else {
      var q :| q in d;
      var e := d - {q};
      ReturnedOk(s, e, frees);
      ReturnedMore(s, e, q, frees);
      assert e + {q} == d;
      ReturnedKeeps(s, e, q, frees);
      FreeResult(Returned(s, e, frees), q, q in frees);
    }
  }

  lemma ReturnedKeeps(s: State, e: set<nat>, q: nat, frees: set<nat>)
    requires q in s.active && q !in e
    ensures q in Returned(s, e, frees).active
  {
  }

  lemma PurgedNone(p: PoolState, frees: set<nat>)
    ensures Purged(p, {}, frees) == p
  {
    ReturnedNone(p.alloc, frees);
    assert Only(p.nodes, {}) == map[] && p.nodes - {} == p.nodes && Parts(map[], Capacity) == map[];
  }

  /** One turn of the purge loop. */
  lemma PurgedMore(p: PoolState, d: set<nat>, q: nat, frees: set<nat>)
    requires PoolOk(p) && d <= p.nodes.Keys && q in p.nodes && q !in d
    ensures var p1 := Purged(p, d, frees); var n := p.nodes[q];
      && q in p1.nodes && p1.nodes[q] == n && Sequential(p1.alloc)
      && Purged(p, d + {q}, frees) ==
           p1.(nodes := p1.nodes - {q}, alloc := Free(p1.alloc, q, q in frees),
               pooled := p1.pooled - n.capacity, cached := p1.cached - n.capacity)
  {
    hide AllocatorOk, Listed, Counted, Free, Returned;
    OnlyMore(p.nodes, d, q);
    ReturnedOk(p.alloc, d, frees);
    ReturnedMore(p.alloc, d, q, frees);
    SumInsert(Only(p.nodes, d), q, p.nodes[q], Capacity);
  }

  /** After a purge only the buffers in use are left, nothing is cached, and the
      allocator has back exactly the cached bytes. */
  lemma PurgeOk(p: PoolState, frees: set<nat>)
    requires PoolOk(p)
    ensures var p' := Purge(p, frees);
      && PoolOk(p') && p'.cached == 0 && p'.buckets == map[]
      && p'.alloc.total == p.alloc.total - p.cached && p'.alloc.threshold == p.alloc.threshold
      && p'.pooled == p.pooled - p.cached
      && (forall q :: q in p'.nodes <==> q in p.nodes && p.nodes[q].inUse)
      && (forall q :: q in p'.nodes ==> p'.nodes[q] == p.nodes[q])
  {
    hide AllocatorOk, Sum, Total, Sequential, Listed, Less, Sizes;
    var p' := Purge(p, frees);
    assert FreeNodes(p) <= p.alloc.active.Keys;
    ReturnedOk(p.alloc, FreeNodes(p), frees);
    PurgeSums(p.nodes, FreeNodes(p));
    PurgeBytes(p);
    EmptyListed(p');
  }

  lemma EmptyListed(p: PoolState)
    requires p.buckets == map[] && forall q :: q in p.nodes ==> p.nodes[q].inUse
    ensures Listed(p)
  {
    assert forall b :: Bucket(p, b) == [];
  }

  lemma PurgeBytes(p: PoolState)
    requires Backed(p)
    ensures Total(Sizes(Only(p.alloc.active, FreeNodes(p)))) == Sum(Only(p.nodes, FreeNodes(p)), Capacity)
  {
    assert Sizes(Only(p.alloc.active, FreeNodes(p))) == Parts(Only(p.nodes, FreeNodes(p)), Capacity);
  }

  /** The sums over the nodes in use and over the free ones. */
  lemma PurgeSums(nodes: map<nat, Node>, d: set<nat>)
    requires forall q :: q in d <==> q in nodes && !nodes[q].inUse
    ensures Sum(Only(nodes, d), Capacity) == Sum(nodes, FreePart)
    ensures Sum(nodes - d, Capacity) == Sum(nodes, Capacity) - Sum(nodes, FreePart)
    ensures Sum(nodes - d, UsedPart) == Sum(nodes, UsedPart) && Sum(nodes - d, FreePart) == 0
    ensures Sum(nodes - d, AskedPart) == Sum(nodes, AskedPart)
  {
    hide Sum;
    SumSplit(nodes, d, Capacity);
    SumSplit(nodes, d, UsedPart);
    SumSplit(nodes, d, FreePart);
    SumSplit(nodes, d, AskedPart);
    FreeSums(Only(nodes, d));
    UsedSums(nodes - d);
  }

  lemma FreeSums(nodes: map<nat, Node>)
    requires forall q :: q in nodes ==> !nodes[q].inUse
    ensures Sum(nodes, Capacity) == Sum(nodes, FreePart) && Sum(nodes, UsedPart) == 0 == Sum(nodes, AskedPart)
  {
    assert Parts(nodes, Capacity) == Parts(nodes, FreePart);
    TotalZero(Parts(nodes, UsedPart));
    TotalZero(Parts(nodes, AskedPart));
  }

  lemma UsedSums(nodes: map<nat, Node>)
    requires forall q :: q in nodes ==> nodes[q].inUse
    ensures Sum(nodes, FreePart) == 0
  {
    TotalZero(Parts(nodes, FreePart));
  }

  lemma SumSplit(nodes: map<nat, Node>, d: set<nat>, f: Node -> nat)
    ensures Sum(nodes, f) == Sum(Only(nodes, d), f) + Sum(nodes - d, f)
  {
    TotalSplit(Parts(nodes, f), d);
    assert Only(Parts(nodes, f), d) == Parts(Only(nodes, d), f);
    assert Parts(nodes, f) - d == Parts(nodes - d, f);
  }

  // ----- Acquiring -----

  /** a1 and a2 are what the driver answers to the first attempt and to the retry. */
  ghost function Acquire(p: PoolState, bytes: nat, category: Category, a1: Option<nat>, a2: Option<nat>,
                         frees: set<nat>): (r: (Acquired, PoolState))
    requires PoolOk(p)
  {
    if bytes == 0 then (NullBuffer, p)
    else
      var size := BucketSize(bytes);
      var p1 := p.(allocations := p.allocations + 1);
      var v := Bucket(p, size);
      if v != [] then
        BucketNode(p, size, v[|v| - 1]);
        (Buffer(v[|v| - 1]), HitBuffer(p1, size, bytes))
      else
        var p2 := p1.(misses := p.misses + 1);
        var (b, p3) := Attempt(p2, size, bytes, category, a1);
        if b.Address? then (Buffer(b.ptr), p3)
        else
          PurgeOk(p, frees);
          var p4 := Purge(p2, frees).(recoveries := p.recoveries + 1);
          var (c, p5) := Attempt(p4, size, bytes, category, a2);
          (if c.Address? then Buffer(c.ptr) else PoolExhausted, p5)
  }

  /** The attempt after a purge fits the budget. */
  predicate FitsAfterPurge(p: PoolState, size: nat) {
    p.alloc.total - p.cached + size <= p.alloc.threshold
  }

  /** A buffer handed out was not in use, holds the bytes asked for, and no buffer in
      use has changed. */
  ghost predicate HandsOut(p: PoolState, p': PoolState, ptr: nat, bytes: nat) {
    && (ptr in p.nodes ==> !p.nodes[ptr].inUse)
    && ptr in p'.nodes && p'.nodes[ptr].inUse
    && p'.nodes[ptr].requested == bytes <= p'.nodes[ptr].capacity == BucketSize(bytes)
    && forall q :: q in p.nodes && p.nodes[q].inUse ==> q in p'.nodes && p'.nodes[q] == p.nodes[q]
  }

  lemma CountersAside(p: PoolState, allocations: nat, misses: nat, recoveries: nat)
    requires PoolOk(p)
    ensures PoolOk(p.(allocations := allocations, misses := misses, recoveries := recoveries))
  {
    var p' := p.(allocations := allocations, misses := misses, recoveries := recoveries);
    hide AllocatorOk, Sum, NoDup;
    assert forall b :: Bucket(p', b) == Bucket(p, b);
  }

  /** acquire succeeds on a nonzero size exactly when a free buffer of the bucket is
      cached, or the driver consents and the bucket fits the budget as it is, or, the
      cached bytes given back, it fits and the driver consents to the retry. */
  lemma AcquireIff(p: PoolState, bytes: nat, category: Category, a1: Option<nat>, a2: Option<nat>, frees: set<nat>)
    requires PoolOk(p) && bytes > 0
    ensures var (r, p') := Acquire(p, bytes, category, a1, a2, frees); var size := BucketSize(bytes);
      && PoolOk(p') && KeepsLimit(p, p')
      && (r.Buffer? <==>
            || Bucket(p, size) != []
            || (p.alloc.total + size <= p.alloc.threshold && Grants(p.alloc, a1))
            || (FitsAfterPurge(p, size) && Grants(Purge(p, frees).alloc, a2)))
      && (r.Buffer? ==> HandsOut(p, p', r.ptr, bytes))
  {
    var size := BucketSize(bytes);
    if Bucket(p, size) != [] {
      AcquireHit(p, bytes, category, a1, a2, frees);
    } else {
      AcquireMiss(p, bytes, category, a1, a2, frees);
    }
  }

  lemma AcquireHit(p: PoolState, bytes: nat, category: Category, a1: Option<nat>, a2: Option<nat>, frees: set<nat>)
    requires PoolOk(p) && bytes > 0 && Bucket(p, BucketSize(bytes)) != []
    ensures var (r, p') := Acquire(p, bytes, category, a1, a2, frees);
      PoolOk(p') && KeepsLimit(p, p') && r.Buffer? && HandsOut(p, p', r.ptr, bytes)
  {
    hide PoolOk, BucketSize, AlignBytes, Bucket;
    var n := BucketIsLeast(bytes);
    CountersAside(p, p.allocations + 1, p.misses, p.recoveries);
    BucketFrame(p, p.allocations + 1, p.misses, p.recoveries);
    HitOk(p.(allocations := p.allocations + 1), BucketSize(bytes), bytes);
  }

  lemma BucketFrame(p: PoolState, allocations: nat, misses: nat, recoveries: nat)
    ensures var p' := p.(allocations := allocations, misses := misses, recoveries := recoveries);
      forall b :: Bucket(p', b) == Bucket(p, b)
  {
  }

  lemma AcquireMiss(p: PoolState, bytes: nat, category: Category, a1: Option<nat>, a2: Option<nat>, frees: set<nat>)
    requires PoolOk(p) && bytes > 0 && Bucket(p, BucketSize(bytes)) == []
    ensures var (r, p') := Acquire(p, bytes, category, a1, a2, frees); var size := BucketSize(bytes);
      && PoolOk(p') && KeepsLimit(p, p')
      && (r.Buffer? <==>
            || (p.alloc.total + size <= p.alloc.threshold && Grants(p.alloc, a1))
            || (FitsAfterPurge(p, size) && Grants(Purge(p, frees).alloc, a2)))
      && (r.Buffer? ==> HandsOut(p, p', r.ptr, bytes))
  {
    hide PoolOk, BucketSize, AlignBytes, Bucket, Attempt, Purge, Grants;
    var size := BucketSize(bytes);
    var n := BucketIsLeast(bytes);
    CountersAside(p, p.allocations + 1, p.misses + 1, p.recoveries);
    PoolTotals(p);
    var p2 := p.(allocations := p.allocations + 1, misses := p.misses + 1);
    AttemptOk(p2, size, bytes, category, a1);
    PoolSequential(p2);
    if !Attempt(p2, size, bytes, category, a1).0.Address? {
      PurgeOk(p, frees);
      PurgeAside(p, frees, p.allocations + 1, p.misses + 1);
      PurgeOk(p2, frees);
      var q := Purge(p2, frees);
      CountersAside(q, q.allocations, q.misses, p.recoveries + 1);
      AttemptOk(q.(recoveries := p.recoveries + 1), size, bytes, category, a2);
    }
  }

  lemma PoolSequential(p: PoolState)
    requires PoolOk(p)
    ensures Sequential(p.alloc)
  {
  }

  lemma PurgeAside(p: PoolState, frees: set<nat>, allocations: nat, misses: nat)
    ensures Purge(p.(allocations := allocations, misses := misses), frees)
      == Purge(p, frees).(allocations := allocations, misses := misses)
  {
  }

  /** While the driver does not fail, acquire succeeds exactly when the bucket is
      cached or fits the budget without the cached bytes. */
  lemma AcquireSucceeds(p: PoolState, bytes: nat, category: Category, a1: Option<nat>, a2: Option<nat>, frees: set<nat>)
    requires PoolOk(p) && bytes > 0 && Grants(p.alloc, a1) && Grants(Purge(p, frees).alloc, a2)
    ensures Acquire(p, bytes, category, a1, a2, frees).0.Buffer? <==>
      Bucket(p, BucketSize(bytes)) != [] || FitsAfterPurge(p, BucketSize(bytes))
  {
    AcquireIff(p, bytes, category, a1, a2, frees);
    PoolTotals(p);
    hide PoolOk, Grants, Acquire, BucketSize;
  }

  // ----- The counters -----

  function Greater(a: int, b: int): int {
    if a >= b then a else b
  }

  lemma AttemptCounts(p: PoolState, size: nat, bytes: nat, category: Category, answer: Option<nat>)
    requires PoolOk(p) && bytes <= size && size > 0 && AlignBytes(size) == size
    ensures var (a, p') := Attempt(p, size, bytes, category, answer);
      && (a.Address? <==> p.alloc.total + size <= p.alloc.threshold && Grants(p.alloc, answer))
      && (p'.allocations, p'.hits, p'.misses, p'.recoveries) == (p.allocations, p.hits, p.misses, p.recoveries)
      && p'.peak == Greater(p.peak, p'.pooled)
      && p'.frames == p.frames + (if a.Address? then 1 else 0)
      && (a.Address? ==> a.ptr in p'.nodes && p'.nodes[a.ptr].frame == p'.frames
                         && p'.nodes[a.ptr].category == category)
  {
    AttemptOk(p, size, bytes, category, answer);
    PeakAbove(p);
    hide PoolOk, Allocate, Grants, AlignBytes;
  }

  /** What one call of acquire counts. Every call counts one allocation, and one hit or one
      miss; a recovery is counted when the first attempt failed. The peak follows the
      pooled bytes, and the buffer handed out carries the newest frame. */
  lemma AcquireCounts(p: PoolState, bytes: nat, category: Category, a1: Option<nat>, a2: Option<nat>, frees: set<nat>)
    requires PoolOk(p) && bytes > 0
    ensures var (r, p') := Acquire(p, bytes, category, a1, a2, frees); var size := BucketSize(bytes);
      var hit := Bucket(p, size) != [];
      var first := p.alloc.total + size <= p.alloc.threshold && Grants(p.alloc, a1);
      && p'.allocations == p.allocations + 1
      && p'.hits == p.hits + (if hit then 1 else 0) && p'.misses == p.misses + (if hit then 0 else 1)
      && p'.recoveries == p.recoveries + (if hit || first then 0 else 1)
      && p'.peak == Greater(p.peak, p'.pooled)
      && p'.frames == p.frames + (if r.Buffer? then 1 else 0)
      && (r.Buffer? ==> r.ptr in p'.nodes && p'.nodes[r.ptr].frame == p'.frames)
      && (hit ==> r == Buffer(Bucket(p, size)[|Bucket(p, size)| - 1]))
      && (r.Buffer? && !hit ==> p'.nodes[r.ptr].category == category)
  {
    var size := BucketSize(bytes);
    hide BucketSize, AlignBytes, Attempt, Purge, Grants;
    var n := BucketIsLeast(bytes);
    PeakOf(p);
    if Bucket(p, size) != [] {
      BucketNode(p, size, Bucket(p, size)[|Bucket(p, size)| - 1]);
    } else {
      MissCounts(p, bytes, category, a1, a2, frees);
    }
  }

  lemma PeakOf(p: PoolState)
    requires PoolOk(p)
    ensures p.peak >= p.pooled && Listed(p)
  {
  }

  lemma MissCounts(p: PoolState, bytes: nat, category: Category, a1: Option<nat>, a2: Option<nat>, frees: set<nat>)
    requires PoolOk(p) && bytes > 0 && Bucket(p, BucketSize(bytes)) == []
    ensures var (r, p') := Acquire(p, bytes, category, a1, a2, frees); var size := BucketSize(bytes);
      var first := p.alloc.total + size <= p.alloc.threshold && Grants(p.alloc, a1);
      && p'.allocations == p.allocations + 1 && p'.hits == p.hits && p'.misses == p.misses + 1
      && p'.recoveries == p.recoveries + (if first then 0 else 1)
      && p'.peak == Greater(p.peak, p'.pooled)
      && p'.frames == p.frames + (if r.Buffer? then 1 else 0)
      && (r.Buffer? ==> r.ptr in p'.nodes && p'.nodes[r.ptr].frame == p'.frames
                        && p'.nodes[r.ptr].category == category)
  {
    hide PoolOk, BucketSize, AlignBytes, Bucket, Attempt, Purge, Grants;
    var size := BucketSize(bytes);
    var n := BucketIsLeast(bytes);
    CountersAside(p, p.allocations + 1, p.misses + 1, p.recoveries);
    PoolTotals(p);
    PeakOf(p);
    var p2 := p.(allocations := p.allocations + 1, misses := p.misses + 1);
    AttemptOk(p2, size, bytes, category, a1);
    AttemptCounts(p2, size, bytes, category, a1);
    PoolSequential(p2);
    if !Attempt(p2, size, bytes, category, a1).0.Address? {
      PurgeOk(p, frees);
      PurgeOk(p2, frees);
      PurgeCounts(p2, frees);
      var q := Purge(p2, frees);
      CountersAside(q, q.allocations, q.misses, p.recoveries + 1);
      AttemptOk(q.(recoveries := p.recoveries + 1), size, bytes, category, a2);
      AttemptCounts(q.(recoveries := p.recoveries + 1), size, bytes, category, a2);
    }
  }

  lemma PurgeCounts(p: PoolState, frees: set<nat>)
    requires PoolOk(p)
    ensures var p' := Purge(p, frees);
      && (p'.allocations, p'.hits, p'.misses, p'.recoveries) == (p.allocations, p.hits, p.misses, p.recoveries)
      && p'.peak == p.peak && p'.frames == p.frames && p'.pooled <= p.pooled
  {
    PurgeOk(p, frees);
    PoolTotals(p);
    hide PoolOk;
  }

  /** The buffer released last in its bucket is the next one that is handed out. */
  lemma ReleasedIsNext(p: PoolState, ptr: nat, bytes: nat, category: Category, a1: Option<nat>, a2: Option<nat>,
                       frees: set<nat>)
    requires PoolOk(p) && ptr != 0 && ptr in p.nodes && p.nodes[ptr].inUse
    requires bytes > 0 && BucketSize(bytes) == p.nodes[ptr].capacity
    ensures PoolOk(Release(p, ptr)) && Acquire(Release(p, ptr), bytes, category, a1, a2, frees).0 == Buffer(ptr)
  {
    ReleaseOk(p, ptr);
    ReleasedBucket(p, ptr);
    hide PoolOk, Release, BucketSize, Bucket;
    AcquireCounts(Release(p, ptr), bytes, category, a1, a2, frees);
  }

  lemma ReleasedBucket(p: PoolState, ptr: nat)
    requires ptr != 0 && ptr in p.nodes && p.nodes[ptr].inUse
    ensures Bucket(Release(p, ptr), p.nodes[ptr].capacity) == Bucket(p, p.nodes[ptr].capacity) + [ptr]
  {
  }

  // ----- Every run of the pool -----

  datatype PoolOp =
    | DoAcquire(bytes: nat, category: Category, a1: Option<nat>, a2: Option<nat>, frees: set<nat>)
    | DoRelease(ptr: nat)
    | DoPurge(frees: set<nat>)

  ghost function StepPool(p: PoolState, op: PoolOp): PoolState
    requires PoolOk(p)
  {
    match op
    case DoAcquire(bytes, category, a1, a2, frees) => Acquire(p, bytes, category, a1, a2, frees).1
    case DoRelease(ptr) => Release(p, ptr)
    case DoPurge(frees) => Purge(p, frees)
  }

  lemma StepPoolOk(p: PoolState, op: PoolOp)
    requires PoolOk(p)
    ensures PoolOk(StepPool(p, op)) && KeepsLimit(p, StepPool(p, op))
  {
    hide PoolOk, Release, Purge, Acquire;
    match op
    case DoAcquire(bytes, category, a1, a2, frees) =>
      if bytes == 0 {
        AcquireNothing(p, category, a1, a2, frees);
      } else {
        AcquireIff(p, bytes, category, a1, a2, frees);
      }
    case DoRelease(ptr) =>
      ReleaseOk(p, ptr);
      ReleaseLimit(p, ptr);
    case DoPurge(frees) =>
      PoolTotals(p);
      PurgeOk(p, frees);
  }

  lemma ReleaseLimit(p: PoolState, ptr: nat)
    ensures Release(p, ptr).alloc == p.alloc
  {
  }

  lemma AcquireNothing(p: PoolState, category: Category, a1: Option<nat>, a2: Option<nat>, frees: set<nat>)
    requires PoolOk(p)
    ensures Acquire(p, 0, category, a1, a2, frees) == (NullBuffer, p)
  {
  }

  /** Whatever is done, the peak is the greatest number of bytes pooled so far, and only
      acquiring counts. */
  lemma StepPoolCounts(p: PoolState, op: PoolOp)
    requires PoolOk(p)
    ensures var p' := StepPool(p, op);
      && p'.peak == Greater(p.peak, p'.pooled)
      && p'.hits + p'.misses - p'.allocations == p.hits + p.misses - p.allocations
      && p'.allocations == p.allocations + (if op.DoAcquire? && op.bytes > 0 then 1 else 0)
  {
    PeakOf(p);
    hide PoolOk, Purge, Acquire, Bucket, BucketSize;
    match op
    case DoAcquire(bytes, category, a1, a2, frees) =>
      if bytes == 0 {
        AcquireNothing(p, category, a1, a2, frees);
      } else {
        AcquireCounts(p, bytes, category, a1, a2, frees);
      }
    case DoRelease(ptr) =>
    case DoPurge(frees) => PurgeCounts(p, frees);
  }

  ghost predicate PoolReaches(p0: PoolState, ops: seq<PoolOp>, p: PoolState) {
    if ops == [] then p == p0
    else
      var u, op := ops[..|ops| - 1], ops[|ops| - 1];
      exists p1 :: PoolReaches(p0, u, p1) && PoolOk(p1) && p == StepPool(p1, op)
  }

  /** In every run of acquire, release and purge the buckets, the nodes, the byte
      counters and the allocator agree, and the allocator stays within its limit. */
  lemma {:induction false} EveryPoolRun(p0: PoolState, ops: seq<PoolOp>, p: PoolState)
    requires PoolOk(p0) && p0.alloc.total <= p0.alloc.threshold && PoolReaches(p0, ops, p)
    ensures PoolOk(p) && p.pooled == p.active + p.cached && 0 <= p.requested <= p.active
    ensures p.pooled <= p.alloc.total <= p.alloc.threshold == p0.alloc.threshold
    ensures p.hits + p.misses - p.allocations == p0.hits + p0.misses - p0.allocations
    decreases |ops|
  {
    hide PoolOk, StepPool;
    if ops != [] {
      var u, op := ops[..|ops| - 1], ops[|ops| - 1];
      var p1 :| PoolReaches(p0, u, p1) && PoolOk(p1) && p == StepPool(p1, op);
      EveryPoolRun(p0, u, p1);
      StepPoolOk(p1, op);
      StepPoolCounts(p1, op);
    }
    PoolTotals(p);
  }
}
