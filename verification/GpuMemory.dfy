/** The block allocator and the buffer pool themselves: the fields the source
    updates in place, and methods that take the abstract state where the functions
    of Pool do, as long as one thread calls them at a time. */
module GpuMemory {
  import opened Wrappers
  import opened Sums
  import opened Allocator
  import opened Pool

  class BlockAllocator {
    const threshold: nat
    var activeAllocations: map<nat, Handle>
    var totalAllocated: int
    var categoryAllocated: Counters
    var peakAllocated: int
    var driver: set<nat>

    ghost function View(): State
      reads this
    {
      State(threshold, activeAllocations, totalAllocated, categoryAllocated, peakAllocated, driver, map[0 := Idle])
    }

    ghost predicate Valid()
      reads this
    {
      AllocatorOk(View())
    }

    constructor (threshold: nat)
      ensures Valid() && View() == Initial(threshold, {0})
    {
      this.threshold := threshold;
      activeAllocations, totalAllocated, peakAllocated, driver := map[], 0, 0, {};
      categoryAllocated := Counters(0, 0, 0, 0);
      new;
      InitialOk(threshold, {0});
      assert Initial(threshold, {0}).threads == map[0 := Idle];
    }

    /** answer is the address cudaMallocAsync returns, if it succeeds. */
    method Allocate(bytes: nat, category: Category, answer: Option<nat>) returns (r: Allocated)
      requires Valid()
      modifies this
      ensures Valid() && (r, View()) == Pool.Allocate(old(View()), bytes, category, answer)
    {
      hide AllocatorOk, Pool.Allocate, Plus;
      AllocateResult(View(), bytes, category, answer);
      if bytes == 0 {
        return NullPtr;
      }
      var aligned := AlignBytes(bytes);
      if totalAllocated + aligned > threshold {
        return OutOfMemory;
      }
      if answer.None? || answer.value == 0 || answer.value in driver {
        return OutOfMemory;
      }
      var ptr := answer.value;
      driver := driver + {ptr};
      activeAllocations := activeAllocations[ptr := Handle(aligned, category)];
      totalAllocated := totalAllocated + aligned;
      categoryAllocated := Plus(categoryAllocated, category, aligned);
      peakAllocated := if peakAllocated > totalAllocated then peakAllocated else totalAllocated;
      r := Address(ptr);
    }

    /** ok says whether cudaFreeAsync succeeds. */
    method Free(ptr: nat, ok: bool)
      requires Valid()
      modifies this
      ensures Valid() && View() == Pool.Free(old(View()), ptr, ok)
    {
      hide AllocatorOk, Pool.Free, Plus;
      FreeResult(View(), ptr, ok);
      NullNotRecorded(View());
      if ptr == 0 || ptr !in activeAllocations {
        return;
      }
      var h := activeAllocations[ptr];
      activeAllocations := activeAllocations - {ptr};
      totalAllocated := totalAllocated - h.size;
      categoryAllocated := Plus(categoryAllocated, h.category, -(h.size as int));
      if ok {
        driver := driver - {ptr};
      }
    }

    method ResetPeakStats()
      requires Valid()
      modifies this
      ensures Valid() && View() == Next(old(View()), ResetPeak)
    {
      NextOk(View(), ResetPeak);
      peakAllocated := totalAllocated;
    }
  }

  lemma NullNotRecorded(s: State)
    requires AllocatorOk(s)
    ensures 0 !in s.active
  {
  }

  class BufferPool {
    const allocator: BlockAllocator
    var poolNodes: map<nat, Node>
    var freeBuckets: map<nat, seq<nat>>
    var totalPooled: int
    var activeBytes: int
    var freeCached: int
    var peakPooled: int
    var totalRequested: int
    var totalAllocations: nat
    var poolHits: nat
    var poolMisses: nat
    var oomPurgeRecoveries: nat
    var frameCounter: nat

    ghost function View(): PoolState
      reads this, allocator
    {
      PoolState(allocator.View(), poolNodes, freeBuckets, totalPooled, activeBytes, freeCached, peakPooled,
                totalRequested, totalAllocations, poolHits, poolMisses, oomPurgeRecoveries, frameCounter)
    }

    ghost predicate Valid()
      reads this, allocator
    {
      PoolOk(View())
    }

    constructor (allocator: BlockAllocator)
      requires allocator.Valid()
      ensures Valid() && this.allocator == allocator
      ensures View() == PoolState(allocator.View(), map[], map[], 0, 0, 0, 0, 0, 0, 0, 0, 0, 0)
    {
      this.allocator := allocator;
      poolNodes, freeBuckets := map[], map[];
      totalPooled, activeBytes, freeCached, peakPooled, totalRequested := 0, 0, 0, 0, 0;
      totalAllocations, poolHits, poolMisses, oomPurgeRecoveries, frameCounter := 0, 0, 0, 0, 0;
      new;
      EmptyPool(View());
    }

    /** The doubling loop; the shift does not overflow up to 2^63 bytes. */
    static method CalculateBucketSize(bytes: nat) returns (power: nat)
      requires bytes <= 0x8000_0000_0000_0000
      ensures power == BucketSize(bytes) <= 0x8000_0000_0000_0000
    {
      if bytes == 0 {
        return 256;
      }
      power := 256;
      ghost var k := 8;
      Pow2Eight();
      Pow2SixtyThree();
      while power < bytes
        invariant power > 0 && Doubled(256, bytes) == Doubled(power, bytes)
        invariant power == Pow2(k) <= 0x8000_0000_0000_0000
        decreases if power < bytes then bytes - power else 0
      {
        Pow2Monotone(63, k);
        Pow2Monotone(k + 1, 63);
        k := k + 1;
        power := 2 * power;
      }
    }

    method AttemptAllocation(size: nat, bytes: nat, category: Category, answer: Option<nat>) returns (r: Allocated)
      requires Valid() && bytes <= size && size > 0 && AlignBytes(size) == size
      modifies this, allocator
      ensures Valid() && (r, View()) == Attempt(old(View()), size, bytes, category, answer)
    {
      hide PoolOk, AllocatorOk, Pool.Allocate, AlignBytes, Grants, Sequential;
      AttemptKeeps(View(), size, bytes, category, answer);
      PoolAllocator(View());
      r := allocator.Allocate(size, category, answer);
      if r.Address? {
        frameCounter := frameCounter + 1;
        poolNodes := poolNodes[r.ptr := Node(size, bytes, category, true, frameCounter)];
        totalPooled := totalPooled + size;
        activeBytes := activeBytes + size;
        totalRequested := totalRequested + bytes;
        peakPooled := if peakPooled > totalPooled then peakPooled else totalPooled;
      }
    }

    method Release(ptr: nat)
      requires Valid()
      modifies this
      ensures Valid() && View() == Pool.Release(old(View()), ptr)
    {
      hide PoolOk;
      ReleaseOk(View(), ptr);
      if ptr == 0 || ptr !in poolNodes {
        return;
      }
      var n := poolNodes[ptr];
      if !n.inUse {
        return;
      }
      poolNodes := poolNodes[ptr := n.(inUse := false)];
      activeBytes := activeBytes - n.capacity;
      totalRequested := totalRequested - n.requested;
      freeCached := freeCached + n.capacity;
      var bucket := if n.capacity in freeBuckets then freeBuckets[n.capacity] else [];
      freeBuckets := freeBuckets[n.capacity := bucket + [ptr]];
    }

    /** Gives one free buffer back to the allocator. */
    method PurgeOne(ptr: nat, frees: set<nat>, ghost p: PoolState, ghost d: set<nat>) returns (bytes: nat)
      requires PoolOk(p) && d <= p.nodes.Keys && ptr in p.nodes && ptr !in d
      requires View() == Purged(p, d, frees)
      modifies this, allocator
      ensures View() == Purged(p, d + {ptr}, frees) && bytes == p.nodes[ptr].capacity
    {
      hide PoolOk, Purged, Pool.Free, AllocatorOk, Sequential;
      PurgedMore(p, d, ptr, frees);
      PurgedAllocator(p, d, frees);
      bytes := poolNodes[ptr].capacity;
      poolNodes := poolNodes - {ptr};
      allocator.Free(ptr, ptr in frees);
      totalPooled := totalPooled - bytes;
      freeCached := freeCached - bytes;
    }

    /** One bucket of the purge loop. */
    method PurgeBucket(bucket: seq<nat>, frees: set<nat>, ghost p: PoolState, ghost d: set<nat>) returns (bytes: nat)
      requires PoolOk(p) && d <= p.nodes.Keys && View() == Purged(p, d, frees)
      requires NoDup(bucket) && forall q :: q in bucket ==> q in p.nodes && q !in d
      modifies this, allocator
      ensures View() == Purged(p, d + Members(bucket), frees)
      ensures bytes == Pool.Sum(Only(p.nodes, Members(bucket)), Capacity)
    {
      hide PoolOk, Purged, Pool.Sum, Members, Only;
      bytes := 0;
      var i := 0;
      MembersNone(bucket, d);
      SumNothing(p.nodes);
      while i < |bucket|
        invariant 0 <= i <= |bucket|
        invariant View() == Purged(p, d + Members(bucket[..i]), frees)
        invariant bytes == Pool.Sum(Only(p.nodes, Members(bucket[..i])), Capacity)
      {
        ghost var e := Members(bucket[..i]);
        MembersNext(bucket, i, d);
        MembersInside(bucket, i, p.nodes.Keys);
        OnlyMore(p.nodes, e, bucket[i]);
        SumInsert(Only(p.nodes, e), bucket[i], p.nodes[bucket[i]], Capacity);
        var n := PurgeOne(bucket[i], frees, p, d + e);
        bytes := bytes + n;
        i := i + 1;
      }
      assert bucket[..i] == bucket;
    }

    /** Gives every free buffer back, bucket by bucket in any order. */
    method PurgeFreeBuffers(frees: set<nat>) returns (bytesPurged: nat)
      requires Valid()
      modifies this, allocator
      ensures Valid() && View() == Purge(old(View()), frees) && bytesPurged == old(freeCached)
    {
      hide PoolOk, Purged, Pool.Sum, Members, Only, CachedIn;
      ghost var p := View();
      PurgeOk(p, frees);
      var buckets := freeBuckets;
      var left := buckets.Keys;
      ghost var done: set<nat> := {};
      CachedInNone(p, frees);
      bytesPurged := 0;
      while left != {}
        invariant left <= buckets.Keys && done == buckets.Keys - left
        invariant View() == Purged(p, CachedIn(p, done), frees)
        invariant bytesPurged == Pool.Sum(Only(p.nodes, CachedIn(p, done)), Capacity)
        decreases |left|
      {
        var size :| size in left;
        CachedInNext(p, done, size);
        var n := PurgeBucket(buckets[size], frees, p, CachedIn(p, done));
        bytesPurged := bytesPurged + n;
        done := done + {size};
        left := left - {size};
      }
      assert done == buckets.Keys;
      CachedInAll(p, frees);
      freeBuckets := map[];
    }

    method Acquire(bytes: nat, category: Category, a1: Option<nat>, a2: Option<nat>, frees: set<nat>)
      returns (r: Acquired)
      requires Valid() && bytes <= 0x8000_0000_0000_0000
      modifies this, allocator
      ensures Valid() && (r, View()) == Pool.Acquire(old(View()), bytes, category, a1, a2, frees)
    {
      hide PoolOk, Attempt, Purge, BucketSize, AlignBytes;
      ghost var p := View();
      AcquireKeeps(p, bytes, category, a1, a2, frees);
      if bytes == 0 {
        return NullBuffer;
      }
      ghost var n := BucketIsLeast(bytes);
      var size := CalculateBucketSize(bytes);
      totalAllocations := totalAllocations + 1;
      if size in freeBuckets && freeBuckets[size] != [] {
        r := TakeCached(size, bytes);
        return;
      }
      poolMisses := poolMisses + 1;
      CountersAside(p, p.allocations + 1, p.misses + 1, p.recoveries);
      ghost var p2 := p.(allocations := p.allocations + 1, misses := p.misses + 1);
      assert View() == p2;
      var a := AttemptAllocation(size, bytes, category, a1);
      if a.Address? {
        return Buffer(a.ptr);
      }
      AttemptFailed(p2, size, bytes, category, a1);
      var purged := PurgeFreeBuffers(frees);
      oomPurgeRecoveries := oomPurgeRecoveries + 1;
      PurgedCounters(p, frees, p.allocations + 1, p.misses + 1, p.recoveries + 1);
      assert View() == Purge(p2, frees).(recoveries := p.recoveries + 1);
      a := AttemptAllocation(size, bytes, category, a2);
      r := if a.Address? then Buffer(a.ptr) else PoolExhausted;
    }

    /** A cached buffer is taken from the back of its bucket. */
    method TakeCached(size: nat, bytes: nat) returns (r: Acquired)
      requires Bucket(View(), size) != [] && Bucket(View(), size)[|Bucket(View(), size)| - 1] in poolNodes
      modifies this
      ensures View() == HitBuffer(old(View()), size, bytes)
      ensures var v := Bucket(old(View()), size); r == Buffer(v[|v| - 1])
    {
      var v := freeBuckets[size];
      var ptr := v[|v| - 1];
      freeBuckets := freeBuckets[size := v[..|v| - 1]];
      frameCounter := frameCounter + 1;
      poolNodes := poolNodes[ptr := poolNodes[ptr].(inUse := true, requested := bytes, frame := frameCounter)];
      freeCached := freeCached - size;
      activeBytes := activeBytes + size;
      totalRequested := totalRequested + bytes;
      poolHits := poolHits + 1;
      r := Buffer(ptr);
    }
  }

  /** The free nodes of some capacities. */
  ghost function CachedIn(p: PoolState, sizes: set<nat>): set<nat> {
    set q | q in p.nodes && !p.nodes[q].inUse && p.nodes[q].capacity in sizes
  }

  lemma CachedInNone(p: PoolState, frees: set<nat>)
    ensures Purged(p, CachedIn(p, {}), frees) == p && Pool.Sum(Only(p.nodes, CachedIn(p, {})), Capacity) == 0
  {
    assert CachedIn(p, {}) == {};
    PurgedNone(p, frees);
    SumNothing(p.nodes);
  }

  lemma CachedInNext(p: PoolState, sizes: set<nat>, size: nat)
    requires PoolOk(p) && size in p.buckets && size !in sizes
    ensures CachedIn(p, sizes) <= p.nodes.Keys && NoDup(p.buckets[size])
    ensures forall q :: q in p.buckets[size] ==> q in p.nodes && q !in CachedIn(p, sizes)
    ensures CachedIn(p, sizes + {size}) == CachedIn(p, sizes) + Members(p.buckets[size])
    ensures Pool.Sum(Only(p.nodes, CachedIn(p, sizes + {size})), Capacity)
      == Pool.Sum(Only(p.nodes, CachedIn(p, sizes)), Capacity)
         + Pool.Sum(Only(p.nodes, Members(p.buckets[size])), Capacity)
  {
    hide AllocatorOk, Counted, NoDup, Pool.Sum;
    assert Bucket(p, size) == p.buckets[size];
    var a, b := CachedIn(p, sizes), Members(p.buckets[size]);
    SumSplit(Only(p.nodes, a + b), a, Capacity);
    assert Only(Only(p.nodes, a + b), a) == Only(p.nodes, a) && Only(p.nodes, a + b) - a == Only(p.nodes, b);
  }

  lemma CachedInAll(p: PoolState, frees: set<nat>)
    requires PoolOk(p)
    ensures Purged(p, CachedIn(p, p.buckets.Keys), frees).(buckets := map[]) == Purge(p, frees)
    ensures Pool.Sum(Only(p.nodes, CachedIn(p, p.buckets.Keys)), Capacity) == p.cached
  {
    hide AllocatorOk, Counted, NoDup, Pool.Sum, Purged;
    assert CachedIn(p, p.buckets.Keys) == FreeNodes(p) by {
      forall q | q in FreeNodes(p) ensures p.nodes[q].capacity in p.buckets {
        assert q in Bucket(p, p.nodes[q].capacity);
      }
    }
    PurgeSums(p.nodes, FreeNodes(p));
    CachedTotal(p);
  }

  lemma CachedTotal(p: PoolState)
    requires PoolOk(p)
    ensures p.cached == Pool.Sum(p.nodes, FreePart)
  {
  }

  lemma AcquireKeeps(p: PoolState, bytes: nat, category: Category, a1: Option<nat>, a2: Option<nat>, frees: set<nat>)
    requires PoolOk(p)
    ensures PoolOk(Pool.Acquire(p, bytes, category, a1, a2, frees).1)
    ensures forall b :: Bucket(p, b) != [] ==> Bucket(p, b)[|Bucket(p, b)| - 1] in p.nodes
  {
    hide PoolOk, Bucket, Pool.Acquire;
    if bytes > 0 {
      AcquireIff(p, bytes, category, a1, a2, frees);
    } else {
      AcquireNothing(p, category, a1, a2, frees);
    }
    BucketsInside(p);
  }

  lemma BucketsInside(p: PoolState)
    requires PoolOk(p)
    ensures forall b :: Bucket(p, b) != [] ==> Bucket(p, b)[|Bucket(p, b)| - 1] in p.nodes
  {
    hide Sequential, AllocatorOk, Backed, Counted, NoDup;
    forall b | Bucket(p, b) != [] ensures Bucket(p, b)[|Bucket(p, b)| - 1] in p.nodes {
      assert Bucket(p, b)[|Bucket(p, b)| - 1] in Bucket(p, b);
    }
  }

  lemma AttemptFailed(p: PoolState, size: nat, bytes: nat, category: Category, answer: Option<nat>)
    requires PoolOk(p) && bytes <= size && size > 0 && AlignBytes(size) == size
    ensures Sequential(p.alloc)
    ensures !Attempt(p, size, bytes, category, answer).0.Address? ==> Attempt(p, size, bytes, category, answer).1 == p
  {
    AttemptOk(p, size, bytes, category, answer);
  }

  lemma PurgedCounters(p: PoolState, frees: set<nat>, allocations: nat, misses: nat, recoveries: nat)
    requires PoolOk(p)
    ensures PoolOk(Purge(p.(allocations := allocations, misses := misses), frees).(recoveries := recoveries))
    ensures Purge(p.(allocations := allocations, misses := misses), frees).recoveries == p.recoveries
  {
    CountersAside(p, allocations, misses, p.recoveries);
    var q := Purge(p.(allocations := allocations, misses := misses), frees);
    PurgeOk(p.(allocations := allocations, misses := misses), frees);
    CountersAside(q, q.allocations, q.misses, recoveries);
  }

  function Members(s: seq<nat>): set<nat> {
    set q | q in s
  }

  lemma MembersNone(s: seq<nat>, d: set<nat>)
    ensures Members(s[..0]) == {} && d + Members(s[..0]) == d
  {
  }

  lemma MembersNext(s: seq<nat>, i: nat, d: set<nat>)
    requires NoDup(s) && i < |s| && s[i] !in d
    ensures s[i] in s && s[i] !in Members(s[..i]) && s[i] !in d + Members(s[..i])
    ensures Members(s[..i + 1]) == Members(s[..i]) + {s[i]}
    ensures d + Members(s[..i + 1]) == d + Members(s[..i]) + {s[i]}
  {
  }

  lemma MembersInside(s: seq<nat>, i: nat, keys: set<nat>)
    requires i <= |s| && forall q :: q in s ==> q in keys
    ensures Members(s[..i]) <= keys
  {
  }

  lemma AttemptKeeps(p: PoolState, size: nat, bytes: nat, category: Category, answer: Option<nat>)
    requires PoolOk(p) && bytes <= size && size > 0 && AlignBytes(size) == size
    ensures Sequential(p.alloc) && PoolOk(Attempt(p, size, bytes, category, answer).1)
  {
    AttemptOk(p, size, bytes, category, answer);
  }

  lemma SumNothing(nodes: map<nat, Node>)
    ensures Pool.Sum(Only(nodes, {}), Capacity) == 0
  {
    assert Parts(Only(nodes, {}), Capacity) == map[];
  }

  lemma EmptyPool(p: PoolState)
    requires Sequential(p.alloc) && AllocatorOk(p.alloc) && p.nodes == map[] && p.buckets == map[]
    requires p.pooled == p.active == p.cached == p.peak == p.requested == 0
    ensures PoolOk(p)
  {
    assert forall f: Node -> nat :: Parts(p.nodes, f) == map[];
    EmptyListed(p);
  }

  lemma PoolAllocator(p: PoolState)
    requires PoolOk(p)
    ensures AllocatorOk(p.alloc) && Sequential(p.alloc)
  {
  }

  lemma PurgedAllocator(p: PoolState, d: set<nat>, frees: set<nat>)
    requires PoolOk(p) && d <= p.nodes.Keys
    ensures AllocatorOk(Purged(p, d, frees).alloc)
  {
    ReturnedOk(p.alloc, d, frees);
  }

  lemma Pow2SixtyThree()
    ensures Pow2(63) == 0x8000_0000_0000_0000
  {
    hide Pow2;
    Pow2Shift(63);
    Pow2Shift(55);
    Pow2Shift(47);
    Pow2Shift(39);
    Pow2Shift(31);
    Pow2Shift(23);
    Pow2Shift(15);
    Pow2Seven();
  }

  lemma Pow2Seven()
    ensures Pow2(7) == 128
  {
    assert Pow2(4) == 16;
  }
}
