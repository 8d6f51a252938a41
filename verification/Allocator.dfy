/** The block allocator under concurrent threads. allocate drops its lock between
    the budget check and the record, so a call is several atomic steps, and a state
    says for every thread how far its call has got. Addresses are numbers, and 0 is
    the null pointer; driver is the set of addresses the CUDA driver has handed out. */
module Allocator {
  import opened Sums

  datatype Category = Weights | Activations | Workspace | KvCache

  datatype Handle = Handle(size: nat, category: Category)

  /** A call passed the budget check; was given an address that is not recorded yet;
      has erased a record whose address the driver still holds. */
  datatype Phase =
    | Idle
    | Checked(size: nat, category: Category)
    | Mapped(ptr: nat, size: nat, category: Category)
    | Releasing(ptr: nat)

  datatype Counters = Counters(weights: int, activations: int, workspace: int, kvCache: int)

  datatype State = State(
    threshold: nat, active: map<nat, Handle>, total: int, counters: Counters, peak: int,
    driver: set<nat>, threads: map<nat, Phase>)

  datatype Op =
    | Check(t: nat, bytes: nat, category: Category)
    | DriverGrants(t: nat, ptr: nat)
    | DriverRefuses(t: nat)
    | Record(t: nat)
    | Erase(t: nat, ptr: nat)
    | DriverFrees(t: nat, ok: bool)
    | ResetPeak

  /** (bytes + 255) & ~255 */
  function AlignBytes(bytes: nat): nat {
    bytes + 255 - (bytes + 255) % 256
  }

  /** The least multiple of 256 that holds the bytes. */
  lemma AlignIsLeast(bytes: nat, n: nat)
    ensures AlignBytes(bytes) % 256 == 0 && AlignBytes(bytes) >= bytes
    ensures n >= bytes && n % 256 == 0 ==> AlignBytes(bytes) <= n
    ensures bytes % 256 == 0 ==> AlignBytes(bytes) == bytes
  {
  }

  function Get(c: Counters, k: Category): int {
    match k
    case Weights => c.weights
    case Activations => c.activations
    case Workspace => c.workspace
    case KvCache => c.kvCache
  }

  function Plus(c: Counters, k: Category, n: int): Counters {
    match k
    case Weights => c.(weights := c.weights + n)
    case Activations => c.(activations := c.activations + n)
    case Workspace => c.(workspace := c.workspace + n)
    case KvCache => c.(kvCache := c.kvCache + n)
  }

  function Passes(s: State, bytes: nat): bool {
    bytes > 0 && s.total + AlignBytes(bytes) <= s.threshold
  }

  predicate Enabled(s: State, op: Op) {
    match op
    case Check(t, _, _) => t in s.threads && s.threads[t].Idle?
    case DriverGrants(t, ptr) => t in s.threads && s.threads[t].Checked? && ptr != 0 && ptr !in s.driver
    case DriverRefuses(t) => t in s.threads && s.threads[t].Checked?
    case Record(t) => t in s.threads && s.threads[t].Mapped?
    case Erase(t, _) => t in s.threads && s.threads[t].Idle?
    case DriverFrees(t, _) => t in s.threads && s.threads[t].Releasing?
    case ResetPeak => true
  }

  function Next(s: State, op: Op): State
    requires Enabled(s, op)
  {
    match op
    case Check(t, bytes, category) =>
      if Passes(s, bytes) then s.(threads := s.threads[t := Checked(AlignBytes(bytes), category)]) else s
    case DriverGrants(t, ptr) =>
      s.(threads := s.threads[t := Mapped(ptr, s.threads[t].size, s.threads[t].category)], driver := s.driver + {ptr})
    case DriverRefuses(t) => s.(threads := s.threads[t := Idle])
    case Record(t) =>
      var p := s.threads[t];
      var total := s.total + p.size;
      s.(active := s.active[p.ptr := Handle(p.size, p.category)],
         total := total,
         counters := Plus(s.counters, p.category, p.size),
         peak := if s.peak > total then s.peak else total,
         threads := s.threads[t := Idle])
    case Erase(t, ptr) =>
      if ptr == 0 || ptr !in s.active then s
      else
        var h := s.active[ptr];
        s.(active := s.active - {ptr},
           total := s.total - h.size,
           counters := Plus(s.counters, h.category, -(h.size as int)),
           threads := s.threads[t := Releasing(ptr)])
    case DriverFrees(t, ok) =>
      s.(driver := if ok then s.driver - {s.threads[t].ptr} else s.driver, threads := s.threads[t := Idle])
    case ResetPeak => s.(peak := s.total)
  }

  function Initial(threshold: nat, threads: set<nat>): State {
    State(threshold, map[], 0, Counters(0, 0, 0, 0), 0, {}, map t | t in threads :: Idle)
  }

  // ----- The invariant -----

  function Sizes(active: map<nat, Handle>): map<nat, nat> {
    map p | p in active :: active[p].size
  }

  function SizesOf(active: map<nat, Handle>, k: Category): map<nat, nat> {
    map p | p in active :: Share(active[p], k)
  }

  function Pending(p: Phase): nat {
    if p.Checked? || p.Mapped? then p.size else 0
  }

  function Pendings(threads: map<nat, Phase>): map<nat, nat> {
    map t | t in threads :: Pending(threads[t])
  }

  /** Bytes that passed the check but are not recorded. */
  ghost function InFlight(s: State): nat {
    Total(Pendings(s.threads))
  }

  /** The address a thread holds in between. */
  predicate Holds(p: Phase, ptr: nat) {
    (p.Mapped? && p.ptr == ptr) || (p.Releasing? && p.ptr == ptr)
  }

  /** Recorded addresses are the driver's, and no thread in between holds one of
      them or an address of another thread. */
  ghost predicate Separate(s: State) {
    && s.active.Keys <= s.driver && 0 !in s.active
    && (forall t, p :: t in s.threads && Holds(s.threads[t], p) ==> p in s.driver && p !in s.active && p != 0)
    && (forall t, t', p :: t in s.threads && t' in s.threads && Holds(s.threads[t], p) && Holds(s.threads[t'], p) ==>
          t == t')
  }

  ghost predicate Balanced(s: State) {
    && s.total == Total(Sizes(s.active))
    && Shares(s.counters, s.active)
    && s.total == s.counters.weights + s.counters.activations + s.counters.workspace + s.counters.kvCache
    && s.peak >= s.total
  }

  ghost predicate AllocatorOk(s: State) {
    Separate(s) && Balanced(s)
  }

  lemma InitialOk(threshold: nat, threads: set<nat>)
    ensures AllocatorOk(Initial(threshold, threads)) && InFlight(Initial(threshold, threads)) == 0
  {
    TotalZero(Pendings(Initial(threshold, threads).threads));
    assert forall k :: SizesOf(map[], k) == map[];
  }

  /** Recording never overwrites a live entry. */
  lemma RecordIsFresh(s: State, t: nat)
    requires AllocatorOk(s) && Enabled(s, Record(t))
    ensures s.threads[t].ptr !in s.active && s.threads[t].ptr in s.driver
  {
    assert Holds(s.threads[t], s.threads[t].ptr);
  }

  function Share(h: Handle, k: Category): nat {
    if h.category == k then h.size else 0
  }

  lemma SizesInsert(active: map<nat, Handle>, p: nat, h: Handle)
    requires p !in active
    ensures Total(Sizes(active[p := h])) == Total(Sizes(active)) + h.size
    ensures forall k :: Total(SizesOf(active[p := h], k)) == Total(SizesOf(active, k)) + Share(h, k)
  {
    TotalInsert(Sizes(active), p, h.size);
    assert Sizes(active)[p := h.size] == Sizes(active[p := h]);
    forall k ensures Total(SizesOf(active[p := h], k)) == Total(SizesOf(active, k)) + Share(h, k) {
      ShareInsert(active, p, h, k);
    }
  }

  lemma ShareInsert(active: map<nat, Handle>, p: nat, h: Handle, k: Category)
    requires p !in active
    ensures Total(SizesOf(active[p := h], k)) == Total(SizesOf(active, k)) + Share(h, k)
  {
    TotalInsert(SizesOf(active, k), p, Share(h, k));
    assert SizesOf(active, k)[p := Share(h, k)] == SizesOf(active[p := h], k);
  }

  lemma SizesErase(active: map<nat, Handle>, p: nat)
    requires p in active
    ensures Total(Sizes(active)) == Total(Sizes(active - {p})) + active[p].size
    ensures forall k :: Total(SizesOf(active, k)) == Total(SizesOf(active - {p}, k)) + Share(active[p], k)
  {
    SizesInsert(active - {p}, p, active[p]);
    assert (active - {p})[p := active[p]] == active;
  }

  ghost predicate Shares(counters: Counters, active: map<nat, Handle>) {
    forall k :: Get(counters, k) == Total(SizesOf(active, k))
  }

  lemma PlusGet(c: Counters, k: Category, n: int)
    ensures forall j :: Get(Plus(c, k, n), j) == Get(c, j) + if j == k then n else 0
    ensures var c' := Plus(c, k, n);
      c'.weights + c'.activations + c'.workspace + c'.kvCache == c.weights + c.activations + c.workspace + c.kvCache + n
  {
  }

  lemma SharesInsert(counters: Counters, active: map<nat, Handle>, p: nat, h: Handle)
    requires p !in active
    ensures Shares(counters, active) <==> Shares(Plus(counters, h.category, h.size), active[p := h])
  {
    hide Get, Plus, SizesOf;
    SizesInsert(active, p, h);
    PlusGet(counters, h.category, h.size);
  }

  lemma PlusMinus(c: Counters, k: Category, n: int)
    ensures Plus(Plus(c, k, -n), k, n) == c
  {
  }

  lemma NextBalanced(s: State, op: Op)
    requires AllocatorOk(s) && Enabled(s, op)
    ensures Balanced(Next(s, op))
  {
    hide Separate, Sizes, Shares, Plus, Get;
    match op
    case Record(t) =>
      var h := Handle(s.threads[t].size, s.threads[t].category);
      RecordIsFresh(s, t);
      SizesInsert(s.active, s.threads[t].ptr, h);
      SharesInsert(s.counters, s.active, s.threads[t].ptr, h);
      PlusGet(s.counters, h.category, h.size);
    case Erase(t, ptr) =>
      if ptr != 0 && ptr in s.active {
        var h := s.active[ptr];
        SizesErase(s.active, ptr);
        PlusMinus(s.counters, h.category, h.size);
        SharesInsert(Plus(s.counters, h.category, -(h.size as int)), s.active - {ptr}, ptr, h);
        assert (s.active - {ptr})[ptr := h] == s.active;
        PlusGet(s.counters, h.category, -(h.size as int));
      }
    case _ =>
  }

  lemma NextSeparate(s: State, op: Op)
    requires Separate(s) && Enabled(s, op)
    ensures Separate(Next(s, op))
  {
  }

  // ----- The budget -----

  function Others(k: nat, m: nat): nat {
    if k == 0 then 0 else (k - 1) * m
  }

  /** The total, with what is in flight, exceeds the limit by at most one request of
      each other thread. */
  ghost predicate WithinBudget(s: State, m: nat) {
    && (forall t :: t in s.threads ==> Pending(s.threads[t]) <= m)
    && s.total + InFlight(s) <= s.threshold + Others(|s.threads|, m)
  }

  lemma {:induction false} TotalBounded(m: map<nat, nat>, b: nat)
    requires forall k :: k in m ==> m[k] <= b
    ensures Total(m) <= |m| * b
    decreases |m|
  {
    if m != map[] {
      var k :| k in m;
      TotalRemove(m, k);
      assert (m - {k}).Keys == m.Keys - {k};
      TotalBounded(m - {k}, b);
      OneMore(|m - {k}|, b);
      assert |m| == |m - {k}| + 1;
    }
  }

  lemma OneMore(n: nat, b: nat)
    ensures (n + 1) * b == n * b + b
  {
  }

  lemma PendingsUpdate(threads: map<nat, Phase>, t: nat, p: Phase)
    requires t in threads
    ensures Total(Pendings(threads[t := p])) + Pending(threads[t]) == Total(Pendings(threads)) + Pending(p)
    ensures |threads[t := p]| == |threads|
  {
    TotalInsert(Pendings(threads), t, Pending(p));
    assert Pendings(threads)[t := Pending(p)] == Pendings(threads[t := p]);
    assert threads[t := p].Keys == threads.Keys;
  }

  lemma OthersBounded(threads: map<nat, Phase>, t: nat, m: nat)
    requires t in threads && forall i :: i in threads ==> Pending(threads[i]) <= m
    ensures Total(Pendings(threads)) <= Others(|threads|, m) + Pending(threads[t])
  {
    var all := Pendings(threads);
    TotalRemove(all, t);
    assert (all - {t}).Keys == threads.Keys - {t};
    TotalBounded(all - {t}, m);
  }

  /** Requests of at most m bytes, aligned. */
  ghost predicate Small(op: Op, m: nat) {
    op.Check? ==> AlignBytes(op.bytes) <= m
  }

  lemma NextBudget(s: State, op: Op, m: nat)
    requires AllocatorOk(s) && Enabled(s, op) && Small(op, m) && WithinBudget(s, m)
    ensures WithinBudget(Next(s, op), m)
  {
    hide Separate, Balanced, AlignBytes, Others;
    var s' := Next(s, op);
    match op
    case Check(t, bytes, category) =>
      if Passes(s, bytes) {
        PendingsUpdate(s.threads, t, s'.threads[t]);
        OthersBounded(s.threads, t, m);
      }
    case DriverGrants(t, ptr) => PendingsUpdate(s.threads, t, s'.threads[t]);
    case DriverRefuses(t) => PendingsUpdate(s.threads, t, s'.threads[t]);
    case Record(t) => PendingsUpdate(s.threads, t, s'.threads[t]);
    case Erase(t, ptr) => PendingsUpdate(s.threads, t, s'.threads[t]);
    case DriverFrees(t, ok) => PendingsUpdate(s.threads, t, s'.threads[t]);
    case ResetPeak =>
  }

  // ----- Every interleaving -----

  /** s is reached from s0 by enabled steps of any threads, with requests up to m. */
  ghost predicate Reaches(s0: State, ops: seq<Op>, m: nat, s: State) {
    if ops == [] then s == s0
    else
      var u, op := ops[..|ops| - 1], ops[|ops| - 1];
      exists s1 :: Reaches(s0, u, m, s1) && Enabled(s1, op) && Small(op, m) && s == Next(s1, op)
  }

  /** Under every interleaving the books balance, no record is overwritten, and the
      budget is exceeded by at most one request of each other thread. */
  lemma {:induction false} EveryInterleaving(threshold: nat, threads: set<nat>, ops: seq<Op>, m: nat, s: State)
    requires Reaches(Initial(threshold, threads), ops, m, s)
    ensures AllocatorOk(s) && WithinBudget(s, m)
    ensures s.total <= threshold + Others(|threads|, m) && s.threshold == threshold && s.threads.Keys == threads
    ensures s.counters.weights == Total(SizesOf(s.active, Weights))
      && s.counters.activations == Total(SizesOf(s.active, Activations))
      && s.counters.workspace == Total(SizesOf(s.active, Workspace))
      && s.counters.kvCache == Total(SizesOf(s.active, KvCache))
  {
    hide AllocatorOk, Small, Enabled, SizesOf;
    var s0 := Initial(threshold, threads);
    if ops == [] {
      InitialOk(threshold, threads);
    } else {
      var u, op := ops[..|ops| - 1], ops[|ops| - 1];
      var s1 :| Reaches(s0, u, m, s1) && Enabled(s1, op) && Small(op, m) && s == Next(s1, op);
      EveryInterleaving(threshold, threads, u, m, s1);
      NextOk(s1, op);
      NextBudget(s1, op, m);
      NextThreads(s1, op);
    }
    assert |s.threads| == |s.threads.Keys|;
    CountersAre(s);
  }

  /** Each counter is the number of bytes recorded in its own category. */
  lemma CountersAre(s: State)
    requires AllocatorOk(s)
    ensures s.counters.weights == Total(SizesOf(s.active, Weights))
      && s.counters.activations == Total(SizesOf(s.active, Activations))
      && s.counters.workspace == Total(SizesOf(s.active, Workspace))
      && s.counters.kvCache == Total(SizesOf(s.active, KvCache))
  {
    assert Get(s.counters, Weights) == Total(SizesOf(s.active, Weights));
    assert Get(s.counters, Activations) == Total(SizesOf(s.active, Activations));
    assert Get(s.counters, Workspace) == Total(SizesOf(s.active, Workspace));
    assert Get(s.counters, KvCache) == Total(SizesOf(s.active, KvCache));
  }

  lemma NextOk(s: State, op: Op)
    requires AllocatorOk(s) && Enabled(s, op)
    ensures AllocatorOk(Next(s, op))
  {
    NextSeparate(s, op);
    NextBalanced(s, op);
  }

  lemma NextThreads(s: State, op: Op)
    requires Enabled(s, op)
    ensures Next(s, op).threads.Keys == s.threads.Keys && Next(s, op).threshold == s.threshold
  {
  }

  // ----- The peak -----

  /** The states that the steps lead through, one after the other. */
  ghost predicate Trace(ops: seq<Op>, states: seq<State>) {
    && |states| == |ops| + 1
    && forall i :: 0 <= i < |ops| ==> Enabled(states[i], ops[i]) && states[i + 1] == Next(states[i], ops[i])
  }

  /** Since the start, or since the last reset, the peak is the greatest of all totals
      there have been. */
  lemma {:induction false} PeakIsGreatest(ops: seq<Op>, states: seq<State>, lo: nat, n: nat)
    requires Trace(ops, states) && lo <= n < |states|
    requires if lo == 0 then states[0].peak == states[0].total else ops[lo - 1] == ResetPeak
    requires forall i :: lo <= i < n ==> ops[i] != ResetPeak
    ensures forall i :: lo <= i <= n ==> states[i].total <= states[n].peak
    ensures exists i :: lo <= i <= n && states[i].total == states[n].peak
    decreases n
  {
    if n == lo {
      assert lo > 0 ==> states[lo] == Next(states[lo - 1], ops[lo - 1]);
      assert states[lo].total == states[lo].peak;
    } else {
      PeakIsGreatest(ops, states, lo, n - 1);
      PeakNext(states[n - 1], ops[n - 1]);
      var i :| lo <= i <= n - 1 && states[i].total == states[n - 1].peak;
      if states[n].peak == states[n - 1].peak {
        assert states[i].total == states[n].peak;
      } else {
        assert states[n].total == states[n].peak;
      }
    }
  }

  lemma PeakNext(s: State, op: Op)
    requires Enabled(s, op) && op != ResetPeak && s.peak >= s.total
    ensures var s' := Next(s, op); s'.peak == if s'.total > s.peak then s'.total else s.peak
  {
  }

  // ----- The bound is reached -----

  /** Steps from s0 with requests up to m lead to s, where every thread is idle. */
  ghost predicate AtRest(s0: State, m: nat, ops: seq<Op>, s: State) {
    && Reaches(s0, ops, m, s) && AllocatorOk(s)
    && forall t :: t in s.threads ==> s.threads[t] == Idle
  }

  lemma Takes(s0: State, m: nat, ops: seq<Op>, s: State, op: Op)
    requires Reaches(s0, ops, m, s) && Enabled(s, op) && Small(op, m)
    ensures Reaches(s0, ops + [op], m, Next(s, op))
  {
    var all := ops + [op];
    assert all[..|all| - 1] == ops && all[|all| - 1] == op;
    hide AllocatorOk;
    assert Reaches(s0, all[..|all| - 1], m, s) && Enabled(s, op) && Small(op, m);
  }

  lemma {:induction false} FreshAddress(d: set<nat>) returns (p: nat)
    ensures p != 0 && forall x :: x in d ==> x < p
    decreases |d|
  {
    if d == {} {
      p := 1;
    } else {
      var x :| x in d;
      var q := FreshAddress(d - {x});
      p := if q > x then q else x + 1;
      forall y | y in d ensures y < p {
        assert y == x || y in d - {x};
      }
    }
  }

  /** A thread that passed the check gets an address and records it. */
  lemma Completes(s0: State, m: nat, ops: seq<Op>, s: State, t: nat) returns (ops': seq<Op>, s': State)
    requires Reaches(s0, ops, m, s) && AllocatorOk(s) && t in s.threads && s.threads[t].Checked?
    ensures Reaches(s0, ops', m, s') && AllocatorOk(s')
    ensures s'.total == s.total + s.threads[t].size && s'.threshold == s.threshold
    ensures s'.threads == s.threads[t := Idle]
  {
    hide AllocatorOk, Reaches, Plus;
    var p := FreshAddress(s.driver);
    var g := DriverGrants(t, p);
    assert Enabled(s, g);
    Takes(s0, m, ops, s, g);
    NextOk(s, g);
    var s1 := Next(s, g);
    assert Enabled(s1, Record(t));
    Takes(s0, m, ops + [g], s1, Record(t));
    NextOk(s1, Record(t));
    ops', s' := ops + [g] + [Record(t)], Next(s1, Record(t));
    assert s1.threads[t := Idle] == s.threads[t := Idle];
  }

  /** A multiple of 256 bytes that fits is its own aligned size and passes the check. */
  lemma ChecksIn(s0: State, m: nat, ops: seq<Op>, s: State, t: nat, size: nat) returns (ops': seq<Op>, s': State)
    requires Reaches(s0, ops, m, s) && AllocatorOk(s) && t in s.threads && s.threads[t].Idle?
    requires 0 < size <= m && size % 256 == 0 && s.total + size <= s.threshold
    ensures Reaches(s0, ops', m, s') && AllocatorOk(s')
    ensures s' == s.(threads := s.threads[t := Checked(size, Weights)])
  {
    AlignIsLeast(size, size);
    hide AllocatorOk, Reaches, AlignBytes;
    var c := Check(t, size, Weights);
    assert Enabled(s, c) && Passes(s, size);
    Takes(s0, m, ops, s, c);
    NextOk(s, c);
    ops', s' := ops + [c], Next(s, c);
  }

  lemma {:induction false} FillsUp(s0: State, m: nat, ops: seq<Op>, s: State, t: nat, n: nat)
    returns (ops': seq<Op>, s': State)
    requires AtRest(s0, m, ops, s) && t in s.threads && 256 <= m && s.total + 256 * n <= s.threshold
    ensures AtRest(s0, m, ops', s') && s'.total == s.total + 256 * n
    ensures s'.threads == s.threads && s'.threshold == s.threshold
    decreases n
  {
    hide AllocatorOk, Reaches;
    if n == 0 {
      ops', s' := ops, s;
    } else {
      ops', s' := ChecksIn(s0, m, ops, s, t, 256);
      ops', s' := Completes(s0, m, ops', s', t);
      assert s'.threads == s.threads;
      ops', s' := FillsUp(s0, m, ops', s', t, n - 1);
    }
  }

  /** All threads of a set pass the check before any of them records. */
  lemma {:induction false} AllCheck(s0: State, m: nat, ops: seq<Op>, s: State, todo: set<nat>, size: nat)
    returns (ops': seq<Op>, s': State)
    requires Reaches(s0, ops, m, s) && AllocatorOk(s)
    requires todo <= s.threads.Keys && forall t :: t in todo ==> s.threads[t].Idle?
    requires 0 < size <= m && size % 256 == 0 && s.total + size <= s.threshold
    ensures Reaches(s0, ops', m, s') && AllocatorOk(s') && s'.total == s.total && s'.threshold == s.threshold
    ensures s'.threads.Keys == s.threads.Keys
    ensures forall t :: t in s.threads ==> s'.threads[t] == if t in todo then Checked(size, Weights) else s.threads[t]
    decreases |todo|
  {
    hide AllocatorOk, Reaches;
    if todo == {} {
      ops', s' := ops, s;
    } else {
      var t :| t in todo;
      ops', s' := ChecksIn(s0, m, ops, s, t, size);
      ops', s' := AllCheck(s0, m, ops', s', todo - {t}, size);
    }
  }

  function Times(n: nat, size: nat): nat {
    n * size
  }

  lemma TimesOneMore(n: nat, size: nat)
    ensures Times(0, size) == 0 && Times(n + 1, size) == Times(n, size) + size && Times(1, size) == size
  {
  }

  /** Then they all record. */
  lemma {:induction false} AllComplete(s0: State, m: nat, ops: seq<Op>, s: State, todo: set<nat>, size: nat)
    returns (ops': seq<Op>, s': State)
    requires Reaches(s0, ops, m, s) && AllocatorOk(s)
    requires todo <= s.threads.Keys && forall t :: t in todo ==> s.threads[t] == Checked(size, Weights)
    ensures Reaches(s0, ops', m, s') && s'.total == s.total + Times(|todo|, size)
    decreases |todo|
  {
    hide AllocatorOk, Reaches, Times;
    TimesOneMore(0, size);
    if todo == {} {
      ops', s' := ops, s;
    } else {
      var t :| t in todo;
      TimesOneMore(|todo| - 1, size);
      ops', s' := Completes(s0, m, ops, s, t);
      ops', s' := AllComplete(s0, m, ops', s', todo - {t}, size);
    }
  }

  /** For every set of threads and every size there is an interleaving that reaches the
      bound, up to the alignment of the limit. */
  lemma BoundReached(threshold: nat, threads: set<nat>, m: nat) returns (ops: seq<Op>, s: State)
    requires threads != {} && m % 256 == 0 && 256 <= m <= threshold
    ensures Reaches(Initial(threshold, threads), ops, m, s)
    ensures s.total == threshold - threshold % 256 + Others(|threads|, m)
  {
    hide AllocatorOk, Reaches, Times;
    var s0 := Initial(threshold, threads);
    InitialOk(threshold, threads);
    StartsAt(s0, m);
    var t :| t in threads;
    var n := (threshold - threshold % 256 - m) / 256;
    assert 256 * n == threshold - threshold % 256 - m;
    ops, s := FillsUp(s0, m, [], s0, t, n);
    ops, s := AllCheck(s0, m, ops, s, threads, m);
    ops, s := AllComplete(s0, m, ops, s, threads, m);
    OthersTimes(|threads|, m);
  }

  lemma StartsAt(s0: State, m: nat)
    ensures Reaches(s0, [], m, s0)
  {
  }

  lemma OthersTimes(k: nat, m: nat)
    requires k > 0
    ensures Times(k, m) == Others(k, m) + m
  {
  }

  // ----- When the limit holds -----

  /** Nothing was ever allocated, and nothing is under way. */
  ghost predicate Untouched(s: State) {
    s.total == 0 && s.active == map[] && forall t :: t in s.threads ==> s.threads[t].Idle?
  }

  lemma {:induction false} StaysUntouched(threshold: nat, threads: set<nat>, ops: seq<Op>, m: nat, s: State)
    requires Reaches(Initial(threshold, threads), ops, m, s) && threshold < 256
    ensures Untouched(s) && s.threshold == threshold
  {
    if ops != [] {
      var u, op := ops[..|ops| - 1], ops[|ops| - 1];
      var s1 :| Reaches(Initial(threshold, threads), u, m, s1) && Enabled(s1, op) && Small(op, m) && s == Next(s1, op);
      StaysUntouched(threshold, threads, u, m, s1);
      if op.Check? {
        AlignIsLeast(op.bytes, 0);
      }
    }
  }

  lemma LimitKept(threshold: nat, threads: set<nat>, ops: seq<Op>, m: nat, s: State)
    requires Reaches(Initial(threshold, threads), ops, m, s) && (|threads| <= 1 || threshold < 256)
    ensures s.total <= threshold
  {
    hide Reaches, AllocatorOk, SizesOf;
    if threshold < 256 {
      StaysUntouched(threshold, threads, ops, m, s);
    } else {
      EveryInterleaving(threshold, threads, ops, m, s);
    }
  }

  lemma LimitBroken(threshold: nat, threads: set<nat>) returns (ops: seq<Op>, m: nat, s: State)
    requires |threads| > 1 && threshold >= 256
    ensures Reaches(Initial(threshold, threads), ops, m, s) && s.total > threshold
  {
    hide Reaches;
    m := threshold - threshold % 256;
    ops, s := BoundReached(threshold, threads, m);
    OthersAtLeast(|threads|, m);
  }

  /** The total stays within the limit under every interleaving if and only if there is
      at most one thread, or the limit is below the smallest allocation. */
  lemma LimitHoldsIff(threshold: nat, threads: set<nat>)
    ensures (forall ops, m, s :: Reaches(Initial(threshold, threads), ops, m, s) ==> s.total <= threshold)
      <==> |threads| <= 1 || threshold < 256
  {
    hide Reaches, Initial;
    if |threads| <= 1 || threshold < 256 {
      forall ops, m, s | Reaches(Initial(threshold, threads), ops, m, s) ensures s.total <= threshold {
        LimitKept(threshold, threads, ops, m, s);
      }
    } else {
      var ops, m, s := LimitBroken(threshold, threads);
    }
  }

  lemma OthersAtLeast(k: nat, m: nat)
    requires k >= 2
    ensures Others(k, m) >= m
  {
    assert (k - 1) * m == m + (k - 2) * m;
  }

  /** Two threads on a limit of 256 bytes allocate twice the limit. */
  lemma Overshoot() returns (ops: seq<Op>, s: State)
    ensures Reaches(Initial(256, {0, 1}), ops, 256, s) && s.total == 512
  {
    ops, s := BoundReached(256, {0, 1}, 256);
    assert |{0, 1}| == 2;
  }
}
