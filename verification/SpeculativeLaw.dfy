/** Rejection sampling preserves the target law. A uniform draw lies in [0, 1], the
    probability of an outcome is the length of the interval of draws that lead to
    it, and independent draws multiply. */
module SpeculativeLaw {
  import opened Reals
  import opened Speculative

  ghost predicate Distribution(p: Row) {
    p != [] && (forall i :: 0 <= i < |p| ==> p[i] >= 0.0) && Sum(p) == 1.0
  }

  // ----- Sums -----

  lemma {:induction false} SumBounds(p: Row, i: nat)
    requires i <= |p| && forall j :: 0 <= j < |p| ==> p[j] >= 0.0
    ensures 0.0 <= Sum(p[..i]) <= Sum(p)
    decreases |p|
  {
    if i == |p| {
      assert p[..i] == p;
      if i > 0 {
        SumBounds(p[..i - 1], i - 1);
        assert p[..i - 1][..i - 1] == p[..i - 1];
      }
    } else {
      SumBounds(p[..|p| - 1], i);
      assert p[..|p| - 1][..i] == p[..i];
    }
  }

  lemma SumNext(p: Row, i: nat)
    requires i < |p|
    ensures Sum(p[..i + 1]) == Sum(p[..i]) + p[i]
  {
    assert p[..i + 1][..i] == p[..i];
  }

  /** Cumulative sums do not decrease. */
  lemma SumMonotone(p: Row, i: nat, j: nat)
    requires i <= j <= |p| && forall k :: 0 <= k < |p| ==> p[k] >= 0.0
    ensures Sum(p[..i]) <= Sum(p[..j])
  {
    SumBounds(p[..j], i);
    assert p[..j][..i] == p[..i];
  }

  // ----- One draw -----

  lemma {:induction false} PickFromIff(p: Row, r: real, i: nat, k: nat)
    requires i <= k < |p| && forall j :: 0 <= j < |p| ==> p[j] >= 0.0
    requires i == 0 || r > Sum(p[..i])
    ensures PickFrom(p, r, i) == k <==> (k == 0 || r > Sum(p[..k])) && (r <= Sum(p[..k + 1]) || k == |p| - 1)
    decreases |p| - i
  {
    SumMonotone(p, i + 1, k + 1);
    if i < k {
      SumMonotone(p, i + 1, k);
    }
    if r > Sum(p[..i + 1]) && i < k {
      PickFromIff(p, r, i + 1, k);
    } else if r > Sum(p[..i + 1]) {
      PickFromRange(p, r, i + 1);
    }
  }

  lemma {:induction false} PickFromRange(p: Row, r: real, i: nat)
    requires i <= |p| && p != []
    ensures if i < |p| then i <= PickFrom(p, r, i) < |p| else PickFrom(p, r, i) == |p| - 1
    decreases |p| - i
  {
    if i < |p| {
      PickFromRange(p, r, i + 1);
    }
  }

  /** The draws that pick token k: those above the sum before k and up to the sum with
      k, and the draw 0 for the first token. */
  predicate Falls(p: Row, k: nat, r: real)
    requires k < |p|
  {
    (k == 0 || Sum(p[..k]) < r) && r <= Sum(p[..k + 1])
  }

  /** Drawing from a distribution picks k exactly on an interval of length p[k]. */
  lemma PickLaw(p: Row, k: nat)
    requires Distribution(p) && k < |p|
    ensures var lo, hi := Sum(p[..k]), Sum(p[..k + 1]);
      && 0.0 <= lo <= hi <= 1.0 && hi - lo == p[k]
      && forall r :: 0.0 <= r <= 1.0 ==> (Pick(p, r) == k <==> Falls(p, k, r))
  {
    SumNext(p, k);
    SumBounds(p, k);
    SumBounds(p, k + 1);
    assert p[..|p|] == p;
    assert Sum(p[..0]) == 0.0;
    forall r | 0.0 <= r <= 1.0 ensures Pick(p, r) == k <==> Falls(p, k, r) {
      PickFromIff(p, r, 0, k);
    }
  }

  function Least(p: real, q: real): real {
    if p <= q then p else q
  }

  /** A draft drawn from q and accepted: the smaller of the two probabilities. A draft that
      q does not give is accepted by no draw above 0. */
  lemma AcceptLaw(p: real, q: real)
    requires p >= 0.0 && q >= 0.0
    ensures 0.0 <= Ratio(p, q) <= 1.0
    ensures Times(q, Ratio(p, q)) == Least(p, q) && Times(q, 1.0 - Ratio(p, q)) == q - Least(p, q)
    ensures q == 0.0 ==> Ratio(p, q) == 0.0
  {
    if q > 0.0 {
      QuotientBounds(p, q);
      assert q * (p / q) == p;
    }
  }

  // ----- The law of one position -----

  /** The probability that a draft drawn from q is rejected. */
  function Rejected(p: Row, q: Row): real
    requires |p| == |q|
  {
    if p == [] then 0.0
    else
      var i := |p| - 1;
      Rejected(p[..i], q[..i]) + Times(q[i], 1.0 - Ratio(p[i], q[i]))
  }

  lemma {:induction false} RejectedIsExcess(p: Row, q: Row)
    requires |p| == |q| && forall i :: 0 <= i < |p| ==> p[i] >= 0.0 && q[i] >= 0.0
    ensures Rejected(p, q) == Sum(Adjusted(p, q)) - Sum(p) + Sum(q)
  {
    hide Times, Ratio;
    if p != [] {
      var i := |p| - 1;
      RejectedIsExcess(p[..i], q[..i]);
      AdjustedPrefix(p, q, i);
      AdjustedNext(p, q, i);
      AcceptLaw(p[i], q[i]);
      assert p[..i + 1] == p;
    }
  }

  lemma AdjustedPrefix(p: Row, q: Row, i: nat)
    requires i <= |p| <= |q|
    ensures Adjusted(p[..i], q[..i]) == Adjusted(p[..i], q)
  {
    var a, a' := Adjusted(p[..i], q[..i]), Adjusted(p[..i], q);
    assert forall j :: 0 <= j < i ==> a[j] == a'[j];
  }

  lemma {:induction false} SumScaled(row: Row, s: real)
    requires s != 0.0
    ensures Sum(Scaled(row, s)) == Over(Sum(row), s)
  {
    hide Over;
    OverSum(0.0, 0.0, s);
    if row != [] {
      var a, i := Scaled(row, s), |row| - 1;
      SumScaled(row[..i], s);
      assert a[..i] == Scaled(row[..i], s);
      OverSum(Sum(row[..i]), row[i], s);
    }
  }

  /** A replacement is drawn from a distribution: the normalized excess if it sums up to
      more than a millionth, and the target's otherwise. */
  lemma ResidualDistribution(p: Row, q: Row)
    requires Distribution(p) && Distribution(q) && |p| == |q|
    ensures Distribution(Residual(p, q))
    ensures Sum(Adjusted(p, q)) <= 0.000001 ==> Residual(p, q) == p
    ensures Sum(Adjusted(p, q)) > 0.000001 ==>
      forall i :: 0 <= i < |p| ==>
        Times(Sum(Adjusted(p, q)), Residual(p, q)[i]) == if p[i] > q[i] then p[i] - q[i] else 0.0
  {
    hide Over;
    var a := Adjusted(p, q);
    var s := Sum(a);
    if s > TINY {
      SumScaled(a, s);
      OverSum(0.0, 0.0, s);
      forall i | 0 <= i < |p| ensures Residual(p, q)[i] >= 0.0 && Times(s, Residual(p, q)[i]) == a[i] {
        OverNonNegative(a[i], s);
      }
    }
  }

  /** The probability that the verification of one position emits x: the draft is x
      and is accepted, or the draft is rejected and x replaces it. */
  function PositionLaw(p: Row, q: Row, x: nat): real
    requires |p| == |q| && x < |p|
  {
    Times(q[x], Ratio(p[x], q[x])) + Times(Rejected(p, q), Residual(p, q)[x])
  }

  /** The fallback is taken although the rows differ. */
  predicate Fallback(p: Row, q: Row)
    requires |p| == |q|
  {
    0.0 < Sum(Adjusted(p, q)) <= 0.000001
  }

  predicate Within(a: real, b: real, d: real) {
    -d <= a - b <= d
  }

  lemma {:induction false} EntryBelowSum(row: Row, x: nat)
    requires x < |row| && forall i :: 0 <= i < |row| ==> row[i] >= 0.0
    ensures 0.0 <= row[x] <= Sum(row)
  {
    SumNext(row, x);
    SumBounds(row, x);
    SumBounds(row, x + 1);
  }

  /** What a smaller row has besides entry x is at most what the larger row has. */
  lemma {:induction false} OthersBelow(a: Row, p: Row, x: nat)
    requires |a| == |p| && x < |p| && forall i :: 0 <= i < |p| ==> 0.0 <= a[i] <= p[i]
    ensures Sum(a) - a[x] <= Sum(p) - p[x]
  {
    var i := |p| - 1;
    if x < i {
      OthersBelow(a[..i], p[..i], x);
    } else {
      SumsBelow(a[..i], p[..i]);
    }
  }

  lemma {:induction false} SumsBelow(a: Row, p: Row)
    requires |a| == |p| && forall i :: 0 <= i < |p| ==> 0.0 <= a[i] <= p[i]
    ensures 0.0 <= Sum(a) <= Sum(p)
  {
    if p != [] {
      SumsBelow(a[..|p| - 1], p[..|p| - 1]);
    }
  }

  /** The token emitted where verification arrives has exactly the target law, but
      for the fallback, which is off by at most a millionth. */
  lemma PositionIsTarget(p: Row, q: Row, x: nat)
    requires Distribution(p) && Distribution(q) && |p| == |q| && x < |p|
    ensures !Fallback(p, q) ==> PositionLaw(p, q, x) == p[x]
    ensures var s := Sum(Adjusted(p, q));
      PositionLaw(p, q, x) == p[x] <==> s > 0.000001 || Adjusted(p, q)[x] == Times(s, p[x])
    ensures Within(PositionLaw(p, q, x), p[x], 0.000001)
    ensures PositionLaw(p, q, x) <= 1.0
    ensures Times(q[x], Ratio(p[x], q[x])) >= 0.0 && Times(Rejected(p, q), Residual(p, q)[x]) >= 0.0
  {
    hide Times, Ratio, Over, Rejected;
    var a := Adjusted(p, q);
    var s := Sum(a);
    RejectedIsExcess(p, q);
    AcceptLaw(p[x], q[x]);
    EntryBelowSum(a, x);
    EntryBelowSum(p, x);
    OthersBelow(a, p, x);
    assert p[x] == Least(p[x], q[x]) + a[x];
    if s > TINY {
      OverNonNegative(a[x], s);
    } else {
      SmallProduct(s, p[x]);
    }
  }

  /** A fallback that is off: the rows differ by half a millionth. */
  lemma FallbackIsOff()
    ensures var p, q: Row := [0.5000005, 0.4999995], [0.5, 0.5];
      Distribution(p) && Distribution(q) && Fallback(p, q) && PositionLaw(p, q, 0) != p[0]
  {
    var p, q: Row := [0.5000005, 0.4999995], [0.5, 0.5];
    SumOfTwo(p[0], p[1]);
    SumOfTwo(q[0], q[1]);
    var a := Adjusted(p, q);
    assert a == [0.0000005, 0.0];
    SumOfTwo(a[0], a[1]);
    PositionIsTarget(p, q, 0);
  }

  /** Rows just above the threshold: they differ by two millionths, and the law is exact. */
  lemma ExactAbove()
    ensures var p, q: Row := [0.500002, 0.499998], [0.5, 0.5];
      && Distribution(p) && Distribution(q) && Residual(p, q) == [1.0, 0.0]
      && PositionLaw(p, q, 0) == p[0] && PositionLaw(p, q, 1) == p[1]
  {
    var p, q: Row := [0.500002, 0.499998], [0.5, 0.5];
    SumOfTwo(p[0], p[1]);
    SumOfTwo(q[0], q[1]);
    var a := Adjusted(p, q);
    assert a == [0.000002, 0.0];
    SumOfTwo(a[0], a[1]);
    PositionIsTarget(p, q, 0);
    PositionIsTarget(p, q, 1);
  }

  lemma SumOfTwo(a: real, b: real)
    ensures Sum([a, b]) == a + b
  {
    assert [a][..0] == [];
    assert Sum([a]) == 0.0 + a;
    assert [a, b][..1] == [a];
  }

  // ----- The draws behind the law -----

  /** The token a verification emits at position i is x. */
  predicate EmitsAt(v: Verification, i: nat, x: int) {
    if |v.accepted| > i then v.accepted[i] == x else |v.accepted| == i && v.final == x
  }

  lemma {:induction false} VerifyKeeps(draft: seq<int>, qs: seq<Row>, ps: seq<Row>, eos: int, noise: nat -> real,
                                       i: nat, n: nat)
    requires RowsFit(draft, qs, ps) && i <= |draft|
    ensures var v := VerifyFrom(draft, qs, ps, eos, noise, i, n).v; |v.accepted| >= i && v.accepted[..i] == draft[..i]
    decreases |draft| - i
  {
    if i < |draft| && Accepts(draft, qs, ps, i, noise(n)) && draft[i] != eos {
      VerifyKeeps(draft, qs, ps, eos, noise, i + 1, n + 1);
      var v := VerifyFrom(draft, qs, ps, eos, noise, i, n).v;
      assert v.accepted[..i] == v.accepted[..i + 1][..i] && draft[..i] == draft[..i + 1][..i];
    }
  }

  /** Arriving at draft i, the verification emits x there exactly if the draft is x
      and the first draw is at most its ratio, or the first draw rejects the draft
      and the second falls in an interval as long as the residual of x, which starts
      with 0 if x is the first token. */
  lemma PositionDraws(draft: seq<int>, qs: seq<Row>, ps: seq<Row>, eos: int, noise: nat -> real, i: nat, n: nat, x: nat)
    returns (lo: real, hi: real)
    requires RowsFit(draft, qs, ps) && i < |draft| && x < |ps[i]|
    requires Distribution(ps[i]) && Distribution(qs[i])
    requires 0.0 <= noise(n + 1) <= 1.0
    ensures (x == 0 ==> lo == 0.0) && 0.0 <= lo <= hi <= 1.0 && hi - lo == Residual(ps[i], qs[i])[x]
    ensures var ratio := Ratio(ps[i][draft[i]], qs[i][draft[i]]);
      EmitsAt(VerifyFrom(draft, qs, ps, eos, noise, i, n).v, i, x) <==>
        || (noise(n) <= ratio && draft[i] == x)
        || (noise(n) > ratio && (x == 0 || lo < noise(n + 1)) && noise(n + 1) <= hi)
  {
    ResidualDistribution(ps[i], qs[i]);
    hide Distribution, Residual, Ratio;
    PickLaw(Residual(ps[i], qs[i]), x);
    lo, hi := Sum(Residual(ps[i], qs[i])[..x]), Sum(Residual(ps[i], qs[i])[..x + 1]);
    var v := VerifyFrom(draft, qs, ps, eos, noise, i, n).v;
    if !Accepts(draft, qs, ps, i, noise(n)) {
      assert EmitsAt(v, i, x) <==> Pick(Residual(ps[i], qs[i]), noise(n + 1)) == x;
    } else {
      if draft[i] != eos {
        VerifyKeeps(draft, qs, ps, eos, noise, i + 1, n + 1);
        assert v.accepted[..i + 1][i] == draft[..i + 1][i];
      }
      assert EmitsAt(v, i, x) <==> draft[i] == x;
    }
  }

  // ----- Whole decodings -----

  /** A language model over a vocabulary: a distribution after every context. */
  ghost predicate Model(f: seq<int> -> Row, vocab: nat) {
    forall c :: |f(c)| == vocab && Distribution(f(c))
  }

  ghost predicate Word(w: seq<int>, vocab: nat) {
    forall i :: 0 <= i < |w| ==> 0 <= w[i] < vocab
  }

  /** The probability that plain sampling starts with w; nothing follows the end. */
  ghost function TargetLaw(p: seq<int> -> Row, vocab: nat, eos: int, context: seq<int>, w: seq<int>): real
    requires Model(p, vocab) && Word(w, vocab)
    decreases |w|, 0
  {
    if w == [] then 1.0
    else Times(p(context)[w[0]], TargetOnward(p, vocab, eos, context + [w[0]], w[0], w[1..]))
  }

  ghost function TargetOnward(p: seq<int> -> Row, vocab: nat, eos: int, context: seq<int>, x: int, rest: seq<int>): real
    requires Model(p, vocab) && Word(rest, vocab)
    decreases |rest|, 1
  {
    if x == eos then (if rest == [] then 1.0 else 0.0) else TargetLaw(p, vocab, eos, context, rest)
  }

  /** The probability that speculative decoding starts with w, when the running
      round still has j drafts to verify and every round has k: an accepted draft
      leaves j - 1, a replacement or the bonus token starts the next round. */
  ghost function StepwiseLaw(p: seq<int> -> Row, q: seq<int> -> Row, vocab: nat, eos: int, k: nat,
                                context: seq<int>, j: nat, w: seq<int>): real
    requires Model(p, vocab) && Model(q, vocab) && Word(w, vocab)
    decreases |w|, 0
  {
    if w == [] then 1.0
    else
      var x, rest, next := w[0], w[1..], context + [w[0]];
      var pr, qr := p(context), q(context);
      var renewed := Onward(p, q, vocab, eos, k, next, k, x, rest);
      if j == 0 then Times(pr[x], renewed)
      else
        Times(Times(qr[x], Ratio(pr[x], qr[x])), Onward(p, q, vocab, eos, k, next, j - 1, x, rest))
        + Times(Times(Rejected(pr, qr), Residual(pr, qr)[x]), renewed)
  }

  ghost function Onward(p: seq<int> -> Row, q: seq<int> -> Row, vocab: nat, eos: int, k: nat,
                        context: seq<int>, j: nat, x: int, rest: seq<int>): real
    requires Model(p, vocab) && Model(q, vocab) && Word(rest, vocab)
    decreases |rest|, 1
  {
    if x == eos then (if rest == [] then 1.0 else 0.0)
    else StepwiseLaw(p, q, vocab, eos, k, context, j, rest)
  }

  /** No verified position on the way along w falls back. */
  ghost predicate NoFallback(p: seq<int> -> Row, q: seq<int> -> Row, vocab: nat, context: seq<int>, w: seq<int>)
    requires Model(p, vocab) && Model(q, vocab)
  {
    forall i :: 0 <= i < |w| ==> !Fallback(p(context + w[..i]), q(context + w[..i]))
  }

  /** How far a mixture can be off when its parts are. */
  lemma Mixed(a: real, b: real, u: real, v: real, pr: real, t: real, d: real, tiny: real)
    requires a >= 0.0 && b >= 0.0 && a + b <= 1.0 && d >= 0.0 && 0.0 <= t <= 1.0 && tiny >= 0.0
    requires Within(u, t, d) && Within(v, t, d) && Within(a + b, pr, tiny)
    ensures Within(Times(a, u) + Times(b, v), Times(pr, t), d + tiny)
    ensures u == t && v == t && a + b == pr ==> Times(a, u) + Times(b, v) == Times(pr, t)
  {
    hide Times;
    Spread(a, u, t, d);
    Spread(b, v, t, d);
    Spread(t, a + b, pr, tiny);
    Distribute(a, b, t);
    Distribute(a, b, d);
    SmallProduct(d, a + b);
    SmallProduct(tiny, t);
    Swap(d, a + b);
    Swap(tiny, t);
    Swap(pr, t);
    Swap(a + b, t);
  }

  lemma Spread(a: real, u: real, t: real, d: real)
    requires a >= 0.0 && Within(u, t, d)
    ensures Within(Times(a, u), Times(a, t), Times(a, d))
  {
    assert a * (u - t) <= a * d && a * (t - u) <= a * d;
  }

  lemma {:induction false} TargetLawBounds(p: seq<int> -> Row, vocab: nat, eos: int, context: seq<int>, w: seq<int>)
    requires Model(p, vocab) && Word(w, vocab)
    ensures 0.0 <= TargetLaw(p, vocab, eos, context, w) <= 1.0
    decreases |w|
  {
    hide Times;
    if w != [] {
      TargetLawBounds(p, vocab, eos, context + [w[0]], w[1..]);
      EntryBelowSum(p(context), w[0]);
      SmallProduct(p(context)[w[0]], TargetOnward(p, vocab, eos, context + [w[0]], w[0], w[1..]));
    }
  }

  function Budget(n: nat): real {
    Times(n as real, 0.000001)
  }

  lemma BudgetNext(n: nat)
    ensures Budget(0) == 0.0 && Budget(n) >= 0.0 && Budget(n + 1) == Budget(n) + 0.000001
    ensures Budget(n) == (n as real) * 0.000001
  {
  }

  /** Speculative decoding of any number of rounds has the target's law: exactly if
      no position falls back, and to within a millionth per token in any case. */
  lemma {:induction false} SpeculativeIsTarget(p: seq<int> -> Row, q: seq<int> -> Row, vocab: nat, eos: int, k: nat,
                                               context: seq<int>, j: nat, w: seq<int>)
    requires Model(p, vocab) && Model(q, vocab) && Word(w, vocab)
    ensures Within(StepwiseLaw(p, q, vocab, eos, k, context, j, w), TargetLaw(p, vocab, eos, context, w),
      (|w| as real) * 0.000001)
    ensures NoFallback(p, q, vocab, context, w) ==>
      StepwiseLaw(p, q, vocab, eos, k, context, j, w) == TargetLaw(p, vocab, eos, context, w)
    decreases |w|, 0
  {
    hide Times, Budget, Distribution, PositionLaw, Ratio, Rejected, Residual, Fallback;
    BudgetNext(|w|);
    if w != [] {
      var x, rest, next := w[0], w[1..], context + [w[0]];
      BudgetNext(|rest|);
      OnwardIsTarget(p, q, vocab, eos, k, next, k, x, rest);
      if j > 0 {
        OnwardIsTarget(p, q, vocab, eos, k, next, j - 1, x, rest);
      }
      NoFallbackNext(p, q, vocab, context, w);
      DecodeStep(p, q, vocab, eos, k, context, j, w);
    }
  }

  lemma {:induction false} OnwardIsTarget(p: seq<int> -> Row, q: seq<int> -> Row, vocab: nat, eos: int, k: nat,
                                          context: seq<int>, j: nat, x: int, rest: seq<int>)
    requires Model(p, vocab) && Model(q, vocab) && Word(rest, vocab)
    ensures Within(Onward(p, q, vocab, eos, k, context, j, x, rest), TargetOnward(p, vocab, eos, context, x, rest),
      Budget(|rest|))
    ensures NoFallback(p, q, vocab, context, rest) ==>
      Onward(p, q, vocab, eos, k, context, j, x, rest) == TargetOnward(p, vocab, eos, context, x, rest)
    decreases |rest|, 1
  {
    hide Budget;
    BudgetNext(|rest|);
    if x != eos {
      SpeculativeIsTarget(p, q, vocab, eos, k, context, j, rest);
    }
  }

  lemma NoFallbackNext(p: seq<int> -> Row, q: seq<int> -> Row, vocab: nat, context: seq<int>, w: seq<int>)
    requires Model(p, vocab) && Model(q, vocab) && w != []
    ensures NoFallback(p, q, vocab, context, w) ==>
      !Fallback(p(context), q(context)) && NoFallback(p, q, vocab, context + [w[0]], w[1..])
  {
    hide Fallback, Distribution;
    if NoFallback(p, q, vocab, context, w) {
      assert context + w[..0] == context;
      forall i | 0 <= i < |w| - 1
        ensures !Fallback(p(context + [w[0]] + w[1..][..i]), q(context + [w[0]] + w[1..][..i]))
      {
        assert context + [w[0]] + w[1..][..i] == context + w[..i + 1];
      }
    }
  }

  /** One position, given that what follows has the target's law. */
  lemma DecodeStep(p: seq<int> -> Row, q: seq<int> -> Row, vocab: nat, eos: int, k: nat,
                   context: seq<int>, j: nat, w: seq<int>)
    requires Model(p, vocab) && Model(q, vocab) && Word(w, vocab) && w != []
    requires var x, rest, next := w[0], w[1..], context + [w[0]]; var t := TargetOnward(p, vocab, eos, next, x, rest);
      && Within(Onward(p, q, vocab, eos, k, next, k, x, rest), t, Budget(|rest|))
      && (j > 0 ==> Within(Onward(p, q, vocab, eos, k, next, j - 1, x, rest), t, Budget(|rest|)))
    ensures Within(StepwiseLaw(p, q, vocab, eos, k, context, j, w), TargetLaw(p, vocab, eos, context, w), Budget(|w|))
    ensures var x, rest, next := w[0], w[1..], context + [w[0]]; var t := TargetOnward(p, vocab, eos, next, x, rest);
      && Onward(p, q, vocab, eos, k, next, k, x, rest) == t
      && (j > 0 ==> Onward(p, q, vocab, eos, k, next, j - 1, x, rest) == t)
      && !Fallback(p(context), q(context))
      ==> StepwiseLaw(p, q, vocab, eos, k, context, j, w) == TargetLaw(p, vocab, eos, context, w)
  {
    hide Times, Budget, Distribution, Ratio, Rejected, Residual, Fallback, TargetOnward, Onward;
    var x, rest, next := w[0], w[1..], context + [w[0]];
    var pr, qr := p(context), q(context);
    var t := TargetOnward(p, vocab, eos, next, x, rest);
    var renewed := Onward(p, q, vocab, eos, k, next, k, x, rest);
    OnwardBounds(p, vocab, eos, next, x, rest);
    BudgetNext(|rest|);
    EntryAtMostOne(pr, x);
    if j == 0 {
      Mixed(pr[x], 0.0, renewed, t, pr[x], t, Budget(|rest|), 0.000001);
      ZeroTimes(t);
    } else {
      PositionIsTarget(pr, qr, x);
      Mixed(Times(qr[x], Ratio(pr[x], qr[x])), Times(Rejected(pr, qr), Residual(pr, qr)[x]),
            Onward(p, q, vocab, eos, k, next, j - 1, x, rest), renewed, pr[x], t, Budget(|rest|), 0.000001);
    }
  }

  lemma EntryAtMostOne(p: Row, x: nat)
    requires Distribution(p) && x < |p|
    ensures 0.0 <= p[x] <= 1.0
  {
    EntryBelowSum(p, x);
  }

  lemma OnwardBounds(p: seq<int> -> Row, vocab: nat, eos: int, context: seq<int>, x: int, rest: seq<int>)
    requires Model(p, vocab) && Word(rest, vocab)
    ensures 0.0 <= TargetOnward(p, vocab, eos, context, x, rest) <= 1.0
  {
    TargetLawBounds(p, vocab, eos, context, rest);
  }
}
