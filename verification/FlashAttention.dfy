/** One query row of the tiled attention kernel: the online softmax over tiles of
    keys against the direct softmax. Scores are real numbers or minus infinity, and
    the exponential is any positive function that turns sums into products. */
module FlashAttention {
  import opened Wrappers
  import opened Reals
  import opened Arithmetic

  type Vector = seq<real>

  datatype Score = NegInf | Fin(value: real)

  /** One row of queries: its scaled entries, its position, and all keys and values. */
  datatype Attention = Attention(q: Vector, keys: seq<Vector>, values: seq<Vector>, row: nat, causal: bool)

  ghost predicate Fits(a: Attention) {
    && |a.values| == |a.keys| && a.row < |a.keys|
    && (forall j :: 0 <= j < |a.keys| ==> |a.keys[j]| == |a.q|)
    && (forall j :: 0 <= j < |a.values| ==> |a.values[j]| == |a.q|)
  }

  ghost predicate ExpLaw(exp: real -> real) {
    && (forall x :: exp(x) > 0.0)
    && (forall x, y :: exp(x + y) == Times(exp(x), exp(y)))
  }

  function Dot(u: Vector, v: Vector): real
    requires |u| == |v|
  {
    if u == [] then 0.0
    else Dot(u[..|u| - 1], v[..|v| - 1]) + u[|u| - 1] * v[|v| - 1]
  }

  function Zeros(d: nat): (v: Vector)
    ensures |v| == d && forall i :: 0 <= i < d ==> v[i] == 0.0
  {
    if d == 0 then [] else Zeros(d - 1) + [0.0]
  }

  lemma {:induction false} DotZeros(u: Vector, v: Vector)
    requires |u| == |v| && forall i :: 0 <= i < |v| ==> v[i] == 0.0
    ensures Dot(u, v) == 0.0
  {
    if u != [] {
      DotZeros(u[..|u| - 1], v[..|v| - 1]);
    }
  }

  /** The score of a key is linear in the key and picks the query's entries: it is the
      inner product. */
  lemma {:induction false} DotLinear(u: Vector, v: Vector, w: Vector, a: real, b: real, x: Vector)
    requires |u| == |v| == |w| == |x| && forall k :: 0 <= k < |u| ==> x[k] == a * v[k] + b * w[k]
    ensures Dot(u, x) == a * Dot(u, v) + b * Dot(u, w)
  {
    if u != [] {
      var n := |u| - 1;
      DotLinear(u[..n], v[..n], w[..n], a, b, x[..n]);
      LinearStep(u[n], v[n], w[n], a, b, Dot(u[..n], v[..n]), Dot(u[..n], w[..n]));
    }
  }

  lemma LinearStep(u: real, v: real, w: real, a: real, b: real, s: real, t: real)
    ensures a * s + b * t + u * (a * v + b * w) == a * (s + u * v) + b * (t + u * w)
  {
  }

  lemma {:induction false} DotUnit(u: Vector, v: Vector, i: nat)
    requires i < |u| == |v| && forall k :: 0 <= k < |v| ==> v[k] == if k == i then 1.0 else 0.0
    ensures Dot(u, v) == u[i]
  {
    var n := |u| - 1;
    if i < n {
      DotUnit(u[..n], v[..n], i);
    } else {
      DotZeros(u[..n], v[..n]);
    }
  }

  // ----- What the kernel sees in lane j of its tiles -----

  /** A masked load gives zeros beyond the last row. */
  function Load(rows: seq<Vector>, j: nat, d: nat): (v: Vector)
    requires forall i :: 0 <= i < |rows| ==> |rows[i]| == d
    ensures |v| == d
  {
    if j < |rows| then rows[j] else Zeros(d)
  }

  function Lane(a: Attention, j: nat): (s: Score)
    requires Fits(a)
  {
    if a.causal && a.row < j then NegInf else Fin(Dot(a.q, Load(a.keys, j, |a.q|)))
  }

  function Value(a: Attention, j: nat, c: nat): real
    requires Fits(a) && c < |a.q|
  {
    Load(a.values, j, |a.q|)[c]
  }

  // ----- Direct softmax attention -----

  /** The keys the row attends to. */
  predicate Attended(a: Attention, j: nat) {
    j < |a.keys| && (a.causal ==> j <= a.row)
  }

  function Weight(exp: real -> real, a: Attention, j: nat): real
    requires Fits(a)
  {
    if Attended(a, j) then exp(Dot(a.q, a.keys[j])) else 0.0
  }

  function Denominator(exp: real -> real, a: Attention, n: nat): real
    requires Fits(a)
  {
    if n == 0 then 0.0 else Denominator(exp, a, n - 1) + Weight(exp, a, n - 1)
  }

  /** Entry c of the value that belongs to key j. */
  function Column(a: Attention, j: nat, c: nat): real
    requires Fits(a) && c < |a.q|
  {
    if j < |a.values| then a.values[j][c] else 0.0
  }

  function Numerator(exp: real -> real, a: Attention, c: nat, n: nat): real
    requires Fits(a) && c < |a.q|
  {
    if n == 0 then 0.0 else Numerator(exp, a, c, n - 1) + Times(Weight(exp, a, n - 1), Column(a, n - 1, c))
  }

  lemma {:induction false} DenominatorPositive(exp: real -> real, a: Attention, n: nat)
    requires Fits(a) && ExpLaw(exp)
    ensures Denominator(exp, a, n) >= 0.0 && (n > 0 ==> Denominator(exp, a, n) > 0.0)
  {
    if n == 1 {
      assert Denominator(exp, a, 0) == 0.0;
      assert Attended(a, 0);
    } else if n > 1 {
      DenominatorPositive(exp, a, n - 1);
    }
  }

  /** The softmax-weighted mean of the attended values, for one output column. */
  function Direct(exp: real -> real, a: Attention, c: nat): real
    requires Fits(a) && ExpLaw(exp) && c < |a.q|
  {
    DenominatorPositive(exp, a, |a.keys|);
    Over(Numerator(exp, a, c, |a.keys|), Denominator(exp, a, |a.keys|))
  }

  // ----- Online softmax -----

  function Largest(s: Score, t: Score): Score {
    if s.NegInf? then t else if t.NegInf? then s else if s.value >= t.value then s else t
  }

  predicate AtMost(s: Score, t: Score) {
    s.NegInf? || (t.Fin? && s.value <= t.value)
  }

  /** exp(s - m), where minus infinity weighs nothing; m must be finite, as the
      difference of two infinities is no number. */
  function ExpDiff(exp: real -> real, s: Score, m: Score): real
    requires m.Fin?
  {
    if s.NegInf? then 0.0 else exp(s.value - m.value)
  }

  /** The largest of the first k scores of a tile. */
  function TileMax(a: Attention, start: nat, k: nat): (m: Score)
    requires Fits(a)
    ensures forall j :: start <= j < start + k ==> AtMost(Lane(a, j), m)
  {
    if k == 0 then NegInf else Largest(TileMax(a, start, k - 1), Lane(a, start + k - 1))
  }

  function TileSum(exp: real -> real, a: Attention, start: nat, k: nat, m: Score): real
    requires Fits(a) && m.Fin?
  {
    if k == 0 then 0.0 else TileSum(exp, a, start, k - 1, m) + ExpDiff(exp, Lane(a, start + k - 1), m)
  }

  function TileDot(exp: real -> real, a: Attention, c: nat, start: nat, k: nat, m: Score): real
    requires Fits(a) && c < |a.q| && m.Fin?
  {
    if k == 0 then 0.0
    else
      TileDot(exp, a, c, start, k - 1, m)
      + Times(ExpDiff(exp, Lane(a, start + k - 1), m), Value(a, start + k - 1, c))
  }

  /** What the kernel's accumulators stand for after n lanes, before rescaling. */
  function LaneMass(exp: real -> real, a: Attention, n: nat): real
    requires Fits(a)
  {
    if n == 0 then 0.0 else LaneMass(exp, a, n - 1) + LaneWeight(exp, a, n - 1)
  }

  function LaneWeight(exp: real -> real, a: Attention, j: nat): real
    requires Fits(a)
  {
    if Lane(a, j).NegInf? then 0.0 else exp(Lane(a, j).value)
  }

  function LaneBlend(exp: real -> real, a: Attention, c: nat, n: nat): real
    requires Fits(a) && c < |a.q|
  {
    if n == 0 then 0.0 else LaneBlend(exp, a, c, n - 1) + Times(LaneWeight(exp, a, n - 1), Value(a, n - 1, c))
  }

  /** A sum rescaled to the running maximum. */
  function Rescaled(exp: real -> real, s: real, m: Score): real {
    if m.NegInf? then 0.0 else Times(s, exp(0.0 - m.value))
  }

  lemma ExpDiffScaled(exp: real -> real, x: real, m: real)
    requires ExpLaw(exp)
    ensures exp(x - m) == Times(exp(x), exp(0.0 - m))
  {
    assert x - m == x + (0.0 - m);
  }

  /** Rescaling from one maximum to the next. */
  lemma RescaledAgain(exp: real -> real, s: real, m: Score, m': Score)
    requires ExpLaw(exp) && m'.Fin?
    ensures m.Fin? ==> Times(Rescaled(exp, s, m), ExpDiff(exp, m, m')) == Rescaled(exp, s, m')
    ensures m.NegInf? ==> Times(Rescaled(exp, s, m), ExpDiff(exp, m, m')) == 0.0
  {
    if m.Fin? {
      assert 0.0 - m'.value == (0.0 - m.value) + (m.value - m'.value);
      Associate(s, exp(0.0 - m.value), exp(m.value - m'.value));
    }
  }

  lemma {:induction false} TileSumIs(exp: real -> real, a: Attention, start: nat, k: nat, m: Score)
    requires Fits(a) && ExpLaw(exp) && m.Fin?
    ensures TileSum(exp, a, start, k, m) == Rescaled(exp, LaneMass(exp, a, start + k) - LaneMass(exp, a, start), m)
  {
    hide Times, Fits, ExpLaw;
    var z := exp(0.0 - m.value);
    if k == 0 {
      ZeroTimes(z);
    } else {
      TileSumIs(exp, a, start, k - 1, m);
      LaneScaled(exp, a, start + k - 1, m);
      var d := LaneMass(exp, a, start + k - 1) - LaneMass(exp, a, start);
      Distribute(d, LaneWeight(exp, a, start + k - 1), z);
    }
  }

  lemma LaneScaled(exp: real -> real, a: Attention, j: nat, m: Score)
    requires Fits(a) && ExpLaw(exp) && m.Fin?
    ensures ExpDiff(exp, Lane(a, j), m) == Times(LaneWeight(exp, a, j), exp(0.0 - m.value))
  {
    if Lane(a, j).Fin? {
      ExpDiffScaled(exp, Lane(a, j).value, m.value);
    }
  }

  lemma {:induction false} TileDotIs(exp: real -> real, a: Attention, c: nat, start: nat, k: nat, m: Score)
    requires Fits(a) && ExpLaw(exp) && c < |a.q| && m.Fin?
    ensures TileDot(exp, a, c, start, k, m)
      == Rescaled(exp, LaneBlend(exp, a, c, start + k) - LaneBlend(exp, a, c, start), m)
  {
    hide Times, Fits, ExpLaw;
    var z := exp(0.0 - m.value);
    if k == 0 {
      ZeroTimes(z);
    } else {
      TileDotIs(exp, a, c, start, k - 1, m);
      var j := start + k - 1;
      LaneScaled(exp, a, j, m);
      var d := LaneBlend(exp, a, c, j) - LaneBlend(exp, a, c, start);
      Associate(LaneWeight(exp, a, j), z, Value(a, j, c));
      Swap(z, Value(a, j, c));
      Associate(LaneWeight(exp, a, j), Value(a, j, c), z);
      Distribute(d, Times(LaneWeight(exp, a, j), Value(a, j, c)), z);
    }
  }

  // ----- One tile -----

  /** The accumulators after n lanes: the sums so far, rescaled to the running
      maximum, which no score exceeds. */
  ghost predicate Accumulated(exp: real -> real, a: Attention, n: nat, m: Score, l: real, acc: Vector)
    requires Fits(a)
  {
    && (forall j :: 0 <= j < n ==> AtMost(Lane(a, j), m))
    && l == Rescaled(exp, LaneMass(exp, a, n), m)
    && |acc| == |a.q|
    && forall c :: 0 <= c < |acc| ==> acc[c] == Rescaled(exp, LaneBlend(exp, a, c, n), m)
  }

  lemma RescaledSum(exp: real -> real, s: real, t: real, m: Score)
    requires m.Fin?
    ensures Rescaled(exp, s, m) + Rescaled(exp, t - s, m) == Rescaled(exp, t, m)
  {
    Distribute(s, t - s, exp(0.0 - m.value));
  }

  lemma SumStep(exp: real -> real, s: real, t: real, m: Score, m': Score)
    requires ExpLaw(exp) && m'.Fin? && (m.NegInf? ==> s == 0.0)
    ensures Times(Rescaled(exp, s, m), ExpDiff(exp, m, m')) + Rescaled(exp, t - s, m') == Rescaled(exp, t, m')
  {
    RescaledAgain(exp, s, m, m');
    RescaledSum(exp, s, t, m');
    if m.NegInf? {
      ZeroTimes(exp(0.0 - m'.value));
    }
  }

  lemma NoLanes(exp: real -> real, a: Attention)
    requires Fits(a)
    ensures LaneMass(exp, a, 0) == 0.0 && forall c :: 0 <= c < |a.q| ==> LaneBlend(exp, a, c, 0) == 0.0
  {
  }

  /** Rescaling the sums of the earlier lanes and adding the tile's gives the sums
      of all lanes, at the new maximum. */
  lemma TileStep(exp: real -> real, a: Attention, start: nat, k: nat, m: Score, m': Score, l: real, acc: Vector)
    requires Fits(a) && ExpLaw(exp) && Accumulated(exp, a, start, m, l, acc)
    requires m' == Largest(m, TileMax(a, start, k)) && m'.Fin? && (m.NegInf? ==> start == 0)
    ensures var alpha := ExpDiff(exp, m, m');
      && (forall j :: 0 <= j < start + k ==> AtMost(Lane(a, j), m'))
      && Times(l, alpha) + TileSum(exp, a, start, k, m') == Rescaled(exp, LaneMass(exp, a, start + k), m')
      && forall c :: 0 <= c < |acc| ==>
           Times(acc[c], alpha) + TileDot(exp, a, c, start, k, m') == Rescaled(exp, LaneBlend(exp, a, c, start + k), m')
  {
    hide Times, Fits, ExpLaw, LaneMass, LaneBlend, TileSum, TileDot, Rescaled;
    NoLanes(exp, a);
    SumStep(exp, LaneMass(exp, a, start), LaneMass(exp, a, start + k), m, m');
    TileSumIs(exp, a, start, k, m');
    forall c | 0 <= c < |acc|
      ensures Times(acc[c], ExpDiff(exp, m, m')) + TileDot(exp, a, c, start, k, m')
        == Rescaled(exp, LaneBlend(exp, a, c, start + k), m')
    {
      SumStep(exp, LaneBlend(exp, a, c, start), LaneBlend(exp, a, c, start + k), m, m');
      TileDotIs(exp, a, c, start, k, m');
    }
  }

  // ----- All lanes against the attended keys -----

  lemma ExpZero(exp: real -> real)
    requires ExpLaw(exp)
    ensures exp(0.0) == 1.0
  {
    var e := exp(0.0);
    assert exp(0.0 + 0.0) == Times(e, e) && e > 0.0;
    assert (e - 1.0) * e == 0.0;
  }

  lemma LaneInside(exp: real -> real, a: Attention, j: nat)
    requires Fits(a) && j < |a.keys|
    ensures LaneWeight(exp, a, j) == Weight(exp, a, j)
    ensures forall c :: 0 <= c < |a.q| ==> Value(a, j, c) == Column(a, j, c)
  {
  }

  lemma LaneBeyond(exp: real -> real, a: Attention, j: nat)
    requires Fits(a) && ExpLaw(exp) && j >= |a.keys|
    ensures LaneWeight(exp, a, j) == if a.causal then 0.0 else 1.0
    ensures forall c :: 0 <= c < |a.q| ==> Value(a, j, c) == 0.0
  {
    DotZeros(a.q, Zeros(|a.q|));
    ExpZero(exp);
  }

  /** The lanes of the real keys sum up to the direct sums. */
  lemma {:induction false} LanesInside(exp: real -> real, a: Attention, c: nat, t: nat)
    requires Fits(a) && c < |a.q| && t <= |a.keys|
    ensures LaneMass(exp, a, t) == Denominator(exp, a, t) && LaneBlend(exp, a, c, t) == Numerator(exp, a, c, t)
  {
    hide Times, Fits;
    if t > 0 {
      LanesInside(exp, a, c, t - 1);
      LaneInside(exp, a, t - 1);
    }
  }

  /** A lane beyond the last key adds nothing when causal, and a unit of mass without
      any value otherwise. */
  lemma {:induction false} LanesBeyond(exp: real -> real, a: Attention, c: nat, t: nat)
    requires Fits(a) && ExpLaw(exp) && c < |a.q| && t >= |a.keys|
    ensures LaneBlend(exp, a, c, t) == Numerator(exp, a, c, |a.keys|)
    ensures LaneMass(exp, a, t) ==
      Denominator(exp, a, |a.keys|) + if a.causal then 0.0 else (t - |a.keys|) as real
  {
    hide Fits, ExpLaw;
    if t == |a.keys| {
      LanesInside(exp, a, c, t);
    } else {
      LanesBeyond(exp, a, c, t - 1);
      LaneBeyond(exp, a, t - 1);
    }
  }

  /** Tiles past the row lose nothing in causal mode. */
  lemma {:induction false} CausalEnd(exp: real -> real, a: Attention, c: nat, t: nat)
    requires Fits(a) && a.causal && c < |a.q| && a.row < t <= |a.keys|
    ensures Denominator(exp, a, t) == Denominator(exp, a, |a.keys|)
    ensures Numerator(exp, a, c, t) == Numerator(exp, a, c, |a.keys|)
    decreases |a.keys| - t
  {
    if t < |a.keys| {
      CausalEnd(exp, a, c, t + 1);
      assert !Attended(a, t);
    }
  }

  /** What t lanes amount to once they cover the row. */
  lemma LanesAre(exp: real -> real, a: Attention, c: nat, t: nat)
    requires Fits(a) && ExpLaw(exp) && c < |a.q| && if a.causal then t > a.row else t >= |a.keys|
    ensures LaneBlend(exp, a, c, t) == Numerator(exp, a, c, |a.keys|)
    ensures LaneMass(exp, a, t) ==
      Denominator(exp, a, |a.keys|) + if a.causal then 0.0 else (t - |a.keys|) as real
  {
    hide Fits, ExpLaw, LaneBlend, LaneMass, Denominator, Numerator;
    if t >= |a.keys| {
      LanesBeyond(exp, a, c, t);
    } else {
      LanesInside(exp, a, c, t);
      CausalEnd(exp, a, c, t);
    }
  }

  /** The rescaling cancels in the quotient. */
  lemma RescaledQuotient(exp: real -> real, u: real, v: real, m: Score)
    requires ExpLaw(exp) && m.Fin? && v > 0.0
    ensures Rescaled(exp, v, m) > 0.0 && Over(Rescaled(exp, u, m), Rescaled(exp, v, m)) == Over(u, v)
  {
    var z := exp(0.0 - m.value);
    assert v * z > 0.0;
    assert (u / v) * (v * z) == u * z;
  }

  lemma QuotientsDiffer(u: real, v: real, w: real)
    requires v > 0.0 && w >= 0.0
    ensures Over(u, v + w) == Over(u, v) <==> w == 0.0 || u == 0.0
  {
    var x, y := u / (v + w), u / v;
    assert x * (v + w) == u && y * v == u;
    if x == y {
      assert x * w == 0.0;
      if w != 0.0 {
        assert x == 0.0;
      }
    }
  }

  /** The mean over t lanes is the direct softmax in causal mode, and otherwise
      exactly when no lane is left over or the attended values cancel. */
  lemma LanesVersusDirect(exp: real -> real, a: Attention, c: nat, t: nat, m: Score)
    requires Fits(a) && ExpLaw(exp) && c < |a.q| && m.Fin? && if a.causal then t > a.row else t >= |a.keys|
    ensures Rescaled(exp, LaneMass(exp, a, t), m) > 0.0
    ensures Over(Rescaled(exp, LaneBlend(exp, a, c, t), m), Rescaled(exp, LaneMass(exp, a, t), m)) == Direct(exp, a, c)
      <==> a.causal || t == |a.keys| || Numerator(exp, a, c, |a.keys|) == 0.0
  {
    hide LaneBlend, LaneMass, Denominator, Numerator, Over, Rescaled, Times;
    var u, v := Numerator(exp, a, c, |a.keys|), Denominator(exp, a, |a.keys|);
    LanesAre(exp, a, c, t);
    DenominatorPositive(exp, a, |a.keys|);
    var w := if a.causal then 0.0 else (t - |a.keys|) as real;
    QuotientsDiffer(u, v, w);
    RescaledQuotient(exp, u, v + w, m);
  }

  // ----- What the output depends on -----

  /** A key has weight exactly if there is one and, with the mask, if it is not past the
      row. */
  lemma WeightIff(exp: real -> real, a: Attention, j: nat)
    requires Fits(a) && ExpLaw(exp)
    ensures Weight(exp, a, j) > 0.0 <==> j < |a.keys| && (a.causal ==> j <= a.row)
    ensures Weight(exp, a, j) > 0.0 ==> Weight(exp, a, j) == exp(Dot(a.q, a.keys[j]))
  {
  }

  lemma {:induction false} SamePast(exp: real -> real, a: Attention, a': Attention, c: nat, n: nat)
    requires Fits(a) && Fits(a') && a.q == a'.q && a.row == a'.row && a.causal && a'.causal && c < |a.q|
    requires a.keys[..a.row + 1] == a'.keys[..a.row + 1] && a.values[..a.row + 1] == a'.values[..a.row + 1]
    requires n <= a.row + 1
    ensures Denominator(exp, a, n) == Denominator(exp, a', n) && Numerator(exp, a, c, n) == Numerator(exp, a', c, n)
  {
    hide Times;
    if n > 0 {
      SamePast(exp, a, a', c, n - 1);
      assert a.keys[..a.row + 1][n - 1] == a'.keys[..a.row + 1][n - 1];
      assert a.values[..a.row + 1][n - 1] == a'.values[..a.row + 1][n - 1];
      assert Weight(exp, a, n - 1) == Weight(exp, a', n - 1);
    }
  }

  /** With the mask a row does not depend on keys and values after it. */
  lemma CausalPast(exp: real -> real, a: Attention, a': Attention, c: nat)
    requires Fits(a) && Fits(a') && ExpLaw(exp) && a.q == a'.q && a.row == a'.row && a.causal && a'.causal && c < |a.q|
    requires a.keys[..a.row + 1] == a'.keys[..a.row + 1] && a.values[..a.row + 1] == a'.values[..a.row + 1]
    ensures Direct(exp, a, c) == Direct(exp, a', c)
  {
    hide Times, Over, Denominator, Numerator;
    SamePast(exp, a, a', c, a.row + 1);
    CausalEnd(exp, a, c, a.row + 1);
    CausalEnd(exp, a', c, a.row + 1);
  }

  // ----- The kernel -----

  /** The maximum is finite from the first tile on: key 0 is never masked. */
  lemma FirstLane(a: Attention, start: nat, k: Pos, m: Score, m': Score)
    requires Fits(a) && (m.NegInf? ==> start == 0) && m' == Largest(m, TileMax(a, start, k))
    ensures m'.Fin?
  {
    if m.NegInf? {
      assert AtMost(Lane(a, 0), TileMax(a, 0, k));
    }
  }

  predicate Aligned(n: nat, size: Pos) {
    n % size == 0
  }

  lemma AlignedNext(n: nat, size: Pos)
    ensures Aligned(0, size) && (Aligned(n, size) ==> Aligned(n + size, size))
  {
    DivModUnique(0, size, 0, 0);
    if Aligned(n, size) {
      DivModUnique(n + size, size, n / size + 1, 0);
    }
  }

  /** The tiles end exactly at n if their size divides it. */
  lemma AlignedEnd(n: nat, t: nat, size: Pos)
    requires Aligned(t, size) && n <= t < n + size
    ensures t == n <==> Aligned(n, size)
  {
    if Aligned(n, size) {
      var d := t / size - n / size;
      assert t - n == d * size;
      MultipleBound(d, size);
    }
  }

  lemma Started(exp: real -> real, a: Attention)
    requires Fits(a)
    ensures Accumulated(exp, a, 0, NegInf, 0.0, Zeros(|a.q|))
  {
  }

  /** One tile of the loop. */
  method AttendTile(exp: real -> real, a: Attention, start: nat, blockN: Pos, m: Score, l: real, acc: Vector)
    returns (newM: Score, newL: real, newAcc: Vector)
    requires Fits(a) && ExpLaw(exp) && Accumulated(exp, a, start, m, l, acc) && (m.NegInf? ==> start == 0)
    ensures newM.Fin? && Accumulated(exp, a, start + blockN, newM, newL, newAcc)
  {
    hide Times, ExpDiff, Lane, LaneMass, LaneBlend, TileSum, TileDot, TileMax, Fits, ExpLaw, Rescaled, AtMost, Largest;
    newM := Largest(m, TileMax(a, start, blockN));
    FirstLane(a, start, blockN, m, newM);
    TileStep(exp, a, start, blockN, m, newM, l, acc);
    var alpha := ExpDiff(exp, m, newM);
    newL := Times(l, alpha) + TileSum(exp, a, start, blockN, newM);
    newAcc := seq(|a.q|, c requires 0 <= c < |a.q| =>
      Times(acc[c], alpha) + TileDot(exp, a, c, start, blockN, newM));
  }

  /** The row of output is the direct softmax attention in causal mode for every
      number of keys; without the causal mask it is so exactly if the tiles end with
      the last key, or where the attended values cancel out. */
  method AttendRow(exp: real -> real, a: Attention, startM: nat, blockM: Pos, blockN: Pos) returns (out: Vector)
    requires Fits(a) && ExpLaw(exp) && startM * blockM <= a.row < (startM + 1) * blockM
    ensures |out| == |a.q|
    ensures forall c :: 0 <= c < |a.q| ==>
      (out[c] == Direct(exp, a, c) <==>
        a.causal || Aligned(|a.keys|, blockN) || Numerator(exp, a, c, |a.keys|) == 0.0)
  {
    var m, l, acc := NegInf, 0.0, Zeros(|a.q|);
    var end := if a.causal && (startM + 1) * blockM < |a.keys| then (startM + 1) * blockM else |a.keys|;
    assert a.row < end <= |a.keys| && (a.causal || end == |a.keys|);
    Started(exp, a);
    AlignedNext(0, blockN);
    hide Fits, ExpLaw, Accumulated, Direct, Numerator, Aligned, Over, Zeros;
    var start := 0;
    while start < end
      invariant start < end + blockN && Aligned(start, blockN)
      invariant (m.NegInf? ==> start == 0) && Accumulated(exp, a, start, m, l, acc)
    {
      AlignedNext(start, blockN);
      m, l, acc := AttendTile(exp, a, start, blockN, m, l, acc);
      start := start + blockN;
    }
    if !a.causal {
      AlignedEnd(|a.keys|, start, blockN);
    }
    out := Normalize(exp, a, start, m, l, acc);
  }

  /** The final division by the mass. */
  method Normalize(exp: real -> real, a: Attention, t: nat, m: Score, l: real, acc: Vector) returns (out: Vector)
    requires Fits(a) && ExpLaw(exp) && Accumulated(exp, a, t, m, l, acc)
    requires m.Fin? && if a.causal then t > a.row else t >= |a.keys|
    ensures |out| == |a.q|
    ensures forall c :: 0 <= c < |a.q| ==>
      (out[c] == Direct(exp, a, c) <==> a.causal || t == |a.keys| || Numerator(exp, a, c, |a.keys|) == 0.0)
  {
    forall c | 0 <= c < |a.q|
      ensures l > 0.0 && (Over(acc[c], l) == Direct(exp, a, c) <==>
        a.causal || t == |a.keys| || Numerator(exp, a, c, |a.keys|) == 0.0)
    {
      LanesVersusDirect(exp, a, c, t, m);
    }
    hide Fits, ExpLaw, Accumulated, Direct, Numerator, Over;
    out := seq(|a.q|, c requires 0 <= c < |a.q| => Over(acc[c], l));
  }

  // ----- A row that is not the direct softmax -----

  /** One key and one column, both of weight one. */
  ghost predicate OneKey(a: Attention) {
    a == Attention([0.0], [[0.0]], [[1.0]], 0, false)
  }

  lemma OneKeyWeight(exp: real -> real, a: Attention)
    requires ExpLaw(exp) && OneKey(a)
    ensures Fits(a) && Weight(exp, a, 0) == 1.0
  {
    assert Dot([0.0], [0.0]) == 0.0 by {
      DotZeros([0.0], [0.0]);
    }
    hide Dot;
    ExpZero(exp);
  }

  lemma OneKeySums(exp: real -> real, a: Attention)
    requires Fits(a) && OneKey(a) && Weight(exp, a, 0) == 1.0
    ensures Numerator(exp, a, 0, 1) == 1.0 && Denominator(exp, a, 1) == 1.0
  {
    hide Weight;
    assert Denominator(exp, a, 0) == 0.0 && Numerator(exp, a, 0, 0) == 0.0;
  }

  /** One key, two lanes: the second lane, beyond the key, takes half of the weight. */
  lemma NonCausalExample(exp: real -> real, a: Attention)
    requires ExpLaw(exp) && OneKey(a)
    ensures Fits(a) && !Aligned(|a.keys|, 2)
    ensures LaneMass(exp, a, 2) == 2.0 && Over(LaneBlend(exp, a, 0, 2), LaneMass(exp, a, 2)) == 0.5
    ensures Direct(exp, a, 0) == 1.0
  {
    hide Fits, ExpLaw, Numerator, Denominator, LaneBlend, LaneMass, Weight;
    OneKeyWeight(exp, a);
    OneKeySums(exp, a);
    LanesAre(exp, a, 0, 2);
  }
}
