/** Verification of speculated tokens: the greedy path and the sampling path. A
    generator of uniform numbers is a function from the count of draws. */
module Speculative {
  import opened Reals

  type Row = seq<real>

  datatype Verification = Verification(accepted: seq<int>, final: int, numAccepted: nat, ended: bool)

  datatype Checked = Valid(result: Verification) | InvalidArgument

  // ----- Greedy -----

  /** The position of the first largest entry. */
  function ArgMax(row: Row): (k: nat)
    ensures row == [] ==> k == 0
    ensures row != [] ==> k < |row| && (forall j :: 0 <= j < |row| ==> row[j] <= row[k])
    ensures forall j :: 0 <= j < k ==> row[j] < row[k]
  {
    if |row| <= 1 then 0
    else
      var k, last := ArgMax(row[..|row| - 1]), |row| - 1;
      if row[k] < row[last] then last else k
  }

  /** The longest run of drafts the target agrees with, up to the end of sequence,
      and the target's own choice after it. */
  predicate GreedyOutcome(draft: seq<int>, rows: seq<Row>, eos: int, v: Verification)
    requires |rows| > |draft|
  {
    var n := |v.accepted|;
    && v.numAccepted == n <= |draft| && v.accepted == draft[..n]
    && (forall i :: 0 <= i < n ==> draft[i] == ArgMax(rows[i]))
    && (forall i :: 0 <= i < n - 1 ==> draft[i] != eos)
    && (v.ended <==> v.final == eos)
    && if n > 0 && draft[n - 1] == eos then v.final == eos
       else v.final == ArgMax(rows[n]) && (n < |draft| ==> draft[n] != v.final)
  }

  // ----- Sampling -----

  function Sum(row: Row): real {
    if row == [] then 0.0 else Sum(row[..|row| - 1]) + row[|row| - 1]
  }

  /** The first i from which the cumulative sum reaches r, or the last index. */
  function PickFrom(row: Row, r: real, i: nat): (k: int)
    requires i <= |row|
    decreases |row| - i
  {
    if i == |row| then |row| - 1
    else if r <= Sum(row[..i + 1]) then i
    else PickFrom(row, r, i + 1)
  }

  function Pick(row: Row, r: real): int {
    PickFrom(row, r, 0)
  }

  const TINY: real := 0.000001

  function Excess(p: real, q: real): real {
    if p - q > 0.0 then p - q else 0.0
  }

  /** max(0, p - q), entry by entry. */
  function Adjusted(p: Row, q: Row): (a: Row)
    requires |q| >= |p|
    ensures |a| == |p| && forall i :: 0 <= i < |p| ==> a[i] == Excess(p[i], q[i])
  {
    if p == [] then []
    else Adjusted(p[..|p| - 1], q) + [Excess(p[|p| - 1], q[|p| - 1])]
  }

  lemma AdjustedNext(p: Row, q: Row, i: nat)
    requires |q| >= |p| && i < |p|
    ensures Adjusted(p[..i + 1], q) == Adjusted(p[..i], q) + [Excess(p[i], q[i])]
    ensures Sum(Adjusted(p[..i + 1], q)) == Sum(Adjusted(p[..i], q)) + Excess(p[i], q[i])
  {
    assert p[..i + 1][..i] == p[..i];
    var a := Adjusted(p[..i], q);
    assert (a + [Excess(p[i], q[i])])[..|a|] == a;
  }

  lemma AdjustedNone(q: Row)
    ensures Adjusted([], q) == [] && Sum([]) == 0.0
  {
  }

  function Scaled(row: Row, s: real): (a: Row)
    requires s != 0.0
    ensures |a| == |row| && forall i :: 0 <= i < |row| ==> a[i] == Over(row[i], s)
  {
    if row == [] then [] else Scaled(row[..|row| - 1], s) + [Over(row[|row| - 1], s)]
  }

  /** The row a replacement is drawn from. */
  function Residual(p: Row, q: Row): (a: Row)
    requires |q| >= |p|
    ensures |a| == |p|
  {
    var s := Sum(Adjusted(p, q));
    if s <= TINY then p else Scaled(Adjusted(p, q), s)
  }

  function Ratio(p: real, q: real): real {
    if q > 0.0 then (if p / q < 1.0 then p / q else 1.0) else 0.0
  }

  /** Every draft token has an entry in its two rows, and the rows match. */
  predicate RowsFit(draft: seq<int>, qs: seq<Row>, ps: seq<Row>) {
    && |qs| == |draft| && |ps| > |draft|
    && forall i :: 0 <= i < |draft| ==> |qs[i]| == |ps[i]| && 0 <= draft[i] < |ps[i]|
  }

  datatype Sampled = Sampled(v: Verification, drawn: nat)

  function Accepts(draft: seq<int>, qs: seq<Row>, ps: seq<Row>, i: nat, r: real): bool
    requires RowsFit(draft, qs, ps) && i < |draft|
  {
    r <= Ratio(ps[i][draft[i]], qs[i][draft[i]])
  }

  /** The verification from draft i on, with the draws from number n on. */
  function VerifyFrom(draft: seq<int>, qs: seq<Row>, ps: seq<Row>, eos: int, noise: nat -> real, i: nat,
                      n: nat): (s: Sampled)
    requires RowsFit(draft, qs, ps) && i <= |draft|
    decreases |draft| - i
  {
    if i == |draft| then
      var t := Pick(ps[i], noise(n));
      Sampled(Verification(draft, t, i, t == eos), n + 1)
    else if !Accepts(draft, qs, ps, i, noise(n)) then
      var t := Pick(Residual(ps[i], qs[i]), noise(n + 1));
      Sampled(Verification(draft[..i], t, i, t == eos), n + 2)
    else if draft[i] == eos then
      Sampled(Verification(draft[..i + 1], eos, i + 1, true), n + 1)
    else VerifyFrom(draft, qs, ps, eos, noise, i + 1, n + 1)
  }

  // ----- The engine -----

  class SpeculativeEngine {
    const noise: nat -> real
    var drawn: nat

    constructor (noise: nat -> real)
      ensures this.noise == noise && drawn == 0
    {
      this.noise, drawn := noise, 0;
    }

    method Uniform() returns (r: real)
      modifies this
      ensures r == noise(old(drawn)) && drawn == old(drawn) + 1
    {
      r := noise(drawn);
      drawn := drawn + 1;
    }

    method SampleFromDistribution(probs: Row) returns (token: int)
      modifies this
      ensures token == Pick(probs, noise(old(drawn))) && drawn == old(drawn) + 1
    {
      var r := Uniform();
      var cumulative := 0.0;
      var i := 0;
      while i < |probs|
        invariant 0 <= i <= |probs| && cumulative == Sum(probs[..i])
        invariant Pick(probs, r) == PickFrom(probs, r, i)
      {
        assert probs[..i + 1][..i] == probs[..i];
        cumulative := cumulative + probs[i];
        if r <= cumulative {
          return i;
        }
        i := i + 1;
      }
      token := |probs| - 1;
    }

    method SampleAdjustedDistribution(p: Row, q: Row) returns (token: int)
      requires |q| >= |p|
      modifies this
      ensures token == Pick(Residual(p, q), noise(old(drawn))) && drawn == old(drawn) + 1
    {
      hide Pick, Scaled, Over, Adjusted, Sum;
      AdjustedNone(q);
      assert p[..0] == [];
      var adjusted, sum := [], 0.0;
      var i := 0;
      while i < |p|
        invariant 0 <= i <= |p| && adjusted == Adjusted(p[..i], q) && sum == Sum(adjusted) && drawn == old(drawn)
      {
        AdjustedNext(p, q, i);
        var entry := if p[i] - q[i] > 0.0 then p[i] - q[i] else 0.0;
        adjusted := adjusted + [entry];
        sum := sum + entry;
        i := i + 1;
      }
      assert p[..i] == p;
      if sum <= TINY {
        token := SampleFromDistribution(p);
      } else {
        var normalized := Normalize(adjusted, sum);
        token := SampleFromDistribution(normalized);
      }
    }

    method Normalize(row: Row, sum: real) returns (normalized: Row)
      requires sum != 0.0
      ensures normalized == Scaled(row, sum)
    {
      normalized := [];
      var i := 0;
      while i < |row|
        invariant 0 <= i <= |row| && normalized == Scaled(row[..i], sum)
      {
        assert row[..i + 1][..i] == row[..i];
        normalized := normalized + [Over(row[i], sum)];
        i := i + 1;
      }
      assert row[..i] == row;
    }

    method VerifyCandidates(draft: seq<int>, qs: seq<Row>, ps: seq<Row>, eos: int) returns (c: Checked)
      requires |qs| == |draft| && |ps| > |draft| ==> RowsFit(draft, qs, ps)
      modifies this
      ensures |qs| != |draft| || |ps| <= |draft| ==> c == InvalidArgument && drawn == old(drawn)
      ensures |qs| == |draft| && |ps| > |draft| ==>
        c.Valid? && Sampled(c.result, drawn) == VerifyFrom(draft, qs, ps, eos, noise, 0, old(drawn))
    {
      if |qs| != |draft| || |ps| < |draft| + 1 {
        return InvalidArgument;
      }
      var accepted, numAccepted := [], 0;
      var i := 0;
      while i < |draft|
        invariant 0 <= i <= |draft| && accepted == draft[..i] && numAccepted == i
        invariant VerifyFrom(draft, qs, ps, eos, noise, 0, old(drawn)) ==
          VerifyFrom(draft, qs, ps, eos, noise, i, drawn)
      {
        var candidate := draft[i];
        var q, p := qs[i][candidate], ps[i][candidate];
        var ratio := if q > 0.0 then (if p / q < 1.0 then p / q else 1.0) else 0.0;
        var r := Uniform();
        if r <= ratio {
          accepted := accepted + [candidate];
          numAccepted := numAccepted + 1;
          if candidate == eos {
            return Valid(Verification(accepted, eos, numAccepted, true));
          }
        } else {
          var token := SampleAdjustedDistribution(ps[i], qs[i]);
          return Valid(Verification(accepted, token, numAccepted, token == eos));
        }
        i := i + 1;
      }
      assert draft[..i] == draft;
      var bonus := SampleFromDistribution(ps[|draft|]);
      c := Valid(Verification(accepted, bonus, numAccepted, bonus == eos));
    }

    method MaxElement(row: Row) returns (k: nat)
      ensures k == ArgMax(row)
    {
      k := 0;
      var i := 1;
      while i < |row|
        invariant 1 <= i && (row == [] || i <= |row|)
        invariant k == if row == [] then 0 else ArgMax(row[..i])
      {
        assert row[..i + 1][..i] == row[..i];
        if row[k] < row[i] {
          k := i;
        }
        i := i + 1;
      }
      assert row == [] || row[..i] == row;
    }

    method VerifyCandidatesGreedy(draft: seq<int>, rows: seq<Row>, eos: int) returns (v: Verification)
      requires |rows| > |draft|
      ensures GreedyOutcome(draft, rows, eos, v)
    {
      var accepted, numAccepted := [], 0;
      var i := 0;
      while i < |draft|
        invariant 0 <= i <= |draft| && accepted == draft[..i] && numAccepted == i
        invariant forall j :: 0 <= j < i ==> draft[j] == ArgMax(rows[j]) && draft[j] != eos
      {
        var candidate := draft[i];
        var best := MaxElement(rows[i]);
        if candidate == best {
          accepted := accepted + [candidate];
          numAccepted := numAccepted + 1;
          if candidate == eos {
            return Verification(accepted, eos, numAccepted, true);
          }
        } else {
          return Verification(accepted, best, numAccepted, best == eos);
        }
        i := i + 1;
      }
      var bonus := MaxElement(rows[|draft|]);
      v := Verification(accepted, bonus, numAccepted, bonus == eos);
    }
  }
}
