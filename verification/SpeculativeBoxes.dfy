/** The draws behind a whole round: every outcome of a verification is a box of draws,
    one interval for each draw it makes. */
module SpeculativeBoxes {
  import opened Speculative
  import opened SpeculativeLaw

  /** Draft j is accepted, when draft i is judged by draw number n. */
  predicate AcceptedAt(draft: seq<int>, qs: seq<Row>, ps: seq<Row>, noise: nat -> real, i: nat, n: nat, j: nat)
    requires RowsFit(draft, qs, ps) && i <= j < |draft|
  {
    noise(n + j - i) <= Ratio(ps[j][draft[j]], qs[j][draft[j]])
  }

  /** The drafts i..a-1 are accepted by the draws from number n on, and none before the
      last of them ends the sequence. */
  predicate AcceptedRun(draft: seq<int>, qs: seq<Row>, ps: seq<Row>, eos: int, noise: nat -> real, i: nat, n: nat,
                        a: nat)
    requires RowsFit(draft, qs, ps) && i <= a <= |draft|
  {
    && (forall j :: i <= j < a ==> AcceptedAt(draft, qs, ps, noise, i, n, j))
    && (forall j :: i <= j < a - 1 ==> draft[j] != eos)
  }

  predicate GoesOn(draft: seq<int>, eos: int, i: nat, a: nat)
    requires a <= |draft|
  {
    i < a ==> draft[a - 1] != eos
  }

  lemma AcceptedRunSplit(draft: seq<int>, qs: seq<Row>, ps: seq<Row>, eos: int, noise: nat -> real, i: nat, n: nat,
                         a: nat)
    requires RowsFit(draft, qs, ps) && i < a <= |draft|
    ensures AcceptedRun(draft, qs, ps, eos, noise, i, n, a) <==>
      && Accepts(draft, qs, ps, i, noise(n))
      && (i < a - 1 ==> draft[i] != eos)
      && AcceptedRun(draft, qs, ps, eos, noise, i + 1, n + 1, a)
  {
    assert AcceptedAt(draft, qs, ps, noise, i, n, i) == Accepts(draft, qs, ps, i, noise(n)) by {
      assert n + i - i == n;
    }
    hide AcceptedAt, Accepts, RowsFit;
    if Accepts(draft, qs, ps, i, noise(n)) && AcceptedRun(draft, qs, ps, eos, noise, i + 1, n + 1, a) {
      forall j | i <= j < a ensures AcceptedAt(draft, qs, ps, noise, i, n, j) {
        if j > i {
          AcceptedShift(draft, qs, ps, noise, i, n, j);
        }
      }
    }
    if AcceptedRun(draft, qs, ps, eos, noise, i, n, a) {
      assert AcceptedAt(draft, qs, ps, noise, i, n, i);
      var i1, n1 := i + 1, n + 1;
      forall j | i1 <= j < a ensures AcceptedAt(draft, qs, ps, noise, i1, n1, j) {
        AcceptedShift(draft, qs, ps, noise, i, n, j);
      }
    }
  }

  lemma AcceptedShift(draft: seq<int>, qs: seq<Row>, ps: seq<Row>, noise: nat -> real, i: nat, n: nat, j: nat)
    requires RowsFit(draft, qs, ps) && i < j < |draft|
    ensures AcceptedAt(draft, qs, ps, noise, i, n, j) == AcceptedAt(draft, qs, ps, noise, i + 1, n + 1, j)
  {
    assert n + j - i == n + 1 + j - (i + 1);
  }

  // ----- The three kinds of outcome -----

  /** Draft a is rejected and t replaces it. */
  function RejectedAt(draft: seq<int>, eos: int, i: nat, n: nat, a: nat, t: int): Sampled
    requires i <= a <= |draft|
  {
    Sampled(Verification(draft[..a], t, a, t == eos), n + (a - i) + 2)
  }

  /** All drafts are accepted and t follows them. */
  function BonusToken(draft: seq<int>, eos: int, i: nat, n: nat, t: int): Sampled
    requires i <= |draft|
  {
    Sampled(Verification(draft, t, |draft|, t == eos), n + (|draft| - i) + 1)
  }

  /** The last accepted draft, number a - 1, is the end of the sequence. */
  function EndsAt(draft: seq<int>, eos: int, i: nat, n: nat, a: nat): Sampled
    requires i <= a <= |draft|
  {
    Sampled(Verification(draft[..a], eos, a, true), n + (a - i))
  }

  /** The draws that reject draft a and replace it by t. */
  predicate RejectBox(draft: seq<int>, qs: seq<Row>, ps: seq<Row>, eos: int, noise: nat -> real, i: nat, n: nat,
                      a: nat, t: nat)
    requires RowsFit(draft, qs, ps) && i <= a < |draft| && t < |ps[a]|
  {
    var r := Residual(ps[a], qs[a]);
    && AcceptedRun(draft, qs, ps, eos, noise, i, n, a) && GoesOn(draft, eos, i, a)
    && noise(n + a - i) > Ratio(ps[a][draft[a]], qs[a][draft[a]])
    && Falls(r, t, noise(n + a - i + 1))
  }

  predicate BonusBox(draft: seq<int>, qs: seq<Row>, ps: seq<Row>, eos: int, noise: nat -> real, i: nat, n: nat, t: nat)
    requires RowsFit(draft, qs, ps) && i <= |draft| && t < |ps[|draft|]|
  {
    var k, r := |draft|, ps[|draft|];
    && AcceptedRun(draft, qs, ps, eos, noise, i, n, k) && GoesOn(draft, eos, i, k)
    && Falls(r, t, noise(n + k - i))
  }

  /** Draws are numbers from 0 to 1. */
  ghost predicate Uniform(noise: nat -> real) {
    forall k :: 0.0 <= noise(k) <= 1.0
  }

  ghost predicate Rows(draft: seq<int>, qs: seq<Row>, ps: seq<Row>) {
    && RowsFit(draft, qs, ps)
    && (forall j :: 0 <= j < |draft| ==> Distribution(qs[j]))
    && (forall j :: 0 <= j <= |draft| ==> Distribution(ps[j]))
  }

  lemma DrawnAtLeast(draft: seq<int>, qs: seq<Row>, ps: seq<Row>, eos: int, noise: nat -> real, i: nat, n: nat)
    requires RowsFit(draft, qs, ps) && i <= |draft|
    ensures var s := VerifyFrom(draft, qs, ps, eos, noise, i, n); s.drawn >= n + 1 && |s.v.accepted| >= i
    decreases |draft| - i
  {
    if i < |draft| && Accepts(draft, qs, ps, i, noise(n)) && draft[i] != eos {
      DrawnAtLeast(draft, qs, ps, eos, noise, i + 1, n + 1);
    }
  }

  /** Verification from draft i on rejects draft a and emits t exactly on that box. */
  lemma {:induction false} RejectedIff(draft: seq<int>, qs: seq<Row>, ps: seq<Row>, eos: int, noise: nat -> real,
                                       i: nat, n: nat, a: nat, t: nat)
    requires Rows(draft, qs, ps) && Uniform(noise) && i <= a < |draft| && t < |ps[a]|
    ensures VerifyFrom(draft, qs, ps, eos, noise, i, n) == RejectedAt(draft, eos, i, n, a, t)
      <==> RejectBox(draft, qs, ps, eos, noise, i, n, a, t)
    decreases a - i
  {
    hide Distribution, Residual, Ratio, AcceptedRun;
    var s := VerifyFrom(draft, qs, ps, eos, noise, i, n);
    if i == a {
      EmptyRun(draft, qs, ps, eos, noise, i, n);
      ResidualDistribution(ps[a], qs[a]);
      PickLaw(Residual(ps[a], qs[a]), t);
      if Accepts(draft, qs, ps, i, noise(n)) && draft[i] != eos {
        DrawnAtLeast(draft, qs, ps, eos, noise, i + 1, n + 1);
      }
    } else {
      AcceptedRunSplit(draft, qs, ps, eos, noise, i, n, a);
      if Accepts(draft, qs, ps, i, noise(n)) && draft[i] != eos {
        RejectedIff(draft, qs, ps, eos, noise, i + 1, n + 1, a, t);
      }
    }
  }

  lemma EmptyRun(draft: seq<int>, qs: seq<Row>, ps: seq<Row>, eos: int, noise: nat -> real, i: nat, n: nat)
    requires RowsFit(draft, qs, ps) && i <= |draft|
    ensures AcceptedRun(draft, qs, ps, eos, noise, i, n, i)
  {
  }

  /** It accepts all drafts and emits t exactly on that box. */
  lemma {:induction false} BonusIff(draft: seq<int>, qs: seq<Row>, ps: seq<Row>, eos: int, noise: nat -> real, i: nat,
                                    n: nat, t: nat)
    requires Rows(draft, qs, ps) && Uniform(noise) && i <= |draft| && t < |ps[|draft|]|
    ensures VerifyFrom(draft, qs, ps, eos, noise, i, n) == BonusToken(draft, eos, i, n, t)
      <==> BonusBox(draft, qs, ps, eos, noise, i, n, t)
    decreases |draft| - i
  {
    hide Distribution, Residual, Ratio, AcceptedRun;
    if i == |draft| {
      EmptyRun(draft, qs, ps, eos, noise, i, n);
      PickLaw(ps[i], t);
    } else {
      AcceptedRunSplit(draft, qs, ps, eos, noise, i, n, |draft|);
      if Accepts(draft, qs, ps, i, noise(n)) && draft[i] != eos {
        BonusIff(draft, qs, ps, eos, noise, i + 1, n + 1, t);
      }
    }
  }

  /** It stops at an accepted end of the sequence exactly when the drafts up to it are
      accepted. */
  lemma {:induction false} EndsIff(draft: seq<int>, qs: seq<Row>, ps: seq<Row>, eos: int, noise: nat -> real, i: nat,
                                   n: nat, a: nat)
    requires RowsFit(draft, qs, ps) && i < a <= |draft|
    ensures VerifyFrom(draft, qs, ps, eos, noise, i, n) == EndsAt(draft, eos, i, n, a)
      <==> AcceptedRun(draft, qs, ps, eos, noise, i, n, a) && draft[a - 1] == eos
    decreases a - i
  {
    hide AcceptedRun;
    AcceptedRunSplit(draft, qs, ps, eos, noise, i, n, a);
    if i == a - 1 {
      EmptyRun(draft, qs, ps, eos, noise, a, n + 1);
    }
    if Accepts(draft, qs, ps, i, noise(n)) && draft[i] != eos {
      if i < a - 1 {
        EndsIff(draft, qs, ps, eos, noise, i + 1, n + 1, a);
      } else {
        DrawnAtLeast(draft, qs, ps, eos, noise, i + 1, n + 1);
      }
    }
  }

  /** At least the drafts up to a - 1 are accepted exactly on the box that accepts them. */
  lemma {:induction false} AcceptedIff(draft: seq<int>, qs: seq<Row>, ps: seq<Row>, eos: int, noise: nat -> real,
                                       i: nat, n: nat, a: nat)
    requires RowsFit(draft, qs, ps) && i <= a <= |draft|
    ensures |VerifyFrom(draft, qs, ps, eos, noise, i, n).v.accepted| >= a
      <==> AcceptedRun(draft, qs, ps, eos, noise, i, n, a)
    decreases a - i
  {
    hide AcceptedRun;
    if i == a {
      EmptyRun(draft, qs, ps, eos, noise, i, n);
      DrawnAtLeast(draft, qs, ps, eos, noise, i, n);
    } else {
      AcceptedRunSplit(draft, qs, ps, eos, noise, i, n, a);
      if i + 1 == a {
        EmptyRun(draft, qs, ps, eos, noise, a, n + 1);
      }
      if Accepts(draft, qs, ps, i, noise(n)) && draft[i] != eos {
        AcceptedIff(draft, qs, ps, eos, noise, i + 1, n + 1, a);
      }
    }
  }
}
