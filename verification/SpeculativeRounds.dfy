/** The law of speculative decoding from its draws: a round's outcome has the sum, over
    all drafts, of the draft's probability times the volume of its box of draws; rounds
    follow one another until the text is complete. This law is shown to be the recursion
    over positions of SpeculativeLaw. */
module SpeculativeRounds {
  import opened Reals
  import opened Speculative
  import opened SpeculativeLaw

  /** A round emits exactly w, the last token of which replaces a draft or follows all;
      or the first tokens it emits are accepted drafts and are w. */
  datatype Outcome = Emits(w: seq<int>) | Accepted(w: seq<int>)

  /** What remains of an outcome after its first draft. */
  function Rest(o: Outcome): Outcome {
    match o
    case Emits(w) => if |w| <= 1 then Accepted([]) else Emits(w[1..])
    case Accepted(w) => if w == [] then o else Accepted(w[1..])
  }

  ghost predicate OutcomeOk(o: Outcome, vocab: nat) {
    Word(o.w, vocab) && (o.Emits? ==> o.w != [])
  }

  /** The side of the outcome's box that judges the first draft, y: its ratio if it has
      to be accepted, and what exceeds the ratio, times the residual of the replacement,
      if it has to be replaced. */
  function Side(pr: Row, qr: Row, eos: int, y: nat, o: Outcome): real
    requires |pr| == |qr| && y < |pr| && (o.Emits? ==> o.w != [] && 0 <= o.w[0] < |pr|)
  {
    var stops := y == eos && |o.w| > 1;
    match o
    case Emits(w) =>
      if |w| == 1 then Times(1.0 - Ratio(pr[y], qr[y]), Residual(pr, qr)[w[0]])
      else if y == w[0] && !stops then Ratio(pr[y], qr[y])
      else 0.0
    case Accepted(w) =>
      if w == [] then 1.0
      else if y == w[0] && !stops then Ratio(pr[y], qr[y])
      else 0.0
  }

  /** The volume of the box of draws on which verifying d has the outcome. */
  ghost function Volume(p: seq<int> -> Row, q: seq<int> -> Row, vocab: nat, eos: int,
                        context: seq<int>, d: seq<int>, o: Outcome): real
    requires Model(p, vocab) && Model(q, vocab) && Word(d, vocab) && OutcomeOk(o, vocab)
    decreases |d|
  {
    if d == [] then
      match o
      case Emits(w) => if |w| == 1 then p(context)[w[0]] else 0.0
      case Accepted(w) => if w == [] then 1.0 else 0.0
    else
      Times(Side(p(context), q(context), eos, d[0], o),
            Volume(p, q, vocab, eos, context + [d[0]], d[1..], Rest(o)))
  }

  // ----- The volume is the product of the sides of the box -----

  /** Row j is the model's after the first j drafts. */
  ghost predicate RowsOf(f: seq<int> -> Row, context: seq<int>, draft: seq<int>, rows: seq<Row>) {
    |rows| <= |draft| + 1 && forall j :: 0 <= j < |rows| ==> rows[j] == f(context + draft[..j])
  }

  /** The lengths of the intervals of draws that accept the drafts i..a-1. */
  function RatioProduct(draft: seq<int>, qs: seq<Row>, ps: seq<Row>, i: nat, a: nat): real
    requires RowsFit(draft, qs, ps) && i <= a <= |draft|
    decreases a - i
  {
    if i == a then 1.0
    else Times(Ratio(ps[i][draft[i]], qs[i][draft[i]]), RatioProduct(draft, qs, ps, i + 1, a))
  }

  lemma {:induction false} AnyVolume(p: seq<int> -> Row, q: seq<int> -> Row, vocab: nat, eos: int, context: seq<int>,
                                     d: seq<int>)
    requires Model(p, vocab) && Model(q, vocab) && Word(d, vocab)
    ensures Volume(p, q, vocab, eos, context, d, Accepted([])) == 1.0
    decreases |d|
  {
    hide Distribution;
    if d != [] {
      AnyVolume(p, q, vocab, eos, context + [d[0]], d[1..]);
    }
  }

  /** The situation of draft i. */
  ghost predicate At(p: seq<int> -> Row, q: seq<int> -> Row, vocab: nat, context: seq<int>,
                     draft: seq<int>, qs: seq<Row>, ps: seq<Row>) {
    && Model(p, vocab) && Model(q, vocab) && Word(draft, vocab) && RowsFit(draft, qs, ps)
    && RowsOf(q, context, draft, qs) && RowsOf(p, context, draft, ps)
  }

  lemma NextDraft(context: seq<int>, draft: seq<int>, i: nat)
    requires i < |draft|
    ensures draft[i..][0] == draft[i] && draft[i..][1..] == draft[i + 1..]
    ensures context + draft[..i] + [draft[i]] == context + draft[..i + 1]
  {
  }

  /** Rejecting draft a in favour of t: the box of RejectBox has this volume. */
  lemma {:induction false} RejectVolume(p: seq<int> -> Row, q: seq<int> -> Row, vocab: nat, eos: int, context: seq<int>,
                                        draft: seq<int>, qs: seq<Row>, ps: seq<Row>, i: nat, a: nat, t: nat)
    requires At(p, q, vocab, context, draft, qs, ps) && i <= a < |draft| && t < vocab
    requires forall j :: i <= j < a ==> draft[j] != eos
    ensures |Residual(ps[a], qs[a])| == vocab
    ensures Volume(p, q, vocab, eos, context + draft[..i], draft[i..], Emits(draft[i..a] + [t]))
      == Times(RatioProduct(draft, qs, ps, i, a),
               Times(1.0 - Ratio(ps[a][draft[a]], qs[a][draft[a]]), Residual(ps[a], qs[a])[t]))
    decreases a - i
  {
    hide Distribution, Times, Ratio, Residual;
    var o := Emits(draft[i..a] + [t]);
    var last := Times(1.0 - Ratio(ps[a][draft[a]], qs[a][draft[a]]), Residual(ps[a], qs[a])[t]);
    NextDraft(context, draft, i);
    if i == a {
      assert draft[i..a] + [t] == [t];
      AnyVolume(p, q, vocab, eos, context + draft[..i] + [draft[i]], draft[i + 1..]);
      TimesOne(last);
    } else {
      assert o.w[0] == draft[i] && o.w[1..] == draft[i + 1..a] + [t];
      RejectVolume(p, q, vocab, eos, context, draft, qs, ps, i + 1, a, t);
      Associate(Ratio(ps[i][draft[i]], qs[i][draft[i]]), RatioProduct(draft, qs, ps, i + 1, a), last);
    }
  }

  /** Accepting all drafts and drawing t: the box of BonusBox has this volume. */
  lemma {:induction false} BonusVolume(p: seq<int> -> Row, q: seq<int> -> Row, vocab: nat, eos: int, context: seq<int>,
                                       draft: seq<int>, qs: seq<Row>, ps: seq<Row>, i: nat, t: nat)
    requires At(p, q, vocab, context, draft, qs, ps) && i <= |draft| && t < vocab
    requires forall j :: i <= j < |draft| ==> draft[j] != eos
    ensures |ps[|draft|]| == vocab
    ensures Volume(p, q, vocab, eos, context + draft[..i], draft[i..], Emits(draft[i..] + [t]))
      == Times(RatioProduct(draft, qs, ps, i, |draft|), ps[|draft|][t])
    decreases |draft| - i
  {
    hide Distribution, Times, Ratio, Residual;
    var o := Emits(draft[i..] + [t]);
    assert ps[|draft|] == p(context + draft[..|draft|]);
    if i == |draft| {
      assert draft[i..] == [] && [] + [t] == [t];
      TimesOne(ps[|draft|][t]);
    } else {
      NextDraft(context, draft, i);
      assert o.w[0] == draft[i] && o.w[1..] == draft[i + 1..] + [t];
      BonusVolume(p, q, vocab, eos, context, draft, qs, ps, i + 1, t);
      Associate(Ratio(ps[i][draft[i]], qs[i][draft[i]]), RatioProduct(draft, qs, ps, i + 1, |draft|), ps[|draft|][t]);
    }
  }

  /** Accepting the drafts up to a - 1, which may be the end of the sequence. */
  lemma {:induction false} AcceptVolume(p: seq<int> -> Row, q: seq<int> -> Row, vocab: nat, eos: int, context: seq<int>,
                                        draft: seq<int>, qs: seq<Row>, ps: seq<Row>, i: nat, a: nat)
    requires At(p, q, vocab, context, draft, qs, ps) && i <= a <= |draft|
    requires forall j :: i <= j < a - 1 ==> draft[j] != eos
    ensures Volume(p, q, vocab, eos, context + draft[..i], draft[i..], Accepted(draft[i..a]))
      == RatioProduct(draft, qs, ps, i, a)
    decreases a - i
  {
    hide Distribution, Times, Ratio, Residual;
    if i == a {
      assert draft[i..a] == [];
      AnyVolume(p, q, vocab, eos, context + draft[..i], draft[i..]);
    } else {
      NextDraft(context, draft, i);
      assert draft[i..a][0] == draft[i] && draft[i..a][1..] == draft[i + 1..a];
      AcceptVolume(p, q, vocab, eos, context, draft, qs, ps, i + 1, a);
    }
  }

  /** How many drafts the outcome accepts. */
  function Taken(o: Outcome): nat
    requires o.Emits? ==> o.w != []
  {
    if o.Emits? then |o.w| - 1 else |o.w|
  }

  /** The drafts can have the outcome: they start with its accepted tokens, of which
      only the last token of the outcome may end the sequence. */
  predicate Matches(d: seq<int>, eos: int, o: Outcome)
    requires o.Emits? ==> o.w != []
  {
    var a := Taken(o);
    a <= |d| && d[..a] == o.w[..a] && forall i :: 0 <= i < a && i < |o.w| - 1 ==> o.w[i] != eos
  }

  /** Drafts that cannot have the outcome have it on no draws. */
  lemma {:induction false} NoVolume(p: seq<int> -> Row, q: seq<int> -> Row, vocab: nat, eos: int,
                                    context: seq<int>, d: seq<int>, o: Outcome)
    requires Model(p, vocab) && Model(q, vocab) && Word(d, vocab) && OutcomeOk(o, vocab) && !Matches(d, eos, o)
    ensures Volume(p, q, vocab, eos, context, d, o) == 0.0
    decreases |d|
  {
    hide Distribution, Times, Ratio, Residual;
    if d != [] {
      assert Taken(o) > 0;
      var v := Volume(p, q, vocab, eos, context + [d[0]], d[1..], Rest(o));
      if d[0] != o.w[0] || (d[0] == eos && |o.w| > 1) {
        ZeroTimes(v);
      } else {
        RestMatches(d, eos, o);
        NoVolume(p, q, vocab, eos, context + [d[0]], d[1..], Rest(o));
        ZeroTimes(Side(p(context), q(context), eos, d[0], o));
        Swap(0.0, Side(p(context), q(context), eos, d[0], o));
      }
    }
  }

  lemma RestMatches(d: seq<int>, eos: int, o: Outcome)
    requires d != [] && o.w != [] && Taken(o) > 0 && d[0] == o.w[0] && (d[0] == eos ==> |o.w| == 1)
    ensures Rest(o).Emits? ==> Rest(o).w != []
    ensures Matches(d[1..], eos, Rest(o)) ==> Matches(d, eos, o)
  {
    var a, r := Taken(o), Rest(o);
    if Matches(d[1..], eos, r) {
      assert Taken(r) == a - 1;
      assert d[..a] == [d[0]] + d[1..][..a - 1] && o.w[..a] == [o.w[0]] + r.w[..a - 1];
      forall i | 0 <= i < a && i < |o.w| - 1 ensures o.w[i] != eos {
        if i > 0 {
          assert o.w[i] == r.w[i - 1];
        }
      }
    }
  }

  /** The probability of the drafts d. */
  ghost function DraftProbability(q: seq<int> -> Row, vocab: nat, context: seq<int>, d: seq<int>): real
    requires Model(q, vocab) && Word(d, vocab)
    decreases |d|
  {
    if d == [] then 1.0
    else Times(q(context)[d[0]], DraftProbability(q, vocab, context + [d[0]], d[1..]))
  }

  /** Over all ways to go on from the drafts d with j more. */
  ghost function Drafts(p: seq<int> -> Row, q: seq<int> -> Row, vocab: nat, eos: int,
                      context: seq<int>, d: seq<int>, j: nat, o: Outcome): real
    requires Model(p, vocab) && Model(q, vocab) && Word(d, vocab) && OutcomeOk(o, vocab)
    decreases j, vocab + 1
  {
    if j == 0 then Times(DraftProbability(q, vocab, context, d), Volume(p, q, vocab, eos, context, d, o))
    else DraftsBelow(p, q, vocab, eos, context, d, j, o, vocab)
  }

  ghost function DraftsBelow(p: seq<int> -> Row, q: seq<int> -> Row, vocab: nat, eos: int,
                           context: seq<int>, d: seq<int>, j: nat, o: Outcome, n: nat): real
    requires Model(p, vocab) && Model(q, vocab) && Word(d, vocab) && OutcomeOk(o, vocab) && j > 0 && n <= vocab
    decreases j, n
  {
    if n == 0 then 0.0
    else
      DraftsBelow(p, q, vocab, eos, context, d, j, o, n - 1)
      + Drafts(p, q, vocab, eos, context, d + [n - 1], j - 1, o)
  }

  /** The probability of an outcome of a round with j drafts. */
  ghost function RoundLaw(p: seq<int> -> Row, q: seq<int> -> Row, vocab: nat, eos: int,
                          context: seq<int>, j: nat, o: Outcome): real
    requires Model(p, vocab) && Model(q, vocab) && OutcomeOk(o, vocab)
  {
    Drafts(p, q, vocab, eos, context, [], j, o)
  }

  // ----- The first draft of a round -----

  lemma Exchange(a: real, b: real, c: real, d: real)
    ensures Times(Times(a, b), Times(c, d)) == Times(Times(a, c), Times(b, d))
  {
  }

  lemma RestOk(o: Outcome, vocab: nat)
    requires OutcomeOk(o, vocab)
    ensures OutcomeOk(Rest(o), vocab)
  {
  }

  /** The first draft contributes its own probability and its own side. */
  lemma {:induction false} Peel(p: seq<int> -> Row, q: seq<int> -> Row, vocab: nat, eos: int,
                                context: seq<int>, y: nat, d: seq<int>, j: nat, o: Outcome)
    requires Model(p, vocab) && Model(q, vocab) && Word(d, vocab) && OutcomeOk(o, vocab) && y < vocab
    ensures Word([y] + d, vocab) && OutcomeOk(Rest(o), vocab)
    ensures Drafts(p, q, vocab, eos, context, [y] + d, j, o)
      == Times(Times(q(context)[y], Side(p(context), q(context), eos, y, o)),
               Drafts(p, q, vocab, eos, context + [y], d, j, Rest(o)))
    decreases j, vocab + 1
  {
    hide Times, Side, Distribution;
    RestOk(o, vocab);
    if j == 0 {
      assert ([y] + d)[1..] == d && ([y] + d)[0] == y;
      Exchange(q(context)[y], DraftProbability(q, vocab, context + [y], d),
               Side(p(context), q(context), eos, y, o), Volume(p, q, vocab, eos, context + [y], d, Rest(o)));
    } else {
      PeelBelow(p, q, vocab, eos, context, y, d, j, o, vocab);
    }
  }

  lemma {:induction false} PeelBelow(p: seq<int> -> Row, q: seq<int> -> Row, vocab: nat, eos: int,
                                     context: seq<int>, y: nat, d: seq<int>, j: nat, o: Outcome, n: nat)
    requires Model(p, vocab) && Model(q, vocab) && Word(d, vocab) && OutcomeOk(o, vocab) && y < vocab
    requires j > 0 && n <= vocab
    ensures Word([y] + d, vocab) && OutcomeOk(Rest(o), vocab)
    ensures DraftsBelow(p, q, vocab, eos, context, [y] + d, j, o, n)
      == Times(Times(q(context)[y], Side(p(context), q(context), eos, y, o)),
               DraftsBelow(p, q, vocab, eos, context + [y], d, j, Rest(o), n))
    decreases j, n
  {
    hide Times, Side, Distribution;
    RestOk(o, vocab);
    var f := Times(q(context)[y], Side(p(context), q(context), eos, y, o));
    if n == 0 {
      ZeroTimes(f);
      Swap(0.0, f);
    } else {
      PeelBelow(p, q, vocab, eos, context, y, d, j, o, n - 1);
      Peel(p, q, vocab, eos, context, y, d + [n - 1], j - 1, o);
      assert [y] + d + [n - 1] == [y] + (d + [n - 1]);
      var u := DraftsBelow(p, q, vocab, eos, context + [y], d, j, Rest(o), n - 1);
      var v := Drafts(p, q, vocab, eos, context + [y], d + [n - 1], j - 1, Rest(o));
      Spreads(f, u, v);
    }
  }

  lemma Spreads(f: real, u: real, v: real)
    ensures Times(f, u) + Times(f, v) == Times(f, u + v)
  {
  }

  /** A round, by its first draft. */
  ghost function FirstDraft(p: seq<int> -> Row, q: seq<int> -> Row, vocab: nat, eos: int,
                            context: seq<int>, j: nat, o: Outcome, n: nat): real
    requires Model(p, vocab) && Model(q, vocab) && OutcomeOk(o, vocab) && j > 0 && n <= vocab
  {
    if n == 0 then 0.0
    else
      RestOk(o, vocab);
      FirstDraft(p, q, vocab, eos, context, j, o, n - 1)
      + Times(Times(q(context)[n - 1], Side(p(context), q(context), eos, n - 1, o)),
              RoundLaw(p, q, vocab, eos, context + [n - 1], j - 1, Rest(o)))
  }

  lemma {:induction false} FirstDraftIs(p: seq<int> -> Row, q: seq<int> -> Row, vocab: nat, eos: int,
                                        context: seq<int>, j: nat, o: Outcome, n: nat)
    requires Model(p, vocab) && Model(q, vocab) && OutcomeOk(o, vocab) && j > 0 && n <= vocab
    ensures DraftsBelow(p, q, vocab, eos, context, [], j, o, n) == FirstDraft(p, q, vocab, eos, context, j, o, n)
  {
    hide Times, Side, Distribution;
    if n > 0 {
      FirstDraftIs(p, q, vocab, eos, context, j, o, n - 1);
      Peel(p, q, vocab, eos, context, n - 1, [], j - 1, o);
      assert [] + [n - 1] == [n - 1] + [];
    }
  }

  lemma RoundStep(p: seq<int> -> Row, q: seq<int> -> Row, vocab: nat, eos: int, context: seq<int>, j: nat, o: Outcome)
    requires Model(p, vocab) && Model(q, vocab) && OutcomeOk(o, vocab)
    ensures j > 0 ==>
      RoundLaw(p, q, vocab, eos, context, j, o) == FirstDraft(p, q, vocab, eos, context, j, o, vocab)
    ensures j == 0 ==> RoundLaw(p, q, vocab, eos, context, j, o) == Volume(p, q, vocab, eos, context, [], o)
  {
    if j > 0 {
      FirstDraftIs(p, q, vocab, eos, context, j, o, vocab);
    }
  }

  /** All drafts together have probability 1. */
  lemma {:induction false} AnyRound(p: seq<int> -> Row, q: seq<int> -> Row, vocab: nat, eos: int, context: seq<int>,
                                    j: nat)
    requires Model(p, vocab) && Model(q, vocab)
    ensures RoundLaw(p, q, vocab, eos, context, j, Accepted([])) == 1.0
    decreases j, vocab + 1
  {
    hide Drafts;
    RoundStep(p, q, vocab, eos, context, j, Accepted([]));
    if j > 0 {
      AnyFirst(p, q, vocab, eos, context, j, vocab);
      assert q(context)[..vocab] == q(context);
    }
  }

  lemma {:induction false} AnyFirst(p: seq<int> -> Row, q: seq<int> -> Row, vocab: nat, eos: int, context: seq<int>,
                                    j: nat, n: nat)
    requires Model(p, vocab) && Model(q, vocab) && j > 0 && n <= vocab
    ensures FirstDraft(p, q, vocab, eos, context, j, Accepted([]), n) == Sum(q(context)[..n])
    decreases j, n
  {
    hide Distribution, RoundLaw;
    if n > 0 {
      AnyFirst(p, q, vocab, eos, context, j, n - 1);
      AnyRound(p, q, vocab, eos, context + [n - 1], j - 1);
      SumNext(q(context), n - 1);
      TimesOne(q(context)[n - 1]);
    }
  }

  lemma TimesOne(a: real)
    ensures Times(a, 1.0) == a && Times(1.0, a) == a
  {
  }

  /** An outcome that starts with an accepted draft goes on after that draft. */
  ghost predicate Continues(o: Outcome) {
    |o.w| > (if o.Emits? then 1 else 0)
  }

  lemma {:induction false} OnlyDraft(p: seq<int> -> Row, q: seq<int> -> Row, vocab: nat, eos: int,
                                     context: seq<int>, j: nat, o: Outcome, n: nat)
    requires Model(p, vocab) && Model(q, vocab) && OutcomeOk(o, vocab) && Continues(o) && j > 0 && n <= vocab
    ensures OutcomeOk(Rest(o), vocab)
    ensures var x := o.w[0];
      FirstDraft(p, q, vocab, eos, context, j, o, n) ==
        if x < n
        then Times(Times(q(context)[x], Side(p(context), q(context), eos, x, o)),
                   RoundLaw(p, q, vocab, eos, context + [x], j - 1, Rest(o)))
        else 0.0
  {
    hide Times, Distribution, RoundLaw, Ratio, Residual;
    RestOk(o, vocab);
    if n > 0 {
      OnlyDraft(p, q, vocab, eos, context, j, o, n - 1);
      var y := n - 1;
      if y != o.w[0] {
        NoSide(q(context)[y], RoundLaw(p, q, vocab, eos, context + [y], j - 1, Rest(o)));
      }
    }
  }

  lemma NoSide(a: real, b: real)
    ensures Times(Times(a, 0.0), b) == 0.0
  {
  }

  /** The first draft is replaced by t. */
  lemma {:induction false} ReplacedFirst(p: seq<int> -> Row, q: seq<int> -> Row, vocab: nat, eos: int,
                                         context: seq<int>, j: nat, t: nat, n: nat)
    requires Model(p, vocab) && Model(q, vocab) && t < vocab && j > 0 && n <= vocab
    ensures FirstDraft(p, q, vocab, eos, context, j, Emits([t]), n)
      == Times(Rejected(p(context)[..n], q(context)[..n]), Residual(p(context), q(context))[t])
  {
    hide Distribution, RoundLaw, Ratio, Residual, Times;
    var pr, qr := p(context), q(context);
    if n == 0 {
      ZeroTimes(Residual(pr, qr)[t]);
    } else {
      var y := n - 1;
      ReplacedFirst(p, q, vocab, eos, context, j, t, n - 1);
      AnyRound(p, q, vocab, eos, context + [y], j - 1);
      assert pr[..n][..y] == pr[..y] && qr[..n][..y] == qr[..y];
      TimesOne(Times(qr[y], Times(1.0 - Ratio(pr[y], qr[y]), Residual(pr, qr)[t])));
      Associate(qr[y], 1.0 - Ratio(pr[y], qr[y]), Residual(pr, qr)[t]);
      Distribute(Rejected(pr[..y], qr[..y]), Times(qr[y], 1.0 - Ratio(pr[y], qr[y])), Residual(pr, qr)[t]);
    }
  }

  /** The law of a round's outcomes, position by position. */
  lemma RoundLawStep(p: seq<int> -> Row, q: seq<int> -> Row, vocab: nat, eos: int, context: seq<int>, j: nat,
                     o: Outcome)
    requires Model(p, vocab) && Model(q, vocab) && OutcomeOk(o, vocab)
    ensures var pr, qr := p(context), q(context);
      && OutcomeOk(Rest(o), vocab)
      && (o == Accepted([]) ==> RoundLaw(p, q, vocab, eos, context, j, o) == 1.0)
      && (j == 0 && Continues(o) ==> RoundLaw(p, q, vocab, eos, context, j, o) == 0.0)
      && (j == 0 && o.Emits? && |o.w| == 1 ==> RoundLaw(p, q, vocab, eos, context, j, o) == pr[o.w[0]])
      && (j > 0 && o.Emits? && |o.w| == 1 ==>
            RoundLaw(p, q, vocab, eos, context, j, o) == Times(Rejected(pr, qr), Residual(pr, qr)[o.w[0]]))
      && (j > 0 && Continues(o) ==>
            RoundLaw(p, q, vocab, eos, context, j, o) ==
              if o.w[0] == eos && |o.w| > 1 then 0.0
              else Times(Times(qr[o.w[0]], Ratio(pr[o.w[0]], qr[o.w[0]])),
                         RoundLaw(p, q, vocab, eos, context + [o.w[0]], j - 1, Rest(o))))
  {
    hide Distribution, RoundLaw, Ratio, Residual, Times;
    RestOk(o, vocab);
    var pr, qr := p(context), q(context);
    RoundStep(p, q, vocab, eos, context, j, o);
    if o == Accepted([]) {
      AnyRound(p, q, vocab, eos, context, j);
    } else if j > 0 && Continues(o) {
      OnlyDraft(p, q, vocab, eos, context, j, o, vocab);
      NoSide(qr[o.w[0]], RoundLaw(p, q, vocab, eos, context + [o.w[0]], j - 1, Rest(o)));
    } else if j > 0 {
      assert o.w == [o.w[0]];
      ReplacedFirst(p, q, vocab, eos, context, j, o.w[0], vocab);
      assert pr[..vocab] == pr && qr[..vocab] == qr;
    }
  }

  // ----- Rounds, one after the other -----

  /** The probability that decoding by rounds of k drafts starts with w: the first round
      emits the first tokens of w and the next rounds the rest, or it accepts all of w. */
  ghost function DecodeLaw(p: seq<int> -> Row, q: seq<int> -> Row, vocab: nat, eos: int, k: nat,
                           context: seq<int>, w: seq<int>): real
    requires Model(p, vocab) && Model(q, vocab) && Word(w, vocab)
    decreases |w|, 0
  {
    FirstRound(p, q, vocab, eos, k, context, k, w, |w|) + RoundLaw(p, q, vocab, eos, context, k, Accepted(w))
  }

  /** The rounds that emit up to n tokens of w, when this one has j drafts. */
  ghost function FirstRound(p: seq<int> -> Row, q: seq<int> -> Row, vocab: nat, eos: int, k: nat,
                            context: seq<int>, j: nat, w: seq<int>, n: nat): real
    requires Model(p, vocab) && Model(q, vocab) && Word(w, vocab) && n <= |w|
    decreases |w|, 0, n
  {
    if n == 0 then 0.0
    else
      FirstRound(p, q, vocab, eos, k, context, j, w, n - 1)
      + Times(RoundLaw(p, q, vocab, eos, context, j, Emits(w[..n])),
              Resumes(p, q, vocab, eos, k, context + w[..n], w[n - 1], w[n..]))
  }

  /** Nothing follows the end of the sequence. */
  ghost function Resumes(p: seq<int> -> Row, q: seq<int> -> Row, vocab: nat, eos: int, k: nat,
                         context: seq<int>, x: int, rest: seq<int>): real
    requires Model(p, vocab) && Model(q, vocab) && Word(rest, vocab)
    decreases |rest|, 1
  {
    if x == eos then (if rest == [] then 1.0 else 0.0) else DecodeLaw(p, q, vocab, eos, k, context, rest)
  }

  /** A round with j drafts, and what follows it. */
  ghost function Decodes(p: seq<int> -> Row, q: seq<int> -> Row, vocab: nat, eos: int, k: nat,
                         context: seq<int>, j: nat, w: seq<int>): real
    requires Model(p, vocab) && Model(q, vocab) && Word(w, vocab)
  {
    FirstRound(p, q, vocab, eos, k, context, j, w, |w|) + RoundLaw(p, q, vocab, eos, context, j, Accepted(w))
  }

  /** Without drafts a round emits one token. */
  lemma {:induction false} NoDraftsLeft(p: seq<int> -> Row, q: seq<int> -> Row, vocab: nat, eos: int, k: nat,
                                        context: seq<int>, w: seq<int>, n: nat)
    requires Model(p, vocab) && Model(q, vocab) && Word(w, vocab) && 0 < n <= |w|
    ensures FirstRound(p, q, vocab, eos, k, context, 0, w, n)
      == Times(p(context)[w[0]], Resumes(p, q, vocab, eos, k, context + [w[0]], w[0], w[1..]))
    decreases n
  {
    hide Distribution, RoundLaw, Times, Resumes;
    RoundLawStep(p, q, vocab, eos, context, 0, Emits(w[..n]));
    if n == 1 {
      assert w[..1] == [w[0]];
    } else {
      NoDraftsLeft(p, q, vocab, eos, k, context, w, n - 1);
      ZeroTimes(Resumes(p, q, vocab, eos, k, context + w[..n], w[n - 1], w[n..]));
    }
  }

  /** The first token replaces the first draft, or is the first draft, accepted. */
  lemma {:induction false} FirstToken(p: seq<int> -> Row, q: seq<int> -> Row, vocab: nat, eos: int, k: nat,
                                      context: seq<int>, j: nat, w: seq<int>, n: nat)
    requires Model(p, vocab) && Model(q, vocab) && Word(w, vocab) && 0 < n <= |w| && j > 0
    ensures Word(w[1..], vocab)
    ensures var pr, qr, x, next := p(context), q(context), w[0], context + [w[0]];
      FirstRound(p, q, vocab, eos, k, context, j, w, n)
        == Times(Times(Rejected(pr, qr), Residual(pr, qr)[x]), Resumes(p, q, vocab, eos, k, next, x, w[1..]))
           + if x == eos then 0.0
             else Times(Times(qr[x], Ratio(pr[x], qr[x])), FirstRound(p, q, vocab, eos, k, next, j - 1, w[1..], n - 1))
    decreases n
  {
    hide Distribution, RoundLaw, Times, Resumes, Residual, Ratio, Rejected;
    var pr, qr, x, next, rest := p(context), q(context), w[0], context + [w[0]], w[1..];
    var f := Times(qr[x], Ratio(pr[x], qr[x]));
    RoundLawStep(p, q, vocab, eos, context, j, Emits(w[..n]));
    if n == 1 {
      assert w[..1] == [x];
      ZeroTimes(f);
      Swap(0.0, f);
    } else {
      FirstToken(p, q, vocab, eos, k, context, j, w, n - 1);
      assert w[..n][1..] == rest[..n - 1] && context + w[..n] == next + rest[..n - 1] && w[n..] == rest[n - 1..];
      var r := RoundLaw(p, q, vocab, eos, next, j - 1, Emits(rest[..n - 1]));
      var u := Resumes(p, q, vocab, eos, k, context + w[..n], w[n - 1], w[n..]);
      ZeroTimes(u);
      Associate(f, r, u);
      Spreads(f, FirstRound(p, q, vocab, eos, k, next, j - 1, rest, n - 2), Times(r, u));
    }
  }

  lemma ResumesIs(p: seq<int> -> Row, q: seq<int> -> Row, vocab: nat, eos: int, k: nat, context: seq<int>, x: int,
                  rest: seq<int>)
    requires Model(p, vocab) && Model(q, vocab) && Word(rest, vocab)
    requires Decodes(p, q, vocab, eos, k, context, k, rest) == StepwiseLaw(p, q, vocab, eos, k, context, k, rest)
    ensures Resumes(p, q, vocab, eos, k, context, x, rest) == Onward(p, q, vocab, eos, k, context, k, x, rest)
  {
    hide Distribution, RoundLaw, FirstRound, StepwiseLaw;
  }

  /** Summing a round's boxes over all drafts, round after round, gives the law that
      goes from position to position. */
  lemma {:induction false} DecodesIsLaw(p: seq<int> -> Row, q: seq<int> -> Row, vocab: nat, eos: int, k: nat,
                                        context: seq<int>, j: nat, w: seq<int>)
    requires Model(p, vocab) && Model(q, vocab) && Word(w, vocab)
    ensures Decodes(p, q, vocab, eos, k, context, j, w) == StepwiseLaw(p, q, vocab, eos, k, context, j, w)
    decreases |w|
  {
    hide Distribution, RoundLaw, Times, Resumes, Onward, Residual, Ratio, Rejected;
    RoundLawStep(p, q, vocab, eos, context, j, Accepted(w));
    if w != [] {
      var pr, qr, x, next, rest := p(context), q(context), w[0], context + [w[0]], w[1..];
      DecodesIsLaw(p, q, vocab, eos, k, next, k, rest);
      ResumesIs(p, q, vocab, eos, k, next, x, rest);
      if j == 0 {
        NoDraftsLeft(p, q, vocab, eos, k, context, w, |w|);
      } else {
        DecodesIsLaw(p, q, vocab, eos, k, next, j - 1, rest);
        FirstToken(p, q, vocab, eos, k, context, j, w, |w|);
        AcceptedFirst(p, q, vocab, eos, k, context, j, w);
      }
    }
  }

  lemma AcceptedFirst(p: seq<int> -> Row, q: seq<int> -> Row, vocab: nat, eos: int, k: nat,
                      context: seq<int>, j: nat, w: seq<int>)
    requires Model(p, vocab) && Model(q, vocab) && Word(w, vocab) && w != [] && j > 0
    requires Decodes(p, q, vocab, eos, k, context + [w[0]], j - 1, w[1..])
      == StepwiseLaw(p, q, vocab, eos, k, context + [w[0]], j - 1, w[1..])
    ensures var pr, qr, x, next, rest := p(context), q(context), w[0], context + [w[0]], w[1..];
      var f := Times(qr[x], Ratio(pr[x], qr[x]));
      (if x == eos then 0.0 else Times(f, FirstRound(p, q, vocab, eos, k, next, j - 1, rest, |rest|)))
      + RoundLaw(p, q, vocab, eos, context, j, Accepted(w))
      == Times(f, Onward(p, q, vocab, eos, k, next, j - 1, x, rest))
  {
    hide Distribution, RoundLaw, Times, FirstRound, StepwiseLaw, Residual, Ratio;
    var pr, qr, x, next, rest := p(context), q(context), w[0], context + [w[0]], w[1..];
    var f := Times(qr[x], Ratio(pr[x], qr[x]));
    RoundLawStep(p, q, vocab, eos, context, j, Accepted(w));
    if x == eos {
      if rest == [] {
        RoundLawStep(p, q, vocab, eos, next, j - 1, Accepted([]));
      } else {
        ZeroTimes(f);
        Swap(0.0, f);
      }
    } else {
      Spreads(f, FirstRound(p, q, vocab, eos, k, next, j - 1, rest, |rest|),
              RoundLaw(p, q, vocab, eos, next, j - 1, Accepted(rest)));
    }
  }

  /** Decoding by rounds has the target's law: exactly if no position falls back, and to
      within a millionth per token in any case. */
  lemma RoundsAreTarget(p: seq<int> -> Row, q: seq<int> -> Row, vocab: nat, eos: int, k: nat, context: seq<int>,
                        w: seq<int>)
    requires Model(p, vocab) && Model(q, vocab) && Word(w, vocab)
    ensures Within(DecodeLaw(p, q, vocab, eos, k, context, w), TargetLaw(p, vocab, eos, context, w),
      (|w| as real) * 0.000001)
    ensures NoFallback(p, q, vocab, context, w) ==>
      DecodeLaw(p, q, vocab, eos, k, context, w) == TargetLaw(p, vocab, eos, context, w)
  {
    hide Distribution, RoundLaw, FirstRound, StepwiseLaw, TargetLaw, NoFallback;
    DecodesIsLaw(p, q, vocab, eos, k, context, k, w);
    SpeculativeIsTarget(p, q, vocab, eos, k, context, k, w);
  }
}
