/** Greedy speculation is lossless: whatever the drafts are, the rounds emit what
    plain greedy decoding emits. */
module SpeculativeGreedy {
  import opened Speculative

  /** Plain greedy decoding: one token at a time, up to n tokens or the end. */
  function Greedy(target: seq<int> -> Row, eos: int, context: seq<int>, n: nat): (out: seq<int>)
    decreases n
  {
    if n == 0 then []
    else
      var t := ArgMax(target(context));
      if t == eos then [t] else [t] + Greedy(target, eos, context + [t], n - 1)
  }

  /** Row i is the target's output after the context and the first i drafts. */
  predicate RowsOf(target: seq<int> -> Row, context: seq<int>, draft: seq<int>, rows: seq<Row>) {
    |rows| > |draft| && forall i :: 0 <= i <= |draft| ==> rows[i] == target(context + draft[..i])
  }

  /** The tokens a round emits; an accepted end of sequence is not counted again. */
  function Emitted(v: Verification, eos: int): seq<int> {
    if v.accepted != [] && v.accepted[|v.accepted| - 1] == eos then v.accepted else v.accepted + [v.final]
  }

  /** The outcome of a round is fully determined by the drafts and the rows. */
  lemma GreedyUnique(draft: seq<int>, rows: seq<Row>, eos: int, v: Verification, v': Verification)
    requires |rows| > |draft| && GreedyOutcome(draft, rows, eos, v) && GreedyOutcome(draft, rows, eos, v')
    ensures v == v'
  {
    GreedyNotShorter(draft, rows, eos, v, v');
    GreedyNotShorter(draft, rows, eos, v', v);
  }

  lemma GreedyNotShorter(draft: seq<int>, rows: seq<Row>, eos: int, v: Verification, v': Verification)
    requires |rows| > |draft| && GreedyOutcome(draft, rows, eos, v) && GreedyOutcome(draft, rows, eos, v')
    ensures |v.accepted| >= |v'.accepted|
  {
    if |v.accepted| < |v'.accepted| {
      assert false;
    }
  }

  /** Greedy decoding after an agreed prefix. */
  lemma {:induction false} GreedyPrefix(target: seq<int> -> Row, eos: int, context: seq<int>, s: seq<int>)
    requires s != [] && forall i :: 0 <= i < |s| ==> s[i] == ArgMax(target(context + s[..i]))
    requires forall i :: 0 <= i < |s| - 1 ==> s[i] != eos
    ensures Greedy(target, eos, context, |s|) == s
    decreases |s|
  {
    assert context + s[..0] == context;
    if |s| > 1 {
      var rest := s[1..];
      forall i | 0 <= i < |rest| ensures rest[i] == ArgMax(target(context + [s[0]] + rest[..i])) {
        assert context + [s[0]] + rest[..i] == context + s[..i + 1];
      }
      GreedyPrefix(target, eos, context + [s[0]], rest);
      assert s == [s[0]] + rest;
    } else {
      assert s == [s[0]];
    }
  }

  /** A round emits at least one token, at most one more than there are drafts, and
      exactly the tokens plain greedy decoding emits; it reports the end of the
      sequence exactly when the last one is the end. */
  lemma RoundIsGreedy(target: seq<int> -> Row, eos: int, context: seq<int>, draft: seq<int>, rows: seq<Row>,
                      v: Verification)
    requires RowsOf(target, context, draft, rows) && GreedyOutcome(draft, rows, eos, v)
    ensures var e := Emitted(v, eos);
      && 1 <= |e| <= |draft| + 1
      && e == Greedy(target, eos, context, |e|)
      && (v.ended <==> e[|e| - 1] == eos)
  {
    EmittedTokens(target, eos, context, draft, rows, v);
    GreedyPrefix(target, eos, context, Emitted(v, eos));
  }

  lemma EmittedTokens(target: seq<int> -> Row, eos: int, context: seq<int>, draft: seq<int>, rows: seq<Row>,
                      v: Verification)
    requires RowsOf(target, context, draft, rows) && GreedyOutcome(draft, rows, eos, v)
    ensures var e := Emitted(v, eos);
      && 1 <= |e| <= |draft| + 1
      && (forall i :: 0 <= i < |e| ==> e[i] == ArgMax(target(context + e[..i])))
      && (forall i :: 0 <= i < |e| - 1 ==> e[i] != eos)
      && (v.ended <==> e[|e| - 1] == eos)
  {
    hide ArgMax;
    var e, n := Emitted(v, eos), |v.accepted|;
    forall i | 0 <= i < |e| ensures e[i] == ArgMax(target(context + e[..i])) {
      if i < n {
        assert e[..i] == draft[..i];
      } else {
        assert e[..i] == draft[..n];
      }
    }
  }

  /** One round on a context, with the drafts of any drafter. */
  ghost predicate Round(target: seq<int> -> Row, eos: int, context: seq<int>, draft: seq<int>, e: seq<int>,
                        ended: bool) {
    exists rows, v :: RowsOf(target, context, draft, rows) && GreedyOutcome(draft, rows, eos, v)
      && e == Emitted(v, eos) && ended == v.ended
  }

  /** Rounds until the end of the sequence or n tokens; the drafts of each round
      are arbitrary. */
  ghost predicate Rounds(target: seq<int> -> Row, eos: int, context: seq<int>, drafts: seq<seq<int>>, n: nat,
                         out: seq<int>)
    decreases |drafts|
  {
    if n == 0 then out == []
    else
      drafts != [] &&
      exists e, ended :: Round(target, eos, context, drafts[0], e, ended) && e != []
        && Starts(e, ended, n, out)
        && (|e| < n && !ended ==> Rounds(target, eos, context + e, drafts[1..], n - |e|, out[|e|..]))
  }

  /** The output starts with what a round emitted, cut off at n tokens, and goes on
      only if the round neither ended the sequence nor reached the limit. */
  predicate Starts(e: seq<int>, ended: bool, n: nat, out: seq<int>)
    ensures Starts(e, ended, n, out) ==> |out| >= |e| || |e| >= n
  {
    if |e| >= n then out == e[..n]
    else if ended then out == e
    else |out| >= |e| && out[..|e|] == e
  }

  /** Decoding in two parts. */
  lemma {:induction false} GreedySplit(target: seq<int> -> Row, eos: int, context: seq<int>, k: nat, n: nat)
    requires k <= n
    ensures var e := Greedy(target, eos, context, k);
      Greedy(target, eos, context, n) ==
        if |e| < k || (e != [] && e[|e| - 1] == eos) then e
        else e + Greedy(target, eos, context + e, n - k)
    ensures |Greedy(target, eos, context, k)| <= k
    decreases k
  {
    hide ArgMax;
    var e := Greedy(target, eos, context, k);
    if k == 0 {
      assert context + e == context;
    } else {
      var t := ArgMax(target(context));
      if t != eos {
        GreedySplit(target, eos, context + [t], k - 1, n - 1);
        var d := Greedy(target, eos, context + [t], k - 1);
        SplitCons(t, d, eos, context, Greedy(target, eos, context + [t] + d, n - k));
      }
    }
  }

  lemma SplitCons(t: int, d: seq<int>, eos: int, context: seq<int>, rest: seq<int>)
    requires t != eos
    ensures var e := [t] + d;
      && context + [t] + d == context + e && [t] + (d + rest) == e + rest
      && (e[|e| - 1] == eos <==> d != [] && d[|d| - 1] == eos)
  {
  }

  /** Iterating rounds until the end or a length limit gives the tokens of plain
      greedy decoding, for every target and all drafts. */
  lemma {:induction false} SpeculationIsGreedy(target: seq<int> -> Row, eos: int, context: seq<int>,
                                               drafts: seq<seq<int>>, n: nat, out: seq<int>)
    requires Rounds(target, eos, context, drafts, n, out)
    ensures out == Greedy(target, eos, context, n)
    decreases |drafts|
  {
    hide Round, Greedy, ArgMax, Starts;
    if n == 0 {
      GreedyNothing(target, eos, context);
    } else {
      var e, ended :| Round(target, eos, context, drafts[0], e, ended) && e != []
        && Starts(e, ended, n, out)
        && (|e| < n && !ended ==> Rounds(target, eos, context + e, drafts[1..], n - |e|, out[|e|..]));
      RoundTokens(target, eos, context, drafts[0], e, ended);
      if |e| < n && !ended {
        SpeculationIsGreedy(target, eos, context + e, drafts[1..], n - |e|, out[|e|..]);
      }
      StartsGreedy(target, eos, context, e, ended, n, out);
    }
  }

  lemma GreedyNothing(target: seq<int> -> Row, eos: int, context: seq<int>)
    ensures Greedy(target, eos, context, 0) == []
  {
  }

  /** A round and the greedy decoding of the rest are one greedy decoding. */
  lemma StartsGreedy(target: seq<int> -> Row, eos: int, context: seq<int>, e: seq<int>, ended: bool, n: nat,
                     out: seq<int>)
    requires e != [] && e == Greedy(target, eos, context, |e|) && (ended <==> e[|e| - 1] == eos)
    requires Starts(e, ended, n, out)
    requires |e| < n && !ended ==> out[|e|..] == Greedy(target, eos, context + e, n - |e|)
    ensures out == Greedy(target, eos, context, n)
  {
    hide Greedy, ArgMax;
    if |e| >= n {
      GreedyTruncated(target, eos, context, e, n);
    } else {
      GreedySplit(target, eos, context, |e|, n);
      if !ended {
        assert out == e + out[|e|..];
      }
    }
  }

  lemma RoundTokens(target: seq<int> -> Row, eos: int, context: seq<int>, draft: seq<int>, e: seq<int>, ended: bool)
    requires Round(target, eos, context, draft, e, ended)
    ensures e != [] && e == Greedy(target, eos, context, |e|) && (ended <==> e[|e| - 1] == eos)
  {
    var rows, v :| RowsOf(target, context, draft, rows) && GreedyOutcome(draft, rows, eos, v)
      && e == Emitted(v, eos) && ended == v.ended;
    RoundIsGreedy(target, eos, context, draft, rows, v);
  }

  lemma GreedyTruncated(target: seq<int> -> Row, eos: int, context: seq<int>, e: seq<int>, n: nat)
    requires e == Greedy(target, eos, context, |e|) && n <= |e|
    ensures e[..n] == Greedy(target, eos, context, n)
  {
    GreedySplit(target, eos, context, n, |e|);
    var d := Greedy(target, eos, context, n);
    if |d| < n || (d != [] && d[|d| - 1] == eos) {
      assert e == d;
    } else {
      assert e == d + Greedy(target, eos, context + d, |e| - n);
    }
  }
}
