/** The longest common subsequence by dynamic programming, and the correctness
    scores computed from it. */
module Rouge {
  import opened Reals

  // ----- Common subsequences -----

  /** idx picks s out of t, from left to right. */
  ghost predicate Embeds(s: seq<int>, t: seq<int>, idx: seq<nat>) {
    && |idx| == |s|
    && (forall k :: 0 <= k < |idx| ==> idx[k] < |t| && t[idx[k]] == s[k])
    && (forall k, l :: 0 <= k < l < |idx| ==> idx[k] < idx[l])
  }

  ghost predicate Subsequence(s: seq<int>, t: seq<int>) {
    exists idx :: Embeds(s, t, idx)
  }

  ghost predicate Common(s: seq<int>, a: seq<int>, b: seq<int>) {
    Subsequence(s, a) && Subsequence(s, b)
  }

  /** The recurrence of the table, on prefixes of length i and j. */
  function Lcs(a: seq<int>, b: seq<int>, i: nat, j: nat): nat
    requires i <= |a| && j <= |b|
  {
    if i == 0 || j == 0 then 0
    else if a[i - 1] == b[j - 1] then Lcs(a, b, i - 1, j - 1) + 1
    else
      var u, v := Lcs(a, b, i - 1, j), Lcs(a, b, i, j - 1);
      if u >= v then u else v
  }

  lemma SubsequenceGrows(s: seq<int>, t: seq<int>, n: nat)
    requires n < |t| && Subsequence(s, t[..n])
    ensures Subsequence(s, t[..n + 1])
    ensures Subsequence(s + [t[n]], t[..n + 1])
  {
    var idx :| Embeds(s, t[..n], idx);
    assert Embeds(s, t[..n + 1], idx);
    assert Embeds(s + [t[n]], t[..n + 1], idx + [n]);
  }

  /** A subsequence of a prefix either uses its last entry or is one of the shorter
      prefix; without its own last entry it always is. */
  lemma SubsequenceShrinks(s: seq<int>, t: seq<int>, n: nat)
    requires n < |t| && Subsequence(s, t[..n + 1]) && s != []
    ensures Subsequence(s[..|s| - 1], t[..n])
    ensures s[|s| - 1] == t[n] || Subsequence(s, t[..n])
  {
    var idx :| Embeds(s, t[..n + 1], idx);
    var last := |s| - 1;
    assert forall k :: 0 <= k < last ==> idx[k] < idx[last];
    assert Embeds(s[..last], t[..n], idx[..last]);
    if idx[last] < n {
      assert Embeds(s, t[..n], idx);
    }
  }

  lemma {:induction false} LcsWitness(a: seq<int>, b: seq<int>, i: nat, j: nat) returns (s: seq<int>)
    requires i <= |a| && j <= |b|
    ensures Common(s, a[..i], b[..j]) && |s| == Lcs(a, b, i, j)
  {
    if i == 0 || j == 0 {
      s := [];
      assert Embeds([], a[..i], []) && Embeds([], b[..j], []);
    } else if a[i - 1] == b[j - 1] {
      var r := LcsWitness(a, b, i - 1, j - 1);
      SubsequenceGrows(r, a, i - 1);
      SubsequenceGrows(r, b, j - 1);
      s := r + [a[i - 1]];
    } else if Lcs(a, b, i - 1, j) >= Lcs(a, b, i, j - 1) {
      s := LcsWitness(a, b, i - 1, j);
      SubsequenceGrows(s, a, i - 1);
    } else {
      s := LcsWitness(a, b, i, j - 1);
      SubsequenceGrows(s, b, j - 1);
    }
  }

  lemma {:induction false} LcsBound(a: seq<int>, b: seq<int>, i: nat, j: nat, s: seq<int>)
    requires i <= |a| && j <= |b| && Common(s, a[..i], b[..j])
    ensures |s| <= Lcs(a, b, i, j)
    decreases i + j
  {
    if i == 0 || j == 0 {
      NoLonger(s, a[..i]);
      NoLonger(s, b[..j]);
    } else if s != [] {
      SubsequenceShrinks(s, a, i - 1);
      SubsequenceShrinks(s, b, j - 1);
      if a[i - 1] == b[j - 1] {
        LcsBound(a, b, i - 1, j - 1, s[..|s| - 1]);
      } else if s[|s| - 1] != a[i - 1] {
        LcsBound(a, b, i - 1, j, s);
      } else {
        LcsBound(a, b, i, j - 1, s);
      }
    }
  }

  /** A subsequence is not longer than the sequence. */
  lemma {:induction false} EmbedsRoom(s: seq<int>, t: seq<int>, idx: seq<nat>)
    requires Embeds(s, t, idx)
    ensures |s| <= |t| && (s != [] ==> |s| <= idx[|s| - 1] + 1)
    decreases |s|
  {
    if s != [] {
      EmbedsRoom(s[..|s| - 1], t, idx[..|s| - 1]);
      assert |s| > 1 ==> idx[|s| - 2] < idx[|s| - 1];
    }
  }

  lemma NoLonger(s: seq<int>, t: seq<int>)
    requires Subsequence(s, t)
    ensures |s| <= |t|
  {
    var idx :| Embeds(s, t, idx);
    EmbedsRoom(s, t, idx);
  }

  function LcsLengthOf(a: seq<int>, b: seq<int>): nat {
    Lcs(a, b, |a|, |b|)
  }

  /** The final cell is the greatest length of a common subsequence. */
  lemma LcsIsLongest(a: seq<int>, b: seq<int>)
    ensures exists s :: Common(s, a, b) && |s| == LcsLengthOf(a, b)
    ensures forall s :: Common(s, a, b) ==> |s| <= LcsLengthOf(a, b)
  {
    assert a[..|a|] == a && b[..|b|] == b;
    var s := LcsWitness(a, b, |a|, |b|);
    forall s | Common(s, a, b) ensures |s| <= LcsLengthOf(a, b) {
      LcsBound(a, b, |a|, |b|, s);
    }
  }

  /** It is at most either length, and reaches both only for equal sequences. */
  lemma {:induction false} LcsAtMost(a: seq<int>, b: seq<int>, i: nat, j: nat)
    requires i <= |a| && j <= |b|
    ensures Lcs(a, b, i, j) <= i && Lcs(a, b, i, j) <= j
    ensures i == j ==> (Lcs(a, b, i, j) == i <==> a[..i] == b[..j])
  {
    if i > 0 && j > 0 {
      LcsAtMost(a, b, i - 1, j - 1);
      LcsAtMost(a, b, i - 1, j);
      LcsAtMost(a, b, i, j - 1);
      if i == j {
        assert a[..i] == a[..i - 1] + [a[i - 1]] && b[..j] == b[..j - 1] + [b[j - 1]];
        if a[..i] == b[..j] {
          assert a[..i][i - 1] == b[..j][j - 1] && a[..i][..i - 1] == b[..j][..j - 1];
        }
      }
    }
  }

  /** Rows below i of the table are filled, and column 0 is zero. */
  ghost predicate Filled(a: seq<int>, b: seq<int>, dp: array2<nat>, i: nat)
    reads dp
  {
    && dp.Length0 == |a| + 1 && dp.Length1 == |b| + 1
    && (forall k, l :: 0 <= k < i && k <= |a| && 0 <= l <= |b| ==> dp[k, l] == Lcs(a, b, k, l))
    && forall k :: 0 <= k <= |a| ==> dp[k, 0] == 0
  }

  lemma Edge(a: seq<int>, b: seq<int>)
    ensures forall l :: 0 <= l <= |b| ==> Lcs(a, b, 0, l) == 0
    ensures forall k :: 0 <= k <= |a| ==> Lcs(a, b, k, 0) == 0
  {
  }

  lemma Cell(a: seq<int>, b: seq<int>, i: nat, j: nat)
    requires 0 < i <= |a| && 0 < j <= |b|
    ensures Lcs(a, b, i, j) ==
      if a[i - 1] == b[j - 1] then Lcs(a, b, i - 1, j - 1) + 1
      else if Lcs(a, b, i - 1, j) >= Lcs(a, b, i, j - 1) then Lcs(a, b, i - 1, j) else Lcs(a, b, i, j - 1)
  {
  }

  method LcsLength(a: seq<int>, b: seq<int>) returns (length: nat)
    ensures length == LcsLengthOf(a, b)
  {
    hide Lcs;
    Edge(a, b);
    var m, n := |a|, |b|;
    var dp := new nat[m + 1, n + 1]((_, _) => 0);
    var i := 1;
    while i <= m
      invariant 1 <= i <= m + 1 && Filled(a, b, dp, i)
    {
      FillRow(a, b, dp, i);
      i := i + 1;
    }
    length := dp[m, n];
  }

  method FillRow(a: seq<int>, b: seq<int>, dp: array2<nat>, i: nat)
    requires 0 < i <= |a| && Filled(a, b, dp, i)
    modifies dp
    ensures Filled(a, b, dp, i + 1)
  {
    hide Lcs;
    Edge(a, b);
    var j := 1;
    while j <= |b|
      invariant 1 <= j <= |b| + 1 && Filled(a, b, dp, i)
      invariant forall l :: 0 <= l < j ==> dp[i, l] == Lcs(a, b, i, l)
    {
      Cell(a, b, i, j);
      if a[i - 1] == b[j - 1] {
        dp[i, j] := dp[i - 1, j - 1] + 1;
      } else {
        dp[i, j] := if dp[i - 1, j] >= dp[i, j - 1] then dp[i - 1, j] else dp[i, j - 1];
      }
      j := j + 1;
    }
  }

  // ----- Scores of one pair -----

  /** Positions at which both sequences have the same token. */
  function Matches(a: seq<int>, b: seq<int>, n: nat): (c: nat)
    requires n <= |a| && n <= |b|
    ensures c <= n
  {
    if n == 0 then 0 else Matches(a, b, n - 1) + if a[n - 1] == b[n - 1] then 1 else 0
  }

  /** The count is the number of positions, up to n, at which the tokens are the same. */
  lemma {:induction false} MatchesIsCount(a: seq<int>, b: seq<int>, n: nat)
    requires n <= |a| && n <= |b|
    ensures Matches(a, b, n) == |set i | 0 <= i < n && a[i] == b[i]|
  {
    if n > 0 {
      MatchesIsCount(a, b, n - 1);
      var s := set i | 0 <= i < n - 1 && a[i] == b[i];
      var t := set i | 0 <= i < n && a[i] == b[i];
      assert t == if a[n - 1] == b[n - 1] then s + {n - 1} else s;
    }
  }

  /** All positions match exactly if the prefixes are the same. */
  lemma {:induction false} MatchesAll(a: seq<int>, b: seq<int>, n: nat)
    requires n <= |a| && n <= |b|
    ensures Matches(a, b, n) == n <==> a[..n] == b[..n]
  {
    if n > 0 {
      MatchesAll(a, b, n - 1);
      assert a[..n] == a[..n - 1] + [a[n - 1]] && b[..n] == b[..n - 1] + [b[n - 1]];
      if a[..n] == b[..n] {
        assert a[..n - 1] == a[..n][..n - 1] && b[..n - 1] == b[..n][..n - 1];
        assert a[n - 1] == a[..n][n - 1] && b[n - 1] == b[..n][n - 1];
      }
    }
  }

  /** Matching positions are a common subsequence. */
  lemma {:induction false} MatchesBelowLcs(a: seq<int>, b: seq<int>, n: nat)
    requires n <= |a| && n <= |b|
    ensures Matches(a, b, n) <= Lcs(a, b, n, n)
  {
    if n > 0 {
      MatchesBelowLcs(a, b, n - 1);
      LcsMonotone(a, b, n - 1, n - 1, n, n - 1);
      LcsMonotone(a, b, n - 1, n - 1, n - 1, n);
    }
  }

  /** Longer prefixes have no shorter common subsequences. */
  lemma LcsMonotone(a: seq<int>, b: seq<int>, i: nat, j: nat, i': nat, j': nat)
    requires i <= i' <= |a| && j <= j' <= |b|
    ensures Lcs(a, b, i, j) <= Lcs(a, b, i', j')
  {
    var s := LcsWitness(a, b, i, j);
    Widen(s, a, i, i');
    Widen(s, b, j, j');
    LcsBound(a, b, i', j', s);
  }

  lemma Widen(s: seq<int>, t: seq<int>, i: nat, i': nat)
    requires i <= i' <= |t| && Subsequence(s, t[..i])
    ensures Subsequence(s, t[..i'])
  {
    var idx :| Embeds(s, t[..i], idx);
    assert Embeds(s, t[..i'], idx);
  }

  function F1(a: seq<int>, b: seq<int>): real {
    var l := LcsLengthOf(a, b);
    if l > 0 && |a| > 0 && |b| > 0 then
      var p, r := l as real / |a| as real, l as real / |b| as real;
      if p + r > 0.0 then (2.0 * p * r) / (p + r) else 0.0
    else 0.0
  }

  function TokenAccuracy(a: seq<int>, b: seq<int>): real {
    var short, long := if |a| < |b| then |a| else |b|, if |a| < |b| then |b| else |a|;
    if short > 0 then Over(Matches(a, b, short) as real, long as real) else 0.0
  }

  lemma HarmonicMean(l: real, m: real, n: real)
    requires l > 0.0 && m > 0.0 && n > 0.0
    ensures var p, r := l / m, l / n; p + r > 0.0 && (2.0 * p * r) / (p + r) == 2.0 * l / (m + n)
  {
    var p, r := l / m, l / n;
    assert p * m == l && r * n == l;
    assert p > 0.0 && r > 0.0;
    assert p * r * m == l * r && p * r * n == l * p;
    assert (2.0 * p * r) * (m + n) == 2.0 * l * (p + r);
    SameQuotient(2.0 * p * r, p + r, 2.0 * l, m + n);
  }

  lemma SameQuotient(a: real, b: real, c: real, d: real)
    requires b > 0.0 && d > 0.0 && a * d == c * b
    ensures a / b == c / d
  {
    SmallerQuotient(a, b, c, d);
    SmallerQuotient(c, d, a, b);
  }

  lemma SmallerQuotient(a: real, b: real, c: real, d: real)
    requires b > 0.0 && d > 0.0 && a * d <= c * b
    ensures a / b <= c / d
  {
    var x, y := a / b, c / d;
    assert x * b == a && y * d == c;
    Cancel(x, y, b, d);
  }

  lemma Cancel(x: real, y: real, b: real, d: real)
    requires b > 0.0 && d > 0.0 && (x * b) * d <= (y * d) * b
    ensures x <= y
  {
    var k := b * d;
    assert k > 0.0;
    assert (x * b) * d == x * k && (y * d) * b == y * k;
    assert (y - x) * k >= 0.0;
  }

  lemma QuotientInUnit(x: real, y: real)
    requires 0.0 <= x <= y && y > 0.0
    ensures 0.0 <= x / y <= 1.0 && (x / y == 1.0 <==> x == y)
  {
    SmallerQuotient(0.0, 1.0, x, y);
    SmallerQuotient(x, y, 1.0, 1.0);
    QuotientOne(x, y);
  }

  lemma QuotientOne(x: real, y: real)
    requires y > 0.0
    ensures x / y == 1.0 <==> x == y
  {
    if x == y {
      assert x / y == 1.0;
    } else {
      assert x == (x / y) * y;
    }
  }

  /** The harmonic mean of precision and recall, without the detour. */
  lemma F1Closed(a: seq<int>, b: seq<int>)
    ensures var l := LcsLengthOf(a, b);
      F1(a, b) == if l > 0 then Over((2 * l) as real, (|a| + |b|) as real) else 0.0
    ensures LcsLengthOf(a, b) <= |a| && LcsLengthOf(a, b) <= |b|
  {
    hide Lcs;
    var l, m, n := LcsLengthOf(a, b), |a|, |b|;
    LcsAtMost(a, b, m, n);
    if l > 0 {
      HarmonicMean(l as real, m as real, n as real);
    }
  }

  lemma FullMatch(a: seq<int>, b: seq<int>)
    ensures 2 * LcsLengthOf(a, b) == |a| + |b| <==> a == b
  {
    hide Lcs;
    LcsAtMost(a, b, |a|, |b|);
    assert a[..|a|] == a && b[..|b|] == b;
  }

  /** ROUGE-L F1 is in [0, 1], is 1 exactly for equal nonempty sequences, and the
      accuracy position by position never exceeds it. */
  lemma ScoresInUnit(a: seq<int>, b: seq<int>)
    ensures 0.0 <= TokenAccuracy(a, b) <= F1(a, b) <= 1.0
    ensures F1(a, b) == 1.0 <==> a == b && a != []
  {
    F1Closed(a, b);
    FullMatch(a, b);
    AccuracyBelow(a, b);
    hide F1, TokenAccuracy, LcsLengthOf;
    var l, m, n := LcsLengthOf(a, b), |a|, |b|;
    if l > 0 {
      QuotientInUnit((2 * l) as real, (m + n) as real);
    }
  }

  lemma CrossBound(c: nat, l: nat, long: nat, m: nat, n: nat)
    requires c <= l && m <= long && n <= long
    ensures (c as real) * ((m + n) as real) <= ((2 * l) as real) * (long as real)
  {
    ProductMonotone(c as real, c as real, (m + n) as real, (2 * long) as real);
    ProductMonotone(c as real, l as real, (2 * long) as real, (2 * long) as real);
    assert (l as real) * (2.0 * (long as real)) == (2.0 * (l as real)) * (long as real);
  }

  lemma ProductMonotone(a: real, b: real, x: real, y: real)
    requires 0.0 <= a <= b && 0.0 <= x <= y
    ensures a * x <= b * y
  {
    assert (b - a) * x >= 0.0;
    assert b * (y - x) >= 0.0;
  }

  lemma MatchesBelow(a: seq<int>, b: seq<int>, n: nat)
    requires n <= |a| && n <= |b|
    ensures Matches(a, b, n) <= LcsLengthOf(a, b)
  {
    MatchesBelowLcs(a, b, n);
    LcsMonotone(a, b, n, n, |a|, |b|);
  }

  lemma OverMonotone(a: real, b: real, c: real, d: real)
    requires b > 0.0 && d > 0.0 && a * d <= c * b
    ensures Over(a, b) <= Over(c, d) && (a == 0.0 ==> Over(a, b) == 0.0) && (a >= 0.0 ==> Over(a, b) >= 0.0)
  {
    SmallerQuotient(a, b, c, d);
    if a >= 0.0 {
      SmallerQuotient(0.0, 1.0, a, b);
    }
  }

  lemma AccuracyBelow(a: seq<int>, b: seq<int>)
    ensures var l := LcsLengthOf(a, b);
      0.0 <= TokenAccuracy(a, b) <= if l > 0 then Over((2 * l) as real, (|a| + |b|) as real) else 0.0
  {
    hide LcsLengthOf, Matches, Over;
    var short, long := if |a| < |b| then |a| else |b|, if |a| < |b| then |b| else |a|;
    var l := LcsLengthOf(a, b);
    if short > 0 {
      var c := Matches(a, b, short);
      MatchesBelow(a, b, short);
      CrossBound(c, l, long, |a|, |b|);
      OverMonotone(c as real, long as real, (2 * l) as real, (|a| + |b|) as real);
    } else {
      F1Closed(a, b);
    }
  }

  /** The token accuracy, times the longer length, is the number of positions with the same
      token; it is 1 exactly for equal nonempty sequences, as is the exact match, which is
      1 for empty ones, too. */
  lemma AccuracyIs(a: seq<int>, b: seq<int>)
    ensures var long := if |a| >= |b| then |a| else |b|;
      TokenAccuracy(a, b) * (long as real) == |set i | 0 <= i < |a| && i < |b| && a[i] == b[i]| as real
    ensures TokenAccuracy(a, b) == 1.0 <==> a == b && a != []
    ensures Equal(a, b) == (if a == b then 1.0 else 0.0)
  {
    hide Matches;
    var short, long := if |a| < |b| then |a| else |b|, if |a| < |b| then |b| else |a|;
    var s := set i | 0 <= i < |a| && i < |b| && a[i] == b[i];
    if short > 0 {
      var c := Matches(a, b, short);
      MatchesIsCount(a, b, short);
      assert s == set i | 0 <= i < short && a[i] == b[i];
      assert TokenAccuracy(a, b) == c as real / long as real;
      MatchesAll(a, b, short);
      QuotientOne(c as real, long as real);
      assert a == a[..|a|] && b == b[..|b|];
    } else {
      assert s == {};
    }
  }

  /** The pairs whose sequences are equal. */
  ghost function EqualPairs(gens: seq<seq<int>>, refs: seq<seq<int>>): set<nat>
    requires |gens| == |refs|
  {
    set i | 0 <= i < |gens| && gens[i] == refs[i]
  }

  /** The sum of the exact matches is the number of pairs that are equal. */
  lemma {:induction false} ExactIsCount(gens: seq<seq<int>>, refs: seq<seq<int>>)
    requires |gens| == |refs|
    ensures SumOf(Equal, gens, refs) == |EqualPairs(gens, refs)| as real
  {
    if gens == [] {
      assert EqualPairs(gens, refs) == {};
    } else {
      var n := |gens| - 1;
      ExactIsCount(gens[..n], refs[..n]);
      var s := EqualPairs(gens[..n], refs[..n]);
      assert EqualPairs(gens, refs) == if gens[n] == refs[n] then s + {n} else s;
    }
  }

  // ----- The evaluation -----

  datatype Correctness = Correctness(exactMatch: real, rougeF1: real, tokenAccuracy: real, samples: nat)

  /** The sum of a score over all pairs. */
  function SumOf(f: (seq<int>, seq<int>) -> real, gens: seq<seq<int>>, refs: seq<seq<int>>): real
    requires |gens| == |refs|
  {
    if gens == [] then 0.0
    else SumOf(f, gens[..|gens| - 1], refs[..|refs| - 1]) + f(gens[|gens| - 1], refs[|refs| - 1])
  }

  function Equal(a: seq<int>, b: seq<int>): real {
    if a == b then 1.0 else 0.0
  }

  lemma SumNext(f: (seq<int>, seq<int>) -> real, gens: seq<seq<int>>, refs: seq<seq<int>>, k: nat)
    requires |gens| == |refs| && k < |gens|
    ensures SumOf(f, gens[..k + 1], refs[..k + 1]) == SumOf(f, gens[..k], refs[..k]) + f(gens[k], refs[k])
  {
    assert gens[..k + 1][..k] == gens[..k] && refs[..k + 1][..k] == refs[..k];
  }

  lemma MeanInUnit(t: real, f: real, n: nat)
    requires n > 0 && 0.0 <= t <= f <= n as real
    ensures 0.0 <= t / n as real <= f / n as real <= 1.0
  {
    QuotientInUnit(t, n as real);
    QuotientInUnit(f, n as real);
    SmallerQuotient(t, n as real, f, n as real);
  }

  /** The means over all samples; all are in [0, 1], and the token accuracy is at most
      the ROUGE-L score. */
  method EvaluateCorrectness(gens: seq<seq<int>>, refs: seq<seq<int>>) returns (c: Correctness)
    requires |gens| == |refs|
    ensures c.samples == |gens|
    ensures 0.0 <= c.exactMatch <= 1.0 && 0.0 <= c.tokenAccuracy <= c.rougeF1 <= 1.0
    ensures gens != [] ==>
      && c.exactMatch == |EqualPairs(gens, refs)| as real / |gens| as real
      && c.rougeF1 == SumOf(F1, gens, refs) / |gens| as real
      && c.tokenAccuracy == SumOf(TokenAccuracy, gens, refs) / |gens| as real
  {
    var total := |gens|;
    if total == 0 {
      return Correctness(0.0, 0.0, 0.0, 0);
    }
    var exact, rouge, accuracy := 0, 0.0, 0.0;
    var k := 0;
    while k < total
      invariant 0 <= k <= total && 0 <= exact <= k && 0.0 <= accuracy <= rouge <= k as real
      invariant exact as real == SumOf(Equal, gens[..k], refs[..k]) && rouge == SumOf(F1, gens[..k], refs[..k])
      invariant accuracy == SumOf(TokenAccuracy, gens[..k], refs[..k])
    {
      var gen, ref := gens[k], refs[k];
      SumNext(Equal, gens, refs, k);
      SumNext(F1, gens, refs, k);
      SumNext(TokenAccuracy, gens, refs, k);
      if gen == ref {
        exact := exact + 1;
      }
      ScoresInUnit(gen, ref);
      var f1, acc := ScorePair(gen, ref);
      accuracy := accuracy + acc;
      rouge := rouge + f1;
      k := k + 1;
    }
    assert gens[..k] == gens && refs[..k] == refs;
    ExactIsCount(gens, refs);
    MeanInUnit(accuracy, rouge, total);
    MeanInUnit(exact as real, exact as real, total);
    c := Correctness(exact as real / total as real, rouge / total as real, accuracy / total as real, total);
  }

  method ScorePair(gen: seq<int>, ref: seq<int>) returns (f1: real, acc: real)
    ensures f1 == F1(gen, ref) && acc == TokenAccuracy(gen, ref)
  {
    var short := if |gen| < |ref| then |gen| else |ref|;
    acc := 0.0;
    if short > 0 {
      var matches, i := 0, 0;
      while i < short
        invariant 0 <= i <= short && matches == Matches(gen, ref, i)
      {
        if gen[i] == ref[i] {
          matches := matches + 1;
        }
        i := i + 1;
      }
      acc := matches as real / (if |gen| < |ref| then |ref| else |gen|) as real;
    }
    var length := LcsLength(gen, ref);
    f1 := 0.0;
    if length > 0 && |gen| > 0 && |ref| > 0 {
      var prec, rec := length as real / |gen| as real, length as real / |ref| as real;
      f1 := if prec + rec > 0.0 then (2.0 * prec * rec) / (prec + rec) else 0.0;
    }
  }
}
