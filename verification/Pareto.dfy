/** The non-dominated filter over benchmark points. Each scan ignores points that
    were already found dominated, and still finds exactly the dominated ones. */
module Pareto {
  datatype Direction = Maximize | Minimize | Unknown

  datatype Objective = Objective(metric: string, direction: Direction)

  datatype Flags = Flags(optimal: seq<bool>) | InvalidDirection

  type Row = seq<real>

  // ----- Dominance -----

  predicate Dominates(a: Row, b: Row)
    requires |a| == |b|
  {
    (forall k :: 0 <= k < |a| ==> a[k] >= b[k]) && exists k :: 0 <= k < |a| && a[k] > b[k]
  }

  ghost predicate Rectangular(m: seq<Row>) {
    forall i, j :: 0 <= i < |m| && 0 <= j < |m| ==> |m[i]| == |m[j]|
  }

  /** No point of the whole input dominates point i. */
  ghost predicate Optimal(m: seq<Row>, i: nat)
    requires Rectangular(m) && i < |m|
  {
    forall j :: 0 <= j < |m| ==> !Dominates(m[j], m[i])
  }

  lemma DominatesTransitive(a: Row, b: Row, c: Row)
    requires |a| == |b| == |c| && Dominates(a, b) && Dominates(b, c)
    ensures Dominates(a, c)
  {
    var k :| 0 <= k < |b| && b[k] > c[k];
    assert a[k] > c[k];
  }

  ghost function Dominators(m: seq<Row>, i: nat): set<nat>
    requires Rectangular(m) && i < |m|
  {
    set j | 0 <= j < |m| && Dominates(m[j], m[i])
  }

  /** Every dominated point has a dominator that is itself not dominated. */
  lemma {:induction false} OptimalDominator(m: seq<Row>, i: nat) returns (j: nat)
    requires Rectangular(m) && i < |m| && !Optimal(m, i)
    ensures j < |m| && Optimal(m, j) && Dominates(m[j], m[i])
    decreases |Dominators(m, i)|
  {
    var d :| 0 <= d < |m| && Dominates(m[d], m[i]);
    if Optimal(m, d) {
      j := d;
    } else {
      forall k | k in Dominators(m, d) ensures k in Dominators(m, i) {
        DominatesTransitive(m[k], m[d], m[i]);
      }
      assert d in Dominators(m, i) && d !in Dominators(m, d);
      SmallerSet(Dominators(m, d), Dominators(m, i), d);
      j := OptimalDominator(m, d);
      DominatesTransitive(m[j], m[d], m[i]);
    }
  }

  lemma SmallerSet(a: set<nat>, b: set<nat>, x: nat)
    requires a <= b && x in b && x !in a
    ensures |a| < |b|
  {
    var c := b - {x};
    assert a <= c && |c| == |b| - 1;
    SubsetSize(a, c);
  }

  lemma {:induction false} SubsetSize(a: set<nat>, b: set<nat>)
    requires a <= b
    ensures |a| <= |b|
    decreases |a|
  {
    if a != {} {
      var x :| x in a;
      SubsetSize(a - {x}, b - {x});
    }
  }

  /** Some point is always optimal, so the distance to the frontier is defined. */
  lemma SomeOptimal(m: seq<Row>)
    requires Rectangular(m) && m != []
    ensures exists i :: 0 <= i < |m| && Optimal(m, i)
  {
    if !Optimal(m, 0) {
      var j := OptimalDominator(m, 0);
    }
  }

  // ----- The filter -----

  /** Flags the optimal points, scanning only points that are still flagged. */
  method NonDominated(m: seq<Row>) returns (optimal: array<bool>)
    requires Rectangular(m)
    ensures fresh(optimal) && optimal.Length == |m|
    ensures forall i :: 0 <= i < |m| ==> (optimal[i] <==> Optimal(m, i))
  {
    optimal := new bool[|m|](_ => true);
    var i := 0;
    while i < |m|
      invariant 0 <= i <= |m|
      invariant forall k :: 0 <= k < i ==> (optimal[k] <==> Optimal(m, k))
      invariant forall k :: i <= k < |m| ==> optimal[k]
    {
      ghost var best: nat := 0;
      if !Optimal(m, i) {
        best := OptimalDominator(m, i);
      }
      var j := 0;
      while j < |m|
        invariant 0 <= j <= |m| && optimal[i]
        invariant forall k :: 0 <= k < |m| && k < i ==> (optimal[k] <==> Optimal(m, k))
        invariant forall k :: i <= k < |m| ==> optimal[k]
        invariant !Optimal(m, i) ==> j <= best
      {
        if i != j && optimal[j] && Dominates(m[j], m[i]) {
          optimal[i] := false;
          break;
        }
        j := j + 1;
      }
      i := i + 1;
    }
  }

  // ----- The criteria matrix -----

  function Criterion(metrics: map<string, real>, o: Objective): real {
    var v := if o.metric in metrics then metrics[o.metric] else 0.0;
    if o.direction == Minimize then -v else v
  }

  function Criteria(metrics: map<string, real>, objectives: seq<Objective>): (r: Row)
    ensures |r| == |objectives|
    ensures forall k :: 0 <= k < |r| ==> r[k] == Criterion(metrics, objectives[k])
  {
    if objectives == [] then []
    else Criteria(metrics, objectives[..|objectives| - 1]) + [Criterion(metrics, objectives[|objectives| - 1])]
  }

  /** What a point has for a metric; a metric it does not report counts as 0. */
  function Reading(metrics: map<string, real>, name: string): real {
    if name in metrics then metrics[name] else 0.0
  }

  /** b has more of a metric that is to be maximized, or less of one to be minimized. */
  ghost predicate Gains(a: map<string, real>, b: map<string, real>, o: Objective) {
    match o.direction
    case Maximize => Reading(b, o.metric) > Reading(a, o.metric)
    case Minimize => Reading(b, o.metric) < Reading(a, o.metric)
    case Unknown => false
  }

  /** b is worse than a in no objective and better in one. */
  ghost predicate BetterPoint(a: map<string, real>, b: map<string, real>, objectives: seq<Objective>) {
    && (forall k :: 0 <= k < |objectives| ==> !Gains(b, a, objectives[k]))
    && exists k :: 0 <= k < |objectives| && Gains(a, b, objectives[k])
  }

  /** A point is flagged exactly when no point of the input is better; an objective
      without a direction is an error, unless there is no point at all. */
  method ComputeParetoFrontier(points: seq<map<string, real>>, objectives: seq<Objective>) returns (r: Flags)
    ensures r.InvalidDirection? <==>
      points != [] && exists k :: 0 <= k < |objectives| && objectives[k].direction == Unknown
    ensures r.Flags? ==> |r.optimal| == |points|
    ensures r.Flags? ==> forall i :: 0 <= i < |points| ==>
      (r.optimal[i] <==> forall j :: 0 <= j < |points| ==> !BetterPoint(points[i], points[j], objectives))
    ensures r.Flags? && points != [] ==> exists i :: 0 <= i < |points| && r.optimal[i]
  {
    if points == [] {
      return Flags([]);
    }
    var k := 0;
    while k < |objectives|
      invariant 0 <= k <= |objectives| && forall j :: 0 <= j < k ==> objectives[j].direction != Unknown
    {
      if objectives[k].direction == Unknown {
        return InvalidDirection;
      }
      k := k + 1;
    }
    var matrix := [];
    var i := 0;
    while i < |points|
      invariant 0 <= i <= |points| && |matrix| == i
      invariant forall j :: 0 <= j < i ==> matrix[j] == Criteria(points[j], objectives)
    {
      matrix := matrix + [Criteria(points[i], objectives)];
      i := i + 1;
    }
    var optimal := NonDominated(matrix);
    SomeOptimal(matrix);
    OptimalPoints(points, objectives, matrix);
    r := Flags(optimal[..]);
  }

  lemma CriterionGains(a: map<string, real>, b: map<string, real>, o: Objective)
    requires o.direction != Unknown
    ensures Gains(a, b, o) <==> Criterion(b, o) > Criterion(a, o)
  {
  }

  /** A row of the matrix dominates another exactly if its point is better. */
  lemma DominatesIff(a: map<string, real>, b: map<string, real>, objectives: seq<Objective>)
    requires forall k :: 0 <= k < |objectives| ==> objectives[k].direction != Unknown
    ensures Dominates(Criteria(b, objectives), Criteria(a, objectives)) <==> BetterPoint(a, b, objectives)
  {
    hide Gains, Criterion;
    forall k | 0 <= k < |objectives|
      ensures Gains(a, b, objectives[k]) <==> Criterion(b, objectives[k]) > Criterion(a, objectives[k])
      ensures Gains(b, a, objectives[k]) <==> Criterion(a, objectives[k]) > Criterion(b, objectives[k])
    {
      CriterionGains(a, b, objectives[k]);
      CriterionGains(b, a, objectives[k]);
    }
    var x, y := Criteria(a, objectives), Criteria(b, objectives);
    if k :| 0 <= k < |objectives| && Gains(a, b, objectives[k]) {
      assert y[k] > x[k];
    }
    if k :| 0 <= k < |y| && y[k] > x[k] {
      assert Gains(a, b, objectives[k]);
    }
  }

  /** A row is optimal exactly if no point is better than its point. */
  lemma OptimalPoint(points: seq<map<string, real>>, objectives: seq<Objective>, m: seq<Row>, i: nat)
    requires |m| == |points| && i < |m| && Rectangular(m)
    requires forall j :: 0 <= j < |m| ==> m[j] == Criteria(points[j], objectives)
    requires forall k :: 0 <= k < |objectives| ==> objectives[k].direction != Unknown
    ensures Optimal(m, i) <==> forall j :: 0 <= j < |points| ==> !BetterPoint(points[i], points[j], objectives)
  {
    hide Dominates, BetterPoint, Criteria;
    forall j | 0 <= j < |m| ensures Dominates(m[j], m[i]) <==> BetterPoint(points[i], points[j], objectives) {
      DominatesIff(points[i], points[j], objectives);
    }
  }

  lemma OptimalPoints(points: seq<map<string, real>>, objectives: seq<Objective>, m: seq<Row>)
    requires |m| == |points| && forall j :: 0 <= j < |m| ==> m[j] == Criteria(points[j], objectives)
    requires forall k :: 0 <= k < |objectives| ==> objectives[k].direction != Unknown
    ensures Rectangular(m)
    ensures forall i :: 0 <= i < |m| ==>
      (Optimal(m, i) <==> forall j :: 0 <= j < |points| ==> !BetterPoint(points[i], points[j], objectives))
  {
    hide Optimal, BetterPoint, Criteria;
    forall i | 0 <= i < |m|
      ensures Optimal(m, i) <==> forall j :: 0 <= j < |points| ==> !BetterPoint(points[i], points[j], objectives)
    {
      OptimalPoint(points, objectives, m, i);
    }
  }
}
