/** The geometric helpers of the post-processing linear program: the line
    through two ROC points, the half-plane to the left of a directed edge,
    the half-planes that keep a point inside a counter-clockwise polygon,
    and the argument checks and constraint dispatch that open
    `compute_fair_optimum`. Floating-point closeness (`np.isclose`) is
    exact equality here. */
module CvxpyUtils {
  import opened Wrappers

  /** A 2-D point (an ROC point: false positive rate, true positive rate). */
  datatype Point = Point(x: real, y: real)

  /** The exceptions raised. */
  datatype GeomError =
    | SamePoints        // ValueError "Invalid points: p1==p2;"
    | InconsistentLine  // RuntimeError for a vertical or horizontal line that is not one
    | NotSupported      // ValueError with the list of supported constraints
    | InvalidLengths    // ValueError: hulls and group-size arrays differ in length
    | NotImplemented    // NotImplementedError for a constraint without an LP

  /** `(slope, intercept)`; a vertical line has slope `inf` and intercept `nan`. */
  datatype Line = Vertical | Sloped(slope: real, intercept: real)

  /** The inequality `a1 * x + a2 * y + b <= 0`. */
  datatype Halfspace = Halfspace(a1: real, a2: real, b: real)

  function Eval(h: Halfspace, q: Point): real {
    h.a1 * q.x + h.a2 * q.y + h.b
  }

  /** The cross product of `p2 - p1` and `q - p1`: positive when `q` is to
      the left of the directed line `p1 -> p2`, zero when on it. */
  function Cross(p1: Point, p2: Point, q: Point): real {
    (p2.x - p1.x) * (q.y - p1.y) - (p2.y - p1.y) * (q.x - p1.x)
  }

  // ---------------------------------------------------------------------
  // compute_line

  /** `compute_line`. */
  function ComputeLine(p1: Point, p2: Point): (r: Result<Line, GeomError>)
    ensures r.Err? <==> p1 == p2
    ensures r.Err? ==> r.error == SamePoints
    ensures r == Ok(Vertical) <==> p1 != p2 && p1.x == p2.x
    ensures r.Ok? && r.value.Sloped? ==>
      && p1.x != p2.x
      && r.value.slope == (p2.y - p1.y) / (p2.x - p1.x)
      && p1.y == r.value.slope * p1.x + r.value.intercept
      && p2.y == r.value.slope * p2.x + r.value.intercept
  {
    if p1 == p2 then Err(SamePoints)
    else if p2.x == p1.x then Ok(Vertical)
    else
      var slope := (p2.y - p1.y) / (p2.x - p1.x);
      var intercept := p1.y - slope * p1.x;
      SlopeThrough(p1, p2, slope, intercept);
      Ok(Sloped(slope, intercept))
  }

  lemma SlopeThrough(p1: Point, p2: Point, slope: real, intercept: real)
    requires p1.x != p2.x && slope == (p2.y - p1.y) / (p2.x - p1.x) && intercept == p1.y - slope * p1.x
    ensures p2.y == slope * p2.x + intercept
  {
    var dx := p2.x - p1.x;
    assert slope * dx == p2.y - p1.y;
    assert slope * p2.x - slope * p1.x == slope * dx;
  }

  // ---------------------------------------------------------------------
  // compute_halfspace_inequality

  /** `compute_halfspace_inequality`, branch for branch, including the
      internal-consistency errors and the `[0, 0, 0]` fallback. */
  function ComputeHalfspaceInequality(p1: Point, p2: Point): (r: Result<Halfspace, GeomError>)
    ensures r.Err? <==> p1 == p2
    ensures r.Err? ==> r.error == SamePoints
    ensures r.Ok? ==> r.value != Halfspace(0.0, 0.0, 0.0)
  {
    match ComputeLine(p1, p2)
    case Err(e) => Err(e)
    case Ok(Vertical) =>
      if p1.x != p2.x then Err(InconsistentLine)
      else if p2.y < p1.y then Ok(Halfspace(-1.0, 0.0, p1.x))
      else if p2.y > p1.y then Ok(Halfspace(1.0, 0.0, -p1.x))
      else Ok(Halfspace(0.0, 0.0, 0.0))
    case Ok(Sloped(slope, intercept)) =>
      if slope == 0.0 then
        if p1.y != p2.y || p1.y != intercept then Err(InconsistentLine)
        else if p2.x < p1.x then Ok(Halfspace(0.0, 1.0, -p1.y))
        else if p2.x > p1.x then Ok(Halfspace(0.0, -1.0, p1.y))
        else Ok(Halfspace(0.0, 0.0, 0.0))
      else
        if p2.x < p1.x then Ok(Halfspace(-slope, 1.0, -intercept))
        else if p2.x > p1.x then Ok(Halfspace(slope, -1.0, intercept))
        else Ok(Halfspace(0.0, 0.0, 0.0))
  }

  /** The positive factor relating the inequality to the cross product. */
  function EdgeScale(p1: Point, p2: Point): real
    requires p1 != p2
  {
    if p1.x == p2.x then
      (if p2.y > p1.y then 1.0 / (p2.y - p1.y) else 1.0 / (p1.y - p2.y))
    else if p2.x > p1.x then 1.0 / (p2.x - p1.x) else 1.0 / (p1.x - p2.x)
  }

  /** The inequality is the cross product scaled by a negative factor:
      `A q + b == -k * cross(p2 - p1, q - p1)` with `k > 0`. */
  lemma HalfspaceIsScaledCross(p1: Point, p2: Point, q: Point)
    requires p1 != p2
    ensures EdgeScale(p1, p2) > 0.0
    ensures Eval(ComputeHalfspaceInequality(p1, p2).value, q) == -EdgeScale(p1, p2) * Cross(p1, p2, q)
  {
    if p1.x == p2.x {
      VerticalEdge(p1, p2, q);
    } else {
      SlopedEdge(p1, p2, q);
    }
  }

  lemma VerticalEdge(p1: Point, p2: Point, q: Point)
    requires p1 != p2 && p1.x == p2.x
    ensures EdgeScale(p1, p2) > 0.0
    ensures Eval(ComputeHalfspaceInequality(p1, p2).value, q) == -EdgeScale(p1, p2) * Cross(p1, p2, q)
  {
    var h := ComputeHalfspaceInequality(p1, p2).value;
    var dy, u := p2.y - p1.y, q.x - p1.x;
    assert h.a2 == 0.0;
    assert Eval(h, q) == h.a1 * q.x + h.b;
    assert Cross(p1, p2, q) == 0.0 - dy * u;
    VerticalCase(0.0, dy, u, q.y - p1.y, EdgeScale(p1, p2), h.a1, h.b, p1.x, q.x);
  }

  lemma SlopedEdge(p1: Point, p2: Point, q: Point)
    requires p1.x != p2.x
    ensures EdgeScale(p1, p2) > 0.0
    ensures Eval(ComputeHalfspaceInequality(p1, p2).value, q) == -EdgeScale(p1, p2) * Cross(p1, p2, q)
  {
    var h := ComputeHalfspaceInequality(p1, p2).value;
    var dx, dy := p2.x - p1.x, p2.y - p1.y;
    var u, v := q.x - p1.x, q.y - p1.y;
    assert Cross(p1, p2, q) == dx * v - dy * u;
    var slope := dy / dx;
    var intercept := p1.y - slope * p1.x;
    SlopedCase(dx, dy, u, v, EdgeScale(p1, p2), slope, intercept, p1, q, h);
  }

  lemma VerticalCase(dx: real, dy: real, u: real, v: real, k: real, a1: real, b: real, px: real, qx: real)
    requires dx == 0.0 && dy != 0.0 && u == qx - px
    requires dy > 0.0 ==> k == 1.0 / dy && a1 == 1.0 && b == -px
    requires dy < 0.0 ==> k == 1.0 / -dy && a1 == -1.0 && b == px
    ensures k > 0.0
    ensures a1 * qx + b == -k * (dx * v - dy * u)
  {
    if dy > 0.0 {
      assert k * dy == 1.0;
    } else {
      assert k * -dy == 1.0;
    }
  }

  lemma SlopedCase(dx: real, dy: real, u: real, v: real, k: real, slope: real, intercept: real,
                   p1: Point, q: Point, h: Halfspace)
    requires dx != 0.0 && slope == dy / dx && intercept == p1.y - slope * p1.x
    requires u == q.x - p1.x && v == q.y - p1.y
    requires dx > 0.0 ==> k == 1.0 / dx && h == Halfspace(slope, -1.0, intercept)
    requires dx < 0.0 ==> k == 1.0 / -dx && h == Halfspace(-slope, 1.0, -intercept)
    ensures k > 0.0
    ensures Eval(h, q) == -k * (dx * v - dy * u)
  {
    assert slope * dx == dy;
    var e := slope * q.x - q.y + intercept;
    assert e == slope * u - v;
    if dx > 0.0 {
      assert k * dx == 1.0;
      assert -k * (dx * v - dy * u) == -(k * dx) * v + (k * dx) * slope * u;
    } else {
      assert k * -dx == 1.0;
      assert Eval(h, q) == -e;
      assert -k * (dx * v - dy * u) == (k * -dx) * v - (k * -dx) * slope * u;
    }
  }

  /** Both points lie on the boundary `A x + b == 0`. */
  lemma HalfspaceThroughPoints(p1: Point, p2: Point)
    requires p1 != p2
    ensures Eval(ComputeHalfspaceInequality(p1, p2).value, p1) == 0.0
    ensures Eval(ComputeHalfspaceInequality(p1, p2).value, p2) == 0.0
  {
    HalfspaceIsScaledCross(p1, p2, p1);
    HalfspaceIsScaledCross(p1, p2, p2);
    assert Cross(p1, p2, p1) == 0.0;
    var dx, dy := p2.x - p1.x, p2.y - p1.y;
    assert Cross(p1, p2, p2) == dx * dy - dy * dx;
  }

  /** A point satisfies the inequality exactly when it is on or to the left
      of the directed line `p1 -> p2`. */
  lemma HalfspaceIsLeftSide(p1: Point, p2: Point, q: Point)
    requires p1 != p2
    ensures Eval(ComputeHalfspaceInequality(p1, p2).value, q) <= 0.0 <==> Cross(p1, p2, q) >= 0.0
  {
    HalfspaceIsScaledCross(p1, p2, q);
    NegScaleSign(EdgeScale(p1, p2), Cross(p1, p2, q));
  }

  lemma NegScaleSign(k: real, c: real)
    requires k > 0.0
    ensures -k * c <= 0.0 <==> c >= 0.0
  {
    if c < 0.0 {
      assert k * c < 0.0;
    }
  }

  // ---------------------------------------------------------------------
  // make_cvxpy_point_in_polygon_constraints

  /** Vertex `i` and its successor, wrapping around to the first. */
  function Edge(vs: seq<Point>, i: nat): (Point, Point)
    requires i < |vs|
  {
    (vs[i], vs[(i + 1) % |vs|])
  }

  /** The polygon has no edge of two equal consecutive vertices. */
  predicate ProperEdges(vs: seq<Point>) {
    forall i :: 0 <= i < |vs| ==> Edge(vs, i).0 != Edge(vs, i).1
  }

  /** `make_cvxpy_point_in_polygon_constraints`: the inequality of each
      edge, in vertex order; the first degenerate edge raises. */
  function PolygonConstraints(vs: seq<Point>): (r: Result<seq<Halfspace>, GeomError>)
    ensures r.Ok? <==> ProperEdges(vs)
    ensures r.Err? ==> r.error == SamePoints
    ensures r.Ok? ==> |r.value| == |vs|
    ensures r.Ok? ==> forall i :: 0 <= i < |vs| ==>
      r.value[i] == ComputeHalfspaceInequality(Edge(vs, i).0, Edge(vs, i).1).value
  {
    EdgeConstraints(vs, |vs|)
  }

  /** The constraints of the first `k` edges. */
  function EdgeConstraints(vs: seq<Point>, k: nat): (r: Result<seq<Halfspace>, GeomError>)
    requires k <= |vs|
    ensures r.Ok? <==> forall i :: 0 <= i < k ==> Edge(vs, i).0 != Edge(vs, i).1
    ensures r.Err? ==> r.error == SamePoints
    ensures r.Ok? ==> |r.value| == k
    ensures r.Ok? ==> forall i :: 0 <= i < k ==>
      r.value[i] == ComputeHalfspaceInequality(Edge(vs, i).0, Edge(vs, i).1).value
  {
    if k == 0 then Ok([])
    else
      match EdgeConstraints(vs, k - 1)
      case Err(e) => Err(e)
      case Ok(hs) =>
        var (p, q) := Edge(vs, k - 1);
        match ComputeHalfspaceInequality(p, q)
        case Err(e) => Err(e)
        case Ok(h) => Ok(hs + [h])
  }

  /** A point satisfies every constraint of the polygon exactly when it is
      on or to the left of every edge. */
  lemma InPolygonIff(vs: seq<Point>, q: Point)
    requires ProperEdges(vs)
    ensures var hs := PolygonConstraints(vs).value;
      (forall i :: 0 <= i < |vs| ==> Eval(hs[i], q) <= 0.0) <==>
      (forall i :: 0 <= i < |vs| ==> Cross(Edge(vs, i).0, Edge(vs, i).1, q) >= 0.0)
  {
    var hs := PolygonConstraints(vs).value;
    forall i | 0 <= i < |vs|
      ensures Eval(hs[i], q) <= 0.0 <==> Cross(Edge(vs, i).0, Edge(vs, i).1, q) >= 0.0
    {
      HalfspaceIsLeftSide(Edge(vs, i).0, Edge(vs, i).1, q);
    }
  }

  // ---------------------------------------------------------------------
  // compute_fair_optimum: argument checks and constraint dispatch

  /** `ALL_CONSTRAINTS`. */
  const AllConstraints: set<string> := {
    "equalized_odds",
    "true_positive_rate_parity",
    "false_positive_rate_parity",
    "true_negative_rate_parity",
    "false_negative_rate_parity"
  }

  predicate EndsWith(s: string, suffix: string) {
    |suffix| <= |s| && s[|s| - |suffix|..] == suffix
  }

  /** The ROC coordinate a rate-parity constraint compares, as written:
      false negative rate parity is tested twice and true negative rate
      parity is not tested at all. */
  function RateIndexAsWritten(name: string): (r: Result<nat, GeomError>)
    ensures name == "true_positive_rate_parity" || name == "false_negative_rate_parity" ==> r == Ok(1)
    ensures name == "false_positive_rate_parity" ==> r == Ok(0)
    ensures name == "true_negative_rate_parity" ==> r == Err(NotSupported)
    ensures r.Ok? <==> name in AllConstraints - {"equalized_odds", "true_negative_rate_parity"}
  {
    if name == "true_positive_rate_parity" || name == "false_negative_rate_parity" then Ok(1)
    else if name == "false_positive_rate_parity" || name == "false_negative_rate_parity" then Ok(0)
    else Err(NotSupported)
  }

  /** The ROC coordinate a rate-parity constraint compares: true positive
      and false negative rates are read off the true positive rate
      (index 1), false positive and true negative rates off the false
      positive rate (index 0). */
  function RateIndex(name: string): (r: Result<nat, GeomError>)
    ensures name == "true_positive_rate_parity" || name == "false_negative_rate_parity" ==> r == Ok(1)
    ensures name == "false_positive_rate_parity" || name == "true_negative_rate_parity" ==> r == Ok(0)
    ensures r.Ok? <==> name in AllConstraints && name != "equalized_odds"
    ensures r.Err? ==> r.error == NotSupported
  {
    if name == "true_positive_rate_parity" || name == "false_negative_rate_parity" then Ok(1)
    else if name == "false_positive_rate_parity" || name == "true_negative_rate_parity" then Ok(0)
    else Err(NotSupported)
  }

  /** The correction changes nothing but true negative rate parity. */
  lemma RateIndexAgrees(name: string)
    ensures name != "true_negative_rate_parity" ==> RateIndex(name) == RateIndexAsWritten(name)
  {
  }

  /** `p` comes strictly before `q` in lexicographic order. */
  predicate PairBefore(p: (nat, nat), q: (nat, nat)) {
    p.0 < q.0 || (p.0 == q.0 && p.1 < q.1)
  }

  /** Strictly increasing in lexicographic order, so without duplicates. */
  predicate LexIncreasing(ps: seq<(nat, nat)>) {
    forall i, j :: 0 <= i < j < |ps| ==> PairBefore(ps[i], ps[j])
  }

  /** The group pairs `(i, j)` with `i < j`, in the order
      `product(range(n), range(n))` produces them: lexicographic. */
  function Pairs(n: nat): (ps: seq<(nat, nat)>)
    ensures forall p :: p in ps <==> p.0 < p.1 < n
    ensures LexIncreasing(ps)
  {
    PairsFrom(0, n)
  }

  /** The pairs whose first group is at least `i`. */
  function PairsFrom(i: nat, n: nat): (ps: seq<(nat, nat)>)
    ensures forall p :: p in ps <==> i <= p.0 < p.1 < n
    ensures LexIncreasing(ps)
    decreases n - i
  {
    if i >= n then []
    else
      var row := seq(n - 1 - i, k requires 0 <= k < n - 1 - i => (i, i + 1 + k));
      var rest := PairsFrom(i + 1, n);
      assert forall p :: p in row <==> p.0 == i && i < p.1 < n by {
        forall p: (nat, nat) | p.0 == i && i < p.1 < n ensures p in row {
          assert row[p.1 - i - 1] == p;
        }
      }
      assert LexIncreasing(row + rest) by {
        forall a, b | 0 <= a < b < |row + rest| ensures PairBefore((row + rest)[a], (row + rest)[b]) {
          if b >= |row| {
            assert (row + rest)[b] in rest;
            if a >= |row| {
              assert (row + rest)[a] == rest[a - |row|] && (row + rest)[b] == rest[b - |row|];
            }
          }
        }
      }
      row + rest
  }

  /** The fairness constraints as a plan: either both ROC coordinates of
      every pair of groups within `tolerance` (l-infinity norm), or the one
      coordinate of a rate parity. */
  datatype FairnessPlan = EqualizedOdds(pairs: seq<(nat, nat)>) | RateParity(index: nat, pairs: seq<(nat, nat)>)

  /** The argument checks and the fairness dispatch of
      `compute_fair_optimum` for `n` hulls and group-size arrays of lengths
      `negLen` and `posLen`, given the ROC coordinate (or the error) the
      rate dispatch yields for `name`. */
  function CheckAndDispatch(name: string, n: nat, negLen: nat, posLen: nat, rate: Result<nat, GeomError>)
    : Result<FairnessPlan, GeomError>
  {
    if name !in AllConstraints then Err(NotSupported)
    else if n != negLen || n != posLen then Err(InvalidLengths)
    else if name == "equalized_odds" then Ok(EqualizedOdds(Pairs(n)))
    else if EndsWith(name, "rate_parity") then
      match rate
      case Ok(k) => Ok(RateParity(k, Pairs(n)))
      case Err(e) => Err(e)
    else Err(NotImplemented)
  }

  /** The checks and dispatch as written. */
  function FairnessConstraintsAsWritten(name: string, n: nat, negLen: nat, posLen: nat): (r: Result<FairnessPlan, GeomError>)
    ensures name !in AllConstraints ==> r == Err(NotSupported)
    ensures name in AllConstraints && (n != negLen || n != posLen) ==> r == Err(InvalidLengths)
    ensures name == "true_negative_rate_parity" && n == negLen == posLen ==> r == Err(NotSupported)
    ensures name != "true_negative_rate_parity" ==> r == FairnessConstraints(name, n, negLen, posLen)
  {
    RateIndexAgrees(name);
    RateParityNames(name);
    CheckAndDispatch(name, n, negLen, posLen, RateIndexAsWritten(name))
  }

  /** As written, true negative rate parity fails with the "not supported"
      error for every well-formed call, although it is a supported name. */
  lemma TrueNegativeRateParityFails(n: nat)
    ensures "true_negative_rate_parity" in AllConstraints
    ensures FairnessConstraintsAsWritten("true_negative_rate_parity", n, n, n) == Err(NotSupported)
    ensures FairnessConstraints("true_negative_rate_parity", n, n, n) == Ok(RateParity(0, Pairs(n)))
  {
    RateParityNames("true_negative_rate_parity");
  }

  /** The checks and dispatch with the corrected rate dispatch: every
      supported name with consistent lengths yields its plan. */
  function FairnessConstraints(name: string, n: nat, negLen: nat, posLen: nat): (r: Result<FairnessPlan, GeomError>)
    ensures name !in AllConstraints ==> r == Err(NotSupported)
    ensures name in AllConstraints && (n != negLen || n != posLen) ==> r == Err(InvalidLengths)
    ensures r.Ok? <==> name in AllConstraints && n == negLen == posLen
    ensures r.Ok? && name == "equalized_odds" ==> r.value == EqualizedOdds(Pairs(n))
    ensures r.Ok? && name != "equalized_odds" ==> RateIndex(name).Ok? && r.value == RateParity(RateIndex(name).value, Pairs(n))
  {
    RateParityNames(name);
    CheckAndDispatch(name, n, negLen, posLen, RateIndex(name))
  }

  /** What `compute_fair_optimum` sets up before solving: the fairness plan
      and the polygon constraints of every group's ROC hull. */
  datatype Plan = Plan(fairness: FairnessPlan, polygons: seq<seq<Halfspace>>)

  /** The checks, the dispatch and the loop adding the polygon constraints
      of each group's hull, with the corrected rate dispatch. */
  method FairOptimumConstraints(name: string, hulls: seq<seq<Point>>, neg: seq<real>, pos: seq<real>)
      returns (r: Result<Plan, GeomError>)
    ensures FairnessConstraints(name, |hulls|, |neg|, |pos|).Err? ==>
      r == Err(FairnessConstraints(name, |hulls|, |neg|, |pos|).error)
    ensures r.Ok? <==>
      name in AllConstraints && |hulls| == |neg| == |pos| && forall g :: 0 <= g < |hulls| ==> ProperEdges(hulls[g])
    ensures r.Err? && FairnessConstraints(name, |hulls|, |neg|, |pos|).Ok? ==> r.error == SamePoints
    ensures r.Ok? ==> r.value.fairness == FairnessConstraints(name, |hulls|, |neg|, |pos|).value
    ensures r.Ok? ==> |r.value.polygons| == |hulls|
    ensures r.Ok? ==> forall g :: 0 <= g < |hulls| ==> r.value.polygons[g] == PolygonConstraints(hulls[g]).value
  {
    var fairness := FairnessConstraints(name, |hulls|, |neg|, |pos|);
    if fairness.Err? {
      return Err(fairness.error);
    }
    var polygons: seq<seq<Halfspace>> := [];
    for idx := 0 to |hulls|
      invariant |polygons| == idx
      invariant forall g :: 0 <= g < idx ==> ProperEdges(hulls[g]) && polygons[g] == PolygonConstraints(hulls[g]).value
    {
      var cs := PolygonConstraints(hulls[idx]);
      if cs.Err? {
        return Err(cs.error);
      }
      polygons := polygons + [cs.value];
    }
    return Ok(Plan(fairness.value, polygons));
  }

  /** Every supported name other than `equalized_odds` ends in `rate_parity`. */
  lemma RateParityNames(name: string)
    ensures name in AllConstraints && name != "equalized_odds" ==> EndsWith(name, "rate_parity")
  {
    assert "true_positive_rate_parity"[14..] == "rate_parity";
    assert "false_positive_rate_parity"[15..] == "rate_parity";
    assert "true_negative_rate_parity"[14..] == "rate_parity";
    assert "false_negative_rate_parity"[15..] == "rate_parity";
  }
}
