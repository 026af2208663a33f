/** The exponentiated-gradient driver of the Lagrangian reduction
    (`ExponentiatedGradient.fit` and `_format_results`): the dual vector
    `theta`, the bounded multipliers `lambda`, the best-response counts
    `Qsum`, the choice between the exponentiated-gradient and the
    linear-programming candidates, the stopping test, the regret-driven
    learning-rate schedule and the selection of the best iteration.

    The `_Lagrangian` game state is an oracle whose answers, like the real
    object's, depend only on the lambda vectors it has been handed so far. */
module ExpGradient {
  import opened Numeric
  import opened Wrappers

  /** The `_Lagrangian` object. Every query that reads the game state takes
      the history of lambda vectors given to `best_h` so far. */
  datatype Lagrangian = Lagrangian(
    constraintCount: nat,                                          // |lagrangian.constraints.index|
    bestH: seq<seq<real>> -> nat,                                  // h_idx of best_h(last lambda)
    gammas: nat -> seq<real>,                                      // lagrangian.gammas[h_idx]
    evalGap: (seq<seq<real>>, map<nat, real>, seq<real>) -> real,  // eval_gap(Q, lambda, nu).gap()
    solveLinprog: seq<seq<real>> -> (map<nat, real>, real),        // (Q_LP, result_LP.gap())
    hs: seq<seq<real>> -> seq<nat>)                                // lagrangian.hs.index

  /** Every cached gamma vector is indexed by the constraint identifiers. */
  ghost predicate WellFormed(lag: Lagrangian) {
    forall h :: |lag.gammas(h)| == lag.constraintCount
  }

  /** The tuning constants `_MIN_T`, `_REGRET_CHECK_START_T`,
      `_REGRET_CHECK_INCREASE_T`, `_SHRINK_REGRET`, `_SHRINK_ETA`,
      `_RUN_LP_STEP` and `_PRECISION`. */
  datatype Constants = Constants(
    minT: nat,
    regretCheckStartT: real,
    regretCheckIncreaseT: real,
    shrinkRegret: real,
    shrinkEta: real,
    runLpStep: bool,
    precision: real)

  /** The signs of the constants that the learning-rate and selection
      properties rely on. */
  predicate ValidConstants(c: Constants) {
    c.shrinkRegret > 0.0 && 0.0 < c.shrinkEta <= 1.0 && c.precision >= 0.0 &&
    c.regretCheckStartT >= 0.0 && c.regretCheckIncreaseT >= 1.0
  }

  /** The estimator's configuration: `eps`, `T`, `nu` and `eta_mul`. */
  datatype Config = Config(eps: real, T: int, nu: real, etaMul: real)

  // ---------------------------------------------------------------------
  // The dual vector and the multipliers

  /** `np.exp` applied entry by entry. */
  function Exps(theta: seq<real>, exp: real -> real): seq<real> {
    seq(|theta|, j requires 0 <= j < |theta| => exp(theta[j]))
  }

  lemma ExpsPositive(theta: seq<real>, exp: real -> real)
    requires forall x :: exp(x) > 0.0
    ensures forall j :: 0 <= j < |theta| ==> Exps(theta, exp)[j] > 0.0
  {
    forall j | 0 <= j < |theta| ensures Exps(theta, exp)[j] > 0.0 {
      var x := theta[j];
      assert exp(x) > 0.0;
      assert Exps(theta, exp)[j] == exp(x);
    }
  }

  /** A multiplier vector the dual player may play: non-negative entries
      whose total stays strictly below the budget B. */
  predicate InDualBall(v: seq<real>, B: real) {
    (forall j :: 0 <= j < |v| ==> v[j] >= 0.0) && Sum(v) < B
  }

  /** `lambda_vec = B * exp(theta) / (1 + exp(theta).sum())`. */
  function LambdaVec(B: real, theta: seq<real>, exp: real -> real): (lam: seq<real>)
    requires forall x :: exp(x) > 0.0
    ensures |lam| == |theta|
    ensures B > 0.0 ==> InDualBall(lam, B)
  {
    var e := Exps(theta, exp);
    ExpsPositive(theta, exp);
    SumNonNegative(e);
    var total := 1.0 + Sum(e);
    var lam := seq(|theta|, j requires 0 <= j < |theta| => B * e[j] / total);
    ScaledEntries(B, e, total, lam);
    LambdaInBall(B, e, total, B / total, lam);
    lam
  }

  lemma LambdaInBall(B: real, e: seq<real>, total: real, f: real, lam: seq<real>)
    requires forall j :: 0 <= j < |e| ==> e[j] > 0.0
    requires total == 1.0 + Sum(e) && Sum(e) >= 0.0 && f == B / total
    requires |lam| == |e| && forall j :: 0 <= j < |e| ==> lam[j] == f * e[j]
    ensures B > 0.0 ==> InDualBall(lam, B)
  {
    SumScale(e, lam, f);
    if B > 0.0 {
      forall j | 0 <= j < |e| ensures lam[j] >= 0.0 {
        PositiveProduct(f, e[j]);
      }
      BudgetArith(B, Sum(e), total, Sum(lam));
    }
  }

  /** Each entry of the lambda vector is `e[j]` scaled by `B / total`. */
  lemma ScaledEntries(B: real, e: seq<real>, total: real, lam: seq<real>)
    requires total > 0.0
    requires |lam| == |e| && forall j :: 0 <= j < |e| ==> lam[j] == B * e[j] / total
    ensures forall j :: 0 <= j < |e| ==> lam[j] == (B / total) * e[j]
  {
    forall j | 0 <= j < |e| ensures lam[j] == (B / total) * e[j] {
      DivMul(B, e[j], total);
    }
  }

  lemma PositiveProduct(f: real, x: real)
    requires f >= 0.0 && x > 0.0
    ensures f * x >= 0.0
  {
  }

  /** `B * S / (1 + S) < B` for `S >= 0`. */
  lemma BudgetArith(B: real, S: real, total: real, scaled: real)
    requires B > 0.0 && S >= 0.0 && total == 1.0 + S
    requires scaled == (B / total) * S
    ensures scaled < B
  {
    var f := B / total;
    assert f * total == B;
    assert f > 0.0;
    assert f * S < f * total;
  }

  /** Column `j` of the table of lambda vectors (one row per iteration). */
  function Column(ls: seq<seq<real>>, j: nat): seq<real>
    requires forall i :: 0 <= i < |ls| ==> j < |ls[i]|
  {
    seq(|ls|, i requires 0 <= i < |ls| => ls[i][j])
  }

  predicate Rectangular(ls: seq<seq<real>>, m: nat) {
    forall i :: 0 <= i < |ls| ==> |ls[i]| == m
  }

  /** `lambdas.mean(axis=1)`: the componentwise mean of the lambda vectors. */
  function ColumnMean(ls: seq<seq<real>>, m: nat): (r: seq<real>)
    requires |ls| > 0 && Rectangular(ls, m)
    ensures |r| == m
  {
    seq(m, j requires 0 <= j < m => Sum(Column(ls, j)) / |ls| as real)
  }

  function ColumnSums(ls: seq<seq<real>>, m: nat): seq<real>
    requires Rectangular(ls, m)
  {
    seq(m, j requires 0 <= j < m => Sum(Column(ls, j)))
  }

  function RowSums(ls: seq<seq<real>>): seq<real> {
    seq(|ls|, i requires 0 <= i < |ls| => Sum(ls[i]))
  }

  /** Summing a table by columns or by rows gives the same total. */
  lemma {:induction false} SumByColumns(ls: seq<seq<real>>, m: nat)
    requires Rectangular(ls, m)
    ensures Sum(ColumnSums(ls, m)) == Sum(RowSums(ls))
  {
    var n := |ls|;
    if n == 0 {
      var z := seq(m, j => 0.0);
      assert ColumnSums(ls, m) == z;
      SumScale(z, z, 0.0);
    } else {
      var front := ls[..n - 1];
      SumByColumns(front, m);
      forall j | 0 <= j < m
        ensures ColumnSums(ls, m)[j] == ColumnSums(front, m)[j] + ls[n - 1][j]
      {
        assert Column(ls, j)[..n - 1] == Column(front, j);
      }
      SumAdd(ColumnSums(front, m), ls[n - 1], ColumnSums(ls, m));
      assert RowSums(ls)[..n - 1] == RowSums(front);
    }
  }

  /** Sums of entries that are each below `B`. */
  lemma {:induction false} SumBelow(s: seq<real>, B: real)
    requires |s| > 0
    requires forall i :: 0 <= i < |s| ==> s[i] < B
    ensures Sum(s) < |s| as real * B
  {
    if |s| > 1 {
      SumBelow(s[..|s| - 1], B);
    }
  }

  /** `lambda_EG` stays in the dual ball when every lambda vector does. */
  lemma ColumnMeanInDualBall(ls: seq<seq<real>>, m: nat, B: real)
    requires |ls| > 0 && Rectangular(ls, m)
    requires forall i :: 0 <= i < |ls| ==> InDualBall(ls[i], B)
    ensures InDualBall(ColumnMean(ls, m), B)
  {
    var n := |ls| as real;
    var mean := ColumnMean(ls, m);
    var sums := ColumnSums(ls, m);
    ColumnMeanNonNegative(ls, m);
    ColumnMeanTotal(ls, m);
    assert Sum(sums) < n * B by {
      RowSumsBelow(ls, m, B);
    }
    MeanBelow(Sum(sums), n, B);
  }

  lemma ColumnMeanNonNegative(ls: seq<seq<real>>, m: nat)
    requires |ls| > 0 && Rectangular(ls, m)
    requires forall i, j :: 0 <= i < |ls| && 0 <= j < m ==> ls[i][j] >= 0.0
    ensures forall j :: 0 <= j < m ==> ColumnMean(ls, m)[j] >= 0.0
  {
    forall j | 0 <= j < m ensures ColumnMean(ls, m)[j] >= 0.0 {
      SumNonNegative(Column(ls, j));
      var x := Sum(Column(ls, j));
      assert ColumnMean(ls, m)[j] == x / |ls| as real;
    }
  }

  lemma ColumnMeanTotal(ls: seq<seq<real>>, m: nat)
    requires |ls| > 0 && Rectangular(ls, m)
    ensures Sum(ColumnMean(ls, m)) == (1.0 / |ls| as real) * Sum(ColumnSums(ls, m))
  {
    var n := |ls| as real;
    var mean, sums := ColumnMean(ls, m), ColumnSums(ls, m);
    forall j | 0 <= j < m ensures mean[j] == (1.0 / n) * sums[j] {
      DivMul(1.0, sums[j], n);
    }
    SumScale(sums, mean, 1.0 / n);
  }

  lemma RowSumsBelow(ls: seq<seq<real>>, m: nat, B: real)
    requires |ls| > 0 && Rectangular(ls, m)
    requires forall i :: 0 <= i < |ls| ==> InDualBall(ls[i], B)
    ensures Sum(ColumnSums(ls, m)) < |ls| as real * B
  {
    SumByColumns(ls, m);
    assert forall i :: 0 <= i < |ls| ==> RowSums(ls)[i] < B;
    SumBelow(RowSums(ls), B);
  }

  lemma MeanBelow(total: real, n: real, B: real)
    requires n > 0.0 && total < n * B
    ensures (1.0 / n) * total < B
  {
    DivMul(1.0, total, n);
    assert total / n < (n * B) / n;
    DivMul(n, B, n);
  }

  /** `theta + eta * (gamma - eps)`: with a positive learning rate, the
      dual variable of a constraint violated by more than `eps` goes up, of
      one satisfied with slack goes down, and of one met exactly stays. */
  function ThetaStep(theta: seq<real>, eta: real, gamma: seq<real>, eps: real): (r: seq<real>)
    requires |gamma| == |theta|
    ensures |r| == |theta|
    ensures eta > 0.0 ==> forall j :: 0 <= j < |theta| ==>
      && (r[j] > theta[j] <==> gamma[j] > eps)
      && (r[j] < theta[j] <==> gamma[j] < eps)
  {
    var r := seq(|theta|, j requires 0 <= j < |theta| => theta[j] + eta * (gamma[j] - eps));
    forall j | 0 <= j < |theta| && eta > 0.0
      ensures (r[j] > theta[j] <==> gamma[j] > eps) && (r[j] < theta[j] <==> gamma[j] < eps)
    {
      StepSign(theta[j], eta, gamma[j], eps, r[j]);
    }
    r
  }

  lemma StepSign(x: real, eta: real, g: real, eps: real, y: real)
    requires eta > 0.0 && y == x + eta * (g - eps)
    ensures (y > x <==> g > eps) && (y < x <==> g < eps)
  {
    var d := g - eps;
    if d > 0.0 {
      assert eta * d > 0.0;
    } else if d < 0.0 {
      assert eta * -d > 0.0;
    } else {
      assert eta * d == 0.0;
    }
  }

  // ---------------------------------------------------------------------
  // Best-response counts

  /** `Q_EG`: how often each classifier index was the best response,
      divided by the number of iterations. */
  ghost function Empirical(picks: seq<nat>): map<nat, real>
    requires |picks| > 0
  {
    map k | k in Elems(picks) :: Count(picks, k) as real / |picks| as real
  }

  /** The raw counts `Qsum`. */
  ghost function Counts(picks: seq<nat>): map<nat, real> {
    map k | k in Elems(picks) :: Count(picks, k) as real
  }

  /** A probability vector over classifier indices. */
  ghost predicate Distribution(q: map<nat, real>) {
    (forall k :: k in q ==> q[k] >= 0.0) && MapSum(q) == 1.0
  }

  /** The counts add up to the number of iterations. */
  lemma {:induction false} CountsTotal(picks: seq<nat>)
    ensures MapSum(Counts(picks)) == |picks| as real
  {
    if |picks| == 0 {
      assert Counts(picks) == map[];
    } else {
      var front, h := picks[..|picks| - 1], picks[|picks| - 1];
      CountsTotal(front);
      var c := Counts(front);
      assert picks == front + [h];
      CountsAppend(front, h);
      MapSumUpdate(c, h, (if h in c then c[h] else 0.0) + 1.0);
    }
  }

  /** `Qsum[h_idx] += 1.0`, adding the index first when it is new. */
  lemma CountsAppend(picks: seq<nat>, h: nat)
    ensures var c := Counts(picks);
      Counts(picks + [h]) == c[h := (if h in c then c[h] else 0.0) + 1.0]
  {
    var p := picks + [h];
    assert p[..|p| - 1] == picks;
    assert Elems(p) == Elems(picks) + {h};
  }

  /** `Q_EG = Qsum / Qsum.sum()` is a probability vector over the indices
      that were a best response, each with a positive weight. */
  lemma EmpiricalIsDistribution(picks: seq<nat>)
    requires |picks| > 0
    ensures Distribution(Empirical(picks))
    ensures Empirical(picks).Keys == Elems(picks)
    ensures forall k :: k in Empirical(picks) ==> Empirical(picks)[k] > 0.0
  {
    EmpiricalTotal(picks);
    EmpiricalScalesCounts(picks);
  }

  lemma EmpiricalTotal(picks: seq<nat>)
    requires |picks| > 0
    ensures MapSum(Empirical(picks)) == 1.0
  {
    EmpiricalScalesCounts(picks);
    CountsTotal(picks);
    NormalizedTotal(Counts(picks), Empirical(picks), |picks| as real);
  }

  /** Dividing every value by the total makes the values add up to one. */
  lemma NormalizedTotal<K>(cs: map<K, real>, q: map<K, real>, n: real)
    requires n > 0.0 && MapSum(cs) == n && q.Keys == cs.Keys
    requires forall k :: k in cs ==> q[k] == cs[k] / n
    ensures MapSum(q) == 1.0
  {
    var f := 1.0 / n;
    forall k | k in cs ensures q[k] == f * cs[k] {
      DivMul(1.0, cs[k], n);
    }
    MapSumScale(cs, q, f);
    assert f * n == 1.0;
  }

  lemma EmpiricalScalesCounts(picks: seq<nat>)
    requires |picks| > 0
    ensures Empirical(picks).Keys == Counts(picks).Keys == Elems(picks)
    ensures forall k :: k in Counts(picks) ==>
      Empirical(picks)[k] == Counts(picks)[k] / |picks| as real && Empirical(picks)[k] > 0.0
  {
    forall k | k in Counts(picks)
      ensures Empirical(picks)[k] == Counts(picks)[k] / |picks| as real && Empirical(picks)[k] > 0.0
    {
      var x := Count(picks, k) as real;
      assert x > 0.0;
      PositiveRatio(x, |picks| as real);
    }
  }

  lemma PositiveRatio(x: real, n: real)
    requires x > 0.0 && n > 0.0
    ensures x / n > 0.0
  {
  }

  /** The sum of the values of `m`, the way pandas' `Series.sum` does it. */
  method SumValues(m: map<nat, real>) returns (s: real)
    ensures s == MapSum(m)
  {
    s := 0.0;
    var rest := m.Keys;
    while rest != {}
      invariant rest <= m.Keys
      invariant s + KeySum(m, rest) == MapSum(m)
      decreases rest
    {
      var k :| k in rest;
      KeySumRemove(m, rest, k);
      s := s + m[k];
      rest := rest - {k};
    }
  }

  /** `Qsum / Qsum.sum()` for counts of at least one best response. */
  method Normalize(qsum: map<nat, real>, ghost picks: seq<nat>) returns (q: map<nat, real>)
    requires |picks| > 0 && qsum == Counts(picks)
    ensures q == Empirical(picks)
  {
    var total := SumValues(qsum);
    CountsTotal(picks);
    q := map k | k in qsum :: qsum[k] / total;
  }

  // ---------------------------------------------------------------------
  // One iteration's candidate

  /** The candidate computed by `solve_linprog`, or none on iterations that
      skip the linear program (`gap_LP = np.PINF`). */
  datatype LpCandidate = NoLp | Lp(q: map<nat, real>, gap: real)

  function GapLP(lp: LpCandidate): ExtReal {
    match lp
    case NoLp => PosInf
    case Lp(_, g) => Finite(g)
  }

  /** The candidate recorded in `Qs` and `gaps`. */
  function Choose(qEG: map<nat, real>, gapEG: real, lp: LpCandidate): (r: (map<nat, real>, real))
    ensures Less(gapEG, GapLP(lp)) ==> r == (qEG, gapEG)
    ensures !Less(gapEG, GapLP(lp)) ==> lp.Lp? && r == (lp.q, lp.gap)
    ensures r.1 <= gapEG
  {
    if Less(gapEG, GapLP(lp)) then (qEG, gapEG) else (lp.q, lp.gap)
  }

  /** The break test: `gaps[t] < nu and t >= _MIN_T`. */
  predicate Stops(c: Constants, nu: real, t: nat, gap: real) {
    gap < nu && t >= c.minT
  }

  // ---------------------------------------------------------------------
  // The learning-rate schedule

  /** `eta`, `last_regret_checked` and `last_gap`. */
  datatype Regret = Regret(eta: real, lastChecked: real, lastGap: ExtReal)

  /** `x > y * c` in floating point when `y` may be `np.PINF`: `inf * c` is
      `inf` for `c > 0`, `-inf` for `c < 0` and NaN for `c == 0`, and no
      number exceeds `inf` or NaN. */
  predicate ExceedsScaled(x: real, y: ExtReal, c: real) {
    match y
    case PosInf => c < 0.0
    case Finite(v) => x > v * c
  }

  predicate IsCheckpoint(c: Constants, st: Regret, t: nat) {
    t as real >= st.lastChecked * c.regretCheckIncreaseT
  }

  /** The regret update at the end of a non-final iteration `t`, where
      `gapsEG` holds the EG gaps of iterations 0..t. `eta` changes only by
      the factor `_SHRINK_ETA`, only at a checkpoint and only when the best
      gap has not shrunk enough; every checkpoint records the iteration and
      the best gap so far, and between checkpoints nothing changes. */
  function RegretStep(c: Constants, st: Regret, t: nat, gapsEG: seq<real>): (r: Regret)
    requires |gapsEG| > 0
    ensures r.eta == st.eta || r.eta == st.eta * c.shrinkEta
    ensures r.eta != st.eta ==> IsCheckpoint(c, st, t) && ExceedsScaled(Min(gapsEG), st.lastGap, c.shrinkRegret)
    ensures IsCheckpoint(c, st, t) && ExceedsScaled(Min(gapsEG), st.lastGap, c.shrinkRegret) ==>
      r.eta == st.eta * c.shrinkEta
    ensures c.shrinkRegret >= 0.0 && st.lastGap.PosInf? ==> r.eta == st.eta
    ensures c.shrinkRegret > 0.0 && r.eta != st.eta ==>
      st.lastGap.Finite? && Min(gapsEG) > st.lastGap.r * c.shrinkRegret
    ensures IsCheckpoint(c, st, t) ==> r.lastChecked == t as real && r.lastGap == Finite(Min(gapsEG))
    ensures !IsCheckpoint(c, st, t) ==> r == st
    ensures ValidConstants(c) && st.eta > 0.0 ==> 0.0 < r.eta <= st.eta
  {
    if IsCheckpoint(c, st, t) then
      var best := Min(gapsEG);
      var shrink := ExceedsScaled(best, st.lastGap, c.shrinkRegret);
      var eta := if shrink then st.eta * c.shrinkEta else st.eta;
      assert ValidConstants(c) && st.eta > 0.0 ==> 0.0 < eta <= st.eta by {
        if ValidConstants(c) && st.eta > 0.0 {
          ShrunkEta(st.eta, c.shrinkEta, shrink, eta);
        }
      }
      Regret(eta, t as real, Finite(best))
    else st
  }

  /** Shrinking a positive number by a factor in (0, 1], or not at all. */
  lemma ShrunkEta(x: real, f: real, shrink: bool, e: real)
    requires x > 0.0 && 0.0 < f <= 1.0 && e == (if shrink then x * f else x)
    ensures 0.0 < e <= x
  {
    if shrink {
      ShrinkBelow(x, f);
    }
  }

  /** Shrinking a positive number by a factor in (0, 1]. */
  lemma ShrinkBelow(x: real, f: real)
    requires x > 0.0 && 0.0 < f <= 1.0
    ensures 0.0 < x * f <= x
  {
    assert x * f <= x * 1.0;
  }

  /** `last_gap` always holds the smallest EG gap seen up to some earlier
      iteration, or infinity before the first checkpoint. */
  ghost predicate GapSoFar(st: Regret, gapsEG: seq<real>) {
    st.lastGap.PosInf? || exists k :: 0 < k <= |gapsEG| && st.lastGap.r == Min(gapsEG[..k])
  }

  /** `last_gap` never increases, and stays the best gap of a prefix. */
  lemma RegretGapNonIncreasing(c: Constants, st: Regret, t: nat, gapsEG: seq<real>)
    requires |gapsEG| > 0
    requires GapSoFar(st, gapsEG[..|gapsEG| - 1])
    ensures var r := RegretStep(c, st, t, gapsEG);
      && GapSoFar(r, gapsEG)
      && (st.lastGap.Finite? ==> r.lastGap.Finite? && r.lastGap.r <= st.lastGap.r)
  {
    var n := |gapsEG|;
    var r := RegretStep(c, st, t, gapsEG);
    if IsCheckpoint(c, st, t) {
      assert gapsEG[..n] == gapsEG;
      if st.lastGap.Finite? {
        var k :| 0 < k <= n - 1 && st.lastGap.r == Min(gapsEG[..n - 1][..k]);
        assert gapsEG[..n - 1][..k] == gapsEG[..k];
        MinPrefix(gapsEG, k);
      }
    } else if st.lastGap.Finite? {
      var k :| 0 < k <= n - 1 && st.lastGap.r == Min(gapsEG[..n - 1][..k]);
      assert gapsEG[..n - 1][..k] == gapsEG[..k];
    }
  }

  // ---------------------------------------------------------------------
  // The trace of the `for t` loop

  /** Everything one iteration computes; `theta` and `reg` are the values
      at the start of the iteration. */
  datatype Round = Round(
    theta: seq<real>, reg: Regret, lambda: seq<real>, h: nat,
    qEG: map<nat, real>, gapEG: real, lp: LpCandidate, q: map<nat, real>, gap: real)

  function Lambdas(rs: seq<Round>): seq<seq<real>> {
    seq(|rs|, i requires 0 <= i < |rs| => rs[i].lambda)
  }

  function Picks(rs: seq<Round>): seq<nat> {
    seq(|rs|, i requires 0 <= i < |rs| => rs[i].h)
  }

  function GapsEG(rs: seq<Round>): seq<real> {
    seq(|rs|, i requires 0 <= i < |rs| => rs[i].gapEG)
  }

  function Gaps(rs: seq<Round>): seq<real> {
    seq(|rs|, i requires 0 <= i < |rs| => rs[i].gap)
  }

  function Qs(rs: seq<Round>): seq<map<nat, real>> {
    seq(|rs|, i requires 0 <= i < |rs| => rs[i].q)
  }

  /** The state entering the first iteration: `theta = 0`,
      `eta = eta_mul / B`, `last_regret_checked = _REGRET_CHECK_START_T`,
      `last_gap = np.PINF`. */
  function InitialTheta(m: nat): seq<real> {
    seq(m, j => 0.0)
  }

  function InitialRegret(c: Constants, cfg: Config): Regret
    requires cfg.eps != 0.0
  {
    Regret(cfg.etaMul / (1.0 / cfg.eps), c.regretCheckStartT, PosInf)
  }

  /** Iteration `i` computes round `r` from `theta` and `eta`, given the
      lambda vectors `hist` and best responses `picks` of iterations 0..i. */
  ghost predicate IterationOk(lag: Lagrangian, c: Constants, exp: real -> real, cfg: Config,
                              i: nat, hist: seq<seq<real>>, picks: seq<nat>, r: Round)
  {
    && cfg.eps != 0.0 && (forall x :: exp(x) > 0.0)
    && |picks| > 0 && |hist| > 0
    && |r.theta| == lag.constraintCount
    && Rectangular(hist, lag.constraintCount)
    && r.lambda == LambdaVec(1.0 / cfg.eps, r.theta, exp)
    && r.h == lag.bestH(hist)
    && r.qEG == Empirical(picks)
    && r.gapEG == lag.evalGap(hist, r.qEG, ColumnMean(hist, lag.constraintCount))
    && r.lp == (if i == 0 || !c.runLpStep then NoLp else Lp(lag.solveLinprog(hist).0, lag.solveLinprog(hist).1))
    && (r.q, r.gap) == Choose(r.qEG, r.gapEG, r.lp)
  }

  /** `theta` and `reg` are what the end of iteration `t` leaves behind when
      `p` is its round and `gapsEG` the EG gaps of iterations 0..t: the loop
      did not break, the schedule was updated, then `theta` took a step. */
  ghost predicate Follows(lag: Lagrangian, c: Constants, cfg: Config, t: nat, p: Round, gapsEG: seq<real>,
                          theta: seq<real>, reg: Regret)
  {
    && |gapsEG| > 0
    && !Stops(c, cfg.nu, t, p.gap)
    && reg == RegretStep(c, p.reg, t, gapsEG)
    && |lag.gammas(p.h)| == |p.theta|
    && theta == ThetaStep(p.theta, reg.eta, lag.gammas(p.h), cfg.eps)
  }

  /** The last round of `pre` is what the loop body computes from the
      rounds before it. */
  ghost predicate LastRoundOk(lag: Lagrangian, c: Constants, exp: real -> real, cfg: Config, pre: seq<Round>)
  {
    && |pre| > 0 && cfg.eps != 0.0
    && var i := |pre| - 1;
    var r := pre[i];
    && IterationOk(lag, c, exp, cfg, i, Lambdas(pre), Picks(pre), r)
    && (i == 0 ==> r.theta == InitialTheta(lag.constraintCount) && r.reg == InitialRegret(c, cfg))
    && (i > 0 ==> Follows(lag, c, cfg, i - 1, pre[i - 1], GapsEG(pre[..i]), r.theta, r.reg))
  }

  /** Round `i` of `rs` follows from the rounds before it. */
  ghost predicate RoundOk(lag: Lagrangian, c: Constants, exp: real -> real, cfg: Config, rs: seq<Round>, i: nat)
    requires i < |rs|
  {
    LastRoundOk(lag, c, exp, cfg, rs[..i + 1])
  }

  ghost predicate TraceOk(lag: Lagrangian, c: Constants, exp: real -> real, cfg: Config, rs: seq<Round>) {
    forall i :: 0 <= i < |rs| ==> RoundOk(lag, c, exp, cfg, rs, i)
  }

  /** What `fit` holds when its loop ends. */
  datatype GameState = GameState(
    lambdas: seq<seq<real>>, qsum: map<nat, real>, gapsEG: seq<real>,
    gaps: seq<real>, qs: seq<map<nat, real>>, theta: seq<real>, reg: Regret)

  /** Each list the loop appends to grows by the new round's entry. */
  lemma ProjectionsAppend(rs: seq<Round>, r: Round)
    ensures Lambdas(rs + [r]) == Lambdas(rs) + [r.lambda]
    ensures Picks(rs + [r]) == Picks(rs) + [r.h]
    ensures GapsEG(rs + [r]) == GapsEG(rs) + [r.gapEG]
    ensures Gaps(rs + [r]) == Gaps(rs) + [r.gap]
    ensures Qs(rs + [r]) == Qs(rs) + [r.q]
  {
  }

  /** A round computed by the loop body from where the previous round left
      off is a valid last round. */
  lemma NextRound(lag: Lagrangian, c: Constants, exp: real -> real, cfg: Config, rs: seq<Round>, r: Round)
    requires IterationOk(lag, c, exp, cfg, |rs|, Lambdas(rs + [r]), Picks(rs + [r]), r)
    requires |rs| == 0 ==> r.theta == InitialTheta(lag.constraintCount) && r.reg == InitialRegret(c, cfg)
    requires |rs| > 0 ==> Follows(lag, c, cfg, |rs| - 1, rs[|rs| - 1], GapsEG(rs), r.theta, r.reg)
    ensures LastRoundOk(lag, c, exp, cfg, rs + [r])
  {
    assert (rs + [r])[..|rs|] == rs;
  }

  /** Appending a round the loop body computed keeps the trace valid. */
  lemma TraceExtend(lag: Lagrangian, c: Constants, exp: real -> real, cfg: Config, rs: seq<Round>, r: Round)
    requires TraceOk(lag, c, exp, cfg, rs)
    requires LastRoundOk(lag, c, exp, cfg, rs + [r])
    ensures TraceOk(lag, c, exp, cfg, rs + [r])
  {
    var rs' := rs + [r];
    forall i | 0 <= i < |rs'| ensures RoundOk(lag, c, exp, cfg, rs', i) {
      if i < |rs| {
        assert RoundOk(lag, c, exp, cfg, rs, i);
        assert rs'[..i + 1] == rs[..i + 1];
      } else {
        assert rs'[..i + 1] == rs';
      }
    }
  }

  /** The lists in `st` are the ones the loop has appended to over the
      rounds `rs`, and `Qsum` counts their best responses. */
  ghost predicate Recorded(lag: Lagrangian, st: GameState, rs: seq<Round>) {
    && st.lambdas == Lambdas(rs) && st.gapsEG == GapsEG(rs)
    && st.gaps == Gaps(rs) && st.qs == Qs(rs)
    && st.qsum == Counts(Picks(rs))
    && Rectangular(st.lambdas, lag.constraintCount)
    && (forall i :: 0 <= i < |rs| ==> |rs[i].theta| == lag.constraintCount)
  }

  /** The state at the top of iteration `|rs|`: the rounds so far are valid,
      none of them stopped the loop, and `theta` and `eta` are the initial
      ones or those the previous iteration left behind. */
  ghost predicate Ready(lag: Lagrangian, c: Constants, exp: real -> real, cfg: Config, st: GameState, rs: seq<Round>) {
    && cfg.eps != 0.0
    && TraceOk(lag, c, exp, cfg, rs)
    && Recorded(lag, st, rs)
    && |st.theta| == lag.constraintCount
    && (forall i :: 0 <= i < |rs| ==> !Stops(c, cfg.nu, i, rs[i].gap))
    && (|rs| == 0 ==> st.theta == InitialTheta(lag.constraintCount) && st.reg == InitialRegret(c, cfg))
    && (|rs| > 0 ==> Follows(lag, c, cfg, |rs| - 1, rs[|rs| - 1], GapsEG(rs), st.theta, st.reg))
  }

  /** One pass of the loop body: computes the round `r` of iteration
      `|rs|`, appends to the lists, and either reports the break or updates
      `eta` and `theta` for the next iteration. */
  method Iterate(lag: Lagrangian, c: Constants, exp: real -> real, cfg: Config, t: nat, st: GameState, ghost rs: seq<Round>)
    returns (st': GameState, ghost r: Round, stop: bool)
    requires cfg.eps != 0.0 && WellFormed(lag) && (forall x :: exp(x) > 0.0)
    requires t == |rs| && Ready(lag, c, exp, cfg, st, rs)
    ensures TraceOk(lag, c, exp, cfg, rs + [r])
    ensures Recorded(lag, st', rs + [r])
    ensures stop == Stops(c, cfg.nu, |rs|, r.gap)
    ensures stop ==> st'.theta == r.theta && st'.reg == r.reg
    ensures !stop ==> Ready(lag, c, exp, cfg, st', rs + [r])
  {
    var m := lag.constraintCount;
    var theta, reg := st.theta, st.reg;
    var lambda := LambdaVec(1.0 / cfg.eps, theta, exp);
    var lambdas := st.lambdas + [lambda];
    var h := lag.bestH(lambdas);
    var lambdaEG := ColumnMean(lambdas, m);
    ghost var picks := Picks(rs) + [h];
    var qsum := st.qsum[h := (if h in st.qsum then st.qsum[h] else 0.0) + 1.0];
    CountsAppend(Picks(rs), h);
    var gamma := lag.gammas(h);
    var qEG := Normalize(qsum, picks);
    var gapEG := lag.evalGap(lambdas, qEG, lambdaEG);
    var gapsEG := st.gapsEG + [gapEG];
    var lp := NoLp;
    if t != 0 && c.runLpStep {
      var (qLP, gapLP) := lag.solveLinprog(lambdas);
      lp := Lp(qLP, gapLP);
    }
    var (q, gap) := Choose(qEG, gapEG, lp);
    r := Round(theta, reg, lambda, h, qEG, gapEG, lp, q, gap);
    assert IterationOk(lag, c, exp, cfg, t, lambdas, picks, r);
    stop := Stops(c, cfg.nu, t, gap);
    if !stop {
      reg := RegretStep(c, reg, t, gapsEG);
      theta := ThetaStep(theta, reg.eta, gamma, cfg.eps);
    }
    st' := GameState(lambdas, qsum, gapsEG, st.gaps + [gap], st.qs + [q], theta, reg);
    AfterIteration(lag, c, exp, cfg, st, rs, r, st');
  }

  /** What one pass of the loop body establishes about the new state. */
  lemma AfterIteration(lag: Lagrangian, c: Constants, exp: real -> real, cfg: Config,
                       st: GameState, rs: seq<Round>, r: Round, st': GameState)
    requires Ready(lag, c, exp, cfg, st, rs)
    requires r.theta == st.theta && r.reg == st.reg
    requires IterationOk(lag, c, exp, cfg, |rs|, st.lambdas + [r.lambda], Picks(rs) + [r.h], r)
    requires st'.lambdas == st.lambdas + [r.lambda] && st'.gapsEG == st.gapsEG + [r.gapEG]
    requires st'.gaps == st.gaps + [r.gap] && st'.qs == st.qs + [r.q]
    requires st'.qsum == Counts(Picks(rs) + [r.h])
    requires Stops(c, cfg.nu, |rs|, r.gap) ==> st'.theta == r.theta && st'.reg == r.reg
    requires !Stops(c, cfg.nu, |rs|, r.gap) ==>
      Follows(lag, c, cfg, |rs|, r, st'.gapsEG, st'.theta, st'.reg)
    ensures TraceOk(lag, c, exp, cfg, rs + [r])
    ensures Recorded(lag, st', rs + [r])
    ensures !Stops(c, cfg.nu, |rs|, r.gap) ==> Ready(lag, c, exp, cfg, st', rs + [r])
  {
    ProjectionsAppend(rs, r);
    NextRound(lag, c, exp, cfg, rs, r);
    TraceExtend(lag, c, exp, cfg, rs, r);
  }

  /** The `for t in range(0, self._T)` loop of `fit`. */
  method Game(lag: Lagrangian, c: Constants, exp: real -> real, cfg: Config)
    returns (st: GameState, ghost rs: seq<Round>)
    requires cfg.eps != 0.0 && cfg.T >= 1
    requires WellFormed(lag)
    requires forall x :: exp(x) > 0.0
    ensures 1 <= |rs| <= cfg.T
    ensures TraceOk(lag, c, exp, cfg, rs)
    // the lists the loop appends to, and Qsum counting the best responses
    ensures Recorded(lag, st, rs)
    // the loop runs until the first gap below nu at t >= _MIN_T, else T times
    ensures forall t :: 0 <= t < |rs| - 1 ==> !Stops(c, cfg.nu, t, rs[t].gap)
    ensures |rs| < cfg.T ==> Stops(c, cfg.nu, |rs| - 1, rs[|rs| - 1].gap)
    // theta and the schedule state after the last iteration
    ensures var last := rs[|rs| - 1];
      if Stops(c, cfg.nu, |rs| - 1, last.gap) then st.theta == last.theta && st.reg == last.reg
      else Follows(lag, c, cfg, |rs| - 1, last, GapsEG(rs), st.theta, st.reg)
  {
    st := GameState([], map[], [], [], [], InitialTheta(lag.constraintCount), InitialRegret(c, cfg));
    rs := [];
    var t := 0;
    while t < cfg.T
      invariant 0 <= t <= cfg.T && |rs| == t
      invariant Ready(lag, c, exp, cfg, st, rs)
    {
      var stop;
      ghost var r;
      st, r, stop := Iterate(lag, c, exp, cfg, t, st, rs);
      rs := rs + [r];
      if stop {
        break;
      }
      t := t + 1;
    }
  }

  // ---------------------------------------------------------------------
  // Facts about every round of a trace

  /** What the break test means for a run: the loop runs all `T`
      iterations unless it breaks at an iteration at or after `_MIN_T` whose
      gap is below `nu`, and no earlier iteration from `_MIN_T` on has a gap
      below `nu`. */
  lemma RunLength(c: Constants, cfg: Config, rs: seq<Round>)
    requires 1 <= |rs| <= cfg.T
    requires forall t :: 0 <= t < |rs| - 1 ==> !Stops(c, cfg.nu, t, rs[t].gap)
    requires |rs| < cfg.T ==> Stops(c, cfg.nu, |rs| - 1, rs[|rs| - 1].gap)
    ensures |rs| == cfg.T || (|rs| - 1 >= c.minT && rs[|rs| - 1].gap < cfg.nu)
    ensures forall t :: c.minT <= t < |rs| - 1 ==> rs[t].gap >= cfg.nu
  {
  }

  /** Round `i` of a valid trace, spelled out. */
  lemma RoundAt(lag: Lagrangian, c: Constants, exp: real -> real, cfg: Config, rs: seq<Round>, i: nat)
    requires TraceOk(lag, c, exp, cfg, rs) && i < |rs|
    ensures cfg.eps != 0.0
    ensures IterationOk(lag, c, exp, cfg, i, Lambdas(rs[..i + 1]), Picks(rs[..i + 1]), rs[i])
    ensures i == 0 ==> rs[i].theta == InitialTheta(lag.constraintCount) && rs[i].reg == InitialRegret(c, cfg)
    ensures i > 0 ==> Follows(lag, c, cfg, i - 1, rs[i - 1], GapsEG(rs[..i]), rs[i].theta, rs[i].reg)
  {
    assert RoundOk(lag, c, exp, cfg, rs, i);
    var pre := rs[..i + 1];
    assert pre[i] == rs[i];
    if i > 0 {
      assert pre[i - 1] == rs[i - 1];
      assert pre[..i] == rs[..i];
    }
  }

  /** For `eps > 0`, every lambda vector and every running mean `lambda_EG`
      has non-negative entries summing to less than `B = 1/eps`. */
  lemma TraceInDualBall(lag: Lagrangian, c: Constants, exp: real -> real, cfg: Config, rs: seq<Round>, i: nat)
    requires TraceOk(lag, c, exp, cfg, rs) && i < |rs| && cfg.eps > 0.0
    ensures InDualBall(rs[i].lambda, 1.0 / cfg.eps)
    ensures Rectangular(Lambdas(rs[..i + 1]), lag.constraintCount)
      && InDualBall(ColumnMean(Lambdas(rs[..i + 1]), lag.constraintCount), 1.0 / cfg.eps)
  {
    var B := 1.0 / cfg.eps;
    var hist := Lambdas(rs[..i + 1]);
    forall j | 0 <= j <= i ensures InDualBall(hist[j], B) {
      RoundAt(lag, c, exp, cfg, rs, j);
      assert hist[j] == rs[j].lambda;
    }
    RoundAt(lag, c, exp, cfg, rs, i);
    ColumnMeanInDualBall(hist, lag.constraintCount, B);
  }

  /** Every `Q_EG` is a probability vector over the best responses so far. */
  lemma TraceEmpirical(lag: Lagrangian, c: Constants, exp: real -> real, cfg: Config, rs: seq<Round>, i: nat)
    requires TraceOk(lag, c, exp, cfg, rs) && i < |rs|
    ensures Distribution(rs[i].qEG)
    ensures rs[i].qEG.Keys == Elems(Picks(rs[..i + 1]))
  {
    RoundAt(lag, c, exp, cfg, rs, i);
    EmpiricalIsDistribution(Picks(rs[..i + 1]));
  }

  /** The first iteration always keeps the exponentiated-gradient
      candidate, because `gap_LP` is infinite there. */
  lemma TraceFirstIsEG(lag: Lagrangian, c: Constants, exp: real -> real, cfg: Config, rs: seq<Round>)
    requires TraceOk(lag, c, exp, cfg, rs) && |rs| > 0
    ensures rs[0].lp == NoLp && rs[0].q == rs[0].qEG && rs[0].gap == rs[0].gapEG
  {
    RoundAt(lag, c, exp, cfg, rs, 0);
  }

  /** Without the LP step every recorded candidate is `Q_EG`. */
  lemma TraceWithoutLp(lag: Lagrangian, c: Constants, exp: real -> real, cfg: Config, rs: seq<Round>, i: nat)
    requires TraceOk(lag, c, exp, cfg, rs) && i < |rs| && !c.runLpStep
    ensures rs[i].q == rs[i].qEG && Distribution(rs[i].q)
  {
    RoundAt(lag, c, exp, cfg, rs, i);
    TraceEmpirical(lag, c, exp, cfg, rs, i);
  }

  /** With positive `eps` and `eta_mul`, `eta` stays positive and never
      grows from one iteration to the next. */
  lemma {:induction false} TraceEta(lag: Lagrangian, c: Constants, exp: real -> real, cfg: Config, rs: seq<Round>, i: nat)
    requires TraceOk(lag, c, exp, cfg, rs) && i < |rs|
    requires ValidConstants(c) && cfg.eps > 0.0 && cfg.etaMul > 0.0
    ensures rs[i].reg.eta > 0.0
    ensures i > 0 ==> rs[i].reg.eta <= rs[i - 1].reg.eta
  {
    RoundAt(lag, c, exp, cfg, rs, i);
    if i == 0 {
      PositiveRatio(cfg.etaMul, 1.0 / cfg.eps);
    } else {
      TraceEta(lag, c, exp, cfg, rs, i - 1);
    }
  }

  /** At the start of iteration `i`, `last_gap` is infinite or the smallest
      EG gap of some prefix of the iterations before `i`. */
  lemma {:induction false} TraceLastGap(lag: Lagrangian, c: Constants, exp: real -> real, cfg: Config, rs: seq<Round>, i: nat)
    requires TraceOk(lag, c, exp, cfg, rs) && i < |rs|
    ensures GapSoFar(rs[i].reg, GapsEG(rs[..i]))
  {
    RoundAt(lag, c, exp, cfg, rs, i);
    if i > 0 {
      TraceLastGap(lag, c, exp, cfg, rs, i - 1);
      var g := GapsEG(rs[..i]);
      assert g[..i - 1] == GapsEG(rs[..i - 1]);
      RegretGapNonIncreasing(c, rs[i - 1].reg, i - 1, g);
    }
  }

  /** The step `eta * (gamma_h - eps)` that iteration `k` adds to entry
      `j` of `theta`, for each of the iterations before `i`; iteration `k`
      uses the `eta` it has just updated, the one round `k + 1` starts with. */
  ghost function ThetaIncrements(lag: Lagrangian, cfg: Config, rs: seq<Round>, i: nat, j: nat): seq<real>
    requires WellFormed(lag) && i < |rs| && j < lag.constraintCount
  {
    seq(i, k requires 0 <= k < i => rs[k + 1].reg.eta * (lag.gammas(rs[k].h)[j] - cfg.eps))
  }

  /** How round `i`'s `theta` comes from the round before it. */
  lemma ThetaAt(lag: Lagrangian, c: Constants, exp: real -> real, cfg: Config, rs: seq<Round>, i: nat)
    requires TraceOk(lag, c, exp, cfg, rs) && i < |rs|
    ensures i == 0 ==> rs[i].theta == InitialTheta(lag.constraintCount)
    ensures i > 0 ==>
      && |lag.gammas(rs[i - 1].h)| == |rs[i - 1].theta|
      && rs[i].theta == ThetaStep(rs[i - 1].theta, rs[i].reg.eta, lag.gammas(rs[i - 1].h), cfg.eps)
  {
    RoundAt(lag, c, exp, cfg, rs, i);
  }

  /** `theta` starts at zero and accumulates the steps of all earlier
      iterations. */
  lemma {:induction false} TraceTheta(lag: Lagrangian, c: Constants, exp: real -> real, cfg: Config,
                                      rs: seq<Round>, i: nat, j: nat)
    requires TraceOk(lag, c, exp, cfg, rs) && WellFormed(lag)
    requires i < |rs| && j < lag.constraintCount
    ensures |rs[i].theta| == lag.constraintCount && rs[i].theta[j] == Sum(ThetaIncrements(lag, cfg, rs, i, j))
  {
    ThetaAt(lag, c, exp, cfg, rs, i);
    if i > 0 {
      TraceTheta(lag, c, exp, cfg, rs, i - 1, j);
      var inc := ThetaIncrements(lag, cfg, rs, i, j);
      assert inc[..i - 1] == ThetaIncrements(lag, cfg, rs, i - 1, j);
    }
  }

  // ---------------------------------------------------------------------
  // `_format_results`

  /** The last index whose entry is at most `bound`. */
  function LastAtMost(s: seq<real>, bound: real): (t: nat)
    requires exists j :: 0 <= j < |s| && s[j] <= bound
    ensures t < |s| && s[t] <= bound
    ensures forall j :: t < j < |s| ==> s[j] > bound
  {
    var n := |s| - 1;
    if s[n] <= bound then n
    else
      var j :| 0 <= j < |s| && s[j] <= bound;
      assert s[..n][j] == s[j];
      var t := LastAtMost(s[..n], bound);
      assert s[t] == s[..n][t];
      t
  }

  /** `best_t`: the last iteration whose gap is within `_PRECISION` of the
      smallest gap. */
  function BestT(gaps: seq<real>, precision: real): (t: nat)
    requires |gaps| > 0 && precision >= 0.0
    ensures t < |gaps|
    ensures Min(gaps) <= gaps[t] <= Min(gaps) + precision
    ensures forall j :: t < j < |gaps| ==> gaps[j] > Min(gaps) + precision
  {
    var m := Min(gaps);
    var j :| 0 <= j < |gaps| && gaps[j] == m;
    LastAtMost(gaps, m + precision)
  }

  /** The result object of `_format_results`. */
  datatype ExpGradResult = ExpGradResult(bestGap: real, weights: map<nat, real>, lastT: int, bestT: nat)

  /** Convergence: when the last gap is below `nu`, so is the gap at
      `best_t`, since a later gap than `best_t` exceeds `gaps[best_t]`. */
  lemma ConvergedBestGapBelowNu(gaps: seq<real>, precision: real, nu: real)
    requires |gaps| > 0 && precision >= 0.0 && gaps[|gaps| - 1] < nu
    ensures gaps[BestT(gaps, precision)] < nu
  {
    var t := BestT(gaps, precision);
    if t < |gaps| - 1 {
      assert gaps[|gaps| - 1] > Min(gaps) + precision >= gaps[t];
    }
  }

  /** The loop that gives weight 0 to every classifier index of `hs` that
      `weights` lacks. */
  method PadWeights(weights: map<nat, real>, hs: seq<nat>) returns (w: map<nat, real>)
    ensures w.Keys == weights.Keys + Elems(hs)
    ensures forall k :: k in weights ==> w[k] == weights[k]
    ensures forall k :: k in w && k !in weights ==> w[k] == 0.0
    ensures MapSum(w) == MapSum(weights)
  {
    w := weights;
    var i := 0;
    while i < |hs|
      invariant 0 <= i <= |hs|
      invariant w.Keys == weights.Keys + Elems(hs[..i])
      invariant forall k :: k in weights ==> w[k] == weights[k]
      invariant forall k :: k in w && k !in weights ==> w[k] == 0.0
      invariant MapSum(w) == MapSum(weights)
    {
      assert Elems(hs[..i + 1]) == Elems(hs[..i]) + {hs[i]} by {
        assert hs[..i + 1] == hs[..i] + [hs[i]];
      }
      if hs[i] !in w {
        MapSumUpdate(w, hs[i], 0.0);
        w := w[hs[i] := 0.0];
      }
      i := i + 1;
    }
    assert hs[..i] == hs;
  }

  /** `r` is what `_format_results` returns for the lists `gaps` and `Qs`
      and the classifier indices `hs`: the best iteration and its gap, the
      weights of that iteration padded with zeros, and the last iteration. */
  predicate Formats(r: ExpGradResult, gaps: seq<real>, qs: seq<map<nat, real>>, hs: seq<nat>, precision: real)
    requires |gaps| == |qs| > 0 && precision >= 0.0
  {
    && r.bestT == BestT(gaps, precision) && r.bestGap == gaps[r.bestT]
    && r.lastT == |qs| - 1
    && r.weights.Keys == qs[r.bestT].Keys + Elems(hs)
    && (forall k :: k in qs[r.bestT] ==> r.weights[k] == qs[r.bestT][k])
    && (forall k :: k in r.weights && k !in qs[r.bestT] ==> r.weights[k] == 0.0)
  }

  /** `_format_results`. */
  method FormatResults(gaps: seq<real>, qs: seq<map<nat, real>>, hs: seq<nat>, precision: real)
    returns (res: ExpGradResult)
    requires |gaps| == |qs| > 0 && precision >= 0.0
    ensures Formats(res, gaps, qs, hs, precision)
    ensures MapSum(res.weights) == MapSum(qs[res.bestT])
  {
    var bestT := BestT(gaps, precision);
    var weights := PadWeights(qs[bestT], hs);
    res := ExpGradResult(gaps[bestT], weights, |qs| - 1, bestT);
  }

  /** Why `fit` raises instead of returning. */
  datatype FitError =
    | ZeroDivision      // B = 1 / eps with eps == 0
    | UnboundEtaMin     // T <= 0: the loop never runs, so eta_min is never bound

  /** The facts `fit` documents about its result: `last_t < T` always,
      and `best_gap < nu` when the last gap is below `nu`. */
  lemma ResultBounds(r: ExpGradResult, rs: seq<Round>, hs: seq<nat>, precision: real, nu: real, T: int)
    requires 0 < |rs| <= T && precision >= 0.0
    requires Formats(r, Gaps(rs), Qs(rs), hs, precision)
    ensures r.lastT < T
    ensures rs[|rs| - 1].gap < nu ==> r.bestGap < nu
  {
    if rs[|rs| - 1].gap < nu {
      assert Gaps(rs)[|rs| - 1] == rs[|rs| - 1].gap;
      ConvergedBestGapBelowNu(Gaps(rs), precision, nu);
    }
  }

  /** The loop and `_format_results`, once `B` and `eta_min` are bound. */
  method Run(lag: Lagrangian, c: Constants, exp: real -> real, cfg: Config)
    returns (r: ExpGradResult, ghost rs: seq<Round>)
    requires cfg.eps != 0.0 && cfg.T >= 1
    requires WellFormed(lag) && (forall x :: exp(x) > 0.0) && c.precision >= 0.0
    ensures TraceOk(lag, c, exp, cfg, rs)
    ensures 1 <= |rs| <= cfg.T
    ensures forall t :: 0 <= t < |rs| - 1 ==> !Stops(c, cfg.nu, t, rs[t].gap)
    ensures |rs| < cfg.T ==> Stops(c, cfg.nu, |rs| - 1, rs[|rs| - 1].gap)
    ensures Formats(r, Gaps(rs), Qs(rs), lag.hs(Lambdas(rs)), c.precision)
    ensures MapSum(r.weights) == MapSum(rs[r.bestT].q)
    ensures r.lastT < cfg.T
    ensures rs[|rs| - 1].gap < cfg.nu ==> r.bestGap < cfg.nu
  {
    var st;
    st, rs := Game(lag, c, exp, cfg);
    r := FormatResults(st.gaps, st.qs, lag.hs(st.lambdas), c.precision);
    ResultBounds(r, rs, lag.hs(Lambdas(rs)), c.precision, cfg.nu, cfg.T);
  }

  /** `ExponentiatedGradient.fit`, from `B = 1 / eps` to `_format_results`.
      It documents `last_t < T`, and `best_gap <= nu` once the algorithm has
      converged (broken out of the loop on a gap below `nu`). */
  method Fit(lag: Lagrangian, c: Constants, exp: real -> real, cfg: Config)
    returns (res: Result<ExpGradResult, FitError>, ghost rs: seq<Round>)
    requires WellFormed(lag) && (forall x :: exp(x) > 0.0) && c.precision >= 0.0
    ensures cfg.eps == 0.0 ==> res == Err(ZeroDivision)
    ensures cfg.eps != 0.0 && cfg.T < 1 ==> res == Err(UnboundEtaMin)
    ensures res.Ok? <==> cfg.eps != 0.0 && cfg.T >= 1
    ensures res.Ok? ==>
      && TraceOk(lag, c, exp, cfg, rs)
      && 1 <= |rs| <= cfg.T
      && (forall t :: 0 <= t < |rs| - 1 ==> !Stops(c, cfg.nu, t, rs[t].gap))
      && (|rs| < cfg.T ==> Stops(c, cfg.nu, |rs| - 1, rs[|rs| - 1].gap))
      && Formats(res.value, Gaps(rs), Qs(rs), lag.hs(Lambdas(rs)), c.precision)
      && MapSum(res.value.weights) == MapSum(rs[res.value.bestT].q)
    ensures res.Ok? ==> res.value.lastT < cfg.T
    ensures res.Ok? && rs[|rs| - 1].gap < cfg.nu ==> res.value.bestGap < cfg.nu
    ensures res.Ok? && |rs| < cfg.T ==> res.value.bestGap < cfg.nu
  {
    rs := [];
    if cfg.eps == 0.0 {
      return Err(ZeroDivision), rs;
    }
    if cfg.T < 1 {
      return Err(UnboundEtaMin), rs;
    }
    var r;
    r, rs := Run(lag, c, exp, cfg);
    res := Ok(r);
  }
}
