/** The true positive rate metric: the share of actual positives predicted
    positive, over all rows and within each group. Rows are read in step
    over the three inputs, stopping at the shortest (Python's `zip`). */
module TruePositiveRate {
  import opened Numeric
  import opened Wrappers

  /** The `MetricsResult` filled in: the overall rate and one per group. */
  datatype Rates = Rates(metric: real, groupMetric: map<int, real>)

  /** `ZeroDivisionError`: no positives overall or within some group. */
  datatype RateError = ZeroDivision

  /** The number of rows the loop reads. */
  function Rows(y: seq<int>, yhat: seq<int>, g: seq<int>): (n: nat)
    ensures n <= |y| && n <= |yhat| && n <= |g|
    ensures n == |y| || n == |yhat| || n == |g|
  {
    if |y| <= |yhat| && |y| <= |g| then |y|
    else if |yhat| <= |g| then |yhat| else |g|
  }

  /** Row `i` is an actual positive. */
  function PositiveFlags(y: seq<int>, n: nat): (f: seq<bool>)
    requires n <= |y|
    ensures |f| == n
  {
    seq(n, i requires 0 <= i < n => y[i] == 1)
  }

  /** Row `i` is an actual positive predicted positive. */
  function TruePositiveFlags(y: seq<int>, yhat: seq<int>, n: nat): (f: seq<bool>)
    requires n <= |y| && n <= |yhat|
    ensures |f| == n
  {
    seq(n, i requires 0 <= i < n => y[i] == 1 && yhat[i] == 1)
  }

  /** All rows (`None`) or the rows of one group. */
  predicate InGroup(a: int, grp: Option<int>) {
    grp.None? || a == grp.value
  }

  /** The number of flagged rows, among those of `grp`. */
  function CountWhere(flags: seq<bool>, g: seq<int>, grp: Option<int>): (c: nat)
    requires |flags| <= |g|
    ensures c <= |flags|
  {
    if |flags| == 0 then 0
    else
      var m := |flags| - 1;
      CountWhere(flags[..m], g, grp) + (if flags[m] && InGroup(g[m], grp) then 1 else 0)
  }

  /** `true_positive_rate`. */
  method ComputeTruePositiveRate(y: seq<int>, yhat: seq<int>, g: seq<int>) returns (r: Result<Rates, RateError>)
    ensures var n := Rows(y, yhat, g);
      var pos := PositiveFlags(y, n);
      r.Ok? <==>
        CountWhere(pos, g, None) > 0 && forall k :: k in Elems(g) ==> CountWhere(pos, g, Some(k)) > 0
    ensures r.Err? ==> r.error == ZeroDivision
    ensures r.Ok? ==>
      var n := Rows(y, yhat, g);
      var pos, tp := PositiveFlags(y, n), TruePositiveFlags(y, yhat, n);
      && CountWhere(pos, g, None) > 0
      && r.value.metric == CountWhere(tp, g, None) as real / CountWhere(pos, g, None) as real
      && r.value.groupMetric.Keys == Elems(g)
      && forall k :: k in r.value.groupMetric ==>
           CountWhere(pos, g, Some(k)) > 0 &&
           r.value.groupMetric[k] == CountWhere(tp, g, Some(k)) as real / CountWhere(pos, g, Some(k)) as real
  {
    var groups := SortedUnique(g);
    var n := Rows(y, yhat, g);
    var pos, tp := PositiveFlags(y, n), TruePositiveFlags(y, yhat, n);
    var positivesAll, truePositivesAll, positives, truePositives := CountRows(y, yhat, g, groups);
    assert pos[..n] == pos && tp[..n] == tp;
    if positivesAll == 0 {
      return Err(ZeroDivision);
    }
    var metric := truePositivesAll as real / positivesAll as real;
    var groupMetric := GroupRates(groups, positives, truePositives);
    if groupMetric.None? {
      return Err(ZeroDivision);
    }
    return Ok(Rates(metric, groupMetric.value));
  }

  /** `m` holds, for each of its groups, the flagged rows of that group
      among the first `i`. */
  ghost predicate Tallied(m: map<int, nat>, flags: seq<bool>, g: seq<int>, i: nat)
    requires i <= |flags| <= |g|
  {
    forall k :: k in m ==> m[k] == CountWhere(flags[..i], g, Some(k))
  }

  lemma TotalStep(flags: seq<bool>, g: seq<int>, i: nat)
    requires i < |flags| <= |g|
    ensures CountWhere(flags[..i + 1], g, None) == CountWhere(flags[..i], g, None) + (if flags[i] then 1 else 0)
  {
    assert flags[..i + 1][..i] == flags[..i];
  }

  /** Bumping the counter of row `i`'s group when the row is flagged. */
  lemma TallyStep(m: map<int, nat>, flags: seq<bool>, g: seq<int>, i: nat)
    requires i < |flags| <= |g| && g[i] in m
    requires Tallied(m, flags, g, i)
    ensures Tallied(if flags[i] then m[g[i] := m[g[i]] + 1] else m, flags, g, i + 1)
  {
    CountStep(flags, g, i);
  }

  /** The counting loop over the zipped rows: overall and per-group
      positives and true positives. */
  method CountRows(y: seq<int>, yhat: seq<int>, g: seq<int>, groups: seq<int>)
      returns (positivesAll: nat, truePositivesAll: nat, positives: map<int, nat>, truePositives: map<int, nat>)
    requires Elems(groups) == Elems(g)
    ensures var n := Rows(y, yhat, g);
      var pos, tp := PositiveFlags(y, n), TruePositiveFlags(y, yhat, n);
      && positivesAll == CountWhere(pos[..n], g, None)
      && truePositivesAll == CountWhere(tp[..n], g, None)
      && positives.Keys == truePositives.Keys == Elems(g)
      && Tallied(positives, pos, g, n) && Tallied(truePositives, tp, g, n)
  {
    positivesAll, truePositivesAll := 0, 0;
    positives := ZeroCounts(groups);
    truePositives := ZeroCounts(groups);
    var n := Rows(y, yhat, g);
    var pos, tp := PositiveFlags(y, n), TruePositiveFlags(y, yhat, n);
    for i := 0 to n
      invariant positives.Keys == truePositives.Keys == Elems(g)
      invariant positivesAll == CountWhere(pos[..i], g, None)
      invariant truePositivesAll == CountWhere(tp[..i], g, None)
      invariant Tallied(positives, pos, g, i) && Tallied(truePositives, tp, g, i)
    {
      TotalStep(pos, g, i);
      TotalStep(tp, g, i);
      var a := g[i];
      assert a in Elems(g);
      TallyStep(positives, pos, g, i);
      TallyStep(truePositives, tp, g, i);
      if y[i] == 1 {
        positivesAll := positivesAll + 1;
        positives := positives[a := positives[a] + 1];
        if yhat[i] == 1 {
          truePositivesAll := truePositivesAll + 1;
          truePositives := truePositives[a := truePositives[a] + 1];
        }
      }
    }
  }

  /** The counter dictionaries as initialised: zero for every group. */
  method ZeroCounts(groups: seq<int>) returns (m: map<int, nat>)
    ensures m.Keys == Elems(groups)
    ensures forall k :: k in m ==> m[k] == 0
  {
    m := map[];
    for j := 0 to |groups|
      invariant m.Keys == Elems(groups[..j])
      invariant forall k :: k in m ==> m[k] == 0
    {
      assert Elems(groups[..j + 1]) == Elems(groups[..j]) + {groups[j]} by {
        assert groups[..j + 1] == groups[..j] + [groups[j]];
      }
      m := m[groups[j] := 0];
    }
    assert groups[..|groups|] == groups;
  }

  /** The per-group ratios, group by group; `None` at the first group
      without positives. */
  method GroupRates(groups: seq<int>, positives: map<int, nat>, truePositives: map<int, nat>)
      returns (r: Option<map<int, real>>)
    requires Elems(groups) <= positives.Keys && Elems(groups) <= truePositives.Keys
    ensures r.Some? <==> forall k :: k in Elems(groups) ==> positives[k] > 0
    ensures r.Some? ==> r.value.Keys == Elems(groups)
    ensures r.Some? ==> forall k :: k in r.value ==>
      positives[k] > 0 && r.value[k] == truePositives[k] as real / positives[k] as real
  {
    var groupMetric: map<int, real> := map[];
    for j := 0 to |groups|
      invariant groupMetric.Keys == Elems(groups[..j])
      invariant forall k :: k in groupMetric ==>
        positives[k] > 0 && groupMetric[k] == truePositives[k] as real / positives[k] as real
    {
      assert Elems(groups[..j + 1]) == Elems(groups[..j]) + {groups[j]} by {
        assert groups[..j + 1] == groups[..j] + [groups[j]];
      }
      var k := groups[j];
      assert k in Elems(groups);
      if positives[k] == 0 {
        return None;
      }
      groupMetric := groupMetric[k := truePositives[k] as real / positives[k] as real];
    }
    assert groups[..|groups|] == groups;
    return Some(groupMetric);
  }

  /** One more row adds its flag to the count of its group, and of all rows. */
  lemma CountStep(flags: seq<bool>, g: seq<int>, i: nat)
    requires i < |flags| <= |g|
    ensures forall grp ::
      CountWhere(flags[..i + 1], g, grp) == CountWhere(flags[..i], g, grp) + (if flags[i] && InGroup(g[i], grp) then 1 else 0)
  {
    assert flags[..i + 1][..i] == flags[..i];
  }

  // ---------------------------------------------------------------------
  // Properties

  /** Every true positive is a positive. */
  lemma TruePositivesArePositives(y: seq<int>, yhat: seq<int>, g: seq<int>, grp: Option<int>)
    ensures var n := Rows(y, yhat, g);
      CountWhere(TruePositiveFlags(y, yhat, n), g, grp) <= CountWhere(PositiveFlags(y, n), g, grp)
  {
    var n := Rows(y, yhat, g);
    CountImplied(TruePositiveFlags(y, yhat, n), PositiveFlags(y, n), g, grp);
  }

  /** Counting rows flagged in `a` never gives more than counting those
      flagged in `b` when `a` implies `b` row by row. */
  lemma {:induction false} CountImplied(a: seq<bool>, b: seq<bool>, g: seq<int>, grp: Option<int>)
    requires |a| == |b| <= |g|
    requires forall i :: 0 <= i < |a| ==> a[i] ==> b[i]
    ensures CountWhere(a, g, grp) <= CountWhere(b, g, grp)
  {
    if |a| > 0 {
      var m := |a| - 1;
      CountImplied(a[..m], b[..m], g, grp);
    }
  }

  /** Every rate the metric reports lies in `[0, 1]`. */
  lemma RateInUnitInterval(y: seq<int>, yhat: seq<int>, g: seq<int>, grp: Option<int>)
    requires CountWhere(PositiveFlags(y, Rows(y, yhat, g)), g, grp) > 0
    ensures var n := Rows(y, yhat, g);
      var rate := CountWhere(TruePositiveFlags(y, yhat, n), g, grp) as real / CountWhere(PositiveFlags(y, n), g, grp) as real;
      0.0 <= rate <= 1.0
  {
    var n := Rows(y, yhat, g);
    TruePositivesArePositives(y, yhat, g, grp);
    var t, p := CountWhere(TruePositiveFlags(y, yhat, n), g, grp) as real, CountWhere(PositiveFlags(y, n), g, grp) as real;
    RatioBounds(t, p);
  }

  lemma RatioBounds(t: real, p: real)
    requires 0.0 <= t <= p && p > 0.0
    ensures 0.0 <= t / p <= 1.0
  {
    var q := t / p;
    assert q * p == t;
  }

  /** The sum of a sequence of counts. */
  function NatSum(s: seq<nat>): nat {
    if |s| == 0 then 0 else NatSum(s[..|s| - 1]) + s[|s| - 1]
  }

  /** The per-group counts of the groups `ks`. */
  function GroupCounts(flags: seq<bool>, g: seq<int>, ks: seq<int>): (s: seq<nat>)
    requires |flags| <= |g|
    ensures |s| == |ks|
  {
    seq(|ks|, j requires 0 <= j < |ks| => CountWhere(flags, g, Some(ks[j])))
  }

  /** The per-group counts add up to the count over all rows, when every
      row's group is listed exactly once. */
  lemma {:induction false} GroupCountsPartition(flags: seq<bool>, g: seq<int>, ks: seq<int>)
    requires |flags| <= |g|
    requires StrictlyIncreasing(ks)
    requires forall i :: 0 <= i < |flags| ==> g[i] in ks
    ensures NatSum(GroupCounts(flags, g, ks)) == CountWhere(flags, g, None)
  {
    if |flags| > 0 {
      var m := |flags| - 1;
      var prev := flags[..m];
      GroupCountsPartition(prev, g, ks);
      var s, t := GroupCounts(prev, g, ks), GroupCounts(flags, g, ks);
      var ind := seq(|ks|, j requires 0 <= j < |ks| => if flags[m] && ks[j] == g[m] then 1 else 0);
      forall j | 0 <= j < |ks| ensures t[j] == s[j] + ind[j] {
        assert flags[..m] == prev;
      }
      NatSumAdd(s, ind, t);
      IndicatorSum(ks, ind, g[m], flags[m]);
    } else {
      NatSumZero(GroupCounts(flags, g, ks));
    }
  }

  lemma {:induction false} NatSumZero(s: seq<nat>)
    requires forall i :: 0 <= i < |s| ==> s[i] == 0
    ensures NatSum(s) == 0
  {
    if |s| > 0 {
      NatSumZero(s[..|s| - 1]);
    }
  }

  lemma {:induction false} NatSumAdd(s: seq<nat>, t: seq<nat>, u: seq<nat>)
    requires |s| == |t| == |u|
    requires forall i :: 0 <= i < |s| ==> u[i] == s[i] + t[i]
    ensures NatSum(u) == NatSum(s) + NatSum(t)
  {
    if |s| > 0 {
      var m := |s| - 1;
      NatSumAdd(s[..m], t[..m], u[..m]);
    }
  }

  /** A value listed once among distinct groups is counted once. */
  lemma {:induction false} IndicatorSum(ks: seq<int>, ind: seq<nat>, x: int, on: bool)
    requires StrictlyIncreasing(ks) && |ind| == |ks|
    requires forall j :: 0 <= j < |ks| ==> ind[j] == if on && ks[j] == x then 1 else 0
    ensures NatSum(ind) == if on && x in ks then 1 else 0
  {
    if |ks| > 0 {
      var m := |ks| - 1;
      var front := ks[..m];
      IndicatorSum(front, ind[..m], x, on);
      if on && ks[m] == x {
        assert x !in front;
      }
      assert x in ks <==> x in front || ks[m] == x;
    }
  }

  /** Per-group positive and true positive counts add up to the overall
      counts. */
  lemma GroupTotals(y: seq<int>, yhat: seq<int>, g: seq<int>)
    ensures var n := Rows(y, yhat, g);
      var groups := SortedUnique(g);
      && NatSum(GroupCounts(PositiveFlags(y, n), g, groups)) == CountWhere(PositiveFlags(y, n), g, None)
      && NatSum(GroupCounts(TruePositiveFlags(y, yhat, n), g, groups)) == CountWhere(TruePositiveFlags(y, yhat, n), g, None)
  {
    var n := Rows(y, yhat, g);
    var groups := SortedUnique(g);
    assert forall i :: 0 <= i < n ==> g[i] in Elems(g);
    GroupCountsPartition(PositiveFlags(y, n), g, groups);
    GroupCountsPartition(TruePositiveFlags(y, yhat, n), g, groups);
  }

  const ExampleY: seq<int> := [0, 0, 1, 1, 0, 1, 1, 1]
  const ExampleYhat: seq<int> := [0, 1, 1, 1, 1, 0, 0, 1]
  const ExampleGroups: seq<int> := [0, 0, 0, 0, 1, 1, 1, 1]

  lemma ExampleStep(flags: seq<bool>, g: seq<int>, i: nat)
    requires i < |flags| <= |g|
    ensures CountWhere(flags[..i + 1], g, None) == CountWhere(flags[..i], g, None) + (if flags[i] then 1 else 0)
    ensures CountWhere(flags[..i + 1], g, Some(0)) == CountWhere(flags[..i], g, Some(0)) + (if flags[i] && g[i] == 0 then 1 else 0)
    ensures CountWhere(flags[..i + 1], g, Some(1)) == CountWhere(flags[..i], g, Some(1)) + (if flags[i] && g[i] == 1 then 1 else 0)
  {
    assert flags[..i + 1][..i] == flags[..i];
  }

  lemma ExamplePositives()
    ensures var pos := PositiveFlags(ExampleY, 8);
      CountWhere(pos, ExampleGroups, None) == 5 &&
      CountWhere(pos, ExampleGroups, Some(0)) == 2 && CountWhere(pos, ExampleGroups, Some(1)) == 3
  {
    var pos, g := PositiveFlags(ExampleY, 8), ExampleGroups;
    assert pos == [false, false, true, true, false, true, true, true];
    assert pos[..0] == [];
    ExampleStep(pos, g, 0);
    ExampleStep(pos, g, 1);
    ExampleStep(pos, g, 2);
    ExampleStep(pos, g, 3);
    ExampleStep(pos, g, 4);
    ExampleStep(pos, g, 5);
    ExampleStep(pos, g, 6);
    ExampleStep(pos, g, 7);
    assert pos[..8] == pos;
  }

  lemma ExampleTruePositives()
    ensures var tp := TruePositiveFlags(ExampleY, ExampleYhat, 8);
      CountWhere(tp, ExampleGroups, None) == 3 &&
      CountWhere(tp, ExampleGroups, Some(0)) == 2 && CountWhere(tp, ExampleGroups, Some(1)) == 1
  {
    var tp, g := TruePositiveFlags(ExampleY, ExampleYhat, 8), ExampleGroups;
    assert tp == [false, false, true, true, false, false, false, true];
    assert tp[..0] == [];
    ExampleStep(tp, g, 0);
    ExampleStep(tp, g, 1);
    ExampleStep(tp, g, 2);
    ExampleStep(tp, g, 3);
    ExampleStep(tp, g, 4);
    ExampleStep(tp, g, 5);
    ExampleStep(tp, g, 6);
    ExampleStep(tp, g, 7);
    assert tp[..8] == tp;
  }

  /** The worked example: overall 3 of 5 positives, group 0 two of two,
      group 1 one of three. */
  lemma Example()
    ensures var y, yhat, g := ExampleY, ExampleYhat, ExampleGroups;
      var pos, tp := PositiveFlags(y, Rows(y, yhat, g)), TruePositiveFlags(y, yhat, Rows(y, yhat, g));
      && Elems(g) == {0, 1}
      && CountWhere(pos, g, None) == 5 && CountWhere(pos, g, Some(0)) == 2 && CountWhere(pos, g, Some(1)) == 3
      && CountWhere(tp, g, None) as real / CountWhere(pos, g, None) as real == 0.6
      && CountWhere(tp, g, Some(0)) as real / CountWhere(pos, g, Some(0)) as real == 1.0
      && CountWhere(tp, g, Some(1)) as real / CountWhere(pos, g, Some(1)) as real == 1.0 / 3.0
  {
    assert Rows(ExampleY, ExampleYhat, ExampleGroups) == 8;
    ExamplePositives();
    ExampleTruePositives();
    var g := ExampleGroups;
    assert Elems(g) == {0, 1} by {
      assert g[0] == 0 && g[4] == 1;
    }
  }
}
