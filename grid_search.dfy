/** `GridSearchClassification`: a grid of Lagrange multipliers for
    demographic parity between two protected groups. For every multiplier
    the samples are re-weighted and re-labelled, a copy of the learner is
    fitted, and the copy with the best combined error and disparity wins.

    The learner is deterministic and always sees the same features, so a
    fitted copy is identified by the labels and sample weights it was
    trained on. The error and disparity moments are oracles on fitted
    copies. */
module GridSearch {
  import opened Numeric
  import opened Wrappers

  /** The fairness metric handed to the constructor. */
  datatype FairnessMetric = DemographicParity | OtherMetric(name: string)

  /** The exceptions the class raises. */
  datatype GridError =
    | UnsupportedMetric   // RuntimeError from __init__
    | LabelsNotBinary     // RuntimeError "Supplied Y labels are not 0 or 1"
    | TooManyGroups       // RuntimeError "Protected Attribute contains more than two unique values"
    | NoGroups            // IndexError: counts[0] of an empty protected attribute
    | NegativeGridSize    // ValueError from np.linspace with a negative count
    | NoModels            // ValueError from max() over an empty model list

  /** A copy of the learner after `fit(X, re_labels, sample_weight=...)`. */
  datatype Fitted = Fitted(labels: seq<int>, sampleWeights: seq<real>)

  /** The error moment (`gamma(classifier)[0]`) and the largest disparity
      (`gamma(classifier).max()`) of a fitted copy. */
  datatype Moments = Moments(error: Fitted -> real, disparity: Fitted -> real)

  /** One entry of `all_models`; `quality` is written by `_select_best_model`. */
  datatype ModelEntry = ModelEntry(model: Fitted, multiplier: real, quality: Option<real>)

  /** The statistics of the protected attribute: `p0`, `p1` and `a0_val`. */
  datatype GroupInfo = GroupInfo(p0: real, p1: real, a0: int)

  // ---------------------------------------------------------------------
  // The label check

  /** The test `set(np.unique(Y)).issubset({0, 1})`. */
  predicate LabelsBinary(y: seq<int>) {
    Elems(SortedUnique(y)) <= {0, 1}
  }

  /** The labels pass exactly when every label is 0 or 1. */
  lemma LabelsBinaryIff(y: seq<int>)
    ensures LabelsBinary(y) <==> forall i :: 0 <= i < |y| ==> y[i] == 0 || y[i] == 1
  {
    assert Elems(SortedUnique(y)) == Elems(y);
    if LabelsBinary(y) {
      forall i | 0 <= i < |y| ensures y[i] == 0 || y[i] == 1 {
        assert y[i] in Elems(y);
      }
    }
  }

  // ---------------------------------------------------------------------
  // The protected-attribute statistics

  /** `_generate_protected_attribute_info`: `a0_val` is the smallest
      protected value, `p0` its share of the samples and `p1 = 1 - p0`. */
  function ProtectedAttributeInfo(a: seq<int>): (r: Result<GroupInfo, GridError>)
    ensures |Elems(a)| > 2 ==> r == Err(TooManyGroups)
    ensures |a| == 0 ==> r == Err(NoGroups)
    ensures r.Ok? <==> |a| > 0 && |Elems(a)| <= 2
    ensures r.Ok? ==>
      && r.value.a0 in a
      && (forall i :: 0 <= i < |a| ==> r.value.a0 <= a[i])
      && r.value.p0 == Count(a, r.value.a0) as real / |a| as real
      && 0.0 < r.value.p0 <= 1.0
      && r.value.p0 + r.value.p1 == 1.0
  {
    var u := SortedUnique(a);
    DistinctCard(u);
    if |u| > 2 then Err(TooManyGroups)
    else if |u| == 0 then
      ElemsEmpty(a);
      Err(NoGroups)
    else
      var a0 := u[0];
      assert a0 in Elems(a);
      assert forall i :: 0 <= i < |a| ==> a0 <= a[i] by {
        forall i | 0 <= i < |a| ensures a0 <= a[i] {
          assert a[i] in Elems(u);
          var k :| 0 <= k < |u| && u[k] == a[i];
        }
      }
      var p0 := Count(a, a0) as real / |a| as real;
      ShareBounds(Count(a, a0), |a|);
      Ok(GroupInfo(p0, 1.0 - p0, a0))
  }

  /** A count between 1 and `n`, divided by `n`, lies in (0, 1]. */
  lemma ShareBounds(k: nat, n: nat)
    requires 0 < k <= n
    ensures 0.0 < k as real / n as real <= 1.0
  {
    var q := k as real / n as real;
    assert q * n as real == k as real;
  }

  // ---------------------------------------------------------------------
  // The default grid

  /** `limit`: the odds `p0 / p1` when `p1 > 0` and they exceed one, else 1. */
  function DefaultLimit(info: GroupInfo): (limit: real)
    ensures limit >= 1.0
    ensures info.p1 > 0.0 && info.p0 / info.p1 > 1.0 ==> limit == info.p0 / info.p1
    ensures !(info.p1 > 0.0 && info.p0 / info.p1 > 1.0) ==> limit == 1.0
  {
    if info.p1 > 0.0 && info.p0 / info.p1 > 1.0 then info.p0 / info.p1 else 1.0
  }

  /** `np.linspace(start, stop, num)`: `num` evenly spaced values from
      `start` to `stop`, both included when `num >= 2`. */
  function Linspace(start: real, stop: real, num: nat): (r: seq<real>)
    ensures |r| == num
    ensures num >= 1 ==> r[0] == start
    ensures num >= 2 ==> r[num - 1] == stop
    ensures num >= 2 ==> forall i :: 0 <= i < num - 1 ==> r[i + 1] - r[i] == (stop - start) / (num - 1) as real
  {
    if num < 2 then seq(num, i => start)
    else
      var step := (stop - start) / (num - 1) as real;
      var r := seq(num, i requires 0 <= i < num => if i == num - 1 then stop else start + i as real * step);
      assert r[num - 1] - r[num - 2] == step by {
        LastStep(start, stop, num, step);
      }
      forall i | 0 <= i < num - 2 ensures r[i + 1] - r[i] == step {
        assert (i + 1) as real * step == i as real * step + step;
      }
      r
  }

  lemma LastStep(start: real, stop: real, num: nat, step: real)
    requires num >= 2 && step == (stop - start) / (num - 1) as real
    ensures stop - (start + (num - 2) as real * step) == step
  {
    var d := (num - 1) as real;
    assert step * d == stop - start;
    assert (num - 2) as real * step == step * d - step;
  }

  /** The multipliers `fit` tries: the supplied ones, or the default grid
      from `-2 * limit` to `2 * limit`. */
  function Multipliers(info: GroupInfo, supplied: Option<seq<real>>, count: int): (r: Result<seq<real>, GridError>)
    ensures supplied.Some? ==> r == Ok(supplied.value)
    ensures supplied.None? && count < 0 ==> r == Err(NegativeGridSize)
    ensures supplied.None? && count >= 0 ==>
      r.Ok? && |r.value| == count &&
      (count >= 1 ==> r.value[0] == -2.0 * DefaultLimit(info)) &&
      (count >= 2 ==> r.value[count - 1] == 2.0 * DefaultLimit(info))
    ensures supplied.None? && count >= 0 ==>
      r == Ok(Linspace(-2.0 * DefaultLimit(info), 2.0 * DefaultLimit(info), count))
  {
    match supplied
    case Some(ls) => Ok(ls)
    case None =>
      if count < 0 then Err(NegativeGridSize)
      else
        var limit := DefaultLimit(info);
        Ok(Linspace(-2.0 * limit, 2.0 * limit, count))
  }

  // ---------------------------------------------------------------------
  // Weights and labels

  /** `_weight_function`: the signed weight of one sample. */
  function Weight(y: int, a: int, l: real, pRatio: real, a0: int): (w: real)
    ensures a == a0 ==> w == (2 * y - 1) as real - l * pRatio
    ensures a != a0 ==> w == (2 * y - 1) as real + l
  {
    if a == a0 then (2 * y - 1) as real - l * pRatio else (2 * y - 1) as real + l
  }

  /** `_generate_weights`: `_weight_function` applied sample by sample. */
  function GenerateWeights(y: seq<int>, a: seq<int>, l: real, pRatio: real, a0: int): (w: seq<real>)
    requires |y| == |a|
    ensures |w| == |y|
    ensures forall i :: 0 <= i < |y| ==> w[i] == Weight(y[i], a[i], l, pRatio, a0)
  {
    seq(|y|, i requires 0 <= i < |y| => Weight(y[i], a[i], l, pRatio, a0))
  }

  /** `Y'`: label 1 exactly where the weight is positive. */
  function Relabel(w: seq<real>): (r: seq<int>)
    ensures |r| == |w|
    ensures forall i :: 0 <= i < |w| ==> (r[i] == 1 <==> w[i] > 0.0) && (r[i] == 0 <==> w[i] <= 0.0)
  {
    seq(|w|, i requires 0 <= i < |w| => if w[i] > 0.0 then 1 else 0)
  }

  /** `np.absolute`: the sample weights the learner receives. */
  function Absolute(w: seq<real>): (r: seq<real>)
    ensures |r| == |w|
    ensures forall i :: 0 <= i < |w| ==> r[i] >= 0.0 && (r[i] == w[i] || r[i] == -w[i])
  {
    seq(|w|, i requires 0 <= i < |w| => if w[i] < 0.0 then -w[i] else w[i])
  }

  /** With multiplier 0 every weight is `2y - 1`, so the re-labelled data
      are the original binary labels, each with weight 1. */
  lemma RelabelAtZero(y: seq<int>, a: seq<int>, pRatio: real, a0: int)
    requires |y| == |a|
    requires forall i :: 0 <= i < |y| ==> y[i] == 0 || y[i] == 1
    ensures Relabel(GenerateWeights(y, a, 0.0, pRatio, a0)) == y
    ensures forall i :: 0 <= i < |y| ==> Absolute(GenerateWeights(y, a, 0.0, pRatio, a0))[i] == 1.0
  {
    var w := GenerateWeights(y, a, 0.0, pRatio, a0);
    forall i | 0 <= i < |y| ensures w[i] == (2 * y[i] - 1) as real {
      assert 0.0 * pRatio == 0.0;
    }
  }

  /** The entry `fit` appends for multiplier `l` (before its quality is set). */
  function Train(y: seq<int>, a: seq<int>, info: GroupInfo, l: real): (e: ModelEntry)
    requires |y| == |a| && info.p0 != 0.0
    ensures e.multiplier == l && e.quality == None
    ensures |e.model.labels| == |e.model.sampleWeights| == |y|
    ensures forall i :: 0 <= i < |y| ==>
      var w := Weight(y[i], a[i], l, info.p1 / info.p0, info.a0);
      && (e.model.labels[i] == 1 <==> w > 0.0)
      && (e.model.labels[i] == 0 <==> w <= 0.0)
      && e.model.sampleWeights[i] >= 0.0
      && (w >= 0.0 ==> e.model.sampleWeights[i] == w)
      && (w < 0.0 ==> e.model.sampleWeights[i] == -w)
  {
    var w := GenerateWeights(y, a, l, info.p1 / info.p0, info.a0);
    ModelEntry(Fitted(Relabel(w), Absolute(w)), l, None)
  }

  /** `quality = -(error + disparity)`. */
  function Quality(moments: Moments, m: Fitted): real {
    -(moments.error(m) + moments.disparity(m))
  }

  /** The entries `fit` appends, one per multiplier, in order. */
  function TrainAll(y: seq<int>, a: seq<int>, info: GroupInfo, ls: seq<real>): (es: seq<ModelEntry>)
    requires |y| == |a| && info.p0 != 0.0
    ensures |es| == |ls|
    ensures forall i :: 0 <= i < |ls| ==> es[i] == Train(y, a, info, ls[i]) && es[i].multiplier == ls[i]
  {
    seq(|ls|, i requires 0 <= i < |ls| => Train(y, a, info, ls[i]))
  }

  /** The entries after `_select_best_model` has written their qualities. */
  function Scored(moments: Moments, es: seq<ModelEntry>): (r: seq<ModelEntry>)
    ensures |r| == |es|
    ensures forall i :: 0 <= i < |es| ==>
      r[i].model == es[i].model && r[i].multiplier == es[i].multiplier &&
      r[i].quality == Some(Quality(moments, es[i].model))
  {
    seq(|es|, i requires 0 <= i < |es| => es[i].(quality := Some(Quality(moments, es[i].model))))
  }

  /** The qualities written into the entries. */
  function Qualities(moments: Moments, es: seq<ModelEntry>): (q: seq<real>)
    ensures |q| == |es|
  {
    seq(|es|, i requires 0 <= i < |es| => Quality(moments, es[i].model))
  }

  /** Python's `max` with a key: the first position holding the largest key. */
  function ArgMaxFirst(s: seq<real>): (k: nat)
    requires |s| > 0
    ensures k < |s|
    ensures forall j :: 0 <= j < |s| ==> s[j] <= s[k]
    ensures forall j :: 0 <= j < k ==> s[j] < s[k]
  {
    if |s| == 1 then 0
    else
      var k := ArgMaxFirst(s[..|s| - 1]);
      assert forall j :: 0 <= j < |s| - 1 ==> s[..|s| - 1][j] == s[j];
      if s[|s| - 1] > s[k] then |s| - 1 else k
  }

  // ---------------------------------------------------------------------
  // The estimator

  class GridSearchClassification {
    var fairnessMetric: FairnessMetric
    var numberOfLagrangeMultipliers: int
    var allModels: seq<ModelEntry>
    var bestModel: Option<ModelEntry>

    constructor(count: int)
      ensures fairnessMetric == DemographicParity && numberOfLagrangeMultipliers == count
      ensures allModels == [] && bestModel == None
    {
      fairnessMetric := DemographicParity;
      numberOfLagrangeMultipliers := count;
      allModels := [];
      bestModel := None;
    }

    /** `__init__`: only demographic parity is accepted. */
    static method New(metric: FairnessMetric, count: int) returns (r: Result<GridSearchClassification, GridError>)
      ensures r.Err? <==> metric != DemographicParity
      ensures r.Err? ==> r.error == UnsupportedMetric
      ensures r.Ok? ==>
        && fresh(r.value) && r.value.numberOfLagrangeMultipliers == count
        && r.value.allModels == [] && r.value.bestModel == None
    {
      if metric != DemographicParity {
        return Err(UnsupportedMetric);
      }
      var g := new GridSearchClassification(count);
      return Ok(g);
    }

    /** `fit`: check the labels, derive the group statistics, train one
        copy per multiplier and select the best. */
    method Fit(y: seq<int>, a: seq<int>, supplied: Option<seq<real>>, moments: Moments)
      returns (err: Option<GridError>)
      requires |y| == |a|
      modifies this
      ensures fairnessMetric == old(fairnessMetric)
      ensures numberOfLagrangeMultipliers == old(numberOfLagrangeMultipliers)
      ensures !LabelsBinary(y) ==> err == Some(LabelsNotBinary)
      ensures LabelsBinary(y) && ProtectedAttributeInfo(a).Err? ==> err == Some(ProtectedAttributeInfo(a).error)
      ensures LabelsBinary(y) && ProtectedAttributeInfo(a).Ok? ==>
        var info := ProtectedAttributeInfo(a).value;
        var ls := Multipliers(info, supplied, old(numberOfLagrangeMultipliers));
        && (ls.Err? ==> err == Some(ls.error))
        && (ls.Ok? ==> allModels == Scored(moments, TrainAll(y, a, info, ls.value)))
        && (ls.Ok? && |ls.value| == 0 ==> err == Some(NoModels) && bestModel == old(bestModel))
        && (ls.Ok? && |ls.value| > 0 ==>
              err == None && bestModel == Some(allModels[ArgMaxFirst(Qualities(moments, allModels))]))
      ensures err.Some? && err != Some(NoModels) ==> allModels == old(allModels) && bestModel == old(bestModel)
    {
      if !LabelsBinary(y) {
        return Some(LabelsNotBinary);
      }
      var info := ProtectedAttributeInfo(a);
      if info.Err? {
        return Some(info.error);
      }
      var gi := info.value;
      var ls := Multipliers(gi, supplied, numberOfLagrangeMultipliers);
      if ls.Err? {
        return Some(ls.error);
      }
      err := TrainAndSelect(y, a, gi, ls.value, moments);
    }

    /** The part of `fit` after the checks: train one copy per multiplier,
        then select and store the best. */
    method TrainAndSelect(y: seq<int>, a: seq<int>, gi: GroupInfo, mults: seq<real>, moments: Moments)
      returns (err: Option<GridError>)
      requires |y| == |a| && gi.p0 != 0.0
      modifies this
      ensures fairnessMetric == old(fairnessMetric)
      ensures numberOfLagrangeMultipliers == old(numberOfLagrangeMultipliers)
      ensures allModels == Scored(moments, TrainAll(y, a, gi, mults))
      ensures |mults| == 0 ==> err == Some(NoModels) && bestModel == old(bestModel)
      ensures |mults| > 0 ==> err == None && bestModel == Some(allModels[ArgMaxFirst(Qualities(moments, allModels))])
    {
      TrainModels(y, a, gi, mults);
      var best := SelectBestModel(moments);
      if best.Err? {
        return Some(best.error);
      }
      bestModel := Some(best.value);
      err := None;
    }

    /** The loop of `fit` that trains one copy per multiplier. */
    method TrainModels(y: seq<int>, a: seq<int>, gi: GroupInfo, mults: seq<real>)
      requires |y| == |a| && gi.p0 != 0.0
      modifies this
      ensures allModels == TrainAll(y, a, gi, mults)
      ensures fairnessMetric == old(fairnessMetric) && bestModel == old(bestModel)
      ensures numberOfLagrangeMultipliers == old(numberOfLagrangeMultipliers)
    {
      allModels := [];
      var i := 0;
      while i < |mults|
        invariant 0 <= i <= |mults|
        invariant allModels == TrainAll(y, a, gi, mults[..i])
        invariant fairnessMetric == old(fairnessMetric)
        invariant numberOfLagrangeMultipliers == old(numberOfLagrangeMultipliers)
        invariant bestModel == old(bestModel)
      {
        allModels := allModels + [Train(y, a, gi, mults[i])];
        i := i + 1;
        assert allModels == TrainAll(y, a, gi, mults[..i]);
      }
      assert mults[..i] == mults;
    }

    /** `_select_best_model`: write each entry's quality, then return the
        first entry of largest quality. */
    method SelectBestModel(moments: Moments) returns (best: Result<ModelEntry, GridError>)
      modifies this
      ensures fairnessMetric == old(fairnessMetric) && bestModel == old(bestModel)
      ensures numberOfLagrangeMultipliers == old(numberOfLagrangeMultipliers)
      ensures allModels == Scored(moments, old(allModels))
      ensures |allModels| == 0 <==> best.Err?
      ensures best.Err? ==> best.error == NoModels
      ensures best.Ok? ==> best.value == allModels[ArgMaxFirst(Qualities(moments, allModels))]
    {
      var i := 0;
      while i < |allModels|
        invariant 0 <= i <= |allModels| == |old(allModels)|
        invariant allModels[..i] == Scored(moments, old(allModels)[..i])
        invariant allModels[i..] == old(allModels)[i..]
        invariant fairnessMetric == old(fairnessMetric) && bestModel == old(bestModel)
        invariant numberOfLagrangeMultipliers == old(numberOfLagrangeMultipliers)
      {
        var m := allModels[i];
        assert m == old(allModels)[i] by {
          assert allModels[i..][0] == old(allModels)[i..][0];
        }
        allModels := allModels[i := m.(quality := Some(Quality(moments, m.model)))];
        i := i + 1;
        assert allModels[..i] == Scored(moments, old(allModels)[..i]);
      }
      assert allModels == allModels[..i];
      assert old(allModels) == old(allModels)[..i];
      if |allModels| == 0 {
        return Err(NoModels);
      }
      best := Ok(allModels[ArgMaxFirst(Qualities(moments, allModels))]);
    }
  }

  /** The selected entry has the largest quality of all entries, and no
      earlier entry ties with it. */
  lemma BestIsFirstMaximal(moments: Moments, es: seq<ModelEntry>)
    requires |es| > 0
    ensures var k := ArgMaxFirst(Qualities(moments, es));
      && (forall j :: 0 <= j < |es| ==> Quality(moments, es[j].model) <= Quality(moments, es[k].model))
      && (forall j :: 0 <= j < k ==> Quality(moments, es[j].model) < Quality(moments, es[k].model))
  {
    var q := Qualities(moments, es);
    var k := ArgMaxFirst(q);
    assert forall j :: 0 <= j < |es| ==> q[j] == Quality(moments, es[j].model);
  }
}
