/** Numeric helpers shared by the model: sums over sequences and maps, the
    extended reals used for numpy's +infinity, and numpy's `unique`. */
module Numeric {

  /** A real number or numpy's positive infinity (`np.PINF`). */
  datatype ExtReal = Finite(r: real) | PosInf

  /** `x < y` over the extended reals. */
  predicate Less(x: real, y: ExtReal) {
    match y
    case PosInf => true
    case Finite(v) => x < v
  }

  /** The sum of a sequence of reals, left to right. */
  function Sum(s: seq<real>): real {
    if |s| == 0 then 0.0 else Sum(s[..|s| - 1]) + s[|s| - 1]
  }

  lemma SumAppend(s: seq<real>, x: real)
    ensures Sum(s + [x]) == Sum(s) + x
  {
    assert (s + [x])[..|s|] == s;
  }

  lemma {:induction false} SumNonNegative(s: seq<real>)
    requires forall i :: 0 <= i < |s| ==> s[i] >= 0.0
    ensures Sum(s) >= 0.0
  {
    if |s| > 0 {
      SumNonNegative(s[..|s| - 1]);
    }
  }

  /** Scaling every entry scales the sum. */
  lemma {:induction false} SumScale(s: seq<real>, t: seq<real>, c: real)
    requires |s| == |t|
    requires forall i :: 0 <= i < |s| ==> t[i] == c * s[i]
    ensures Sum(t) == c * Sum(s)
  {
    if |s| > 0 {
      SumScale(s[..|s| - 1], t[..|t| - 1], c);
    }
  }

  /** The sum of two sequences taken entry by entry. */
  lemma {:induction false} SumAdd(s: seq<real>, t: seq<real>, u: seq<real>)
    requires |s| == |t| == |u|
    requires forall i :: 0 <= i < |s| ==> u[i] == s[i] + t[i]
    ensures Sum(u) == Sum(s) + Sum(t)
  {
    if |s| > 0 {
      SumAdd(s[..|s| - 1], t[..|t| - 1], u[..|u| - 1]);
    }
  }

  /** Moving a divisor across a product. */
  lemma DivMul(a: real, b: real, c: real)
    requires c != 0.0
    ensures a * b / c == (a / c) * b
  {
    var q := a / c;
    assert a == q * c;
    assert a * b == (q * b) * c;
  }

  /** The smallest entry of a non-empty sequence (Python's `min`). */
  function Min(s: seq<real>): (m: real)
    requires |s| > 0
    ensures m in s
    ensures forall i :: 0 <= i < |s| ==> m <= s[i]
  {
    if |s| == 1 then s[0]
    else
      var m' := Min(s[..|s| - 1]);
      assert forall i :: 0 <= i < |s| - 1 ==> s[..|s| - 1][i] == s[i];
      if s[|s| - 1] < m' then s[|s| - 1] else m'
  }

  /** Taking the minimum of a longer prefix never increases it. */
  lemma MinPrefix(s: seq<real>, k: nat)
    requires 0 < k <= |s|
    ensures Min(s) <= Min(s[..k])
  {
    assert s[..k][0] == s[0];
    var m := Min(s);
    var j :| 0 <= j < |s| && s[j] == m;
    assert Min(s[..k]) in s;
  }

  /** The sum of the values of a finite map. */
  ghost function MapSum<K>(m: map<K, real>): real {
    KeySum(m, m.Keys)
  }

  /** The sum of `m[k]` over the keys `ks`. */
  ghost function KeySum<K>(m: map<K, real>, ks: set<K>): real
    requires ks <= m.Keys
  {
    if ks == {} then 0.0
    else
      var k :| k in ks;
      m[k] + KeySum(m, ks - {k})
  }

  /** Any key can be taken out first. */
  lemma {:induction false} KeySumRemove<K>(m: map<K, real>, ks: set<K>, j: K)
    requires ks <= m.Keys && j in ks
    ensures KeySum(m, ks) == m[j] + KeySum(m, ks - {j})
  {
    var k :| k in ks && KeySum(m, ks) == m[k] + KeySum(m, ks - {k});
    if k != j {
      assert KeySum(m, ks - {k}) == m[j] + KeySum(m, ks - {k} - {j}) by {
        KeySumRemove(m, ks - {k}, j);
      }
      assert KeySum(m, ks - {j}) == m[k] + KeySum(m, ks - {j} - {k}) by {
        KeySumRemove(m, ks - {j}, k);
      }
      assert ks - {k} - {j} == ks - {j} - {k};
    }
  }

  /** The sum only depends on the values at the keys summed over. */
  lemma {:induction false} KeySumCongruent<K>(m: map<K, real>, d: map<K, real>, ks: set<K>)
    requires ks <= m.Keys && ks <= d.Keys
    requires forall k :: k in ks ==> m[k] == d[k]
    ensures KeySum(m, ks) == KeySum(d, ks)
  {
    if ks != {} {
      var k :| k in ks && KeySum(m, ks) == m[k] + KeySum(m, ks - {k});
      KeySumRemove(d, ks, k);
      KeySumCongruent(m, d, ks - {k});
    }
  }

  /** Setting one entry changes the sum by the difference. */
  lemma MapSumUpdate<K>(m: map<K, real>, k: K, v: real)
    ensures MapSum(m[k := v]) == MapSum(m) - (if k in m then m[k] else 0.0) + v
  {
    var m' := m[k := v];
    var rest := m.Keys - {k};
    KeySumRemove(m', m'.Keys, k);
    assert m'.Keys - {k} == rest;
    KeySumCongruent(m, m', rest);
    if k in m {
      KeySumRemove(m, m.Keys, k);
    } else {
      assert rest == m.Keys;
    }
  }

  /** Multiplying every value by `f` multiplies the sum by `f`. */
  lemma MapSumScale<K>(m: map<K, real>, d: map<K, real>, f: real)
    requires d.Keys == m.Keys
    requires forall k :: k in m ==> d[k] == f * m[k]
    ensures MapSum(d) == f * MapSum(m)
  {
    KeySumScale(m, d, f, m.Keys);
  }

  lemma {:induction false} KeySumScale<K>(m: map<K, real>, d: map<K, real>, f: real, ks: set<K>)
    requires ks <= m.Keys && ks <= d.Keys
    requires forall k :: k in ks ==> d[k] == f * m[k]
    ensures KeySum(d, ks) == f * KeySum(m, ks)
  {
    if ks != {} {
      var k :| k in ks && KeySum(m, ks) == m[k] + KeySum(m, ks - {k});
      KeySumRemove(d, ks, k);
      KeySumScale(m, d, f, ks - {k});
      var a, b := m[k], KeySum(m, ks - {k});
      assert f * (a + b) == f * a + f * b;
    }
  }

  lemma MapSumNonNegative<K>(m: map<K, real>)
    requires forall k :: k in m ==> m[k] >= 0.0
    ensures MapSum(m) >= 0.0
  {
    KeySumNonNegative(m, m.Keys);
  }

  lemma {:induction false} KeySumNonNegative<K>(m: map<K, real>, ks: set<K>)
    requires ks <= m.Keys
    requires forall k :: k in ks ==> m[k] >= 0.0
    ensures KeySum(m, ks) >= 0.0
  {
    if ks != {} {
      var k :| k in ks && KeySum(m, ks) == m[k] + KeySum(m, ks - {k});
      KeySumNonNegative(m, ks - {k});
    }
  }

  /** Strictly increasing, hence free of duplicates. */
  predicate StrictlyIncreasing(s: seq<int>) {
    forall i, j :: 0 <= i < j < |s| ==> s[i] < s[j]
  }

  /** The set of values of a sequence. */
  function Elems<T>(s: seq<T>): set<T> {
    set v | v in s
  }

  /** Only the empty sequence has no elements. */
  lemma ElemsEmpty<T>(s: seq<T>)
    ensures Elems(s) == {} <==> |s| == 0
  {
    if |s| > 0 {
      assert s[0] in Elems(s);
    }
  }

  /** Insert `x` into a strictly increasing sequence, keeping it so. */
  function Insert(x: int, s: seq<int>): (r: seq<int>)
    requires StrictlyIncreasing(s)
    ensures StrictlyIncreasing(r)
    ensures Elems(r) == Elems(s) + {x}
  {
    if |s| == 0 then [x]
    else if x < s[0] then [x] + s
    else if x == s[0] then s
    else
      var rest := Insert(x, s[1..]);
      assert Elems(s) == {s[0]} + Elems(s[1..]);
      assert Elems([s[0]] + rest) == {s[0]} + Elems(rest);
      assert forall i :: 0 <= i < |rest| ==> s[0] < rest[i] by {
        forall i | 0 <= i < |rest| ensures s[0] < rest[i] {
          assert rest[i] in Elems(rest);
        }
      }
      var r := [s[0]] + rest;
      assert forall i :: 0 < i < |r| ==> r[i] == rest[i - 1];
      r
  }

  /** numpy's `unique`: the distinct values of `s`, sorted. */
  function SortedUnique(s: seq<int>): (r: seq<int>)
    ensures StrictlyIncreasing(r)
    ensures Elems(r) == Elems(s)
    ensures |r| <= |s|
  {
    if |s| == 0 then []
    else
      var r := Insert(s[|s| - 1], SortedUnique(s[..|s| - 1]));
      assert Elems(s) == Elems(s[..|s| - 1]) + {s[|s| - 1]};
      DistinctBound(r, s);
      r
  }

  lemma DistinctBound(r: seq<int>, s: seq<int>)
    requires StrictlyIncreasing(r)
    requires Elems(r) == Elems(s)
    ensures |r| <= |s|
  {
    DistinctCard(r);
    SetOfSeqCard(s);
  }

  lemma {:induction false} DistinctCard(r: seq<int>)
    requires StrictlyIncreasing(r)
    ensures |Elems(r)| == |r|
  {
    if |r| > 0 {
      var t := r[1..];
      DistinctCard(t);
      assert Elems(r) == {r[0]} + Elems(t);
      assert r[0] !in Elems(t);
    }
  }

  lemma {:induction false} SetOfSeqCard(s: seq<int>)
    ensures |Elems(s)| <= |s|
  {
    if |s| > 0 {
      SetOfSeqCard(s[1..]);
      assert Elems(s) == {s[0]} + Elems(s[1..]);
    }
  }

  /** The number of entries of `s` equal to `x`. */
  function Count<T(==)>(s: seq<T>, x: T): (n: nat)
    ensures n <= |s|
    ensures n > 0 <==> x in s
  {
    if |s| == 0 then 0
    else Count(s[..|s| - 1], x) + (if s[|s| - 1] == x then 1 else 0)
  }
}
