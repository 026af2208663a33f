/** `_ensure_1d_ndarray`: an array as its shape and its elements in
    row-major order. Arrays of more than one element have their length-1
    axes squeezed out; an array of one element becomes shape `(1,)`; an
    empty array cannot be reshaped to `(1,)` and fails. */
module InputManipulations {
  import opened Wrappers

  /** A numpy array: its shape and its elements in row-major order. */
  datatype NdArray<T> = NdArray(shape: seq<nat>, data: seq<T>)

  /** numpy's `ValueError: cannot reshape array of size 0 into shape (1,)`. */
  datatype ShapeError = CannotReshape

  /** The product of the axis lengths, numpy's `size`. */
  function Product(shape: seq<nat>): nat {
    if |shape| == 0 then 1 else shape[0] * Product(shape[1..])
  }

  /** The shape and the elements agree. */
  predicate WellShaped<T>(a: NdArray<T>) {
    |a.data| == Product(a.shape)
  }

  predicate NoUnitAxis(shape: seq<nat>) {
    forall i :: 0 <= i < |shape| ==> shape[i] != 1
  }

  /** `np.squeeze`: the shape with every length-1 axis removed, the others
      kept in order. */
  function Squeeze(shape: seq<nat>): (r: seq<nat>)
    ensures NoUnitAxis(r)
    ensures Product(r) == Product(shape)
    ensures |r| <= |shape|
    ensures forall d :: d in r <==> d in shape && d != 1
  {
    if |shape| == 0 then []
    else if shape[0] == 1 then
      Squeeze(shape[1..])
    else
      var rest := Squeeze(shape[1..]);
      assert forall d :: d in shape <==> d == shape[0] || d in shape[1..];
      [shape[0]] + rest
  }

  /** `_ensure_1d_ndarray`. */
  function Ensure1d<T>(a: NdArray<T>): (r: Result<NdArray<T>, ShapeError>)
    ensures r.Err? <==> Product(a.shape) == 0
    ensures r.Ok? ==> r.value.data == a.data
    ensures r.Ok? ==> Product(r.value.shape) == Product(a.shape)
    ensures r.Ok? ==> (WellShaped(r.value) <==> WellShaped(a))
    ensures Product(a.shape) == 1 ==> r == Ok(NdArray([1], a.data))
    ensures Product(a.shape) > 1 ==> r == Ok(NdArray(Squeeze(a.shape), a.data))
  {
    var size := Product(a.shape);
    if size > 1 then Ok(NdArray(Squeeze(a.shape), a.data))
    else if size == 1 then Ok(NdArray([1], a.data))
    else Err(CannotReshape)
  }

  // ---------------------------------------------------------------------
  // Properties

  /** Squeezing a shape without length-1 axes changes nothing. */
  lemma {:induction false} SqueezeNoUnit(shape: seq<nat>)
    requires NoUnitAxis(shape)
    ensures Squeeze(shape) == shape
  {
    if |shape| > 0 {
      SqueezeNoUnit(shape[1..]);
    }
  }

  /** A single axis is kept unless its length is 1. */
  lemma SqueezeSingle(d: nat)
    ensures Squeeze([d]) == if d == 1 then [] else [d]
  {
    assert [d][1..] == [];
  }

  /** Squeezing works axis by axis, so the kept axes stay in their order
      and each appears as often as in the input; with `SqueezeSingle` this
      determines the squeezed shape of every shape. */
  lemma {:induction false} SqueezeAppend(s: seq<nat>, t: seq<nat>)
    ensures Squeeze(s + t) == Squeeze(s) + Squeeze(t)
  {
    if |s| > 0 {
      assert (s + t)[0] == s[0] && (s + t)[1..] == s[1..] + t;
      SqueezeAppend(s[1..], t);
    } else {
      assert s + t == t;
    }
  }

  /** Applying the function to its own result changes nothing. */
  lemma Ensure1dIdempotent<T>(a: NdArray<T>)
    requires Ensure1d(a).Ok?
    ensures Ensure1d(Ensure1d(a).value) == Ensure1d(a)
  {
    var r := Ensure1d(a).value;
    if Product(a.shape) > 1 {
      SqueezeNoUnit(r.shape);
    } else {
      assert Product([1]) == 1;
    }
  }

  /** An array with no length-1 axis comes back unchanged, whatever its
      number of axes: `(2, 2)` is accepted as it is. */
  lemma NoUnitAxisUnchanged<T>(a: NdArray<T>)
    requires NoUnitAxis(a.shape) && Product(a.shape) > 1
    ensures Ensure1d(a) == Ok(a)
  {
    SqueezeNoUnit(a.shape);
  }

  /** The number of axes longer than 1. */
  function LongAxes(shape: seq<nat>): nat {
    if |shape| == 0 then 0 else (if shape[0] != 1 then 1 else 0) + LongAxes(shape[1..])
  }

  /** The result is one-dimensional exactly when the input has at most one
      axis longer than 1; that axis then holds every element. */
  lemma {:induction false} OneDimensionalIff<T>(a: NdArray<T>)
    requires Ensure1d(a).Ok?
    ensures |Ensure1d(a).value.shape| == 1 <==> LongAxes(a.shape) <= 1
    ensures |Ensure1d(a).value.shape| == 1 ==> Ensure1d(a).value.shape == [Product(a.shape)]
  {
    SqueezeLength(a.shape);
    if Product(a.shape) > 1 {
      var s := Squeeze(a.shape);
      if |s| == 1 {
        assert Product(s) == s[0] * Product(s[1..]);
        assert s[1..] == [];
      }
    }
  }

  lemma {:induction false} SqueezeLength(shape: seq<nat>)
    ensures |Squeeze(shape)| == LongAxes(shape)
  {
    if |shape| > 0 {
      SqueezeLength(shape[1..]);
    }
  }

  /** The documented shapes: `[0, 1, 2]` stays `(3,)`, `[[0], [1]]` and
      `[[0, 1]]` become `(2,)` with their elements in order, and
      `[[[1]]]` becomes `(1,)`. */
  lemma Examples()
    ensures Ensure1d(NdArray([3], [0, 1, 2])) == Ok(NdArray([3], [0, 1, 2]))
    ensures Ensure1d(NdArray([2, 1], [0, 1])) == Ok(NdArray([2], [0, 1]))
    ensures Ensure1d(NdArray([1, 2], [0, 1])) == Ok(NdArray([2], [0, 1]))
    ensures Ensure1d(NdArray([1, 1, 1], [1])) == Ok(NdArray([1], [1]))
    ensures Ensure1d(NdArray([2, 2], [0, 1, 2, 3])) == Ok(NdArray([2, 2], [0, 1, 2, 3]))
    ensures var empty: seq<int> := []; Ensure1d(NdArray([0], empty)) == Err(CannotReshape)
  {
    assert [2, 1][1..] == [1] && [1, 2][1..] == [2] && [2, 2][1..] == [2];
    assert [1, 1, 1][1..] == [1, 1] && [1, 1][1..] == [1];
    assert Product([3]) == 3 && Product([2]) == 2 && Product([1]) == 1;
    assert Product([2, 1]) == 2 && Product([1, 2]) == 2 && Product([2, 2]) == 4;
    assert Product([1, 1]) == 1 && Product([1, 1, 1]) == 1 && Product([0]) == 0;
    assert Squeeze([3]) == [3] && Squeeze([2]) == [2] && Squeeze([1]) == [];
    assert Squeeze([2, 1]) == [2] && Squeeze([1, 2]) == [2] && Squeeze([2, 2]) == [2, 2];
  }
}
