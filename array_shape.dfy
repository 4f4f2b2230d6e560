/** `ArrayShape`: the dimensions of a kernel tensor, stored in Legion order (the reverse of the
    framework's own "ff" order).  Sizes are `size_t` in the source; here they are unbounded
    naturals, and the one place where the source's integer widths change the result
    (`num_elements`) is modelled with them written out. */
module ArrayShapes {
  import opened Wrappers
  import IndexArith

  datatype ArrayShape = ArrayShape(dims: seq<nat>)

  /** The elements of `s` in reverse order. */
  function Reverse<T>(s: seq<T>): (r: seq<T>)
    ensures |r| == |s|
    ensures forall i :: 0 <= i < |s| ==> r[i] == s[|s| - 1 - i]
  {
    if |s| == 0 then [] else [s[|s| - 1]] + Reverse(s[..|s| - 1])
  }

  /** Reversing twice gives back the original order. */
  lemma ReverseReverse<T>(s: seq<T>)
    ensures Reverse(Reverse(s)) == s
  {
  }

  /** `create_reversed_dims`: the ff-ordered sizes, last first. */
  function CreateReversedDims(ffOrdered: seq<nat>): seq<nat>
  {
    Reverse(ffOrdered)
  }

  /** Constructor from a pointer and a count: the first `numDims` sizes, in order. */
  function FromPointer(buffer: seq<nat>, numDims: nat): (r: ArrayShape)
    requires numDims <= |buffer|
    ensures r.dims == buffer[..numDims]
  {
    ArrayShape(buffer[..numDims])
  }

  /** Constructor from a tensor shape: Legion order is the reverse of the ff order. */
  function FromTensorShape(ffOrdered: seq<nat>): (r: ArrayShape)
    ensures |r.dims| == |ffOrdered|
    ensures forall i :: 0 <= i < |ffOrdered| ==> r.dims[i] == ffOrdered[|ffOrdered| - 1 - i]
  {
    ArrayShape(CreateReversedDims(ffOrdered))
  }

  /** Constructor from a vector: the sizes verbatim. */
  function FromVector(inputDims: seq<nat>): (r: ArrayShape)
    ensures r.dims == inputDims
  {
    ArrayShape(inputDims)
  }

  /** Product of a list of sizes. */
  function Product(dims: seq<nat>): nat
  {
    if |dims| == 0 then 1 else Product(dims[..|dims| - 1]) * dims[|dims| - 1]
  }

  /** A product is zero exactly when one of its factors is. */
  lemma {:induction false} ProductZero(dims: seq<nat>)
    ensures Product(dims) == 0 <==> 0 in dims
  {
    if |dims| > 0 {
      ProductZero(dims[..|dims| - 1]);
      assert dims == dims[..|dims| - 1] + [dims[|dims| - 1]];
    }
  }

  /** The product of a concatenation multiplies the two products. */
  lemma {:induction false} ProductAppend(a: seq<nat>, b: seq<nat>)
    ensures Product(a + b) == Product(a) * Product(b)
  {
    if |b| > 0 {
      var b' := b[..|b| - 1];
      assert (a + b)[..|a + b| - 1] == a + b';
      ProductAppend(a, b');
      assert Product(a) * Product(b') * b[|b| - 1] == Product(a) * (Product(b') * b[|b| - 1]);
    } else {
      assert a + b == a;
    }
  }

  /** The product does not depend on the order of the factors. */
  lemma {:induction false} ProductReverse(dims: seq<nat>)
    ensures Product(Reverse(dims)) == Product(dims)
  {
    if |dims| > 0 {
      var init := dims[..|dims| - 1];
      ProductReverse(init);
      assert Reverse(dims) == [dims[|dims| - 1]] + Reverse(init);
      ProductAppend([dims[|dims| - 1]], Reverse(init));
      assert Product([dims[|dims| - 1]]) == dims[|dims| - 1] by {
        assert [dims[|dims| - 1]][..0] == [];
      }
    }
  }

  /** `num_elements`, as evidently intended: 0 for a shape without dimensions, otherwise the
      product of the sizes. */
  function NumElements(s: ArrayShape): (r: nat)
    ensures |s.dims| == 0 ==> r == 0
    ensures |s.dims| > 0 ==> r == Product(s.dims)
  {
    if |s.dims| == 0 then 0 else Product(s.dims)
  }

  /** A shape has no elements exactly when it has no dimensions or a zero-sized one. */
  lemma NumElementsZero(s: ArrayShape)
    ensures NumElements(s) == 0 <==> |s.dims| == 0 || 0 in s.dims
  {
    ProductZero(s.dims);
  }

  // --- `num_elements` as written: `std::accumulate` with the `int` literal `1` as initial value
  //     keeps its running product in a 32-bit `int`; the final `int` is returned as `size_t`.

  const INT32_MOD: int := 0x1_0000_0000
  const SIZE_T_MOD: int := 0x1_0000_0000_0000_0000

  /** Conversion of an integer to a two's-complement 32-bit `int`. */
  function ToInt32(x: int): (r: int)
    ensures -0x8000_0000 <= r < 0x8000_0000 && (r - x) % INT32_MOD == 0
  {
    var m := x % INT32_MOD;
    if m >= 0x8000_0000 then m - INT32_MOD else m
  }

  /** The running `int` accumulator after multiplying in every size. */
  function AccumulateInt(dims: seq<nat>): (r: int)
    ensures -0x8000_0000 <= r < 0x8000_0000
  {
    if |dims| == 0 then 1 else ToInt32(AccumulateInt(dims[..|dims| - 1]) * dims[|dims| - 1])
  }

  function NumElementsAsWritten(s: ArrayShape): (r: nat)
    ensures r < SIZE_T_MOD
  {
    if |s.dims| == 0 then 0 else AccumulateInt(s.dims) % SIZE_T_MOD
  }

  /** Within `int` range the code as written is right: without a zero size every partial product
      is at most the whole, and once a zero size is multiplied in the accumulator stays 0,
      whatever wrapped before it. */
  lemma {:induction false} AccumulateIntExact(dims: seq<nat>)
    requires Product(dims) < 0x8000_0000
    ensures AccumulateInt(dims) == Product(dims)
  {
    if |dims| > 0 {
      var init := dims[..|dims| - 1];
      var last := dims[|dims| - 1];
      if last == 0 {
        assert AccumulateInt(dims) == ToInt32(AccumulateInt(init) * 0);
      } else {
        IndexArith.MulLe(1, last, Product(init));
        assert Product(init) <= Product(dims);
        AccumulateIntExact(init);
      }
    }
  }

  /** Two dimensions of 65536 have 2^32 elements, but the `int` accumulator wraps to 0. */
  lemma NumElementsAsWrittenWraps()
    ensures NumElements(ArrayShape([65536, 65536])) == 0x1_0000_0000
    ensures NumElementsAsWritten(ArrayShape([65536, 65536])) == 0
  {
    assert [65536, 65536][..1] == [65536];
    assert [65536][..0] == [];
  }

  /** `get_volume`, and the free function of the same name. */
  function GetVolume(s: ArrayShape): (r: nat)
    ensures r == NumElements(s)
  {
    NumElements(s)
  }

  /** `num_dims` and its alias `get_dim`. */
  function NumDims(s: ArrayShape): (r: nat)
    ensures r == |s.dims|
  {
    |s.dims|
  }

  function GetDim(s: ArrayShape): (r: nat)
    ensures r == NumDims(s)
  {
    NumDims(s)
  }

  /** `operator[]`: unchecked access, so the index must be in range. */
  function At(s: ArrayShape, idx: nat): nat
    requires idx < |s.dims|
  {
    s.dims[idx]
  }

  /** `at_maybe`: the size at `index` when it exists, nothing otherwise. */
  function AtMaybe(s: ArrayShape, index: nat): (r: Option<nat>)
    ensures r.Some? <==> index < |s.dims|
    ensures r.Some? ==> r.value == s.dims[index]
  {
    if index < |s.dims| then Some(At(s, index)) else None
  }

  /** `reversed_dim_order`: the same sizes in the opposite order. */
  function ReversedDimOrder(s: ArrayShape): (r: ArrayShape)
    ensures |r.dims| == |s.dims|
    ensures forall i :: 0 <= i < |s.dims| ==> r.dims[i] == s.dims[|s.dims| - 1 - i]
  {
    ArrayShape(Reverse(s.dims))
  }

  /** Reversing the dimension order twice gives back the shape. */
  lemma ReversedDimOrderInvolution(s: ArrayShape)
    ensures ReversedDimOrder(ReversedDimOrder(s)) == s
  {
    ReverseReverse(s.dims);
  }

  /** Reversal keeps the volume and the number of dimensions. */
  lemma ReversedDimOrderKeepsVolume(s: ArrayShape)
    ensures GetVolume(ReversedDimOrder(s)) == GetVolume(s)
    ensures NumDims(ReversedDimOrder(s)) == NumDims(s)
  {
    ProductReverse(s.dims);
  }

  /** A shape built from a tensor shape, read in reverse, is the tensor's ff order again, and
      has the tensor's volume. */
  lemma FromTensorShapeReversed(ffOrdered: seq<nat>)
    ensures ReversedDimOrder(FromTensorShape(ffOrdered)).dims == ffOrdered
    ensures |ffOrdered| > 0 ==> GetVolume(FromTensorShape(ffOrdered)) == Product(ffOrdered)
  {
    ReverseReverse(ffOrdered);
    ProductReverse(ffOrdered);
  }
}
