/** CPU fill kernels of the kernels library: overwrite the first `volume` elements of a
    writable tensor with zero or with a constant.  Element values are modelled by their
    mathematical value; which C++ type stores them is kept as the variant tag. */
module InitializerKernels {
  import opened Wrappers
  import opened ArrayShapes

  /** Element types of the kernels library. */
  datatype DataType = BOOL | INT32 | INT64 | HALF | FLOAT | DOUBLE

  /** One stored element, tagged with its C++ type. */
  datatype Element =
    | BoolElem(b: bool)
    | Int32Elem(i: int)
    | Int64Elem(i: int)
    | HalfElem(x: real)
    | FloatElem(x: real)
    | DoubleElem(x: real)

  /** `DataTypeValue`: a variant over float, double, int32_t, int64_t and bool (no half). */
  datatype DataTypeValue =
    | FloatValue(x: real)
    | DoubleValue(x: real)
    | Int32Value(i: int)
    | Int64Value(i: int)
    | BoolValue(b: bool)

  /** `GenericTensorAccessorW`: element type, shape, and the buffer the kernels write. */
  datatype TensorAccessorW = TensorAccessorW(dataType: DataType, shape: ArrayShape, ptr: array<Element>)

  /** The element of type `dt` that the literal `0.0f` converts to. */
  function ZeroOf(dt: DataType): (e: Element)
    ensures e.BoolElem? <==> dt == BOOL
    ensures e.BoolElem? ==> !e.b
    ensures (e.Int32Elem? || e.Int64Elem?) ==> e.i == 0
    ensures (e.HalfElem? || e.FloatElem? || e.DoubleElem?) ==> e.x == 0.0
  {
    match dt
    case BOOL => BoolElem(false)
    case INT32 => Int32Elem(0)
    case INT64 => Int64Elem(0)
    case HALF => HalfElem(0.0)
    case FLOAT => FloatElem(0.0)
    case DOUBLE => DoubleElem(0.0)
  }

  /** `get<real_type<DT>>(value)`: the value as an element of type `dt`, or nothing when the
      variant holds another type (`std::bad_variant_access`). */
  function Unwrap(dt: DataType, value: DataTypeValue): (r: Option<Element>)
    ensures r.Some? <==>
      (dt == BOOL && value.BoolValue?) || (dt == INT32 && value.Int32Value?) ||
      (dt == INT64 && value.Int64Value?) || (dt == FLOAT && value.FloatValue?) ||
      (dt == DOUBLE && value.DoubleValue?)
  {
    match (dt, value)
    case (BOOL, BoolValue(b)) => Some(BoolElem(b))
    case (INT32, Int32Value(i)) => Some(Int32Elem(i))
    case (INT64, Int64Value(i)) => Some(Int64Elem(i))
    case (FLOAT, FloatValue(x)) => Some(FloatElem(x))
    case (DOUBLE, DoubleValue(x)) => Some(DoubleElem(x))
    case _ => None
  }

  /** The zero of a type that the variant can hold. */
  function ZeroValue(dt: DataType): DataTypeValue
    requires dt != HALF
  {
    match dt
    case BOOL => BoolValue(false)
    case INT32 => Int32Value(0)
    case INT64 => Int64Value(0)
    case FLOAT => FloatValue(0.0)
    case DOUBLE => DoubleValue(0.0)
  }

  /** Filling with the constant zero of the tensor's type writes exactly what the zero fill
      writes; a half tensor cannot take a constant at all. */
  lemma ConstantZeroIsZero(dt: DataType)
    ensures dt != HALF ==> Unwrap(dt, ZeroValue(dt)) == Some(ZeroOf(dt))
    ensures forall v :: Unwrap(HALF, v).None?
  {
  }

  /** `prev` with its first `n` elements replaced by `e`. */
  function Filled(prev: seq<Element>, n: nat, e: Element): (r: seq<Element>)
    requires n <= |prev|
    ensures |r| == |prev|
    ensures forall i :: 0 <= i < n ==> r[i] == e
    ensures forall i :: n <= i < |prev| ==> r[i] == prev[i]
  {
    seq(|prev|, i requires 0 <= i < |prev| => if i < n then e else prev[i])
  }

  /** Filling is idempotent, and a second fill of the same prefix overrides the first. */
  lemma FilledTwice(s: seq<Element>, n: nat, e1: Element, e2: Element)
    requires n <= |s|
    ensures Filled(Filled(s, n, e1), n, e2) == Filled(s, n, e2)
    ensures Filled(Filled(s, n, e1), n, e1) == Filled(s, n, e1)
  {
    assert forall i :: 0 <= i < |s| ==> Filled(Filled(s, n, e1), n, e2)[i] == Filled(s, n, e2)[i];
  }

  /** The buffer holds at least the shape's volume. */
  predicate Fits(t: TensorAccessorW)
  {
    GetVolume(t.shape) <= t.ptr.Length
  }

  /** Writes `e` to every element below the volume, one index at a time. */
  method FillPrefix(ptr: array<Element>, volume: nat, e: Element)
    requires volume <= ptr.Length
    modifies ptr
    ensures ptr[..] == Filled(old(ptr[..]), volume, e)
  {
    var i := 0;
    while i < volume
      invariant 0 <= i <= volume
      invariant ptr[..] == Filled(old(ptr[..]), i, e)
    {
      ptr[i] := e;
      i := i + 1;
    }
  }

  /** `zero_init_kernel`: dispatches on the tensor's type and zeroes the first `volume`
      elements; every element type has a zero, so it cannot fail. */
  method ZeroInitKernel(tensor: TensorAccessorW)
    requires Fits(tensor)
    modifies tensor.ptr
    ensures tensor.ptr[..] == Filled(old(tensor.ptr[..]), GetVolume(tensor.shape), ZeroOf(tensor.dataType))
  {
    FillPrefix(tensor.ptr, GetVolume(tensor.shape), ZeroOf(tensor.dataType));
  }

  /** `constant_init_kernel`: unwraps the value as the tensor's element type before the loop;
      a mismatch fails with nothing written. */
  method ConstantInitKernel(tensor: TensorAccessorW, value: DataTypeValue) returns (r: Outcome<string>)
    requires Fits(tensor)
    modifies tensor.ptr
    ensures r.Pass? <==> Unwrap(tensor.dataType, value).Some?
    ensures r.Pass? ==>
              tensor.ptr[..] == Filled(old(tensor.ptr[..]), GetVolume(tensor.shape), Unwrap(tensor.dataType, value).value)
    ensures r.Fail? ==> tensor.ptr[..] == old(tensor.ptr[..])
  {
    var unwrapped := Unwrap(tensor.dataType, value);
    if unwrapped.None? {
      return Fail("bad_variant_access");
    }
    FillPrefix(tensor.ptr, GetVolume(tensor.shape), unwrapped.value);
    return Pass;
  }
}
