/** Initializer plumbing of the runtime: each initializer kind becomes a task invocation (a
    task id plus a binding of slots to the tensor and to arguments), and the Glorot task derives
    fan-in and fan-out from the tensor's dimensions. */
module Initializers {
  import opened Wrappers
  import opened ArrayShapes
  import opened InitializerKernels

  datatype ParameterSyncType = NONE | PS | NCCL

  datatype InvocationType = STANDARD | INDEX

  datatype TaskId =
    | GLOROT_INIT_TASK_ID | ZERO_INIT_TASK_ID | UNIFORM_INIT_TASK_ID
    | NORMAL_INIT_TASK_ID | CONSTANT_INIT_TASK_ID

  /** The slots an initializer task binds. */
  datatype Slot = TENSOR | TENSOR_DIMS | INITIALIZER

  /** The initializer kinds; seeds and float parameters are carried, never computed with. */
  datatype Initializer =
    | GlorotUniform(seed: int)
    | ZeroInitializer
    | UniformInitializer(seed: int, minVal: real, maxVal: real)
    | NormInitializer(seed: int, mean: real, stddev: real)
    | ConstantInitializer(value: DataTypeValue)

  /** A bound argument: an initializer record or a tensor's dimensions. */
  datatype Arg = InitializerArg(init: Initializer) | DimsArg(dims: seq<nat>)

  datatype TaskBinding = TaskBinding(invocationType: InvocationType, tensors: map<Slot, seq<nat>>, args: map<Slot, Arg>)

  datatype TaskInvocation = TaskInvocation(taskId: TaskId, binding: TaskBinding)

  /** The part of a parallel tensor the plumbing reads. */
  datatype ParallelTensor = ParallelTensor(syncType: ParameterSyncType)

  /** `get_invocation_type`: parameter-server tensors launch one task, NCCL tensors an index
      launch; any other sync type is an error. */
  function GetInvocationType(syncType: ParameterSyncType): (r: Result<InvocationType, string>)
    ensures r.Ok? <==> syncType != NONE
    ensures r.Ok? ==> (r.value == STANDARD <==> syncType == PS)
  {
    match syncType
    case PS => Ok(STANDARD)
    case NCCL => Ok(INDEX)
    case NONE => Err("Unhandled sync_type")
  }

  /** The arguments an initializer of each kind binds besides the tensor. */
  function BoundArgs(init: Initializer, tensorDims: seq<nat>): map<Slot, Arg>
  {
    match init
    case GlorotUniform(_) => map[INITIALIZER := InitializerArg(init), TENSOR_DIMS := DimsArg(tensorDims)]
    case ZeroInitializer => map[]
    case _ => map[INITIALIZER := InitializerArg(init)]
  }

  /** `apply_initializer`, over all five overloads (the dimensions are read only by the Glorot
      one, which first asserts that the tensor has at least two dimensions). */
  function ApplyInitializer(init: Initializer, guid: nat, p: ParallelTensor, tensorDims: seq<nat>)
    : (r: Result<TaskInvocation, string>)
    ensures r.Ok? <==> p.syncType != NONE && (init.GlorotUniform? ==> |tensorDims| >= 2)
    ensures r.Ok? ==> r.value.binding.invocationType == GetInvocationType(p.syncType).value
    ensures r.Ok? ==> r.value.binding.tensors == map[TENSOR := [guid]]
    ensures r.Ok? ==> (TENSOR_DIMS in r.value.binding.args <==> init.GlorotUniform?)
    ensures r.Ok? ==> (INITIALIZER in r.value.binding.args <==> !init.ZeroInitializer?)
    ensures r.Ok? && INITIALIZER in r.value.binding.args ==> r.value.binding.args[INITIALIZER] == InitializerArg(init)
    ensures r.Ok? && TENSOR_DIMS in r.value.binding.args ==> r.value.binding.args[TENSOR_DIMS] == DimsArg(tensorDims)
    ensures r.Ok? ==> (r.value.taskId == GLOROT_INIT_TASK_ID <==> init.GlorotUniform?)
    ensures r.Ok? ==> (r.value.taskId == ZERO_INIT_TASK_ID <==> init.ZeroInitializer?)
    ensures r.Ok? ==> (r.value.taskId == UNIFORM_INIT_TASK_ID <==> init.UniformInitializer?)
    ensures r.Ok? ==> (r.value.taskId == NORMAL_INIT_TASK_ID <==> init.NormInitializer?)
    ensures r.Ok? ==> (r.value.taskId == CONSTANT_INIT_TASK_ID <==> init.ConstantInitializer?)
  {
    if init.GlorotUniform? && |tensorDims| < 2 then Err("assertion tensor_dims.num_dims() >= 2")
    else if GetInvocationType(p.syncType).Err? then Err(GetInvocationType(p.syncType).error)
    else
      var binding := TaskBinding(GetInvocationType(p.syncType).value, map[TENSOR := [guid]], BoundArgs(init, tensorDims));
      var taskId := match init
        case GlorotUniform(_) => GLOROT_INIT_TASK_ID
        case ZeroInitializer => ZERO_INIT_TASK_ID
        case UniformInitializer(_, _, _) => UNIFORM_INIT_TASK_ID
        case NormInitializer(_, _, _) => NORMAL_INIT_TASK_ID
        case ConstantInitializer(_) => CONSTANT_INIT_TASK_ID;
      Ok(TaskInvocation(taskId, binding))
  }

  /** The task id alone tells which kind of initializer was applied. */
  lemma TaskIdIdentifiesKind(a: Initializer, b: Initializer, guid: nat, p: ParallelTensor, dims: seq<nat>)
    requires ApplyInitializer(a, guid, p, dims).Ok? && ApplyInitializer(b, guid, p, dims).Ok?
    requires ApplyInitializer(a, guid, p, dims).value.taskId == ApplyInitializer(b, guid, p, dims).value.taskId
    ensures a.GlorotUniform? == b.GlorotUniform? && a.ZeroInitializer? == b.ZeroInitializer?
    ensures a.UniformInitializer? == b.UniformInitializer? && a.NormInitializer? == b.NormInitializer?
    ensures a.ConstantInitializer? == b.ConstantInitializer?
  {
  }

  // --- Glorot fan computation (`glorot_init_task`).

  datatype Fans = Fans(cIn: nat, cOut: nat, receptiveFieldSize: nat, fanIn: nat, fanOut: nat)

  /** Walks the dimensions from the back: the last is `c_out`, the one before it `c_in`, and the
      receptive field is the product of the rest, taken in that reversed order. */
  function GlorotFans(dims: seq<nat>): (f: Fans)
    requires |dims| >= 2
    ensures f.cOut == dims[|dims| - 1] && f.cIn == dims[|dims| - 2]
    ensures f.receptiveFieldSize == Product(dims[..|dims| - 2])
    ensures f.fanIn == f.cIn * f.receptiveFieldSize && f.fanOut == f.cOut * f.receptiveFieldSize
  {
    var reversed := Reverse(dims);
    var rest := dims[..|dims| - 2];
    assert reversed[2..] == Reverse(rest);
    ProductReverse(rest);
    var rf := Product(reversed[2..]);
    Fans(reversed[1], reversed[0], rf, reversed[1] * rf, reversed[0] * rf)
  }

  /** Fan-in times output channels is the tensor's volume, as is fan-out times input channels;
      the two fans share the receptive field, so they are proportional to the channel counts. */
  lemma GlorotFansCoverVolume(dims: seq<nat>)
    requires |dims| >= 2
    ensures GlorotFans(dims).fanIn * GlorotFans(dims).cOut == Product(dims)
    ensures GlorotFans(dims).fanOut * GlorotFans(dims).cIn == Product(dims)
    ensures GlorotFans(dims).fanIn + GlorotFans(dims).fanOut
         == (GlorotFans(dims).cIn + GlorotFans(dims).cOut) * GlorotFans(dims).receptiveFieldSize
  {
    VolumeOfFans(dims);
    FanIdentities(GlorotFans(dims), Product(dims));
  }

  /** The volume is the receptive field times both channel counts. */
  lemma VolumeOfFans(dims: seq<nat>)
    requires |dims| >= 2
    ensures Product(dims) == GlorotFans(dims).receptiveFieldSize * (GlorotFans(dims).cIn * GlorotFans(dims).cOut)
  {
    ProductSplitLastTwo(dims);
  }

  /** The product of all sizes splits into the product of the leading ones and the last two. */
  lemma ProductSplitLastTwo(dims: seq<nat>)
    requires |dims| >= 2
    ensures Product(dims) == Product(dims[..|dims| - 2]) * (dims[|dims| - 2] * dims[|dims| - 1])
  {
    var n := |dims|;
    var rest := dims[..n - 2];
    var channels := [dims[n - 2], dims[n - 1]];
    assert dims == rest + channels;
    ProductAppend(rest, channels);
    assert channels[..1] == [dims[n - 2]];
    assert [dims[n - 2]][..0] == [];
  }

  lemma FanIdentities(f: Fans, p: nat)
    requires p == f.receptiveFieldSize * (f.cIn * f.cOut)
    requires f.fanIn == f.cIn * f.receptiveFieldSize && f.fanOut == f.cOut * f.receptiveFieldSize
    ensures f.fanIn * f.cOut == p && f.fanOut * f.cIn == p
    ensures f.fanIn + f.fanOut == (f.cIn + f.cOut) * f.receptiveFieldSize
  {
    IndexArith.MulRearrange(f.cIn, f.cOut, f.receptiveFieldSize);
    IndexArith.MulRearrange(f.cOut, f.cIn, f.receptiveFieldSize);
    IndexArith.MulDistrib(f.cIn, f.cOut, f.receptiveFieldSize);
  }

  /** The scale's denominator `fan_in + fan_out` is positive exactly when the receptive field is
      non-empty and one of the two channel counts is non-zero; in particular it is positive
      whenever no dimension is 0. */
  lemma GlorotDenominatorPositive(dims: seq<nat>)
    requires |dims| >= 2
    ensures GlorotFans(dims).fanIn + GlorotFans(dims).fanOut > 0
        <==> 0 !in dims[..|dims| - 2] && (dims[|dims| - 2] > 0 || dims[|dims| - 1] > 0)
    ensures 0 !in dims ==> GlorotFans(dims).fanIn + GlorotFans(dims).fanOut > 0
  {
    var n := |dims|;
    var f := GlorotFans(dims);
    ProductZero(dims[..n - 2]);
    GlorotFansCoverVolume(dims);
    IndexArith.MulPos(f.cIn + f.cOut, f.receptiveFieldSize);
    ProductZero(dims);
    ProductSplitLastTwo(dims);
    IndexArith.MulPos(f.receptiveFieldSize, f.cIn * f.cOut);
    IndexArith.MulPos(f.cIn, f.cOut);
  }

  /** The argument bound in `slot`, if any (`get_argument`). */
  function GetArgument(b: TaskBinding, slot: Slot): (r: Option<Arg>)
    ensures r.Some? <==> slot in b.args
  {
    if slot in b.args then Some(b.args[slot]) else None
  }

  /** The fans the Glorot task computes from its binding; a binding without dimensions, or with
      fewer than two, yields nothing. */
  function GlorotTaskFans(b: TaskBinding): (r: Option<Fans>)
    ensures r.Some? <==> TENSOR_DIMS in b.args && b.args[TENSOR_DIMS].DimsArg? && |b.args[TENSOR_DIMS].dims| >= 2
  {
    match GetArgument(b, TENSOR_DIMS)
    case Some(DimsArg(dims)) => if |dims| >= 2 then Some(GlorotFans(dims)) else None
    case _ => None
  }

  /** A Glorot invocation carries what its task needs: the task computes the fans of exactly
      the dimensions given to `apply_initializer`. */
  lemma GlorotInvocationReachesTask(seed: int, guid: nat, p: ParallelTensor, dims: seq<nat>)
    requires ApplyInitializer(GlorotUniform(seed), guid, p, dims).Ok?
    ensures GlorotTaskFans(ApplyInitializer(GlorotUniform(seed), guid, p, dims).value.binding) == Some(GlorotFans(dims))
  {
  }

  /** `zero_init_task`: zeroes the tensor bound in `TENSOR`. */
  method ZeroInitTask(tensor: TensorAccessorW)
    requires Fits(tensor)
    modifies tensor.ptr
    ensures tensor.ptr[..] == Filled(old(tensor.ptr[..]), GetVolume(tensor.shape), ZeroOf(tensor.dataType))
  {
    ZeroInitKernel(tensor);
  }

  /** The value of the constant initializer bound in `INITIALIZER`, if that is what is bound. */
  function ConstantArgument(b: TaskBinding): (r: Option<DataTypeValue>)
    ensures r.Some? <==> GetArgument(b, INITIALIZER).Some? && GetArgument(b, INITIALIZER).value.InitializerArg?
                         && GetArgument(b, INITIALIZER).value.init.ConstantInitializer?
    ensures r.Some? ==> GetArgument(b, INITIALIZER) == Some(InitializerArg(ConstantInitializer(r.value)))
  {
    match GetArgument(b, INITIALIZER)
    case Some(InitializerArg(ConstantInitializer(v))) => Some(v)
    case _ => None
  }

  /** `constant_init_task`: reads the bound constant initializer and fills the tensor with its
      value; a missing or differently typed argument fails with nothing written. */
  method ConstantInitTask(b: TaskBinding, tensor: TensorAccessorW) returns (r: Outcome<string>)
    requires Fits(tensor)
    modifies tensor.ptr
    ensures r.Pass? <==> ConstantArgument(b).Some? && Unwrap(tensor.dataType, ConstantArgument(b).value).Some?
    ensures r.Pass? ==>
              tensor.ptr[..] == Filled(old(tensor.ptr[..]), GetVolume(tensor.shape), Unwrap(tensor.dataType, ConstantArgument(b).value).value)
    ensures r.Fail? ==> tensor.ptr[..] == old(tensor.ptr[..])
  {
    var arg := ConstantArgument(b);
    if arg.None? {
      return Fail("argument is not a ConstantInitializer");
    }
    r := ConstantInitKernel(tensor, arg.value);
  }

  /** A constant initializer applied to a tensor and then run by its task fills the tensor with
      the initializer's value whenever the value has the tensor's element type. */
  method ApplyThenRunConstant(v: DataTypeValue, guid: nat, p: ParallelTensor, dims: seq<nat>, tensor: TensorAccessorW)
    returns (r: Outcome<string>)
    requires Fits(tensor)
    requires p.syncType != NONE
    modifies tensor.ptr
    ensures r.Pass? <==> Unwrap(tensor.dataType, v).Some?
    ensures r.Pass? ==> tensor.ptr[..] == Filled(old(tensor.ptr[..]), GetVolume(tensor.shape), Unwrap(tensor.dataType, v).value)
    ensures r.Fail? ==> tensor.ptr[..] == old(tensor.ptr[..])
  {
    var inv := ApplyInitializer(ConstantInitializer(v), guid, p, dims);
    r := ConstantInitTask(inv.value.binding, tensor);
  }
}
