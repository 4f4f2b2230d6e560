/** Enumerations and constants that several components of the engine share: tensor element
    types, the three inference modes, the supported model families and the fused projection
    count. */
module FFConst {

  datatype DataType =
    | DT_BOOLEAN | DT_INT32 | DT_INT64 | DT_HALF | DT_FLOAT | DT_DOUBLE
    | DT_INT4 | DT_INT8 | DT_NONE

  datatype InferenceMode = INC_DECODING_MODE | BEAM_SEARCH_MODE | TREE_VERIFY_MODE

  datatype ModelType = UNKNOWN | LLAMA | OPT | FALCON | STARCODER | MPT

  /** Number of projections fused per token: query, key and value. */
  const QKV_WEIGHT_NUM: nat := 3
}
