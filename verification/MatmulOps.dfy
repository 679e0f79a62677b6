/** The buffers a matmul op names: operands, fused epilogue operands, fused
    RMSNorm weight, and the fused store destination. */
module MatmulOps {
  import opened Prelude

  type Handle = nat

  /** Where the output row goes: to C, rotated into C, or scattered into a
      KV cache (the scatter modes never touch C). */
  datatype Store =
    | NoStore
    | RopeStore(ropeTable: Handle)
    | ScatterStore(scatterDst: Handle)
    | RopeScatterStore(scatterTable: Handle, ropeDst: Handle)
  {
    function Table(): Option<Handle> {
      match this
      case RopeStore(t) => Some(t)
      case RopeScatterStore(t, _) => Some(t)
      case _ => None
    }

    function Dst(): Option<Handle> {
      match this
      case ScatterStore(d) => Some(d)
      case RopeScatterStore(_, d) => Some(d)
      case _ => None
    }
  }

  datatype MatmulOp = MatmulOp(
    a: Handle, b: Handle, c: Handle,
    accumulate: bool, bias: Option<Handle>,
    d: Option<Handle>, normWeight: Option<Handle>,
    store: Store)
  {
    /** Neither fused nor accumulating: the form that may route to split-K. */
    predicate IsPlain() {
      !accumulate && bias.None? && d.None? && normWeight.None? && store.NoStore?
    }
  }

  function OptSeq<T>(x: Option<T>): seq<T> {
    match x
    case None => []
    case Some(v) => [v]
  }
}
