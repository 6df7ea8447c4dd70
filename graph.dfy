/** Symbolic terms standing for the tensor expressions the encoders build in
    the external computation graph.  No value is ever computed: a term only
    records which operation was applied to which operands, so that the
    model can state what is fed where, in which order and with which shape. */
module Graph {

  /** Identity of a computation graph (the source compares graph addresses). */
  type GraphId = nat

  /** The trainable parameters the attention scorer and the bridge index. */
  datatype ParamName = EhidHW | EhidStateW | EEhidW | Enc2DecW | Enc2DecB

  datatype Expr =
    | Unset                                   // a default-constructed expression
    | Hidden(width: nat, fed: seq<seq<int>>)  // recurrent output after feeding these id vectors
    | Param(name: ParamName, graph: GraphId)  // `parameter(cg, p)`
    | Concat(parts: seq<Expr>)                // `concatenate`, stacking rows
    | ConcatCols(cols: seq<Expr>)             // `concatenate_cols`
    | Ones(n: nat)                            // the `{1, n}` input of 1.0 values
    | MatMul(a: Expr, b: Expr)
    | Transpose(a: Expr)
    | Tanh(a: Expr)
    | Softmax(a: Expr)
    | Affine(terms: seq<Expr>)                // `affine_transform`
    | PickRange(a: Expr, lo: nat, hi: nat)    // `pickrange`, rows [lo, hi)
    | NegLogSoftmax(a: Expr, word: int)       // the class-factored builder's `neg_log_softmax`

  /** Row count of a stacked hidden vector; zero for terms it is not defined on. */
  function Width(e: Expr): nat
  {
    match e
    case Hidden(w, _) => w
    case Concat(parts) => SumWidths(parts)
    case _ => 0
  }

  function SumWidths(parts: seq<Expr>): nat
    decreases parts
  {
    if parts == [] then 0 else SumWidths(parts[..|parts| - 1]) + Width(parts[|parts| - 1])
  }
}
