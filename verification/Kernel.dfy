/** Procedure bodies of the kernel dialect: operations whose operands name their defining operation. */
module Kernel {
  import opened Wrappers
  import opened Expr

  /** An SSA value: the index of its defining operation, or an index past the end for none. */
  type Value = nat

  datatype Entry = Entry(
    name: string,
    ledger: string,
    party: Value,
    amount: Value,
    currency: Value,
    idempotencyKey: Value,
    guard: Option<ExprNode>)

  datatype Op =
    | Const(text: string)
    | Input(symName: string, ty: string)
    | Compute(symName: string, deps: seq<Value>, ast: ExprNode)
    | Debit(entry: Entry)
    | Credit(entry: Entry)
    | AssertBalanced
    | Attest(policyInput: string)
    | OtherOp

  function OpOf(ops: seq<Op>, v: Value): Op {
    if v < |ops| then ops[v] else OtherOp
  }

  /** The identity of an operand by its defining operation. */
  function OperandKey(ops: seq<Op>, v: Value): string {
    match OpOf(ops, v)
    case Const(text) => "lit:" + text
    case Input(name, _) => "ref:" + name
    case Compute(name, _, _) => "ref:" + name
    case _ => "ssa"
  }
}
