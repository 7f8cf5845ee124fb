/**
 * The expression tree the compiler of src/vm.rs consumes (src/ast.rs), with the
 * `Ignored` arm that src/vm.rs matches on: an expression terminated by `;`,
 * whose value is discarded.
 */
module Ast {
  import opened Wrappers

  /** Literals with a runtime value. `Literal::Symbol` has no arm in
      `create_value_from_literal`, so it is not part of this type. */
  datatype Literal =
    | Nil
    | Number(bits: bv64)
    | String(text: string)
    | Boolean(b: bool)

  datatype Expression =
    | Literal(literal: Literal)
    | Ignored(inner: Expression)
    | Parenthesised(items: seq<Expression>)
    | Block(items: seq<Expression>)
    | Assignment(target: string, value: Expression)
    | Call(callee: Expression, arguments: seq<Expression>)
    | Cond(conditions: seq<(Expression, Expression)>, otherwise: Option<Expression>)
    | Function(identifier: Option<string>, parameters: seq<string>, body: seq<Expression>)
    | Symbol(name: string)
}
