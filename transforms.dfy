/** `funcExpressionToArrowFuncExpression` */
module Transforms {
  import opened Base
  import opened Ast
  import opened Types

  /** A function expression turned into an arrow: same parameters, body, `async` flag and return type. */
  function FuncExpressionToArrowFuncExpression(func: FunctionExpressionNode): (r: ArrowFunctionNode)
    ensures r.params == func.params && r.body == func.body
    ensures r.async == func.async && r.returnType == func.returnType
  {
    ArrowFunctionExpression(func.params, func.body, func.async, func.returnType)
  }

  /** The function's name and its generator flag do not survive the conversion. */
  lemma ArrowForgetsNameAndGenerator(func: FunctionExpressionNode, id: Option<string>, generator: bool)
    ensures FuncExpressionToArrowFuncExpression(func.(id := id, generator := generator))
         == FuncExpressionToArrowFuncExpression(func)
  {
  }
}
