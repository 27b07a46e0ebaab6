/**
 * The entity records the extractor produces (one datatype per `kind` tag), the
 * transpiler options, and the collaborators the core is given: Babel's code printer and
 * parser, and the formatter.
 */
module Types {
  import opened Base
  import opened Ast

  type FunctionExpressionNode = n: Node | n.FunctionExpression?
    witness FunctionExpression(None, [], NullLiteral, false, false, None)

  type ArrowFunctionNode = n: Node | n.ArrowFunctionExpression?
    witness ArrowFunctionExpression([], NullLiteral, false, None)

  /** What a prop validator may be: a function expression or an object method. */
  type ValidatorNode = n: Node | n.FunctionExpression? || n.ObjectMethod?
    witness FunctionExpression(None, [], NullLiteral, false, false, None)

  /** `'ref' | 'reactive'` */
  datatype ReactiveType = Ref | Reactive

  function ReactiveTypeName(t: ReactiveType): string
  {
    match t
    case Ref => "ref"
    case Reactive => "reactive"
  }

  /** kind 'Composable' */
  datatype VueComposable = VueComposable(identifier: string, funcName: string)

  /** kind 'Prop' */
  datatype VueProp = VueProp(identifier: string, declaredType: Option<Node>, required: bool,
                             defaultValue: Option<Node>, validator: Option<ValidatorNode>,
                             comments: seq<Comment>)

  /** kind 'Emit': at most one payload argument */
  datatype VueEmit = VueEmit(identifier: string, argNode: Option<Node>)

  /** kind 'Reactive' */
  datatype VueReactive = VueReactive(identifier: string, reactiveType: ReactiveType,
                                     declaredType: Option<Node>, value: Option<Node>,
                                     comments: seq<Comment>)

  /** kind 'Function' */
  datatype VueFunction = VueFunction(identifier: string, func: FunctionExpressionNode,
                                     isLifecycleFunction: bool, comments: seq<Comment>)

  /** kind 'Computed' */
  datatype VueComputed = VueComputed(identifier: string, declaredType: Option<Node>,
                                     func: ArrowFunctionNode, comments: seq<Comment>)

  /** What `processProperty` may classify a class field as. */
  datatype FieldEntity = ReactiveField(reactive: VueReactive) | PropField(prop: VueProp)

  /** `TranspilerOptions`; an absent flag is `false`. */
  datatype TranspilerOptions = TranspilerOptions(inferTypes: bool, showComments: bool)

  /**
   * Babel's `generate(node).code`. Its layout is not modelled; the one fact used is that
   * every node prints as some non-empty text.
   */
  type Printer = gen: Node -> string | forall n :: gen(n) != ""
    witness (n: Node) => "_"

  /** Babel's `parse`, which throws a `SyntaxError` on malformed input. */
  type Parser = string -> Result<Node>

  /** `IFormatter.format`, which may throw. */
  type Formatter = string -> Result<string>
}
