/**
 * The part of Babel's syntax tree the transpiler inspects or builds. Node kinds the
 * transpiler never distinguishes are `OtherNode` (any expression, statement or
 * declaration) and `TSOtherType` (any TypeScript type that is not a base type); they
 * keep their children so that traversals still reach every node.
 */
module Ast {
  import opened Base

  datatype Comment = CommentBlock(text: string) | CommentLine(text: string)

  /** `ClassMethod.kind` and `ObjectMethod.kind` */
  datatype MethodKind = Constructor | Method | Get | Set

  datatype Node =
    | StringLiteral(strValue: string)
    | NumericLiteral(numValue: int)
    | BooleanLiteral(boolValue: bool)
    | NullLiteral
    | TemplateLiteral(quasis: seq<string>, expressions: seq<Node>)
      /** RegExpLiteral, BigIntLiteral, DecimalLiteral */
    | OtherLiteral(raw: string)
    | Identifier(name: string)
    | PrivateName(name: string)
    | ThisExpression
    | ObjectExpression(properties: seq<Node>)
    | ObjectProperty(key: Node, propValue: Node, computed: bool)
    | ObjectMethod(kind: MethodKind, key: Node, params: seq<Node>, body: Node,
                   generator: bool, async: bool, returnType: Option<Node>)
    | ArrayExpression(elements: seq<Node>)
    | FunctionExpression(id: Option<string>, params: seq<Node>, body: Node,
                         generator: bool, async: bool, returnType: Option<Node>)
    | ArrowFunctionExpression(params: seq<Node>, body: Node, async: bool, returnType: Option<Node>)
    | CallExpression(callee: Node, arguments: seq<Node>)
    | MemberExpression(obj: Node, property: Node, computed: bool)
    | ExpressionStatement(expression: Node)
    | TSParameterProperty(parameter: Node)
      /** A class field; `decorators` holds each decorator's expression. */
    | ClassProperty(key: Node, value: Option<Node>, typeAnnotation: Option<Node>,
                    decorators: seq<Node>, leadingComments: seq<Comment>)
    | ClassMethod(kind: MethodKind, key: Node, params: seq<Node>, body: Node,
                  generator: bool, async: bool, returnType: Option<Node>,
                  decorators: seq<Node>, leadingComments: seq<Comment>)
    | TSTypeAnnotation(tsType: Node)
      /** A TypeScript keyword type (`string`, `number`, `void`, ...), `this` or a literal type */
    | TSBaseType(keyword: string)
    | TSOtherType(typeName: string, children: seq<Node>)
    | OtherNode(nodeType: string, children: seq<Node>)

  /** `t.isLiteral`: string, numeric, null, boolean, template, regexp, bigint and decimal literals. */
  predicate IsLiteral(n: Node)
  {
    n.StringLiteral? || n.NumericLiteral? || n.BooleanLiteral? || n.NullLiteral?
    || n.TemplateLiteral? || n.OtherLiteral?
  }

  /** `t.isTSType(n) || t.isTSTypeAnnotation(n)` */
  predicate IsTSTypeOrAnnotation(n: Node)
  {
    n.TSTypeAnnotation? || n.TSBaseType? || n.TSOtherType?
  }

  /** `this.<identifier>`, computed or not */
  predicate IsThisIdentifierMember(n: Node)
  {
    n.MemberExpression? && n.obj.ThisExpression? && n.property.Identifier?
  }

  /**
   * Every node of the tree in the order Babel's `traverse` enters them: the node, then
   * its children in source order (so a class field's decorators come before its key,
   * its type annotation and its initializer).
   */
  function Preorder(n: Node): seq<Node>
    decreases n
  {
    [n] + match n
      case TemplateLiteral(_, es) => PreorderSeq(es)
      case ObjectExpression(ps) => PreorderSeq(ps)
      case ObjectProperty(k, v, _) => Preorder(k) + Preorder(v)
      case ObjectMethod(_, k, ps, b, _, _, rt) => Preorder(k) + PreorderSeq(ps) + PreorderOpt(rt) + Preorder(b)
      case ArrayExpression(es) => PreorderSeq(es)
      case FunctionExpression(id, ps, b, _, _, rt) =>
        (if id.Some? then [Identifier(id.value)] else []) + PreorderSeq(ps) + PreorderOpt(rt) + Preorder(b)
      case ArrowFunctionExpression(ps, b, _, rt) => PreorderSeq(ps) + PreorderOpt(rt) + Preorder(b)
      case CallExpression(c, args) => Preorder(c) + PreorderSeq(args)
      case MemberExpression(o, p, _) => Preorder(o) + Preorder(p)
      case ExpressionStatement(e) => Preorder(e)
      case TSParameterProperty(p) => Preorder(p)
      case ClassProperty(k, v, ta, ds, _) => PreorderSeq(ds) + Preorder(k) + PreorderOpt(ta) + PreorderOpt(v)
      case ClassMethod(_, k, ps, b, _, _, rt, ds, _) =>
        PreorderSeq(ds) + Preorder(k) + PreorderSeq(ps) + PreorderOpt(rt) + Preorder(b)
      case TSTypeAnnotation(t) => Preorder(t)
      case TSOtherType(_, cs) => PreorderSeq(cs)
      case OtherNode(_, cs) => PreorderSeq(cs)
      case _ => []
  }

  function PreorderSeq(ns: seq<Node>): seq<Node>
    decreases ns
  {
    if ns == [] then [] else Preorder(ns[0]) + PreorderSeq(ns[1..])
  }

  function PreorderOpt(o: Option<Node>): seq<Node>
    decreases o
  {
    match o
    case None => []
    case Some(n) => Preorder(n)
  }

  /** The nodes a `path.traverse` from `n` visits: all nodes strictly below `n`. */
  function Descendants(n: Node): seq<Node>
  {
    Preorder(n)[1..]
  }

  /**
   * `p` holds at every node of the tree, the nodes being those `Preorder` lists: the
   * node itself and, recursively, every child.
   */
  predicate Everywhere(p: Node -> bool, n: Node)
    decreases n
  {
    p(n) && match n
      case TemplateLiteral(_, es) => EverywhereSeq(p, es)
      case ObjectExpression(ps) => EverywhereSeq(p, ps)
      case ObjectProperty(k, v, _) => Everywhere(p, k) && Everywhere(p, v)
      case ObjectMethod(_, k, ps, b, _, _, rt) =>
        Everywhere(p, k) && EverywhereSeq(p, ps) && EverywhereOpt(p, rt) && Everywhere(p, b)
      case ArrayExpression(es) => EverywhereSeq(p, es)
      case FunctionExpression(id, ps, b, _, _, rt) =>
        (id.Some? ==> p(Identifier(id.value))) && EverywhereSeq(p, ps) && EverywhereOpt(p, rt) && Everywhere(p, b)
      case ArrowFunctionExpression(ps, b, _, rt) => EverywhereSeq(p, ps) && EverywhereOpt(p, rt) && Everywhere(p, b)
      case CallExpression(c, args) => Everywhere(p, c) && EverywhereSeq(p, args)
      case MemberExpression(o, q, _) => Everywhere(p, o) && Everywhere(p, q)
      case ExpressionStatement(e) => Everywhere(p, e)
      case TSParameterProperty(q) => Everywhere(p, q)
      case ClassProperty(k, v, ta, ds, _) =>
        EverywhereSeq(p, ds) && Everywhere(p, k) && EverywhereOpt(p, ta) && EverywhereOpt(p, v)
      case ClassMethod(_, k, ps, b, _, _, rt, ds, _) =>
        EverywhereSeq(p, ds) && Everywhere(p, k) && EverywhereSeq(p, ps) && EverywhereOpt(p, rt) && Everywhere(p, b)
      case TSTypeAnnotation(t) => Everywhere(p, t)
      case TSOtherType(_, cs) => EverywhereSeq(p, cs)
      case OtherNode(_, cs) => EverywhereSeq(p, cs)
      case _ => true
  }

  predicate EverywhereSeq(p: Node -> bool, ns: seq<Node>)
    decreases ns
  {
    ns == [] || (Everywhere(p, ns[0]) && EverywhereSeq(p, ns[1..]))
  }

  predicate EverywhereOpt(p: Node -> bool, o: Option<Node>)
    decreases o
  {
    o.Some? ==> Everywhere(p, o.value)
  }

  /** `p` holds at every element of `s`. */
  predicate AllOf(p: Node -> bool, s: seq<Node>)
  {
    forall i :: 0 <= i < |s| ==> p(s[i])
  }

  lemma AllOfAppend(p: Node -> bool, a: seq<Node>, b: seq<Node>)
    ensures AllOf(p, a + b) <==> AllOf(p, a) && AllOf(p, b)
  {
    var s := a + b;
    if AllOf(p, s) {
      forall i | 0 <= i < |a| ensures p(a[i]) {
        assert s[i] == a[i];
      }
      forall i | 0 <= i < |b| ensures p(b[i]) {
        assert s[|a| + i] == b[i];
      }
    }
    if AllOf(p, a) && AllOf(p, b) {
      forall i | 0 <= i < |s| ensures p(s[i]) {
        if i < |a| {
          assert s[i] == a[i];
        } else {
          assert s[i] == b[i - |a|];
        }
      }
    }
  }

  lemma AllOfCons(p: Node -> bool, n: Node, rest: seq<Node>)
    ensures AllOf(p, [n] + rest) <==> p(n) && AllOf(p, rest)
  {
    AllOfAppend(p, [n], rest);
    if p(n) {
      forall i | 0 <= i < 1 ensures p([n][i]) {
        assert [n][i] == n;
      }
    }
    if AllOf(p, [n]) {
      assert [n][0] == n;
    }
  }

  /** `Everywhere` is the property of every node `Preorder` enumerates. */
  lemma {:induction false} EverywherePreorder(p: Node -> bool, n: Node)
    ensures Everywhere(p, n) <==> AllOf(p, Preorder(n))
    decreases n, 1
  {
    match n
    case TemplateLiteral(_, es) =>
      EverywherePreorderSeq(p, es);
      AllOfCons(p, n, PreorderSeq(es));
    case ObjectExpression(ps) =>
      EverywherePreorderSeq(p, ps);
      AllOfCons(p, n, PreorderSeq(ps));
    case ObjectProperty(k, v, _) =>
      EverywherePreorder(p, k);
      EverywherePreorder(p, v);
      AllOfCons(p, n, Preorder(k) + Preorder(v));
      AllOfAppend(p, Preorder(k), Preorder(v));
    case ArrayExpression(es) =>
      EverywherePreorderSeq(p, es);
      AllOfCons(p, n, PreorderSeq(es));
    case CallExpression(c, args) =>
      EverywherePreorder(p, c);
      EverywherePreorderSeq(p, args);
      AllOfCons(p, n, Preorder(c) + PreorderSeq(args));
      AllOfAppend(p, Preorder(c), PreorderSeq(args));
    case MemberExpression(o, q, _) =>
      EverywherePreorder(p, o);
      EverywherePreorder(p, q);
      AllOfCons(p, n, Preorder(o) + Preorder(q));
      AllOfAppend(p, Preorder(o), Preorder(q));
    case ExpressionStatement(e) =>
      EverywherePreorder(p, e);
      AllOfCons(p, n, Preorder(e));
    case TSParameterProperty(q) =>
      EverywherePreorder(p, q);
      AllOfCons(p, n, Preorder(q));
    case TSTypeAnnotation(t) =>
      EverywherePreorder(p, t);
      AllOfCons(p, n, Preorder(t));
    case TSOtherType(_, cs) =>
      EverywherePreorderSeq(p, cs);
      AllOfCons(p, n, PreorderSeq(cs));
    case OtherNode(_, cs) =>
      EverywherePreorderSeq(p, cs);
      AllOfCons(p, n, PreorderSeq(cs));
    case ObjectMethod(_, _, _, _, _, _, _) => EverywherePreorderFunction(p, n);
    case FunctionExpression(_, _, _, _, _, _) => EverywherePreorderFunction(p, n);
    case ArrowFunctionExpression(_, _, _, _) => EverywherePreorderFunction(p, n);
    case ClassProperty(_, _, _, _, _) => EverywherePreorderClassMember(p, n);
    case ClassMethod(_, _, _, _, _, _, _, _, _) => EverywherePreorderClassMember(p, n);
    case _ =>
      AllOfCons(p, n, []);
      assert Preorder(n) == [n] + [];
  }

  /** The bridge for object methods, function expressions and arrow functions. */
  lemma {:induction false} EverywherePreorderFunction(p: Node -> bool, n: Node)
    requires n.ObjectMethod? || n.FunctionExpression? || n.ArrowFunctionExpression?
    ensures Everywhere(p, n) <==> AllOf(p, Preorder(n))
    decreases n, 0
  {
    EverywherePreorderSeq(p, n.params);
    EverywherePreorderOpt(p, n.returnType);
    EverywherePreorder(p, n.body);
    if n.ObjectMethod? {
      EverywherePreorder(p, n.key);
      ObjectMethodPreorder(p, n);
    } else if n.FunctionExpression? {
      FunctionExpressionPreorder(p, n);
    } else {
      AllOfCons(p, n, PreorderSeq(n.params) + PreorderOpt(n.returnType) + Preorder(n.body));
      Append3(p, PreorderSeq(n.params), PreorderOpt(n.returnType), Preorder(n.body));
    }
  }

  lemma ObjectMethodPreorder(p: Node -> bool, n: Node)
    requires n.ObjectMethod?
    ensures AllOf(p, Preorder(n)) <==>
              p(n) && AllOf(p, Preorder(n.key)) && AllOf(p, PreorderSeq(n.params))
              && AllOf(p, PreorderOpt(n.returnType)) && AllOf(p, Preorder(n.body))
  {
    AllOfCons(p, n, Preorder(n.key) + PreorderSeq(n.params) + PreorderOpt(n.returnType) + Preorder(n.body));
    Append4(p, Preorder(n.key), PreorderSeq(n.params), PreorderOpt(n.returnType), Preorder(n.body));
  }

  lemma FunctionExpressionPreorder(p: Node -> bool, n: Node)
    requires n.FunctionExpression?
    ensures AllOf(p, Preorder(n)) <==>
              p(n) && (n.id.Some? ==> p(Identifier(n.id.value))) && AllOf(p, PreorderSeq(n.params))
              && AllOf(p, PreorderOpt(n.returnType)) && AllOf(p, Preorder(n.body))
  {
    var ids := if n.id.Some? then [Identifier(n.id.value)] else [];
    if n.id.Some? {
      AllOfCons(p, Identifier(n.id.value), []);
      assert ids == [Identifier(n.id.value)] + [];
    }
    AllOfCons(p, n, ids + PreorderSeq(n.params) + PreorderOpt(n.returnType) + Preorder(n.body));
    Append4(p, ids, PreorderSeq(n.params), PreorderOpt(n.returnType), Preorder(n.body));
  }

  /** The bridge for class fields and class methods. */
  lemma {:induction false} EverywherePreorderClassMember(p: Node -> bool, n: Node)
    requires n.ClassProperty? || n.ClassMethod?
    ensures Everywhere(p, n) <==> AllOf(p, Preorder(n))
    decreases n, 0
  {
    EverywherePreorderSeq(p, n.decorators);
    EverywherePreorder(p, n.key);
    if n.ClassProperty? {
      EverywherePreorderOpt(p, n.typeAnnotation);
      EverywherePreorderOpt(p, n.value);
      ClassPropertyPreorder(p, n);
    } else {
      EverywherePreorderSeq(p, n.params);
      EverywherePreorderOpt(p, n.returnType);
      EverywherePreorder(p, n.body);
      ClassMethodPreorder(p, n);
    }
  }

  lemma ClassPropertyPreorder(p: Node -> bool, n: Node)
    requires n.ClassProperty?
    ensures AllOf(p, Preorder(n)) <==>
              p(n) && AllOf(p, PreorderSeq(n.decorators)) && AllOf(p, Preorder(n.key))
              && AllOf(p, PreorderOpt(n.typeAnnotation)) && AllOf(p, PreorderOpt(n.value))
  {
    AllOfCons(p, n, PreorderSeq(n.decorators) + Preorder(n.key) + PreorderOpt(n.typeAnnotation) + PreorderOpt(n.value));
    Append4(p, PreorderSeq(n.decorators), Preorder(n.key), PreorderOpt(n.typeAnnotation), PreorderOpt(n.value));
  }

  lemma ClassMethodPreorder(p: Node -> bool, n: Node)
    requires n.ClassMethod?
    ensures AllOf(p, Preorder(n)) <==>
              p(n) && AllOf(p, PreorderSeq(n.decorators)) && AllOf(p, Preorder(n.key))
              && AllOf(p, PreorderSeq(n.params)) && AllOf(p, PreorderOpt(n.returnType))
              && AllOf(p, Preorder(n.body))
  {
    var head := PreorderSeq(n.decorators) + Preorder(n.key) + PreorderSeq(n.params) + PreorderOpt(n.returnType);
    AllOfCons(p, n, head + Preorder(n.body));
    AllOfAppend(p, head, Preorder(n.body));
    Append4(p, PreorderSeq(n.decorators), Preorder(n.key), PreorderSeq(n.params), PreorderOpt(n.returnType));
  }

  lemma {:induction false} EverywherePreorderSeq(p: Node -> bool, ns: seq<Node>)
    ensures EverywhereSeq(p, ns) <==> AllOf(p, PreorderSeq(ns))
    decreases ns, 2
  {
    if ns != [] {
      EverywherePreorder(p, ns[0]);
      EverywherePreorderSeq(p, ns[1..]);
      AllOfAppend(p, Preorder(ns[0]), PreorderSeq(ns[1..]));
    }
  }

  lemma {:induction false} EverywherePreorderOpt(p: Node -> bool, o: Option<Node>)
    ensures EverywhereOpt(p, o) <==> AllOf(p, PreorderOpt(o))
    decreases o, 2
  {
    if o.Some? {
      EverywherePreorder(p, o.value);
    }
  }

  lemma Append3(p: Node -> bool, a: seq<Node>, b: seq<Node>, c: seq<Node>)
    ensures AllOf(p, a + b + c) <==> AllOf(p, a) && AllOf(p, b) && AllOf(p, c)
  {
    AllOfAppend(p, a + b, c);
    AllOfAppend(p, a, b);
  }

  lemma Append4(p: Node -> bool, a: seq<Node>, b: seq<Node>, c: seq<Node>, d: seq<Node>)
    ensures AllOf(p, a + b + c + d) <==> AllOf(p, a) && AllOf(p, b) && AllOf(p, c) && AllOf(p, d)
  {
    AllOfAppend(p, a + b + c, d);
    Append3(p, a, b, c);
  }
}
