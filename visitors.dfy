/**
 * The two Babel visitors run over the synthesized script: `updatePrefix`, which drops the
 * `$` that marks Vue instance members (`$emit`, `$router`, `$refs`), and
 * `updateThisExpression`, which rewrites `this.<name>` into the name of the hoisted
 * binding. Babel mutates the tree in place; here each pass is a function from the tree
 * before the traversal to the tree after it.
 */
module Visitors {
  import opened Base
  import opened Ast

  /** The names `updateThisExpression` is given: `ref` bindings and bare bindings. */
  datatype HoistedDeclarations = HoistedDeclarations(refs: set<string>, reactives: set<string>)

  // ---------------------------------------------------------------------------------
  // updateThisExpression
  // ---------------------------------------------------------------------------------

  /**
   * What `this.<name>` becomes outside a callee position: the bare name for a binding
   * that is not a ref, `<name>.value` for everything else.
   */
  function ThisMemberReplacement(name: string, reactives: set<string>): Node
  {
    if name in reactives then Identifier(name)
    else MemberExpression(Identifier(name), Identifier("value"), false)
  }

  /**
   * The tree after the `MemberExpression` visitor has run over it. A call whose callee is
   * `this.<name>` gets the bare callee `<name>` (the later `replaceWith` on the detached
   * member has no effect on the call); any other `this.<name>` is replaced as above.
   */
  function RewriteThis(n: Node, reactives: set<string>): Node
    decreases n
  {
    match n
    case TemplateLiteral(q, es) => TemplateLiteral(q, RewriteThisSeq(es, reactives))
    case ObjectExpression(ps) => ObjectExpression(RewriteThisSeq(ps, reactives))
    case ObjectProperty(k, v, c) => ObjectProperty(RewriteThis(k, reactives), RewriteThis(v, reactives), c)
    case ObjectMethod(kind, k, ps, b, g, a, rt) =>
      ObjectMethod(kind, RewriteThis(k, reactives), RewriteThisSeq(ps, reactives), RewriteThis(b, reactives),
                   g, a, RewriteThisOpt(rt, reactives))
    case ArrayExpression(es) => ArrayExpression(RewriteThisSeq(es, reactives))
    case FunctionExpression(id, ps, b, g, a, rt) =>
      FunctionExpression(id, RewriteThisSeq(ps, reactives), RewriteThis(b, reactives), g, a,
                         RewriteThisOpt(rt, reactives))
    case ArrowFunctionExpression(ps, b, a, rt) =>
      ArrowFunctionExpression(RewriteThisSeq(ps, reactives), RewriteThis(b, reactives), a,
                              RewriteThisOpt(rt, reactives))
    case CallExpression(c, args) =>
      var callee := if IsThisIdentifierMember(c) then Identifier(c.property.name) else RewriteThis(c, reactives);
      CallExpression(callee, RewriteThisSeq(args, reactives))
    case MemberExpression(o, p, c) =>
      if IsThisIdentifierMember(n) then ThisMemberReplacement(p.name, reactives)
      else MemberExpression(RewriteThis(o, reactives), RewriteThis(p, reactives), c)
    case ExpressionStatement(e) => ExpressionStatement(RewriteThis(e, reactives))
    case TSParameterProperty(p) => TSParameterProperty(RewriteThis(p, reactives))
    case ClassProperty(k, v, ta, ds, cs) =>
      ClassProperty(RewriteThis(k, reactives), RewriteThisOpt(v, reactives), RewriteThisOpt(ta, reactives),
                    RewriteThisSeq(ds, reactives), cs)
    case ClassMethod(kind, k, ps, b, g, a, rt, ds, cs) =>
      ClassMethod(kind, RewriteThis(k, reactives), RewriteThisSeq(ps, reactives), RewriteThis(b, reactives),
                  g, a, RewriteThisOpt(rt, reactives), RewriteThisSeq(ds, reactives), cs)
    case TSTypeAnnotation(t) => TSTypeAnnotation(RewriteThis(t, reactives))
    case TSOtherType(name, ch) => TSOtherType(name, RewriteThisSeq(ch, reactives))
    case OtherNode(kind, ch) => OtherNode(kind, RewriteThisSeq(ch, reactives))
    case _ => n
  }

  function RewriteThisSeq(ns: seq<Node>, reactives: set<string>): (r: seq<Node>)
    decreases ns
    ensures |r| == |ns|
  {
    if ns == [] then [] else [RewriteThis(ns[0], reactives)] + RewriteThisSeq(ns[1..], reactives)
  }

  function RewriteThisOpt(o: Option<Node>, reactives: set<string>): (r: Option<Node>)
    decreases o
    ensures r.Some? <==> o.Some?
  {
    match o
    case None => None
    case Some(n) => Some(RewriteThis(n, reactives))
  }

  /** `traverse(ast, Visitors.updateThisExpression(hoisted))` */
  function UpdateThisExpression(hoisted: HoistedDeclarations, n: Node): Node
  {
    RewriteThis(n, hoisted.reactives)
  }

  predicate NotThisMember(m: Node)
  {
    !IsThisIdentifierMember(m)
  }

  /** Not `this[this.<identifier>]`, the one shape whose rewrite yields a new `this` member. */
  predicate NotThisKeyedByThisMember(m: Node)
  {
    !(m.MemberExpression? && m.obj.ThisExpression? && IsThisIdentifierMember(m.property))
  }

  /** The rewrite yields an identifier only from an identifier or from a `this` member. */
  lemma RewriteThisIdentifier(n: Node, reactives: set<string>)
    ensures RewriteThis(n, reactives).Identifier? ==> n.Identifier? || IsThisIdentifierMember(n)
  {
  }

  /**
   * After the rewrite no `this.<identifier>` is left, provided the tree has no
   * `this[this.<identifier>]`.
   */
  lemma {:induction false} RewriteThisRemovesThisMembers(n: Node, reactives: set<string>)
    requires Everywhere(NotThisKeyedByThisMember, n)
    ensures Everywhere(NotThisMember, RewriteThis(n, reactives))
    decreases n, 1
  {
    match n
    case TemplateLiteral(q, es) =>
      RewriteThisSeqRemovesThisMembers(es, reactives);
    case ObjectExpression(ps) =>
      RewriteThisSeqRemovesThisMembers(ps, reactives);
    case ObjectProperty(k, v, c) =>
      RewriteThisRemovesThisMembers(k, reactives);
      RewriteThisRemovesThisMembers(v, reactives);
    case ArrayExpression(es) =>
      RewriteThisSeqRemovesThisMembers(es, reactives);
    case CallExpression(_, _) => RewriteThisAccessRemovesThisMembers(n, reactives);
    case MemberExpression(_, _, _) => RewriteThisAccessRemovesThisMembers(n, reactives);
    case ExpressionStatement(e) =>
      RewriteThisRemovesThisMembers(e, reactives);
    case TSParameterProperty(p) =>
      RewriteThisRemovesThisMembers(p, reactives);
    case TSTypeAnnotation(t) =>
      RewriteThisRemovesThisMembers(t, reactives);
    case TSOtherType(name, ch) =>
      RewriteThisSeqRemovesThisMembers(ch, reactives);
    case OtherNode(kind, ch) =>
      RewriteThisSeqRemovesThisMembers(ch, reactives);
    case ObjectMethod(_, _, _, _, _, _, _) => RewriteThisFunctionRemovesThisMembers(n, reactives);
    case FunctionExpression(_, _, _, _, _, _) => RewriteThisFunctionRemovesThisMembers(n, reactives);
    case ArrowFunctionExpression(_, _, _, _) => RewriteThisFunctionRemovesThisMembers(n, reactives);
    case ClassProperty(_, _, _, _, _) => RewriteThisClassMemberRemovesThisMembers(n, reactives);
    case ClassMethod(_, _, _, _, _, _, _, _, _) => RewriteThisClassMemberRemovesThisMembers(n, reactives);
    case _ =>
  }

  lemma {:induction false} RewriteThisAccessRemovesThisMembers(n: Node, reactives: set<string>)
    requires n.CallExpression? || n.MemberExpression?
    requires Everywhere(NotThisKeyedByThisMember, n)
    ensures Everywhere(NotThisMember, RewriteThis(n, reactives))
    decreases n, 0
  {
    match n
    case CallExpression(c, args) =>
      if !IsThisIdentifierMember(c) {
        RewriteThisRemovesThisMembers(c, reactives);
      }
      RewriteThisSeqRemovesThisMembers(args, reactives);
    case MemberExpression(o, p, c) =>
      if !IsThisIdentifierMember(n) {
        RewriteThisRemovesThisMembers(o, reactives);
        RewriteThisRemovesThisMembers(p, reactives);
        RewriteThisIdentifier(p, reactives);
      }
  }

  lemma {:induction false} RewriteThisFunctionRemovesThisMembers(n: Node, reactives: set<string>)
    requires n.ObjectMethod? || n.FunctionExpression? || n.ArrowFunctionExpression?
    requires Everywhere(NotThisKeyedByThisMember, n)
    ensures Everywhere(NotThisMember, RewriteThis(n, reactives))
    decreases n, 0
  {
    RewriteThisSeqRemovesThisMembers(n.params, reactives);
    RewriteThisRemovesThisMembers(n.body, reactives);
    RewriteThisOptRemovesThisMembers(n.returnType, reactives);
    if n.ObjectMethod? {
      RewriteThisRemovesThisMembers(n.key, reactives);
    }
  }

  lemma {:induction false} RewriteThisClassMemberRemovesThisMembers(n: Node, reactives: set<string>)
    requires n.ClassProperty? || n.ClassMethod?
    requires Everywhere(NotThisKeyedByThisMember, n)
    ensures Everywhere(NotThisMember, RewriteThis(n, reactives))
    decreases n, 0
  {
    RewriteThisRemovesThisMembers(n.key, reactives);
    RewriteThisSeqRemovesThisMembers(n.decorators, reactives);
    if n.ClassProperty? {
      RewriteThisOptRemovesThisMembers(n.value, reactives);
      RewriteThisOptRemovesThisMembers(n.typeAnnotation, reactives);
    } else {
      RewriteThisSeqRemovesThisMembers(n.params, reactives);
      RewriteThisRemovesThisMembers(n.body, reactives);
      RewriteThisOptRemovesThisMembers(n.returnType, reactives);
    }
  }

  lemma {:induction false} RewriteThisSeqRemovesThisMembers(ns: seq<Node>, reactives: set<string>)
    requires EverywhereSeq(NotThisKeyedByThisMember, ns)
    ensures EverywhereSeq(NotThisMember, RewriteThisSeq(ns, reactives))
    decreases ns, 2
  {
    if ns != [] {
      RewriteThisRemovesThisMembers(ns[0], reactives);
      RewriteThisSeqRemovesThisMembers(ns[1..], reactives);
      var r := RewriteThisSeq(ns, reactives);
      assert r[0] == RewriteThis(ns[0], reactives) && r[1..] == RewriteThisSeq(ns[1..], reactives);
    }
  }

  lemma {:induction false} RewriteThisOptRemovesThisMembers(o: Option<Node>, reactives: set<string>)
    requires EverywhereOpt(NotThisKeyedByThisMember, o)
    ensures EverywhereOpt(NotThisMember, RewriteThisOpt(o, reactives))
    decreases o, 2
  {
    if o.Some? {
      RewriteThisRemovesThisMembers(o.value, reactives);
    }
  }

  /** A tree without `this.<identifier>` members is left as it is. */
  lemma {:induction false} RewriteThisLeavesThisFree(n: Node, reactives: set<string>)
    requires Everywhere(NotThisMember, n)
    ensures RewriteThis(n, reactives) == n
    decreases n, 1
  {
    match n
    case TemplateLiteral(q, es) =>
      RewriteThisSeqLeavesThisFree(es, reactives);
    case ObjectExpression(ps) =>
      RewriteThisSeqLeavesThisFree(ps, reactives);
    case ObjectProperty(k, v, c) =>
      RewriteThisLeavesThisFree(k, reactives);
      RewriteThisLeavesThisFree(v, reactives);
    case ArrayExpression(es) =>
      RewriteThisSeqLeavesThisFree(es, reactives);
    case CallExpression(c, args) =>
      RewriteThisLeavesThisFree(c, reactives);
      RewriteThisSeqLeavesThisFree(args, reactives);
    case MemberExpression(o, p, c) =>
      RewriteThisLeavesThisFree(o, reactives);
      RewriteThisLeavesThisFree(p, reactives);
    case ExpressionStatement(e) =>
      RewriteThisLeavesThisFree(e, reactives);
    case TSParameterProperty(p) =>
      RewriteThisLeavesThisFree(p, reactives);
    case TSTypeAnnotation(t) =>
      RewriteThisLeavesThisFree(t, reactives);
    case TSOtherType(name, ch) =>
      RewriteThisSeqLeavesThisFree(ch, reactives);
    case OtherNode(kind, ch) =>
      RewriteThisSeqLeavesThisFree(ch, reactives);
    case ObjectMethod(kind, k, ps, b, g, a, rt) =>
      RewriteThisLeavesThisFree(k, reactives);
      RewriteThisSeqLeavesThisFree(ps, reactives);
      RewriteThisLeavesThisFree(b, reactives);
      RewriteThisOptLeavesThisFree(rt, reactives);
    case FunctionExpression(id, ps, b, g, a, rt) =>
      RewriteThisSeqLeavesThisFree(ps, reactives);
      RewriteThisLeavesThisFree(b, reactives);
      RewriteThisOptLeavesThisFree(rt, reactives);
    case ArrowFunctionExpression(ps, b, a, rt) =>
      RewriteThisSeqLeavesThisFree(ps, reactives);
      RewriteThisLeavesThisFree(b, reactives);
      RewriteThisOptLeavesThisFree(rt, reactives);
    case ClassProperty(_, _, _, _, _) => RewriteThisClassMemberLeavesThisFree(n, reactives);
    case ClassMethod(_, _, _, _, _, _, _, _, _) => RewriteThisClassMemberLeavesThisFree(n, reactives);
    case _ =>
  }

  lemma {:induction false} RewriteThisClassMemberLeavesThisFree(n: Node, reactives: set<string>)
    requires n.ClassProperty? || n.ClassMethod?
    requires Everywhere(NotThisMember, n)
    ensures RewriteThis(n, reactives) == n
    decreases n, 0
  {
    RewriteThisLeavesThisFree(n.key, reactives);
    RewriteThisSeqLeavesThisFree(n.decorators, reactives);
    if n.ClassProperty? {
      RewriteThisOptLeavesThisFree(n.value, reactives);
      RewriteThisOptLeavesThisFree(n.typeAnnotation, reactives);
    } else {
      RewriteThisSeqLeavesThisFree(n.params, reactives);
      RewriteThisLeavesThisFree(n.body, reactives);
      RewriteThisOptLeavesThisFree(n.returnType, reactives);
    }
  }

  lemma {:induction false} RewriteThisSeqLeavesThisFree(ns: seq<Node>, reactives: set<string>)
    requires EverywhereSeq(NotThisMember, ns)
    ensures RewriteThisSeq(ns, reactives) == ns
    decreases ns, 2
  {
    if ns != [] {
      RewriteThisLeavesThisFree(ns[0], reactives);
      RewriteThisSeqLeavesThisFree(ns[1..], reactives);
      assert ns == [ns[0]] + ns[1..];
    }
  }

  lemma {:induction false} RewriteThisOptLeavesThisFree(o: Option<Node>, reactives: set<string>)
    requires EverywhereOpt(NotThisMember, o)
    ensures RewriteThisOpt(o, reactives) == o
    decreases o, 2
  {
    if o.Some? {
      RewriteThisLeavesThisFree(o.value, reactives);
    }
  }

  /**
   * Running the visitor a second time changes nothing, whatever bindings the second run
   * is given.
   */
  lemma RewriteThisIdempotent(n: Node, reactives: set<string>, others: set<string>)
    requires Everywhere(NotThisKeyedByThisMember, n)
    ensures RewriteThis(RewriteThis(n, reactives), others) == RewriteThis(n, reactives)
  {
    RewriteThisRemovesThisMembers(n, reactives);
    RewriteThisLeavesThisFree(RewriteThis(n, reactives), others);
  }

  // ---------------------------------------------------------------------------------
  // updatePrefix
  // ---------------------------------------------------------------------------------

  /** `name.startsWith('$')` */
  predicate IsMarked(name: string)
  {
    |name| > 0 && name[0] == '$'
  }

  /** The `Identifier` visitor's rename: `name.slice(1)` when the name starts with `$`. */
  function StripMarker(name: string): string
  {
    if IsMarked(name) then name[1..] else name
  }

  /**
   * The tree after the `Identifier` visitor has run over it: every identifier, including
   * the one inside a private name and a function expression's name, loses a leading `$`.
   */
  function UpdatePrefix(n: Node): Node
    decreases n
  {
    match n
    case Identifier(name) => Identifier(StripMarker(name))
    case PrivateName(name) => PrivateName(StripMarker(name))
    case TemplateLiteral(q, es) => TemplateLiteral(q, UpdatePrefixSeq(es))
    case ObjectExpression(ps) => ObjectExpression(UpdatePrefixSeq(ps))
    case ObjectProperty(k, v, c) => ObjectProperty(UpdatePrefix(k), UpdatePrefix(v), c)
    case ObjectMethod(kind, k, ps, b, g, a, rt) =>
      ObjectMethod(kind, UpdatePrefix(k), UpdatePrefixSeq(ps), UpdatePrefix(b), g, a, UpdatePrefixOpt(rt))
    case ArrayExpression(es) => ArrayExpression(UpdatePrefixSeq(es))
    case FunctionExpression(id, ps, b, g, a, rt) =>
      var id' := if id.Some? then Some(StripMarker(id.value)) else None;
      FunctionExpression(id', UpdatePrefixSeq(ps), UpdatePrefix(b), g, a, UpdatePrefixOpt(rt))
    case ArrowFunctionExpression(ps, b, a, rt) =>
      ArrowFunctionExpression(UpdatePrefixSeq(ps), UpdatePrefix(b), a, UpdatePrefixOpt(rt))
    case CallExpression(c, args) => CallExpression(UpdatePrefix(c), UpdatePrefixSeq(args))
    case MemberExpression(o, p, c) => MemberExpression(UpdatePrefix(o), UpdatePrefix(p), c)
    case ExpressionStatement(e) => ExpressionStatement(UpdatePrefix(e))
    case TSParameterProperty(p) => TSParameterProperty(UpdatePrefix(p))
    case ClassProperty(k, v, ta, ds, cs) =>
      ClassProperty(UpdatePrefix(k), UpdatePrefixOpt(v), UpdatePrefixOpt(ta), UpdatePrefixSeq(ds), cs)
    case ClassMethod(kind, k, ps, b, g, a, rt, ds, cs) =>
      ClassMethod(kind, UpdatePrefix(k), UpdatePrefixSeq(ps), UpdatePrefix(b), g, a, UpdatePrefixOpt(rt),
                  UpdatePrefixSeq(ds), cs)
    case TSTypeAnnotation(t) => TSTypeAnnotation(UpdatePrefix(t))
    case TSOtherType(name, ch) => TSOtherType(name, UpdatePrefixSeq(ch))
    case OtherNode(kind, ch) => OtherNode(kind, UpdatePrefixSeq(ch))
    case _ => n
  }

  function UpdatePrefixSeq(ns: seq<Node>): (r: seq<Node>)
    decreases ns
    ensures |r| == |ns|
  {
    if ns == [] then [] else [UpdatePrefix(ns[0])] + UpdatePrefixSeq(ns[1..])
  }

  function UpdatePrefixOpt(o: Option<Node>): (r: Option<Node>)
    decreases o
    ensures r.Some? <==> o.Some?
  {
    match o
    case None => None
    case Some(n) => Some(UpdatePrefix(n))
  }

  /** Not an identifier or private name starting with `$`. */
  predicate Unmarked(m: Node)
  {
    !((m.Identifier? || m.PrivateName?) && IsMarked(m.name))
  }

  /** Not an identifier or private name starting with `$$`. */
  predicate NotDoublyMarked(m: Node)
  {
    !((m.Identifier? || m.PrivateName?) && IsMarked(m.name) && IsMarked(m.name[1..]))
  }

  /** Stripping changes a name exactly when it starts with `$`. */
  lemma StripMarkerFixedIff(name: string)
    ensures StripMarker(name) == name <==> !IsMarked(name)
  {
    if IsMarked(name) {
      assert |StripMarker(name)| < |name|;
    }
  }

  /** The visitor leaves a tree unchanged exactly when no name in it starts with `$`. */
  lemma {:induction false} UpdatePrefixFixedIff(n: Node)
    ensures UpdatePrefix(n) == n <==> Everywhere(Unmarked, n)
    decreases n, 1
  {
    match n
    case Identifier(name) => StripMarkerFixedIff(name);
    case PrivateName(name) => StripMarkerFixedIff(name);
    case TemplateLiteral(q, es) => UpdatePrefixSeqFixedIff(es);
    case ObjectExpression(ps) => UpdatePrefixSeqFixedIff(ps);
    case ObjectProperty(_, _, _) => UpdatePrefixPairFixedIff(n);
    case ArrayExpression(es) => UpdatePrefixSeqFixedIff(es);
    case CallExpression(_, _) => UpdatePrefixPairFixedIff(n);
    case MemberExpression(_, _, _) => UpdatePrefixPairFixedIff(n);
    case ExpressionStatement(e) => UpdatePrefixFixedIff(e);
    case TSParameterProperty(p) => UpdatePrefixFixedIff(p);
    case TSTypeAnnotation(t) => UpdatePrefixFixedIff(t);
    case TSOtherType(name, ch) => UpdatePrefixSeqFixedIff(ch);
    case OtherNode(kind, ch) => UpdatePrefixSeqFixedIff(ch);
    case ObjectMethod(_, _, _, _, _, _, _) => UpdatePrefixFunctionFixedIff(n);
    case FunctionExpression(_, _, _, _, _, _) => UpdatePrefixFunctionFixedIff(n);
    case ArrowFunctionExpression(_, _, _, _) => UpdatePrefixFunctionFixedIff(n);
    case ClassProperty(_, _, _, _, _) => UpdatePrefixClassMemberFixedIff(n);
    case ClassMethod(_, _, _, _, _, _, _, _, _) => UpdatePrefixClassMemberFixedIff(n);
    case _ =>
  }

  lemma {:induction false} UpdatePrefixPairFixedIff(n: Node)
    requires n.ObjectProperty? || n.CallExpression? || n.MemberExpression?
    ensures UpdatePrefix(n) == n <==> Everywhere(Unmarked, n)
    decreases n, 0
  {
    match n
    case ObjectProperty(k, v, c) =>
      UpdatePrefixFixedIff(k);
      UpdatePrefixFixedIff(v);
    case CallExpression(c, args) =>
      UpdatePrefixFixedIff(c);
      UpdatePrefixSeqFixedIff(args);
    case MemberExpression(o, p, c) =>
      UpdatePrefixFixedIff(o);
      UpdatePrefixFixedIff(p);
  }

  lemma {:induction false} UpdatePrefixFunctionFixedIff(n: Node)
    requires n.ObjectMethod? || n.FunctionExpression? || n.ArrowFunctionExpression?
    ensures UpdatePrefix(n) == n <==> Everywhere(Unmarked, n)
    decreases n, 0
  {
    UpdatePrefixSeqFixedIff(n.params);
    UpdatePrefixFixedIff(n.body);
    UpdatePrefixOptFixedIff(n.returnType);
    if n.ObjectMethod? {
      UpdatePrefixFixedIff(n.key);
    } else if n.FunctionExpression? {
      FunctionNameFixedIff(n);
    }
  }

  /** The function-expression case, its own name included. */
  lemma FunctionNameFixedIff(n: Node)
    requires n.FunctionExpression?
    requires UpdatePrefixSeq(n.params) == n.params <==> EverywhereSeq(Unmarked, n.params)
    requires UpdatePrefix(n.body) == n.body <==> Everywhere(Unmarked, n.body)
    requires UpdatePrefixOpt(n.returnType) == n.returnType <==> EverywhereOpt(Unmarked, n.returnType)
    ensures UpdatePrefix(n) == n <==> Everywhere(Unmarked, n)
  {
    if n.id.Some? {
      StripMarkerFixedIff(n.id.value);
    }
  }

  lemma {:induction false} UpdatePrefixClassMemberFixedIff(n: Node)
    requires n.ClassProperty? || n.ClassMethod?
    ensures UpdatePrefix(n) == n <==> Everywhere(Unmarked, n)
    decreases n, 0
  {
    UpdatePrefixFixedIff(n.key);
    UpdatePrefixSeqFixedIff(n.decorators);
    if n.ClassProperty? {
      UpdatePrefixOptFixedIff(n.value);
      UpdatePrefixOptFixedIff(n.typeAnnotation);
    } else {
      UpdatePrefixSeqFixedIff(n.params);
      UpdatePrefixFixedIff(n.body);
      UpdatePrefixOptFixedIff(n.returnType);
    }
  }

  lemma {:induction false} UpdatePrefixSeqFixedIff(ns: seq<Node>)
    ensures UpdatePrefixSeq(ns) == ns <==> EverywhereSeq(Unmarked, ns)
    decreases ns, 2
  {
    if ns != [] {
      UpdatePrefixFixedIff(ns[0]);
      UpdatePrefixSeqFixedIff(ns[1..]);
      var r := UpdatePrefixSeq(ns);
      assert r[0] == UpdatePrefix(ns[0]) && r[1..] == UpdatePrefixSeq(ns[1..]);
      assert ns == [ns[0]] + ns[1..];
    }
  }

  lemma {:induction false} UpdatePrefixOptFixedIff(o: Option<Node>)
    ensures UpdatePrefixOpt(o) == o <==> EverywhereOpt(Unmarked, o)
    decreases o, 2
  {
    if o.Some? {
      UpdatePrefixFixedIff(o.value);
    }
  }

  /** Without names starting with `$$`, no name of the result starts with `$`. */
  lemma {:induction false} UpdatePrefixRemovesMarkers(n: Node)
    requires Everywhere(NotDoublyMarked, n)
    ensures Everywhere(Unmarked, UpdatePrefix(n))
    decreases n, 1
  {
    match n
    case TemplateLiteral(q, es) => UpdatePrefixSeqRemovesMarkers(es);
    case ObjectExpression(ps) => UpdatePrefixSeqRemovesMarkers(ps);
    case ObjectProperty(_, _, _) => UpdatePrefixPairRemovesMarkers(n);
    case ArrayExpression(es) => UpdatePrefixSeqRemovesMarkers(es);
    case CallExpression(_, _) => UpdatePrefixPairRemovesMarkers(n);
    case MemberExpression(_, _, _) => UpdatePrefixPairRemovesMarkers(n);
    case ExpressionStatement(e) => UpdatePrefixRemovesMarkers(e);
    case TSParameterProperty(p) => UpdatePrefixRemovesMarkers(p);
    case TSTypeAnnotation(t) => UpdatePrefixRemovesMarkers(t);
    case TSOtherType(name, ch) => UpdatePrefixSeqRemovesMarkers(ch);
    case OtherNode(kind, ch) => UpdatePrefixSeqRemovesMarkers(ch);
    case ObjectMethod(_, _, _, _, _, _, _) => UpdatePrefixFunctionRemovesMarkers(n);
    case FunctionExpression(_, _, _, _, _, _) => UpdatePrefixFunctionRemovesMarkers(n);
    case ArrowFunctionExpression(_, _, _, _) => UpdatePrefixFunctionRemovesMarkers(n);
    case ClassProperty(_, _, _, _, _) => UpdatePrefixClassMemberRemovesMarkers(n);
    case ClassMethod(_, _, _, _, _, _, _, _, _) => UpdatePrefixClassMemberRemovesMarkers(n);
    case _ =>
  }

  lemma {:induction false} UpdatePrefixPairRemovesMarkers(n: Node)
    requires n.ObjectProperty? || n.CallExpression? || n.MemberExpression?
    requires Everywhere(NotDoublyMarked, n)
    ensures Everywhere(Unmarked, UpdatePrefix(n))
    decreases n, 0
  {
    match n
    case ObjectProperty(k, v, c) =>
      UpdatePrefixRemovesMarkers(k);
      UpdatePrefixRemovesMarkers(v);
    case CallExpression(c, args) =>
      UpdatePrefixRemovesMarkers(c);
      UpdatePrefixSeqRemovesMarkers(args);
    case MemberExpression(o, p, c) =>
      UpdatePrefixRemovesMarkers(o);
      UpdatePrefixRemovesMarkers(p);
  }

  lemma {:induction false} UpdatePrefixFunctionRemovesMarkers(n: Node)
    requires n.ObjectMethod? || n.FunctionExpression? || n.ArrowFunctionExpression?
    requires Everywhere(NotDoublyMarked, n)
    ensures Everywhere(Unmarked, UpdatePrefix(n))
    decreases n, 0
  {
    UpdatePrefixSeqRemovesMarkers(n.params);
    UpdatePrefixRemovesMarkers(n.body);
    UpdatePrefixOptRemovesMarkers(n.returnType);
    if n.ObjectMethod? {
      UpdatePrefixRemovesMarkers(n.key);
    }
  }

  lemma {:induction false} UpdatePrefixClassMemberRemovesMarkers(n: Node)
    requires n.ClassProperty? || n.ClassMethod?
    requires Everywhere(NotDoublyMarked, n)
    ensures Everywhere(Unmarked, UpdatePrefix(n))
    decreases n, 0
  {
    UpdatePrefixRemovesMarkers(n.key);
    UpdatePrefixSeqRemovesMarkers(n.decorators);
    if n.ClassProperty? {
      UpdatePrefixOptRemovesMarkers(n.value);
      UpdatePrefixOptRemovesMarkers(n.typeAnnotation);
    } else {
      UpdatePrefixSeqRemovesMarkers(n.params);
      UpdatePrefixRemovesMarkers(n.body);
      UpdatePrefixOptRemovesMarkers(n.returnType);
    }
  }

  lemma {:induction false} UpdatePrefixSeqRemovesMarkers(ns: seq<Node>)
    requires EverywhereSeq(NotDoublyMarked, ns)
    ensures EverywhereSeq(Unmarked, UpdatePrefixSeq(ns))
    decreases ns, 2
  {
    if ns != [] {
      UpdatePrefixRemovesMarkers(ns[0]);
      UpdatePrefixSeqRemovesMarkers(ns[1..]);
      var r := UpdatePrefixSeq(ns);
      assert r[0] == UpdatePrefix(ns[0]) && r[1..] == UpdatePrefixSeq(ns[1..]);
    }
  }

  lemma {:induction false} UpdatePrefixOptRemovesMarkers(o: Option<Node>)
    requires EverywhereOpt(NotDoublyMarked, o)
    ensures EverywhereOpt(Unmarked, UpdatePrefixOpt(o))
    decreases o, 2
  {
    if o.Some? {
      UpdatePrefixRemovesMarkers(o.value);
    }
  }

  /** Without names starting with `$$`, a second run of the visitor changes nothing. */
  lemma UpdatePrefixIdempotent(n: Node)
    requires Everywhere(NotDoublyMarked, n)
    ensures UpdatePrefix(UpdatePrefix(n)) == UpdatePrefix(n)
  {
    UpdatePrefixRemovesMarkers(n);
    UpdatePrefixFixedIff(UpdatePrefix(n));
  }
}
