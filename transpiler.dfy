/**
 * The driver, `Transpiler.traverse`: one traversal of the parsed class collects the entity
 * records, the templates turn them into a script, the script is parsed again and run
 * through the two rewriting visitors, and the printed result is handed to the formatter.
 * Anything thrown along the way becomes an error result.
 */
module Transpiler {
  import opened Base
  import opened Ast
  import opened Types
  import opened JsText
  import opened Helpers
  import opened Templates
  import opened Visitors

  /** The records the traversal collects, each list in the order the nodes are entered. */
  datatype Extraction = Extraction(funcs: seq<VueFunction>, computeds: seq<VueComputed>,
                                   reactives: seq<VueReactive>, props: seq<VueProp>,
                                   emits: seq<VueEmit>, composables: seq<VueComposable>)

  const NoRecords := Extraction([], [], [], [], [], [])

  /** The composable a `this.$router` access asks for. */
  const RouterComposable := VueComposable("router", "useRouter")

  predicate IsRouterAccess(n: Node)
  {
    IsThisIdentifierMember(n) && n.property.name == "$router"
  }

  /** What the four visitors of the collecting traversal do on entering one node. */
  function Visit(x: Extraction, n: Node): Result<Extraction>
  {
    match n
    case ClassProperty(_, _, _, _, _) =>
      (match PropertyOf(n)
       case Err(e) => Err(e)
       case Ok(None) => Ok(x)
       case Ok(Some(ReactiveField(r))) => Ok(x.(reactives := x.reactives + [r]))
       case Ok(Some(PropField(p))) => Ok(x.(props := x.props + [p])))
    case ClassMethod(kind, _, _, _, _, _, _, _, _) =>
      if kind == Method then
        (match ProcessMethod(n)
         case None => Ok(x)
         case Some(f) => Ok(x.(funcs := x.funcs + [f])))
      else if kind == Get then
        (match ProcessComputed(n)
         case None => Ok(x)
         case Some(c) => Ok(x.(computeds := x.computeds + [c])))
      else Ok(x)
    case CallExpression(_, _) =>
      (match ProcessEmits(n)
       case None => Ok(x)
       case Some(e) => Ok(x.(emits := x.emits + [e])))
    case MemberExpression(_, _, _) =>
      if IsRouterAccess(n) then Ok(x.(composables := x.composables + [RouterComposable])) else Ok(x)
    case _ => Ok(x)
  }

  /** The traversal over the nodes in the order they are entered; the first throw ends it. */
  function Extract(nodes: seq<Node>): Result<Extraction>
  {
    if nodes == [] then Ok(NoRecords)
    else
      match Extract(nodes[..|nodes| - 1])
      case Err(e) => Err(e)
      case Ok(x) => Visit(x, nodes[|nodes| - 1])
  }

  lemma ExtractSnoc(nodes: seq<Node>, i: nat)
    requires i < |nodes|
    ensures Extract(nodes[..i + 1]) == match Extract(nodes[..i])
                                       case Err(e) => Err(e)
                                       case Ok(x) => Visit(x, nodes[i])
  {
    assert nodes[..i + 1][..i] == nodes[..i];
  }

  /** Once the traversal has thrown, every longer run throws the same value. */
  lemma {:induction false} ExtractErrPersists(nodes: seq<Node>, i: nat)
    requires i <= |nodes| && Extract(nodes[..i]).Err?
    ensures Extract(nodes) == Extract(nodes[..i])
    decreases |nodes| - i
  {
    if i < |nodes| {
      ExtractSnoc(nodes, i);
      ExtractErrPersists(nodes, i + 1);
    } else {
      assert nodes[..i] == nodes;
    }
  }

  // ---------------------------------------------------------------- one list per visitor

  /** A class field that `processProperty` rejects. */
  predicate Throws(n: Node)
  {
    n.ClassProperty? && PropertyOf(n).Err?
  }

  function ReactiveOf(n: Node): Option<VueReactive>
  {
    if n.ClassProperty? && PropertyOf(n).Ok? && PropertyOf(n).value.Some?
       && PropertyOf(n).value.value.ReactiveField?
    then Some(PropertyOf(n).value.value.reactive) else None
  }

  function PropFieldOf(n: Node): Option<VueProp>
  {
    if n.ClassProperty? && PropertyOf(n).Ok? && PropertyOf(n).value.Some? && PropertyOf(n).value.value.PropField?
    then Some(PropertyOf(n).value.value.prop) else None
  }

  function FunctionOf(n: Node): Option<VueFunction>
  {
    if n.ClassMethod? && n.kind == Method then ProcessMethod(n) else None
  }

  function ComputedOf(n: Node): Option<VueComputed>
  {
    if n.ClassMethod? && n.kind == Get then ProcessComputed(n) else None
  }

  function EmitOf(n: Node): Option<VueEmit>
  {
    if n.CallExpression? then ProcessEmits(n) else None
  }

  function ComposableOf(n: Node): Option<VueComposable>
  {
    if IsRouterAccess(n) then Some(RouterComposable) else None
  }

  /** The records one visitor would collect on its own from the nodes, in order. */
  function Reactives(nodes: seq<Node>): seq<VueReactive>
  {
    if nodes == [] then []
    else
      var last := ReactiveOf(nodes[|nodes| - 1]);
      Reactives(nodes[..|nodes| - 1]) + (if last.Some? then [last.value] else [])
  }

  function Props(nodes: seq<Node>): seq<VueProp>
  {
    if nodes == [] then []
    else
      var last := PropFieldOf(nodes[|nodes| - 1]);
      Props(nodes[..|nodes| - 1]) + (if last.Some? then [last.value] else [])
  }

  function Functions(nodes: seq<Node>): seq<VueFunction>
  {
    if nodes == [] then []
    else
      var last := FunctionOf(nodes[|nodes| - 1]);
      Functions(nodes[..|nodes| - 1]) + (if last.Some? then [last.value] else [])
  }

  function Computeds(nodes: seq<Node>): seq<VueComputed>
  {
    if nodes == [] then []
    else
      var last := ComputedOf(nodes[|nodes| - 1]);
      Computeds(nodes[..|nodes| - 1]) + (if last.Some? then [last.value] else [])
  }

  function Emits(nodes: seq<Node>): seq<VueEmit>
  {
    if nodes == [] then []
    else
      var last := EmitOf(nodes[|nodes| - 1]);
      Emits(nodes[..|nodes| - 1]) + (if last.Some? then [last.value] else [])
  }

  function Composables(nodes: seq<Node>): seq<VueComposable>
  {
    if nodes == [] then []
    else
      var last := ComposableOf(nodes[|nodes| - 1]);
      Composables(nodes[..|nodes| - 1]) + (if last.Some? then [last.value] else [])
  }

  /** How many of the nodes read `this.$router`. */
  function RouterAccessCount(nodes: seq<Node>): nat
  {
    if nodes == [] then 0
    else RouterAccessCount(nodes[..|nodes| - 1]) + (if IsRouterAccess(nodes[|nodes| - 1]) then 1 else 0)
  }

  /** The six lists, as each visitor collects them independently of the others. */
  function Separately(nodes: seq<Node>): Extraction
  {
    Extraction(Functions(nodes), Computeds(nodes), Reactives(nodes), Props(nodes), Emits(nodes),
               Composables(nodes))
  }

  /** One node's contribution, when it does not throw, is its own record in its own list. */
  lemma VisitAppends(x: Extraction, n: Node)
    requires !Throws(n)
    ensures Visit(x, n).Ok?
    ensures Visit(x, n).value == Extraction(
              x.funcs + (if FunctionOf(n).Some? then [FunctionOf(n).value] else []),
              x.computeds + (if ComputedOf(n).Some? then [ComputedOf(n).value] else []),
              x.reactives + (if ReactiveOf(n).Some? then [ReactiveOf(n).value] else []),
              x.props + (if PropFieldOf(n).Some? then [PropFieldOf(n).value] else []),
              x.emits + (if EmitOf(n).Some? then [EmitOf(n).value] else []),
              x.composables + (if ComposableOf(n).Some? then [ComposableOf(n).value] else []))
  {
  }

  /**
   * The combined traversal collects, list by list, what each visitor would collect on its
   * own, and it throws exactly when some class field is rejected.
   */
  lemma {:induction false} ExtractIsSeparately(nodes: seq<Node>)
    ensures Extract(nodes).Ok? <==> forall k :: 0 <= k < |nodes| ==> !Throws(nodes[k])
    ensures Extract(nodes).Ok? ==> Extract(nodes).value == Separately(nodes)
  {
    if nodes != [] {
      var init := nodes[..|nodes| - 1];
      var last := nodes[|nodes| - 1];
      ExtractIsSeparately(init);
      assert forall k :: 0 <= k < |init| ==> init[k] == nodes[k];
      if Extract(init).Ok? && !Throws(last) {
        VisitAppends(Extract(init).value, last);
      }
    }
  }

  /**
   * When the traversal throws, it throws for the first rejected class field, and what it
   * throws is the decorator-argument error.
   */
  lemma {:induction false} ExtractThrowsFirst(nodes: seq<Node>)
    requires Extract(nodes).Err?
    ensures exists k :: 0 <= k < |nodes| && Throws(nodes[k]) && (forall j :: 0 <= j < k ==> !Throws(nodes[j]))
                         && Extract(nodes).thrown == PropertyOf(nodes[k]).thrown
    ensures Extract(nodes).thrown == DecoratorArgumentError
  {
    var init := nodes[..|nodes| - 1];
    var last := nodes[|nodes| - 1];
    assert forall k :: 0 <= k < |init| ==> init[k] == nodes[k];
    if Extract(init).Err? {
      ExtractThrowsFirst(init);
    } else {
      ExtractIsSeparately(init);
      assert Throws(last);
      PropOfShape(last);
      assert Throws(nodes[|nodes| - 1]) && Extract(nodes).thrown == PropertyOf(nodes[|nodes| - 1]).thrown;
    }
  }

  /** Every function record names a Vue 3 hook exactly when it is a lifecycle method. */
  predicate HooksMapped(fs: seq<VueFunction>)
  {
    forall i :: 0 <= i < |fs| ==> (fs[i].isLifecycleFunction ==> fs[i].identifier in LifeCycleMap)
  }

  lemma {:induction false} FunctionsHooksMapped(nodes: seq<Node>)
    ensures HooksMapped(Functions(nodes))
  {
    if nodes != [] {
      FunctionsHooksMapped(nodes[..|nodes| - 1]);
    }
  }

  // ---------------------------------------------------------------- the synthesized script

  function ComposableTexts(cs: seq<VueComposable>): (r: seq<string>)
    ensures |r| == |cs| && forall i :: 0 <= i < |cs| ==> r[i] == ComposableText(cs[i])
  {
    if cs == [] then [] else ComposableTexts(cs[..|cs| - 1]) + [ComposableText(cs[|cs| - 1])]
  }

  /** The position of the first occurrence of `c` in `cs`. */
  function FirstComposableIndex(cs: seq<VueComposable>, c: VueComposable): (k: nat)
    requires c in cs
    ensures k < |cs| && cs[k] == c && c !in cs[..k]
  {
    if cs[0] == c then 0
    else
      assert c in cs[1..];
      var k := 1 + FirstComposableIndex(cs[1..], c);
      assert cs[..k] == [cs[0]] + cs[1..][..k - 1];
      k
  }

  /**
   * The corrected composables list: each composable once, in the order of first insertion,
   * as a set of composables compared by value would hold them. The source's `Set` compares
   * object identity and receives a fresh object per read, so it keeps every one.
   */
  function DistinctComposables(cs: seq<VueComposable>): (r: seq<VueComposable>)
    ensures forall c :: c in r <==> c in cs
    ensures forall i, j :: 0 <= i < j < |r| ==> r[i] != r[j]
  {
    if cs == [] then []
    else
      var init := DistinctComposables(cs[..|cs| - 1]);
      assert forall c :: c in cs <==> c in cs[..|cs| - 1] || c == cs[|cs| - 1];
      if cs[|cs| - 1] in init then init else init + [cs[|cs| - 1]]
  }

  /** A first occurrence is the only position holding `c` with no `c` before it. */
  lemma FirstComposableIndexUnique(cs: seq<VueComposable>, c: VueComposable, k: nat)
    requires k < |cs| && cs[k] == c && c !in cs[..k]
    ensures FirstComposableIndex(cs, c) == k
  {
    var f := FirstComposableIndex(cs, c);
    assert forall j :: 0 <= j < k ==> cs[..k][j] == cs[j];
    assert forall j :: 0 <= j < f ==> cs[..f][j] == cs[j];
  }

  /** Extending a list moves no first occurrence that was already there. */
  lemma FirstComposableIndexOfInit(cs: seq<VueComposable>, x: VueComposable)
    requires |cs| > 0 && x in cs[..|cs| - 1]
    ensures x in cs && FirstComposableIndex(cs, x) == FirstComposableIndex(cs[..|cs| - 1], x) < |cs| - 1
  {
    var init := cs[..|cs| - 1];
    var k := FirstComposableIndex(init, x);
    assert cs[k] == init[k];
    assert cs[..k] == init[..k];
    FirstComposableIndexUnique(cs, x, k);
  }

  /** Every element of `r` occurs in `cs`, and `r` lists them in the order of their first occurrence there. */
  predicate InFirstOccurrenceOrder(cs: seq<VueComposable>, r: seq<VueComposable>)
  {
    (forall i :: 0 <= i < |r| ==> r[i] in cs)
    && forall i, j :: 0 <= i < j < |r| ==> FirstComposableIndex(cs, r[i]) < FirstComposableIndex(cs, r[j])
  }

  /** Order by first occurrence in a prefix is order by first occurrence in the whole list. */
  lemma OrderedInLonger(cs: seq<VueComposable>, d: seq<VueComposable>)
    requires |cs| > 0 && InFirstOccurrenceOrder(cs[..|cs| - 1], d)
    ensures InFirstOccurrenceOrder(cs, d)
    ensures forall i :: 0 <= i < |d| ==> FirstComposableIndex(cs, d[i]) < |cs| - 1
  {
    forall i | 0 <= i < |d|
      ensures d[i] in cs && FirstComposableIndex(cs, d[i]) == FirstComposableIndex(cs[..|cs| - 1], d[i]) < |cs| - 1
    {
      FirstComposableIndexOfInit(cs, d[i]);
    }
  }

  /** A composable met for the first time goes after all the earlier ones. */
  lemma OrderedWithNew(cs: seq<VueComposable>, d: seq<VueComposable>)
    requires |cs| > 0 && cs[|cs| - 1] !in cs[..|cs| - 1] && InFirstOccurrenceOrder(cs[..|cs| - 1], d)
    ensures InFirstOccurrenceOrder(cs, d + [cs[|cs| - 1]])
  {
    OrderedInLonger(cs, d);
    FirstComposableIndexUnique(cs, cs[|cs| - 1], |cs| - 1);
    var r := d + [cs[|cs| - 1]];
    assert forall i :: 0 <= i < |d| ==> r[i] == d[i];
  }

  /** The kept composables are in the order of their first occurrence in the input. */
  lemma {:induction false} DistinctComposablesInOrder(cs: seq<VueComposable>)
    ensures InFirstOccurrenceOrder(cs, DistinctComposables(cs))
  {
    if cs != [] {
      var init := cs[..|cs| - 1];
      var last := cs[|cs| - 1];
      var d := DistinctComposables(init);
      DistinctComposablesInOrder(init);
      if last in d {
        assert DistinctComposables(cs) == d;
        OrderedInLonger(cs, d);
      } else {
        assert DistinctComposables(cs) == d + [last];
        OrderedWithNew(cs, d);
      }
    }
  }

  function ReactiveTexts(rs: seq<VueReactive>, options: TranspilerOptions, gen: Printer): (r: seq<string>)
    ensures |r| == |rs| && forall i :: 0 <= i < |rs| ==> r[i] == ReactiveText(rs[i], options, gen)
  {
    if rs == [] then [] else ReactiveTexts(rs[..|rs| - 1], options, gen) + [ReactiveText(rs[|rs| - 1], options, gen)]
  }

  function FunctionTexts(fs: seq<VueFunction>, options: TranspilerOptions, gen: Printer): (r: seq<string>)
    requires HooksMapped(fs)
    ensures |r| == |fs| && forall i :: 0 <= i < |fs| ==> r[i] == FunctionText(fs[i], options, gen)
  {
    if fs == [] then []
    else
      assert HooksMapped(fs[..|fs| - 1]) by {
        assert forall i :: 0 <= i < |fs| - 1 ==> fs[..|fs| - 1][i] == fs[i];
      }
      FunctionTexts(fs[..|fs| - 1], options, gen) + [FunctionText(fs[|fs| - 1], options, gen)]
  }

  function ComputedTexts(cs: seq<VueComputed>, options: TranspilerOptions, gen: Printer): (r: seq<string>)
    ensures |r| == |cs|
  {
    if cs == [] then []
    else
      ComputedTexts(cs[..|cs| - 1], options, gen) + [ComputedText(cs[|cs| - 1], options, gen)]
  }

  /** A list that maps a prefix pointwise, extended by the image of the next element, maps the whole list. */
  lemma AppendImagePointwise<A, B>(xs: seq<A>, a: seq<B>, f: A -> B)
    requires |xs| > 0 && |a| == |xs| - 1
    requires forall i :: 0 <= i < |a| ==> a[i] == f(xs[..|xs| - 1][i])
    ensures forall i :: 0 <= i < |xs| ==> (a + [f(xs[|xs| - 1])])[i] == f(xs[i])
  {
    forall i | 0 <= i < |xs|
      ensures (a + [f(xs[|xs| - 1])])[i] == f(xs[i])
    {
      if i < |a| {
        assert xs[..|xs| - 1][i] == xs[i];
      }
    }
  }

  /** Each line is the template of the getter at the same position. */
  lemma {:induction false} ComputedTextsPointwise(cs: seq<VueComputed>, options: TranspilerOptions, gen: Printer)
    ensures forall i :: 0 <= i < |cs| ==> ComputedTexts(cs, options, gen)[i] == ComputedText(cs[i], options, gen)
  {
    if cs != [] {
      var f := c => ComputedText(c, options, gen);
      var init := cs[..|cs| - 1];
      ComputedTextsPointwise(init, options, gen);
      AppendImagePointwise(cs, ComputedTexts(init, options, gen), f);
    }
  }

  /** The props block, destructured, and its line break; nothing without props. */
  function PropsSection(props: seq<VueProp>, gen: Printer): string
  {
    if |props| > 0 then MergedProps(props, gen, true) + "\n" else ""
  }

  function EmitsSection(emits: seq<VueEmit>): string
  {
    if |emits| > 0 then MergedEmits(emits) + "\n" else ""
  }

  /** The script assembled from the records, section by section. */
  function SynthesizedText(x: Extraction, options: TranspilerOptions, gen: Printer): string
    requires HooksMapped(x.funcs)
  {
    PropsSection(x.props, gen) + EmitsSection(x.emits)
    + "\n" + Join("\n", ComposableTexts(x.composables))
    + "\n" + Join("\n", ReactiveTexts(x.reactives, options, gen))
    + "\n" + Join("\n", FunctionTexts(x.funcs, options, gen))
    + "\n" + Join("\n", ComputedTexts(x.computeds, options, gen))
  }

  /** The names handed to `updateThisExpression`. */
  function HoistedOf(x: Extraction): HoistedDeclarations
  {
    HoistedDeclarations(
      set r | r in x.reactives && r.reactiveType == Ref :: r.identifier,
      (set r | r in x.reactives && r.reactiveType == Reactive :: r.identifier)
      + (set c | c in x.composables :: c.identifier))
  }

  /** Two declarations calling the same function bind the same name only if the names are equal. */
  lemma DeclarationNamesAgree(a: string, b: string, f: string)
    requires "const " + a + " = " + f + "()" == "const " + b + " = " + f + "()"
    ensures a == b
  {
    var ta := "const " + a + " = " + f + "()";
    var tb := "const " + b + " = " + f + "()";
    assert |a| == |b|;
    assert ta[6..6 + |a|] == a;
    assert tb[6..6 + |b|] == b;
  }

  /** Every composable's line is a `const` declaration of its name, and the rewrite reads that name bare. */
  lemma ComposablesDeclaredHoisted(x: Extraction)
    ensures forall i :: 0 <= i < |x.composables| ==>
              "const " + x.composables[i].identifier + " = " <= ComposableTexts(x.composables)[i]
              && x.composables[i].identifier in HoistedOf(x).reactives
  {
    forall i | 0 <= i < |x.composables|
      ensures "const " + x.composables[i].identifier + " = " <= ComposableTexts(x.composables)[i]
    {
      var c := x.composables[i];
      assert ("const " + c.identifier + " = " + c.funcName + "()")[..|"const " + c.identifier + " = "|]
             == "const " + c.identifier + " = ";
    }
  }

  /**
   * The names the rewrite reads bare are exactly the `reactive` bindings and the names the
   * composable lines declare; the names it reads through `.value` are exactly the `ref` bindings.
   */
  lemma HoistedOfExactly(x: Extraction)
    ensures forall name :: name in HoistedOf(x).refs
              <==> exists i :: 0 <= i < |x.reactives| && x.reactives[i].reactiveType == Ref && x.reactives[i].identifier == name
    ensures forall name :: name in HoistedOf(x).reactives
              <==> (exists i :: 0 <= i < |x.reactives| && x.reactives[i].reactiveType == Reactive && x.reactives[i].identifier == name)
                   || (exists i :: 0 <= i < |x.composables|
                         && ComposableTexts(x.composables)[i] == "const " + name + " = " + x.composables[i].funcName + "()")
  {
    forall name | name in HoistedOf(x).refs
      ensures exists i :: 0 <= i < |x.reactives| && x.reactives[i].reactiveType == Ref && x.reactives[i].identifier == name
    {
      var r :| r in x.reactives && r.reactiveType == Ref && r.identifier == name;
      var i :| 0 <= i < |x.reactives| && x.reactives[i] == r;
    }
    forall name | name in HoistedOf(x).reactives
      ensures (exists i :: 0 <= i < |x.reactives| && x.reactives[i].reactiveType == Reactive && x.reactives[i].identifier == name)
              || (exists i :: 0 <= i < |x.composables|
                    && ComposableTexts(x.composables)[i] == "const " + name + " = " + x.composables[i].funcName + "()")
    {
      if c :| c in x.composables && c.identifier == name {
        var i :| 0 <= i < |x.composables| && x.composables[i] == c;
        assert ComposableTexts(x.composables)[i] == "const " + name + " = " + c.funcName + "()";
      } else {
        var r :| r in x.reactives && r.reactiveType == Reactive && r.identifier == name;
        var i :| 0 <= i < |x.reactives| && x.reactives[i] == r;
      }
    }
    forall name, i | 0 <= i < |x.composables|
                     && ComposableTexts(x.composables)[i] == "const " + name + " = " + x.composables[i].funcName + "()"
      ensures name in HoistedOf(x).reactives
    {
      var c := x.composables[i];
      DeclarationNamesAgree(name, c.identifier, c.funcName);
      assert c in x.composables;
    }
    forall name, i | 0 <= i < |x.reactives| && x.reactives[i].reactiveType == Reactive && x.reactives[i].identifier == name
      ensures name in HoistedOf(x).reactives
    {
      assert x.reactives[i] in x.reactives;
    }
    forall name, i | 0 <= i < |x.reactives| && x.reactives[i].reactiveType == Ref && x.reactives[i].identifier == name
      ensures name in HoistedOf(x).refs
    {
      assert x.reactives[i] in x.reactives;
    }
  }

  /** The two rewriting traversals over the re-parsed script, prefix first. */
  function PostProcess(script: Node, hoisted: HoistedDeclarations): Node
  {
    UpdateThisExpression(hoisted, UpdatePrefix(script))
  }

  datatype TranspileResult = Success(code: string) | Error(message: string)

  /** The `catch`: an `Error` reports its message, anything else is an unknown error. */
  function Failure(thrown: Thrown): (r: TranspileResult)
    ensures r.Error?
    ensures thrown.ErrorObject? ==> r.message == thrown.message
    ensures thrown.NonError? ==> r.message == "Unknown error"
  {
    match thrown
    case ErrorObject(m) => Error(m)
    case NonError => Error("Unknown error")
  }

  /** What `traverse` returns for a source text. */
  function TranspileSpec(source: string, options: TranspilerOptions, parse: Parser, gen: Printer,
                         format: Formatter): TranspileResult
  {
    match parse(source)
    case Err(e) => Failure(e)
    case Ok(ast) =>
      ExtractIsSeparately(Preorder(ast));
      FunctionsHooksMapped(Preorder(ast));
      match Extract(Preorder(ast))
      case Err(e) => Failure(e)
      case Ok(x) =>
        match parse(SynthesizedText(x, options, gen))
        case Err(e) => Failure(e)
        case Ok(script) =>
          match format(Generate(gen, PostProcess(script, HoistedOf(x))))
          case Err(e) => Failure(e)
          case Ok(code) => Success(code)
  }

  /** Every composable collected is the router's, and there is one per `this.$router`. */
  lemma {:induction false} ComposablesAreRouters(nodes: seq<Node>)
    ensures forall i :: 0 <= i < |Composables(nodes)| ==> Composables(nodes)[i] == RouterComposable
    ensures |Composables(nodes)| == RouterAccessCount(nodes)
    ensures |Composables(nodes)| > 0 <==> exists k :: 0 <= k < |nodes| && IsRouterAccess(nodes[k])
  {
    if nodes != [] {
      var init := nodes[..|nodes| - 1];
      ComposablesAreRouters(init);
      assert forall k :: 0 <= k < |init| ==> init[k] == nodes[k];
    }
  }

  /** A read of `this.$router` adds one router composable and nothing else. */
  lemma VisitRouterAccess(x: Extraction, m: Node)
    requires IsRouterAccess(m)
    ensures Visit(x, m) == Ok(x.(composables := x.composables + [RouterComposable]))
  {
  }

  /** The declaration a router composable renders to. */
  lemma RouterLines()
    ensures ComposableTexts([RouterComposable]) == ["const router = useRouter()"]
    ensures ComposableTexts([RouterComposable, RouterComposable])
         == ["const router = useRouter()", "const router = useRouter()"]
  {
    var line := ComposableText(RouterComposable);
    assert line == "const router = useRouter()";
    assert [RouterComposable][..0] == [];
    assert ComposableTexts([RouterComposable]) == ComposableTexts([]) + [line];
    assert [RouterComposable, RouterComposable][..1] == [RouterComposable];
  }

  /** What a class that only reads `this.$router` twice collects. */
  const TwoRouters := NoRecords.(composables := [RouterComposable, RouterComposable])

  /** The script synthesized for it: `router` is declared twice. */
  const TwoRoutersScript := "\n" + RouterDeclaration + "\n" + RouterDeclaration + "\n" + "\n" + "\n"

  const RouterDeclaration := "const router = useRouter()"

  /**
   * As the source collects them, two reads of `this.$router` give two router composables,
   * and the synthesized script then declares `router` twice.
   */
  lemma RouterReadTwiceDeclaredTwice(options: TranspilerOptions, gen: Printer)
    ensures var m := MemberExpression(ThisExpression, Identifier("$router"), false);
            Extract([m, m]) == Ok(TwoRouters)
    ensures SynthesizedText(TwoRouters, options, gen) == TwoRoutersScript
  {
    var m := MemberExpression(ThisExpression, Identifier("$router"), false);
    assert IsRouterAccess(m);
    RouterReadTwiceCollectedTwice(m);
    TwoRoutersSynthesized(options, gen);
  }

  lemma TwoRoutersSynthesized(options: TranspilerOptions, gen: Printer)
    ensures SynthesizedText(TwoRouters, options, gen) == TwoRoutersScript
  {
    TwoRouterLines();
    var lines := RouterDeclaration + "\n" + RouterDeclaration;
    assert PropsSection(TwoRouters.props, gen) + EmitsSection(TwoRouters.emits) == "";
    assert Join("\n", ReactiveTexts(TwoRouters.reactives, options, gen)) == "";
    assert Join("\n", FunctionTexts(TwoRouters.funcs, options, gen)) == "";
    assert Join("\n", ComputedTexts(TwoRouters.computeds, options, gen)) == "";
    assert "" + "\n" == "\n";
    var t := "\n" + lines + "\n";
    assert t + "" == t;
    assert t + "" + "\n" + "" == t + "\n";
    assert t + "\n" + "" == t + "\n";
    assert "\n" + lines == "\n" + RouterDeclaration + "\n" + RouterDeclaration;
  }

  /**
   * The whole transpilation of such a class: the script that declares `router` twice is
   * parsed again, and whatever the parser reports for the redeclaration is the result.
   */
  lemma RouterReadTwiceReported(source: string, options: TranspilerOptions, parse: Parser, gen: Printer,
                                format: Formatter)
    requires parse(source).Ok? && Extract(Preorder(parse(source).value)) == Ok(TwoRouters)
    requires parse(TwoRoutersScript).Err?
    ensures TranspileSpec(source, options, parse, gen, format) == Failure(parse(TwoRoutersScript).thrown)
  {
    TwoRoutersSynthesized(options, gen);
  }

  lemma TwoRouterLines()
    ensures Join("\n", ComposableTexts([RouterComposable, RouterComposable]))
         == RouterDeclaration + "\n" + RouterDeclaration
  {
    RouterLines();
    var line := RouterDeclaration;
    assert [line, line][..1] == [line];
    assert Join("\n", [line, line]) == line + "\n" + line;
  }

  lemma RouterReadTwiceCollectedTwice(m: Node)
    requires IsRouterAccess(m)
    ensures Extract([m, m]) == Ok(NoRecords.(composables := [RouterComposable, RouterComposable]))
  {
    var one := NoRecords.(composables := [RouterComposable]);
    assert [m, m][..1] == [m];
    assert [m][..0] == [];
    assert Extract([]) == Ok(NoRecords);
    VisitRouterAccess(NoRecords, m);
    assert NoRecords.composables + [RouterComposable] == [RouterComposable];
    assert Extract([m]) == Visit(NoRecords, m);
    assert Extract([m]) == Ok(one);
    VisitRouterAccess(one, m);
    assert one.composables + [RouterComposable] == [RouterComposable, RouterComposable];
    assert Extract([m, m]) == Visit(one, m);
  }

  /** With the composables kept once each, the script declares `router` exactly when the class reads `this.$router`, and once. */
  lemma RouterDeclaredOnce(nodes: seq<Node>)
    ensures Join("\n", ComposableTexts(DistinctComposables(Composables(nodes))))
         == if exists k :: 0 <= k < |nodes| && IsRouterAccess(nodes[k]) then "const router = useRouter()" else ""
  {
    var cs := Composables(nodes);
    ComposablesAreRouters(nodes);
    DistinctRouters(cs);
    RouterLines();
  }

  /** Kept once each, a list of router composables is one router composable, or none. */
  lemma {:induction false} DistinctRouters(cs: seq<VueComposable>)
    requires forall i :: 0 <= i < |cs| ==> cs[i] == RouterComposable
    ensures DistinctComposables(cs) == if |cs| > 0 then [RouterComposable] else []
  {
    if cs != [] {
      var init := cs[..|cs| - 1];
      assert forall i :: 0 <= i < |init| ==> init[i] == cs[i];
      DistinctRouters(init);
    }
  }

  /** Router composables produce a `router` binding, which the rewrite treats as reactive. */
  lemma RoutersBound(x: Extraction)
    requires forall i :: 0 <= i < |x.composables| ==> x.composables[i] == RouterComposable
    ensures |x.composables| > 0 <==> "router" in (set c | c in x.composables :: c.identifier)
    ensures |x.composables| > 0 ==> "router" in HoistedOf(x).reactives
  {
    if |x.composables| > 0 {
      assert x.composables[0] in x.composables;
    }
  }

  /** A class that reads `this.$router` gets a `router` binding the rewrite leaves bare. */
  lemma RouterHoisted(nodes: seq<Node>)
    requires Extract(nodes).Ok?
    ensures (exists k :: 0 <= k < |nodes| && IsRouterAccess(nodes[k]))
            <==> "router" in (set c | c in Extract(nodes).value.composables :: c.identifier)
    ensures (exists k :: 0 <= k < |nodes| && IsRouterAccess(nodes[k]))
            ==> "router" in HoistedOf(Extract(nodes).value).reactives
  {
    ExtractIsSeparately(nodes);
    ComposablesAreRouters(nodes);
    RoutersBound(Extract(nodes).value);
  }

  /** A rejected class field makes the whole transpilation report the decorator error. */
  lemma DecoratorErrorReported(source: string, options: TranspilerOptions, parse: Parser, gen: Printer,
                               format: Formatter)
    requires parse(source).Ok?
    requires exists k :: 0 <= k < |Preorder(parse(source).value)| && Throws(Preorder(parse(source).value)[k])
    ensures TranspileSpec(source, options, parse, gen, format) == Error("Decorator can only contain one argument")
  {
    var nodes := Preorder(parse(source).value);
    ExtractIsSeparately(nodes);
    ExtractThrowsFirst(nodes);
  }

  /** `this.$router` in the synthesized script ends up as the bare `router`. */
  lemma RouterAccessResolves(computed: bool, hoisted: HoistedDeclarations)
    requires "router" in hoisted.reactives
    ensures PostProcess(MemberExpression(ThisExpression, Identifier("$router"), computed), hoisted)
            == Identifier("router")
  {
    assert UpdatePrefix(Identifier("$router")) == Identifier("router");
    assert UpdatePrefix(MemberExpression(ThisExpression, Identifier("$router"), computed))
           == MemberExpression(ThisExpression, Identifier("router"), computed);
  }

  /** `this.$emit(...)` ends up as a call of the `emit` that `defineEmits` declares. */
  lemma EmitCallResolves(computed: bool, args: seq<Node>, hoisted: HoistedDeclarations)
    ensures PostProcess(CallExpression(MemberExpression(ThisExpression, Identifier("$emit"), computed), args), hoisted)
            == CallExpression(Identifier("emit"), RewriteThisSeq(UpdatePrefixSeq(args), hoisted.reactives))
  {
    assert UpdatePrefix(Identifier("$emit")) == Identifier("emit");
    var callee := MemberExpression(ThisExpression, Identifier("emit"), computed);
    var args' := UpdatePrefixSeq(args);
    assert UpdatePrefix(MemberExpression(ThisExpression, Identifier("$emit"), computed)) == callee;
    assert UpdatePrefix(CallExpression(MemberExpression(ThisExpression, Identifier("$emit"), computed), args))
           == CallExpression(callee, args');
    assert IsThisIdentifierMember(callee);
    assert RewriteThis(CallExpression(callee, args'), hoisted.reactives)
           == CallExpression(Identifier("emit"), RewriteThisSeq(args', hoisted.reactives));
  }

  /** A `ref` binding is read through `.value`; a `reactive` one or a composable is read bare. */
  lemma StateAccessResolves(name: string, computed: bool, hoisted: HoistedDeclarations)
    requires !IsMarked(name)
    ensures name in hoisted.reactives ==>
              PostProcess(MemberExpression(ThisExpression, Identifier(name), computed), hoisted) == Identifier(name)
    ensures name !in hoisted.reactives ==>
              PostProcess(MemberExpression(ThisExpression, Identifier(name), computed), hoisted)
              == MemberExpression(Identifier(name), Identifier("value"), false)
  {
    assert UpdatePrefix(Identifier(name)) == Identifier(name);
    assert UpdatePrefix(MemberExpression(ThisExpression, Identifier(name), computed))
           == MemberExpression(ThisExpression, Identifier(name), computed);
  }

  /** How the destructured props block starts. */
  const PropsOpening := "\n    const props = "

  lemma MergedPropsOpens(props: seq<VueProp>, gen: Printer)
    ensures PropsOpening <= MergedProps(props, gen, true) + "\n"
  {
    var pcs := WithCodeAll(props, gen);
    var definition := PropsDefinition(pcs);
    var merged := if SomeHasDefault(props)
                  then "withDefaults(\n" + definition + ", \n(" + DefaultsObject(pcs) + "))"
                  else definition;
    var ids := Join(",", PropIdentifiers(props));
    PrefixOfLonger(PropsOpening, PropsOpening, merged);
    PrefixOfLonger(PropsOpening, PropsOpening + merged, "\n    const { ");
    PrefixOfLonger(PropsOpening, PropsOpening + merged + "\n    const { ", ids);
    PrefixOfLonger(PropsOpening, PropsOpening + merged + "\n    const { " + ids, " } = toRefs(props);\n    ");
    PrefixOfLonger(PropsOpening, MergedProps(props, gen, true), "\n");
  }

  /**
   * The shape of the assembled text decides whether it opens with the props block: the
   * emits block and a composable line start differently.
   */
  lemma OpeningDecidesProps(p: string, e: string, j1: string, j2: string, j3: string, j4: string)
    requires p == "" || PropsOpening <= p
    requires e == "" || (|e| > 3 && e[3] == 'c')
    requires j1 == "" || j1[0] == 'c'
    ensures p != "" <==> PropsOpening <= p + e + "\n" + j1 + "\n" + j2 + "\n" + j3 + "\n" + j4
  {
    var t1 := p + e + "\n" + j1;
    var t2 := t1 + "\n";
    var text := t2 + j2 + "\n" + j3 + "\n" + j4;
    PrefixOfLonger(t2, t2, j2);
    PrefixOfLonger(t2, t2 + j2, "\n");
    PrefixOfLonger(t2, t2 + j2 + "\n", j3);
    PrefixOfLonger(t2, t2 + j2 + "\n" + j3, "\n");
    PrefixOfLonger(t2, t2 + j2 + "\n" + j3 + "\n", j4);
    if p != "" {
      PrefixOfLonger(PropsOpening, p, e);
      PrefixOfLonger(PropsOpening, p + e, "\n");
      PrefixOfLonger(PropsOpening, p + e + "\n", j1);
      PrefixOfLonger(PropsOpening, t1, "\n");
    } else if e != "" {
      assert t2[3] == e[3];
      assert text[3] == t2[3];
    } else {
      assert t2[1] == if j1 == "" then '\n' else j1[0];
      assert text[1] == t2[1];
    }
  }

  lemma PropsSectionShape(props: seq<VueProp>, gen: Printer)
    ensures PropsSection(props, gen) == "" <==> props == []
    ensures props != [] ==> PropsOpening <= PropsSection(props, gen)
  {
    if props != [] {
      MergedPropsOpens(props, gen);
    }
  }

  lemma EmitsSectionShape(emits: seq<VueEmit>)
    ensures emits == [] ==> EmitsSection(emits) == ""
    ensures emits != [] ==> |EmitsSection(emits)| > 3 && EmitsSection(emits)[3] == 'c'
  {
    if emits != [] {
      var opening := "\n  const emit = defineEmits<{\n    ";
      var j := Join(",", EmitSignatures(FirstOccurrences(emits)));
      PrefixOfLonger(opening, opening, j);
      PrefixOfLonger(opening, opening + j, "\n  }>()");
      PrefixOfLonger(opening, MergedEmits(emits), "\n");
      assert EmitsSection(emits)[3] == opening[3];
    }
  }

  lemma ComposablesShape(cs: seq<VueComposable>)
    ensures var j := Join("\n", ComposableTexts(cs)); j == "" || j[0] == 'c'
  {
    if |cs| > 0 {
      var texts := ComposableTexts(cs);
      JoinStartsWithFirst("\n", texts);
      assert texts[0][0] == 'c';
    }
  }

  /** The script declares props exactly when some prop was collected. */
  lemma PropsDeclaredIff(x: Extraction, options: TranspilerOptions, gen: Printer)
    requires HooksMapped(x.funcs)
    ensures |x.props| > 0 <==> PropsOpening <= SynthesizedText(x, options, gen)
  {
    PropsSectionShape(x.props, gen);
    EmitsSectionShape(x.emits);
    ComposablesShape(x.composables);
    OpeningDecidesProps(PropsSection(x.props, gen), EmitsSection(x.emits),
                        Join("\n", ComposableTexts(x.composables)),
                        Join("\n", ReactiveTexts(x.reactives, options, gen)),
                        Join("\n", FunctionTexts(x.funcs, options, gen)),
                        Join("\n", ComputedTexts(x.computeds, options, gen)));
  }

  // ---------------------------------------------------------------- the transpiler

  /** `Transpiler`, holding the formatter it was constructed with. */
  class Transpiler {
    const formatter: Formatter

    constructor (formatter: Formatter)
      ensures this.formatter == formatter
    {
      this.formatter := formatter;
    }

    /** `traverse`: the source text transpiled, or the reason it could not be. */
    method Traverse(source: string, options: TranspilerOptions, parse: Parser, gen: Printer)
      returns (r: TranspileResult)
      ensures r == TranspileSpec(source, options, parse, gen, formatter)
    {
      var parsed := parse(source);
      if parsed.Err? {
        return Failure(parsed.thrown);
      }
      var collected := Collect(Preorder(parsed.value));
      if collected.Err? {
        return Failure(collected.thrown);
      }
      var x := collected.value;
      ExtractIsSeparately(Preorder(parsed.value));
      FunctionsHooksMapped(Preorder(parsed.value));
      var text := Synthesize(x, options, gen);
      var codeOutput := parse(text);
      if codeOutput.Err? {
        return Failure(codeOutput.thrown);
      }
      var rewritten := UpdatePrefix(codeOutput.value);
      rewritten := UpdateThisExpression(HoistedOf(x), rewritten);
      var formatted := formatter(Generate(gen, rewritten));
      if formatted.Err? {
        return Failure(formatted.thrown);
      }
      r := Success(formatted.value);
    }
  }

  /** The collecting traversal, one node at a time. */
  method Collect(nodes: seq<Node>) returns (r: Result<Extraction>)
    ensures r == Extract(nodes)
  {
    var x := NoRecords;
    var i := 0;
    while i < |nodes|
      invariant 0 <= i <= |nodes|
      invariant Extract(nodes[..i]) == Ok(x)
    {
      ExtractSnoc(nodes, i);
      var next := VisitNode(x, nodes[i]);
      if next.Err? {
        ExtractErrPersists(nodes, i + 1);
        return next;
      }
      x := next.value;
      i := i + 1;
    }
    assert nodes[..i] == nodes;
    r := Ok(x);
  }

  /** The four visitors on one node. */
  method VisitNode(x: Extraction, n: Node) returns (r: Result<Extraction>)
    ensures r == Visit(x, n)
  {
    r := Ok(x);
    if n.ClassProperty? {
      var prop := ProcessProperty(n);
      if prop.Err? {
        return Err(prop.thrown);
      }
      if prop.value.Some? && prop.value.value.ReactiveField? {
        r := Ok(x.(reactives := x.reactives + [prop.value.value.reactive]));
      }
      if prop.value.Some? && prop.value.value.PropField? {
        r := Ok(x.(props := x.props + [prop.value.value.prop]));
      }
    } else if n.ClassMethod? {
      if n.kind == Method {
        var func := ProcessMethod(n);
        if func.Some? {
          r := Ok(x.(funcs := x.funcs + [func.value]));
        }
      }
      if n.kind == Get {
        var computed := ProcessComputed(n);
        if computed.Some? {
          r := Ok(x.(computeds := x.computeds + [computed.value]));
        }
      }
    } else if n.CallExpression? {
      var maybeEmit := ProcessEmits(n);
      if maybeEmit.Some? {
        r := Ok(x.(emits := x.emits + [maybeEmit.value]));
      }
    } else if n.MemberExpression? && n.obj.ThisExpression? && n.property.Identifier? {
      if n.property.name == "$router" {
        r := Ok(x.(composables := x.composables + [RouterComposable]));
      }
    }
  }

  /** The script text, appended section by section. */
  method Synthesize(x: Extraction, options: TranspilerOptions, gen: Printer) returns (s: string)
    requires HooksMapped(x.funcs)
    ensures s == SynthesizedText(x, options, gen)
  {
    var reactives := RenderReactives(x.reactives, options, gen);
    var funcs := RenderFunctions(x.funcs, options, gen);
    var computeds := RenderComputeds(x.computeds, options, gen);
    var result := new TextBuffer("");
    AppendHeader(result, x.props, x.emits, gen);
    ghost var header := PropsSection(x.props, gen) + EmitsSection(x.emits);
    assert "" + PropsSection(x.props, gen) == PropsSection(x.props, gen);
    assert result.text == header;
    result.Append("\n");
    result.Append(Join("\n", ComposableTexts(x.composables)));
    result.Append("\n");
    result.Append(Join("\n", reactives));
    result.Append("\n");
    result.Append(Join("\n", funcs));
    result.Append("\n");
    result.Append(Join("\n", computeds));
    s := result.text;
  }

  /** The props and emits blocks, each only when there is something to declare. */
  method AppendHeader(result: TextBuffer, props: seq<VueProp>, emits: seq<VueEmit>, gen: Printer)
    modifies result
    ensures result.text == old(result.text) + PropsSection(props, gen) + EmitsSection(emits)
  {
    ghost var start := result.text;
    if |props| > 0 {
      var merged := MergeProps(props, gen, true);
      result.Append(merged);
      result.Append("\n");
      ConcatAssoc(start, merged, "\n");
    }
    assert result.text == start + PropsSection(props, gen);
    if |emits| > 0 {
      var merged := MergeEmits(emits);
      result.Append(merged);
      result.Append("\n");
      ConcatAssoc(start + PropsSection(props, gen), merged, "\n");
    }
  }

  /** `reactives.map(ReactiveTemplate)` */
  method RenderReactives(rs: seq<VueReactive>, options: TranspilerOptions, gen: Printer) returns (texts: seq<string>)
    ensures texts == ReactiveTexts(rs, options, gen)
  {
    texts := [];
    for i := 0 to |rs|
      invariant texts == ReactiveTexts(rs[..i], options, gen)
    {
      var text := ReactiveTemplate(rs[i], options, gen);
      assert rs[..i + 1][..i] == rs[..i];
      texts := texts + [text];
    }
    assert rs[..|rs|] == rs;
  }

  /** `funcs.map(FunctionTemplate)` */
  method RenderFunctions(fs: seq<VueFunction>, options: TranspilerOptions, gen: Printer) returns (texts: seq<string>)
    requires HooksMapped(fs)
    ensures texts == FunctionTexts(fs, options, gen)
  {
    texts := [];
    for i := 0 to |fs|
      invariant HooksMapped(fs[..i])
      invariant texts == FunctionTexts(fs[..i], options, gen)
    {
      var text := FunctionTemplate(fs[i], options, gen);
      assert fs[..i + 1][..i] == fs[..i];
      assert HooksMapped(fs[..i + 1]) by {
        assert forall k :: 0 <= k < i + 1 ==> fs[..i + 1][k] == fs[k];
      }
      texts := texts + [text];
    }
    assert fs[..|fs|] == fs;
  }

  /** `computeds.map(ComputedTemplate)` */
  method RenderComputeds(cs: seq<VueComputed>, options: TranspilerOptions, gen: Printer) returns (texts: seq<string>)
    ensures texts == ComputedTexts(cs, options, gen)
  {
    texts := [];
    for i := 0 to |cs|
      invariant texts == ComputedTexts(cs[..i], options, gen)
    {
      var text := ComputedTemplate(cs[i], options, gen);
      assert cs[..i + 1][..i] == cs[..i];
      texts := texts + [text];
    }
    assert cs[..|cs|] == cs;
  }
}
