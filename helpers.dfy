/**
 * The classifier: maps one class member (or call) to an entity record, or to nothing.
 * `processProperty` and `processProp` walk the field's subtree with a visitor that
 * assigns locals, and are methods; the other classifiers are functions.
 */
module Helpers {
  import opened Base
  import opened Ast
  import opened Types

  /** Vue 2 lifecycle hook names and the Vue 3 composition functions that replace them. */
  const LifeCycleMap: map<string, string> := map[
    "beforeCreate" := "onBeforeMount",
    "created" := "onBeforeMount",
    "beforeMount" := "onBeforeMount",
    "mounted" := "onMounted",
    "beforeDestroy" := "onBeforeUnmount",
    "destroyed" := "onUnmounted",
    "activated" := "onActivated",
    "deactivated" := "onDeactivated"
  ]

  /** The table is keyed by exactly these eight names; the three pre-mount hooks share one target. */
  lemma LifeCycleMapShape()
    ensures LifeCycleMap.Keys == {"beforeCreate", "created", "beforeMount", "mounted",
                                  "beforeDestroy", "destroyed", "activated", "deactivated"}
    ensures forall k :: k in LifeCycleMap && LifeCycleMap[k] == "onBeforeMount"
              ==> k in {"beforeCreate", "created", "beforeMount"}
  {
  }

  /**
   * Names a plain JavaScript object answers to through `Object.prototype`: for these the
   * operator `in` is true on `lifeCycleMap` although the table has no such own key.
   */
  const ObjectPrototypeNames: set<string> := {
    "constructor", "hasOwnProperty", "isPrototypeOf", "propertyIsEnumerable",
    "toLocaleString", "toString", "valueOf", "__proto__",
    "__defineGetter__", "__defineSetter__", "__lookupGetter__", "__lookupSetter__"
  }

  /** No hook name is also a prototype name: the two ways `in` can hold do not overlap. */
  lemma PrototypeNamesAreNotHooks(name: string)
    requires name in ObjectPrototypeNames
    ensures name !in LifeCycleMap
  {
    LifeCycleMapShape();
  }

  /** JavaScript's `name in lifeCycleMap`: an own key of the table or an inherited one. */
  predicate InLifeCycleObject(name: string)
  {
    name in LifeCycleMap || name in ObjectPrototypeNames
  }

  /** The kind of value JavaScript reads for `lifeCycleMap[name]`. */
  datatype JsValue = JsString(s: string) | JsFunction | JsObject | JsUndefined

  /**
   * `lifeCycleMap[name]`: the hook name for an own key, `Object.prototype` itself for
   * `__proto__`, an inherited method for the other prototype names, else `undefined`.
   */
  function LifeCycleLookup(name: string): (r: JsValue)
    ensures r.JsString? <==> name in LifeCycleMap
    ensures r.JsString? ==> r.s == LifeCycleMap[name]
    ensures r.JsUndefined? <==> !InLifeCycleObject(name)
  {
    if name in LifeCycleMap then JsString(LifeCycleMap[name])
    else if name == "__proto__" then JsObject
    else if name in ObjectPrototypeNames then JsFunction
    else JsUndefined
  }

  /**
   * `canTypeBeInfered`: an absent annotation, or a TypeScript annotation around a base
   * type, may be left to inference.
   */
  predicate CanTypeBeInfered(node: Option<Node>)
  {
    node.None? || (node.value.TSTypeAnnotation? && node.value.tsType.TSBaseType?)
  }

  /** `params.filter((p) => !t.isTSParameterProperty(p))` */
  function WithoutParameterProperties(ps: seq<Node>): (r: seq<Node>)
    ensures |r| <= |ps|
    ensures forall i :: 0 <= i < |r| ==> !r[i].TSParameterProperty? && r[i] in ps
    ensures forall i :: 0 <= i < |ps| && !ps[i].TSParameterProperty? ==> ps[i] in r
    ensures (forall i :: 0 <= i < |ps| ==> !ps[i].TSParameterProperty?) ==> r == ps
  {
    if ps == [] then []
    else
      var rest := WithoutParameterProperties(ps[1..]);
      assert forall i :: 1 <= i < |ps| ==> ps[i] == ps[1..][i - 1];
      if ps[0].TSParameterProperty? then rest else [ps[0]] + rest
  }

  /** The filter keeps order: filtering a concatenation concatenates the filtered parts. */
  lemma {:induction false} WithoutParameterPropertiesAppend(a: seq<Node>, b: seq<Node>)
    ensures WithoutParameterProperties(a + b) == WithoutParameterProperties(a) + WithoutParameterProperties(b)
  {
    if a == [] {
      assert a + b == b;
    } else {
      assert (a + b)[0] == a[0];
      assert (a + b)[1..] == a[1..] + b;
      WithoutParameterPropertiesAppend(a[1..], b);
    }
  }

  /** A single parameter is kept iff it is not a parameter property. */
  lemma WithoutParameterPropertiesSingle(p: Node)
    ensures WithoutParameterProperties([p]) == if p.TSParameterProperty? then [] else [p]
  {
    assert [p][1..] == [];
  }

  /** `processMethod`: a method with an identifier key becomes a Function record. */
  function ProcessMethod(m: Node): (r: Option<VueFunction>)
    requires m.ClassMethod?
    ensures r.None? <==> !m.key.Identifier?
    ensures r.Some? ==> r.value.identifier == m.key.name
    ensures r.Some? ==> (r.value.isLifecycleFunction <==> m.key.name in LifeCycleMap)
    ensures r.Some? ==> r.value.func == FunctionExpression(Some(m.key.name),
              WithoutParameterProperties(m.params), m.body, m.generator, m.async, m.returnType)
    ensures r.Some? ==> r.value.comments == m.leadingComments
  {
    if m.key.Identifier? then
      var name := m.key.name;
      var func := FunctionExpression(Some(name), WithoutParameterProperties(m.params),
                                     m.body, m.generator, m.async, m.returnType);
      Some(VueFunction(name, func, name in LifeCycleMap, m.leadingComments))
    else None
  }

  /**
   * `processMethod` as written: the hook flag is JavaScript's `in`, which also holds for
   * the names inherited from `Object.prototype`. It differs from `ProcessMethod` in that
   * flag only.
   */
  function ProcessMethodAsWritten(m: Node): (r: Option<VueFunction>)
    requires m.ClassMethod?
    ensures r.None? <==> ProcessMethod(m).None?
    ensures r.Some? ==> (r.value.isLifecycleFunction <==> InLifeCycleObject(m.key.name))
    ensures r.Some? ==> r.value.(isLifecycleFunction := false) == ProcessMethod(m).value.(isLifecycleFunction := false)
  {
    if m.key.Identifier? then
      var name := m.key.name;
      var func := FunctionExpression(Some(name), WithoutParameterProperties(m.params),
                                     m.body, m.generator, m.async, m.returnType);
      Some(VueFunction(name, func, InLifeCycleObject(name), m.leadingComments))
    else None
  }

  /** `processComputed`: a getter with an identifier key becomes a Computed record. */
  function ProcessComputed(m: Node): (r: Option<VueComputed>)
    requires m.ClassMethod?
    ensures r.None? <==> !m.key.Identifier?
    ensures r.Some? ==> r.value.identifier == m.key.name
    ensures r.Some? ==> r.value.func == ArrowFunctionExpression(
              WithoutParameterProperties(m.params), m.body, m.async, m.returnType)
    ensures r.Some? ==> r.value.declaredType == m.returnType
    ensures r.Some? ==> r.value.comments == m.leadingComments
  {
    if m.key.Identifier? then
      var func := ArrowFunctionExpression(WithoutParameterProperties(m.params), m.body, m.async, m.returnType);
      Some(VueComputed(m.key.name, func.returnType, func, m.leadingComments))
    else None
  }

  /** The callee shapes `processEmits` accepts: `this.$emit` and a bare `emit`. */
  predicate IsEmitCallee(callee: Node)
  {
    (IsThisIdentifierMember(callee) && callee.property.name == "$emit")
    || (callee.Identifier? && callee.name == "emit")
  }

  /** `processEmits` */
  function ProcessEmits(call: Node): (r: Option<VueEmit>)
    requires call.CallExpression?
    ensures r.Some? <==> IsEmitCallee(call.callee) && |call.arguments| > 0
                         && call.arguments[0].StringLiteral?
    ensures r.Some? ==> r.value.identifier == call.arguments[0].strValue
    ensures r.Some? ==> (r.value.argNode.Some? <==> |call.arguments| >= 2)
    ensures r.Some? && |call.arguments| >= 2 ==> r.value.argNode.value == call.arguments[1]
  {
    var args := call.arguments;
    if IsEmitCallee(call.callee) && |args| > 0 && args[0].StringLiteral? then
      Some(VueEmit(args[0].strValue, if |args| > 1 then Some(args[1]) else None))
    else None
  }

  /** `processReactive`: the flavour is decided by the initializer alone. */
  function ProcessReactive(f: Node): (r: Option<VueReactive>)
    requires f.ClassProperty?
    ensures r.None? <==> !f.key.Identifier? || f.key.name == ""
    ensures r.Some? ==> r.value.identifier == f.key.name
    ensures r.Some? ==> (r.value.reactiveType == Reactive <==> f.value.Some? && f.value.value.ObjectExpression?)
    ensures r.Some? ==> r.value.value == f.value && r.value.declaredType == f.typeAnnotation
    ensures r.Some? ==> r.value.comments == f.leadingComments
  {
    // `if (name)`: an empty name is falsy
    if f.key.Identifier? && f.key.name != "" then
      var isObject := f.value.Some? && f.value.value.ObjectExpression?;
      Some(VueReactive(f.key.name, if isObject then Reactive else Ref, f.typeAnnotation,
                       f.value, f.leadingComments))
    else None
  }

  /** A call with more than one argument, which `processProp` rejects. */
  predicate IsMultiArgumentCall(n: Node)
  {
    n.CallExpression? && |n.arguments| > 1
  }

  /** A call whose first argument is an array, an object literal or an identifier. */
  predicate HasDecoratorArgument(n: Node)
  {
    n.CallExpression? && |n.arguments| > 0
    && (n.arguments[0].ArrayExpression? || n.arguments[0].ObjectExpression? || n.arguments[0].Identifier?)
  }

  /** The `propDecorator` the traversal leaves behind: the last qualifying first argument. */
  function LastDecoratorArgument(ns: seq<Node>): (r: Option<Node>)
    ensures r.None? <==> forall k :: 0 <= k < |ns| ==> !HasDecoratorArgument(ns[k])
    ensures r.Some? ==> exists k :: 0 <= k < |ns| && HasDecoratorArgument(ns[k])
                          && r.value == ns[k].arguments[0]
                          && forall j :: k < j < |ns| ==> !HasDecoratorArgument(ns[j])
  {
    if ns == [] then None
    else
      var last := ns[|ns| - 1];
      if HasDecoratorArgument(last) then Some(last.arguments[0])
      else
        var r := LastDecoratorArgument(ns[..|ns| - 1]);
        assert forall k :: 0 <= k < |ns| - 1 ==> ns[..|ns| - 1][k] == ns[k];
        r
  }

  /** A property of the options object that is a key `default`. */
  predicate IsDefaultEntry(p: Node)
  {
    p.ObjectProperty? && p.key.Identifier? && p.key.name == "default"
  }

  /** A `validator` object method, or a `validator` property holding a function expression. */
  predicate IsValidatorEntry(p: Node)
  {
    (p.ObjectMethod? && p.key.Identifier? && p.key.name == "validator")
    || (p.ObjectProperty? && p.key.Identifier? && p.key.name == "validator" && p.propValue.FunctionExpression?)
  }

  /** The validator node a validator entry contributes. */
  function ValidatorOfEntry(p: Node): ValidatorNode
    requires IsValidatorEntry(p)
  {
    if p.ObjectMethod? then p else p.propValue
  }

  /** The last `default` entry wins. */
  function LastDefault(ps: seq<Node>): (r: Option<Node>)
    ensures r.None? <==> forall k :: 0 <= k < |ps| ==> !IsDefaultEntry(ps[k])
    ensures r.Some? ==> exists k :: 0 <= k < |ps| && IsDefaultEntry(ps[k]) && r.value == ps[k].propValue
                          && forall j :: k < j < |ps| ==> !IsDefaultEntry(ps[j])
  {
    if ps == [] then None
    else if IsDefaultEntry(ps[|ps| - 1]) then Some(ps[|ps| - 1].propValue)
    else
      var r := LastDefault(ps[..|ps| - 1]);
      assert forall k :: 0 <= k < |ps| - 1 ==> ps[..|ps| - 1][k] == ps[k];
      r
  }

  /** The last validator entry wins. */
  function LastValidator(ps: seq<Node>): (r: Option<ValidatorNode>)
    ensures r.None? <==> forall k :: 0 <= k < |ps| ==> !IsValidatorEntry(ps[k])
    ensures r.Some? ==> exists k :: 0 <= k < |ps| && IsValidatorEntry(ps[k]) && r.value == ValidatorOfEntry(ps[k])
                          && forall j :: k < j < |ps| ==> !IsValidatorEntry(ps[j])
  {
    if ps == [] then None
    else if IsValidatorEntry(ps[|ps| - 1]) then Some(ValidatorOfEntry(ps[|ps| - 1]))
    else
      var r := LastValidator(ps[..|ps| - 1]);
      assert forall k :: 0 <= k < |ps| - 1 ==> ps[..|ps| - 1][k] == ps[k];
      r
  }

  lemma LastDecoratorArgumentSnoc(ns: seq<Node>, i: nat)
    requires i < |ns|
    ensures LastDecoratorArgument(ns[..i + 1])
            == if HasDecoratorArgument(ns[i]) then Some(ns[i].arguments[0]) else LastDecoratorArgument(ns[..i])
  {
    assert ns[..i + 1][..i] == ns[..i];
  }

  lemma LastEntrySnoc(ps: seq<Node>, i: nat)
    requires i < |ps|
    ensures LastDefault(ps[..i + 1]) == if IsDefaultEntry(ps[i]) then Some(ps[i].propValue) else LastDefault(ps[..i])
    ensures LastValidator(ps[..i + 1])
            == if IsValidatorEntry(ps[i]) then Some(ValidatorOfEntry(ps[i])) else LastValidator(ps[..i])
  {
    assert ps[..i + 1][..i] == ps[..i];
  }

  /** The identifier of a key, or `''` when the key is not an identifier. */
  function KeyName(key: Node): string
  {
    if key.Identifier? then key.name else ""
  }

  /** The Prop record `processProp` returns when it does not throw. */
  function PropRecord(f: Node): VueProp
    requires f.ClassProperty?
  {
    var decorator := LastDecoratorArgument(Descendants(f));
    var entries := if decorator.Some? && decorator.value.ObjectExpression? then decorator.value.properties else [];
    VueProp(KeyName(f.key), f.typeAnnotation, false, LastDefault(entries), LastValidator(entries), f.leadingComments)
  }

  /** What `processProp` produces: an error as soon as a call has two arguments or more. */
  function PropOf(f: Node): Result<VueProp>
    requires f.ClassProperty?
  {
    if exists k :: 0 <= k < |Descendants(f)| && IsMultiArgumentCall(Descendants(f)[k])
    then Err(DecoratorArgumentError)
    else Ok(PropRecord(f))
  }

  /**
   * A Prop field is rejected exactly when some call below it has more than one argument;
   * otherwise it is an optional prop named by its key, typed by its annotation.
   */
  lemma PropOfShape(f: Node)
    requires f.ClassProperty?
    ensures PropOf(f).Err? <==> exists k :: 0 <= k < |Descendants(f)| && IsMultiArgumentCall(Descendants(f)[k])
    ensures PropOf(f).Err? ==> PropOf(f).thrown == DecoratorArgumentError
    ensures PropOf(f).Ok? ==> PropOf(f).value.identifier == KeyName(f.key) && !PropOf(f).value.required
    ensures PropOf(f).Ok? ==> PropOf(f).value.declaredType == f.typeAnnotation
                              && PropOf(f).value.comments == f.leadingComments
  {
  }

  /** `processProp`: read the decorator call's argument, then the options object's entries. */
  method ProcessProp(f: Node) returns (r: Result<VueProp>)
    requires f.ClassProperty?
    ensures r == PropOf(f)
  {
    var scan := ScanDecoratorCalls(Descendants(f));
    if scan.Err? {
      return Err(scan.thrown);
    }
    var prop := BuildProp(f, scan.value);
    r := Ok(prop);
  }

  /**
   * The traversal of `processProp` over the calls below the field: it throws at the first
   * call with more than one argument, and otherwise keeps the last decorator argument.
   */
  method ScanDecoratorCalls(nodes: seq<Node>) returns (r: Result<Option<Node>>)
    ensures r.Err? <==> exists k :: 0 <= k < |nodes| && IsMultiArgumentCall(nodes[k])
    ensures r.Err? ==> r.thrown == DecoratorArgumentError
    ensures r.Ok? ==> r.value == LastDecoratorArgument(nodes)
  {
    var propDecorator: Option<Node> := None;
    var i := 0;
    while i < |nodes|
      invariant 0 <= i <= |nodes|
      invariant forall k :: 0 <= k < i ==> !IsMultiArgumentCall(nodes[k])
      invariant propDecorator == LastDecoratorArgument(nodes[..i])
    {
      var n := nodes[i];
      if n.CallExpression? {
        if |n.arguments| > 1 {
          assert IsMultiArgumentCall(nodes[i]);
          return Err(DecoratorArgumentError);
        }
        if HasDecoratorArgument(n) {
          propDecorator := Some(n.arguments[0]);
        }
      }
      LastDecoratorArgumentSnoc(nodes, i);
      i := i + 1;
    }
    assert nodes[..i] == nodes;
    r := Ok(propDecorator);
  }

  /** The record `processProp` builds once the decorator argument is known. */
  method BuildProp(f: Node, propDecorator: Option<Node>) returns (prop: VueProp)
    requires f.ClassProperty?
    requires propDecorator == LastDecoratorArgument(Descendants(f))
    ensures prop == PropRecord(f)
  {
    var defaultValue: Option<Node> := None;
    var validator: Option<ValidatorNode> := None;
    if propDecorator.Some? && propDecorator.value.ObjectExpression? {
      defaultValue, validator := ReadPropOptions(propDecorator.value.properties);
    } else {
      assert LastDefault([]) == None && LastValidator([]) == None;
    }
    prop := VueProp(KeyName(f.key), f.typeAnnotation, false, defaultValue, validator, f.leadingComments);
  }

  /** The scan of the `@Prop({...})` options object: the last `default` and the last `validator` win. */
  method ReadPropOptions(entries: seq<Node>) returns (defaultValue: Option<Node>, validator: Option<ValidatorNode>)
    ensures defaultValue == LastDefault(entries) && validator == LastValidator(entries)
  {
    defaultValue, validator := None, None;
    var j := 0;
    while j < |entries|
      invariant 0 <= j <= |entries|
      invariant defaultValue == LastDefault(entries[..j])
      invariant validator == LastValidator(entries[..j])
    {
      var p := entries[j];
      if p.ObjectMethod? && p.key.Identifier? && p.key.name == "validator" {
        validator := Some(p);
      } else if p.ObjectProperty? {
        if p.key.Identifier? && p.key.name == "validator" && p.propValue.FunctionExpression? {
          validator := Some(p.propValue);
        }
        if p.key.Identifier? && p.key.name == "default" {
          defaultValue := Some(p.propValue);
        }
      }
      LastEntrySnoc(entries, j);
      j := j + 1;
    }
    assert entries[..j] == entries;
  }

  /** A call to the identifier `Prop`. */
  predicate IsPropCall(n: Node)
  {
    n.CallExpression? && n.callee.Identifier? && n.callee.name == "Prop"
  }

  /** What `processProperty` produces. */
  function PropertyOf(f: Node): Result<Option<FieldEntity>>
    requires f.ClassProperty?
  {
    if f.decorators == [] then
      Ok(match ProcessReactive(f) case None => None case Some(x) => Some(ReactiveField(x)))
    else if exists k :: 0 <= k < |Descendants(f)| && IsPropCall(Descendants(f)[k]) then
      match PropOf(f)
      case Err(e) => Err(e)
      case Ok(p) => Ok(Some(PropField(p)))
    else Ok(None)
  }

  /**
   * `processProperty`: an undecorated field is state; a decorated one is a prop only when
   * a call to `Prop` occurs somewhere inside it, and is dropped otherwise.
   */
  method ProcessProperty(f: Node) returns (r: Result<Option<FieldEntity>>)
    requires f.ClassProperty?
    ensures r == PropertyOf(f)
    ensures f.decorators == [] ==> r.Ok? && (r.value.None? <==> ProcessReactive(f).None?)
    ensures f.decorators == [] && r.Ok? && r.value.Some? ==> r.value.value == ReactiveField(ProcessReactive(f).value)
    ensures f.decorators != [] && r.Ok? && r.value.Some? ==> r.value.value.PropField?
    ensures f.decorators != [] ==> (r.Ok? && r.value.Some? <==>
              (exists k :: 0 <= k < |Descendants(f)| && IsPropCall(Descendants(f)[k])) && PropOf(f).Ok?)
  {
    if f.decorators == [] {
      var reactive := ProcessReactive(f);
      return Ok(if reactive.Some? then Some(ReactiveField(reactive.value)) else None);
    }
    var nodes := Descendants(f);
    var value: Option<FieldEntity> := None;
    var i := 0;
    while i < |nodes|
      invariant 0 <= i <= |nodes|
      invariant value.Some? <==> exists k :: 0 <= k < i && IsPropCall(nodes[k])
      invariant value.Some? ==> PropOf(f).Ok? && value.value == PropField(PropOf(f).value)
    {
      if nodes[i].CallExpression? && nodes[i].callee.Identifier? && nodes[i].callee.name == "Prop" {
        var prop := ProcessProp(f);
        if prop.Err? {
          return Err(prop.thrown);
        }
        value := Some(PropField(prop.value));
      }
      i := i + 1;
    }
    r := Ok(value);
  }
}
