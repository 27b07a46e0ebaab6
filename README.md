# vue-class-transpiler, class-to-setup core, in Dafny

This project models the part of vue-class-transpiler that turns a Vue 2 class component,
written with `vue-property-decorator`, into the body of a Vue 3 `<script setup>`.

The modelled pipeline has four steps:

- **Classify** (`helpers.ts`). A pre-order walk over the parsed class collects records:
  - class fields become `ref`/`reactive` bindings or props;
  - methods become functions, or lifecycle hooks;
  - getters become `computed` values;
  - `this.$emit(...)` and `emit(...)` calls declare events;
  - `this.$router` asks for a `useRouter()` composable.
- **Synthesize** (`templates.ts`). The records are printed into one script: the props block
  (`defineProps`, optionally `withDefaults` and `toRefs`), then the `defineEmits` block, then the
  composable, `ref`/`reactive`, function and `computed` declarations.
- **Rewrite** (`visitors.ts`). The script is parsed again and rewritten in two traversals:
  - one leading `$` is stripped from every identifier;
  - `this.x` is then resolved: a call through it calls `x` directly, a reactive or composable
    binding is read bare, and anything else is read as `x.value`.
- **Drive** (`transpilerClass.ts`). `Transpiler.traverse` chains the steps. It reports an error
  thrown during the run (the decorator check), or formats the result.

The files, by module:

- `base.dfy`: `Option`, `Result` and what a JavaScript `throw` carries.
- `js_text.dfy`: the string built-ins the source relies on: `join`, `trim`, `replace` with a
  one-character pattern, `${undefined}`, and the `/.*Store\b/` test.
- `ast.dfy`: the Babel node subset, pre-order traversal, and a structural `Everywhere`
  predicate. `EverywherePreorder` proves it equal to "every node of the pre-order traversal".
- `types.dfy`: the records of `types.ts`.
- `helpers.dfy`, `transforms.dfy`, `templates.dfy`, `visitors.dfy`: the source file of the same name.
- `transpiler.dfy`: the driver.

How the source's forms are modelled:

- The parser, `@babel/generator` and the formatter are parameters, not implementations.
- Each `MagicString` the templates build is a `TextBuffer` class whose `Append` and `Prepend`
  methods are specified against its text.
- The loops that build text or state step by step are methods with invariants, each proved
  equal to a recursive reference function: the `forEach` and `for ... of` loops of the templates,
  the map that de-duplicates the events, the traversal of the collecting visitors, and the three
  `map` calls of the driver. The properties are lemmas about the reference functions.
- The other iterations of the source are single expressions (`filter`, `map`, `some`, `join`,
  spread into a `Set`). They are modelled as recursive functions, for example
  `WithoutParameterProperties`, `WithCodeAll`, `SomeHasDefault`, `PropIdentifiers`,
  `ComposableTexts` and `HoistedOf`.
- The two rewriting traversals change the tree in place. They are modelled as functions from
  tree to tree.

## Model

| member | source | states |
|---|---|---|
| Helpers.LifeCycleMapShape | src/transpiler/helpers.ts:5-14 | The hook map has exactly the eight Vue 2 hook names as keys; only `beforeCreate`, `created` and `beforeMount` map to `onBeforeMount`. |
| Helpers.WithoutParameterProperties | src/transpiler/helpers.ts:41-44 | The filtered parameters are exactly the parameters that are not TS parameter properties. The list is unchanged when there are none. |
| Helpers.WithoutParameterPropertiesAppend | src/transpiler/helpers.ts:41-44 | Filtering a concatenation is the concatenation of the filtered parts, so the filter keeps the order of the parameters. |
| Helpers.WithoutParameterPropertiesSingle | src/transpiler/helpers.ts:41-44 | A single parameter is kept iff it is not a TS parameter property. With the lemma above this fixes the filter on every list. |
| Helpers.ProcessMethod | src/transpiler/helpers.ts:39-71 | No record iff the key is not an identifier. Otherwise the record is named after the key and is a lifecycle function iff the name is a hook. It holds a named function expression with the filtered parameters, body, generator/async flags and return type, plus the leading comments. |
| Helpers.PrototypeNamesAreNotHooks | src/transpiler/helpers.ts:5-14 | No name inherited from `Object.prototype` is a key of the hook map. |
| Helpers.LifeCycleLookup | src/transpiler/templates.ts:170 | `lifeCycleMap[name]` is a string iff the name is an own key, and then it is the mapped hook. It is `undefined` iff JavaScript's `in` is false for the name. |
| Helpers.ProcessMethodAsWritten | src/transpiler/helpers.ts:57-60 | With JavaScript's `in`, the flag holds iff the name is a hook or an `Object.prototype` name. The record differs from `ProcessMethod`'s in that flag only. |
| Helpers.ProcessComputed | src/transpiler/helpers.ts:92-110 | No record iff the key is not an identifier. Otherwise the record carries an arrow with the filtered parameters, body, async flag and return type. Its declared type is that return type, and it keeps the comments. |
| Helpers.ProcessEmits | src/transpiler/helpers.ts:73-90 | An event is declared iff the callee is `this.$emit` or `emit` and the first argument is a string literal. The event is named by that string. It has a payload iff there is a second argument, and the payload is that argument. |
| Helpers.ProcessReactive | src/transpiler/helpers.ts:112-136 | No binding iff the key is not an identifier or its name is empty. Otherwise the binding is named by the key and is `reactive` iff the initial value is an object literal. Value, type and comments are copied. |
| Helpers.LastDecoratorArgument | src/transpiler/helpers.ts:146-158 | The decorator argument kept is the first argument of the LAST call whose argument is an array, object or identifier, or none if there is no such call. |
| Helpers.LastDefault | src/transpiler/helpers.ts:170-186 | The default kept is the value of the last `default` property of the options object. |
| Helpers.LastValidator | src/transpiler/helpers.ts:173-182 | The validator kept is from the last `validator` method, or the last `validator` property holding a function expression. |
| Helpers.PropOfShape | src/transpiler/helpers.ts:139-204 | Processing a prop throws iff some call below the field has two arguments or more, and what it throws is the decorator error. Otherwise the prop is named by the key, optional, typed by the annotation and keeps the comments. |
| Helpers.ProcessProp | src/transpiler/helpers.ts:139-204 | The traversal (with its early throw) followed by the options scan computes exactly `PropOf`. |
| Helpers.ScanDecoratorCalls | src/transpiler/helpers.ts:141-160 | The traversal throws iff some call below the field has two arguments or more, and throws the decorator error. Otherwise it keeps exactly the last decorator argument. |
| Helpers.BuildProp | src/transpiler/helpers.ts:162-203 | Once the decorator argument is known, the record built is exactly `PropRecord`. |
| Helpers.ReadPropOptions | src/transpiler/helpers.ts:169-187 | The scan over the options object yields exactly the last default and the last validator. |
| Helpers.ProcessProperty | src/transpiler/helpers.ts:24-37 | An undecorated field is classified as its reactive binding. A decorated field yields a prop iff some call below it has callee `Prop` and processing the prop does not throw; otherwise it yields nothing. |
| Transforms.FuncExpressionToArrowFuncExpression | src/transpiler/transforms.ts:3-8 | The arrow keeps the parameters, body, async flag and return type of the function. |
| Transforms.ArrowForgetsNameAndGenerator | src/transpiler/transforms.ts:3-8 | The function's name and generator flag do not affect the arrow. |
| Templates.TextBuffer.Append | src/transpiler/templates.ts:11 | The text grows by exactly the appended string at its end. |
| Templates.TextBuffer.Prepend | src/transpiler/templates.ts:30 | The text grows by exactly the prepended string at its start. |
| Templates.GenerateCode | src/transpiler/templates.ts:36-43 | No code iff no node. A non-type node prints as the generator's non-empty code. A type's code has no white space at either end. |
| Templates.GenerateCommentsEmptyIff | src/transpiler/templates.ts:45-50 | The comment text is empty iff there are no comments. |
| Templates.LineCommentTextDropped | src/transpiler/templates.ts:49 | A line comment prints as a bare `//`, so its words never reach the output. |
| Templates.OptionalIffDefault | src/transpiler/templates.ts:64-68 | A prop is marked optional (`?`) iff it has a default value. |
| Templates.DefaultsListExactlyDefaulted | src/transpiler/templates.ts:74-82 | The defaults object lists `identifier:default` for exactly the props with a default, in order. |
| Templates.SeparatedPrefixJoins | src/transpiler/templates.ts:77-81 | Appending each entry with a comma except after the last yields the comma join. |
| Templates.WithDefaultsIff | src/transpiler/templates.ts:60-85 | Without destructuring, the props definition is wrapped in `withDefaults(` iff some prop has a default. |
| Templates.DestructuredWithDefaultsIff | src/transpiler/templates.ts:74-93 | With destructuring, the form the driver uses, the block opens with `const props = withDefaults(` iff some prop has a default. |
| Templates.MergedPropsIgnoreValidators | src/transpiler/templates.ts:52-95 | Validators never influence the props block: props that differ only in their validators give the same text. |
| Templates.MergeProps | src/transpiler/templates.ts:52-95 | The `MagicString` assembly returns exactly `MergedProps`. |
| Templates.PropsDefinitionText | src/transpiler/templates.ts:62-72 | The `defineProps<{...}>()` buffer, line by line, equals `PropsDefinition`. |
| Templates.DefaultsObjectText | src/transpiler/templates.ts:75-82 | The defaults buffer equals `DefaultsObject`. |
| Templates.FirstOccurrencesNames | src/transpiler/templates.ts:98-104 | De-duplicating the events keeps exactly the set of event names. |
| Templates.FirstOccurrencesDistinct | src/transpiler/templates.ts:98-104 | The kept events have pairwise distinct names. |
| Templates.FirstOccurrencesFirst | src/transpiler/templates.ts:98-104 | Each kept event is the first event of its name, and the kept events are in the order of their first occurrence. |
| Templates.FirstEmitPerName | src/transpiler/templates.ts:98-104 | The map-filling loop, read back in insertion order, yields exactly the first occurrences. |
| Templates.MapValuesInOrder | src/transpiler/templates.ts:108 | `Array.from(map.values())` lists the values in key-insertion order. |
| Templates.MergeEmits | src/transpiler/templates.ts:97-115 | The emits block equals `MergedEmits`: one signature per distinct event, joined by commas. |
| Templates.InferValueTypeTable | src/transpiler/templates.ts:194-211 | A type is inferred exactly for string, number and boolean literals and for object, array and function values. The names are `string`, `number`, `boolean`, `object`, `Array` and `Function`, both function forms give `Function`, and the other literals get none. |
| Templates.PayloadTypes | src/transpiler/templates.ts:106-115 | A payload type appears iff the argument is a literal (`t.isLiteral`), and is then what `inferValueType` gives. Strings, numbers and booleans map to their type names. Null, template and other literals print `undefined`. Objects, arrays and functions never get a payload. |
| Templates.ReactiveTemplate | src/transpiler/templates.ts:121-157 | The template returns exactly `ReactiveText`. |
| Templates.StoreBindingIgnoresEverythingElse | src/transpiler/templates.ts:128-134 | A store call prints `const x = <call>`, and options, comments, type and kind do not affect it. |
| Templates.BaseTypesLeftToInference | src/transpiler/helpers.ts:16-22 | `canTypeBeInfered` as seen in the output: a declared type is left out exactly when inference is on and the annotation is a TypeScript annotation around a base type. |
| Templates.TypeArgumentIff | src/transpiler/templates.ts:139-149 | A generic argument `<...>` is printed iff a type is declared and it is not dropped by inference. |
| Templates.ReactiveShape | src/transpiler/templates.ts:121-157 | A classified field prints as comments when shown, `const name = ref` or `reactive`, the generic argument, and the initial value in parentheses (or `()`). |
| Templates.FunctionTemplate | src/transpiler/templates.ts:159-189 | The template returns exactly `FunctionText`. |
| Templates.IdentifierBuilder | src/transpiler/templates.ts:174 | `t.identifier` builds a node iff it is given a string, naming the node by it; anything else throws an error whose message says a string was expected. |
| Templates.FunctionTextAsWritten | src/transpiler/templates.ts:159-189 | On a record that is not a hook, or whose name has its own entry in the map, the template prints `FunctionText`. On a hook record without one, it throws an `Error`. |
| Templates.InheritedNameTakenForHook | src/transpiler/helpers.ts:57-60 | A method named after an `Object.prototype` member is marked as a hook by the source and its template throws. With the own-key test it is not a hook and prints as the named function with its own body. |
| Templates.MethodRendering | src/transpiler/templates.ts:165-182 | A hook method prints as a call of the mapped Vue 3 hook on an arrow. Any other method prints as the named function. The return type is dropped exactly when inference is on and the type is inferable. |
| Templates.ComputedTemplate | src/transpiler/templates.ts:9-34 | The template returns exactly `ComputedText`. |
| Templates.ComputedShape | src/transpiler/templates.ts:9-34 | A getter prints as `const name = computed`, the generic argument, and an arrow that never keeps a return type. |
| Visitors.RewriteThisRemovesThisMembers | src/transpiler/visitors.ts:5-49 | After the rewrite no `this.<identifier>` access is left, given the tree has no `this[this.x]`. |
| Visitors.RewriteThisLeavesThisFree | src/transpiler/visitors.ts:5-49 | A tree without `this.<identifier>` is left unchanged. |
| Visitors.RewriteThisIdempotent | src/transpiler/visitors.ts:5-49 | Rewriting again, even with other reactive names, changes nothing. |
| Visitors.RewriteThisIdentifier | src/transpiler/visitors.ts:11-45 | The rewrite yields a bare identifier only from an identifier or a `this.<identifier>` access. |
| Visitors.StripMarkerFixedIff | src/transpiler/visitors.ts:54-56 | A name is left alone iff it does not start with `$`. |
| Visitors.UpdatePrefixFixedIff | src/transpiler/visitors.ts:51-59 | The prefix traversal changes nothing iff no identifier starts with `$`. |
| Visitors.UpdatePrefixRemovesMarkers | src/transpiler/visitors.ts:51-59 | If no identifier starts with `$$`, no identifier starts with `$` afterwards. |
| Visitors.UpdatePrefixIdempotent | src/transpiler/visitors.ts:51-59 | Under the same hypothesis, running the traversal twice equals running it once. |
| Transpiler.VisitNode | src/transpiler/transpilerClass.ts:64-94 | One visit of a node by the four visitors, in imperative form, equals `Visit`. |
| Transpiler.Collect | src/transpiler/transpilerClass.ts:95-98 | The traversal loop stops at the first throw and equals `Extract` over the pre-order nodes. |
| Transpiler.ExtractIsSeparately | src/transpiler/transpilerClass.ts:57-98 | The walk succeeds iff no node throws. On success each list is what its own visitor collects, in visit order. |
| Transpiler.VisitAppends | src/transpiler/transpilerClass.ts:64-94 | A node that does not throw adds at most one record to each list and leaves the rest alone. |
| Transpiler.ExtractThrowsFirst | src/transpiler/transpilerClass.ts:95-98 | A failed walk fails with what the first throwing node throws, which is always the decorator error. |
| Transpiler.FunctionsHooksMapped | src/transpiler/transpilerClass.ts:70-74 | Every function marked as a lifecycle hook has an entry in the hook map. |
| Transpiler.ComposablesAreRouters | src/transpiler/transpilerClass.ts:86-93 | Every composable collected is `useRouter` bound to `router`. There is exactly one per read of `this.$router`, so there is one at all iff the class reads `this.$router`. |
| Transpiler.DistinctComposables | src/transpiler/transpilerClass.ts:62 | The corrected set, comparing composables by value, holds the same composables as the collected list, each once. |
| Transpiler.DistinctComposablesInOrder | src/transpiler/transpilerClass.ts:62 | The corrected set keeps the composables in the order each first occurs in the collected list, as a JavaScript `Set` iterates in insertion order. |
| Transpiler.DistinctRouters | src/transpiler/transpilerClass.ts:62 | Router composables kept once each are one router composable, or none when there were none. |
| Transpiler.RouterReadTwiceDeclaredTwice | src/transpiler/transpilerClass.ts:62-117 | Two reads of `this.$router` collect two router composables, and the synthesized script is exactly `\nconst router = useRouter()\nconst router = useRouter()\n\n\n`, declaring `router` twice. |
| Transpiler.RouterReadTwiceReported | src/transpiler/transpilerClass.ts:52-147 | For a class that collects exactly those two composables, the result is the failure the parser reports on that script, whenever it rejects it. |
| Transpiler.ComposablesDeclaredHoisted | src/transpiler/templates.ts:117-119 | Each composable's line is a `const` declaration of the composable's name, and that name is among the names the rewrite reads bare. |
| Transpiler.HoistedOfExactly | src/transpiler/transpilerClass.ts:130-136 | The names read through `.value` are exactly the `ref` bindings. The names read bare are exactly the `reactive` bindings and the names the composable lines declare. |
| Transpiler.RouterDeclaredOnce | src/transpiler/transpilerClass.ts:62-117 | With the composables kept once each, the script declares `const router = useRouter()` exactly once if the class reads `this.$router`, and declares nothing otherwise. |
| Transpiler.RouterHoisted | src/transpiler/transpilerClass.ts:86-136 | Reading `this.$router` is equivalent to having a `router` composable, and implies `router` is among the bare-read names. |
| Transpiler.Synthesize | src/transpiler/transpilerClass.ts:100-123 | The `MagicString` assembly equals `SynthesizedText`, with one line per collected composable, duplicates included. |
| Transpiler.AppendHeader | src/transpiler/transpilerClass.ts:102-110 | The props block and emits block are appended, each only when its list is non-empty. |
| Transpiler.RenderReactives | src/transpiler/transpilerClass.ts:119 | The `map` over bindings yields each binding's template in order. |
| Transpiler.RenderFunctions | src/transpiler/transpilerClass.ts:121 | The `map` over functions yields each function's template in order. |
| Transpiler.ComputedTextsPointwise | src/transpiler/transpilerClass.ts:123 | The getters block holds, at each position, the template of the getter at that position. |
| Transpiler.RenderComputeds | src/transpiler/transpilerClass.ts:123 | The `map` over getters yields each getter's template in order. |
| Transpiler.PropsDeclaredIff | src/transpiler/transpilerClass.ts:102-123 | The script opens with the `const props =` block iff some prop was collected. |
| Transpiler.RouterAccessResolves | src/transpiler/visitors.ts:36-41 | Once `router` is hoisted, `this.$router` ends up as the bare `router`. |
| Transpiler.EmitCallResolves | src/transpiler/visitors.ts:11-20 | `this.$emit(...)` ends up as a call of `emit` with rewritten arguments. |
| Transpiler.StateAccessResolves | src/transpiler/visitors.ts:36-45 | `this.x` ends up as `x` for a reactive or composable binding, and as `x.value` otherwise. |
| Transpiler.Failure | src/transpiler/transpilerClass.ts:140-146 | An `Error` is reported with its message; anything else thrown as `Unknown error`. |
| Transpiler.DecoratorErrorReported | src/transpiler/transpilerClass.ts:95-146 | If any field's decorator call has two arguments, the result is the error `Decorator can only contain one argument`. |
| Transpiler.Transpiler.Traverse | src/transpiler/transpilerClass.ts:52-147 | The whole method equals `TranspileSpec`: parse, collect, synthesize, re-parse, strip `$`, resolve `this`, generate, format, with each throw caught. Methods named after `Object.prototype` members are the one difference, listed under Left out. |
| Transpiler.Transpiler.constructor | src/transpiler/transpilerClass.ts:43 | The transpiler keeps the formatter it is given. |

## Left out

- Parsing, code generation and formatting are parameters: `parse`, `@babel/generator` and `IFormatter.format`.
  - The only things assumed of the printer are that it is a function and never prints an empty text.
  - Whatever the parser or formatter throws is modelled as the `Thrown` they may return.
- `consola` logging and the unused `output` field of `Transpiler` are not modelled. `Formatter.ts` is not part of this model.
- The `Decorator` wrapper node is not modelled. A class member's decorators are its decorator expressions.
- Babel's visitor order is assumed to be source order, the order of `Preorder`.
- The store step of `updateThisExpression` (`visitors.ts:28-34`) assigns to a field of a `NodePath`, not of a node. It leaves the tree unchanged and is modelled as no step.
- The `refs` set passed to `updateThisExpression` is never read by the source, so the model keeps it but does not use it.
- `this[...]` with a computed identifier key is treated like `this.x`, as the source's checks do not look at `computed`.
- The callee rule of `updateThisExpression` runs on a path that Babel detaches afterwards. The model takes its final effect: `this.f(...)` becomes `f(...)`, not `f.value(...)`.
- Floating point, source locations and the comment attachment of `@babel/parser` are not modelled. Comments are given as each node's `leadingComments`.
- The composables `Set` holds a fresh object per `this.$router`, so it never removes duplicates. The model collects and prints a sequence with repetitions, as the source does (see Findings).
- Transpiler.RouterDeclaredOnce: the corrected, de-duplicated composables are stated for the composables section only. `SynthesizedText`, `Synthesize` and `Transpiler.Traverse` follow the source and print every duplicate.
- Transpiler.RouterReadTwiceReported: the parser is a parameter, so the model does not itself conclude that Babel rejects the second `router` declaration. It states that the result is the parser's failure.
- Transpiler.Transpiler.Traverse: the collecting walk uses the own-key hook test of `ProcessMethod`. A class with a method named `toString`, `valueOf` or another `Object.prototype` member makes the source's `FunctionTemplate` throw a `TypeError`, which `traverse` reports as an error. The modelled `Traverse` prints that method as a function instead (see Findings).
- Helpers.ProcessMethod: the hook flag uses the map's own keys, not JavaScript's `in`, which also holds for names inherited from `Object.prototype`. The source's behaviour for such names is modelled by `ProcessMethodAsWritten` and `FunctionTextAsWritten` only (see Findings).
- Transpiler.FunctionsHooksMapped: holds for the own-key flag. With the source's `in` test, a method named `toString`, `valueOf` or another `Object.prototype` member is flagged without having an entry, and its template throws; the driver does not carry that throw.
- Templates.IdentifierBuilder: the words of the message come from Babel's `assertValueType`, which is not part of this model; only their common start is relied on.
- In-place mutation of the AST (`computed.func.returnType = null`, `func.returnType = null`, the two traversals) is modelled by returning new values.
- Visitors.RewriteThisRemovesThisMembers: requires that the tree contains no `this[this.x]`, whose rewrite can create a fresh `this.y`.
- Visitors.UpdatePrefixRemovesMarkers: requires that no identifier starts with `$$`, since only one `$` is stripped.
- Templates.OptionalIffDefault: requires that a default value is not itself a type node, since type nodes print trimmed and may print empty.

Where the code and its documentation differ, the model follows the code:

- `t.isLiteral` excludes object, array and function expressions, so those payloads get no `value:` type in `defineEmits`. Template and null literals give `value:undefined`.
- A decorated field without a `Prop` call is dropped.
- `mergeProps` always prints each prop's comments. A line comment prints as `//` alone.
- A prop's validator is computed but never printed.

## Findings

| source | as written | input that shows it | evidently intended | confidence | as-written member | corrected member |
|---|---|---|---|---|---|---|
| src/transpiler/helpers.ts:58 | `methodName in lifeCycleMap` is also true for names `lifeCycleMap` inherits from `Object.prototype`. The method is flagged as a hook, `lifeCycleMap[name]` is then not a string, and `t.identifier` throws, so the whole transpilation fails. | a class with a method `toString() { return 'x' }` | only the eight Vue 2 hook names are hooks, and any other method prints as a function | high, not executed | Templates.InheritedNameTakenForHook | Helpers.ProcessMethod |
| src/transpiler/transpilerClass.ts:62 | The composables `Set` receives a fresh object literal for each `this.$router`, so it keeps every one and the script declares `const router = useRouter()` once per read. The second declaration is a redeclaration of `router`. | a class reading `this.$router` in two methods | one `useRouter()` declaration per class, whatever the number of reads | high, not executed | Transpiler.RouterReadTwiceDeclaredTwice | Transpiler.RouterDeclaredOnce |
