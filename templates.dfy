/**
 * The synthesizer: one text template per section. The templates that build their text
 * step by step on a MagicString are methods over a `TextBuffer`, each proved to produce
 * the text its specification function describes; the lemmas state what that text is.
 */
module Templates {
  import opened Base
  import opened Ast
  import opened Types
  import opened JsText
  import opened Helpers
  import opened Transforms

  /** A MagicString started from some text; the transpiler only appends, prepends and reads it. */
  class TextBuffer {
    var text: string

    constructor (initial: string)
      ensures text == initial
    {
      text := initial;
    }

    method Append(s: string)
      modifies this
      ensures text == old(text) + s
    {
      text := text + s;
    }

    method Prepend(s: string)
      modifies this
      ensures text == s + old(text)
    {
      text := s + text;
    }
  }

  // ---------------------------------------------------------------- code and comments

  /** `generate(node).code`: Babel's printer, never empty. */
  function Generate(gen: Printer, n: Node): (r: string)
    ensures r != ""
  {
    gen(n)
  }

  /** `generate(type).code.replace(':', '').trim()` */
  function TypeText(n: Node, gen: Printer): string
  {
    Trim(RemoveFirst(Generate(gen, n), ':'))
  }

  /** `generateCode`: absent stays absent; a type annotation loses its colon and padding. */
  function GenerateCode(node: Option<Node>, gen: Printer): (r: Option<string>)
    ensures r.None? <==> node.None?
    ensures node.Some? && !IsTSTypeOrAnnotation(node.value) ==> r.value == Generate(gen, node.value) && r.value != ""
    ensures node.Some? && IsTSTypeOrAnnotation(node.value) && r.value != "" ==>
              !IsJsSpace(r.value[0]) && !IsJsSpace(r.value[|r.value| - 1])
  {
    match node
    case None => None
    case Some(n) => if IsTSTypeOrAnnotation(n) then Some(TypeText(n, gen)) else Some(Generate(gen, n))
  }

  /** One comment as `generateComments` writes it: a line comment loses its text. */
  function CommentText(c: Comment): string
  {
    match c
    case CommentBlock(t) => "/*" + t + "*/"
    case CommentLine(_) => "//"
  }

  function CommentTexts(cs: seq<Comment>): (r: seq<string>)
    ensures |r| == |cs|
    ensures forall i :: 0 <= i < |cs| ==> r[i] == CommentText(cs[i])
  {
    if cs == [] then [] else [CommentText(cs[0])] + CommentTexts(cs[1..])
  }

  /** `generateComments`: one rendered comment per line. */
  function GenerateComments(cs: seq<Comment>): string
  {
    Join("\n", CommentTexts(cs))
  }

  /** The comment text is empty exactly when there are no comments. */
  lemma GenerateCommentsEmptyIff(cs: seq<Comment>)
    ensures GenerateComments(cs) == "" <==> cs == []
  {
    var ts := CommentTexts(cs);
    if |ts| >= 2 {
      assert |Join("\n", ts)| >= |ts[|ts| - 1]| > 0;
    }
  }

  /** The words of a line comment never reach the output. */
  lemma LineCommentTextDropped(cs: seq<Comment>, i: int, words: string)
    requires 0 <= i < |cs| && cs[i].CommentLine?
    ensures GenerateComments(cs[i := CommentLine(words)]) == GenerateComments(cs)
  {
    assert CommentTexts(cs[i := CommentLine(words)]) == CommentTexts(cs);
  }

  /** `inferValueType`: a fixed literal-to-type table, undefined elsewhere. */
  function InferValueType(n: Node): Option<string>
  {
    match n
    case StringLiteral(_) => Some("string")
    case NumericLiteral(_) => Some("number")
    case BooleanLiteral(_) => Some("boolean")
    case ObjectExpression(_) => Some("object")
    case ArrayExpression(_) => Some("Array")
    case FunctionExpression(_, _, _, _, _, _) => Some("Function")
    case ArrowFunctionExpression(_, _, _, _) => Some("Function")
    case _ => None
  }

  /**
   * The table covers the string, number and boolean literals and the object, array and
   * function values, each with its own type name; any other node, other literals included,
   * has no inferred type.
   */
  lemma InferValueTypeTable(n: Node)
    ensures InferValueType(n).Some?
            <==> (n.StringLiteral? || n.NumericLiteral? || n.BooleanLiteral? || n.ObjectExpression?
                  || n.ArrayExpression? || n.FunctionExpression? || n.ArrowFunctionExpression?)
    ensures InferValueType(n).Some? ==> InferValueType(n).value in {"string", "number", "boolean", "object", "Array", "Function"}
    ensures n.FunctionExpression? || n.ArrowFunctionExpression? ==> InferValueType(n) == Some("Function")
    ensures IsLiteral(n) && InferValueType(n).None? ==> n.NullLiteral? || n.TemplateLiteral? || n.OtherLiteral?
  {
  }

  // ---------------------------------------------------------------- props

  /** A prop after `generateCode` has been applied to its nodes. */
  datatype PropCode = PropCode(identifier: string, comments: seq<Comment>, defaultValue: Option<string>,
                               declaredType: Option<string>, validator: Option<string>)

  function ValidatorNodeOf(p: VueProp): (r: Option<Node>)
    ensures r.Some? <==> p.validator.Some?
  {
    match p.validator
    case None => None
    case Some(v) => var n: Node := v; Some(n)
  }

  function WithCode(p: VueProp, gen: Printer): PropCode
  {
    PropCode(p.identifier, p.comments, GenerateCode(p.defaultValue, gen), GenerateCode(p.declaredType, gen),
             GenerateCode(ValidatorNodeOf(p), gen))
  }

  function WithCodeAll(props: seq<VueProp>, gen: Printer): (r: seq<PropCode>)
    ensures |r| == |props|
    ensures forall i :: 0 <= i < |props| ==> r[i] == WithCode(props[i], gen)
  {
    if props == [] then [] else WithCodeAll(props[..|props| - 1], gen) + [WithCode(props[|props| - 1], gen)]
  }

  /** JavaScript truthiness of a generated text, `!!code`. */
  predicate Truthy(code: Option<string>)
  {
    code.Some? && code.value != ""
  }

  function OptionalMarker(pc: PropCode): string
  {
    if Truthy(pc.defaultValue) then "?" else ""
  }

  /** One member of the `defineProps` type literal, with its comments whatever the options say. */
  function PropLine(pc: PropCode): string
  {
    "\n        " + GenerateComments(pc.comments) + "\n        "
    + pc.identifier + OptionalMarker(pc) + ": " + Interp(pc.declaredType) + "\n        "
  }

  function PropLines(pcs: seq<PropCode>): string
  {
    if pcs == [] then "" else PropLines(pcs[..|pcs| - 1]) + PropLine(pcs[|pcs| - 1])
  }

  lemma PropLinesSnoc(pcs: seq<PropCode>, i: nat)
    requires i < |pcs|
    ensures PropLines(pcs[..i + 1]) == PropLines(pcs[..i]) + PropLine(pcs[i])
  {
    assert pcs[..i + 1][..i] == pcs[..i];
  }

  function PropsDefinition(pcs: seq<PropCode>): string
  {
    "defineProps<{" + PropLines(pcs) + "}>()"
  }

  /** `propsWithCode.filter((p) => !!p.defaultValue)` */
  function Defaulted(pcs: seq<PropCode>): (r: seq<PropCode>)
    ensures forall i :: 0 <= i < |r| ==> Truthy(r[i].defaultValue)
  {
    if pcs == [] then []
    else if Truthy(pcs[|pcs| - 1].defaultValue) then Defaulted(pcs[..|pcs| - 1]) + [pcs[|pcs| - 1]]
    else Defaulted(pcs[..|pcs| - 1])
  }

  function DefaultEntry(pc: PropCode): string
    requires Truthy(pc.defaultValue)
  {
    pc.identifier + ":" + pc.defaultValue.value
  }

  function DefaultEntries(pcs: seq<PropCode>): (r: seq<string>)
    requires forall i :: 0 <= i < |pcs| ==> Truthy(pcs[i].defaultValue)
    ensures |r| == |pcs|
    ensures forall i :: 0 <= i < |pcs| ==> r[i] == DefaultEntry(pcs[i])
  {
    if pcs == [] then [] else DefaultEntries(pcs[..|pcs| - 1]) + [DefaultEntry(pcs[|pcs| - 1])]
  }

  /** The second argument of `withDefaults`: the defaulted props, comma separated. */
  function DefaultsObject(pcs: seq<PropCode>): string
  {
    "{" + Join(",", DefaultEntries(Defaulted(pcs))) + "}"
  }

  predicate SomeHasDefault(props: seq<VueProp>)
  {
    exists k :: 0 <= k < |props| && props[k].defaultValue.Some?
  }

  function PropIdentifiers(props: seq<VueProp>): (r: seq<string>)
    ensures |r| == |props|
    ensures forall i :: 0 <= i < |props| ==> r[i] == props[i].identifier
  {
    if props == [] then [] else [props[0].identifier] + PropIdentifiers(props[1..])
  }

  /** The text `mergeProps` returns. */
  function MergedProps(props: seq<VueProp>, gen: Printer, destructureProps: bool): string
  {
    var pcs := WithCodeAll(props, gen);
    var definition := PropsDefinition(pcs);
    var merged := if SomeHasDefault(props)
                  then "withDefaults(\n" + definition + ", \n(" + DefaultsObject(pcs) + "))"
                  else definition;
    if destructureProps
    then "\n    const props = " + merged + "\n    const { " + Join(",", PropIdentifiers(props)) + " } = toRefs(props);\n    "
    else merged
  }

  /** The `propsDef` buffer of `mergeProps`: one type-literal member per prop, in order. */
  method PropsDefinitionText(propsWithCode: seq<PropCode>) returns (s: string)
    ensures s == PropsDefinition(propsWithCode)
  {
    var propsDef := new TextBuffer("defineProps<{");
    var i := 0;
    while i < |propsWithCode|
      invariant 0 <= i <= |propsWithCode|
      invariant propsDef.text == "defineProps<{" + PropLines(propsWithCode[..i])
    {
      PropLinesSnoc(propsWithCode, i);
      ConcatAssoc("defineProps<{", PropLines(propsWithCode[..i]), PropLine(propsWithCode[i]));
      propsDef.Append(PropLine(propsWithCode[i]));
      i := i + 1;
    }
    assert propsWithCode[..i] == propsWithCode;
    propsDef.Append("}>()");
    s := propsDef.text;
  }

  /** The `tmpl` buffer of `mergeProps`: the defaulted props, a comma after each but the last. */
  method DefaultsObjectText(propsWithCode: seq<PropCode>) returns (s: string)
    ensures s == DefaultsObject(propsWithCode)
  {
    var tmpl := new TextBuffer("{");
    var propsWithDefaults := Defaulted(propsWithCode);
    ghost var entries := DefaultEntries(propsWithDefaults);
    var n := |propsWithDefaults|;
    assert |entries| == n;
    var index := 0;
    while index < n
      invariant 0 <= index <= n
      invariant tmpl.text == "{" + SeparatedPrefix(entries, index)
    {
      var separator := if index != n - 1 then "," else "";
      var entry := propsWithDefaults[index].identifier + ":" + propsWithDefaults[index].defaultValue.value;
      assert entry == entries[index];
      ghost var before := tmpl.text;
      ConcatAssoc("{", SeparatedPrefix(entries, index), entry + separator);
      tmpl.Append(entry + separator);
      assert SeparatedPrefix(entries, index + 1) == SeparatedPrefix(entries, index) + (entry + separator);
      assert tmpl.text == before + (entry + separator);
      index := index + 1;
    }
    SeparatedPrefixJoins(entries, n);
    tmpl.Append("}");
    s := tmpl.text;
  }

  /** `mergeProps`: the type literal, the defaults object when needed, and the destructuring. */
  method MergeProps(props: seq<VueProp>, gen: Printer, destructureProps: bool) returns (s: string)
    ensures s == MergedProps(props, gen, destructureProps)
  {
    var propsWithCode := WithCodeAll(props, gen);
    var withDefaults := SomeHasDefault(props);
    var mergedProps := PropsDefinitionText(propsWithCode);
    if withDefaults {
      var propsDef := mergedProps;
      var tmpl := DefaultsObjectText(propsWithCode);
      mergedProps := "withDefaults(\n" + propsDef + ", \n(" + tmpl + "))";
    }
    if destructureProps {
      return "\n    const props = " + mergedProps + "\n    const { " + Join(",", PropIdentifiers(props)) + " } = toRefs(props);\n    ";
    }
    return mergedProps;
  }

  /** The first `i` entries as the `forEach` appends them: each but the overall last followed by a comma. */
  function SeparatedPrefix(entries: seq<string>, i: nat): string
    requires i <= |entries|
  {
    if i == 0 then ""
    else SeparatedPrefix(entries, i - 1) + (entries[i - 1] + (if i - 1 != |entries| - 1 then "," else ""))
  }

  /** Appending every entry with that rule gives the comma-joined list, with no trailing comma. */
  lemma {:induction false} SeparatedPrefixJoins(entries: seq<string>, i: nat)
    requires i <= |entries|
    ensures i < |entries| && i > 0 ==> SeparatedPrefix(entries, i) == Join(",", entries[..i]) + ","
    ensures i == |entries| ==> SeparatedPrefix(entries, i) == Join(",", entries)
  {
    if i > 0 {
      SeparatedPrefixJoins(entries, i - 1);
      var init := entries[..i - 1];
      assert entries[..i] == init + [entries[i - 1]];
      if i - 1 > 0 {
        JoinSnoc(",", init, entries[i - 1]);
      }
      if i == |entries| {
        assert entries[..i] == entries;
      }
    }
  }

  /** A prop is marked optional exactly when it has a default value. */
  lemma OptionalIffDefault(p: VueProp, gen: Printer)
    requires p.defaultValue.Some? ==> !IsTSTypeOrAnnotation(p.defaultValue.value)
    ensures OptionalMarker(WithCode(p, gen)) == (if p.defaultValue.Some? then "?" else "")
  {
    if p.defaultValue.Some? && !IsTSTypeOrAnnotation(p.defaultValue.value) {
      assert Generate(gen, p.defaultValue.value) != "";
    }
  }

  /** The defaults object, as a reference: an entry for each defaulted prop, in input order. */
  function DefaultEntriesOf(props: seq<VueProp>, gen: Printer): seq<string>
  {
    if props == [] then []
    else
      var p := props[|props| - 1];
      DefaultEntriesOf(props[..|props| - 1], gen)
      + (if p.defaultValue.Some? then [p.identifier + ":" + GenerateCode(p.defaultValue, gen).value] else [])
  }

  /**
   * With printed default values that are never empty (every value node that is not a type),
   * the defaults object lists exactly the props that have a default, in input order.
   */
  lemma {:induction false} DefaultsListExactlyDefaulted(props: seq<VueProp>, gen: Printer)
    requires forall k :: 0 <= k < |props| && props[k].defaultValue.Some? ==> !IsTSTypeOrAnnotation(props[k].defaultValue.value)
    ensures DefaultEntries(Defaulted(WithCodeAll(props, gen))) == DefaultEntriesOf(props, gen)
  {
    if props != [] {
      var init := props[..|props| - 1];
      var p := props[|props| - 1];
      var pc := WithCode(p, gen);
      assert WithCodeAll(props, gen) == WithCodeAll(init, gen) + [pc];
      DefaultsListExactlyDefaulted(init, gen);
      DefaultedSnoc(WithCodeAll(init, gen), pc);
      if p.defaultValue.Some? {
        assert Generate(gen, p.defaultValue.value) != "";
        DefaultEntriesSnoc(Defaulted(WithCodeAll(init, gen)), pc);
      }
    }
  }

  lemma DefaultedSnoc(a: seq<PropCode>, y: PropCode)
    ensures Defaulted(a + [y]) == if Truthy(y.defaultValue) then Defaulted(a) + [y] else Defaulted(a)
  {
    assert (a + [y])[..|a|] == a;
  }

  lemma DefaultEntriesSnoc(d: seq<PropCode>, y: PropCode)
    requires forall i :: 0 <= i < |d| ==> Truthy(d[i].defaultValue)
    requires Truthy(y.defaultValue)
    ensures DefaultEntries(d + [y]) == DefaultEntries(d) + [DefaultEntry(y)]
  {
    assert (d + [y])[..|d|] == d;
  }

  /** `withDefaults` wraps the type literal exactly when some prop has a default. */
  lemma WithDefaultsIff(props: seq<VueProp>, gen: Printer)
    ensures SomeHasDefault(props) <==> "withDefaults(" <= MergedProps(props, gen, false)
  {
    var pcs := WithCodeAll(props, gen);
    if SomeHasDefault(props) {
      WrappedStartsWithDefaults(PropsDefinition(pcs), DefaultsObject(pcs));
    } else {
      DefinitionStartsWithDefine(PropLines(pcs));
    }
  }

  lemma WrappedStartsWithDefaults(definition: string, defaults: string)
    ensures "withDefaults(" <= "withDefaults(\n" + definition + ", \n(" + defaults + "))"
  {
    var s := "withDefaults(\n" + definition + ", \n(" + defaults + "))";
    assert s[..13] == "withDefaults(";
  }

  lemma DefinitionStartsWithDefine(lines: string)
    ensures !("withDefaults(" <= "defineProps<{" + lines + "}>()")
  {
    assert ("defineProps<{" + lines + "}>()")[0] == 'd';
  }

  /** Text `o + m + a + ids + b` starts with `o + w` when `m` starts with `w`, and not when their first characters differ. */
  lemma HeadDecidesPrefix(o: string, m: string, a: string, ids: string, b: string, w: string)
    requires |w| > 0 && |m| > 0
    ensures w <= m ==> o + w <= o + m + a + ids + b
    ensures w[0] != m[0] ==> !(o + w <= o + m + a + ids + b)
  {
    PrefixOfLonger(o + m, o + m, a);
    PrefixOfLonger(o + m, o + m + a, ids);
    PrefixOfLonger(o + m, o + m + a + ids, b);
    assert (o + m)[|o|] == m[0];
    if w <= m {
      assert (o + m)[..|o + w|] == o + w;
    }
    assert (o + w)[|o|] == w[0];
  }

  /** With destructuring the merged definition sits between `const props = ` and the `toRefs` line. */
  lemma DestructuredWraps(props: seq<VueProp>, gen: Printer)
    ensures MergedProps(props, gen, true)
         == "\n    const props = " + MergedProps(props, gen, false) + "\n    const { "
            + Join(",", PropIdentifiers(props)) + " } = toRefs(props);\n    "
  {
  }

  /** The merged definition opens with `w` of `withDefaults(` or with `d` of `defineProps<{`. */
  lemma MergedHead(props: seq<VueProp>, gen: Printer)
    ensures |MergedProps(props, gen, false)| > 0
    ensures MergedProps(props, gen, false)[0] == if SomeHasDefault(props) then 'w' else 'd'
  {
    var pcs := WithCodeAll(props, gen);
    if SomeHasDefault(props) {
      assert ("withDefaults(\n" + PropsDefinition(pcs) + ", \n(" + DefaultsObject(pcs) + "))")[0] == 'w';
    } else {
      assert ("defineProps<{" + PropLines(pcs) + "}>()")[0] == 'd';
    }
  }

  /** The same with destructuring, the form the driver uses: the block opens with `const props = withDefaults(`. */
  lemma DestructuredWithDefaultsIff(props: seq<VueProp>, gen: Printer)
    ensures SomeHasDefault(props) <==> "\n    const props = withDefaults(" <= MergedProps(props, gen, true)
  {
    var opening := "\n    const props = ";
    var m := MergedProps(props, gen, false);
    var ids := Join(",", PropIdentifiers(props));
    DestructuredWraps(props, gen);
    WithDefaultsIff(props, gen);
    MergedHead(props, gen);
    HeadDecidesPrefix(opening, m, "\n    const { ", ids, " } = toRefs(props);\n    ", "withDefaults(");
    assert opening + "withDefaults(" == "\n    const props = withDefaults(";
  }

  /** A prop's validator never reaches the output. */
  lemma MergedPropsIgnoreValidators(props: seq<VueProp>, others: seq<VueProp>, gen: Printer, destructureProps: bool)
    requires |others| == |props|
    requires forall k :: 0 <= k < |props| ==> others[k] == props[k].(validator := others[k].validator)
    ensures MergedProps(others, gen, destructureProps) == MergedProps(props, gen, destructureProps)
  {
    PiecesIgnoreValidators(props, others, gen);
  }

  /** Every piece `mergeProps` assembles is blind to the validators. */
  lemma PiecesIgnoreValidators(props: seq<VueProp>, others: seq<VueProp>, gen: Printer)
    requires |others| == |props|
    requires forall k :: 0 <= k < |props| ==> others[k] == props[k].(validator := others[k].validator)
    ensures PropsDefinition(WithCodeAll(others, gen)) == PropsDefinition(WithCodeAll(props, gen))
    ensures DefaultsObject(WithCodeAll(others, gen)) == DefaultsObject(WithCodeAll(props, gen))
    ensures PropIdentifiers(others) == PropIdentifiers(props)
    ensures SomeHasDefault(others) == SomeHasDefault(props)
  {
    var a := WithCodeAll(props, gen);
    var b := WithCodeAll(others, gen);
    forall k | 0 <= k < |a|
      ensures b[k] == a[k].(validator := b[k].validator)
    {
      WithCodeIgnoresValidator(props[k], others[k], gen);
    }
    PropLinesIgnoreValidators(a, b);
    DefaultedIgnoresValidators(a, b);
    assert PropsDefinition(a) == PropsDefinition(b);
    assert DefaultsObject(a) == DefaultsObject(b);
    assert PropIdentifiers(others) == PropIdentifiers(props);
    assert SomeHasDefault(others) == SomeHasDefault(props) by {
      assert forall k :: 0 <= k < |props| ==> others[k].defaultValue == props[k].defaultValue;
    }
  }

  lemma WithCodeIgnoresValidator(p: VueProp, q: VueProp, gen: Printer)
    requires q == p.(validator := q.validator)
    ensures WithCode(q, gen) == WithCode(p, gen).(validator := WithCode(q, gen).validator)
  {
  }

  lemma {:induction false} PropLinesIgnoreValidators(a: seq<PropCode>, b: seq<PropCode>)
    requires |a| == |b| && forall k :: 0 <= k < |a| ==> b[k] == a[k].(validator := b[k].validator)
    ensures PropLines(a) == PropLines(b)
  {
    if a != [] {
      PropLinesIgnoreValidators(a[..|a| - 1], b[..|b| - 1]);
      assert PropLine(a[|a| - 1]) == PropLine(b[|b| - 1]);
    }
  }

  lemma {:induction false} DefaultedIgnoresValidators(a: seq<PropCode>, b: seq<PropCode>)
    requires |a| == |b| && forall k :: 0 <= k < |a| ==> b[k] == a[k].(validator := b[k].validator)
    ensures DefaultEntries(Defaulted(a)) == DefaultEntries(Defaulted(b))
  {
    if a != [] {
      var a', b' := a[..|a| - 1], b[..|b| - 1];
      var x, y := a[|a| - 1], b[|b| - 1];
      assert a == a' + [x] && b == b' + [y];
      DefaultedIgnoresValidators(a', b');
      DefaultedSnoc(a', x);
      DefaultedSnoc(b', y);
      if Truthy(x.defaultValue) {
        DefaultEntriesSnoc(Defaulted(a'), x);
        DefaultEntriesSnoc(Defaulted(b'), y);
      }
    }
  }

  // ---------------------------------------------------------------- emits

  /** One `defineEmits` call signature; a literal payload gets its type from `inferValueType`. */
  function EmitSignature(e: VueEmit): string
  {
    "(event: '" + e.identifier + "'"
    + (if PayloadType(e.argNode).Some? then ",value:" + PayloadType(e.argNode).value else "")
    + "): void\n"
  }

  /** The payload type a signature declares: present only for a literal argument. */
  function PayloadType(arg: Option<Node>): Option<string>
  {
    if arg.Some? && IsLiteral(arg.value) then Some(Interp(InferValueType(arg.value))) else None
  }

  function EmitSignatures(es: seq<VueEmit>): (r: seq<string>)
    ensures |r| == |es|
    ensures forall i :: 0 <= i < |es| ==> r[i] == EmitSignature(es[i])
  {
    if es == [] then [] else EmitSignatures(es[..|es| - 1]) + [EmitSignature(es[|es| - 1])]
  }

  function IdentifierSet(es: seq<VueEmit>): set<string>
  {
    set e | e in es :: e.identifier
  }

  /** Each event name once, taken from its first occurrence, in first-occurrence order. */
  function FirstOccurrences(es: seq<VueEmit>): seq<VueEmit>
  {
    if es == [] then []
    else
      var r := FirstOccurrences(es[..|es| - 1]);
      if es[|es| - 1].identifier in IdentifierSet(r) then r else r + [es[|es| - 1]]
  }

  /** The index at which an event name first occurs. */
  function FirstIndex(es: seq<VueEmit>, name: string): (i: nat)
    requires name in IdentifierSet(es)
    ensures i < |es| && es[i].identifier == name
    ensures forall j :: 0 <= j < i ==> es[j].identifier != name
  {
    var init := es[..|es| - 1];
    assert forall j :: 0 <= j < |init| ==> init[j] == es[j];
    if name in IdentifierSet(init) then FirstIndex(init, name) else
      assert forall j :: 0 <= j < |init| ==> init[j] in init;
      |es| - 1
  }

  /** The text `mergeEmits` returns. */
  function MergedEmits(emits: seq<VueEmit>): string
  {
    "\n  const emit = defineEmits<{\n    " + Join(",", EmitSignatures(FirstOccurrences(emits))) + "\n  }>()"
  }

  lemma FirstOccurrencesSnoc(es: seq<VueEmit>, e: VueEmit)
    ensures FirstOccurrences(es + [e])
            == if e.identifier in IdentifierSet(FirstOccurrences(es)) then FirstOccurrences(es)
               else FirstOccurrences(es) + [e]
  {
    assert (es + [e])[..|es|] == es;
  }

  lemma IdentifierSetSnoc(es: seq<VueEmit>, e: VueEmit)
    ensures IdentifierSet(es + [e]) == IdentifierSet(es) + {e.identifier}
  {
    assert forall x :: x in es + [e] <==> x in es || x == e;
  }

  /** Deduplication keeps every event name. */
  lemma {:induction false} FirstOccurrencesNames(es: seq<VueEmit>)
    ensures IdentifierSet(FirstOccurrences(es)) == IdentifierSet(es)
  {
    if es != [] {
      var init, e := es[..|es| - 1], es[|es| - 1];
      assert es == init + [e];
      FirstOccurrencesNames(init);
      FirstOccurrencesSnoc(init, e);
      IdentifierSetSnoc(init, e);
      IdentifierSetSnoc(FirstOccurrences(init), e);
    }
  }

  /** After deduplication no event name occurs twice. */
  lemma {:induction false} FirstOccurrencesDistinct(es: seq<VueEmit>)
    ensures forall i, j :: 0 <= i < j < |FirstOccurrences(es)| ==>
              FirstOccurrences(es)[i].identifier != FirstOccurrences(es)[j].identifier
  {
    if es != [] {
      var init, e := es[..|es| - 1], es[|es| - 1];
      assert es == init + [e];
      FirstOccurrencesDistinct(init);
      FirstOccurrencesSnoc(init, e);
      var r := FirstOccurrences(init);
      forall k | 0 <= k < |r|
        ensures r[k].identifier in IdentifierSet(r)
      {
        assert r[k] in r;
      }
    }
  }

  /**
   * Each kept emit is the first one with its name, and the kept emits are in the order
   * their names first occur.
   */
  lemma {:induction false} FirstOccurrencesFirst(es: seq<VueEmit>)
    ensures forall k :: 0 <= k < |FirstOccurrences(es)| ==>
              FirstOccurrences(es)[k].identifier in IdentifierSet(es)
              && FirstOccurrences(es)[k] == es[FirstIndex(es, FirstOccurrences(es)[k].identifier)]
    ensures forall k1, k2 :: 0 <= k1 < k2 < |FirstOccurrences(es)| ==>
              FirstOccurrences(es)[k1].identifier in IdentifierSet(es)
              && FirstOccurrences(es)[k2].identifier in IdentifierSet(es)
              && FirstIndex(es, FirstOccurrences(es)[k1].identifier) < FirstIndex(es, FirstOccurrences(es)[k2].identifier)
  {
    if es != [] {
      var init, e := es[..|es| - 1], es[|es| - 1];
      assert es == init + [e];
      var r' := FirstOccurrences(init);
      FirstOccurrencesFirst(init);
      FirstOccurrencesNames(init);
      FirstOccurrencesSnoc(init, e);
      IdentifierSetSnoc(init, e);
      forall name | name in IdentifierSet(init)
        ensures FirstIndex(es, name) == FirstIndex(init, name)
      {
      }
      if e.identifier !in IdentifierSet(r') {
        assert FirstIndex(es, e.identifier) == |es| - 1;
        forall k | 0 <= k < |r'|
          ensures r'[k].identifier in IdentifierSet(init) && FirstIndex(es, r'[k].identifier) < |es| - 1
        {
        }
      }
    }
  }

  /** The `emitEvents` Map with its insertion order, holding exactly the emits in `firsts`. */
  ghost predicate IndexesEmits(m: map<string, VueEmit>, insertionOrder: seq<string>, firsts: seq<VueEmit>)
  {
    |insertionOrder| == |firsts|
    && (forall k :: 0 <= k < |insertionOrder| ==> insertionOrder[k] == firsts[k].identifier)
    && (forall k :: 0 <= k < |insertionOrder| ==> insertionOrder[k] in m && m[insertionOrder[k]] == firsts[k])
    && m.Keys == IdentifierSet(firsts)
  }

  /** `emitEvents.set` of a new name keeps the map and its insertion order in step. */
  lemma IndexesEmitsAdd(m: map<string, VueEmit>, insertionOrder: seq<string>, firsts: seq<VueEmit>, e: VueEmit)
    requires IndexesEmits(m, insertionOrder, firsts) && e.identifier !in m
    ensures IndexesEmits(m[e.identifier := e], insertionOrder + [e.identifier], firsts + [e])
  {
    IdentifierSetSnoc(firsts, e);
    forall k | 0 <= k < |insertionOrder|
      ensures insertionOrder[k] != e.identifier
    {
    }
  }

  /** The `emitEvents` Map of `mergeEmits`, read back in insertion order. */
  method FirstEmitPerName(emits: seq<VueEmit>) returns (values: seq<VueEmit>)
    ensures values == FirstOccurrences(emits)
  {
    var emitEvents: map<string, VueEmit> := map[];
    var insertionOrder: seq<string> := [];
    ghost var firsts: seq<VueEmit> := [];
    var i := 0;
    while i < |emits|
      invariant 0 <= i <= |emits|
      invariant firsts == FirstOccurrences(emits[..i])
      invariant IndexesEmits(emitEvents, insertionOrder, firsts)
    {
      var emit := emits[i];
      assert emits[..i + 1] == emits[..i] + [emit];
      FirstOccurrencesSnoc(emits[..i], emit);
      if emit.identifier !in emitEvents {
        IndexesEmitsAdd(emitEvents, insertionOrder, firsts, emit);
        emitEvents := emitEvents[emit.identifier := emit];
        insertionOrder := insertionOrder + [emit.identifier];
        firsts := firsts + [emit];
      }
      i := i + 1;
    }
    assert emits[..i] == emits;
    values := MapValuesInOrder(emitEvents, insertionOrder);
    assert values == firsts;
  }

  /** `Array.from(map.values())` for a Map whose keys were inserted in the given order. */
  method MapValuesInOrder(m: map<string, VueEmit>, insertionOrder: seq<string>) returns (values: seq<VueEmit>)
    requires forall k :: 0 <= k < |insertionOrder| ==> insertionOrder[k] in m
    ensures |values| == |insertionOrder|
    ensures forall k :: 0 <= k < |insertionOrder| ==> values[k] == m[insertionOrder[k]]
  {
    values := [];
    var k := 0;
    while k < |insertionOrder|
      invariant 0 <= k <= |insertionOrder|
      invariant |values| == k
      invariant forall j :: 0 <= j < k ==> values[j] == m[insertionOrder[j]]
    {
      values := values + [m[insertionOrder[k]]];
      k := k + 1;
    }
  }

  /** `mergeEmits`: one call signature per event name, comma separated. */
  method MergeEmits(emits: seq<VueEmit>) returns (s: string)
    ensures s == MergedEmits(emits)
  {
    var values := FirstEmitPerName(emits);
    s := "\n  const emit = defineEmits<{\n    " + Join(",", EmitSignatures(values)) + "\n  }>()";
  }

  /**
   * Only a literal argument gives a payload, and only string, number and boolean literals
   * get a real type; object, array and function arguments are not literals and get none.
   */
  lemma PayloadTypes(arg: Option<Node>)
    ensures PayloadType(arg).Some? <==> arg.Some? && IsLiteral(arg.value)
    ensures arg.Some? && arg.value.StringLiteral? ==> PayloadType(arg) == Some("string")
    ensures arg.Some? && arg.value.NumericLiteral? ==> PayloadType(arg) == Some("number")
    ensures arg.Some? && arg.value.BooleanLiteral? ==> PayloadType(arg) == Some("boolean")
    ensures arg.Some? && (arg.value.NullLiteral? || arg.value.TemplateLiteral? || arg.value.OtherLiteral?) ==>
              PayloadType(arg) == Some("undefined")
    ensures arg.Some? && (arg.value.ObjectExpression? || arg.value.ArrayExpression? ||
                          arg.value.FunctionExpression? || arg.value.ArrowFunctionExpression?)
            ==> PayloadType(arg).None?
  {
  }

  // ---------------------------------------------------------------- composables, state, functions, computeds

  /** `ComposableTemplate` */
  function ComposableText(c: VueComposable): string
  {
    "const " + c.identifier + " = " + c.funcName + "()"
  }

  /** A call whose callee is an identifier matching `/.*Store\b/`. */
  predicate IsStoreCall(value: Option<Node>)
  {
    value.Some? && value.value.CallExpression? && value.value.callee.Identifier?
    && MatchesStorePattern(value.value.callee.name)
  }

  /** The `<T>` generic: present for a declared type unless inference is on and the type is inferable. */
  function TypeArgument(t: Option<Node>, options: TranspilerOptions, gen: Printer): string
  {
    if t.Some? && !(options.inferTypes && CanTypeBeInfered(t)) then "<" + TypeText(t.value, gen) + ">" else ""
  }

  function CommentsIfShown(cs: seq<Comment>, options: TranspilerOptions): string
  {
    if options.showComments then GenerateComments(cs) else ""
  }

  /** The text `ReactiveTemplate` returns. */
  function ReactiveText(r: VueReactive, options: TranspilerOptions, gen: Printer): string
  {
    if IsStoreCall(r.value) then "const " + r.identifier + " = " + Generate(gen, r.value.value)
    else
      CommentsIfShown(r.comments, options) + ("const " + r.identifier + " = " + ReactiveTypeName(r.reactiveType))
      + TypeArgument(r.declaredType, options, gen)
      + (if r.value.Some? then "(" + Generate(gen, r.value.value) + ")" else "()")
  }

  /** `ReactiveTemplate` */
  method ReactiveTemplate(r: VueReactive, options: TranspilerOptions, gen: Printer) returns (s: string)
    ensures s == ReactiveText(r, options, gen)
  {
    var template := new TextBuffer(if options.showComments then GenerateComments(r.comments) else "");
    var value := r.value;
    if value.Some? && value.value.CallExpression? && value.value.callee.Identifier?
       && MatchesStorePattern(value.value.callee.name) {
      var code := GenerateCode(value, gen);
      return "const " + r.identifier + " = " + code.value;
    }
    template.Append("const " + r.identifier + " = " + ReactiveTypeName(r.reactiveType));
    ghost var head := template.text;
    if r.declaredType.Some? {
      var addType := true;
      if options.inferTypes && CanTypeBeInfered(r.declaredType) {
        addType := false;
      }
      if addType {
        var computedType := TypeText(r.declaredType.value, gen);
        template.Append("<" + computedType + ">");
      }
    }
    assert template.text == head + TypeArgument(r.declaredType, options, gen);
    if value.Some? {
      template.Append("(" + Generate(gen, value.value) + ")");
    } else {
      template.Append("()");
    }
    s := template.text;
  }

  /** A store handle is bound as it is: no wrapper, no type, no comments, whatever the options. */
  lemma StoreBindingIgnoresEverythingElse(r: VueReactive, other: VueReactive, o1: TranspilerOptions,
                                          o2: TranspilerOptions, gen: Printer)
    requires IsStoreCall(r.value) && other.identifier == r.identifier && other.value == r.value
    ensures ReactiveText(r, o1, gen) == ReactiveText(other, o2, gen)
    ensures ReactiveText(r, o1, gen) == "const " + r.identifier + " = " + Generate(gen, r.value.value)
  {
  }

  /** A generic is written exactly when a type is declared and is not left to inference. */
  lemma TypeArgumentIff(t: Option<Node>, options: TranspilerOptions, gen: Printer)
    ensures TypeArgument(t, options, gen) != "" <==> t.Some? && !(options.inferTypes && CanTypeBeInfered(t))
    ensures TypeArgument(t, options, gen) != "" ==> TypeArgument(t, options, gen)[0] == '<'
  {
  }

  /**
   * A declared type is left to inference, and so not printed, exactly when inference is on
   * and the annotation is a TypeScript annotation around a base type (`string`, `number`, ...).
   */
  lemma BaseTypesLeftToInference(t: Option<Node>, options: TranspilerOptions, gen: Printer)
    requires t.Some?
    ensures TypeArgument(t, options, gen) == ""
            <==> options.inferTypes && t.value.TSTypeAnnotation? && t.value.tsType.TSBaseType?
  {
    TypeArgumentIff(t, options, gen);
  }

  /**
   * Any other state is wrapped in `ref` or in `reactive` (an object initializer), with the
   * initializer in the parentheses, or `()` when there is none.
   */
  lemma ReactiveShape(f: Node, options: TranspilerOptions, gen: Printer)
    requires f.ClassProperty? && ProcessReactive(f).Some? && !IsStoreCall(f.value)
    ensures var r := ProcessReactive(f).value;
            ReactiveText(r, options, gen)
            == CommentsIfShown(f.leadingComments, options)
               + ("const " + f.key.name + " = " + (if f.value.Some? && f.value.value.ObjectExpression? then "reactive" else "ref"))
               + TypeArgument(f.typeAnnotation, options, gen)
               + (if f.value.Some? then "(" + Generate(gen, f.value.value) + ")" else "()")
  {
  }

  /** `func.returnType = null` on a function expression. */
  function ClearReturnType(f: FunctionExpressionNode): (r: FunctionExpressionNode)
    ensures r.returnType.None? && r.id == f.id && r.params == f.params && r.body == f.body
    ensures r.generator == f.generator && r.async == f.async
  {
    FunctionExpression(f.id, f.params, f.body, f.generator, f.async, None)
  }

  /** `func.returnType = null` on an arrow function. */
  function ClearArrowReturnType(f: ArrowFunctionNode): (r: ArrowFunctionNode)
    ensures r.returnType.None? && r.params == f.params && r.body == f.body && r.async == f.async
  {
    ArrowFunctionExpression(f.params, f.body, f.async, None)
  }

  /** The node `FunctionTemplate` prints: the function, or a hook call around it as an arrow. */
  function FunctionNode(f: VueFunction, options: TranspilerOptions): Node
    requires f.isLifecycleFunction ==> f.identifier in LifeCycleMap
  {
    var func: FunctionExpressionNode :=
      if options.inferTypes && CanTypeBeInfered(f.func.returnType) then ClearReturnType(f.func) else f.func;
    if f.isLifecycleFunction
    then ExpressionStatement(CallExpression(Identifier(LifeCycleMap[f.identifier]),
                                            [FuncExpressionToArrowFuncExpression(func)]))
    else func
  }

  /** The text `FunctionTemplate` returns. */
  function FunctionText(f: VueFunction, options: TranspilerOptions, gen: Printer): string
    requires f.isLifecycleFunction ==> f.identifier in LifeCycleMap
  {
    CommentsIfShown(f.comments, options) + Generate(gen, FunctionNode(f, options))
  }

  /** The start of the `TypeError` Babel's `t.identifier` throws for a name that is not a string. */
  const IdentifierTypeError := "Property name of Identifier expected type of string but got "

  /** `t.identifier(value)` for a value read from `lifeCycleMap`: only a string builds a node. */
  function IdentifierBuilder(v: JsValue): (r: Result<Node>)
    ensures r.Ok? <==> v.JsString?
    ensures r.Ok? ==> r.value == Identifier(v.s)
    ensures r.Err? ==> r.thrown.ErrorObject? && IdentifierTypeError <= r.thrown.message
  {
    match v
    case JsString(s) => Ok(Identifier(s))
    case JsFunction => Err(ErrorObject(IdentifierTypeError + "function"))
    case JsObject => Err(ErrorObject(IdentifierTypeError + "object"))
    case JsUndefined => Err(ErrorObject(IdentifierTypeError + "undefined"))
  }

  /**
   * `FunctionTemplate` as written: the hook name is whatever `lifeCycleMap[identifier]`
   * reads, and a value that is not a string makes the builder throw. On every record
   * `FunctionText` accepts, it prints that text.
   */
  function FunctionTextAsWritten(f: VueFunction, options: TranspilerOptions, gen: Printer): (r: Result<string>)
    ensures (!f.isLifecycleFunction || f.identifier in LifeCycleMap) ==> r == Ok(FunctionText(f, options, gen))
    ensures f.isLifecycleFunction && f.identifier !in LifeCycleMap ==> r.Err? && r.thrown.ErrorObject?
  {
    var func: FunctionExpressionNode :=
      if options.inferTypes && CanTypeBeInfered(f.func.returnType) then ClearReturnType(f.func) else f.func;
    if f.isLifecycleFunction then
      match IdentifierBuilder(LifeCycleLookup(f.identifier))
      case Err(e) => Err(e)
      case Ok(hook) =>
        Ok(CommentsIfShown(f.comments, options)
           + Generate(gen, ExpressionStatement(CallExpression(hook, [FuncExpressionToArrowFuncExpression(func)]))))
    else Ok(CommentsIfShown(f.comments, options) + Generate(gen, func))
  }

  /**
   * A method named after an `Object.prototype` member (`toString`, `valueOf`, ...) is taken
   * for a hook by the source's `in` test and its template then throws; with the own-key
   * test it stays an ordinary function and is printed as one.
   */
  lemma InheritedNameTakenForHook(m: Node, options: TranspilerOptions, gen: Printer)
    requires m.ClassMethod? && m.key.Identifier? && m.key.name in ObjectPrototypeNames
    ensures ProcessMethodAsWritten(m).Some? && ProcessMethodAsWritten(m).value.isLifecycleFunction
    ensures FunctionTextAsWritten(ProcessMethodAsWritten(m).value, options, gen).Err?
    ensures ProcessMethod(m).Some? && !ProcessMethod(m).value.isLifecycleFunction
    ensures FunctionNode(ProcessMethod(m).value, options).FunctionExpression?
    ensures FunctionNode(ProcessMethod(m).value, options).id == Some(m.key.name)
    ensures FunctionNode(ProcessMethod(m).value, options).body == m.body
  {
    PrototypeNamesAreNotHooks(m.key.name);
  }

  /** `FunctionTemplate`: the return type is reset on a copy of the record's function. */
  method FunctionTemplate(f: VueFunction, options: TranspilerOptions, gen: Printer) returns (s: string)
    requires f.isLifecycleFunction ==> f.identifier in LifeCycleMap
    ensures s == FunctionText(f, options, gen)
  {
    var functionCode := new TextBuffer("");
    var func := f.func;
    if options.inferTypes && CanTypeBeInfered(func.returnType) {
      func := ClearReturnType(func);
    }
    var code: string;
    if f.isLifecycleFunction {
      var hookName := LifeCycleMap[f.identifier];
      var statement := ExpressionStatement(CallExpression(Identifier(hookName), [FuncExpressionToArrowFuncExpression(func)]));
      assert statement == FunctionNode(f, options);
      code := GenerateCode(Some(statement), gen).value;
    } else {
      var node: Node := func;
      assert node == FunctionNode(f, options);
      code := GenerateCode(Some(node), gen).value;
    }
    assert code == Generate(gen, FunctionNode(f, options));
    functionCode.Append(code);
    assert functionCode.text == code;
    if options.showComments {
      functionCode.Prepend(GenerateComments(f.comments));
    }
    s := functionCode.text;
  }

  /**
   * A method named after a Vue 2 hook becomes a call of the mapped Vue 3 hook on an arrow
   * with the method's parameters, body and `async` flag; its return type is dropped exactly
   * when inference is on and the type is inferable. Every other method stays a named
   * function and is never wrapped.
   */
  lemma MethodRendering(m: Node, options: TranspilerOptions)
    requires m.ClassMethod? && m.key.Identifier?
    ensures ProcessMethod(m).Some?
    ensures var returnType := if options.inferTypes && CanTypeBeInfered(m.returnType) then None else m.returnType;
            FunctionNode(ProcessMethod(m).value, options)
            == if m.key.name in LifeCycleMap
               then ExpressionStatement(CallExpression(Identifier(LifeCycleMap[m.key.name]),
                      [ArrowFunctionExpression(WithoutParameterProperties(m.params), m.body, m.async, returnType)]))
               else FunctionExpression(Some(m.key.name), WithoutParameterProperties(m.params), m.body,
                                       m.generator, m.async, returnType)
  {
  }

  /** The arrow `ComputedTemplate` prints: its own return type is cleared whenever a type is declared. */
  function ComputedArrow(c: VueComputed): (r: ArrowFunctionNode)
    ensures c.declaredType.Some? ==> r.returnType.None?
    ensures r.params == c.func.params && r.body == c.func.body && r.async == c.func.async
  {
    if c.declaredType.Some? then ClearArrowReturnType(c.func) else c.func
  }

  /** The text `ComputedTemplate` returns. */
  function ComputedText(c: VueComputed, options: TranspilerOptions, gen: Printer): string
  {
    CommentsIfShown(c.comments, options) + ComputedDeclaration(c, options, gen)
  }

  function ComputedDeclaration(c: VueComputed, options: TranspilerOptions, gen: Printer): string
  {
    ("const " + c.identifier + " = computed") + TypeArgument(c.declaredType, options, gen)
    + ("(" + Generate(gen, ComputedArrow(c)) + ")")
  }

  /** `ComputedTemplate`: the declared type moves into the `computed` generic unless it is inferred. */
  method ComputedTemplate(c: VueComputed, options: TranspilerOptions, gen: Printer) returns (s: string)
    ensures s == ComputedText(c, options, gen)
  {
    var template := new TextBuffer("");
    template.Append("const " + c.identifier + " = computed");
    ghost var head := template.text;
    assert head == "const " + c.identifier + " = computed";
    var func := c.func;
    if c.declaredType.Some? {
      var addType := true;
      if options.inferTypes && CanTypeBeInfered(c.declaredType) {
        addType := false;
        func := ClearArrowReturnType(func);
      }
      if addType {
        var computedType := TypeText(c.declaredType.value, gen);
        template.Append("<" + computedType + ">");
        func := ClearArrowReturnType(func);
        assert template.text == head + TypeArgument(c.declaredType, options, gen);
      } else {
        assert template.text == head;
      }
    }
    assert func == ComputedArrow(c);
    assert template.text == head + TypeArgument(c.declaredType, options, gen);
    template.Append("(" + Generate(gen, func) + ")");
    assert template.text == ComputedDeclaration(c, options, gen);
    if options.showComments {
      template.Prepend(GenerateComments(c.comments));
    }
    s := template.text;
  }

  /**
   * A getter becomes a `computed` over an arrow with the getter's parameters, body and
   * `async` flag; the printed arrow never keeps a return type, and the declared type
   * survives only as the generic argument.
   */
  lemma ComputedShape(m: Node, options: TranspilerOptions, gen: Printer)
    requires m.ClassMethod? && m.key.Identifier?
    ensures ProcessComputed(m).Some?
    ensures ComputedText(ProcessComputed(m).value, options, gen)
            == CommentsIfShown(m.leadingComments, options)
               + (("const " + m.key.name + " = computed") + TypeArgument(m.returnType, options, gen)
                  + ("(" + Generate(gen, ArrowFunctionExpression(WithoutParameterProperties(m.params), m.body,
                                                                 m.async, None)) + ")"))
  {
    var c := ProcessComputed(m).value;
    assert ComputedArrow(c) == ArrowFunctionExpression(WithoutParameterProperties(m.params), m.body, m.async, None);
  }
}
