/** The pure decisions of `ComponentJsTypeGenerator`: which type tag a prop
    gets, the kind and shadow-field type of a computed method, whether a
    method is a hook, and the shape of a proxy method. */
module GeneratorRules {

  import opened Optional
  import opened Strings
  import opened Seqs
  import opened ComponentElements
  import opened GeneratedCode

  /** The Java types that JavaPoet's `TypeName.INT`, `BYTE`, `SHORT`, `LONG`,
      `FLOAT` and `DOUBLE` stand for. */
  predicate IsNumericPrimitive(t: TypeName)
  {
    t == "int" || t == "byte" || t == "short" || t == "long" || t == "float" || t == "double"
  }

  /** `getNativeNameForJavaType`: the JavaScript type tag of a prop's Java type.
      The tests run in the source's order; only the first that holds decides. */
  function NativeNameForJavaType(t: TypeName): (tag: String)
    ensures tag in {"Number", "Boolean", "String", "Array", "Object"}
    ensures tag == "Number" <==> IsNumericPrimitive(t)
    ensures tag == "Boolean" <==> t == "boolean"
    ensures tag == "String" <==> t == JavaStringName || t == "char"
    ensures tag == "Array" <==> JsArrayName <= t
    ensures tag == "Object" <==>
      !IsNumericPrimitive(t) && t != "boolean" && t != JavaStringName && t != "char" && !(JsArrayName <= t)
  {
    if IsNumericPrimitive(t) then "Number"
    else if t == "boolean" then "Boolean"
    else if t == JavaStringName || t == "char" then "String"
    else if JsArrayName <= t then "Array"
    else "Object"
  }

  /** The tag passed to `addJavaProp`: only when the prop asks for its type to be checked. */
  function PropTypeTag(f: Field, p: PropAnnotation): Option<String>
  {
    if p.checkType then Some(NativeNameForJavaType(f.typ)) else None
  }

  /** A `@Computed` method returning `void` is a setter, any other a getter. */
  function ComputedKindOf(m: Method): ComputedKind
  {
    if m.returnType == Void then SETTER else GETTER
  }

  /** The type of the public field shadowing a computed property: the value
      parameter of a setter, the return type of a getter. `None` where Java's
      `getParameters().get(0)` throws. */
  function ShadowFieldType(m: Method): (t: Option<TypeName>)
    ensures t.None? <==> ComputedKindOf(m) == SETTER && |m.params| == 0
    ensures t.Some? && ComputedKindOf(m) == SETTER ==> t.value == m.params[0].typ
    ensures t.Some? && ComputedKindOf(m) == GETTER ==> t.value == m.returnType
  {
    if m.returnType == Void then
      if |m.params| > 0 then Some(m.params[0].typ) else None
    else Some(m.returnType)
  }

  /** The ids of the `@HookMethod` methods among `ims`. */
  function HookIds(ims: seq<InterfaceMethod>): set<String>
  {
    if |ims| == 0 then {}
    else HookIds(ims[..|ims| - 1]) + (if ims[|ims| - 1].hookAnnotated then {ims[|ims| - 1].id} else {})
  }

  /** `getHookMethodsFromInterfaces`: the `@HookMethod` methods of the
      implemented interfaces. */
  function HookMethodsFromInterfaces(c: Component): set<String>
  {
    HookIds(c.interfaceMethods)
  }

  /** An id is collected exactly when some implemented interface declares it
      with `@HookMethod`. */
  lemma {:induction false} HookIdsMember(ims: seq<InterfaceMethod>, id: String)
    ensures id in HookIds(ims) <==> exists im :: im in ims && im.hookAnnotated && im.id == id
  {
    if |ims| > 0 {
      var n := |ims| - 1;
      HookIdsMember(ims[..n], id);
      assert ims == ims[..n] + [ims[n]];
      if id !in HookIds(ims) {
        forall im | im in ims && im.hookAnnotated ensures im.id != id {
          if im != ims[n] {
            assert im in ims[..n];
          }
        }
      }
    }
  }

  /** `isHookMethod`: annotated `@HookMethod`, or overriding one of the
      interfaces' hook methods. */
  predicate IsHookMethod(c: Component, m: Method)
  {
    m.hookAnnotated || HookMethodsFromInterfaces(c) * m.overrides != {}
  }

  /** The filter of `processTemplateMethods`. */
  predicate IsTemplateMethod(c: Component, m: Method)
  {
    m.visibleInTemplate && !IsHookMethod(c, m)
  }

  /** The filter of `processData`. */
  predicate IsDataField(f: Field)
  {
    f.visibleInJS && f.prop.None?
  }

  function ParameterNames(ps: seq<Parameter>): seq<String>
  {
    MapSeq((p: Parameter) => p.name, ps)
  }

  /** `getSuperMethodCallParameters`: the parameter names joined by ", ". */
  function SuperMethodCallParameters(m: Method): String
  {
    Join(ParameterNames(m.params), ", ")
  }

  /** `createProxyJsTypeMethod`. */
  function ProxyFor(m: Method): MethodSpec
  {
    Proxy(m.name, m.returnType, m.params,
      SuperCall(m.returnType != Void, m.name, SuperMethodCallParameters(m)))
  }

  /** A proxy keeps the name, parameters and return type of its original and
      does nothing but call the original on `super`, returning its value unless
      it is `void`, with the parameters passed through in order: splitting the
      argument list at its commas gives back each parameter name, every one
      after the first preceded by the single space of the ", " separator. */
  lemma ProxyForwardsToSuper(m: Method)
    requires forall i :: 0 <= i < |m.params| ==> ',' !in m.params[i].name
    ensures ProxyFor(m).name == m.name && ProxyFor(m).params == m.params
    ensures ProxyFor(m).returnType == m.returnType
    ensures ProxyFor(m).call.methodName == m.name
    ensures ProxyFor(m).call.returnsValue <==> m.returnType != Void
    ensures |m.params| == 0 ==> ProxyFor(m).call.args == ""
    ensures |m.params| > 0 ==>
      SplitAll(ProxyFor(m).call.args, ',') == [m.params[0].name] + PrefixEach(" ", ParameterNames(m.params[1..]))
  {
    var names := ParameterNames(m.params);
    if |m.params| > 0 {
      assert ", " == [','] + " ";
      SplitJoin(names, ',', " ");
      assert names[0] == m.params[0].name;
      assert names[1..] == ParameterNames(m.params[1..]);
    }
  }
}
