/** What `ComponentJsTypeGenerator.generate` produces for a component, section
    by section, as functions of the component; and what those sections
    guarantee: the fixed order of the options statements, exactly one prop
    statement per `@Prop` field, de-duplicated shadow fields for computed
    properties with the closest declaration winning, and hook methods kept
    apart from template methods. */
module GeneratorSpec {

  import opened Optional
  import opened Strings
  import opened Seqs
  import opened ComponentElements
  import opened GeneratedCode
  import opened GeneratorRules
  import opened CreatedHook

  // ----- getOptions(): one function per section, in the order generate() runs them

  function NameSection(c: Component): seq<OptionsStmt>
  {
    if c.name != "" then [SetName(c.name)] else []
  }

  function TemplateSection(c: Component): seq<OptionsStmt>
  {
    if c.hasTemplate then [SetTemplateResource] else []
  }

  /** `getOptionsMethodBuilder`. */
  function OptionsHeader(c: Component): seq<OptionsStmt>
  {
    [DeclareOptions] + NameSection(c) + [SetComponentJavaPrototype] + TemplateSection(c)
  }

  function DataFieldStep(f: Field): seq<String>
  {
    if IsDataField(f) then [f.name] else []
  }

  /** The names `processData` collects. */
  function DataFieldNames(fs: seq<Field>): seq<String>
  {
    FlatMap(DataFieldStep, fs)
  }

  /** `processData`: one `initData`, or nothing when no field qualifies. */
  function DataSection(c: Component): seq<OptionsStmt>
  {
    var names := DataFieldNames(c.decl.fields);
    if names == [] then [] else [InitData(c.useFactory, names)]
  }

  function PropStep(f: Field): seq<OptionsStmt>
  {
    match f.prop
    case None => []
    case Some(p) => [AddJavaProp(f.name, p.required, PropTypeTag(f, p))]
  }

  /** The statements of `processProps`. */
  function PropStatements(fs: seq<Field>): seq<OptionsStmt>
  {
    FlatMap(PropStep, fs)
  }

  function PropDiagnosticStep(componentName: String): Field -> seq<Diagnostic>
  {
    (f: Field) => if f.prop.Some? && !f.visibleInJS then [PropNotVisibleInJS(f.name, componentName)] else []
  }

  /** The errors of `processProps`. */
  function PropDiagnostics(c: Component): seq<Diagnostic>
  {
    FlatMap(PropDiagnosticStep(c.decl.qualifiedName), c.decl.fields)
  }

  function ComputedStep(m: Method): seq<OptionsStmt>
  {
    match m.computed
    case None => []
    case Some(p) => [AddJavaComputed(m.name, p, ComputedKindOf(m))]
  }

  function WatchStep(m: Method): seq<OptionsStmt>
  {
    match m.watch
    case None => []
    case Some(w) => [AddJavaWatch(m.name, w.propertyName, w.isDeep)]
  }

  function PropValidatorStep(m: Method): seq<OptionsStmt>
  {
    match m.propValidator
    case None => []
    case Some(p) => [AddJavaPropValidator(m.name, p)]
  }

  function PropDefaultStep(m: Method): seq<OptionsStmt>
  {
    match m.propDefault
    case None => []
    case Some(p) => [AddJavaPropDefaultValue(m.name, p)]
  }

  predicate HasComputed(m: Method) { m.computed.Some? }
  predicate HasWatch(m: Method) { m.watch.Some? }
  predicate HasPropValidator(m: Method) { m.propValidator.Some? }
  predicate HasPropDefault(m: Method) { m.propDefault.Some? }

  /** The proxy methods `processComputed`, `processWatchers`,
      `processPropValidators` and `processPropDefaultValues` add, one per
      method carrying their annotation. */
  function ComputedProxyStep(m: Method): seq<MethodSpec>
  {
    if m.computed.Some? then [ProxyFor(m)] else []
  }

  function WatchProxyStep(m: Method): seq<MethodSpec>
  {
    if m.watch.Some? then [ProxyFor(m)] else []
  }

  function PropValidatorProxyStep(m: Method): seq<MethodSpec>
  {
    if m.propValidator.Some? then [ProxyFor(m)] else []
  }

  function PropDefaultProxyStep(m: Method): seq<MethodSpec>
  {
    if m.propDefault.Some? then [ProxyFor(m)] else []
  }

  function HookStep(c: Component): Method -> seq<OptionsStmt>
  {
    (m: Method) => if IsHookMethod(c, m) then [AddHookMethod(m.name)] else []
  }

  /** The statements of `processHooks`. */
  function HookStatements(c: Component): seq<OptionsStmt>
  {
    FlatMap(HookStep(c), c.decl.methods)
  }

  /** `validateHookMethod` as `isHookMethod` runs it on an annotated method. */
  function HookValidation(m: Method): seq<Diagnostic>
  {
    if m.hookAnnotated && !m.visibleInJS then [HookMethodNotJsMethod(m.name)] else []
  }

  /** The errors of `processHooks`: it asks `isHookMethod` about every method. */
  function HookDiagnostics(c: Component): seq<Diagnostic>
  {
    FlatMap(HookValidation, c.decl.methods)
  }

  function TemplateMethodStep(c: Component): Method -> seq<String>
  {
    (m: Method) => if IsTemplateMethod(c, m) then [m.name] else []
  }

  /** The names `processTemplateMethods` collects. */
  function TemplateMethodNames(c: Component): seq<String>
  {
    FlatMap(TemplateMethodStep(c), c.decl.methods)
  }

  /** The filter asks `isHookMethod` only about template-visible methods. */
  function TemplateValidation(m: Method): seq<Diagnostic>
  {
    if m.visibleInTemplate then HookValidation(m) else []
  }

  function TemplateDiagnostics(c: Component): seq<Diagnostic>
  {
    FlatMap(TemplateValidation, c.decl.methods)
  }

  function InterfaceHookValidation(im: InterfaceMethod): seq<Diagnostic>
  {
    if im.hookAnnotated && !im.visibleInJS then [HookMethodNotJsMethod(im.name)] else []
  }

  /** The errors of `getHookMethodsFromInterfaces`. */
  function InterfaceHookDiagnostics(c: Component): seq<Diagnostic>
  {
    FlatMap(InterfaceHookValidation, c.interfaceMethods)
  }

  function RenderSection(c: Component): seq<OptionsStmt>
  {
    if c.hasRender then [AddHookMethodAs("render", RenderMethodName)] else []
  }

  const CreatedRegistration: OptionsStmt := AddHookMethodAs("created", CreatedMethodName)

  /** `getOptions()` has fifteen sections. */
  const SectionCount: nat := 15

  /** Section `k` of `getOptions()`, in the order `generate` emits them. */
  function Section(c: Component, k: nat): seq<OptionsStmt>
    requires k < SectionCount
  {
    if k == 0 then [DeclareOptions]
    else if k == 1 then NameSection(c)
    else if k == 2 then [SetComponentJavaPrototype]
    else if k == 3 then TemplateSection(c)
    else if k == 4 then DataSection(c)
    else if k == 5 then PropStatements(c.decl.fields)
    else if k == 6 then FlatMap(ComputedStep, c.decl.methods)
    else if k == 7 then FlatMap(WatchStep, c.decl.methods)
    else if k == 8 then FlatMap(PropValidatorStep, c.decl.methods)
    else if k == 9 then FlatMap(PropDefaultStep, c.decl.methods)
    else if k == 10 then HookStatements(c)
    else if k == 11 then [AddMethods(TemplateMethodNames(c))]
    else if k == 12 then RenderSection(c)
    else if k == 13 then [CreatedRegistration]
    else [ReturnOptions]
  }

  /** The first `n` sections, one after the other. */
  function SectionsUpTo(c: Component, n: nat): seq<OptionsStmt>
    requires n <= SectionCount
  {
    if n == 0 then [] else SectionsUpTo(c, n - 1) + Section(c, n - 1)
  }

  /** The body of `getOptions()`. */
  function OptionsBody(c: Component): seq<OptionsStmt>
  {
    SectionsUpTo(c, SectionCount)
  }

  // ----- the shadow fields of computed properties (addFieldsForComputedMethod)

  /** The walk's state: the fields added so far and the `alreadyDone` set, or
      the method whose missing parameter stopped the processor. */
  datatype ShadowState =
    | Collecting(fields: seq<FieldSpec>, done: set<String>)
    | Failed(methodName: String)

  function ShadowStep(m: Method, st: ShadowState): ShadowState
  {
    match st
    case Failed(_) => st
    case Collecting(fs, done) =>
      match m.computed
      case None => st
      case Some(p) =>
        if p in done then st
        else match ShadowFieldType(m)
          case None => Failed(m.name)
          case Some(t) => Collecting(fs + [FieldSpec(p, t)], done + {p})
  }

  /** The `forEach` over the computed methods of one class. */
  function ShadowWalk(ms: seq<Method>, st: ShadowState): ShadowState
  {
    if |ms| == 0 then st else ShadowWalk(ms[1..], ShadowStep(ms[0], st))
  }

  /** The recursion up the super components, sharing `alreadyDone`. */
  function ShadowChain(classes: seq<ClassDecl>, st: ShadowState): ShadowState
  {
    if |classes| == 0 then st else ShadowChain(classes[1..], ShadowWalk(classes[0].methods, st))
  }

  /** The methods of a hierarchy, closest class first. */
  function AllMethods(classes: seq<ClassDecl>): seq<Method>
  {
    if |classes| == 0 then [] else classes[0].methods + AllMethods(classes[1..])
  }

  function ShadowFields(c: Component): ShadowState
  {
    ShadowChain(c.Chain(), Collecting([], {}))
  }

  // ----- the generated class

  function ProxyMethods(c: Component): seq<MethodSpec>
  {
    var ms := c.decl.methods;
    FlatMap(ComputedProxyStep, ms) + FlatMap(WatchProxyStep, ms)
      + FlatMap(PropValidatorProxyStep, ms) + FlatMap(PropDefaultProxyStep, ms)
  }

  function RenderMethods(c: Component): seq<MethodSpec>
  {
    if c.hasRender then [RenderAdapter] else []
  }

  function CreatedFlagField(c: Component): FieldSpec
  {
    FieldSpec(CreatedFlagName(c.SuperComponentCount()), "boolean")
  }

  /** What `generate` produces for a component. */
  function GenerateSpec(c: Component): GenerationOutcome
  {
    match ShadowFields(c)
    case Failed(name) => SetterWithoutParameter(name)
    case Collecting(shadow, _) =>
      Generated(JsTypeClass(
        ReplaceDots(c.decl.qualifiedName),
        c.decl.qualifiedName,
        shadow + [CreatedFlagField(c)],
        ProxyMethods(c) + RenderMethods(c) + [Created(CreatedBody(c))] + [GetOptions(OptionsBody(c))]))
  }

  /** What `generate` prints on the `Messager`, in order. */
  function GenerateDiagnostics(c: Component): seq<Diagnostic>
  {
    InterfaceHookDiagnostics(c) + PropDiagnostics(c)
      + (if ShadowFields(c).Failed? then [] else HookDiagnostics(c) + TemplateDiagnostics(c))
  }

  // ----- the order of the options statements

  /** The position of a statement's kind in `getOptions()`. */
  function Rank(s: OptionsStmt): nat
  {
    match s
    case DeclareOptions => 0
    case SetName(_) => 1
    case SetComponentJavaPrototype => 2
    case SetTemplateResource => 3
    case InitData(_, _) => 4
    case AddJavaProp(_, _, _) => 5
    case AddJavaComputed(_, _, _) => 6
    case AddJavaWatch(_, _, _) => 7
    case AddJavaPropValidator(_, _) => 8
    case AddJavaPropDefaultValue(_, _) => 9
    case AddHookMethod(_) => 10
    case AddMethods(_) => 11
    case AddHookMethodAs(hook, _) => if hook == "render" then 12 else 13
    case ReturnOptions => 14
  }

  predicate AllOfRank(s: seq<OptionsStmt>, k: nat)
  {
    forall i :: 0 <= i < |s| ==> Rank(s[i]) == k
  }

  predicate Ordered(s: seq<OptionsStmt>)
  {
    forall i, j :: 0 <= i < j < |s| ==> Rank(s[i]) <= Rank(s[j])
  }

  lemma FlatMapOfRank<A>(f: A -> seq<OptionsStmt>, xs: seq<A>, k: nat)
    requires forall x :: AllOfRank(f(x), k)
    ensures AllOfRank(FlatMap(f, xs), k)
  {
    forall y | y in FlatMap(f, xs) ensures Rank(y) == k {
      FlatMapMember(f, xs, y);
      var x :| x in xs && y in f(x);
      assert AllOfRank(f(x), k);
    }
  }

  lemma MethodSectionRanks(c: Component)
    ensures AllOfRank(FlatMap(ComputedStep, c.decl.methods), 6)
    ensures AllOfRank(FlatMap(WatchStep, c.decl.methods), 7)
    ensures AllOfRank(FlatMap(PropValidatorStep, c.decl.methods), 8)
    ensures AllOfRank(FlatMap(PropDefaultStep, c.decl.methods), 9)
    ensures AllOfRank(HookStatements(c), 10)
  {
    var ms := c.decl.methods;
    FlatMapOfRank(ComputedStep, ms, 6);
    FlatMapOfRank(WatchStep, ms, 7);
    FlatMapOfRank(PropValidatorStep, ms, 8);
    FlatMapOfRank(PropDefaultStep, ms, 9);
    FlatMapOfRank(HookStep(c), ms, 10);
  }

  /** Every statement of section `k` has rank `k`. */
  lemma SectionRank(c: Component, k: nat)
    requires k < SectionCount
    ensures AllOfRank(Section(c, k), k)
  {
    if k == 5 {
      FlatMapOfRank(PropStep, c.decl.fields, 5);
    } else if 6 <= k <= 10 {
      MethodSectionRanks(c);
    }
  }

  /** The first `n` sections are ordered by rank, and each statement among
      them sits in the section of its rank. */
  lemma SectionsOrdered(c: Component, n: nat)
    requires n <= SectionCount
    ensures Ordered(SectionsUpTo(c, n))
    ensures forall x :: x in SectionsUpTo(c, n) ==> Rank(x) < n && x in Section(c, Rank(x))
    ensures forall k, x :: 0 <= k < n && x in Section(c, k) ==> x in SectionsUpTo(c, n)
  {
    SectionsUpToOrdered(c, n);
    SectionsUpToMembers(c, n);
    SectionsUpToContains(c, n);
  }

  lemma {:induction false} SectionsUpToOrdered(c: Component, n: nat)
    requires n <= SectionCount
    ensures Ordered(SectionsUpTo(c, n))
    ensures forall x :: x in SectionsUpTo(c, n) ==> Rank(x) < n
  {
    if n > 0 {
      SectionsUpToOrdered(c, n - 1);
      SectionRank(c, n - 1);
      var a, b := SectionsUpTo(c, n - 1), Section(c, n - 1);
      assert SectionsUpTo(c, n) == a + b;
      OrderedAppend(a, b, n - 1);
    }
  }

  lemma {:induction false} SectionsUpToMembers(c: Component, n: nat)
    requires n <= SectionCount
    ensures forall x :: x in SectionsUpTo(c, n) ==> x in Section(c, Rank(x))
  {
    if n > 0 {
      SectionsUpToMembers(c, n - 1);
      SectionRank(c, n - 1);
      var a, b := SectionsUpTo(c, n - 1), Section(c, n - 1);
      assert SectionsUpTo(c, n) == a + b;
      forall x | x in a + b ensures x in Section(c, Rank(x)) {
        if x !in a {
          assert x in b;
        }
      }
    }
  }

  lemma {:induction false} SectionsUpToContains(c: Component, n: nat)
    requires n <= SectionCount
    ensures forall k, x :: 0 <= k < n && x in Section(c, k) ==> x in SectionsUpTo(c, n)
  {
    if n > 0 {
      SectionsUpToContains(c, n - 1);
      var a, b := SectionsUpTo(c, n - 1), Section(c, n - 1);
      assert SectionsUpTo(c, n) == a + b;
      forall k, x | 0 <= k < n && x in Section(c, k) ensures x in a + b {
        if k < n - 1 {
          assert x in a;
        }
      }
    }
  }

  /** Appending statements of rank `k` to ordered statements of lower rank keeps them ordered. */
  lemma OrderedAppend(a: seq<OptionsStmt>, b: seq<OptionsStmt>, k: nat)
    requires Ordered(a) && AllOfRank(b, k)
    requires forall x :: x in a ==> Rank(x) < k
    ensures Ordered(a + b)
    ensures forall x :: x in a + b ==> Rank(x) <= k
  {
    forall i, j | 0 <= i < j < |a + b| ensures Rank((a + b)[i]) <= Rank((a + b)[j]) {
      if j >= |a| && i < |a| {
        assert (a + b)[i] in a;
      }
    }
    forall x | x in a + b ensures Rank(x) <= k {
      if x !in a {
        assert x in b;
      }
    }
  }

  /** A statement is in the options body exactly when it is in the section of its rank. */
  lemma BodyStatement(c: Component, x: OptionsStmt)
    ensures Rank(x) < SectionCount
    ensures x in OptionsBody(c) <==> x in Section(c, Rank(x))
  {
    SectionsOrdered(c, SectionCount);
  }

  /** The options body follows the order of `generate`: declaration, name
      (only for a non-empty `@Component` name), prototype, template resource
      (only with a template), data, props, computed, watchers, validators,
      defaults, hooks, methods, render, created; it ends with `return options`. */
  lemma OptionsBodyOrdered(c: Component)
    ensures Ordered(OptionsBody(c))
    ensures OptionsBody(c)[|OptionsBody(c)| - 1] == ReturnOptions
    ensures forall n :: SetName(n) in OptionsBody(c) <==> c.name != "" && n == c.name
    ensures SetTemplateResource in OptionsBody(c) <==> c.hasTemplate
    ensures DeclareOptions in OptionsBody(c) && SetComponentJavaPrototype in OptionsBody(c)
    ensures AddHookMethodAs("render", RenderMethodName) in OptionsBody(c) <==> c.hasRender
    ensures CreatedRegistration in OptionsBody(c)
  {
    SectionsOrdered(c, SectionCount);
    forall n ensures SetName(n) in OptionsBody(c) <==> c.name != "" && n == c.name {
      BodyStatement(c, SetName(n));
    }
    BodyStatement(c, SetTemplateResource);
    BodyStatement(c, DeclareOptions);
    BodyStatement(c, SetComponentJavaPrototype);
    BodyStatement(c, AddHookMethodAs("render", RenderMethodName));
    BodyStatement(c, CreatedRegistration);
  }

  /** `initData` lists exactly the JS-visible non-`@Prop` fields, in
      declaration order, and is left out when there is none; `addMethods` is
      always emitted, listing the template methods. */
  lemma DataAndMethodsStatements(c: Component)
    ensures DataFieldNames(c.decl.fields) == MapSeq((f: Field) => f.name, Filter(IsDataField, c.decl.fields))
    ensures forall u, ns :: InitData(u, ns) in OptionsBody(c) <==>
      DataFieldNames(c.decl.fields) != [] && ns == DataFieldNames(c.decl.fields) && u == c.useFactory
    ensures forall ns :: AddMethods(ns) in OptionsBody(c) <==> ns == TemplateMethodNames(c)
  {
    FlatMapIsMapFilter(DataFieldStep, IsDataField, (f: Field) => f.name, c.decl.fields);
    forall u, ns ensures InitData(u, ns) in OptionsBody(c) <==>
      DataFieldNames(c.decl.fields) != [] && ns == DataFieldNames(c.decl.fields) && u == c.useFactory
    {
      BodyStatement(c, InitData(u, ns));
    }
    forall ns ensures AddMethods(ns) in OptionsBody(c) <==> ns == TemplateMethodNames(c) {
      BodyStatement(c, AddMethods(ns));
    }
  }

  // ----- props

  predicate IsPropField(f: Field)
  {
    f.prop.Some?
  }

  /** Every `@Prop` field, in declaration order, yields exactly one
      `addJavaProp(name, required, tag)`, whose tag is null unless the prop
      asks for `checkType`; nothing else does. */
  lemma {:induction false} PropStatementsExact(fs: seq<Field>)
    ensures |PropStatements(fs)| == |Filter(IsPropField, fs)|
    ensures forall i :: 0 <= i < |PropStatements(fs)| ==>
      var f := Filter(IsPropField, fs)[i];
      f.prop.Some? &&
      PropStatements(fs)[i] == AddJavaProp(f.name, f.prop.value.required,
        if f.prop.value.checkType then Some(NativeNameForJavaType(f.typ)) else None)
  {
    if |fs| > 0 {
      var n := |fs| - 1;
      PropStatementsExact(fs[..n]);
      assert fs[..n + 1] == fs;
      FlatMapStep(PropStep, fs, n);
      FilterStep(IsPropField, fs, n);
    }
  }

  /** A `@Prop` field not visible in JS gets one error naming the field and
      the component, and only such fields get one. */
  lemma PropDiagnosticsExact(c: Component)
    ensures PropDiagnostics(c) == MapSeq((f: Field) => PropNotVisibleInJS(f.name, c.decl.qualifiedName),
      Filter((f: Field) => f.prop.Some? && !f.visibleInJS, c.decl.fields))
  {
    FlatMapIsMapFilter(PropDiagnosticStep(c.decl.qualifiedName), (f: Field) => f.prop.Some? && !f.visibleInJS,
      (f: Field) => PropNotVisibleInJS(f.name, c.decl.qualifiedName), c.decl.fields);
  }

  // ----- hooks and template methods

  /** `processHooks` registers the hook methods, `processTemplateMethods`
      lists the others visible in the template, both in declaration order. */
  lemma HookAndTemplateSections(c: Component)
    ensures HookStatements(c) == MapSeq((m: Method) => AddHookMethod(m.name), Filter((m: Method) => IsHookMethod(c, m), c.decl.methods))
    ensures TemplateMethodNames(c) == MapSeq((m: Method) => m.name, Filter((m: Method) => IsTemplateMethod(c, m), c.decl.methods))
  {
    var ms := c.decl.methods;
    FlatMapIsMapFilter(HookStep(c), (m: Method) => IsHookMethod(c, m), (m: Method) => AddHookMethod(m.name), ms);
    FlatMapIsMapFilter(TemplateMethodStep(c), (m: Method) => IsTemplateMethod(c, m), (m: Method) => m.name, ms);
  }

  lemma HookSource(c: Component, n: String) returns (i: nat)
    requires AddHookMethod(n) in OptionsBody(c)
    ensures i < |c.decl.methods| && IsHookMethod(c, c.decl.methods[i]) && c.decl.methods[i].name == n
  {
    BodyStatement(c, AddHookMethod(n));
    FlatMapMember(HookStep(c), c.decl.methods, AddHookMethod(n));
    var m :| m in c.decl.methods && AddHookMethod(n) in HookStep(c)(m);
    i :| 0 <= i < |c.decl.methods| && c.decl.methods[i] == m;
  }

  lemma TemplateSource(c: Component, n: String) returns (j: nat)
    requires n in TemplateMethodNames(c)
    ensures j < |c.decl.methods| && IsTemplateMethod(c, c.decl.methods[j]) && c.decl.methods[j].name == n
  {
    FlatMapMember(TemplateMethodStep(c), c.decl.methods, n);
    var m :| m in c.decl.methods && n in TemplateMethodStep(c)(m);
    j :| 0 <= j < |c.decl.methods| && c.decl.methods[j] == m;
  }

  /** A method registered as a hook is not also passed to `addMethods`:
      when the class has no two methods of one name, no name is both. */
  lemma HooksAndTemplateMethodsApart(c: Component)
    requires forall i, j :: 0 <= i < j < |c.decl.methods| ==> c.decl.methods[i].name != c.decl.methods[j].name
    ensures forall n :: AddHookMethod(n) in OptionsBody(c) ==> n !in TemplateMethodNames(c)
  {
    forall n | AddHookMethod(n) in OptionsBody(c) ensures n !in TemplateMethodNames(c) {
      var i := HookSource(c, n);
      if n in TemplateMethodNames(c) {
        var j := TemplateSource(c, n);
        assert false;
      }
    }
  }

  /** The options body is its sections, one after the other. */
  lemma OptionsBodyConcat(c: Component)
    ensures OptionsBody(c) ==
      OptionsHeader(c) + DataSection(c) + PropStatements(c.decl.fields)
      + FlatMap(ComputedStep, c.decl.methods) + FlatMap(WatchStep, c.decl.methods)
      + FlatMap(PropValidatorStep, c.decl.methods) + FlatMap(PropDefaultStep, c.decl.methods)
      + HookStatements(c) + [AddMethods(TemplateMethodNames(c))] + RenderSection(c)
      + [CreatedRegistration] + [ReturnOptions]
  {
    assert SectionsUpTo(c, 1) == [DeclareOptions];
    assert SectionsUpTo(c, 2) == [DeclareOptions] + NameSection(c);
    assert SectionsUpTo(c, 3) == [DeclareOptions] + NameSection(c) + [SetComponentJavaPrototype];
    assert SectionsUpTo(c, 4) == OptionsHeader(c);
    assert SectionsUpTo(c, 5) == SectionsUpTo(c, 4) + Section(c, 4);
    assert SectionsUpTo(c, 6) == SectionsUpTo(c, 5) + Section(c, 5);
    assert SectionsUpTo(c, 7) == SectionsUpTo(c, 6) + Section(c, 6);
    assert SectionsUpTo(c, 8) == SectionsUpTo(c, 7) + Section(c, 7);
    assert SectionsUpTo(c, 9) == SectionsUpTo(c, 8) + Section(c, 8);
    assert SectionsUpTo(c, 10) == SectionsUpTo(c, 9) + Section(c, 9);
    assert SectionsUpTo(c, 11) == SectionsUpTo(c, 10) + Section(c, 10);
    assert SectionsUpTo(c, 12) == SectionsUpTo(c, 11) + Section(c, 11);
    assert SectionsUpTo(c, 13) == SectionsUpTo(c, 12) + Section(c, 12);
    assert SectionsUpTo(c, 14) == SectionsUpTo(c, 13) + Section(c, 13);
  }

  // ----- shadow fields

  function ComputedProperties(ms: seq<Method>): set<String>
  {
    set m | m in ms && m.computed.Some? :: m.computed.value
  }

  /** The first method of `ms` that declares computed property `p`. */
  function FirstDeclaring(ms: seq<Method>, p: String): Option<Method>
  {
    if |ms| == 0 then None
    else if ms[0].computed == Some(p) then Some(ms[0])
    else FirstDeclaring(ms[1..], p)
  }

  function FieldNames(fs: seq<FieldSpec>): seq<String>
  {
    MapSeq((f: FieldSpec) => f.name, fs)
  }

  /** What the walk keeps true of the methods `ms` visited so far. */
  ghost predicate ShadowInvariant(ms: seq<Method>, fs: seq<FieldSpec>, done: set<String>)
  {
    && done == ComputedProperties(ms)
    && (forall i, j :: 0 <= i < j < |fs| ==> fs[i].name != fs[j].name)
    && (forall p :: p in FieldNames(fs) <==> p in done)
    && (forall i :: 0 <= i < |fs| ==>
          FirstDeclaring(ms, fs[i].name).Some? && ShadowFieldType(FirstDeclaring(ms, fs[i].name).value) == Some(fs[i].typ))
  }

  lemma {:induction false} FirstDeclaringSnoc(ms: seq<Method>, m: Method, p: String)
    ensures FirstDeclaring(ms + [m], p) ==
      if FirstDeclaring(ms, p).Some? then FirstDeclaring(ms, p)
      else if m.computed == Some(p) then Some(m) else None
  {
    if |ms| > 0 {
      assert (ms + [m])[1..] == ms[1..] + [m];
      FirstDeclaringSnoc(ms[1..], m, p);
    }
  }

  lemma {:induction false} FirstDeclaringPresent(ms: seq<Method>, p: String)
    ensures FirstDeclaring(ms, p).Some? <==> p in ComputedProperties(ms)
    ensures FirstDeclaring(ms, p).Some? ==> FirstDeclaring(ms, p).value in ms
  {
    if |ms| > 0 {
      FirstDeclaringPresent(ms[1..], p);
      assert ms == [ms[0]] + ms[1..];
      if ms[0].computed != Some(p) && p in ComputedProperties(ms) {
        var m :| m in ms && m.computed == Some(p);
        assert m in ms[1..];
      }
    }
  }

  lemma ShadowStepKeeps(ms: seq<Method>, m: Method, fs: seq<FieldSpec>, done: set<String>)
    requires ShadowInvariant(ms, fs, done)
    requires ShadowStep(m, Collecting(fs, done)).Collecting?
    ensures ShadowInvariant(ms + [m], ShadowStep(m, Collecting(fs, done)).fields, ShadowStep(m, Collecting(fs, done)).done)
  {
    var st := ShadowStep(m, Collecting(fs, done));
    var ms' := ms + [m];
    assert ComputedProperties(ms') == ComputedProperties(ms) + (if m.computed.Some? then {m.computed.value} else {});
    forall p ensures FirstDeclaring(ms', p) ==
      if FirstDeclaring(ms, p).Some? then FirstDeclaring(ms, p) else if m.computed == Some(p) then Some(m) else None
    {
      FirstDeclaringSnoc(ms, m, p);
    }
    forall p ensures FirstDeclaring(ms, p).Some? <==> p in ComputedProperties(ms) {
      FirstDeclaringPresent(ms, p);
    }
    if m.computed.Some? && m.computed.value !in done {
      var p := m.computed.value;
      var fs' := st.fields;
      assert fs' == fs + [FieldSpec(p, ShadowFieldType(m).value)];
      assert FieldNames(fs') == FieldNames(fs) + [p];
      forall i | 0 <= i < |fs| ensures fs[i].name != p {
        assert fs[i].name in FieldNames(fs);
      }
    }
  }

  lemma {:induction false} ShadowWalkFailedStays(ms: seq<Method>, name: String)
    ensures ShadowWalk(ms, Failed(name)) == Failed(name)
  {
    if |ms| > 0 {
      ShadowWalkFailedStays(ms[1..], name);
    }
  }

  lemma {:induction false} ShadowChainFailedStays(classes: seq<ClassDecl>, name: String)
    ensures ShadowChain(classes, Failed(name)) == Failed(name)
  {
    if |classes| > 0 {
      ShadowWalkFailedStays(classes[0].methods, name);
      ShadowChainFailedStays(classes[1..], name);
    }
  }

  lemma {:induction false} ShadowWalkKeeps(visited: seq<Method>, ms: seq<Method>, fs: seq<FieldSpec>, done: set<String>)
    requires ShadowInvariant(visited, fs, done)
    requires ShadowWalk(ms, Collecting(fs, done)).Collecting?
    ensures ShadowInvariant(visited + ms, ShadowWalk(ms, Collecting(fs, done)).fields, ShadowWalk(ms, Collecting(fs, done)).done)
    decreases |ms|
  {
    if |ms| == 0 {
      assert visited + ms == visited;
    } else {
      var st := ShadowStep(ms[0], Collecting(fs, done));
      if st.Failed? {
        ShadowWalkFailedStays(ms[1..], st.methodName);
      } else {
        ShadowStepKeeps(visited, ms[0], fs, done);
        ShadowWalkKeeps(visited + [ms[0]], ms[1..], st.fields, st.done);
        assert visited + [ms[0]] + ms[1..] == visited + ms;
      }
    }
  }

  lemma {:induction false} ShadowWalkAppend(a: seq<Method>, b: seq<Method>, st: ShadowState)
    ensures ShadowWalk(a + b, st) == ShadowWalk(b, ShadowWalk(a, st))
  {
    if |a| == 0 {
      assert a + b == b;
    } else {
      assert (a + b)[1..] == a[1..] + b;
      ShadowWalkAppend(a[1..], b, ShadowStep(a[0], st));
    }
  }

  /** Walking the hierarchy class by class with a shared `alreadyDone` is one
      walk over all its methods, closest class first. */
  lemma {:induction false} ShadowChainIsWalk(classes: seq<ClassDecl>, st: ShadowState)
    ensures ShadowChain(classes, st) == ShadowWalk(AllMethods(classes), st)
  {
    if |classes| > 0 {
      ShadowChainIsWalk(classes[1..], ShadowWalk(classes[0].methods, st));
      ShadowWalkAppend(classes[0].methods, AllMethods(classes[1..]), st);
    }
  }

  /** The shadow fields of a component: one per computed property name
      declared anywhere in its hierarchy and no name twice; its type comes
      from the first declaring method, the component's own before its
      ancestors' (the value parameter of a setter, the return type of a getter). */
  lemma ShadowFieldsDeduplicated(c: Component)
    requires ShadowFields(c).Collecting?
    ensures var fs := ShadowFields(c).fields;
      && (forall i, j :: 0 <= i < j < |fs| ==> fs[i].name != fs[j].name)
      && (forall p :: p in FieldNames(fs) <==> p in ComputedProperties(AllMethods(c.Chain())))
      && (forall i :: 0 <= i < |fs| ==>
            FirstDeclaring(AllMethods(c.Chain()), fs[i].name).Some? &&
            ShadowFieldType(FirstDeclaring(AllMethods(c.Chain()), fs[i].name).value) == Some(fs[i].typ))
  {
    ShadowChainIsWalk(c.Chain(), Collecting([], {}));
    assert ShadowInvariant([], [], {});
    ShadowWalkKeeps([], AllMethods(c.Chain()), [], {});
    assert [] + AllMethods(c.Chain()) == AllMethods(c.Chain());
  }

  /** The processor stops only on a `@Computed` method returning `void`
      without a parameter, whose property was not in `alreadyDone` when the
      walk began and is declared by no earlier method of the walk. */
  lemma {:induction false} ShadowWalkFails(ms: seq<Method>, st: ShadowState) returns (i: nat)
    requires st.Collecting? && ShadowWalk(ms, st).Failed?
    ensures i < |ms| && ms[i].name == ShadowWalk(ms, st).methodName
    ensures ms[i].computed.Some? && ms[i].returnType == Void && |ms[i].params| == 0
    ensures ms[i].computed.value !in st.done
    ensures forall j :: 0 <= j < i ==> ms[j].computed != ms[i].computed
  {
    var st' := ShadowStep(ms[0], st);
    if st'.Failed? {
      ShadowWalkFailedStays(ms[1..], st'.methodName);
      i := 0;
    } else {
      var k := ShadowWalkFails(ms[1..], st');
      i := k + 1;
      assert st.done <= st'.done;
      assert ms[0].computed.Some? ==> ms[0].computed.value in st'.done;
      forall j | 0 <= j < i ensures ms[j].computed != ms[i].computed {
        if j > 0 {
          assert ms[j] == ms[1..][j - 1];
        }
      }
    }
  }

  // ----- proxies

  lemma ProxyStepSource(f: Method -> seq<MethodSpec>, p: Method -> bool, ms: seq<Method>, x: MethodSpec)
    requires forall m :: f(m) == if p(m) then [ProxyFor(m)] else []
    requires x in FlatMap(f, ms)
    ensures exists m :: m in ms && p(m) && x == ProxyFor(m)
  {
    FlatMapMember(f, ms, x);
    var m :| m in ms && x in f(m);
  }

  /** One proxy per `@Computed`, `@Watch`, `@PropValidator` and
      `@PropDefault` method, each group in declaration order (a method with
      two of them gets two). */
  lemma ProxyMethodsExact(c: Component)
    ensures var ms := c.decl.methods;
      ProxyMethods(c) ==
        MapSeq(ProxyFor, Filter(HasComputed, ms)) + MapSeq(ProxyFor, Filter(HasWatch, ms))
        + MapSeq(ProxyFor, Filter(HasPropValidator, ms)) + MapSeq(ProxyFor, Filter(HasPropDefault, ms))
  {
    var ms := c.decl.methods;
    FlatMapIsMapFilter(ComputedProxyStep, HasComputed, ProxyFor, ms);
    FlatMapIsMapFilter(WatchProxyStep, HasWatch, ProxyFor, ms);
    FlatMapIsMapFilter(PropValidatorProxyStep, HasPropValidator, ProxyFor, ms);
    FlatMapIsMapFilter(PropDefaultProxyStep, HasPropDefault, ProxyFor, ms);
  }

  /** Each proxy forwards to a method of the component carrying one of those annotations. */
  lemma ProxyMethodsForward(c: Component)
    ensures forall x :: x in ProxyMethods(c) ==> exists m :: (m in c.decl.methods && x == ProxyFor(m) &&
      (m.computed.Some? || m.watch.Some? || m.propValidator.Some? || m.propDefault.Some?))
  {
    var ms := c.decl.methods;
    forall x | x in ProxyMethods(c) ensures exists m :: (m in ms && x == ProxyFor(m) &&
      (m.computed.Some? || m.watch.Some? || m.propValidator.Some? || m.propDefault.Some?))
    {
      if x in FlatMap(ComputedProxyStep, ms) {
        ProxyStepSource(ComputedProxyStep, HasComputed, ms, x);
      } else if x in FlatMap(WatchProxyStep, ms) {
        ProxyStepSource(WatchProxyStep, HasWatch, ms, x);
      } else if x in FlatMap(PropValidatorProxyStep, ms) {
        ProxyStepSource(PropValidatorProxyStep, HasPropValidator, ms, x);
      } else {
        ProxyStepSource(PropDefaultProxyStep, HasPropDefault, ms, x);
      }
    }
  }

  /** The generated class is named after the component with its dots
      replaced, registers under the component's qualified name, has the
      shadow fields then the created guard, and holds the proxies, the render
      adapter when the component implements `HasRender`, `vuegwt$created` and
      `getOptions`; every proxy forwards to a method of the component. */
  lemma GeneratedClass(c: Component)
    requires GenerateSpec(c).Generated?
    ensures var jt := GenerateSpec(c).jsType;
      && '.' !in jt.jsTypeName && |jt.jsTypeName| == |c.decl.qualifiedName|
      && jt.registeredName == c.decl.qualifiedName
      && ShadowFields(c).Collecting?
      && jt.fields == ShadowFields(c).fields + [FieldSpec(CreatedFlagName(c.SuperComponentCount()), "boolean")]
      && |jt.methods| == |ProxyMethods(c)| + (if c.hasRender then 1 else 0) + 2
      && jt.methods[..|ProxyMethods(c)|] == ProxyMethods(c)
      && (RenderAdapter in jt.methods <==> c.hasRender)
      && (c.hasRender ==> jt.methods[|ProxyMethods(c)|] == RenderAdapter)
      && jt.methods[|jt.methods| - 1] == GetOptions(OptionsBody(c))
      && jt.methods[|jt.methods| - 2] == Created(CreatedBody(c))
      && (forall x :: x in jt.methods && x.Proxy? ==> exists m :: m in c.decl.methods && x == ProxyFor(m))
  {
    var jt := GenerateSpec(c).jsType;
    var tail := RenderMethods(c) + [Created(CreatedBody(c)), GetOptions(OptionsBody(c))];
    assert jt.methods == ProxyMethods(c) + tail;
    ProxyMethodsForward(c);
    assert RenderAdapter !in ProxyMethods(c);
    forall x | x in jt.methods && x.Proxy? ensures exists m :: m in c.decl.methods && x == ProxyFor(m) {
      assert x !in tail;
    }
  }
}
