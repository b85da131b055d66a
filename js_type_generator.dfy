/** `ComponentJsTypeGenerator`: the annotation-processor step that, for one
    `@Component` class, fills JavaPoet builders with the generated JsType
    class and its static `getOptions()` method, printing errors on the
    compiler's `Messager` as it goes. The builders are objects whose lists
    the processing steps append to; each step is proved to append exactly
    its section as `GeneratorSpec` defines it. */
module JsTypeGenerator {

  import opened Optional
  import opened Strings
  import opened Seqs
  import opened ComponentElements
  import opened GeneratedCode
  import opened GeneratorRules
  import opened CreatedHook
  import opened GeneratorSpec

  /** The `MethodSpec.Builder` of `getOptions()`: its statements so far. */
  class OptionsMethodBuilder {
    var statements: seq<OptionsStmt>

    constructor (header: seq<OptionsStmt>)
      ensures statements == header
    {
      statements := header;
    }

    method AddStatement(s: OptionsStmt)
      modifies this
      ensures statements == old(statements) + [s]
    {
      statements := statements + [s];
    }
  }

  /** The `MethodSpec.Builder` of `vuegwt$created()`. */
  class CreatedMethodBuilder {
    var statements: seq<CreatedStmt>

    constructor ()
      ensures statements == []
    {
      statements := [];
    }

    method AddStatement(s: CreatedStmt)
      modifies this
      ensures statements == old(statements) + [s]
    {
      statements := statements + [s];
    }
  }

  /** The `TypeSpec.Builder` of the generated class. */
  class JsTypeBuilder {
    const jsTypeName: String
    const registeredName: String
    var fields: seq<FieldSpec>
    var methods: seq<MethodSpec>

    constructor (jsTypeName: String, registeredName: String)
      ensures this.jsTypeName == jsTypeName && this.registeredName == registeredName
      ensures fields == [] && methods == []
    {
      this.jsTypeName := jsTypeName;
      this.registeredName := registeredName;
      fields := [];
      methods := [];
    }

    method AddField(f: FieldSpec)
      modifies this
      ensures fields == old(fields) + [f] && methods == old(methods)
    {
      fields := fields + [f];
    }

    method AddMethod(m: MethodSpec)
      modifies this
      ensures methods == old(methods) + [m] && fields == old(fields)
    {
      methods := methods + [m];
    }

    function Build(): JsTypeClass
      reads this
    {
      JsTypeClass(jsTypeName, registeredName, fields, methods)
    }
  }

  class ComponentJsTypeGenerator {
    /** The errors printed on the `Messager` so far. */
    var messages: seq<Diagnostic>

    constructor ()
      ensures messages == []
    {
      messages := [];
    }

    /** `generate`: the class produced, or the processor stopped by a
        `@Computed` setter without a parameter; the errors printed. */
    method Generate(c: Component) returns (out: GenerationOutcome)
      modifies this
      ensures out == GenerateSpec(c)
      ensures messages == old(messages) + GenerateDiagnostics(c)
    {
      var jb := GetComponentJsTypeBuilder(c);
      var ob := GetOptionsMethodBuilder(c);
      var hooks := GetHookMethodsFromInterfaces(c);
      ghost var interfaceErrors := messages;
      ProcessData(c, ob);
      ProcessProps(c, ob);
      ghost var propErrors := messages;
      assert propErrors == old(messages) + InterfaceHookDiagnostics(c) + PropDiagnostics(c);
      ghost var options := ob.statements;
      assert options == OptionsHeader(c) + DataSection(c) + PropStatements(c.decl.fields);
      var failure := ProcessComputed(c, ob, jb);
      if failure.Some? {
        out := SetterWithoutParameter(failure.value);
        ghost var errors, props := InterfaceHookDiagnostics(c), PropDiagnostics(c);
        assert GenerateDiagnostics(c) == errors + props + [];
        assert errors + props + [] == errors + props;
        AppendAssoc(old(messages), errors, props);
        return;
      }
      assert jb.methods == FlatMap(ComputedProxyStep, c.decl.methods);
      ghost var fields := jb.fields;
      ghost var computed := FlatMap(ComputedStep, c.decl.methods);
      ProcessWatchers(c, ob, jb);
      ProcessPropValidators(c, ob, jb);
      ProcessPropDefaultValues(c, ob, jb);
      assert jb.methods == ProxyMethods(c);
      ghost var errors, props := InterfaceHookDiagnostics(c), PropDiagnostics(c);
      ghost var hookErrors, templateErrors := HookDiagnostics(c), TemplateDiagnostics(c);
      assert GenerateDiagnostics(c) == errors + props + (hookErrors + templateErrors);
      AppendAssoc(old(messages), errors, props);
      AppendAssoc(old(messages) + (errors + props), hookErrors, templateErrors);
      AppendAssoc(old(messages), errors + props, hookErrors + templateErrors);
      ProcessHooks(c, ob, hooks);
      ProcessTemplateMethods(c, ob, hooks);
      assert messages == propErrors + HookDiagnostics(c) + TemplateDiagnostics(c);
      ProcessRenderFunction(c, ob, jb);
      CreateCreatedHook(c, ob, jb);
      ob.AddStatement(ReturnOptions);
      OptionsBodyConcat(c);
      assert ob.statements == OptionsBody(c);
      jb.AddMethod(GetOptions(ob.statements));
      assert jb.fields == fields + [CreatedFlagField(c)];
      out := Generated(jb.Build());
    }

    /** `getComponentJsTypeBuilder`: the `@JsType` name is the qualified name
        with its dots replaced by `_`; the static block registers the
        component under its qualified name. */
    method GetComponentJsTypeBuilder(c: Component) returns (jb: JsTypeBuilder)
      ensures fresh(jb)
      ensures jb.jsTypeName == ReplaceDots(c.decl.qualifiedName) && jb.registeredName == c.decl.qualifiedName
      ensures jb.fields == [] && jb.methods == []
    {
      jb := new JsTypeBuilder(ReplaceDots(c.decl.qualifiedName), c.decl.qualifiedName);
    }

    /** `getOptionsMethodBuilder`. */
    method GetOptionsMethodBuilder(c: Component) returns (ob: OptionsMethodBuilder)
      ensures fresh(ob)
      ensures ob.statements == OptionsHeader(c)
    {
      ob := new OptionsMethodBuilder([DeclareOptions]);
      if c.name != "" {
        ob.AddStatement(SetName(c.name));
      }
      ob.AddStatement(SetComponentJavaPrototype);
      if c.hasTemplate {
        ob.AddStatement(SetTemplateResource);
      }
    }

    /** `getHookMethodsFromInterfaces`: collects the ids of the `@HookMethod`
        methods of the implemented interfaces, validating each. */
    method GetHookMethodsFromInterfaces(c: Component) returns (hooks: set<String>)
      modifies this
      ensures hooks == HookMethodsFromInterfaces(c)
      ensures messages == old(messages) + InterfaceHookDiagnostics(c)
    {
      var ims := c.interfaceMethods;
      hooks := {};
      for i := 0 to |ims|
        invariant hooks == HookIds(ims[..i])
        invariant messages == old(messages) + FlatMap(InterfaceHookValidation, ims[..i])
      {
        FlatMapStep(InterfaceHookValidation, ims, i);
        assert ims[..i + 1][..i] == ims[..i];
        if ims[i].hookAnnotated {
          ValidateHookMethod(ims[i].name, ims[i].visibleInJS);
          hooks := hooks + {ims[i].id};
        }
      }
      assert ims[..|ims|] == ims;
    }

    /** `validateHookMethod`. */
    method ValidateHookMethod(name: String, visibleInJS: bool)
      modifies this
      ensures messages == old(messages) + (if visibleInJS then [] else [HookMethodNotJsMethod(name)])
    {
      if !visibleInJS {
        messages := messages + [HookMethodNotJsMethod(name)];
      }
    }

    /** `processData`. */
    method ProcessData(c: Component, ob: OptionsMethodBuilder)
      modifies ob
      ensures ob.statements == old(ob.statements) + DataSection(c)
    {
      var fs := c.decl.fields;
      var names: seq<String> := [];
      for i := 0 to |fs|
        invariant names == FlatMap(DataFieldStep, fs[..i])
        invariant ob.statements == old(ob.statements)
      {
        FlatMapStep(DataFieldStep, fs, i);
        if fs[i].visibleInJS && fs[i].prop.None? {
          names := names + [fs[i].name];
        }
      }
      assert fs[..|fs|] == fs;
      if names == [] {
        return;
      }
      ob.AddStatement(InitData(c.useFactory, names));
    }

    /** `processProps`. */
    method ProcessProps(c: Component, ob: OptionsMethodBuilder)
      modifies this, ob
      ensures ob.statements == old(ob.statements) + PropStatements(c.decl.fields)
      ensures messages == old(messages) + PropDiagnostics(c)
    {
      var fs := c.decl.fields;
      for i := 0 to |fs|
        invariant ob.statements == old(ob.statements) + FlatMap(PropStep, fs[..i])
        invariant messages == old(messages) + FlatMap(PropDiagnosticStep(c.decl.qualifiedName), fs[..i])
      {
        FlatMapStep(PropStep, fs, i);
        FlatMapStep(PropDiagnosticStep(c.decl.qualifiedName), fs, i);
        var f := fs[i];
        if f.prop.Some? {
          var p := f.prop.value;
          if !f.visibleInJS {
            messages := messages + [PropNotVisibleInJS(f.name, c.decl.qualifiedName)];
          }
          var tag := if p.checkType then Some(NativeNameForJavaType(f.typ)) else None;
          ob.AddStatement(AddJavaProp(f.name, p.required, tag));
        }
      }
      assert fs[..|fs|] == fs;
    }

    /** `processComputed`: a statement and a proxy per `@Computed` method of
        the component, then the shadow fields of the whole hierarchy; `Some`
        names the setter without parameter that stopped the processor. */
    method ProcessComputed(c: Component, ob: OptionsMethodBuilder, jb: JsTypeBuilder) returns (failure: Option<String>)
      modifies ob, jb
      ensures ob.statements == old(ob.statements) + FlatMap(ComputedStep, c.decl.methods)
      ensures jb.methods == old(jb.methods) + FlatMap(ComputedProxyStep, c.decl.methods)
      ensures var st := ShadowChain(c.Chain(), Collecting(old(jb.fields), {}));
        && (failure.Some? ==> st == Failed(failure.value))
        && (failure.None? ==> st.Collecting? && st.fields == jb.fields)
    {
      var ms := c.decl.methods;
      for i := 0 to |ms|
        invariant ob.statements == old(ob.statements) + FlatMap(ComputedStep, ms[..i])
        invariant jb.methods == old(jb.methods) + FlatMap(ComputedProxyStep, ms[..i])
        invariant jb.fields == old(jb.fields)
      {
        FlatMapStep(ComputedStep, ms, i);
        FlatMapStep(ComputedProxyStep, ms, i);
        var m := ms[i];
        if m.computed.Some? {
          var kind := if m.returnType == Void then SETTER else GETTER;
          ob.AddStatement(AddJavaComputed(m.name, m.computed.value, kind));
          jb.AddMethod(ProxyFor(m));
        }
      }
      assert ms[..|ms|] == ms;
      var done;
      done, failure := AddFieldsForComputedMethod(c.decl, c.ancestors, jb, {});
    }

    /** `addFieldsForComputedMethod`: a public field per computed property
        not in `alreadyDone`, typed by its setter's parameter or its getter's
        return type, then the same for the super component with the grown set.
        `Some` names the setter without parameter on which `get(0)` throws. */
    method AddFieldsForComputedMethod(cls: ClassDecl, supers: seq<ClassDecl>, jb: JsTypeBuilder, alreadyDone: set<String>)
      returns (done: set<String>, failure: Option<String>)
      modifies jb
      ensures jb.methods == old(jb.methods)
      ensures ShadowChain([cls] + supers, Collecting(old(jb.fields), alreadyDone)) ==
        if failure.Some? then Failed(failure.value) else Collecting(jb.fields, done)
      decreases |supers|
    {
      var ms := cls.methods;
      done := alreadyDone;
      var i := 0;
      while i < |ms|
        invariant 0 <= i <= |ms|
        invariant jb.methods == old(jb.methods)
        invariant ShadowWalk(ms, Collecting(old(jb.fields), alreadyDone)) == ShadowWalk(ms[i..], Collecting(jb.fields, done))
      {
        var m := ms[i];
        assert ms[i..][1..] == ms[i + 1..];
        if m.computed.Some? && m.computed.value !in done {
          var p := m.computed.value;
          var typ;
          if m.returnType == Void {
            if |m.params| == 0 {
              failure := Some(m.name);
              ShadowWalkFailedStays(ms[i + 1..], m.name);
              ShadowChainFailedStays(supers, m.name);
              assert ([cls] + supers)[1..] == supers;
              return;
            }
            typ := m.params[0].typ;
          } else {
            typ := m.returnType;
          }
          jb.AddField(FieldSpec(p, typ));
          done := done + {p};
        }
        i := i + 1;
      }
      assert ([cls] + supers)[1..] == supers;
      if |supers| == 0 {
        failure := None;
      } else {
        assert [supers[0]] + supers[1..] == supers;
        done, failure := AddFieldsForComputedMethod(supers[0], supers[1..], jb, done);
      }
    }

    /** `processWatchers`. */
    method ProcessWatchers(c: Component, ob: OptionsMethodBuilder, jb: JsTypeBuilder)
      modifies ob, jb
      ensures ob.statements == old(ob.statements) + FlatMap(WatchStep, c.decl.methods)
      ensures jb.methods == old(jb.methods) + FlatMap(WatchProxyStep, c.decl.methods)
      ensures jb.fields == old(jb.fields)
    {
      var ms := c.decl.methods;
      for i := 0 to |ms|
        invariant ob.statements == old(ob.statements) + FlatMap(WatchStep, ms[..i])
        invariant jb.methods == old(jb.methods) + FlatMap(WatchProxyStep, ms[..i])
        invariant jb.fields == old(jb.fields)
      {
        FlatMapStep(WatchStep, ms, i);
        FlatMapStep(WatchProxyStep, ms, i);
        var m := ms[i];
        if m.watch.Some? {
          ob.AddStatement(AddJavaWatch(m.name, m.watch.value.propertyName, m.watch.value.isDeep));
          jb.AddMethod(ProxyFor(m));
        }
      }
      assert ms[..|ms|] == ms;
    }

    /** `processPropValidators`. */
    method ProcessPropValidators(c: Component, ob: OptionsMethodBuilder, jb: JsTypeBuilder)
      modifies ob, jb
      ensures ob.statements == old(ob.statements) + FlatMap(PropValidatorStep, c.decl.methods)
      ensures jb.methods == old(jb.methods) + FlatMap(PropValidatorProxyStep, c.decl.methods)
      ensures jb.fields == old(jb.fields)
    {
      var ms := c.decl.methods;
      for i := 0 to |ms|
        invariant ob.statements == old(ob.statements) + FlatMap(PropValidatorStep, ms[..i])
        invariant jb.methods == old(jb.methods) + FlatMap(PropValidatorProxyStep, ms[..i])
        invariant jb.fields == old(jb.fields)
      {
        FlatMapStep(PropValidatorStep, ms, i);
        FlatMapStep(PropValidatorProxyStep, ms, i);
        var m := ms[i];
        if m.propValidator.Some? {
          ob.AddStatement(AddJavaPropValidator(m.name, m.propValidator.value));
          jb.AddMethod(ProxyFor(m));
        }
      }
      assert ms[..|ms|] == ms;
    }

    /** `processPropDefaultValues`. */
    method ProcessPropDefaultValues(c: Component, ob: OptionsMethodBuilder, jb: JsTypeBuilder)
      modifies ob, jb
      ensures ob.statements == old(ob.statements) + FlatMap(PropDefaultStep, c.decl.methods)
      ensures jb.methods == old(jb.methods) + FlatMap(PropDefaultProxyStep, c.decl.methods)
      ensures jb.fields == old(jb.fields)
    {
      var ms := c.decl.methods;
      for i := 0 to |ms|
        invariant ob.statements == old(ob.statements) + FlatMap(PropDefaultStep, ms[..i])
        invariant jb.methods == old(jb.methods) + FlatMap(PropDefaultProxyStep, ms[..i])
        invariant jb.fields == old(jb.fields)
      {
        FlatMapStep(PropDefaultStep, ms, i);
        FlatMapStep(PropDefaultProxyStep, ms, i);
        var m := ms[i];
        if m.propDefault.Some? {
          ob.AddStatement(AddJavaPropDefaultValue(m.name, m.propDefault.value));
          jb.AddMethod(ProxyFor(m));
        }
      }
      assert ms[..|ms|] == ms;
    }

    /** `isHookMethod`: annotated `@HookMethod` (then validated), or
        overriding one of the interfaces' hook methods. */
    method CheckHookMethod(m: Method, hooks: set<String>) returns (b: bool)
      modifies this
      ensures b <==> m.hookAnnotated || hooks * m.overrides != {}
      ensures messages == old(messages) + HookValidation(m)
    {
      if m.hookAnnotated {
        ValidateHookMethod(m.name, m.visibleInJS);
        return true;
      }
      var rest := hooks;
      while rest != {}
        invariant rest <= hooks
        invariant (hooks - rest) * m.overrides == {}
        decreases |rest|
      {
        var h :| h in rest;
        if h in m.overrides {
          return true;
        }
        rest := rest - {h};
      }
      return false;
    }

    /** `processHooks`. */
    method ProcessHooks(c: Component, ob: OptionsMethodBuilder, hooks: set<String>)
      requires hooks == HookMethodsFromInterfaces(c)
      modifies this, ob
      ensures ob.statements == old(ob.statements) + HookStatements(c)
      ensures messages == old(messages) + HookDiagnostics(c)
    {
      var ms := c.decl.methods;
      for i := 0 to |ms|
        invariant ob.statements == old(ob.statements) + FlatMap(HookStep(c), ms[..i])
        invariant messages == old(messages) + FlatMap(HookValidation, ms[..i])
      {
        FlatMapStep(HookStep(c), ms, i);
        FlatMapStep(HookValidation, ms, i);
        var isHook := CheckHookMethod(ms[i], hooks);
        if isHook {
          ob.AddStatement(AddHookMethod(ms[i].name));
        }
      }
      assert ms[..|ms|] == ms;
    }

    /** `processTemplateMethods`. */
    method ProcessTemplateMethods(c: Component, ob: OptionsMethodBuilder, hooks: set<String>)
      requires hooks == HookMethodsFromInterfaces(c)
      modifies this, ob
      ensures ob.statements == old(ob.statements) + [AddMethods(TemplateMethodNames(c))]
      ensures messages == old(messages) + TemplateDiagnostics(c)
    {
      var ms := c.decl.methods;
      var names: seq<String> := [];
      for i := 0 to |ms|
        invariant names == FlatMap(TemplateMethodStep(c), ms[..i])
        invariant messages == old(messages) + FlatMap(TemplateValidation, ms[..i])
        invariant ob.statements == old(ob.statements)
      {
        FlatMapStep(TemplateMethodStep(c), ms, i);
        FlatMapStep(TemplateValidation, ms, i);
        if ms[i].visibleInTemplate {
          var isHook := CheckHookMethod(ms[i], hooks);
          if !isHook {
            names := names + [ms[i].name];
          }
        }
      }
      assert ms[..|ms|] == ms;
      ob.AddStatement(AddMethods(names));
    }

    /** `processRenderFunction`. */
    method ProcessRenderFunction(c: Component, ob: OptionsMethodBuilder, jb: JsTypeBuilder)
      modifies ob, jb
      ensures ob.statements == old(ob.statements) + RenderSection(c)
      ensures jb.methods == old(jb.methods) + RenderMethods(c)
      ensures jb.fields == old(jb.fields)
    {
      if !c.hasRender {
        return;
      }
      jb.AddMethod(RenderAdapter);
      ob.AddStatement(AddHookMethodAs("render", RenderMethodName));
    }

    /** `createCreatedHook`: the guard field, the `vuegwt$created` method and
        its registration as the `created` hook. */
    method CreateCreatedHook(c: Component, ob: OptionsMethodBuilder, jb: JsTypeBuilder)
      modifies ob, jb
      ensures ob.statements == old(ob.statements) + [CreatedRegistration]
      ensures jb.fields == old(jb.fields) + [CreatedFlagField(c)]
      ensures jb.methods == old(jb.methods) + [Created(CreatedBody(c))]
    {
      var flag := CreatedFlagName(c.SuperComponentCount());
      jb.AddField(FieldSpec(flag, "boolean"));
      var cb := new CreatedMethodBuilder();
      cb.AddStatement(ReturnIfFlag(flag));
      cb.AddStatement(SetFlag(flag));
      InjectDependencies(c.dependencies, cb);
      CallConstructor(c, cb);
      if c.hasCreated {
        cb.AddStatement(CallSuperCreated);
      }
      assert cb.statements == CreatedBody(c);
      jb.AddMethod(Created(cb.statements));
      ob.AddStatement(AddHookMethodAs("created", CreatedMethodName));
    }

    /** `injectDependencies`: nothing without dependencies. */
    method InjectDependencies(d: Dependencies, cb: CreatedMethodBuilder)
      modifies cb
      ensures cb.statements == old(cb.statements) + InjectionStatements(d)
    {
      if !d.hasDependencies {
        assert cb.statements == old(cb.statements) + [];
        return;
      }
      cb.AddStatement(CreateDependencies);
      CopyDependenciesFields(d, cb);
      CallMethodsWithDependencies(d, cb);
      assert cb.statements == old(cb.statements) + ([CreateDependencies]
        + MapSeq(CopyStatement, d.injectedFields) + MapSeq(CallStatement, d.injectedParametersByMethod));
    }

    /** `copyDependenciesFields`. */
    method CopyDependenciesFields(d: Dependencies, cb: CreatedMethodBuilder)
      modifies cb
      ensures cb.statements == old(cb.statements) + MapSeq(CopyStatement, d.injectedFields)
    {
      var fs := d.injectedFields;
      for i := 0 to |fs|
        invariant cb.statements == old(cb.statements) + MapSeq(CopyStatement, fs[..i])
      {
        MapSeqStep(CopyStatement, fs, i);
        cb.AddStatement(CopyDependencyField(fs[i]));
      }
      assert fs[..|fs|] == fs;
    }

    /** `callMethodsWithDependencies`. */
    method CallMethodsWithDependencies(d: Dependencies, cb: CreatedMethodBuilder)
      modifies cb
      ensures cb.statements == old(cb.statements) + MapSeq(CallStatement, d.injectedParametersByMethod)
    {
      var es := d.injectedParametersByMethod;
      for i := 0 to |es|
        invariant cb.statements == old(cb.statements) + MapSeq(CallStatement, es[..i])
      {
        MapSeqStep(CallStatement, es, i);
        var (methodName, parameters) := es[i];
        cb.AddStatement(CallWithDependencies(methodName, DependencyArguments(parameters)));
      }
      assert es[..|es|] == es;
    }

    /** `callConstructor`. */
    method CallConstructor(c: Component, cb: CreatedMethodBuilder)
      modifies cb
      ensures cb.statements == old(cb.statements) + ConstructorStatements(c)
    {
      cb.AddStatement(FetchJavaConstructor(c.decl.qualifiedName));
      cb.AddStatement(CallJavaConstructor);
    }
  }
}
