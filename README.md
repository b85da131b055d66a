# vue-gwt component generation and template context, in Dafny

This project models two parts of vue-gwt, the GWT binding of Vue.js:

- **`ComponentJsTypeGenerator`** is the annotation processor step. It turns a Java `@Component` class into a JsInterop class. That class holds:
  - a proxy for every `@Computed`, `@Watch`, `@PropValidator` and `@PropDefault` method;
  - a public field shadowing each computed property;
  - a guarded `vuegwt$created` hook;
  - a static `getOptions()` method that builds the Vue options statement by statement.

  The processor also reports errors through the compiler's messager.
- **`TemplateParserContext`** is what the template parser knows while it walks a template:
  - a stack of variable layers, innermost first, over a root layer for the component;
  - an import table from simple class names to qualified ones.

The annotation-processing inputs are abstracted as values (`ComponentElements`):
- the component's fields and methods with their annotations;
- the implemented interfaces' methods;
- the ancestor chain;
- the injected dependencies.

The generated code is a sequence of statement values (`GeneratedCode`), not JavaPoet text.

Modules:
- `GeneratorSpec` defines, as functions, the class and the options body that generation produces. Its lemmas state the promised properties:
  - the section order;
  - exactly which fields and methods produce which statements;
  - deduplicated shadow fields across the hierarchy;
  - proxies that forward to `super`;
  - hooks and template methods that never overlap.
- `JsTypeGenerator` is the processor itself. It is a class whose methods append to builder objects and to a diagnostics list, each proved against those functions.
- `CreatedHook` gives the created body a small interpreter. With it, the lemmas prove that for the levels of one hierarchy, running their hooks on an instance does each level's injection and runs the Java constructor of each level's own class, level after level. When the levels are distinct classes, each one's constructor runs exactly once. Running the hooks again after they have all run, or running a level's hook while its guard is set, changes nothing.
- `TemplateParser` holds the context class and the lookup and import functions it is proved against.

## Model

| member | source | states |
|---|---|---|
| GeneratorRules.NativeNameForJavaType | src/main/java/com/axellience/vuegwt/jsr69/component/ComponentJsTypeGenerator.java:690-719 | the tag is one of Number, Boolean, String, Array, Object; Number exactly for int/byte/short/long/float/double, Boolean exactly for boolean, String exactly for String or char, Array exactly for the other types whose name starts with the JsArray name, Object for all the rest |
| GeneratorRules.ShadowFieldType | src/main/java/com/axellience/vuegwt/jsr69/component/ComponentJsTypeGenerator.java:332-336 | a computed setter (returns void, the SETTER kind of `ComputedKindOf`) shadows with its first parameter's type, a getter with its return type; no type exactly when a setter has no parameter, where `get(0)` throws |
| GeneratorRules.HookIdsMember | src/main/java/com/axellience/vuegwt/jsr69/component/ComponentJsTypeGenerator.java:437-451 | an id is among the interfaces' hook methods exactly when some implemented interface declares it with `@HookMethod` |
| GeneratorRules.ProxyForwardsToSuper | src/main/java/com/axellience/vuegwt/jsr69/component/ComponentJsTypeGenerator.java:611-648 | `ProxyFor` (the model of `createProxyJsTypeMethod`, with `SuperMethodCallParameters` for `getSuperMethodCallParameters`): a proxy keeps the original's name, parameters and return type, calls the same method on `super`, returns its value exactly when the return type is not void, and passes the parameter names in order joined by ", " |
| GeneratorSpec.OptionsBodyOrdered | src/main/java/com/axellience/vuegwt/jsr69/component/ComponentJsTypeGenerator.java:91-111 | the `getOptions` body follows the order of `generate`: declaration, name, prototype, template, then data, props, computed, watchers, validators, defaults, hooks, methods, render, created, ending in `return options`; `setName` exactly when the name is non-empty, `setTemplateResource` exactly with a template, the render registration exactly with `HasRender`, the created registration always |
| GeneratorSpec.SectionsOrdered | src/main/java/com/axellience/vuegwt/jsr69/component/ComponentJsTypeGenerator.java:163-193 | every prefix of the sections is ordered by section and holds exactly the statements of its sections |
| GeneratorSpec.BodyStatement | src/main/java/com/axellience/vuegwt/jsr69/component/ComponentJsTypeGenerator.java:91-111 | a statement is in the options body exactly when it is in the section its kind belongs to |
| GeneratorSpec.OptionsBodyConcat | src/main/java/com/axellience/vuegwt/jsr69/component/ComponentJsTypeGenerator.java:163-193 | the options body is the header followed by each section's statements in the order `generate` calls the steps, then `return options` |
| GeneratorSpec.DataAndMethodsStatements | src/main/java/com/axellience/vuegwt/jsr69/component/ComponentJsTypeGenerator.java:201-225 | `initData` lists exactly the JS-visible non-`@Prop` fields in declaration order and is absent when there are none; `addMethods` is always there, with exactly the template methods |
| GeneratorSpec.PropStatementsExact | src/main/java/com/axellience/vuegwt/jsr69/component/ComponentJsTypeGenerator.java:233-257 | one `addJavaProp` per `@Prop` field in declaration order, with its name, its `required` flag and a type tag only when `checkType` is set |
| GeneratorSpec.PropDiagnosticsExact | src/main/java/com/axellience/vuegwt/jsr69/component/ComponentJsTypeGenerator.java:243-251 | one error per `@Prop` field not visible in JS, naming the field and the component, and no other; its `addJavaProp` is still emitted |
| GeneratorSpec.HookAndTemplateSections | src/main/java/com/axellience/vuegwt/jsr69/component/ComponentJsTypeGenerator.java:298-314 | hook registrations are the hook methods in declaration order; template methods are the template-visible methods that are not hooks, in declaration order |
| GeneratorSpec.HookSource | src/main/java/com/axellience/vuegwt/jsr69/component/ComponentJsTypeGenerator.java:421-430 | every hook registration names a hook method of the component |
| GeneratorSpec.TemplateSource | src/main/java/com/axellience/vuegwt/jsr69/component/ComponentJsTypeGenerator.java:301-306 | every name in `addMethods` is a template-visible non-hook method of the component |
| GeneratorSpec.HooksAndTemplateMethodsApart | src/main/java/com/axellience/vuegwt/jsr69/component/ComponentJsTypeGenerator.java:298-306 | no method name is both registered as a hook and listed in `addMethods` |
| GeneratorSpec.MethodSectionRanks | src/main/java/com/axellience/vuegwt/jsr69/component/ComponentJsTypeGenerator.java:270-285 | the computed, watcher, validator, default and hook steps only emit statements of their own kind |
| GeneratorSpec.SectionRank | src/main/java/com/axellience/vuegwt/jsr69/component/ComponentJsTypeGenerator.java:98-107 | each section emits only statements of its own kind |
| GeneratorSpec.FirstDeclaringPresent | src/main/java/com/axellience/vuegwt/jsr69/component/ComponentJsTypeGenerator.java:323-348 | a computed property has a first declaring method exactly when some visited method declares it |
| GeneratorSpec.FirstDeclaringSnoc | src/main/java/com/axellience/vuegwt/jsr69/component/ComponentJsTypeGenerator.java:326-342 | visiting one more method changes the first declaration only of a property no earlier method declared |
| GeneratorSpec.ShadowStepKeeps | src/main/java/com/axellience/vuegwt/jsr69/component/ComponentJsTypeGenerator.java:326-342 | handling one `@Computed` method keeps the invariant: one field per property seen so far, typed by its first declaration, and `alreadyDone` is exactly those names |
| GeneratorSpec.ShadowWalkKeeps | src/main/java/com/axellience/vuegwt/jsr69/component/ComponentJsTypeGenerator.java:326-342 | the invariant holds after walking any sequence of methods |
| GeneratorSpec.ShadowWalkAppend | src/main/java/com/axellience/vuegwt/jsr69/component/ComponentJsTypeGenerator.java:326-347 | walking two method lists one after the other is walking their concatenation |
| GeneratorSpec.ShadowChainIsWalk | src/main/java/com/axellience/vuegwt/jsr69/component/ComponentJsTypeGenerator.java:344-347 | walking class by class with one shared `alreadyDone` is one walk over all methods, closest class first |
| GeneratorSpec.ShadowWalkFailedStays | src/main/java/com/axellience/vuegwt/jsr69/component/ComponentJsTypeGenerator.java:334 | once a setter without parameter has stopped the walk, nothing more happens |
| GeneratorSpec.ShadowChainFailedStays | src/main/java/com/axellience/vuegwt/jsr69/component/ComponentJsTypeGenerator.java:334 | the same for the walk over the class chain |
| GeneratorSpec.ShadowFieldsDeduplicated | src/main/java/com/axellience/vuegwt/jsr69/component/ComponentJsTypeGenerator.java:267-348 | the shadow fields have distinct names, exactly the computed property names of the component and its ancestors, each typed by the closest declaration |
| GeneratorSpec.ShadowWalkFails | src/main/java/com/axellience/vuegwt/jsr69/component/ComponentJsTypeGenerator.java:323-342 | generation stops only at a `@Computed` void method without parameters, whose property was not in `alreadyDone` when the walk began and is declared by no earlier method of the walk |
| GeneratorSpec.ProxyStepSource | src/main/java/com/axellience/vuegwt/jsr69/component/ComponentJsTypeGenerator.java:270-285 | every proxy a step emits is the proxy of a method that the step selects |
| GeneratorSpec.ProxyMethodsExact | src/main/java/com/axellience/vuegwt/jsr69/component/ComponentJsTypeGenerator.java:267-411 | the proxies are `ProxyFor` of each `@Computed` method in declaration order, then of each `@Watch` method, then of each `@PropValidator` method, then of each `@PropDefault` method |
| GeneratorSpec.ProxyMethodsForward | src/main/java/com/axellience/vuegwt/jsr69/component/ComponentJsTypeGenerator.java:267-411 | each proxy is the proxy of a component method carrying one of those annotations |
| GeneratorSpec.GeneratedClass | src/main/java/com/axellience/vuegwt/jsr69/component/ComponentJsTypeGenerator.java:82-155 | the generated class is named after the component with dots turned into underscores, is registered under the qualified name, holds the shadow fields then the created guard, and the proxies, render, `vuegwt$created` and `getOptions` methods, in that order (`GenerateSpec`, the model of `generate`): the proxies come first, and the `vuegwt$render` adapter is present exactly with `HasRender`, right after them |
| CreatedHook.CreatedFlagNamesDistinct | src/main/java/com/axellience/vuegwt/jsr69/component/ComponentJsTypeGenerator.java:502 | guard flags of different hierarchy depths differ |
| CreatedHook.ExpectedEffectsRunConstructorOnce | src/main/java/com/axellience/vuegwt/jsr69/component/ComponentJsTypeGenerator.java:596-603 | a first run of the created hook runs the Java constructor of the component's own class once and no other class's constructor |
| CreatedHook.InjectionStatementsEffects | src/main/java/com/axellience/vuegwt/jsr69/component/ComponentJsTypeGenerator.java:536-589 | the injection fetches the dependency holder, then copies each injected field, then calls each method with its `dependencies.`-prefixed arguments, in order; nothing without dependencies |
| CreatedHook.BodyTailEffects | src/main/java/com/axellience/vuegwt/jsr69/component/ComponentJsTypeGenerator.java:510-519 | after the guard, the body (`CreatedBody`, the model of the method `createCreatedHook` builds) injects dependencies, then fetches and calls the Java constructor of the component's class, then `super.created()` exactly with `HasCreated`, changing no flag |
| CreatedHook.RunPlain | src/main/java/com/axellience/vuegwt/jsr69/component/ComponentJsTypeGenerator.java:510-519 | statements that touch neither a flag nor the local `javaConstructor` run one after the other, and the rest of the body runs after them with the same local |
| CreatedHook.CreatedRunsOnce | src/main/java/com/axellience/vuegwt/jsr69/component/ComponentJsTypeGenerator.java:508-519 | running the created hook sets only its guard, performs the injection, the constructor of the component's class and `created()` in order, and a second run changes nothing |
| CreatedHook.RunAllFirstRuns | src/main/java/com/axellience/vuegwt/jsr69/component/ComponentJsTypeGenerator.java:502-519 | first runs of levels with distinct depths, one after the other, set exactly their guards and append each level's first-run effects in order |
| CreatedHook.HierarchyLevelsRunOnce | src/main/java/com/axellience/vuegwt/jsr69/component/ComponentJsTypeGenerator.java:502-519 | for hierarchy levels of distinct depths, running their hooks on one instance sets exactly their guards, and the trace gains each level's first-run effects (injection, its own class's constructor, `created()`) in level order; each class's constructor count rises by the number of levels of that class; running them all again changes nothing |
| CreatedHook.EachLevelConstructedOnce | src/main/java/com/axellience/vuegwt/jsr69/component/ComponentJsTypeGenerator.java:596-603 | when the levels are distinct classes, each level's Java constructor runs exactly once |
| CreatedHook.GuardedRunIsNoOp | src/main/java/com/axellience/vuegwt/jsr69/component/ComponentJsTypeGenerator.java:510 | a created hook whose guard is already set does nothing |
| CreatedHook.GuardHeldDuringBody | src/main/java/com/axellience/vuegwt/jsr69/component/ComponentJsTypeGenerator.java:508-519 | during a first run, from the statement after `flag = true` to the end (the Java constructor call included), the guard is set, so the same level's hook entered at any of those points does nothing |
| JsTypeGenerator.ComponentJsTypeGenerator.constructor | src/main/java/com/axellience/vuegwt/jsr69/component/ComponentJsTypeGenerator.java:74-80 | the generator starts with no diagnostics |
| JsTypeGenerator.ComponentJsTypeGenerator.Generate | src/main/java/com/axellience/vuegwt/jsr69/component/ComponentJsTypeGenerator.java:82-117 | the generated class is the one `GenerateSpec` describes (or the setter that stopped generation), and the diagnostics are appended in the order of the steps |
| JsTypeGenerator.ComponentJsTypeGenerator.GetComponentJsTypeBuilder | src/main/java/com/axellience/vuegwt/jsr69/component/ComponentJsTypeGenerator.java:126-155 | a fresh class builder named after the component, with no fields and no methods |
| JsTypeGenerator.ComponentJsTypeGenerator.GetOptionsMethodBuilder | src/main/java/com/axellience/vuegwt/jsr69/component/ComponentJsTypeGenerator.java:163-193 | a fresh options builder holding exactly the header statements |
| JsTypeGenerator.ComponentJsTypeGenerator.GetHookMethodsFromInterfaces | src/main/java/com/axellience/vuegwt/jsr69/component/ComponentJsTypeGenerator.java:437-451 | returns the interfaces' hook method ids and reports each of them that is not a JS method |
| JsTypeGenerator.ComponentJsTypeGenerator.ValidateHookMethod | src/main/java/com/axellience/vuegwt/jsr69/component/ComponentJsTypeGenerator.java:453-460 | reports a hook method not visible in JS, nothing otherwise |
| JsTypeGenerator.ComponentJsTypeGenerator.ProcessData | src/main/java/com/axellience/vuegwt/jsr69/component/ComponentJsTypeGenerator.java:201-225 | appends the data section |
| JsTypeGenerator.ComponentJsTypeGenerator.ProcessProps | src/main/java/com/axellience/vuegwt/jsr69/component/ComponentJsTypeGenerator.java:233-257 | appends one prop statement per `@Prop` field and the errors for props not visible in JS |
| JsTypeGenerator.ComponentJsTypeGenerator.ProcessComputed | src/main/java/com/axellience/vuegwt/jsr69/component/ComponentJsTypeGenerator.java:267-288 | appends the computed statements and proxies, then the shadow fields of the class chain, or names the setter that stopped |
| JsTypeGenerator.ComponentJsTypeGenerator.AddFieldsForComputedMethod | src/main/java/com/axellience/vuegwt/jsr69/component/ComponentJsTypeGenerator.java:323-348 | adds the shadow fields of a class and then of its ancestors, sharing `alreadyDone` |
| JsTypeGenerator.ComponentJsTypeGenerator.ProcessWatchers | src/main/java/com/axellience/vuegwt/jsr69/component/ComponentJsTypeGenerator.java:356-369 | appends the watcher statements and proxies |
| JsTypeGenerator.ComponentJsTypeGenerator.ProcessPropValidators | src/main/java/com/axellience/vuegwt/jsr69/component/ComponentJsTypeGenerator.java:377-390 | appends the validator statements and proxies |
| JsTypeGenerator.ComponentJsTypeGenerator.ProcessPropDefaultValues | src/main/java/com/axellience/vuegwt/jsr69/component/ComponentJsTypeGenerator.java:398-411 | appends the default-value statements and proxies |
| JsTypeGenerator.ComponentJsTypeGenerator.CheckHookMethod | src/main/java/com/axellience/vuegwt/jsr69/component/ComponentJsTypeGenerator.java:657-673 | a method is a hook exactly when annotated `@HookMethod` or overriding an interface hook method, as the predicate `IsHookMethod` states; an annotated one is validated |
| JsTypeGenerator.ComponentJsTypeGenerator.ProcessHooks | src/main/java/com/axellience/vuegwt/jsr69/component/ComponentJsTypeGenerator.java:421-430 | appends one hook registration per hook method |
| JsTypeGenerator.ComponentJsTypeGenerator.ProcessTemplateMethods | src/main/java/com/axellience/vuegwt/jsr69/component/ComponentJsTypeGenerator.java:298-314 | appends `addMethods` with the template methods |
| JsTypeGenerator.ComponentJsTypeGenerator.ProcessRenderFunction | src/main/java/com/axellience/vuegwt/jsr69/component/ComponentJsTypeGenerator.java:469-485 | with `HasRender`, adds `vuegwt$render` and registers it; otherwise nothing |
| JsTypeGenerator.ComponentJsTypeGenerator.CreateCreatedHook | src/main/java/com/axellience/vuegwt/jsr69/component/ComponentJsTypeGenerator.java:499-525 | adds the guard field and `vuegwt$created` and registers it as `created` |
| JsTypeGenerator.ComponentJsTypeGenerator.InjectDependencies | src/main/java/com/axellience/vuegwt/jsr69/component/ComponentJsTypeGenerator.java:536-558 | appends the injection statements |
| JsTypeGenerator.ComponentJsTypeGenerator.CopyDependenciesFields | src/main/java/com/axellience/vuegwt/jsr69/component/ComponentJsTypeGenerator.java:560-568 | appends one copy per injected field, in order |
| JsTypeGenerator.ComponentJsTypeGenerator.CallMethodsWithDependencies | src/main/java/com/axellience/vuegwt/jsr69/component/ComponentJsTypeGenerator.java:570-589 | appends one call per injected method, in order |
| JsTypeGenerator.ComponentJsTypeGenerator.CallConstructor | src/main/java/com/axellience/vuegwt/jsr69/component/ComponentJsTypeGenerator.java:596-603 | appends the fetch of the component class's Java constructor, then its call |
| Strings.ReplaceDots | src/main/java/com/axellience/vuegwt/jsr69/component/ComponentJsTypeGenerator.java:141 | the JsType name has the length of the qualified name, no dot, and `_` wherever the qualified name has a dot |
| Strings.SimpleClassNameOfQualified | src/main/java/com/axellience/vuegwt/template/parser/context/TemplateParserContext.java:138-141 | the simple name of `pkg.Name` (`SimpleClassName`, the last piece of `JavaSplit`, the model of `split("\\.")`) is `Name` |
| Strings.AllDotsHasNoSimpleName | src/main/java/com/axellience/vuegwt/template/parser/context/TemplateParserContext.java:140-141 | a name made only of dots splits into nothing, so taking its last segment fails |
| Strings.NatToStringInjective | src/main/java/com/axellience/vuegwt/jsr69/component/ComponentJsTypeGenerator.java:502 | different depths print differently |
| Strings.ParseNatToString | src/main/java/com/axellience/vuegwt/jsr69/component/ComponentJsTypeGenerator.java:502 | the printed depth reads back as the depth |
| TemplateParser.LookupInnermost | src/main/java/com/axellience/vuegwt/template/parser/context/TemplateParserContext.java:106-116 | lookup answers the binding of the innermost layer that has the name, and nothing exactly when no layer has it |
| TemplateParser.LookupShadowing | src/main/java/com/axellience/vuegwt/template/parser/context/TemplateParserContext.java:77-116 | a layer binding a name hides the outer bindings of that name; an empty layer hides nothing, so pushing it and popping it leaves every lookup as it was |
| TemplateParser.LocalVariableLookup | src/main/java/com/axellience/vuegwt/template/parser/context/TemplateParserContext.java:96-116 | after a local binding, the name resolves to it and every other name resolves as before |
| TemplateParser.WithFieldsBinds | src/main/java/com/axellience/vuegwt/template/parser/context/TemplateParserContext.java:58-62 | registering fields binds exactly those names, each to the type of its last registration, and keeps the methods |
| TemplateParser.WithMethodsBinds | src/main/java/com/axellience/vuegwt/template/parser/context/TemplateParserContext.java:58-62 | registering methods adds exactly those method names and keeps the variables |
| TemplateParser.UntouchedByFields | src/main/java/com/axellience/vuegwt/template/parser/context/TemplateParserContext.java:46-48 | a binding no field name replaces keeps its type |
| TemplateParser.RootLayerBindings | src/main/java/com/axellience/vuegwt/template/parser/context/TemplateParserContext.java:39-62 | the root binds `_uid` as a String (unless a field replaces it) and every field with its type, and knows exactly the class's methods |
| TemplateParser.ImportThenResolve | src/main/java/com/axellience/vuegwt/template/parser/context/TemplateParserContext.java:138-157 | a later import of the same simple name replaces the earlier one: the table is as if only the later import had been made |
| TemplateParser.ImportKeys | src/main/java/com/axellience/vuegwt/template/parser/context/TemplateParserContext.java:138-144 | a name without dots is imported under itself; a name made only of dots cannot be imported |
| TemplateParser.ImportOfQualified | src/main/java/com/axellience/vuegwt/template/parser/context/TemplateParserContext.java:138-157 | importing `pkg.Name` files it under `Name`; `Name` then resolves to `pkg.Name` and every other simple name resolves as before |
| TemplateParser.TemplateParserContext.constructor | src/main/java/com/axellience/vuegwt/template/parser/context/TemplateParserContext.java:39-51 | one layer, the root, binding `_uid`, the fields and the methods; imports of NativeEvent and JsArray and no others |
| TemplateParser.TemplateParserContext.RegisterFieldsAndMethodsInContext | src/main/java/com/axellience/vuegwt/template/parser/context/TemplateParserContext.java:58-62 | adds the class's fields then its methods to the root |
| TemplateParser.TemplateParserContext.AddRootVariable | src/main/java/com/axellience/vuegwt/template/parser/context/TemplateParserContext.java:69-72 | binds the variable in the root whatever the depth, and nothing else changes |
| TemplateParser.TemplateParserContext.AddContextLayer | src/main/java/com/axellience/vuegwt/template/parser/context/TemplateParserContext.java:77-80 | pushes an empty layer on top of the unchanged stack |
| TemplateParser.TemplateParserContext.PopContextLayer | src/main/java/com/axellience/vuegwt/template/parser/context/TemplateParserContext.java:85-88 | removes the top layer of a non-empty stack, even the root; when a pushed layer is popped the root stays on the stack, and the root object and imports never change |
| TemplateParser.TemplateParserContext.AddLocalVariable | src/main/java/com/axellience/vuegwt/template/parser/context/TemplateParserContext.java:96-99 | binds the name in the top layer only; the root changes only when it is the top; the stack keeps its depth and the root its place on it; root methods and imports never change |
| TemplateParser.TemplateParserContext.FindVariable | src/main/java/com/axellience/vuegwt/template/parser/context/TemplateParserContext.java:106-116 | returns the innermost binding of the name on the stack, nothing when there is none |
| TemplateParser.TemplateParserContext.HasMethod | src/main/java/com/axellience/vuegwt/template/parser/context/TemplateParserContext.java:129-132 | true exactly when the root knows the method; no layer operation changes the root's methods |
| TemplateParser.TemplateParserContext.AddImport | src/main/java/com/axellience/vuegwt/template/parser/context/TemplateParserContext.java:138-144 | files the qualified name under its last segment, replacing an earlier import of that segment; reports failure and changes nothing for a name with no segment |
| TemplateParser.TemplateParserContext.GetFullyQualifiedNameForClassName | src/main/java/com/axellience/vuegwt/template/parser/context/TemplateParserContext.java:151-157 | the imported qualified name, or the class name itself when not imported |
| TemplateParser.TemplateParserContext.HasImport | src/main/java/com/axellience/vuegwt/template/parser/context/TemplateParserContext.java:164-167 | true exactly when the class name was imported |
## Left out

- `componentJsTypeName`, `GenerationUtil.toJavaFile` and all JavaPoet text: generated code is modelled as statement values, not as formatted Java source.
- Annotations, modifiers, the superclass and the `TemplateResource` interface of the generated class are not modelled. For the JsType annotation, only its `name` (line 141) is kept. For the static registration block, only the registered qualified name (lines 145-152) is kept.
- The compiler queries are taken as fields of the input values, not computed:
  - JS and template visibility;
  - `hasInterface`;
  - `elements.overrides`, as a method's set of overridden interface method ids;
  - the super-component chain (the count is its length);
  - computed property names;
  - `hasTemplate`.
- `ComponentInjectedDependenciesBuilder` is not part of this model. Its `hasDependencies`, injected field names and ordered method-to-parameters entries are inputs.
- `CreatedHook`: the Java constructor call never re-enters the hooks, so nested re-entry is covered only for the level whose guard is set (`GuardedRunIsNoOp`, `GuardHeldDuringBody`). The later levels' first runs nested inside an earlier level's constructor call are not modelled. `RunAll` runs the levels one after the other.
- The created body's `dependencies = ...getProvider(C.class).get()` statement is modelled without the class whose provider it fetches. Only the fact that the holder is fetched is kept.
- Messager output is a list of diagnostic values carrying the names the messages mention. The message text is not modelled.
- `GeneratorRules.HookMethodsFromInterfaces`: the Java code collects `ExecutableElement`s into a hash set. The model keeps a set of method ids, so iteration order and element identity are not modelled.
- `GeneratorSpec.HooksAndTemplateMethodsApart` assumes no two methods of the class share a name, because the model identifies methods by name. With overloads, a hook and a template method can share a name in the Java code too.
- A `@Prop` field that is not visible in JS is reported as an error, and its `addJavaProp` statement is still emitted. The model does the same.
- A computed setter without parameters makes `getParameters().get(0)` throw. The model makes this an outcome naming the method rather than an exception, and generation stops there. The checks before the crash have already reported their diagnostics, and the model keeps those. When generation stops, the hook and template diagnostics, which Java never reaches, are not appended.
- `TemplateParser.TemplateParserContext.AddImport`: Java throws `ArrayIndexOutOfBoundsException` on a name that splits into no segment (dots only). The model returns `false` and leaves the table unchanged.
- `TemplateParser.TemplateParserContext.AddLocalVariable`: requires a non-empty stack, because `getFirst` throws `NoSuchElementException` on an empty deque. The model does not describe that exception.
- `TemplateParser.TemplateParserContext.PopContextLayer`: requires a non-empty stack, because `ArrayDeque.pop` throws `NoSuchElementException` on an empty deque. The model does not describe that exception.
- `ContextLayer`, `VariableInfo` and `LocalVariableInfo` are not part of this model. A layer is a map from variable name to type plus a set of method names. `addLocalVariable` and `addVariable` are modelled as map updates, and the `LocalVariableInfo` returned is the pair of type and name.
- The root layer is one object that the deque also holds. It is modelled as a separate `root` field plus a flag telling whether the deque still holds it. Popping the root keeps the root object, so `addRootVariable` and `hasMethod` still use it, as in Java.
- `getCurrentNode`/`setCurrentNode` and `getComponentJsTypeClass`/`setComponentJsTypeClass` are plain accessors over jsoup and GWT types and are not modelled.
- `VueComponent.java` is a JsInterop facade of native declarations with no logic. `VueGwtResourcesInjector.java` injects scripts into the DOM, which is I/O. Neither is modelled.
