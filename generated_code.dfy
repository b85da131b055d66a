/** What the generator produces, as values rather than Java source text: the
    statements of the static `getOptions()` method, the fields and methods of
    the generated JsType subclass, the statements of its `vuegwt$created`
    method and the diagnostics sent to the compiler's `Messager`. */
module GeneratedCode {

  import opened Optional
  import opened Strings
  import opened ComponentElements

  datatype ComputedKind = GETTER | SETTER

  /** One statement of `getOptions()`. */
  datatype OptionsStmt =
    | DeclareOptions                                               // options = new VueComponentOptions<...>()
    | SetName(name: String)
    | SetComponentJavaPrototype
    | SetTemplateResource
    | InitData(useFactory: bool, fieldNames: seq<String>)
    | AddJavaProp(fieldName: String, required: bool, typeTag: Option<String>)
    | AddJavaComputed(methodName: String, propertyName: String, kind: ComputedKind)
    | AddJavaWatch(methodName: String, propertyName: String, isDeep: bool)
    | AddJavaPropValidator(methodName: String, propertyName: String)
    | AddJavaPropDefaultValue(methodName: String, propertyName: String)
    | AddHookMethod(methodName: String)                            // options.addHookMethod(name)
    | AddMethods(methodNames: seq<String>)
    | AddHookMethodAs(hookName: String, methodName: String)       // options.addHookMethod(hook, method)
    | ReturnOptions

  /** One statement of `vuegwt$created()`. */
  datatype CreatedStmt =
    | ReturnIfFlag(flag: String)                                   // if (flag) return
    | SetFlag(flag: String)                                        // flag = true
    | CreateDependencies                                           // dependencies = provider.get()
    | CopyDependencyField(field: String)                           // field = dependencies.field
    | CallWithDependencies(methodName: String, args: String)       // method(dependencies.a, ...)
    | FetchJavaConstructor(componentClass: String)                 // javaConstructor = getJavaConstructor(C.class)
    | CallJavaConstructor                                          // JsTools.call(javaConstructor, this)
    | CallSuperCreated                                             // super.created()

  /** The single statement of a proxy: `[return ]super.method(args)`. */
  datatype SuperCall = SuperCall(returnsValue: bool, methodName: String, args: String)

  /** A public field of the generated class. */
  datatype FieldSpec = FieldSpec(name: String, typ: TypeName)

  /** A public method of the generated class. */
  datatype MethodSpec =
    | Proxy(name: String, returnType: TypeName, params: seq<Parameter>, call: SuperCall)
    | RenderAdapter                                                // vuegwt$render(createElementFunction)
    | Created(createdBody: seq<CreatedStmt>)                          // vuegwt$created()
    | GetOptions(optionsBody: seq<OptionsStmt>)                      // static getOptions()

  /** The generated JsType class: the `name` of its `@JsType` annotation, the
      name its static block registers with `VueGWT.register`, and its members
      (JavaPoet keeps fields and methods in two lists, each in insertion order). */
  datatype JsTypeClass = JsTypeClass(
    jsTypeName: String,
    registeredName: String,
    fields: seq<FieldSpec>,
    methods: seq<MethodSpec>)

  /** The outcome of `generate`: a class, or the processor stopped by the
      `IndexOutOfBoundsException` of a `@Computed` setter without a parameter. */
  datatype GenerationOutcome =
    | Generated(jsType: JsTypeClass)
    | SetterWithoutParameter(methodName: String)

  /** An ERROR printed on the `Messager`. */
  datatype Diagnostic =
    | PropNotVisibleInJS(fieldName: String, component: String)
    | HookMethodNotJsMethod(methodName: String)

  const CreatedMethodName: String := "vuegwt$created"
  const RenderMethodName: String := "vuegwt$render"
  const CreatedFlagPrefix: String := "vuegwt$hrc_"
}
