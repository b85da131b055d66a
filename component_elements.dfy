/** What the annotation processor reads from the compiler about a component
    class: its declared fields and methods with their annotations, the methods
    of the interfaces it implements, its super components and the dependencies
    that the injection builder found. Queries answered elsewhere in the
    processor (`isFieldVisibleInJS`, `isMethodVisibleInTemplate`,
    `getComputedPropertyName`, `Elements.overrides`, `hasTemplate`,
    `hasInterface`, `getSuperComponentType`) are recorded here as their answers. */
module ComponentElements {

  import opened Optional
  import opened Strings

  /** A Java type, by its source name (`int`, `java.lang.String`, `void`, ...). */
  type TypeName = String

  const Void: TypeName := "void"
  const JavaStringName: TypeName := "java.lang.String"
  const JsArrayName: TypeName := "com.axellience.vuegwt.client.jsnative.jstypes" + "." + "JsArray"

  /** The attributes of `@Prop`. */
  datatype PropAnnotation = PropAnnotation(required: bool, checkType: bool)

  /** A declared field; `prop` is `Some` when the field carries `@Prop`. */
  datatype Field = Field(
    name: String,
    typ: TypeName,
    visibleInJS: bool,
    prop: Option<PropAnnotation>)

  datatype Parameter = Parameter(name: String, typ: TypeName)

  /** The attributes of `@Watch`. */
  datatype WatchAnnotation = WatchAnnotation(propertyName: String, isDeep: bool)

  /** A declared method.
      - `computed`: `Some(p)` when it carries `@Computed`, `p` being the property name
        derived for it;
      - `watch`, `propValidator`, `propDefault`: the `@Watch`, `@PropValidator`
        (property name) and `@PropDefault` (property name) annotations;
      - `hookAnnotated`: it carries `@HookMethod`;
      - `overrides`: the ids of the interface methods it overrides in the component. */
  datatype Method = Method(
    name: String,
    returnType: TypeName,
    params: seq<Parameter>,
    computed: Option<String>,
    watch: Option<WatchAnnotation>,
    propValidator: Option<String>,
    propDefault: Option<String>,
    hookAnnotated: bool,
    overrides: set<String>,
    visibleInJS: bool,
    visibleInTemplate: bool)

  /** A method declared by an interface the component implements. */
  datatype InterfaceMethod = InterfaceMethod(
    id: String,
    name: String,
    hookAnnotated: bool,
    visibleInJS: bool)

  /** A class of the component hierarchy, with its own (not inherited) members. */
  datatype ClassDecl = ClassDecl(
    qualifiedName: String,
    fields: seq<Field>,
    methods: seq<Method>)

  /** What `ComponentInjectedDependenciesBuilder` reports: whether there is anything
      to inject, the injected field names and, in its map order, every method with
      injected parameters and the names of those parameters. */
  datatype Dependencies = Dependencies(
    hasDependencies: bool,
    injectedFields: seq<String>,
    injectedParametersByMethod: seq<(String, seq<String>)>)

  /** A class annotated `@Component`.
      - `name`, `useFactory`: the attributes of `@Component`;
      - `ancestors`: the super components, closest first;
      - `hasRender`, `hasCreated`: it implements `HasRender` / `HasCreated`. */
  datatype Component = Component(
    decl: ClassDecl,
    name: String,
    useFactory: bool,
    hasTemplate: bool,
    interfaceMethods: seq<InterfaceMethod>,
    hasRender: bool,
    hasCreated: bool,
    ancestors: seq<ClassDecl>,
    dependencies: Dependencies)
  {
    /** `getSuperComponentCount`: the depth of the component in its hierarchy. */
    function SuperComponentCount(): nat
    {
      |ancestors|
    }

    /** The component followed by its super components: the order in which the
        computed shadow fields are collected. */
    function Chain(): seq<ClassDecl>
    {
      [decl] + ancestors
    }
  }
}
