/** `TemplateParserContext`: what the template parser knows while it walks a
    component's template. A stack of context layers resolves variable names
    innermost first (the root layer holds `_uid` and the members of the
    component's generated class; a layer is pushed for each `v-for`), and an
    import table maps simple class names to qualified ones. */
module TemplateParser {

  import opened Optional
  import opened Strings
  import ComponentElements

  /** What a layer answers about a variable: its type and its name. */
  datatype VariableInfo = VariableInfo(typ: String, name: String)

  /** A `ContextLayer`: the type of each variable by name, and the method names. */
  datatype ContextLayer = ContextLayer(variables: map<String, String>, methods: set<String>)
  {
    function AddVariable(typ: String, name: String): ContextLayer
    {
      ContextLayer(variables[name := typ], methods)
    }

    function AddMethod(name: String): ContextLayer
    {
      ContextLayer(variables, methods + {name})
    }

    function VariableInfoOf(name: String): Option<VariableInfo>
    {
      if name in variables then Some(VariableInfo(variables[name], name)) else None
    }
  }

  const EmptyLayer: ContextLayer := ContextLayer(map[], {})

  /** The fields (as name and type) and method names of the generated class. */
  datatype TemplateResourceClass = TemplateResourceClass(fields: seq<VariableInfo>, methods: seq<String>)

  const NativeEventName: String := "com.google.gwt.dom.client" + "." + "NativeEvent"

  // ----- the layer stack, innermost layer first

  /** `findVariable`: the binding of the first layer, innermost first, that has the name. */
  function Lookup(layers: seq<ContextLayer>, name: String): Option<VariableInfo>
  {
    if |layers| == 0 then None
    else if name in layers[0].variables then layers[0].VariableInfoOf(name)
    else Lookup(layers[1..], name)
  }

  /** `Lookup` finds the binding of the innermost layer binding the name, and
      nothing exactly when no layer binds it. */
  lemma {:induction false} LookupInnermost(layers: seq<ContextLayer>, name: String)
    ensures Lookup(layers, name).None? <==> forall i :: 0 <= i < |layers| ==> name !in layers[i].variables
    ensures forall i :: (0 <= i < |layers| && name in layers[i].variables &&
                         (forall j :: 0 <= j < i ==> name !in layers[j].variables)) ==>
      Lookup(layers, name) == Some(VariableInfo(layers[i].variables[name], name))
  {
    if |layers| > 0 {
      LookupInnermost(layers[1..], name);
      if name !in layers[0].variables {
        forall i | 1 <= i < |layers| ensures layers[i] == layers[1..][i - 1] { }
      }
    }
  }

  /** A layer binding a name hides that name in the layers below it; an
      empty layer hides nothing, so popping it makes the outer bindings
      visible as they were. */
  lemma LookupShadowing(top: ContextLayer, below: seq<ContextLayer>, name: String)
    ensures name in top.variables ==> Lookup([top] + below, name) == Some(VariableInfo(top.variables[name], name))
    ensures name !in top.variables ==> Lookup([top] + below, name) == Lookup(below, name)
    ensures Lookup([EmptyLayer] + below, name) == Lookup(below, name)
  {
    assert ([top] + below)[1..] == below;
    assert ([EmptyLayer] + below)[1..] == below;
  }

  /** After `addLocalVariable(t, n)` on the top layer, `n` resolves to `t` and
      every other name resolves as before. */
  lemma LocalVariableLookup(top: ContextLayer, below: seq<ContextLayer>, typ: String, name: String, other: String)
    requires other != name
    ensures Lookup([top.AddVariable(typ, name)] + below, name) == Some(VariableInfo(typ, name))
    ensures Lookup([top.AddVariable(typ, name)] + below, other) == Lookup([top] + below, other)
  {
    assert ([top.AddVariable(typ, name)] + below)[1..] == below;
    assert ([top] + below)[1..] == below;
  }

  // ----- the root layer

  function WithFields(layer: ContextLayer, fs: seq<VariableInfo>): ContextLayer
  {
    if |fs| == 0 then layer
    else WithFields(layer, fs[..|fs| - 1]).AddVariable(fs[|fs| - 1].typ, fs[|fs| - 1].name)
  }

  function WithMethods(layer: ContextLayer, ms: seq<String>): ContextLayer
  {
    if |ms| == 0 then layer else WithMethods(layer, ms[..|ms| - 1]).AddMethod(ms[|ms| - 1])
  }

  /** The root layer the constructor builds for a class. */
  function RootLayer(cls: TemplateResourceClass): ContextLayer
  {
    WithMethods(WithFields(EmptyLayer.AddVariable(ComponentElements.JavaStringName, "_uid"), cls.fields), cls.methods)
  }

  /** `WithFields` binds exactly the layer's names and the fields' names,
      each field by the type of its last registration, and keeps the methods. */
  lemma WithFieldsBinds(layer: ContextLayer, fs: seq<VariableInfo>)
    ensures WithFields(layer, fs).methods == layer.methods
    ensures forall n :: n in WithFields(layer, fs).variables <==>
      n in layer.variables || exists i :: 0 <= i < |fs| && fs[i].name == n
    ensures forall i :: 0 <= i < |fs| && (forall j :: i < j < |fs| ==> fs[j].name != fs[i].name) ==>
      WithFields(layer, fs).variables[fs[i].name] == fs[i].typ
  {
    WithFieldsNames(layer, fs);
    WithFieldsTypes(layer, fs);
  }

  lemma {:induction false} WithFieldsNames(layer: ContextLayer, fs: seq<VariableInfo>)
    ensures WithFields(layer, fs).methods == layer.methods
    ensures forall n :: n in WithFields(layer, fs).variables <==>
      n in layer.variables || exists i :: 0 <= i < |fs| && fs[i].name == n
  {
    if |fs| > 0 {
      var n := |fs| - 1;
      WithFieldsNames(layer, fs[..n]);
      forall m ensures m in WithFields(layer, fs).variables <==>
        m in layer.variables || exists i :: 0 <= i < |fs| && fs[i].name == m
      {
        if exists i :: 0 <= i < |fs| && fs[i].name == m {
          var i :| 0 <= i < |fs| && fs[i].name == m;
          if i < n {
            assert fs[..n][i].name == m;
          }
        }
        if exists i :: 0 <= i < n && fs[..n][i].name == m {
          var i :| 0 <= i < n && fs[..n][i].name == m;
          assert fs[i].name == m;
        }
      }
    }
  }

  lemma {:induction false} WithFieldsTypes(layer: ContextLayer, fs: seq<VariableInfo>)
    ensures forall i :: 0 <= i < |fs| && (forall j :: i < j < |fs| ==> fs[j].name != fs[i].name) ==>
      fs[i].name in WithFields(layer, fs).variables && WithFields(layer, fs).variables[fs[i].name] == fs[i].typ
  {
    if |fs| > 0 {
      var n := |fs| - 1;
      WithFieldsTypes(layer, fs[..n]);
      forall i | 0 <= i < |fs| && (forall j :: i < j < |fs| ==> fs[j].name != fs[i].name)
        ensures fs[i].name in WithFields(layer, fs).variables && WithFields(layer, fs).variables[fs[i].name] == fs[i].typ
      {
        if i < n {
          assert fs[..n][i] == fs[i];
          assert forall j :: i < j < n ==> fs[..n][j] == fs[j];
        }
      }
    }
  }

  lemma {:induction false} WithMethodsBinds(layer: ContextLayer, ms: seq<String>)
    ensures WithMethods(layer, ms).variables == layer.variables
    ensures WithMethods(layer, ms).methods == layer.methods + set m | m in ms
  {
    if |ms| > 0 {
      var n := |ms| - 1;
      WithMethodsBinds(layer, ms[..n]);
      assert ms == ms[..n] + [ms[n]];
    }
  }

  /** The root layer binds `_uid` and every field of the class (a field's
      type is that of its last declaration; `_uid` is a `String` unless a
      field of that name replaces it), and knows exactly the class's methods. */
  lemma RootLayerBindings(cls: TemplateResourceClass)
    ensures var root := RootLayer(cls);
      && (forall n :: n in root.variables <==> n == "_uid" || exists i :: 0 <= i < |cls.fields| && cls.fields[i].name == n)
      && ((forall i :: 0 <= i < |cls.fields| ==> cls.fields[i].name != "_uid") ==> root.variables["_uid"] == ComponentElements.JavaStringName)
      && (forall i :: 0 <= i < |cls.fields| && (forall j :: i < j < |cls.fields| ==> cls.fields[j].name != cls.fields[i].name) ==>
            root.variables[cls.fields[i].name] == cls.fields[i].typ)
      && (forall m :: m in root.methods <==> m in cls.methods)
  {
    var start := EmptyLayer.AddVariable(ComponentElements.JavaStringName, "_uid");
    WithFieldsBinds(start, cls.fields);
    WithMethodsBinds(WithFields(start, cls.fields), cls.methods);
    if forall i :: 0 <= i < |cls.fields| ==> cls.fields[i].name != "_uid" {
      UntouchedByFields(start, cls.fields, "_uid");
    }
  }

  lemma {:induction false} UntouchedByFields(layer: ContextLayer, fs: seq<VariableInfo>, name: String)
    requires name in layer.variables
    requires forall i :: 0 <= i < |fs| ==> fs[i].name != name
    ensures name in WithFields(layer, fs).variables
    ensures WithFields(layer, fs).variables[name] == layer.variables[name]
  {
    if |fs| > 0 {
      UntouchedByFields(layer, fs[..|fs| - 1], name);
    }
  }

  // ----- the import table

  /** `addImport`: keyed by the last segment of `split("\\.")`; `None` where
      that split is empty and Java's array access throws. */
  function AddImportTo(imports: map<String, String>, qualifiedName: String): Option<map<String, String>>
  {
    match SimpleClassName(qualifiedName)
    case None => None
    case Some(className) => Some(imports[className := qualifiedName])
  }

  /** `getFullyQualifiedNameForClassName`. */
  function Resolve(imports: map<String, String>, className: String): String
  {
    if className in imports then imports[className] else className
  }

  /** A later import of the same simple name replaces the earlier one:
      the table is as if only the later import had been made. */
  lemma ImportThenResolve(imports: map<String, String>, pkg: String, pkg2: String, name: String)
    requires name != "" && '.' !in name
    ensures AddImportTo(imports, pkg + "." + name).Some?
    ensures AddImportTo(AddImportTo(imports, pkg + "." + name).value, pkg2 + "." + name) == AddImportTo(imports, pkg2 + "." + name)
  {
    ImportOfQualified(imports, pkg, name);
    ImportOfQualified(imports[name := pkg + "." + name], pkg2, name);
    ImportOfQualified(imports, pkg2, name);
    var first := imports[name := pkg + "." + name];
    assert first[name := pkg2 + "." + name] == imports[name := pkg2 + "." + name];
  }

  /** A name without dots is its own simple name, and a name made only of
      dots makes `addImport` throw. */
  lemma ImportKeys(q: String)
    ensures '.' !in q ==> AddImportTo(map[], q) == Some(map[q := q])
    ensures q != [] && (forall i :: 0 <= i < |q| ==> q[i] == '.') ==> AddImportTo(map[], q).None?
  {
    if q != [] && forall i :: 0 <= i < |q| ==> q[i] == '.' {
      AllDotsHasNoSimpleName(q);
    }
  }

  /** Importing `pkg.Name` files it under `Name`: `Name` then resolves to
      `pkg.Name`, and every other simple name resolves as before. */
  lemma ImportOfQualified(imports: map<String, String>, pkg: String, name: String)
    requires name != "" && '.' !in name
    ensures AddImportTo(imports, pkg + "." + name) == Some(imports[name := pkg + "." + name])
    ensures Resolve(imports[name := pkg + "." + name], name) == pkg + "." + name
    ensures forall other :: other != name ==> Resolve(imports[name := pkg + "." + name], other) == Resolve(imports, other)
  {
    SimpleClassNameOfQualified(pkg, name);
  }

  /** The parser's context. The root layer is one object held both by
      `rootContext` and, until popped, at the bottom of the deque: `root`
      is that layer, `rootOnStack` whether the deque still holds it, and
      `pushed` the layers above it, innermost first. */
  class TemplateParserContext {
    var root: ContextLayer
    var pushed: seq<ContextLayer>
    var rootOnStack: bool
    var imports: map<String, String>

    /** The deque, innermost layer first. */
    function Layers(): seq<ContextLayer>
      reads this
    {
      pushed + (if rootOnStack then [root] else [])
    }

    /** The constructor: imports `NativeEvent` and `JsArray`, builds the
        root layer from `_uid` and the class's fields and methods, and makes
        it the only layer of the stack. */
    constructor (cls: TemplateResourceClass)
      ensures Layers() == [root] && pushed == [] && rootOnStack
      ensures root == RootLayer(cls)
      ensures imports == map["NativeEvent" := NativeEventName, "JsArray" := ComponentElements.JsArrayName]
    {
      imports := map[];
      root := EmptyLayer;
      pushed := [];
      rootOnStack := false;
      new;
      ImportOfQualified(map[], "com.google.gwt.dom.client", "NativeEvent");
      var ok := AddImport(NativeEventName);
      ImportOfQualified(imports, "com.axellience.vuegwt.client.jsnative.jstypes", "JsArray");
      ok := AddImport(ComponentElements.JsArrayName);
      root := EmptyLayer.AddVariable(ComponentElements.JavaStringName, "_uid");
      RegisterFieldsAndMethodsInContext(cls);
      rootOnStack := true;
    }

    /** `registerFieldsAndMethodsInContext`. */
    method RegisterFieldsAndMethodsInContext(cls: TemplateResourceClass)
      modifies this
      ensures root == WithMethods(WithFields(old(root), cls.fields), cls.methods)
      ensures pushed == old(pushed) && rootOnStack == old(rootOnStack) && imports == old(imports)
    {
      var fs := cls.fields;
      for i := 0 to |fs|
        invariant root == WithFields(old(root), fs[..i])
        invariant pushed == old(pushed) && rootOnStack == old(rootOnStack) && imports == old(imports)
      {
        assert fs[..i + 1][..i] == fs[..i];
        root := root.AddVariable(fs[i].typ, fs[i].name);
      }
      assert fs[..|fs|] == fs;
      ghost var withFields := root;
      var ms := cls.methods;
      for i := 0 to |ms|
        invariant root == WithMethods(withFields, ms[..i])
        invariant pushed == old(pushed) && rootOnStack == old(rootOnStack) && imports == old(imports)
      {
        assert ms[..i + 1][..i] == ms[..i];
        root := root.AddMethod(ms[i]);
      }
      assert ms[..|ms|] == ms;
    }

    /** `addRootVariable`: the root changes, whatever the depth of the
        stack, and nothing else does. */
    method AddRootVariable(typ: String, name: String)
      modifies this
      ensures root == old(root).AddVariable(typ, name)
      ensures pushed == old(pushed) && rootOnStack == old(rootOnStack) && imports == old(imports)
    {
      root := root.AddVariable(typ, name);
    }

    /** `addContextLayer`: pushes an empty layer. */
    method AddContextLayer()
      modifies this
      ensures Layers() == [EmptyLayer] + old(Layers())
      ensures root == old(root) && rootOnStack == old(rootOnStack) && imports == old(imports)
    {
      pushed := [EmptyLayer] + pushed;
    }

    /** `popContextLayer`: removes the innermost layer; `ArrayDeque.pop`
        throws on an empty deque and does not spare the root. */
    method PopContextLayer()
      requires |Layers()| > 0
      modifies this
      ensures Layers() == old(Layers())[1..]
      ensures |old(pushed)| > 0 ==> pushed == old(pushed)[1..] && rootOnStack == old(rootOnStack)
      ensures |old(pushed)| == 0 ==> pushed == [] && !rootOnStack
      ensures root == old(root) && imports == old(imports)
    {
      if |pushed| > 0 {
        pushed := pushed[1..];
      } else {
        rootOnStack := false;
      }
    }

    /** `addLocalVariable`: binds the name in the innermost layer only; when
        that layer is the root, the root object itself changes. `getFirst`
        throws on an empty deque. */
    method AddLocalVariable(typ: String, name: String) returns (v: VariableInfo)
      requires |Layers()| > 0
      modifies this
      ensures v == VariableInfo(typ, name)
      ensures Layers() == [old(Layers())[0].AddVariable(typ, name)] + old(Layers())[1..]
      ensures root.methods == old(root.methods) && imports == old(imports)
      ensures root == if old(pushed) == [] then old(root).AddVariable(typ, name) else old(root)
      ensures rootOnStack == old(rootOnStack) && |pushed| == |old(pushed)|
    {
      if |pushed| > 0 {
        pushed := [pushed[0].AddVariable(typ, name)] + pushed[1..];
      } else {
        root := root.AddVariable(typ, name);
      }
      v := VariableInfo(typ, name);
    }

    /** `findVariable`: walks the deque innermost first and returns the
        first binding found. */
    method FindVariable(name: String) returns (r: Option<VariableInfo>)
      ensures r == Lookup(Layers(), name)
    {
      var layers := Layers();
      var i := 0;
      while i < |layers|
        invariant 0 <= i <= |layers|
        invariant Lookup(layers, name) == Lookup(layers[i..], name)
      {
        assert layers[i..][1..] == layers[i + 1..];
        var info := layers[i].VariableInfoOf(name);
        if info.Some? {
          return info;
        }
        i := i + 1;
      }
      return None;
    }

    /** `hasMethod`: the root layer only. */
    method HasMethod(name: String) returns (b: bool)
      ensures b <==> name in root.methods
    {
      b := name in root.methods;
    }

    /** `addImport`; `false` where the Java code throws, the table unchanged. */
    method AddImport(qualifiedName: String) returns (ok: bool)
      modifies this
      ensures ok <==> AddImportTo(old(imports), qualifiedName).Some?
      ensures ok ==> imports == AddImportTo(old(imports), qualifiedName).value
      ensures !ok ==> imports == old(imports)
      ensures root == old(root) && pushed == old(pushed) && rootOnStack == old(rootOnStack)
    {
      var importSplit := JavaSplit(qualifiedName, '.');
      if |importSplit| == 0 {
        return false;
      }
      var className := importSplit[|importSplit| - 1];
      imports := imports[className := qualifiedName];
      return true;
    }

    /** `getFullyQualifiedNameForClassName`: the imported name, or the
        class name itself when it was not imported. */
    method GetFullyQualifiedNameForClassName(className: String) returns (r: String)
      ensures className in imports ==> r == imports[className]
      ensures className !in imports ==> r == className
    {
      if className !in imports {
        return className;
      }
      return imports[className];
    }

    /** `hasImport`. */
    method HasImport(className: String) returns (b: bool)
      ensures b <==> className in imports
    {
      b := className in imports;
    }
  }
}
