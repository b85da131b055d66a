/** The `vuegwt$created` method that `createCreatedHook` generates, and a
    small interpreter of its statements on a component instance, so that what
    the generated code does at run time can be stated: it runs once per
    instance and per hierarchy level, injects the dependencies in order, then
    calls the Java constructor of the level's own class. */
module CreatedHook {

  import opened Optional
  import opened Strings
  import opened Seqs
  import opened ComponentElements
  import opened GeneratedCode

  /** `"vuegwt$hrc_" + getSuperComponentCount(component)`: the guard flag. */
  function CreatedFlagName(depth: nat): String
  {
    CreatedFlagPrefix + NatToString(depth)
  }

  /** Each depth of a hierarchy gets a guard flag of its own. */
  lemma CreatedFlagNamesDistinct(d1: nat, d2: nat)
    requires d1 != d2
    ensures CreatedFlagName(d1) != CreatedFlagName(d2)
  {
    NatToStringInjective(d1, d2);
    var n := |CreatedFlagPrefix|;
    assert CreatedFlagName(d1)[n..] == NatToString(d1);
    assert CreatedFlagName(d2)[n..] == NatToString(d2);
  }

  /** The arguments of a call in `callMethodsWithDependencies`:
      `dependencies.p` for each injected parameter `p`, joined by ", ". */
  function DependencyArguments(params: seq<String>): String
  {
    Join(PrefixEach("dependencies.", params), ", ")
  }

  function CopyStatement(field: String): CreatedStmt
  {
    CopyDependencyField(field)
  }

  function CallStatement(entry: (String, seq<String>)): CreatedStmt
  {
    CallWithDependencies(entry.0, DependencyArguments(entry.1))
  }

  /** `injectDependencies`: nothing without dependencies; otherwise the holder
      is fetched, every injected field copied, and every method with injected
      parameters called, in the builder's order. */
  function InjectionStatements(d: Dependencies): seq<CreatedStmt>
  {
    if !d.hasDependencies then []
    else ([CreateDependencies] + MapSeq(CopyStatement, d.injectedFields)
          + MapSeq(CallStatement, d.injectedParametersByMethod))
  }

  /** `callConstructor`: fetch the Java constructor of the component's own
      class, then call it on `this`. */
  function ConstructorStatements(c: Component): seq<CreatedStmt>
  {
    [FetchJavaConstructor(c.decl.qualifiedName), CallJavaConstructor]
  }

  /** The body of `vuegwt$created` for a component. */
  function CreatedBody(c: Component): seq<CreatedStmt>
  {
    var flag := CreatedFlagName(c.SuperComponentCount());
    [ReturnIfFlag(flag), SetFlag(flag)]
      + InjectionStatements(c.dependencies)
      + ConstructorStatements(c)
      + (if c.hasCreated then [CallSuperCreated] else [])
  }

  /** What running a created body does that can be observed. */
  datatype Effect =
    | DependenciesFetched
    | FieldInjected(field: String)
    | MethodCalled(methodName: String, args: String)
    | JavaConstructorRan(componentClass: String)
    | CreatedHookRan

  /** A component instance: the guard flags set on it and what ran on it so far. */
  datatype Instance = Instance(flags: set<String>, trace: seq<Effect>)

  /** The effect of a statement that neither touches a flag nor the local
      `javaConstructor` (those four are run by `Exec` itself). */
  function EffectOf(st: CreatedStmt): seq<Effect>
  {
    match st
    case CreateDependencies => [DependenciesFetched]
    case CopyDependencyField(f) => [FieldInjected(f)]
    case CallWithDependencies(m, a) => [MethodCalled(m, a)]
    case CallSuperCreated => [CreatedHookRan]
    case _ => []
  }

  /** `JsTools.call(javaConstructor, this)`: runs the constructor fetched
      before, if any. */
  function ConstructorCall(javaConstructor: Option<String>): seq<Effect>
  {
    match javaConstructor
    case Some(cls) => [JavaConstructorRan(cls)]
    case None => []
  }

  /** Running statements in order on an instance, `javaConstructor` being the
      method's local variable of that name; `if (flag) return` ends the run. */
  function Exec(stmts: seq<CreatedStmt>, s: Instance, javaConstructor: Option<String>): Instance
  {
    if |stmts| == 0 then s
    else match stmts[0]
      case ReturnIfFlag(f) => if f in s.flags then s else Exec(stmts[1..], s, javaConstructor)
      case SetFlag(f) => Exec(stmts[1..], s.(flags := s.flags + {f}), javaConstructor)
      case FetchJavaConstructor(cls) => Exec(stmts[1..], s, Some(cls))
      case CallJavaConstructor => Exec(stmts[1..], s.(trace := s.trace + ConstructorCall(javaConstructor)), javaConstructor)
      case _ => Exec(stmts[1..], s.(trace := s.trace + EffectOf(stmts[0])), javaConstructor)
  }

  /** Running a method body: its local `javaConstructor` starts unset. */
  function Run(stmts: seq<CreatedStmt>, s: Instance): Instance
  {
    Exec(stmts, s, None)
  }

  /** Statements that touch neither a flag nor the local `javaConstructor`. */
  predicate Plain(stmts: seq<CreatedStmt>)
  {
    forall i :: 0 <= i < |stmts| ==>
      !stmts[i].ReturnIfFlag? && !stmts[i].SetFlag? && !stmts[i].FetchJavaConstructor? && !stmts[i].CallJavaConstructor?
  }

  /** Plain statements run one after the other, each adding its effect, and
      leave the rest of the body to run with the same local. */
  lemma {:induction false} RunPlain(a: seq<CreatedStmt>, b: seq<CreatedStmt>, s: Instance, javaConstructor: Option<String>)
    requires Plain(a)
    ensures Exec(a + b, s, javaConstructor) == Exec(b, s.(trace := s.trace + FlatMap(EffectOf, a)), javaConstructor)
  {
    if |a| == 0 {
      assert a + b == b;
      assert s.trace + [] == s.trace;
    } else {
      assert (a + b)[1..] == a[1..] + b;
      assert a == [a[0]] + a[1..];
      FlatMapCons(EffectOf, a[0], a[1..]);
      var s' := s.(trace := s.trace + EffectOf(a[0]));
      RunPlain(a[1..], b, s', javaConstructor);
      assert s'.trace + FlatMap(EffectOf, a[1..]) == s.trace + FlatMap(EffectOf, a);
    }
  }

  /** The effects of the injection, in order: fetch the holder, inject each
      field, call each method with its injected arguments. */
  function InjectionEffects(d: Dependencies): seq<Effect>
  {
    if !d.hasDependencies then []
    else ([DependenciesFetched]
          + MapSeq(FieldEffect, d.injectedFields)
          + MapSeq(CallEffect, d.injectedParametersByMethod))
  }

  function FieldEffect(field: String): Effect
  {
    FieldInjected(field)
  }

  function CallEffect(entry: (String, seq<String>)): Effect
  {
    MethodCalled(entry.0, DependencyArguments(entry.1))
  }

  /** What a first run of the created hook does, in order: the injection (when
      there are dependencies), then the Java constructor, then the user's
      `created()` when the component implements `HasCreated`. */
  function ExpectedEffects(c: Component): seq<Effect>
  {
    InjectionEffects(c.dependencies)
    + [JavaConstructorRan(c.decl.qualifiedName)]
    + (if c.hasCreated then [CreatedHookRan] else [])
  }

  /** A first run constructs the component's own class once, and no other class. */
  lemma ExpectedEffectsRunConstructorOnce(c: Component)
    ensures forall cls :: Count(JavaConstructorRan(cls), ExpectedEffects(c)) == if cls == c.decl.qualifiedName then 1 else 0
  {
    var inj := InjectionEffects(c.dependencies);
    var tail := if c.hasCreated then [CreatedHookRan] else [];
    var ran := [JavaConstructorRan(c.decl.qualifiedName)];
    forall cls ensures Count(JavaConstructorRan(cls), ExpectedEffects(c)) == if cls == c.decl.qualifiedName then 1 else 0 {
      var e := JavaConstructorRan(cls);
      CountAbsent(e, inj);
      CountAbsent(e, tail);
      CountAppend(e, inj, ran);
      CountAppend(e, inj + ran, tail);
      assert Count(e, ran) == Count(e, []) + (if cls == c.decl.qualifiedName then 1 else 0);
    }
  }

  lemma InjectionStatementsPlain(d: Dependencies)
    ensures Plain(InjectionStatements(d))
  {
  }

  lemma InjectionStatementsEffects(d: Dependencies)
    ensures FlatMap(EffectOf, InjectionStatements(d)) == InjectionEffects(d)
  {
    if d.hasDependencies {
      InjectionEffectsOf(d.injectedFields, d.injectedParametersByMethod);
    }
  }

  lemma InjectionEffectsOf(fields: seq<String>, entries: seq<(String, seq<String>)>)
    ensures FlatMap(EffectOf, [CreateDependencies] + MapSeq(CopyStatement, fields) + MapSeq(CallStatement, entries))
      == [DependenciesFetched] + MapSeq(FieldEffect, fields) + MapSeq(CallEffect, entries)
  {
    var copies := MapSeq(CopyStatement, fields);
    var calls := MapSeq(CallStatement, entries);
    FlatMapThree(EffectOf, [CreateDependencies], copies, calls);
    FlatMapSingleton(EffectOf, CreateDependencies);
    assert EffectOf(CreateDependencies) == [DependenciesFetched];
    CopiesEffects(fields);
    CallsEffects(entries);
  }

  lemma CopiesEffects(fields: seq<String>)
    ensures FlatMap(EffectOf, MapSeq(CopyStatement, fields)) == MapSeq(FieldEffect, fields)
  {
    FlatMapOfMap(EffectOf, CopyStatement, FieldEffect, fields);
  }

  lemma CallsEffects(entries: seq<(String, seq<String>)>)
    ensures FlatMap(EffectOf, MapSeq(CallStatement, entries)) == MapSeq(CallEffect, entries)
  {
    FlatMapOfMap(EffectOf, CallStatement, CallEffect, entries);
  }

  lemma FlatMapThree(f: CreatedStmt -> seq<Effect>, a: seq<CreatedStmt>, b: seq<CreatedStmt>, c: seq<CreatedStmt>)
    ensures FlatMap(f, a + b + c) == FlatMap(f, a) + FlatMap(f, b) + FlatMap(f, c)
  {
    FlatMapAppend(f, a + b, c);
    FlatMapAppend(f, a, b);
  }

  /** After the guard, the body injects the dependencies, runs the Java
      constructor of the component's class, then `super.created()` with
      `HasCreated`: exactly `ExpectedEffects`, and no flag changes. */
  lemma BodyTailEffects(c: Component, s: Instance)
    ensures Exec(CreatedBody(c)[2..], s, None) == s.(trace := s.trace + ExpectedEffects(c))
  {
    var inj := InjectionStatements(c.dependencies);
    var tail := if c.hasCreated then [CallSuperCreated] else [];
    var cls := c.decl.qualifiedName;
    var rest := ConstructorStatements(c) + tail;
    assert CreatedBody(c)[2..] == inj + rest;
    InjectionStatementsPlain(c.dependencies);
    InjectionStatementsEffects(c.dependencies);
    RunPlain(inj, rest, s, None);
    var s1 := s.(trace := s.trace + InjectionEffects(c.dependencies));
    var s2 := s1.(trace := s1.trace + [JavaConstructorRan(cls)]);
    assert rest[1..][1..] == tail;
    assert Exec(rest, s1, None) == Exec(tail, s2, Some(cls));
    RunPlain(tail, [], s2, Some(cls));
    assert tail + [] == tail;
    assert FlatMap(EffectOf, tail) == (if c.hasCreated then [CreatedHookRan] else []) by {
      if c.hasCreated {
        FlatMapSingleton(EffectOf, CallSuperCreated);
      }
    }
  }

  /** Running the created hook of a component on an instance whose guard is
      not set sets that guard only, and performs `ExpectedEffects`, so the Java
      constructor of its class runs exactly once; running it again after it
      has finished changes nothing. */
  lemma CreatedRunsOnce(c: Component, s: Instance)
    requires CreatedFlagName(c.SuperComponentCount()) !in s.flags
    ensures Run(CreatedBody(c), s).flags == s.flags + {CreatedFlagName(c.SuperComponentCount())}
    ensures Run(CreatedBody(c), s).trace == s.trace + ExpectedEffects(c)
    ensures Count(JavaConstructorRan(c.decl.qualifiedName), Run(CreatedBody(c), s).trace)
      == Count(JavaConstructorRan(c.decl.qualifiedName), s.trace) + 1
    ensures Run(CreatedBody(c), Run(CreatedBody(c), s)) == Run(CreatedBody(c), s)
  {
    var flag := CreatedFlagName(c.SuperComponentCount());
    var body := CreatedBody(c);
    var s0 := s.(flags := s.flags + {flag});
    assert body[0] == ReturnIfFlag(flag) && body[1] == SetFlag(flag);
    assert body[1..][1..] == body[2..];
    assert Run(body, s) == Exec(body[1..], s, None);
    assert Exec(body[1..], s, None) == Exec(body[2..], s0, None);
    BodyTailEffects(c, s0);
    ExpectedEffectsRunConstructorOnce(c);
    CountAppend(JavaConstructorRan(c.decl.qualifiedName), s.trace, ExpectedEffects(c));
  }

  /** Running statements never clears a flag. */
  lemma {:induction false} ExecKeepsFlags(stmts: seq<CreatedStmt>, s: Instance, javaConstructor: Option<String>)
    ensures s.flags <= Exec(stmts, s, javaConstructor).flags
  {
    if |stmts| > 0 {
      match stmts[0]
      case ReturnIfFlag(f) =>
        if f !in s.flags {
          ExecKeepsFlags(stmts[1..], s, javaConstructor);
        }
      case SetFlag(f) =>
        ExecKeepsFlags(stmts[1..], s.(flags := s.flags + {f}), javaConstructor);
      case FetchJavaConstructor(cls) =>
        ExecKeepsFlags(stmts[1..], s, Some(cls));
      case CallJavaConstructor =>
        ExecKeepsFlags(stmts[1..], s.(trace := s.trace + ConstructorCall(javaConstructor)), javaConstructor);
      case _ =>
        ExecKeepsFlags(stmts[1..], s.(trace := s.trace + EffectOf(stmts[0])), javaConstructor);
    }
  }

  /** From the statement after `flag = true` to the end of a first run, the
      guard is set: a created hook of the same level entered at any of those
      points, as from inside the Java constructor call, does nothing. */
  lemma GuardHeldDuringBody(c: Component, s: Instance, k: nat)
    requires CreatedFlagName(c.SuperComponentCount()) !in s.flags
    requires 2 <= k <= |CreatedBody(c)|
    ensures CreatedFlagName(c.SuperComponentCount()) in Run(CreatedBody(c)[..k], s).flags
    ensures Run(CreatedBody(c), Run(CreatedBody(c)[..k], s)) == Run(CreatedBody(c)[..k], s)
  {
    var flag := CreatedFlagName(c.SuperComponentCount());
    var p := CreatedBody(c)[..k];
    var s0 := s.(flags := s.flags + {flag});
    assert p[0] == ReturnIfFlag(flag) && p[1] == SetFlag(flag);
    assert p[1..][1..] == p[2..];
    assert Run(p, s) == Exec(p[1..], s, None);
    assert Exec(p[1..], s, None) == Exec(p[2..], s0, None);
    ExecKeepsFlags(p[2..], s0, None);
    GuardedRunIsNoOp(c, Run(p, s));
  }

  /** Running the created hooks of several hierarchy levels, in order, on one instance. */
  function RunAll(levels: seq<Component>, s: Instance): Instance
  {
    if |levels| == 0 then s else RunAll(levels[1..], Run(CreatedBody(levels[0]), s))
  }

  function LevelFlags(levels: seq<Component>): set<String>
  {
    set c | c in levels :: CreatedFlagName(c.SuperComponentCount())
  }

  /** A created hook whose guard is already set does nothing. */
  lemma GuardedRunIsNoOp(c: Component, s: Instance)
    requires CreatedFlagName(c.SuperComponentCount()) in s.flags
    ensures Run(CreatedBody(c), s) == s
  {
  }

  lemma {:induction false} RunAllGuarded(levels: seq<Component>, s: Instance)
    requires LevelFlags(levels) <= s.flags
    ensures RunAll(levels, s) == s
  {
    if |levels| > 0 {
      assert levels[0] in levels;
      GuardedRunIsNoOp(levels[0], s);
      assert LevelFlags(levels[1..]) <= LevelFlags(levels) by {
        forall c | c in levels[1..] ensures c in levels { }
      }
      RunAllGuarded(levels[1..], s);
    }
  }

  /** The class whose Java constructor a level's created hook runs. */
  function LevelClass(c: Component): String
  {
    c.decl.qualifiedName
  }

  /** The first runs of several levels construct each level's class once per level. */
  lemma {:induction false} LevelConstructorCount(levels: seq<Component>, cls: String)
    ensures Count(JavaConstructorRan(cls), FlatMap(ExpectedEffects, levels)) == Count(cls, MapSeq(LevelClass, levels))
  {
    if |levels| > 0 {
      var n := |levels| - 1;
      LevelConstructorCount(levels[..n], cls);
      FlatMapStep(ExpectedEffects, levels, n);
      MapSeqStep(LevelClass, levels, n);
      assert levels[..n + 1] == levels;
      CountAppend(JavaConstructorRan(cls), FlatMap(ExpectedEffects, levels[..n]), ExpectedEffects(levels[n]));
      CountAppend(cls, MapSeq(LevelClass, levels[..n]), [LevelClass(levels[n])]);
      ExpectedEffectsRunConstructorOnce(levels[n]);
      assert Count(cls, [LevelClass(levels[n])]) == Count(cls, []) + (if LevelClass(levels[n]) == cls then 1 else 0);
    }
  }

  /** After the first level's hook, the other levels still have distinct
      depths and unset guards. */
  lemma HierarchyStep(levels: seq<Component>, s: Instance)
    requires |levels| > 0
    requires forall i, j :: 0 <= i < j < |levels| ==> levels[i].SuperComponentCount() != levels[j].SuperComponentCount()
    requires LevelFlags(levels) !! s.flags
    ensures CreatedFlagName(levels[0].SuperComponentCount()) !in s.flags
    ensures LevelFlags(levels) == {CreatedFlagName(levels[0].SuperComponentCount())} + LevelFlags(levels[1..])
    ensures forall i, j :: 0 <= i < j < |levels[1..]| ==> levels[1..][i].SuperComponentCount() != levels[1..][j].SuperComponentCount()
    ensures LevelFlags(levels[1..]) !! s.flags + {CreatedFlagName(levels[0].SuperComponentCount())}
  {
    var c := levels[0];
    var rest := levels[1..];
    var flag := CreatedFlagName(c.SuperComponentCount());
    assert c in levels;
    assert LevelFlags(levels) == {flag} + LevelFlags(rest) by {
      forall d | d in rest ensures d in levels { }
      assert levels == [c] + rest;
    }
    forall d | d in rest ensures CreatedFlagName(d.SuperComponentCount()) != flag {
      var j :| 0 <= j < |rest| && rest[j] == d;
      assert levels[j + 1] == d;
      CreatedFlagNamesDistinct(c.SuperComponentCount(), d.SuperComponentCount());
    }
    assert forall i, j :: 0 <= i < j < |rest| ==> rest[i] == levels[i + 1] && rest[j] == levels[j + 1];
  }

  /** First runs of the levels' hooks, one after the other: each sets its
      own guard and does what `ExpectedEffects` says for its level. */
  lemma {:induction false} RunAllFirstRuns(levels: seq<Component>, s: Instance)
    requires forall i, j :: 0 <= i < j < |levels| ==> levels[i].SuperComponentCount() != levels[j].SuperComponentCount()
    requires LevelFlags(levels) !! s.flags
    ensures RunAll(levels, s).flags == s.flags + LevelFlags(levels)
    ensures RunAll(levels, s).trace == s.trace + FlatMap(ExpectedEffects, levels)
  {
    if |levels| == 0 {
      assert LevelFlags(levels) == {};
    } else {
      var c := levels[0];
      var rest := levels[1..];
      CreatedRunsOnce(c, s);
      var s1 := Run(CreatedBody(c), s);
      HierarchyStep(levels, s);
      RunAllFirstRuns(rest, s1);
      assert RunAll(levels, s) == RunAll(rest, s1);
      assert FlatMap(ExpectedEffects, levels) == ExpectedEffects(c) + FlatMap(ExpectedEffects, rest) by {
        assert levels == [c] + rest;
        FlatMapCons(ExpectedEffects, c, rest);
      }
      AppendAssoc(s.trace, ExpectedEffects(c), FlatMap(ExpectedEffects, rest));
    }
  }

  /** The levels of one hierarchy (each with its own depth) on one instance:
      running every level's created hook sets exactly their guards and does
      what each level's first run does, level after level, so each level's
      Java constructor runs once; running them all again after they have
      all run changes nothing. */
  lemma HierarchyLevelsRunOnce(levels: seq<Component>, s: Instance)
    requires forall i, j :: 0 <= i < j < |levels| ==> levels[i].SuperComponentCount() != levels[j].SuperComponentCount()
    requires LevelFlags(levels) !! s.flags
    ensures RunAll(levels, s).flags == s.flags + LevelFlags(levels)
    ensures RunAll(levels, s).trace == s.trace + FlatMap(ExpectedEffects, levels)
    ensures forall cls :: (Count(JavaConstructorRan(cls), RunAll(levels, s).trace)
      == Count(JavaConstructorRan(cls), s.trace) + Count(cls, MapSeq(LevelClass, levels)))
    ensures RunAll(levels, RunAll(levels, s)) == RunAll(levels, s)
  {
    RunAllFirstRuns(levels, s);
    RunAllGuarded(levels, RunAll(levels, s));
    TraceConstructorCount(s.trace, levels);
  }

  /** Levels of distinct classes: each level's Java constructor runs exactly once. */
  lemma EachLevelConstructedOnce(levels: seq<Component>, s: Instance)
    requires forall i, j :: 0 <= i < j < |levels| ==> levels[i].SuperComponentCount() != levels[j].SuperComponentCount()
    requires forall i, j :: 0 <= i < j < |levels| ==> levels[i].decl.qualifiedName != levels[j].decl.qualifiedName
    requires LevelFlags(levels) !! s.flags
    ensures forall i :: 0 <= i < |levels| ==>
      Count(JavaConstructorRan(levels[i].decl.qualifiedName), RunAll(levels, s).trace)
        == Count(JavaConstructorRan(levels[i].decl.qualifiedName), s.trace) + 1
  {
    HierarchyLevelsRunOnce(levels, s);
    var classes := MapSeq(LevelClass, levels);
    forall i | 0 <= i < |levels| ensures Count(classes[i], classes) == 1 {
      CountDistinct(classes, i);
    }
  }

  lemma TraceConstructorCount(before: seq<Effect>, levels: seq<Component>)
    ensures forall cls :: (Count(JavaConstructorRan(cls), before + FlatMap(ExpectedEffects, levels))
      == Count(JavaConstructorRan(cls), before) + Count(cls, MapSeq(LevelClass, levels)))
  {
    forall cls ensures Count(JavaConstructorRan(cls), before + FlatMap(ExpectedEffects, levels))
      == Count(JavaConstructorRan(cls), before) + Count(cls, MapSeq(LevelClass, levels))
    {
      CountAppend(JavaConstructorRan(cls), before, FlatMap(ExpectedEffects, levels));
      LevelConstructorCount(levels, cls);
    }
  }
}
