/** What a render does, as functions: the template language, the preparation
    of a render source, and the outcome of rendering it. */
module Templates {
  import opened Values

  type Path = string

  /** One step of an included template file. `Emit` echoes a value computed
      from the template's local variables and the renderer's scope
      (`$this->...`); `Nested` echoes `$this->render(source, extras)`;
      `Raise` throws. */
  datatype Stmt =
    | Emit(text: (Vars, Vars) -> string)
    | Nested(source: Value, extras: Vars)
    | Raise(failure: Failure)

  type Template = seq<Stmt>

  /** The collaborators a render reaches: the view resolver (template name and
      optional module to a file path, or a failure such as `NotFound`) and the
      template files on disk. */
  datatype Env = Env(resolve: (string, Option<string>) -> Result<Path>, files: map<Path, Template>)

  /** Including a path that holds no file produces no output (PHP only warns). */
  function Load(env: Env, path: Path): Template {
    if path in env.files then env.files[path] else []
  }

  /** What the resolver is asked for and which variables the template gets. */
  datatype Plan = Plan(template: string, moduleName: Option<string>, vars: Vars)

  /** Lines 111-127: a view model contributes its template, module and
      variables (the extra variables override them key by key); a string is a
      template name with no module and exactly the extra variables; anything
      else is rejected. */
  function Prepare(source: Value, extras: Vars): (r: Option<Plan>)
    ensures r.None? <==> !source.Str? && !source.ViewModel?
    ensures source.Str? ==> r == Some(Plan(source.s, None, extras))
    ensures source.ViewModel? ==>
              r.Some? && r.value.template == source.template && r.value.moduleName == source.moduleName &&
              r.value.vars == Merge(source.vars, extras)
  {
    match source
    case ViewModel(template, moduleName, vars) => Some(Plan(template, moduleName, Merge(vars, extras)))
    case Str(name) => Some(Plan(name, None, extras))
    case _ => None
  }

  /** The result of a render (or of running a template) and the renderer's
      scope afterwards. For a template run, a successful result is the text it
      wrote into the innermost buffer. */
  datatype Outcome = Outcome(result: Result<string>, scope: Vars)

  /** Output `w`, written before the rest of a run, comes first in its result. */
  function Prepend(w: string, o: Outcome): Outcome {
    match o.result
    case Ok(s) => Outcome(Ok(w + s), o.scope)
    case Err(_) => o
  }

  lemma PrependPrepend(w: string, x: string, o: Outcome)
    ensures Prepend(w, Prepend(x, o)) == Prepend(w + x, o)
  {
    if o.result.Ok? {
      assert w + (x + o.result.value) == (w + x) + o.result.value;
    }
  }

  /** `Renderer::render(source, extras)` started with scope `scope`. A nested
      render inside the template gets `fuel - 1`. */
  function RenderSpec(env: Env, source: Value, extras: Vars, scope: Vars, fuel: nat): (o: Outcome)
    decreases fuel, 1, 0
    ensures Prepare(source, extras).None? ==> o == Outcome(Err(InvalidArgument), scope)
    ensures o.result.Ok? ==> o.scope == scope
  {
    match Prepare(source, extras)
    case None => Outcome(Err(InvalidArgument), scope)
    case Some(plan) =>
      match env.resolve(plan.template, plan.moduleName)
      case Err(f) => Outcome(Err(f), plan.vars)
      case Ok(path) =>
        var run := RunSpec(env, Load(env, path), plan.vars, plan.vars, fuel);
        match run.result
        case Err(_) => run
        case Ok(text) => Outcome(Ok(text), scope)
  }

  /** Running template `t` with local variables `locals` and renderer scope `scope`. */
  function RunSpec(env: Env, t: Template, locals: Vars, scope: Vars, fuel: nat): (o: Outcome)
    decreases fuel, 0, |t|
    ensures o.result.Ok? ==> o.scope == scope
  {
    if t == [] then Outcome(Ok(""), scope)
    else
      match t[0]
      case Emit(text) => Prepend(text(locals, scope), RunSpec(env, t[1..], locals, scope, fuel))
      case Raise(f) => Outcome(Err(f), scope)
      case Nested(source, extras) =>
        if fuel == 0 then Outcome(Err(NestingLimit), scope)
        else
          var inner := RenderSpec(env, source, extras, scope, fuel - 1);
          match inner.result
          case Err(_) => inner
          case Ok(text) => Prepend(text, RunSpec(env, t[1..], locals, inner.scope, fuel))
  }

  /** A template made of echoes only. */
  predicate EchoOnly(t: Template) {
    forall i :: 0 <= i < |t| ==> t[i].Emit?
  }

  /** A template that never calls `render` again. */
  predicate Flat(t: Template) {
    forall i :: 0 <= i < |t| ==> !t[i].Nested?
  }

  /** The concatenated echoes of a plain template. */
  function Echoed(t: Template, locals: Vars, scope: Vars): string
    requires EchoOnly(t)
  {
    if t == [] then "" else t[0].text(locals, scope) + Echoed(t[1..], locals, scope)
  }

  lemma {:induction false} PlainRunOutput(env: Env, t: Template, locals: Vars, scope: Vars, fuel: nat)
    requires EchoOnly(t)
    ensures RunSpec(env, t, locals, scope, fuel) == Outcome(Ok(Echoed(t, locals, scope)), scope)
  {
    if t != [] {
      assert EchoOnly(t[1..]) by {
        forall i | 0 <= i < |t[1..]| ensures t[1..][i].Emit? { assert t[1..][i] == t[i + 1]; }
      }
      PlainRunOutput(env, t[1..], locals, scope, fuel);
    }
  }

  /** A template of echoes sees the effective variables both as its locals and
      as the renderer's scope, and its echoes are the render's result; the
      scope is restored afterwards. */
  lemma RenderPlainTemplate(env: Env, source: Value, extras: Vars, scope: Vars, fuel: nat, path: Path)
    requires Prepare(source, extras).Some?
    requires env.resolve(Prepare(source, extras).value.template, Prepare(source, extras).value.moduleName) == Ok(path)
    requires EchoOnly(Load(env, path))
    ensures var vars := Prepare(source, extras).value.vars;
            RenderSpec(env, source, extras, scope, fuel) == Outcome(Ok(Echoed(Load(env, path), vars, vars)), scope)
  {
    var vars := Prepare(source, extras).value.vars;
    PlainRunOutput(env, Load(env, path), vars, vars, fuel);
  }

  lemma {:induction false} FlatRunKeepsScope(env: Env, t: Template, locals: Vars, scope: Vars, fuel: nat)
    requires Flat(t)
    ensures RunSpec(env, t, locals, scope, fuel).scope == scope
  {
    if t != [] {
      assert Flat(t[1..]) by {
        forall i | 0 <= i < |t[1..]| ensures !t[1..][i].Nested? { assert t[1..][i] == t[i + 1]; }
      }
      FlatRunKeepsScope(env, t[1..], locals, scope, fuel);
    }
  }

  /** The template that `plan` resolves to, if it resolves, renders nothing nested. */
  predicate NothingNested(env: Env, plan: Plan) {
    var p := env.resolve(plan.template, plan.moduleName);
    p.Ok? ==> Flat(Load(env, p.value))
  }

  /** Lines 133-146: a render that fails after the scope swap at line 130 does
      not restore the scope; when the template renders nothing nested, the
      scope is left at the effective variables of that render. */
  lemma FailedRenderLeavesEffectiveVars(env: Env, source: Value, extras: Vars, scope: Vars, fuel: nat)
    requires Prepare(source, extras).Some?
    requires NothingNested(env, Prepare(source, extras).value)
    requires RenderSpec(env, source, extras, scope, fuel).result.Err?
    ensures RenderSpec(env, source, extras, scope, fuel).scope == Prepare(source, extras).value.vars
  {
    var plan := Prepare(source, extras).value;
    var p := env.resolve(plan.template, plan.moduleName);
    if p.Ok? {
      FlatRunKeepsScope(env, Load(env, p.value), plan.vars, plan.vars, fuel);
    }
  }

  /** More fuel changes nothing unless the nesting limit was hit: the fuel
      bounds how deep renders nest, and nothing else. */
  lemma {:induction false} RenderFuelMonotone(env: Env, source: Value, extras: Vars, scope: Vars, fuel: nat)
    requires RenderSpec(env, source, extras, scope, fuel).result != Err(NestingLimit)
    ensures RenderSpec(env, source, extras, scope, fuel + 1) == RenderSpec(env, source, extras, scope, fuel)
    decreases fuel, 1, 0
  {
    match Prepare(source, extras)
    case None =>
    case Some(plan) =>
      match env.resolve(plan.template, plan.moduleName)
      case Err(_) =>
      case Ok(path) =>
        RunFuelMonotone(env, Load(env, path), plan.vars, plan.vars, fuel);
  }

  lemma {:induction false} RunFuelMonotone(env: Env, t: Template, locals: Vars, scope: Vars, fuel: nat)
    requires RunSpec(env, t, locals, scope, fuel).result != Err(NestingLimit)
    ensures RunSpec(env, t, locals, scope, fuel + 1) == RunSpec(env, t, locals, scope, fuel)
    decreases fuel, 0, |t|
  {
    if t != [] {
      match t[0]
      case Emit(text) =>
        RunFuelMonotone(env, t[1..], locals, scope, fuel);
      case Raise(_) =>
      case Nested(source, extras) =>
        var inner := RenderSpec(env, source, extras, scope, fuel - 1);
        RenderFuelMonotone(env, source, extras, scope, fuel - 1);
        if inner.result.Ok? {
          RunFuelMonotone(env, t[1..], locals, inner.scope, fuel);
        }
    }
  }

  /** Lines 129 and 135 as written: `extract($variables)` runs with PHP's
      default overwrite mode, so an entry named `nameOrModel` or `__module`
      replaces the function's own local of that name, and the resolver is
      then called with the replaced values. The pair is the values of
      `$nameOrModel` and `$__module` at the resolver call. */
  function ResolverArgumentsAsWritten(source: Value, extras: Vars): (r: Option<(Value, Value)>)
    ensures r.None? <==> Prepare(source, extras).None?
    ensures r.Some? && "nameOrModel" in Prepare(source, extras).value.vars ==>
              r.value.0 == Prepare(source, extras).value.vars["nameOrModel"]
  {
    match Prepare(source, extras)
    case None => None
    case Some(plan) =>
      var name := if "nameOrModel" in plan.vars then plan.vars["nameOrModel"] else Str(plan.template);
      var moduleArg := if "__module" in plan.vars then plan.vars["__module"] else ModuleValue(plan.moduleName);
      Some((name, moduleArg))
  }

  /** Rendering template "foo/foo" with a variable named `nameOrModel` asks
      the resolver for that variable's value instead. */
  lemma ExtractRedirectsResolution()
    ensures var extras := map["nameOrModel" := Str("other")];
            ResolverArgumentsAsWritten(Str("foo/foo"), extras) == Some((Str("other"), Null)) &&
            Prepare(Str("foo/foo"), extras).value.template == "foo/foo"
  {
  }

  /** With no colliding variable names the code as written asks the resolver
      for exactly what `Prepare` names. */
  lemma AsWrittenAgreesWithoutCollision(source: Value, extras: Vars)
    requires Prepare(source, extras).Some?
    requires "nameOrModel" !in Prepare(source, extras).value.vars
    requires "__module" !in Prepare(source, extras).value.vars
    ensures var plan := Prepare(source, extras).value;
            ResolverArgumentsAsWritten(source, extras) == Some((Str(plan.template), ModuleValue(plan.moduleName)))
  {
  }

  /** The corrected behaviour: the template and module resolved depend on the
      source only, whatever the variables are called. */
  lemma ResolutionIgnoresVariables(source: Value, extras1: Vars, extras2: Vars)
    requires Prepare(source, extras1).Some?
    ensures Prepare(source, extras2).Some?
    ensures Prepare(source, extras1).value.template == Prepare(source, extras2).value.template
    ensures Prepare(source, extras1).value.moduleName == Prepare(source, extras2).value.moduleName
  {
  }
}
