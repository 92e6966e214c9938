/** `Es\Template\Renderer`: the variable scope, the render operation over the
    shared output-buffer stack, and helper lookup. */
module Rendering {
  import opened Values
  import opened Templates
  import opened OutputBuffering

  /** A view helper as the registry hands it out: callable (with what calling
      it returns) or a plain object, plus the options it was configured with. */
  datatype Helper =
    | Callable(id: string, options: Vars, invoke: seq<Value> -> Value)
    | Plain(id: string, options: Vars)

  /** What a dynamic helper call (`$renderer->name(...)`) gives back. */
  datatype Reply = Returned(result: Value) | Itself(helper: Helper)

  class Renderer {
    /** The variable scope (`$this->container`). */
    var vars: Vars
    /** The view resolver and the template files. */
    const env: Env
    /** The view helper registry, by name. */
    const helpers: map<string, Helper>
    /** The process's output-buffer stack, shared by every renderer. */
    const out: OutputBuffers
    /** Every resolver call made through this renderer, oldest first. */
    ghost var lookups: seq<(string, Option<string>)>

    constructor (env: Env, helpers: map<string, Helper>, out: OutputBuffers)
      ensures this.env == env && this.helpers == helpers && this.out == out
      ensures vars == map[] && lookups == []
    {
      this.env := env;
      this.helpers := helpers;
      this.out := out;
      vars := map[];
      lookups := [];
    }

    /** Lines 77-83: replaces the scope and returns the one it replaced. */
    method SetVariables(variables: Vars) returns (previous: Vars)
      modifies this`vars
      ensures vars == variables && previous == old(vars)
    {
      previous := vars;
      vars := variables;
    }

    /** Lines 90-93. */
    method GetVariables() returns (variables: Vars)
      ensures variables == vars
    {
      variables := vars;
    }

    /** Lines 109-147: renders a template name or a view model with extra
      variables. `fuel` bounds how deeply templates may render nested. */
    method Render(source: Value, extras: Vars, fuel: nat) returns (r: Result<string>)
      modifies this, out
      decreases fuel, 1
      ensures out.stack == old(out.stack) && out.sent == old(out.sent)
      ensures var o := RenderSpec(env, source, extras, old(vars), fuel);
              r == o.result && vars == o.scope
      ensures old(lookups) <= lookups
      ensures Prepare(source, extras).None? ==> lookups == old(lookups)
      ensures Prepare(source, extras).Some? ==>
                var plan := Prepare(source, extras).value;
                |lookups| > |old(lookups)| && lookups[|old(lookups)|] == (plan.template, plan.moduleName)
      ensures Prepare(source, extras).Some? && NothingNested(env, Prepare(source, extras).value) ==>
                var plan := Prepare(source, extras).value;
                lookups == old(lookups) + [(plan.template, plan.moduleName)]
    {
      var moduleName: Option<string> := None;
      var name: string;
      var variables := extras;
      if source.ViewModel? {
        name := source.template;
        moduleName := source.moduleName;
        variables := Merge(source.vars, extras);
      } else if !source.Str? {
        return Err(InvalidArgument);
      } else {
        name := source.s;
      }

      var saved := SetVariables(variables);
      out.Start();
      lookups := lookups + [(name, moduleName)];
      var path := env.resolve(name, moduleName);
      if path.Err? {
        var _ := out.EndClean();
        return Err(path.error);
      }
      ghost var before := lookups;
      var thrown := Run(Load(env, path.value), variables, fuel);
      assert before <= lookups;
      if thrown.Some? {
        var _ := out.EndClean();
        return Err(thrown.value);
      }
      ghost var run := RunSpec(env, Load(env, path.value), variables, variables, fuel);
      assert out.stack[|out.stack| - 1] == "" + run.result.value == run.result.value;
      var captured := out.GetClean();
      var _ := SetVariables(saved);
      return Ok(captured.value);
    }

    /** Line 135's `include`: runs template `t` with locals `locals`, echoing
      into the innermost open buffer. A failure is returned, and whatever the
      template had written so far is left in that buffer. */
    method Run(t: Template, locals: Vars, fuel: nat) returns (thrown: Option<Failure>)
      requires |out.stack| > 0
      modifies this, out
      decreases fuel, 0
      ensures |out.stack| == |old(out.stack)|
      ensures out.stack[..|out.stack| - 1] == old(out.stack)[..|out.stack| - 1]
      ensures out.sent == old(out.sent)
      ensures old(lookups) <= lookups
      ensures Flat(t) ==> lookups == old(lookups)
      ensures var o := RunSpec(env, t, locals, old(vars), fuel);
              vars == o.scope &&
              (thrown.None? <==> o.result.Ok?) &&
              (thrown.Some? ==> o.result == Err(thrown.value)) &&
              (o.result.Ok? ==> out.stack[|out.stack| - 1] == old(out.stack)[|out.stack| - 1] + o.result.value)
    {
      ghost var whole := RunSpec(env, t, locals, vars, fuel);
      ghost var written := "";
      var i := 0;
      assert t[i..] == t;
      assert Prepend(written, whole) == whole by {
        if whole.result.Ok? { assert written + whole.result.value == whole.result.value; }
      }
      while i < |t|
        invariant 0 <= i <= |t|
        invariant |out.stack| == |old(out.stack)|
        invariant out.stack[..|out.stack| - 1] == old(out.stack)[..|out.stack| - 1]
        invariant out.stack[|out.stack| - 1] == old(out.stack)[|out.stack| - 1] + written
        invariant out.sent == old(out.sent)
        invariant old(lookups) <= lookups
        invariant Flat(t) ==> lookups == old(lookups)
        invariant Prepend(written, RunSpec(env, t[i..], locals, vars, fuel)) == whole
      {
        assert t[i..][0] == t[i] && t[i..][1..] == t[i + 1..];
        match t[i] {
          case Emit(text) =>
            PrependPrepend(written, text(locals, vars), RunSpec(env, t[i + 1..], locals, vars, fuel));
            Echo(text(locals, vars));
            written := written + text(locals, vars);
          case Raise(f) =>
            return Some(f);
          case Nested(source, extras) =>
            if fuel == 0 {
              return Some(NestingLimit);
            }
            ghost var before := lookups;
            var inner := Render(source, extras, fuel - 1);
            assert before <= lookups;
            if inner.Err? {
              return Some(inner.error);
            }
            PrependPrepend(written, inner.value, RunSpec(env, t[i + 1..], locals, vars, fuel));
            Echo(inner.value);
            written := written + inner.value;
        }
        i := i + 1;
      }
      assert t[i..] == [];
      return None;
    }

    /** `echo s` from inside a template: appends to the innermost buffer. */
    method Echo(s: string)
      requires |out.stack| > 0
      modifies out
      ensures out.sent == old(out.sent)
      ensures |out.stack| == |old(out.stack)|
      ensures out.stack[..|out.stack| - 1] == old(out.stack)[..|out.stack| - 1]
      ensures out.stack[|out.stack| - 1] == old(out.stack)[|out.stack| - 1] + s
    {
      out.Write(s);
    }

    /** Lines 157-160: the named helper configured with `options`; a name the
      registry does not hold is `NotFound`. */
    function Helper(name: string, options: Vars): (r: Result<Helper>)
      ensures r.Ok? <==> name in helpers
      ensures r.Ok? ==> r.value.id == helpers[name].id && r.value.options == options
      ensures r.Ok? ==> r.value.Callable? == helpers[name].Callable?
      ensures r.Ok? && r.value.Callable? ==> r.value.invoke == helpers[name].invoke
      ensures r.Err? ==> r.error == NotFound
    {
      if name in helpers then Ok(helpers[name].(options := options)) else Err(NotFound)
    }

    /** Lines 171-179: a callable helper is called with `params` and its result
      returned; any other helper is returned unchanged. */
    function Call(name: string, params: seq<Value>): (r: Result<Reply>)
      ensures r.Ok? <==> name in helpers
      ensures r.Err? ==> r.error == NotFound
      ensures r.Ok? ==> (r.value.Returned? <==> helpers[name].Callable?)
      ensures r.Ok? && r.value.Returned? ==> r.value.result == helpers[name].invoke(params)
      ensures r.Ok? && r.value.Itself? ==> r.value.helper == helpers[name]
    {
      if name !in helpers then Err(NotFound)
      else
        var helper := helpers[name];
        if helper.Callable? then Ok(Returned(helper.invoke(params))) else Ok(Itself(helper))
    }
  }
}
