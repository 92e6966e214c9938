/** Clients of the renderer that replay the repository's own test cases
    (test/RendererTest.php) against the model's contracts. */
module Scenarios {
  import opened Values
  import opened Templates
  import opened OutputBuffering
  import opened Rendering

  /** The value of a string variable, or "" when it is missing or not a string. */
  function Text(m: Vars, name: string): string {
    if name in m && m[name].Str? then m[name].s else ""
  }

  /** `<?= $foo ?><?= $bar ?>`: echoes two local variables. */
  function LocalVariablesFile(): Template {
    [Emit((locals, scope) => Text(locals, "foo")), Emit((locals, scope) => Text(locals, "bar"))]
  }

  /** `<?= $this->foo ?><?= $this->bar ?>`: echoes two scope variables. */
  function ContainerVariablesFile(): Template {
    [Emit((locals, scope) => Text(scope, "foo")), Emit((locals, scope) => Text(scope, "bar"))]
  }

  /** Both files echo "foobar" when `foo` and `bar` hold those strings. */
  lemma EchoesFooBar(t: Template, locals: Vars, scope: Vars)
    requires t == LocalVariablesFile() || t == ContainerVariablesFile()
    requires locals == scope && Text(locals, "foo") == "foo" && Text(locals, "bar") == "bar"
    ensures EchoOnly(t) && Echoed(t, locals, scope) == "foobar"
  {
    assert t[1..][1..] == [];
    assert Echoed(t[1..], locals, scope) == "bar" + "";
  }

  /** A resolver that maps every name to the same file. */
  function Always(path: Path): (string, Option<string>) -> Result<Path> {
    (name, moduleName) => Ok(path)
  }

  /** Lines 171-188 of the test: variables passed to render are the template's locals. */
  method RenderSetsLocalVariables() returns (output: Result<string>)
    ensures output == Ok("foobar")
  {
    var env := Env(Always("local_variables.phtml"), map["local_variables.phtml" := LocalVariablesFile()]);
    var out := new OutputBuffers();
    var renderer := new Renderer(env, map[], out);
    var vars := map["foo" := Str("foo"), "bar" := Str("bar")];
    RenderPlainTemplate(env, Str("foo/foo"), vars, map[], 0, "local_variables.phtml");
    EchoesFooBar(LocalVariablesFile(), vars, vars);
    output := renderer.Render(Str("foo/foo"), vars, 0);
    // The resolver is asked exactly once, for the name and no module.
    assert Flat(LocalVariablesFile());
    assert renderer.lookups == [("foo/foo", None)];
  }

  /** Lines 190-212: a view model's variables merged with the extra ones. */
  method RenderMergesViewModelVariables() returns (output: Result<string>)
    ensures output == Ok("foobar")
  {
    var env := Env(Always("local_variables.phtml"), map["local_variables.phtml" := LocalVariablesFile()]);
    var out := new OutputBuffers();
    var renderer := new Renderer(env, map[], out);
    var model := ViewModel("foo/foo", None, map["foo" := Str("foo")]);
    var extras := map["bar" := Str("bar")];
    RenderPlainTemplate(env, model, extras, map[], 0, "local_variables.phtml");
    var merged := Merge(model.vars, extras);
    assert Text(merged, "foo") == "foo" && Text(merged, "bar") == "bar";
    EchoesFooBar(LocalVariablesFile(), merged, merged);
    output := renderer.Render(model, extras, 0);
    assert Flat(LocalVariablesFile());
    assert renderer.lookups == [("foo/foo", None)];
  }

  /** Lines 214-255: the template sees the variables through the renderer's
      scope, and the scope before the call is restored after it. */
  method RenderRestoresVariables() returns (output: Result<string>, after: Vars)
    ensures output == Ok("foobar")
    ensures after == map["con" := Str("com")]
  {
    var env := Env(Always("container_variables.phtml"), map["container_variables.phtml" := ContainerVariablesFile()]);
    var out := new OutputBuffers();
    var renderer := new Renderer(env, map[], out);
    var initial := map["con" := Str("com")];
    var _ := renderer.SetVariables(initial);
    var vars := map["foo" := Str("foo"), "bar" := Str("bar")];
    RenderPlainTemplate(env, Str("foo/foo"), vars, initial, 0, "container_variables.phtml");
    EchoesFooBar(ContainerVariablesFile(), vars, vars);
    output := renderer.Render(Str("foo/foo"), vars, 0);
    after := renderer.GetVariables();
  }

  /** Lines 83-92: what was set is what is read back. */
  method SetThenGetVariables(variables: Vars) returns (previous: Vars, current: Vars)
    ensures previous == map[] && current == variables
  {
    var env := Env(Always(""), map[]);
    var out := new OutputBuffers();
    var renderer := new Renderer(env, map[], out);
    previous := renderer.SetVariables(variables);
    current := renderer.GetVariables();
  }

  /** Lines 257-303: a template that throws leaves the buffer level as it was
      and the failure reaches the caller unchanged. */
  method RenderNormalizesBufferOnError(failure: Failure, level: nat) returns (output: Result<string>, levelAfter: nat)
    ensures output == Err(failure)
    ensures levelAfter == level
  {
    var env := Env(Always("template_with_error.phtml"), map["template_with_error.phtml" := [Raise(failure)]]);
    var out := new OutputBuffers();
    var i := 0;
    while i < level
      invariant 0 <= i <= level && |out.stack| == i
    {
      out.Start();
      i := i + 1;
    }
    var renderer := new Renderer(env, map[], out);
    output := renderer.Render(Str("foo"), map[], 0);
    levelAfter := out.Level();
  }

  /** Lines 100-125: rejected sources; the resolver is never asked. */
  method RenderRejectsInvalidSource(source: Value) returns (output: Result<string>, scope: Vars, level: nat)
    requires !source.Str? && !source.ViewModel?
    ensures output == Err(InvalidArgument) && scope == map[] && level == 0
  {
    var env := Env(Always("foo.phtml"), map[]);
    var out := new OutputBuffers();
    var renderer := new Renderer(env, map[], out);
    output := renderer.Render(source, map[], 0);
    assert renderer.lookups == [];
    scope := renderer.GetVariables();
    level := out.Level();
  }

  /** A template that echoes "a", renders "inner" (which echoes "b") and
      echoes "c": the nested render's output lands in the outer buffer, and
      both frames are closed again. */
  method NestedRender() returns (output: Result<string>, levelAfter: nat)
    ensures output == Ok("abc") && levelAfter == 0
  {
    var inner := [Emit((locals, scope) => "b")];
    var outer := [Emit((locals, scope) => "a"), Nested(Str("inner"), map[]), Emit((locals, scope) => "c")];
    var resolve := (name: string, moduleName: Option<string>) =>
      if name == "inner" then Ok("inner.phtml") else Ok("outer.phtml");
    var env := Env(resolve, map["inner.phtml" := inner, "outer.phtml" := outer]);
    var out := new OutputBuffers();
    var renderer := new Renderer(env, map[], out);
    // The inner render yields "b" and restores the (empty) scope.
    assert inner[1..] == [] && Echoed(inner, map[], map[]) == "b" + "" == "b";
    RenderPlainTemplate(env, Str("inner"), map[], map[], 0, "inner.phtml");
    // The outer template, statement by statement from the end.
    assert outer[2..][1..] == [] && "c" + "" == "c";
    assert outer[1..][1..] == outer[2..] && outer[1..][0] == Nested(Str("inner"), map[]);
    assert RenderSpec(env, Str("inner"), map[], map[], 0) == Outcome(Ok("b"), map[]);
    assert RunSpec(env, outer[2..], map[], map[], 1) == Outcome(Ok("c"), map[]);
    assert RunSpec(env, outer[1..], map[], map[], 1) == Outcome(Ok("b" + "c"), map[]);
    assert "a" + ("b" + "c") == "abc";
    output := renderer.Render(Str("outer"), map[], 1);
    levelAfter := out.Level();
  }

  /** A nested render that fails leaves the outer renderer's scope at the
      nested render's variables: neither render restores it. */
  method FailedNestedRenderLeavesInnerScope() returns (output: Result<string>, after: Vars)
    ensures output == Err(Exception("boom"))
    ensures after == map["inner" := Int(1)]
  {
    var inner := [Raise(Exception("boom"))];
    var outer := [Nested(Str("inner"), map["inner" := Int(1)])];
    var resolve := (name: string, moduleName: Option<string>) =>
      if name == "inner" then Ok("inner.phtml") else Ok("outer.phtml");
    var env := Env(resolve, map["inner.phtml" := inner, "outer.phtml" := outer]);
    var out := new OutputBuffers();
    var renderer := new Renderer(env, map[], out);
    output := renderer.Render(Str("outer"), map["outer" := Int(0)], 1);
    after := renderer.GetVariables();
  }

  /** Lines 328-361: a callable helper is called, a plain one handed back. */
  method CallDispatchesHelpers(params: seq<Value>) returns (called: Result<Reply>, plain: Result<Reply>)
    ensures called == Ok(Returned(Int(|params|)))
    ensures plain == Ok(Itself(Plain("bar", map[])))
  {
    var helpers := map[
      "foo" := Callable("foo", map[], (ps: seq<Value>) => Int(|ps|)),
      "bar" := Plain("bar", map[])];
    var out := new OutputBuffers();
    var renderer := new Renderer(Env(Always(""), map[]), helpers, out);
    called := renderer.Call("foo", params);
    plain := renderer.Call("bar", params);
  }
}
