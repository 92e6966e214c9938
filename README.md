# es-template renderer, modelled in Dafny

This project models `Es\Template\Renderer`, the template renderer of the Easy
System framework. The renderer:

- checks a render source, which must be a template name or a view model;
- works out the variables the template gets (a view model's variables, with
  the extra variables winning on a shared key);
- puts those variables in its own scope (`setVariables`);
- opens an output buffer, resolves the template to a file and includes it;
- returns what that include wrote.

On success it closes the buffer and restores the scope it had before. On
failure it discards the buffer and rethrows, and it leaves the scope as it is.
Helpers are reached through `helper(name, options)` and through dynamic calls
(`__call`).

Layout:

- `values.dfy`: PHP values, variable scopes, `array_merge` on string keys,
  and the failures a render can end in.
- `output_buffering.dfy`: PHP's output-control stack (`ob_start`,
  `ob_get_clean`, `ob_end_clean`, `ob_get_level`, `echo`) as a class. It is
  shared by every renderer.
- `templates.dfy`: what a render computes, as functions.
  - Templates are a small statement language. A statement echoes text
    computed from the locals and the renderer's scope, renders another source
    and echoes the result, or throws.
  - `RenderSpec` and `RunSpec` are mutually recursive. They give a render's
    result and the scope it leaves.
  - It also holds the lemmas about them.
- `renderer.dfy`: the `Renderer` class.
  - `vars` is the scope.
  - The resolver, the template files and the helper registry are fixed
    collaborators.
  - `Render` and `Run` are proved to equal `RenderSpec` and `RunSpec`.
  - `Render` is also proved to give the shared buffer stack back exactly as
    it found it. `Run` leaves the frames below the innermost one untouched,
    and on success appends the template's output to the innermost frame.
- `scenarios.dfy`: clients that replay `test/RendererTest.php` against the
  contracts. It also covers two nested-render cases.

Nested renders are real recursive calls: a `Nested` statement in a template
calls `Render` again. Rendering takes a `fuel` argument, and every nested
render gets one less. A `Nested` statement met with no fuel left fails with
`NestingLimit` inside the template. That failure goes through the same cleanup
as any other. `RenderFuelMonotone` proves that fuel changes nothing else.

The scope is restored on success only. Lines 133-146 of `src/Renderer.php`
restore the scope after `ob_get_clean`, and the `catch` blocks rethrow without
restoring it. This model keeps that asymmetry. So:

- after a failed render, the scope is the failing render's effective
  variables;
- after a failed nested render, the outer renderer keeps the inner render's
  variables (`FailedNestedRenderLeavesInnerScope`).

## Model

| member | source | states |
|---|---|---|
| `Values.Merge` | src/Renderer.php:117 | the merged variables hold exactly the keys of both sides; an extra variable overrides the view model's variable of the same name, and the model's other variables are kept |
| `Templates.Prepare` | src/Renderer.php:111-127 | a source that is neither a string nor a view model is rejected; a string is a template name with no module and exactly the extra variables; a view model gives its template, its module and its variables merged with the extras |
| `Templates.RenderSpec` | src/Renderer.php:109-147 | an invalid source yields `InvalidArgument` with the scope unchanged; every successful render leaves the scope as it was before the call |
| `Templates.RunSpec` | src/Renderer.php:135 | a template that runs to the end leaves the renderer's scope as it found it, because every nested render that succeeds restores it |
| `Templates.PlainRunOutput` | src/Renderer.php:135 | a template of echoes only writes the concatenation of its echoes and changes nothing else |
| `Templates.RenderPlainTemplate` | src/Renderer.php:129-136 | the included template sees the effective variables both as its locals and as the renderer's scope; its output is the render's result; the previous scope is restored |
| `Templates.FailedRenderLeavesEffectiveVars` | src/Renderer.php:130-144 | when resolving or running the template fails, and the template renders nothing nested, the scope stays at the effective variables of the failed render |
| `Templates.RenderFuelMonotone` | src/Renderer.php:135 | unless the nesting limit is hit, a render with more fuel has exactly the same outcome, so fuel only bounds how deep renders nest |
| `Templates.RunFuelMonotone` | src/Renderer.php:135 | the same for running a template |
| `Templates.ResolverArgumentsAsWritten` | src/Renderer.php:129-135 | the values the resolver receives as the code is written: a variable named `nameOrModel` replaces the template name |
| `Templates.ExtractRedirectsResolution` | src/Renderer.php:129-135 | rendering "foo/foo" with a variable `nameOrModel` = "other" asks the resolver for "other" as written, and for "foo/foo" in the corrected model |
| `Templates.AsWrittenAgreesWithoutCollision` | src/Renderer.php:129-135 | when no variable is named `nameOrModel` or `__module`, the code as written and the corrected model ask the resolver for the same thing |
| `Templates.ResolutionIgnoresVariables` | src/Renderer.php:111-118 | in the corrected model, the template and module resolved depend on the source alone, whatever the variables are |
| `OutputBuffering.OutputBuffers.Start` | src/Renderer.php:134 | opening a buffer pushes one empty frame and changes nothing else |
| `OutputBuffering.OutputBuffers.Write` | src/Renderer.php:135 | output goes to the innermost open buffer, or is sent when none is open |
| `OutputBuffering.OutputBuffers.GetClean` | src/Renderer.php:136 | returns the innermost buffer's contents and closes it; with no buffer open it returns nothing and changes nothing |
| `OutputBuffering.OutputBuffers.EndClean` | src/Renderer.php:138-142 | discards the innermost buffer, and reports whether there was one |
| `OutputBuffering.OutputBuffers.Level` | test/RendererTest.php:272-278 | the number of open buffers |
| `Rendering.Renderer.SetVariables` | src/Renderer.php:77-83 | the scope becomes the given variables, and the scope that was there before is returned |
| `Rendering.Renderer.GetVariables` | src/Renderer.php:90-93 | returns the current scope, as a value, so a caller cannot change the scope through it |
| `Rendering.Renderer.Render` | src/Renderer.php:109-147 | result and new scope are those of `RenderSpec`; on every exit path the buffer stack is exactly as before and nothing is sent; an invalid source asks the resolver nothing; otherwise the first resolver call is for the source's template and module (the corrected resolution of the Findings row); when the template renders nothing nested, that is the only resolver call |
| `Rendering.Renderer.Run` | src/Renderer.php:135 | result and scope are those of `RunSpec`; the frames below the innermost one are untouched; on success the innermost frame gained exactly the template's output |
| `Rendering.Renderer.Helper` | src/Renderer.php:157-160 | a registered helper comes back configured with exactly the given options, otherwise the same helper; an unregistered name is `NotFound` |
| `Rendering.Renderer.Call` | src/Renderer.php:171-179 | a callable helper is called with the parameters and its result returned; any other helper is returned unchanged; an unregistered name is `NotFound` |
| `Scenarios.SetThenGetVariables` | test/RendererTest.php:83-92 | what `SetVariables` stored is what `GetVariables` returns |
| `Scenarios.RenderRejectsInvalidSource` | test/RendererTest.php:100-125 | booleans, numbers, arrays and plain objects are rejected with `InvalidArgument`, with no resolver call, no buffer left open and the scope unchanged |
| `Scenarios.RenderSetsLocalVariables` | test/RendererTest.php:171-188 | a template echoing `$foo` and `$bar` renders "foobar" |
| `Scenarios.RenderMergesViewModelVariables` | test/RendererTest.php:190-212 | a view model's `foo` and an extra `bar` are both visible: "foobar" |
| `Scenarios.RenderRestoresVariables` | test/RendererTest.php:214-255 | a template echoing `$this->foo` and `$this->bar` renders "foobar", and the scope `{con: com}` is back afterwards |
| `Scenarios.RenderNormalizesBufferOnError` | test/RendererTest.php:257-303 | with any number of buffers open, a template that throws leaves the same number open, and the same failure reaches the caller |
| `Scenarios.NestedRender` | src/Renderer.php:133-136 | a nested render's output lands in the outer buffer ("a" + "b" + "c"), and both frames are closed again |
| `Scenarios.FailedNestedRenderLeavesInnerScope` | src/Renderer.php:137-144 | a nested render that throws leaves the outer renderer's scope at the nested render's variables |
| `Scenarios.CallDispatchesHelpers` | test/RendererTest.php:328-361 | a callable helper is invoked with the parameters; a plain helper is handed back |

## Left out

- `setResolver`, `getResolver`, `setHelpers` and `getHelpers` (src/Renderer.php:35-68) read and write the process-wide service locator. The resolver, the template files and the helper registry are fixed fields of the renderer instead. A missing service is not modelled.
- `TemplateEngine` (src/TemplateEngine.php) only passes a view model on to `Renderer::render`, and reaches the renderer through the service locator. `Component` (src/Component.php) is a static configuration record. Neither has behaviour of its own.
- PHP `include` and `extract` are modelled as a template-statement language. The template's locals are exactly the effective variables. The renderer's own locals (`$nameOrModel`, `$__module`, `$__old`) are not visible to templates. `extract` skipping keys that are not identifiers is not modelled.
- Including a path that holds no file produces no output. PHP's warning is not modelled.
- Templates cannot catch exceptions, call helpers or change the renderer's scope themselves. The text they echo is any function of their locals and the scope.
- `array_merge`: keys are strings only. Numeric-key renumbering and key order are not modelled.
- Exception messages (src/Renderer.php:120-126) are not modelled; only the failure kind is.
- PHP always passes two arguments to the resolver, and the second is `null` for a template name (lines 111 and 135). `None` stands for that `null`.
- Rendering.Renderer.Helper: the helper registry's `getHelper` configures the helper object in place, so later lookups see the new options. Here the configured helper is returned as a value and the registry does not change.
- Rendering.Renderer.Call: `is_callable` and `call_user_func_array` belong to the helper package. Here a helper is either callable, with a total function of its parameters, or plain.
- Rendering.Renderer.Render and Templates.RenderSpec: they follow the corrected resolution of the Findings row, and ask the resolver for the source's template and module. The code as written resolves an extracted `nameOrModel` or `__module` variable instead. Only `Templates.ResolverArgumentsAsWritten` models that.
- Templates.ResolverArgumentsAsWritten: it covers the `nameOrModel` and `__module` collisions only. Two other collisions are not modelled. A variable named `variables` would replace the array passed to `setVariables` at line 130. A variable named `this` makes `extract()` at line 129 raise an `Error`. That happens outside the `try`, before the scope swap and before `ob_start`. The model renders such variables normally.
- The nesting depth is bounded by `fuel`. PHP has no such bound: unbounded recursion there exhausts the stack.

## Findings

| source | as written | input that shows it | evidently intended | confidence | as-written member | corrected member |
|---|---|---|---|---|---|---|
| src/Renderer.php:129-135 | `extract($variables)` runs in the default overwrite mode before the resolver call, so a variable named `nameOrModel` or `__module` replaces the template name or module that is resolved | `render('foo/foo', ['nameOrModel' => 'other'])` resolves "other" | the template named by the source is resolved, whatever the variables are called; the renderer's other locals are prefixed `__` to avoid such collisions | not executed; high | `Templates.ResolverArgumentsAsWritten`, `Templates.ExtractRedirectsResolution` | `Templates.Prepare`, `Templates.ResolutionIgnoresVariables` |
