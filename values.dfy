/** The PHP values a renderer handles: template variables, render sources,
    and the failures a render can end in. */
module Values {

  datatype Option<+T> = None | Some(value: T)

  /** The throwables that leave `Renderer::render`. `NestingLimit` stands for
      the host refusing a further nested call (it is thrown as an `Error`). */
  datatype Failure =
    | InvalidArgument
    | NotFound
    | Error(message: string)
    | Exception(message: string)
    | NestingLimit

  datatype Result<+T> = Ok(value: T) | Err(error: Failure)

  /** A PHP value. Arrays are restricted to string keys; a view model is the
      only object kind the renderer looks inside. */
  datatype Value =
    | Null
    | Bool(b: bool)
    | Int(i: int)
    | Str(s: string)
    | Arr(entries: map<string, Value>)
    | ViewModel(template: string, moduleName: Option<string>, vars: map<string, Value>)
    | Object(className: string)

  /** A variable scope: variable name to value. */
  type Vars = map<string, Value>

  /** `array_merge(base, over)` on string-keyed arrays: every key of either
      side is present, and a key of `over` wins over the same key of `base`. */
  function Merge(base: Vars, over: Vars): (m: Vars)
    ensures forall k :: k in m <==> k in base || k in over
    ensures forall k :: k in over ==> m[k] == over[k]
    ensures forall k :: k in base && k !in over ==> m[k] == base[k]
  {
    base + over
  }

  /** The PHP value of an optional module tag (`string|null`). */
  function ModuleValue(moduleName: Option<string>): Value {
    match moduleName
    case None => Null
    case Some(m) => Str(m)
  }
}
