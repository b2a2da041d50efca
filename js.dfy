/** The JavaScript values that reach the relay endpoints inside a JSON body,
    with the three operations the templates apply to them: truthiness,
    `a || b`, and conversion inside a template literal (`${v}`). Numbers are
    the integral amounts the pages send. */
module Js {
  import Text

  datatype Value =
    | Undefined
    | Null
    | Bool(b: bool)
    | Num(n: int)
    | Str(s: string)

  predicate Truthy(v: Value) {
    match v
    case Undefined => false
    case Null => false
    case Bool(b) => b
    case Num(n) => n != 0
    case Str(s) => s != ""
  }

  /** `a || b`: the left operand when it is truthy, otherwise the right one. */
  function Or(a: Value, b: Value): (r: Value)
    ensures Truthy(a) ==> r == a
    ensures !Truthy(a) ==> r == b
  {
    if Truthy(a) then a else b
  }

  /** `${v}` */
  function Render(v: Value): (r: string)
    ensures v.Str? ==> r == v.s
  {
    match v
    case Undefined => "undefined"
    case Null => "null"
    case Bool(b) => if b then "true" else "false"
    case Num(n) => Text.IntToString(n)
    case Str(s) => s
  }

  /** `${a || "fallback"}` */
  function RenderOr(a: Value, fallback: string): (r: string)
    ensures Truthy(a) ==> r == Render(a)
    ensures !Truthy(a) ==> r == fallback
  {
    Render(Or(a, Str(fallback)))
  }

  /** `v === "text"` */
  predicate IsString(v: Value, text: string) {
    v == Str(text)
  }

  /** The TypeError Node.js raises for `v.prop` when `v` is undefined or null. */
  function PropertyReadError(isNull: bool, prop: string): string {
    "Cannot read properties of " + (if isNull then "null" else "undefined") + " (reading '" + prop + "')"
  }

  /** The message of the error raised by `v.replace(...)`: a read error on
      undefined or null, "is not a function" on a value without `replace`.
      Only strings have `replace`; `name` is the expression's source text. */
  function ReplaceError(v: Value, name: string): string
    requires !v.Str?
  {
    match v
    case Undefined => PropertyReadError(false, "replace")
    case Null => PropertyReadError(true, "replace")
    case _ => name + ".replace is not a function"
  }

  /** Either a value or the message of the error its evaluation threw. */
  datatype Eval<T> = Value(value: T) | Threw(message: string)

  /** `v.replace(/\n/g, "<br>")`, which throws unless `v` is a string. */
  function ReplaceNewlines(v: Value, name: string): (r: Eval<string>)
    ensures r.Value? <==> v.Str?
    ensures v.Str? ==> r.value == Text.ReplaceNewlines(v.s)
  {
    if v.Str? then Value(Text.ReplaceNewlines(v.s)) else Threw(ReplaceError(v, name))
  }
}
