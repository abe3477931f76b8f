/** The slice of JavaScript value semantics that the adapter's naming logic depends on. */
module JsValues {

  /** The values an option or a file-record field takes in this model: the two absent values,
      booleans and strings. Numbers and nested objects are not part of this model. */
  datatype Val = Undefined | Null | Bool(b: bool) | Str(s: string)

  /** JavaScript truthiness (ToBoolean) on these values: `false`, `""`, `null` and `undefined` are falsy. */
  predicate Truthy(v: Val) {
    match v
    case Bool(b) => b
    case Str(s) => s != ""
    case _ => false
  }

  /** `v != null` is false exactly for `null` and `undefined` (loose equality). */
  predicate IsNullish(v: Val) {
    v.Undefined? || v.Null?
  }

  /** The `a || b` operator: short-circuits to `a` when `a` is truthy, else yields `b` unchanged. */
  function Or(a: Val, b: Val): (r: Val)
    ensures Truthy(r) <==> Truthy(a) || Truthy(b)
    ensures Truthy(a) ==> r == a
    ensures !Truthy(a) ==> r == b
  {
    if Truthy(a) then a else b
  }

  /** The string a template literal `${v}` interpolates for `v`. */
  function Text(v: Val): (t: string)
    ensures v.Str? ==> t == v.s
    ensures t == "" <==> v == Str("")
  {
    match v
    case Undefined => "undefined"
    case Null => "null"
    case Bool(b) => if b then "true" else "false"
    case Str(s) => s
  }

  /** `path.isAbsolute` on POSIX: the path starts with a slash. */
  predicate IsAbsolute(p: string) {
    |p| > 0 && p[0] == '/'
  }
}
