/** Ruby values, as far as the engine sees them: opaque data that is passed
    through verbatim, and whose only inspected property is truthiness. */
module Values {

  datatype Value =
    | Nil
    | Bool(b: bool)
    | Int(i: int)
    | Str(s: string)
    | Sym(name: string)
    | List(items: seq<Value>)
    | Obj(ref: nat)          // a reference to some application object

  /** Ruby truthiness: everything except `nil` and `false`. */
  predicate Truthy(v: Value) {
    v != Nil && v != Bool(false)
  }
}
