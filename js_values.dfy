/**
 * The dynamically typed values that the node's widgets, its slot records and
 * its messages carry, and the two JavaScript idioms the extension applies to
 * them: truthiness (`value || default`) and optional chaining on a widget that
 * may be missing (`widget?.value`).
 */
module JsValues {
  import opened Wrappers

  /** A JavaScript value as far as the extension distinguishes them. */
  datatype Value = Undefined | Num(n: real) | Str(s: string) | Bool(b: bool)

  /** JavaScript truthiness: `undefined`, `0`, `""` and `false` are falsy. */
  predicate Truthy(v: Value) {
    match v
    case Undefined => false
    case Num(n) => n != 0.0
    case Str(s) => s != ""
    case Bool(b) => b
  }

  /** `v || fallback` */
  function Or(v: Value, fallback: Value): Value {
    if Truthy(v) then v else fallback
  }

  /** A widget that may be missing: `None` when `node.widgets.find(...)` finds nothing. */
  type Widget = Option<Value>

  /** `widget?.value` */
  function ValueOf(w: Widget): Value {
    match w
    case Some(v) => v
    case None => Undefined
  }

  /** `if (widget) widget.value = v`: writes only a widget that exists. */
  function Write(w: Widget, v: Value): Widget {
    match w
    case Some(_) => Some(v)
    case None => None
  }

  /** `if (widget) field = widget.value`: reads a widget when it exists, else keeps `current`. */
  function Read(w: Widget, current: Value): Value {
    match w
    case Some(v) => v
    case None => current
  }
}
