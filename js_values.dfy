/**
 * The JSON values an Express handler finds in `req.body`, with the JavaScript
 * coercions the Node server applies to them: truthiness (`if (x)`, `!x`) and
 * destructuring defaults (which replace `undefined` and nothing else).
 */
module JsValues {

  /**
   * A field of a parsed JSON body.  `Undefined` is a field the body does not have;
   * `Object` stands for any object or array, which the server never looks inside.
   * JSON numbers are modelled by integers: only their zero-ness matters here.
   */
  datatype JsValue = Undefined | Null | Bool(b: bool) | Num(n: int) | Str(s: string) | Object

  /** JavaScript truthiness: `undefined`, `null`, `false`, `0` and `''` are falsy. */
  predicate Truthy(v: JsValue)
    ensures !Truthy(v) <==> v == Undefined || v == Null || v == Bool(false) || v == Num(0) || v == Str("")
  {
    match v
    case Undefined => false
    case Null => false
    case Bool(b) => b
    case Num(n) => n != 0
    case Str(s) => s != ""
    case Object => true
  }

  /** The logical negation operator `!v`: always a boolean. */
  function Not(v: JsValue): (r: JsValue)
    ensures r.Bool? && (r.b <==> !Truthy(v))
  {
    Bool(!Truthy(v))
  }

  /** A destructuring default `{ x = d }`: `d` replaces an absent field only. */
  function OrDefault(v: JsValue, d: JsValue): (r: JsValue)
    ensures v != Undefined ==> r == v
    ensures v == Undefined ==> r == d
  {
    if v == Undefined then d else v
  }

  /** Negating twice gives the value back exactly when it was already a boolean. */
  lemma NotNot(v: JsValue)
    ensures Not(Not(v)) == v <==> v.Bool?
  {
  }
}
