/** JSON values as they arrive in a request body, reduced to what JavaScript
    truthiness and the `a || b` merge of the project service need. */
module JsValues {

  /** `Compound` stands for any object or array: its contents never matter here,
      and every object is truthy. Numbers are integers (see README). */
  datatype Value = Undefined | Null | Bool(b: bool) | Num(n: int) | Str(s: string) | Compound

  /** JavaScript truthiness: undefined, null, false, 0 and "" are the falsy values. */
  predicate Truthy(v: Value) {
    match v
    case Undefined => false
    case Null => false
    case Bool(b) => b
    case Num(n) => n != 0
    case Str(s) => s != ""
    case Compound => true
  }

  /** JavaScript `a || b`: the first operand when it is truthy, else the second. */
  function Or(a: Value, b: Value): (r: Value)
    ensures r == a || r == b
    ensures Truthy(r) <==> Truthy(a) || Truthy(b)
    ensures Truthy(a) ==> r == a
    ensures !Truthy(a) ==> r == b
  {
    if Truthy(a) then a else b
  }
}
