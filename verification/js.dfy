/**
 * The JavaScript values that the ERP front-end keeps in its shared store.
 *
 * Records are plain objects, so a record is a map from property name to
 * value; a property that is absent reads as `undefined`. Dates are written
 * by the code as ISO strings; here a date is the whole day number it names
 * (`Day`), except in the finance screen's module, where dates are instants.
 * The clock is always a parameter.
 */
module Js {

  datatype Option<+T> = None | Some(value: T)

  /** A JavaScript value. Numbers are `Num` (finite, exact), `NegInf` and `NaN`. */
  datatype Value =
    | Undefined
    | Null
    | Bool(b: bool)
    | Num(n: real)
    | NegInf
    | NaN
    | Str(s: string)
    | Day(day: int)
    | Obj(fields: map<string, Value>)
    | Arr(elems: seq<Value>)

  /** A plain object: property name to value. */
  type Record = map<string, Value>

  /** `r.k`: an absent property reads as `undefined`. */
  function Get(r: Record, k: string): Value {
    if k in r then r[k] else Undefined
  }

  /** `o.k` on a value that may or may not be an object. */
  function Prop(o: Value, k: string): Value {
    if o.Obj? then Get(o.fields, k) else Undefined
  }

  /** JavaScript truthiness (`if (v)`, `!v`, `v || d`). */
  predicate Truthy(v: Value) {
    match v
    case Undefined => false
    case Null => false
    case Bool(b) => b
    case Num(n) => n != 0.0
    case NegInf => true
    case NaN => false
    case Str(s) => s != ""
    case Day(_) => true
    case Obj(_) => true
    case Arr(_) => true
  }

  /** `v || fallback`. */
  function Or(v: Value, fallback: Value): Value {
    if Truthy(v) then v else fallback
  }

  /** `errors[key] = message`, as the form validators write their error objects, when there is a message. */
  function WithError(errs: map<string, Value>, key: string, e: Option<string>): map<string, Value> {
    if e.Some? then errs[key := Str(e.value)] else errs
  }

  /**
   * Strict equality `a === b`. `NaN` equals nothing; objects and arrays are
   * compared by reference in JavaScript, which is not modelled: they equal
   * nothing here (the code only compares ids, which are numbers).
   */
  predicate StrictEq(a: Value, b: Value) {
    match a
    case Undefined => b.Undefined?
    case Null => b.Null?
    case Bool(x) => b.Bool? && b.b == x
    case Num(x) => b.Num? && b.n == x
    case NegInf => b.NegInf?
    case NaN => false
    case Str(x) => b.Str? && b.s == x
    case Day(x) => b.Day? && b.day == x
    case Obj(_) => false
    case Arr(_) => false
  }

  /** The numeric kinds of value: what `ToNumber` yields. */
  predicate IsNumber(v: Value) {
    v.Num? || v.NegInf? || v.NaN?
  }

  /**
   * `ToNumber(v)` as `Math.max` applies it. Strings and arrays always give
   * `NaN` here (JavaScript would read numeric text such as "12" as 12); an
   * ISO date string is `NaN` in JavaScript as well.
   */
  function ToNumber(v: Value): (r: Value)
    ensures IsNumber(r)
    ensures IsNumber(v) ==> r == v
  {
    match v
    case Undefined => NaN
    case Null => Num(0.0)
    case Bool(b) => Num(if b then 1.0 else 0.0)
    case Num(n) => v
    case NegInf => v
    case NaN => v
    case Str(_) => NaN
    case Day(_) => NaN
    case Obj(_) => NaN
    case Arr(_) => NaN
  }

  /** The real value of a finite number. */
  function NumOf(v: Value): real
    requires v.Num?
  {
    v.n
  }
}
