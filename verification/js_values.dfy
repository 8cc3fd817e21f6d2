/** JavaScript values as the front-end manipulates them: plain records
    (object literals) keyed by property name, with object spread written as
    Dafny's right-biased map union. */
module JsValues {

  datatype Option<+T> = None | Some(value: T)

  datatype Result<+R, +E> = Success(value: R) | Failure(error: E)

  /** A JavaScript value. Numbers are modelled as integers. */
  datatype Val =
    | Undefined
    | Null
    | Bool(b: bool)
    | Num(n: int)
    | Str(s: string)
    | Arr(items: seq<Val>)
    | Obj(fields: map<string, Val>)

  /** An object literal: its own enumerable properties. */
  type Record = map<string, Val>

  /** `r.key` on a record: a missing property reads as `undefined`. */
  function Get(r: Record, key: string): (v: Val)
    ensures key in r ==> v == r[key]
    ensures key !in r ==> v == Undefined
  {
    if key in r then r[key] else Undefined
  }

  /** `r.id`, the identity every cached entity and product line is matched by. */
  function IdOf(r: Record): Val
  {
    Get(r, "id")
  }

  /** `v.key` on an arbitrary value. `None` stands for the TypeError thrown
      when reading a property of `undefined` or `null`; arrays and strings
      expose `length`, and every other property of a non-object reads as
      `undefined`. */
  function Member(v: Val, key: string): (r: Option<Val>)
    ensures r.None? <==> v.Undefined? || v.Null?
    ensures v.Obj? ==> r == Some(Get(v.fields, key))
    ensures v.Arr? && key == "length" ==> r == Some(Num(|v.items|))
  {
    match v
    case Undefined => None
    case Null => None
    case Obj(m) => Some(Get(m, key))
    case Arr(items) => if key == "length" then Some(Num(|items|)) else Some(Undefined)
    case Str(s) => if key == "length" then Some(Num(|s|)) else Some(Undefined)
    case _ => Some(Undefined)
  }
}
