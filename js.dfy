/** The part of JavaScript's value model that the storefront's logic depends
    on: JSON response bodies, truthiness, property reads and numbers that may
    be NaN. */
module Js {
  import opened Base

  /** A JSON value received from the API. Records of the endpoint's schema
      (a cart line, a product, a user) are typed leaves `Rec`, and arrays hold
      such records; every other object is an `Obj` from keys to values. */
  datatype Json<R> =
    | Undefined
    | Null
    | Bool(b: bool)
    | Num(n: real)
    | Str(s: string)
    | Rec(rec: R)
    | Arr(elems: seq<R>)
    | Obj(fields: map<string, Json<R>>)

  /** JavaScript truthiness: `undefined`, `null`, `false`, `0` and `""` are
      falsy; every object and array, even an empty one, is truthy. */
  predicate Truthy<R>(v: Json<R>)
  {
    match v
    case Undefined => false
    case Null => false
    case Bool(b) => b
    case Num(n) => n != 0.0
    case Str(s) => s != ""
    case Rec(_) => true
    case Arr(_) => true
    case Obj(_) => true
  }

  /** The property read `v.key`: reading from `null` or `undefined` throws a
      TypeError (None); a key an object lacks, and any key of a record, an
      array or a primitive, reads as `undefined`. */
  function Get<R>(v: Json<R>, key: string): Option<Json<R>>
  {
    match v
    case Undefined => None
    case Null => None
    case Obj(fields) => Some(if key in fields then fields[key] else Undefined)
    case _ => Some(Undefined)
  }

  /** A JavaScript number; infinities and rounding are not modelled. */
  datatype Number = Finite(value: real) | NaN

  function Add(a: Number, b: Number): Number
  {
    if a.Finite? && b.Finite? then Finite(a.value + b.value) else NaN
  }

  function Mul(a: Number, b: Number): Number
  {
    if a.Finite? && b.Finite? then Finite(a.value * b.value) else NaN
  }

  /** A price as the API sends it: a JSON number or a decimal string. */
  datatype Price = PriceNumber(amount: real) | PriceString(text: string)

  predicate PriceTruthy(p: Price)
  {
    match p
    case PriceNumber(a) => a != 0.0
    case PriceString(t) => t != ""
  }

  /** A numeric conversion (`Number(p)` or `parseFloat(p)`) applied to a
      price: a number converts to itself, a string goes through `convert`,
      which stands for the conversion's string parser. */
  function ToNumber(p: Price, convert: string -> Number): Number
  {
    match p
    case PriceNumber(a) => Finite(a)
    case PriceString(t) => convert(t)
  }
}
