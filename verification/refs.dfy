/**
 A resource reference as a caller hands it to the tag: a bare integer or
 string identifier, or a resource object (droplet, volume, snapshot, or any
 other Python value). Of an object only its truthiness, its `str()` and its
 optional `id` attribute matter, so those stay abstract fields.
 */
module Refs {
  import opened Wrappers
  import Decimal

  datatype Ref =
    | RNone
    | RBool(b: bool)
    | RInt(i: int)
    | RStr(s: string)
    | RObj(truthy: bool, repr: string, id: Option<Ref>)

  /** Python truthiness of a reference. An empty container is an `RObj` whose `truthy` is false. */
  predicate Truthy(x: Ref) {
    match x
    case RNone => false
    case RBool(b) => b
    case RInt(i) => i != 0
    case RStr(s) => |s| > 0
    case RObj(truthy, _, _) => truthy
  }

  /** Python's `str()` of a reference. */
  function PyStr(x: Ref): string {
    match x
    case RNone => "None"
    case RBool(b) => if b then "True" else "False"
    case RInt(i) => Decimal.IntToDecimal(i)
    case RStr(s) => s
    case RObj(_, repr, _) => repr
  }

  /** Python's `getattr(x, "id", default)` for a reference `x`. */
  function GetId(x: Ref, default: Ref): Ref {
    if x.RObj? && x.id.Some? then x.id.value else default
  }
}
