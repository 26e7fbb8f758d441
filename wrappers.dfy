/**
 * Small value wrappers shared by every module: an optional value, and the
 * three states an optional property of a JavaScript object can be in.
 */
module Wrappers {

  datatype Option<T> = None | Some(value: T) {
    function GetOr(default: T): T {
      match this
      case Some(v) => v
      case None => default
    }
  }

  /**
   * A property of an options object as seen by object spread: missing
   * altogether, present with the value `undefined`, or present with a value.
   * Spreading an object whose property is present (even as `undefined`)
   * overrides the base; a missing property leaves the base in place.
   */
  datatype Field<T> = Absent | Undefined | Defined(value: T) {
    predicate Present() {
      !Absent?
    }

    /** Reading the property: missing and `undefined` read the same. */
    function Read(): Option<T> {
      match this
      case Defined(v) => Some(v)
      case _ => None
    }
  }

  /** `{ ...base, ...over }` for one property. */
  function Spread<T>(base: Field<T>, over: Field<T>): (r: Field<T>)
    ensures over.Present() ==> r == over
    ensures !over.Present() ==> r == base
  {
    if over.Absent? then base else over
  }

  /** A string is truthy in JavaScript iff it is not empty. */
  predicate Truthy(s: Option<string>) {
    s.Some? && s.value != ""
  }

  /** `s || fallback` for an optional string. */
  function OrElse(s: Option<string>, fallback: string): (r: string)
    ensures Truthy(s) ==> r == s.value
    ensures !Truthy(s) ==> r == fallback
  {
    if Truthy(s) then s.value else fallback
  }
}
