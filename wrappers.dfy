/** Failure-compatible and optional-value datatypes shared by every module. */
module Wrappers {

  /** A local optional value: TypeScript's `T | undefined` after normalisation. */
  datatype Option<+T> = Absent | Present(value: T) {
    function GetOr(default: T): (r: T)
      ensures Present? ==> r == value
      ensures Absent? ==> r == default
    {
      match this
      case Present(v) => v
      case Absent => default
    }

    /** The wire form of an optional value: absent is omitted. */
    function Omitted(): (r: Nullable<T>)
      ensures r.OrAbsent() == this
    {
      match this
      case Present(v) => Defined(v)
      case Absent => Undefined
    }
  }

  /**
   * A wire value that the service may omit (`undefined`), send as `null`,
   * or send with a value.
   */
  datatype Nullable<+T> = Undefined | Null | Defined(value: T) {
    /** Nullish means `=== undefined || === null`. */
    predicate IsNullish() {
      Undefined? || Null?
    }

    /** `value ?? undefined`: both nullish forms collapse to absent. */
    function OrAbsent(): (r: Option<T>)
      ensures r.Absent? <==> IsNullish()
      ensures Defined? ==> r == Present(value)
    {
      match this
      case Defined(v) => Present(v)
      case _ => Absent
    }
  }

  /** A value or a thrown error. */
  datatype Result<+R, +E> = Success(value: R) | Failure(error: E) {
    predicate IsFailure() {
      Failure?
    }

    function PropagateFailure<U>(): Result<U, E>
      requires Failure?
    {
      Failure(error)
    }

    function Extract(): R
      requires Success?
    {
      value
    }
  }
}
