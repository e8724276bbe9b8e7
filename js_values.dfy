/** Values as the gauge receives them from JavaScript callers. */
module JsValues {

  datatype Option<+T> = None | Some(value: T) {
    function GetOr(default: T): T {
      match this
      case Some(v) => v
      case None => default
    }
  }

  datatype Result<+R, +E> = Success(value: R) | Failure(error: E)

  /** A numeric configuration field: absent (`undefined`), present but not
      numeric (a string such as 'invalid', or NaN itself), or a number.
      `isNaN` holds of the first two. */
  datatype Field<+T> = Undefined | NotANumber | Num(v: T) {
    predicate IsNaN() { !Num? }
  }

  /** `x !== undefined ? x : d`, for a field already known to be numeric when
      present: a given value is kept, zero included. */
  function Given(f: Field<real>, d: real): (r: real)
    requires !f.NotANumber?
    ensures f.Num? ==> r == f.v
    ensures f.Undefined? ==> r == d
  {
    match f
    case Num(v) => v
    case _ => d
  }

  /** `x || d`: the default replaces every falsy value, so it differs from
      `Given` exactly on a given 0. */
  function OrElse(f: Field<real>, d: real): (r: real)
    requires !f.NotANumber?
    ensures r == if f == Num(0.0) then d else Given(f, d)
  {
    match f
    case Num(v) => if v != 0.0 then v else d
    case _ => d
  }

  /** A CSS colour string. */
  type Color = string

  /** The easing curve handed to the needle's transition; the curves themselves are not modelled. */
  datatype Ease = EaseElastic | EaseOther(name: string)
}
