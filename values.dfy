/** The values a loaded YAML layer entry holds once its strings have been
    evaluated: integers, floats and anything else, with Python's conversions. */
module Values {

  datatype Option<+T> = None | Some(value: T)

  /** One scalar of a layer entry.
      Int covers Python `int` and `bool` (a `bool` is an `int` in Python);
      Float is a Python `float` with its text form;
      Other is any other value (a string, None, a list): `asInt` is what Python's
      `int(...)` gives for it, or None when that call raises, and `text` is `str(...)`. */
  datatype Scalar =
    | Int(value: int)
    | Float(number: real, text: string)
    | Other(asInt: Option<int>, text: string)

  /** Python's `int(x)` on a float: truncation toward zero. */
  function Trunc(r: real): (t: int)
    ensures r >= 0.0 ==> 0 <= t && t as real <= r < t as real + 1.0
    ensures r < 0.0 ==> t <= 0 && t as real - 1.0 < r <= t as real
  {
    if r >= 0.0 then r.Floor else -((-r).Floor)
  }

  /** Python's `int(x)`, None when the conversion raises. */
  function ToInt(x: Scalar): Option<int> {
    match x
    case Int(v) => Some(v)
    case Float(r, _) => Some(Trunc(r))
    case Other(k, _) => k
  }

  /** Python's `x == 2`: true for the integer 2 and the float 2.0 only. */
  predicate IsTwo(x: Scalar) {
    match x
    case Int(v) => v == 2
    case Float(r, _) => r == 2.0
    case Other(_, _) => false
  }
}
