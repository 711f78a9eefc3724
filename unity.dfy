/** The few engine value types and Mathf helpers that the diving logic reads.
    Floats are modelled as mathematical reals; IEEE rounding is not modelled. */
module Unity {

  /** A Vector3: only the components are modelled. */
  datatype Vec3 = Vec3(x: real, y: real, z: real)

  /** A Color with red, green, blue and alpha channels. */
  datatype Color = Color(r: real, g: real, b: real, a: real)

  /** Mathf.Max for two floats: the first argument when it is strictly larger, else the second. */
  function Max(a: real, b: real): (m: real)
    ensures m >= a && m >= b
    ensures m == a || m == b
  {
    if a > b then a else b
  }

  /** Mathf.Clamp: `min` below the range, `max` above it, the value itself inside it.
      When min > max the result is still one of the three, but not inside [min, max]. */
  function Clamp(value: real, min: real, max: real): (c: real)
    ensures min <= max ==> min <= c <= max
    ensures min <= value <= max ==> c == value
    ensures value < min ==> c == min
    ensures min <= value && value > max ==> c == max
    ensures c == value || c == min || c == max
  {
    if value < min then min
    else if value > max then max
    else value
  }

  /** Mathf.Clamp never decreases when its value argument grows. */
  lemma ClampMonotone(v1: real, v2: real, min: real, max: real)
    requires v1 <= v2 && min <= max
    ensures Clamp(v1, min, max) <= Clamp(v2, min, max)
  {
  }
}
