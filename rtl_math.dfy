/** The small arithmetic helpers the motor code borrows from its support
    libraries: `SIGN`, `abs` and Arduino's `constrain`. */
module RtlMath {

  /** The sign of `x` as -1, 0 or 1. */
  function Sign(x: int): (s: int)
    ensures s == -1 || s == 0 || s == 1
    ensures s == 1 <==> x > 0
    ensures s == -1 <==> x < 0
  {
    if x > 0 then 1 else if x < 0 then -1 else 0
  }

  /** The magnitude of `x`. */
  function Abs(x: int): (a: nat)
    ensures a == x || a == -x
  {
    if x < 0 then -x else x
  }

  /** `x` limited to the range [lo, hi]. */
  function Clamp(x: int, lo: int, hi: int): (c: int)
    requires lo <= hi
    ensures lo <= c <= hi
    ensures lo <= x <= hi ==> c == x
    ensures x < lo ==> c == lo
    ensures x > hi ==> c == hi
  {
    if x < lo then lo else if x > hi then hi else x
  }

  /** Clamping twice is clamping once. */
  lemma ClampIdempotent(x: int, lo: int, hi: int)
    requires lo <= hi
    ensures Clamp(Clamp(x, lo, hi), lo, hi) == Clamp(x, lo, hi)
  {
  }
}
