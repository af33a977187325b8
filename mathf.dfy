/** The few Unity `Mathf` helpers the rules engine uses, on unbounded integers. */
module Mathf {

  /** Mathf.Clamp on ints: below `lo` gives `lo`, above `hi` gives `hi`. */
  function Clamp(x: int, lo: int, hi: int): (r: int)
    ensures lo <= hi ==> lo <= r <= hi
    ensures lo <= x <= hi ==> r == x
  {
    if x < lo then lo else if x > hi then hi else x
  }

  function Max(a: int, b: int): (r: int)
    ensures r >= a && r >= b && (r == a || r == b)
  {
    if a >= b then a else b
  }

  function Min(a: int, b: int): (r: int)
    ensures r <= a && r <= b && (r == a || r == b)
  {
    if a <= b then a else b
  }

  /** C# integer division by a positive divisor: truncates toward zero, so the
      remainder takes the sign of the dividend and the quotient never
      overshoots it in magnitude. */
  function TruncDiv(a: int, d: int): (q: int)
    requires d > 0
    ensures a >= 0 ==> 0 <= q && 0 <= a - d * q < d
    ensures a < 0 ==> q <= 0 && -d < a - d * q <= 0
  {
    if a >= 0 then a / d else -((-a) / d)
  }

  lemma ClampIdempotent(x: int, lo: int, hi: int)
    requires lo <= hi
    ensures Clamp(Clamp(x, lo, hi), lo, hi) == Clamp(x, lo, hi)
  {
  }
}
