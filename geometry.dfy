/** Points, BGR colours and the integer arithmetic shared by both pipeline stages. */
module Geometry {

  /** An image coordinate: `x` is the column, `y` the row (OpenCV's convention). */
  datatype Point = Point(x: int, y: int)

  /** A three-channel pixel value in OpenCV's BGR channel order. */
  datatype Color = Color(b: int, g: int, r: int)

  const BLACK: Color := Color(0, 0, 0)

  /** Python's `int(n / 100)` computed exactly: the rational n/100 truncated toward zero
      (not floored, so -1475/100 gives -14). */
  function TruncHundredths(n: int): (q: int)
    ensures n >= 0 ==> 0 <= q && 100 * q <= n < 100 * q + 100
    ensures n < 0 ==> q <= 0 && 100 * q - 100 < n <= 100 * q
  {
    if n >= 0 then n / 100 else -((-n) / 100)
  }

  /** Truncation toward zero never decreases when the numerator grows. */
  lemma TruncHundredthsMonotonic(m: int, n: int)
    requires m <= n
    ensures TruncHundredths(m) <= TruncHundredths(n)
  {
    var qm, qn := TruncHundredths(m), TruncHundredths(n);
    if n < 0 {
      assert 100 * qm - 100 < m <= n <= 100 * qn;
    } else if m >= 0 {
      assert 100 * qm <= m <= n < 100 * qn + 100;
    }
  }

  /** A whole number of hundredths loses nothing to truncation. */
  lemma TruncHundredthsExact(a: int)
    ensures TruncHundredths(100 * a) == a
  {
  }
}
