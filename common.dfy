/** Small helpers shared by every module: an optional value, Python's
    integer and floating-point remainder, and cells of a grid world. */
module Common {

  datatype Option<+T> = None | Some(value: T)

  /** The outcome of a call that may raise Python's ValueError. */
  datatype Result<+T> = Ok(value: T) | ValueError(message: string)

  /** Python's `a % b` on integers: the result takes the sign of the divisor
      (Dafny's own `%` is Euclidean, so the two differ when `b < 0`).
      A zero divisor raises ZeroDivisionError in Python, hence the requires. */
  function PyMod(a: int, b: int): (r: int)
    requires b != 0
    ensures b > 0 ==> 0 <= r < b
    ensures b < 0 ==> b < r <= 0
    ensures b > 0 ==> r == a % b
  {
    var e := a % b;
    if b < 0 && e != 0 then e + b else e
  }

  /** The position `xs[i]` reads in a Python list of length `n`: a negative
      index counts from the end. Any other index raises IndexError. */
  function PyIndex(i: int, n: nat): (r: nat)
    requires -(n as int) <= i < n
    ensures r < n
    ensures i >= 0 ==> r == i
    ensures i < 0 ==> r == i + n
  {
    if i < 0 then i + n else i
  }

  /** Python's `a % 360` on a float: `a - 360 * floor(a / 360)`. */
  function Mod360(a: real): (r: real)
    ensures 0.0 <= r < 360.0
    ensures ((a - r) / 360.0).Floor as real == (a - r) / 360.0
  {
    a - 360.0 * (a / 360.0).Floor as real
  }

  /** A grid cell `(x, y)`. */
  type Cell = (int, int)

  /** `0 <= x < width and 0 <= y < height`, the bounds test of every world. */
  predicate InBounds(c: Cell, width: int, height: int)
  {
    0 <= c.0 < width && 0 <= c.1 < height
  }
}
