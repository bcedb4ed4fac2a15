/** Option and result types, and exact real arithmetic shared by every module. */
module Prelude {

  datatype Option<+T> = None | Some(value: T)

  datatype Result<+T, +E> = Ok(value: T) | Err(error: E)

  function Abs(x: real): real {
    if x < 0.0 then -x else x
  }

  function Min(x: real, y: real): real {
    if y < x then y else x
  }

  function Max(x: real, y: real): real {
    if y > x then y else x
  }

  function MinInt(x: int, y: int): int {
    if y < x then y else x
  }

  function MaxInt(x: int, y: int): int {
    if y > x then y else x
  }

  /** Integer nanoseconds as exact seconds. */
  function Seconds(ns: int): real {
    ns as real / 1000000000.0
  }

  lemma SecondsMonotone(a: int, b: int)
    ensures a < b <==> Seconds(a) < Seconds(b)
    ensures a <= b <==> Seconds(a) <= Seconds(b)
    ensures 0 < a <==> 0.0 < Seconds(a)
    ensures Seconds(b - a) == Seconds(b) - Seconds(a)
  {
  }

  /** What the code uses of `math.sqrt` on nonnegative arguments. */
  ghost predicate IsSqrt(sqrt: real -> real) {
    forall x: real :: x >= 0.0 ==> sqrt(x) >= 0.0 && sqrt(x) * sqrt(x) == x
  }

  lemma ProductPositive(x: real, y: real)
    requires x > 0.0 && y > 0.0
    ensures x * y > 0.0
  {
  }

  /** Only zero has a zero square; stated over a named product, which suits the solver better. */
  lemma ZeroSquare(x: real, square: real)
    requires square == x * x && square == 0.0
    ensures x == 0.0
  {
    if x > 0.0 {
      NamedProductPositive(x, x, square);
    } else if x < 0.0 {
      NamedProductPositive(-x, -x, square);
    }
  }

  lemma NamedProductPositive(x: real, y: real, product: real)
    requires x > 0.0 && y > 0.0 && product == x * y
    ensures product > 0.0
  {
  }

  lemma ProductOrder(k: real, x: real, y: real)
    requires k >= 0.0 && x <= y
    ensures k * x <= k * y
  {
  }

  /** Squaring is strictly monotone on nonnegative reals. */
  lemma SquareOrder(x: real, y: real)
    requires x >= 0.0 && y >= 0.0
    ensures x <= y <==> x * x <= y * y
  {
    if x <= y {
      ProductOrder(x, x, y);
      ProductOrder(y, x, y);
    } else {
      ProductPositive(x - y, x + y);
      assert (x - y) * (x + y) == x * x - y * y;
    }
  }
}
