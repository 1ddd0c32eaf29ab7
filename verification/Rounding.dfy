/** Python's `round(x, 4)` and `round(x, 6)` on exact reals, ties to even. */
module Rounding {

  /** The integer nearest to `y`, ties to the even one. */
  function Nearest(y: real): (n: int)
    ensures -0.5 <= n as real - y <= 0.5
  {
    var f := y.Floor;
    var d := y - f as real;
    if d < 0.5 || (d == 0.5 && f % 2 == 0) then f else f + 1
  }

  lemma TiesAreEven(y: real)
    ensures y - y.Floor as real == 0.5 ==> Nearest(y) % 2 == 0
  {
  }

  function Round4(x: real): real {
    Nearest(x * 10000.0) as real / 10000.0
  }

  function Round6(x: real): real {
    Nearest(x * 1000000.0) as real / 1000000.0
  }

  /** Rounding never leaves an interval whose ends are integers. */
  lemma Round4Within(x: real, lo: int, hi: int)
    requires lo as real <= x <= hi as real
    ensures lo as real <= Round4(x) <= hi as real
  {
    assert lo * 10000 <= Nearest(x * 10000.0) <= hi * 10000;
  }

  lemma Round6Within(x: real, lo: int, hi: int)
    requires lo as real <= x <= hi as real
    ensures lo as real <= Round6(x) <= hi as real
  {
    assert lo * 1000000 <= Nearest(x * 1000000.0) <= hi * 1000000;
  }

  /** Rounding finds a multiple of 1/10000 no further than half of one away, and keeps the order of numbers. */
  lemma Round4Nears(x: real)
    ensures x - 0.00005 <= Round4(x) <= x + 0.00005 && Round4(x) * 10000.0 == Nearest(x * 10000.0) as real
  {
  }

  lemma Round4Keeps(x: real, y: real)
    requires x <= y
    ensures Round4(x) <= Round4(y)
  {
    var a, b := x * 10000.0, y * 10000.0;
    assert a.Floor <= b.Floor;
    if a.Floor == b.Floor { assert a - a.Floor as real <= b - b.Floor as real; }
  }
}
