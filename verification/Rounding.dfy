/**
 Rounding to a number of decimals, ties to the even digit, as Python's `round` does.

 Over the reals: the value that is rounded is exact, where Python rounds the binary float that
 stands for it.
 */
module Rounding {
  function RoundInt(x: real): int {
    var f := x.Floor;
    var d := x - f as real;
    if d < 0.5 then f
    else if d > 0.5 then f + 1
    else if f % 2 == 0 then f
    else f + 1
  }

  function Round1(x: real): real {
    RoundInt(x * 10.0) as real / 10.0
  }

  function Round2(x: real): real {
    RoundInt(x * 100.0) as real / 100.0
  }

  lemma {:induction false} RoundMonotone(x: real, y: real)
    requires x <= y
    ensures RoundInt(x) <= RoundInt(y)
  {
    assert x.Floor <= y.Floor;
    if x.Floor < y.Floor { assert x.Floor + 1 <= y.Floor; }
  }

  lemma {:induction false} RoundExact(n: int)
    ensures RoundInt(n as real) == n
  {
  }

  lemma {:induction false} RoundNear(x: real)
    ensures -0.5 <= RoundInt(x) as real - x <= 0.5
  {
  }

  // Rounding down and up mirror each other.
  lemma {:induction false} RoundOdd(x: real)
    ensures RoundInt(-x) == -RoundInt(x)
  {
    var f := x.Floor;
    if x == f as real {
      RoundExact(f);
      RoundExact(-f);
    } else {
      assert (-x).Floor == -f - 1 by { FloorNegated(x); }
    }
  }

  lemma {:induction false} FloorNegated(x: real)
    requires x != x.Floor as real
    ensures (-x).Floor == -x.Floor - 1
  {
    var g := (-x).Floor;
    assert g as real <= -x < g as real + 1.0;
    assert x.Floor as real < x < x.Floor as real + 1.0;
  }

  lemma {:induction false} Round1Monotone(x: real, y: real)
    requires x <= y
    ensures Round1(x) <= Round1(y)
  {
    RoundMonotone(x * 10.0, y * 10.0);
  }

  lemma {:induction false} Round1Tenths(n: int)
    ensures Round1(n as real / 10.0) == n as real / 10.0
  {
    assert n as real / 10.0 * 10.0 == n as real;
    RoundExact(n);
  }

  lemma {:induction false} Round2Odd(x: real)
    ensures Round2(-x) == -Round2(x)
  {
    assert (-x) * 100.0 == -(x * 100.0);
    RoundOdd(x * 100.0);
  }
}
