/** `Number.prototype.toFixed(1)` read back as a number (`parseFloat`, or
    the implicit conversion JavaScript applies when a `toFixed` string is
    compared with a number). Values are exact rationals here; the result is
    the multiple of 0.1 nearest to the input, ties going away from zero, as
    the ECMAScript definition of `toFixed` prescribes for the value it is
    given. */
module Rounding {
  import opened Seqs

  /** Round a non-negative value to tenths, ties upwards. */
  function RoundMagnitude(x: real): real
    requires x >= 0.0
  {
    ((x * 10.0 + 0.5).Floor as real) / 10.0
  }

  /** `parseFloat(x.toFixed(1))`. */
  function RoundTenth(x: real): real
  {
    if x < 0.0 then -RoundMagnitude(-x) else RoundMagnitude(x)
  }

  /** The rounded value is within half a tenth of the input. */
  lemma RoundTenthClose(x: real)
    ensures x - 0.05 < RoundTenth(x) <= x + 0.05 || (x < 0.0 && x - 0.05 <= RoundTenth(x) < x + 0.05)
  {
  }

  /** Rounding never reverses the order of two values. */
  lemma RoundTenthMonotone(x: real, y: real)
    requires x <= y
    ensures RoundTenth(x) <= RoundTenth(y)
  {
    if 0.0 <= x {
      FloorMonotone(x * 10.0 + 0.5, y * 10.0 + 0.5);
    } else if y < 0.0 {
      FloorMonotone(-y * 10.0 + 0.5, -x * 10.0 + 0.5);
    }
  }

  lemma FloorMonotone(a: real, b: real)
    requires a <= b
    ensures a.Floor <= b.Floor
  {
  }

  /** Whole numbers are left as they are. */
  lemma RoundTenthInteger(k: int)
    ensures RoundTenth(k as real) == k as real
  {
    if k < 0 {
      assert ((-k) as real * 10.0 + 0.5).Floor == -k * 10;
    } else {
      assert (k as real * 10.0 + 0.5).Floor == k * 10;
    }
  }

  /** Non-negative values stay non-negative, and only values below 0.05
      round to zero. */
  lemma RoundTenthNonNegative(x: real)
    requires x >= 0.0
    ensures RoundTenth(x) >= 0.0
    ensures RoundTenth(x) == 0.0 <==> x < 0.05
  {
  }

  /** Values in `[lo, hi]` with integer bounds round into `[lo, hi]`. */
  lemma RoundTenthWithin(x: real, lo: int, hi: int)
    requires lo as real <= x <= hi as real
    ensures lo as real <= RoundTenth(x) <= hi as real
  {
    RoundTenthMonotone(lo as real, x);
    RoundTenthMonotone(x, hi as real);
    RoundTenthInteger(lo);
    RoundTenthInteger(hi);
  }

  /** `(k / n * 100).toFixed(1)` read as a number: a share of `n`, in
      percent, rounded to tenths. */
  function Percentual(k: nat, n: nat): real
    requires n > 0
  {
    RoundTenth(k as real / n as real * 100.0)
  }

  /** A share of at most the whole is a percentage: 100 for the whole, 0 for
      nothing. */
  lemma PercentualLimites(k: nat, n: nat)
    requires n > 0
    ensures k <= n ==> 0.0 <= Percentual(k, n) <= 100.0
    ensures k == n ==> Percentual(k, n) == 100.0
    ensures k == 0 ==> Percentual(k, n) == 0.0
  {
    var share := k as real / n as real;
    if k <= n {
      DivideBounds(k as real, n as real, 0.0, 1.0);
      RoundTenthWithin(share * 100.0, 0, 100);
    }
    if k == n {
      DivideBounds(k as real, n as real, 1.0, 1.0);
      RoundTenthInteger(100);
    }
    if k == 0 {
      RoundTenthInteger(0);
    }
  }

  /** Below 2000 readings a single reading out of range already keeps the
      rounded share under 100. */
  lemma PercentualAbaixoDeCem(k: nat, n: nat)
    requires 0 < n < 2000 && k < n
    ensures Percentual(k, n) < 100.0
  {
    var share := k as real / n as real;
    DivideBounds(k as real, n as real, 0.0, 1998.0 / 1999.0);
    assert (share * 100.0 * 10.0 + 0.5).Floor <= 999;
  }

  /** From 2000 readings on, one reading out of range rounds away: the
      share prints as 100.0. */
  lemma PercentualArredondaParaCem(n: nat)
    requires n >= 2000
    ensures Percentual(n - 1, n) == 100.0
  {
    var share := (n - 1) as real / n as real;
    DivideBounds((n - 1) as real, n as real, 0.9995, 1.0);
    assert (share * 100.0 * 10.0 + 0.5).Floor == 1000;
  }
}
