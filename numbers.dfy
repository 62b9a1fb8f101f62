/** Real-number helpers: `random.uniform`, `round` and `:.1f` formatting. */
module Numbers {
  import Text

  /** `random.uniform(lo, hi)` given the generator's unit draw `u` (Python computes lo + (hi - lo) * u). */
  function Uniform(lo: real, hi: real, u: real): (r: real)
    requires lo <= hi && 0.0 <= u <= 1.0
    ensures lo <= r <= hi
  {
    var w := hi - lo;
    assert 0.0 <= w * u <= w by {
      assert w * (1.0 - u) >= 0.0;
    }
    lo + w * u
  }

  /** A product of two values bounded below by positive constants. */
  lemma ProductAtLeast(x: real, lx: real, y: real, ly: real)
    requires 0.0 <= lx <= x && 0.0 <= ly <= y
    ensures x * y >= lx * ly
  {
    assert x * y - lx * ly == (x - lx) * y + lx * (y - ly);
  }

  function Min(a: real, b: real): real {
    if a <= b then a else b
  }

  /** `round(x, 1)`, rounding half up. */
  function RoundTenths(x: real): (r: real)
    ensures x - 0.05 < r <= x + 0.05
  {
    ((x * 10.0 + 0.5).Floor as real) / 10.0
  }

  /** `round(x, 2)`, rounding half up. */
  function RoundHundredths(x: real): (r: real)
    ensures x - 0.005 < r <= x + 0.005
  {
    ((x * 100.0 + 0.5).Floor as real) / 100.0
  }

  /** Rounding to two decimals keeps a value inside bounds that have two decimals. */
  lemma RoundHundredthsWithin(x: real, lo: int, hi: int)
    requires lo as real / 100.0 <= x <= hi as real / 100.0
    ensures lo as real / 100.0 <= RoundHundredths(x) <= hi as real / 100.0
  {
    var n := (x * 100.0 + 0.5).Floor;
    assert lo as real <= x * 100.0 + 0.5;
    assert n >= lo;
    assert x * 100.0 + 0.5 < hi as real + 1.0;
    assert n <= hi;
  }

  /** Rounding a positive value to one decimal stays positive once it is at least 0.05. */
  lemma RoundTenthsPositive(x: real)
    requires x >= 0.05
    ensures RoundTenths(x) > 0.0
  {
    assert x * 10.0 + 0.5 >= 1.0;
  }

  /** `f"{x:.1f}"` for a non-negative value, rounding half up. */
  function FormatTenths(x: real): (r: string)
    requires x >= 0.0
    ensures |r| >= 3 && r[|r| - 2] == '.'
    ensures forall i :: 0 <= i < |r| && i != |r| - 2 ==> '0' <= r[i] <= '9'
  {
    var n := (x * 10.0 + 0.5).Floor;
    Text.NatToString(n / 10) + "." + [Text.Digit(n % 10)]
  }

  /** The string `FormatTenths` writes reads back as the value rounded to one decimal. */
  lemma FormatTenthsValue(x: real)
    requires x >= 0.0
    ensures var r := FormatTenths(x);
      (Text.DigitsValue(r[..|r| - 2]) * 10 + (r[|r| - 1] as int - '0' as int)) as real / 10.0 == RoundTenths(x)
  {
    var n := (x * 10.0 + 0.5).Floor;
    var r := FormatTenths(x);
    assert r[..|r| - 2] == Text.NatToString(n / 10);
    Text.NatToStringValue(n / 10);
    assert (n / 10) * 10 + n % 10 == n;
  }
}
