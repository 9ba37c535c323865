/** The `constexpr int pow(base, exp)` of item 15: a counting loop that
    multiplies an accumulator `exp` times. */
module ConstexprPow {

  /** Reference definition of base raised to a natural exponent. */
  function Power(base: int, exp: nat): int
  {
    if exp == 0 then 1 else base * Power(base, exp - 1)
  }

  /** The loop of `pow`: `result` starts at 1 and is multiplied by `base` once
      for every `i` in [0, exp). A negative exponent skips the loop. */
  method Pow(base: int, exp: int) returns (result: int)
    ensures exp <= 0 ==> result == 1
    ensures exp >= 0 ==> result == Power(base, exp)
  {
    result := 1;
    var i := 0;
    while i < exp
      invariant 0 <= i <= if exp < 0 then 0 else exp
      invariant result == Power(base, i)
    {
      result := result * base;
      i := i + 1;
    }
  }

  /** `std::array<int, pow(2, n)>` with `n == 3`: the extent is 8. */
  method ArrayExtent() returns (extent: int)
    ensures extent == 8
  {
    extent := Pow(2, 3);
  }
}
