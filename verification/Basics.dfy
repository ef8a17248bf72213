/** Types and functions that several models share. */
module Basics {

  datatype Option<+T> = None | Some(value: T)

  newtype Byte = x: int | 0 <= x < 256
  type Data = seq<Byte>

  function Max(x: real, y: real): real { if x < y then y else x }
  function Min(x: real, y: real): real { if y < x then y else x }

  function Sum(s: seq<real>): real {
    if s == [] then 0.0 else Sum(s[..|s| - 1]) + s[|s| - 1]
  }

  lemma SumStep(s: seq<real>, x: real)
    ensures Sum(s + [x]) == Sum(s) + x
  {
    assert (s + [x])[..|s|] == s;
  }

  /** What a rate earns in a time. */
  function Earned(rate: real, t: real): real { rate * t }

  lemma EarnedAdds(rate: real, a: real, b: real)
    ensures Earned(rate, a + b) == Earned(rate, a) + Earned(rate, b)
  {
  }

  lemma EarnedGrowsWithTime(rate: real, a: real, b: real)
    requires rate >= 0.0 && a <= b
    ensures Earned(rate, a) <= Earned(rate, b)
  {
    assert rate * (b - a) >= 0.0;
  }

  lemma EarnedGrowsWithRate(low: real, high: real, t: real)
    requires low <= high && t >= 0.0
    ensures Earned(low, t) <= Earned(high, t)
  {
    assert (high - low) * t >= 0.0;
  }
}
