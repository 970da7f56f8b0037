/** Stock types, decimal rounding and small arithmetic facts shared by every module. */
module Common {

  datatype Option<+T> = None | Some(value: T) {
    function GetOr(default: T): T {
      match this
      case Some(v) => v
      case None => default
    }
  }

  function Max(a: int, b: int): int {
    if a >= b then a else b
  }

  function Min(a: int, b: int): int {
    if a <= b then a else b
  }

  function Abs(a: int): nat {
    if a >= 0 then a else -a
  }

  /** `n` is a nearest integer to `num / den`: off by at most one half. */
  predicate IsNearest(n: int, num: int, den: int)
    requires den > 0
  {
    -den <= 2 * (n * den - num) <= den
  }

  /** `num / den` to the nearest integer, halves away from zero: what `toFixed` does in the last kept digit. */
  function Round(num: int, den: int): (n: int)
    requires den > 0
    ensures IsNearest(n, num, den)
    ensures num >= 0 ==> n >= 0
  {
    if num >= 0 then
      RoundUpHalf(num, den)
    else
      -RoundUpHalf(-num, den)
  }

  function RoundUpHalf(num: int, den: int): (n: int)
    requires num >= 0 && den > 0
    ensures n >= 0 && IsNearest(n, num, den)
  {
    var n := (2 * num + den) / (2 * den);
    var rest := (2 * num + den) % (2 * den);
    assert 2 * num + den == (2 * den) * n + rest;
    assert (2 * den) * n == 2 * (n * den);
    n
  }

  lemma RoundAtMost(num: nat, den: int, bound: nat)
    requires den > 0 && num <= bound * den
    ensures Round(num, den) <= bound
  {
    var n := Round(num, den);
    if n > bound {
      TimesMonotone(bound + 1, n, den);
      assert false;
    }
  }

  lemma TimesMonotone(a: int, b: int, c: nat)
    requires a <= b
    ensures a * c <= b * c
  {
  }
}
