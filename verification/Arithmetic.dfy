/** Powers of real numbers. */
module Arithmetic {
  function Power(base: real, n: nat): real {
    if n == 0 then 1.0 else Power(base, n - 1) * base
  }

  lemma NextPower(base: real, n: nat, x: real)
    requires n > 0
    ensures Power(base, n) * x == base * (Power(base, n - 1) * x)
  {
    var p := Power(base, n - 1);
    assert p * base * x == base * (p * x);
  }
}
