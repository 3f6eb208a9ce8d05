// The largest finite double, which marks a minimum that was never set.

module Doubles {

  function PowerOfTwo(n: nat): (p: real)
    ensures p >= 1.0
  {
    if n == 0 then 1.0 else 2.0 * PowerOfTwo(n - 1)
  }

  function MaxDouble(): real {
    PowerOfTwo(1024) - PowerOfTwo(971)
  }

  // A finite double, as far as its upper bound goes.
  type Latency = x: real | x <= MaxDouble() witness MaxDouble()

  lemma {:induction false} PowerOfTwoGrows(m: nat, n: nat)
    requires m < n
    ensures PowerOfTwo(m) < PowerOfTwo(n)
    decreases n
  {
    if m < n - 1 { PowerOfTwoGrows(m, n - 1); }
  }

  lemma MaxDoubleIsPositive()
    ensures 0.0 < MaxDouble()
  {
    PowerOfTwoGrows(971, 1024);
  }
}
