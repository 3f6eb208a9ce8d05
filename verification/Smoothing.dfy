// Exponential smoothing in closed form: every value weighs in by a power of the time since.

module Smoothing {

  function Power(x: real, n: nat): real {
    if n == 0 then 1.0 else x * Power(x, n - 1)
  }

  function Blend(alpha: real, x: real, y: real): real {
    alpha * x + (1.0 - alpha) * y
  }

  // The share of a value after n further ones.
  function Share(alpha: real, n: nat, x: real): real {
    alpha * Power(1.0 - alpha, n) * x
  }

  // The sum of the shares of all values.
  function Shares(xs: seq<real>, alpha: real): real {
    if xs == [] then 0.0 else Share(alpha, |xs| - 1, xs[0]) + Shares(xs[1..], alpha)
  }

  // The first value counts in full, and fades; every later one adds its share.
  function Smoothed(xs: seq<real>, alpha: real): real {
    if xs == [] then 0.0 else Power(1.0 - alpha, |xs| - 1) * xs[0] + Shares(xs[1..], alpha)
  }

  lemma ShareFades(alpha: real, n: nat, x: real)
    ensures Share(alpha, n + 1, x) == (1.0 - alpha) * Share(alpha, n, x)
  {
    var p, beta := Power(1.0 - alpha, n), 1.0 - alpha;
    assert alpha * (beta * p) * x == beta * (alpha * p * x);
  }

  lemma Distributes(a: real, x: real, y: real)
    ensures a * (x + y) == a * x + a * y
  {
  }

  lemma {:induction false} SharesOneMore(xs: seq<real>, x: real, alpha: real)
    ensures Shares(xs + [x], alpha) == Blend(alpha, x, Shares(xs, alpha))
    decreases |xs|
  {
    if xs == [] {
      assert xs + [x] == [x] && [x][1..] == [];
      assert Share(alpha, 0, x) == alpha * x;
    } else {
      assert (xs + [x])[1..] == xs[1..] + [x];
      SharesOneMore(xs[1..], x, alpha);
      ShareFades(alpha, |xs| - 1, xs[0]);
      Distributes(1.0 - alpha, Share(alpha, |xs| - 1, xs[0]), Shares(xs[1..], alpha));
    }
  }

  lemma Fades(beta: real, n: nat, x: real)
    ensures Power(beta, n + 1) * x == beta * (Power(beta, n) * x)
  {
    var p := Power(beta, n);
    assert beta * p * x == beta * (p * x);
  }

  // Smoothing one more value blends it with what came before.
  lemma SmoothedOneMore(xs: seq<real>, x: real, alpha: real)
    ensures Smoothed(xs + [x], alpha) == if xs == [] then x else Blend(alpha, x, Smoothed(xs, alpha))
  {
    if xs == [] {
      assert xs + [x] == [x] && [x][1..] == [];
    } else {
      assert (xs + [x])[1..] == xs[1..] + [x];
      SharesOneMore(xs[1..], x, alpha);
      Fades(1.0 - alpha, |xs| - 1, xs[0]);
      Distributes(1.0 - alpha, Power(1.0 - alpha, |xs| - 1) * xs[0], Shares(xs[1..], alpha));
    }
  }

  // A blend lies between its two values

  lemma Portion(alpha: real, d: real)
    requires 0.0 <= alpha <= 1.0 && 0.0 <= d
    ensures 0.0 <= alpha * d <= d
  {
  }

  lemma BlendUpwards(alpha: real, x: real, d: real)
    requires 0.0 <= alpha <= 1.0 && 0.0 <= d
    ensures x <= Blend(alpha, x, x + d) <= x + d
  {
    Portion(alpha, d);
    assert Blend(alpha, x, x + d) == x + d - alpha * d;
  }

  lemma BlendDownwards(alpha: real, x: real, d: real)
    requires 0.0 <= alpha <= 1.0 && 0.0 <= d
    ensures x <= Blend(alpha, x + d, x) <= x + d
  {
    Portion(alpha, d);
    assert Blend(alpha, x + d, x) == x + alpha * d;
  }

  lemma BlendIsBetween(alpha: real, x: real, y: real)
    requires 0.0 <= alpha <= 1.0
    ensures x <= Blend(alpha, x, y) <= y || y <= Blend(alpha, x, y) <= x
  {
    if x <= y { BlendUpwards(alpha, x, y - x); } else { BlendDownwards(alpha, y, x - y); }
  }
}
