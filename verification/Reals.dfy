/** Small arithmetic vocabulary over `real` shared by the models. */
module Reals {
  function Min(x: real, y: real): real {
    if x <= y then x else y
  }

  function Max(x: real, y: real): real {
    if x >= y then x else y
  }

  function Abs(x: real): real {
    if x < 0.0 then -x else x
  }

  /** Multiplying an inequality by a nonnegative factor. */
  lemma {:induction false} MulMono(c: real, x: real, y: real)
    requires 0.0 <= c
    requires x <= y || c == 0.0
    ensures c * x <= c * y
  {
    if c != 0.0 {
      assert 0.0 <= c * (y - x);
    }
  }
}
