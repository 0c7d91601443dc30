/** Shared helpers: optional values and the absolute value of a real. */
module Prelude {
  datatype Option<+T> = None | Some(value: T)

  function Abs(x: real): real {
    if x < 0.0 then -x else x
  }

  function AbsInt(x: int): nat {
    if x < 0 then -x else x
  }

  lemma ScalingKeepsOrder(x: real, y: real, s: real)
    requires s > 0.0
    ensures x > y ==> x * s > y * s
  {
    if x > y {
      assert (x - y) * s > 0.0;
    }
  }
}
