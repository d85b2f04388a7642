/** The bits of a byte. Kept apart, because bit vectors are cheap to reason about only where
    little else is in scope. */
module Bits {

  /** The bit vector with the value `b`. */
  function Of(b: int): (x: bv8)
    requires 0 <= b < 256
    ensures x as int == b
  {
    if b == 0 then 0
    else
      Increment(Of(b - 1));
      Of(b - 1) + 1
  }

  lemma Increment(x: bv8)
    requires x as int < 255
    ensures (x + 1) as int == x as int + 1
  {
  }
}
