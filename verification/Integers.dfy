/** Fixed-width integer arithmetic of C++. */
module Integers {

  const UINT: nat := 0x1_0000_0000

  predicate IsInt32(x: int) {
    -0x8000_0000 <= x < 0x8000_0000
  }

  // An int variable holding x.
  function ToInt32(x: int): (r: int)
    ensures IsInt32(r) && (IsInt32(x) ==> r == x)
  {
    (x + 0x8000_0000) % UINT - 0x8000_0000
  }

  // An unsigned variable holding x.
  function ToUnsigned(x: int): nat {
    x % UINT
  }

  // Division truncates towards zero.
  function Quotient(a: int, n: nat): int
    requires n > 0
  {
    if a >= 0 then a / n else -((-a) / n)
  }
}
