/** Addresses of the dispatcher's objects and its machine integers. */
module Ids {
  /** The address of a connection object; an address is never used twice. */
  type ConnId = nat

  /** The address of a send request. */
  type ReqId = nat

  const TWO_TO_THE_32: nat := 0x1_0000_0000

  type uint32 = n: int | 0 <= n < 0x1_0000_0000

  /** What an unsigned 32-bit register keeps of `n`. */
  function Wrap(n: int): uint32
  {
    n % 0x1_0000_0000
  }

  lemma WrapFits(n: nat)
    requires n < TWO_TO_THE_32
    ensures Wrap(n) == n
  {
  }
}
