/** The integer types of C++ on the machines the program runs on. */
module Integers {

  const MAX_INT := 0x7FFF_FFFF
  const MAX_SIZE_T := 0xFFFF_FFFF_FFFF_FFFF

  /** An int expression that may have overflown, or a number that is narrowed to an int. */
  function Wrap32(x: int): int {
    (x + 0x8000_0000) % 0x1_0000_0000 - 0x8000_0000
  }

  /** Narrowing keeps exactly the numbers that fit, and makes all larger ones smaller. */
  lemma NarrowingKeeps(n: nat)
    ensures Wrap32(n) == n <==> n <= MAX_INT
    ensures Wrap32(n) <= MAX_INT && (n > MAX_INT ==> Wrap32(n) < n)
  {
  }
}
