/** The C++ unsigned integer types the constants are written in, with their wrap-around. */
module Uints {

  /** `unsigned int` */
  newtype uint32 = x: int | 0 <= x < 0x1_0000_0000

  /** `uint64_t` */
  newtype uint64 = x: int | 0 <= x < 0x1_0000_0000_0000_0000

  /** `std::numeric_limits<uint64_t>::max()` */
  const Uint64Max: uint64 := 0xFFFF_FFFF_FFFF_FFFF

  function Pow2(n: nat): nat
  {
    if n == 0 then 1 else 2 * Pow2(n - 1)
  }

  lemma {:induction false} Pow2Add(a: nat, b: nat)
    ensures Pow2(a + b) == Pow2(a) * Pow2(b)
  {
    if a > 0 {
      Pow2Add(a - 1, b);
    }
  }

  /** The powers of two the constants are built from. */
  lemma Pow2Values()
    ensures Pow2(17) == 0x2_0000
    ensures Pow2(62) == 0x4000_0000_0000_0000
    ensures Pow2(64) == 0x1_0000_0000_0000_0000
  {
    assert Pow2(4) == 16;
    Pow2Add(4, 4);
    Pow2Add(8, 8);
    Pow2Add(16, 1);
    Pow2Add(16, 16);
    Pow2Add(32, 30);
    Pow2Add(32, 32);
  }

  /** `x << n` on `unsigned int`: the bits shifted past bit 31 are lost. */
  function ShiftLeftU32(x: uint32, n: nat): uint32
    requires n < 32
  {
    ((x as int * Pow2(n)) % 0x1_0000_0000) as uint32
  }
}
