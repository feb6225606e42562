/** Fixed-width machine words of the emulator: `uint8` and `uint16`, with the
    wrap-around that C++ applies when a wider result is stored back into them,
    and the bitwise operators on bytes, defined binary digit by binary digit. */
module Words {

  /** An unsigned 8-bit value (`uint8`). */
  type u8 = x: int | 0 <= x < 0x100

  /** An unsigned 16-bit value (`uint16`). */
  type u16 = x: int | 0 <= x < 0x1_0000

  /** An unsigned 32-bit value (`uint`), used for elapsed microseconds. */
  type u32 = x: int | 0 <= x < 0x1_0000_0000

  /** Storing an `int` into a `uint8`: reduction modulo 256, also for negative values. */
  function Wrap8(x: int): (r: u8)
    ensures x - r == 0x100 * ((x - r) / 0x100)
    ensures 0 <= x < 0x100 ==> r == x
  {
    x % 0x100
  }

  /** Storing an `int` into a `uint16`: reduction modulo 65536. */
  function Wrap16(x: int): (r: u16)
    ensures x - r == 0x1_0000 * ((x - r) / 0x1_0000)
    ensures 0 <= x < 0x1_0000 ==> r == x
  {
    x % 0x1_0000
  }

  /** Storing an `int` into a `uint` (32 bits), as the elapsed-time computation does. */
  function Wrap32(x: int): (r: u32)
    ensures x - r == 0x1_0000_0000 * ((x - r) / 0x1_0000_0000)
    ensures 0 <= x < 0x1_0000_0000 ==> r == x
  {
    x % 0x1_0000_0000
  }

  /** A byte has eight binary digits. */
  const ByteWidth: nat := 8

  function Pow2(n: nat): (p: nat)
    ensures p >= 1
  {
    if n == 0 then 1 else 2 * Pow2(n - 1)
  }

  /** Bitwise `|` on the low `n` binary digits, least significant first. */
  function OrBits(a: nat, b: nat, n: nat): (r: nat)
    ensures r < Pow2(n)
  {
    if n == 0 then 0
    else 2 * OrBits(a / 2, b / 2, n - 1) + (if a % 2 == 1 || b % 2 == 1 then 1 else 0)
  }

  /** Bitwise `&` on the low `n` binary digits. */
  function AndBits(a: nat, b: nat, n: nat): (r: nat)
    ensures r < Pow2(n)
  {
    if n == 0 then 0
    else 2 * AndBits(a / 2, b / 2, n - 1) + (if a % 2 == 1 && b % 2 == 1 then 1 else 0)
  }

  /** Bitwise `^` on the low `n` binary digits. */
  function XorBits(a: nat, b: nat, n: nat): (r: nat)
    ensures r < Pow2(n)
  {
    if n == 0 then 0
    else 2 * XorBits(a / 2, b / 2, n - 1) + (if a % 2 != b % 2 then 1 else 0)
  }

  lemma BytePower()
    ensures Pow2(ByteWidth) == 0x100
  {
  }

  /** Bitwise `|` of two bytes. */
  function Or8(a: u8, b: u8): u8 {
    BytePower();
    OrBits(a, b, ByteWidth)
  }

  /** Bitwise `&` of two bytes. */
  function And8(a: u8, b: u8): u8 {
    BytePower();
    AndBits(a, b, ByteWidth)
  }

  /** Bitwise `^` of two bytes. */
  function Xor8(a: u8, b: u8): u8 {
    BytePower();
    XorBits(a, b, ByteWidth)
  }

  /** Masking never sets a digit the mask does not have: `a & b <= b`. */
  lemma {:induction false} AndBitsAtMost(a: nat, b: nat, n: nat)
    requires b < Pow2(n)
    ensures AndBits(a, b, n) <= b
  {
    if n > 0 {
      AndBitsAtMost(a / 2, b / 2, n - 1);
    }
  }

  /** `|` keeps every digit of both operands, so it is at least each of them. */
  lemma {:induction false} OrBitsAtLeast(a: nat, b: nat, n: nat)
    requires a < Pow2(n) && b < Pow2(n)
    ensures OrBits(a, b, n) >= a && OrBits(a, b, n) >= b
  {
    if n > 0 {
      OrBitsAtLeast(a / 2, b / 2, n - 1);
    }
  }

  /** XOR with the same value twice gives back the low `n` digits. */
  lemma {:induction false} XorBitsTwice(a: nat, b: nat, n: nat)
    requires a < Pow2(n)
    ensures XorBits(XorBits(a, b, n), b, n) == a
  {
    if n > 0 {
      var c := XorBits(a, b, n);
      assert c / 2 == XorBits(a / 2, b / 2, n - 1) && c % 2 == (if a % 2 != b % 2 then 1 else 0);
      XorBitsTwice(a / 2, b / 2, n - 1);
    }
  }

  /** `VX & NN` is at most `NN`, and at most `VX`. */
  lemma AndBounded(a: u8, b: u8)
    ensures And8(a, b) <= b && And8(a, b) <= a
  {
    BytePower();
    AndBitsAtMost(a, b, ByteWidth);
    AndBitsAtMost(b, a, ByteWidth);
    AndBitsCommute(a, b, ByteWidth);
  }

  lemma {:induction false} AndBitsCommute(a: nat, b: nat, n: nat)
    ensures AndBits(a, b, n) == AndBits(b, a, n)
  {
    if n > 0 {
      AndBitsCommute(a / 2, b / 2, n - 1);
    }
  }

  /** `VX | VY` is at least `VX` and at least `VY`. */
  lemma OrCovers(a: u8, b: u8)
    ensures Or8(a, b) >= a && Or8(a, b) >= b
  {
    BytePower();
    OrBitsAtLeast(a, b, ByteWidth);
  }

  /** XOR with the same byte twice gives the first byte back. */
  lemma XorInvolution(a: u8, b: u8)
    ensures Xor8(Xor8(a, b), b) == a
  {
    BytePower();
    XorBitsTwice(a, b, ByteWidth);
  }
}
