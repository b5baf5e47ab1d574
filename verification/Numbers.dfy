/** Bytes, fixed-width integers and the bit operations of source/common/bits.hpp on
    natural numbers. A left shift doubles k times, a mask of k ones is a remainder modulo
    Shl(1, k), and `|` is the bit-by-bit Or below. */
module Numbers {

  datatype Option<+T> = None | Some(value: T)

  type Byte = b: int | 0 <= b < 256
  type Bytes = seq<Byte>

  const TWO32: nat := 0x1_0000_0000
  const TWO64: nat := 0x1_0000_0000_0000_0000

  type Int32 = n: int | -0x8000_0000 <= n < 0x8000_0000
  type UInt32 = n: int | 0 <= n < 0x1_0000_0000

  /** The cast (UInt32)n. */
  function ToUInt32(n: Int32): (u: UInt32)
    ensures u == n || u == n + TWO32
  {
    n % 0x1_0000_0000
  }

  /** The cast static_cast<Int32>(u). */
  function ToInt32(u: UInt32): (n: Int32)
    ensures ToUInt32(n) == u
  {
    if u < 0x8000_0000 then u else u - 0x1_0000_0000
  }

  /** n << k. */
  function Shl(n: nat, k: nat): nat {
    if k == 0 then n else 2 * Shl(n, k - 1)
  }

  lemma {:induction false} ShlAdd(a: nat, b: nat, k: nat)
    ensures Shl(a + b, k) == Shl(a, k) + Shl(b, k)
  {
    if k > 0 {
      ShlAdd(a, b, k - 1);
    }
  }

  lemma {:induction false} ShlShl(n: nat, j: nat, k: nat)
    ensures Shl(Shl(n, j), k) == Shl(n, j + k)
  {
    if k > 0 {
      ShlShl(n, j, k - 1);
    }
  }

  lemma {:induction false} ShlMonotone(a: nat, b: nat, k: nat)
    requires a <= b
    ensures Shl(a, k) <= Shl(b, k)
  {
    if k > 0 {
      ShlMonotone(a, b, k - 1);
    }
  }

  lemma {:induction false} Shl7(n: nat)
    ensures Shl(n, 7) == 0x80 * n
  {
    assert Shl(n, 1) == 2 * n;
    assert Shl(n, 3) == 8 * n;
    assert Shl(n, 5) == 32 * n;
  }

  lemma {:induction false} Shl14(n: nat)
    ensures Shl(n, 14) == 0x4000 * n
  {
    ShlShl(n, 7, 7);
    Shl7(n);
    Shl7(Shl(n, 7));
  }

  lemma {:induction false} Shl21(n: nat)
    ensures Shl(n, 21) == 0x20_0000 * n
  {
    ShlShl(n, 14, 7);
    Shl14(n);
    Shl7(Shl(n, 14));
  }

  lemma {:induction false} Shl28(n: nat)
    ensures Shl(n, 28) == 0x1000_0000 * n
  {
    ShlShl(n, 14, 14);
    Shl14(n);
    Shl14(Shl(n, 14));
  }

  /** Bitwise or. */
  function Or(a: nat, b: nat): nat
    decreases a + b
  {
    if a == 0 && b == 0 then 0
    else 2 * Or(a / 2, b / 2) + (if a % 2 == 1 || b % 2 == 1 then 1 else 0)
  }

  lemma {:induction false} OrWithZero(a: nat)
    ensures Or(a, 0) == a && Or(0, a) == a
  {
    if a > 0 {
      OrWithZero(a / 2);
    }
  }

  lemma {:induction false} OrCommutes(a: nat, b: nat)
    ensures Or(a, b) == Or(b, a)
    decreases a + b
  {
    if a > 0 || b > 0 {
      OrCommutes(a / 2, b / 2);
    }
  }

  lemma {:induction false} OrStep(a: nat, b: nat, bit: nat)
    requires bit <= 1
    ensures Or(2 * a + bit, 2 * b) == 2 * Or(a, b) + bit
  {
    assert (2 * a + bit) / 2 == a && (2 * b) / 2 == b;
  }

  /** The low k bits pass through an or with a number whose low k bits are clear. */
  lemma {:induction false} OrAbove(low: nat, a: nat, b: nat, k: nat)
    requires low < Shl(1, k)
    ensures Or(low + Shl(a, k), Shl(b, k)) == low + Shl(Or(a, b), k)
  {
    if k > 0 {
      OrAbove(low / 2, a, b, k - 1);
      OrStep(low / 2 + Shl(a, k - 1), Shl(b, k - 1), low % 2);
    }
  }

  /** Or of numbers without a common one bit is their sum. */
  lemma {:induction false} OrDisjoint(low: nat, b: nat, k: nat)
    requires low < Shl(1, k)
    ensures Or(low, Shl(b, k)) == low + Shl(b, k)
  {
    OrAbove(low, 0, b, k);
    OrWithZero(b);
    ShlAdd(0, 0, k);
  }

  /** Number of significant bits; 64 minus it is __builtin_clzll. */
  function BitLength(n: nat): nat {
    if n == 0 then 0 else 1 + BitLength(n / 2)
  }

  lemma {:induction false} BitLengthBound(n: nat, k: nat)
    ensures BitLength(n) <= k <==> n < Shl(1, k)
  {
    if n > 0 && k > 0 {
      BitLengthBound(n / 2, k - 1);
    } else if n == 0 {
      ShlMonotone(0, 1, k);
      ShlPositive(k);
    }
  }

  lemma {:induction false} ShlPositive(k: nat)
    ensures Shl(1, k) > 0
  {
    if k > 0 {
      ShlPositive(k - 1);
    }
  }

  /** clz of source/common/bits.hpp at 32 bits: the 64-bit count of the zero-extended
      value, less the 32 bits the extension added. */
  function Clz32(n: UInt32): (z: nat)
    ensures z <= 32
  {
    if n == 0 then 32
    else
      BitLength32(n);
      (64 - BitLength(n)) - 32
  }

  lemma {:induction false} BitLength32(n: UInt32)
    ensures BitLength(n) <= 32
  {
    BitLengthBound(n, 32);
    ShlShl(1, 28, 4);
    Shl28(1);
    assert Shl(0x1000_0000, 4) == 4 * Shl(0x1000_0000, 2);
  }

  lemma {:induction false} Regroup(a: Bytes, b: Bytes, c: Bytes)
    ensures a + b + c == a + (b + c)
  {
  }

  // Big-endian fixed-width integers, as boost::endian::native_to_big writes them.

  function Pow256(n: nat): (p: nat)
    ensures p > 0
  {
    if n == 0 then 1 else 256 * Pow256(n - 1)
  }

  function BigEndian(n: nat, width: nat): (b: Bytes)
    ensures |b| == width
  {
    if width == 0 then [] else BigEndian(n / 256, width - 1) + [n % 256]
  }

  /** The number whose base-256 digits, highest first, are the first `width` bytes. */
  function FromBigEndian(b: Bytes, width: nat): (n: nat)
    requires width <= |b|
    ensures n < Pow256(width)
    decreases width
  {
    if width == 0 then 0 else 256 * FromBigEndian(b, width - 1) + b[width - 1]
  }

  lemma {:induction false} BigEndianReads(n: nat, width: nat, more: Bytes)
    requires n < Pow256(width)
    ensures FromBigEndian(BigEndian(n, width) + more, width) == n
    decreases width
  {
    if width > 0 {
      BigEndianReads(n / 256, width - 1, [n % 256] + more);
      assert BigEndian(n, width) + more == BigEndian(n / 256, width - 1) + ([n % 256] + more);
    }
  }

  /** memcpy into a caller's buffer. */
  method CopyBytes(out: array<Byte>, at: nat, b: Bytes)
    requires at + |b| <= out.Length
    modifies out
    ensures out[..] == old(out[..at]) + b + old(out[at + |b|..])
  {
    forall i | 0 <= i < |b| {
      out[at + i] := b[i];
    }
  }
}
