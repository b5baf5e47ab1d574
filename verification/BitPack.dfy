/** The hand-unrolled packers of source/proxyd/bitpack.hpp against a bit stream: digit i of a
    stream of k-bit digits occupies bits k*i up to k*(i + 1) of one large number. */
module BitPack {
  import opened Numbers

  type UInt16 = n: int | 0 <= n < 0x1_0000

  // ---- Bit streams ----

  /** The number whose k-bit digits, lowest first, are the given ones. */
  function Stream(digits: seq<nat>, k: nat): nat {
    if digits == [] then 0 else digits[0] + Shl(Stream(digits[1..], k), k)
  }

  /** The lowest k bits of n: n & (2^k - 1). */
  function Low(n: nat, k: nat): nat {
    if k == 0 then 0 else n % 2 + 2 * Low(n / 2, k - 1)
  }

  /** n >> k. */
  function Shr(n: nat, k: nat): nat {
    if k == 0 then n else Shr(n / 2, k - 1)
  }

  /** Reads `count` digits of k bits back from a stream. */
  function Digits(n: nat, k: nat, count: nat): (r: seq<nat>)
    ensures |r| == count
    decreases count, n
  {
    if count == 0 then [] else [Low(n, k)] + Digits(Shr(n, k), k, count - 1)
  }

  ghost predicate AllBelow(digits: seq<nat>, bound: nat) {
    forall i :: 0 <= i < |digits| ==> digits[i] < bound
  }

  lemma {:induction false} SplitBits(n: nat, k: nat)
    ensures n == Low(n, k) + Shl(Shr(n, k), k) && Low(n, k) < Shl(1, k)
  {
    if k > 0 {
      SplitBits(n / 2, k - 1);
    }
  }

  lemma {:induction false} JoinBits(low: nat, high: nat, k: nat)
    requires low < Shl(1, k)
    ensures Low(low + Shl(high, k), k) == low && Shr(low + Shl(high, k), k) == high
  {
    if k > 0 {
      JoinBits(low / 2, high, k - 1);
      var n := low + Shl(high, k);
      assert n / 2 == low / 2 + Shl(high, k - 1) && n % 2 == low % 2;
    }
  }

  /** Every stream gives its digits back. */
  lemma {:induction false} DigitsOfStream(digits: seq<nat>, k: nat)
    requires AllBelow(digits, Shl(1, k))
    ensures Digits(Stream(digits, k), k, |digits|) == digits
  {
    if digits != [] {
      assert AllBelow(digits[1..], Shl(1, k));
      DigitsOfStream(digits[1..], k);
      JoinBits(digits[0], Stream(digits[1..], k), k);
    }
  }

  lemma {:induction false} DigitsBelow(n: nat, k: nat, count: nat)
    ensures AllBelow(Digits(n, k, count), Shl(1, k))
    decreases count
  {
    if count > 0 {
      SplitBits(n, k);
      DigitsBelow(Shr(n, k), k, count - 1);
    }
  }

  lemma {:induction false} StreamConcat(a: seq<nat>, b: seq<nat>, k: nat)
    ensures Stream(a + b, k) == Stream(a, k) + Shl(Stream(b, k), k * |a|)
  {
    if a == [] {
      assert a + b == b;
    } else {
      assert (a + b)[1..] == a[1..] + b;
      StreamConcat(a[1..], b, k);
      ShlAdd(Stream(a[1..], k), Shl(Stream(b, k), k * |a[1..]|), k);
      ShlShl(Stream(b, k), k * |a[1..]|, k);
      assert k * |a[1..]| + k == k * |a|;
    }
  }

  // ---- Machine words ----

  /** x << k in 64 bits. */
  function Shl64(x: nat, k: nat): (w: nat)
    ensures w < TWO64
  {
    Shl(x, k) % 0x1_0000_0000_0000_0000
  }

  lemma {:induction false} Shl64Is()
    ensures Shl(1, 64) == TWO64
  {
    ShlShl(1, 28, 28);
    Shl28(1);
    Shl28(0x1000_0000);
    ShlShl(Shl(1, 56), 7, 1);
    ShlShl(1, 56, 8);
    Shl7(Shl(1, 56));
    ShlShl(1, 56, 7);
  }

  /** A shift that keeps all its bits is not truncated. */
  lemma {:induction false} ShlFits(x: nat, width: nat, k: nat)
    requires x < Shl(1, width)
    ensures Shl(x, k) + Shl(1, k) <= Shl(1, width + k)
    ensures width + k <= 64 ==> Shl64(x, k) == Shl(x, k)
  {
    ShlMonotone(x + 1, Shl(1, width), k);
    ShlAdd(x, 1, k);
    ShlShl(1, width, k);
    ShlPositive(k);
    if width + k <= 64 {
      Shl64Is();
      ShlBelow(width + k, 64);
    }
  }

  lemma {:induction false} ShlBelow(a: nat, b: nat)
    requires a <= b
    ensures Shl(1, a) <= Shl(1, b)
  {
    if a < b {
      ShlBelow(a, b - 1);
    }
  }

  /** Only the low bits that still fit survive a shift to the top of the word. */
  lemma {:induction false} ShlTruncates(x: nat, fits: nat)
    requires fits <= 64
    ensures Shl64(x, 64 - fits) == Shl(Low(x, fits), 64 - fits)
  {
    var k := 64 - fits;
    SplitBits(x, fits);
    ShlAdd(Low(x, fits), Shl(Shr(x, fits), fits), k);
    ShlShl(Shr(x, fits), fits, k);
    ShlFits(Low(x, fits), fits, k);
    Shl64Is();
    ShlScale(Shr(x, fits), 64);
    ShlPositive(k);
    DropMultiple(Shl(Low(x, fits), k), Shr(x, fits));
  }

  lemma {:induction false} ShlScale(n: nat, k: nat)
    ensures Shl(n, k) == n * Shl(1, k)
  {
    if k > 0 {
      ShlScale(n, k - 1);
      TwiceScaled(n, Shl(1, k - 1));
    }
  }

  lemma {:induction false} TwiceScaled(n: nat, m: nat)
    ensures n * (2 * m) == 2 * (n * m)
  {
  }

  lemma {:induction false} DropMultiple(low: nat, high: nat)
    requires low < 0x1_0000_0000_0000_0000
    ensures (low + high * 0x1_0000_0000_0000_0000) % 0x1_0000_0000_0000_0000 == low
  {
  }

  /** One `|` of an unrolled word: the next field goes right above the bits already there. */
  lemma {:induction false} OrField(acc: nat, x: nat, width: nat, k: nat)
    requires acc < Shl(1, k) && x < Shl(1, width) && width + k <= 64
    ensures Or(acc, Shl64(x, k)) == acc + Shl(x, k) < Shl(1, width + k)
  {
    ShlFits(x, width, k);
    OrDisjoint(acc, x, k);
  }

  /** The last `|` of a word, whose field is cut off at bit 64. */
  lemma {:induction false} OrLast(acc: nat, x: nat, fits: nat)
    requires fits <= 64 && acc < Shl(1, 64 - fits)
    ensures Or(acc, Shl64(x, 64 - fits)) == acc + Shl(Low(x, fits), 64 - fits) < TWO64
  {
    ShlTruncates(x, fits);
    SplitBits(x, fits);
    ShlFits(Low(x, fits), fits, 64 - fits);
    Shl64Is();
    OrDisjoint(acc, Low(x, fits), 64 - fits);
  }

  // ---- 16 bits to 14 ----

  /** One round: seven 64-bit words from 32 fourteen-bit values. */
  function Pack32(at: seq<nat>): (words: seq<nat>)
    requires |at| == 32
    ensures |words| == 7
  {
    [PackWord(at, 0), PackWord(at, 1), PackWord(at, 2), PackWord(at, 3), PackWord(at, 4), PackWord(at, 5),
        PackWord(at, 6)]
  }

  function PackWord(at: seq<nat>, m: nat): nat
    requires |at| == 32 && m < 7
  {
    if m == 0 then Four(at[0], at, 1, 14, 28, 42, 56)
    else if m == 1 then Five(Shr(at[4], 8), at, 5, 6, 20, 34, 48, 62)
    else if m == 2 then Four(Shr(at[9], 2), at, 10, 12, 26, 40, 54)
    else if m == 3 then Five(Shr(at[13], 10), at, 14, 4, 18, 32, 46, 60)
    else if m == 4 then Four(Shr(at[18], 4), at, 19, 10, 24, 38, 52)
    else if m == 5 then Five(Shr(at[22], 12), at, 23, 2, 16, 30, 44, 58)
    else Four(Shr(at[27], 6), at, 28, 8, 22, 36, 50)
  }

  function Four(carry: nat, at: seq<nat>, i: nat, k0: nat, k1: nat, k2: nat, k3: nat): nat
    requires i + 4 <= |at|
  {
    Or(Or(Or(Or(carry, Shl64(at[i], k0)), Shl64(at[i + 1], k1)), Shl64(at[i + 2], k2)), Shl64(at[i + 3], k3))
  }

  function Five(carry: nat, at: seq<nat>, i: nat, k0: nat, k1: nat, k2: nat, k3: nat, k4: nat): nat
    requires i + 5 <= |at|
  {
    Or(Four(carry, at, i, k0, k1, k2, k3), Shl64(at[i + 4], k4))
  }

  /** A field followed by the rest of its stream, shifted into place. */
  lemma {:induction false} ShlStack(x: nat, rest: nat, width: nat, k: nat)
    ensures Shl(x + Shl(rest, width), k) == Shl(x, k) + Shl(rest, width + k)
  {
    ShlAdd(x, Shl(rest, width), k);
    ShlShl(rest, width, k);
  }

  /** What is left of a stream of d-bit fields above a word whose last field kept `fits` bits. */
  function Above(last: nat, d: nat, fits: nat, rest: nat): nat
    requires fits <= d
  {
    Shr(last, fits) + Shl(rest, d - fits)
  }

  lemma {:induction false} CutLast(last: nat, d: nat, fits: nat, rest: nat)
    requires fits <= d && fits <= 64
    ensures Shl(last + Shl(rest, d), 64 - fits)
         == Shl(Low(last, fits), 64 - fits) + Shl(Above(last, d, fits, rest), 64)
  {
    SplitBits(last, fits);
    ShlStack(Low(last, fits) + Shl(Shr(last, fits), fits), rest, d, 64 - fits);
    ShlStack(Low(last, fits), Shr(last, fits), fits, 64 - fits);
    ShlStack(Shr(last, fits), rest, d - fits, 64);
  }

  /** A word built by or-ing fields, each d bits above the one before. */
  function OrFields(acc: nat, fields: seq<nat>, d: nat, k: nat): nat
    decreases |fields|
  {
    if fields == [] then acc else OrFields(Or(acc, Shl64(fields[0], k)), fields[1..], d, k + d)
  }

  /** Where field n goes when field 0 goes to bit k. */
  function Offset(k: nat, d: nat, n: nat): (r: nat)
    ensures r >= k
    decreases n
  {
    if n == 0 then k else Offset(k + d, d, n - 1)
  }

  lemma {:induction false} OrSnoc(acc: nat, fields: seq<nat>, x: nat, d: nat, k: nat)
    ensures OrFields(acc, fields + [x], d, k) == Or(OrFields(acc, fields, d, k), Shl64(x, Offset(k, d, |fields|)))
    decreases |fields|
  {
    if fields == [] {
      assert (fields + [x])[1..] == [];
    } else {
      assert (fields + [x])[1..] == fields[1..] + [x];
      OrSnoc(Or(acc, Shl64(fields[0], k)), fields[1..], x, d, k + d);
    }
  }

  lemma {:induction false} OrSlice(acc: nat, at: seq<nat>, i: nat, j: nat, d: nat, k: nat, n: nat)
    requires i <= j < |at| && n == j - i
    ensures OrFields(acc, at[i..j + 1], d, k) == Or(OrFields(acc, at[i..j], d, k), Shl64(at[j], Offset(k, d, n)))
  {
    assert at[i..j + 1] == at[i..j] + [at[j]];
    OrSnoc(acc, at[i..j], at[j], d, k);
  }

  lemma {:induction false} FourIs(carry: nat, at: seq<nat>, i: nat, d: nat, k: nat)
    requires i + 4 <= |at|
    ensures Four(carry, at, i, k, k + d, k + 2 * d, k + 3 * d) == OrFields(carry, at[i..i + 4], d, k)
  {
    OrSlice(carry, at, i, i, d, k, 0);
    OrSlice(carry, at, i, i + 1, d, k, 1);
    OrSlice(carry, at, i, i + 2, d, k, 2);
    OrSlice(carry, at, i, i + 3, d, k, 3);
    assert at[i..i] == [];
  }

  lemma {:induction false} FiveIs(carry: nat, at: seq<nat>, i: nat, d: nat, k: nat)
    requires i + 5 <= |at|
    ensures Five(carry, at, i, k, k + d, k + 2 * d, k + 3 * d, k + 4 * d) == OrFields(carry, at[i..i + 5], d, k)
  {
    FourIs(carry, at, i, d, k);
    OrSlice(carry, at, i, i + 4, d, k, 4);
    assert Offset(k, d, 4) == Offset(k + 2 * d, d, 2);
  }

  /** The stream of d-bit fields followed by the rest of a stream. */
  function Fields(fields: seq<nat>, d: nat, rest: nat): nat {
    if fields == [] then rest else fields[0] + Shl(Fields(fields[1..], d, rest), d)
  }

  /** A word takes the low 64 bits of its stream: the k bits carried over from the word
      before, whole fields, and the first `fits` bits of a last one. */
  lemma {:induction false} WordTakes64(acc: nat, fields: seq<nat>, d: nat, k: nat, fits: nat, rest: nat)
    requires acc < Shl(1, k) && fields != [] && AllBelow(fields, Shl(1, d))
    requires fits <= d && fits <= 64 && Offset(k, d, |fields| - 1) == 64 - fits
    ensures OrFields(acc, fields, d, k) < TWO64
    ensures acc + Shl(Fields(fields, d, rest), k)
         == OrFields(acc, fields, d, k) + Shl(Above(fields[|fields| - 1], d, fits, rest), 64)
    decreases |fields|
  {
    var x := fields[0];
    if |fields| == 1 {
      OrLast(acc, x, fits);
      CutLast(x, d, fits, rest);
      assert OrFields(Or(acc, Shl64(x, k)), fields[1..], d, k + d) == Or(acc, Shl64(x, k));
    } else {
      OrField(acc, x, d, k);
      ShlStack(x, Fields(fields[1..], d, rest), d, k);
      WordTakes64(acc + Shl(x, k), fields[1..], d, k + d, fits, rest);
    }
  }

  lemma {:induction false} FieldsOfStream(at: seq<nat>, d: nat, i: nat, j: nat)
    requires i <= j <= |at|
    ensures Fields(at[i..j], d, Stream(at[j..], d)) == Stream(at[i..], d)
    decreases j - i
  {
    if i < j {
      FieldsOfStream(at, d, i + 1, j);
      assert at[i..j][1..] == at[i + 1..j] && at[i..][1..] == at[i + 1..];
    }
  }

  lemma {:induction false} ShrBelow(x: nat, k: nat, j: nat)
    requires x < Shl(1, k + j)
    ensures Shr(x, k) < Shl(1, j)
  {
    if k > 0 {
      ShrBelow(x / 2, k - 1, j);
    }
  }

  /** The word that starts inside field i - 1, of which d - c bits are in the word before,
      and ends inside field j - 1. */
  lemma {:induction false} WordBetween(at: seq<nat>, d: nat, i: nat, c: nat, j: nat, fits: nat)
    requires 0 < i < j <= |at| && AllBelow(at, Shl(1, d))
    requires c <= d && fits <= d && fits <= 64 && Offset(c, d, j - i - 1) == 64 - fits
    ensures Above(at[i - 1], d, d - c, Stream(at[i..], d))
         == OrFields(Shr(at[i - 1], d - c), at[i..j], d, c) + Shl(Above(at[j - 1], d, fits, Stream(at[j..], d)), 64)
    ensures OrFields(Shr(at[i - 1], d - c), at[i..j], d, c) < TWO64
  {
    ShrBelow(at[i - 1], d - c, c);
    FieldsOfStream(at, d, i, j);
    WordTakes64(Shr(at[i - 1], d - c), at[i..j], d, c, fits, Stream(at[j..], d));
  }

  /** The stream that words [m..] of a round still have to carry. */
  function Remaining(at: seq<nat>, m: nat): nat
    requires |at| == 32 && m <= 7
  {
    if m == 0 then Above(at[0], 14, 0, Stream(at[1..], 14))
    else if m == 1 then Above(at[4], 14, 8, Stream(at[5..], 14))
    else if m == 2 then Above(at[9], 14, 2, Stream(at[10..], 14))
    else if m == 3 then Above(at[13], 14, 10, Stream(at[14..], 14))
    else if m == 4 then Above(at[18], 14, 4, Stream(at[19..], 14))
    else if m == 5 then Above(at[22], 14, 12, Stream(at[23..], 14))
    else if m == 6 then Above(at[27], 14, 6, Stream(at[28..], 14))
    else 0
  }

  lemma {:induction false} FourBetween(at: seq<nat>, i: nat, c: nat, fits: nat)
    requires 0 < i && i + 4 <= |at| && AllBelow(at, Shl(1, 14))
    requires c <= 14 && fits <= 14 && c + 42 == 64 - fits
    ensures Four(Shr(at[i - 1], 14 - c), at, i, c, c + 14, c + 28, c + 42) < TWO64
    ensures Above(at[i - 1], 14, 14 - c, Stream(at[i..], 14))
         == Four(Shr(at[i - 1], 14 - c), at, i, c, c + 14, c + 28, c + 42)
            + Shl(Above(at[i + 3], 14, fits, Stream(at[i + 4..], 14)), 64)
  {
    FourIs(Shr(at[i - 1], 14 - c), at, i, 14, c);
    assert Offset(c, 14, 3) == Offset(c + 28, 14, 1);
    WordBetween(at, 14, i, c, i + 4, fits);
  }

  lemma {:induction false} FiveBetween(at: seq<nat>, i: nat, c: nat, fits: nat)
    requires 0 < i && i + 5 <= |at| && AllBelow(at, Shl(1, 14))
    requires c <= 14 && fits <= 14 && c + 56 == 64 - fits
    ensures Five(Shr(at[i - 1], 14 - c), at, i, c, c + 14, c + 28, c + 42, c + 56) < TWO64
    ensures Above(at[i - 1], 14, 14 - c, Stream(at[i..], 14))
         == Five(Shr(at[i - 1], 14 - c), at, i, c, c + 14, c + 28, c + 42, c + 56)
            + Shl(Above(at[i + 4], 14, fits, Stream(at[i + 5..], 14)), 64)
  {
    FiveIs(Shr(at[i - 1], 14 - c), at, i, 14, c);
    assert Offset(c, 14, 4) == Offset(c + 28, 14, 2);
    WordBetween(at, 14, i, c, i + 5, fits);
  }

  /** Each word takes 64 bits of what remains. */
  ghost predicate Takes64(at: seq<nat>, m: nat)
    requires |at| == 32 && m < 7
  {
    PackWord(at, m) < TWO64 && Remaining(at, m) == PackWord(at, m) + Shl(Remaining(at, m + 1), 64)
  }

  lemma {:induction false} WordOne(at: seq<nat>)
    requires |at| == 32 && AllBelow(at, Shl(1, 14))
    ensures Takes64(at, 1)
  {
    FiveBetween(at, 5, 6, 2);
  }

  lemma {:induction false} WordTwo(at: seq<nat>)
    requires |at| == 32 && AllBelow(at, Shl(1, 14))
    ensures Takes64(at, 2)
  {
    FourBetween(at, 10, 12, 10);
  }

  lemma {:induction false} WordThree(at: seq<nat>)
    requires |at| == 32 && AllBelow(at, Shl(1, 14))
    ensures Takes64(at, 3)
  {
    FiveBetween(at, 14, 4, 4);
  }

  lemma {:induction false} WordFour(at: seq<nat>)
    requires |at| == 32 && AllBelow(at, Shl(1, 14))
    ensures Takes64(at, 4)
  {
    FourBetween(at, 19, 10, 12);
  }

  lemma {:induction false} WordFive(at: seq<nat>)
    requires |at| == 32 && AllBelow(at, Shl(1, 14))
    ensures Takes64(at, 5)
  {
    FiveBetween(at, 23, 2, 6);
  }

  lemma {:induction false} WordZero(at: seq<nat>)
    requires |at| == 32 && AllBelow(at, Shl(1, 14))
    ensures Takes64(at, 0)
  {
    FourBetween(at, 1, 14, 8);
  }

  lemma {:induction false} WordSix(at: seq<nat>)
    requires |at| == 32 && AllBelow(at, Shl(1, 14))
    ensures Takes64(at, 6)
  {
    FourBetween(at, 28, 8, 14);
    NothingAbove(at[31], at[32..]);
  }

  lemma {:induction false} NothingAbove(last: nat, rest: seq<nat>)
    requires last < Shl(1, 14) && rest == []
    ensures Above(last, 14, 14, Stream(rest, 14)) == 0
  {
    ShrBelow(last, 14, 0);
  }

  /** The seven words are the stream of the 32 fields. */
  lemma {:induction false} Pack32Stream(at: seq<nat>)
    requires |at| == 32 && AllBelow(at, Shl(1, 14))
    ensures AllBelow(Pack32(at), TWO64) && Stream(Pack32(at), 64) == Stream(at, 14)
  {
    WordZero(at);
    WordOne(at);
    WordTwo(at);
    WordThree(at);
    WordFour(at);
    WordFive(at);
    WordSix(at);
    StreamFrom(at, Pack32(at), 0);
    assert Pack32(at)[0..] == Pack32(at);
  }

  lemma {:induction false} StreamFrom(at: seq<nat>, w: seq<nat>, m: nat)
    requires |at| == 32 && |w| == 7 && m <= 7
    requires forall i :: 0 <= i < 7 ==> Takes64(at, i) && w[i] == PackWord(at, i)
    ensures Stream(w[m..], 64) == Remaining(at, m)
    decreases 7 - m
  {
    if m < 7 {
      StreamFrom(at, w, m + 1);
      assert w[m..][1..] == w[m + 1..];
    }
  }

  // ---- 16 bits to 9 ----

  /** The low 64 bits of eight nine-bit values. */
  function Lower8(at: seq<nat>): nat
    requires |at| == 8
  {
    Or(Or(Or(Four(at[0], at, 1, 9, 18, 27, 36), Shl64(at[5], 45)), Shl64(at[6], 54)), Shl64(at[7], 63))
  }

  // From here on the width d is 9 and the offsets are its multiples. They are parameters because
  // the solver would unroll the recursive shifts by a literal.

  lemma {:induction false} Lower8Is(at: seq<nat>, d: nat)
    requires |at| == 8 && d == 9
    ensures Lower8(at) == OrFields(at[0], at[1..], d, d)
  {
    FourIs(at[0], at, 1, d, d);
    NineApart(d);
    OrSlice(at[0], at, 1, 5, d, d, 4);
    OrSlice(at[0], at, 1, 6, d, d, 5);
    OrSlice(at[0], at, 1, 7, d, d, 6);
    assert at[1..8] == at[1..];
  }

  lemma {:induction false} NineApart(d: nat)
    requires d == 9
    ensures Offset(d, d, 4) == 45 && Offset(d, d, 5) == 54 && Offset(d, d, 6) == 63
  {
    OffsetIs(d, d, 4);
    OffsetIs(d, d, 5);
    OffsetIs(d, d, 6);
  }

  lemma {:induction false} OffsetIs(k: nat, d: nat, n: nat)
    ensures Offset(k, d, n) == k + n * d
    decreases n
  {
    if n > 0 {
      OffsetIs(k + d, d, n - 1);
    }
  }

  lemma {:induction false} OrTwo(a: nat, b: nat, p: nat, q: nat)
    requires p <= 1 && q <= 1
    ensures Or(2 * a + p, 2 * b + q) == 2 * Or(a, b) + if p == 1 || q == 1 then 1 else 0
  {
    assert (2 * a + p) / 2 == a && (2 * b + q) / 2 == b;
  }

  lemma {:induction false} OrHalves(a: nat, b: nat)
    ensures Or(a, b) == 2 * Or(a / 2, b / 2) + if a % 2 == 1 || b % 2 == 1 then 1 else 0
  {
    OrTwo(a / 2, b / 2, a % 2, b % 2);
  }

  lemma {:induction false} ShrOr(a: nat, b: nat, k: nat)
    ensures Shr(Or(a, b), k) == Or(Shr(a, k), Shr(b, k))
    decreases k
  {
    if k > 0 {
      OrHalves(a, b);
      ShrOr(a / 2, b / 2, k - 1);
    }
  }

  lemma {:induction false} LowOr(a: nat, b: nat, k: nat)
    ensures Low(Or(a, b), k) == Or(Low(a, k), Low(b, k))
    decreases k
  {
    if k > 0 {
      LowOr(a / 2, b / 2, k - 1);
      OrTwo(Low(a / 2, k - 1), Low(b / 2, k - 1), a % 2, b % 2);
      LowOfOr(a, b, k);
    }
  }

  lemma {:induction false} LowOfOr(a: nat, b: nat, k: nat)
    requires k > 0
    ensures Low(Or(a, b), k) == 2 * Low(Or(a / 2, b / 2), k - 1) + if a % 2 == 1 || b % 2 == 1 then 1 else 0
  {
    OrHalves(a, b);
  }

  lemma {:induction false} NineBits(n: nat)
    ensures Low(n, 9) == n % 512 && Shr(n, 9) == n / 512
  {
    SplitBits(n, 9);
    ShlNine(Shr(n, 9));
    ShlNine(1);
  }

  lemma {:induction false} ShlNine(n: nat)
    ensures Shl(n, 9) == 512 * n
  {
    Shl7(n);
    assert Shl(n, 9) == 2 * Shl(n, 8);
  }

  /** The 64 bits of a word. */
  function Cut(n: nat): (w: nat)
    ensures w < TWO64
  {
    n % 0x1_0000_0000_0000_0000
  }

  lemma {:induction false} CutIsLow(n: nat, w: nat)
    requires w == 64
    ensures Low(n, w) == Cut(n)
  {
    SplitBits(n, w);
    Shl64Is();
    ShlScale(Shr(n, w), w);
    DropMultiple(Low(n, w), Shr(n, w));
  }

  lemma {:induction false} CutOr(a: nat, b: nat, w: nat)
    requires w == 64
    ensures Cut(Or(a, b)) == Or(Cut(a), Cut(b))
  {
    LowOr(a, b, w);
    CutIsLow(a, w);
    CutIsLow(b, w);
    CutIsLow(Or(a, b), w);
  }

  /** Or-ing fields in a word without end. */
  function OrUncut(acc: nat, fields: seq<nat>, d: nat, k: nat): nat
    decreases |fields|
  {
    if fields == [] then acc else OrUncut(Or(acc, Shl(fields[0], k)), fields[1..], d, k + d)
  }

  lemma {:induction false} OrFieldsCut(acc: nat, fields: seq<nat>, d: nat, k: nat)
    ensures OrFields(Cut(acc), fields, d, k) == Cut(OrUncut(acc, fields, d, k))
    decreases |fields|
  {
    if fields != [] {
      assert Shl64(fields[0], k) == Cut(Shl(fields[0], k));
      CutOr(acc, Shl(fields[0], k), 64);
      OrFieldsCut(Or(acc, Shl(fields[0], k)), fields[1..], d, k + d);
    }
  }

  /** Fields d bits apart that need not fit d bits: what runs over is or-ed into the next. */
  function Overlaid(carry: nat, fields: seq<nat>, d: nat): nat
    decreases |fields|
  {
    if fields == [] then carry
    else Low(Or(carry, fields[0]), d) + Shl(Overlaid(Shr(Or(carry, fields[0]), d), fields[1..], d), d)
  }

  lemma {:induction false} UncutOverlays(low: nat, carry: nat, fields: seq<nat>, d: nat, k: nat)
    requires low < Shl(1, k)
    ensures OrUncut(low + Shl(carry, k), fields, d, k) == low + Shl(Overlaid(carry, fields, d), k)
    decreases |fields|
  {
    if fields != [] {
      var y := Or(carry, fields[0]);
      OrAbove(low, carry, fields[0], k);
      SplitBits(y, d);
      ShlStack(Low(y, d), Shr(y, d), d, k);
      ShlFits(Low(y, d), d, k);
      UncutOverlays(low + Shl(Low(y, d), k), Shr(y, d), fields[1..], d, k + d);
      ShlStack(Low(y, d), Overlaid(Shr(y, d), fields[1..], d), d, k);
    }
  }

  lemma {:induction false} OverlaidOne(carry: nat, fields: seq<nat>, d: nat)
    requires fields != []
    ensures Overlaid(carry, fields, d)
         == Low(Or(carry, fields[0]), d) + Shl(Overlaid(Shr(Or(carry, fields[0]), d), fields[1..], d), d)
  {
  }

  lemma {:induction false} UncutIsOverlaid(fields: seq<nat>, d: nat)
    requires fields != []
    ensures OrUncut(fields[0], fields[1..], d, d) == Overlaid(0, fields, d)
  {
    var x := fields[0];
    OverlaidOne(0, fields, d);
    OrWithZero(x);
    SplitBits(x, d);
    UncutOverlays(Low(x, d), Shr(x, d), fields[1..], d, d);
  }

  lemma {:induction false} CutIsOverlaid(fields: seq<nat>, d: nat)
    requires fields != [] && Cut(fields[0]) == fields[0]
    ensures OrFields(fields[0], fields[1..], d, d) == Cut(Overlaid(0, fields, d))
  {
    OrFieldsCut(fields[0], fields[1..], d, d);
    UncutIsOverlaid(fields, d);
  }

  /** What a nine-bit field of a group of eight gets: its own low nine bits and, or-ed into them,
      what runs over from the field before it. The top eight bits of the last one are written on
      their own and get nothing. */
  function Field9(input: seq<UInt16>, i: nat): (r: nat)
    requires i < |input|
    ensures r < 512
  {
    if i % 8 == 0 then input[i] % 512
    else if i % 8 < 7 then Or(input[i - 1] / 512, input[i]) % 512
    else Or(input[i - 1] / 512, input[i]) % 2 + 2 * (input[i] / 2 % 256)
  }

  function Fields9(input: seq<UInt16>): (r: seq<nat>)
    ensures |r| == |input| && forall i :: 0 <= i < |r| ==> r[i] == Field9(input, i) < 512
  {
    seq(|input|, i requires 0 <= i < |input| => Field9(input, i))
  }

  /** The bits that run over into a field of a group. */
  function CarryInto(at: seq<UInt16>, i: nat): (c: nat)
    requires i < |at|
    ensures c < 128
  {
    if i == 0 then 0 else at[i - 1] / 512
  }

  lemma {:induction false} OneFieldOn(at: seq<UInt16>, i: nat, d: nat)
    requires |at| == 8 && i < 7 && d == 9
    ensures Overlaid(CarryInto(at, i), at[i..], d)
         == Field9(at, i) + Shl(Overlaid(CarryInto(at, i + 1), at[i + 1..], d), d)
  {
    assert at[i..][0] == at[i] && at[i..][1..] == at[i + 1..];
    OverlaidOne(CarryInto(at, i), at[i..], d);
    NineBits(Or(CarryInto(at, i), at[i]));
    CarryOn(CarryInto(at, i), at[i]);
    OrWithZero(at[i]);
  }

  lemma {:induction false} LastFieldWhole(at: seq<UInt16>, d: nat)
    requires |at| == 8
    ensures Overlaid(CarryInto(at, 7), at[7..], d) == Or(at[6] / 512, at[7])
  {
    assert at[7..][0] == at[7] && at[7..][1..] == [];
    OverlaidOne(CarryInto(at, 7), at[7..], d);
    SplitBits(Or(at[6] / 512, at[7]), d);
  }

  lemma {:induction false} StreamOn(field: nat, rest: seq<nat>, last: nat, d: nat, k: nat)
    ensures field + Shl(Stream(rest, d) + Shl(last, k), d) == Stream([field] + rest, d) + Shl(last, k + d)
  {
    ShlAdd(Stream(rest, d), Shl(last, k), d);
    ShlShl(last, k, d);
    assert ([field] + rest)[1..] == rest;
  }

  /** The first fields of a group, and the last one with all its bits. */
  lemma {:induction false} OverlaidFields(at: seq<UInt16>, i: nat, d: nat, k: nat)
    requires |at| == 8 && i < 8 && d == 9 && k == 63 - 9 * i
    ensures Overlaid(CarryInto(at, i), at[i..], d) == Stream(Fields9(at)[i..7], d) + Shl(Or(at[6] / 512, at[7]), k)
    decreases 8 - i
  {
    if i == 7 {
      LastFieldWhole(at, d);
    } else {
      OneFieldOn(at, i, d);
      OverlaidFields(at, i + 1, d, k - 9);
      FieldsFrom(at, i);
      StreamOn(Field9(at, i), Fields9(at)[i + 1..7], Or(at[6] / 512, at[7]), d, k - 9);
    }
  }

  lemma {:induction false} FieldsFrom(at: seq<UInt16>, i: nat)
    requires |at| == 8 && i < 7
    ensures Fields9(at)[i..7] == [Field9(at, i)] + Fields9(at)[i + 1..7]
  {
  }

  lemma {:induction false} CarryOn(carry: nat, x: nat)
    requires carry < 512
    ensures Shr(Or(carry, x), 9) == x / 512
  {
    ShrOr(carry, x, 9);
    NineBits(carry);
    NineBits(x);
    OrWithZero(x / 512);
  }

  /** Bit 63 and the byte above it make the last field. */
  lemma {:induction false} LastField(low: nat, y: nat, upper: nat, k: nat)
    requires low < Shl(1, k) && k == 63
    ensures Cut(low + Shl(y, k)) + Shl(upper, k + 1) == low + Shl(y % 2 + 2 * upper, k)
  {
    var bit := y % 2;
    HighBit(bit, y / 2, k);
    HighBit(bit, upper, k);
    LowWithBit(low, bit, k);
    CutJoined(low + Shl(bit, k), y / 2, k + 1);
  }

  lemma {:induction false} CutJoined(low: nat, high: nat, w: nat)
    requires low < Shl(1, w) && w == 64
    ensures Cut(low + Shl(high, w)) == low
  {
    JoinBits(low, high, w);
    CutIsLow(low + Shl(high, w), w);
  }

  lemma {:induction false} LowWithBit(low: nat, bit: nat, k: nat)
    requires low < Shl(1, k) && bit < 2
    ensures low + Shl(bit, k) < Shl(1, k + 1)
  {
    ShlMonotone(bit, 1, k);
  }

  lemma {:induction false} HighBit(bit: nat, rest: nat, k: nat)
    ensures Shl(bit + 2 * rest, k) == Shl(bit, k) + Shl(rest, k + 1)
  {
    assert Shl(rest, 1) == 2 * rest;
    ShlStack(bit, rest, 1, k);
  }

  lemma {:induction false} Fields9Below(at: seq<UInt16>, d: nat, k: nat)
    requires |at| == 8 && d == 9 && k == 7 * d
    ensures Stream(Fields9(at)[..7], d) < Shl(1, k)
  {
    ShlNine(1);
    StreamBelow(Fields9(at)[..7], d);
  }

  lemma {:induction false} AllOverlaid(at: seq<UInt16>, d: nat, k: nat)
    requires |at| == 8 && d == 9 && k == 7 * d
    ensures Overlaid(0, at, d) == Stream(Fields9(at)[..7], d) + Shl(Or(at[6] / 512, at[7]), k)
  {
    OverlaidFields(at, 0, d, k);
    assert at[0..] == at && Fields9(at)[0..7] == Fields9(at)[..7];
  }

  lemma {:induction false} WordOfFields(at: seq<UInt16>, d: nat, k: nat)
    requires |at| == 8 && d == 9 && k == 7 * d
    ensures OrFields(at[0], at[1..], d, d) == Cut(Stream(Fields9(at)[..7], d) + Shl(Or(at[6] / 512, at[7]), k))
  {
    CutIsOverlaid(at, d);
    AllOverlaid(at, d, k);
  }

  lemma {:induction false} LastOfStream(at: seq<UInt16>, d: nat, k: nat)
    requires |at| == 8 && d == 9 && k == 7 * d
    ensures Stream(Fields9(at), d)
         == Stream(Fields9(at)[..7], d) + Shl(Or(at[6] / 512, at[7]) % 2 + 2 * (at[7] / 2 % 256), k)
  {
    assert Fields9(at) == Fields9(at)[..7] + [Field9(at, 7)];
    StreamConcat(Fields9(at)[..7], [Field9(at, 7)], d);
    OneDigit(Field9(at, 7), d);
  }

  lemma {:induction false} WordAndByte(stream: nat, word: nat, low: nat, y: nat, upper: nat, k: nat)
    requires low < Shl(1, k) && k == 63
    requires word == Cut(low + Shl(y, k)) && stream == low + Shl(y % 2 + 2 * upper, k)
    ensures word < TWO64 && stream == word + Shl(upper, k + 1)
  {
    LastField(low, y, upper, k);
  }

  /** A group of eight is packed into the stream of its nine-bit fields. */
  lemma {:induction false} Pack8Stream(at: seq<UInt16>, d: nat, k: nat)
    requires |at| == 8 && d == 9 && k == 7 * d
    ensures OrFields(at[0], at[1..], d, d) < TWO64
    ensures Stream(Fields9(at), d) == OrFields(at[0], at[1..], d, d) + Shl(at[7] / 2 % 256, k + 1)
  {
    var word, low := OrFields(at[0], at[1..], d, d), Stream(Fields9(at)[..7], d);
    WordOfFields(at, d, k);
    Fields9Below(at, d, k);
    LastOfStream(at, d, k);
    WordAndByte(Stream(Fields9(at), d), word, low, Or(at[6] / 512, at[7]), at[7] / 2 % 256, k);
  }

  lemma {:induction false} OneDigit(x: nat, k: nat)
    ensures Stream([x], k) == x
  {
    ShlAdd(0, 0, k);
    assert [x][1..] == [];
  }

  lemma {:induction false} StreamBelow(digits: seq<nat>, k: nat)
    requires AllBelow(digits, Shl(1, k))
    ensures Stream(digits, k) < Shl(1, k * |digits|)
  {
    if digits != [] {
      var rest := Stream(digits[1..], k);
      StreamBelow(digits[1..], k);
      ShlAdd(rest, 1, k);
      ShlMonotone(rest + 1, Shl(1, k * |digits[1..]|), k);
      ShlShl(1, k * |digits[1..]|, k);
      assert k * |digits[1..]| + k == k * |digits|;
    }
  }

  // ---- Little-endian memory ----

  /** The bytes memcpy copies out of a word. */
  function LittleEndian(w: nat, width: nat): (b: Bytes)
    ensures |b| == width
  {
    if width == 0 then [] else [w % 256] + LittleEndian(w / 256, width - 1)
  }

  lemma {:induction false} LittleEndianStream(w: nat, width: nat)
    requires w < Shl(1, 8 * width)
    ensures Stream(LittleEndian(w, width), 8) == w
  {
    if width > 0 {
      ShlShl(1, 8 * (width - 1), 8);
      Shl8(Shl(1, 8 * (width - 1)));
      LittleEndianStream(w / 256, width - 1);
      Shl8(w / 256);
    }
  }

  lemma {:induction false} Shl8(n: nat)
    ensures Shl(n, 8) == 256 * n
  {
    Shl7(n);
  }

  /** The bytes of a sequence of 64-bit words, lowest word first. */
  function WordsToBytes(words: seq<nat>): (b: Bytes)
    ensures |b| == 8 * |words|
  {
    if words == [] then [] else LittleEndian(words[0], 8) + WordsToBytes(words[1..])
  }

  lemma {:induction false} WordsToBytesStream(words: seq<nat>)
    requires AllBelow(words, TWO64)
    ensures Stream(WordsToBytes(words), 8) == Stream(words, 64)
  {
    if words != [] {
      WordsToBytesStream(words[1..]);
      Shl64Is();
      LittleEndianStream(words[0], 8);
      StreamConcat(LittleEndian(words[0], 8), WordsToBytes(words[1..]), 8);
    }
  }

  // ---- The two loops ----

  /** The low 14 bits of each input. */
  function Masked14(input: seq<UInt16>): (r: seq<nat>)
    ensures |r| == |input| && AllBelow(r, Shl(1, 14))
  {
    Shl14(1);
    seq(|input|, i requires 0 <= i < |input| => input[i] % 0x4000)
  }

  /** A memcpy behind what is already in a buffer. */
  method PutAt(out: array<Byte>, at: nat, b: Bytes)
    requires at + |b| <= out.Length
    modifies out
    ensures out[..at + |b|] == old(out[..at]) + b
    ensures forall i :: at + |b| <= i < out.Length ==> out[i] == old(out[i])
  {
    CopyBytes(out, at, b);
  }

  /** One round: 32 inputs become seven words. */
  method PackGroup(group: seq<nat>) returns (bytes: Bytes)
    requires |group| == 32 && AllBelow(group, Shl(1, 14))
    ensures |bytes| == 56 && Stream(bytes, 8) == Stream(group, 14)
  {
    Pack32Stream(group);
    WordsToBytesStream(Pack32(group));
    bytes := WordsToBytes(Pack32(group));
  }

  /** They are copied behind what is already in the buffer. */
  method PackRound(input: seq<UInt16>, at: nat, out: array<Byte>, to: nat, ghost rounds: nat)
    requires at == 32 * rounds && at + 32 <= |input| && to == 56 * rounds && to + 56 <= out.Length
    requires Stream(out[..to], 8) == Stream(Masked14(input)[..at], 14)
    modifies out
    ensures Stream(out[..to + 56], 8) == Stream(Masked14(input)[..at + 32], 14)
    ensures forall i :: to + 56 <= i < out.Length ==> out[i] == old(out[i])
  {
    var group := Masked14(input[at..at + 32]);
    var bytes := PackGroup(group);
    JoinGroups(out[..to], Masked14(input)[..at], bytes, group, rounds);
    MaskedOn(input, at);
    PutAt(out, to, bytes);
  }

  lemma {:induction false} MaskedOn(input: seq<UInt16>, at: nat)
    requires at + 32 <= |input|
    ensures Masked14(input)[..at + 32] == Masked14(input)[..at] + Masked14(input[at..at + 32])
  {
  }

  /** bitpack16to14: 56 bytes for every 32 inputs, which together are the stream of the
      inputs' low 14 bits. */
  method Bitpack16to14(input: seq<UInt16>, out: array<Byte>)
    requires |input| % 32 == 0 && out.Length >= |input| / 32 * 56
    modifies out
    ensures Stream(out[..|input| / 32 * 56], 8) == Stream(Masked14(input), 14)
    ensures out[|input| / 32 * 56..] == old(out[|input| / 32 * 56..])
  {
    var at := 0;
    var to := 0;
    var incount := |input|;
    ghost var rounds := 0;
    while incount >= 32
      invariant at == 32 * rounds && to == 56 * rounds && rounds <= |input| / 32 && incount == |input| - at
      invariant Stream(out[..to], 8) == Stream(Masked14(input)[..at], 14)
      invariant forall i :: to <= i < out.Length ==> out[i] == old(out[i])
    {
      PackRound(input, at, out, to, rounds);
      at := at + 32;
      to := to + 56;
      incount := incount - 32;
      rounds := rounds + 1;
    }
    assert Masked14(input)[..at] == Masked14(input);
  }

  lemma {:induction false} JoinGroups(done: Bytes, inputs: seq<nat>, bytes: Bytes, group: seq<nat>, rounds: nat)
    requires |inputs| == 32 * rounds && |done| == 56 * rounds
    requires Stream(done, 8) == Stream(inputs, 14) && Stream(bytes, 8) == Stream(group, 14)
    ensures Stream(done + bytes, 8) == Stream(inputs + group, 14)
  {
    StreamConcat(done, bytes, 8);
    StreamConcat(inputs, group, 14);
    assert 8 * |done| == 14 * |inputs|;
  }

  /** One round of bitpack16to9: a 64-bit word and one byte above it. */
  method Pack8(at: seq<UInt16>) returns (bytes: Bytes)
    requires |at| == 8
    ensures |bytes| == 9 && Stream(bytes, 8) == Stream(Fields9(at), 9)
  {
    Lower8Is(at, 9);
    Pack8Stream(at, 9, 63);
    var lower := Lower8(at);
    var upper: Byte := Shr(at[7], 1) % 256;
    bytes := LittleEndian(lower, 8) + [upper];
    assert Shr(at[7], 1) == at[7] / 2;
    NineBytes(lower, upper);
  }

  lemma {:induction false} NineBytes(lower: nat, upper: Byte)
    requires lower < TWO64
    ensures Stream(LittleEndian(lower, 8) + [upper], 8) == lower + Shl(upper, 64)
  {
    Shl64Is();
    LittleEndianStream(lower, 8);
    StreamConcat(LittleEndian(lower, 8), [upper], 8);
    assert Stream([upper], 8) == upper + Shl(0, 8);
  }

  /** bitpack16to9: 9 bytes for every 8 inputs. */
  method Bitpack16to9(input: seq<UInt16>, out: array<Byte>)
    requires |input| % 8 == 0 && out.Length >= |input| / 8 * 9
    modifies out
    ensures Stream(out[..|input| / 8 * 9], 8) == Stream(Fields9(input), 9)
    ensures out[|input| / 8 * 9..] == old(out[|input| / 8 * 9..])
  {
    var at := 0;
    var to := 0;
    var incount := |input|;
    while incount >= 8
      invariant 0 <= at <= |input| && incount == |input| - at && at % 8 == 0
      invariant to == at / 8 * 9 && to <= |input| / 8 * 9
      invariant Stream(out[..to], 8) == Stream(Fields9(input)[..at], 9)
      invariant forall i :: to <= i < out.Length ==> out[i] == old(out[i])
    {
      var group := input[at..at + 8];
      var bytes := Pack8(group);
      JoinRounds(out[..to], Fields9(input)[..at], bytes, Fields9(group));
      PutAt(out, to, bytes);
      Fields9On(input, at);
      at := at + 8;
      to := to + 9;
      incount := incount - 8;
    }
    assert Fields9(input)[..at] == Fields9(input);
  }

  lemma {:induction false} Fields9On(input: seq<UInt16>, at: nat)
    requires at % 8 == 0 && at + 8 <= |input|
    ensures Fields9(input)[..at + 8] == Fields9(input)[..at] + Fields9(input[at..at + 8])
  {
    var group := input[at..at + 8];
    forall i | 0 <= i < 8
      ensures Field9(input, at + i) == Field9(group, i)
    {
      assert (at + i) % 8 == i;
    }
  }

  lemma {:induction false} JoinRounds(done: Bytes, inputs: seq<nat>, bytes: Bytes, group: seq<nat>)
    requires |inputs| % 8 == 0 && |done| == |inputs| / 8 * 9
    requires Stream(done, 8) == Stream(inputs, 9) && Stream(bytes, 8) == Stream(group, 9)
    ensures Stream(done + bytes, 8) == Stream(inputs + group, 9)
  {
    StreamConcat(done, bytes, 8);
    StreamConcat(inputs, group, 9);
    assert 8 * |done| == 9 * |inputs|;
  }

  // ---- What a receiver gets back ----

  /** Reading the packed bytes as 14-bit digits gives the low 14 bits of every input, so it
      gives the inputs back exactly when they all fit 14 bits. */
  lemma {:induction false} Unpack14(input: seq<UInt16>, packed: Bytes)
    requires Stream(packed, 8) == Stream(Masked14(input), 14)
    ensures Digits(Stream(packed, 8), 14, |input|) == Masked14(input)
    ensures Digits(Stream(packed, 8), 14, |input|) == input <==> AllBelow(input, 0x4000)
  {
    DigitsOfStream(Masked14(input), 14);
    MaskKeeps(input);
  }

  lemma {:induction false} MaskKeeps(input: seq<UInt16>)
    ensures Masked14(input) == input <==> AllBelow(input, 0x4000)
  {
    forall i | 0 <= i < |input|
      ensures Masked14(input)[i] == input[i] <==> input[i] < 0x4000
    {
    }
  }

  /** Fields are the inputs exactly when these are all below 512. */
  lemma {:induction false} FieldsKeep(input: seq<UInt16>)
    ensures Fields9(input) == input <==> AllBelow(input, 512)
  {
    if AllBelow(input, 512) {
      forall i | 0 <= i < |input|
        ensures Field9(input, i) == input[i]
      {
        OrWithZero(input[i]);
        SmallField(input, i);
      }
    } else {
      var i :| 0 <= i < |input| && input[i] >= 512;
      assert Fields9(input)[i] < 512;
    }
  }

  lemma {:induction false} SmallField(input: seq<UInt16>, i: nat)
    requires i < |input| && input[i] < 512 && (i % 8 != 0 ==> input[i - 1] < 512) && Or(0, input[i]) == input[i]
    ensures Field9(input, i) == input[i]
  {
    SmallBits(input[i]);
    if i % 8 != 0 {
      SmallBits(input[i - 1]);
    }
  }

  lemma {:induction false} SmallBits(n: nat)
    requires n < 512
    ensures n % 512 == n && n / 512 == 0 && n % 2 + 2 * (n / 2 % 256) == n
  {
  }

  /** Reading the packed bytes as nine-bit digits gives the fields, so it gives the inputs back
      exactly when they are all below 512. */
  lemma {:induction false} Unpack9(input: seq<UInt16>, packed: Bytes)
    requires Stream(packed, 8) == Stream(Fields9(input), 9)
    ensures Digits(Stream(packed, 8), 9, |input|) == Fields9(input)
    ensures Digits(Stream(packed, 8), 9, |input|) == input <==> AllBelow(input, 512)
  {
    ShlNine(1);
    DigitsOfStream(Fields9(input), 9);
    FieldsKeep(input);
  }
}
