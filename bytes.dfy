/**
 * Bytes as the Python code handles them: integers in 0..255, combined with
 * `|` and tested with `&`; Python's `int.from_bytes` / `int.to_bytes` in
 * little-endian order; and the three kinds of edit the encoder makes to its
 * report list (`report[i] = v`, `report[i] |= v`, `report[i:j] = payload`).
 *
 * `|` and `&` are defined bit by bit on integers, lowest bit first, so that a
 * byte stays an integer throughout the model.
 */
module Bytes {

  /** A value of a Python byte string, or an int the code keeps in 0..255. */
  newtype byte = x: int | 0 <= x < 0x100

  // ------------------------------------------------------------ bitwise

  /** 2 to the power n. */
  function Pow2(n: nat): (r: nat)
    ensures r >= 1
  {
    if n == 0 then 1 else 2 * Pow2(n - 1)
  }

  /** The n low bits of `a | b`. */
  function OrBits(a: nat, b: nat, n: nat): nat
  {
    if n == 0 then 0
    else 2 * OrBits(a / 2, b / 2, n - 1) + (if a % 2 == 1 || b % 2 == 1 then 1 else 0)
  }

  /** The n low bits of `a & b`. */
  function AndBits(a: nat, b: nat, n: nat): nat
  {
    if n == 0 then 0
    else 2 * AndBits(a / 2, b / 2, n - 1) + (if a % 2 == 1 && b % 2 == 1 then 1 else 0)
  }

  lemma {:induction false} BitsBound(a: nat, b: nat, n: nat)
    ensures OrBits(a, b, n) < Pow2(n) && AndBits(a, b, n) < Pow2(n)
  {
    if n > 0 {
      BitsBound(a / 2, b / 2, n - 1);
    }
  }

  lemma Pow2Eight()
    ensures Pow2(8) == 0x100
  {
  }

  /** `a | b` on bytes. */
  function Or(a: byte, b: byte): byte
  {
    BitsBound(a as nat, b as nat, 8);
    OrBits(a as nat, b as nat, 8) as byte
  }

  /** `a & b` on bytes. */
  function And(a: byte, b: byte): byte
  {
    BitsBound(a as nat, b as nat, 8);
    AndBits(a as nat, b as nat, 8) as byte
  }

  /** `b & mask != 0`. */
  predicate Bit(b: byte, mask: byte)
  {
    And(b, mask) != 0
  }

  lemma {:induction false} OrBitsZero(a: nat, n: nat)
    requires a < Pow2(n)
    ensures OrBits(a, 0, n) == a && OrBits(0, a, n) == a
  {
    if n > 0 {
      OrBitsZero(a / 2, n - 1);
    }
  }

  lemma {:induction false} OrBitsCommutes(a: nat, b: nat, n: nat)
    requires a < Pow2(n) && b < Pow2(n)
    ensures OrBits(a, b, n) == OrBits(b, a, n)
  {
    if n > 0 {
      OrBitsCommutes(a / 2, b / 2, n - 1);
    }
  }

  lemma {:induction false} OrBitsAssociates(a: nat, b: nat, c: nat, n: nat)
    requires a < Pow2(n) && b < Pow2(n) && c < Pow2(n)
    ensures OrBits(OrBits(a, b, n), c, n) == OrBits(a, OrBits(b, c, n), n)
  {
    if n > 0 {
      OrBitsAssociates(a / 2, b / 2, c / 2, n - 1);
    }
  }

  /** 0 is the identity of `|`, which is commutative and associative: the order flags are or-ed in does not matter. */
  lemma OrLaws(a: byte, b: byte, c: byte)
    ensures Or(a, 0) == a && Or(0, a) == a
    ensures Or(a, b) == Or(b, a)
    ensures Or(Or(a, b), c) == Or(a, Or(b, c))
  {
    Pow2Eight();
    OrBitsZero(a as nat, 8);
    OrBitsCommutes(a as nat, b as nat, 8);
    OrBitsAssociates(a as nat, b as nat, c as nat, 8);
  }

  lemma MulAtLeast(d: int, k: int)
    requires d > 0 && k >= 1
    ensures d * k >= d
  {
    assert d * k == d * (k - 1) + d;
  }

  /** Quotient and remainder are the only ones. */
  lemma DivModUnique(a: int, d: int, x: int, y: int)
    requires d > 0 && 0 <= y < d && a == d * x + y
    ensures a / d == x && a % d == y
  {
    var q, r := a / d, a % d;
    assert a == d * q + r;
    assert d * (q - x) == y - r by {
      assert d * (q - x) == d * q - d * x;
    }
    if q > x {
      MulAtLeast(d, q - x);
    } else if q < x {
      MulAtLeast(d, x - q);
    }
  }

  /** Dividing by 2m is dividing by 2, then by m. */
  lemma DivModHalf(a: nat, m: nat)
    requires m >= 1
    ensures a % (2 * m) == 2 * ((a / 2) % m) + a % 2
    ensures a / (2 * m) == (a / 2) / m
  {
    var q, r := a / 2, a % 2;
    var qq, rr := q / m, q % m;
    assert a == 2 * q + r;
    assert q == m * qq + rr;
    assert a == (2 * m) * qq + (2 * rr + r) by {
      assert 2 * q == 2 * (m * qq) + 2 * rr;
      assert 2 * (m * qq) == (2 * m) * qq;
    }
    DivModUnique(a, 2 * m, qq, 2 * rr + r);
  }

  lemma {:induction false} Pow2Monotone(k: nat, n: nat)
    requires k <= n
    ensures Pow2(k) <= Pow2(n)
  {
    if k < n {
      Pow2Monotone(k, n - 1);
    }
  }

  lemma {:induction false} AndBitsZero(a: nat, n: nat)
    ensures AndBits(a, 0, n) == 0
  {
    if n > 0 {
      AndBitsZero(a / 2, n - 1);
    }
  }

  /** One step of `AndBits` when the mask's lowest bit is set. */
  lemma AndBitsOdd(a: nat, m: nat, n: nat)
    requires n > 0
    ensures AndBits(a, 2 * m + 1, n) == 2 * AndBits(a / 2, m, n - 1) + a % 2
  {
  }

  /** One step of `AndBits` when the mask's lowest bit is clear. */
  lemma AndBitsEven(a: nat, m: nat, n: nat)
    requires n > 0
    ensures AndBits(a, 2 * m, n) == 2 * AndBits(a / 2, m, n - 1)
  {
  }

  /** Masking with 1 keeps the lowest bit. */
  lemma AndBitsLowest(a: nat, n: nat)
    requires n > 0
    ensures AndBits(a, 1, n) == a % 2
  {
    AndBitsOdd(a, 0, n);
    AndBitsZero(a / 2, n - 1);
  }

  /** `a >> k`. */
  function Shr(a: nat, k: nat): nat
  {
    if k == 0 then a else Shr(a / 2, k - 1)
  }

  /** Shifting right by k divides by 2^k. */
  lemma {:induction false} ShrIsDiv(a: nat, k: nat)
    ensures Shr(a, k) == a / Pow2(k)
  {
    if k > 0 {
      ShrIsDiv(a / 2, k - 1);
      DivModHalf(a, Pow2(k - 1));
    }
  }

  /** Shifting a k-bit value right by k leaves nothing. */
  lemma {:induction false} ShrSmall(a: nat, k: nat)
    requires a < Pow2(k)
    ensures Shr(a, k) == 0
  {
    if k > 0 {
      ShrSmall(a / 2, k - 1);
    }
  }

  /** `a << k`. */
  function Shl(a: nat, k: nat): nat
  {
    if k == 0 then a else 2 * Shl(a, k - 1)
  }

  /** Shifting left by k multiplies by 2^k. */
  lemma {:induction false} ShlIsMul(a: nat, k: nat)
    ensures Shl(a, k) == Pow2(k) * a
  {
    if k > 0 {
      ShlIsMul(a, k - 1);
      MulTwo(Pow2(k), Pow2(k - 1), a);
    }
  }

  /**
   * Or-ing a value shifted left by k with one below 2^k puts them side by
   * side: their bits do not meet, so `|` is `+`.
   */
  lemma {:induction false} OrDisjoint(a: nat, b: nat, k: nat, n: nat)
    requires b < Pow2(k) && Shl(a, k) + b < Pow2(n)
    ensures OrBits(Shl(a, k), b, n) == Shl(a, k) + b
  {
    if k == 0 {
      OrBitsZero(a, n);
    } else if n > 0 {
      OrDisjoint(a, b / 2, k - 1, n - 1);
    }
  }

  lemma MulTwo(w: int, p: int, x: int)
    requires w == 2 * p
    ensures w * x == 2 * (p * x)
  {
  }

  /** Masking with k low ones clears everything from bit k up. */
  lemma {:induction false} AndBitsLow(a: nat, k: nat, n: nat)
    requires k <= n
    ensures AndBits(a, Pow2(k) - 1, n) == a - Pow2(k) * Shr(a, k)
  {
    Pow2Monotone(k, n);
    if k == 0 {
      AndBitsZero(a, n);
    } else {
      var p, s := Pow2(k - 1), Shr(a / 2, k - 1);
      var m := Pow2(k) - 1;
      assert m == 2 * (p - 1) + 1;
      AndBitsLow(a / 2, k - 1, n - 1);
      AndBitsOdd(a, p - 1, n);
      LowStep(a, Pow2(k), p, s, AndBits(a / 2, p - 1, n - 1));
    }
  }

  lemma LowStep(a: nat, w: int, p: int, s: int, t: int)
    requires w == 2 * p && t == a / 2 - p * s
    ensures 2 * t + a % 2 == a - w * s
  {
  }

  /** Masking with all n ones keeps an n-bit value. */
  lemma AndBitsAll(a: nat, n: nat)
    requires a < Pow2(n)
    ensures AndBits(a, Pow2(n) - 1, n) == a
  {
    AndBitsLow(a, n, n);
    ShrSmall(a, n);
  }

  /** Masking with ones from bit k up clears the k low bits. */
  lemma {:induction false} AndBitsHigh(a: nat, k: nat, n: nat)
    requires k <= n && a < Pow2(n)
    ensures Pow2(k) <= Pow2(n)
    ensures AndBits(a, Pow2(n) - Pow2(k), n) == Pow2(k) * Shr(a, k)
  {
    Pow2Monotone(k, n);
    if k == 0 {
      AndBitsAll(a, n);
    } else {
      var p, q, s := Pow2(k - 1), Pow2(n - 1), Shr(a / 2, k - 1);
      assert Pow2(n) - Pow2(k) == 2 * (q - p);
      AndBitsHigh(a / 2, k - 1, n - 1);
      AndBitsEven(a, q - p, n);
      assert AndBits(a, Pow2(n) - Pow2(k), n) == 2 * (p * s);
      MulTwo(Pow2(k), p, s);
    }
  }

  /** Masking with the single bit 2^k keeps bit k. */
  lemma {:induction false} AndBitsSingle(a: nat, k: nat, n: nat)
    requires k < n
    ensures AndBits(a, Pow2(k), n) == Pow2(k) * (Shr(a, k) % 2)
  {
    Pow2Monotone(k + 1, n);
    if k == 0 {
      AndBitsLowest(a, n);
    } else {
      var p := Pow2(k - 1);
      AndBitsSingle(a / 2, k - 1, n - 1);
      AndBitsEven(a, p, n);
      MulTwo(Pow2(k), p, Shr(a / 2, k - 1) % 2);
    }
  }

  /** The nibble and seven-bit masks the decoder uses, as arithmetic. */
  lemma Masks(a: byte)
    ensures And(a, 0x0f) as int == a as int % 16
    ensures And(a, 0xf0) as int == a as int - a as int % 16
    ensures And(a, 0x7f) as int == a as int % 128
  {
    var v := a as nat;
    assert Pow2(4) == 16 && Pow2(7) == 128 && Pow2(8) == 256;
    AndBitsLow(v, 4, 8);
    AndBitsLow(v, 7, 8);
    AndBitsHigh(v, 4, 8);
    ShrIsDiv(v, 4);
    ShrIsDiv(v, 7);
  }

  /** Bit k of a byte, tested with the mask 2^k, is `a / 2^k % 2`. */
  lemma SingleBit(a: byte, k: nat, w: byte)
    requires k < 8 && w as int == Pow2(k)
    ensures Bit(a, w) <==> (a as int / w as int) % 2 == 1
  {
    Pow2Eight();
    AndBitsSingle(a as nat, k, 8);
    ShrIsDiv(a as nat, k);
  }

  /** The single-bit tests the decoder uses. */
  lemma Bits(a: byte)
    ensures Bit(a, 0x01) <==> a % 2 == 1
    ensures Bit(a, 0x02) <==> (a / 2) % 2 == 1
    ensures Bit(a, 0x04) <==> (a / 4) % 2 == 1
    ensures Bit(a, 0x10) <==> (a / 16) % 2 == 1
    ensures Bit(a, 0x20) <==> (a / 32) % 2 == 1
    ensures Bit(a, 0x40) <==> (a / 64) % 2 == 1
    ensures Bit(a, 0x80) <==> a >= 128
  {
    SingleBit(a, 0, 0x01);
    SingleBit(a, 1, 0x02);
    SingleBit(a, 2, 0x04);
    SingleBit(a, 4, 0x10);
    SingleBit(a, 5, 0x20);
    SingleBit(a, 6, 0x40);
    SingleBit(a, 7, 0x80);
  }

  /** The number whose bits, lowest first, are `bs`. */
  function FromBits(bs: seq<bool>): nat
  {
    if bs == [] then 0 else (if bs[0] then 1 else 0) + 2 * FromBits(bs[1..])
  }

  lemma {:induction false} FromBitsBound(bs: seq<bool>)
    ensures FromBits(bs) < Pow2(|bs|)
  {
    if bs != [] {
      FromBitsBound(bs[1..]);
    }
  }

  /** Bit k of the number made of `bs` is `bs[k]`. */
  lemma {:induction false} ShrFromBits(bs: seq<bool>, k: nat)
    requires k < |bs|
    ensures Shr(FromBits(bs), k) % 2 == 1 <==> bs[k]
  {
    if k > 0 {
      ShrFromBits(bs[1..], k - 1);
    }
  }

  lemma {:induction false} ShrAdd(a: nat, i: nat, j: nat)
    ensures Shr(Shr(a, i), j) == Shr(a, i + j)
  {
    if i > 0 {
      ShrAdd(a / 2, i - 1, j);
    }
  }

  /** Shifting back what was shifted up above a k-bit value recovers it. */
  lemma {:induction false} ShrShl(lo: nat, x: nat, k: nat)
    requires lo < Pow2(k)
    ensures Shr(lo + Shl(x, k), k) == x
  {
    if k > 0 {
      ShrShl(lo / 2, x, k - 1);
    }
  }

  /** Testing bit k of a byte with the mask 2^k reads bit k of its value. */
  lemma BitShr(a: byte, k: nat, w: byte)
    requires k < 8 && w as int == Pow2(k)
    ensures Bit(a, w) <==> Shr(a as nat, k) % 2 == 1
  {
    Pow2Eight();
    AndBitsSingle(a as nat, k, 8);
  }

  /** A byte made of up to eight flags, lowest first, has bit k set iff flag k is. */
  lemma BitOfFromBits(bs: seq<bool>, k: nat, w: byte)
    requires |bs| <= 8 && k < |bs| && w as int == Pow2(k)
    ensures FromBits(bs) < 256
    ensures Bit(FromBits(bs) as byte, w) <==> bs[k]
  {
    FromBitsBound(bs);
    Pow2Monotone(|bs|, 8);
    Pow2Eight();
    BitShr(FromBits(bs) as byte, k, w);
    ShrFromBits(bs, k);
  }

  /** A byte holding a value below 16 with up to four flags above it: the low nibble is the value, bit 4 + j is flag j. */
  lemma BitAboveNibble(lo: nat, bs: seq<bool>, j: nat, w: byte)
    requires lo < 16 && |bs| <= 4 && j < |bs| && w as int == Pow2(4 + j)
    ensures lo + Shl(FromBits(bs), 4) < 256
    ensures Bit((lo + Shl(FromBits(bs), 4)) as byte, w) <==> bs[j]
    ensures And((lo + Shl(FromBits(bs), 4)) as byte, 0x0f) as int == lo
  {
    var x := FromBits(bs);
    FromBitsBound(bs);
    Pow2Monotone(|bs|, 4);
    assert Pow2(4) == 16;
    ShlIsMul(x, 4);
    var b := lo + Shl(x, 4);
    assert b == 16 * x + lo < 256;
    Masks(b as byte);
    DivModUnique(b, 16, x, lo);
    BitShr(b as byte, 4 + j, w);
    ShrAdd(b, 4, j);
    ShrShl(lo, x, 4);
    ShrFromBits(bs, j);
  }

  // ------------------------------------------------------ little-endian

  /** 256 to the power n: one more than the largest n-byte unsigned value. */
  function Pow256(n: nat): (r: nat)
    ensures r >= 1
  {
    if n == 0 then 1 else 256 * Pow256(n - 1)
  }

  /** `int.from_bytes(bs, 'little', signed=False)`. */
  function LittleEndian(bs: seq<byte>): (r: nat)
    ensures r < Pow256(|bs|)
  {
    if bs == [] then 0 else bs[0] as int + 256 * LittleEndian(bs[1..])
  }

  /** `v.to_bytes(n, 'little')` for a value that fits in n bytes. */
  function ToLittleEndian(v: nat, n: nat): (r: seq<byte>)
    requires v < Pow256(n)
    ensures |r| == n
  {
    if n == 0 then [] else [(v % 256) as byte] + ToLittleEndian(v / 256, n - 1)
  }

  /** Writing a value out and reading it back gives the value. */
  lemma {:induction false} LittleEndianOfToLittleEndian(v: nat, n: nat)
    requires v < Pow256(n)
    ensures LittleEndian(ToLittleEndian(v, n)) == v
  {
    if n > 0 {
      var q := v / 256;
      assert q < Pow256(n - 1);
      LittleEndianOfToLittleEndian(q, n - 1);
      var r := ToLittleEndian(v, n);
      assert r[0] as int == v % 256;
      assert r[1..] == ToLittleEndian(q, n - 1);
    }
  }

  /** Reading bytes and writing the value back gives the bytes. */
  lemma {:induction false} ToLittleEndianOfLittleEndian(bs: seq<byte>)
    ensures ToLittleEndian(LittleEndian(bs), |bs|) == bs
  {
    if bs != [] {
      ToLittleEndianOfLittleEndian(bs[1..]);
      var v := LittleEndian(bs);
      assert v % 256 == bs[0] as int;
      assert v / 256 == LittleEndian(bs[1..]);
    }
  }

  /** `int.from_bytes(bs, 'little', signed=True)`: two's complement over 8 * |bs| bits. */
  function SignedLittleEndian(bs: seq<byte>): (r: int)
    requires |bs| > 0
    ensures -128 * Pow256(|bs| - 1) <= r < 128 * Pow256(|bs| - 1)
  {
    var half := 128 * Pow256(|bs| - 1);
    var u := LittleEndian(bs);
    if u >= half then u - Pow256(|bs|) else u
  }

  // -------------------------------------------------------- list edits

  /** `report[i] |= v`. */
  function OrAt(s: seq<byte>, i: nat, v: byte): (r: seq<byte>)
    requires i < |s|
    ensures |r| == |s| && r[i] == Or(s[i], v)
    ensures forall k :: 0 <= k < |s| && k != i ==> r[k] == s[k]
  {
    s[i := Or(s[i], v)]
  }

  /** `report[i:i+|p|] = p`: a slice write that keeps the length. */
  function Splice(s: seq<byte>, i: nat, p: seq<byte>): (r: seq<byte>)
    requires i + |p| <= |s|
    ensures |r| == |s|
    ensures forall k :: 0 <= k < |p| ==> r[i + k] == p[k]
    ensures forall k :: 0 <= k < |s| && !(i <= k < i + |p|) ==> r[k] == s[k]
  {
    s[..i] + p + s[i + |p|..]
  }

  /** A list of n zero bytes: `[0] * n`. */
  function Zeros(n: nat): (r: seq<byte>)
    ensures |r| == n && forall k :: 0 <= k < n ==> r[k] == 0
  {
    seq(n, _ => 0)
  }
}
