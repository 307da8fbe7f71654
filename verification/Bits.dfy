/** 32-bit words as numbers: wrap-around, and the bitwise OR and XOR that the C code packs its fields with. */
module Bits {

  const WORD := 0x1_0000_0000
  const HALF := 0x8000_0000

  /** Reduction to an unsigned 32-bit word. */
  function U32(n: int): (r: nat)
    ensures r < WORD
  {
    n % WORD
  }

  /** Reinterpretation as a two's complement 32-bit integer. */
  function S32(n: int): (r: int)
    ensures -HALF <= r < HALF
  {
    (n + HALF) % WORD - HALF
  }

  /** S32 picks the representative of n modulo 2^32, and leaves numbers already in range alone. */
  lemma S32Congruent(n: int)
    ensures U32(S32(n)) == U32(n)
    ensures -HALF <= n < HALF ==> S32(n) == n
  {
    assert S32(n) == n - WORD * ((n + HALF) / WORD);
  }

  /** Adding a wrapped summand and wrapping again is the same as adding and wrapping once. */
  lemma S32Absorbs(a: int, b: int)
    ensures S32(S32(a) + b) == S32(a + b)
  {
    var q := (a + HALF) / WORD;
    assert S32(a) == a - WORD * q;
    assert (S32(a) + b + HALF) % WORD == (a + b + HALF) % WORD by {
      assert S32(a) + b + HALF == a + b + HALF + WORD * (-q);
      ModShift(a + b + HALF, -q);
    }
  }

  lemma ModShift(n: int, q: int)
    ensures (n + WORD * q) % WORD == n % WORD
  {
  }

  function Min(a: nat, b: nat): nat {
    if a < b then a else b
  }

  function Pow2(k: nat): (r: nat)
    ensures r > 0
  {
    if k == 0 then 1 else 2 * Pow2(k - 1)
  }

  /** Bitwise OR of two naturals, lowest bit first. */
  function Or(a: nat, b: nat): nat
  {
    if a == 0 then b
    else if b == 0 then a
    else (if a % 2 == 1 || b % 2 == 1 then 1 else 0) + 2 * Or(a / 2, b / 2)
  }

  /** Bitwise exclusive OR. */
  function Xor(a: nat, b: nat): nat
  {
    if a == 0 then b
    else if b == 0 then a
    else (if a % 2 != b % 2 then 1 else 0) + 2 * Xor(a / 2, b / 2)
  }

  /** XORing with 2^k flips bit k, the lowest bit of m below, and no other bit. */
  lemma {:induction false} XorBit(m: nat, k: nat, lo: nat)
    requires lo < Pow2(k)
    ensures Xor(m * Pow2(k) + lo, Pow2(k)) == (if m % 2 == 0 then m + 1 else m - 1) * Pow2(k) + lo
  {
    hide Xor;
    if k == 0 {
      XorOne(m);
    } else {
      var f := if m % 2 == 0 then m + 1 else m - 1;
      var p := Pow2(k - 1);
      Double(m, p);
      Double(f, p);
      XorBit(m, k - 1, lo / 2);
      XorHalves(m * p + lo / 2, lo % 2, p);
    }
  }

  lemma XorOne(m: nat)
    ensures Xor(m, 1) == if m % 2 == 0 then m + 1 else m - 1
  {
    assert Xor(m / 2, 0) == m / 2;
  }

  lemma Double(m: nat, p: nat)
    ensures m * (2 * p) == 2 * (m * p)
  {
  }

  lemma XorHalves(a: nat, bit: nat, b: nat)
    requires bit < 2 && b > 0
    ensures Xor(2 * a + bit, 2 * b) == 2 * Xor(a, b) + bit
  {
    assert (2 * a + bit) / 2 == a && (2 * b) / 2 == b;
  }

  lemma OrHalves(a: nat, i: nat, b: nat, j: nat)
    requires i < 2 && j < 2
    ensures Or(2 * a + i, 2 * b + j) == 2 * Or(a, b) + (if i == 1 || j == 1 then 1 else 0)
  {
    assert (2 * a + i) / 2 == a && (2 * b + j) / 2 == b;
  }

  /** OR acts on the bits above and below position k separately. */
  lemma {:induction false} OrSplits(a: nat, b: nat, k: nat, lo: nat)
    requires lo < Pow2(k)
    ensures Or(a * Pow2(k) + lo, b * Pow2(k)) == Or(a, b) * Pow2(k) + lo
  {
    hide Or;
    if k > 0 {
      var p := Pow2(k - 1);
      Double(a, p);
      Double(b, p);
      Double(Or(a, b), p);
      OrSplits(a, b, k - 1, lo / 2);
      OrHalves(a * p + lo / 2, lo % 2, b * p, 0);
    }
  }

  /** ORing a field into bits the other operand leaves clear is addition. */
  lemma {:induction false} OrDisjoint(hi: nat, k: nat, lo: nat)
    requires lo < Pow2(k)
    ensures Or(hi * Pow2(k), lo) == hi * Pow2(k) + lo
  {
    hide Or;
    if k > 0 {
      Double(hi, Pow2(k - 1));
      OrDisjoint(hi, k - 1, lo / 2);
      OrHalves(hi * Pow2(k - 1), 0, lo / 2, lo % 2);
    } else {
      OrZero(hi);
    }
  }

  lemma OrZero(a: nat)
    ensures Or(a, 0) == a
  {
  }
}
