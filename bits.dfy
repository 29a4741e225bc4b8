/** Unsigned integers of a given bit width as natural numbers, and the
    bitwise operators `&`, `|`, `^` defined one bit at a time.  Everything
    else in the model states Rust's fixed-width integer operations on top of
    these definitions, so that no step relies on the verifier's own
    bit-vector theory. */
module Bits {

  /** 2^n. */
  function Pow2(n: nat): (r: nat)
    ensures r >= 1
  {
    if n == 0 then 1 else 2 * Pow2(n - 1)
  }

  lemma {:induction false} Pow2Add(a: nat, b: nat)
    ensures Pow2(a + b) == Pow2(a) * Pow2(b)
  {
    if a > 0 {
      Pow2Add(a - 1, b);
      assert Pow2(a + b) == 2 * Pow2(a - 1 + b);
    }
  }

  lemma Pow2Of16()
    ensures Pow2(16) == 0x1_0000
  {
    assert Pow2(4) == 16;
    assert Pow2(8) == 0x100 by { Pow2Add(4, 4); }
    Pow2Add(8, 8);
  }

  /** The powers of two that a 64-bit word uses. */
  lemma Pow2Of64()
    ensures Pow2(63) == 0x8000_0000_0000_0000
    ensures Pow2(64) == 0x1_0000_0000_0000_0000
  {
    Pow2Of16();
    assert Pow2(32) == 0x1_0000_0000 by { Pow2Add(16, 16); }
    Pow2Add(32, 32);
    MulConst(Pow2(32), 0x1_0000_0000);
    assert Pow2(64) == 2 * Pow2(63);
  }

  /** The powers of two that a 128-bit word uses. */
  lemma Pow2Of128()
    ensures Pow2(127) == 0x8000_0000_0000_0000_0000_0000_0000_0000
    ensures Pow2(128) == 0x1_0000_0000_0000_0000_0000_0000_0000_0000
  {
    Pow2Of64();
    Pow2Add(64, 64);
    assert Pow2(128) == 2 * Pow2(127);
  }

  /** The low `k` bits of `a`. */
  function Low(a: nat, k: nat): (r: nat)
    ensures r < Pow2(k)
  {
    a % Pow2(k)
  }

  /** The bits of `a` above the low `k` ones. */
  function High(a: nat, k: nat): nat {
    DivNonNegative(a, Pow2(k));
    a / Pow2(k)
  }

  lemma DivNonNegative(a: nat, d: int)
    requires d > 0
    ensures a / d >= 0
  {
  }

  /** Division with remainder is unique. */
  lemma DivModUnique(x: int, d: int, q: int, r: int)
    requires d > 0 && 0 <= r < d && x == q * d + r
    ensures x / d == q && x % d == r
  {
    var q', r' := x / d, x % d;
    assert x == q' * d + r';
    assert (q - q') * d == r' - r;
    if q > q' {
      MulAtLeast(q - q', d);
    } else if q < q' {
      MulAtLeast(q' - q, d);
    }
  }

  lemma MulConst(x: int, c: int)
    requires x == c
    ensures x * x == c * c
  {
  }

  lemma MulAssoc(a: int, b: int, c: int)
    ensures a * (b * c) == (a * b) * c
  {
  }

  lemma MulAtLeast(k: int, d: int)
    requires k >= 1 && d > 0
    ensures k * d >= d
  {
  }

  /** How the lowest bit and the bits above it of `a mod 2p` relate to those
      of `a`. */
  lemma {:induction false} DivModHalf(a: nat, p: nat)
    requires p >= 1
    ensures (a % (2 * p)) % 2 == a % 2
    ensures (a % (2 * p)) / 2 == (a / 2) % p
    ensures (a / 2) / p == a / (2 * p)
  {
    var q, r := a / (2 * p), a % (2 * p);
    assert a == q * (2 * p) + r;
    DivModUnique(r, 2, r / 2, r % 2);
    DivModUnique(a, 2, q * p + r / 2, r % 2);
    DivModUnique(a / 2, p, q, r / 2);
  }

  /** The operators that combine two words bit by bit. */
  datatype BitOp = AndBits | OrBits | XorBits

  /** The operator on one bit of each operand. */
  function BitOf(op: BitOp, x: nat, y: nat): (r: nat)
    requires x < 2 && y < 2
    ensures r < 2
  {
    match op
    case AndBits => if x == 1 && y == 1 then 1 else 0
    case OrBits => if x == 1 || y == 1 then 1 else 0
    case XorBits => if x != y then 1 else 0
  }

  /** The low `n` bits of `a op b`, lowest bit first. */
  function Bitwise(op: BitOp, a: nat, b: nat, n: nat): (r: nat)
    ensures r < Pow2(n)
    decreases n
  {
    if n == 0 then 0
    else BitOf(op, a % 2, b % 2) + 2 * Bitwise(op, a / 2, b / 2, n - 1)
  }

  /** A bitwise operation on `k + n` bits is the operation on the low `k`
      bits next to the operation on the `n` bits above them. */
  lemma {:induction false} BitwiseSplit(op: BitOp, a: nat, b: nat, k: nat, n: nat)
    ensures Bitwise(op, a, b, k + n)
         == Bitwise(op, Low(a, k), Low(b, k), k) + Pow2(k) * Bitwise(op, High(a, k), High(b, k), n)
  {
    if k == 0 {
      assert Low(a, 0) == 0 && Low(b, 0) == 0;
      assert High(a, 0) == a && High(b, 0) == b;
    } else {
      LowHighStep(a, k);
      LowHighStep(b, k);
      BitwiseSplit(op, a / 2, b / 2, k - 1, n);
      var x := Bitwise(op, Low(a / 2, k - 1), Low(b / 2, k - 1), k - 1);
      var y := Bitwise(op, High(a, k), High(b, k), n);
      assert Bitwise(op, a / 2, b / 2, k - 1 + n) == x + Pow2(k - 1) * y;
      var la, lb := Low(a, k), Low(b, k);
      assert Bitwise(op, la, lb, k) == BitOf(op, la % 2, lb % 2) + 2 * Bitwise(op, la / 2, lb / 2, k - 1);
      assert Pow2(k) * y == 2 * (Pow2(k - 1) * y) by {
        MulAssoc(2, Pow2(k - 1), y);
      }
    }
  }

  /** `Low` and `High` at `k` bits, seen from the lowest bit of `a`. */
  lemma LowHighStep(a: nat, k: nat)
    requires k > 0
    ensures Low(a, k) % 2 == a % 2
    ensures Low(a, k) / 2 == Low(a / 2, k - 1)
    ensures High(a / 2, k - 1) == High(a, k)
  {
    DivModHalf(a, Pow2(k - 1));
  }

  /** Exclusive or with all ones complements every bit. */
  lemma {:induction false} XorAllOnes(a: nat, n: nat)
    requires a < Pow2(n)
    ensures Bitwise(XorBits, a, Pow2(n) - 1, n) == Pow2(n) - 1 - a
  {
    if n > 0 {
      var p := Pow2(n - 1);
      DivModUnique(Pow2(n) - 1, 2, p - 1, 1);
      XorAllOnes(a / 2, n - 1);
    }
  }
}
