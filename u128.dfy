/** The 128-bit value held by an atomic cell, Rust's `u128`/`i128`
    operations on it, and the `(lo, hi)` pair of 64-bit words that the
    CMPXCHG16B backend works on (the `U128` union and `Pair` struct of
    src/imp/atomic128/x86_64.rs).  Values are natural numbers below 2^128;
    wrapping is written out as `% 2^128`. */
module U128 {
  import opened Bits

  /** 2^64, the base of the pair view. */
  const Base: int := 0x1_0000_0000_0000_0000
  /** 2^128. */
  const Modulus: int := 0x1_0000_0000_0000_0000_0000_0000_0000_0000

  type u64 = x: int | 0 <= x < 0x1_0000_0000_0000_0000
  type u128 = x: int | 0 <= x < 0x1_0000_0000_0000_0000_0000_0000_0000_0000

  /** `u128::MAX`: all 128 bits set. */
  const MAX: u128 := 0xFFFF_FFFF_FFFF_FFFF_FFFF_FFFF_FFFF_FFFF

  /** Low word first, as in the `#[repr(C)]` struct. */
  datatype Pair = Pair(lo: u64, hi: u64)

  /** `U128 { pair }.whole`. */
  function Whole(p: Pair): u128 {
    p.lo + p.hi * Base
  }

  /** `U128 { whole: x }.pair`: the low and the high 64 bits of `x`. */
  function Split(x: u128): (p: Pair)
    ensures Whole(p) == x
  {
    Pair(x % Base, x / Base)
  }

  /** Reading a pair back through the union gives the same two words. */
  lemma SplitWhole(p: Pair)
    ensures Split(Whole(p)) == p
  {
    DivModUnique(Whole(p), Base, p.hi, p.lo);
  }

  /** `a.wrapping_add(b)`. */
  function WrappingAdd(a: u128, b: u128): u128 {
    (a + b) % Modulus
  }

  /** `a.wrapping_sub(b)`. */
  function WrappingSub(a: u128, b: u128): u128 {
    (a - b) % Modulus
  }

  /** `a.wrapping_neg()`. */
  function WrappingNeg(a: u128): u128 {
    (0 - a) % Modulus
  }

  /** Wrapping subtraction undoes wrapping addition. */
  lemma SubUndoesAdd(a: u128, b: u128)
    ensures WrappingSub(WrappingAdd(a, b), b) == a
  {
  }

  /** The wrapping negation is the additive inverse modulo 2^128. */
  lemma NegIsInverse(a: u128)
    ensures WrappingAdd(a, WrappingNeg(a)) == 0
    ensures WrappingNeg(a) == WrappingSub(0, a)
  {
  }

  /** `a & b`. */
  function And(a: u128, b: u128): u128 {
    Pow2Of128();
    Bitwise(AndBits, a, b, 128)
  }

  /** `a | b`. */
  function Or(a: u128, b: u128): u128 {
    Pow2Of128();
    Bitwise(OrBits, a, b, 128)
  }

  /** `a ^ b`. */
  function Xor(a: u128, b: u128): u128 {
    Pow2Of128();
    Bitwise(XorBits, a, b, 128)
  }

  /** `!a`: every bit flipped, which on an unsigned value is `MAX - a`. */
  function Not(a: u128): u128 {
    MAX - a
  }

  /** `!a` is `a ^ u128::MAX`. */
  lemma NotIsXorMax(a: u128)
    ensures Not(a) == Xor(a, MAX)
  {
    Pow2Of128();
    XorAllOnes(a, 128);
  }

  /** `!(a & b)`, the value `fetch_nand` stores. */
  function Nand(a: u128, b: u128): u128 {
    Not(And(a, b))
  }

  /** `x as i128`: the two's complement reading of the same bits. */
  function I128(x: u128): (v: int)
    ensures -0x8000_0000_0000_0000_0000_0000_0000_0000 <= v < 0x8000_0000_0000_0000_0000_0000_0000_0000
    ensures v % Modulus == x
  {
    if x < 0x8000_0000_0000_0000_0000_0000_0000_0000 then x else x - Modulus
  }

  /** `AtomicI128::fetch_max`: the larger of the two as `i128`. */
  function SignedMax(a: u128, b: u128): (r: u128)
    ensures r == a || r == b
    ensures I128(a) <= I128(r) && I128(b) <= I128(r)
  {
    if I128(a) < I128(b) then b else a
  }

  /** `AtomicI128::fetch_min`. */
  function SignedMin(a: u128, b: u128): (r: u128)
    ensures r == a || r == b
    ensures I128(r) <= I128(a) && I128(r) <= I128(b)
  {
    if I128(b) < I128(a) then b else a
  }

  /** `AtomicU128::fetch_max`. */
  function UnsignedMax(a: u128, b: u128): (r: u128)
    ensures r == a || r == b
    ensures a <= r && b <= r
  {
    if a < b then b else a
  }

  /** `AtomicU128::fetch_min`. */
  function UnsignedMin(a: u128, b: u128): (r: u128)
    ensures r == a || r == b
    ensures r <= a && r <= b
  {
    if b < a then b else a
  }

  /** The read-modify-write operations that take a value operand.  `Max`
      and `Min` are those of `AtomicI128`, `UMax` and `UMin` those of
      `AtomicU128`. */
  datatype BinOp = Add | Sub | AndOp | NandOp | OrOp | XorOp | Max | UMax | Min | UMin

  /** The read-modify-write operations without an operand. */
  datatype UnOp = NotOp | NegOp

  /** What `fetch_<op>(val)` leaves in a cell that held `prev`. */
  function Apply(op: BinOp, prev: u128, val: u128): u128 {
    match op
    case Add => WrappingAdd(prev, val)
    case Sub => WrappingSub(prev, val)
    case AndOp => And(prev, val)
    case NandOp => Nand(prev, val)
    case OrOp => Or(prev, val)
    case XorOp => Xor(prev, val)
    case Max => SignedMax(prev, val)
    case UMax => UnsignedMax(prev, val)
    case Min => SignedMin(prev, val)
    case UMin => UnsignedMin(prev, val)
  }

  /** What `fetch_not` and `fetch_neg` leave in a cell that held `prev`. */
  function ApplyUn(op: UnOp, prev: u128): u128 {
    match op
    case NotOp => Not(prev)
    case NegOp => WrappingNeg(prev)
  }
}
