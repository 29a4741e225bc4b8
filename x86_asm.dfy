/** The register sequences that the CMPXCHG16B backend runs between loading
    the previous value into rdx:rax and the `lock cmpxchg16b` that stores
    rcx:rbx (src/imp/atomic128/x86_64.rs:611-710).  Each x86-64 instruction
    is modelled by the value it writes and the status flags it sets; `mov`
    and `cmov` leave the flags alone.  The operand registers are
    rax/rdx = previous value, rsi/r8 = `val`, rbx/rcx = new value, each
    pair low word first. */
module X86Asm {
  import opened Bits
  import opened U128

  /** 2^63, the sign bit of a 64-bit register. */
  const SignBit: int := 0x8000_0000_0000_0000

  /** The carry, sign and overflow flags. */
  datatype Flags = Flags(cf: bool, sf: bool, of: bool)

  /** What an arithmetic instruction leaves: the destination and the flags. */
  datatype Alu = Alu(r: u64, flags: Flags)

  /** A register read as `i64`. */
  function I64(x: u64): int {
    if x < SignBit then x else x - Base
  }

  function CarryIn(c: bool): int {
    if c then 1 else 0
  }

  predicate OutOfI64(v: int) {
    v < -SignBit || SignBit <= v
  }

  /** `add a, b` (c = false) and `adc a, b` (c = CF).  The sum is below
      2^65, so its value modulo 2^64 is the sum less the carry out. */
  function AddWithCarry(a: u64, b: u64, c: bool): (res: Alu)
    ensures res.r == (a + b + CarryIn(c)) % Base
  {
    var sum := a + b + CarryIn(c);
    var carry := sum >= Base;
    var r := if carry then sum - Base else sum;
    DivModUnique(sum, Base, CarryIn(carry), r);
    Alu(r, Flags(carry, r >= SignBit, OutOfI64(I64(a) + I64(b) + CarryIn(c))))
  }

  /** `sub a, b` and `cmp a, b` (c = false), `sbb a, b` (c = CF).  The
      difference is at least -2^64, so its value modulo 2^64 is the
      difference plus 2^64 when a borrow occurs. */
  function SubWithBorrow(a: u64, b: u64, c: bool): (res: Alu)
    ensures res.r == (a - b - CarryIn(c)) % Base
  {
    var diff := a - b - CarryIn(c);
    var borrow := diff < 0;
    var r := if borrow then diff + Base else diff;
    DivModUnique(diff, Base, -CarryIn(borrow), r);
    Alu(r, Flags(borrow, r >= SignBit, OutOfI64(I64(a) - I64(b) - CarryIn(c))))
  }

  /** `neg a`: CF is set unless `a` is zero, exactly as for `0 - a`. */
  function Neg(a: u64): (res: Alu)
    ensures res.r == (Base - a) % Base
    ensures res.flags.cf <==> a != 0
  {
    SubWithBorrow(0, a, false)
  }

  /** `and`, `or`, `xor` and `not` on one register. */
  function AndW(a: u64, b: u64): u64 {
    Pow2Of64();
    Bitwise(AndBits, a, b, 64)
  }

  function OrW(a: u64, b: u64): u64 {
    Pow2Of64();
    Bitwise(OrBits, a, b, 64)
  }

  function XorW(a: u64, b: u64): u64 {
    Pow2Of64();
    Bitwise(XorBits, a, b, 64)
  }

  function NotW(a: u64): u64 {
    Base - 1 - a
  }

  /** The condition codes the max/min sequences test. */
  datatype Cond = L | B | GE | AE

  /** Whether `cmovcc` moves, given the flags. */
  predicate Holds(cc: Cond, f: Flags) {
    match cc
    case L => f.sf != f.of
    case B => f.cf
    case GE => f.sf == f.of
    case AE => !f.cf
  }

  // ---- The sequences ------------------------------------------------------

  /** `mov rbx, rax; add rbx, rsi; mov rcx, rdx; adc rcx, r8`. */
  function AddSeq(prev: Pair, val: Pair): (next: Pair)
    ensures Whole(next) == WrappingAdd(Whole(prev), Whole(val))
  {
    var lo := AddWithCarry(prev.lo, val.lo, false);
    var hi := AddWithCarry(prev.hi, val.hi, lo.flags.cf);
    var carry := CarryIn(hi.flags.cf);
    assert Whole(prev) + Whole(val) == lo.r + hi.r * Base + carry * Modulus;
    DivModUnique(Whole(prev) + Whole(val), Modulus, carry, lo.r + hi.r * Base);
    Pair(lo.r, hi.r)
  }

  /** `mov rbx, rax; sub rbx, rsi; mov rcx, rdx; sbb rcx, r8`. */
  function SubSeq(prev: Pair, val: Pair): (next: Pair)
    ensures Whole(next) == WrappingSub(Whole(prev), Whole(val))
  {
    var lo := SubWithBorrow(prev.lo, val.lo, false);
    var hi := SubWithBorrow(prev.hi, val.hi, lo.flags.cf);
    var borrow := CarryIn(hi.flags.cf);
    assert Whole(prev) - Whole(val) == lo.r + hi.r * Base - borrow * Modulus;
    DivModUnique(Whole(prev) - Whole(val), Modulus, -borrow, lo.r + hi.r * Base);
    Pair(lo.r, hi.r)
  }

  /** `mov rbx, rax; neg rbx; mov rcx, 0; sbb rcx, rdx`. */
  function NegSeq(prev: Pair): (next: Pair)
    ensures Whole(next) == WrappingNeg(Whole(prev))
  {
    var lo := Neg(prev.lo);
    var hi := SubWithBorrow(0, prev.hi, lo.flags.cf);
    var borrow := CarryIn(hi.flags.cf);
    assert 0 - Whole(prev) == lo.r + hi.r * Base - borrow * Modulus;
    DivModUnique(0 - Whole(prev), Modulus, -borrow, lo.r + hi.r * Base);
    Pair(lo.r, hi.r)
  }

  /** A bitwise operation on the two halves is the operation on the whole. */
  lemma HalvesBitwise(op: BitOp, prev: Pair, val: Pair)
    ensures Bitwise(op, Whole(prev), Whole(val), 128)
         == Bitwise(op, prev.lo, val.lo, 64) + Base * Bitwise(op, prev.hi, val.hi, 64)
  {
    Pow2Of64();
    BitwiseSplit(op, Whole(prev), Whole(val), 64, 64);
    DivModUnique(Whole(prev), Base, prev.hi, prev.lo);
    DivModUnique(Whole(val), Base, val.hi, val.lo);
    assert Low(Whole(prev), 64) == prev.lo && High(Whole(prev), 64) == prev.hi;
    assert Low(Whole(val), 64) == val.lo && High(Whole(val), 64) == val.hi;
  }

  /** `mov rbx, rax; and rbx, rsi; mov rcx, rdx; and rcx, r8`. */
  function AndSeq(prev: Pair, val: Pair): (next: Pair)
    ensures Whole(next) == And(Whole(prev), Whole(val))
  {
    HalvesBitwise(AndBits, prev, val);
    Pair(AndW(prev.lo, val.lo), AndW(prev.hi, val.hi))
  }

  /** The `and` sequence followed by `not rbx` and `not rcx`. */
  function NandSeq(prev: Pair, val: Pair): (next: Pair)
    ensures Whole(next) == Nand(Whole(prev), Whole(val))
  {
    HalvesBitwise(AndBits, prev, val);
    Pair(NotW(AndW(prev.lo, val.lo)), NotW(AndW(prev.hi, val.hi)))
  }

  /** `mov rbx, rax; or rbx, rsi; mov rcx, rdx; or rcx, r8`. */
  function OrSeq(prev: Pair, val: Pair): (next: Pair)
    ensures Whole(next) == Or(Whole(prev), Whole(val))
  {
    HalvesBitwise(OrBits, prev, val);
    Pair(OrW(prev.lo, val.lo), OrW(prev.hi, val.hi))
  }

  /** `mov rbx, rax; xor rbx, rsi; mov rcx, rdx; xor rcx, r8`. */
  function XorSeq(prev: Pair, val: Pair): (next: Pair)
    ensures Whole(next) == Xor(Whole(prev), Whole(val))
  {
    HalvesBitwise(XorBits, prev, val);
    Pair(XorW(prev.lo, val.lo), XorW(prev.hi, val.hi))
  }

  /** `mov rbx, rax; not rbx; mov rcx, rdx; not rcx`. */
  function NotSeq(prev: Pair): (next: Pair)
    ensures Whole(next) == Not(Whole(prev))
  {
    Pair(NotW(prev.lo), NotW(prev.hi))
  }

  /** After `sbb`, SF differs from OF exactly when the exact signed
      difference is negative. */
  lemma SignedBorrow(a: u64, b: u64, c: bool)
    ensures var f := SubWithBorrow(a, b, c).flags;
            (f.sf != f.of) <==> I64(a) - I64(b) - CarryIn(c) < 0
  {
  }

  /** The flags that `cmp rsi, rax; sbb rcx, rdx` leave, with rcx = r8:
      the 128-bit comparison of `val` against `prev`. */
  function Compare(prev: Pair, val: Pair): Flags {
    var lo := SubWithBorrow(val.lo, prev.lo, false);
    SubWithBorrow(val.hi, prev.hi, lo.flags.cf).flags
  }

  /** CF after the comparison is the unsigned `val < prev`, and SF != OF
      the signed one. */
  lemma CompareMeaning(prev: Pair, val: Pair)
    ensures Compare(prev, val).cf <==> Whole(val) < Whole(prev)
    ensures Holds(L, Compare(prev, val)) <==> I128(Whole(val)) < I128(Whole(prev))
  {
    var c := SubWithBorrow(val.lo, prev.lo, false).flags.cf;
    SignedBorrow(val.hi, prev.hi, c);
    assert I128(Whole(val)) == val.lo + I64(val.hi) * Base;
    assert I128(Whole(prev)) == prev.lo + I64(prev.hi) * Base;
  }

  /** `cmp rsi, rax; mov rcx, r8; sbb rcx, rdx; mov rcx, r8; cmovcc rcx, rdx;
      mov rbx, rsi; cmovcc rbx, rax`: `prev` when the condition holds,
      `val` otherwise. */
  function CmpSelect(prev: Pair, val: Pair, cc: Cond): (next: Pair)
    ensures next == prev || next == val
  {
    var take := Holds(cc, Compare(prev, val));
    Pair(if take then prev.lo else val.lo, if take then prev.hi else val.hi)
  }

  /** The `cmovl` sequence: signed maximum. */
  function MaxSeq(prev: Pair, val: Pair): (next: Pair)
    ensures Whole(next) == SignedMax(Whole(prev), Whole(val))
  {
    CompareMeaning(prev, val);
    CmpSelect(prev, val, L)
  }

  /** The `cmovb` sequence: unsigned maximum. */
  function UMaxSeq(prev: Pair, val: Pair): (next: Pair)
    ensures Whole(next) == UnsignedMax(Whole(prev), Whole(val))
  {
    CompareMeaning(prev, val);
    CmpSelect(prev, val, B)
  }

  /** The `cmovge` sequence: signed minimum. */
  function MinSeq(prev: Pair, val: Pair): (next: Pair)
    ensures Whole(next) == SignedMin(Whole(prev), Whole(val))
  {
    CompareMeaning(prev, val);
    CmpSelect(prev, val, GE)
  }

  /** The `cmovae` sequence: unsigned minimum. */
  function UMinSeq(prev: Pair, val: Pair): (next: Pair)
    ensures Whole(next) == UnsignedMin(Whole(prev), Whole(val))
  {
    CompareMeaning(prev, val);
    CmpSelect(prev, val, AE)
  }

  /** The `$op` body of each `atomic_rmw_cas_3!` instance. */
  function RmwSeq(op: BinOp, prev: Pair, val: Pair): (next: Pair)
    ensures Whole(next) == Apply(op, Whole(prev), Whole(val))
  {
    match op
    case Add => AddSeq(prev, val)
    case Sub => SubSeq(prev, val)
    case AndOp => AndSeq(prev, val)
    case NandOp => NandSeq(prev, val)
    case OrOp => OrSeq(prev, val)
    case XorOp => XorSeq(prev, val)
    case Max => MaxSeq(prev, val)
    case UMax => UMaxSeq(prev, val)
    case Min => MinSeq(prev, val)
    case UMin => UMinSeq(prev, val)
  }

  /** The `$op` body of each `atomic_rmw_cas_2!` instance. */
  function RmwUnSeq(op: UnOp, prev: Pair): (next: Pair)
    ensures Whole(next) == ApplyUn(op, Whole(prev))
  {
    match op
    case NotOp => NotSeq(prev)
    case NegOp => NegSeq(prev)
  }
}
