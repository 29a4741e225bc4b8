/** The CMPXCHG16B backend of `AtomicI128`/`AtomicU128` for x86_64
    (src/imp/atomic128/x86_64.rs), run by a single thread: each operation
    is a state transformer on one `Cell`.  Compile-time `cfg`s are a
    `Build` value and the CPUID result a `Cpuid` value, so that every
    selection the file makes is an ordinary function of them. */
module X86_64 {
  import opened U128
  import opened X86Asm
  import opened Orderings
  import opened Memory
  import Fallback

  /** The `cfg`s the file tests. */
  datatype Build = Build(
    /** `target_feature = "cmpxchg16b"` (or its `portable_atomic_` twin). */
    cmpxchg16bStatic: bool,
    /** Inline assembly is usable: neither `miri` nor
        `portable_atomic_sanitize_thread`. */
    inlineAsm: bool,
    /** Load and store pick their implementation at run time: `sse`, and
        none of `portable_atomic_no_outline_atomics`, `target_env = "sgx"`,
        `miri`, `portable_atomic_sanitize_thread`. */
    outlineAtomics: bool)

  /** What `detect::detect()` reports about the running CPU. */
  datatype Cpuid = Cpuid(hasCmpxchg16b: bool, hasVmovdqaAtomic: bool)

  /** A binary compiled with CMPXCHG16B enabled only runs on CPUs that
      have it. */
  predicate Consistent(b: Build, id: Cpuid) {
    b.cmpxchg16bStatic ==> id.hasCmpxchg16b
  }

  // ---- Selection --------------------------------------------------------

  datatype LoadImpl = LoadVmovdqa | LoadCmpxchg16b

  /** The implementation `atomic_load` runs. */
  function SelectLoad(b: Build, id: Cpuid): LoadImpl {
    if b.outlineAtomics && id.hasCmpxchg16b && id.hasVmovdqaAtomic then LoadVmovdqa
    else LoadCmpxchg16b
  }

  /** The implementation `atomic_store` runs; `Unreachable` is the
      `unreachable!()` arm. */
  datatype StoreImpl = StoreVmovdqa(order: Ordering) | StoreCmpxchg16b | Unreachable

  function SelectStore(b: Build, id: Cpuid, order: Ordering): StoreImpl {
    if !b.outlineAtomics then StoreCmpxchg16b
    else
      match order
      case Relaxed | Release =>
        if id.hasCmpxchg16b && id.hasVmovdqaAtomic then StoreVmovdqa(Relaxed) else StoreCmpxchg16b
      case SeqCst =>
        if id.hasCmpxchg16b && id.hasVmovdqaAtomic then StoreVmovdqa(SeqCst) else StoreCmpxchg16b
      case _ => Unreachable
  }

  /** The compare-exchange that `atomic_compare_exchange` calls. */
  datatype CasImpl = Native | Locked

  function SelectCas(b: Build, id: Cpuid): CasImpl {
    if b.cmpxchg16bStatic || id.hasCmpxchg16b then Native else Locked
  }

  /** How the read-modify-write operations are built: the hand-written
      `atomic_rmw_cas_*` loops, or `atomic_rmw_by_atomic_update!`. */
  datatype RmwImpl = InlineCasLoop | ByAtomicUpdate

  function SelectRmw(b: Build): RmwImpl {
    if b.cmpxchg16bStatic && b.inlineAsm then InlineCasLoop else ByAtomicUpdate
  }

  /** `is_lock_free()`. */
  function IsLockFree(id: Cpuid): bool {
    id.hasCmpxchg16b
  }

  /** `is_always_lock_free()`. */
  function IsAlwaysLockFree(b: Build): bool {
    b.cmpxchg16bStatic
  }

  /** The vector path is taken only when the CPU has both CMPXCHG16B and
      atomic VMOVDQA, and then always, for loads and for the accepted
      store orderings. */
  lemma VectorPathNeedsBoth(b: Build, id: Cpuid, order: Ordering)
    ensures SelectLoad(b, id) == LoadVmovdqa
        <==> b.outlineAtomics && id.hasCmpxchg16b && id.hasVmovdqaAtomic
    ensures SelectStore(b, id, order).StoreVmovdqa?
        <==> b.outlineAtomics && id.hasCmpxchg16b && id.hasVmovdqaAtomic && IsStoreOrdering(order)
  {
  }

  /** Atomic and lock-based accesses are never mixed: whenever a load or
      a store uses VMOVDQA, compare-exchange uses CMPXCHG16B. */
  lemma NoMixedAccess(b: Build, id: Cpuid, order: Ordering)
    ensures SelectLoad(b, id) == LoadVmovdqa ==> SelectCas(b, id) == Native
    ensures SelectStore(b, id, order).StoreVmovdqa? ==> SelectCas(b, id) == Native
  {
  }

  /** Compare-exchange falls back to the lock exactly when CMPXCHG16B is
      neither enabled at compile time nor detected. */
  lemma FallbackExactlyWithout(b: Build, id: Cpuid)
    ensures SelectCas(b, id) == Locked <==> !b.cmpxchg16bStatic && !id.hasCmpxchg16b
  {
  }

  /** `is_lock_free()` says whether compare-exchange is the native one,
      and `is_always_lock_free()` implies it. */
  lemma LockFreeMeansNative(b: Build, id: Cpuid)
    requires Consistent(b, id)
    ensures IsLockFree(id) <==> SelectCas(b, id) == Native
    ensures IsAlwaysLockFree(b) ==> IsLockFree(id)
  {
  }

  /** With run-time selection, store reaches `unreachable!()` exactly for
      the orderings a store may not use; without it every ordering goes to
      the swap. */
  lemma StoreOrderingsAccepted(b: Build, id: Cpuid, order: Ordering)
    ensures b.outlineAtomics ==> (SelectStore(b, id, order) != Unreachable <==> IsStoreOrdering(order))
    ensures !b.outlineAtomics ==> SelectStore(b, id, order) == StoreCmpxchg16b
  {
  }

  // ---- Primitive --------------------------------------------------------

  /** `_cmpxchg16b`: `lock cmpxchg16b` compares rdx:rax with the 16 bytes
      at `dst`; if equal it stores rcx:rbx and sets ZF, otherwise it loads
      the memory into rdx:rax.  `sete r8b` then returns ZF. */
  method Cmpxchg16b(dst: Cell, expected: u128, desired: u128) returns (prev: u128, ok: bool)
    modifies dst
    ensures prev == old(dst.value)
    ensures ok <==> old(dst.value) == expected
    ensures dst.value == if ok then desired else old(dst.value)
  {
    var rdxRax := Split(expected);
    var rcxRbx := Split(desired);
    var mem := Split(dst.value);
    var zf := mem == rdxRax;
    if zf {
      dst.value := Whole(rcxRbx);
    } else {
      rdxRax := mem;
    }
    var r8b := if zf then 1 else 0;
    prev, ok := Whole(rdxRax), r8b != 0;
  }

  /** The quickcheck property of `_cmpxchg16b` over all `x`, `y`, `z`. */
  method CmpxchgQuickcheck(x: u128, y: u128, z: u128) returns (passed: bool)
    ensures passed
  {
    var a := new Cell(x);
    var res, ok := Cmpxchg16b(a, y, z);
    if x == y {
      passed := ok && res == x && a.value == z;
    } else {
      passed := !ok && res == x && a.value == x;
    }
  }

  /** `atomic_compare_exchange` (and `atomic_compare_exchange_weak`, an
      alias of it). */
  method AtomicCompareExchange(b: Build, id: Cpuid, dst: Cell, expected: u128, desired: u128)
    returns (r: CasResult)
    modifies dst
    ensures r.value == old(dst.value)
    ensures r.Ok? <==> old(dst.value) == expected
    ensures dst.value == if r.Ok? then desired else old(dst.value)
  {
    var res, ok;
    if SelectCas(b, id) == Native {
      res, ok := Cmpxchg16b(dst, expected, desired);
    } else {
      res, ok := Fallback.AtomicCompareExchange(dst, expected, desired);
    }
    r := FromPair(res, ok);
  }

  // ---- Loads and stores -------------------------------------------------

  /** `_atomic_load_vmovdqa`: one 16-byte vector load. */
  method AtomicLoadVmovdqa(src: Cell) returns (v: u128)
    ensures v == src.value
  {
    v := src.value;
  }

  /** `_atomic_store_vmovdqa`: one 16-byte vector store, followed by
      `mfence` for `SeqCst`. */
  method AtomicStoreVmovdqa(dst: Cell, val: u128, order: Ordering)
    requires IsStoreOrdering(order)
    modifies dst
    ensures dst.value == val
  {
    match order
    case Relaxed | Release =>
      dst.value := val;
    case SeqCst =>
      dst.value := val;
  }

  /** `_atomic_load_cmpxchg16b`: compare-exchange of 0 against 0, whose
      `Ok` and `Err` both carry the current value.  When the cell holds 0
      it is overwritten with 0, so it never changes. */
  method AtomicLoadCmpxchg16b(b: Build, id: Cpuid, src: Cell) returns (v: u128)
    modifies src
    ensures v == old(src.value)
    ensures src.value == old(src.value)
  {
    var r := AtomicCompareExchange(b, id, src, 0, 0);
    v := r.value;
  }

  /** `atomic_load`. */
  method AtomicLoad(b: Build, id: Cpuid, src: Cell) returns (v: u128)
    modifies src
    ensures v == old(src.value)
    ensures src.value == old(src.value)
  {
    if SelectLoad(b, id) == LoadVmovdqa {
      v := AtomicLoadVmovdqa(src);
    } else {
      v := AtomicLoadCmpxchg16b(b, id, src);
    }
  }

  /** `byte_wise_atomic_load`: two 64-bit loads, of the low and the high
      word; without inline assembly, `atomic_load`. */
  method ByteWiseAtomicLoad(b: Build, id: Cpuid, src: Cell) returns (v: u128)
    modifies src
    ensures v == old(src.value)
    ensures src.value == old(src.value)
  {
    if b.inlineAsm {
      var prevLo := Split(src.value).lo;
      var prevHi := Split(src.value).hi;
      v := Whole(Pair(prevLo, prevHi));
    } else {
      v := AtomicLoad(b, id, src);
    }
  }

  // ---- Retry loops ------------------------------------------------------
  // Each loop is run against the stores `others` that other threads make
  // between its attempts (see `Memory.Contend`).  Whatever they store, the
  // loop ends with the cell holding the new value computed from the value
  // the successful exchange found, and that value is the one returned.

  /** `atomic_update`: load, compute `f(old)`, try to exchange; on failure
      retry with the value the failed exchange returned. */
  method AtomicUpdate(b: Build, id: Cpuid, dst: Cell, f: u128 -> u128, others: seq<u128>)
    returns (prev: u128)
    modifies dst
    ensures dst.value == f(prev)
    ensures prev == Found(old(dst.value), old(dst.value), others, [])
    ensures prev == old(dst.value) || prev in others
    ensures others == [] ==> prev == old(dst.value)
  {
    var cur := ByteWiseAtomicLoad(b, id, dst);
    FoundStored(cur, cur, others, []);
    FoundUncontended(cur, cur, []);
    var i := 0;
    while true
      invariant 0 <= i <= |others|
      invariant Found(cur, dst.value, Drop(others, i), []) == Found(old(dst.value), old(dst.value), others, [])
      decreases |others| - i, if cur == dst.value then 0 else 1
    {
      FoundStep(cur, dst.value, others, [], i);
      Contend(dst, others, i);
      if i < |others| {
        i := i + 1;
      }
      var next := f(cur);
      var r := AtomicCompareExchange(b, id, dst, cur, next);
      match r
      case Ok(x) =>
        return x;
      case Err(x) =>
        cur := x;
    }
  }

  /** The loop shared by `atomic_swap` and the `atomic_rmw_cas_*!`
      instances: load rdx:rax in two 64-bit moves, then `2:` compute rcx:rbx
      with `$op` from rdx:rax, `lock cmpxchg16b`, `jne 2b`.  A failed
      attempt leaves the value it found in rdx:rax. */
  method CmpxchgLoop(dst: Cell, op: Pair -> Pair, others: seq<u128>) returns (prev: u128)
    modifies dst
    ensures dst.value == Whole(op(Split(prev)))
    ensures prev == Found(old(dst.value), old(dst.value), others, [])
    ensures prev == old(dst.value) || prev in others
    ensures others == [] ==> prev == old(dst.value)
  {
    var rdxRax := Split(dst.value);
    FoundStored(dst.value, dst.value, others, []);
    FoundUncontended(dst.value, dst.value, []);
    var i := 0;
    while true
      invariant 0 <= i <= |others|
      invariant Found(Whole(rdxRax), dst.value, Drop(others, i), [])
             == Found(old(dst.value), old(dst.value), others, [])
      decreases |others| - i, if Whole(rdxRax) == dst.value then 0 else 1
    {
      FoundStep(Whole(rdxRax), dst.value, others, [], i);
      Contend(dst, others, i);
      if i < |others| {
        i := i + 1;
      }
      var rcxRbx := op(rdxRax);
      var res, zf := Cmpxchg16b(dst, Whole(rdxRax), Whole(rcxRbx));
      if zf {
        SplitWhole(rdxRax);
        return res;
      }
      rdxRax := Split(res);
    }
  }

  /** `atomic_swap`: the loop with an empty `$op` and rcx:rbx = `val`. */
  method AtomicSwap(dst: Cell, val: u128, others: seq<u128>) returns (prev: u128)
    modifies dst
    ensures dst.value == val
    ensures prev == Found(old(dst.value), old(dst.value), others, [])
    ensures prev == old(dst.value) || prev in others
    ensures others == [] ==> prev == old(dst.value)
  {
    var rcxRbx := Split(val);
    prev := CmpxchgLoop(dst, _ => rcxRbx, others);
  }

  /** An `atomic_rmw_cas_3!` instance: `$op` reads rdx:rax and
      r8:rsi = `val`. */
  method AtomicRmwCas3(op: BinOp, dst: Cell, val: u128, others: seq<u128>) returns (prev: u128)
    modifies dst
    ensures dst.value == Apply(op, prev, val)
    ensures prev == Found(old(dst.value), old(dst.value), others, [])
    ensures prev == old(dst.value) || prev in others
    ensures others == [] ==> prev == old(dst.value)
  {
    var r8Rsi := Split(val);
    prev := CmpxchgLoop(dst, rdxRax => RmwSeq(op, rdxRax, r8Rsi), others);
  }

  /** An `atomic_rmw_cas_2!` instance (`not`, `neg`): `$op` reads rdx:rax. */
  method AtomicRmwCas2(op: UnOp, dst: Cell, others: seq<u128>) returns (prev: u128)
    modifies dst
    ensures dst.value == ApplyUn(op, prev)
    ensures prev == Found(old(dst.value), old(dst.value), others, [])
    ensures prev == old(dst.value) || prev in others
    ensures others == [] ==> prev == old(dst.value)
  {
    prev := CmpxchgLoop(dst, rdxRax => RmwUnSeq(op, rdxRax), others);
  }

  // ---- The operations as the build assembles them -----------------------

  /** `atomic_swap`, whichever way the build provides it. */
  method Swap(b: Build, id: Cpuid, dst: Cell, val: u128, others: seq<u128>) returns (prev: u128)
    modifies dst
    ensures dst.value == val
    ensures prev == Found(old(dst.value), old(dst.value), others, [])
    ensures prev == old(dst.value) || prev in others
    ensures others == [] ==> prev == old(dst.value)
  {
    if SelectRmw(b) == InlineCasLoop {
      prev := AtomicSwap(dst, val, others);
    } else {
      prev := AtomicUpdate(b, id, dst, _ => val, others);
    }
  }

  /** `atomic_add`, `atomic_sub`, ..., `atomic_umin`, whichever way the
      build provides them. */
  method Rmw(b: Build, id: Cpuid, op: BinOp, dst: Cell, val: u128, others: seq<u128>)
    returns (prev: u128)
    modifies dst
    ensures dst.value == Apply(op, prev, val)
    ensures prev == Found(old(dst.value), old(dst.value), others, [])
    ensures prev == old(dst.value) || prev in others
    ensures others == [] ==> prev == old(dst.value)
  {
    if SelectRmw(b) == InlineCasLoop {
      prev := AtomicRmwCas3(op, dst, val, others);
    } else {
      prev := AtomicUpdate(b, id, dst, x => Apply(op, x, val), others);
    }
  }

  /** `atomic_not` and `atomic_neg`, whichever way the build provides them. */
  method RmwUn(b: Build, id: Cpuid, op: UnOp, dst: Cell, others: seq<u128>) returns (prev: u128)
    modifies dst
    ensures dst.value == ApplyUn(op, prev)
    ensures prev == Found(old(dst.value), old(dst.value), others, [])
    ensures prev == old(dst.value) || prev in others
    ensures others == [] ==> prev == old(dst.value)
  {
    if SelectRmw(b) == InlineCasLoop {
      prev := AtomicRmwCas2(op, dst, others);
    } else {
      prev := AtomicUpdate(b, id, dst, x => ApplyUn(op, x), others);
    }
  }

  /** `_atomic_store_cmpxchg16b`: a swap whose result is dropped. */
  method AtomicStoreCmpxchg16b(b: Build, id: Cpuid, dst: Cell, val: u128, others: seq<u128>)
    modifies dst
    ensures dst.value == val
  {
    var _ := Swap(b, id, dst, val, others);
  }

  /** `atomic_store`. */
  method AtomicStore(b: Build, id: Cpuid, dst: Cell, val: u128, order: Ordering, others: seq<u128>)
    requires b.outlineAtomics ==> IsStoreOrdering(order)
    modifies dst
    ensures dst.value == val
  {
    match SelectStore(b, id, order)
    case StoreVmovdqa(o) =>
      AtomicStoreVmovdqa(dst, val, o);
    case StoreCmpxchg16b =>
      AtomicStoreCmpxchg16b(b, id, dst, val, others);
    case Unreachable =>
      assert false;
  }
}
