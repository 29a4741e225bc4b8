/** The backend of `AtomicI128`/`AtomicU128` built without inline assembly
    (src/imp/atomic128/intrinsics.rs): `core::arch::x86_64::cmpxchg16b` on
    x86_64, the `core::intrinsics::atomic_*` family on aarch64, powerpc64
    and s390x.  The intrinsics are compiler built-ins whose code is not
    visible; each is modelled by what it does to the cell. */
module Intrinsics {
  import opened U128
  import opened Orderings
  import opened Memory
  import Fallback

  datatype Arch = ArchX86_64 | ArchAarch64 | ArchPowerpc64 | ArchS390x

  /** `target_arch`, and on x86_64 whether `target_feature = "cmpxchg16b"`
      is enabled at compile time. */
  datatype Target = Target(arch: Arch, cmpxchg16bStatic: bool)

  // ---- Ordering tables (targets other than x86_64) -----------------------

  /** The orderings `atomic_load`'s `match order` has an intrinsic for. */
  predicate LoadTable(order: Ordering) {
    match order
    case Acquire => true
    case Relaxed => true
    case SeqCst => true
    case _ => false
  }

  /** The orderings `atomic_store`'s `match order` has an intrinsic for. */
  predicate StoreTable(order: Ordering) {
    match order
    case Release => true
    case Relaxed => true
    case SeqCst => true
    case _ => false
  }

  /** The `(success, failure)` pairs that `atomic_compare_exchange` and
      `atomic_compare_exchange_weak` map to an `atomic_cxchg*` intrinsic. */
  predicate CxchgTable(success: Ordering, failure: Ordering) {
    match (success, failure)
    case (Relaxed, Relaxed) => true
    case (Relaxed, Acquire) => true
    case (Relaxed, SeqCst) => true
    case (Acquire, Relaxed) => true
    case (Acquire, Acquire) => true
    case (Acquire, SeqCst) => true
    case (Release, Relaxed) => true
    case (Release, Acquire) => true
    case (Release, SeqCst) => true
    case (AcqRel, Relaxed) => true
    case (AcqRel, Acquire) => true
    case (AcqRel, SeqCst) => true
    case (SeqCst, Relaxed) => true
    case (SeqCst, Acquire) => true
    case (SeqCst, SeqCst) => true
    case _ => false
  }

  /** Load and store reach `unreachable!()` exactly for the orderings a
      load, respectively a store, may not use. */
  lemma LoadStoreTables(order: Ordering)
    ensures LoadTable(order) <==> IsLoadOrdering(order)
    ensures StoreTable(order) <==> IsStoreOrdering(order)
  {
  }

  /** The compare-exchange table accepts every success ordering and
      exactly the failure orderings Relaxed, Acquire and SeqCst. */
  lemma CxchgTableAcceptsValidFailure(success: Ordering, failure: Ordering)
    ensures CxchgTable(success, failure) <==> IsFailureOrdering(failure)
  {
  }

  // ---- Selection --------------------------------------------------------

  /** The compare-and-swap `atomic_compare_exchange` ends up calling. */
  datatype CasImpl = ArchCmpxchg16b | Locked | CxchgIntrinsic

  /** `detected` is `detect::detect().has_cmpxchg16b()`. */
  function SelectCas(t: Target, detected: bool): CasImpl {
    if t.arch != ArchX86_64 then CxchgIntrinsic
    else if t.cmpxchg16bStatic || detected then ArchCmpxchg16b
    else Locked
  }

  /** `IS_ALWAYS_LOCK_FREE`. */
  function IsAlwaysLockFree(t: Target): bool {
    if t.arch == ArchX86_64 then t.cmpxchg16bStatic else true
  }

  /** `is_lock_free()`. */
  function IsLockFree(t: Target, detected: bool): bool {
    if t.arch != ArchX86_64 then IsAlwaysLockFree(t)
    else if t.cmpxchg16bStatic then true
    else detected
  }

  /** The lock is used exactly on x86_64 when CMPXCHG16B is neither
      enabled nor detected. */
  lemma FallbackExactlyWithout(t: Target, detected: bool)
    ensures SelectCas(t, detected) == Locked
        <==> t.arch == ArchX86_64 && !t.cmpxchg16bStatic && !detected
  {
  }

  /** `is_lock_free()` says whether compare-exchange avoids the lock; it
      is always true off x86_64, and `IS_ALWAYS_LOCK_FREE` implies it. */
  lemma LockFreeMeansNoLock(t: Target, detected: bool)
    ensures IsLockFree(t, detected) <==> SelectCas(t, detected) != Locked
    ensures t.arch != ArchX86_64 ==> IsLockFree(t, detected)
    ensures IsAlwaysLockFree(t) ==> IsLockFree(t, detected)
  {
  }

  /** Whether a read-modify-write operation is a `core::intrinsics` call
      or built on `atomic_update` by `atomic_rmw_by_atomic_update!`: always
      the latter on x86_64 and s390x, and for max/min on powerpc64. */
  predicate HasRmwIntrinsic(arch: Arch, op: BinOp) {
    if arch == ArchX86_64 || arch == ArchS390x then false
    else if arch == ArchPowerpc64 then !(op == Max || op == UMax || op == Min || op == UMin)
    else true
  }

  /** Whether `atomic_swap`, `atomic_not` and `atomic_neg` are defined in
      this file rather than by `atomic_rmw_by_atomic_update!`. */
  predicate HasSwapIntrinsic(arch: Arch) {
    arch != ArchX86_64 && arch != ArchS390x
  }

  // ---- Compare-exchange -------------------------------------------------

  /** `core::arch::x86_64::cmpxchg16b`: returns the value it found and
      stores `desired` when that equals `expected`. */
  method ArchCmpxchg16bIntrinsic(dst: Cell, expected: u128, desired: u128) returns (res: u128)
    modifies dst
    ensures res == old(dst.value)
    ensures dst.value == if res == expected then desired else old(dst.value)
  {
    res := dst.value;
    if res == expected {
      dst.value := desired;
    }
  }

  /** The local `cmpxchg16b` of `atomic_compare_exchange`: success is
      `res == old`. */
  method Cmpxchg16b(dst: Cell, expected: u128, desired: u128) returns (res: u128, ok: bool)
    modifies dst
    ensures res == old(dst.value)
    ensures ok <==> old(dst.value) == expected
    ensures dst.value == if ok then desired else old(dst.value)
  {
    res := ArchCmpxchg16bIntrinsic(dst, expected, desired);
    ok := res == expected;
  }

  /** An `atomic_cxchg_*` intrinsic, or with `weak` an `atomic_cxchgweak_*`
      one, which may also fail, without storing, when the values are equal:
      `spurious` says whether this attempt does. */
  method CxchgIntrinsicCall(dst: Cell, expected: u128, desired: u128, weak: bool, spurious: bool)
    returns (val: u128, ok: bool)
    modifies dst
    ensures val == old(dst.value)
    ensures ok <==> old(dst.value) == expected && !(weak && spurious)
    ensures dst.value == if ok then desired else old(dst.value)
  {
    val := dst.value;
    ok := val == expected && !(weak && spurious);
    if ok {
      dst.value := desired;
    }
  }

  /** `atomic_compare_exchange`. */
  method AtomicCompareExchange(t: Target, detected: bool, dst: Cell, expected: u128, desired: u128,
                               success: Ordering, failure: Ordering)
    returns (r: CasResult)
    requires t.arch != ArchX86_64 ==> CxchgTable(success, failure)
    modifies dst
    ensures r.value == old(dst.value)
    ensures r.Ok? <==> old(dst.value) == expected
    ensures dst.value == if r.Ok? then desired else old(dst.value)
  {
    var val, ok;
    match SelectCas(t, detected) {
      case ArchCmpxchg16b =>
        val, ok := Cmpxchg16b(dst, expected, desired);
      case Locked =>
        val, ok := Fallback.AtomicCompareExchange(dst, expected, desired);
      case CxchgIntrinsic =>
        val, ok := CxchgIntrinsicCall(dst, expected, desired, false, false);
    }
    r := FromPair(val, ok);
  }

  /** `atomic_compare_exchange_weak`: an alias of the strong one on
      x86_64, the `atomic_cxchgweak_*` intrinsics elsewhere. */
  method AtomicCompareExchangeWeak(t: Target, detected: bool, dst: Cell, expected: u128, desired: u128,
                                   success: Ordering, failure: Ordering, spurious: bool)
    returns (r: CasResult)
    requires t.arch != ArchX86_64 ==> CxchgTable(success, failure)
    modifies dst
    ensures r.value == old(dst.value)
    ensures r.Ok? <==> old(dst.value) == expected && (t.arch == ArchX86_64 || !spurious)
    ensures dst.value == if r.Ok? then desired else old(dst.value)
  {
    if t.arch == ArchX86_64 {
      r := AtomicCompareExchange(t, detected, dst, expected, desired, success, failure);
    } else {
      var val, ok := CxchgIntrinsicCall(dst, expected, desired, true, spurious);
      r := FromPair(val, ok);
    }
  }

  // ---- Load, store, update ----------------------------------------------

  /** `atomic_load`: on x86_64 a compare-exchange of 0 against 0, which
      leaves the cell as it was; elsewhere an `atomic_load_*` intrinsic. */
  method AtomicLoad(t: Target, detected: bool, src: Cell, order: Ordering) returns (v: u128)
    requires t.arch != ArchX86_64 ==> LoadTable(order)
    modifies src
    ensures v == old(src.value)
    ensures src.value == old(src.value)
  {
    if t.arch == ArchX86_64 {
      var r := AtomicCompareExchange(t, detected, src, 0, 0, order, StrongestFailureOrdering(order));
      v := r.value;
    } else {
      v := src.value;
    }
  }

  /** The spurious failures a weak compare-exchange can have on target
      `t`: none on x86_64, where it is the strong one. */
  function WeakFailures(t: Target, spurious: seq<bool>): seq<bool> {
    if t.arch == ArchX86_64 then [] else spurious
  }

  /** `atomic_update`: a relaxed load, then weak compare-exchanges until
      one succeeds, each failure handing back the value to retry with.
      Before attempt `k` another thread may store `others[k]`, and the weak
      exchange of attempt `k` fails spuriously when `spurious[k]` holds. */
  method AtomicUpdate(t: Target, detected: bool, dst: Cell, order: Ordering, f: u128 -> u128,
                      others: seq<u128>, spurious: seq<bool>)
    returns (prev: u128)
    modifies dst
    ensures dst.value == f(prev)
    ensures prev == Found(old(dst.value), old(dst.value), others, WeakFailures(t, spurious))
    ensures prev == old(dst.value) || prev in others
    ensures others == [] ==> prev == old(dst.value)
  {
    var cur := AtomicLoad(t, detected, dst, Relaxed);
    ghost var weak := WeakFailures(t, spurious);
    FoundStored(cur, cur, others, weak);
    FoundUncontended(cur, cur, weak);
    var n := if |others| < |spurious| then |spurious| else |others|;
    var k := 0;
    while true
      invariant 0 <= k <= n
      invariant Found(cur, dst.value, Drop(others, k), Drop(weak, k))
             == Found(old(dst.value), old(dst.value), others, weak)
      decreases n - k, if cur == dst.value then 0 else 1
    {
      FoundStep(cur, dst.value, others, weak, k);
      Contend(dst, others, k);
      var fails := k < |spurious| && spurious[k];
      assert (k < |weak| && weak[k]) <==> t.arch != ArchX86_64 && fails;
      ghost var attempt := k;
      if k < n {
        k := k + 1;
      }
      assert Drop(others, k) == Drop(others, attempt + 1);
      assert Drop(weak, k) == Drop(weak, attempt + 1);
      var next := f(cur);
      var r := AtomicCompareExchangeWeak(t, detected, dst, cur, next, order, Relaxed, fails);
      match r
      case Ok(x) =>
        return x;
      case Err(x) =>
        cur := x;
    }
  }

  /** `atomic_store`: on x86_64 `atomic_swap`, which
      `atomic_rmw_by_atomic_update!` builds on `atomic_update`; elsewhere an
      `atomic_store_*` intrinsic. */
  method AtomicStore(t: Target, detected: bool, dst: Cell, val: u128, order: Ordering,
                     others: seq<u128>, spurious: seq<bool>)
    requires t.arch != ArchX86_64 ==> StoreTable(order)
    modifies dst
    ensures dst.value == val
  {
    if t.arch == ArchX86_64 {
      var _ := AtomicUpdate(t, detected, dst, order, _ => val, others, spurious);
    } else {
      dst.value := val;
    }
  }

  // ---- Read-modify-write ------------------------------------------------

  /** `atomic_swap` where it is an `atomic_xchg_*` intrinsic. */
  method IntrinsicSwap(t: Target, dst: Cell, val: u128, order: Ordering) returns (prev: u128)
    requires HasSwapIntrinsic(t.arch)
    modifies dst
    ensures prev == old(dst.value)
    ensures dst.value == val
  {
    prev := dst.value;
    dst.value := val;
  }

  /** `atomic_add` ... `atomic_umin` where they are intrinsics
      (`atomic_xadd_*`, `atomic_xsub_*`, `atomic_and_*`, `atomic_nand_*`,
      `atomic_or_*`, `atomic_xor_*`, `atomic_max_*`, `atomic_min_*` on the
      `i128` view, `atomic_umax_*`, `atomic_umin_*`). */
  method IntrinsicRmw(t: Target, op: BinOp, dst: Cell, val: u128, order: Ordering) returns (prev: u128)
    requires HasRmwIntrinsic(t.arch, op)
    modifies dst
    ensures prev == old(dst.value)
    ensures dst.value == Apply(op, prev, val)
  {
    prev := dst.value;
    dst.value := Apply(op, prev, val);
  }

  /** `atomic_not`: `atomic_xor` with `u128::MAX`, which flips every bit. */
  method AtomicNot(t: Target, dst: Cell, order: Ordering) returns (prev: u128)
    requires HasSwapIntrinsic(t.arch)
    modifies dst
    ensures prev == old(dst.value)
    ensures dst.value == Not(prev)
  {
    prev := IntrinsicRmw(t, XorOp, dst, MAX, order);
    NotIsXorMax(prev);
  }

  /** `atomic_neg`: `atomic_update` with `u128::wrapping_neg`. */
  method AtomicNeg(t: Target, detected: bool, dst: Cell, order: Ordering,
                   others: seq<u128>, spurious: seq<bool>)
    returns (prev: u128)
    requires HasSwapIntrinsic(t.arch)
    modifies dst
    ensures dst.value == WrappingNeg(prev)
    ensures prev == Found(old(dst.value), old(dst.value), others, WeakFailures(t, spurious))
    ensures prev == old(dst.value) || prev in others
    ensures others == [] ==> prev == old(dst.value)
  {
    prev := AtomicUpdate(t, detected, dst, order, WrappingNeg, others, spurious);
  }

  /** `atomic_swap` as the target provides it. */
  method Swap(t: Target, detected: bool, dst: Cell, val: u128, order: Ordering,
              others: seq<u128>, spurious: seq<bool>)
    returns (prev: u128)
    modifies dst
    ensures dst.value == val
    ensures prev == if HasSwapIntrinsic(t.arch) then old(dst.value)
                    else Found(old(dst.value), old(dst.value), others, WeakFailures(t, spurious))
    ensures prev == old(dst.value) || prev in others
    ensures others == [] ==> prev == old(dst.value)
  {
    if HasSwapIntrinsic(t.arch) {
      prev := IntrinsicSwap(t, dst, val, order);
    } else {
      prev := AtomicUpdate(t, detected, dst, order, _ => val, others, spurious);
    }
  }

  /** `atomic_add` ... `atomic_umin` as the target provides them. */
  method Rmw(t: Target, detected: bool, op: BinOp, dst: Cell, val: u128, order: Ordering,
             others: seq<u128>, spurious: seq<bool>)
    returns (prev: u128)
    modifies dst
    ensures dst.value == Apply(op, prev, val)
    ensures prev == if HasRmwIntrinsic(t.arch, op) then old(dst.value)
                    else Found(old(dst.value), old(dst.value), others, WeakFailures(t, spurious))
    ensures prev == old(dst.value) || prev in others
    ensures others == [] ==> prev == old(dst.value)
  {
    if HasRmwIntrinsic(t.arch, op) {
      prev := IntrinsicRmw(t, op, dst, val, order);
    } else {
      prev := AtomicUpdate(t, detected, dst, order, x => Apply(op, x, val), others, spurious);
    }
  }

  /** `atomic_not` and `atomic_neg` as the target provides them. */
  method RmwUn(t: Target, detected: bool, op: UnOp, dst: Cell, order: Ordering,
               others: seq<u128>, spurious: seq<bool>)
    returns (prev: u128)
    modifies dst
    ensures dst.value == ApplyUn(op, prev)
    ensures prev == if HasSwapIntrinsic(t.arch) && op == NotOp then old(dst.value)
                    else Found(old(dst.value), old(dst.value), others, WeakFailures(t, spurious))
    ensures prev == old(dst.value) || prev in others
    ensures others == [] ==> prev == old(dst.value)
  {
    if HasSwapIntrinsic(t.arch) {
      match op
      case NotOp =>
        prev := AtomicNot(t, dst, order);
      case NegOp =>
        prev := AtomicNeg(t, detected, dst, order, others, spurious);
    } else {
      prev := AtomicUpdate(t, detected, dst, order, x => ApplyUn(op, x), others, spurious);
    }
  }
}
