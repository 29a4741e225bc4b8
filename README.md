# 128-bit atomics of portable-atomic, as a Dafny model

This project models the two backends that give `AtomicI128` and `AtomicU128`
their operations on 64-bit targets:

- `src/imp/atomic128/x86_64.rs`, built on the `CMPXCHG16B` instruction;
- `src/imp/atomic128/intrinsics.rs`, built without inline assembly on
  `core::arch::x86_64::cmpxchg16b` and the `core::intrinsics::atomic_*` family.

Each operation acts on one 16-byte cell (`Memory.Cell`). The model covers:

- the compare-and-swap primitive;
- load through compare-exchange of 0 against 0;
- store through swap;
- the `atomic_update` retry loop;
- the hand-written x86-64 register sequences that compute each
  read-modify-write on a `(lo, hi)` pair of 64-bit words;
- the selection of an implementation from the build configuration and the
  detected CPU features;
- the ordering tables;
- `is_lock_free`.

Values are natural numbers below 2^128 (`U128.u128`). Rust's wrapping
arithmetic is written out modulo 2^128. `&`, `|` and `^` are defined one bit
at a time (`Bits.Bitwise`). Each x86 instruction is modelled by the value it
writes and the carry, sign and overflow flags it sets (`X86Asm.Alu`).

The configuration is an ordinary value. `cfg(...)` becomes `X86_64.Build` or
`Intrinsics.Target`, and `detect::detect()` becomes `X86_64.Cpuid` or a
`detected` flag. Each selection is a function that transcribes the source's
`cfg` and `ifunc!` branches; lemmas then prove properties of these functions,
such as when the lock is used and what `is_lock_free` means.

The retry loops take `others`, the values that other threads store between
their attempts (`Memory.Contend`). For the weak exchange of the intrinsics
backend they also take `spurious`, which attempts fail without cause.
`Memory.Found` states which value the successful attempt reads under such a
schedule. Each attempt sees the next store, or the cell when there is none.
It succeeds when that is the value it expects and it does not fail
spuriously. Otherwise the next attempt expects the value this one saw.
Under any such schedule, the loops are proved to:

- end with the cell holding `f(x)`;
- return that `x`, which is exactly `Found(...)`: the value the successful
  exchange found and its write replaced, so no store by another thread is
  overwritten unseen;
- return a value that is either the value before the call or one of the
  stores;
- return the value before the call when nobody else writes.

## Model

| member | source | states |
|---|---|---|
| U128.Split | src/imp/atomic128/x86_64.rs:41-56 | the pair view of a `u128` holds its low and high 64 bits: reading the pair back as a whole gives the same value |
| U128.SplitWhole | src/imp/atomic128/x86_64.rs:41-56 | a pair written through the union and read back as a pair gives the same two words (`lo + hi * 2^64` round trip) |
| U128.SubUndoesAdd | src/imp/atomic128/intrinsics.rs:254-284 | wrapping subtraction of `val` undoes wrapping addition of `val` |
| U128.NegIsInverse | src/imp/atomic128/intrinsics.rs:421-426 | `wrapping_neg(a)` is the additive inverse of `a` modulo 2^128 and equals `0 - a` wrapped |
| U128.NotIsXorMax | src/imp/atomic128/intrinsics.rs:414-419 | `!a` (every bit flipped, `MAX - a`) equals `a ^ u128::MAX` |
| U128.I128 | src/imp/atomic128/x86_64.rs:728 | the `i128` reading of a cell lies in the `i128` range and has the same bits modulo 2^128 |
| U128.SignedMax | src/imp/atomic128/intrinsics.rs:350-364 | `fetch_max` on `AtomicI128` keeps one of the two values, and it is at least both as `i128` |
| U128.SignedMin | src/imp/atomic128/intrinsics.rs:366-380 | `fetch_min` on `AtomicI128` keeps one of the two values, and it is at most both as `i128` |
| U128.UnsignedMax | src/imp/atomic128/intrinsics.rs:382-396 | `fetch_max` on `AtomicU128` keeps one of the two values, and it is at least both |
| U128.UnsignedMin | src/imp/atomic128/intrinsics.rs:398-412 | `fetch_min` on `AtomicU128` keeps one of the two values, and it is at most both |
| X86Asm.AddWithCarry | src/imp/atomic128/x86_64.rs:611-617 | `add`/`adc` writes the sum with carry-in, modulo 2^64, and sets CF on carry out |
| X86Asm.SubWithBorrow | src/imp/atomic128/x86_64.rs:618-624 | `sub`/`cmp`/`sbb` writes the difference with borrow-in, modulo 2^64, and sets CF on borrow |
| X86Asm.Neg | src/imp/atomic128/x86_64.rs:663-669 | `neg` writes `2^64 - a` modulo 2^64 and sets CF exactly when `a` is not zero |
| X86Asm.AndW | src/imp/atomic128/x86_64.rs:625-631 | transcribes `and` on one register as the bit-by-bit and of 64 bits; AndSeq and NandSeq prove what it computes on 128 bits |
| X86Asm.OrW | src/imp/atomic128/x86_64.rs:641-647 | transcribes `or` on one register as the bit-by-bit or of 64 bits; OrSeq proves what it computes on 128 bits |
| X86Asm.XorW | src/imp/atomic128/x86_64.rs:648-654 | transcribes `xor` on one register as the bit-by-bit xor of 64 bits; XorSeq proves what it computes on 128 bits |
| X86Asm.NotW | src/imp/atomic128/x86_64.rs:656-662 | transcribes `not` on one register as `2^64 - 1 - a`; NotSeq and U128.NotIsXorMax prove it flips every bit |
| X86Asm.Compare | src/imp/atomic128/x86_64.rs:671-710 | transcribes the flags left by `cmp rsi, rax; sbb rcx, rdx`; CompareMeaning proves what they say |
| X86Asm.Holds | src/imp/atomic128/x86_64.rs:671-710 | transcribes when `cmovl`, `cmovb`, `cmovge` and `cmovae` move: SF != OF, CF, SF == OF and not CF |
| X86Asm.AddSeq | src/imp/atomic128/x86_64.rs:611-617 | `add` on the low words then `adc` on the high words computes `prev + val` modulo 2^128 |
| X86Asm.SubSeq | src/imp/atomic128/x86_64.rs:618-624 | `sub` then `sbb` computes `prev - val` modulo 2^128 |
| X86Asm.HalvesBitwise | src/imp/atomic128/x86_64.rs:625-654 | a bitwise operation on 128 bits is the same operation on the low words plus 2^64 times the operation on the high words |
| X86Asm.AndSeq | src/imp/atomic128/x86_64.rs:625-631 | `and` on each half computes the 128-bit `prev & val` |
| X86Asm.NandSeq | src/imp/atomic128/x86_64.rs:632-640 | `and` then `not` on each half computes the 128-bit `!(prev & val)` |
| X86Asm.OrSeq | src/imp/atomic128/x86_64.rs:641-647 | `or` on each half computes the 128-bit bitwise or of `prev` and `val` |
| X86Asm.XorSeq | src/imp/atomic128/x86_64.rs:648-654 | `xor` on each half computes the 128-bit `prev ^ val` |
| X86Asm.NotSeq | src/imp/atomic128/x86_64.rs:656-662 | `not` on each half computes the 128-bit `!prev` |
| X86Asm.NegSeq | src/imp/atomic128/x86_64.rs:663-669 | `neg` on the low word then `sbb` of the high word from 0 computes `prev.wrapping_neg()` |
| X86Asm.SignedBorrow | src/imp/atomic128/x86_64.rs:671-680 | after `sbb`, SF differs from OF exactly when the exact signed difference is negative |
| X86Asm.CompareMeaning | src/imp/atomic128/x86_64.rs:671-710 | after `cmp` on the low words and `sbb` on the high words, CF says `val < prev` unsigned and SF != OF says `val < prev` as `i128` |
| X86Asm.CmpSelect | src/imp/atomic128/x86_64.rs:671-710 | the two `cmov`s pick whole `prev` or whole `val`, never a mix of halves |
| X86Asm.MaxSeq | src/imp/atomic128/x86_64.rs:671-680 | the `cmovl` sequence computes the signed maximum of `prev` and `val` |
| X86Asm.UMaxSeq | src/imp/atomic128/x86_64.rs:681-690 | the `cmovb` sequence computes the unsigned maximum |
| X86Asm.MinSeq | src/imp/atomic128/x86_64.rs:691-700 | the `cmovge` sequence computes the signed minimum |
| X86Asm.UMinSeq | src/imp/atomic128/x86_64.rs:701-710 | the `cmovae` sequence computes the unsigned minimum |
| X86Asm.RmwSeq | src/imp/atomic128/x86_64.rs:611-710 | every `atomic_rmw_cas_3!` body leaves in rcx:rbx the value of the 128-bit operation on `prev` and `val` |
| X86Asm.RmwUnSeq | src/imp/atomic128/x86_64.rs:656-669 | every `atomic_rmw_cas_2!` body leaves in rcx:rbx the value of the 128-bit operation on `prev` |
| Memory.FromPair | src/imp/atomic128/x86_64.rs:384-388 | the result is `Ok` exactly when the exchange reported success, and carries the returned value either way |
| Memory.FoundStep | src/imp/atomic128/intrinsics.rs:219-226 | one attempt of a retry loop: it sees the next contending store or the cell, succeeds exactly when that is the value it expects and it does not fail spuriously, and otherwise the next attempt expects what it saw |
| Memory.FoundStored | src/imp/atomic128/x86_64.rs:418-426 | the value a retry loop finds is the value the cell held at the start or a value another thread stored |
| Memory.FoundUncontended | src/imp/atomic128/intrinsics.rs:216-226 | without stores by other threads a retry loop finds the value the cell held at the start, however many attempts fail spuriously |
| Fallback.AtomicCompareExchange | src/imp/atomic128/x86_64.rs:376-380 | the lock-based exchange returns the previous value, succeeds exactly on a match, and writes only then |
| Orderings.StrongestFailureOrdering | src/imp/atomic128/intrinsics.rs:52-53 | the failure ordering a load pairs with its ordering is a valid failure ordering, and is the load's own ordering when that is a load ordering |
| X86_64.SelectLoad | src/imp/atomic128/x86_64.rs:229-264 | transcribes the choice of load: VMOVDQA exactly with run-time selection on and both CPU flags, otherwise compare-exchange; VectorPathNeedsBoth and NoMixedAccess prove its properties |
| X86_64.SelectStore | src/imp/atomic128/x86_64.rs:277-331 | transcribes the choice of store by ordering and CPU flags, with `unreachable!()` for Acquire and AcqRel; StoreOrderingsAccepted and VectorPathNeedsBoth prove its properties |
| X86_64.SelectCas | src/imp/atomic128/x86_64.rs:355-382 | transcribes the choice of compare-exchange: CMPXCHG16B when enabled at compile time or detected, otherwise the lock; FallbackExactlyWithout proves when the lock is used |
| X86_64.SelectRmw | src/imp/atomic128/x86_64.rs:710-717 | transcribes the choice between the inline-assembly loops and `atomic_update`: the loops exactly when CMPXCHG16B is enabled at compile time and inline assembly is usable, which it is not under Miri or ThreadSanitizer |
| X86_64.IsLockFree | src/imp/atomic128/x86_64.rs:719-722 | transcribes `is_lock_free()` as the detected CMPXCHG16B flag; LockFreeMeansNative proves what it means |
| X86_64.IsAlwaysLockFree | src/imp/atomic128/x86_64.rs:723-726 | transcribes `is_always_lock_free()` as CMPXCHG16B being enabled at compile time; LockFreeMeansNative proves it implies `is_lock_free()` |
| X86_64.VectorPathNeedsBoth | src/imp/atomic128/x86_64.rs:254-261 | VMOVDQA loads and stores are chosen exactly when run-time selection is on and the CPU has both CMPXCHG16B and atomic VMOVDQA (stores only for accepted orderings) |
| X86_64.NoMixedAccess | src/imp/atomic128/x86_64.rs:257-261 | whenever a load or store uses VMOVDQA, compare-exchange uses CMPXCHG16B, never the lock |
| X86_64.FallbackExactlyWithout | src/imp/atomic128/x86_64.rs:361-380 | compare-exchange uses the lock exactly when CMPXCHG16B is neither enabled at compile time nor detected |
| X86_64.LockFreeMeansNative | src/imp/atomic128/x86_64.rs:720-726 | `is_lock_free()` holds exactly when compare-exchange is native, and `is_always_lock_free()` implies it |
| X86_64.StoreOrderingsAccepted | src/imp/atomic128/x86_64.rs:277-331 | with run-time selection a store reaches `unreachable!()` exactly for Acquire and AcqRel; without it every ordering goes to the swap |
| X86_64.Cmpxchg16b | src/imp/atomic128/x86_64.rs:70-134 | returns the previous value and success exactly when it equals `old`; stores `new` only then |
| X86_64.CmpxchgQuickcheck | src/imp/atomic128/x86_64.rs:759-779 | for all `x`, `y`, `z` the quickcheck assertions on `_cmpxchg16b` hold |
| X86_64.AtomicCompareExchange | src/imp/atomic128/x86_64.rs:355-389 | `Ok(prev)` with the cell set to `new` exactly when the cell held `old`, otherwise `Err(prev)` with the cell unchanged, on either backend |
| X86_64.AtomicLoadVmovdqa | src/imp/atomic128/x86_64.rs:180-194 | returns the cell's value |
| X86_64.AtomicStoreVmovdqa | src/imp/atomic128/x86_64.rs:198-226 | for Relaxed, Release and SeqCst the cell ends holding `val` |
| X86_64.AtomicLoadCmpxchg16b | src/imp/atomic128/x86_64.rs:266-274 | compare-exchange of 0 against 0 returns the cell's value and leaves the cell unchanged, whether it succeeds or fails |
| X86_64.AtomicLoad | src/imp/atomic128/x86_64.rs:229-264 | whichever implementation is selected, returns the cell's value and leaves it unchanged |
| X86_64.ByteWiseAtomicLoad | src/imp/atomic128/x86_64.rs:145-168 | the two 64-bit loads reassemble the cell's value |
| X86_64.AtomicUpdate | src/imp/atomic128/x86_64.rs:398-429 | ends with the cell holding `f(x)` for the returned `x`, which is `Found(old, old, others, [])`: after a failure it retries with the value the exchange returned, and the returned value is the one the successful exchange found |
| X86_64.CmpxchgLoop | src/imp/atomic128/x86_64.rs:496-549 | the `lock cmpxchg16b; jne 2b` loop ends with the cell holding `$op` applied to the returned value, and that value is `Found(old, old, others, [])`, the one the successful attempt found in rdx:rax |
| X86_64.AtomicSwap | src/imp/atomic128/x86_64.rs:437-484 | the cell ends holding `val`, and the value returned is `Found(old, old, others, [])`, the one the swap replaced |
| X86_64.AtomicRmwCas3 | src/imp/atomic128/x86_64.rs:496-549 | the cell ends holding `op(prev, val)` for the returned `prev` and it is `Found(old, old, others, [])`, the value the successful exchange found and replaced |
| X86_64.AtomicRmwCas2 | src/imp/atomic128/x86_64.rs:559-609 | the cell ends holding `op(prev)` for the returned `prev` and it is `Found(old, old, others, [])`, the value the successful exchange found and replaced |
| X86_64.Swap | src/imp/atomic128/x86_64.rs:712-717 | swap built either way leaves `val` and returns `Found(old, old, others, [])`, the value it replaced |
| X86_64.Rmw | src/imp/atomic128/x86_64.rs:712-717 | each two-operand read-modify-write, built either way, leaves `op(prev, val)` and returns `prev` and it is `Found(old, old, others, [])`, the value the successful exchange found and replaced |
| X86_64.RmwUn | src/imp/atomic128/x86_64.rs:712-717 | `not` and `neg`, built either way, leave `op(prev)` and return `prev` and it is `Found(old, old, others, [])`, the value the successful exchange found and replaced |
| X86_64.AtomicStoreCmpxchg16b | src/imp/atomic128/x86_64.rs:347-352 | the cell ends holding `val` |
| X86_64.AtomicStore | src/imp/atomic128/x86_64.rs:277-331 | for every accepted ordering and either implementation the cell ends holding `val` |
| Intrinsics.LoadTable | src/imp/atomic128/intrinsics.rs:57-65 | transcribes the arms of `atomic_load`'s `match order`; LoadStoreTables proves they are the load orderings |
| Intrinsics.StoreTable | src/imp/atomic128/intrinsics.rs:76-84 | transcribes the arms of `atomic_store`'s `match order`; LoadStoreTables proves they are the store orderings |
| Intrinsics.CxchgTable | src/imp/atomic128/intrinsics.rs:142-162 | transcribes the 15 arms of `atomic_compare_exchange`'s `match (success, failure)`; CxchgTableAcceptsValidFailure proves what they accept |
| Intrinsics.LoadStoreTables | src/imp/atomic128/intrinsics.rs:57-86 | off x86_64, load has an intrinsic exactly for Acquire, Relaxed and SeqCst, store exactly for Release, Relaxed and SeqCst |
| Intrinsics.CxchgTableAcceptsValidFailure | src/imp/atomic128/intrinsics.rs:144-163 | the compare-exchange table holds the 15 pairs whose failure ordering is Relaxed, Acquire or SeqCst, and no others |
| Intrinsics.SelectCas | src/imp/atomic128/intrinsics.rs:94-163 | transcribes the choice of compare-exchange: the intrinsics off x86_64, CMPXCHG16B when enabled or detected, the lock otherwise; FallbackExactlyWithout proves when the lock is used |
| Intrinsics.IsAlwaysLockFree | src/imp/atomic128/intrinsics.rs:428-450 | transcribes `IS_ALWAYS_LOCK_FREE`: true off x86_64, CMPXCHG16B enabled at compile time on x86_64 |
| Intrinsics.IsLockFree | src/imp/atomic128/intrinsics.rs:428-450 | transcribes `is_lock_free()`; LockFreeMeansNoLock proves it holds exactly when the lock is avoided |
| Intrinsics.HasRmwIntrinsic | src/imp/atomic128/intrinsics.rs:232-412 | transcribes which read-modify-write functions are intrinsics: none on x86_64 and s390x, all but max and min on powerpc64, all elsewhere |
| Intrinsics.HasSwapIntrinsic | src/imp/atomic128/intrinsics.rs:238-426 | transcribes where `atomic_swap`, `atomic_not` and `atomic_neg` are defined in this file: everywhere but x86_64 and s390x |
| Intrinsics.FallbackExactlyWithout | src/imp/atomic128/intrinsics.rs:131-140 | the lock is used exactly on x86_64 when CMPXCHG16B is neither enabled nor detected |
| Intrinsics.LockFreeMeansNoLock | src/imp/atomic128/intrinsics.rs:428-450 | `is_lock_free()` holds exactly when compare-exchange avoids the lock; it is always true off x86_64, and `IS_ALWAYS_LOCK_FREE` implies it |
| Intrinsics.ArchCmpxchg16bIntrinsic | src/imp/atomic128/intrinsics.rs:116 | returns the previous value and stores `new` when it equals `old` |
| Intrinsics.Cmpxchg16b | src/imp/atomic128/intrinsics.rs:101-118 | success, computed as `res == old`, holds exactly when the cell held `old` |
| Intrinsics.CxchgIntrinsicCall | src/imp/atomic128/intrinsics.rs:144-202 | returns the previous value; the strong form succeeds exactly on a match, the weak one may also fail spuriously; it writes only on success |
| Intrinsics.AtomicCompareExchange | src/imp/atomic128/intrinsics.rs:89-169 | `Ok(prev)` with the cell set to `new` exactly when it held `old`, otherwise `Err(prev)` with the cell unchanged |
| Intrinsics.AtomicCompareExchangeWeak | src/imp/atomic128/intrinsics.rs:171-208 | as the strong exchange on x86_64; elsewhere a spurious failure returns `Err(prev)` without writing even on a match |
| Intrinsics.AtomicLoad | src/imp/atomic128/intrinsics.rs:48-67 | returns the cell's value and leaves the cell unchanged, through compare-exchange of 0 against 0 on x86_64 |
| Intrinsics.AtomicUpdate | src/imp/atomic128/intrinsics.rs:210-228 | with contending stores and spurious failures, ends with the cell holding `f(x)` for the returned `x`, which is `Found(old, old, others, WeakFailures(t, spurious))`: after a failure it retries with the returned value, and a spurious failure is possible only off x86_64 |
| Intrinsics.AtomicStore | src/imp/atomic128/intrinsics.rs:69-86 | the cell ends holding `val`, through swap on x86_64 |
| Intrinsics.IntrinsicSwap | src/imp/atomic128/intrinsics.rs:238-252 | returns the previous value and leaves `val` |
| Intrinsics.IntrinsicRmw | src/imp/atomic128/intrinsics.rs:254-412 | returns the previous value and leaves `op(prev, val)`, `i128` max and min for `atomic_max`/`atomic_min` |
| Intrinsics.AtomicNot | src/imp/atomic128/intrinsics.rs:414-419 | XOR with `u128::MAX` leaves the bitwise complement and returns the previous value |
| Intrinsics.AtomicNeg | src/imp/atomic128/intrinsics.rs:421-426 | leaves `prev.wrapping_neg()` and returns `prev`, which is `Found(old, old, others, WeakFailures(t, spurious))`, the value the successful exchange replaced |
| Intrinsics.Swap | src/imp/atomic128/intrinsics.rs:230-252 | swap leaves `val`; as an intrinsic it returns the value before the call, and by `atomic_update` it returns `Found(old, old, others, WeakFailures(t, spurious))`, the value it replaced |
| Intrinsics.Rmw | src/imp/atomic128/intrinsics.rs:230-236 | each two-operand read-modify-write leaves `op(prev, val)` and returns `prev`: the value before the call for an intrinsic, `Found(old, old, others, WeakFailures(t, spurious))` by `atomic_update` |
| Intrinsics.RmwUn | src/imp/atomic128/intrinsics.rs:414-426 | `not` and `neg` leave `op(prev)` and return `prev`: the value before the call for `atomic_not` as XOR, `Found(old, old, others, WeakFailures(t, spurious))` when built on `atomic_update` |

## Left out

- Memory ordering, fences and linearizability are not modelled. This covers the `mfence` after a SeqCst VMOVDQA store and the orderings passed to `lock cmpxchg16b` and the intrinsics. An ordering only decides which arm of a `match` is taken and which combinations reach `unreachable!()`.
- Concurrency appears only as stores by other threads between the attempts of a retry loop. Stores inside one attempt are not modelled, since each attempt's exchange is a single atomic instruction.
- Retry loops cannot face unbounded contention: the contending stores and spurious failures are finite sequences. Beyond them the next attempt succeeds.
- X86_64.ByteWiseAtomicLoad and X86_64.CmpxchgLoop read the cell exactly, though both start with two separate 64-bit loads (`byte_wise_atomic_load`, and `mov rax, [rdi]; mov rdx, [rdi + 8]` at src/imp/atomic128/x86_64.rs:461-462, 521-522 and 583-584). A store by another thread could land between the two loads and give a torn value. The exchange that follows then fails and retries with the value it found. This tolerance is a concurrency argument and is not modelled.
- CPUID probing (`detect/x86_64.rs`) and the `ifunc!` caching of the chosen function are not part of this model. Detection is a given value.
- VMOVDQA being single-copy atomic on Intel and AMD is a hardware claim, taken as given.
- `crate::utils::upgrade_success_ordering` is not modelled: it only changes an ordering.
- `crate::utils::strongest_failure_ordering` comes from src/utils.rs, which is not part of this model. Orderings.StrongestFailureOrdering follows the standard library's documented mapping.
- The lock table of `fallback::atomic_compare_exchange` (src/imp/fallback/outline_atomics.rs) is not part of this model. Without other threads it is a plain compare-and-swap.
- macros.rs (`atomic128!`, `atomic_rmw_by_atomic_update!`, the test macros) is not part of this model. Operations it builds on `atomic_update` are modelled as `atomic_update` with the operation's function.
- Register allocation, the save and restore of `rbx`, `ptr_modifier!` and the 32-bit pointer width form (`edi`) are not modelled. Only the values computed in the registers are.
- X86_64.Cmpxchg16b models the inline-assembly path. Under Miri and ThreadSanitizer `_cmpxchg16b` calls `core::arch::x86_64::cmpxchg16b` instead, with the same contract (modelled as Intrinsics.ArchCmpxchg16bIntrinsic).
- The pointer preconditions (validity, 16-byte alignment, the `debug_assert!`s) are the callers' obligation and are not modelled.
- The `_ => unreachable!()` arms of the five-ordering matches in the intrinsic read-modify-write functions cannot be represented. They exist only for future `Ordering` variants.
- Return types are not modelled separately: `atomic_max`/`atomic_min` on the intrinsics backend return `i128`, which has the same bits as the `u128` returned here.
- The `tests_no_cmpxchg16b` module (src/imp/atomic128/x86_64.rs:786-881) is test-only plumbing and is not modelled.
- src/tests/gen/sys/mod.rs is a generated table of module re-exports with no logic and is not modelled.
