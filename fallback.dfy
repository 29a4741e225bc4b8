/** The lock-based compare-exchange that the backends call when the CPU
    lacks CMPXCHG16B (`fallback::atomic_compare_exchange`).  Its source,
    the seqlock table in src/imp/fallback/outline_atomics.rs, is not part
    of this model; with no other thread present, taking and releasing the
    lock changes nothing, and what remains is a plain compare-and-swap. */
module Fallback {
  import opened U128
  import opened Memory

  method AtomicCompareExchange(dst: Cell, expected: u128, desired: u128) returns (prev: u128, ok: bool)
    modifies dst
    ensures prev == old(dst.value)
    ensures ok <==> old(dst.value) == expected
    ensures dst.value == if ok then desired else old(dst.value)
  {
    prev := dst.value;
    ok := prev == expected;
    if ok {
      dst.value := desired;
    }
  }
}
