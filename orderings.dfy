/** `core::sync::atomic::Ordering`.  In the sequential model an ordering
    never changes a value; it only decides which arm of the backends'
    `match order` is taken, and which combinations reach `unreachable!()`. */
module Orderings {
  datatype Ordering = Relaxed | Release | Acquire | AcqRel | SeqCst

  /** The orderings an atomic load may be called with. */
  predicate IsLoadOrdering(o: Ordering) {
    o == Relaxed || o == Acquire || o == SeqCst
  }

  /** The orderings an atomic store may be called with. */
  predicate IsStoreOrdering(o: Ordering) {
    o == Relaxed || o == Release || o == SeqCst
  }

  /** The orderings a failed compare-exchange may use: those of a load. */
  predicate IsFailureOrdering(o: Ordering) {
    IsLoadOrdering(o)
  }

  /** The failure ordering a load through compare-exchange pairs with
      `order` (`crate::utils::strongest_failure_ordering`): the strongest
      one a failed exchange may use that is no stronger than `order`. */
  function StrongestFailureOrdering(order: Ordering): (failure: Ordering)
    ensures IsFailureOrdering(failure)
    ensures IsLoadOrdering(order) ==> failure == order
  {
    match order
    case Release | Relaxed => Relaxed
    case Acquire | AcqRel => Acquire
    case SeqCst => SeqCst
  }
}
