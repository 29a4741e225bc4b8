/** The one 16-byte cell that every backend operation reads and writes
    (`dst`/`src: *mut u128`), and the `Result<u128, u128>` that
    compare-exchange returns. */
module Memory {
  import opened U128

  /** A 16-byte aligned `u128` in memory.  Alignment and validity of the
      pointer are the callers' obligation and are not modelled. */
  class Cell {
    var value: u128

    constructor (v: u128)
      ensures value == v
    {
      value := v;
    }
  }

  /** `Ok(previous)` when the exchange happened, `Err(current)` otherwise. */
  datatype CasResult = Ok(value: u128) | Err(value: u128)

  /** `if ok { Ok(res) } else { Err(res) }`. */
  function FromPair(res: u128, ok: bool): (r: CasResult)
    ensures r.value == res
    ensures r.Ok? <==> ok
  {
    if ok then Ok(res) else Err(res)
  }

  /** Stores by other threads that land between the attempts of a retry
      loop: before attempt `i` another thread stores `others[i]`, and once
      `others` is used up nobody else writes. */
  method Contend(dst: Cell, others: seq<u128>, i: nat)
    modifies dst
    ensures dst.value == if i < |others| then others[i] else old(dst.value)
  {
    if i < |others| {
      dst.value := others[i];
    }
  }

  /** `s` without its first `k` elements, empty once `k` passes its end. */
  function Drop<T>(s: seq<T>, k: nat): (r: seq<T>)
    ensures |r| == if k < |s| then |s| - k else 0
    ensures forall j :: 0 <= j < |r| ==> r[j] == s[k + j]
  {
    if k < |s| then s[k..] else []
  }

  /** The value a compare-and-swap retry loop finds on its successful
      attempt, which is the value its write replaces.  The loop expects
      `expected` and the cell holds `cell`.  Before each attempt another
      thread may store the next of `others`, and the attempt fails without
      cause when the next of `spurious` holds.  A failed attempt retries
      expecting the value it found.  Once both are used up nobody
      interferes, so at most one more attempt fails. */
  ghost function Found(expected: u128, cell: u128, others: seq<u128>, spurious: seq<bool>): u128
    decreases |others| + |spurious|
  {
    if others == [] && spurious == [] then cell
    else
      var seen := if others == [] then cell else others[0];
      if seen == expected && !(spurious != [] && spurious[0]) then seen
      else Found(seen, seen, Drop(others, 1), Drop(spurious, 1))
  }

  /** Attempt `k` of a retry loop, which has used up the first `k` stores
      and spurious flags: it sees the next store, or the cell when there
      is none, succeeds when that is the value it expects and the attempt
      does not fail spuriously, and otherwise leaves the rest to the next
      attempt, which expects what this one saw. */
  lemma FoundStep(expected: u128, cell: u128, others: seq<u128>, spurious: seq<bool>, k: nat)
    ensures var seen := if k < |others| then others[k] else cell;
            var fails := k < |spurious| && spurious[k];
            Found(expected, cell, Drop(others, k), Drop(spurious, k))
            == if seen == expected && !fails then seen
               else Found(seen, seen, Drop(others, k + 1), Drop(spurious, k + 1))
  {
    assert Drop(Drop(others, k), 1) == Drop(others, k + 1);
    assert Drop(Drop(spurious, k), 1) == Drop(spurious, k + 1);
  }

  /** The value found is the one the cell held at the start or one that
      another thread stored: no value is invented. */
  lemma {:induction false} FoundStored(expected: u128, cell: u128, others: seq<u128>, spurious: seq<bool>)
    ensures Found(expected, cell, others, spurious) == cell
         || Found(expected, cell, others, spurious) in others
    decreases |others| + |spurious|
  {
    if others == [] && spurious == [] {
    } else {
      var seen := if others == [] then cell else others[0];
      if !(seen == expected && !(spurious != [] && spurious[0])) {
        FoundStored(seen, seen, Drop(others, 1), Drop(spurious, 1));
      }
    }
  }

  /** Without stores by other threads the loop finds the value the cell
      held at the start, however many attempts fail spuriously. */
  lemma {:induction false} FoundUncontended(expected: u128, cell: u128, spurious: seq<bool>)
    ensures Found(expected, cell, [], spurious) == cell
    decreases |spurious|
  {
    if spurious != [] && !(cell == expected && !spurious[0]) {
      FoundUncontended(cell, cell, Drop(spurious, 1));
    }
  }
}
