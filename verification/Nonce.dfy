/** Nonce counters and expansion (mediakeys/nonce.go). */
module Nonce {
  import opened Bytes

  const TWO24: int := 0x100_0000
  const TWO31: int := 0x8000_0000

  function Truncated(full: uint64): uint32 { full % TWO32 }

  function Generation(full: uint64): uint32 { full / TWO24 % TWO32 }

  function AbsDiff(a: int, b: int): (d: int)
    ensures d >= 0
  {
    if a > b then a - b else b - a
  }

  /** The truncated nonce and the generation a counter value is sealed with determine
      that value modulo 2^56. */
  lemma SealedWithDetermines(a: uint64, b: uint64)
    requires Truncated(a) == Truncated(b) && Generation(a) == Generation(b)
    ensures a % TWO56 == b % TWO56
  {
    Low56(a);
    Low56(b);
  }

  lemma Low56(a: uint64)
    ensures a % TWO56 == Generation(a) * TWO24 + Truncated(a) % TWO24
  {
    var q, r := a / TWO24, a % TWO24;
    assert a == q * TWO24 + r;
    var high, g := q / TWO32, q % TWO32;
    assert q == high * TWO32 + g;
    assert a == high * TWO56 + (g * TWO24 + r);
    assert a % TWO56 == g * TWO24 + r;
    LowBytes(q, r);
  }

  lemma LowBytes(q: nat, r: nat)
    requires r < TWO24
    ensures (q * TWO24 + r) % TWO32 % TWO24 == r
  {
    var c, d := q / 256, q % 256;
    assert q * TWO24 + r == c * TWO32 + (d * TWO24 + r);
    assert (q * TWO24 + r) % TWO32 == d * TWO24 + r;
  }

  class NonceCounter {
    var counter: uint64

    constructor ()
      ensures counter == 0
    {
      counter := 0;
    }

    method Next() returns (full: uint64, truncated: uint32, generation: uint32)
      modifies this
      ensures full == counter == (old(counter) + 1) % TWO64
      ensures truncated == Truncated(full) && generation == Generation(full)
    {
      counter := (counter + 1) % TWO64;
      full := counter;
      truncated := full % TWO32;
      generation := full / TWO24 % TWO32;
    }

    method Reset()
      modifies this
      ensures counter == 0
    {
      counter := 0;
    }
  }

  /** (cycle << 32) | truncated in 64 bits. */
  function InCycle(cycle: int, truncated: uint32): uint64 {
    cycle % TWO32 * TWO32 + truncated
  }

  /** The expander's choice among the same, the previous and the next 2^32 cycle. */
  function Closest(highest: uint64, truncated: uint32): uint64 {
    var base := highest / TWO32;
    var same := InCycle(base, truncated);
    var below := if base > 0 && AbsDiff(InCycle(base - 1, truncated), highest) < AbsDiff(same, highest)
                 then InCycle(base - 1, truncated) else same;
    var above := InCycle(base + 1, truncated);
    if AbsDiff(above, highest) < AbsDiff(below, highest) then above else below
  }

  /** No 64-bit value that truncates to the nonce is closer to the highest seen. */
  lemma ClosestIsNearest(highest: uint64, truncated: uint32, m: uint64)
    requires Truncated(m) == truncated
    ensures Truncated(Closest(highest, truncated)) == truncated
    ensures AbsDiff(Closest(highest, truncated), highest) <= AbsDiff(m, highest)
  {
    var base := highest / TWO32;
    var c := m / TWO32;
    assert m == c * TWO32 + truncated;
    CycleOf(base, truncated);
    if c < base - 1 {
      assert AbsDiff(InCycle(base - 1, truncated), highest) <= AbsDiff(m, highest) by { CycleOf(base - 1, truncated); }
    } else if c == base - 1 {
      CycleOf(base - 1, truncated);
    } else if c == base + 1 {
      CycleOf(base + 1, truncated);
    }
    if base > 0 { CycleOf(base - 1, truncated); }
    CycleWraps(base + 1, truncated);
  }

  lemma CycleOf(cycle: int, truncated: uint32)
    requires 0 <= cycle < TWO32
    ensures InCycle(cycle, truncated) == cycle * TWO32 + truncated
    ensures Truncated(InCycle(cycle, truncated)) == truncated
  {
  }

  lemma CycleWraps(cycle: int, truncated: uint32)
    ensures Truncated(InCycle(cycle, truncated)) == truncated
  {
  }

  /** A counter strictly within 2^31 of the highest seen is recovered exactly. */
  lemma ClosestRecovers(highest: uint64, n: uint64)
    requires AbsDiff(n, highest) < TWO31
    ensures Closest(highest, Truncated(n)) == n
  {
    hide Closest;
    ClosestIsNearest(highest, Truncated(n), n);
    SameCycle(Closest(highest, Truncated(n)), n);
  }

  lemma SameCycle(a: uint64, b: uint64)
    requires Truncated(a) == Truncated(b) && AbsDiff(a, b) < TWO32
    ensures a == b
  {
    assert a == a / TWO32 * TWO32 + Truncated(a);
    assert b == b / TWO32 * TWO32 + Truncated(b);
  }

  /** Nothing further than half a cycle above the highest seen is ever chosen, except
      inside the first cycle, which has no cycle below it. */
  lemma ClosestStep(highest: uint64, truncated: uint32)
    requires highest < TWO64 - TWO32
    ensures Closest(highest, truncated) <= highest + TWO31 || Closest(highest, truncated) < TWO32
  {
    var base := highest / TWO32;
    CycleOf(base, truncated);
    CycleOf(base + 1, truncated);
    if base > 0 { CycleOf(base - 1, truncated); }
  }

  /** The expander's memory: nothing, or the highest authenticated nonce. */
  type Highest = Option<uint64>

  function ExpandTentative(h: Highest, truncated: uint32): uint64 {
    if h.None? then truncated else Closest(h.value, truncated)
  }

  lemma ExpandTruncates(h: Highest, truncated: uint32)
    ensures Truncated(ExpandTentative(h, truncated)) == truncated
  {
    if h.Some? { ClosestIsNearest(h.value, truncated, truncated); }
  }

  function CommitNonce(h: Highest, nonce: uint64): Highest {
    if h.None? || nonce > h.value then Some(nonce) else h
  }

  class NonceExpander {
    var initialized: bool
    var highestSeen: uint64

    function State(): Highest
      reads this
    {
      if initialized then Some(highestSeen) else None
    }

    constructor ()
      ensures State() == None
    {
      initialized, highestSeen := false, 0;
    }

    /** Expand is ExpandTentative followed by Commit. */
    method Expand(truncated: uint32) returns (full: uint64)
      modifies this
      ensures full == ExpandTentative(old(State()), truncated)
      ensures State() == CommitNonce(old(State()), full)
    {
      if !initialized {
        initialized, highestSeen := true, truncated;
        return truncated;
      }
      var baseCycle := highestSeen / TWO32;
      var best := InCycle(baseCycle, truncated);
      var bestDist := AbsDiff(best, highestSeen);
      if baseCycle > 0 {
        var candidate := InCycle(baseCycle - 1, truncated);
        var d := AbsDiff(candidate, highestSeen);
        if d < bestDist {
          best, bestDist := candidate, d;
        }
      }
      var candidate := InCycle(baseCycle + 1, truncated);
      if AbsDiff(candidate, highestSeen) < bestDist {
        best := candidate;
      }
      if best > highestSeen {
        highestSeen := best;
      }
      return best;
    }

    method Commit(nonce: uint64)
      modifies this
      ensures State() == CommitNonce(old(State()), nonce)
    {
      if !initialized {
        initialized, highestSeen := true, nonce;
      } else if nonce > highestSeen {
        highestSeen := nonce;
      }
    }
  }
}
