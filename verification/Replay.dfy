/** The anti-replay window of session/replay.go: a 1024-slot ring of bits.

    The reference is an unbounded record of accepted nonces; the ring is proved to
    answer exactly as that record would. */
module Replay {
  import opened Bytes

  const WINDOW_SIZE := 1024
  const BITS_PER_WORD := 64

  /** Every nonce ever accepted, and the highest of them. */
  datatype Record = Record(highest: uint64, accepted: set<uint64>)

  const EMPTY_RECORD := Record(0, {})

  predicate ValidRecord(r: Record) {
    r.accepted != {} ==> r.highest in r.accepted && forall n :: n in r.accepted ==> n <= r.highest
  }

  /** First ever, above the highest, or less than a window behind it and unseen. */
  predicate Accepts(r: Record, nonce: uint64) {
    r.accepted == {} || nonce > r.highest || (r.highest - nonce < WINDOW_SIZE && nonce !in r.accepted)
  }

  function Accept(r: Record, nonce: uint64): Record {
    Record(if r.accepted == {} || nonce > r.highest then nonce else r.highest, r.accepted + {nonce})
  }

  function CheckAndMark(r: Record, nonce: uint64): (Record, bool) {
    if Accepts(r, nonce) then (Accept(r, nonce), true) else (r, false)
  }

  /** The record after a sequence of queries. */
  function After(r: Record, nonces: seq<uint64>): Record {
    if nonces == [] then r else CheckAndMark(After(r, nonces[..|nonces| - 1]), nonces[|nonces| - 1]).0
  }

  lemma QueryKeepsRecordValid(r: Record, nonce: uint64)
    requires ValidRecord(r)
    ensures ValidRecord(CheckAndMark(r, nonce).0)
    ensures CheckAndMark(r, nonce).0.accepted != {} && !Accepts(CheckAndMark(r, nonce).0, nonce)
  {
  }

  lemma RefusedStaysRefused(r: Record, nonce: uint64, other: uint64)
    requires ValidRecord(r) && r.accepted != {} && !Accepts(r, nonce)
    ensures !Accepts(CheckAndMark(r, other).0, nonce)
  {
  }

  /** Whatever the answer was, a nonce that has been asked about is refused ever after. */
  lemma {:induction false} AskedOnce(r: Record, nonce: uint64, later: seq<uint64>)
    requires ValidRecord(r)
    ensures var t := After(CheckAndMark(r, nonce).0, later);
            ValidRecord(t) && t.accepted != {} && !Accepts(t, nonce)
    decreases |later|
  {
    QueryKeepsRecordValid(r, nonce);
    if later != [] {
      hide CheckAndMark, Accepts, ValidRecord;
      var n := |later| - 1;
      AskedOnce(r, nonce, later[..n]);
      QueryKeepsRecordValid(After(CheckAndMark(r, nonce).0, later[..n]), later[n]);
      RefusedStaysRefused(After(CheckAndMark(r, nonce).0, later[..n]), nonce, later[n]);
    }
  }

  // ---- One word of the ring ----

  function Bit(i: bv6): bv64 { (1 as bv64) << i }
  predicate Meets(w: bv64, b: bv64) { w & b != 0 }
  function With(w: bv64, b: bv64): bv64 { w | b }
  function Without(w: bv64, b: bv64): bv64 { w & !b }

  lemma BitsDisjoint(x: bv6, y: bv6)
    requires x != y
    ensures !Meets(Bit(x), Bit(y))
  {
  }

  lemma OtherBitsSet(w: bv64, a: bv64, b: bv64)
    requires !Meets(a, b)
    ensures With(w, a) & b == w & b
  {
  }

  lemma OtherBitsCleared(w: bv64, a: bv64, b: bv64)
    requires !Meets(a, b)
    ensures Without(w, a) & b == w & b
  {
  }

  lemma OtherBits(w: bv64, a: bv64, b: bv64)
    requires !Meets(a, b)
    ensures Meets(With(w, a), b) <==> Meets(w, b)
    ensures Meets(Without(w, a), b) <==> Meets(w, b)
  {
    hide With, Without;
    OtherBitsSet(w, a, b);
    OtherBitsCleared(w, a, b);
  }

  lemma SameBit(w: bv64, x: bv6)
    ensures Meets(With(w, Bit(x)), Bit(x))
    ensures !Meets(Without(w, Bit(x)), Bit(x))
  {
    var b := Bit(x);
    assert b != 0;
    assert (w | b) & b == b;
    assert (w & !b) & b == 0;
  }

  predicate Has(w: bv64, i: bv6) { Meets(w, Bit(i)) }
  function Put(w: bv64, i: bv6): bv64 { With(w, Bit(i)) }
  function Clear(w: bv64, i: bv6): bv64 { Without(w, Bit(i)) }

  lemma HasPut(x: bv6, y: bv6, w: bv64)
    ensures Has(Put(w, x), y) <==> x == y || Has(w, y)
    ensures Has(Clear(w, x), y) <==> x != y && Has(w, y)
  {
    hide Bit, Meets, With, Without;
    if x != y {
      BitsDisjoint(x, y);
      OtherBits(w, Bit(x), Bit(y));
    } else {
      SameBit(w, x);
    }
  }

  lemma HasNothing(x: bv6)
    ensures !Has(0, x)
  {
  }

  lemma Bv6Value(i: nat)
    requires i < 64
    ensures (i as bv6) as int == i
  {
  }

  lemma Bv6Injective(i: nat, j: nat)
    requires i < 64 && j < 64
    ensures i as bv6 == j as bv6 <==> i == j
  {
    Bv6Value(i);
    Bv6Value(j);
  }

  // ---- The ring ----

  function Word(nonce: uint64): (w: nat)
    ensures w < 16
  {
    nonce % WINDOW_SIZE / BITS_PER_WORD
  }

  function BitIndex(nonce: uint64): bv6 {
    (nonce % WINDOW_SIZE % BITS_PER_WORD) as bv6
  }

  predicate MarkedIn(ring: seq<bv64>, nonce: uint64)
    requires |ring| == 16
  {
    Has(ring[Word(nonce)], BitIndex(nonce))
  }

  /** Two nonces share a slot exactly when they agree modulo the window size. */
  lemma SlotsAgree(a: uint64, b: uint64)
    ensures Word(a) == Word(b) && BitIndex(a) == BitIndex(b) <==> a % WINDOW_SIZE == b % WINDOW_SIZE
  {
    Bv6Injective(a % WINDOW_SIZE % BITS_PER_WORD, b % WINDOW_SIZE % BITS_PER_WORD);
  }

  /** Within one window, sharing a slot means being the same nonce. */
  lemma SlotsDistinct(a: uint64, b: uint64)
    requires a != b && -WINDOW_SIZE < a - b < WINDOW_SIZE
    ensures a % WINDOW_SIZE != b % WINDOW_SIZE
  {
  }

  /** Setting or clearing a slot changes the answer for that slot alone. */
  lemma RingUpdate(ring: seq<bv64>, n: uint64, m: uint64)
    requires |ring| == 16
    ensures MarkedIn(ring[Word(n) := Put(ring[Word(n)], BitIndex(n))], m)
            <==> m % WINDOW_SIZE == n % WINDOW_SIZE || MarkedIn(ring, m)
    ensures MarkedIn(ring[Word(n) := Clear(ring[Word(n)], BitIndex(n))], m)
            <==> m % WINDOW_SIZE != n % WINDOW_SIZE && MarkedIn(ring, m)
  {
    SlotsAgree(n, m);
    hide Has, Put, Clear, BitIndex, Word;
    HasPut(BitIndex(n), BitIndex(m), ring[Word(n)]);
  }

  class AntiReplayWindow {
    var highest: uint64
    var bitmap: array<bv64>
    var seen: bool
    ghost var record: Record

    /** The ring agrees with the record on every nonce it can still speak of. */
    ghost predicate Valid()
      reads this, bitmap
    {
      && bitmap.Length == 16
      && ValidRecord(record)
      && (seen <==> record.accepted != {})
      && (seen ==> highest == record.highest)
      && (!seen ==> forall n: uint64 :: !MarkedIn(bitmap[..], n))
      && (seen ==> forall n: uint64 :: highest - n < WINDOW_SIZE && n <= highest ==>
                   (MarkedIn(bitmap[..], n) <==> n in record.accepted))
    }

    constructor ()
      ensures Valid() && record == EMPTY_RECORD && fresh(bitmap)
    {
      highest, seen := 0, false;
      bitmap := new bv64[16](_ => 0);
      record := EMPTY_RECORD;
      new;
      forall n: uint64 ensures !MarkedIn(bitmap[..], n) {
        hide Has;
        HasNothing(BitIndex(n));
      }
    }

    method Mark(nonce: uint64)
      requires bitmap.Length == 16
      modifies bitmap
      ensures forall m: uint64 :: MarkedIn(bitmap[..], m)
                                  <==> m % WINDOW_SIZE == nonce % WINDOW_SIZE || old(MarkedIn(bitmap[..], m))
    {
      hide Has, Put;
      ghost var before := bitmap[..];
      bitmap[Word(nonce)] := Put(bitmap[Word(nonce)], BitIndex(nonce));
      assert bitmap[..] == before[Word(nonce) := Put(before[Word(nonce)], BitIndex(nonce))];
      forall m: uint64 ensures MarkedIn(bitmap[..], m)
                               <==> m % WINDOW_SIZE == nonce % WINDOW_SIZE || MarkedIn(before, m) {
        RingUpdate(before, nonce, m);
      }
    }

    method Marked(nonce: uint64) returns (m: bool)
      requires bitmap.Length == 16
      ensures m <==> MarkedIn(bitmap[..], nonce)
    {
      m := bitmap[Word(nonce)] & Bit(BitIndex(nonce)) != 0;
    }

    /** Moves highest up to nonce, so that the slots it skips read as unseen. */
    method Advance(nonce: uint64)
      requires Valid() && seen && nonce > highest
      modifies this, bitmap
      ensures bitmap == old(bitmap) && seen && highest == nonce && record == old(record)
      ensures forall n: uint64 :: n < nonce && nonce - n < WINDOW_SIZE ==>
                                  (MarkedIn(bitmap[..], n) <==> n in record.accepted)
    {
      hide Has, Clear, Word, BitIndex;
      if nonce - highest >= WINDOW_SIZE {
        forall i | 0 <= i < 16 { bitmap[i] := 0; }
        forall n: uint64 ensures !MarkedIn(bitmap[..], n) {
          HasNothing(BitIndex(n));
        }
      } else {
        for n := highest + 1 to nonce
          invariant bitmap == old(bitmap) && highest == old(highest) && seen && record == old(record)
          invariant forall m: uint64 :: m < n && nonce - m < WINDOW_SIZE ==>
                                        (MarkedIn(bitmap[..], m) <==> m in record.accepted)
        {
          ghost var before := bitmap[..];
          bitmap[Word(n)] := Clear(bitmap[Word(n)], BitIndex(n));
          assert bitmap[..] == before[Word(n) := Clear(before[Word(n)], BitIndex(n))];
          forall m: uint64 | m < n + 1 && nonce - m < WINDOW_SIZE
            ensures MarkedIn(bitmap[..], m) <==> m in record.accepted
          {
            RingUpdate(before, n, m);
            if m < n { SlotsDistinct(m, n); }
          }
        }
      }
      highest := nonce;
    }

    /** checkAndMark answers as the unbounded record would, and records what it accepts. */
    method CheckAndMark(nonce: uint64) returns (ok: bool)
      requires Valid()
      modifies this, bitmap
      ensures Valid() && bitmap == old(bitmap)
      ensures ok <==> Accepts(old(record), nonce)
      ensures record == if ok then Accept(old(record), nonce) else old(record)
    {
      hide Has, Word, BitIndex;
      ok := true;
      if !seen {
        highest := nonce;
        seen := true;
        Mark(nonce);
      } else if nonce > highest {
        Advance(nonce);
        Mark(nonce);
      } else {
        var m := Marked(nonce);
        if highest - nonce >= WINDOW_SIZE || m {
          return false;
        }
        Mark(nonce);
      }
      record := Accept(record, nonce);
      forall n: uint64 | n <= highest && highest - n < WINDOW_SIZE && n != nonce
        ensures n % WINDOW_SIZE != nonce % WINDOW_SIZE
      {
        SlotsDistinct(n, nonce);
      }
    }
  }
}
