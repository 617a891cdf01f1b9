/** Byte strings, XOR and the result type shared by every other module. */
module Bytes {

  type byte = x: int | 0 <= x < 256
  type uint32 = x: int | 0 <= x < 0x1_0000_0000
  type uint64 = x: int | 0 <= x < 0x1_0000_0000_0000_0000

  const TWO32: int := 0x1_0000_0000
  const TWO56: int := 0x100_0000_0000_0000
  const TWO64: int := 0x1_0000_0000_0000_0000

  datatype Option<+T> = None | Some(value: T)

  datatype Result<+T, +E> = Ok(value: T) | Err(error: E)

  function Min(a: nat, b: nat): nat { if a < b then a else b }

  /** Bitwise exclusive or of two naturals, lowest bit first. */
  function XorNat(a: nat, b: nat): nat
    decreases a + b
  {
    if a == 0 && b == 0 then 0
    else 2 * XorNat(a / 2, b / 2) + (a + b) % 2
  }

  lemma {:induction false} XorNatBound(a: nat, b: nat, bound: nat)
    requires a < bound && b < bound && IsPow2(bound)
    ensures XorNat(a, b) < bound
    decreases bound
  {
    if bound > 1 { XorNatBound(a / 2, b / 2, bound / 2); }
  }

  predicate IsPow2(n: nat) {
    n == 1 || (n > 1 && n % 2 == 0 && IsPow2(n / 2))
  }

  /** The defining equation of XorNat, true of zero operands as well. */
  lemma XorNatStep(a: nat, b: nat)
    ensures XorNat(a, b) / 2 == XorNat(a / 2, b / 2)
    ensures XorNat(a, b) % 2 == (a + b) % 2
  {
  }

  lemma ParityCancels(a: nat, b: nat, x: nat)
    requires x % 2 == (a + b) % 2
    ensures (x + b) % 2 == a % 2
  {
  }

  lemma {:induction false} XorNatCancels(a: nat, b: nat)
    ensures XorNat(XorNat(a, b), b) == a
    decreases a + b
  {
    if a != 0 || b != 0 {
      XorNatCancels(a / 2, b / 2);
      var x := XorNat(a, b);
      XorNatStep(a, b);
      XorNatStep(x, b);
      ParityCancels(a, b, x);
      hide XorNat;
      assert XorNat(x, b) / 2 == a / 2 && XorNat(x, b) % 2 == a % 2;
    } 
  }

  function Xor(a: byte, b: byte): (r: byte) {
    XorNatBound(a, b, 256);
    XorNat(a, b)
  }

  /** XOR-ing with the same byte twice gives the byte back. */
  lemma XorCancels(a: byte, b: byte)
    ensures Xor(Xor(a, b), b) == a
  {
    XorNatCancels(a, b);
  }

  lemma XorZero(b: byte)
    ensures Xor(0, b) == b
  {
    XorNatCancels(b, 0);
    XorNatZero(b);
  }

  lemma {:induction false} XorNatZero(b: nat)
    ensures XorNat(0, b) == b && XorNat(b, 0) == b
    decreases b
  {
    if b != 0 { XorNatZero(b / 2); }
  }

  /** Two strings XOR-ed byte by byte. */
  function XorSeq(a: seq<byte>, b: seq<byte>): (r: seq<byte>)
    requires |a| == |b|
    ensures |r| == |a|
  {
    seq(|a|, i requires 0 <= i < |a| => Xor(a[i], b[i]))
  }

  lemma XorSeqCancels(a: seq<byte>, b: seq<byte>)
    requires |a| == |b|
    ensures XorSeq(XorSeq(a, b), b) == a
  {
    forall i | 0 <= i < |a| ensures XorSeq(XorSeq(a, b), b)[i] == a[i] {
      XorCancels(a[i], b[i]);
    }
  }

  /** Bitwise or of two naturals; the frame code only asks whether it is zero. */
  function OrNat(a: nat, b: nat): nat
    decreases a + b
  {
    if a == 0 && b == 0 then 0
    else 2 * OrNat(a / 2, b / 2) + (if a % 2 == 1 || b % 2 == 1 then 1 else 0)
  }

  lemma {:induction false} OrNatZero(a: nat, b: nat)
    ensures OrNat(a, b) == 0 <==> a == 0 && b == 0
    decreases a + b
  {
    if a != 0 || b != 0 { OrNatZero(a / 2, b / 2); }
  }

  lemma {:induction false} XorNatIsZero(a: nat, b: nat)
    ensures XorNat(a, b) == 0 <==> a == b
    decreases a + b
  {
    XorNatCancels(a, b);
    XorNatZero(b);
    XorNatSelf(a);
  }

  lemma {:induction false} XorNatSelf(a: nat)
    ensures XorNat(a, a) == 0
  {
    if a != 0 { XorNatSelf(a / 2); }
  }
}
