/** The ULEB128 codec of frame/uleb128.go: 32-bit values, one encoding each. */
module Uleb128 {
  import opened Bytes

  datatype Decoded = Decoded(value: uint32, n: nat)
  datatype UlebError = InvalidUleb128

  /** The encoding as a mathematical object: base-128 digits, least significant
      first, with the high bit set on every digit but the last. */
  function Encode(v: nat): (r: seq<byte>)
    ensures |r| > 0
  {
    if v < 128 then [v] else [128 + v % 128] + Encode(v / 128)
  }

  /** The number a digit string denotes. */
  function Val(bs: seq<byte>): nat {
    if bs == [] then 0 else bs[0] % 128 + 128 * Val(bs[1..])
  }

  /** A complete digit string with no superfluous final zero. */
  predicate Canonical(bs: seq<byte>) {
    && |bs| > 0
    && (forall i :: 0 <= i < |bs| - 1 ==> bs[i] >= 128)
    && bs[|bs| - 1] < 128
    && (|bs| > 1 ==> bs[|bs| - 1] != 0)
  }

  lemma {:induction false} EncodeIsCanonical(v: nat)
    ensures Canonical(Encode(v)) && Val(Encode(v)) == v
  {
    if v >= 128 {
      EncodeIsCanonical(v / 128);
      var e, t := Encode(v), Encode(v / 128);
      assert e[1..] == t;
      assert e[|e| - 1] == t[|t| - 1];
      assert forall i :: 1 <= i < |e| - 1 ==> e[i] == t[i - 1];
    }
  }

  lemma {:induction false} CanonicalIsEncode(bs: seq<byte>)
    requires Canonical(bs)
    ensures Encode(Val(bs)) == bs
  {
    if |bs| == 1 {
      assert Val(bs[1..]) == 0;
    } else {
      var t := bs[1..];
      assert t[|t| - 1] == bs[|bs| - 1];
      assert forall i :: 0 <= i < |t| - 1 ==> t[i] == bs[i + 1];
      CanonicalIsEncode(t);
      CanonicalPositive(t);
      assert Val(bs) / 128 == Val(t) && Val(bs) % 128 == bs[0] % 128;
      assert bs == [bs[0]] + t;
    }
  }

  lemma {:induction false} CanonicalPositive(bs: seq<byte>)
    requires Canonical(bs) && bs[|bs| - 1] != 0
    ensures Val(bs) > 0
  {
    if |bs| > 1 {
      var t := bs[1..];
      assert t[|t| - 1] == bs[|bs| - 1];
      assert forall i :: 0 <= i < |t| - 1 ==> t[i] == bs[i + 1];
      CanonicalPositive(t);
    }
  }

  function Pow128(n: nat): (r: nat)
    ensures r > 0
  {
    if n == 0 then 1 else 128 * Pow128(n - 1)
  }

  lemma {:induction false} ValAppend(a: seq<byte>, b: byte)
    ensures Val(a + [b]) == Val(a) + (b % 128) * Pow128(|a|)
  {
    if a == [] {
      assert a + [b] == [b];
      assert Val([b][1..]) == 0;
    } else {
      ValAppend(a[1..], b);
      assert (a + [b])[1..] == a[1..] + [b];
      assert 128 * ((b % 128) * Pow128(|a| - 1)) == (b % 128) * Pow128(|a|);
    }
  }

  lemma {:induction false} ValBound(a: seq<byte>)
    ensures Val(a) < Pow128(|a|)
  {
    if a != [] { ValBound(a[1..]); }
  }

  /** The sizes a 32-bit value can have. */
  lemma EncodeLength(v: uint32)
    ensures 1 <= |Encode(v)| <= 5
    ensures |Encode(v)| == 5 ==> Encode(v)[4] < 16
  {
    assert v / 128 / 128 / 128 / 128 < 16;
    if v >= 128 {
      var v1 := v / 128;
      assert Encode(v) == [128 + v % 128] + Encode(v1);
      if v1 >= 128 {
        var v2 := v1 / 128;
        assert Encode(v1) == [128 + v1 % 128] + Encode(v2);
        if v2 >= 128 {
          var v3 := v2 / 128;
          assert Encode(v2) == [128 + v2 % 128] + Encode(v3);
          if v3 >= 128 {
            var v4 := v3 / 128;
            assert Encode(v3) == [128 + v3 % 128] + Encode(v4);
          }
        }
      }
    }
  }

  /** No encoding is a proper prefix of another, so a string starts with at most one. */
  lemma PrefixFree(v: nat, w: nat, data: seq<byte>)
    requires Encode(v) <= data && Encode(w) <= data
    ensures v == w
  {
    EncodeIsCanonical(v);
    EncodeIsCanonical(w);
    var a, b := Encode(v), Encode(w);
    assert |a| == |b|;
    assert a == b;
  }

  /** appendULEB128. */
  method AppendUleb128(dst: seq<byte>, value: uint32) returns (out: seq<byte>)
    ensures out == dst + Encode(value)
  {
    out := dst;
    var v: uint32 := value;
    while v >= 0x80
      invariant out + Encode(v) == dst + Encode(value)
    {
      assert Encode(v) == [128 + v % 128] + Encode(v / 128);
      assert out + ([128 + v % 128] + Encode(v / 128)) == (out + [128 + v % 128]) + Encode(v / 128);
      out := out + [0x80 + v % 0x80];
      v := v / 0x80;
    }
    out := out + [v];
  }

  /** DecodeULEB128: it accepts exactly the strings that start with the encoding of
      a 32-bit value, and returns that value and the length of that encoding. */
  method DecodeUleb128(data: seq<byte>) returns (r: Result<Decoded, UlebError>)
    ensures r.Ok? ==> Encode(r.value.value) <= data && r.value.n == |Encode(r.value.value)|
    ensures r.Err? ==> forall v: uint32 :: !(Encode(v) <= data)
  {
    var value, shift, i := 0, 0, 0;
    ghost var pow := 1;
    while i < |data| && i < 5
      invariant 0 <= i <= 5 && i <= |data|
      invariant shift == 7 * i && (shift < 32 || i == 0)
      invariant forall k :: 0 <= k < i ==> data[k] >= 128
      invariant value == Val(data[..i])
    {
      var b := data[i];
      ValAppend(data[..i], b);
      ValBound(data[..i]);
      assert data[..i] + [b] == data[..i + 1];
      var full := value + (b % 0x80) * ShiftFactor(shift);
      if b < 0x80 {
        assert forall k :: 0 <= k < i ==> data[..i + 1][k] == data[k];
        if i > 0 && b == 0 {
          NoEncodingEndsAt(data, i);
          return Err(InvalidUleb128);
        }
        if i == 4 && b / 16 != 0 {
          // b >> (valueBits - shift) is non-zero only for the fifth byte.
          NoEncodingEndsAt(data, i);
          return Err(InvalidUleb128);
        }
        CanonicalIsEncode(data[..i + 1]);
        FitsIn32Bits(data[..i + 1]);
        return Ok(Decoded(full, i + 1));
      }
      value := full;
      shift := shift + 7;
      i := i + 1;
      if shift >= 32 {
        NoEncodingWithin(data, i);
        return Err(InvalidUleb128);
      }
    }
    NoEncodingWithin(data, i);
    return Err(InvalidUleb128);
  }

  /** The weight of a digit, 2 to the power of its shift. */
  function ShiftFactor(shift: nat): (r: nat)
    requires shift % 7 == 0
    ensures r == Pow128(shift / 7)
  {
    Pow128(shift / 7)
  }

  lemma FitsIn32Bits(bs: seq<byte>)
    requires 0 < |bs| <= 5
    requires |bs| == 5 ==> bs[4] < 16
    ensures Val(bs) < TWO32
  {
    var n := |bs| - 1;
    assert bs[..n] + [bs[n]] == bs;
    ValAppend(bs[..n], bs[n]);
    ValBound(bs[..n]);
    PowValues();
    if n == 4 {
      assert Val(bs) < 16 * Pow128(4);
    } else {
      ValBound(bs);
    }
  }

  lemma PowValues()
    ensures Pow128(0) == 1 && Pow128(1) == 128 && Pow128(2) == 16384
    ensures Pow128(3) == 2097152 && Pow128(4) == 268435456
  {
    assert Pow128(3) == 128 * Pow128(2);
    assert Pow128(4) == 128 * Pow128(3);
  }

  lemma NoEncodingEndsAt(data: seq<byte>, i: nat)
    requires i < |data| && i < 5 && data[i] < 128
    requires forall k :: 0 <= k < i ==> data[k] >= 128
    requires (i > 0 && data[i] == 0) || (i == 4 && data[i] >= 16)
    ensures forall v: uint32 :: !(Encode(v) <= data)
  {
    forall v: uint32 ensures !(Encode(v) <= data) {
      EncodeIsCanonical(v);
      EncodeLength(v);
      var e := Encode(v);
      if e <= data {
        assert false;
      }
    }
  }

  lemma NoEncodingWithin(data: seq<byte>, i: nat)
    requires i <= |data| && (i == |data| || i == 5)
    requires forall k :: 0 <= k < i ==> data[k] >= 128
    ensures forall v: uint32 :: !(Encode(v) <= data)
  {
    forall v: uint32 ensures !(Encode(v) <= data) {
      EncodeIsCanonical(v);
      EncodeLength(v);
      var e := Encode(v);
      if e <= data {
        assert false;
      }
    }
  }
}
