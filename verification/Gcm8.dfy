/** AES-GCM with an 8-byte tag (frame/gcm8.go).

    The wrapped cipher is abstract: any keystream and any 16-byte tag function of
    key, nonce, ciphertext and additional data. Nothing below assumes more. */
module Gcm8 {
  import opened Bytes
  import opened Slices

  type Nonce = n: seq<byte> | |n| == 12 witness seq(12, _ => 0)
  type FullTag = t: seq<byte> | |t| == 16 witness seq(16, _ => 0)

  /** The inner AEAD: one keystream byte per position, a 16-byte tag, and the keys it accepts. */
  datatype Aead<!K> = Aead(
    stream: (K, Nonce, nat) -> byte,
    tag: (K, Nonce, seq<byte>, seq<byte>) -> FullTag,
    validKey: K -> bool)

  datatype GcmError = AuthTagMismatch

  const TAG_LEN := 8

  function Keystream<K>(a: Aead<K>, k: K, n: Nonce, len: nat): (r: seq<byte>)
    ensures |r| == len
  {
    seq<byte>(len, i requires 0 <= i < len => a.stream(k, n, i))
  }

  function CipherBytes<K>(a: Aead<K>, k: K, n: Nonce, p: seq<byte>): (r: seq<byte>)
    ensures |r| == |p|
  {
    XorSeq(p, Keystream(a, k, n, |p|))
  }

  /** The inner cipher's Seal: ciphertext followed by the full 16-byte tag. */
  function InnerSeal<K>(a: Aead<K>, k: K, n: Nonce, p: seq<byte>, aad: seq<byte>): (r: seq<byte>)
    ensures |r| == |p| + 16
  {
    var c := CipherBytes(a, k, n, p);
    c + a.tag(k, n, c, aad)
  }

  /** What gcm8 puts on the wire: ciphertext followed by the first 8 bytes of the tag. */
  function Sealed<K>(a: Aead<K>, k: K, n: Nonce, p: seq<byte>, aad: seq<byte>): (r: seq<byte>)
    ensures |r| == |p| + TAG_LEN
  {
    var c := CipherBytes(a, k, n, p);
    c + a.tag(k, n, c, aad)[..TAG_LEN]
  }

  /** Different plaintexts seal to different strings. */
  lemma SealedInjective<K>(a: Aead<K>, k: K, n: Nonce, p: seq<byte>, q: seq<byte>, aad: seq<byte>)
    requires Sealed(a, k, n, p, aad) == Sealed(a, k, n, q, aad)
    ensures p == q
  {
    var s := Sealed(a, k, n, p, aad);
    assert s[..|p|] == CipherBytes(a, k, n, p);
    assert s[..|q|] == CipherBytes(a, k, n, q);
    CipherBytesCancel(a, k, n, p);
    CipherBytesCancel(a, k, n, q);
  }

  /** Applying the keystream twice gives the plaintext back. */
  lemma CipherBytesCancel<K>(a: Aead<K>, k: K, n: Nonce, p: seq<byte>)
    ensures CipherBytes(a, k, n, CipherBytes(a, k, n, p)) == p
  {
    XorSeqCancels(p, Keystream(a, k, n, |p|));
  }

  lemma CipherBytesOfZeros<K>(a: Aead<K>, k: K, n: Nonce, zeros: seq<byte>)
    requires forall i :: 0 <= i < |zeros| ==> zeros[i] == 0
    ensures CipherBytes(a, k, n, zeros) == Keystream(a, k, n, |zeros|)
  {
    forall i | 0 <= i < |zeros| ensures CipherBytes(a, k, n, zeros)[i] == a.stream(k, n, i) {
      XorZero(a.stream(k, n, i));
    }
  }

  /** gcm8.Seal: the inner cipher appends its full tag, of which the second half is cut off
      again. In the caller's array the cut-off half stays behind the result. */
  method Seal<K>(a: Aead<K>, k: K, dst: Slice, n: Nonce, p: seq<byte>, aad: seq<byte>)
    requires dst.Valid()
    modifies dst, dst.base
    ensures dst.Valid() && (dst.base == old(dst.base) || fresh(dst.base))
    ensures dst.Contents() == old(dst.Contents()) + Sealed(a, k, n, p, aad) && dst.len == old(dst.len) + |p| + TAG_LEN
    ensures dst.base == dst.home <==> old(dst.base) == dst.home && old(dst.len) + |p| + 16 <= dst.home.Length
    ensures dst.reached == if dst.base == dst.home then dst.len else old(dst.reached)
    ensures dst.before == if dst.base == dst.home
                          then Overlay(old(dst.before), old(dst.Contents()) + InnerSeal(a, k, n, p, aad))
                          else old(dst.before)
  {
    hide CipherBytes;
    ghost var front := dst.Contents();
    var inner := InnerSeal(a, k, n, p, aad);
    dst.Append(inner);
    assert dst.Contents() == dst.base[..dst.len];
    dst.Truncate(dst.len - 8);
    assert (front + inner)[..|front| + |p| + 8] == front + Sealed(a, k, n, p, aad);
  }

  /** constantTimeEqual accumulates the difference instead of stopping at the first. */
  method ConstantTimeEqual(x: seq<byte>, y: seq<byte>) returns (eq: bool)
    ensures eq <==> x == y
  {
    if |x| != |y| {
      return false;
    }
    var diff := 0;
    for i := 0 to |x|
      invariant diff >= 0
      invariant diff == 0 <==> x[..i] == y[..i]
    {
      XorNatIsZero(x[i], y[i]);
      OrNatZero(diff, Xor(x[i], y[i]));
      diff := OrNat(diff, Xor(x[i], y[i]));
      assert x[..i + 1] == x[..i] + [x[i]];
      assert y[..i + 1] == y[..i] + [y[i]];
    }
    assert x[..|x|] == x && y[..|y|] == y;
    return diff == 0;
  }

  /** gcm8.Open: it rebuilds the keystream by sealing zeros, and accepts exactly the
      strings Seal produces, returning the plaintext they were produced from. */
  method Open<K>(a: Aead<K>, k: K, n: Nonce, sealed: seq<byte>, aad: seq<byte>)
    returns (r: Result<seq<byte>, GcmError>)
    ensures r.Ok? ==> sealed == Sealed(a, k, n, r.value, aad)
    ensures r.Err? ==> forall p :: sealed != Sealed(a, k, n, p, aad)
  {
    if |sealed| < 8 {
      return Err(AuthTagMismatch);
    }
    var data := sealed[..|sealed| - 8];
    var receivedTag := sealed[|sealed| - 8..];
    var zeros: seq<byte> := seq(|data|, _ => 0);
    var keystream := InnerSeal(a, k, n, zeros, aad)[..|data|];
    CipherBytesOfZeros(a, k, n, zeros);
    assert keystream == Keystream(a, k, n, |data|);
    var plaintext: seq<byte> := [];
    for i := 0 to |data|
      invariant |plaintext| == i
      invariant forall j :: 0 <= j < i ==> plaintext[j] == Xor(data[j], keystream[j])
    {
      plaintext := plaintext + [Xor(data[i], keystream[i])];
    }
    assert plaintext == CipherBytes(a, k, n, data);
    CipherBytesCancel(a, k, n, data);
    var fullSealed := InnerSeal(a, k, n, plaintext, aad);
    var fullTag := fullSealed[|fullSealed| - 16..];
    assert fullTag == a.tag(k, n, data, aad);
    var same := ConstantTimeEqual(receivedTag, fullTag[..8]);
    assert sealed == data + receivedTag;
    if !same {
      forall p ensures sealed != Sealed(a, k, n, p, aad) {
        if sealed == Sealed(a, k, n, p, aad) { OnlyOwnTag(a, k, n, p, aad, data, receivedTag); }
      }
      return Err(AuthTagMismatch);
    }
    return Ok(plaintext);
  }

  lemma OnlyOwnTag<K>(a: Aead<K>, k: K, n: Nonce, p: seq<byte>, aad: seq<byte>, data: seq<byte>, tag: seq<byte>)
    requires |tag| == 8 && data + tag == Sealed(a, k, n, p, aad)
    ensures tag == a.tag(k, n, data, aad)[..TAG_LEN]
  {
    var s := Sealed(a, k, n, p, aad);
    assert |data| == |p|;
    assert data == s[..|data|] == CipherBytes(a, k, n, p);
    assert tag == s[|data|..];
  }
}
