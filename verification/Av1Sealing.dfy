/** A prepared AV1 frame through frame encryption: the ranges the transform reports feed
    frame.Encrypt (codecs/codecs.go passes them on unchanged). */
module Av1Sealing {
  import opened Bytes
  import opened Gcm8
  import opened Ranges
  import Av1
  import F = Frame

  /** Encrypting a prepared frame with its ranges hides exactly the OBU payloads: the packet
      opens to the prepared frame, every header byte is still in place and authenticated, and
      what was sealed is the concatenated payloads. */
  lemma PreparedFrameSealed<K(!new)>(a: Aead<K>, k: K, payload: seq<byte>, nonce: uint32, packet: seq<byte>)
    requires Av1.Prepare(payload).Ok? && |Av1.Prepare(payload).value.frame| < TWO32
    requires var out := Av1.Prepare(payload).value;
             F.EncryptFrame(a, k, out.frame, nonce, out.ranges) == Ok(packet)
    ensures var out := Av1.Prepare(payload).value;
            var f := F.FrameOf(a, k, out.frame, nonce, out.ranges);
            && F.OpensTo(a, k, packet) == Some((out.frame, nonce))
            && F.Prints(f, packet) && f.ranges == out.ranges
            && AdditionalData(f.interleaved, out.ranges) == AdditionalData(out.frame, out.ranges)
            && Ciphertext(f.interleaved, out.ranges) + f.tag
               == Sealed(a, k, F.FullNonce(nonce), Av1.Payloads(Av1.Kept(payload).value),
                         AdditionalData(out.frame, out.ranges))
  {
    hide Av1.Prepare, F.EncryptFrame, F.OpensTo, Av1.Payloads, Sealed, F.FrameOf, F.Prints;
    var out := Av1.Prepare(payload).value;
    Av1.EncryptedPartIsPayloads(payload);
    F.RoundTrip(a, k, out.frame, nonce, out.ranges, packet);
    F.ValidRangesFit(out.ranges, |out.frame|);
    F.ReadBack(a, k, out.frame, nonce, out.ranges, packet);
  }
}
