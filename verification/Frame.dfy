/** The DAVE media frame (frame/encrypt.go): footer printer and parser, encryption
    with interleaved clear ranges, and decryption.

    `Print` and `EncryptFrame` are the reference; parsing and decryption are proved
    to be their two-sided inverses. */
module Frame {
  import opened Bytes
  import opened Slices
  import opened Uleb128
  import opened Ranges
  import opened Gcm8

  datatype FrameError =
    | InvalidKeyLength | FrameTooShort | InvalidMagicMarker | InvalidSupplementalSize
    | BadUleb128 | BadRanges | BadTag | BufferTooSmall

  datatype ParsedFrame = ParsedFrame(
    interleaved: seq<byte>, tag: seq<byte>, nonce: uint32, ranges: seq<Range>, supplementalSize: nat)

  const MAGIC: byte := 0xFA
  const SUPPL_SIZE_LEN := 1
  const MAGIC_LEN := 2
  const MAX_SUPPL_SIZE := 255

  /** Go's conversion of an int to uint32. */
  function ToUint32(x: int): uint32 { x % TWO32 }

  function EncodeRanges(rs: seq<Range>): seq<byte> {
    if rs == [] then []
    else Encode(ToUint32(rs[0].offset)) + Encode(ToUint32(rs[0].length)) + EncodeRanges(rs[1..])
  }

  /** The encoding of a non-empty list starts with its first range. */
  lemma EncodeRangesStart(rs: seq<Range>)
    requires rs != []
    ensures var o, l := Encode(ToUint32(rs[0].offset)), Encode(ToUint32(rs[0].length));
            && EncodeRanges(rs) != []
            && o <= EncodeRanges(rs)
            && EncodeRanges(rs)[|o|..] == l + EncodeRanges(rs[1..])
            && l <= EncodeRanges(rs)[|o|..]
            && EncodeRanges(rs)[|o|..][|l|..] == EncodeRanges(rs[1..])
  {
    var o, l, t := Encode(ToUint32(rs[0].offset)), Encode(ToUint32(rs[0].length)), EncodeRanges(rs[1..]);
    assert EncodeRanges(rs) == o + (l + t);
  }

  predicate Fits(rs: seq<Range>) {
    forall i :: 0 <= i < |rs| ==> 0 <= rs[i].offset < TWO32 && 0 <= rs[i].length < TWO32
  }

  /** Everything the supplemental size counts except the size byte and the marker. */
  function Footer(f: ParsedFrame): seq<byte> {
    f.tag + Encode(f.nonce) + EncodeRanges(f.ranges)
  }

  ghost predicate WellFormed(f: ParsedFrame) {
    && |f.tag| == TAG_LEN
    && ValidRanges(f.ranges, |f.interleaved|) && Fits(f.ranges)
    && f.supplementalSize == |Footer(f)| + SUPPL_SIZE_LEN + MAGIC_LEN <= MAX_SUPPL_SIZE
  }

  function Print(f: ParsedFrame): seq<byte>
    requires f.supplementalSize <= MAX_SUPPL_SIZE
  {
    f.interleaved + Footer(f) + [f.supplementalSize, MAGIC, MAGIC]
  }

  ghost predicate Prints(f: ParsedFrame, packet: seq<byte>) {
    WellFormed(f) && Print(f) == packet
  }

  predicate LooksLikeDaveFrame(packet: seq<byte>) {
    |packet| >= 11 && packet[|packet| - 2] == MAGIC && packet[|packet| - 1] == MAGIC
  }

  // ---- Parsing ----

  /** Where the parts of a printed frame are, counted from the end of the packet. */
  lemma Layout(f: ParsedFrame, packet: seq<byte>)
    requires Prints(f, packet)
    ensures LooksLikeDaveFrame(packet)
    ensures packet[|packet| - 3] == f.supplementalSize && 12 <= f.supplementalSize <= |packet|
    ensures packet[..|packet| - f.supplementalSize] == f.interleaved
    ensures packet[|packet| - f.supplementalSize..|packet| - 3] == Footer(f)
    ensures Footer(f)[..8] == f.tag
    ensures Footer(f)[8..] == Encode(f.nonce) + EncodeRanges(f.ranges)
  {
    assert Footer(f) == f.tag + (Encode(f.nonce) + EncodeRanges(f.ranges));
    assert packet == f.interleaved + (Footer(f) + [f.supplementalSize, MAGIC, MAGIC]);
  }

  lemma {:induction false} EncodeRangesAppend(rs: seq<Range>, r: Range)
    ensures EncodeRanges(rs + [r]) == EncodeRanges(rs) + (Encode(ToUint32(r.offset)) + Encode(ToUint32(r.length)))
  {
    hide Encode;
    if rs == [] {
      assert rs + [r] == [r];
      assert [r][1..] == [];
    } else {
      EncodeRangesAppend(rs[1..], r);
      assert (rs + [r])[1..] == rs[1..] + [r];
      var o, l, t := Encode(ToUint32(rs[0].offset)), Encode(ToUint32(rs[0].length)), EncodeRanges(rs[1..]);
      var last := Encode(ToUint32(r.offset)) + Encode(ToUint32(r.length));
      assert o + l + (t + last) == (o + l + t) + last;
    }
  }

  /** What the range loop knows of any range list the bytes encode: the ranges read
      so far are its first ones and the unread bytes encode the others. */
  ghost predicate ReadSoFar(all: seq<Range>, ranges: seq<Range>, rest: seq<byte>) {
    ranges <= all && rest == EncodeRanges(all[|ranges|..])
  }

  lemma EncodeNoRanges()
    ensures EncodeRanges([]) == []
  {
  }

  /** One more range decoded from the rest is the next range of any such list. */
  lemma ReadOneMore(all: seq<Range>, ranges: seq<Range>, rest: seq<byte>, off: uint32, len: uint32)
    requires Fits(all) && ReadSoFar(all, ranges, rest) && rest != []
    requires Encode(off) <= rest && Encode(len) <= rest[|Encode(off)|..]
    ensures ReadSoFar(all, ranges + [Range(off, len)], rest[|Encode(off)|..][|Encode(len)|..])
  {
    hide Encode, EncodeRanges;
    var tail := all[|ranges|..];
    EncodeNoRanges();
    assert tail[0] == all[|ranges|];
    EncodeRangesStart(tail);
    PrefixFree(off, ToUint32(tail[0].offset), rest);
    PrefixFree(len, ToUint32(tail[0].length), rest[|Encode(off)|..]);
    assert tail[1..] == all[|ranges| + 1..];
    assert all[..|ranges| + 1] == ranges + [tail[0]];
  }

  lemma StartsWithRange(all: seq<Range>, ranges: seq<Range>, rest: seq<byte>)
    requires ReadSoFar(all, ranges, rest) && rest != []
    ensures |ranges| < |all|
    ensures Encode(ToUint32(all[|ranges|].offset)) <= rest
    ensures forall off: uint32 :: Encode(off) <= rest ==> off == ToUint32(all[|ranges|].offset)
    ensures Encode(ToUint32(all[|ranges|].length))
            <= rest[|Encode(ToUint32(all[|ranges|].offset))|..]
  {
    var tail := all[|ranges|..];
    assert tail[0] == all[|ranges|];
    EncodeRangesStart(tail);
    forall off: uint32 | Encode(off) <= rest ensures off == ToUint32(all[|ranges|].offset) {
      PrefixFree(off, ToUint32(tail[0].offset), rest);
    }
  }

  lemma Regroup(data: seq<byte>, done: seq<byte>, rest: seq<byte>, a: seq<byte>, b: seq<byte>)
    requires data == done + rest && a <= rest && b <= rest[|a|..]
    ensures data == (done + (a + b)) + rest[|a|..][|b|..]
  {
    assert rest == a + (b + rest[|a|..][|b|..]);
  }

  /** The range loop of Parse. */
  method ParseRanges(data: seq<byte>) returns (r: Result<seq<Range>, UlebError>)
    ensures r.Ok? ==> Fits(r.value) && EncodeRanges(r.value) == data
    ensures r.Ok? ==> forall all :: Fits(all) && data == EncodeRanges(all) ==> all == r.value
    ensures r.Err? ==> forall all: seq<Range> :: data == EncodeRanges(all) ==> !Fits(all)
  {
    hide Encode, EncodeRanges;
    EncodeNoRanges();
    var ranges: seq<Range> := [];
    var rest := data;
    forall all: seq<Range> | data == EncodeRanges(all) ensures ReadSoFar(all, ranges, rest) {
      assert all[0..] == all;
    }
    while |rest| > 0
      invariant Fits(ranges) && data == EncodeRanges(ranges) + rest
      invariant forall all: seq<Range> :: Fits(all) && data == EncodeRanges(all) ==> ReadSoFar(all, ranges, rest)
      decreases |rest|
    {
      var offset := DecodeUleb128(rest);
      if offset.Err? {
        forall all: seq<Range> | Fits(all) && data == EncodeRanges(all) ensures false {
          StartsWithRange(all, ranges, rest);
        }
        return Err(offset.error);
      }
      var rest1 := rest[offset.value.n..];
      var length := DecodeUleb128(rest1);
      if length.Err? {
        forall all: seq<Range> | Fits(all) && data == EncodeRanges(all) ensures false {
          StartsWithRange(all, ranges, rest);
        }
        return Err(length.error);
      }
      var next := Range(offset.value.value, length.value.value);
      forall all: seq<Range> | Fits(all) && data == EncodeRanges(all)
        ensures ReadSoFar(all, ranges + [next], rest1[length.value.n..])
      {
        ReadOneMore(all, ranges, rest, offset.value.value, length.value.value);
      }
      EncodeRangesAppend(ranges, next);
      Regroup(data, EncodeRanges(ranges), rest, Encode(offset.value.value), Encode(length.value.value));
      rest := rest1[length.value.n..];
      ranges := ranges + [next];
    }
    forall all: seq<Range> | Fits(all) && data == EncodeRanges(all) ensures all == ranges {
      if |ranges| < |all| {
        EncodeRangesStart(all[|ranges|..]);
        assert false;
      }
    }
    return Ok(ranges);
  }

  /** Parse accepts exactly the printed frames and recovers the frame they print. */
  method Parse(packet: seq<byte>) returns (r: Result<ParsedFrame, FrameError>)
    ensures r.Ok? ==> Prints(r.value, packet)
    ensures r.Err? ==> forall f :: !Prints(f, packet)
    ensures r == Err(FrameTooShort) <==> |packet| < 11
    ensures r == Err(InvalidMagicMarker) <==> |packet| >= 11 && !LooksLikeDaveFrame(packet)
  {
    hide Encode, EncodeRanges, Footer, Print;
    if |packet| < 11 {
      forall f | Prints(f, packet) ensures false { Layout(f, packet); }
      return Err(FrameTooShort);
    }
    if packet[|packet| - 2] != MAGIC || packet[|packet| - 1] != MAGIC {
      forall f | Prints(f, packet) ensures false { Layout(f, packet); }
      return Err(InvalidMagicMarker);
    }
    var supplSize: nat := packet[|packet| - 3];
    if supplSize < 11 || supplSize > |packet| {
      forall f | Prints(f, packet) ensures false { Layout(f, packet); }
      return Err(InvalidSupplementalSize);
    }
    var footerStart := |packet| - supplSize;
    var footer := packet[footerStart..|packet| - 3];
    var tag := footer[..8];
    var nonce := DecodeUleb128(footer[8..]);
    if nonce.Err? {
      forall f | Prints(f, packet) ensures false { Layout(f, packet); }
      return Err(BadUleb128);
    }
    var ranges := ParseRanges(footer[8..][nonce.value.n..]);
    if ranges.Err? {
      forall f | Prints(f, packet) ensures false { AfterNonce(f, packet, nonce.value.value); }
      return Err(BadUleb128);
    }
    var interleaved := packet[..footerStart];
    var valid := ValidateRanges(ranges.value, |interleaved|);
    if valid.Err? {
      forall f | Prints(f, packet) ensures false {
        AfterNonce(f, packet, nonce.value.value);
        Layout(f, packet);
      }
      return Err(BadRanges);
    }
    r := Ok(ParsedFrame(interleaved, tag, nonce.value.value, ranges.value, supplSize));
    Reassemble(r.value, packet);
  }

  /** The parts cut out of a packet print it again. */
  lemma Reassemble(f: ParsedFrame, packet: seq<byte>)
    requires LooksLikeDaveFrame(packet) && f.supplementalSize == packet[|packet| - 3]
    requires 11 <= f.supplementalSize <= |packet|
    requires f.interleaved == packet[..|packet| - f.supplementalSize]
    requires var footer := packet[|packet| - f.supplementalSize..|packet| - 3];
             && f.tag == footer[..8]
             && Encode(f.nonce) <= footer[8..]
             && EncodeRanges(f.ranges) == footer[8..][|Encode(f.nonce)|..]
    requires ValidRanges(f.ranges, |f.interleaved|) && Fits(f.ranges)
    ensures Prints(f, packet)
  {
    hide Encode, EncodeRanges, ValidRanges, Fits;
    var footer := packet[|packet| - f.supplementalSize..|packet| - 3];
    assert footer[8..] == Encode(f.nonce) + EncodeRanges(f.ranges);
    assert footer == footer[..8] + footer[8..];
    assert Footer(f) == footer;
    assert packet[|packet| - 3..] == [f.supplementalSize, MAGIC, MAGIC];
    CutTwice(packet, |packet| - f.supplementalSize, |packet| - 3);
  }

  lemma CutTwice(p: seq<byte>, i: nat, j: nat)
    requires i <= j <= |p|
    ensures p == p[..i] + p[i..j] + p[j..]
  {
  }

  /** A frame that prints the packet has the decoded nonce, and its ranges are what follows. */
  lemma AfterNonce(f: ParsedFrame, packet: seq<byte>, nonce: uint32)
    requires Prints(f, packet)
    requires 11 <= |packet| && 11 <= packet[|packet| - 3] <= |packet|
    requires Encode(nonce) <= packet[|packet| - packet[|packet| - 3]..|packet| - 3][8..]
    ensures f.nonce == nonce
    ensures packet[|packet| - packet[|packet| - 3]..|packet| - 3][8..][|Encode(nonce)|..] == EncodeRanges(f.ranges)
  {
    Layout(f, packet);
    var body := Encode(f.nonce) + EncodeRanges(f.ranges);
    assert Footer(f)[8..] == body;
    assert Encode(f.nonce) <= body;
    PrefixFree(nonce, f.nonce, body);
  }

  lemma {:induction false} EncodeRangesInjective(a: seq<Range>, b: seq<Range>)
    requires Fits(a) && Fits(b) && EncodeRanges(a) == EncodeRanges(b)
    ensures a == b
  {
    hide Encode, EncodeRanges;
    EncodeNoRanges();
    if a != [] { EncodeRangesStart(a); }
    if b != [] { EncodeRangesStart(b); }
    if a != [] && b != [] {
      var e := EncodeRanges(a);
      PrefixFree(ToUint32(a[0].offset), ToUint32(b[0].offset), e);
      PrefixFree(ToUint32(a[0].length), ToUint32(b[0].length), e[|Encode(ToUint32(a[0].offset))|..]);
      EncodeRangesInjective(a[1..], b[1..]);
      assert a == [a[0]] + a[1..] && b == [b[0]] + b[1..];
    }
  }

  /** A packet is the printed form of at most one frame. */
  lemma PrintInjective(f: ParsedFrame, g: ParsedFrame, packet: seq<byte>)
    requires Prints(f, packet) && Prints(g, packet)
    ensures f == g
  {
    Layout(f, packet);
    Layout(g, packet);
    var body := Footer(f)[8..];
    PrefixFree(f.nonce, g.nonce, body);
    assert body[|Encode(f.nonce)|..] == EncodeRanges(f.ranges) == EncodeRanges(g.ranges);
    EncodeRangesInjective(f.ranges, g.ranges);
  }

  // ---- Encryption ----

  /** The 96-bit nonce: eight zero bytes and the truncated nonce, low byte first. */
  function FullNonce(t: uint32): (n: Nonce)
    ensures forall i :: 0 <= i < 8 ==> n[i] == 0
    ensures n[8] as int + 256 * (n[9] as int) + 65536 * (n[10] as int) + 16777216 * (n[11] as int) == t
  {
    LowBytesFirst(t);
    seq<byte>(8, _ => 0) + [t % 256, t / 256 % 256, t / 65536 % 256, t / 16777216]
  }

  lemma LowBytesFirst(t: uint32)
    ensures t % 256 + 256 * (t / 256 % 256) + 65536 * (t / 65536 % 256) + 16777216 * (t / 16777216) == t
  {
    assert t == 256 * (t / 256) + t % 256;
    assert t / 256 == 256 * (t / 65536) + t / 256 % 256;
    assert t / 65536 == 256 * (t / 16777216) + t / 65536 % 256;
  }

  /** Different truncated nonces are different 96-bit nonces. */
  lemma FullNonceInjective(t: uint32, u: uint32)
    requires FullNonce(t) == FullNonce(u)
    ensures t == u
  {
  }

  ghost function SealedParts<K>(a: Aead<K>, k: K, p: seq<byte>, nonce: uint32, rs: seq<Range>): (r: seq<byte>)
    ensures |r| == Rank(rs, |p|) + TAG_LEN
  {
    PickLength(p, rs, |p|);
    Sealed(a, k, FullNonce(nonce), Ciphertext(p, rs), AdditionalData(p, rs))
  }

  /** The frame that encrypting p produces: clear bytes in place, the others replaced
      by ciphertext, authenticated together with the clear ones. */
  ghost function FrameOf<K>(a: Aead<K>, k: K, p: seq<byte>, nonce: uint32, rs: seq<Range>): (f: ParsedFrame)
    ensures |f.interleaved| == |p| && |f.tag| == TAG_LEN && f.nonce == nonce && f.ranges == rs
    ensures f.supplementalSize == |Footer(f)| + SUPPL_SIZE_LEN + MAGIC_LEN
  {
    var sealed := SealedParts(a, k, p, nonce, rs);
    var f := ParsedFrame(Weave(p, rs, sealed[..|sealed| - 8]), sealed[|sealed| - 8..], nonce, rs, 0);
    f.(supplementalSize := |Footer(f)| + SUPPL_SIZE_LEN + MAGIC_LEN)
  }

  /** frame.Encrypt, for every argument. */
  ghost function EncryptFrame<K>(a: Aead<K>, k: K, p: seq<byte>, nonce: uint32, rs: seq<Range>)
    : Result<seq<byte>, FrameError>
  {
    if !a.validKey(k) then Err(InvalidKeyLength)
    else if !ValidRanges(rs, |p|) then Err(BadRanges)
    else
      var f := FrameOf(a, k, p, nonce, rs);
      if f.supplementalSize > MAX_SUPPL_SIZE then Err(InvalidSupplementalSize) else Ok(Print(f))
  }

  lemma ValidRangesFit(rs: seq<Range>, size: nat)
    requires ValidRanges(rs, size) && size < TWO32
    ensures Fits(rs)
  {
  }

  /** With no ranges the whole frame is ciphertext and there is no additional data. */
  lemma {:induction false} NoRanges(p: seq<byte>, n: nat)
    requires n <= |p|
    ensures Pick(p, [], false, n) == p[..n] && Pick(p, [], true, n) == [] && Rank([], n) == n
  {
    if n > 0 {
      NoRanges(p, n - 1);
      assert !Clear([], n - 1);
      assert p[..n] == p[..n - 1] + [p[n - 1]];
      assert Pick(p, [], true, n) == Pick(p, [], true, n - 1) + [];
    }
  }

  lemma NoRangesFrame<K>(a: Aead<K>, k: K, p: seq<byte>, nonce: uint32)
    ensures var f := FrameOf(a, k, p, nonce, []);
            && f.interleaved + f.tag == Sealed(a, k, FullNonce(nonce), p, [])
            && f.supplementalSize == TAG_LEN + |Encode(nonce)| + SUPPL_SIZE_LEN + MAGIC_LEN <= MAX_SUPPL_SIZE
  {
    NoRanges(p, |p|);
    EncodeLength(nonce);
    assert p[..|p|] == p;
    var sealed := SealedParts(a, k, p, nonce, []);
    var c := sealed[..|sealed| - 8];
    forall i | 0 <= i < |p| ensures Weave(p, [], c)[i] == c[i] {
      NoRanges(p, i);
      assert !Clear([], i);
    }
    assert Weave(p, [], c) == c;
  }

  /** The footer's range loop. */
  method AppendRanges(dst: Slice, rs: seq<Range>)
    requires dst.Valid()
    modifies dst`base, dst`len, dst`reached, dst.base
    ensures dst.Valid() && (dst.base == old(dst.base) || fresh(dst.base))
    ensures dst.Contents() == old(dst.Contents()) + EncodeRanges(rs) && dst.len == old(dst.len) + |EncodeRanges(rs)|
    ensures dst.base == dst.home <==> old(dst.base) == dst.home && dst.len <= dst.home.Length
    ensures dst.reached == if old(dst.base) == dst.home then Min(dst.len, dst.home.Length) else old(dst.reached)
  {
    hide Encode, EncodeRanges;
    EncodeNoRanges();
    ghost var front := dst.Contents();
    for i := 0 to |rs|
      invariant dst.Valid() && (dst.base == old(dst.base) || fresh(dst.base))
      invariant dst.Contents() == front + EncodeRanges(rs[..i]) && dst.len == old(dst.len) + |EncodeRanges(rs[..i])|
      invariant dst.base == dst.home <==> old(dst.base) == dst.home && dst.len <= dst.home.Length
      invariant dst.reached == if old(dst.base) == dst.home then Min(dst.len, dst.home.Length) else old(dst.reached)
    {
      EncodeRangesAppend(rs[..i], rs[i]);
      assert rs[..i + 1] == rs[..i] + [rs[i]];
      dst.AppendUleb128(ToUint32(rs[i].offset));
      dst.AppendUleb128(ToUint32(rs[i].length));
    }
    assert rs[..|rs|] == rs;
  }

  lemma JoinSealed(f: ParsedFrame, front: seq<byte>, out: seq<byte>)
    requires f.supplementalSize <= MAX_SUPPL_SIZE && f.ranges == []
    requires out == front + (f.interleaved + f.tag) + Encode(f.nonce) + [f.supplementalSize] + [MAGIC, MAGIC]
    ensures out == front + Print(f)
  {
    hide Encode;
  }

  /** Everything the general branch appends before it knows that the size fits a byte. */
  function Body(f: ParsedFrame): seq<byte> {
    f.interleaved + f.tag + Encode(f.nonce) + EncodeRanges(f.ranges)
  }

  /** What the general branch appends in all. */
  function Appended(f: ParsedFrame): seq<byte> {
    if f.supplementalSize > MAX_SUPPL_SIZE then Body(f) else Print(f)
  }

  /** How much of the body lands in a caller's array with this much room: frame, tag and
      nonce are appended whole, the range digits one by one. */
  function BodyReach(f: ParsedFrame, room: nat): (n: nat)
    requires |f.tag| == TAG_LEN
    ensures n <= room && n <= |Body(f)| && (n == |Body(f)| <==> |Body(f)| <= room)
  {
    var size, n := |f.interleaved|, |Encode(f.nonce)|;
    if room < size then 0
    else if room < size + TAG_LEN then size
    else if room < size + TAG_LEN + n then size + TAG_LEN
    else Min(room, |Body(f)|)
  }

  /** How much in all: the size and the marker follow, one byte and two. */
  function Reach(f: ParsedFrame, room: nat): (n: nat)
    requires |f.tag| == TAG_LEN
    ensures n <= room && n <= |Appended(f)| && (n == |Appended(f)| <==> |Appended(f)| <= room)
  {
    var all := |Body(f)|;
    if f.supplementalSize > MAX_SUPPL_SIZE || room < all then BodyReach(f, room)
    else if room < all + 3 then Min(room, all + 1)
    else all + 3
  }

  /** The end of every footer: nonce, size and marker, three appends. */
  method AppendEnd(dst: Slice, nonceBytes: seq<byte>, supplSize: byte)
    requires dst.Valid()
    modifies dst`base, dst`len, dst`reached, dst.base
    ensures dst.Valid() && (dst.base == old(dst.base) || fresh(dst.base))
    ensures dst.Contents() == old(dst.Contents()) + nonceBytes + [supplSize] + [MAGIC, MAGIC]
    ensures dst.base == dst.home <==> old(dst.base) == dst.home && dst.len <= dst.home.Length
    ensures dst.base == dst.home ==> dst.reached == dst.len
    ensures old(dst.base) != dst.home ==> dst.reached == old(dst.reached)
    ensures |nonceBytes| == 0 && old(dst.base) == dst.home && dst.len > dst.home.Length ==>
              dst.reached == Min(dst.home.Length, old(dst.len) + 1)
  {
    dst.Append(nonceBytes);
    dst.Append([supplSize]);
    dst.Append([0xFA, 0xFA]);
  }

  /** encryptCoreAppend without ranges: a sealed frame, with the rest of the inner tag
      behind it if the caller's array had room for that. */
  method AppendSealed<K>(dst: Slice, a: Aead<K>, k: K, p: seq<byte>, nonce: uint32)
    requires dst.Valid() && dst.base == dst.home
    modifies dst, dst.base
    ensures dst.Valid() && (dst.base == old(dst.base) || fresh(dst.base))
    ensures FrameOf(a, k, p, nonce, []).supplementalSize <= MAX_SUPPL_SIZE
    ensures dst.Contents() == old(dst.Contents()) + Print(FrameOf(a, k, p, nonce, []))
    ensures dst.base == dst.home <==> old(dst.len) + |p| + 16 <= dst.home.Length
    ensures dst.reached == if dst.base == dst.home then dst.len else old(dst.len)
    ensures dst.before == if dst.base == dst.home
                          then Overlay(old(dst.before), old(dst.Contents()) + InnerSeal(a, k, FullNonce(nonce), p, []))
                          else old(dst.before)
  {
    hide Encode, InnerSeal, FrameOf, Print, Slice.Valid, Slice.Contents;
    var nonceBytes := AppendUleb128([], nonce);
    ghost var front := dst.Contents();
    ghost var f := SealFrame(dst, a, k, p, nonce);
    AppendEnd(dst, nonceBytes, 8 + |nonceBytes| + 1 + 2);
    JoinSealed(f, front, dst.Contents());
  }

  /** The seal of a frame without ranges: ciphertext and tag, as the frame has them. */
  method SealFrame<K>(dst: Slice, a: Aead<K>, k: K, p: seq<byte>, nonce: uint32) returns (ghost f: ParsedFrame)
    requires dst.Valid() && dst.base == dst.home
    modifies dst, dst.base
    ensures dst.Valid() && (dst.base == old(dst.base) || fresh(dst.base))
    ensures f == FrameOf(a, k, p, nonce, []) && dst.Contents() == old(dst.Contents()) + (f.interleaved + f.tag)
    ensures dst.len == old(dst.len) + |p| + 8 && |Encode(nonce)| <= 5
    ensures f.supplementalSize == 8 + |Encode(nonce)| + 1 + 2
    ensures dst.base == dst.home <==> old(dst.len) + |p| + 16 <= dst.home.Length
    ensures dst.reached == if dst.base == dst.home then dst.len else old(dst.len)
    ensures dst.before == if dst.base == dst.home
                          then Overlay(old(dst.before), old(dst.Contents()) + InnerSeal(a, k, FullNonce(nonce), p, []))
                          else old(dst.before)
  {
    assert dst.reached == dst.len;
    hide Encode, Sealed, InnerSeal, Keystream, CipherBytes, FrameOf, Slice.Valid, Slice.Contents;
    EncodeLength(nonce);
    NoRangesFrame(a, k, p, nonce);
    f := FrameOf(a, k, p, nonce, []);
    Seal(a, k, dst, FullNonce(nonce), p, []);
  }

  /** encryptCoreAppend with ranges: it appends until the size turns out too large, if it
      does, and reaches exactly so far into the caller's array. */
  method AppendWoven<K>(dst: Slice, a: Aead<K>, k: K, p: seq<byte>, nonce: uint32, rs: seq<Range>)
    returns (ok: bool)
    requires dst.Valid() && dst.base == dst.home && ValidRanges(rs, |p|)
    modifies dst, dst.base
    ensures dst.Valid() && (dst.base == old(dst.base) || fresh(dst.base)) && dst.before == old(dst.before)
    ensures var f := FrameOf(a, k, p, nonce, rs);
            && ok == (f.supplementalSize <= MAX_SUPPL_SIZE) && dst.Contents() == old(dst.Contents()) + Appended(f)
            && (dst.base == dst.home <==> dst.len <= dst.home.Length)
            && dst.reached == old(dst.len) + Reach(f, dst.home.Length - old(dst.len))
  {
    hide Sealed, Weave, Pick, Rank, Keystream, CipherBytes, Appended, Reach;
    PickLength(p, rs, |p|);
    var ciphertext := ExtractCiphertext(p, rs);
    var aad := BuildAad(p, rs);
    var none := new byte[0];
    var scratch := new Slice(none, 0);
    Seal(a, k, scratch, FullNonce(nonce), ciphertext, aad);
    var sealed := scratch.base[..scratch.len];
    assert scratch.Contents() == sealed == SealedParts(a, k, p, nonce, rs);
    ok := AppendParts(dst, p, sealed[..|sealed| - 8], sealed[|sealed| - 8..], nonce, rs, FrameOf(a, k, p, nonce, rs));
  }

  /** The appends of the general branch, once ciphertext and tag are known. */
  method AppendParts(dst: Slice, p: seq<byte>, ciphertext: seq<byte>, tag: seq<byte>, nonce: uint32, rs: seq<Range>,
                     ghost f: ParsedFrame) returns (ok: bool)
    requires dst.Valid() && dst.base == dst.home
    requires ValidRanges(rs, |p|) && |ciphertext| == Rank(rs, |p|) && |tag| == TAG_LEN
    requires f.interleaved == Weave(p, rs, ciphertext) && f.tag == tag && f.nonce == nonce && f.ranges == rs
    requires f.supplementalSize == |Footer(f)| + SUPPL_SIZE_LEN + MAGIC_LEN
    modifies dst`base, dst`len, dst`reached, dst.base
    ensures dst.Valid() && (dst.base == old(dst.base) || fresh(dst.base))
    ensures ok == (f.supplementalSize <= MAX_SUPPL_SIZE) && dst.Contents() == old(dst.Contents()) + Appended(f)
    ensures dst.base == dst.home <==> dst.len <= dst.home.Length
    ensures dst.reached == old(dst.len) + Reach(f, dst.home.Length - old(dst.len))
  {
    assert dst.len <= dst.home.Length;
    ghost var front := dst.Contents();
    hide Encode, EncodeRanges, Weave, Rank, ValidRanges, BodyReach, Print, Body, Footer, Slice.Valid, Slice.Contents;
    var supplemental := AppendBody(dst, p, ciphertext, tag, nonce, rs, f);
    var supplSize := supplemental + 1 + 2;
    BodyLength(f);
    if supplSize > MAX_SUPPL_SIZE {
      return false;
    }
    AppendEnd(dst, [], supplSize);
    JoinBody(f, front, dst.Contents());
    return true;
  }

  lemma BodyLength(f: ParsedFrame)
    ensures |Body(f)| == |f.interleaved| + |Footer(f)|
    ensures f.supplementalSize <= MAX_SUPPL_SIZE ==> |Print(f)| == |Body(f)| + 3
  {
    hide Encode, EncodeRanges;
  }

  lemma JoinBody(f: ParsedFrame, front: seq<byte>, out: seq<byte>)
    requires f.supplementalSize <= MAX_SUPPL_SIZE
    requires out == front + Body(f) + [] + [f.supplementalSize] + [MAGIC, MAGIC]
    ensures out == front + Print(f)
  {
    hide Encode, EncodeRanges;
  }

  /** Interleaved frame, tag, nonce and ranges. */
  method AppendBody(dst: Slice, p: seq<byte>, ciphertext: seq<byte>, tag: seq<byte>, nonce: uint32, rs: seq<Range>,
                    ghost f: ParsedFrame) returns (supplemental: nat)
    requires dst.Valid() && dst.base == dst.home
    requires ValidRanges(rs, |p|) && |ciphertext| == Rank(rs, |p|) && |tag| == TAG_LEN
    requires f.interleaved == Weave(p, rs, ciphertext) && f.tag == tag && f.nonce == nonce && f.ranges == rs
    modifies dst`base, dst`len, dst`reached, dst.base
    ensures dst.Valid() && (dst.base == old(dst.base) || fresh(dst.base))
    ensures dst.Contents() == old(dst.Contents()) + Body(f) && dst.len == old(dst.len) + |Body(f)|
    ensures supplemental == |Footer(f)| && old(dst.len) <= dst.home.Length
    ensures dst.base == dst.home <==> dst.len <= dst.home.Length
    ensures dst.reached == old(dst.len) + BodyReach(f, dst.home.Length - old(dst.len))
  {
    assert dst.len <= dst.home.Length;
    ghost var front := dst.Contents();
    hide Encode, EncodeRanges, Weave, Rank, ValidRanges, Slice.Valid, Slice.Contents;
    var nonceBytes := AppendUleb128([], nonce);
    AppendHead(dst, p, ciphertext, tag, rs);
    dst.Append(nonceBytes);
    var rangesStart := dst.len;
    AppendRanges(dst, rs);
    supplemental := 8 + |nonceBytes| + (dst.len - rangesStart);
    JoinParts(f, front, dst.Contents());
  }

  lemma JoinParts(f: ParsedFrame, front: seq<byte>, out: seq<byte>)
    requires out == front + f.interleaved + f.tag + Encode(f.nonce) + EncodeRanges(f.ranges)
    ensures out == front + Body(f)
  {
    hide Encode, EncodeRanges;
  }

  /** Interleaved frame and tag. */
  method AppendHead(dst: Slice, p: seq<byte>, ciphertext: seq<byte>, tag: seq<byte>, rs: seq<Range>)
    requires dst.Valid() && dst.base == dst.home
    requires ValidRanges(rs, |p|) && |ciphertext| == Rank(rs, |p|) && |tag| == TAG_LEN
    modifies dst`base, dst`len, dst`reached, dst.base
    ensures dst.Valid() && (dst.base == old(dst.base) || fresh(dst.base))
    ensures dst.Contents() == old(dst.Contents()) + Weave(p, rs, ciphertext) + tag
    ensures dst.len == old(dst.len) + |p| + TAG_LEN
    ensures dst.base == dst.home <==> dst.len <= dst.home.Length
    ensures dst.reached == if dst.home.Length < old(dst.len) + |p| then old(dst.len)
                           else if dst.home.Length < dst.len then old(dst.len) + |p| else dst.len
  {
    assert dst.reached == dst.len;
    hide Weave, Rank, ValidRanges, Slice.Valid, Slice.Contents;
    AppendInterleaved(dst, p, rs, ciphertext);
    dst.Append(tag);
  }

  /** What encryptCoreAppend leaves in the array it was given. With ranges every append
      that still fits is there, whether or not the call succeeds. Without, the inner
      cipher's whole tag lies behind the frame, or nothing was written at all. */
  ghost function Trace<K>(before: seq<byte>, a: Aead<K>, k: K, p: seq<byte>, nonce: uint32, rs: seq<Range>)
    : (r: seq<byte>)
    ensures |r| == |before|
  {
    var f := FrameOf(a, k, p, nonce, rs);
    if rs != [] then Overlay(before, Appended(f)[..Reach(f, |before|)])
    else
      var inner := InnerSeal(a, k, FullNonce(nonce), p, []);
      if |inner| > |before| then before
      else
        NoRangesLength(a, k, p, nonce);
        Overlay(Overlay(before, inner), Appended(f))
  }

  lemma NoRangesLength<K>(a: Aead<K>, k: K, p: seq<byte>, nonce: uint32)
    ensures |Appended(FrameOf(a, k, p, nonce, []))| <= |p| + 16
  {
    hide FrameOf, Encode;
    EncodeLength(nonce);
    NoRangesFrame(a, k, p, nonce);
  }

  /** Overlaying behind what is there already. */
  lemma OverlayBehind(before: seq<byte>, front: seq<byte>, data: seq<byte>)
    requires |front| + |data| <= |before|
    ensures Overlay(before, front)[..|front|] == front
    ensures Overlay(before, front + data) == front + Overlay(Overlay(before, front)[|front|..], data)
  {
    var rest := Overlay(before, front)[|front|..];
    assert rest == before[|front|..];
    assert rest[|data|..] == before[|front| + |data|..];
  }

  /** What is behind the front after a seal in place, with the rest of the inner tag still
      behind the frame. */
  lemma TraceSealed<K>(before: seq<byte>, front: seq<byte>, a: Aead<K>, k: K, p: seq<byte>, nonce: uint32)
    requires |front| <= |before|
    ensures var inner, f := InnerSeal(a, k, FullNonce(nonce), p, []), FrameOf(a, k, p, nonce, []);
            front + Trace(Overlay(before, front)[|front|..], a, k, p, nonce, [])
            == if |front| + |inner| > |before| then Overlay(before, front)
               else (NoRangesLength(a, k, p, nonce); Overlay(Overlay(before, front + inner), front + Appended(f)))
  {
    NoRangesLength(a, k, p, nonce);
    hide FrameOf, Appended, InnerSeal;
    var inner := InnerSeal(a, k, FullNonce(nonce), p, []);
    OverlayBehind(before, front, []);
    if |front| + |inner| <= |before| {
      OverlayBehind(before, front, inner);
      var data := Appended(FrameOf(a, k, p, nonce, []));
      var rest := Overlay(Overlay(before, front)[|front|..], inner);
      assert (front + rest)[|front| + |data|..] == rest[|data|..];
    }
  }

  lemma TraceWoven<K>(before: seq<byte>, front: seq<byte>, a: Aead<K>, k: K, p: seq<byte>, nonce: uint32,
                      rs: seq<Range>)
    requires |front| <= |before| && rs != []
    ensures var f := FrameOf(a, k, p, nonce, rs);
            front + Trace(Overlay(before, front)[|front|..], a, k, p, nonce, rs)
            == Overlay(before, front + Appended(f)[..Reach(f, |before| - |front|)])
  {
    hide FrameOf, Appended, Reach;
    var f := FrameOf(a, k, p, nonce, rs);
    OverlayBehind(before, front, Appended(f)[..Reach(f, |before| - |front|)]);
  }

  /** encryptCoreAppend: the frame goes behind what dst holds, which stays as it is. */
  method EncryptCoreAppend<K>(dst: Slice, a: Aead<K>, k: K, p: seq<byte>, nonce: uint32, rs: seq<Range>)
    returns (ok: bool)
    requires dst.Valid() && dst.base == dst.home && ValidRanges(rs, |p|)
    modifies dst, dst.base
    ensures dst.Valid() && (dst.base == old(dst.base) || fresh(dst.base))
    ensures var f := FrameOf(a, k, p, nonce, rs);
            ok == (f.supplementalSize <= MAX_SUPPL_SIZE) && dst.Contents() == old(dst.Contents()) + Appended(f)
    ensures dst.base == dst.home <==> (if rs == [] then old(dst.len) + |p| + 16 else dst.len) <= dst.home.Length
    ensures dst.home[..] == old(dst.Contents()) + Trace(old(dst.home[..])[old(dst.len)..], a, k, p, nonce, rs)
  {
    hide FrameOf, Print, Body, InnerSeal, ValidRanges, Reach, Trace, Overlay;
    ghost var was, front := dst.before, dst.Contents();
    assert dst.home[..] == Overlay(was, front);
    if |rs| == 0 {
      AppendSealed(dst, a, k, p, nonce);
      TraceSealed(was, front, a, k, p, nonce);
      if dst.base == dst.home {
        assert dst.base[..dst.reached] == dst.Contents();
      } else {
        assert dst.base[..dst.reached] == dst.Contents()[..dst.reached] == front;
      }
      return true;
    }
    ok := AppendWoven(dst, a, k, p, nonce, rs);
    TraceWoven(was, front, a, k, p, nonce, rs);
    ghost var f := FrameOf(a, k, p, nonce, rs);
    assert dst.base[..dst.reached] == dst.Contents()[..dst.reached]
           == front + Appended(f)[..Reach(f, |was| - |front|)];
  }

  /** Behind nothing there is the whole. */
  lemma NothingBefore(s: seq<byte>)
    ensures [] + s == s && s[0..] == s
  {
  }

  /** frame.Encrypt. */
  method Encrypt<K>(a: Aead<K>, k: K, p: seq<byte>, nonce: uint32, rs: seq<Range>)
    returns (r: Result<seq<byte>, FrameError>)
    ensures r == EncryptFrame(a, k, p, nonce, rs)
  {
    hide FrameOf, Print, Body, Trace;
    if !a.validKey(k) {
      return Err(InvalidKeyLength);
    }
    var valid := ValidateRanges(rs, |p|);
    if valid.Err? {
      return Err(BadRanges);
    }
    var none := new byte[0];
    var out := new Slice(none, 0);
    var ok := EncryptCoreAppend(out, a, k, p, nonce, rs);
    if !ok {
      return Err(InvalidSupplementalSize);
    }
    NothingBefore(Print(FrameOf(a, k, p, nonce, rs)));
    assert out.Contents() == out.base[..out.len];
    return Ok(out.base[..out.len]);
  }

  /** What EncryptInto leaves in the caller's buffer: refused arguments leave it alone, and
      a frame that outgrew the array but fits after all is copied back. */
  ghost function Left<K>(before: seq<byte>, a: Aead<K>, k: K, p: seq<byte>, nonce: uint32, rs: seq<Range>): seq<byte> {
    var e := EncryptFrame(a, k, p, nonce, rs);
    var left := Trace(before, a, k, p, nonce, rs);
    if !a.validKey(k) || !ValidRanges(rs, |p|) then before
    else if e.Ok? && |e.value| <= |before| then Overlay(left, e.value)
    else left
  }

  /** copy(dst[:len(out)], out). */
  method CopyBack(dst: array<byte>, packet: seq<byte>)
    requires |packet| <= dst.Length
    modifies dst
    ensures dst[..] == Overlay(old(dst[..]), packet) && packet <= dst[..]
  {
    CopyInto(dst, 0, packet);
  }

  /** frame.EncryptInto: on success the first n bytes of dst are Encrypt's output. */
  method EncryptInto<K>(dst: array<byte>, a: Aead<K>, k: K, p: seq<byte>, nonce: uint32, rs: seq<Range>)
    returns (r: Result<nat, FrameError>)
    modifies dst
    ensures var e := EncryptFrame(a, k, p, nonce, rs);
            && (e.Err? ==> r == Err(e.error))
            && (e.Ok? && |e.value| > dst.Length ==> r == Err(BufferTooSmall))
            && (e.Ok? && |e.value| <= dst.Length ==> r == Ok(|e.value|) && e.value <= dst[..])
    ensures dst[..] == Left(old(dst[..]), a, k, p, nonce, rs)
  {
    hide FrameOf, Print, Body, Trace, ValidRanges;
    if !a.validKey(k) {
      return Err(InvalidKeyLength);
    }
    var valid := ValidateRanges(rs, |p|);
    if valid.Err? {
      return Err(BadRanges);
    }
    var out := new Slice(dst, 0);
    NothingBefore(dst[..]);
    ghost var left := Trace(dst[..], a, k, p, nonce, rs);
    var ok := EncryptCoreAppend(out, a, k, p, nonce, rs);
    NothingBefore(left);
    assert dst[..] == left;
    if !ok {
      return Err(InvalidSupplementalSize);
    }
    var packet := out.base[..out.len];
    NothingBefore(Print(FrameOf(a, k, p, nonce, rs)));
    assert out.Contents() == packet == EncryptFrame(a, k, p, nonce, rs).value;
    if out.len > dst.Length {
      return Err(BufferTooSmall);
    }
    CopyBack(dst, packet);
    return Ok(|packet|);
  }

  /** Where a caller's buffer can differ after the call: nowhere past the longest append
      that fits, and on success past the frame only by the cut-off half of the inner tag. */
  lemma LeftUntouched<K>(before: seq<byte>, a: Aead<K>, k: K, p: seq<byte>, nonce: uint32, rs: seq<Range>, i: nat)
    requires i < |before|
    ensures var e := EncryptFrame(a, k, p, nonce, rs);
            var f := FrameOf(a, k, p, nonce, rs);
            |Left(before, a, k, p, nonce, rs)| == |before|
            && (|| (e.Ok? && |e.value| <= |before| && i >= (if rs == [] then |p| + 16 else |e.value|))
                || (rs != [] && i >= Reach(f, |before|))
                || (rs == [] && e.Ok? && |e.value| > |before|)
                || !a.validKey(k) || !ValidRanges(rs, |p|)
                ==> Left(before, a, k, p, nonce, rs)[i] == before[i])
  {
    hide FrameOf, Print, Body, InnerSeal, ValidRanges, Reach;
    if rs == [] { NoRangesLength(a, k, p, nonce); }
  }

  // ---- Decryption ----

  /** Encrypting p with this nonce and some ranges a footer can carry gives the packet. */
  ghost predicate EncryptsTo<K>(a: Aead<K>, k: K, p: seq<byte>, nonce: uint32, rs: seq<Range>, packet: seq<byte>) {
    Fits(rs) && EncryptFrame(a, k, p, nonce, rs) == Ok(packet)
  }

  /** The ciphertext, tag and additional data of an encrypted frame, read back from it. */
  lemma ReadBack<K>(a: Aead<K>, k: K, p: seq<byte>, nonce: uint32, rs: seq<Range>, packet: seq<byte>)
    requires EncryptsTo(a, k, p, nonce, rs, packet)
    ensures var f := FrameOf(a, k, p, nonce, rs);
            && Prints(f, packet)
            && Ciphertext(f.interleaved, rs) + f.tag == SealedParts(a, k, p, nonce, rs)
            && AdditionalData(f.interleaved, rs) == AdditionalData(p, rs)
            && |Ciphertext(p, rs)| == Rank(rs, |p|)
            && Weave(f.interleaved, rs, Ciphertext(p, rs)) == p
  {
    PickLength(p, rs, |p|);
    var sealed := SealedParts(a, k, p, nonce, rs);
    var c := sealed[..|sealed| - 8];
    CiphertextOfWeave(p, rs, c);
    WeaveBack(p, rs, c);
    assert sealed == c + sealed[|sealed| - 8..];
  }

  /** A packet decrypts under one key in at most one way. */
  lemma DecryptionUnique<K>(a: Aead<K>, k: K, packet: seq<byte>,
                            p: seq<byte>, n: uint32, rs: seq<Range>,
                            q: seq<byte>, m: uint32, ss: seq<Range>)
    requires EncryptsTo(a, k, p, n, rs, packet) && EncryptsTo(a, k, q, m, ss, packet)
    ensures p == q && n == m && rs == ss
  {
    ReadBack(a, k, p, n, rs, packet);
    ReadBack(a, k, q, m, ss, packet);
    PrintInjective(FrameOf(a, k, p, n, rs), FrameOf(a, k, q, m, ss), packet);
    SealedInjective(a, k, FullNonce(n), Ciphertext(p, rs), Ciphertext(q, rs), AdditionalData(p, rs));
  }

  /** Re-encrypting what a parsed frame opens to gives the frame back. */
  lemma ReEncrypt<K>(a: Aead<K>, k: K, f: ParsedFrame, packet: seq<byte>, d: seq<byte>)
    requires a.validKey(k) && Prints(f, packet)
    requires Ciphertext(f.interleaved, f.ranges) + f.tag
             == Sealed(a, k, FullNonce(f.nonce), d, AdditionalData(f.interleaved, f.ranges))
    ensures |d| == Rank(f.ranges, |f.interleaved|)
    ensures EncryptsTo(a, k, Weave(f.interleaved, f.ranges, d), f.nonce, f.ranges, packet)
  {
    var rs := f.ranges;
    PickLength(f.interleaved, rs, |f.interleaved|);
    var c := Ciphertext(f.interleaved, rs);
    assert |d| == |c|;
    var p := Weave(f.interleaved, rs, d);
    CiphertextOfWeave(f.interleaved, rs, d);
    WeaveBack(f.interleaved, rs, d);
    var sealed := SealedParts(a, k, p, f.nonce, rs);
    assert sealed == c + f.tag;
    assert sealed[..|sealed| - 8] == c && sealed[|sealed| - 8..] == f.tag;
    var g := FrameOf(a, k, p, f.nonce, rs);
    assert g.interleaved == f.interleaved && g.tag == f.tag;
    assert Footer(g) == Footer(f);
    assert g == f;
  }

  /** frame.Decrypt is the two-sided inverse of frame.Encrypt: it accepts a packet
      exactly when encrypting something under this key gives that packet, and then
      returns that plaintext and nonce. */
  method Decrypt<K>(a: Aead<K>, k: K, packet: seq<byte>) returns (r: Result<(seq<byte>, uint32), FrameError>)
    ensures r.Ok? ==> exists rs :: EncryptsTo(a, k, r.value.0, r.value.1, rs, packet)
    ensures r.Err? ==> forall p, nonce: uint32, rs :: !EncryptsTo(a, k, p, nonce, rs, packet)
  {
    if !a.validKey(k) {
      return Err(InvalidKeyLength);
    }
    var parsed;
    if !LooksLikeDaveFrame(packet) {
      parsed := Err(FrameTooShort);
      forall f | Prints(f, packet) ensures false { Layout(f, packet); }
    } else {
      parsed := Parse(packet);
    }
    if parsed.Err? {
      forall p, nonce: uint32, rs | EncryptsTo(a, k, p, nonce, rs, packet) ensures false {
        ReadBack(a, k, p, nonce, rs, packet);
      }
      return Err(parsed.error);
    }
    var f := parsed.value;
    PickLength(f.interleaved, f.ranges, |f.interleaved|);
    var ciphertext := ExtractCiphertext(f.interleaved, f.ranges);
    var aad := BuildAad(f.interleaved, f.ranges);
    var sealed := ciphertext + f.tag;
    var recovered := Open(a, k, FullNonce(f.nonce), sealed, aad);
    if recovered.Err? {
      forall p, nonce: uint32, rs | EncryptsTo(a, k, p, nonce, rs, packet) ensures false {
        ReadBack(a, k, p, nonce, rs, packet);
        PrintInjective(f, FrameOf(a, k, p, nonce, rs), packet);
      }
      return Err(BadTag);
    }
    ReEncrypt(a, k, f, packet, recovered.value);
    var result := ReconstructPlaintext(f.interleaved, recovered.value, f.ranges);
    return Ok((result, f.nonce));
  }

  /** The plaintext and nonce a packet opens to under a key, if any. */
  ghost function OpensTo<K(!new)>(a: Aead<K>, k: K, packet: seq<byte>): Option<(seq<byte>, uint32)> {
    if exists p, n: uint32, rs :: EncryptsTo(a, k, p, n, rs, packet) then
      var p, n: uint32, rs :| EncryptsTo(a, k, p, n, rs, packet);
      Some((p, n))
    else None
  }

  /** Round trip: for every plaintext shorter than 2^32 and every list of ranges that
      encrypts, the packet opens to that plaintext and nonce. */
  lemma RoundTrip<K(!new)>(a: Aead<K>, k: K, p: seq<byte>, nonce: uint32, rs: seq<Range>, packet: seq<byte>)
    requires |p| < TWO32 && EncryptFrame(a, k, p, nonce, rs) == Ok(packet)
    ensures OpensTo(a, k, packet) == Some((p, nonce))
    ensures LooksLikeDaveFrame(packet)
  {
    ValidRangesFit(rs, |p|);
    assert EncryptsTo(a, k, p, nonce, rs, packet);
    var q, m: uint32, ss :| EncryptsTo(a, k, q, m, ss, packet) && OpensTo(a, k, packet) == Some((q, m));
    DecryptionUnique(a, k, packet, p, nonce, rs, q, m, ss);
    ReadBack(a, k, p, nonce, rs, packet);
    Layout(FrameOf(a, k, p, nonce, rs), packet);
  }

  // ---- The wire ----

  /** What is on the wire, byte for byte: the frame with the bytes outside the ranges XORed
      with the keystream and the others as they were; the first 8 bytes of the cipher's tag
      over both; nonce and ranges, offsets before lengths; the number of bytes from the tag
      on; and 0xFA twice. Keystream and tag are those of the 96-bit nonce that has the
      truncated one in its last four bytes. */
  lemma OnTheWire<K>(a: Aead<K>, k: K, p: seq<byte>, nonce: uint32, rs: seq<Range>, packet: seq<byte>)
    requires EncryptFrame(a, k, p, nonce, rs) == Ok(packet)
    ensures var n, size, plain := FullNonce(nonce), |p|, Ciphertext(p, rs);
            var c := seq<byte>(|plain|, i requires 0 <= i < |plain| => Xor(plain[i], a.stream(k, n, i)));
            && |c| == Rank(rs, size) && size + 11 <= |packet| <= size + 255
            && packet[..size] == Weave(p, rs, c)
            && packet[size..size + 8] == a.tag(k, n, c, AdditionalData(p, rs))[..8]
            && packet[size + 8..|packet| - 3] == Encode(nonce) + EncodeRanges(rs)
            && packet[|packet| - 3] == |packet| - size
            && packet[|packet| - 2] == packet[|packet| - 1] == 0xFA
  {
    hide Encode, EncodeRanges, Weave, Pick, Rank, FullNonce;
    PickLength(p, rs, |p|);
    var n, plain, f := FullNonce(nonce), Ciphertext(p, rs), FrameOf(a, k, p, nonce, rs);
    var c := seq<byte>(|plain|, i requires 0 <= i < |plain| => Xor(plain[i], a.stream(k, n, i)));
    assert c == CipherBytes(a, k, n, plain);
    var sealed := SealedParts(a, k, p, nonce, rs);
    assert sealed[..|sealed| - 8] == c && sealed[|sealed| - 8..] == a.tag(k, n, c, AdditionalData(p, rs))[..8];
    assert packet == f.interleaved + f.tag + (Encode(nonce) + EncodeRanges(rs)) + [f.supplementalSize, MAGIC, MAGIC];
  }

  /** Range k is on the wire as its offset and then its length. */
  lemma {:induction false} RangeOnTheWire(rs: seq<Range>, k: nat)
    requires k < |rs| && Fits(rs)
    ensures EncodeRanges(rs)
            == EncodeRanges(rs[..k]) + Encode(rs[k].offset) + Encode(rs[k].length) + EncodeRanges(rs[k + 1..])
  {
    hide Encode;
    if k == 0 {
      assert rs[..0] == [];
    } else {
      RangeOnTheWire(rs[1..], k - 1);
      assert rs[1..][..k - 1] == rs[..k][1..] && rs[1..][k..] == rs[k + 1..];
    }
  }

  /** Encryption fails only for a bad key, invalid ranges or a footer above 255 bytes. */
  lemma EncryptSucceeds<K>(a: Aead<K>, k: K, p: seq<byte>, nonce: uint32, rs: seq<Range>)
    ensures EncryptFrame(a, k, p, nonce, rs).Ok?
            <==> a.validKey(k) && ValidRanges(rs, |p|) && 11 + |Encode(nonce)| + |EncodeRanges(rs)| <= 255
  {
  }
}
