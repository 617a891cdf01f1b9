/** Unencrypted ranges (frame/ranges.go) and the two frame operations of
    frame/encrypt.go that walk them: buildAAD and appendInterleaved.

    The reference point is positional: a byte is clear when some range covers its
    position, and the ciphertext and the additional data of a frame are its
    unclear and clear bytes in order. */
module Ranges {
  import opened Bytes
  import opened Slices

  datatype Range = Range(offset: int, length: int)

  datatype RangeError = InvalidRanges

  function End(r: Range): int { r.offset + r.length }

  /** The ranges protocol.md admits: inside the frame, ascending, not overlapping. */
  ghost predicate ValidRanges(rs: seq<Range>, size: nat) {
    && (forall i :: 0 <= i < |rs| ==> 0 <= rs[i].offset && 0 <= rs[i].length && End(rs[i]) <= size)
    && (forall i, j :: 0 <= i < j < |rs| ==> End(rs[i]) <= rs[j].offset)
  }

  ghost predicate Clear(rs: seq<Range>, p: int) {
    exists i :: 0 <= i < |rs| && rs[i].offset <= p < End(rs[i])
  }

  /** The bytes of f[..n] whose position is clear (or not clear), in order. */
  ghost function Pick(f: seq<byte>, rs: seq<Range>, clear: bool, n: nat): (r: seq<byte>)
    requires n <= |f|
  {
    if n == 0 then []
    else Pick(f, rs, clear, n - 1) + (if Clear(rs, n - 1) == clear then [f[n - 1]] else [])
  }

  ghost function Ciphertext(f: seq<byte>, rs: seq<Range>): seq<byte> {
    Pick(f, rs, false, |f|)
  }

  ghost function AdditionalData(f: seq<byte>, rs: seq<Range>): seq<byte> {
    Pick(f, rs, true, |f|)
  }

  /** How many positions below n are not clear. */
  ghost function Rank(rs: seq<Range>, n: nat): (r: nat)
    ensures r <= n
  {
    if n == 0 then 0 else Rank(rs, n - 1) + (if Clear(rs, n - 1) then 0 else 1)
  }

  /** f with its unclear positions filled from c, in order. */
  ghost function Weave(f: seq<byte>, rs: seq<Range>, c: seq<byte>): (r: seq<byte>)
    requires |c| == Rank(rs, |f|)
    ensures |r| == |f|
  {
    seq(|f|, p requires 0 <= p < |f| => WeaveAt(f, rs, c, p))
  }

  ghost function WeaveAt(f: seq<byte>, rs: seq<Range>, c: seq<byte>, p: nat): byte
    requires |c| == Rank(rs, |f|) && p < |f|
  {
    RankMonotone(rs, p + 1, |f|);
    if Clear(rs, p) then f[p] else c[Rank(rs, p)]
  }

  lemma {:induction false} RankMonotone(rs: seq<Range>, m: nat, n: nat)
    requires m <= n
    ensures Rank(rs, m) <= Rank(rs, n)
    decreases n
  {
    if m < n { RankMonotone(rs, m, n - 1); }
  }

  lemma {:induction false} PickLength(f: seq<byte>, rs: seq<Range>, n: nat)
    requires n <= |f|
    ensures |Pick(f, rs, false, n)| == Rank(rs, n)
  {
    if n > 0 { PickLength(f, rs, n - 1); }
  }

  /** Weaving in a ciphertext makes it the frame's ciphertext and keeps the clear bytes. */
  lemma {:induction false} PickWeave(f: seq<byte>, rs: seq<Range>, c: seq<byte>, n: nat)
    requires |c| == Rank(rs, |f|) && n <= |f|
    ensures Rank(rs, n) <= |c|
    ensures Pick(Weave(f, rs, c), rs, false, n) == c[..Rank(rs, n)]
    ensures Pick(Weave(f, rs, c), rs, true, n) == Pick(f, rs, true, n)
  {
    RankMonotone(rs, n, |f|);
    if n > 0 {
      PickWeave(f, rs, c, n - 1);
    }
  }

  lemma CiphertextOfWeave(f: seq<byte>, rs: seq<Range>, c: seq<byte>)
    requires |c| == Rank(rs, |f|)
    ensures Ciphertext(Weave(f, rs, c), rs) == c
    ensures AdditionalData(Weave(f, rs, c), rs) == AdditionalData(f, rs)
  {
    PickWeave(f, rs, c, |f|);
    assert c[..|c|] == c;
  }

  /** A frame is its clear bytes woven with its own ciphertext, whatever was woven in before. */
  lemma WeaveBack(f: seq<byte>, rs: seq<Range>, c: seq<byte>)
    requires |c| == Rank(rs, |f|)
    ensures |Ciphertext(f, rs)| == Rank(rs, |f|)
    ensures Weave(Weave(f, rs, c), rs, Ciphertext(f, rs)) == f
  {
    PickLength(f, rs, |f|);
    forall p | 0 <= p < |f| ensures Weave(Weave(f, rs, c), rs, Ciphertext(f, rs))[p] == f[p] {
      if !Clear(rs, p) { PickAt(f, rs, p, |f|); }
    }
  }

  lemma {:induction false} PickAt(f: seq<byte>, rs: seq<Range>, p: nat, n: nat)
    requires p < n <= |f| && !Clear(rs, p)
    ensures Rank(rs, p) < |Pick(f, rs, false, n)|
    ensures Pick(f, rs, false, n)[Rank(rs, p)] == f[p]
    decreases n
  {
    PickLength(f, rs, n - 1);
    if p < n - 1 { PickAt(f, rs, p, n - 1); }
  }

  // ---- Segments: how the loops of the source see the same thing ----

  /** Where the k-th range starts looking for ciphertext: the end of the previous range. */
  function Last(rs: seq<Range>, k: nat): int
    requires k <= |rs|
  {
    if k == 0 then 0 else End(rs[k - 1])
  }

  function Next(rs: seq<Range>, size: nat, k: nat): int
    requires k <= |rs|
  {
    if k == |rs| then size else rs[k].offset
  }

  lemma GapIsUnclear(rs: seq<Range>, size: nat, k: nat)
    requires ValidRanges(rs, size) && k <= |rs|
    ensures 0 <= Last(rs, k) <= Next(rs, size, k) <= size
    ensures forall p :: Last(rs, k) <= p < Next(rs, size, k) ==> !Clear(rs, p)
  {
  }

  lemma RangeIsClear(rs: seq<Range>, size: nat, k: nat)
    requires ValidRanges(rs, size) && k < |rs|
    ensures forall p :: rs[k].offset <= p < Last(rs, k + 1) ==> Clear(rs, p)
  {
  }

  lemma {:induction false} PickGap(f: seq<byte>, rs: seq<Range>, lo: nat, hi: nat)
    requires lo <= hi <= |f| && forall p :: lo <= p < hi ==> !Clear(rs, p)
    ensures Pick(f, rs, false, hi) == Pick(f, rs, false, lo) + f[lo..hi]
    ensures Pick(f, rs, true, hi) == Pick(f, rs, true, lo)
    ensures Rank(rs, hi) == Rank(rs, lo) + (hi - lo)
    decreases hi
  {
    if lo < hi {
      PickGap(f, rs, lo, hi - 1);
      assert f[lo..hi] == f[lo..hi - 1] + [f[hi - 1]];
    }
  }

  lemma {:induction false} PickRange(f: seq<byte>, rs: seq<Range>, lo: nat, hi: nat)
    requires lo <= hi <= |f| && forall p :: lo <= p < hi ==> Clear(rs, p)
    ensures Pick(f, rs, true, hi) == Pick(f, rs, true, lo) + f[lo..hi]
    ensures Pick(f, rs, false, hi) == Pick(f, rs, false, lo)
    ensures Rank(rs, hi) == Rank(rs, lo)
    decreases hi
  {
    if lo < hi {
      PickRange(f, rs, lo, hi - 1);
      assert f[lo..hi] == f[lo..hi - 1] + [f[hi - 1]];
    }
  }

  /** One turn of any of the walking loops: the gap before range k, then range k. */
  lemma Turn(f: seq<byte>, rs: seq<Range>, k: nat)
    requires ValidRanges(rs, |f|) && k < |rs|
    ensures 0 <= Last(rs, k) <= rs[k].offset <= Last(rs, k + 1) <= |f|
    ensures Pick(f, rs, false, Last(rs, k + 1)) == Pick(f, rs, false, Last(rs, k)) + f[Last(rs, k)..rs[k].offset]
    ensures Pick(f, rs, true, Last(rs, k + 1)) == Pick(f, rs, true, Last(rs, k)) + f[rs[k].offset..End(rs[k])]
    ensures Rank(rs, Last(rs, k + 1)) == Rank(rs, rs[k].offset) == Rank(rs, Last(rs, k)) + (rs[k].offset - Last(rs, k))
  {
    GapIsUnclear(rs, |f|, k);
    RangeIsClear(rs, |f|, k);
    PickGap(f, rs, Last(rs, k), rs[k].offset);
    PickRange(f, rs, rs[k].offset, End(rs[k]));
  }

  /** What is left after the last range. */
  lemma LastTurn(f: seq<byte>, rs: seq<Range>)
    requires ValidRanges(rs, |f|)
    ensures 0 <= Last(rs, |rs|) <= |f|
    ensures Ciphertext(f, rs) == Pick(f, rs, false, Last(rs, |rs|)) + f[Last(rs, |rs|)..]
    ensures AdditionalData(f, rs) == Pick(f, rs, true, Last(rs, |rs|))
    ensures Rank(rs, |f|) == Rank(rs, Last(rs, |rs|)) + (|f| - Last(rs, |rs|))
  {
    GapIsUnclear(rs, |f|, |rs|);
    PickGap(f, rs, Last(rs, |rs|), |f|);
  }

  /** Comparing a range with its predecessor is enough. */
  lemma ValidRangesNext(rs: seq<Range>, i: nat, size: nat)
    requires i < |rs| && ValidRanges(rs[..i], size)
    ensures var ok := 0 <= rs[i].offset && 0 <= rs[i].length && End(rs[i]) <= size && Last(rs, i) <= rs[i].offset;
            && (ok ==> ValidRanges(rs[..i + 1], size))
            && (ValidRanges(rs, size) ==> ok)
  {
    var some := rs[..i];
    if 0 <= rs[i].length && Last(rs, i) <= rs[i].offset {
      forall j | 0 <= j < i ensures End(rs[j]) <= rs[i].offset {
        assert some[j] == rs[j] && some[i - 1] == rs[i - 1];
        if j < i - 1 { assert End(some[j]) <= some[i - 1].offset; }
      }
      forall j | 0 <= j < i ensures 0 <= rs[j].offset && 0 <= rs[j].length && End(rs[j]) <= size {
        assert some[j] == rs[j];
      }
      forall j, k | 0 <= j < k < i ensures End(rs[j]) <= rs[k].offset {
        assert some[j] == rs[j] && some[k] == rs[k];
      }
    }
  }

  /** ValidateRanges compares neighbours only, and in a way that cannot overflow. */
  method ValidateRanges(rs: seq<Range>, size: nat) returns (r: Result<(), RangeError>)
    ensures r.Ok? <==> ValidRanges(rs, size)
  {
    var prevEnd := 0;
    assert ValidRanges(rs[..0], size);
    hide ValidRanges;
    for i := 0 to |rs|
      invariant ValidRanges(rs[..i], size)
      invariant prevEnd == Last(rs, i)
    {
      var x := rs[i];
      ValidRangesNext(rs, i, size);
      if x.offset < 0 || x.length < 0 {
        return Err(InvalidRanges);
      }
      if x.length > size - x.offset {
        return Err(InvalidRanges);
      }
      if i > 0 && x.offset < prevEnd {
        return Err(InvalidRanges);
      }
      prevEnd := x.offset + x.length;
    }
    assert rs[..|rs|] == rs;
    return Ok(());
  }

  /** ContiguousPlaintextSize: the number of bytes that are not clear. */
  method ContiguousPlaintextSize(frameSize: nat, rs: seq<Range>) returns (size: int)
    requires ValidRanges(rs, frameSize)
    ensures size == Rank(rs, frameSize)
  {
    size := frameSize;
    ghost var f: seq<byte> := seq(frameSize, _ => 0);
    for k := 0 to |rs|
      invariant 0 <= Last(rs, k) <= frameSize
      invariant size == Rank(rs, Last(rs, k)) + (frameSize - Last(rs, k))
    {
      Turn(f, rs, k);
      size := size - rs[k].length;
    }
    LastTurn(f, rs);
  }

  /** ExtractCiphertext. */
  method ExtractCiphertext(interleaved: seq<byte>, rs: seq<Range>) returns (out: seq<byte>)
    requires ValidRanges(rs, |interleaved|)
    ensures out == Ciphertext(interleaved, rs)
  {
    out := [];
    var last := 0;
    for k := 0 to |rs|
      invariant last == Last(rs, k) && 0 <= last <= |interleaved|
      invariant out == Pick(interleaved, rs, false, last)
    {
      Turn(interleaved, rs, k);
      var r := rs[k];
      if r.offset > last {
        out := out + interleaved[last..r.offset];
      }
      last := r.offset + r.length;
    }
    LastTurn(interleaved, rs);
    if last < |interleaved| {
      out := out + interleaved[last..];
    }
  }

  /** buildAAD. */
  method BuildAad(frame: seq<byte>, rs: seq<Range>) returns (aad: seq<byte>)
    requires ValidRanges(rs, |frame|)
    ensures aad == AdditionalData(frame, rs)
  {
    aad := [];
    for k := 0 to |rs|
      invariant 0 <= Last(rs, k) <= |frame|
      invariant aad == Pick(frame, rs, true, Last(rs, k))
    {
      Turn(frame, rs, k);
      aad := aad + frame[rs[k].offset..rs[k].offset + rs[k].length];
    }
    LastTurn(frame, rs);
  }

  /** What the weaving loops have established for positions below n. */
  ghost predicate WovenBelow(out: seq<byte>, f: seq<byte>, rs: seq<Range>, c: seq<byte>, n: int)
    requires |c| == Rank(rs, |f|)
  {
    && |out| == |f|
    && (forall p :: 0 <= p < n && p < |f| ==> out[p] == WeaveAt(f, rs, c, p))
    && (forall p :: 0 <= n <= p < |f| ==> out[p] == f[p])
  }

  /** After copy(buf[lo:hi], src): src from lo on, everything else as before. */
  ghost predicate Copied(before: seq<byte>, after: seq<byte>, lo: nat, src: seq<byte>) {
    && |after| == |before| && lo + |src| <= |before|
    && (forall i :: lo <= i < lo + |src| ==> after[i] == src[i - lo])
    && (forall i :: 0 <= i < lo ==> after[i] == before[i])
    && (forall i :: lo + |src| <= i < |before| ==> after[i] == before[i])
  }

  /** Filling the gap that starts at Last(rs, k) extends the woven part to the gap's end. */
  lemma WovenGap(before: seq<byte>, after: seq<byte>, f: seq<byte>, rs: seq<Range>, c: seq<byte>, k: nat)
    requires ValidRanges(rs, |f|) && |c| == Rank(rs, |f|) && k <= |rs|
    requires 0 <= Last(rs, k) <= Next(rs, |f|, k) <= |f|
    requires WovenBelow(before, f, rs, c, Last(rs, k))
    requires var lo, n := Last(rs, k), Next(rs, |f|, k) - Last(rs, k);
             Rank(rs, lo) + n <= |c| && Copied(before, after, lo, c[Rank(rs, lo)..Rank(rs, lo) + n])
    ensures WovenBelow(after, f, rs, c, Next(rs, |f|, k))
  {
    var lo, hi := Last(rs, k), Next(rs, |f|, k);
    GapIsUnclear(rs, |f|, k);
    forall p | 0 <= p < hi ensures after[p] == WeaveAt(f, rs, c, p) {
      if lo <= p {
        RankInGap(rs, lo, p);
        assert after[p] == c[Rank(rs, lo)..Rank(rs, lo) + (hi - lo)][p - lo] == c[Rank(rs, p)];
      }
    }
  }

  lemma {:induction false} RankInGap(rs: seq<Range>, lo: nat, p: nat)
    requires lo <= p && forall q :: lo <= q < p ==> !Clear(rs, q)
    ensures Rank(rs, p) == Rank(rs, lo) + (p - lo)
  {
    if lo < p { RankInGap(rs, lo, p - 1); }
  }

  /** Range k itself keeps the bytes it had. */
  lemma WovenRange(out: seq<byte>, f: seq<byte>, rs: seq<Range>, c: seq<byte>, k: nat)
    requires ValidRanges(rs, |f|) && |c| == Rank(rs, |f|) && k < |rs|
    requires WovenBelow(out, f, rs, c, rs[k].offset)
    ensures WovenBelow(out, f, rs, c, End(rs[k]))
  {
    RangeIsClear(rs, |f|, k);
    forall p | 0 <= p < End(rs[k]) && p < |f| ensures out[p] == WeaveAt(f, rs, c, p) {
    }
  }

  /** Copies src over buf[lo..lo + |src|], as copy(buf[lo:hi], src) does. */
  method CopyInto(buf: array<byte>, lo: nat, src: seq<byte>)
    requires lo + |src| <= buf.Length
    modifies buf
    ensures Copied(old(buf[..]), buf[..], lo, src)
  {
    for i := 0 to |src|
      invariant forall j :: lo <= j < lo + i ==> buf[j] == src[j - lo]
      invariant forall j :: 0 <= j < lo ==> buf[j] == old(buf[j])
      invariant forall j :: lo + i <= j < buf.Length ==> buf[j] == old(buf[j])
    {
      buf[lo + i] := src[i];
    }
  }

  /** The part of buf that starts at start and is as long as the frame. */
  function Window(buf: seq<byte>, start: nat, size: nat): (w: seq<byte>)
    requires start + size <= |buf|
    ensures |w| == size
  {
    buf[start..start + size]
  }

  /** A copy inside the window is a copy of the window, and nothing outside it changes. */
  lemma CopiedInWindow(before: seq<byte>, after: seq<byte>, start: nat, size: nat, lo: nat, src: seq<byte>)
    requires start + size <= |before| && lo + |src| <= size && Copied(before, after, start + lo, src)
    ensures Copied(Window(before, start, size), Window(after, start, size), lo, src)
    ensures after[..start] == before[..start] && after[start + size..] == before[start + size..]
  {
  }

  /** The loop shared, line by line, by ReconstructPlaintext and appendInterleaved: a copy
      of the frame has its unclear bytes replaced from c, where it lies in the buffer. */
  method ReplaceUnclear(buf: array<byte>, start: nat, ghost frame: seq<byte>, size: nat, c: seq<byte>, rs: seq<Range>)
    requires start + size <= buf.Length && Window(buf[..], start, size) == frame
    requires ValidRanges(rs, size) && |c| == Rank(rs, size)
    modifies buf
    ensures Window(buf[..], start, size) == Weave(frame, rs, c)
    ensures buf[..start] == old(buf[..start]) && buf[start + size..] == old(buf[start + size..])
  {
    hide Pick, WeaveAt, Clear, Rank, ValidRanges, Copied, Window;
    var cipherPos, last := 0, 0;
    RankOfNone(rs);
    WovenNone(frame, rs, c);
    for k := 0 to |rs|
      invariant last == Last(rs, k) && 0 <= last <= size
      invariant cipherPos == Rank(rs, last)
      invariant WovenBelow(Window(buf[..], start, size), frame, rs, c, last)
      invariant buf[..start] == old(buf[..start]) && buf[start + size..] == old(buf[start + size..])
    {
      var r := rs[k];
      Turn(frame, rs, k);
      RankMonotone(rs, r.offset, size);
      ghost var before := buf[..];
      var n := r.offset - last;
      NothingCopied(before, start + last);
      assert c[cipherPos..cipherPos] == [];
      if r.offset > last {
        CopyInto(buf, start + last, c[cipherPos..cipherPos + n]);
        cipherPos := cipherPos + n;
      }
      CopiedInWindow(before, buf[..], start, size, last, c[Rank(rs, last)..Rank(rs, last) + n]);
      WovenGap(Window(before, start, size), Window(buf[..], start, size), frame, rs, c, k);
      WovenRange(Window(buf[..], start, size), frame, rs, c, k);
      last := r.offset + r.length;
    }
    LastTurn(frame, rs);
    ghost var before := buf[..];
    NothingCopied(before, start + last);
    if last < size {
      CopyInto(buf, start + last, c[cipherPos..]);
    }
    assert c[cipherPos..] == c[cipherPos..cipherPos + (size - last)];
    CopiedInWindow(before, buf[..], start, size, last, c[cipherPos..]);
    WovenGap(Window(before, start, size), Window(buf[..], start, size), frame, rs, c, |rs|);
    WovenAll(Window(buf[..], start, size), frame, rs, c);
  }

  lemma NothingCopied(b: seq<byte>, lo: nat)
    requires lo <= |b|
    ensures Copied(b, b, lo, [])
  {
  }

  lemma WovenNone(f: seq<byte>, rs: seq<Range>, c: seq<byte>)
    requires |c| == Rank(rs, |f|)
    ensures WovenBelow(f, f, rs, c, 0)
  {
  }

  lemma WovenAll(out: seq<byte>, f: seq<byte>, rs: seq<Range>, c: seq<byte>)
    requires |c| == Rank(rs, |f|) && WovenBelow(out, f, rs, c, |f|)
    ensures out == Weave(f, rs, c)
  {
    hide WeaveAt;
  }

  lemma RankOfNone(rs: seq<Range>)
    ensures Rank(rs, 0) == 0
  {
  }

  /** ReconstructPlaintext puts decrypted bytes back where the ciphertext was. */
  method ReconstructPlaintext(interleaved: seq<byte>, decrypted: seq<byte>, rs: seq<Range>)
    returns (out: seq<byte>)
    requires ValidRanges(rs, |interleaved|) && |decrypted| == Rank(rs, |interleaved|)
    ensures out == Weave(interleaved, rs, decrypted)
  {
    var buf := new byte[|interleaved|](i requires 0 <= i < |interleaved| => interleaved[i]);
    assert Window(buf[..], 0, |interleaved|) == interleaved;
    ReplaceUnclear(buf, 0, interleaved, |interleaved|, decrypted, rs);
    out := buf[..];
    assert out == Window(buf[..], 0, |interleaved|);
  }

  /** appendInterleaved: the original is appended, and its unclear bytes are then
      replaced where they landed. */
  method AppendInterleaved(dst: Slice, original: seq<byte>, rs: seq<Range>, ciphertext: seq<byte>)
    requires dst.Valid() && ValidRanges(rs, |original|) && |ciphertext| == Rank(rs, |original|)
    modifies dst`base, dst`len, dst`reached, dst.base
    ensures dst.Valid() && (dst.base == old(dst.base) || fresh(dst.base))
    ensures dst.Contents() == old(dst.Contents()) + Weave(original, rs, ciphertext)
    ensures dst.len == old(dst.len) + |original|
    ensures dst.base == dst.home <==> old(dst.base) == dst.home && dst.len <= dst.home.Length
    ensures dst.reached == if dst.base == dst.home then dst.len else old(dst.reached)
  {
    hide Weave, Rank, ValidRanges;
    var start := dst.len;
    ghost var front := dst.Contents();
    dst.Append(original);
    ghost var appended, was := dst.base[..], dst.home[..];
    assert dst.Contents() == front + original && dst.Contents() == appended[..dst.len];
    assert Window(appended, start, |original|) == original && appended[..start] == front;
    ReplaceUnclear(dst.base, start, original, |original|, ciphertext, rs);
    ghost var woven := Weave(original, rs, ciphertext);
    assert dst.base[..dst.len] == front + woven;
    if dst.base == dst.home {
      assert was[dst.len..] == dst.before[dst.len..];
      assert dst.home[..] == dst.base[..dst.len] + dst.base[dst.len..];
    } else {
      assert dst.base[..dst.reached] == front[..dst.reached];
      assert appended[..dst.reached] == front[..dst.reached];
    }
  }
}
