/** The AV1 frame transform (codecs/av1.go): parse the OBUs, drop the ones the WebRTC
    packetizer drops, take the size field off the last one, and print the rest with the
    headers as clear ranges. */
module Av1 {
  import opened Bytes
  import opened Uleb128
  import opened Ranges

  /** A parsed OBU; ext and size are empty when absent. */
  datatype Obu = Obu(header: byte, ext: seq<byte>, size: seq<byte>, data: seq<byte>)

  datatype Av1Error = InvalidLeb128

  function ObuType(h: byte): nat { h / 8 % 16 }
  predicate HasExt(h: byte) { h / 4 % 2 == 1 }
  predicate HasSize(h: byte) { h / 2 % 2 == 1 }

  /** Temporal delimiter, tile list, padding. */
  predicate ShouldDrop(obuType: nat) { obuType == 2 || obuType == 8 || obuType == 15 }

  function ClearSizeBit(h: byte): byte { h - 2 * (h / 2 % 2) }

  lemma ClearSizeBitFacts(h: byte)
    ensures var c := ClearSizeBit(h);
            !HasSize(c) && HasExt(c) == HasExt(h) && ObuType(c) == ObuType(h) && (!HasSize(h) ==> c == h)
  {
  }

  // ---- LEB128 sizes: up to eight bytes, not necessarily canonical ----

  datatype Leb = Leb(value: nat, n: nat) | NoLeb

  /** What a digit adds at its place. */
  function Digit(b: byte, weight: nat): nat { b % 128 * weight }

  function DecodeLebFrom(data: seq<byte>, i: nat, weight: nat, value: nat): (r: Leb)
    ensures r.Leb? ==> i < r.n <= |data| && r.n <= 8
    decreases 8 - i
  {
    if i >= |data| || i >= 8 then NoLeb
    else
      var v := value + Digit(data[i], weight);
      if data[i] < 128 then Leb(v, i + 1) else DecodeLebFrom(data, i + 1, weight * 128, v)
  }

  function DecodeLeb(data: seq<byte>): (r: Leb)
    ensures r.Leb? ==> 0 < r.n <= |data| && r.n <= 8
  {
    DecodeLebFrom(data, 0, 1, 0)
  }

  /** The first n bytes are a digit string that ends at its first byte below 128. */
  predicate Terminated(data: seq<byte>, n: nat) {
    0 < n <= |data| && data[n - 1] < 128 && forall i :: 0 <= i < n - 1 ==> data[i] >= 128
  }

  /** r is what the data means: the number its first digit string denotes, if that ends
      within eight bytes. */
  predicate Means(data: seq<byte>, r: Leb) {
    match r
    case Leb(value, n) => n <= 8 && Terminated(data, n) && value == Val(data[..n])
    case NoLeb => forall n :: 0 < n <= 8 ==> !Terminated(data, n)
  }

  lemma {:induction false} LebMeaning(data: seq<byte>, i: nat, weight: nat, value: nat)
    requires i <= 8 && i <= |data| && (forall j :: 0 <= j < i ==> data[j] >= 128)
    requires weight == Pow128(i) && value == Val(data[..i])
    ensures Means(data, DecodeLebFrom(data, i, weight, value))
    decreases 8 - i
  {
    hide Val, Pow128, DecodeLebFrom, Digit;
    LebNext(data, i, weight, value);
    if i < |data| && i < 8 {
      ValNext(data, i);
      if data[i] >= 128 {
        PowNext(i);
        hide Means;
        LebMeaning(data, i + 1, weight * 128, value + Digit(data[i], weight));
      }
    }
  }

  lemma ValNext(data: seq<byte>, i: nat)
    requires i < |data|
    ensures Val(data[..i + 1]) == Val(data[..i]) + Digit(data[i], Pow128(i))
  {
    assert data[..i + 1] == data[..i] + [data[i]];
    ValAppend(data[..i], data[i]);
  }

  lemma PowNext(i: nat)
    ensures Pow128(i + 1) == Pow128(i) * 128
  {
  }

  lemma LebNext(data: seq<byte>, i: nat, weight: nat, value: nat)
    ensures var r := DecodeLebFrom(data, i, weight, value);
            if i >= |data| || i >= 8 then r == NoLeb
            else
              var v := value + Digit(data[i], weight);
              r == if data[i] < 128 then Leb(v, i + 1) else DecodeLebFrom(data, i + 1, weight * 128, v)
  {
  }

  /** decodeLEB128. */
  method DecodeLeb128(data: seq<byte>) returns (r: Leb)
    ensures Means(data, r) && r == DecodeLeb(data)
  {
    hide Means, DecodeLebFrom, Digit;
    LebMeaning(data, 0, 1, 0);
    var value: nat, weight: nat, i: nat := 0, 1, 0;
    while i < |data| && i < 8
      invariant 0 <= i <= 8
      invariant DecodeLeb(data) == DecodeLebFrom(data, i, weight, value)
    {
      LebNext(data, i, weight, value);
      value := value + Digit(data[i], weight);
      if data[i] < 128 {
        return Leb(value, i + 1);
      }
      weight := weight * 128;
      i := i + 1;
    }
    LebNext(data, i, weight, value);
    return NoLeb;
  }

  /** Decoding looks at the size field only. */
  lemma {:induction false} LebPrefix(size: seq<byte>, rest: seq<byte>, i: nat, weight: nat, value: nat)
    requires DecodeLebFrom(size + rest, i, weight, value).Leb?
    requires DecodeLebFrom(size + rest, i, weight, value).n == |size|
    ensures DecodeLebFrom(size, i, weight, value) == DecodeLebFrom(size + rest, i, weight, value)
    decreases 8 - i
  {
    hide DecodeLebFrom, Digit;
    LebNext(size, i, weight, value);
    LebNext(size + rest, i, weight, value);
    if i < |size| && i < 8 && size[i] >= 128 {
      LebPrefix(size, rest, i + 1, weight * 128, value + Digit(size[i], weight));
    }
  }

  lemma {:induction false} LebExtend(size: seq<byte>, rest: seq<byte>, i: nat, weight: nat, value: nat)
    requires DecodeLebFrom(size, i, weight, value).Leb?
    ensures DecodeLebFrom(size + rest, i, weight, value) == DecodeLebFrom(size, i, weight, value)
    decreases 8 - i
  {
    hide DecodeLebFrom, Digit;
    LebNext(size, i, weight, value);
    LebNext(size + rest, i, weight, value);
    if i < |size| && i < 8 && size[i] >= 128 {
      LebExtend(size, rest, i + 1, weight * 128, value + Digit(size[i], weight));
    }
  }

  // ---- Parsing ----

  datatype One = One(obu: Obu, rest: seq<byte>) | Stop | Fail

  /** The body of an OBU after its header and extension. */
  function ParseBody(h: byte, ext: seq<byte>, p: seq<byte>): (r: One)
    ensures r.One? ==> |r.rest| <= |p|
  {
    if HasSize(h) then
      var leb := DecodeLeb(p);
      if leb.NoLeb? then Fail
      else
        var body := p[leb.n..];
        var len := if leb.value > |body| then |body| else leb.value;
        One(Obu(h, ext, p[..leb.n], body[..len]), body[len..])
    else One(Obu(h, ext, [], p), [])
  }

  /** One OBU off the front; a header whose extension is missing ends the frame. */
  function ParseOne(p: seq<byte>): (r: One)
    requires p != []
    ensures r.One? ==> |r.rest| < |p|
  {
    if HasExt(p[0]) then
      if |p| < 2 then Stop else ParseBody(p[0], [p[1]], p[2..])
    else ParseBody(p[0], [], p[1..])
  }

  function ParseAll(p: seq<byte>): Result<seq<Obu>, Av1Error>
    decreases |p|
  {
    if p == [] then Ok([])
    else
      match ParseOne(p)
      case Stop => Ok([])
      case Fail => Err(InvalidLeb128)
      case One(obu, rest) =>
        var more := ParseAll(rest);
        if more.Err? then more else Ok([obu] + more.value)
  }

  function Keep(os: seq<Obu>): seq<Obu> {
    if os == [] then []
    else if ShouldDrop(ObuType(os[0].header)) then Keep(os[1..]) else [os[0]] + Keep(os[1..])
  }

  function Kept(p: seq<byte>): Result<seq<Obu>, Av1Error> {
    var os := ParseAll(p);
    if os.Err? then os else Ok(Keep(os.value))
  }

  // ---- Printing ----

  function Head(o: Obu): seq<byte> { [o.header] + o.ext + o.size }

  /** The last OBU has no size field. */
  function Strip(o: Obu): Obu { o.(header := ClearSizeBit(o.header), size := []) }

  function Print(os: seq<Obu>): seq<byte> {
    if os == [] then []
    else if |os| == 1 then Head(Strip(os[0])) + os[0].data
    else Head(os[0]) + os[0].data + Print(os[1..])
  }

  function HeadRanges(os: seq<Obu>, at: nat): seq<Range> {
    if os == [] then []
    else if |os| == 1 then [Range(at, |Head(Strip(os[0]))|)]
    else [Range(at, |Head(os[0])|)] + HeadRanges(os[1..], at + |Head(os[0])| + |os[0].data|)
  }

  function Payloads(os: seq<Obu>): seq<byte> {
    if os == [] then [] else os[0].data + Payloads(os[1..])
  }

  /** The kept OBUs as re-parsing the output sees them. */
  function Stripped(os: seq<Obu>): seq<Obu> {
    if os == [] then [] else os[..|os| - 1] + [Strip(os[|os| - 1])]
  }

  datatype Prepared = Prepared(frame: seq<byte>, ranges: seq<Range>)

  /** prepareAV1Frame as a whole. */
  function Prepare(p: seq<byte>): Result<Prepared, Av1Error> {
    var ks := Kept(p);
    if ks.Err? then Err(ks.error) else Ok(Prepared(Print(ks.value), HeadRanges(ks.value, 0)))
  }

  // ---- What parsing guarantees ----

  /** Header bits and fields agree. */
  predicate WellFormed(o: Obu) {
    && |o.ext| == (if HasExt(o.header) then 1 else 0)
    && (HasSize(o.header) ==> DecodeLeb(o.size).Leb? && DecodeLeb(o.size).n == |o.size|)
    && (!HasSize(o.header) ==> o.size == [])
  }

  /** The size field is there and says exactly how long the payload is. */
  predicate Exact(o: Obu) {
    WellFormed(o) && HasSize(o.header) && DecodeLeb(o.size).value == |o.data|
  }

  lemma SizeFieldAlone(q: seq<byte>)
    requires DecodeLeb(q).Leb?
    ensures DecodeLeb(q[..DecodeLeb(q).n]) == DecodeLeb(q)
  {
    var n := DecodeLeb(q).n;
    assert q == q[..n] + q[n..];
    LebPrefix(q[..n], q[n..], 0, 1, 0);
  }

  lemma ParseBodyFacts(h: byte, ext: seq<byte>, q: seq<byte>)
    requires |ext| == (if HasExt(h) then 1 else 0) && ParseBody(h, ext, q).One?
    ensures WellFormed(ParseBody(h, ext, q).obu)
    ensures ParseBody(h, ext, q).rest != [] ==> Exact(ParseBody(h, ext, q).obu)
  {
    hide HasExt, HasSize, DecodeLeb;
    if HasSize(h) { SizeFieldAlone(q); }
  }

  lemma ParseOneFacts(p: seq<byte>)
    requires p != [] && ParseOne(p).One?
    ensures WellFormed(ParseOne(p).obu) && (ParseOne(p).rest != [] ==> Exact(ParseOne(p).obu))
  {
    hide ParseBody, HasExt, WellFormed, Exact;
    if !HasExt(p[0]) {
      ParseBodyFacts(p[0], [], p[1..]);
    } else if |p| >= 2 {
      ParseBodyFacts(p[0], [p[1]], p[2..]);
    }
  }

  ghost predicate AllButLastExact(os: seq<Obu>) {
    && (forall i :: 0 <= i < |os| ==> WellFormed(os[i]))
    && (forall i :: 0 <= i < |os| - 1 ==> Exact(os[i]))
  }

  lemma {:induction false} ParseAllFacts(p: seq<byte>)
    requires ParseAll(p).Ok?
    ensures AllButLastExact(ParseAll(p).value)
    decreases |p|
  {
    if p != [] && ParseOne(p).One? {
      ParseOneFacts(p);
      ParseAllFacts(ParseOne(p).rest);
      hide ParseOne, Exact, WellFormed;
    }
  }

  lemma {:induction false} KeepFacts(os: seq<Obu>)
    requires AllButLastExact(os)
    ensures AllButLastExact(Keep(os))
    ensures forall i :: 0 <= i < |Keep(os)| ==> !ShouldDrop(ObuType(Keep(os)[i].header))
    ensures |Keep(os)| <= |os| && (|Keep(os)| == |os| ==> Keep(os) == os)
  {
    hide Exact, WellFormed, ShouldDrop, ObuType;
    if os != [] {
      assert forall i :: 0 <= i < |os[1..]| ==> os[1..][i] == os[i + 1];
      KeepFacts(os[1..]);
    }
  }

  lemma {:induction false} KeepAll(os: seq<Obu>)
    requires forall i :: 0 <= i < |os| ==> !ShouldDrop(ObuType(os[i].header))
    ensures Keep(os) == os
  {
    if os != [] { KeepAll(os[1..]); }
  }

  // ---- Parsing what was printed ----

  lemma ParseExact(o: Obu, rest: seq<byte>)
    requires Exact(o)
    ensures ParseOne(Head(o) + o.data + rest) == One(o, rest)
  {
    hide HasExt, HasSize, DecodeLeb, ParseOne, ParseBody;
    var p, body, n := Head(o) + o.data + rest, o.data + rest, 1 + |o.ext|;
    assert p[0] == o.header && p[1..n] == o.ext && p[n..] == o.size + body;
    SizeExtends(o.size, body);
    HeadIs(p, 0, o.ext);
    BodyIs(p, n, o.header, o.ext, |o.size|, |o.data|);
    assert p[0..] == p;
    assert p[n..n + |o.size|] == o.size && p[n + |o.size|..n + |o.size| + |o.data|] == o.data;
    assert p[n + |o.size| + |o.data|..] == rest;
  }

  lemma SizeExtends(size: seq<byte>, rest: seq<byte>)
    requires DecodeLeb(size).Leb?
    ensures DecodeLeb(size + rest) == DecodeLeb(size)
  {
    LebExtend(size, rest, 0, 1, 0);
  }

  lemma ParseStripped(o: Obu)
    requires WellFormed(o)
    ensures ParseOne(Head(Strip(o)) + o.data) == One(Strip(o), [])
  {
    ClearSizeBitFacts(o.header);
    hide ClearSizeBit, HasExt, HasSize;
    var s := Strip(o);
    var p := Head(s) + s.data;
    assert p[0] == s.header;
    var q := if HasExt(s.header) then p[2..] else p[1..];
    if HasExt(s.header) { assert p[1] == s.ext[0] && s.ext == [p[1]]; }
    assert q == s.data;
  }

  /** Re-parsing the output gives the kept OBUs, with only the last one's size removed. */
  lemma {:induction false} ParsePrinted(ks: seq<Obu>)
    requires AllButLastExact(ks)
    ensures ParseAll(Print(ks)) == Ok(Stripped(ks))
    decreases |ks|
  {
    hide ParseOne, Exact, WellFormed, Strip;
    if ks == [] {
      assert ParseAll(Print(ks)) == Ok([]);
    } else if |ks| == 1 {
      var f := Head(Strip(ks[0])) + ks[0].data;
      ParseStripped(ks[0]);
      assert ParseAll([]) == Ok([]);
      assert ParseAll(f) == Ok([Strip(ks[0])] + []);
      assert Print(ks) == f;
      assert [Strip(ks[0])] + [] == [Strip(ks[0])];
      assert Stripped(ks) == [Strip(ks[0])];
    } else if |ks| > 1 {
      assert forall i :: 0 <= i < |ks[1..]| ==> ks[1..][i] == ks[i + 1];
      ParsePrinted(ks[1..]);
      ParseExact(ks[0], Print(ks[1..]));
      assert Stripped(ks) == [ks[0]] + Stripped(ks[1..]);
    }
  }

  lemma KeepStripped(ks: seq<Obu>)
    requires forall i :: 0 <= i < |ks| ==> !ShouldDrop(ObuType(ks[i].header))
    ensures Keep(Stripped(ks)) == Stripped(ks)
  {
    if ks != [] {
      var last := ks[|ks| - 1];
      ClearSizeBitFacts(last.header);
      assert !ShouldDrop(ObuType(Strip(last).header));
      hide ShouldDrop, ObuType, Strip, Keep;
      KeepAll(Stripped(ks));
    }
  }

  lemma {:induction false} PrintStripped(ks: seq<Obu>, at: nat)
    requires AllButLastExact(ks)
    ensures Print(Stripped(ks)) == Print(ks) && HeadRanges(Stripped(ks), at) == HeadRanges(ks, at)
    decreases |ks|
  {
    hide Exact, WellFormed;
    if |ks| == 1 {
      ClearSizeBitFacts(ks[0].header);
      ClearSizeBitFacts(ClearSizeBit(ks[0].header));
      assert Stripped(ks) == [Strip(ks[0])];
    } else if |ks| > 1 {
      hide Strip, ClearSizeBit;
      assert forall i :: 0 <= i < |ks[1..]| ==> ks[1..][i] == ks[i + 1];
      PrintStripped(ks[1..], at + |Head(ks[0])| + |ks[0].data|);
      assert Stripped(ks)[1..] == Stripped(ks[1..]);
    }
  }

  /** Preparing is idempotent, on every frame it accepts. */
  lemma Idempotent(p: seq<byte>)
    requires Prepare(p).Ok?
    ensures Prepare(Prepare(p).value.frame) == Prepare(p)
    ensures ParseAll(Prepare(p).value.frame) == Ok(Stripped(Kept(p).value))
  {
    var ks := Kept(p).value;
    ParseAllFacts(p);
    KeepFacts(ParseAll(p).value);
    ParsePrinted(ks);
    KeepStripped(ks);
    PrintStripped(ks, 0);
  }

  // ---- Which OBUs come out ----

  /** The OBUs at the given, ascending positions. */
  predicate ChosenBy(os: seq<Obu>, ks: seq<Obu>, at: seq<nat>) {
    && |at| == |ks|
    && (forall i :: 0 <= i < |at| ==> at[i] < |os| && ks[i] == os[at[i]])
    && (forall i, j :: 0 <= i < j < |at| ==> at[i] < at[j])
  }

  /** Temporal delimiters (2), tile lists (8) and padding (15), by the four type bits. */
  predicate Discarded(header: byte) { header / 8 % 16 in {2, 8, 15} }

  /** Where the OBUs are that are kept. */
  function KeptAt(os: seq<Obu>): (at: seq<nat>)
    ensures forall i :: 0 <= i < |at| ==> at[i] < |os|
  {
    if os == [] then []
    else
      var n := |os| - 1;
      KeptAt(os[..n]) + if Discarded(os[n].header) then [] else [n]
  }

  lemma {:induction false} KeepLast(os: seq<Obu>, o: Obu)
    ensures Keep(os + [o]) == Keep(os) + if Discarded(o.header) then [] else [o]
  {
    if os == [] {
      assert os + [o] == [o];
      assert Keep([o]) == if ShouldDrop(ObuType(o.header)) then [] else [o] + Keep([o][1..]);
    } else {
      KeepLast(os[1..], o);
      assert (os + [o])[1..] == os[1..] + [o];
    }
  }

  lemma KeepNothing()
    ensures Keep([]) == [] && ChosenBy([], [], [])
  {
  }

  lemma ChosenOneMore(os: seq<Obu>, ks: seq<Obu>, at: seq<nat>, o: Obu)
    requires ChosenBy(os, ks, at)
    ensures ChosenBy(os + [o], ks, at) && ChosenBy(os + [o], ks + [o], at + [|os|])
  {
  }

  lemma {:induction false} KeepChooses(os: seq<Obu>)
    ensures ChosenBy(os, Keep(os), KeptAt(os))
  {
    hide Keep, Discarded, ChosenBy;
    if os == [] {
      KeepNothing();
    } else {
      var n := |os| - 1;
      KeepChooses(os[..n]);
      KeepLast(os[..n], os[n]);
      assert os == os[..n] + [os[n]];
      ChosenOneMore(os[..n], Keep(os[..n]), KeptAt(os[..n]), os[n]);
      assert Keep(os[..n]) + [] == Keep(os[..n]) && KeptAt(os[..n]) + [] == KeptAt(os[..n]);
    }
  }

  lemma {:induction false} KeptAtExactly(os: seq<Obu>, i: nat)
    requires i < |os|
    ensures i in KeptAt(os) <==> !Discarded(os[i].header)
    decreases |os|
  {
    hide Discarded;
    var n := |os| - 1;
    if i < n {
      KeptAtExactly(os[..n], i);
      assert os[..n][i] == os[i];
    }
  }

  /** out is, in order, what os has of types other than 2, 8 and 15, with every field as it
      was, except that the last one's size bit is cleared and its size field gone. */
  predicate KeptOf(os: seq<Obu>, out: seq<Obu>) {
    var at := KeptAt(os);
    && |out| == |at|
    && (forall i :: 0 <= i < |os| ==> (i in at <==> !Discarded(os[i].header)))
    && (forall i, j :: 0 <= i < j < |at| ==> at[i] < at[j])
    && (forall i :: 0 <= i < |out| - 1 ==> out[i] == os[at[i]])
    && (out != [] ==>
          var o := os[at[|at| - 1]];
          out[|out| - 1] == Obu(o.header - o.header / 2 % 2 * 2, o.ext, [], o.data))
  }

  /** Re-parsing a prepared frame gives, in order, exactly the OBUs of the input whose type
      is neither 2 nor 8 nor 15, with every field as it was, except that the last one's size
      bit is cleared and its size field gone. */
  lemma KeptExactly(p: seq<byte>)
    requires Prepare(p).Ok?
    ensures ParseAll(p).Ok? && ParseAll(Prepare(p).value.frame).Ok?
    ensures KeptOf(ParseAll(p).value, ParseAll(Prepare(p).value.frame).value)
  {
    hide Prepare, ParseAll, Keep, Stripped, KeptOf;
    Idempotent(p);
    assert ParseAll(p).Ok? && Kept(p) == Ok(Keep(ParseAll(p).value)) by { PreparedParses(p); }
    KeptStripped(ParseAll(p).value);
  }

  lemma KeptStripped(os: seq<Obu>)
    ensures KeptOf(os, Stripped(Keep(os)))
  {
    hide Keep, KeptAt, Strip, Stripped, Discarded;
    KeepChooses(os);
    forall i | 0 <= i < |os| ensures i in KeptAt(os) <==> !Discarded(os[i].header) {
      KeptAtExactly(os, i);
    }
    StrippedFields(Keep(os));
  }

  lemma PreparedParses(p: seq<byte>)
    requires Prepare(p).Ok?
    ensures ParseAll(p).Ok? && Kept(p) == Ok(Keep(ParseAll(p).value))
  {
    hide Print, HeadRanges;
  }

  lemma StrippedFields(ks: seq<Obu>)
    ensures var out := Stripped(ks);
            && |out| == |ks| && (forall i :: 0 <= i < |ks| - 1 ==> out[i] == ks[i])
            && (ks != [] ==>
                  var o := ks[|ks| - 1];
                  out[|ks| - 1] == Obu(o.header - o.header / 2 % 2 * 2, o.ext, [], o.data))
  {
  }

  // ---- How a frame is cut ----

  /** The bytes of the OBUs, one after the other. */
  function Raw(os: seq<Obu>): seq<byte> {
    if os == [] then [] else [os[0].header] + os[0].ext + os[0].size + os[0].data + Raw(os[1..])
  }

  /** One OBU as it is cut off the front of a frame, in terms of the header's bits: an
      extension byte if bit 2 is set; if bit 1 is set, a size field of at most eight bytes
      and as much payload as it says, or as there is; otherwise all the rest. */
  predicate CutOff(o: Obu, last: bool) {
    && |o.ext| == o.header / 4 % 2
    && (o.header / 2 % 2 == 0 ==> o.size == [] && last)
    && (o.header / 2 % 2 == 1 ==>
          && |o.size| <= 8 && Terminated(o.size, |o.size|)
          && (Val(o.size) == |o.data| || (last && Val(o.size) > |o.data|)))
  }

  lemma BodyCut(h: byte, ext: seq<byte>, q: seq<byte>)
    requires ParseBody(h, ext, q).One? && |ext| == h / 4 % 2
    ensures var r := ParseBody(h, ext, q);
            && [h] + ext + q == [r.obu.header] + r.obu.ext + r.obu.size + r.obu.data + r.rest
            && CutOff(r.obu, r.rest == [])
  {
    var r := ParseBody(h, ext, q);
    if HasSize(h) {
      LebMeaning(q, 0, 1, 0);
      var n := DecodeLeb(q).n;
      assert q[..n][..n] == q[..n];
      assert Terminated(q[..n], n);
      assert q == q[..n] + q[n..] && q[n..] == r.obu.data + r.rest;
      assert [h] + ext + q == [h] + ext + (q[..n] + (r.obu.data + r.rest));
    }
  }

  lemma OneCut(p: seq<byte>)
    requires p != [] && ParseOne(p).One?
    ensures var r := ParseOne(p);
            && p == [r.obu.header] + r.obu.ext + r.obu.size + r.obu.data + r.rest && CutOff(r.obu, r.rest == [])
  {
    hide ParseBody, CutOff;
    if p[0] / 4 % 2 == 1 {
      if |p| >= 2 {
        BodyCut(p[0], [p[1]], p[2..]);
        assert p == [p[0]] + [p[1]] + p[2..];
      }
    } else {
      BodyCut(p[0], [], p[1..]);
      assert p == [p[0]] + [] + p[1..];
    }
  }

  lemma CutOffLast(o: Obu, last: bool)
    requires CutOff(o, last)
    ensures CutOff(o, true)
  {
  }

  /** Parsing cuts the frame up without a byte lost: the OBUs' bytes are the frame, but for
      a last header that announces an extension and has none. */
  lemma {:induction false} ParseCuts(p: seq<byte>)
    requires ParseAll(p).Ok?
    ensures var os := ParseAll(p).value;
            && (forall i :: 0 <= i < |os| ==> CutOff(os[i], i == |os| - 1))
            && (p == Raw(os) || exists h: byte :: h / 4 % 2 == 1 && p == Raw(os) + [h])
    decreases |p|
  {
    hide CutOff;
    if p == [] {
      assert Raw([]) == [];
    } else if ParseOne(p).Stop? {
      assert p == Raw([]) + [p[0]];
    } else {
      OneCut(p);
      hide ParseOne;
      var r := ParseOne(p);
      var os, more := ParseAll(p).value, ParseAll(r.rest).value;
      ParseCuts(r.rest);
      var o := r.obu;
      var front := [o.header] + o.ext + o.size + o.data;
      assert os == [o] + more && os[1..] == more;
      assert Raw(os) == front + Raw(more);
      if r.rest != Raw(more) {
        var h: byte :| h / 4 % 2 == 1 && r.rest == Raw(more) + [h];
        assert p == Raw(os) + [h];
      }
      forall i | 0 <= i < |os| ensures CutOff(os[i], i == |os| - 1) {
        if i > 0 { assert os[i] == more[i - 1]; } else { CutOffLast(o, r.rest == []); }
      }
    }
  }

  /** Behind some whole OBUs there is one whose size field does not end within eight bytes. */
  ghost predicate BadSize(p: seq<byte>) {
    exists os, h: byte, ext, q :: BadSizeAt(p, os, h, ext, q)
  }

  predicate BadSizeAt(p: seq<byte>, os: seq<Obu>, h: byte, ext: seq<byte>, q: seq<byte>) {
    && p == Raw(os) + ([h] + ext + q) && (forall i :: 0 <= i < |os| ==> CutOff(os[i], false))
    && |ext| == h / 4 % 2 && h / 2 % 2 == 1 && forall n :: 0 < n <= 8 ==> !Terminated(q, n)
  }

  lemma CutOffIsExact(o: Obu)
    requires CutOff(o, false)
    ensures Exact(o)
  {
    hide DecodeLebFrom;
    LebMeaning(o.size, 0, 1, 0);
    assert o.size[..|o.size|] == o.size;
  }

  lemma BadSizeFails(h: byte, ext: seq<byte>, q: seq<byte>)
    requires |ext| == h / 4 % 2 && h / 2 % 2 == 1 && forall n :: 0 < n <= 8 ==> !Terminated(q, n)
    ensures ParseOne([h] + ext + q) == Fail
  {
    hide DecodeLebFrom, Terminated;
    LebMeaning(q, 0, 1, 0);
    var p := [h] + ext + q;
    HeadIs(p, 0, ext);
    assert p[0..] == p && p[1 + |ext|..] == q;
  }

  lemma FailIsBadSize(p: seq<byte>)
    requires p != [] && ParseOne(p) == Fail
    ensures exists h: byte, ext, q :: BadSizeAt(p, [], h, ext, q)
  {
    hide DecodeLebFrom, Terminated;
    var ext := if p[0] / 4 % 2 == 1 then [p[1]] else [];
    var q := p[1 + |ext|..];
    LebMeaning(q, 0, 1, 0);
    assert p == Raw([]) + ([p[0]] + ext + q);
    assert BadSizeAt(p, [], p[0], ext, q);
  }

  lemma RawCons(o: Obu, os: seq<Obu>)
    ensures Raw([o] + os) == [o.header] + o.ext + o.size + o.data + Raw(os)
  {
    assert ([o] + os)[1..] == os;
  }

  lemma {:induction false} FailsIfBad(p: seq<byte>, os: seq<Obu>, h: byte, ext: seq<byte>, q: seq<byte>)
    requires BadSizeAt(p, os, h, ext, q)
    ensures ParseAll(p).Err?
    decreases |os|
  {
    hide CutOff, ParseOne, Terminated;
    var bad := [h] + ext + q;
    if os == [] {
      BadSizeFails(h, ext, q);
      assert p == bad;
    } else {
      var o, rest := os[0], Raw(os[1..]) + bad;
      CutOffIsExact(o);
      ParseExact(o, rest);
      assert p == Head(o) + o.data + rest;
      FailsIfBad(rest, os[1..], h, ext, q);
    }
  }

  lemma {:induction false} BadIfFails(p: seq<byte>)
    requires ParseAll(p).Err?
    ensures BadSize(p)
    decreases |p|
  {
    hide CutOff, ParseOne, Terminated;
    if ParseOne(p).Fail? {
      FailIsBadSize(p);
    } else {
      var r := ParseOne(p);
      OneCut(p);
      BadIfFails(r.rest);
      var os, h: byte, ext, q :| BadSizeAt(r.rest, os, h, ext, q);
      RawCons(r.obu, os);
      var bad := [h] + ext + q;
      var front := [r.obu.header] + r.obu.ext + r.obu.size + r.obu.data;
      assert p == front + (Raw(os) + bad) == front + Raw(os) + bad;
      assert BadSizeAt(p, [r.obu] + os, h, ext, q);
    }
  }

  /** A frame is refused exactly when a size field does not end within eight bytes. */
  lemma RefusedExactly(p: seq<byte>)
    ensures Prepare(p).Err? <==> BadSize(p)
  {
    hide ParseAll, Keep, Print, HeadRanges, BadSizeAt;
    if ParseAll(p).Err? { BadIfFails(p); }
    if os, h: byte, ext, q :| BadSizeAt(p, os, h, ext, q) { FailsIfBad(p, os, h, ext, q); }
  }

  // ---- Ranges ----

  /** Where the k-th OBU starts in the printed frame. */
  function Start(ks: seq<Obu>, k: nat): nat
    requires k <= |ks|
  {
    if k == 0 then 0 else |Head(ks[0])| + |ks[0].data| + Start(ks[1..], k - 1)
  }

  function HeadAt(ks: seq<Obu>, k: nat): seq<byte>
    requires k < |ks|
  {
    if k == |ks| - 1 then Head(Strip(ks[k])) else Head(ks[k])
  }

  /** Range k covers the k-th header. */
  lemma {:induction false} RangeAt(ks: seq<Obu>, at: nat, k: nat)
    requires k < |ks|
    ensures |HeadRanges(ks, at)| == |ks|
    ensures HeadRanges(ks, at)[k] == Range(at + Start(ks, k), |HeadAt(ks, k)|)
    decreases |ks|
  {
    hide Strip, Head, Print;
    if |ks| > 1 {
      RangeAt(ks[1..], at + |Head(ks[0])| + |ks[0].data|, if k == 0 then 0 else k - 1);
    }
  }

  /** The k-th payload lies between the k-th header and the next start. */
  lemma {:induction false} PayloadAt(ks: seq<Obu>, k: nat)
    requires k < |ks|
    ensures var f, b := Print(ks), Start(ks, k) + |HeadAt(ks, k)|;
            && b + |ks[k].data| <= |f| && f[b..b + |ks[k].data|] == ks[k].data
            && (k < |ks| - 1 ==> Start(ks, k + 1) == b + |ks[k].data|)
            && (k == |ks| - 1 ==> |f| == b + |ks[k].data|)
    decreases |ks|
  {
    hide Strip, Head, HeadRanges;
    var f := Print(ks);
    if |ks| == 1 {
      assert f == HeadAt(ks, 0) + ks[0].data;
    } else if k == 0 {
      assert f == HeadAt(ks, 0) + ks[0].data + Print(ks[1..]);
      assert Start(ks[1..], 0) == 0 && Start(ks, 0) == 0;
    } else {
      var t, n := Print(ks[1..]), |Head(ks[0])| + |ks[0].data|;
      PayloadAt(ks[1..], k - 1);
      var b := Start(ks[1..], k - 1) + |HeadAt(ks[1..], k - 1)|;
      assert Start(ks, k) == n + Start(ks[1..], k - 1) && HeadAt(ks, k) == HeadAt(ks[1..], k - 1);
      hide HeadAt, Start;
      SliceShift(Head(ks[0]) + ks[0].data, t, b, ks[k].data);
    }
  }

  lemma SliceShift(p: seq<byte>, t: seq<byte>, b: nat, d: seq<byte>)
    requires b + |d| <= |t| && t[b..b + |d|] == d
    ensures (p + t)[|p| + b..|p| + b + |d|] == d
  {
    assert (p + t)[|p| + b..|p| + b + |d|] == t[b..b + |d|];
  }

  /** Both facts about OBU k, in terms of its range. */
  lemma Layout(ks: seq<Obu>, k: nat)
    requires k < |ks|
    ensures |HeadRanges(ks, 0)| == |ks|
    ensures var f, r := Print(ks), HeadRanges(ks, 0)[k];
            && r.offset >= 0 && r.length >= 0 && End(r) + |ks[k].data| <= |f|
            && f[End(r)..End(r) + |ks[k].data|] == ks[k].data
            && (k == 0 ==> r.offset == 0)
            && (k < |ks| - 1 ==> HeadRanges(ks, 0)[k + 1].offset == End(r) + |ks[k].data|)
            && (k == |ks| - 1 ==> |f| == End(r) + |ks[k].data|)
  {
    hide HeadRanges, Print, HeadAt;
    RangeAt(ks, 0, k);
    PayloadAt(ks, k);
    if k < |ks| - 1 { RangeAt(ks, 0, k + 1); }
  }

  lemma RangesAreValid(ks: seq<Obu>)
    ensures ValidRanges(HeadRanges(ks, 0), |Print(ks)|)
  {
    var rs := HeadRanges(ks, 0);
    if ks != [] {
      Layout(ks, 0);
      forall k | 0 <= k < |rs| ensures 0 <= rs[k].offset && 0 <= rs[k].length && End(rs[k]) <= |Print(ks)| {
        Layout(ks, k);
      }
      forall i, j | 0 <= i < j < |rs| ensures End(rs[i]) <= rs[j].offset {
        LaterStarts(ks, i, j);
      }
    }
  }

  lemma {:induction false} LaterStarts(ks: seq<Obu>, i: nat, j: nat)
    requires i < j < |ks|
    ensures |HeadRanges(ks, 0)| == |ks| && End(HeadRanges(ks, 0)[i]) <= HeadRanges(ks, 0)[j].offset
    decreases j
  {
    Layout(ks, j);
    Layout(ks, j - 1);
    if i < j - 1 { LaterStarts(ks, i, j - 1); }
  }

  lemma {:induction false} PayloadsSplit(ks: seq<Obu>, k: nat)
    requires k < |ks|
    ensures Payloads(ks[..k + 1]) == Payloads(ks[..k]) + ks[k].data
  {
    if k > 0 {
      PayloadsSplit(ks[1..], k - 1);
      assert ks[..k + 1][1..] == ks[1..][..k] && ks[..k][1..] == ks[1..][..k - 1];
    } else {
      assert ks[..1][1..] == [];
    }
  }

  /** Up to range k, the unclear bytes are the payloads of the OBUs before it. */
  lemma {:induction false} UnclearUpTo(ks: seq<Obu>, k: nat)
    requires 0 < k <= |ks|
    ensures var f, rs := Print(ks), HeadRanges(ks, 0);
            && |rs| == |ks| && 0 <= Last(rs, k) <= |f|
            && Pick(f, rs, false, Last(rs, k)) == Payloads(ks[..k - 1])
    decreases k
  {
    hide Pick, Print, HeadRanges, ValidRanges, Rank, Payloads, Clear;
    var f, rs := Print(ks), HeadRanges(ks, 0);
    RangesAreValid(ks);
    Layout(ks, k - 1);
    Turn(f, rs, k - 1);
    if k == 1 {
      assert f[0..0] == [];
      assert Pick(f, rs, false, 0) == [] by { PickNone(f, rs); }
      assert ks[..0] == [] && Payloads([]) == [] by { PayloadsNone(); }
    } else {
      UnclearUpTo(ks, k - 1);
      Layout(ks, k - 2);
      PayloadsSplit(ks, k - 2);
    }
  }

  lemma PayloadsNone()
    ensures Payloads([]) == []
  {
  }

  lemma PickNone(f: seq<byte>, rs: seq<Range>)
    ensures Pick(f, rs, false, 0) == []
  {
  }

  lemma UnclearIsPayloads(ks: seq<Obu>)
    ensures ValidRanges(HeadRanges(ks, 0), |Print(ks)|)
    ensures Ciphertext(Print(ks), HeadRanges(ks, 0)) == Payloads(ks)
  {
    hide Pick, Print, HeadRanges, ValidRanges, Rank, Payloads, Clear;
    RangesAreValid(ks);
    if ks == [] {
      PayloadsNone();
      assert Print(ks) == [] && HeadRanges(ks, 0) == [] by { NothingPrinted(); }
      PickNone([], []);
    } else {
      var f, rs, n := Print(ks), HeadRanges(ks, 0), |ks|;
      UnclearUpTo(ks, n);
      Layout(ks, n - 1);
      LastTurn(f, rs);
      PayloadsSplit(ks, n - 1);
      assert ks[..n] == ks;
      assert f[Last(rs, n)..] == ks[n - 1].data;
    }
  }

  lemma NothingPrinted()
    ensures Print([]) == [] && forall at: nat :: HeadRanges([], at) == []
  {
  }

  /** The bytes outside the ranges are exactly the concatenated OBU payloads. */
  lemma EncryptedPartIsPayloads(p: seq<byte>)
    requires Prepare(p).Ok?
    ensures var out := Prepare(p).value;
            && ValidRanges(out.ranges, |out.frame|)
            && Ciphertext(out.frame, out.ranges) == Payloads(Kept(p).value)
  {
    hide ValidRanges, Ciphertext, Print, HeadRanges, Payloads, Kept;
    if Kept(p).Ok? { UnclearIsPayloads(Kept(p).value); }
  }

  // ---- The two passes ----

  function Prepend(os: seq<Obu>, r: Result<seq<Obu>, Av1Error>): Result<seq<Obu>, Av1Error> {
    if r.Err? then r else Ok(os + r.value)
  }

  /** One turn of the first pass: the OBU at the offset and the offset behind it. */
  method NextObu(payload: seq<byte>, offset: nat) returns (r: One, next: nat)
    requires offset < |payload|
    ensures payload[offset..] != [] && r == ParseOne(payload[offset..])
    ensures r.One? ==> offset < next <= |payload| && r.rest == payload[next..]
  {
    hide DecodeLeb, HasExt, HasSize, ParseBody, Means, ParseOne;
    next := offset;
    var h := payload[next];
    next := next + 1;
    var ext: seq<byte> := [];
    if HasExt(h) {
      if next >= |payload| {
        HeadMissing(payload, offset);
        return Stop, next;
      }
      ext := payload[next..next + 1];
      next := next + 1;
    }
    HeadIs(payload, offset, ext);
    var size: seq<byte> := [];
    var length: nat := |payload| - next;
    if HasSize(h) {
      var leb := DecodeLeb128(payload[next..]);
      if leb.NoLeb? {
        BodyFails(h, ext, payload[next..]);
        return Fail, next;
      }
      size := payload[next..next + leb.n];
      length := leb.value;
      next := next + leb.n;
    }
    if next + length > |payload| {
      length := |payload| - next;
    }
    BodyIs(payload, offset + 1 + |ext|, h, ext, |size|, length);
    r := One(Obu(h, ext, size, payload[next..next + length]), payload[next + length..]);
    next := next + length;
  }

  /** First pass: parse from the front, dropping what must not be kept. */
  method ParseKept(payload: seq<byte>) returns (r: Result<seq<Obu>, Av1Error>)
    ensures r == Kept(payload)
  {
    hide Kept, ParseOne, ObuType, ShouldDrop;
    var obus: seq<Obu> := [];
    var offset: nat := 0;
    assert payload[0..] == payload;
    PrependNone(Kept(payload));
    while offset < |payload|
      invariant offset <= |payload|
      invariant Kept(payload) == Prepend(obus, Kept(payload[offset..]))
    {
      KeptUnfolds(payload[offset..]);
      var one, next := NextObu(payload, offset);
      if one.Stop? {
        assert obus + [] == obus;
        return Ok(obus);
      }
      if one.Fail? { return Err(InvalidLeb128); }
      var keep: seq<Obu> := if ShouldDrop(ObuType(one.obu.header)) then [] else [one.obu];
      PrependTwice(obus, keep, Kept(payload[next..]));
      obus := obus + keep;
      offset := next;
    }
    KeptUnfolds(payload[offset..]);
    assert obus + [] == obus;
    return Ok(obus);
  }

  /** The pieces the first pass cuts at offset o make up the body of the next OBU. */
  lemma BodyIs(payload: seq<byte>, o: nat, h: byte, ext: seq<byte>, n: nat, length: nat)
    requires o + n + length <= |payload|
    requires var leb, left := DecodeLeb(payload[o..]), |payload| - o - n;
             if HasSize(h)
             then leb.Leb? && leb.n == n && length == if leb.value > left then left else leb.value
             else n == 0 && length == left
    ensures ParseBody(h, ext, payload[o..])
            == One(Obu(h, ext, payload[o..o + n], payload[o + n..o + n + length]), payload[o + n + length..])
  {
    hide HasSize, DecodeLeb;
    var q := payload[o..];
    assert q[..n] == payload[o..o + n];
    var body := q[n..];
    assert body == payload[o + n..];
    assert body[..length] == payload[o + n..o + n + length];
    assert body[length..] == payload[o + n + length..];
    if !HasSize(h) { assert q[..0] == [] && body == q && q[|q|..] == []; }
  }

  /** The body starts behind the header and the extension, if there is one. */
  lemma HeadIs(payload: seq<byte>, o: nat, ext: seq<byte>)
    requires o + 1 + |ext| <= |payload| && |ext| == if HasExt(payload[o]) then 1 else 0
    requires ext == payload[o + 1..o + 1 + |ext|]
    ensures payload[o..] != []
    ensures ParseOne(payload[o..]) == ParseBody(payload[o], ext, payload[o + 1 + |ext|..])
  {
    hide HasExt, ParseBody;
    var p := payload[o..];
    assert p[0] == payload[o];
    assert p[1 + |ext|..] == payload[o + 1 + |ext|..];
    if HasExt(p[0]) { assert [p[1]] == ext; }
  }

  lemma HeadMissing(payload: seq<byte>, o: nat)
    requires o + 1 == |payload| && HasExt(payload[o])
    ensures payload[o..] != [] && ParseOne(payload[o..]) == Stop
  {
    hide HasExt, ParseBody;
  }

  lemma BodyFails(h: byte, ext: seq<byte>, q: seq<byte>)
    requires HasSize(h) && DecodeLeb(q).NoLeb?
    ensures ParseBody(h, ext, q) == Fail
  {
  }

  lemma PrependNone(r: Result<seq<Obu>, Av1Error>)
    ensures Prepend([], r) == r
  {
    if r.Ok? { assert [] + r.value == r.value; }
  }

  lemma PrependTwice(a: seq<Obu>, b: seq<Obu>, r: Result<seq<Obu>, Av1Error>)
    ensures Prepend(a, Prepend(b, r)) == Prepend(a + b, r)
  {
    if r.Ok? { assert a + (b + r.value) == a + b + r.value; }
  }

  lemma KeptUnfolds(p: seq<byte>)
    ensures p == [] ==> Kept(p) == Ok([])
    ensures p != [] && ParseOne(p).Stop? ==> Kept(p) == Ok([])
    ensures p != [] && ParseOne(p).Fail? ==> Kept(p) == Err(InvalidLeb128)
    ensures p != [] && ParseOne(p).One? ==>
              var o := ParseOne(p).obu;
              Kept(p) == Prepend(if ShouldDrop(ObuType(o.header)) then [] else [o], Kept(ParseOne(p).rest))
  {
    hide ParseOne;
    if p != [] && ParseOne(p).One? && ParseAll(ParseOne(p).rest).Ok? {
      var o, more := ParseOne(p).obu, ParseAll(ParseOne(p).rest).value;
      assert ([o] + more)[1..] == more;
      assert ParseAll(p) == Ok([o] + more);
      assert [] + Keep(more) == Keep(more);
    }
  }

  lemma PrintUnfolds(before: seq<byte>, had: seq<Range>, os: seq<Obu>)
    requires os != []
    ensures var frame := before + HeadAt(os, 0) + os[0].data;
            && before + Print(os) == frame + Print(os[1..])
            && had + HeadRanges(os, |before|)
               == had + [Range(|before|, |HeadAt(os, 0)|)] + HeadRanges(os[1..], |frame|)
  {
    hide Print, HeadRanges, HeadAt;
    FrameUnfolds(before, os);
    RangesUnfold(|before|, os);
    var at := |before| + |HeadAt(os, 0)| + |os[0].data|;
    assert had + ([Range(|before|, |HeadAt(os, 0)|)] + HeadRanges(os[1..], at))
           == had + [Range(|before|, |HeadAt(os, 0)|)] + HeadRanges(os[1..], at);
  }

  lemma FrameUnfolds(before: seq<byte>, os: seq<Obu>)
    requires os != []
    ensures before + Print(os) == before + HeadAt(os, 0) + os[0].data + Print(os[1..])
  {
    hide Head, Strip;
    if |os| == 1 { NothingPrinted(); }
    assert Print(os) == HeadAt(os, 0) + os[0].data + Print(os[1..]);
  }

  lemma RangesUnfold(at: nat, os: seq<Obu>)
    requires os != []
    ensures HeadRanges(os, at)
            == [Range(at, |HeadAt(os, 0)|)] + HeadRanges(os[1..], at + |HeadAt(os, 0)| + |os[0].data|)
  {
    hide Head, Strip;
    if |os| == 1 { NothingPrinted(); }
  }

  /** Second pass: print, clearing the last size bit, and record the header ranges. */
  method PrintKept(obus: seq<Obu>) returns (out: Prepared)
    requires forall i :: 0 <= i < |obus| ==> (|obus[i].ext| == if HasExt(obus[i].header) then 1 else 0)
    ensures out == Prepared(Print(obus), HeadRanges(obus, 0))
  {
    var frame: seq<byte> := [];
    var ranges: seq<Range> := [];
    var i := 0;
    hide Print, HeadRanges;
    assert obus[0..] == obus;
    while i < |obus|
      invariant 0 <= i <= |obus|
      invariant Print(obus) == frame + Print(obus[i..])
      invariant HeadRanges(obus, 0) == ranges + HeadRanges(obus[i..], |frame|)
    {
      var start := |frame|;
      ghost var before, had := frame, ranges;
      var obu := obus[i];
      assert obus[i..][1..] == obus[i + 1..] && obus[i..][0] == obu;
      var h := obu.header;
      if i == |obus| - 1 { h := ClearSizeBit(h); }
      frame := frame + [h];
      if HasExt(obu.header) { frame := frame + [obu.ext[0]]; }
      if i < |obus| - 1 && |obu.size| > 0 { frame := frame + obu.size; }
      ranges := ranges + [Range(start, |frame| - start)];
      assert frame == before + HeadAt(obus[i..], 0);
      frame := frame + obu.data;
      PrintUnfolds(before, had, obus[i..]);
      i := i + 1;
    }
    NothingPrinted();
    assert obus[i..] == [] && frame + [] == frame && ranges + [] == ranges;
    return Prepared(frame, ranges);
  }

  method PrepareAv1Frame(payload: seq<byte>) returns (r: Result<Prepared, Av1Error>)
    ensures r == Prepare(payload)
  {
    if |payload| == 0 { return Ok(Prepared([], [])); }
    var ks := ParseKept(payload);
    if ks.Err? { return Err(ks.error); }
    if |ks.value| == 0 { return Ok(Prepared([], [])); }
    ParseAllFacts(payload);
    KeepFacts(ParseAll(payload).value);
    var out := PrintKept(ks.value);
    return Ok(out);
  }
}
