/** Go's append on a caller's buffer, as frame/encrypt.go uses it: it writes into the array
    while the capacity lasts, and continues in a fresh array from the first append that
    does not fit. */
module Slices {
  import opened Bytes
  import opened Uleb128

  /** before, with its first bytes replaced by data. */
  function Overlay(before: seq<byte>, data: seq<byte>): (r: seq<byte>)
    requires |data| <= |before|
    ensures |r| == |before|
  {
    data + before[|data|..]
  }

  lemma OverlayMore(before: seq<byte>, front: seq<byte>, data: seq<byte>, after: seq<byte>)
    requires |front| + |data| <= |before| == |after| && front + data <= after
    requires after[|front| + |data|..] == Overlay(before, front)[|front| + |data|..]
    ensures after == Overlay(before, front + data)
  {
    var n := |front| + |data|;
    assert Overlay(before, front)[n..] == before[n..];
    assert after == after[..n] + after[n..];
  }

  class Slice {
    /** The caller's array, and the one the slice is in now. */
    ghost const home: array<byte>
    var base: array<byte>
    var len: nat

    /** What home held at the start, and how many of the appended bytes are in it. */
    ghost var before: seq<byte>
    ghost var reached: nat

    ghost predicate Valid()
      reads this, base, home
    {
      && len <= base.Length
      && |before| == home.Length && reached <= len && reached <= home.Length
      && home[..] == Overlay(before, base[..reached])
      && (base == home ==> reached == len)
    }

    ghost function Contents(): (s: seq<byte>)
      requires Valid()
      reads this, base, home
      ensures |s| == len
    {
      base[..len]
    }

    /** dst[:n:len(dst)]. */
    constructor (dst: array<byte>, n: nat)
      requires n <= dst.Length
      ensures Valid() && home == base == dst && len == reached == n && before == dst[..]
    {
      home, base, len, before, reached := dst, dst, n, dst[..], n;
    }

    /** append(s, data...). */
    method Append(data: seq<byte>)
      requires Valid()
      modifies this`base, this`len, this`reached, base
      ensures Valid() && (base == old(base) || fresh(base))
      ensures Contents() == old(Contents()) + data && len == old(len) + |data|
      ensures base == home <==> old(base) == home && len <= home.Length
      ensures reached == if base == home then len else old(reached)
    {
      if len + |data| > base.Length {
        var grown := new byte[2 * (len + |data|)];
        forall i | 0 <= i < len { grown[i] := base[i]; }
        base := grown;
      }
      Write(data);
    }

    /** The part of append that has the capacity. */
    method Write(data: seq<byte>)
      requires len + |data| <= base.Length && len <= base.Length && |before| == home.Length
      requires reached <= len && reached <= home.Length && home[..] == Overlay(before, base[..reached])
      requires base == home ==> reached == len
      modifies this`len, this`reached, base
      ensures Valid() && len == old(len) + |data|
      ensures Contents() == old(base[..len]) + data
      ensures reached == if base == home then len else old(reached)
    {
      hide Overlay;
      ghost var was, front := home[..], base[..len];
      for i := 0 to |data|
        invariant len == old(len) && reached == old(reached) && base[..len] == front
        invariant base[len..len + i] == data[..i]
        invariant base == home ==> home[len + i..] == was[len + i..]
        invariant base != home ==> home[..] == was
      {
        base[len + i] := data[i];
        assert base[len..len + i + 1] == base[len..len + i] + [data[i]];
      }
      len := len + |data|;
      assert base[..len] == front + data;
      if base == home {
        reached := len;
        OverlayMore(before, front, data, home[..]);
      } else {
        assert base[..reached] == front[..reached] == old(base[..reached]);
      }
    }

    /** s[:n], keeping what lies behind n in the array. */
    method Truncate(n: nat)
      requires Valid() && n <= len && (base != home ==> reached <= n)
      modifies this`len, this`before, this`reached
      ensures Valid() && len == n && Contents() == old(Contents())[..n]
      ensures before == if base == home then home[..] else old(before)
      ensures reached == if base == home then n else old(reached)
    {
      len := n;
      if base == home {
        before, reached := home[..], n;
      }
    }

    /** appendULEB128: one append per digit, so the digits fill home to its end. */
    method AppendUleb128(value: uint32)
      requires Valid()
      modifies this`base, this`len, this`reached, base
      ensures Valid() && (base == old(base) || fresh(base))
      ensures Contents() == old(Contents()) + Encode(value) && len == old(len) + |Encode(value)|
      ensures base == home <==> old(base) == home && len <= home.Length
      ensures reached == if old(base) == home then Min(len, home.Length) else old(reached)
    {
      var v: uint32 := value;
      ghost var front := Contents();
      while v >= 0x80
        invariant Valid() && (base == old(base) || fresh(base))
        invariant len >= old(len) && Contents() + Encode(v) == front + Encode(value)
        invariant base == home <==> old(base) == home && len <= home.Length
        invariant reached == if old(base) == home then Min(len, home.Length) else old(reached)
      {
        ghost var so := Contents();
        assert so + ([128 + v % 128] + Encode(v / 128)) == (so + [128 + v % 128]) + Encode(v / 128);
        Append([0x80 + v % 0x80]);
        v := v / 0x80;
      }
      Append([v]);
      assert |Contents()| == len;
    }
  }
}
