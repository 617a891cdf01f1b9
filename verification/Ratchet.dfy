/** The caching key ratchet of mediakeys/ratchet.go.

    The key-derivation function is abstract and total; a generation's secret and key
    are those of the pure chain from the original secret. */
module Ratchet {
  import opened Bytes

  type Time = int

  const DEFAULT_MAX_GENERATION_GAP: uint32 := 256

  datatype Kdf<!S> = Kdf(key: (S, uint32) -> seq<byte>, next: (S, uint32) -> S)

  datatype RatchetError = GenerationExpired | GenerationTooFar

  /** The secret of generation g: g steps from the original one. */
  function ChainSecret<S>(kdf: Kdf<S>, root: S, g: uint32): S {
    if g == 0 then root else kdf.next(ChainSecret(kdf, root, g - 1), g - 1)
  }

  function ChainKey<S>(kdf: Kdf<S>, root: S, g: uint32): seq<byte> {
    kdf.key(ChainSecret(kdf, root, g), g)
  }

  // ---- What a ratchet remembers, without the secrets ----

  /** The committed generation, and when each cached generation key expires. */
  datatype Position = Position(base: uint32, cache: map<uint32, Time>)

  const START := Position(0, map[])

  function Unexpired(cache: map<uint32, Time>, now: Time): map<uint32, Time> {
    map g | g in cache && cache[g] > now :: cache[g]
  }

  /** A pruning pass with todo still to look at. */
  ghost function HalfPruned(cache: map<uint32, Time>, todo: set<uint32>, now: Time): map<uint32, Time> {
    map g | g in cache && (g in todo || cache[g] > now) :: cache[g]
  }

  lemma PruneNothing(cache: map<uint32, Time>, now: Time)
    ensures HalfPruned(cache, cache.Keys, now) == cache && HalfPruned(cache, {}, now) == Unexpired(cache, now)
  {
  }

  lemma PruneOneMore(cache: map<uint32, Time>, todo: set<uint32>, now: Time, g: uint32)
    requires todo <= cache.Keys && g in todo
    ensures g in HalfPruned(cache, todo, now) && HalfPruned(cache, todo, now)[g] == cache[g]
    ensures HalfPruned(cache, todo - {g}, now)
            == if cache[g] > now then HalfPruned(cache, todo, now) else HalfPruned(cache, todo, now) - {g}
  {
  }

  /** A generation's key is available when it is cached and unexpired, or between the
      base and the furthest generation one call may derive. */
  predicate Available(p: Position, gap: uint32, now: Time, g: uint32) {
    (g in p.cache && p.cache[g] > now) || p.base <= g <= p.base + gap
  }

  function AfterGetKey(p: Position, gap: uint32, ttl: Time, now: Time, g: uint32): Position {
    var kept := Unexpired(p.cache, now);
    if g in kept || !Available(p, gap, now, g) then p.(cache := kept)
    else p.(cache := Filled(kept, p.base, g + 1, now + ttl))
  }

  /** A cache with an entry for every generation from lo up to hi, old entries kept. */
  function Filled(cache: map<uint32, Time>, lo: nat, hi: nat, expiry: Time): map<uint32, Time> {
    map h: uint32 | h in cache || lo <= h < hi :: if h in cache then cache[h] else expiry
  }

  lemma FillOneMore(cache: map<uint32, Time>, lo: uint32, hi: uint32, expiry: Time)
    requires lo <= hi
    ensures Filled(cache, lo, lo, expiry) == cache
    ensures Filled(cache, lo, hi + 1, expiry)
            == if hi in cache then Filled(cache, lo, hi, expiry) else Filled(cache, lo, hi, expiry)[hi := expiry]
  {
  }

  function AfterCommit(p: Position, gap: uint32, g: uint32): Position {
    if g <= p.base then p
    else if g - p.base > gap then p.(base := p.base + gap)
    else p.(base := g)
  }

  /** Nothing is cached beyond the derivable generations. */
  predicate Bounded(p: Position, gap: uint32) {
    forall g :: g in p.cache ==> g <= p.base + gap
  }

  /** Committing a generation whose key was just available is never clamped. */
  lemma CommitNotClamped(p: Position, gap: uint32, now: Time, g: uint32)
    requires Bounded(p, gap) && Available(p, gap, now, g)
    ensures AfterCommit(p, gap, g) == p.(base := if g <= p.base then p.base else g)
  {
  }

  lemma StepsKeepBounded(p: Position, gap: uint32, ttl: Time, now: Time, g: uint32)
    requires Bounded(p, gap)
    ensures Bounded(AfterGetKey(p, gap, ttl, now, g), gap) && Bounded(AfterCommit(p, gap, g), gap)
    ensures AfterGetKey(p, gap, ttl, now, g).base == p.base <= AfterCommit(p, gap, g).base
  {
  }

  /** A generation passed over by a commit stays available exactly until its retention is
      over, counted from the moment its key was derived. */
  lemma PassedOverUntil(p: Position, gap: uint32, ttl: Time, now: Time, g: uint32, h: uint32, later: Time)
    requires Bounded(p, gap) && Available(p, gap, now, g) && p.base <= h < g && now <= later
    requires forall x :: x in p.cache && p.base <= x <= g ==> p.cache[x] <= now
    ensures Available(AfterCommit(AfterGetKey(p, gap, ttl, now, g), gap, g), gap, later, h) <==> later < now + ttl
  {
  }

  // ---- The ratchet ----

  datatype Cached = Cached(key: array<byte>, expiresAt: Time)

  function Expiries(cache: map<uint32, Cached>): map<uint32, Time> {
    map g | g in cache :: cache[g].expiresAt
  }

  class KeyRatchet<S> {
    const kdf: Kdf<S>
    const retentionTTL: Time
    const maxGenerationGap: uint32
    ghost const root: S

    var baseSecret: S
    var baseGeneration: uint32
    var cache: map<uint32, Cached>

    ghost function KeyBuffers(): set<array<byte>>
      reads this
    {
      set g | g in cache :: cache[g].key
    }

    function Where(): Position
      reads this
    {
      Position(baseGeneration, Expiries(cache))
    }

    /** Every secret and every cached key is the chain's, each in a buffer of its own. */
    ghost predicate Valid()
      reads this, KeyBuffers()
    {
      && baseSecret == ChainSecret(kdf, root, baseGeneration)
      && (forall g :: g in cache ==> g <= baseGeneration + maxGenerationGap)
      && (forall g :: g in cache ==> cache[g].key[..] == ChainKey(kdf, root, g))
      && (forall g, h :: g in cache && h in cache && g != h ==> cache[g].key != cache[h].key)
    }

    constructor (kdf: Kdf<S>, secret: S, ttl: Time, gap: uint32)
      ensures Valid() && root == secret && this.kdf == kdf
      ensures retentionTTL == ttl && maxGenerationGap == gap
      ensures Where() == START && KeyBuffers() == {}
    {
      this.kdf, retentionTTL, maxGenerationGap, root := kdf, ttl, gap, secret;
      baseSecret, baseGeneration, cache := secret, 0, map[];
    }

    /** zeroBytes. */
    static method ZeroBytes(b: array<byte>)
      modifies b
    {
      for i := 0 to b.Length {
        b[i] := 0;
      }
    }

    /** Erases one cached key and forgets it; the other buffers keep their contents. */
    method Erase(g: uint32)
      requires Valid() && g in cache
      modifies this`cache, cache[g].key
      ensures Valid() && KeyBuffers() <= old(KeyBuffers())
      ensures Expiries(cache) == Expiries(old(cache)) - {g}
    {
      hide ChainSecret, ChainKey;
      var key := cache[g].key;
      cache := cache - {g};
      ZeroBytes(key);
    }

    /** pruneExpiredLocked erases the buffers of expired keys and forgets them. */
    method PruneExpired(now: Time)
      requires Valid()
      modifies this`cache, KeyBuffers()
      ensures Valid()
      ensures Where() == old(Where()).(cache := Unexpired(old(Where()).cache, now))
      ensures KeyBuffers() <= old(KeyBuffers())
    {
      hide ChainSecret, ChainKey, HalfPruned, Unexpired;
      var todo := cache.Keys;
      ghost var before := Expiries(cache);
      assert todo == before.Keys;
      PruneNothing(before, now);
      while todo != {}
        invariant Valid() && todo <= before.Keys && KeyBuffers() <= old(KeyBuffers())
        invariant Expiries(cache) == HalfPruned(before, todo, now)
        decreases todo
      {
        var g :| g in todo;
        PruneOneMore(before, todo, now, g);
        assert g in Expiries(cache);
        todo := todo - {g};
        if cache[g].expiresAt <= now {
          Erase(g);
        }
      }
    }

    /** GetKey returns the chain's key in a buffer of the caller's own, exactly when the
        generation is available, and never moves the base. */
    method GetKey(target: uint32, now: Time) returns (r: Result<array<byte>, RatchetError>)
      requires Valid()
      modifies this`cache, KeyBuffers()
      ensures Valid()
      ensures r.Ok? <==> Available(old(Where()), maxGenerationGap, now, target)
      ensures r.Ok? <==> (target in old(cache) && old(cache)[target].expiresAt > now)
                         || (baseGeneration <= target && target - baseGeneration <= maxGenerationGap)
      ensures r.Ok? ==> fresh(r.value) && r.value !in KeyBuffers() && r.value[..] == ChainKey(kdf, root, target)
      ensures r.Err? ==> r.error == if target < baseGeneration then GenerationExpired else GenerationTooFar
      ensures Where() == AfterGetKey(old(Where()), maxGenerationGap, retentionTTL, now, target)
      ensures forall b :: b in KeyBuffers() ==> b in old(KeyBuffers()) || fresh(b)
    {
      hide ChainSecret, ChainKey, Filled;
      PruneExpired(now);
      assert target in cache <==> target in Where().cache;
      if target in cache {
        var k := CloneKey(cache[target].key);
        return Ok(k);
      }
      if target < baseGeneration {
        return Err(GenerationExpired);
      }
      if target - baseGeneration > maxGenerationGap {
        return Err(GenerationTooFar);
      }
      Walk(target, now);
      var k := CloneKey(cache[target].key);
      return Ok(k);
    }

    /** The part of GetKey that derives: a clone of the base secret walks to target, and
        every key on the way that is not cached yet is. */
    method Walk(target: uint32, now: Time)
      requires Valid() && baseGeneration <= target <= baseGeneration + maxGenerationGap && target !in cache
      modifies this`cache
      ensures Valid() && target in cache
      ensures Expiries(cache) == Filled(Expiries(old(cache)), baseGeneration, target + 1, now + retentionTTL)
      ensures forall b :: b in KeyBuffers() ==> b in old(KeyBuffers()) || fresh(b)
    {
      hide ChainKey, Filled;
      var work := baseSecret;
      ghost var before := Expiries(cache);
      FillOneMore(before, baseGeneration, baseGeneration, now + retentionTTL);
      for g := baseGeneration to target
        invariant Valid() && work == ChainSecret(kdf, root, g) && target !in cache
        invariant Expiries(cache) == Filled(before, baseGeneration, g, now + retentionTTL)
        invariant forall h :: h >= g ==> (h in cache <==> h in before)
        invariant forall b :: b in KeyBuffers() ==> b in old(KeyBuffers()) || fresh(b)
      {
        FillOneMore(before, baseGeneration, g, now + retentionTTL);
        if g !in cache {
          Remember(work, g, now);
        }
        work := kdf.next(work, g);
      }
      FillOneMore(before, baseGeneration, target, now + retentionTTL);
      Remember(work, target, now);
    }

    /** Derives generation g's key into a new buffer and caches it. */
    method Remember(secret: S, g: uint32, now: Time)
      requires Valid() && secret == ChainSecret(kdf, root, g) && g !in cache
      requires g <= baseGeneration + maxGenerationGap
      modifies this`cache
      ensures Valid() && g in cache && cache == old(cache)[g := cache[g]]
      ensures fresh(cache[g].key) && KeyBuffers() == old(KeyBuffers()) + {cache[g].key}
      ensures Expiries(cache) == Expiries(old(cache))[g := now + retentionTTL]
    {
      hide ChainSecret;
      var k := Derive(secret, g);
      cache := cache[g := Cached(k, now + retentionTTL)];
    }

    /** deriveKeyForGeneration. */
    method Derive(secret: S, g: uint32) returns (k: array<byte>)
      ensures fresh(k) && k[..] == kdf.key(secret, g)
    {
      var bytes := kdf.key(secret, g);
      k := new byte[|bytes|](i requires 0 <= i < |bytes| => bytes[i]);
    }

    static method CloneKey(key: array<byte>) returns (out: array<byte>)
      ensures fresh(out) && out[..] == key[..]
    {
      out := new byte[key.Length](i requires 0 <= i < key.Length reads key => key[i]);
    }

    /** Commit moves the base, at most a gap at a time, and touches nothing else. */
    method Commit(generation: uint32)
      requires Valid()
      modifies this`baseSecret, this`baseGeneration
      ensures Valid()
      ensures Where() == AfterCommit(old(Where()), maxGenerationGap, generation)
    {
      if generation <= baseGeneration {
        return;
      }
      var last := generation;
      if last - baseGeneration > maxGenerationGap {
        last := baseGeneration + maxGenerationGap;
      }
      for g := baseGeneration to last
        invariant baseSecret == ChainSecret(kdf, root, g)
        invariant baseGeneration == old(baseGeneration)
      {
        baseSecret := kdf.next(baseSecret, g);
      }
      baseGeneration := last;
    }
  }
}
