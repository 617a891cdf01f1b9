/** What a Decrypt call that does not deliver leaves behind, and what it takes to deliver. */
module SessionDelivery {
  import opened Bytes
  import opened Nonce
  import F = Frame
  import opened SessionState
  import opened SessionMedia
  import opened SessionControl
  import opened SessionShape
  import opened SessionGroups
  import opened SessionReceives
  import opened SessionReplays
  import SessionSends
  import Replay
  import Ratchet

  // ---- Calls that do not deliver ----

  /** Nonces of 2^56 and above have been authenticated with this ratchet, so that its
      generations have wrapped around. */
  ghost predicate Wrapped(s: State, r: Ref) {
    exists a :: Has(s, a) && At(s, a).build == r.build && r.user in At(s, a).senders
                && At(s, a).senders[r.user].highest.Some? && At(s, a).senders[r.user].highest.value >= TWO56
  }

  /** Every expander and replay window is as it was, and so is the base of every ratchet
      that has not wrapped; key caches may differ. */
  ghost predicate Untouched(s: State, t: State) {
    && t.epochs == s.epochs && t.send == s.send && t.log == s.log && t.ratchets.Keys == s.ratchets.Keys
    && (forall r :: r in s.ratchets ==>
          && t.ratchets[r].root == s.ratchets[r].root && t.ratchets[r].position.base >= s.ratchets[r].position.base
          && (!Wrapped(s, r) ==> t.ratchets[r].position.base == s.ratchets[r].position.base))
  }

  lemma GetKeyUntouched(s: State, cfg: Config, ref: Ref, g: uint32)
    requires ref in s.ratchets
    ensures Untouched(s, GetKey(s, cfg, ref, g))
  {
    hide Wrapped;
  }

  /** A refused nonce is not above the highest, and its generation is already committed
      unless generations have wrapped. */
  lemma ReplayIsBehind(s: State, cfg: Config, slot: Slot, user: UserId, full: uint64)
    requires Receives(s, cfg)
    requires Has(s, slot) && user in At(s, slot).senders && Ref(At(s, slot).build, user) in s.ratchets
    requires !Replay.Accepts(At(s, slot).senders[user].replay, full)
    ensures var ref, x := Ref(At(s, slot).build, user), At(s, slot).senders[user];
            && CommitNonce(x.highest, full) == x.highest && Replay.CheckAndMark(x.replay, full).0 == x.replay
            && (!Wrapped(s, ref) ==> Generation(full) <= s.ratchets[ref].position.base)
  {
    var ref, x := Ref(At(s, slot).build, user), At(s, slot).senders[user];
    assert SenderReceives(s, ref, x) by { assert EpochReceives(s, At(s, slot)); }
    assert x.highest == Some(x.replay.highest) && full <= x.replay.highest;
    if x.replay.highest < TWO56 { GenerationMonotone(full, x.replay.highest); }
    hide Generation, Receives;
  }

  /** A replayed frame commits a nonce that is already committed, and a generation that is. */
  lemma ReplayUntouched(s: State, cfg: Config, slot: Slot, user: UserId, full: uint64)
    requires Receives(s, cfg)
    requires Has(s, slot) && user in At(s, slot).senders && Ref(At(s, slot).build, user) in s.ratchets
    requires !Replay.Accepts(At(s, slot).senders[user].replay, full)
    ensures Untouched(s, Authenticated(s, cfg, slot, user, full))
  {
    hide Generation, Ratchet.AfterGetKey, Receives, SenderReceives, CommitNonce, Replay.CheckAndMark, Wrapped;
    ReplayIsBehind(s, cfg, slot, user, full);
    var x := At(s, slot).senders[user];
    assert At(s, slot).senders[user := x] == At(s, slot).senders;
    GetKeyBase(s.ratchets[Ref(At(s, slot).build, user)].position, cfg.maxGap, s.now, Generation(full));
  }

  lemma GetKeyBase(p: Ratchet.Position, gap: uint32, now: Time, g: uint32)
    ensures Ratchet.AfterGetKey(p, gap, KEY_RETENTION, now, g).base == p.base
  {
  }

  lemma GenerationMonotone(a: uint64, b: uint64)
    requires a <= b < TWO56
    ensures Generation(a) <= b / TWO24
  {
  }

  lemma TryEpochUntouched(s: State, cfg: Config, user: UserId, packet: seq<byte>, nonce: uint32, room: nat, slot: Slot)
    requires Receives(s, cfg)
    requires !TryEpoch(s, cfg, user, packet, nonce, room, slot).1.Delivered?
    ensures Untouched(s, TryEpoch(s, cfg, user, packet, nonce, room, slot).0)
  {
    TryEpochCases(s, cfg, user, packet, nonce, room, slot);
    hide TryEpoch, Receives, F.OpensTo, Generation, Authenticated, ExpandTentative, GetKey, Wrapped;
    if Has(s, slot) && user in At(s, slot).senders && Ref(At(s, slot).build, user) in s.ratchets {
      var ref, x := Ref(At(s, slot).build, user), At(s, slot).senders[user];
      var full := ExpandTentative(x.highest, nonce);
      GetKeyUntouched(s, cfg, ref, Generation(full));
      if !Replay.Accepts(x.replay, full) { ReplayUntouched(s, cfg, slot, user, full); }
    }
  }

  lemma {:induction false} TryEpochsUntouched(s: State, cfg: Config, user: UserId, packet: seq<byte>, nonce: uint32,
                                              room: nat, slots: seq<Slot>)
    requires Shape(s, cfg) && Receives(s, cfg) && NonceOf(packet) == Some(nonce)
    requires TryEpochs(s, cfg, user, packet, nonce, room, slots).1.Err?
    ensures Untouched(s, TryEpochs(s, cfg, user, packet, nonce, room, slots).0)
    decreases |slots|
  {
    hide TryEpoch, Receives, Shape, NonceOf, MediaStep, Untouched;
    if slots == [] {
      UntouchedSame(s);
    } else {
      var (t, o) := TryEpoch(s, cfg, user, packet, nonce, room, slots[0]);
      TryEpochUntouched(s, cfg, user, packet, nonce, room, slots[0]);
      TryEpochReceives(s, cfg, user, packet, nonce, room, slots[0]);
      TryEpochStep(s, cfg, user, packet, nonce, room, slots[0]);
      ShapeAfterMedia(s, t, cfg);
      if !o.TooShort? {
        TryEpochsUntouched(t, cfg, user, packet, nonce, room, slots[1..]);
        UntouchedTwice(s, t, TryEpochs(t, cfg, user, packet, nonce, room, slots[1..]).0);
      }
    }
  }

  lemma UntouchedSame(s: State)
    ensures Untouched(s, s)
  {
  }

  lemma WrappedSame(s: State, t: State, r: Ref)
    requires t.epochs == s.epochs
    ensures Wrapped(s, r) <==> Wrapped(t, r)
  {
    assert forall a :: Has(s, a) == Has(t, a) && (Has(s, a) ==> At(s, a) == At(t, a));
  }

  lemma UntouchedTwice(s: State, t: State, u: State)
    requires Untouched(s, t) && Untouched(t, u)
    ensures Untouched(s, u)
  {
    hide Wrapped;
    forall r ensures Wrapped(s, r) <==> Wrapped(t, r) { WrappedSame(s, t, r); }
  }

  /** A Decrypt call that returns an error leaves every sender's expander and replay window
      unchanged, in every epoch that has not expired, and every ratchet base, except that of
      a ratchet whose generations have wrapped. */
  lemma FailedDecryptUntouched(cfg: Config, s: State, user: UserId, packet: seq<byte>, room: nat)
    requires Shape(s, cfg) && Receives(s, cfg)
    requires Decrypt(s, cfg, user, packet, room).1.Err?
    ensures var t := Decrypt(s, cfg, user, packet, room).0;
            if F.LooksLikeDaveFrame(packet) && NonceOf(packet).Some? then Untouched(PruneRetained(s), t) else t == s
  {
    var s0 := PruneRetained(s);
    PruneReceives(s, cfg);
    UnexpiredIsPruned(s.epochs.retained, s.now);
    assert MediaStep(s, s0);
    ShapeAfterMedia(s, s0, cfg);
    hide TryEpochs, Receives, Shape, NonceOf, MediaStep, PruneRetained, Untouched;
    if F.LooksLikeDaveFrame(packet) && NonceOf(packet).Some? {
      TryEpochsUntouched(s0, cfg, user, packet, NonceOf(packet).value, room, Candidates(s0));
    }
  }

  /** The same in every run. */
  lemma FailedDecryptInRuns(cfg: Config, es: seq<Event>, user: UserId, packet: seq<byte>, room: nat)
    requires Decrypt(Run(Init(), cfg, es), cfg, user, packet, room).1.Err?
    ensures var s := Run(Init(), cfg, es);
            var t := Decrypt(s, cfg, user, packet, room).0;
            if F.LooksLikeDaveFrame(packet) && NonceOf(packet).Some? then Untouched(PruneRetained(s), t) else t == s
  {
    Reachable(cfg, es);
    hide Run, Decrypt, Receives, Shape, Untouched, Fresh, GroupIds, NonceOf;
    FailedDecryptUntouched(cfg, Run(Init(), cfg, es), user, packet, room);
  }

  /** The base of a ratchet moves in a refused attempt exactly when the generation that
      authenticated is above it, which takes a ratchet that has wrapped. */
  lemma RefusedMovesBaseExactly(s: State, cfg: Config, slot: Slot, user: UserId, full: uint64)
    requires Receives(s, cfg)
    requires Has(s, slot) && user in At(s, slot).senders && Ref(At(s, slot).build, user) in s.ratchets
    requires KeyAvailable(s, cfg, Ref(At(s, slot).build, user), Generation(full))
    requires !Replay.Accepts(At(s, slot).senders[user].replay, full)
    ensures var ref, t := Ref(At(s, slot).build, user), Authenticated(s, cfg, slot, user, full);
            && ref in t.ratchets
            && (t.ratchets[ref].position.base != s.ratchets[ref].position.base
                <==> Generation(full) > s.ratchets[ref].position.base)
            && (Generation(full) > s.ratchets[ref].position.base ==> Wrapped(s, ref))
  {
    ReplayIsBehind(s, cfg, slot, user, full);
    CommitReaches(s, cfg, Ref(At(s, slot).build, user), Generation(full));
    hide Generation, Ratchet.AfterGetKey, Ratchet.AfterCommit, EpochReceives, Wrapped, CommitNonce, Replay.CheckAndMark;
  }

  /** With the default gap, a key that Decrypt cannot get has expired; it is never too far ahead. */
  lemma NeverTooFar(s: State, cfg: Config, slot: Slot, user: UserId, nonce: uint32)
    requires Receives(s, cfg) && Has(s, slot) && user in At(s, slot).senders
    requires cfg.maxGap >= Ratchet.DEFAULT_MAX_GENERATION_GAP
    requires At(s, slot).senders[user].highest.Some? ==> At(s, slot).senders[user].highest.value < TWO56 - TWO32
    ensures var ref := Ref(At(s, slot).build, user);
            && ref in s.ratchets
            && var g := Generation(ExpandTentative(At(s, slot).senders[user].highest, nonce));
               g <= s.ratchets[ref].position.base + cfg.maxGap
  {
    var ref, x := Ref(At(s, slot).build, user), At(s, slot).senders[user];
    assert SenderReceives(s, ref, x) by { assert EpochReceives(s, At(s, slot)); }
    assert InStep(x, s.ratchets[ref].position);
    hide Receives, SenderReceives, Knows, EpochReceives;
    var full := ExpandTentative(x.highest, nonce);
    if x.highest.None? {
      GenerationBelow(nonce, 0);
    } else {
      ClosestStep(x.highest.value, nonce);
      hide Closest;
      GenerationBelow(full, x.highest.value);
    }
  }

  lemma GenerationBelow(full: uint64, highest: uint64)
    requires full < TWO32 || (full <= highest + TWO31 && highest < TWO56 - TWO32)
    ensures Generation(full) <= highest / TWO24 + 256
  {
    if full < TWO32 {
      assert full / TWO24 < 256;
    } else {
      assert full / TWO24 <= (highest + TWO31) / TWO24;
    }
  }

  // ---- Delivery ----

  /** Under another key the attempt fails and only a key cache moves. */
  lemma OtherEpochRefuses(s: State, cfg: Config, user: UserId, packet: seq<byte>, nonce: uint32, room: nat,
                          slot: Slot, other: Slot, key: MediaKey)
    requires Shape(s, cfg) && NoDup(s.log.built) && other != slot
    requires Has(s, slot) && user in At(s, slot).senders && Ref(At(s, slot).build, user) in s.ratchets
    requires key.root == s.ratchets[Ref(At(s, slot).build, user)].root
    requires F.OpensTo(cfg.aead, key, packet).Some? && OpensOnce(cfg, packet)
    ensures var (t, o) := TryEpoch(s, cfg, user, packet, nonce, room, other);
            && (o == Skip || o == Refused)
            && t.epochs == s.epochs && t.now == s.now && t.log == s.log
            && Ref(At(s, slot).build, user) in t.ratchets
            && t.ratchets[Ref(At(s, slot).build, user)] == s.ratchets[Ref(At(s, slot).build, user)]
  {
    TryEpochCases(s, cfg, user, packet, nonce, room, other);
    var ref := Ref(At(s, slot).build, user);
    assert RatchetsOk(s) && DistinctBuilds(s);
    hide TryEpoch, Shape, F.OpensTo, Generation, Authenticated, ExpandTentative, KeyAvailable, RatchetsOk, NoDup;
    if Has(s, other) && user in At(s, other).senders && Ref(At(s, other).build, user) in s.ratchets {
      var that := Ref(At(s, other).build, user);
      assert that != ref;
      if s.ratchets[that].root == s.ratchets[ref].root { RootIdentifiesRatchet(s, that, ref); }
    }
  }

  /** The window and the expander place counter value n where the sender put it. */
  predicate Expected(x: SenderState, n: uint64) {
    && n < TWO56
    && (x.highest.None? ==> n < TWO32)
    && (x.highest.Some? ==> AbsDiff(n, x.highest.value) < TWO31)
    && Unseen(x.replay, n)
  }

  /** Nothing was accepted before, or the value is above the highest, or it is less than
      1024 behind it and was not accepted. */
  predicate Unseen(r: Replay.Record, n: uint64) {
    r.accepted == {} || n > r.highest || (r.highest - n < 1024 && n !in r.accepted)
  }

  lemma ExpectedExpands(x: SenderState, n: uint64)
    requires Expected(x, n)
    ensures ExpandTentative(x.highest, Truncated(n)) == n
  {
    if x.highest.Some? { ClosestRecovers(x.highest.value, n); }
  }

  ghost predicate Deliverable(s: State, cfg: Config, slot: Slot, user: UserId, n: uint64, frame: seq<byte>,
                              packet: seq<byte>) {
    && Has(s, slot) && user in At(s, slot).senders && Ref(At(s, slot).build, user) in s.ratchets
    && Expected(At(s, slot).senders[user], n)
    && KeyAvailable(s, cfg, Ref(At(s, slot).build, user), Generation(n))
    && F.OpensTo(cfg.aead, MediaKey(s.ratchets[Ref(At(s, slot).build, user)].root, Generation(n)), packet)
       == Some((frame, Truncated(n)))
  }

  lemma {:induction false} TryEpochsDeliver(s: State, cfg: Config, slot: Slot, user: UserId, n: uint64,
                                            frame: seq<byte>, packet: seq<byte>, room: nat, slots: seq<Slot>)
    requires Shape(s, cfg) && NoDup(s.log.built) && OpensOnce(cfg, packet) && room >= |frame|
    requires Deliverable(s, cfg, slot, user, n, frame, packet) && slot in slots
    ensures TryEpochs(s, cfg, user, packet, Truncated(n), room, slots).1 == Ok(frame)
    decreases |slots|
  {
    hide TryEpoch, Shape, F.OpensTo, Generation, Truncated, OpensOnce, MediaStep, Expected, NoDup, KeyAvailable;
    var (t, o) := TryEpoch(s, cfg, user, packet, Truncated(n), room, slots[0]);
    if slots[0] == slot {
      TryEpochDelivers(s, cfg, slot, user, n, frame, packet, room);
    } else {
      var key := MediaKey(s.ratchets[Ref(At(s, slot).build, user)].root, Generation(n));
      OtherEpochRefuses(s, cfg, user, packet, Truncated(n), room, slot, slots[0], key);
      TryEpochStep(s, cfg, user, packet, Truncated(n), room, slots[0]);
      ShapeAfterMedia(s, t, cfg);
      StillDeliverable(s, t, cfg, slot, user, n, frame, packet);
      TryEpochsDeliver(t, cfg, slot, user, n, frame, packet, room, slots[1..]);
    }
  }

  lemma TryEpochDelivers(s: State, cfg: Config, slot: Slot, user: UserId, n: uint64,
                         frame: seq<byte>, packet: seq<byte>, room: nat)
    requires Deliverable(s, cfg, slot, user, n, frame, packet) && room >= |frame|
    ensures TryEpoch(s, cfg, user, packet, Truncated(n), room, slot).1 == Delivered(frame)
  {
    TryEpochCases(s, cfg, user, packet, Truncated(n), room, slot);
    ExpectedExpands(At(s, slot).senders[user], n);
    hide TryEpoch, F.OpensTo, Generation, Truncated, Authenticated, ExpandTentative, KeyAvailable, GetKey;
  }

  lemma StillDeliverable(s: State, t: State, cfg: Config, slot: Slot, user: UserId, n: uint64,
                         frame: seq<byte>, packet: seq<byte>)
    requires Deliverable(s, cfg, slot, user, n, frame, packet) && t.epochs == s.epochs && t.now == s.now
    requires Ref(At(s, slot).build, user) in t.ratchets
    requires t.ratchets[Ref(At(s, slot).build, user)] == s.ratchets[Ref(At(s, slot).build, user)]
    ensures Deliverable(t, cfg, slot, user, n, frame, packet)
  {
    hide F.OpensTo, Generation, Truncated, Expected;
    assert Has(t, slot) && At(t, slot) == At(s, slot);
  }

  lemma SlotIsCandidate(s: State, slot: Slot)
    requires Has(s, slot)
    ensures slot in Candidates(s)
  {
    match slot
    case Active => assert Candidates(s)[0] == Active;
    case Pending => assert Candidates(s)[1] == Pending;
    case Retained(i) => assert Candidates(s)[2 + i] == Retained(i);
  }

  lemma NonceOfEncrypted(cfg: Config, key: MediaKey, frame: seq<byte>, nonce: uint32, packet: seq<byte>)
    requires |frame| < TWO32 && F.EncryptFrame(cfg.aead, key, frame, nonce, []) == Ok(packet)
    ensures NonceOf(packet) == Some(nonce) && F.LooksLikeDaveFrame(packet)
    ensures F.OpensTo(cfg.aead, key, packet) == Some((frame, nonce))
  {
    F.RoundTrip(cfg.aead, key, frame, nonce, [], packet);
    assert F.EncryptsTo(cfg.aead, key, frame, nonce, [], packet);
    F.ReadBack(cfg.aead, key, frame, nonce, [], packet);
    var g := F.FrameOf(cfg.aead, key, frame, nonce, []);
    var f :| F.Prints(f, packet) && NonceOf(packet) == Some(f.nonce);
    F.PrintInjective(f, g, packet);
  }

  /** What a receiver needs, in terms of a frame sealed with counter value n. */
  lemma SealedFrameDelivered(s: State, cfg: Config, slot: Slot, user: UserId, n: uint64,
                             frame: seq<byte>, packet: seq<byte>, room: nat)
    requires Shape(s, cfg) && NoDup(s.log.built) && OpensOnce(cfg, packet) && |frame| < TWO32 && room >= |frame|
    requires var s0 := PruneRetained(s);
             && Has(s0, slot) && user in At(s0, slot).senders && Ref(At(s0, slot).build, user) in s0.ratchets
             && Expected(At(s0, slot).senders[user], n)
             && KeyAvailable(s0, cfg, Ref(At(s0, slot).build, user), Generation(n))
             && F.EncryptFrame(cfg.aead, MediaKey(s0.ratchets[Ref(At(s0, slot).build, user)].root, Generation(n)),
                               frame, Truncated(n), []) == Ok(packet)
    ensures Decrypt(s, cfg, user, packet, room).1 == Ok(frame)
  {
    var s0 := PruneRetained(s);
    UnexpiredIsPruned(s.epochs.retained, s.now);
    assert MediaStep(s, s0);
    ShapeAfterMedia(s, s0, cfg);
    hide Shape, MediaStep, F.EncryptFrame, F.OpensTo, NonceOf, Generation, Truncated, TryEpochs, OpensOnce, Expected,
         KeyAvailable;
    NonceOfEncrypted(cfg, MediaKey(s0.ratchets[Ref(At(s0, slot).build, user)].root, Generation(n)), frame,
      Truncated(n), packet);
    SlotIsCandidate(s0, slot);
    TryEpochsDeliver(s0, cfg, slot, user, n, frame, packet, room, Candidates(s0));
  }

  lemma EncryptWithProduces(a: State, cfg: Config, ref: Ref, frame: seq<byte>, room: nat)
    requires ref in a.ratchets && a.send.cipher == a.send.cipherKey && EncryptWith(a, cfg, ref, frame, room).1.Ok?
    ensures F.EncryptFrame(cfg.aead, MediaKey(a.ratchets[ref].root, Generation(NextCounter(a))),
                           frame, Truncated(NextCounter(a)), []) == Ok(EncryptWith(a, cfg, ref, frame, room).1.value)
  {
    hide KeyUp, F.EncryptFrame, Generation, Truncated, NextCounter;
    var a1 := a.(send := a.send.(counter := NextCounter(a)));
    SessionSends.KeyUpFacts(a1, cfg, ref, Generation(NextCounter(a)));
    var cipher := KeyUp(a1, cfg, ref, Generation(NextCounter(a))).1;
    assert cipher.Some?;
    var packet := F.EncryptFrame(cfg.aead, cipher.value, frame, Truncated(NextCounter(a)), []);
    assert packet.Ok?;
  }

  /** A successful Encrypt seals under the live ratchet's key for the next counter value. */
  lemma EncryptProduces(a: State, cfg: Config, frame: seq<byte>, room: nat)
    requires a.send.cipher == a.send.cipherKey && Encrypt(a, cfg, frame, room).1.Ok?
    ensures var a0 := SelectSendRatchet(a);
            var live := LiveRatchet(a0);
            live.Some? && live.value in a0.ratchets ==>
              F.EncryptFrame(cfg.aead, MediaKey(a0.ratchets[live.value].root, Generation(NextCounter(a0))),
                             frame, Truncated(NextCounter(a0)), []) == Ok(Encrypt(a, cfg, frame, room).1.value)
  {
    var a0 := SelectSendRatchet(a);
    var live := LiveRatchet(a0);
    hide EncryptWith, F.EncryptFrame, Generation, Truncated, NextCounter;
    if live.Some? && live.value in a0.ratchets {
      EncryptWithProduces(a0, cfg, live.value, frame, room);
    }
  }

  /** End to end: what one session's Encrypt returns, another session that holds the same
      sender secret delivers, byte for byte. */
  lemma EndToEnd(a: State, acfg: Config, s: State, cfg: Config, slot: Slot, frame: seq<byte>, sendRoom: nat, room: nat)
    requires a.send.cipher == a.send.cipherKey && acfg.aead == cfg.aead && |frame| < TWO32 && room >= |frame|
    requires Encrypt(a, acfg, frame, sendRoom).1.Ok?
    requires Shape(s, cfg) && NoDup(s.log.built) && OpensOnce(cfg, Encrypt(a, acfg, frame, sendRoom).1.value)
    requires var a0, s0 := SelectSendRatchet(a), PruneRetained(s);
             var n := NextCounter(a0);
             && LiveRatchet(a0).Some? && LiveRatchet(a0).value in a0.ratchets
             && Has(s0, slot) && acfg.self in At(s0, slot).senders
             && var ref := Ref(At(s0, slot).build, acfg.self);
                && ref in s0.ratchets && s0.ratchets[ref].root == a0.ratchets[LiveRatchet(a0).value].root
                && Expected(At(s0, slot).senders[acfg.self], n) && KeyAvailable(s0, cfg, ref, Generation(n))
    ensures Decrypt(s, cfg, acfg.self, Encrypt(a, acfg, frame, sendRoom).1.value, room).1 == Ok(frame)
  {
    EncryptProduces(a, acfg, frame, sendRoom);
    hide Encrypt, Decrypt, F.EncryptFrame, Shape, NoDup, OpensOnce, Expected, Generation, Truncated, NextCounter,
         KeyAvailable,
         PruneRetained, SelectSendRatchet;
    var packet := Encrypt(a, acfg, frame, sendRoom).1.value;
    SealedFrameDelivered(s, cfg, slot, acfg.self, NextCounter(SelectSendRatchet(a)), frame, packet, room);
  }

  /** The key of a generation that a frame of a later one passed over is kept for ten seconds
      from then on. */
  lemma PassedOverKeyKept(s: State, cfg: Config, ref: Ref, g: uint32, h: uint32, later: Time)
    requires ref in s.ratchets && KeyAvailable(s, cfg, ref, g) && s.now <= later
    requires var p := s.ratchets[ref].position;
             && Ratchet.Bounded(p, cfg.maxGap) && p.base <= h < g
             && forall x :: x in p.cache && p.base <= x <= g ==> p.cache[x] <= s.now
    ensures var t := CommitRatchet(GetKey(s, cfg, ref, g), cfg, ref, g);
            KeyAvailable(t.(now := later), cfg, ref, h) <==> later < s.now + 10_000
  {
    hide Ratchet.AfterGetKey, Ratchet.AfterCommit, Ratchet.Available, Ratchet.Bounded;
    Ratchet.PassedOverUntil(s.ratchets[ref].position, cfg.maxGap, KEY_RETENTION, s.now, g, h, later);
  }

  /** The generation key is still to be had: cached and unexpired, or not behind the base. */
  predicate KeyKept(s: State, ref: Ref, g: uint32)
    requires ref in s.ratchets
  {
    var p := s.ratchets[ref].position;
    (g in p.cache && p.cache[g] > s.now) || p.base <= g
  }

  lemma KeptIsAvailable(s: State, cfg: Config, slot: Slot, user: UserId, n: uint64)
    requires Receives(s, cfg) && Has(s, slot) && user in At(s, slot).senders
    requires cfg.maxGap >= Ratchet.DEFAULT_MAX_GENERATION_GAP
    requires At(s, slot).senders[user].highest.Some? ==> At(s, slot).senders[user].highest.value < TWO56 - TWO32
    requires Expected(At(s, slot).senders[user], n)
    requires var ref := Ref(At(s, slot).build, user); ref in s.ratchets && KeyKept(s, ref, Generation(n))
    ensures KeyAvailable(s, cfg, Ref(At(s, slot).build, user), Generation(n))
  {
    NeverTooFar(s, cfg, slot, user, Truncated(n));
    ExpectedExpands(At(s, slot).senders[user], n);
    hide Receives, Generation, Truncated, ExpandTentative, Expected;
  }

  /** End to end in runs: the sender and the receiver are any two reachable sessions, the
      receiver holds the sender's secret in one of its unexpired epochs, and the counter
      value is where the receiver can place it. */
  lemma EndToEndInRuns(acfg: Config, sent: seq<Event>, cfg: Config, es: seq<Event>, slot: Slot,
                       frame: seq<byte>, sendRoom: nat, room: nat)
    requires acfg.aead == cfg.aead && cfg.maxGap >= Ratchet.DEFAULT_MAX_GENERATION_GAP
    requires |frame| < TWO32 && room >= |frame|
    requires var a := Run(Init(), acfg, sent);
             Encrypt(a, acfg, frame, sendRoom).1.Ok? && OpensOnce(cfg, Encrypt(a, acfg, frame, sendRoom).1.value)
    requires NoDup(Run(Init(), cfg, es).log.minted)
    requires var a0, s0 := SelectSendRatchet(Run(Init(), acfg, sent)), PruneRetained(Run(Init(), cfg, es));
             var n := NextCounter(a0);
             && LiveRatchet(a0).Some? && LiveRatchet(a0).value in a0.ratchets
             && Has(s0, slot) && acfg.self in At(s0, slot).senders
             && var ref, x := Ref(At(s0, slot).build, acfg.self), At(s0, slot).senders[acfg.self];
                && ref in s0.ratchets && s0.ratchets[ref].root == a0.ratchets[LiveRatchet(a0).value].root
                && Expected(x, n) && (x.highest.Some? ==> x.highest.value < TWO56 - TWO32)
                && KeyKept(s0, ref, Generation(n))
    ensures Decrypt(Run(Init(), cfg, es), cfg, acfg.self, Encrypt(Run(Init(), acfg, sent), acfg, frame,
            sendRoom).1.value, room).1
            == Ok(frame)
  {
    SessionSends.ReachableSends(acfg, sent);
    Reachable(cfg, es);
    var a, s := Run(Init(), acfg, sent), Run(Init(), cfg, es);
    hide Run, Encrypt, Decrypt, Shape, Receives, NoDup, OpensOnce, Expected, Generation, Truncated, NextCounter,
         KeyAvailable,
         KeyKept, PruneRetained, SelectSendRatchet, GroupIds, AllMinted, Unbuilt, SessionSends.Stretches,
         SessionSends.Recorded, SessionSends.Used, SessionSends.NotOf;
    PruneReceives(s, cfg);
    KeptIsAvailable(PruneRetained(s), cfg, slot, acfg.self, NextCounter(SelectSendRatchet(a)));
    EndToEnd(a, acfg, s, cfg, slot, frame, sendRoom, room);
  }
}
