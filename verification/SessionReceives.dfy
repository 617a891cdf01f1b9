/** What receivers keep: expander, ratchet base and replay window stay in step, and no
    frame is delivered twice. */
module SessionReceives {
  import opened Bytes
  import opened Nonce
  import F = Frame
  import opened SessionState
  import opened SessionMedia
  import opened SessionControl
  import opened SessionActions
  import opened SessionFrames
  import opened SessionShape
  import opened SessionGroups
  import opened SessionPaths
  import Replay
  import Ratchet

  /** Expander and window share their highest nonce, and the ratchet's base has reached
      that nonce's generation. */
  predicate InStep(x: SenderState, p: Ratchet.Position) {
    && Replay.ValidRecord(x.replay)
    && x.highest == (if x.replay.accepted == {} then None else Some(x.replay.highest))
    && (x.highest.Some? && x.highest.value < TWO56 ==> p.base >= x.highest.value / TWO24)
  }

  /** The window knows every delivery made with this ratchet. */
  predicate Knows(deliveries: seq<Delivery>, r: Ref, record: Replay.Record) {
    forall i :: 0 <= i < |deliveries| && deliveries[i].ref == r ==> deliveries[i].full in record.accepted
  }

  predicate SenderReceives(s: State, r: Ref, x: SenderState) {
    r in s.ratchets && InStep(x, s.ratchets[r].position) && Knows(s.log.deliveries, r, x.replay)
  }

  predicate EpochReceives(s: State, e: Epoch) {
    forall u :: u in e.senders ==> SenderReceives(s, Ref(e.build, u), e.senders[u])
  }

  /** A delivery was opened with the generation of its own extended nonce. */
  ghost predicate DeliveryOk(s: State, cfg: Config, d: Delivery) {
    && d.ref in s.ratchets && d.ref.user == d.user
    && NonceOf(d.packet) == Some(Truncated(d.full))
    && F.OpensTo(cfg.aead, MediaKey(s.ratchets[d.ref].root, Generation(d.full)), d.packet).Some?
  }

  predicate NonceOnce(deliveries: seq<Delivery>) {
    forall i, j :: 0 <= i < j < |deliveries| && deliveries[i].ref == deliveries[j].ref ==>
      deliveries[i].full != deliveries[j].full
  }

  predicate AllBounded(s: State, cfg: Config) {
    forall r :: r in s.ratchets ==> Ratchet.Bounded(s.ratchets[r].position, cfg.maxGap)
  }

  ghost predicate Receives(s: State, cfg: Config) {
    && AllBounded(s, cfg)
    && (forall a :: Has(s, a) ==> EpochReceives(s, At(s, a)))
    && (forall i :: 0 <= i < |s.log.deliveries| ==> DeliveryOk(s, cfg, s.log.deliveries[i]))
    && NonceOnce(s.log.deliveries)
  }

  // ---- Ratchet positions only move forward ----

  predicate Forward(a: map<Ref, KeyRatchet>, b: map<Ref, KeyRatchet>) {
    && (forall r :: r in a ==> r in b && b[r].root == a[r].root && b[r].position.base >= a[r].position.base)
  }

  /** The epoch at a has the build and the senders of some epoch of s. */
  ghost predicate Continues(s: State, t: State, a: Slot)
    requires Has(t, a)
  {
    exists b :: Has(s, b) && At(s, b).build == At(t, a).build && At(s, b).senders == At(t, a).senders
  }

  /** Epochs of t are epochs of s, nothing was delivered, and ratchets moved forward. */
  lemma ReceivesForward(s: State, t: State, cfg: Config)
    requires Receives(s, cfg) && Forward(s.ratchets, t.ratchets) && AllBounded(t, cfg)
    requires t.log.deliveries == s.log.deliveries
    requires forall a :: Has(t, a) ==> EpochReceives(t, At(t, a)) || Continues(s, t, a)
    ensures Receives(t, cfg)
  {
    hide F.OpensTo, NonceOf, Generation, Truncated, Replay.ValidRecord;
    forall a | Has(t, a) ensures EpochReceives(t, At(t, a)) {
    }
  }

  lemma GetKeyForward(s: State, cfg: Config, ref: Ref, g: uint32)
    requires ref in s.ratchets && AllBounded(s, cfg)
    ensures Forward(s.ratchets, GetKey(s, cfg, ref, g).ratchets) && AllBounded(GetKey(s, cfg, ref, g), cfg)
    ensures GetKey(s, cfg, ref, g).ratchets[ref].position.base == s.ratchets[ref].position.base
  {
    Ratchet.StepsKeepBounded(s.ratchets[ref].position, cfg.maxGap, KEY_RETENTION, s.now, g);
    hide Ratchet.AfterGetKey, Ratchet.Bounded;
  }

  lemma CommitForward(s: State, cfg: Config, ref: Ref, g: uint32)
    requires ref in s.ratchets && AllBounded(s, cfg)
    ensures Forward(s.ratchets, CommitRatchet(s, cfg, ref, g).ratchets) &&
            AllBounded(CommitRatchet(s, cfg, ref, g), cfg)
  {
    Ratchet.StepsKeepBounded(s.ratchets[ref].position, cfg.maxGap, KEY_RETENTION, s.now, g);
    hide Ratchet.AfterCommit, Ratchet.Bounded;
  }

  // ---- One attempt ----

  /** After GetKey of an available generation, Commit reaches exactly that generation. */
  lemma CommitReaches(s: State, cfg: Config, ref: Ref, g: uint32)
    requires ref in s.ratchets && AllBounded(s, cfg) && KeyAvailable(s, cfg, ref, g)
    ensures var t := CommitRatchet(GetKey(s, cfg, ref, g), cfg, ref, g);
            t.ratchets[ref].position.base
              == if g <= s.ratchets[ref].position.base then s.ratchets[ref].position.base else g
  {
  }

  /** The sender state after an authenticated attempt is in step again. */
  lemma AttemptInStep(x: SenderState, p: Ratchet.Position, q: Ratchet.Position, full: uint64)
    requires InStep(x, p) && q.base == if Generation(full) <= p.base then p.base else Generation(full)
    ensures InStep(SenderState(CommitNonce(x.highest, full), Replay.CheckAndMark(x.replay, full).0), q)
  {
    if full < TWO56 { assert Generation(full) == full / TWO24; }
  }

  /** The state of TryEpoch once the packet has authenticated. */
  ghost function Authenticated(s: State, cfg: Config, slot: Slot, user: UserId, full: uint64): State
    requires Has(s, slot) && user in At(s, slot).senders && Ref(At(s, slot).build, user) in s.ratchets
  {
    var ref, x := Ref(At(s, slot).build, user), At(s, slot).senders[user];
    var s2 := CommitRatchet(GetKey(s, cfg, ref, Generation(full)), cfg, ref, Generation(full));
    PutSender(s2, slot, user, SenderState(CommitNonce(x.highest, full), Replay.CheckAndMark(x.replay, full).0))
  }

  lemma KnowsMore(deliveries: seq<Delivery>, r: Ref, a: Replay.Record, b: Replay.Record)
    requires Knows(deliveries, r, a) && a.accepted <= b.accepted
    ensures Knows(deliveries, r, b)
  {
  }

  /** Writing back a sender that is in step. */
  lemma PutSenderReceives(s: State, t: State, cfg: Config, slot: Slot, user: UserId, y: SenderState)
    requires Receives(s, cfg) && Forward(s.ratchets, t.ratchets) && AllBounded(t, cfg)
    requires t.epochs == s.epochs && t.log.deliveries == s.log.deliveries
    requires Has(t, slot) && user in At(t, slot).senders && SenderReceives(t, Ref(At(t, slot).build, user), y)
    ensures Receives(PutSender(t, slot, user, y), cfg)
  {
    hide InStep, Knows, AllBounded;
    var u, e := PutSender(t, slot, user, y), At(s, slot);
    assert EpochReceives(s, e);
    forall v | v in At(u, slot).senders ensures SenderReceives(u, Ref(e.build, v), At(u, slot).senders[v]) {
      if v != user {
        assert SenderReceives(s, Ref(e.build, v), e.senders[v]);
        StillReceives(s, u, Ref(e.build, v), e.senders[v]);
      }
    }
    assert AllBounded(u, cfg) by { BoundedSame(t, u, cfg); }
    assert EpochReceives(u, At(u, slot));
    forall a | Has(u, a) ensures EpochReceives(u, At(u, a)) || Continues(s, u, a) {
      if a != slot { assert Has(s, a) && At(s, a) == At(u, a); }
    }
    hide Receives;
    ReceivesForward(s, u, cfg);
  }

  lemma BoundedSame(s: State, t: State, cfg: Config)
    requires AllBounded(s, cfg) && t.ratchets == s.ratchets
    ensures AllBounded(t, cfg)
  {
  }

  lemma AuthenticatedReceives(s: State, cfg: Config, slot: Slot, user: UserId, full: uint64)
    requires Receives(s, cfg)
    requires Has(s, slot) && user in At(s, slot).senders && Ref(At(s, slot).build, user) in s.ratchets
    requires KeyAvailable(s, cfg, Ref(At(s, slot).build, user), Generation(full))
    ensures Receives(Authenticated(s, cfg, slot, user, full), cfg)
  {
    var ref, x, g := Ref(At(s, slot).build, user), At(s, slot).senders[user], Generation(full);
    assert SenderReceives(s, ref, x) by { assert EpochReceives(s, At(s, slot)); }
    assert AllBounded(s, cfg);
    hide Receives, KeyAvailable, Generation, GetKey, CommitRatchet, AllBounded, Forward, PutSender;
    var s1 := GetKey(s, cfg, ref, g);
    var s2 := CommitRatchet(s1, cfg, ref, g);
    MediaStepKeepsBoth(s, cfg, ref, g);
    GetKeyForward(s, cfg, ref, g);
    CommitForward(s1, cfg, ref, g);
    ForwardTwice(s.ratchets, s1.ratchets, s2.ratchets);
    CommitReaches(s, cfg, ref, g);
    var y := SenderState(CommitNonce(x.highest, full), Replay.CheckAndMark(x.replay, full).0);
    AttemptInStep(x, s.ratchets[ref].position, s2.ratchets[ref].position, full);
    KnowsMore(s.log.deliveries, ref, x.replay, y.replay);
    PutSenderReceives(s, s2, cfg, slot, user, y);
  }

  lemma ForwardTwice(a: map<Ref, KeyRatchet>, b: map<Ref, KeyRatchet>, c: map<Ref, KeyRatchet>)
    requires Forward(a, b) && Forward(b, c)
    ensures Forward(a, c)
  {
  }

  lemma MediaStepKeepsBoth(s: State, cfg: Config, ref: Ref, g: uint32)
    requires ref in s.ratchets
    ensures GetKey(s, cfg, ref, g).epochs == s.epochs && GetKey(s, cfg, ref, g).log == s.log
    ensures ref in GetKey(s, cfg, ref, g).ratchets
    ensures ref in CommitRatchet(GetKey(s, cfg, ref, g), cfg, ref, g).ratchets
    ensures CommitRatchet(GetKey(s, cfg, ref, g), cfg, ref, g).epochs == s.epochs
    ensures CommitRatchet(GetKey(s, cfg, ref, g), cfg, ref, g).log == s.log
  {
  }

  lemma StillReceives(s: State, t: State, r: Ref, x: SenderState)
    requires SenderReceives(s, r, x) && Forward(s.ratchets, t.ratchets) && t.log.deliveries == s.log.deliveries
    ensures SenderReceives(t, r, x)
  {
  }

  function WithDelivery(s: State, d: Delivery): State {
    s.(log := s.log.(deliveries := s.log.deliveries + [d]))
  }

  lemma NonceOnceGrows(deliveries: seq<Delivery>, d: Delivery)
    requires NonceOnce(deliveries)
    requires forall i :: 0 <= i < |deliveries| && deliveries[i].ref == d.ref ==> deliveries[i].full != d.full
    ensures NonceOnce(deliveries + [d])
  {
  }

  /** Recording a delivery the window has just accepted. */
  lemma DeliverReceives(t: State, cfg: Config, slot: Slot, d: Delivery)
    requires Shape(t, cfg) && Receives(t, cfg) && DeliveryOk(t, cfg, d)
    requires Has(t, slot) && d.user in At(t, slot).senders && d.ref == Ref(At(t, slot).build, d.user)
    requires d.full in At(t, slot).senders[d.user].replay.accepted
    requires forall i :: 0 <= i < |t.log.deliveries| && t.log.deliveries[i].ref == d.ref ==>
             t.log.deliveries[i].full != d.full
    ensures Receives(WithDelivery(t, d), cfg)
  {
    hide F.OpensTo, NonceOf, Generation, Truncated, InStep, NonceOnce, EpochOk, RatchetsOk, Ratchet.Bounded;
    var u := WithDelivery(t, d);
    NonceOnceGrows(t.log.deliveries, d);
    assert DistinctBuilds(t);
    forall a | Has(u, a) ensures EpochReceives(u, At(u, a)) {
      assert Has(t, a) && At(u, a) == At(t, a) && EpochReceives(t, At(t, a));
      forall v | v in At(u, a).senders ensures SenderReceives(u, Ref(At(u, a).build, v), At(u, a).senders[v]) {
        assert SenderReceives(t, Ref(At(t, a).build, v), At(t, a).senders[v]);
        if a != slot { assert At(t, a).build != At(t, slot).build; }
      }
    }
  }

  /** The receiver's view of one attempt, case by case. */
  lemma TryEpochCases(s: State, cfg: Config, user: UserId, packet: seq<byte>, nonce: uint32, room: nat, slot: Slot)
    ensures var (t, o) := TryEpoch(s, cfg, user, packet, nonce, room, slot);
            if !Has(s, slot) || user !in At(s, slot).senders || Ref(At(s, slot).build, user) !in s.ratchets
            then t == s && o == Skip
            else
              var ref, x := Ref(At(s, slot).build, user), At(s, slot).senders[user];
              var full := ExpandTentative(x.highest, nonce);
              var plain := F.OpensTo(cfg.aead, MediaKey(s.ratchets[ref].root, Generation(full)), packet);
              if !KeyAvailable(s, cfg, ref, Generation(full)) || plain.None? || room < |plain.value.0|
              then
                && t == GetKey(s, cfg, ref, Generation(full))
                && o == (if KeyAvailable(s, cfg, ref, Generation(full)) && plain.Some? then TooShort else Refused)
              else if !Replay.Accepts(x.replay, full)
              then t == Authenticated(s, cfg, slot, user, full) && o == Replayed
              else
                && t == WithDelivery(Authenticated(s, cfg, slot, user, full),
                   Delivery(user, packet, ref, full, plain.value.0))
                && o == Delivered(plain.value.0)
  {
    hide F.OpensTo, ExpandTentative, Generation, GetKey, CommitRatchet, PutSender, KeyAvailable, CommitNonce;
  }

  lemma GetKeyReceives(s: State, cfg: Config, ref: Ref, g: uint32)
    requires Receives(s, cfg) && ref in s.ratchets
    ensures Receives(GetKey(s, cfg, ref, g), cfg)
  {
    GetKeyForward(s, cfg, ref, g);
    MediaStepKeepsBoth(s, cfg, ref, g);
    hide GetKey, AllBounded, Forward, EpochReceives, DeliveryOk, NonceOnce;
    var t := GetKey(s, cfg, ref, g);
    forall a | Has(t, a) ensures Continues(s, t, a) {
      assert Has(s, a) && At(s, a) == At(t, a);
    }
    ReceivesForward(s, t, cfg);
  }

  lemma TryEpochReceives(s: State, cfg: Config, user: UserId, packet: seq<byte>, nonce: uint32, room: nat, slot: Slot)
    requires Shape(s, cfg) && Receives(s, cfg) && NonceOf(packet) == Some(nonce)
    ensures Receives(TryEpoch(s, cfg, user, packet, nonce, room, slot).0, cfg)
  {
    TryEpochCases(s, cfg, user, packet, nonce, room, slot);
    hide TryEpoch, Receives, Shape, F.OpensTo, Generation, NonceOf, Authenticated, ExpandTentative;
    if Has(s, slot) && user in At(s, slot).senders && Ref(At(s, slot).build, user) in s.ratchets {
      var ref, x := Ref(At(s, slot).build, user), At(s, slot).senders[user];
      var full := ExpandTentative(x.highest, nonce);
      GetKeyReceives(s, cfg, ref, Generation(full));
      if KeyAvailable(s, cfg, ref, Generation(full)) {
        AuthenticatedReceives(s, cfg, slot, user, full);
        var plain := F.OpensTo(cfg.aead, MediaKey(s.ratchets[ref].root, Generation(full)), packet);
        if plain.Some? && Replay.Accepts(x.replay, full) {
          ExpandTruncates(x.highest, nonce);
          AcceptedDelivery(s, cfg, slot, Delivery(user, packet, ref, full, plain.value.0));
        }
      }
    }
  }

  lemma AcceptedDelivery(s: State, cfg: Config, slot: Slot, d: Delivery)
    requires Shape(s, cfg) && Receives(s, cfg)
    requires Has(s, slot) && d.user in At(s, slot).senders && d.ref in s.ratchets &&
             d.ref == Ref(At(s, slot).build, d.user)
    requires KeyAvailable(s, cfg, d.ref, Generation(d.full)) &&
             Replay.Accepts(At(s, slot).senders[d.user].replay, d.full)
    requires NonceOf(d.packet) == Some(Truncated(d.full))
    requires F.OpensTo(cfg.aead, MediaKey(s.ratchets[d.ref].root, Generation(d.full)), d.packet).Some?
    ensures Receives(WithDelivery(Authenticated(s, cfg, slot, d.user, d.full), d), cfg)
  {
    var t := Authenticated(s, cfg, slot, d.user, d.full);
    var x := At(s, slot).senders[d.user];
    assert SenderReceives(s, d.ref, x) by { assert EpochReceives(s, At(s, slot)); }
    AuthenticatedReceives(s, cfg, slot, d.user, d.full);
    AuthenticatedStep(s, cfg, slot, d.user, d.full);
    ShapeAfterMedia(s, t, cfg);
    hide Shape, Receives, F.OpensTo, Generation, Truncated, NonceOf, MediaStep, Authenticated, KeyAvailable;
    DeliverReceives(t, cfg, slot, d);
  }

  lemma AuthenticatedStep(s: State, cfg: Config, slot: Slot, user: UserId, full: uint64)
    requires Has(s, slot) && user in At(s, slot).senders && Ref(At(s, slot).build, user) in s.ratchets
    ensures var t, ref := Authenticated(s, cfg, slot, user, full), Ref(At(s, slot).build, user);
            && MediaStep(s, t) && t.log == s.log && t.send == s.send
            && Has(t, slot) && At(t, slot).build == At(s, slot).build && user in At(t, slot).senders
            && At(t, slot).senders[user].replay == Replay.CheckAndMark(At(s, slot).senders[user].replay, full).0
            && ref in t.ratchets && t.ratchets[ref].root == s.ratchets[ref].root
  {
    var ref, x := Ref(At(s, slot).build, user), At(s, slot).senders[user];
    var g := Generation(full);
    var s1 := GetKey(s, cfg, ref, g);
    var s2 := CommitRatchet(s1, cfg, ref, g);
    assert s2.send == s.send;
    MediaStepKeepsBoth(s, cfg, ref, g);
    hide GetKey, CommitRatchet, MediaStep, Generation;
    RatchetStep(s, cfg, ref, g);
    MediaStepKeepsRefs(s, s1, ref);
    RatchetStep(s1, cfg, ref, g);
    MediaStepKeepsRefs(s1, s2, ref);
    MediaStepTransitive(s, s1, s2);
    var y := SenderState(CommitNonce(x.highest, full), Replay.CheckAndMark(x.replay, full).0);
    PutSenderStep(s2, slot, user, y);
    MediaStepTransitive(s, s2, PutSender(s2, slot, user, y));
  }

  lemma {:induction false} TryEpochsReceive(s: State, cfg: Config, user: UserId, packet: seq<byte>, nonce: uint32,
                                            room: nat,
                                            slots: seq<Slot>)
    requires Shape(s, cfg) && Receives(s, cfg) && NonceOf(packet) == Some(nonce)
    ensures Receives(TryEpochs(s, cfg, user, packet, nonce, room, slots).0, cfg)
    decreases |slots|
  {
    hide TryEpoch, Shape, Receives, NonceOf, MediaStep;
    if slots != [] {
      var t := TryEpoch(s, cfg, user, packet, nonce, room, slots[0]).0;
      TryEpochReceives(s, cfg, user, packet, nonce, room, slots[0]);
      TryEpochStep(s, cfg, user, packet, nonce, room, slots[0]);
      ShapeAfterMedia(s, t, cfg);
      TryEpochsReceive(t, cfg, user, packet, nonce, room, slots[1..]);
    }
  }

  lemma {:induction false} UnexpiredMember(es: seq<Epoch>, now: Time, i: nat)
    requires i < |Unexpired(es, now)|
    ensures Unexpired(es, now)[i] in es
  {
    if es[0].expiresAt > now {
      if i > 0 { UnexpiredMember(es[1..], now, i - 1); }
    } else {
      UnexpiredMember(es[1..], now, i);
    }
  }

  lemma PruneReceives(s: State, cfg: Config)
    requires Receives(s, cfg)
    ensures Receives(PruneRetained(s), cfg)
  {
    var t := PruneRetained(s);
    BoundedSame(s, t, cfg);
    hide Unexpired, AllBounded, EpochReceives, DeliveryOk, NonceOnce;
    forall a | Has(t, a) ensures Continues(s, t, a) {
      if a.Retained? {
        UnexpiredMember(s.epochs.retained, s.now, a.index);
        var j :| 0 <= j < |s.epochs.retained| && s.epochs.retained[j] == At(t, a);
        assert Has(s, Retained(j)) && At(s, Retained(j)) == At(t, a);
      } else {
        assert Has(s, a) && At(s, a) == At(t, a);
      }
    }
    ReceivesForward(s, t, cfg);
  }

  lemma DecryptReceives(s: State, cfg: Config, user: UserId, packet: seq<byte>, room: nat)
    requires Shape(s, cfg) && Receives(s, cfg)
    ensures Receives(Decrypt(s, cfg, user, packet, room).0, cfg)
  {
    PruneReceives(s, cfg);
    var s0 := PruneRetained(s);
    UnexpiredIsPruned(s.epochs.retained, s.now);
    assert MediaStep(s, s0);
    ShapeAfterMedia(s, s0, cfg);
    hide TryEpochs, Shape, Receives, NonceOf, MediaStep;
    if NonceOf(packet).Some? {
      TryEpochsReceive(s0, cfg, user, packet, NonceOf(packet).value, room, Candidates(s0));
    }
  }

  /** Nothing about receiving changed except that ratchets may have moved forward. */
  lemma ReceivesSameEpochs(s: State, t: State, cfg: Config)
    requires Receives(s, cfg) && t.epochs == s.epochs && t.log.deliveries == s.log.deliveries
    requires Forward(s.ratchets, t.ratchets) && AllBounded(t, cfg)
    ensures Receives(t, cfg)
  {
    hide AllBounded, Forward, EpochReceives, DeliveryOk, NonceOnce;
    forall a | Has(t, a) ensures Continues(s, t, a) {
      assert Has(s, a) && At(s, a) == At(t, a);
    }
    ReceivesForward(s, t, cfg);
  }

  lemma KeyUpReceives(s: State, cfg: Config, ref: Ref, g: uint32)
    requires Receives(s, cfg) && ref in s.ratchets
    ensures Receives(KeyUp(s, cfg, ref, g).0, cfg)
  {
    assert AllBounded(s, cfg);
    hide Receives, AllBounded, Forward, KeyAvailable;
    var s1 := GetKey(s, cfg, ref, g);
    var s2 := CommitRatchet(s1, cfg, ref, g);
    GetKeyForward(s, cfg, ref, g);
    CommitForward(s1, cfg, ref, g);
    ForwardTwice(s.ratchets, s1.ratchets, s2.ratchets);
    var s3 := UseCipher(s2, MediaKey(s.ratchets[ref].root, g));
    BoundedSame(s2, s3, cfg);
    hide GetKey, CommitRatchet;
    MediaStepKeepsBoth(s, cfg, ref, g);
    ReceivesSameEpochs(s, s1, cfg);
    ReceivesSameEpochs(s, s2, cfg);
    ReceivesSameEpochs(s, s3, cfg);
  }

  lemma ForwardSame(r: map<Ref, KeyRatchet>)
    ensures Forward(r, r)
  {
  }

  lemma EncryptReceives(s: State, cfg: Config, frame: seq<byte>, room: nat)
    requires Receives(s, cfg)
    ensures Receives(Encrypt(s, cfg, frame, room).0, cfg)
  {
    assert AllBounded(s, cfg);
    hide Receives, AllBounded, Forward, KeyUp, F.EncryptFrame, NextCounter, Generation, Truncated;
    ForwardSame(s.ratchets);
    var s0 := SelectSendRatchet(s);
    BoundedSame(s, s0, cfg);
    ReceivesSameEpochs(s, s0, cfg);
    var live := LiveRatchet(s0);
    if live.Some? && live.value in s0.ratchets {
      var s1 := s0.(send := s0.send.(counter := NextCounter(s0)));
      BoundedSame(s, s1, cfg);
      ReceivesSameEpochs(s0, s1, cfg);
      var s2 := KeyUp(s1, cfg, live.value, Generation(NextCounter(s0))).0;
      KeyUpReceives(s1, cfg, live.value, Generation(NextCounter(s0)));
      var t := Encrypt(s, cfg, frame, room).0;
      ReceivesRelogged(s2, t, cfg);
    }
  }

  lemma ReceivesRelogged(s: State, t: State, cfg: Config)
    requires Receives(s, cfg) && t.epochs == s.epochs && t.ratchets == s.ratchets &&
             t.log.deliveries == s.log.deliveries
    ensures Receives(t, cfg)
  {
    BoundedSame(s, t, cfg);
    ForwardSame(s.ratchets);
    ReceivesSameEpochs(s, t, cfg);
  }

  lemma CallReceives(s: State, cfg: Config, call: MediaCall)
    requires Shape(s, cfg) && Receives(s, cfg)
    ensures Receives(RunCall(s, cfg, call), cfg)
  {
    hide Shape, Receives, Encrypt, Decrypt;
    match call
    case EncryptCall(frame, room) => EncryptReceives(s, cfg, frame, room);
    case DecryptCall(user, packet, room) => DecryptReceives(s, cfg, user, packet, room);
    case SetChannelBusy(_) => ReceivesRelogged(s, RunCall(s, cfg, call), cfg);
    case Tick(_) => ReceivesRelogged(s, RunCall(s, cfg, call), cfg);
    case Close => ReceivesRelogged(s, RunCall(s, cfg, call), cfg);
  }
}
