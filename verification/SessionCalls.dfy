/** What Encrypt and Decrypt answer, case by case: which frames leave in the clear, which
    are let through unencrypted, and what becomes of every DAVE frame. */
module SessionCalls {
  import opened Bytes
  import opened Nonce
  import F = Frame
  import opened SessionState
  import opened SessionMedia
  import opened SessionControl
  import opened SessionShape
  import opened SessionGroups
  import opened SessionConvergence
  import opened SessionReceives
  import opened SessionReplays
  import opened SessionDelivery
  import SessionSends
  import Replay
  import Ratchet

  // ---- Encrypt ----

  /** The ratchet and the counter value the next frame is for: the retained ratchet until
      its time, then the current one, with the count started over. */
  predicate Expired(s: State) { s.send.retained.Some? && s.now >= s.send.retainedExpires }

  function NextRatchet(s: State): Option<Ref> {
    if s.send.retained.Some? && !Expired(s) then s.send.retained else s.send.current
  }

  function NextValue(s: State): uint64 { if Expired(s) then 1 else (s.send.counter + 1) % TWO64 }

  lemma SelectedRatchet(s: State)
    ensures var s0 := SelectSendRatchet(s);
            && LiveRatchet(s0) == NextRatchet(s) && NextCounter(s0) == NextValue(s)
            && s0 == s.(send := s0.send, log := s0.log) && s0.send.cipher == s.send.cipher
            && s0.send.cipherKey == s.send.cipherKey
  {
  }

  /** Without a ratchet: refused exactly in a strict session whose sending version is not 0,
      and otherwise the frame itself, if the buffer holds it. */
  lemma EncryptWithoutRatchet(s: State, cfg: Config, frame: seq<byte>, room: nat)
    requires NextRatchet(s).None?
    ensures Encrypt(s, cfg, frame, room).1
            == if cfg.strictEncrypt && s.version.sending != 0 then Err(MissingKeyRatchet)
               else if room >= |frame| then Ok(frame) else Err(ShortBuffer)
  {
    SelectedRatchet(s);
    hide SelectSendRatchet, EncryptWith;
  }

  /** With one: the frame sealed under the ratchet's key for the next counter value, exactly
      when that key can be had, the frame can be sealed and the buffer holds it. */
  lemma EncryptWithRatchet(s: State, cfg: Config, frame: seq<byte>, room: nat)
    requires NextRatchet(s).Some? && NextRatchet(s).value in s.ratchets && s.send.cipher == s.send.cipherKey
    ensures var ref, n := NextRatchet(s).value, NextValue(s);
            var sealed := F.EncryptFrame(cfg.aead, MediaKey(s.ratchets[ref].root, Generation(n)), frame, Truncated(n),
                                         []);
            var r := Encrypt(s, cfg, frame, room).1;
            && (r.Ok? <==> KeyAvailable(s, cfg, ref, Generation(n)) && sealed.Ok? && |sealed.value| <= room)
            && (r.Ok? ==> r == Ok(sealed.value))
  {
    SelectedRatchet(s);
    var s0, ref := SelectSendRatchet(s), NextRatchet(s).value;
    hide SelectSendRatchet, EncryptWith, F.EncryptFrame, Generation, Truncated, NextCounter, KeyAvailable;
    UseExactly(s0, cfg, ref, frame, room);
    assert KeyAvailable(s0, cfg, ref, Generation(NextValue(s))) == KeyAvailable(s, cfg, ref, Generation(NextValue(s)))
    by { SameKeys(s, s0, cfg, ref, Generation(NextValue(s))); }
  }

  lemma SameKeys(s: State, t: State, cfg: Config, ref: Ref, g: uint32)
    requires ref in s.ratchets && t.ratchets == s.ratchets && t.now == s.now
    ensures KeyAvailable(t, cfg, ref, g) == KeyAvailable(s, cfg, ref, g)
  {
  }

  lemma UseExactly(s: State, cfg: Config, ref: Ref, frame: seq<byte>, room: nat)
    requires ref in s.ratchets && s.send.cipher == s.send.cipherKey
    ensures var n := NextCounter(s);
            var sealed := F.EncryptFrame(cfg.aead, MediaKey(s.ratchets[ref].root, Generation(n)), frame, Truncated(n),
                                         []);
            var r := EncryptWith(s, cfg, ref, frame, room).1;
            && (r.Ok? <==> KeyAvailable(s, cfg, ref, Generation(n)) && sealed.Ok? && |sealed.value| <= room)
            && (r.Ok? ==> r == Ok(sealed.value))
  {
    hide KeyUp, F.EncryptFrame, Generation, Truncated, NextCounter, KeyAvailable;
    var n := NextCounter(s);
    var s1 := s.(send := s.send.(counter := n));
    KeyUpExactly(s1, cfg, ref, Generation(n));
    SameKeys(s, s1, cfg, ref, Generation(n));
    InvalidKeyRefused(cfg, MediaKey(s.ratchets[ref].root, Generation(n)), frame, Truncated(n));
  }

  lemma KeyUpExactly(s: State, cfg: Config, ref: Ref, g: uint32)
    requires ref in s.ratchets && s.send.cipher == s.send.cipherKey
    ensures var key := MediaKey(s.ratchets[ref].root, g);
            var c := KeyUp(s, cfg, ref, g).1;
            && (c.Some? ==> c == Some(key) && KeyAvailable(s, cfg, ref, g))
            && (KeyAvailable(s, cfg, ref, g) && cfg.aead.validKey(key) ==> c.Some?)
  {
    hide GetKey, CommitRatchet, KeyAvailable;
    KeyMovesKeepSend(s, cfg, ref, g);
  }

  lemma KeyMovesKeepSend(s: State, cfg: Config, ref: Ref, g: uint32)
    requires ref in s.ratchets
    ensures var t := GetKey(s, cfg, ref, g);
            && t.send == s.send && ref in t.ratchets && CommitRatchet(t, cfg, ref, g).send == s.send
  {
  }

  /** A frame that was sealed has moved its ratchet to the frame's generation, so that earlier
      ones are no longer derived; no other ratchet has moved. */
  lemma EncryptAdvances(s: State, cfg: Config, frame: seq<byte>, room: nat)
    requires NextRatchet(s).Some? && NextRatchet(s).value in s.ratchets && s.send.cipher == s.send.cipherKey
    requires Ratchet.Bounded(s.ratchets[NextRatchet(s).value].position, cfg.maxGap)
    requires Encrypt(s, cfg, frame, room).1.Ok?
    ensures var ref, g, t := NextRatchet(s).value, Generation(NextValue(s)), Encrypt(s, cfg, frame, room).0;
            && t.ratchets.Keys == s.ratchets.Keys
            && t.ratchets[ref].position.base
               == (if g > s.ratchets[ref].position.base then g else s.ratchets[ref].position.base)
            && forall r :: r in s.ratchets && r != ref ==> t.ratchets[r] == s.ratchets[r]
  {
    SelectedRatchet(s);
    EncryptWithRatchet(s, cfg, frame, room);
    var s0, ref := SelectSendRatchet(s), NextRatchet(s).value;
    hide SelectSendRatchet, F.EncryptFrame, Generation, Truncated, NextCounter, KeyUp, Ratchet.Bounded;
    var s1 := s0.(send := s0.send.(counter := NextValue(s)));
    KeyUpAdvances(s1, cfg, ref, Generation(NextValue(s)));
  }

  lemma KeyUpAdvances(s: State, cfg: Config, ref: Ref, g: uint32)
    requires ref in s.ratchets && KeyAvailable(s, cfg, ref, g)
    requires Ratchet.Bounded(s.ratchets[ref].position, cfg.maxGap)
    ensures var t, p := KeyUp(s, cfg, ref, g).0, s.ratchets[ref].position;
            && t.ratchets.Keys == s.ratchets.Keys
            && t.ratchets[ref].position.base == (if g > p.base then g else p.base)
            && forall r :: r in s.ratchets && r != ref ==> t.ratchets[r] == s.ratchets[r]
  {
    var p := s.ratchets[ref].position;
    var q := Ratchet.AfterGetKey(p, cfg.maxGap, KEY_RETENTION, s.now, g);
    Ratchet.StepsKeepBounded(p, cfg.maxGap, KEY_RETENTION, s.now, g);
    Ratchet.CommitNotClamped(p, cfg.maxGap, s.now, g);
    hide Ratchet.AfterGetKey, Ratchet.Available, Ratchet.Bounded;
  }

  lemma InvalidKeyRefused(cfg: Config, key: MediaKey, frame: seq<byte>, nonce: uint32)
    ensures !cfg.aead.validKey(key) ==> F.EncryptFrame(cfg.aead, key, frame, nonce, []).Err?
  {
  }

  /** In every run, while a strict session's sending version is not 0, whatever Encrypt
      returns opens under its ratchet's key: nothing leaves in the clear. */
  lemma StrictNeverClear(cfg: Config, es: seq<Event>, frame: seq<byte>, room: nat)
    requires var s := Run(Init(), cfg, es);
             cfg.strictEncrypt && s.version.sending != 0 && |frame| < TWO32 && Encrypt(s, cfg, frame, room).1.Ok?
    ensures var s := Run(Init(), cfg, es);
            var packet := Encrypt(s, cfg, frame, room).1.value;
            && NextRatchet(s).Some? && NextRatchet(s).value in s.ratchets && F.LooksLikeDaveFrame(packet)
            && F.OpensTo(cfg.aead, MediaKey(s.ratchets[NextRatchet(s).value].root, Generation(NextValue(s))), packet)
               == Some((frame, Truncated(NextValue(s))))
  {
    SessionSends.ReachableSends(cfg, es);
    var s := Run(Init(), cfg, es);
    assert s.send.cipher == s.send.cipherKey && (NextRatchet(s).Some? ==> NextRatchet(s).value in s.ratchets)
    by { SendSideReady(s, cfg); }
    hide Run, SessionSends.Sends, Sound, Encrypt, F.EncryptFrame, F.OpensTo, Generation, Truncated, NextRatchet,
         NextValue, KeyAvailable;
    if NextRatchet(s).None? {
      EncryptWithoutRatchet(s, cfg, frame, room);
    } else {
      EncryptWithRatchet(s, cfg, frame, room);
      var n := NextValue(s);
      var key := MediaKey(s.ratchets[NextRatchet(s).value].root, Generation(n));
      NonceOfEncrypted(cfg, key, frame, Truncated(n), Encrypt(s, cfg, frame, room).1.value);
    }
  }

  lemma SendSideReady(s: State, cfg: Config)
    requires Sound(s, cfg) && SessionSends.Sends(s, cfg)
    ensures s.send.cipher == s.send.cipherKey && (NextRatchet(s).Some? ==> NextRatchet(s).value in s.ratchets)
  {
    hide Fresh, GroupIds, RatchetsOk, DistinctBuilds, SessionSends.Stretches, SessionSends.Recorded;
  }

  // ---- Decrypt: what is not a DAVE frame ----

  /** Shorter than 11 bytes, or not ending in 0xFA twice: handed through unchanged exactly
      when the buffer holds it and plaintext is not refused, which it is only once a
      rejection time has passed at a non-zero version, and never for the silence packet. */
  lemma PlaintextPassesExactly(s: State, cfg: Config, user: UserId, packet: seq<byte>, room: nat)
    requires |packet| < 11 || packet[|packet| - 2..] != [0xFA, 0xFA]
    ensures var (t, r) := Decrypt(s, cfg, user, packet, room);
            && t == s && (r.Ok? ==> r.value == packet)
            && (r.Ok? <==>
                  && room >= |packet|
                  && (|| s.version.protocol == 0 || s.version.plaintextRejectedFrom.None?
                      || s.now < s.version.plaintextRejectedFrom.value || packet == [0xF8, 0xFF, 0xFE]))
  {
    if |packet| >= 11 { assert packet[|packet| - 2..] == [packet[|packet| - 2], packet[|packet| - 1]]; }
  }

  /** What ends like a DAVE frame but is none is refused in every state. */
  lemma MalformedRefused(s: State, cfg: Config, user: UserId, packet: seq<byte>, room: nat)
    requires |packet| >= 11 && packet[|packet| - 2..] == [0xFA, 0xFA] && !exists f :: F.Prints(f, packet)
    ensures Decrypt(s, cfg, user, packet, room).0 == s && Decrypt(s, cfg, user, packet, room).1.Err?
  {
    assert packet[|packet| - 2] == packet[|packet| - 2..][0] && packet[|packet| - 1] == packet[|packet| - 2..][1];
  }

  // ---- Decrypt: DAVE frames ----

  /** The candidate's key can be had for the counter value its expander reads off the nonce,
      and the packet opens under it. */
  ghost predicate Opens(s: State, cfg: Config, user: UserId, packet: seq<byte>, nonce: uint32, slot: Slot) {
    && Has(s, slot) && user in At(s, slot).senders && Ref(At(s, slot).build, user) in s.ratchets
    && KeyAvailable(s, cfg, Ref(At(s, slot).build, user), Generation(Value(s, user, nonce, slot)))
    && F.OpensTo(cfg.aead, KeyOf(s, user, nonce, slot), packet).Some?
  }

  function Value(s: State, user: UserId, nonce: uint32, slot: Slot): uint64
    requires Has(s, slot) && user in At(s, slot).senders
  {
    ExpandTentative(At(s, slot).senders[user].highest, nonce)
  }

  function KeyOf(s: State, user: UserId, nonce: uint32, slot: Slot): MediaKey
    requires Has(s, slot) && user in At(s, slot).senders && Ref(At(s, slot).build, user) in s.ratchets
  {
    MediaKey(s.ratchets[Ref(At(s, slot).build, user)].root, Generation(Value(s, user, nonce, slot)))
  }

  /** The answer once a candidate's key opens the packet. */
  ghost function Answer(s: State, cfg: Config, user: UserId, packet: seq<byte>, nonce: uint32, room: nat, slot: Slot)
    : Result<seq<byte>, MediaError>
    requires Opens(s, cfg, user, packet, nonce, slot)
  {
    var plain := F.OpensTo(cfg.aead, KeyOf(s, user, nonce, slot), packet).value.0;
    if room < |plain| then Err(ShortBuffer)
    else if Unseen(At(s, slot).senders[user].replay, Value(s, user, nonce, slot)) then Ok(plain)
    else Err(DecryptionFailed)
  }

  /** What one attempt leaves as it was: every other candidate. */
  predicate SameThere(s: State, t: State, user: UserId, slot: Slot) {
    && Has(t, slot) == Has(s, slot) && t.now == s.now
    && (Has(s, slot) ==>
          && At(t, slot) == At(s, slot)
          && var ref := Ref(At(s, slot).build, user);
             (ref in s.ratchets <==> ref in t.ratchets) && (ref in s.ratchets ==> t.ratchets[ref] == s.ratchets[ref]))
  }

  lemma OthersStay(s: State, cfg: Config, user: UserId, packet: seq<byte>, nonce: uint32, room: nat, slot: Slot,
                   other: Slot)
    requires DistinctBuilds(s) && other != slot
    ensures SameThere(s, TryEpoch(s, cfg, user, packet, nonce, room, slot).0, user, other)
  {
    TryEpochCases(s, cfg, user, packet, nonce, room, slot);
    hide TryEpoch, F.OpensTo, Generation, ExpandTentative, KeyAvailable, CommitNonce, Replay.CheckAndMark,
         Replay.Accepts, Ratchet.AfterGetKey, Ratchet.AfterCommit;
  }

  lemma SameOpens(s: State, t: State, cfg: Config, user: UserId, packet: seq<byte>, nonce: uint32, room: nat,
                  slot: Slot)
    requires SameThere(s, t, user, slot)
    ensures Opens(s, cfg, user, packet, nonce, slot) == Opens(t, cfg, user, packet, nonce, slot)
    ensures Opens(s, cfg, user, packet, nonce, slot) ==>
              Answer(s, cfg, user, packet, nonce, room, slot) == Answer(t, cfg, user, packet, nonce, room, slot)
  {
    hide F.OpensTo, Generation, ExpandTentative, Unseen;
  }

  predicate Unique(slots: seq<Slot>) { forall i, j :: 0 <= i < j < |slots| ==> slots[i] != slots[j] }

  lemma {:induction false} NoneOpens(s: State, cfg: Config, user: UserId, packet: seq<byte>, nonce: uint32, room: nat,
                                     slots: seq<Slot>)
    requires Shape(s, cfg) && Unique(slots) && forall x :: x in slots ==> !Opens(s, cfg, user, packet, nonce, x)
    ensures TryEpochs(s, cfg, user, packet, nonce, room, slots).1 == Err(DecryptionFailed)
    decreases |slots|
  {
    hide TryEpoch, Opens, Shape, MediaStep;
    if slots != [] {
      var (t, o) := TryEpoch(s, cfg, user, packet, nonce, room, slots[0]);
      ClosedRefuses(s, cfg, user, packet, nonce, room, slots[0]);
      TryEpochStep(s, cfg, user, packet, nonce, room, slots[0]);
      ShapeAfterMedia(s, t, cfg);
      forall x | x in slots[1..] ensures !Opens(t, cfg, user, packet, nonce, x) {
        OtherOpens(s, cfg, user, packet, nonce, room, slots[0], x);
      }
      NoneOpens(t, cfg, user, packet, nonce, room, slots[1..]);
    }
  }

  lemma OtherOpens(s: State, cfg: Config, user: UserId, packet: seq<byte>, nonce: uint32, room: nat, slot: Slot,
                   other: Slot)
    requires Shape(s, cfg) && other != slot
    ensures var t := TryEpoch(s, cfg, user, packet, nonce, room, slot).0;
            && Opens(s, cfg, user, packet, nonce, other) == Opens(t, cfg, user, packet, nonce, other)
            && (Opens(s, cfg, user, packet, nonce, other) ==>
                  Answer(s, cfg, user, packet, nonce, room, other) == Answer(t, cfg, user, packet, nonce, room, other))
  {
    assert DistinctBuilds(s);
    hide TryEpoch, Shape, Opens, Answer, SameThere, DistinctBuilds;
    OthersStay(s, cfg, user, packet, nonce, room, slot, other);
    SameOpens(s, TryEpoch(s, cfg, user, packet, nonce, room, slot).0, cfg, user, packet, nonce, room, other);
  }

  lemma ClosedRefuses(s: State, cfg: Config, user: UserId, packet: seq<byte>, nonce: uint32, room: nat, slot: Slot)
    requires !Opens(s, cfg, user, packet, nonce, slot)
    ensures var o := TryEpoch(s, cfg, user, packet, nonce, room, slot).1; o == Skip || o == Refused
  {
    TryEpochCases(s, cfg, user, packet, nonce, room, slot);
    hide TryEpoch, F.OpensTo, Generation, ExpandTentative, KeyAvailable, GetKey, Authenticated;
  }

  lemma OpenAnswers(s: State, cfg: Config, user: UserId, packet: seq<byte>, nonce: uint32, room: nat, slot: Slot)
    requires Opens(s, cfg, user, packet, nonce, slot)
    ensures var o := TryEpoch(s, cfg, user, packet, nonce, room, slot).1;
            var r := Answer(s, cfg, user, packet, nonce, room, slot);
            if r.Ok? then o == Delivered(r.value) else if r.error == ShortBuffer then o == TooShort else o == Replayed
  {
    TryEpochCases(s, cfg, user, packet, nonce, room, slot);
    hide TryEpoch, F.OpensTo, Generation, ExpandTentative, KeyAvailable, GetKey, Authenticated;
  }

  lemma {:induction false} OneOpens(s: State, cfg: Config, user: UserId, packet: seq<byte>, nonce: uint32, room: nat,
                                    slots: seq<Slot>, slot: Slot)
    requires Shape(s, cfg) && Unique(slots) && slot in slots && Opens(s, cfg, user, packet, nonce, slot)
    requires forall x :: x in slots && x != slot ==> !Opens(s, cfg, user, packet, nonce, x)
    ensures TryEpochs(s, cfg, user, packet, nonce, room, slots).1
            == Answer(s, cfg, user, packet, nonce, room, slot)
    decreases |slots|
  {
    hide TryEpoch, Opens, Answer, Shape, MediaStep;
    var (t, o) := TryEpoch(s, cfg, user, packet, nonce, room, slots[0]);
    TryEpochStep(s, cfg, user, packet, nonce, room, slots[0]);
    ShapeAfterMedia(s, t, cfg);
    forall x | x in slots[1..]
      ensures Opens(t, cfg, user, packet, nonce, x) == Opens(s, cfg, user, packet, nonce, x)
    {
      OtherOpens(s, cfg, user, packet, nonce, room, slots[0], x);
    }
    if slots[0] == slot {
      OpenAnswers(s, cfg, user, packet, nonce, room, slot);
      AnswerKinds(s, cfg, user, packet, nonce, room, slot);
      NoneOpens(t, cfg, user, packet, nonce, room, slots[1..]);
    } else {
      ClosedRefuses(s, cfg, user, packet, nonce, room, slots[0]);
      OtherOpens(s, cfg, user, packet, nonce, room, slots[0], slot);
      OneOpens(t, cfg, user, packet, nonce, room, slots[1..], slot);
    }
  }

  lemma AnswerKinds(s: State, cfg: Config, user: UserId, packet: seq<byte>, nonce: uint32, room: nat, slot: Slot)
    requires Opens(s, cfg, user, packet, nonce, slot)
    ensures var r := Answer(s, cfg, user, packet, nonce, room, slot);
            r.Ok? || r == Err(ShortBuffer) || r == Err(DecryptionFailed)
  {
  }

  lemma CandidatesUnique(s: State)
    ensures Unique(Candidates(s)) && forall slot :: slot in Candidates(s) <== Has(s, slot)
  {
    forall slot | Has(s, slot) ensures slot in Candidates(s) {
      SlotIsCandidate(s, slot);
    }
  }

  /** A packet that opens under one key opens for one candidate. */
  lemma OpensForOne(s: State, cfg: Config, user: UserId, packet: seq<byte>, nonce: uint32, a: Slot, b: Slot)
    requires Shape(s, cfg) && NoDup(s.log.built) && OpensOnce(cfg, packet)
    requires Opens(s, cfg, user, packet, nonce, a) && Opens(s, cfg, user, packet, nonce, b)
    ensures a == b
  {
    assert RatchetsOk(s) && DistinctBuilds(s);
    hide Shape, F.OpensTo, Generation, ExpandTentative, KeyAvailable, NoDup, RatchetsOk;
    assert KeyOf(s, user, nonce, a) == KeyOf(s, user, nonce, b);
    RootIdentifiesRatchet(s, Ref(At(s, a).build, user), Ref(At(s, b).build, user));
  }

  /** A DAVE frame under the ideal-tag assumption: if some unexpired epoch opens it, the
      answer is its plaintext, unless the buffer is too short or the window refuses the
      counter value; if none does, it is refused. */
  lemma DecryptAnswers(s: State, cfg: Config, user: UserId, packet: seq<byte>, nonce: uint32, room: nat)
    requires Shape(s, cfg) && NoDup(s.log.built) && OpensOnce(cfg, packet)
    requires F.LooksLikeDaveFrame(packet) && NonceOf(packet) == Some(nonce)
    ensures forall slot :: Opens(PruneRetained(s), cfg, user, packet, nonce, slot) ==>
              Decrypt(s, cfg, user, packet, room).1 == Answer(PruneRetained(s), cfg, user, packet, nonce, room, slot)
    ensures (forall slot :: !Opens(PruneRetained(s), cfg, user, packet, nonce, slot)) ==>
              Decrypt(s, cfg, user, packet, room).1 == Err(DecryptionFailed)
  {
    hide Shape, NoDup, OpensOnce, NonceOf, Opens, Answer, TryEpochs, PruneRetained, Unique, MediaStep;
    var s0 := PruneRetained(s);
    PruneStep(s);
    ShapeAfterMedia(s, s0, cfg);
    PruneLeavesLog(s);
    CandidatesUnique(s0);
    if slot :| Opens(s0, cfg, user, packet, nonce, slot) {
      forall x | Opens(s0, cfg, user, packet, nonce, x) ensures x == slot {
        OpensForOne(s0, cfg, user, packet, nonce, x, slot);
      }
      assert Has(s0, slot) by { OpensHas(s0, cfg, user, packet, nonce, slot); }
      OneOpens(s0, cfg, user, packet, nonce, room, Candidates(s0), slot);
    } else {
      NoneOpens(s0, cfg, user, packet, nonce, room, Candidates(s0));
    }
  }

  lemma PruneLeavesLog(s: State)
    ensures PruneRetained(s).log == s.log
  {
  }

  lemma OpensHas(s: State, cfg: Config, user: UserId, packet: seq<byte>, nonce: uint32, slot: Slot)
    requires Opens(s, cfg, user, packet, nonce, slot)
    ensures Has(s, slot)
  {
  }

  /** The same in every run. */
  lemma DecryptInRuns(cfg: Config, es: seq<Event>, user: UserId, packet: seq<byte>, nonce: uint32, room: nat)
    requires NoDup(Run(Init(), cfg, es).log.minted) && OpensOnce(cfg, packet)
    requires F.LooksLikeDaveFrame(packet) && NonceOf(packet) == Some(nonce)
    ensures var s := Run(Init(), cfg, es);
            var s0 := PruneRetained(s);
            && (forall slot :: Opens(s0, cfg, user, packet, nonce, slot) ==>
                  Decrypt(s, cfg, user, packet, room).1 == Answer(s0, cfg, user, packet, nonce, room, slot))
            && ((forall slot :: !Opens(s0, cfg, user, packet, nonce, slot)) ==>
                  Decrypt(s, cfg, user, packet, room).1 == Err(DecryptionFailed))
  {
    ReachableGroups(cfg, es);
    var s := Run(Init(), cfg, es);
    hide Run, Shape, NoDup, OpensOnce, NonceOf, Opens, Answer, Decrypt, PruneRetained, IdsAgree, Agrees, GroupIds,
         AllMinted, Unbuilt;
    DecryptAnswers(s, cfg, user, packet, nonce, room);
  }
}
