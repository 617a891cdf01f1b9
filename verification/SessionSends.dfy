/** No two frames are ever sealed with the same key and nonce. */
module SessionSends {
  import opened Bytes
  import F = Frame
  import opened Nonce
  import opened SessionState
  import opened SessionMedia
  import opened SessionControl
  import opened SessionActions
  import opened SessionFrames
  import opened SessionShape
  import opened SessionGroups
  import opened SessionPaths

  predicate Used(sends: seq<Send>, r: Ref) {
    exists i :: 0 <= i < |sends| && sends[i].ref == r
  }

  /** A ratchet's uses are one stretch of the history, with consecutive counter values. */
  predicate Stretches(sends: seq<Send>) {
    && (forall i, j :: 0 <= i < j < |sends| && sends[i].ref == sends[j].ref ==>
          sends[j].full == (sends[i].full + (j - i)) % TWO64)
    && (forall i, k, j :: 0 <= i < k < j < |sends| && sends[i].ref == sends[j].ref ==> sends[k].ref == sends[i].ref)
  }

  /** What was recorded is what the ratchets and the cipher say. */
  predicate Recorded(s: State, cfg: Config) {
    forall i :: 0 <= i < |s.log.sends| ==>
      var x := s.log.sends[i];
      && x.ref in s.ratchets && x.ref.user == cfg.self && x.root == s.ratchets[x.ref].root
      && (x.sealedWith.Some? ==> x.sealedWith.value == MediaKey(x.root, Generation(x.full)))
  }

  /** The ratchet in use ends the history, at the current counter; one that waits behind
      a retained ratchet, or belongs to a pending epoch, has not been used. */
  ghost predicate Position(send: Sending, pending: Option<Epoch>, sends: seq<Send>) {
    && send.cipher == send.cipherKey
    && (var live := if send.retained.Some? then send.retained else send.current;
        live.Some? && Used(sends, live.value) ==>
          sends[|sends| - 1].ref == live.value && sends[|sends| - 1].full == send.counter)
    && (send.retained.Some? && send.current.Some? ==>
          send.current != send.retained && !Used(sends, send.current.value))
    && (pending.Some? ==> forall u :: NotOf(send, sends, Ref(pending.value.build, u)))
  }

  predicate NotOf(send: Sending, sends: seq<Send>, r: Ref) {
    !Used(sends, r) && send.current != Some(r) && send.retained != Some(r)
  }

  ghost predicate Sends(s: State, cfg: Config) {
    Stretches(s.log.sends) && Recorded(s, cfg) && Position(s.send, s.epochs.pending, s.log.sends)
  }

  // ---- Encrypt ----

  lemma KeyUpFacts(s: State, cfg: Config, ref: Ref, g: uint32)
    requires ref in s.ratchets
    ensures var (t, key) := KeyUp(s, cfg, ref, g);
            && t.send == s.send.(cipher := t.send.cipher, cipherKey := t.send.cipherKey)
            && t.epochs == s.epochs && t.log == s.log && t.channelId == s.channelId
            && (s.send.cipher == s.send.cipherKey ==>
                  t.send.cipher == t.send.cipherKey && (key.Some? ==> key.value == MediaKey(s.ratchets[ref].root, g)))
  {
    hide Ratchet.AfterGetKey, Ratchet.AfterCommit, Ratchet.Available;
  }

  lemma EncryptWithFacts(s: State, cfg: Config, ref: Ref, frame: seq<byte>, room: nat)
    requires ref in s.ratchets && s.send.cipher == s.send.cipherKey
    ensures var t := EncryptWith(s, cfg, ref, frame, room).0;
            && t.send == s.send.(counter := NextCounter(s), cipher := t.send.cipher, cipherKey := t.send.cipher)
            && t.epochs == s.epochs
            && |t.log.sends| == |s.log.sends| + 1
            && var x := t.log.sends[|s.log.sends|];
               && t.log == s.log.(sends := s.log.sends + [x])
               && x.ref == ref && x.root == s.ratchets[ref].root && x.full == NextCounter(s)
               && (x.sealedWith.Some? ==> x.sealedWith.value == MediaKey(x.root, Generation(x.full)))
  {
    hide NextCounter, KeyUp, F.EncryptFrame, Generation, Truncated;
    KeyUpFacts(s.(send := s.send.(counter := NextCounter(s))), cfg, ref, Generation(NextCounter(s)));
  }

  lemma NextInStretch(x: int, k: int)
    ensures ((x + k) % TWO64 + 1) % TWO64 == (x + k + 1) % TWO64
  {
  }

  lemma StretchesGrow(sends: seq<Send>, x: Send, counter: uint64)
    requires Stretches(sends) && x.full == (counter + 1) % TWO64
    requires Used(sends, x.ref) ==> sends[|sends| - 1].ref == x.ref && sends[|sends| - 1].full == counter
    ensures Stretches(sends + [x])
  {
    var all, n := sends + [x], |sends|;
    forall i, j | 0 <= i < j < |all| && all[i].ref == all[j].ref
      ensures all[j].full == (all[i].full + (j - i)) % TWO64
    {
      if j == n {
        assert Used(sends, x.ref);
        if i < n - 1 {
          assert sends[n - 1].full == (sends[i].full + (n - 1 - i)) % TWO64;
          NextInStretch(sends[i].full, n - 1 - i);
        }
      }
    }
    forall i, k, j | 0 <= i < k < j < |all| && all[i].ref == all[j].ref
      ensures all[k].ref == all[i].ref
    {
      if j == n {
        assert Used(sends, x.ref);
        if k < n - 1 { assert sends[i].ref == sends[n - 1].ref; }
      }
    }
  }

  lemma UsedGrows(sends: seq<Send>, x: Send, r: Ref)
    ensures Used(sends + [x], r) <==> Used(sends, r) || r == x.ref
  {
    if Used(sends, r) {
      var i :| 0 <= i < |sends| && sends[i].ref == r;
      assert (sends + [x])[i].ref == r;
    }
    if r == x.ref { assert (sends + [x])[|sends|].ref == r; }
  }

  lemma PositionGrows(s: State, send: Sending, x: Send)
    requires Position(s.send, s.epochs.pending, s.log.sends)
    requires LiveRatchet(s) == Some(x.ref)
    requires send == s.send.(counter := x.full, cipher := send.cipher, cipherKey := send.cipher)
    ensures Position(send, s.epochs.pending, s.log.sends + [x])
  {
    forall r ensures Used(s.log.sends + [x], r) <==> Used(s.log.sends, r) || r == x.ref {
      UsedGrows(s.log.sends, x, r);
    }
    hide Used;
    assert (s.log.sends + [x])[|s.log.sends|] == x;
    if s.epochs.pending.Some? {
      forall u ensures NotOf(send, s.log.sends + [x], Ref(s.epochs.pending.value.build, u)) {
        assert NotOf(s.send, s.log.sends, Ref(s.epochs.pending.value.build, u));
      }
    }
  }

  lemma RecordedGrows(s: State, t: State, cfg: Config, x: Send)
    requires Recorded(s, cfg) && SameRatchets(s.ratchets, t.ratchets) && t.log.sends == s.log.sends + [x]
    requires x.ref in s.ratchets && x.ref.user == cfg.self && x.root == s.ratchets[x.ref].root
    requires x.sealedWith.Some? ==> x.sealedWith.value == MediaKey(x.root, Generation(x.full))
    ensures Recorded(t, cfg)
  {
    hide Generation;
  }

  lemma EncryptWithKeepsSends(s: State, cfg: Config, frame: seq<byte>, room: nat)
    requires Shape(s, cfg) && Sends(s, cfg) && LiveRatchet(s).Some? && LiveRatchet(s).value in s.ratchets
    ensures Sends(EncryptWith(s, cfg, LiveRatchet(s).value, frame, room).0, cfg)
  {
    var ref := LiveRatchet(s).value;
    var t := EncryptWith(s, cfg, ref, frame, room).0;
    EncryptWithFacts(s, cfg, ref, frame, room);
    EncryptWithStep(s, cfg, ref, frame, room);
    hide EncryptWith, Pruned, Generation;
    var x := t.log.sends[|s.log.sends|];
    StretchesGrow(s.log.sends, x, s.send.counter);
    RecordedGrows(s, t, cfg, x);
    PositionGrows(s, t.send, x);
  }

  lemma SelectKeepsSends(s: State, cfg: Config)
    requires Shape(s, cfg) && Sends(s, cfg)
    ensures Shape(SelectSendRatchet(s), cfg) && Sends(SelectSendRatchet(s), cfg)
  {
    var t := SelectSendRatchet(s);
    ShapeAfterDropping(s, t, cfg);
    hide Used, Stretches;
    if s.epochs.pending.Some? {
      forall u ensures NotOf(t.send, t.log.sends, Ref(s.epochs.pending.value.build, u)) {
        assert NotOf(s.send, s.log.sends, Ref(s.epochs.pending.value.build, u));
      }
    }
  }

  lemma EncryptKeepsSends(s: State, cfg: Config, frame: seq<byte>, room: nat)
    requires Shape(s, cfg) && Sends(s, cfg)
    ensures Sends(Encrypt(s, cfg, frame, room).0, cfg)
  {
    SelectKeepsSends(s, cfg);
    hide Shape, Sends, SelectSendRatchet, EncryptWith;
    var s0 := SelectSendRatchet(s);
    var live := LiveRatchet(s0);
    if live.Some? && live.value in s0.ratchets {
      EncryptWithKeepsSends(s0, cfg, frame, room);
    }
  }

  // ---- Decrypt leaves the send side alone ----

  lemma AttemptKeepsSend(s: State, cfg: Config, ref: Ref, g: uint32)
    requires ref in s.ratchets
    ensures GetKey(s, cfg, ref, g).send == s.send && GetKey(s, cfg, ref, g).log == s.log
    ensures CommitRatchet(s, cfg, ref, g).send == s.send && CommitRatchet(s, cfg, ref, g).log == s.log
    ensures ref in GetKey(s, cfg, ref, g).ratchets && GetKey(s, cfg, ref, g).epochs == s.epochs
    ensures CommitRatchet(s, cfg, ref, g).epochs == s.epochs
  {
    hide Ratchet.AfterGetKey, Ratchet.AfterCommit;
  }

  lemma PutSenderKeepsSend(s: State, slot: Slot, user: UserId, x: SenderState)
    requires Has(s, slot)
    ensures PutSender(s, slot, user, x).send == s.send && PutSender(s, slot, user, x).log == s.log
  {
  }

  lemma TryEpochKeepsSend(s: State, cfg: Config, user: UserId, packet: seq<byte>, nonce: uint32, room: nat, slot: Slot)
    ensures var t := TryEpoch(s, cfg, user, packet, nonce, room, slot).0;
            t.send == s.send && t.log == s.log.(deliveries := t.log.deliveries)
  {
    hide F.OpensTo, ExpandTentative, Generation, GetKey, CommitRatchet, KeyAvailable, PutSender, CommitNonce,
         Replay.CheckAndMark;
    if Has(s, slot) && user in At(s, slot).senders && Ref(At(s, slot).build, user) in s.ratchets {
      var ref, x := Ref(At(s, slot).build, user), At(s, slot).senders[user];
      var full := ExpandTentative(x.highest, nonce);
      AttemptKeepsSend(s, cfg, ref, Generation(full));
      var s1 := GetKey(s, cfg, ref, Generation(full));
      AttemptKeepsSend(s1, cfg, ref, Generation(full));
      var y := SenderState(CommitNonce(x.highest, full), Replay.CheckAndMark(x.replay, full).0);
      PutSenderKeepsSend(CommitRatchet(s1, cfg, ref, Generation(full)), slot, user, y);
    }
  }

  lemma {:induction false} TryEpochsKeepSend(s: State, cfg: Config, user: UserId, packet: seq<byte>, nonce: uint32,
                                             room: nat,
                                             slots: seq<Slot>)
    ensures var t := TryEpochs(s, cfg, user, packet, nonce, room, slots).0;
            t.send == s.send && t.log == s.log.(deliveries := t.log.deliveries)
    decreases |slots|
  {
    hide TryEpoch;
    if slots != [] {
      TryEpochKeepsSend(s, cfg, user, packet, nonce, room, slots[0]);
      TryEpochsKeepSend(TryEpoch(s, cfg, user, packet, nonce, room, slots[0]).0, cfg, user, packet, nonce, room,
        slots[1..]);
    }
  }

  lemma DecryptKeepsSend(s: State, cfg: Config, user: UserId, packet: seq<byte>, room: nat)
    ensures var t := Decrypt(s, cfg, user, packet, room).0;
            t.send == s.send && t.log == s.log.(deliveries := t.log.deliveries)
  {
    hide TryEpochs, NonceOf;
    var s0 := PruneRetained(s);
    if NonceOf(packet).Some? {
      TryEpochsKeepSend(s0, cfg, user, packet, NonceOf(packet).value, room, Candidates(s0));
    }
  }

  /** The send side and its history did not change, and the ratchets are the same. */
  lemma SendsUnchanged(s: State, t: State, cfg: Config)
    requires Sends(s, cfg) && t.send == s.send && t.log.sends == s.log.sends && SameRatchets(s.ratchets, t.ratchets)
    requires t.epochs.pending.None? || (s.epochs.pending.Some? &&
             t.epochs.pending.value.build == s.epochs.pending.value.build)
    ensures Sends(t, cfg)
  {
    hide Used, Generation, Stretches;
    if t.epochs.pending.Some? {
      forall u ensures NotOf(t.send, t.log.sends, Ref(t.epochs.pending.value.build, u)) {
        assert NotOf(s.send, s.log.sends, Ref(s.epochs.pending.value.build, u));
      }
    }
  }

  lemma CallKeepsSends(s: State, cfg: Config, call: MediaCall)
    requires Shape(s, cfg) && Sends(s, cfg)
    ensures Sends(RunCall(s, cfg, call), cfg)
  {
    CallStep(s, cfg, call);
    hide Sends, Shape, Encrypt, Decrypt, Pruned;
    match call
    case EncryptCall(frame, room) => EncryptKeepsSends(s, cfg, frame, room);
    case DecryptCall(user, packet, room) =>
      DecryptKeepsSend(s, cfg, user, packet, room);
      SendsUnchanged(s, Decrypt(s, cfg, user, packet, room).0, cfg);
    case SetChannelBusy(_) => SendsUnchanged(s, RunCall(s, cfg, call), cfg);
    case Tick(_) => SendsUnchanged(s, RunCall(s, cfg, call), cfg);
    case Close => SendsUnchanged(s, RunCall(s, cfg, call), cfg);
  }

  // ---- Control actions ----

  lemma SetPendingKeepsSends(s: State, cfg: Config)
    requires HasGroup(s) && Shape(s, cfg) && Sends(s, cfg)
    ensures Sends(SetPending(s), cfg)
  {
    SetPendingFacts(s);
    hide SetPending, NewRatchets, Stretches, Generation;
    var t := SetPending(s);
    forall u ensures NotOf(t.send, t.log.sends, Ref(s.builds, u)) {
    }
  }

  lemma ActivateKeepsSends(s: State, cfg: Config)
    requires s.epochs.pending.Some? && Shape(s, cfg) && Sends(s, cfg)
    ensures Sends(ActivateEpoch(s, cfg), cfg)
  {
    ActivateFacts(s, cfg);
    hide ActivateEpoch, AddsSender, Unexpired, Used, Stretches, Generation;
    assert NotOf(s.send, s.log.sends, Ref(s.epochs.pending.value.build, cfg.self));
  }

  /** Dropping epochs or send keys, or retaining the current ratchet and stopping. */
  lemma SendsAfterReducing(s: State, t: State, cfg: Config)
    requires Sends(s, cfg) && Reduced(s, t)
    ensures Sends(t, cfg)
  {
    hide Used, Stretches, Generation;
    if t.epochs.pending.Some? {
      forall u ensures NotOf(t.send, t.log.sends, Ref(t.epochs.pending.value.build, u)) {
        assert NotOf(s.send, s.log.sends, Ref(s.epochs.pending.value.build, u));
      }
    }
  }

  lemma ActionKeepsSends(s: State, cfg: Config, a: Action)
    requires Shape(s, cfg) && Sends(s, cfg) && Enabled(s, cfg, a)
    ensures Sends(Do(s, cfg, a), cfg)
  {
    hide Shape, Sends, RunCall, ActivateEpoch, SetPending, PeerCommit, Join, WatchDroppedSend, WatchRecovery,
         ArmCommitWatchdog, StartFire, Downgrade, InvalidateMls, ResetGroup, RestorePreCommit, NewGroup;
    if Quiet(a) {
      QuietLeavesUnmoved(s, cfg, a);
      SendsUnchanged(s, Do(s, cfg, a), cfg);
    } else if a.ACall? {
      CallKeepsSends(s, cfg, a.call);
    } else if a.ASoleMember? {
      SetPendingKeepsSends(s, cfg);
    } else if a.ALocalCommit? {
      SendsUnchanged(s, MakeCommit(s, a.commit), cfg);
      ShapeAfterDropping2(s, MakeCommit(s, a.commit), cfg);
      if a.rebuilt { SetPendingKeepsSends(MakeCommit(s, a.commit), cfg); }
    } else if a.APeerCommit? {
      PeerCommitKeepsSends(s, cfg, a.commit, a.rebuilt);
    } else if a.AJoin? {
      JoinKeepsSends(s, cfg, a.welcome);
    } else if a.AActivate? {
      ActivateKeepsSends(s, cfg);
    } else {
      ReducingReduces(s, cfg, a);
      SendsAfterReducing(s, Do(s, cfg, a), cfg);
    }
  }

  lemma ShapeAfterDropping2(s: State, t: State, cfg: Config)
    requires Shape(s, cfg) && t.ratchets == s.ratchets && t.builds == s.builds && t.log.built == s.log.built
    requires t.epochs == s.epochs && t.send == s.send
    ensures Shape(t, cfg)
  {
    ShapeAfterDropping(s, t, cfg);
  }

  lemma PeerCommitKeepsSends(s: State, cfg: Config, c: Commit, rebuilt: bool)
    requires Shape(s, cfg) && Sends(s, cfg) && HasGroup(s)
    ensures Sends(PeerCommit(s, c, rebuilt), cfg)
  {
    hide Shape, Sends, SetPending;
    var g := Apply(TheGroup(s), c);
    var s1 := Announce(SaveGroup(Mint(s, g.term), s.mls.groupId.value, g), c);
    SendsUnchanged(s, Taint(s1), cfg);
    SendsUnchanged(s, s1, cfg);
    ShapeAfterDropping2(s, s1, cfg);
    SetPendingKeepsSends(s1, cfg);
  }

  lemma JoinKeepsSends(s: State, cfg: Config, w: Welcome)
    requires Shape(s, cfg) && Sends(s, cfg) && s.mls.client.Some? && w.joinOk
    ensures Sends(Join(s, w).0, cfg)
  {
    hide Shape, Sends, SetPending;
    var s1 := SaveGroup(Mint(s, w.group.term), w.groupId, w.group);
    var s2 := Adopt(s1, w.group).(mls := s1.mls.(groupId := Some(w.groupId), pendingGroupId := Some(w.groupId)));
    SendsUnchanged(s, Taint(s1), cfg);
    SendsUnchanged(s, Taint(s2), cfg);
    SendsUnchanged(s, s2, cfg);
    ShapeAfterDropping2(s, s2, cfg);
    SetPendingKeepsSends(s2, cfg);
  }

  lemma {:induction false} PathKeepsSends(s: State, cfg: Config, xs: seq<Action>, t: State)
    requires Shape(s, cfg) && Sends(s, cfg) && Path(s, cfg, xs, t)
    ensures Sends(t, cfg)
    decreases |xs|
  {
    hide Enabled, Do, Shape, Sends;
    if xs != [] {
      ActionKeepsShape(s, cfg, xs[0]);
      ActionKeepsSends(s, cfg, xs[0]);
      PathKeepsSends(Do(s, cfg, xs[0]), cfg, xs[1..], t);
    }
  }

  // ---- The theorem ----

  /** How many counter values a ratchet has been used with. */
  function Uses(sends: seq<Send>, r: Ref): nat {
    if sends == [] then 0 else Uses(sends[..|sends| - 1], r) + (if sends[|sends| - 1].ref == r then 1 else 0)
  }

  lemma {:induction false} UsesAtLeast(sends: seq<Send>, r: Ref, i: nat, j: nat)
    requires i < j <= |sends| && forall k :: i <= k < j ==> sends[k].ref == r
    ensures Uses(sends, r) >= j - i
    decreases |sends|
  {
    var rest := sends[..|sends| - 1];
    if j < |sends| {
      UsesAtLeast(rest, r, i, j);
    } else if i < j - 1 {
      UsesAtLeast(rest, r, i, j - 1);
    }
  }

  lemma NotCongruent(a: uint64, k: int)
    requires 0 < k < TWO56
    ensures (a + k) % TWO64 % TWO56 != a % TWO56
  {
    var r := a % TWO56;
    assert (a + k) % TWO64 % TWO56 == (a + k) % TWO56 by { ModOfMod(a + k); }
    assert (a + k) % TWO56 == (r + k) % TWO56;
  }

  lemma ModOfMod(x: nat)
    ensures x % TWO64 % TWO56 == x % TWO56
  {
    assert x == x / TWO64 * TWO64 + x % TWO64;
    assert TWO64 == 256 * TWO56;
  }

  /** In any reachable state: two frames sealed with fewer than 2^56 uses of their ratchet
      never share key and truncated nonce. */
  lemma SealsDiffer(s: State, cfg: Config, i: nat, j: nat)
    requires Shape(s, cfg) && Fresh(s) && Sends(s, cfg) && NoDup(s.log.minted)
    requires i < j < |s.log.sends|
    requires s.log.sends[i].sealedWith.Some? && s.log.sends[j].sealedWith.Some?
    requires Uses(s.log.sends, s.log.sends[i].ref) <= TWO56
    ensures s.log.sends[i].sealedWith != s.log.sends[j].sealedWith
            || Truncated(s.log.sends[i].full) != Truncated(s.log.sends[j].full)
  {
    var x, y := s.log.sends[i], s.log.sends[j];
    if x.sealedWith == y.sealedWith && Truncated(x.full) == Truncated(y.full) {
      hide Generation, Truncated, Used, Position, DistinctBuilds, EpochOk, AllMinted, Unbuilt, Uses;
      assert x.root == y.root && Generation(x.full) == Generation(y.full);
      assert s.log.built[x.ref.build] == s.log.built[y.ref.build];
      assert x.ref == y.ref;
      SealedWithDetermines(x.full, y.full);
      UsesAtLeast(s.log.sends, x.ref, i, j + 1);
      NotCongruent(x.full, j - i);
      assert false;
    }
  }

  lemma ReachableSends(cfg: Config, es: seq<Event>)
    ensures var t := Run(Init(), cfg, es); Sound(t, cfg) && Sends(t, cfg)
  {
    RunLeads(Init(), cfg, es);
    var t := Run(Init(), cfg, es);
    var xs :| Path(Init(), cfg, xs, t);
    InitSound(cfg);
    assert Sends(Init(), cfg);
    hide Path, Run, Sends, Shape, Fresh, Sound;
    PathKeepsSends(Init(), cfg, xs, t);
    PathKeepsSound(Init(), cfg, xs, t);
  }

  /** In every run, no two frames are sealed with the same ratchet secret, generation and
      truncated nonce, and so the cipher is never called twice with the same key and 96-bit
      nonce, provided the MLS library never repeats a state and no ratchet is used more than
      2^56 times. */
  lemma NonceUniqueness(cfg: Config, es: seq<Event>, i: nat, j: nat)
    requires var log := Run(Init(), cfg, es).log;
             && NoDup(log.minted) && i < j < |log.sends|
             && log.sends[i].sealedWith.Some? && log.sends[j].sealedWith.Some?
             && Uses(log.sends, log.sends[i].ref) <= TWO56
    ensures var log := Run(Init(), cfg, es).log;
            log.sends[i].sealedWith != log.sends[j].sealedWith
            || (&& Truncated(log.sends[i].full) != Truncated(log.sends[j].full)
                && F.FullNonce(Truncated(log.sends[i].full)) != F.FullNonce(Truncated(log.sends[j].full)))
  {
    ReachableSends(cfg, es);
    hide Run, Sends, Shape, Fresh, GroupIds, Uses, NoDup, Truncated, F.FullNonce;
    SealsDiffer(Run(Init(), cfg, es), cfg, i, j);
    var log := Run(Init(), cfg, es).log;
    if F.FullNonce(Truncated(log.sends[i].full)) == F.FullNonce(Truncated(log.sends[j].full)) {
      F.FullNonceInjective(Truncated(log.sends[i].full), Truncated(log.sends[j].full));
    }
  }
}
