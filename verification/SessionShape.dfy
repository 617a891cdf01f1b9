/** Structural invariants of the session: epochs and ratchets, group ids, and which
    group states have been turned into epochs. */
module SessionShape {
  import opened Bytes
  import opened SessionState
  import opened SessionMedia
  import opened SessionControl
  import opened SessionActions
  import opened SessionFrames

  // ---- Epochs and ratchets ----

  predicate EpochOk(s: State, e: Epoch) {
    && e.build < |s.log.built| && e.term == s.log.built[e.build]
    && (forall u :: u in e.senders ==> Ref(e.build, u) in s.ratchets)
  }

  predicate RatchetsOk(s: State) {
    && |s.log.built| == s.builds
    && (forall r :: r in s.ratchets ==> r.build < s.builds && s.ratchets[r].root == Root(s.log.built[r.build], r.user))
  }

  ghost predicate DistinctBuilds(s: State) {
    forall a, b :: Has(s, a) && Has(s, b) && a != b ==> At(s, a).build != At(s, b).build
  }

  predicate SendRefOk(s: State, cfg: Config, r: Option<Ref>) {
    r.Some? ==> r.value in s.ratchets && r.value.user == cfg.self
  }

  /** Every epoch has its own ratchets, no two epochs in use share any, and the send
      side points at ratchets of this user. */
  ghost predicate Shape(s: State, cfg: Config) {
    && RatchetsOk(s)
    && (forall a :: Has(s, a) ==> EpochOk(s, At(s, a)))
    && DistinctBuilds(s)
    && SendRefOk(s, cfg, s.send.current) && SendRefOk(s, cfg, s.send.retained)
  }

  /** The slot of s that a slot of t continues, when t only received, sent and pruned. */
  function Before(kept: seq<nat>, a: Slot): Slot {
    match a
    case Retained(i) => if i < |kept| then Retained(kept[i]) else a
    case _ => a
  }

  lemma ContinuesSlot(s: State, t: State, kept: seq<nat>, a: Slot)
    requires SameOption(s.epochs.active, t.epochs.active) && SameOption(s.epochs.pending, t.epochs.pending)
    requires PrunedBy(s.epochs.retained, t.epochs.retained, kept) && Has(t, a)
    ensures Has(s, Before(kept, a)) && SameEpoch(At(s, Before(kept, a)), At(t, a))
  {
  }

  lemma BeforeDistinct(s: State, t: State, kept: seq<nat>, a: Slot, b: Slot)
    requires PrunedBy(s.epochs.retained, t.epochs.retained, kept) && Has(t, a) && Has(t, b) && a != b
    ensures Before(kept, a) != Before(kept, b)
  {
    if a.Retained? && b.Retained? {
      if a.index < b.index { assert kept[a.index] < kept[b.index]; }
      else { assert kept[b.index] < kept[a.index]; }
    }
  }

  lemma ShapeAfterMedia(s: State, t: State, cfg: Config)
    requires Shape(s, cfg) && MediaStep(s, t)
    ensures Shape(t, cfg)
  {
    var kept :| PrunedBy(s.epochs.retained, t.epochs.retained, kept);
    hide PrunedBy, Pruned;
    forall a | Has(t, a) ensures EpochOk(t, At(t, a)) {
      ContinuesSlot(s, t, kept, a);
      assert EpochOk(s, At(s, Before(kept, a)));
    }
    forall a, b | Has(t, a) && Has(t, b) && a != b ensures At(t, a).build != At(t, b).build {
      ContinuesSlot(s, t, kept, a);
      ContinuesSlot(s, t, kept, b);
      BeforeDistinct(s, t, kept, a, b);
    }
  }

  /** Building the pending epoch anew from the current group. */
  lemma ShapeAfterSetPending(s: State, cfg: Config)
    requires HasGroup(s) && Shape(s, cfg)
    ensures Shape(SetPending(s), cfg)
  {
    SetPendingFacts(s);
    hide SetPending, NewRatchets;
    var t := SetPending(s);
    assert forall r :: r in s.ratchets ==> r in t.ratchets;
    forall a | Has(t, a) ensures EpochOk(t, At(t, a)) {
      if a != Pending { assert Has(s, a) && At(t, a) == At(s, a) && EpochOk(s, At(s, a)); }
    }
    forall a, b | Has(t, a) && Has(t, b) && a != b ensures At(t, a).build != At(t, b).build {
      if a != Pending { assert At(t, a) == At(s, a) && EpochOk(s, At(s, a)); }
      if b != Pending { assert At(t, b) == At(s, b) && EpochOk(s, At(s, b)); }
    }
  }

  /** Dropping the pending epoch, or all of them, or send keys. */
  lemma ShapeAfterDropping(s: State, t: State, cfg: Config)
    requires Shape(s, cfg)
    requires t.ratchets == s.ratchets && t.builds == s.builds && t.log.built == s.log.built
    requires forall a :: Has(t, a) ==> Has(s, a) && At(t, a) == At(s, a)
    requires t.send.current == s.send.current || t.send.current.None?
    requires t.send.retained == s.send.retained || t.send.retained == s.send.current || t.send.retained.None?
    ensures Shape(t, cfg)
  {
    forall a | Has(t, a) ensures EpochOk(t, At(t, a)) {
      assert EpochOk(s, At(s, a));
    }
  }

  /** The epoch was built for somebody the one before it was not. */
  predicate Adds(before: Option<Epoch>, after: Epoch) {
    before.None? || !(after.senders.Keys <= before.value.senders.Keys)
  }

  lemma AddsIsAddsSender(before: Option<Epoch>, after: Epoch)
    ensures AddsSender(before, after) <==> Adds(before, after)
  {
    if before.Some? && AddsSender(before, after) {
      var u :| u in after.senders && u !in before.value.senders;
      assert u in after.senders.Keys && u !in before.value.senders.Keys;
    }
  }

  /** What activation does to epochs and the send side. */
  lemma ActivateFacts(s: State, cfg: Config)
    requires s.epochs.pending.Some?
    ensures var t, e := ActivateEpoch(s, cfg), s.epochs.pending.value;
            && t.epochs.active == Some(e) && t.epochs.pending.None?
            && t.epochs.retained == Unexpired(
                 if s.epochs.active.None? then s.epochs.retained
                 else s.epochs.retained + [s.epochs.active.value.(expiresAt := s.now + EPOCH_RETENTION)], s.now)
            && t.ratchets == s.ratchets && t.builds == s.builds && t.now == s.now && t.shutdown == s.shutdown
            && t.mls == s.mls.(groupId := s.mls.pendingGroupId, pendingGroupId := None)
            && t.log == s.log.(attemptResets := t.log.attemptResets, activated := true, restarts := t.log.restarts)
            && t.send.current == (if cfg.self in e.senders then Some(Ref(e.build, cfg.self)) else None)
            && t.send.cipher == s.send.cipher && t.send.cipherKey == s.send.cipherKey
            && (s.send.current.None? ==> t.send.retained == s.send.retained && t.send.counter == s.send.counter)
            && (s.send.current.Some? && AddsSender(s.epochs.active, e) ==>
                  t.send.retained.None? && t.send.counter == 0 && t.log.restarts == s.log.restarts + {|s.log.sends|})
            && (s.send.current.None? || !AddsSender(s.epochs.active, e) ==> t.log.restarts == s.log.restarts)
            && (s.send.current.Some? && !AddsSender(s.epochs.active, e) ==>
                  t.send.retained == s.send.current && t.send.counter == s.send.counter)
  {
    ActivateMoves(s, cfg);
    ActivateSends(s, cfg);
    hide ActivateEpoch, AddsSender, Unexpired;
  }

  lemma ActivateMoves(s: State, cfg: Config)
    requires s.epochs.pending.Some?
    ensures var t, e := ActivateEpoch(s, cfg), s.epochs.pending.value;
            && t.epochs.active == Some(e) && t.epochs.pending.None?
            && t.epochs.retained == Unexpired(
                 if s.epochs.active.None? then s.epochs.retained
                 else s.epochs.retained + [s.epochs.active.value.(expiresAt := s.now + EPOCH_RETENTION)], s.now)
            && t.ratchets == s.ratchets && t.builds == s.builds && t.now == s.now && t.shutdown == s.shutdown
            && t.mls == s.mls.(groupId := s.mls.pendingGroupId, pendingGroupId := None)
  {
    var s1, e := MoveEpochs(s, cfg), s.epochs.pending.value;
    SwitchLeaves(s1, cfg, s.epochs.active, e);
    TakeLeaves(SwitchSend(s1, cfg, s.epochs.active, e), cfg, e);
    hide Unexpired, AddsSender, SwitchSend, TakeOwnRatchet;
  }

  lemma SwitchLeaves(s: State, cfg: Config, before: Option<Epoch>, after: Epoch)
    ensures var t := SwitchSend(s, cfg, before, after); t == s.(send := t.send, log := t.log)
  {
    hide AddsSender;
  }

  lemma TakeLeaves(s: State, cfg: Config, e: Epoch)
    ensures var t := TakeOwnRatchet(s, cfg, e); t == s.(send := t.send, recovery := t.recovery, log := t.log)
  {
  }

  lemma ActivateSends(s: State, cfg: Config)
    requires s.epochs.pending.Some?
    ensures var t, e := ActivateEpoch(s, cfg), s.epochs.pending.value;
            && t.log == s.log.(attemptResets := t.log.attemptResets, activated := true, restarts := t.log.restarts)
            && t.send.current == (if cfg.self in e.senders then Some(Ref(e.build, cfg.self)) else None)
            && t.send.cipher == s.send.cipher && t.send.cipherKey == s.send.cipherKey
            && (s.send.current.None? ==> t.send.retained == s.send.retained && t.send.counter == s.send.counter)
            && (s.send.current.Some? && AddsSender(s.epochs.active, e) ==>
                  t.send.retained.None? && t.send.counter == 0 && t.log.restarts == s.log.restarts + {|s.log.sends|})
            && (s.send.current.None? || !AddsSender(s.epochs.active, e) ==> t.log.restarts == s.log.restarts)
            && (s.send.current.Some? && !AddsSender(s.epochs.active, e) ==>
                  t.send.retained == s.send.current && t.send.counter == s.send.counter)
  {
    hide Unexpired, AddsSender, PruneRetained;
    PruneKeepsSend(TakeOwnRatchet(SwitchSend(MoveEpochs(s, cfg), cfg, s.epochs.active, s.epochs.pending.value), cfg,
                                  s.epochs.pending.value));
  }

  lemma PruneKeepsSend(s: State)
    ensures PruneRetained(s).send == s.send && PruneRetained(s).log == s.log
  {
  }

  lemma ShapeAfterActivate(s: State, cfg: Config)
    requires s.epochs.pending.Some? && Shape(s, cfg)
    ensures Shape(ActivateEpoch(s, cfg), cfg)
  {
    ActivateFacts(s, cfg);
    hide ActivateEpoch, AddsSender, Unexpired;
    var t := ActivateEpoch(s, cfg);
    assert EpochOk(s, At(s, Pending));
    var moved := if s.epochs.active.None? then s.epochs.retained
                 else s.epochs.retained + [s.epochs.active.value.(expiresAt := s.now + EPOCH_RETENTION)];
    UnexpiredIsPruned(moved, s.now);
    var kept :| PrunedBy(moved, t.epochs.retained, kept);
    hide Pruned;
    forall a | Has(t, a) ensures EpochOk(t, At(t, a)) {
      MovedSlot(s, t, moved, kept, a);
      assert EpochOk(s, At(s, CameFrom(s, kept, a)));
    }
    forall a, b | Has(t, a) && Has(t, b) && a != b ensures At(t, a).build != At(t, b).build {
      MovedSlot(s, t, moved, kept, a);
      MovedSlot(s, t, moved, kept, b);
      CameFromDistinct(s, t, moved, kept, a, b);
    }
  }

  /** Where an epoch of the new state was before the activation. */
  function CameFrom(s: State, kept: seq<nat>, a: Slot): Slot {
    match a
    case Active => Pending
    case Pending => Pending
    case Retained(i) => if i < |kept| && kept[i] < |s.epochs.retained| then Retained(kept[i]) else Active
  }

  predicate Moved(s: State, t: State, moved: seq<Epoch>, kept: seq<nat>) {
    && s.epochs.pending.Some? && t.epochs.active == s.epochs.pending && t.epochs.pending.None?
    && PrunedBy(moved, t.epochs.retained, kept)
    && moved == if s.epochs.active.None? then s.epochs.retained
                else s.epochs.retained + [s.epochs.active.value.(expiresAt := s.now + EPOCH_RETENTION)]
  }

  lemma MovedSlot(s: State, t: State, moved: seq<Epoch>, kept: seq<nat>, a: Slot)
    requires Moved(s, t, moved, kept) && Has(t, a)
    ensures Has(s, CameFrom(s, kept, a))
    ensures At(s, CameFrom(s, kept, a)) == At(t, a).(senders := At(s, CameFrom(s, kept, a)).senders,
                                                     expiresAt := At(s, CameFrom(s, kept, a)).expiresAt)
    ensures At(s, CameFrom(s, kept, a)).senders.Keys == At(t, a).senders.Keys
  {
  }

  lemma CameFromDistinct(s: State, t: State, moved: seq<Epoch>, kept: seq<nat>, a: Slot, b: Slot)
    requires Moved(s, t, moved, kept) && Has(t, a) && Has(t, b) && a != b
    ensures CameFrom(s, kept, a) != CameFrom(s, kept, b)
  {
    if a.Retained? && b.Retained? {
      if a.index < b.index { assert kept[a.index] < kept[b.index]; }
      else { assert kept[b.index] < kept[a.index]; }
    }
  }

  lemma ShapeUnmoved(s: State, t: State, cfg: Config)
    requires Shape(s, cfg) && Unmoved(s, t)
    ensures Shape(t, cfg)
  {
    ShapeAfterDropping(s, t, cfg);
  }

  lemma ActionKeepsShape(s: State, cfg: Config, a: Action)
    requires Shape(s, cfg) && Enabled(s, cfg, a)
    ensures Shape(Do(s, cfg, a), cfg)
  {
    hide Shape, RunCall, ActivateEpoch, SetPending, MediaStep, Join, Downgrade, InvalidateMls, ResetGroup,
         RestorePreCommit,
         NewGroup, WatchDroppedSend, WatchRecovery, ArmCommitWatchdog, StartFire, StopSending;
    if Quiet(a) {
      QuietLeavesUnmoved(s, cfg, a);
      ShapeUnmoved(s, Do(s, cfg, a), cfg);
    } else if a.ACall? {
      CallStep(s, cfg, a.call);
      ShapeAfterMedia(s, RunCall(s, cfg, a.call), cfg);
    } else if a.ASoleMember? {
      ShapeAfterSetPending(s, cfg);
    } else if a.ALocalCommit? {
      ShapeAfterDropping(s, MakeCommit(s, a.commit), cfg);
      if a.rebuilt { ShapeAfterSetPending(MakeCommit(s, a.commit), cfg); }
    } else if a.APeerCommit? {
      ShapeAfterDropping(s, PeerCommit(s, a.commit, false), cfg);
      PeerRebuilt(s, cfg, a.commit);
    } else if a.AJoin? {
      ShapeAfterJoin(s, cfg, a.welcome);
    } else if a.AActivate? {
      ShapeAfterActivate(s, cfg);
    } else {
      ReducingReduces(s, cfg, a);
      ShapeAfterDropping(s, Do(s, cfg, a), cfg);
    }
  }

  lemma PeerRebuilt(s: State, cfg: Config, c: Commit)
    requires HasGroup(s) && Shape(s, cfg)
    ensures Shape(PeerCommit(s, c, true), cfg)
  {
    var g := Apply(TheGroup(s), c);
    var s1 := Announce(SaveGroup(Mint(s, g.term), s.mls.groupId.value, g), c);
    ShapeAfterDropping(s, s1, cfg);
    hide Shape, SetPending;
    ShapeAfterSetPending(s1, cfg);
  }

  lemma ShapeAfterJoin(s: State, cfg: Config, w: Welcome)
    requires s.mls.client.Some? && w.joinOk && Shape(s, cfg)
    ensures Shape(Join(s, w).0, cfg)
  {
    var s1 := SaveGroup(Mint(s, w.group.term), w.groupId, w.group);
    var s2 := Adopt(s1, w.group).(mls := s1.mls.(groupId := Some(w.groupId), pendingGroupId := Some(w.groupId)));
    ShapeAfterDropping(s, Taint(s1), cfg);
    ShapeAfterDropping(s, Taint(s2), cfg);
    ShapeAfterDropping(s, s2, cfg);
    hide Shape, SetPending;
    ShapeAfterSetPending(s2, cfg);
  }
}
