/** What is kept for a while after a change of epoch: the send ratchet for the configured
    retention, and the epoch left behind, for receiving, for ten seconds. */
module SessionRetention {
  import opened Bytes
  import opened Nonce
  import F = Frame
  import opened SessionState
  import opened SessionMedia
  import opened SessionControl
  import opened SessionShape
  import opened SessionPaths
  import opened SessionQueue
  import opened SessionCalls
  import SessionFrames
  import A = SessionAnnouncements
  import opened SessionGroups
  import SessionCounter
  import SessionSends
  import SessionConvergence
  import SessionExamples
  import SessionReceives
  import Replay
  import Ratchet

  // ---- Nothing is switched ----

  /** The send ratchets are the same, except that a retained one may have been found expired. */
  predicate SendSteady(s: State, t: State) {
    && t.send.current == s.send.current
    && (|| (t.send.retained == s.send.retained && t.send.retainedExpires == s.send.retainedExpires)
        || (s.send.retained.Some? && t.send.retained.None? && t.now >= s.send.retainedExpires))
  }

  /** The epochs kept for receiving are still there, unless their time has come. */
  predicate Lasting(s: State, t: State) {
    forall e :: e in s.epochs.retained && e.expiresAt > t.now ==> Among(e, t.epochs.retained)
  }

  predicate Among(e: Epoch, es: seq<Epoch>) { exists i :: 0 <= i < |es| && SameEpoch(e, es[i]) }

  predicate Steady(s: State, t: State) {
    && s.now <= t.now && t.version == s.version
    && SendSteady(s, t) && SameOption(s.epochs.active, t.epochs.active) && Lasting(s, t)
  }

  /** Clock, versions, send side and epochs but for the pending one are the same. */
  predicate Alike(s: State, t: State) {
    && t.now == s.now && t.version == s.version && t.send == s.send
    && t.epochs.active == s.epochs.active && t.epochs.retained == s.epochs.retained
  }

  lemma AlikeSteady(s: State, t: State)
    requires Alike(s, t)
    ensures Steady(s, t)
  {
    forall e | e in s.epochs.retained ensures Among(e, t.epochs.retained) {
      var i :| 0 <= i < |s.epochs.retained| && s.epochs.retained[i] == e;
      assert SameEpoch(e, t.epochs.retained[i]);
    }
  }

  lemma SteadyTwice(s: State, t: State, u: State)
    requires Steady(s, t) && Steady(t, u)
    ensures Steady(s, u)
  {
    forall e | e in s.epochs.retained && e.expiresAt > u.now ensures Among(e, u.epochs.retained) {
      assert Among(e, t.epochs.retained);
      var i :| 0 <= i < |t.epochs.retained| && SameEpoch(e, t.epochs.retained[i]);
      assert Among(t.epochs.retained[i], u.epochs.retained);
      var j :| 0 <= j < |u.epochs.retained| && SameEpoch(t.epochs.retained[i], u.epochs.retained[j]);
      assert SameEpoch(e, u.epochs.retained[j]);
    }
  }

  /** Alike, then steady. */
  lemma ThenSteady(s: State, t: State, u: State)
    requires Alike(s, t) && Steady(t, u)
    ensures Steady(s, u)
  {
    hide Steady, Alike;
    AlikeSteady(s, t);
    SteadyTwice(s, t, u);
  }

  /** Steady, then alike. */
  lemma ThenAlike(s: State, t: State, u: State)
    requires Steady(s, t) && Alike(t, u)
    ensures Steady(s, u)
  {
    hide Steady, Alike;
    AlikeSteady(t, u);
    SteadyTwice(s, t, u);
  }

  // ---- Calls ----

  lemma EncryptSteady(s: State, cfg: Config, frame: seq<byte>, room: nat)
    ensures Steady(s, Encrypt(s, cfg, frame, room).0)
  {
    var s0 := SelectSendRatchet(s);
    assert Steady(s, s0) by {
      AlikeSteady(s, s.(log := s0.log));
    }
    hide Steady, Alike, SelectSendRatchet, EncryptWith;
    AlikeSteady(s0, s0);
    SteadyTwice(s, s0, s0);
    if LiveRatchet(s0).Some? && LiveRatchet(s0).value in s0.ratchets {
      UseSteady(s0, cfg, LiveRatchet(s0).value, frame, room);
      SteadyTwice(s, s0, EncryptWith(s0, cfg, LiveRatchet(s0).value, frame, room).0);
    }
  }

  lemma UseSteady(s: State, cfg: Config, ref: Ref, frame: seq<byte>, room: nat)
    requires ref in s.ratchets
    ensures Steady(s, EncryptWith(s, cfg, ref, frame, room).0)
  {
    var s1 := s.(send := s.send.(counter := NextCounter(s)));
    hide KeyUp, F.EncryptFrame, Generation, Truncated, NextCounter, Pruned;
    SessionSends.KeyUpFacts(s1, cfg, ref, Generation(NextCounter(s)));
    KeyUpClock(s1, cfg, ref, Generation(NextCounter(s)));
    EncryptWithStep(s, cfg, ref, frame, room);
    var t := EncryptWith(s, cfg, ref, frame, room).0;
    assert t.epochs == s.epochs && t.now == s.now;
    assert Lasting(s, t) by { AlikeSteady(s, s.(now := t.now, epochs := t.epochs)); }
  }

  lemma KeyUpClock(s: State, cfg: Config, ref: Ref, g: uint32)
    requires ref in s.ratchets
    ensures KeyUp(s, cfg, ref, g).0.now == s.now
  {
    hide Ratchet.AfterGetKey, Ratchet.AfterCommit, Ratchet.Available;
  }

  lemma PruneSteady(s: State)
    ensures Steady(s, PruneRetained(s))
  {
    var t := PruneRetained(s);
    forall e | e in s.epochs.retained && e.expiresAt > t.now ensures Among(e, t.epochs.retained) {
      UnexpiredExactly(s.epochs.retained, s.now, e);
      var i :| 0 <= i < |t.epochs.retained| && t.epochs.retained[i] == e;
      assert SameEpoch(e, t.epochs.retained[i]);
    }
  }

  lemma AttemptSteady(s: State, cfg: Config, user: UserId, packet: seq<byte>, nonce: uint32, room: nat, slot: Slot)
    ensures Steady(s, TryEpoch(s, cfg, user, packet, nonce, room, slot).0)
  {
    SessionReceives.TryEpochCases(s, cfg, user, packet, nonce, room, slot);
    AlikeSteady(s, s);
    hide TryEpoch, F.OpensTo, Generation, ExpandTentative, KeyAvailable, CommitNonce, Replay.CheckAndMark,
         Replay.Accepts, Ratchet.AfterGetKey, Ratchet.AfterCommit, Steady;
    var t := TryEpoch(s, cfg, user, packet, nonce, room, slot).0;
    if Has(s, slot) && user in At(s, slot).senders {
      assert t.send == s.send && t.now == s.now && t.version == s.version;
      if t.epochs == s.epochs {
        AlikeSteady(s, t);
      } else {
        var x := At(t, slot).senders[user];
        assert t.epochs == PutSender(s, slot, user, x).epochs;
        PutSteady(s, t, slot, user, x);
      }
    }
  }

  lemma PutSteady(s: State, t: State, slot: Slot, user: UserId, x: SenderState)
    requires Has(s, slot) && user in At(s, slot).senders && t.epochs == PutSender(s, slot, user, x).epochs
    requires t.send == s.send && t.now == s.now && t.version == s.version
    ensures Steady(s, t)
  {
    forall e | e in s.epochs.retained ensures Among(e, t.epochs.retained) {
      var i :| 0 <= i < |s.epochs.retained| && s.epochs.retained[i] == e;
      assert SameEpoch(e, t.epochs.retained[i]);
    }
  }

  lemma {:induction false} AttemptsSteady(s: State, cfg: Config, user: UserId, packet: seq<byte>, nonce: uint32,
                                          room: nat, slots: seq<Slot>)
    ensures Steady(s, TryEpochs(s, cfg, user, packet, nonce, room, slots).0)
    decreases |slots|
  {
    hide TryEpoch, Steady;
    if slots == [] {
      AlikeSteady(s, s);
    } else {
      var t := TryEpoch(s, cfg, user, packet, nonce, room, slots[0]).0;
      AttemptSteady(s, cfg, user, packet, nonce, room, slots[0]);
      AttemptsSteady(t, cfg, user, packet, nonce, room, slots[1..]);
      SteadyTwice(s, t, TryEpochs(t, cfg, user, packet, nonce, room, slots[1..]).0);
    }
  }

  lemma CallSteady(s: State, cfg: Config, call: MediaCall)
    ensures Steady(s, RunCall(s, cfg, call))
  {
    hide Encrypt, TryEpochs, NonceOf, PruneRetained;
    AlikeSteady(s, s);
    if call.EncryptCall? {
      EncryptSteady(s, cfg, call.frame, call.room);
    } else if call.DecryptCall? {
      hide Steady;
      var s0 := PruneRetained(s);
      PruneSteady(s);
      if NonceOf(call.packet).Some? {
        var nonce, slots := NonceOf(call.packet).value, Candidates(s0);
        AttemptsSteady(s0, cfg, call.user, call.packet, nonce, call.room, slots);
        SteadyTwice(s, s0, TryEpochs(s0, cfg, call.user, call.packet, nonce, call.room, slots).0);
      }
    }
  }

  lemma {:induction false} CallsSteady(s: State, cfg: Config, calls: seq<MediaCall>)
    ensures Steady(s, RunCalls(s, cfg, calls))
    decreases |calls|
  {
    hide RunCall, Steady;
    if calls == [] {
      AlikeSteady(s, s);
    } else {
      CallSteady(s, cfg, calls[0]);
      CallsSteady(RunCall(s, cfg, calls[0]), cfg, calls[1..]);
      SteadyTwice(s, RunCall(s, cfg, calls[0]), RunCalls(s, cfg, calls));
    }
  }

  // ---- Handlers ----

  lemma SendLockedSteady(s: State, cfg: Config)
    ensures Steady(s, SendLocked(s, cfg).0) && Steady(s, SendInvalid(s, cfg))
  {
    hide RunCalls, Steady;
    AlikeSteady(s, s);
    if s.env.replies != [] {
      var s1 := s.(env := s.env.(replies := s.env.replies[1..]));
      CallsSteady(s1, cfg, s.env.replies[0].calls);
      ThenSteady(s, s1, RunCalls(s1, cfg, s.env.replies[0].calls));
    }
  }

  lemma KeyPackageSteady(s: State, cfg: Config)
    ensures Steady(s, EnsureKeyPackage(s, cfg).0)
  {
    hide SendLocked, Steady;
    var s1 := EnsureClient(s, cfg).0;
    assert Alike(s, s1);
    AlikeSteady(s, s1);
    SendLockedSteady(s1, cfg);
    var s2 := if cfg.hasCallbacks then SendLocked(s1, cfg).0 else s1;
    AlikeSteady(s1, s1);
    ThenSteady(s, s1, s2);
    ThenAlike(s, s2, s2.(mls := s2.mls.(keyPackage := true)));
  }

  lemma WatchAlike(s: State, cfg: Config, o: Outcome)
    ensures Alike(s, WatchIfDropped(s, cfg, o)) && Alike(s, WatchDroppedSend(s, cfg)) && Alike(s, WatchRecovery(s, cfg))
    ensures Alike(s, ArmCommitWatchdog(s, cfg))
  {
  }

  lemma CreateGroupSteady(s: State, cfg: Config)
    ensures Steady(s, CreateGroup(s, cfg).0)
  {
    hide EnsureKeyPackage, Steady;
    AlikeSteady(s, s);
    KeyPackageSteady(s, cfg);
    var s1 := EnsureKeyPackage(s, cfg).0;
    if s1.mls.client.Some? { ThenAlike(s, s1, NewGroup(s1, cfg)); }
  }

  lemma SendReadySteady(s: State, cfg: Config)
    ensures Steady(s, SendReady(s, cfg))
  {
    hide SendLocked, Steady, WatchDroppedSend, Alike;
    assert Alike(s, s) by { SelfAlike(s); }
    AlikeSteady(s, s);
    SendLockedSteady(s, cfg);
    var s1 := SendLocked(s, cfg).0;
    WatchAlike(s1, cfg, Done);
    ThenAlike(s, s1, WatchDroppedSend(s1, cfg));
  }

  lemma SelfAlike(s: State)
    ensures Alike(s, s)
  {
  }

  lemma RestoreAlike(s: State)
    ensures Alike(s, RestorePreCommit(s).0)
  {
  }

  lemma SendCommitSteady(s: State, cfg: Config)
    ensures Steady(s, SendCommit(s, cfg))
  {
    hide SendLocked, Steady, WatchDroppedSend, ArmCommitWatchdog, RestorePreCommit, Alike;
    SendLockedSteady(s, cfg);
    var s1 := SendLocked(s, cfg).0;
    var s2 := RestorePreCommit(s1).0;
    RestoreAlike(s1);
    ThenAlike(s, s1, s2);
    WatchAlike(s2, cfg, Done);
    WatchAlike(s1, cfg, Done);
    ThenAlike(s, s2, WatchDroppedSend(s2, cfg));
    ThenAlike(s, s1, ArmCommitWatchdog(s1, cfg));
  }

  lemma ProcessSteady(s: State, cfg: Config, b: Batch)
    requires s.epochs.pending.None?
    ensures Steady(s, ProcessAndCommit(s, cfg, b))
  {
    hide SendCommit, NewRatchets, Steady;
    var s1 := EnsureClient(s, cfg).0;
    var s2 := s1.(log := s1.log.(processed := s1.log.processed + [b.id]));
    AlikeSteady(s, s1);
    AlikeSteady(s, s2);
    if HasGroup(s2) {
      var m := MakeCommit(s2, b.commit);
      AlikeSteady(s, m);
      var p := SetPending(m);
      AlikeSteady(s, p);
      SendCommitSteady(p, cfg);
      ThenSteady(s, p, SendCommit(p, cfg));
    }
  }

  lemma {:induction false} DrainSteady(s: State, cfg: Config)
    ensures Steady(s, Drain(s, cfg))
    decreases |s.mls.queue|
  {
    hide Steady, ProcessAndCommit;
    if s.mls.queue == [] || s.epochs.pending.Some? {
      AlikeSteady(s, s);
    } else {
      var s1 := s.(mls := s.mls.(queue := s.mls.queue[1..]));
      var t := ProcessAndCommit(s1, cfg, s.mls.queue[0]);
      ProcessSteady(s1, cfg, s.mls.queue[0]);
      ProcessKeepsQueue(s1, cfg, s.mls.queue[0]);
      DrainSteady(t, cfg);
      SteadyTwice(s1, t, Drain(t, cfg));
      ThenSteady(s, s1, Drain(t, cfg));
    }
  }

  lemma InvalidateSteady(s: State, cfg: Config)
    ensures Steady(s, InvalidateAndResend(s, cfg))
  {
    hide EnsureKeyPackage, WatchRecovery, Steady;
    var s1 := InvalidateMls(s);
    var s2 := EnsureKeyPackage(s1, cfg).0;
    KeyPackageSteady(s1, cfg);
    assert Alike(s, s1);
    hide Alike;
    ThenSteady(s, s1, s2);
    WatchAlike(s2, cfg, Done);
    ThenAlike(s, s2, WatchRecovery(s2, cfg));
  }

  lemma GiveUpSteady(s: State, t: State, cfg: Config)
    requires Alike(s, t)
    ensures Steady(s, SendInvalid(t, cfg)) && Steady(s, InvalidateAndResend(SendInvalid(t, cfg), cfg))
  {
    hide SendInvalid, InvalidateAndResend, Steady, Alike;
    SendLockedSteady(t, cfg);
    ThenSteady(s, t, SendInvalid(t, cfg));
    InvalidateSteady(SendInvalid(t, cfg), cfg);
    SteadyTwice(s, SendInvalid(t, cfg), InvalidateAndResend(SendInvalid(t, cfg), cfg));
  }

  lemma ProcessCommitAlike(s: State, cfg: Config, msg: Option<Commit>)
    ensures Alike(s, ProcessCommit(s, cfg, msg).0)
  {
    hide NewRatchets, BuildEpoch, Apply;
  }

  lemma ReconcileSteady(s: State, cfg: Config, msg: Option<Commit>)
    ensures Steady(s, Reconcile(s, cfg, msg).0) && (Reconcile(s, cfg, msg).1 ==> Alike(s, Reconcile(s, cfg, msg).0))
  {
    RestoreAlike(s);
    var s1 := if s.mls.pendingCommit.Some? then RestorePreCommit(s).0 else s;
    assert Alike(s, s1);
    ProcessCommitAlike(s1, cfg, msg);
    hide RestorePreCommit, ProcessCommit, SendInvalid, InvalidateAndResend, Steady;
    var s2 := ProcessCommit(s1, cfg, msg).0;
    assert Alike(s, s2);
    AlikeSteady(s, s2);
    GiveUpSteady(s, s1, cfg);
    GiveUpSteady(s, s2, cfg);
  }

  lemma JoinAlike(s: State, w: Welcome)
    ensures Alike(s, Join(s, w).0)
  {
    hide NewRatchets, BuildEpoch;
  }

  lemma PrepareCommitSteady(s: State, cfg: Config, transition: nat, msg: Option<Commit>)
    requires transition != 0
    ensures Steady(s, OnPrepareCommit(s, cfg, transition, msg))
  {
    hide Reconcile, SendReady, Steady;
    var s1 := EnsureClient(s.(pendingTransitionId := transition), cfg).0;
    AlikeSteady(s, s1);
    SendReadySteady(ConfirmCommit(s1), cfg);
    ThenSteady(s, ConfirmCommit(s1), SendReady(ConfirmCommit(s1), cfg));
    ReconcileSteady(s1, cfg, msg);
    var s2 := Reconcile(s1, cfg, msg).0;
    ThenSteady(s, s1, s2);
    SendReadySteady(s2, cfg);
    SteadyTwice(s, s2, SendReady(s2, cfg));
  }

  lemma WelcomeSteady(s: State, cfg: Config, transition: nat, w: Welcome)
    requires transition != 0
    ensures Steady(s, OnWelcome(s, cfg, transition, w))
  {
    var s1 := s.(pendingTransitionId := transition);
    RestoreAlike(s1);
    var s2 := if s1.mls.pendingCommit.Some? then RestorePreCommit(s1).0 else s1;
    var s3 := if s1.mls.pendingCommit.Some? then s2.(mls := s2.mls.(queue := [])) else s2;
    var s4 := EnsureClient(s3, cfg).0;
    assert Alike(s, s2) && Alike(s, s4);
    JoinAlike(s4, w);
    hide RestorePreCommit, Join, SendInvalid, InvalidateAndResend, SendReady, Steady;
    var s5 := Join(s4, w).0;
    assert Alike(s, s5);
    AlikeSteady(s, s4);
    GiveUpSteady(s, s2, cfg);
    GiveUpSteady(s, s5, cfg);
    SendReadySteady(s5, cfg);
    ThenSteady(s, s5, SendReady(s5, cfg));
  }

  lemma FireSteady(s: State, cfg: Config, id: nat, w: Watchdog)
    requires w.Waiting?
    ensures Steady(s, Fire(s, cfg, id, w))
  {
    hide SendInvalid, Steady;
    var s0 := StartFire(s, id, w);
    var s1 := SendInvalid(s0, cfg);
    SendLockedSteady(s0, cfg);
    ThenSteady(s, s0, s1);
    assert Alike(s1, Fire(s, cfg, id, w));
    ThenAlike(s, s1, Fire(s, cfg, id, w));
  }

  lemma RetrySteady(s: State, cfg: Config, id: nat, w: Watchdog)
    requires w.Retrying?
    ensures Steady(s, RetryAttempt(s, cfg, id, w))
  {
    hide SendLocked, Steady;
    AlikeSteady(s, s);
    SendLockedSteady(s, cfg);
    var t := RetryAttempt(s, cfg, id, w);
    var s1 := if cfg.hasCallbacks then SendLocked(s, cfg).0 else s;
    if Alike(s, t) {
      AlikeSteady(s, t);
    } else {
      assert Alike(s1, t);
      ThenAlike(s, s1, t);
    }
  }

  lemma WatchdogSteady(s: State, cfg: Config, id: nat)
    ensures Steady(s, WatchdogStep(s, cfg, id))
  {
    hide Fire, RetryAttempt, Steady;
    AlikeSteady(s, s);
    if id in s.recovery.watchdogs {
      var w := s.recovery.watchdogs[id];
      AlikeSteady(s, RemoveWatchdog(s, id));
      if w.Waiting? {
        FireSteady(s, cfg, id, w);
      } else if w.Retrying? {
        RetrySteady(s, cfg, id, w);
      } else if w.Finishing? {
        AlikeSteady(s, Finish(s, cfg, id, w));
      }
    }
  }

  // ---- Events ----

  /** The events that may switch the send ratchet or leave an epoch: resets, executed
      transitions with something to execute, and messages that are activated at once. */
  predicate Switches(s: State, e: Event) {
    || e.SelectProtocolAck? || (e.PrepareEpoch? && e.epoch == 1)
    || (e.ExecuteTransition? && e.transition == s.pendingTransitionId &&
        (s.version.protocol == 0 || s.epochs.pending.Some?))
    || (e.PrepareTransition? && e.transition == 0 && s.epochs.active.None?)
    || (e.PrepareCommit? && e.transition == 0) || (e.GetWelcome? && e.transition == 0)
  }

  lemma OthersSteady(s: State, cfg: Config, channel: nat, nonEmpty: bool, b: Batch)
    ensures Steady(s, OnSetChannel(s, cfg, channel)) && Steady(s, OnExternalSender(s, cfg, nonEmpty))
    ensures Steady(s, OnProposals(s, cfg, b))
  {
    hide CreateGroup, WatchIfDropped, ProcessAndCommit, Steady;
    var s1 := s.(channelId := channel);
    AlikeSteady(s, s1);
    CreateGroupSteady(s1, cfg);
    ThenSteady(s, s1, CreateGroup(s1, cfg).0);
    var s0 := s.(mls := s.mls.(externalSender := nonEmpty));
    CreateGroupSteady(s0, cfg);
    var (t, o) := CreateGroup(s0, cfg);
    ThenSteady(s, s0, t);
    WatchAlike(t, cfg, o);
    ThenAlike(s, t, WatchIfDropped(t, cfg, o));
    var batch, s2 := b.(id := s.log.arrived), s.(log := s.log.(arrived := s.log.arrived + 1));
    AlikeSteady(s, s2.(mls := s2.mls.(queue := s2.mls.queue + [batch])));
    if s.epochs.pending.None? {
      ProcessSteady(s2, cfg, batch);
      ThenSteady(s, s2, ProcessAndCommit(s2, cfg, batch));
    }
  }

  /** The versions after an event that switches nothing: a prepared one takes effect for
      receiving at once, and for sending when it is executed. */
  function VersionAfter(s: State, e: Event): Versions {
    if e.PrepareEpoch? || (e.PrepareTransition? && e.transition != 0) then s.version.(protocol := e.version)
    else if e.ExecuteTransition? && e.transition == s.pendingTransitionId then
      s.version.(sending := s.version.protocol, transportOnly := false)
    else s.version
  }

  /** Steady but for the versions. */
  predicate SteadyBut(s: State, t: State) { Steady(s.(version := t.version), t) }

  lemma PrepareTransitionSteady(s: State, cfg: Config, e: Event)
    requires e.PrepareTransition? && !Switches(s, e)
    ensures Steady(s.(version := VersionAfter(s, e)), OnPrepareTransition(s, cfg, e.transition, e.version))
  {
    hide ActivateSoleMember, SendLocked, Steady;
    var s0 := s.(version := VersionAfter(s, e));
    var s1 := s.(pendingTransitionId := e.transition, version := s.version.(protocol := e.version));
    if e.transition == 0 {
      AlikeSteady(s0, s);
    } else {
      AlikeSteady(s0, s1);
      SendLockedSteady(s1, cfg);
      ThenSteady(s0, s1, SendLocked(s1, cfg).0);
    }
  }

  lemma ExecuteTransitionSteady(s: State, cfg: Config, e: Event)
    requires e.ExecuteTransition? && !Switches(s, e)
    ensures Steady(s.(version := VersionAfter(s, e)), OnExecuteTransition(s, cfg, e.transition))
  {
    hide Steady, Drain, ActivateEpoch;
    AlikeSteady(s.(version := VersionAfter(s, e)), OnExecuteTransition(s, cfg, e.transition));
  }

  /** Every other event leaves the send ratchets and the epochs but the pending one alone, and
      sets the versions as its message says. */
  lemma StepSteady(s: State, cfg: Config, e: Event)
    requires !Switches(s, e)
    ensures Steady(s.(version := VersionAfter(s, e)), Step(s, cfg, e))
  {
    hide RunCall, OnSetChannel, OnPrepareTransition, OnExecuteTransition, OnExternalSender, OnProposals,
         OnPrepareCommit, OnWelcome, WatchdogStep, Steady;
    if e.Media? {
      CallSteady(s, cfg, e.call);
    } else {
      var u := s.(env := e.env);
      var v := u.(version := VersionAfter(s, e));
      if e.PrepareCommit? {
        PrepareCommitSteady(u, cfg, e.transition, e.message);
      } else if e.GetWelcome? {
        WelcomeSteady(u, cfg, e.transition, e.welcome);
      } else if e.WatchdogRuns? {
        WatchdogSteady(u, cfg, e.id);
      } else if e.PrepareEpoch? {
        AlikeSteady(v, OnPrepareEpoch(u, cfg, e.epoch, e.version));
      } else if e.PrepareTransition? {
        PrepareTransitionSteady(u, cfg, e);
      } else if e.ExecuteTransition? {
        ExecuteTransitionSteady(u, cfg, e);
      } else if e.SetChannel? {
        OthersSteady(u, cfg, e.channel, false, A.NO_BATCH);
      } else if e.ExternalSender? {
        OthersSteady(u, cfg, 0, e.nonEmpty, A.NO_BATCH);
      } else {
        OthersSteady(u, cfg, 0, false, e.batch);
      }
      ThenSteady(s.(version := VersionAfter(s, e)), v, Step(s, cfg, e));
    }
  }

  // ---- What an activation keeps, and for how long ----

  /** The ratchet is retained until the time d, or was until then. */
  predicate Held(t: State, r: Ref, d: Time) {
    if t.send.retained.Some? then t.send.retained == Some(r) && t.send.retainedExpires == d else t.now >= d
  }

  /** From s an epoch was activated at once: the ratchet used so far is retained for the
      configured time if nobody was added, and given up at once if somebody was; the epoch
      left behind is kept for ten seconds. The version prepared last is the one to send with,
      and plaintext is refused from a grace period on. */
  predicate Moved(s: State, t: State, cfg: Config) {
    && t.epochs.active.Some? && s.now <= t.now
    && t.version.protocol == t.version.sending == s.version.protocol
    && t.version.plaintextRejectedFrom
       == (if s.version.protocol != 0 && s.version.plaintextRejectedFrom.None? then Some(s.now + cfg.plaintextGrace)
           else s.version.plaintextRejectedFrom)
    && var e := t.epochs.active.value;
       && t.send.current == (if cfg.self in e.senders then Some(Ref(e.build, cfg.self)) else None)
       && (s.send.current.Some? && !Adds(s.epochs.active, e) ==>
             Held(t, s.send.current.value, s.now + cfg.sendRetention))
       && (s.send.current.Some? && Adds(s.epochs.active, e) ==> t.send.retained.None?)
       && (s.send.current.None? ==> SendSteady(s, t.(send := t.send.(current := None))))
       && Lasting(s, t)
       && (s.epochs.active.Some? && t.now < s.now + 10_000 ==>
             Among(s.epochs.active.value.(expiresAt := s.now + 10_000), t.epochs.retained))
  }

  /** The send side of an activation, with its times. */
  lemma ActivateSendTimes(s: State, cfg: Config)
    requires s.epochs.pending.Some?
    ensures var t, e := ActivateEpoch(s, cfg), s.epochs.pending.value;
            && (s.send.current.Some? && !Adds(s.epochs.active, e) ==>
                  t.send.retained == s.send.current && t.send.retainedExpires == s.now + cfg.sendRetention)
            && (s.send.current.None? ==>
                  t.send.retained == s.send.retained && t.send.retainedExpires == s.send.retainedExpires)
  {
    AddsIsAddsSender(s.epochs.active, s.epochs.pending.value);
    hide AddsSender, Adds, Unexpired;
  }

  lemma ActivateKeepsEpochs(s: State, cfg: Config)
    requires s.epochs.pending.Some?
    ensures var t := ActivateEpoch(s, cfg);
            && Lasting(s, t)
            && (s.epochs.active.Some? ==>
                  Among(s.epochs.active.value.(expiresAt := s.now + 10_000), t.epochs.retained))
  {
    ActivateFacts(s, cfg);
    hide ActivateEpoch, AddsSender, Unexpired, Lasting;
    var t := ActivateEpoch(s, cfg);
    var all := if s.epochs.active.None? then s.epochs.retained
               else s.epochs.retained + [s.epochs.active.value.(expiresAt := s.now + EPOCH_RETENTION)];
    var before := s.(epochs := s.epochs.(retained := all));
    PruneSteady(before);
    assert t.epochs.retained == PruneRetained(before).epochs.retained;
    PrunedLasts(s, before, t);
    if s.epochs.active.Some? {
      assert all[|s.epochs.retained|] == s.epochs.active.value.(expiresAt := s.now + EPOCH_RETENTION);
      PrunedHas(before, t, all[|s.epochs.retained|]);
    }
  }

  lemma PrunedHas(s: State, t: State, e: Epoch)
    requires Steady(s, PruneRetained(s)) && t.epochs.retained == PruneRetained(s).epochs.retained
    requires e in s.epochs.retained && e.expiresAt > s.now
    ensures Among(e, t.epochs.retained)
  {
  }

  lemma PrunedLasts(s: State, before: State, t: State)
    requires Steady(before, PruneRetained(before)) && t.epochs.retained == PruneRetained(before).epochs.retained
    requires s.epochs.retained <= before.epochs.retained && s.now == before.now == t.now
    ensures Lasting(s, t)
  {
    forall e | e in s.epochs.retained && e.expiresAt > t.now ensures Among(e, t.epochs.retained) {
      var i :| 0 <= i < |s.epochs.retained| && s.epochs.retained[i] == e;
      assert before.epochs.retained[i] == e;
      PrunedHas(before, t, e);
    }
  }

  lemma ActivateVersion(s: State, cfg: Config)
    requires s.epochs.pending.Some?
    ensures ActivateEpoch(s, cfg).version
            == s.version.(sending := s.version.protocol,
                          plaintextRejectedFrom :=
                            if s.version.protocol != 0 && s.version.plaintextRejectedFrom.None?
                            then Some(s.now + cfg.plaintextGrace) else s.version.plaintextRejectedFrom)
  {
    hide AddsSender, Unexpired;
  }

  lemma ActivateMoved(s: State, cfg: Config)
    requires s.epochs.pending.Some?
    ensures Moved(s, ActivateEpoch(s, cfg), cfg)
  {
    ActivateVersion(s, cfg);
    ActivateFacts(s, cfg);
    ActivateSendTimes(s, cfg);
    ActivateKeepsEpochs(s, cfg);
    AddsIsAddsSender(s.epochs.active, s.epochs.pending.value);
    hide ActivateEpoch, AddsSender, Adds, Unexpired, Lasting, Among;
  }

  lemma MovedThenSteady(s: State, t: State, u: State, cfg: Config)
    requires Moved(s, t, cfg) && Steady(t, u)
    ensures Moved(s, u, cfg)
  {
    if s.epochs.active.Some? && u.now < s.now + 10_000 {
      var left := s.epochs.active.value.(expiresAt := s.now + 10_000);
      var i :| 0 <= i < |t.epochs.retained| && SameEpoch(left, t.epochs.retained[i]);
      assert Among(t.epochs.retained[i], u.epochs.retained);
      var j :| 0 <= j < |u.epochs.retained| && SameEpoch(t.epochs.retained[i], u.epochs.retained[j]);
      assert SameEpoch(left, u.epochs.retained[j]);
    }
    assert Lasting(s, u) by {
      LastingTwice(s, t, u);
    }
  }

  lemma LastingTwice(s: State, t: State, u: State)
    requires Lasting(s, t) && Lasting(t, u) && t.now <= u.now
    ensures Lasting(s, u)
  {
    var s1 := t.(epochs := s.epochs.(active := None));
    var t1, u1 := t.(epochs := t.epochs.(active := None)), t.(now := u.now, epochs := u.epochs.(active := None));
    assert Steady(s1, t1) && Steady(t1, u1);
    SteadyTwice(s1, t1, u1);
  }

  /** Alike but for what an activation sets anyway. */
  predicate AlikeBefore(s: State, t: State) {
    && Alike(s.(version := t.version), t) && t.version.protocol == s.version.protocol
    && t.version.plaintextRejectedFrom == s.version.plaintextRejectedFrom
  }

  lemma AlikeMoved(s: State, t: State, u: State, cfg: Config)
    requires AlikeBefore(s, t) && Moved(t, u, cfg)
    ensures Moved(s, u, cfg)
  {
  }

  /** Activation and what drains after it. */
  lemma ActivateAll(s: State, t: State, cfg: Config)
    requires AlikeBefore(s, t) && t.epochs.pending.Some?
    ensures Moved(s, Activate(t, cfg).(pendingTransitionId := 0), cfg)
  {
    hide Moved, Alike, AlikeBefore, Steady, ActivateEpoch, Drain;
    ActivateMoved(t, cfg);
    var u := ActivateEpoch(t, cfg);
    DrainSteady(u, cfg);
    var v := Drain(u, cfg).(pendingTransitionId := 0);
    assert Alike(Drain(u, cfg), v) by { SameButTransition(Drain(u, cfg)); }
    ThenAlike(u, Drain(u, cfg), v);
    MovedThenSteady(t, u, v, cfg);
    AlikeMoved(s, t, v, cfg);
  }

  lemma SameButTransition(s: State)
    ensures Alike(s, s.(pendingTransitionId := 0))
  {
  }

  /** An executed transition. */
  lemma ExecuteMoves(s: State, cfg: Config, e: Event)
    requires e.ExecuteTransition? && e.transition == s.pendingTransitionId
    requires s.version.protocol != 0 && s.epochs.pending.Some?
    ensures Moved(s, Step(s, cfg, e), cfg)
  {
    var u := SetTransportOnly(s.(env := e.env, version := s.version.(sending := s.version.protocol)), false);
    assert AlikeBefore(s, u);
    hide Moved, Activate;
    ActivateAll(s, u, cfg);
  }

  /** A commit that is handled, or a welcome that is joined, in transition 0. */
  lemma MessageMoves(s: State, cfg: Config, e: Event)
    requires IdsAgree(s) && (A.Handled(s, cfg, e) || A.Joins(s, cfg, e)) && e.transition == 0
    ensures Moved(s, Step(s, cfg, e), cfg)
  {
    hide Moved, OnPrepareCommit, OnWelcome;
    var u := s.(env := e.env);
    if e.PrepareCommit? {
      CommitMoves(u, cfg, e);
    } else {
      WelcomeMoves(u, cfg, e);
    }
    assert AlikeBefore(s, u);
    AlikeMoved(s, u, Step(s, cfg, e), cfg);
  }

  lemma CommitMoves(s: State, cfg: Config, e: Event)
    requires IdsAgree(s) && A.Handled(s, cfg, e) && e.transition == 0 && e.env == s.env
    ensures Moved(s, OnPrepareCommit(s, cfg, 0, e.message), cfg)
  {
    hide Moved, Activate, Reconcile;
    var s1 := EnsureClient(s.(pendingTransitionId := 0), cfg).0;
    if A.Echo(s, e) {
      ActivateAll(s, ConfirmCommit(s1), cfg);
    } else {
      A.ReconcileAnnounces(s1, cfg, e.message);
      ReconcileSteady(s1, cfg, e.message);
      ReconcilePends(s1, cfg, e.message);
      ActivateAll(s, Reconcile(s1, cfg, e.message).0, cfg);
    }
  }

  lemma ReconcilePends(s: State, cfg: Config, msg: Option<Commit>)
    ensures Reconcile(s, cfg, msg).1 ==> Reconcile(s, cfg, msg).0.epochs.pending.Some?
  {
    hide RestorePreCommit, SendInvalid, InvalidateAndResend, ProcessCommit;
    ProcessCommitFacts(if s.mls.pendingCommit.Some? then RestorePreCommit(s).0 else s, cfg, msg);
  }

  lemma WelcomeMoves(s: State, cfg: Config, e: Event)
    requires IdsAgree(s) && A.Joins(s, cfg, e) && e.transition == 0 && e.env == s.env
    ensures Moved(s, OnWelcome(s, cfg, 0, e.welcome), cfg)
  {
    hide Moved, Activate, RestorePreCommit, Join, IdsAgree;
    var s1 := s.(pendingTransitionId := 0);
    assert IdsAgree(s1) by { A.SameIds(s, 0); }
    A.RollbackForWelcome(s1);
    RestoreAlike(s1);
    var s2 := if s1.mls.pendingCommit.Some? then RestorePreCommit(s1).0 else s1;
    var s3 := if s1.mls.pendingCommit.Some? then s2.(mls := s2.mls.(queue := [])) else s2;
    var s4 := EnsureClient(s3, cfg).0;
    A.JoinStarts(s4, e.welcome);
    JoinAlike(s4, e.welcome);
    JoinPends(s4, e.welcome);
    ActivateAll(s, Join(s4, e.welcome).0, cfg);
  }

  lemma JoinPends(s: State, w: Welcome)
    ensures Join(s, w).1 ==> Join(s, w).0.epochs.pending.Some?
  {
    hide NewRatchets, BuildEpoch;
  }

  /** Resets leave every epoch and everything about the group but the gateway's key; the ratchet
      used so far is retained for the configured time, or dropped when version 0 is selected. */
  lemma ResetHolds(s: State, cfg: Config, e: Event)
    requires e.SelectProtocolAck? || (e.PrepareEpoch? && e.epoch == 1)
    ensures var t := Step(s, cfg, e);
            && t.send.current.None? && t.epochs == Epochs(None, None, []) && s.now <= t.now
            && t.mls == Mls(t.mls.client, None, None, s.mls.externalSender, t.mls.keyPackage, [], None, None)
            && t.version.protocol == e.version
            && t.version.sending == (if e.SelectProtocolAck? then e.version else s.version.sending)
            && t.version.plaintextRejectedFrom == (if e.version == 0 then None else s.version.plaintextRejectedFrom)
            && (if e.SelectProtocolAck? && e.version == 0
                then t.send == Sending(s.send.counter, None, None, 0, None, None)
                else if s.send.current.Some? then Held(t, s.send.current.value, s.now + cfg.sendRetention)
                else SendSteady(s, t))
  {
    hide EnsureKeyPackage, WatchIfDropped, Steady;
    var u := s.(env := e.env);
    var v := e.version;
    var p := if e.SelectProtocolAck? then v else u.version.sending;
    var s1 := ResetGroup(SetTransportOnly(u.(version := u.version.(protocol := v, sending := p)), v == 0));
    var s2 := if e.SelectProtocolAck? then ResetAttempts(s1) else s1;
    if !(e.SelectProtocolAck? && v == 0) {
      assert Step(s, cfg, e) == RequestRejoin(s2, cfg);
      RejoinHolds(s2, cfg);
    }
  }

  /** An executed downgrade drops the send ratchets and lets plaintext through again, and
      leaves what was received with alone. */
  lemma DowngradeDrops(s: State, cfg: Config, e: Event)
    requires e.ExecuteTransition? && e.transition == s.pendingTransitionId && s.version.protocol == 0
    ensures var t := Step(s, cfg, e);
            && t.send == Sending(s.send.counter, None, None, 0, None, None) && t.now == s.now
            && t.version.protocol == t.version.sending == 0 && t.version.plaintextRejectedFrom.None?
            && t.epochs == s.epochs.(pending := None)
            && t.mls == s.mls.(groupId := None, pendingGroupId := None, pendingCommit := None, preCommit := None)
  {
  }

  lemma RejoinHolds(s: State, cfg: Config)
    requires s.epochs == Epochs(None, None, [])
    ensures var t := RequestRejoin(s, cfg);
            && t.send.current.None? && t.epochs == Epochs(None, None, []) && s.now <= t.now && t.version == s.version
            && t.mls == s.mls.(client := t.mls.client, keyPackage := t.mls.keyPackage)
            && (if s.send.current.Some? then Held(t, s.send.current.value, s.now + cfg.sendRetention)
                else SendSteady(s, t))
  {
    hide EnsureKeyPackage, WatchIfDropped, Lasting;
    var s1 := StopSending(s, cfg);
    KeyPackageSteady(s1, cfg);
    var (s2, o) := EnsureKeyPackage(s1, cfg);
    NoEpochsYet(s1, cfg);
    KeyPackageKeeps(s1, cfg);
    WatchLeavesEpochs(s2, cfg, o);
    WatchAlike(s2, cfg, o);
  }

  lemma NoEpochsYet(s: State, cfg: Config)
    requires s.epochs == Epochs(None, None, [])
    ensures EnsureKeyPackage(s, cfg).0.epochs == Epochs(None, None, [])
  {
    hide SendLocked, Pruned;
    var s1 := EnsureClient(s, cfg).0;
    SendLockedStep(s1, cfg);
    NothingPruned(SendLocked(s1, cfg).0.epochs.retained);
  }

  lemma NothingPruned(es: seq<Epoch>)
    ensures Pruned([], es) ==> es == []
  {
    var none: seq<Epoch> := [];
    if es != [] {
      forall kept | |kept| == |es| ensures !PrunedBy(none, es, kept) {
        assert kept[0] >= |none|;
      }
    }
  }

  lemma WatchLeavesEpochs(s: State, cfg: Config, o: Outcome)
    ensures WatchIfDropped(s, cfg, o).epochs == s.epochs && WatchIfDropped(s, cfg, o).mls == s.mls
  {
  }

  /** A member that is alone activates at once, at the version announced, exactly when it has or
      can create a group and an epoch is pending or can be built. */
  lemma SoleMemberMoves(s: State, cfg: Config, e: Event)
    requires IdsAgree(s) && e.PrepareTransition? && e.transition == 0 && s.epochs.active.None?
    ensures var t := Step(s, cfg, e);
            && t.version.protocol == t.version.sending == e.version && t.pendingTransitionId == 0
            && (t.epochs.active.Some? <==>
                  && (s.mls.groupId.Some? || A.CanFound(s.mls, s.channelId, e.env, cfg))
                  && (s.epochs.pending.Some? || e.env.rebuildOk))
  {
    hide ActivateSoleMember;
    var u := s.(env := e.env, pendingTransitionId := 0, version := s.version.(protocol := e.version,
      sending := e.version));
    SoleMemberOutcome(u, cfg);
  }

  lemma SoleMemberOutcome(s: State, cfg: Config)
    requires IdsAgree(s) && s.epochs.active.None? && s.version.sending == s.version.protocol
    ensures var t := ActivateSoleMember(s, cfg);
            && t.version.protocol == t.version.sending == s.version.protocol
            && (t.epochs.active.Some? <==>
                  && (s.mls.groupId.Some? || A.CanFound(s.mls, s.channelId, s.env, cfg))
                  && (s.epochs.pending.Some? || s.env.rebuildOk))
  {
    CreateGroupOutcome(s, cfg);
    CreateGroupSteady(s, cfg);
    var (s1, o) := CreateGroup(s, cfg);
    WatchAlike(s1, cfg, o);
    hide CreateGroup, WatchIfDropped, Activate, SetPending, A.CanFound, Lasting, IdsAgree, SendSteady;
    if s1.epochs.pending.Some? {
      ActivationSets(s1, cfg);
    } else if HasGroup(s1) {
      SessionFrames.SetPendingFacts(s1);
      SessionExamples.SetPendingLeaves(s1);
      ActivationSets(SetPending(s1), cfg);
    }
  }

  lemma ActivationSets(s: State, cfg: Config)
    requires s.epochs.pending.Some?
    ensures var t := Activate(s, cfg);
            t.epochs.active.Some? && t.version.protocol == t.version.sending == s.version.protocol
  {
    hide ActivateEpoch, Drain, Moved;
    ActivateMoved(s, cfg);
    DrainSteady(ActivateEpoch(s, cfg), cfg);
    MovedThenSteady(s, ActivateEpoch(s, cfg), Drain(ActivateEpoch(s, cfg), cfg), cfg);
    MovedSets(s, Drain(ActivateEpoch(s, cfg), cfg), cfg);
  }

  lemma MovedSets(s: State, t: State, cfg: Config)
    requires Moved(s, t, cfg)
    ensures t.epochs.active.Some? && t.version.protocol == t.version.sending == s.version.protocol
  {
  }

  lemma CreateGroupOutcome(s: State, cfg: Config)
    requires IdsAgree(s)
    ensures var (t, o) := CreateGroup(s, cfg);
            && (o.Done? <==> s.mls.groupId.Some? || A.CanFound(s.mls, s.channelId, s.env, cfg))
            && (o.Done? ==> HasGroup(t)) && t.epochs.pending.None? == s.epochs.pending.None?
            && t.env.rebuildOk == s.env.rebuildOk
  {
    A.KeyPackageOutcome(s, cfg);
    KeyPackageKeeps(s, cfg);
    hide EnsureKeyPackage;
  }

  // ---- Over runs ----

  lemma SteadyHolds(s: State, t: State, r: Ref, d: Time)
    requires Held(s, r, d) && SteadyBut(s, t)
    ensures Held(t, r, d)
  {
    hide Lasting;
  }

  /** No event from k on switches anything. */
  ghost predicate Undisturbed(cfg: Config, es: seq<Event>, k: nat) {
    forall i :: k <= i < |es| ==> !Switches(Run(Init(), cfg, es[..i]), es[i])
  }

  lemma SelfSteady(s: State)
    ensures SteadyBut(s, s)
  {
    AlikeSteady(s, s);
  }

  lemma SteadyButThen(s: State, t: State, u: State, v: Versions)
    requires SteadyBut(s, t) && Steady(t.(version := v), u)
    ensures SteadyBut(s, u)
  {
    hide Steady;
    assert u.version == v by { SteadyVersion(t.(version := v), u); }
    assert Steady(s.(version := v), t.(version := v)) by { OtherVersion(s, t, v); }
    SteadyTwice(s.(version := v), t.(version := v), u);
  }

  lemma SteadyVersion(s: State, t: State)
    requires Steady(s, t)
    ensures t.version == s.version
  {
  }

  lemma OtherVersion(s: State, t: State, v: Versions)
    requires SteadyBut(s, t)
    ensures Steady(s.(version := v), t.(version := v))
  {
  }

  lemma {:induction false} RunSteady(cfg: Config, es: seq<Event>, k: nat)
    requires k <= |es| && Undisturbed(cfg, es, k)
    ensures SteadyBut(Run(Init(), cfg, es[..k]), Run(Init(), cfg, es))
    decreases |es|
  {
    hide SteadyBut, Steady, Step, Switches;
    if k == |es| {
      assert es[..k] == es;
      SelfSteady(Run(Init(), cfg, es));
    } else {
      var n := |es| - 1;
      assert es[..n][..k] == es[..k];
      assert forall i :: k <= i < n ==> es[..n][..i] == es[..i] && es[..n][i] == es[i];
      RunSteady(cfg, es[..n], k);
      StepSteady(Run(Init(), cfg, es[..n]), cfg, es[n]);
      SteadyButThen(Run(Init(), cfg, es[..k]), Run(Init(), cfg, es[..n]), Run(Init(), cfg, es),
        VersionAfter(Run(Init(), cfg, es[..n]), es[n]));
    }
  }

  /** The event at s keeps the ratchet in use for a while: a transition executed, or a message
      activated at once, that adds nobody, or a reset that is not to version 0. */
  ghost predicate Keeps(s: State, cfg: Config, e: Event) {
    && s.send.current.Some?
    && (|| (Activates(s, cfg, e) && !Adds(s.epochs.active, NewEpoch(Step(s, cfg, e))))
        || (e.SelectProtocolAck? && e.version != 0) || (e.PrepareEpoch? && e.epoch == 1))
  }

  predicate Activates(s: State, cfg: Config, e: Event) {
    || (e.ExecuteTransition? && e.transition == s.pendingTransitionId && s.version.protocol != 0 &&
        s.epochs.pending.Some?)
    || ((A.Handled(s, cfg, e) || A.Joins(s, cfg, e)) && e.transition == 0)
  }

  function NewEpoch(t: State): Epoch {
    if t.epochs.active.Some? then t.epochs.active.value else Epoch(0, 0, Created(0, 0), map[], 0)
  }

  lemma ActivatesMoves(s: State, cfg: Config, e: Event)
    requires IdsAgree(s) && Activates(s, cfg, e)
    ensures Moved(s, Step(s, cfg, e), cfg)
  {
    hide Moved, Step, IdsAgree;
    if e.ExecuteTransition? { ExecuteMoves(s, cfg, e); } else { MessageMoves(s, cfg, e); }
  }

  lemma KeepsHolds(s: State, cfg: Config, e: Event)
    requires IdsAgree(s) && Keeps(s, cfg, e)
    ensures Held(Step(s, cfg, e), s.send.current.value, s.now + cfg.sendRetention)
  {
    hide Step, IdsAgree, Held, Adds;
    if Activates(s, cfg, e) { ActivatesMoves(s, cfg, e); } else { ResetHolds(s, cfg, e); }
  }

  lemma LastUse(s: State, cfg: Config, frame: seq<byte>, room: nat)
    requires Shape(s, cfg) && NextRatchet(s).Some?
    ensures var v := Encrypt(s, cfg, frame, room).0;
            && |v.log.sends| == |s.log.sends| + 1 && v.log.sends[|s.log.sends|].full == NextValue(s)
            && Some(v.log.sends[|s.log.sends|].ref) == NextRatchet(s)
  {
    SelectedRatchet(s);
    var s0 := SelectSendRatchet(s);
    assert NextRatchet(s).value in s.ratchets && s0.log.sends == s.log.sends;
    hide Shape, SelectSendRatchet, NextCounter, EncryptWith;
    SessionCounter.UseFacts(s0, cfg, NextRatchet(s).value, frame, room);
  }

  /** In every run: after an event that keeps the ratchet r in use at the time T, and until the
      next event that switches anything, a frame sealed before T plus the configured retention
      goes out on r with the next counter value, and from then on on the current ratchet, the
      first time with the value 1. */
  lemma SendRetention(cfg: Config, es: seq<Event>, k: nat, frame: seq<byte>, room: nat)
    requires k < |es| && Keeps(Run(Init(), cfg, es[..k]), cfg, es[k]) && Undisturbed(cfg, es, k + 1)
    ensures var s, u := Run(Init(), cfg, es[..k]), Run(Init(), cfg, es);
            var n, v := |u.log.sends|, Encrypt(u, cfg, frame, room).0;
            && u.send.current == Run(Init(), cfg, es[..k + 1]).send.current
            && (u.now < s.now + cfg.sendRetention ==>
                  && |v.log.sends| == n + 1 && v.log.sends[n].ref == s.send.current.value
                  && v.log.sends[n].full == (u.send.counter + 1) % TWO64)
            && (u.now >= s.now + cfg.sendRetention && u.send.current.Some? ==>
                  && |v.log.sends| == n + 1 && Some(v.log.sends[n].ref) == u.send.current
                  && (u.send.retained.Some? ==> v.log.sends[n].full == 1))
  {
    hide Run, Step, Undisturbed, Shape, Fresh, GroupIds, IdsAgree, SessionConvergence.Agrees, Keeps, Encrypt, Lasting,
         HasGroup;
    var s, e, u := Run(Init(), cfg, es[..k]), es[k], Run(Init(), cfg, es);
    var t := Run(Init(), cfg, es[..k + 1]);
    RunNext(cfg, es, k);
    SessionConvergence.ReachableGroups(cfg, es[..k]);
    SessionConvergence.ReachableGroups(cfg, es);
    RunSteady(cfg, es, k + 1);
    assert s.send.current.Some? by { KeepsSome(s, cfg, e); }
    KeepsHolds(s, cfg, e);
    SteadyHolds(t, u, s.send.current.value, s.now + cfg.sendRetention);
    if NextRatchet(u).Some? { LastUse(u, cfg, frame, room); }
  }

  lemma RunNext(cfg: Config, es: seq<Event>, k: nat)
    requires k < |es|
    ensures Run(Init(), cfg, es[..k + 1]) == Step(Run(Init(), cfg, es[..k]), cfg, es[k])
  {
    hide Step;
    assert es[..k + 1][..k] == es[..k] && es[..k + 1][k] == es[k];
  }

  lemma KeepsSome(s: State, cfg: Config, e: Event)
    requires Keeps(s, cfg, e)
    ensures s.send.current.Some?
  {
  }

  /** And after an activation that adds somebody, every frame goes out on the new epoch's
      ratchet at once. */
  lemma JoinSwitches(cfg: Config, es: seq<Event>, k: nat, frame: seq<byte>, room: nat)
    requires k < |es| && Activates(Run(Init(), cfg, es[..k]), cfg, es[k]) && Undisturbed(cfg, es, k + 1)
    requires var s, t := Run(Init(), cfg, es[..k]), Run(Init(), cfg, es[..k + 1]);
             s.send.current.Some? && Adds(s.epochs.active, NewEpoch(t)) && cfg.self in NewEpoch(t).senders
    ensures var t, u := Run(Init(), cfg, es[..k + 1]), Run(Init(), cfg, es);
            var n, v := |u.log.sends|, Encrypt(u, cfg, frame, room).0;
            && |v.log.sends| == n + 1 && v.log.sends[n].ref == Ref(NewEpoch(t).build, cfg.self)
            && v.log.sends[n].full == (u.send.counter + 1) % TWO64
  {
    hide Run, Step, Undisturbed, Shape, Fresh, GroupIds, IdsAgree, SessionConvergence.Agrees, Activates, Encrypt,
         Lasting, Adds, Among, HasGroup;
    var s, e, u := Run(Init(), cfg, es[..k]), es[k], Run(Init(), cfg, es);
    RunNext(cfg, es, k);
    SessionConvergence.ReachableGroups(cfg, es[..k]);
    SessionConvergence.ReachableGroups(cfg, es);
    RunSteady(cfg, es, k + 1);
    ActivatesMoves(s, cfg, e);
    LastUse(u, cfg, frame, room);
  }
}
