/** Every send that matters and is dropped leaves somebody watching: a watchdog that will reset
    the session unless an epoch becomes ready in time. */
module SessionGuard {
  import opened Bytes
  import opened SessionState
  import opened SessionMedia
  import opened SessionControl
  import opened SessionActions
  import opened SessionPaths
  import opened SessionGroups
  import opened SessionConvergence
  import opened SessionRecovery
  import A = SessionAnnouncements
  import SessionFrames
  import SessionExpiry
  import SessionQueue
  import SessionExamples

  /** Somebody watches the current channel, which is open, and will time out a recovery
      timeout from now. */
  ghost predicate OnGuard(t: State, cfg: Config, forCommit: bool) {
    && t.recovery.epochReady !in t.recovery.closed
    && exists id :: id in t.recovery.watchdogs && t.recovery.watchdogs[id]
         == Waiting(t.recovery.epochReady, forCommit, t.pendingTransitionId, t.now + cfg.recoveryTimeout)
  }

  /** A watchdog is started on a new channel unless the session is closed or, for recovery,
      three attempts are spent. */
  ghost predicate Guarded(s: State, t: State, cfg: Config, forCommit: bool) {
    && t.recovery.epochReady == s.recovery.epochReady + 1 && s.recovery.epochReady in t.recovery.closed
    && t.recovery.attempts == s.recovery.attempts
    && (!t.shutdown && (forCommit || t.recovery.attempts < 3) ==> OnGuard(t, cfg, forCommit))
    && (t.shutdown ==> t.recovery.watchdogs == s.recovery.watchdogs)
  }

  /** Nobody new watches. */
  predicate Unguarded(s: State, t: State) { t.recovery == s.recovery }

  lemma DroppedIsGuarded(s: State, cfg: Config)
    requires ChannelsOk(s)
    ensures Guarded(s, WatchDroppedSend(s, cfg), cfg, false) && Guarded(s, ArmCommitWatchdog(s, cfg), cfg, true)
  {
    var t, u := WatchDroppedSend(s, cfg), ArmCommitWatchdog(s, cfg);
    if !s.shutdown {
      assert s.recovery.nextWatchdog in u.recovery.watchdogs;
      if s.recovery.attempts < MAX_RECOVERY_ATTEMPTS { assert s.recovery.nextWatchdog in t.recovery.watchdogs; }
    }
  }

  /** The gateway's answer to the first send of an event. */
  predicate Drops(env: Env) { env.replies != [] && !env.replies[0].delivered }

  lemma SendKeepsRecovery(s: State, cfg: Config)
    ensures SendLocked(s, cfg).0.recovery == s.recovery && (SendLocked(s, cfg).1.Dropped? <==> Drops(s.env))
    ensures SendLocked(s, cfg).0.mls == s.mls
    ensures SendLocked(s, cfg).0.epochs.active.None? == s.epochs.active.None?
  {
    A.SendOutcome(s, cfg);
    hide SendLocked;
    SendKeeps(s, cfg);
  }

  lemma SameChannelsOk(s: State, t: State)
    requires ChannelsOk(s) && t.recovery == s.recovery
    ensures ChannelsOk(t)
  {
  }

  lemma GuardedFrom(s: State, u: State, t: State, cfg: Config, forCommit: bool)
    requires Guarded(u, t, cfg, forCommit) && u.recovery == s.recovery
    ensures Guarded(s, t, cfg, forCommit)
  {
  }

  // ---- Key packages ----

  lemma KeyPackageGuarded(s: State, cfg: Config)
    requires ChannelsOk(s) && cfg.validUser && cfg.hasCallbacks && !s.mls.keyPackage
    ensures var (t, o) := EnsureKeyPackage(s, cfg);
            var u := WatchIfDropped(t, cfg, o);
            if Drops(s.env) then Guarded(s, u, cfg, false) else Unguarded(s, u) && u.mls.keyPackage
  {
    hide SendLocked, WatchDroppedSend, ChannelsOk;
    var s1 := EnsureClient(s, cfg).0;
    SendKeepsRecovery(s1, cfg);
    var s2 := SendLocked(s1, cfg).0;
    SameChannelsOk(s, s2);
    DroppedIsGuarded(s2, cfg);
    GuardedFrom(s, s2, WatchDroppedSend(s2, cfg), cfg, false);
  }

  /** After a reset the key package is sent anew; if it is dropped, the session is on guard
      on one more channel. */
  lemma ResetGuarded(s: State, cfg: Config, e: Event)
    requires ChannelsOk(s) && cfg.validUser && cfg.hasCallbacks
    requires (e.SelectProtocolAck? && e.version != 0) || (e.PrepareEpoch? && e.epoch == 1)
    ensures var t := Step(s, cfg, e);
            && t.recovery.epochReady == s.recovery.epochReady + (if Drops(e.env) then 2 else 1)
            && t.recovery.attempts == (if e.SelectProtocolAck? then 0 else s.recovery.attempts)
            && (if !Drops(e.env) then t.mls.keyPackage && t.recovery.watchdogs == s.recovery.watchdogs
                else !t.shutdown && t.recovery.attempts < 3 ==> OnGuard(t, cfg, false))
  {
    hide EnsureKeyPackage, WatchIfDropped;
    var u := s.(env := e.env);
    var p := if e.SelectProtocolAck? then e.version else u.version.sending;
    var s1 := ResetGroup(SetTransportOnly(u.(version := u.version.(protocol := e.version, sending := p)),
      e.version == 0));
    var s2 := if e.SelectProtocolAck? then ResetAttempts(s1) else s1;
    assert Step(s, cfg, e) == RequestRejoin(s2, cfg);
    var s3 := StopSending(s2, cfg);
    assert ChannelsOk(s3);
    KeyPackageGuarded(s3, cfg);
  }

  /** Founding a group starts with the key package. */
  lemma FoundingGuarded(s: State, cfg: Config, e: Event)
    requires ChannelsOk(s) && cfg.validUser && cfg.hasCallbacks && !s.mls.keyPackage
    requires e.ExternalSender? && e.nonEmpty && s.mls.groupId.None? && s.channelId != 0
    ensures var t := Step(s, cfg, e);
            if Drops(e.env) then Guarded(s, t, cfg, false) && t.mls.groupId.None? else Unguarded(s, t)
  {
    hide EnsureKeyPackage, WatchDroppedSend;
    var u := s.(env := e.env, mls := s.mls.(externalSender := true));
    assert ChannelsOk(u);
    KeyPackageGuarded(u, cfg);
    A.KeyPackageOutcome(u, cfg);
    KeyPackageLeavesGroup(u, cfg);
  }

  lemma KeyPackageLeavesGroup(s: State, cfg: Config)
    ensures var (t, o) := EnsureKeyPackage(s, cfg);
            && t.mls.groupId == s.mls.groupId && t.recovery == s.recovery
            && (o.Failed? ==> o.bySend == t.mls.client.Some?)
            && WatchDroppedSend(t, cfg).mls == t.mls
  {
    hide SendLocked, Pruned;
    SendKeepsRecovery(EnsureClient(s, cfg).0, cfg);
  }

  // ---- Own commits ----

  /** A batch that becomes a commit: if the gateway takes it, the commit stays and is watched;
      if it is dropped, the group is what it was, and the session is on guard. */
  lemma CommitGuarded(s: State, cfg: Config, e: Event)
    requires ChannelsOk(s) && cfg.hasCallbacks && e.Proposals? && HasGroup(s) && s.epochs.pending.None?
    requires e.batch.acceptedAny && e.batch.loadOk && e.batch.commitOk && e.batch.rebuildOk && e.batch.welcomeOk
    ensures var t := Step(s, cfg, e);
            && HasGroup(t) && Guarded(s, t, cfg, !Drops(e.env))
            && (if Drops(e.env)
                then && TheGroup(t) == TheGroup(s) && t.mls.pendingCommit.None? && t.epochs.pending.None?
                else && TheGroup(t) == Apply(TheGroup(s), e.batch.commit) && t.epochs.pending.Some?
                     && t.mls.pendingCommit == Some(e.batch.commit) && t.mls.preCommit == Some(TheGroup(s)))
  {
    hide MakeCommit, SetPending, SendCommit, ChannelsOk, Guarded, NewRatchets, BuildEpoch;
    var b := e.batch.(id := s.log.arrived);
    var u := SessionExamples.Taken(s.(env := e.env, log := s.log.(arrived := s.log.arrived + 1)), b);
    SessionExamples.OwnCommitFacts(u, b.commit);
    var m := MakeCommit(u, b.commit);
    SessionExamples.SetPendingLeaves(m);
    SessionFrames.SetPendingFacts(m);
    var p := SetPending(m);
    CommitSteps(s, cfg, e);
    SameChannelsOk(s, p);
    SendCommitGuarded(p, cfg);
    GuardedFrom(s, p, SendCommit(p, cfg), cfg, !Drops(e.env));
  }

  lemma CommitSteps(s: State, cfg: Config, e: Event)
    requires cfg.hasCallbacks && e.Proposals? && HasGroup(s) && s.epochs.pending.None?
    requires e.batch.acceptedAny && e.batch.loadOk && e.batch.commitOk && e.batch.rebuildOk && e.batch.welcomeOk
    ensures var b := e.batch.(id := s.log.arrived);
            var u := SessionExamples.Taken(s.(env := e.env, log := s.log.(arrived := s.log.arrived + 1)), b);
            && HasGroup(MakeCommit(u, b.commit))
            && Step(s, cfg, e) == SendCommit(SetPending(MakeCommit(u, b.commit)), cfg)
  {
    hide MakeCommit, SetPending, SendCommit;
    var b := e.batch.(id := s.log.arrived);
    var u := SessionExamples.Taken(s.(env := e.env, log := s.log.(arrived := s.log.arrived + 1)), b);
    SessionExamples.OwnCommitFacts(u, b.commit);
    assert CommitProposals(u, cfg, b) == SendCommit(SetPending(MakeCommit(u, b.commit)), cfg);
  }

  lemma SendCommitGuarded(p: State, cfg: Config)
    requires ChannelsOk(p) && HasGroup(p) && p.mls.preCommit.Some? && p.epochs.pending.Some?
    ensures var t := SendCommit(p, cfg);
            && HasGroup(t) && Guarded(p, t, cfg, !Drops(p.env))
            && (if Drops(p.env)
                then && TheGroup(t) == p.mls.preCommit.value && t.mls.pendingCommit.None? && t.epochs.pending.None?
                else t.mls == p.mls && t.epochs.pending.Some?)
  {
    hide SendLocked, ChannelsOk, Guarded, WatchDroppedSend, ArmCommitWatchdog;
    SendKeepsRecovery(p, cfg);
    SendKeeps(p, cfg);
    var s1 := SendLocked(p, cfg).0;
    var s2 := RestorePreCommit(s1).0;
    SameChannelsOk(p, s1);
    SameChannelsOk(p, s2);
    DroppedIsGuarded(s1, cfg);
    DroppedIsGuarded(s2, cfg);
    GuardedFrom(p, s1, ArmCommitWatchdog(s1, cfg), cfg, true);
    GuardedFrom(p, s2, WatchDroppedSend(s2, cfg), cfg, false);
    WatchLeavesMls(s1, cfg);
    WatchLeavesMls(s2, cfg);
  }

  lemma WatchLeavesMls(s: State, cfg: Config)
    ensures WatchDroppedSend(s, cfg).mls == s.mls && WatchDroppedSend(s, cfg).epochs == s.epochs
    ensures ArmCommitWatchdog(s, cfg).mls == s.mls && ArmCommitWatchdog(s, cfg).epochs == s.epochs
  {
  }

  /** A batch without anything acceptable, without a group to commit in, or that the library
      cannot commit changes nothing but the record of batches. */
  lemma NothingCommitted(s: State, cfg: Config, e: Event)
    requires e.Proposals? && s.epochs.pending.None?
    requires !HasGroup(s) || !e.batch.acceptedAny || !e.batch.loadOk || !e.batch.commitOk
    ensures var t := Step(s, cfg, e);
            && t == s.(env := e.env, mls := s.mls.(client := t.mls.client),
                       log := s.log.(arrived := s.log.arrived + 1, processed := t.log.processed))
            && t.log.processed == s.log.processed + (if A.ClientReady(s, cfg) then [s.log.arrived] else [])
            && (s.mls.client.Some? ==> t.mls.client == s.mls.client)
  {
    hide CommitProposals, ProcessAndCommit;
    var b, u := e.batch.(id := s.log.arrived), s.(env := e.env, log := s.log.(arrived := s.log.arrived + 1));
    assert Step(s, cfg, e) == ProcessAndCommit(u, cfg, b);
    NothingProcessed(u, cfg, b);
  }

  lemma NothingProcessed(s: State, cfg: Config, b: Batch)
    requires s.epochs.pending.None? && (!HasGroup(s) || !b.acceptedAny || !b.loadOk || !b.commitOk)
    ensures var t := ProcessAndCommit(s, cfg, b);
            && t == s.(mls := s.mls.(client := t.mls.client), log := s.log.(processed := t.log.processed))
            && t.log.processed == s.log.processed + (if A.ClientReady(s, cfg) then [b.id] else [])
            && (s.mls.client.Some? ==> t.mls.client == s.mls.client)
  {
    hide CommitProposals;
    var s1 := EnsureClient(s, cfg).0;
    var s2 := s1.(log := s1.log.(processed := s1.log.processed + [b.id]));
    NoProposals(s2, cfg, b);
  }

  lemma NoProposals(s: State, cfg: Config, b: Batch)
    requires s.epochs.pending.None?
    ensures !HasGroup(s) || !b.loadOk || !b.commitOk ==> CommitProposals(s, cfg, b) == s
  {
    hide MakeCommit, SetPending, SendCommit;
  }

  // ---- Readiness ----

  /** The report that the session is ready for an echoed commit matters, and is watched when it
      is dropped, exactly while the session has no epoch at all. */
  lemma ReadyGuarded(s: State, cfg: Config, e: Event)
    requires ChannelsOk(s) && cfg.hasCallbacks && A.Handled(s, cfg, e) && A.Echo(s, e) && e.transition != 0
    ensures var t := Step(s, cfg, e);
            if Drops(e.env) && s.epochs.active.None? then Guarded(s, t, cfg, false) else Unguarded(s, t)
  {
    hide SendLocked, ChannelsOk, Guarded, WatchDroppedSend;
    var u := ConfirmCommit(EnsureClient(s.(env := e.env, pendingTransitionId := e.transition), cfg).0);
    assert u.recovery == s.recovery && u.env == e.env && u.epochs.active == s.epochs.active;
    assert Step(s, cfg, e) == SendReady(u, cfg);
    SendKeepsRecovery(u, cfg);
    var s1 := SendLocked(u, cfg).0;
    SameChannelsOk(s, s1);
    DroppedIsGuarded(s1, cfg);
    GuardedFrom(s, s1, WatchDroppedSend(s1, cfg), cfg, false);
  }

  // ---- Messages that fail ----

  /** Nothing is left of the group but the gateway's key. */
  predicate LeftGroup(s: State, t: State) {
    t.mls == Mls(t.mls.client, None, None, s.mls.externalSender, t.mls.keyPackage, [], None, None)
  }

  lemma InvalidateGuarded(s: State, cfg: Config)
    requires ChannelsOk(s)
    ensures var t := InvalidateAndResend(s, cfg);
            Guarded(s, t, cfg, false) && t.epochs.pending.None? && LeftGroup(s, t)
  {
    hide EnsureKeyPackage;
    var s1 := InvalidateMls(s);
    KeyPackageKeeps(s1, cfg);
    KeyPackageLeavesGroup(s1, cfg);
    var s2, t := EnsureKeyPackage(s1, cfg).0, InvalidateAndResend(s, cfg);
    if !s2.shutdown && s2.recovery.attempts < MAX_RECOVERY_ATTEMPTS {
      assert s.recovery.nextWatchdog in t.recovery.watchdogs;
    }
  }

  lemma GiveUpGuarded(s: State, t: State, cfg: Config)
    requires ChannelsOk(s) && t.recovery == s.recovery && t.mls.externalSender == s.mls.externalSender
    ensures var u := InvalidateAndResend(SendInvalid(t, cfg), cfg);
            Guarded(s, u, cfg, false) && u.epochs.pending.None? && LeftGroup(s, u)
  {
    hide SendInvalid, InvalidateAndResend, ChannelsOk, Guarded;
    InvalidKeepsRecovery(t, cfg);
    SameChannelsOk(s, SendInvalid(t, cfg));
    InvalidateGuarded(SendInvalid(t, cfg), cfg);
    GuardedFrom(s, SendInvalid(t, cfg), InvalidateAndResend(SendInvalid(t, cfg), cfg), cfg, false);
  }

  lemma ProcessKeepsRecovery(s: State, cfg: Config, msg: Option<Commit>, w: Welcome)
    ensures ProcessCommit(s, cfg, msg).0.recovery == s.recovery && Join(s, w).0.recovery == s.recovery
    ensures RestorePreCommit(s).0.recovery == s.recovery
    ensures ProcessCommit(s, cfg, msg).0.mls.externalSender == s.mls.externalSender
    ensures Join(s, w).0.mls.externalSender == s.mls.externalSender
    ensures RestorePreCommit(s).0.mls.externalSender == s.mls.externalSender
  {
    hide NewRatchets, BuildEpoch, Apply;
  }

  /** A commit or a welcome that cannot be handled leaves the group, and the session on guard. */
  lemma FailureGuarded(s: State, cfg: Config, e: Event)
    requires ChannelsOk(s) && IdsAgree(s) && A.ClientReady(s, cfg)
    requires (e.PrepareCommit? && !A.Handled(s, cfg, e) && !A.Echo(s, e)) || (e.GetWelcome? && !A.Joins(s, cfg, e))
    ensures var t := Step(s, cfg, e);
            Guarded(s, t, cfg, false) && t.epochs.pending.None? && LeftGroup(s, t)
  {
    hide IdsAgree, OnPrepareCommit, OnWelcome, Guarded, ChannelsOk;
    var u := s.(env := e.env);
    SameIdsEnv(s, e.env);
    SameChannelsOk(s, u);
    if e.PrepareCommit? {
      CommitFailureGuarded(u, cfg, e);
    } else {
      WelcomeFailureGuarded(u, cfg, e);
    }
    GuardedFrom(s, u, Step(s, cfg, e), cfg, false);
  }

  lemma CommitFailureGuarded(s: State, cfg: Config, e: Event)
    requires ChannelsOk(s) && IdsAgree(s) && A.ClientReady(s, cfg)
    requires e.PrepareCommit? && e.env == s.env && !A.Handled(s, cfg, e) && !A.Echo(s, e)
    ensures var t := OnPrepareCommit(s, cfg, e.transition, e.message);
            Guarded(s, t, cfg, false) && t.epochs.pending.None? && LeftGroup(s, t)
  {
    hide RestorePreCommit, ProcessCommit, SendInvalid, InvalidateAndResend, ChannelsOk, Guarded;
    var s1 := EnsureClient(s.(pendingTransitionId := e.transition), cfg).0;
    A.ReconcileAnnounces(s1, cfg, e.message);
    if s1.mls.pendingCommit.Some? { A.RestoreKeepsGroupId(s1); }
    var s2 := if s1.mls.pendingCommit.Some? then RestorePreCommit(s1).0 else s1;
    ProcessKeepsRecovery(s1, cfg, e.message, NO_WELCOME);
    ProcessKeepsRecovery(s2, cfg, e.message, NO_WELCOME);
    GiveUpGuarded(s, ProcessCommit(s2, cfg, e.message).0, cfg);
  }

  const NO_WELCOME := Welcome(0, Group(Created(0, 0), {}), false, false)

  lemma WelcomeFailureGuarded(s: State, cfg: Config, e: Event)
    requires ChannelsOk(s) && IdsAgree(s) && A.ClientReady(s, cfg)
    requires e.GetWelcome? && e.env == s.env && !A.Joins(s, cfg, e)
    ensures var t := OnWelcome(s, cfg, e.transition, e.welcome);
            Guarded(s, t, cfg, false) && t.epochs.pending.None? && LeftGroup(s, t)
  {
    hide RestorePreCommit, Join, SendInvalid, InvalidateAndResend, ChannelsOk, Guarded, IdsAgree;
    var s1 := s.(pendingTransitionId := e.transition);
    A.SameIds(s, e.transition);
    A.RollbackForWelcome(s1);
    ProcessKeepsRecovery(s1, cfg, None, NO_WELCOME);
    var s2 := if s1.mls.pendingCommit.Some? then RestorePreCommit(s1).0 else s1;
    var s3 := if s1.mls.pendingCommit.Some? then s2.(mls := s2.mls.(queue := [])) else s2;
    var s4 := EnsureClient(s3, cfg).0;
    A.JoinStarts(s4, e.welcome);
    ProcessKeepsRecovery(s4, cfg, None, e.welcome);
    GiveUpGuarded(s, Join(s4, e.welcome).0, cfg);
  }

  // ---- Closing ----

  /** Nothing is started and nothing fires any more. */
  predicate Quieter(s: State, t: State) {
    && t.shutdown && t.recovery.watchdogs.Keys <= s.recovery.watchdogs.Keys
    && t.log.recoveryFires == s.log.recoveryFires && t.log.commitFires == s.log.commitFires
  }

  lemma OwnAfterClose(s: State, cfg: Config, a: Action)
    requires s.shutdown && Enabled(s, cfg, a) && (a.AResetAttempts? || a.ARemove? || a.AFire? || a.APhase?)
    ensures Quieter(s, Do(s, cfg, a))
  {
    hide RunCall, NewRatchets, ActivateEpoch, BuildEpoch, SetPending, Join, RestorePreCommit, MakeCommit, PeerCommit,
         NewGroup, ConfirmCommit, InvalidateMls, ResetGroup, Downgrade, GoWatchdog, ResetEpochReady;
  }

  lemma ActionAfterClose(s: State, cfg: Config, a: Action)
    requires s.shutdown && Enabled(s, cfg, a)
    ensures Quieter(s, Do(s, cfg, a))
  {
    hide Do, Enabled, Pruned;
    assert Do(s, cfg, a).shutdown by {
      if a.ACall? { CallKeepsClosed(s, cfg, a); } else { SessionExpiry.ActionKeepsClock(s, cfg, a); }
    }
    if !TouchesRecovery(a) {
      OtherActionsKeepRecovery(s, cfg, a);
    } else if a.AInvalidate? || a.AResetGroup? || a.ADowngrade? || a.AResetReady? {
      ResetEffect(s, cfg, a);
    } else if a.AWatchDropped? || a.AArmRecovery? || a.AArmCommit? || a.ASucceed? {
      ArmEffect(s, cfg, a);
    } else if a.AActivate? {
      ActivateEffect(s, cfg, a);
    } else {
      OwnAfterClose(s, cfg, a);
    }
  }

  lemma CallKeepsClosed(s: State, cfg: Config, a: Action)
    requires s.shutdown && a.ACall?
    ensures Enabled(s, cfg, a) && Do(s, cfg, a).shutdown
  {
    hide RunCall, Pruned;
    CallStep(s, cfg, a.call);
  }

  lemma {:induction false} PathAfterClose(s: State, cfg: Config, xs: seq<Action>, t: State)
    requires s.shutdown && Path(s, cfg, xs, t)
    ensures Quieter(s, t)
    decreases |xs|
  {
    hide Do, Enabled;
    if xs != [] {
      ActionAfterClose(s, cfg, xs[0]);
      PathAfterClose(Do(s, cfg, xs[0]), cfg, xs[1..], t);
    }
  }

  /** After Close, whatever happens, no watchdog is started and none fires. */
  lemma ClosedForGood(cfg: Config, es: seq<Event>, fs: seq<Event>)
    ensures var s := Run(Init(), cfg, es + [Media(Close)]);
            Quieter(Run(Init(), cfg, es), s) && Quieter(s, Run(s, cfg, fs))
  {
    var c := es + [Media(Close)];
    assert c[..|es|] == es && c[|es|] == Media(Close);
    var r, s := Run(Init(), cfg, es), Run(Init(), cfg, c);
    assert s == r.(shutdown := true);
    ChannelDiscipline(cfg, c);
    hide Run;
    RunLeads(s, cfg, fs);
    var xs :| Path(s, cfg, xs, Run(s, cfg, fs));
    hide Path;
    PathAfterClose(s, cfg, xs, Run(s, cfg, fs));
  }

  // ---- Timing ----

  /** A watchdog that waits does nothing before its deadline; from then on it is gone when its
      channel was closed, the session was, or it watched a commit that is no longer pending,
      and otherwise it fires, which counts as one attempt, leaves the group, and sends the key
      package up to six times. */
  lemma FiresExactly(s: State, cfg: Config, id: nat, env: Env)
    requires id in s.recovery.watchdogs && s.recovery.watchdogs[id].Waiting?
    ensures var w, t := s.recovery.watchdogs[id], Step(s, cfg, WatchdogRuns(id, env));
            var moot := s.shutdown || w.chan in s.recovery.closed;
            if s.now >= w.deadline && !moot && (w.forCommit ==> s.epochs.pending.Some?) then
              && t.recovery.attempts == s.recovery.attempts + 1 && LeftGroup(s, t) && t.epochs.pending.None?
              && t.recovery.epochReady == s.recovery.epochReady + 1 && id in t.recovery.watchdogs
              && t.recovery.watchdogs[id] == (if cfg.validUser then Retrying(t.recovery.epochReady, 6)
                                              else Finishing(t.recovery.epochReady))
            else if s.now >= w.deadline || moot then
              t == s.(env := env, recovery := s.recovery.(watchdogs := s.recovery.watchdogs - {id}))
            else t == s.(env := env)
  {
    hide SendInvalid, EnsureClient;
    var u := s.(env := env);
    var s0 := StartFire(u, id, u.recovery.watchdogs[id]);
    InvalidKeepsRecovery(s0, cfg);
    ClientLeaves(InvalidateMls(SendInvalid(s0, cfg)), cfg);
  }

  /** One of those times: it is the last one when the channel was closed meanwhile, the package
      has gone out, the gateway refuses for another reason than a shard that is not ready, or
      none is left. */
  lemma RetriesExactly(s: State, cfg: Config, id: nat, env: Env)
    requires id in s.recovery.watchdogs && s.recovery.watchdogs[id].Retrying?
    ensures var w, t := s.recovery.watchdogs[id], Step(s, cfg, WatchdogRuns(id, env));
            var sends := w.attemptsLeft > 0 && !s.shutdown && w.chan !in s.recovery.closed && !s.mls.keyPackage;
            var again := sends && w.attemptsLeft > 1 && cfg.hasCallbacks && Drops(env) && env.replies[0].shardNotReady;
            && t.recovery == s.recovery.(watchdogs := s.recovery.watchdogs[id
                 := if again then Retrying(w.chan, w.attemptsLeft - 1) else Finishing(w.chan)])
            && t.mls.keyPackage == (s.mls.keyPackage || (sends && !(cfg.hasCallbacks && Drops(env))))
  {
    var u := s.(env := env);
    SendKeepsRecovery(u, cfg);
    if Drops(env) { NotReady(u, cfg); }
    hide SendLocked;
  }

  lemma NotReady(s: State, cfg: Config)
    requires Drops(s.env)
    ensures SendLocked(s, cfg).1 == Dropped(s.env.replies[0].shardNotReady)
  {
    hide RunCalls;
  }

  /** After that it is gone, with a successor on guard unless its channel was closed, the
      session was, or three attempts are spent. */
  lemma SuccessorOnGuard(s: State, cfg: Config, id: nat, env: Env)
    requires ChannelsOk(s) && id in s.recovery.watchdogs && s.recovery.watchdogs[id].Finishing?
    ensures var w, t := s.recovery.watchdogs[id], Step(s, cfg, WatchdogRuns(id, env));
            && id !in t.recovery.watchdogs
            && (if s.shutdown || w.chan in s.recovery.closed || s.recovery.attempts >= 3
                then t.recovery.watchdogs == s.recovery.watchdogs - {id}
                else OnGuard(t, cfg, false))
  {
    var t := Step(s, cfg, WatchdogRuns(id, env));
    var w := s.recovery.watchdogs[id];
    if !(s.shutdown || w.chan in s.recovery.closed || s.recovery.attempts >= 3) {
      assert w.chan == s.recovery.epochReady;
      assert s.recovery.nextWatchdog in t.recovery.watchdogs;
    }
  }

  lemma ClientLeaves(s: State, cfg: Config)
    ensures var t := EnsureClient(s, cfg).0; t == s.(mls := s.mls.(client := t.mls.client))
    ensures EnsureClient(s, cfg).1 == (s.mls.client.Some? || cfg.validUser)
  {
  }

  lemma InvalidKeepsRecovery(s: State, cfg: Config)
    ensures SendInvalid(s, cfg).recovery == s.recovery && SendInvalid(s, cfg).mls == s.mls
  {
    hide SendLocked;
    SendKeeps(s, cfg);
  }

  /** An epoch that contains this user and becomes active releases every watchdog there is,
      and gives back all attempts. */
  lemma ActivationReleases(s: State, cfg: Config)
    requires ChannelsOk(s) && s.epochs.pending.Some? && cfg.self in s.epochs.pending.value.senders
    ensures var t := ActivateEpoch(s, cfg);
            && t.recovery.attempts == 0 && t.recovery.watchdogs == s.recovery.watchdogs
            && forall id :: id in t.recovery.watchdogs ==> t.recovery.watchdogs[id].chan in t.recovery.closed
  {
    ActivateRecovery(s, cfg);
    hide ActivateEpoch;
  }

  /** A joined welcome drops the batches that wait behind an own commit, and only those. */
  lemma WelcomeDropsQueue(s: State, cfg: Config, e: Event)
    requires IdsAgree(s) && A.Joins(s, cfg, e) && e.transition != 0
    ensures Step(s, cfg, e).mls.queue == if s.mls.pendingCommit.Some? then [] else s.mls.queue
  {
    hide RestorePreCommit, Join, SendReady, IdsAgree;
    var s1 := s.(env := e.env, pendingTransitionId := e.transition);
    SameIdsEnv(s, e.env);
    A.SameIds(s.(env := e.env), e.transition);
    A.RollbackForWelcome(s1);
    SessionQueue.RestoreFacts(s1);
    var s2 := if s1.mls.pendingCommit.Some? then RestorePreCommit(s1).0 else s1;
    var s3 := if s1.mls.pendingCommit.Some? then s2.(mls := s2.mls.(queue := [])) else s2;
    var s4 := EnsureClient(s3, cfg).0;
    A.JoinStarts(s4, e.welcome);
    JoinKeepsQueue(s4, e.welcome);
    ReadyKeepsMls(Join(s4, e.welcome).0, cfg);
  }

  lemma SameIdsEnv(s: State, env: Env)
    requires IdsAgree(s)
    ensures IdsAgree(s.(env := env))
  {
  }

  lemma JoinKeepsQueue(s: State, w: Welcome)
    ensures Join(s, w).0.mls.queue == s.mls.queue
  {
    hide NewRatchets, BuildEpoch;
  }

  lemma ReadyKeepsMls(s: State, cfg: Config)
    ensures SendReady(s, cfg).mls == s.mls
  {
    hide SendLocked;
    SendKeepsRecovery(s, cfg);
  }

  /** A transition is executed once: its number is forgotten with it, except that a downgrade
      keeps it. */
  lemma ExecutedOnce(s: State, cfg: Config, e: Event)
    requires e.ExecuteTransition? && e.transition == s.pendingTransitionId
    ensures Step(s, cfg, e).pendingTransitionId == if s.version.protocol == 0 then e.transition else 0
  {
    hide Activate;
  }

  /** A transition that was not prepared is not executed. */
  lemma UnpreparedIgnored(s: State, cfg: Config, e: Event)
    requires e.ExecuteTransition? && e.transition != s.pendingTransitionId
    ensures Step(s, cfg, e) == s.(env := e.env)
  {
  }
}
