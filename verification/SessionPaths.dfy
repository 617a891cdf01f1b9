/** Every step of the session decomposes into elementary actions. */
module SessionPaths {
  import opened Bytes
  import opened SessionState
  import opened SessionMedia
  import opened SessionControl
  import opened SessionActions

  // ---- Channels: the one invariant the decomposition itself needs ----

  /** Channels are numbered; every one that was replaced is closed, and watchdogs only
      wait on channels that exist. */
  predicate ChannelsOk(s: State) {
    var r := s.recovery;
    && (forall c :: c in r.closed ==> c <= r.epochReady)
    && (forall c: nat :: c < r.epochReady ==> c in r.closed)
    && (forall id :: id in r.watchdogs ==> id < r.nextWatchdog && r.watchdogs[id].chan <= r.epochReady)
  }

  lemma CallKeepsRecovery(s: State, cfg: Config, call: MediaCall)
    ensures RunCall(s, cfg, call).recovery == s.recovery && SameRecoveryLog(s.log, RunCall(s, cfg, call).log)
  {
    hide RunCall;
    CallStep(s, cfg, call);
  }

  /** Activation touches recovery only to report an epoch that contains this user. */
  lemma ActivateRecovery(s: State, cfg: Config)
    requires s.epochs.pending.Some?
    ensures var r, t := s.recovery, ActivateEpoch(s, cfg);
            if cfg.self in s.epochs.pending.value.senders
            then && t.recovery == r.(attempts := 0, closed := r.closed + {r.epochReady})
                 && SameRecoveryLog(s.log.(attemptResets := s.log.attemptResets + 1), t.log)
            else t.recovery == r && SameRecoveryLog(s.log, t.log)
  {
    hide Unexpired;
  }

  predicate TouchesRecovery(a: Action) {
    || a.AActivate? || a.AInvalidate? || a.AResetGroup? || a.AResetAttempts? || a.ADowngrade? || a.AResetReady?
    || a.AWatchDropped? || a.AArmRecovery? || a.AArmCommit? || a.ASucceed? || a.ARemove? || a.AFire? || a.APhase?
  }

  /** The counters the recovery bound speaks of. */
  predicate SameRecoveryLog(a: Log, b: Log) {
    && a.recoveryFires == b.recoveryFires && a.commitFires == b.commitFires
    && a.ownCommits == b.ownCommits && a.attemptResets == b.attemptResets
  }

  lemma OtherActionsKeepRecovery(s: State, cfg: Config, a: Action)
    requires Enabled(s, cfg, a) && !TouchesRecovery(a)
    ensures Do(s, cfg, a).recovery == s.recovery && SameRecoveryLog(s.log, Do(s, cfg, a).log)
  {
    hide RunCall, NewRatchets, ActivateEpoch, BuildEpoch, ResetEpochReady, GoWatchdog;
    if a.ACall? { CallKeepsRecovery(s, cfg, a.call); }
  }

  // What the recovery actions do, as functions of the recovery state alone.

  function Replaced(r: Recovery): Recovery {
    r.(closed := r.closed + {r.epochReady}, epochReady := r.epochReady + 1)
  }

  function Armed(r: Recovery, w: Watchdog): Recovery {
    r.(watchdogs := r.watchdogs[r.nextWatchdog := w], nextWatchdog := r.nextWatchdog + 1)
  }

  lemma ResetEffect(s: State, cfg: Config, a: Action)
    requires Enabled(s, cfg, a) && (a.AInvalidate? || a.AResetGroup? || a.ADowngrade? || a.AResetReady?)
    ensures Do(s, cfg, a).recovery == Replaced(s.recovery) && SameRecoveryLog(s.log, Do(s, cfg, a).log)
  {
    hide RunCall, NewRatchets, ActivateEpoch, BuildEpoch, SetPending, Join, RestorePreCommit, MakeCommit, PeerCommit,
         GoWatchdog, NewGroup, ConfirmCommit;
  }

  /** The recovery state an arming action starts from: a new channel, the watchdog gone, or as it was. */
  function ArmedFrom(r: Recovery, a: Action): Recovery {
    match a
    case AWatchDropped => Replaced(r)
    case AArmCommit => Replaced(r)
    case ASucceed(id) => r.(watchdogs := r.watchdogs - {id})
    case _ => r
  }

  lemma ArmEffect(s: State, cfg: Config, a: Action)
    requires Enabled(s, cfg, a) && (a.AWatchDropped? || a.AArmRecovery? || a.AArmCommit? || a.ASucceed?)
    ensures var t, from := Do(s, cfg, a), ArmedFrom(s.recovery, a);
            && t.recovery ==
               (if s.shutdown || (!a.AArmCommit? && s.recovery.attempts >= MAX_RECOVERY_ATTEMPTS) then from
                else Armed(from, Waiting(from.epochReady, a.AArmCommit?, s.pendingTransitionId,
                  s.now + cfg.recoveryTimeout)))
            && t.log == if a.AArmCommit? then s.log.(ownCommits := s.log.ownCommits + 1) else s.log
  {
    hide RunCall, NewRatchets, ActivateEpoch, BuildEpoch, SetPending, Join, RestorePreCommit, MakeCommit, PeerCommit,
         NewGroup, ConfirmCommit, InvalidateMls, ResetGroup, Downgrade, StartFire;
  }

  lemma ActionKeepsChannels(s: State, cfg: Config, a: Action)
    requires ChannelsOk(s) && Enabled(s, cfg, a)
    ensures ChannelsOk(Do(s, cfg, a))
  {
    hide Do, Enabled;
    if !TouchesRecovery(a) {
      OtherActionsKeepRecovery(s, cfg, a);
    } else if a.AInvalidate? || a.AResetGroup? || a.ADowngrade? || a.AResetReady? {
      ResetEffect(s, cfg, a);
    } else if a.AWatchDropped? || a.AArmRecovery? || a.AArmCommit? || a.ASucceed? {
      ArmEffect(s, cfg, a);
    } else if a.AActivate? {
      ActivateEffect(s, cfg, a);
    } else {
      OwnWatchdogChannels(s, cfg, a);
    }
  }

  lemma ActivateEffect(s: State, cfg: Config, a: Action)
    requires Enabled(s, cfg, a) && a.AActivate?
    ensures s.epochs.pending.Some?
    ensures var r, t := s.recovery, Do(s, cfg, a);
            if cfg.self in s.epochs.pending.value.senders
            then && t.recovery == r.(attempts := 0, closed := r.closed + {r.epochReady})
                 && SameRecoveryLog(s.log.(attemptResets := s.log.attemptResets + 1), t.log)
            else t.recovery == r && SameRecoveryLog(s.log, t.log)
  {
    hide ActivateEpoch;
    ActivateRecovery(s, cfg);
  }

  lemma OwnWatchdogChannels(s: State, cfg: Config, a: Action)
    requires ChannelsOk(s) && Enabled(s, cfg, a) && (a.AResetAttempts? || a.ARemove? || a.AFire? || a.APhase?)
    ensures ChannelsOk(Do(s, cfg, a))
  {
    hide RunCall, NewRatchets, ActivateEpoch, BuildEpoch, SetPending, Join, RestorePreCommit, MakeCommit, PeerCommit,
         NewGroup, ConfirmCommit, InvalidateMls, ResetGroup, Downgrade, GoWatchdog, ResetEpochReady;
  }

  ghost predicate Leads(s: State, cfg: Config, t: State) {
    Reaches(s, cfg, t) && ChannelsOk(t)
  }

  lemma By(s: State, cfg: Config, t: State, a: Action, u: State)
    requires Leads(s, cfg, t) && Enabled(t, cfg, a) && u == Do(t, cfg, a)
    ensures Leads(s, cfg, u)
  {
    hide Reaches, Do, Enabled, ChannelsOk;
    ThenBy(s, cfg, t, a);
    ActionKeepsChannels(t, cfg, a);
  }

  lemma {:induction false} CallsLead(s: State, cfg: Config, t: State, calls: seq<MediaCall>)
    requires Leads(s, cfg, t)
    ensures Leads(s, cfg, RunCalls(t, cfg, calls))
    decreases |calls|
  {
    hide Leads, RunCall;
    if calls != [] {
      By(s, cfg, t, ACall(calls[0]), RunCall(t, cfg, calls[0]));
      CallsLead(s, cfg, RunCall(t, cfg, calls[0]), calls[1..]);
    }
  }

  lemma SendLeads(s: State, cfg: Config, t: State)
    requires Leads(s, cfg, t)
    ensures Leads(s, cfg, SendLocked(t, cfg).0)
  {
    hide Leads, RunCalls;
    if t.env.replies != [] {
      var env := t.env.(replies := t.env.replies[1..]);
      By(s, cfg, t, AEnv(env), t.(env := env));
      CallsLead(s, cfg, t.(env := env), t.env.replies[0].calls);
    }
  }

  lemma ClientLeads(s: State, cfg: Config, t: State)
    requires Leads(s, cfg, t)
    ensures Leads(s, cfg, EnsureClient(t, cfg).0)
  {
    hide Leads, EnsureClient;
    By(s, cfg, t, AClient, EnsureClient(t, cfg).0);
  }

  lemma KeyPackageLeads(s: State, cfg: Config, t: State)
    requires Leads(s, cfg, t)
    ensures Leads(s, cfg, EnsureKeyPackage(t, cfg).0)
    ensures EnsureKeyPackage(t, cfg).0.recovery == t.recovery
  {
    hide Leads, EnsureClient, SendLocked;
    ClientLeads(s, cfg, t);
    var t1 := EnsureClient(t, cfg).0;
    assert t1.recovery == t.recovery by { ClientKeepsRecovery(t, cfg); }
    SendLeads(s, cfg, t1);
    SendLockedStep(t1, cfg);
    var t2 := if cfg.hasCallbacks then SendLocked(t1, cfg).0 else t1;
    By(s, cfg, t2, AKeyPackage, t2.(mls := t2.mls.(keyPackage := true)));
  }

  lemma ClientKeepsRecovery(t: State, cfg: Config)
    ensures EnsureClient(t, cfg).0.recovery == t.recovery
  {
  }

  lemma WatchDroppedLeads(s: State, cfg: Config, t: State, o: Outcome)
    requires Leads(s, cfg, t)
    ensures Leads(s, cfg, WatchIfDropped(t, cfg, o))
  {
    hide Leads, WatchDroppedSend;
    By(s, cfg, t, AWatchDropped, WatchDroppedSend(t, cfg));
  }

  lemma CreateGroupLeads(s: State, cfg: Config, t: State)
    requires Leads(s, cfg, t)
    ensures Leads(s, cfg, CreateGroup(t, cfg).0)
    ensures CreateGroup(t, cfg).0.epochs.active.None? == t.epochs.active.None?
  {
    hide Leads, EnsureKeyPackage, NewGroup;
    KeyPackageLeads(s, cfg, t);
    KeyPackageKeeps(t, cfg);
    var t1 := EnsureKeyPackage(t, cfg).0;
    if t1.mls.groupId.None? && t1.mls.client.Some? {
      By(s, cfg, t1, ANewGroup, NewGroup(t1, cfg));
      assert NewGroup(t1, cfg).epochs == t1.epochs by { NewGroupKeepsEpochs(t1, cfg); }
    }
  }

  lemma NewGroupKeepsEpochs(t: State, cfg: Config)
    requires t.mls.client.Some?
    ensures NewGroup(t, cfg).epochs == t.epochs
  {
  }

  /** A send leaves everything but the media side as it was. */
  lemma SendKeeps(t: State, cfg: Config)
    ensures var u := SendLocked(t, cfg).0;
            && u.mls == t.mls && u.recovery == t.recovery && u.version == t.version
            && u.pendingTransitionId == t.pendingTransitionId && u.builds == t.builds
            && u.epochs.active.None? == t.epochs.active.None? && u.epochs.pending.None? == t.epochs.pending.None?
            && u.log == t.log.(sends := u.log.sends, deliveries := u.log.deliveries, restarts := u.log.restarts)
            && u.env == t.env.(replies := u.env.replies)
  {
    hide SendLocked;
    SendLockedStep(t, cfg);
  }

  /** A key package request leaves group, queue and epochs as they are. */
  lemma KeyPackageKeeps(t: State, cfg: Config)
    ensures var u := EnsureKeyPackage(t, cfg).0;
            && u.mls == t.mls.(client := u.mls.client, keyPackage := u.mls.keyPackage)
            && u.epochs.active.None? == t.epochs.active.None? && u.epochs.pending.None? == t.epochs.pending.None?
  {
    hide SendLocked, EnsureClient;
    ClientKeepsCommit(t, cfg);
    SendKeeps(EnsureClient(t, cfg).0, cfg);
  }

  lemma SendInvalidLeads(s: State, cfg: Config, t: State)
    requires Leads(s, cfg, t)
    ensures Leads(s, cfg, SendInvalid(t, cfg))
  {
    hide Leads, SendLocked;
    SendLeads(s, cfg, t);
  }

  lemma InvalidateLeads(s: State, cfg: Config, t: State)
    requires Leads(s, cfg, t)
    ensures Leads(s, cfg, InvalidateMls(t)) && Unwatched(InvalidateMls(t))
  {
    hide Reaches;
    By(s, cfg, t, AInvalidate, InvalidateMls(t));
  }

  lemma InvalidateAndResendLeads(s: State, cfg: Config, t: State)
    requires Leads(s, cfg, t)
    ensures Leads(s, cfg, InvalidateAndResend(t, cfg))
  {
    hide Leads, InvalidateMls, EnsureKeyPackage, WatchRecovery;
    InvalidateLeads(s, cfg, t);
    var t1 := InvalidateMls(t);
    KeyPackageLeads(s, cfg, t1);
    var t2 := EnsureKeyPackage(t1, cfg).0;
    By(s, cfg, t2, AArmRecovery, WatchRecovery(t2, cfg));
  }

  lemma RestoreLeads(s: State, cfg: Config, t: State)
    requires Leads(s, cfg, t) && t.mls.pendingCommit.Some?
    ensures Leads(s, cfg, RestorePreCommit(t).0)
  {
    hide Leads;
    if t.mls.preCommit.Some? { By(s, cfg, t, ARestore, RestorePreCommit(t).0); }
  }

  lemma SendCommitLeads(s: State, cfg: Config, t: State)
    requires Leads(s, cfg, t) && t.mls.pendingCommit.Some?
    ensures Leads(s, cfg, SendCommit(t, cfg))
  {
    hide Leads, SendLocked, RestorePreCommit, WatchDroppedSend, ArmCommitWatchdog;
    SendLeads(s, cfg, t);
    SendLockedStep(t, cfg);
    var t1 := SendLocked(t, cfg).0;
    if SendLocked(t, cfg).1.Dropped? {
      RestoreLeads(s, cfg, t1);
      By(s, cfg, RestorePreCommit(t1).0, AWatchDropped, WatchDroppedSend(RestorePreCommit(t1).0, cfg));
    } else {
      By(s, cfg, t1, AArmCommit, ArmCommitWatchdog(t1, cfg));
    }
  }

  lemma ProcessLeads(s: State, cfg: Config, t: State, b: Batch)
    requires Leads(s, cfg, t) && t.epochs.pending.None?
    ensures Leads(s, cfg, ProcessAndCommit(t, cfg, b))
  {
    hide Leads, SetPending, SendCommit, MakeCommit, EnsureClient;
    ClientLeads(s, cfg, t);
    assert EnsureClient(t, cfg).0.epochs == t.epochs by { ClientKeepsEpochs(t, cfg); }
    var t1 := EnsureClient(t, cfg).0;
    var t2 := t1.(log := t1.log.(processed := t1.log.processed + [b.id]));
    By(s, cfg, t1, AProcess(b.id), t2);
    if HasGroup(t2) {
      assert HasGroup(MakeCommit(t2, b.commit)) && SetPending(MakeCommit(t2, b.commit)).mls.pendingCommit.Some?
        by { MakeCommitFacts(t2, b.commit); }
      if b.rebuildOk {
        By(s, cfg, t2, ALocalCommit(b.commit, true), SetPending(MakeCommit(t2, b.commit)));
        SendCommitLeads(s, cfg, SetPending(MakeCommit(t2, b.commit)));
      } else {
        By(s, cfg, t2, ALocalCommit(b.commit, false), MakeCommit(t2, b.commit));
      }
    }
  }

  lemma ClientKeepsEpochs(t: State, cfg: Config)
    ensures EnsureClient(t, cfg).0.epochs == t.epochs
  {
  }

  lemma MakeCommitFacts(t: State, c: Commit)
    requires HasGroup(t)
    ensures HasGroup(MakeCommit(t, c)) && SetPending(MakeCommit(t, c)).mls.pendingCommit.Some?
  {
  }

  lemma {:induction false} DrainLeads(s: State, cfg: Config, t: State)
    requires Leads(s, cfg, t)
    ensures Leads(s, cfg, Drain(t, cfg))
    decreases |t.mls.queue|
  {
    hide Leads, ProcessAndCommit;
    if t.mls.queue != [] && t.epochs.pending.None? {
      var t1 := t.(mls := t.mls.(queue := t.mls.queue[1..]));
      By(s, cfg, t, ATake, t1);
      ProcessLeads(s, cfg, t1, t.mls.queue[0]);
      ProcessKeepsQueue(t1, cfg, t.mls.queue[0]);
      DrainLeads(s, cfg, ProcessAndCommit(t1, cfg, t.mls.queue[0]));
    }
  }

  lemma ActivateLeads(s: State, cfg: Config, t: State)
    requires Leads(s, cfg, t)
    ensures Leads(s, cfg, Activate(t, cfg))
  {
    hide Leads, ActivateEpoch, Drain;
    if t.epochs.pending.Some? {
      By(s, cfg, t, AActivate, ActivateEpoch(t, cfg));
      DrainLeads(s, cfg, ActivateEpoch(t, cfg));
    }
  }

  lemma ActivateSoleMemberLeads(s: State, cfg: Config, t: State)
    requires Leads(s, cfg, t) && t.epochs.active.None?
    ensures Leads(s, cfg, ActivateSoleMember(t, cfg))
  {
    hide Leads, CreateGroup, Activate, SetPending, WatchIfDropped;
    CreateGroupLeads(s, cfg, t);
    var (t1, o) := CreateGroup(t, cfg);
    WatchDroppedLeads(s, cfg, t1, o);
    ActivateLeads(s, cfg, t1);
    if t1.epochs.pending.None? && HasGroup(t1) {
      By(s, cfg, t1, ASoleMember, SetPending(t1));
      ActivateLeads(s, cfg, SetPending(t1));
    }
  }

  lemma SendReadyLeads(s: State, cfg: Config, t: State)
    requires Leads(s, cfg, t)
    ensures Leads(s, cfg, SendReady(t, cfg))
  {
    hide Leads, SendLocked, WatchDroppedSend;
    SendLeads(s, cfg, t);
    By(s, cfg, SendLocked(t, cfg).0, AWatchDropped, WatchDroppedSend(SendLocked(t, cfg).0, cfg));
  }

  lemma FinishTransitionLeads(s: State, cfg: Config, t: State, transition: nat)
    requires Leads(s, cfg, t)
    ensures Leads(s, cfg, FinishTransition(t, cfg, transition))
  {
    hide Leads, SendReady, Activate;
    SendReadyLeads(s, cfg, t);
    ActivateLeads(s, cfg, t);
    By(s, cfg, Activate(t, cfg), ATransition(0), Activate(t, cfg).(pendingTransitionId := 0));
  }

  /** Rolling back, when there is something to roll back, leaves no own commit. */
  lemma RestoreClears(t: State)
    requires t.mls.preCommit.Some?
    ensures RestorePreCommit(t).1 && RestorePreCommit(t).0.mls.pendingCommit.None?
  {
  }

  lemma ProcessCommitLeads(s: State, cfg: Config, t: State, msg: Option<Commit>)
    requires Leads(s, cfg, t) && t.mls.pendingCommit.None?
    ensures Leads(s, cfg, ProcessCommit(t, cfg, msg).0)
  {
    hide Leads, PeerCommit;
    if HasGroup(t) && msg.Some? {
      By(s, cfg, t, APeerCommit(msg.value, t.env.rebuildOk), PeerCommit(t, msg.value, t.env.rebuildOk));
    }
  }

  lemma ReconcileLeads(s: State, cfg: Config, t: State, msg: Option<Commit>)
    requires Leads(s, cfg, t)
    ensures Leads(s, cfg, Reconcile(t, cfg, msg).0)
  {
    hide Leads, RestorePreCommit, ProcessCommit, SendInvalid, InvalidateAndResend;
    var (t1, restored) := if t.mls.pendingCommit.Some? then RestorePreCommit(t) else (t, true);
    if t.mls.pendingCommit.Some? {
      RestoreLeads(s, cfg, t);
      if t.mls.preCommit.Some? { RestoreClears(t); }
    }
    SendInvalidLeads(s, cfg, t1);
    if restored && t1.mls.pendingCommit.None? {
      ProcessCommitLeads(s, cfg, t1, msg);
      var t2 := ProcessCommit(t1, cfg, msg).0;
      SendInvalidLeads(s, cfg, t2);
      InvalidateAndResendLeads(s, cfg, SendInvalid(t2, cfg));
    } else if restored {
      assert t.mls.pendingCommit.Some? && t.mls.preCommit.None?;
      assert false by { RestoreFails(t); }
    }
  }

  lemma RestoreFails(t: State)
    requires t.mls.preCommit.None?
    ensures !RestorePreCommit(t).1
  {
  }

  // ---- Handlers ----

  lemma RejoinLeads(s: State, cfg: Config, t: State)
    requires Leads(s, cfg, t)
    ensures Leads(s, cfg, RequestRejoin(t, cfg))
  {
    hide Leads, StopSending, EnsureKeyPackage, WatchIfDropped;
    By(s, cfg, t, ARetainSend, StopSending(t, cfg));
    KeyPackageLeads(s, cfg, StopSending(t, cfg));
    var (t1, o) := EnsureKeyPackage(StopSending(t, cfg), cfg);
    WatchDroppedLeads(s, cfg, t1, o);
  }

  lemma AckLeads(s: State, cfg: Config, t: State, v: nat)
    requires Leads(s, cfg, t)
    ensures Leads(s, cfg, OnSelectProtocolAck(t, cfg, v))
  {
    hide Leads, SetTransportOnly, ResetGroup, ResetAttempts, DropSendKeys, RequestRejoin;
    var t0 := t.(version := t.version.(protocol := v, sending := v));
    By(s, cfg, t, AVersion(v, v), t0);
    var t1 := SetTransportOnly(t0, v == 0);
    By(s, cfg, t0, ATransport(v == 0), t1);
    AckRestLeads(s, cfg, t1, v);
  }

  lemma AckRestLeads(s: State, cfg: Config, t: State, v: nat)
    requires Leads(s, cfg, t)
    ensures var t2 := ResetAttempts(ResetGroup(t));
            Leads(s, cfg, if v == 0 then DropSendKeys(t2) else RequestRejoin(t2, cfg))
  {
    hide Leads, ResetGroup, ResetAttempts, DropSendKeys, RequestRejoin;
    By(s, cfg, t, AResetGroup, ResetGroup(t));
    var t2 := ResetAttempts(ResetGroup(t));
    By(s, cfg, ResetGroup(t), AResetAttempts, t2);
    By(s, cfg, t2, ADropSend, DropSendKeys(t2));
    RejoinLeads(s, cfg, t2);
  }

  lemma PrepareTransitionLeads(s: State, cfg: Config, t: State, transition: nat, v: nat)
    requires Leads(s, cfg, t)
    ensures Leads(s, cfg, OnPrepareTransition(t, cfg, transition, v))
  {
    hide Leads, ActivateSoleMember, SendLocked;
    if transition != 0 || t.epochs.active.None? {
      By(s, cfg, t, ATransition(transition), t.(pendingTransitionId := transition));
      var t0 := t.(pendingTransitionId := transition);
      var t1 := t0.(version := t0.version.(protocol := v));
      By(s, cfg, t0, AVersion(v, t0.version.sending), t1);
      SendLeads(s, cfg, t1);
      if transition == 0 {
        var t2 := t1.(version := t1.version.(sending := v));
        By(s, cfg, t1, AVersion(v, v), t2);
        ActivateSoleMemberLeads(s, cfg, t2);
        var t3 := ActivateSoleMember(t2, cfg);
        By(s, cfg, t3, ATransition(0), t3.(pendingTransitionId := 0));
      }
    }
  }

  lemma ExecuteTransitionLeads(s: State, cfg: Config, t: State, transition: nat)
    requires Leads(s, cfg, t)
    ensures Leads(s, cfg, OnExecuteTransition(t, cfg, transition))
  {
    hide Leads, Downgrade, Activate;
    var v := t.version.protocol;
    var t0 := t.(version := t.version.(sending := v));
    By(s, cfg, t, AVersion(v, v), t0);
    var t1 := SetTransportOnly(t0, v == 0);
    By(s, cfg, t0, ATransport(v == 0), t1);
    if v == 0 {
      By(s, cfg, t1, ADowngrade, Downgrade(t1));
    } else {
      ActivateLeads(s, cfg, t1);
      By(s, cfg, Activate(t1, cfg), ATransition(0), Activate(t1, cfg).(pendingTransitionId := 0));
    }
  }

  lemma PrepareEpochLeads(s: State, cfg: Config, t: State, epoch: int, v: nat)
    requires Leads(s, cfg, t)
    ensures Leads(s, cfg, OnPrepareEpoch(t, cfg, epoch, v))
  {
    hide Leads, SetTransportOnly, ResetGroup, RequestRejoin;
    var t0 := t.(version := t.version.(protocol := v));
    By(s, cfg, t, AVersion(v, t.version.sending), t0);
    var t1 := SetTransportOnly(t0, v == 0);
    By(s, cfg, t0, ATransport(v == 0), t1);
    By(s, cfg, t1, AResetGroup, ResetGroup(t1));
    RejoinLeads(s, cfg, ResetGroup(t1));
  }

  lemma ExternalSenderLeads(s: State, cfg: Config, t: State, nonEmpty: bool)
    requires Leads(s, cfg, t)
    ensures Leads(s, cfg, OnExternalSender(t, cfg, nonEmpty))
  {
    hide Leads, CreateGroup, WatchIfDropped;
    var t0 := t.(mls := t.mls.(externalSender := nonEmpty));
    By(s, cfg, t, AExternal(nonEmpty), t0);
    CreateGroupLeads(s, cfg, t0);
    var (t1, o) := CreateGroup(t0, cfg);
    WatchDroppedLeads(s, cfg, t1, o);
  }

  lemma ProposalsLead(s: State, cfg: Config, t: State, b: Batch)
    requires Leads(s, cfg, t)
    ensures Leads(s, cfg, OnProposals(t, cfg, b))
  {
    hide Leads, ProcessAndCommit;
    var batch := b.(id := t.log.arrived);
    var t1 := t.(log := t.log.(arrived := t.log.arrived + 1));
    By(s, cfg, t, AArrive, t1);
    if t.epochs.pending.Some? {
      By(s, cfg, t1, AEnqueue(batch), t1.(mls := t1.mls.(queue := t1.mls.queue + [batch])));
    } else {
      ProcessLeads(s, cfg, t1, batch);
    }
  }

  lemma PrepareCommitLeads(s: State, cfg: Config, t: State, transition: nat, msg: Option<Commit>)
    requires Leads(s, cfg, t)
    ensures Leads(s, cfg, OnPrepareCommit(t, cfg, transition, msg))
  {
    hide Leads, EnsureClient, ConfirmCommit, Reconcile, FinishTransition;
    var t0 := t.(pendingTransitionId := transition);
    By(s, cfg, t, ATransition(transition), t0);
    ClientLeads(s, cfg, t0);
    var t1 := EnsureClient(t0, cfg).0;
    if t1.epochs.pending.Some? {
      By(s, cfg, t1, AConfirm, ConfirmCommit(t1));
      FinishTransitionLeads(s, cfg, ConfirmCommit(t1), transition);
    }
    ReconcileLeads(s, cfg, t1, msg);
    FinishTransitionLeads(s, cfg, Reconcile(t1, cfg, msg).0, transition);
  }

  lemma WelcomeLeads(s: State, cfg: Config, t: State, transition: nat, w: Welcome)
    requires Leads(s, cfg, t)
    ensures Leads(s, cfg, OnWelcome(t, cfg, transition, w))
  {
    hide Leads, EnsureClient, RestorePreCommit, Join, SendInvalid, InvalidateAndResend, FinishTransition;
    var t1 := t.(pendingTransitionId := transition);
    By(s, cfg, t, ATransition(transition), t1);
    var (t2, restored) := if t1.mls.pendingCommit.Some? then RestorePreCommit(t1) else (t1, true);
    if t1.mls.pendingCommit.Some? {
      RestoreLeads(s, cfg, t1);
      if t1.mls.preCommit.Some? { RestoreClears(t1); } else { RestoreFails(t1); }
    }
    SendInvalidLeads(s, cfg, t2);
    if restored {
      By(s, cfg, t2, ADropQueue, t2.(mls := t2.mls.(queue := [])));
      var t3 := if t1.mls.pendingCommit.Some? then t2.(mls := t2.mls.(queue := [])) else t2;
      ClientLeads(s, cfg, t3);
      var (t4, ok) := EnsureClient(t3, cfg);
      ClientKeepsCommit(t3, cfg);
      JoinLeads(s, cfg, t4, w);
      var t5 := Join(t4, w).0;
      SendInvalidLeads(s, cfg, t5);
      InvalidateAndResendLeads(s, cfg, SendInvalid(t5, cfg));
      FinishTransitionLeads(s, cfg, t5, transition);
    }
  }

  lemma ClientKeepsCommit(t: State, cfg: Config)
    ensures EnsureClient(t, cfg).0 == t.(mls := t.mls.(client := EnsureClient(t, cfg).0.mls.client))
  {
  }

  lemma JoinLeads(s: State, cfg: Config, t: State, w: Welcome)
    requires Leads(s, cfg, t) && t.mls.pendingCommit.None?
    ensures Leads(s, cfg, Join(t, w).0)
  {
    hide Leads;
    if w.joinOk && t.mls.client.Some? { By(s, cfg, t, AJoin(w), Join(t, w).0); }
  }

  lemma SetChannelLeads(s: State, cfg: Config, t: State, channel: nat)
    requires Leads(s, cfg, t)
    ensures Leads(s, cfg, OnSetChannel(t, cfg, channel))
  {
    hide Leads, CreateGroup;
    By(s, cfg, t, AChannel(channel), t.(channelId := channel));
    CreateGroupLeads(s, cfg, t.(channelId := channel));
  }

  // ---- Watchdogs ----

  lemma FireLeads(s: State, cfg: Config, t: State, id: nat)
    requires Leads(s, cfg, t) && id in t.recovery.watchdogs && t.recovery.watchdogs[id].Waiting?
    requires !Released(t, t.recovery.watchdogs[id].chan)
    ensures Leads(s, cfg, Fire(t, cfg, id, t.recovery.watchdogs[id]))
  {
    hide Leads, SendInvalid, InvalidateMls, EnsureClient;
    var w := t.recovery.watchdogs[id];
    var t0 := StartFire(t, id, w);
    By(s, cfg, t, AFire(id), t0);
    var t1 := SendInvalid(t0, cfg);
    SendInvalidLeads(s, cfg, t0);
    assert t1.recovery == t0.recovery by { SendKeeps(t0, cfg); SendInvalidIsSend(t0, cfg); }
    InvalidateLeads(s, cfg, t1);
    var t2 := InvalidateMls(t1);
    assert t2.recovery == Replaced(t1.recovery) by { InvalidateReplaces(t1); }
    ClientLeads(s, cfg, t2);
    ClientKeepsRecovery(t2, cfg);
    var (t3, ok) := EnsureClient(t2, cfg);
    var next := if ok then Retrying(t2.recovery.epochReady, RETRY_MAX_ATTEMPTS) else Finishing(t2.recovery.epochReady);
    By(s, cfg, t3, APhase(id, next), SetWatchdog(t3, id, next));
  }

  lemma SendInvalidIsSend(t: State, cfg: Config)
    ensures SendInvalid(t, cfg) == t || SendInvalid(t, cfg) == SendLocked(t, cfg).0
  {
  }

  lemma InvalidateReplaces(t: State)
    ensures InvalidateMls(t).recovery == Replaced(t.recovery)
  {
  }

  lemma RetryLeads(s: State, cfg: Config, t: State, id: nat)
    requires Leads(s, cfg, t) && id in t.recovery.watchdogs && t.recovery.watchdogs[id].Retrying?
    ensures Leads(s, cfg, RetryAttempt(t, cfg, id, t.recovery.watchdogs[id]))
  {
    hide Leads, SendLocked, SetWatchdog, Released;
    var w := t.recovery.watchdogs[id];
    By(s, cfg, t, APhase(id, Finishing(w.chan)), SetWatchdog(t, id, Finishing(w.chan)));
    var t1 := if cfg.hasCallbacks then SendLocked(t, cfg).0 else t;
    SendLeads(s, cfg, t);
    SendKeeps(t, cfg);
    if w.attemptsLeft > 1 {
      var next := Retrying(w.chan, w.attemptsLeft - 1);
      By(s, cfg, t1, APhase(id, next), SetWatchdog(t1, id, next));
    }
    By(s, cfg, t1, APhase(id, Finishing(w.chan)), SetWatchdog(t1, id, Finishing(w.chan)));
    SentLeads(s, cfg, t1, id, w.chan);
  }

  lemma SentLeads(s: State, cfg: Config, t: State, id: nat, chan: nat)
    requires Leads(s, cfg, t) && id in t.recovery.watchdogs && t.recovery.watchdogs[id].Retrying?
    requires t.recovery.watchdogs[id].chan == chan
    ensures Leads(s, cfg, SetWatchdog(t.(mls := t.mls.(keyPackage := true)), id, Finishing(chan)))
  {
    hide Leads, SetWatchdog;
    var u := t.(mls := t.mls.(keyPackage := true));
    By(s, cfg, t, AKeyPackage, u);
    By(s, cfg, u, APhase(id, Finishing(chan)), SetWatchdog(u, id, Finishing(chan)));
  }

  lemma WatchdogLeads(s: State, cfg: Config, t: State, id: nat)
    requires Leads(s, cfg, t)
    ensures Leads(s, cfg, WatchdogStep(t, cfg, id))
  {
    hide Leads, Fire, RetryAttempt, WatchRecovery;
    if id in t.recovery.watchdogs {
      var w := t.recovery.watchdogs[id];
      By(s, cfg, t, ARemove(id), RemoveWatchdog(t, id));
      if w.Waiting? && !Released(t, w.chan) {
        FireLeads(s, cfg, t, id);
      } else if w.Retrying? {
        RetryLeads(s, cfg, t, id);
      } else if w.Finishing? && !Released(t, w.chan) {
        By(s, cfg, t, ASucceed(id), WatchRecovery(RemoveWatchdog(t, id), cfg));
      }
    }
  }

  // ---- Runs ----

  /** A step of the session is a sequence of elementary actions. */
  lemma StepLeads(s: State, cfg: Config, t: State, e: Event)
    requires Leads(s, cfg, t)
    ensures Leads(s, cfg, Step(t, cfg, e))
  {
    hide Leads, RunCall, OnSetChannel, OnSelectProtocolAck, OnPrepareTransition, OnExecuteTransition, OnPrepareEpoch,
         OnExternalSender, OnProposals, OnPrepareCommit, OnWelcome, WatchdogStep;
    if e.Media? {
      By(s, cfg, t, ACall(e.call), RunCall(t, cfg, e.call));
    } else {
      var u := t.(env := e.env);
      By(s, cfg, t, AEnv(e.env), u);
      match e
      case SetChannel(c, _) => SetChannelLeads(s, cfg, u, c);
      case SelectProtocolAck(v, _) => AckLeads(s, cfg, u, v);
      case PrepareTransition(n, v, _) => PrepareTransitionLeads(s, cfg, u, n, v);
      case ExecuteTransition(n, _) => ExecuteTransitionLeads(s, cfg, u, n);
      case PrepareEpoch(epoch, v, _) => PrepareEpochLeads(s, cfg, u, epoch, v);
      case ExternalSender(nonEmpty, _) => ExternalSenderLeads(s, cfg, u, nonEmpty);
      case Proposals(b, _) => ProposalsLead(s, cfg, u, b);
      case PrepareCommit(n, m, _) => PrepareCommitLeads(s, cfg, u, n, m);
      case GetWelcome(n, w, _) => WelcomeLeads(s, cfg, u, n, w);
      case WatchdogRuns(id, _) => WatchdogLeads(s, cfg, u, id);
    }
  }

  /** So is a run. */
  lemma {:induction false} RunLeads(s: State, cfg: Config, es: seq<Event>)
    requires ChannelsOk(s)
    ensures Leads(s, cfg, Run(s, cfg, es))
    decreases |es|
  {
    if es == [] {
      ReachesSame(s, cfg);
    } else {
      hide Leads, Step;
      RunLeads(s, cfg, es[..|es| - 1]);
      StepLeads(s, cfg, Run(s, cfg, es[..|es| - 1]), es[|es| - 1]);
    }
  }
}
