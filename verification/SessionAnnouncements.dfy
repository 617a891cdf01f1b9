/** What a run's group goes back to, read off its events: the group it founded or was welcomed
    into, and the messages of the prepare_commit events it handled since it last started over. */
module SessionAnnouncements {
  import opened Bytes
  import opened SessionState
  import opened SessionMedia
  import opened SessionControl
  import opened SessionShape
  import opened SessionGroups
  import opened SessionPaths
  import opened SessionQueue
  import opened SessionConvergence
  import opened SessionAgreement

  predicate ClientReady(s: State, cfg: Config) { s.mls.client.Some? || cfg.validUser }

  /** The gateway echoes the commit this session waits for, or no commit at all while a
      pending epoch is not its own. */
  predicate Echo(s: State, e: Event)
    requires e.PrepareCommit?
  {
    s.epochs.pending.Some? && s.mls.pendingCommit == e.message
  }

  /** A prepare_commit whose commit becomes part of the group: the own commit, or one the
      library can process and rebuild from. */
  predicate Handled(s: State, cfg: Config, e: Event) {
    && e.PrepareCommit? && e.message.Some? && ClientReady(s, cfg)
    && (Echo(s, e) || (HasGroup(s) && e.env.processOk && e.env.rebuildOk))
  }

  predicate Fires(s: State, e: Event) {
    && e.WatchdogRuns? && e.id in s.recovery.watchdogs
    && var w := s.recovery.watchdogs[e.id];
       w.Waiting? && s.now >= w.deadline && !Released(s, w.chan) && !(w.forCommit && s.epochs.pending.None?)
  }

  /** Events that leave the group, or replace it by one the session is welcomed into. */
  predicate StartsOver(s: State, cfg: Config, e: Event) {
    || e.SelectProtocolAck? || (e.PrepareEpoch? && e.epoch == 1) || ExecutesDowngrade(s, e) || Fires(s, e)
    || (e.PrepareCommit? && ClientReady(s, cfg) && !Handled(s, cfg, e) && !Echo(s, e))
    || (e.GetWelcome? && ClientReady(s, cfg))
  }

  ghost function Messages(cfg: Config, es: seq<Event>): seq<Commit> {
    if es == [] then []
    else
      var n := |es| - 1;
      var s, e := Run(Init(), cfg, es[..n]), es[n];
      if Handled(s, cfg, e) then Messages(cfg, es[..n]) + [e.message.value]
      else if StartsOver(s, cfg, e) then []
      else Messages(cfg, es[..n])
  }

  /** A group is created: there is none, the gateway's key and the channel are known, the key
      package goes out, and the library creates it. */
  predicate CanFound(mls: Mls, channel: nat, env: Env, cfg: Config) {
    && mls.groupId.None? && mls.externalSender && channel != 0 && (mls.client.Some? || cfg.validUser)
    && (mls.keyPackage || !cfg.hasCallbacks || env.replies == [] || env.replies[0].delivered) && env.createOk
  }

  /** The three events that may create a group. */
  predicate Founds(s: State, cfg: Config, e: Event) {
    || (e.SetChannel? && s.channelId == 0 && s.mls.keyPackage && CanFound(s.mls, e.channel, e.env, cfg))
    || (e.ExternalSender? && CanFound(s.mls.(externalSender := e.nonEmpty), s.channelId, e.env, cfg))
    || (e.PrepareTransition? && e.transition == 0 && s.epochs.active.None? &&
        CanFound(s.mls, s.channelId, e.env, cfg))
  }

  /** A welcome that is joined. */
  predicate Joins(s: State, cfg: Config, e: Event) {
    && e.GetWelcome? && ClientReady(s, cfg) && e.welcome.joinOk && e.welcome.externalSenderOk
    && s.mls.externalSender && e.env.rebuildOk
  }

  function Creation(cfg: Config, env: Env): Group { Group(Created(cfg.self, env.seed), {cfg.self}) }

  /** The group a run starts from: the last it created or joined, unless it left that. */
  ghost function Origin(cfg: Config, es: seq<Event>): Option<Group> {
    if es == [] then None
    else
      var n := |es| - 1;
      var s, e := Run(Init(), cfg, es[..n]), es[n];
      if Founds(s, cfg, e) then Some(Creation(cfg, e.env))
      else if Joins(s, cfg, e) then Some(e.welcome.group)
      else if StartsOver(s, cfg, e) then None
      else Origin(cfg, es[..n])
  }

  /** From event k on, the session keeps the group it has. */
  ghost predicate Stays(cfg: Config, es: seq<Event>, k: nat) {
    forall i :: k <= i < |es| ==>
      !StartsOver(Run(Init(), cfg, es[..i]), cfg, es[i]) && !Founds(Run(Init(), cfg, es[..i]), cfg, es[i])
  }

  /** The welcome of the k-th event is the origin for as long as the session keeps the group. */
  lemma {:induction false} WelcomeIsOrigin(cfg: Config, es: seq<Event>, k: nat)
    requires k < |es| && Joins(Run(Init(), cfg, es[..k]), cfg, es[k]) && Stays(cfg, es, k + 1)
    ensures Origin(cfg, es) == Some(es[k].welcome.group)
    decreases |es|
  {
    hide Run, StartsOver, Handled;
    var n := |es| - 1;
    if k < n {
      assert forall i :: 0 <= i <= n ==> es[..n][..i] == es[..i];
      WelcomeIsOrigin(cfg, es[..n], k);
      assert es[..n][k] == es[k];
      JoiningStartsOver(Run(Init(), cfg, es[..n]), cfg, es[n]);
    }
  }

  lemma JoiningStartsOver(s: State, cfg: Config, e: Event)
    ensures Joins(s, cfg, e) ==> StartsOver(s, cfg, e)
  {
  }

  // ---- What leaves origin and announced commits alone ----

  predicate Same(s: State, t: State) { t.log.announced == s.log.announced && t.log.origin == s.log.origin }

  predicate Left(t: State) { t.log.announced == [] && t.log.origin.None? }

  lemma SendSame(s: State, cfg: Config)
    ensures Same(s, SendLocked(s, cfg).0) && Same(s, SendInvalid(s, cfg))
  {
    hide SendLocked;
    SendKeeps(s, cfg);
  }

  lemma KeyPackageSame(s: State, cfg: Config)
    ensures Same(s, EnsureKeyPackage(s, cfg).0)
  {
    hide SendLocked;
    SendSame(EnsureClient(s, cfg).0, cfg);
  }

  lemma WatchSame(s: State, cfg: Config, o: Outcome)
    ensures Same(s, WatchIfDropped(s, cfg, o)) && Same(s, WatchDroppedSend(s, cfg)) && Same(s, WatchRecovery(s, cfg))
  {
  }

  lemma RejoinSame(s: State, cfg: Config)
    ensures Same(s, RequestRejoin(s, cfg))
  {
    hide EnsureKeyPackage, WatchIfDropped;
    KeyPackageSame(StopSending(s, cfg), cfg);
    var (t, o) := EnsureKeyPackage(StopSending(s, cfg), cfg);
    WatchSame(t, cfg, o);
  }

  /** Nothing is announced on top of a group that was just created. */
  predicate Starts(s: State, t: State, cfg: Config, founds: bool) {
    && t.log.announced == s.log.announced
    && t.log.origin == if founds then Some(Creation(cfg, s.env)) else s.log.origin
  }

  lemma KeyPackageOutcome(s: State, cfg: Config)
    ensures var (t, o) := EnsureKeyPackage(s, cfg);
            && t.env == s.env.(replies := t.env.replies) && t.mls.groupId == s.mls.groupId
            && (o.Done? ==> t.mls.client.Some?)
            && (o.Done? <==>
                  && (s.mls.client.Some? || cfg.validUser)
                  && (s.mls.keyPackage || !cfg.hasCallbacks || s.env.replies == [] || s.env.replies[0].delivered))
  {
    hide SendLocked;
    var s1 := EnsureClient(s, cfg).0;
    SendOutcome(s1, cfg);
    SendKeeps(s1, cfg);
  }

  lemma SendOutcome(s: State, cfg: Config)
    ensures SendLocked(s, cfg).1.Sent? <==> s.env.replies == [] || s.env.replies[0].delivered
  {
    hide RunCalls;
  }

  /** A group is created only where there was none, and then nothing had been announced. */
  lemma CreateGroupStarts(s: State, cfg: Config)
    requires s.mls.groupId.None? ==> s.log.announced == []
    ensures Starts(s, CreateGroup(s, cfg).0, cfg, CanFound(s.mls, s.channelId, s.env, cfg))
  {
    hide EnsureKeyPackage;
    KeyPackageSame(s, cfg);
    KeyPackageOutcome(s, cfg);
  }

  lemma SendReadySame(s: State, cfg: Config)
    ensures Same(s, SendReady(s, cfg))
  {
    hide SendLocked, WatchDroppedSend;
    SendSame(s, cfg);
    WatchSame(SendLocked(s, cfg).0, cfg, Done);
  }

  lemma SendCommitSame(s: State, cfg: Config)
    ensures Same(s, SendCommit(s, cfg))
  {
    hide SendLocked, WatchDroppedSend, ArmCommitWatchdog, RestorePreCommit;
    SendSame(s, cfg);
    var s1 := SendLocked(s, cfg).0;
    RestoreFacts(s1);
    WatchFacts(RestorePreCommit(s1).0, cfg);
    WatchFacts(s1, cfg);
  }

  lemma ProcessSame(s: State, cfg: Config, b: Batch)
    requires s.epochs.pending.None?
    ensures Same(s, ProcessAndCommit(s, cfg, b))
  {
    hide SendCommit, NewRatchets;
    var s1 := EnsureClient(s, cfg).0;
    var s2 := s1.(log := s1.log.(processed := s1.log.processed + [b.id]));
    if HasGroup(s2) { SendCommitSame(SetPending(MakeCommit(s2, b.commit)), cfg); }
  }

  lemma {:induction false} DrainSame(s: State, cfg: Config)
    ensures Same(s, Drain(s, cfg))
    decreases |s.mls.queue|
  {
    if s.mls.queue != [] && s.epochs.pending.None? {
      var s1 := s.(mls := s.mls.(queue := s.mls.queue[1..]));
      ProcessSame(s1, cfg, s.mls.queue[0]);
      ProcessKeepsQueue(s1, cfg, s.mls.queue[0]);
      hide ProcessAndCommit;
      DrainSame(ProcessAndCommit(s1, cfg, s.mls.queue[0]), cfg);
    }
  }

  lemma ActivateSame(s: State, cfg: Config)
    ensures Same(s, Activate(s, cfg))
  {
    hide Drain, ActivateEpoch;
    if s.epochs.pending.Some? {
      ActivateFacts(s, cfg);
      DrainSame(ActivateEpoch(s, cfg), cfg);
    }
  }

  lemma FinishSame(s: State, cfg: Config, transition: nat)
    ensures Same(s, FinishTransition(s, cfg, transition))
  {
    hide SendReady, Activate;
    SendReadySame(s, cfg);
    ActivateSame(s, cfg);
  }

  lemma SoleMemberStarts(s: State, cfg: Config)
    requires s.mls.groupId.None? ==> s.log.announced == []
    ensures Starts(s, ActivateSoleMember(s, cfg), cfg, CanFound(s.mls, s.channelId, s.env, cfg))
  {
    hide CreateGroup, WatchIfDropped, Activate, NewRatchets;
    CreateGroupStarts(s, cfg);
    var (t, o) := CreateGroup(s, cfg);
    WatchSame(t, cfg, o);
    ActivateSame(t, cfg);
    if HasGroup(t) { ActivateSame(SetPending(t), cfg); }
  }

  lemma InvalidateForgets(s: State, cfg: Config)
    ensures Left(InvalidateAndResend(s, cfg))
  {
    hide EnsureKeyPackage, WatchRecovery;
    KeyPackageSame(InvalidateMls(s), cfg);
    WatchSame(EnsureKeyPackage(InvalidateMls(s), cfg).0, cfg, Done);
  }

  // ---- Handlers ----

  lemma RestoreKeepsGroupId(s: State)
    requires IdsAgree(s) && s.mls.pendingCommit.Some?
    ensures var (t, ok) := RestorePreCommit(s);
            ok && HasGroup(t) && t.env == s.env && Same(s, t)
  {
  }

  predicate Announced(s: State, t: State, c: Commit) {
    t.log.announced == s.log.announced + [c] && t.log.origin == s.log.origin
  }

  lemma ReconcileAnnounces(s: State, cfg: Config, msg: Option<Commit>)
    requires IdsAgree(s)
    ensures var (t, ok) := Reconcile(s, cfg, msg);
            && ok == (HasGroup(s) && msg.Some? && s.env.processOk && s.env.rebuildOk)
            && (if ok then Announced(s, t, msg.value) else Left(t))
  {
    hide RestorePreCommit, SendInvalid, InvalidateAndResend, SetPending;
    if s.mls.pendingCommit.Some? { RestoreKeepsGroupId(s); }
    var s1 := if s.mls.pendingCommit.Some? then RestorePreCommit(s).0 else s;
    if HasGroup(s1) && msg.Some? { PeerCommitAnnounces(s1, msg.value, s1.env.rebuildOk); }
    hide PeerCommit;
    var (s2, ok) := ProcessCommit(s1, cfg, msg);
    InvalidateForgets(SendInvalid(s2, cfg), cfg);
  }

  lemma PeerCommitAnnounces(s: State, c: Commit, rebuilt: bool)
    requires HasGroup(s)
    ensures Announced(s, PeerCommit(s, c, rebuilt), c)
  {
    hide NewRatchets;
  }

  lemma PrepareCommitAnnounces(s: State, cfg: Config, e: Event)
    requires IdsAgree(s) && e.PrepareCommit? && e.env == s.env
    ensures var t := OnPrepareCommit(s, cfg, e.transition, e.message);
            if Handled(s, cfg, e) then Announced(s, t, e.message.value)
            else if StartsOver(s, cfg, e) then Left(t) else Same(s, t)
  {
    hide Reconcile, FinishTransition;
    var s1 := EnsureClient(s.(pendingTransitionId := e.transition), cfg).0;
    if ClientReady(s, cfg) {
      if Echo(s, e) {
        FinishSame(ConfirmCommit(s1), cfg, e.transition);
      } else {
        ReconcileAnnounces(s1, cfg, e.message);
        FinishSame(Reconcile(s1, cfg, e.message).0, cfg, e.transition);
      }
    }
  }

  lemma JoinStarts(s: State, w: Welcome)
    ensures Join(s, w).1 <==>
              w.joinOk && s.mls.client.Some? && w.externalSenderOk && s.mls.externalSender && s.env.rebuildOk
    ensures Join(s, w).1 ==> var t := Join(s, w).0; t.log.announced == [] && t.log.origin == Some(w.group)
  {
    hide NewRatchets;
  }

  lemma RollbackForWelcome(s: State)
    requires IdsAgree(s)
    ensures var (t, ok) := if s.mls.pendingCommit.Some? then RestorePreCommit(s) else (s, true);
            && ok && Same(s, t) && t.env == s.env && t.mls.client.None? == s.mls.client.None?
            && t.mls.externalSender == s.mls.externalSender
  {
  }

  lemma JoinedOrLeft(s: State, cfg: Config, transition: nat, w: Welcome)
    ensures var (t, joined) := Join(s, w);
            var u := if joined then FinishTransition(t, cfg, transition)
                     else InvalidateAndResend(SendInvalid(t, cfg), cfg);
            if joined then u.log.announced == [] && u.log.origin == Some(w.group) else Left(u)
  {
    hide Join, SendInvalid, InvalidateAndResend, FinishTransition;
    JoinStarts(s, w);
    var t := Join(s, w).0;
    InvalidateForgets(SendInvalid(t, cfg), cfg);
    FinishSame(t, cfg, transition);
  }

  lemma WelcomeStarts(s: State, cfg: Config, e: Event)
    requires IdsAgree(s) && e.GetWelcome? && e.env == s.env
    ensures var t := OnWelcome(s, cfg, e.transition, e.welcome);
            if Joins(s, cfg, e) then t.log.announced == [] && t.log.origin == Some(e.welcome.group)
            else if ClientReady(s, cfg) then Left(t) else Same(s, t)
  {
    hide RestorePreCommit, Join, SendInvalid, InvalidateAndResend, FinishTransition, IdsAgree;
    var s1 := s.(pendingTransitionId := e.transition);
    assert IdsAgree(s1) by { SameIds(s, e.transition); }
    RollbackForWelcome(s1);
    var s2 := if s1.mls.pendingCommit.Some? then RestorePreCommit(s1).0 else s1;
    var s3 := if s1.mls.pendingCommit.Some? then s2.(mls := s2.mls.(queue := [])) else s2;
    var s4 := EnsureClient(s3, cfg).0;
    JoinStarts(s4, e.welcome);
    JoinedOrLeft(s4, cfg, e.transition, e.welcome);
  }

  lemma SameIds(s: State, transition: nat)
    requires IdsAgree(s)
    ensures IdsAgree(s.(pendingTransitionId := transition))
  {
  }

  lemma FireForgets(s: State, cfg: Config, id: nat, w: Watchdog)
    requires w.Waiting?
    ensures Left(Fire(s, cfg, id, w))
  {
    hide SendInvalid, StartFire;
  }

  lemma WatchdogAnnounces(s: State, cfg: Config, e: Event)
    requires e.WatchdogRuns?
    ensures var t := WatchdogStep(s, cfg, e.id); if Fires(s, e) then Left(t) else Same(s, t)
  {
    hide Fire, SendLocked;
    if e.id in s.recovery.watchdogs {
      var w := s.recovery.watchdogs[e.id];
      SendSame(s, cfg);
      if w.Waiting? { FireForgets(s, cfg, e.id, w); }
    }
  }

  lemma ResetForgets(s: State, cfg: Config, v: nat, epoch: int)
    ensures Left(OnSelectProtocolAck(s, cfg, v))
    ensures var t := OnPrepareEpoch(s, cfg, epoch, v); if epoch == 1 then Left(t) else Same(s, t)
  {
    hide RequestRejoin;
    var s1 := SetTransportOnly(s.(version := s.version.(protocol := v, sending := v)), v == 0);
    RejoinSame(ResetAttempts(ResetGroup(s1)), cfg);
    RejoinSame(ResetGroup(SetTransportOnly(s.(version := s.version.(protocol := v)), v == 0)), cfg);
  }

  lemma TransitionsAnnounce(s: State, cfg: Config, transition: nat, v: nat)
    requires s.mls.groupId.None? ==> s.log.announced == []
    ensures Starts(s, OnPrepareTransition(s, cfg, transition, v), cfg,
                   transition == 0 && s.epochs.active.None? && CanFound(s.mls, s.channelId, s.env, cfg))
    ensures var t := OnExecuteTransition(s, cfg, transition);
            if transition == s.pendingTransitionId && s.version.protocol == 0 then Left(t) else Same(s, t)
  {
    hide ActivateSoleMember, SendLocked, Activate;
    var s1 := s.(pendingTransitionId := transition, version := s.version.(protocol := v));
    SendSame(s1, cfg);
    SoleMemberStarts(s1.(version := s1.version.(sending := v)), cfg);
    ActivateSame(SetTransportOnly(s.(version := s.version.(sending := s.version.protocol)), s.version.protocol == 0),
      cfg);
  }

  lemma OthersSame(s: State, cfg: Config, channel: nat, nonEmpty: bool, b: Batch, call: MediaCall)
    requires s.mls.groupId.None? ==> s.log.announced == []
    ensures Starts(s, OnSetChannel(s, cfg, channel), cfg,
                   s.channelId == 0 && s.mls.keyPackage && CanFound(s.mls, channel, s.env, cfg))
    ensures Starts(s, OnExternalSender(s, cfg, nonEmpty), cfg,
                   CanFound(s.mls.(externalSender := nonEmpty), s.channelId, s.env, cfg))
    ensures Same(s, OnProposals(s, cfg, b)) && Same(s, RunCall(s, cfg, call))
  {
    hide CreateGroup, WatchIfDropped, RunCall, Pruned, ProcessAndCommit;
    CallStep(s, cfg, call);
    CreateGroupStarts(s.(channelId := channel), cfg);
    var s0 := s.(mls := s.mls.(externalSender := nonEmpty));
    CreateGroupStarts(s0, cfg);
    WatchSame(CreateGroup(s0, cfg).0, cfg, CreateGroup(s0, cfg).1);
    if s.epochs.pending.None? {
      ProcessSame(s.(log := s.log.(arrived := s.log.arrived + 1)), cfg, b.(id := s.log.arrived));
    }
  }

  lemma StepAnnounces(s: State, cfg: Config, e: Event)
    requires IdsAgree(s) && (s.mls.groupId.None? ==> s.log.announced == [])
    ensures Step(s, cfg, e).log.announced
            == if Handled(s, cfg, e) then s.log.announced + [e.message.value]
               else if StartsOver(s, cfg, e) then [] else s.log.announced
    ensures Step(s, cfg, e).log.origin
            == if Founds(s, cfg, e) then Some(Creation(cfg, e.env))
               else if Joins(s, cfg, e) then Some(e.welcome.group)
               else if StartsOver(s, cfg, e) then None else s.log.origin
  {
    hide RunCall, OnSetChannel, OnSelectProtocolAck, OnPrepareTransition, OnExecuteTransition, OnPrepareEpoch,
         OnExternalSender, OnProposals, OnPrepareCommit, OnWelcome, WatchdogStep;
    if e.Media? {
      OthersSame(s, cfg, 0, false, NO_BATCH, e.call);
    } else {
      var u := s.(env := e.env);
      if e.PrepareCommit? {
        PrepareCommitAnnounces(u, cfg, e);
      } else if e.GetWelcome? {
        WelcomeStarts(u, cfg, e);
      } else if e.WatchdogRuns? {
        WatchdogAnnounces(u, cfg, e);
      } else if e.SelectProtocolAck? {
        ResetForgets(u, cfg, e.version, 0);
      } else if e.PrepareEpoch? {
        ResetForgets(u, cfg, e.version, e.epoch);
      } else if e.PrepareTransition? {
        TransitionsAnnounce(u, cfg, e.transition, e.version);
      } else if e.ExecuteTransition? {
        TransitionsAnnounce(u, cfg, e.transition, 0);
      } else if e.SetChannel? {
        OthersSame(u, cfg, e.channel, false, NO_BATCH, Tick(0));
      } else if e.ExternalSender? {
        OthersSame(u, cfg, 0, e.nonEmpty, NO_BATCH, Tick(0));
      } else {
        OthersSame(u, cfg, 0, false, e.batch, Tick(0));
      }
    }
  }

  const NO_BATCH := Batch(0, false, false, false, Commit(0, {}, {}), false, false)

  /** In every run, the announced commits are the messages of its handled prepare_commit
      events since it last started over, and what it started from is the group created or
      joined by the last event that did either. */
  lemma {:induction false} AnnouncedAreMessages(cfg: Config, es: seq<Event>)
    ensures Run(Init(), cfg, es).log.announced == Messages(cfg, es)
    ensures Run(Init(), cfg, es).log.origin == Origin(cfg, es)
    decreases |es|
  {
    if es != [] {
      var n := |es| - 1;
      AnnouncedAreMessages(cfg, es[..n]);
      ReachableGroups(cfg, es[..n]);
      NewestIsGroups(cfg, es[..n]);
      hide Step, Handled, StartsOver, Founds, Joins, Sound, IdsAgree, Agrees;
      StepAnnounces(Run(Init(), cfg, es[..n]), cfg, es[n]);
    }
  }
}
