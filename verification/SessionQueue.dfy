/** What holds between handlers: proposals are single-flight and processed in arrival
    order, and no half-failed commit or welcome is left behind. */
module SessionQueue {
  import opened Bytes
  import opened SessionState
  import opened SessionMedia
  import opened SessionControl
  import opened SessionPaths
  import opened SessionShape

  /** Strictly increasing, below a bound. */
  predicate InOrder(xs: seq<nat>, bound: nat) {
    && (forall i, j :: 0 <= i < j < |xs| ==> xs[i] < xs[j])
    && (forall i :: 0 <= i < |xs| ==> xs[i] < bound)
  }

  lemma InOrderWithout(xs: seq<nat>, bound: nat, k: nat, ys: seq<nat>)
    requires InOrder(xs, bound) && k < |xs| && ys == xs[..k] + xs[k + 1..]
    ensures InOrder(ys, bound)
  {
    assert forall i :: 0 <= i < |ys| ==> ys[i] == xs[if i < k then i else i + 1];
  }

  lemma InOrderPrefix(xs: seq<nat>, bound: nat, ys: seq<nat>)
    requires InOrder(xs, bound) && ys <= xs
    ensures InOrder(ys, bound)
  {
    assert forall i :: 0 <= i < |ys| ==> ys[i] == xs[i];
  }

  lemma InOrderNext(xs: seq<nat>, bound: nat)
    requires InOrder(xs, bound)
    ensures InOrder(xs, bound + 1) && InOrder(xs + [bound], bound + 1)
  {
  }

  function Ids(queue: seq<Batch>): seq<nat> {
    seq(|queue|, i requires 0 <= i < |queue| => queue[i].id)
  }

  /** What reached MLS, followed by what still waits, is in arrival order without repetition. */
  predicate Ordered(s: State) {
    InOrder(s.log.processed + Ids(s.mls.queue), s.log.arrived)
  }

  /** Batches wait only behind a pending epoch. */
  predicate SingleFlight(s: State) { s.mls.queue == [] || s.epochs.pending.Some? }

  /** What is claimed of a run besides cleanliness: that its queue is in order, and from
      when it rejects plaintext. */
  datatype Claim = Claim(ordered: bool, rejectedFrom: Option<Time>)

  predicate Rejects(s: State, claim: Claim) {
    claim.rejectedFrom.Some? ==> s.version.plaintextRejectedFrom == claim.rejectedFrom
  }

  /** Between handlers. */
  predicate Between(s: State, claim: Claim) {
    !s.log.tainted && !s.log.detached && Rejects(s, claim) && (claim.ordered ==> SingleFlight(s) && Ordered(s))
  }

  /** Nothing Between speaks of has changed. */
  predicate Neutral(s: State, t: State) {
    && t.mls.queue == s.mls.queue && t.epochs.pending.None? == s.epochs.pending.None?
    && t.log.arrived == s.log.arrived && t.log.processed == s.log.processed && t.log.tainted == s.log.tainted
    && (t.log.detached ==> s.log.detached)
    && t.version.plaintextRejectedFrom == s.version.plaintextRejectedFrom
  }

  lemma SendNeutral(s: State, cfg: Config)
    ensures Neutral(s, SendLocked(s, cfg).0)
  {
    hide SendLocked;
    SendKeeps(s, cfg);
  }

  lemma KeyPackageNeutral(s: State, cfg: Config)
    ensures Neutral(s, EnsureKeyPackage(s, cfg).0)
  {
    hide SendLocked;
    SendNeutral(EnsureClient(s, cfg).0, cfg);
  }

  lemma CreateGroupNeutral(s: State, cfg: Config)
    ensures Neutral(s, CreateGroup(s, cfg).0)
  {
    hide EnsureKeyPackage;
    KeyPackageNeutral(s, cfg);
  }

  lemma WatchNeutral(s: State, cfg: Config, o: Outcome)
    ensures Neutral(s, WatchIfDropped(s, cfg, o)) && Neutral(s, WatchDroppedSend(s, cfg)) &&
            Neutral(s, WatchRecovery(s, cfg))
  {
  }

  lemma RejoinNeutral(s: State, cfg: Config)
    ensures Neutral(s, RequestRejoin(s, cfg))
  {
    hide EnsureKeyPackage, WatchIfDropped;
    KeyPackageNeutral(StopSending(s, cfg), cfg);
    var (t, o) := EnsureKeyPackage(StopSending(s, cfg), cfg);
    WatchNeutral(t, cfg, o);
  }

  lemma SendInvalidNeutral(s: State, cfg: Config)
    ensures Neutral(s, SendInvalid(s, cfg))
  {
    hide SendLocked;
    SendNeutral(s, cfg);
  }

  lemma SendReadyNeutral(s: State, cfg: Config)
    ensures Neutral(s, SendReady(s, cfg))
  {
    hide SendLocked, WatchDroppedSend;
    SendNeutral(s, cfg);
    WatchNeutral(SendLocked(s, cfg).0, cfg, Done);
  }

  // ---- Processing a batch ----

  lemma SendCommitFacts(s: State, cfg: Config)
    requires s.epochs.pending.Some?
    ensures var t := SendCommit(s, cfg);
            && t.mls.queue == s.mls.queue && t.log.arrived == s.log.arrived && t.log.processed == s.log.processed
            && t.log.tainted == s.log.tainted && t.log.detached == s.log.detached && t.version == s.version
  {
    hide SendLocked, WatchDroppedSend, ArmCommitWatchdog, RestorePreCommit;
    SendKeeps(s, cfg);
    var s1 := SendLocked(s, cfg).0;
    RestoreFacts(s1);
    WatchFacts(RestorePreCommit(s1).0, cfg);
    WatchFacts(s1, cfg);
  }

  lemma WatchFacts(s: State, cfg: Config)
    ensures var t, u := WatchDroppedSend(s, cfg), ArmCommitWatchdog(s, cfg);
            && t.mls == s.mls && t.log == s.log && t.version == s.version
            && u.mls == s.mls && u.log == s.log.(ownCommits := u.log.ownCommits) && u.version == s.version
  {
  }

  /** A batch is either lost for want of a client, or processed once. */
  lemma ProcessFacts(s: State, cfg: Config, b: Batch)
    requires s.epochs.pending.None?
    ensures var t := ProcessAndCommit(s, cfg, b);
            && t.mls.queue == s.mls.queue && t.log.arrived == s.log.arrived && t.log.tainted == s.log.tainted
            && t.log.detached == s.log.detached && t.version == s.version
            && (t.log.processed == s.log.processed || t.log.processed == s.log.processed + [b.id])
  {
    hide SendCommit, NewRatchets;
    var s1 := EnsureClient(s, cfg).0;
    var s2 := s1.(log := s1.log.(processed := s1.log.processed + [b.id]));
    if HasGroup(s2) { SendCommitFacts(SetPending(MakeCommit(s2, b.commit)), cfg); }
  }

  lemma OrderedAfterTake(s: State, t: State)
    requires Ordered(s) && s.mls.queue != []
    requires t.mls.queue == s.mls.queue[1..] && t.log.arrived == s.log.arrived
    requires t.log.processed == s.log.processed || t.log.processed == s.log.processed + [s.mls.queue[0].id]
    ensures Ordered(t)
  {
    var n := |s.log.processed|;
    var before, after := s.log.processed + Ids(s.mls.queue), t.log.processed + Ids(t.mls.queue);
    if t.log.processed == s.log.processed + [s.mls.queue[0].id] {
      assert after == before;
    } else {
      InOrderWithout(before, s.log.arrived, n, after);
    }
  }

  /** The drain ends with an empty queue or a pending epoch. */
  lemma {:induction false} DrainFacts(s: State, cfg: Config, claim: Claim)
    requires !s.log.tainted && !s.log.detached && Rejects(s, claim) && (claim.ordered ==> Ordered(s))
    ensures Between(Drain(s, cfg), claim) && SingleFlight(Drain(s, cfg))
    decreases |s.mls.queue|
  {
    if s.mls.queue != [] && s.epochs.pending.None? {
      var s1 := s.(mls := s.mls.(queue := s.mls.queue[1..]));
      var t := ProcessAndCommit(s1, cfg, s.mls.queue[0]);
      ProcessFacts(s1, cfg, s.mls.queue[0]);
      hide ProcessAndCommit;
      if claim.ordered {
        OrderedAfterTake(s, t);
        hide Ordered;
      }
      DrainFacts(t, cfg, claim);
    }
  }

  lemma OrderedSame(s: State, t: State)
    requires Ordered(s) && t.mls.queue == s.mls.queue && t.log.arrived == s.log.arrived &&
             t.log.processed == s.log.processed
    ensures Ordered(t)
  {
  }

  lemma NeutralKeepsBetween(s: State, t: State, claim: Claim)
    requires Between(s, claim) && Neutral(s, t)
    ensures Between(t, claim)
  {
    if claim.ordered { OrderedSame(s, t); }
  }

  lemma EmptyQueueOrdered(s: State, t: State)
    requires Ordered(s) && t.mls.queue == [] && t.log.arrived == s.log.arrived && t.log.processed == s.log.processed
    ensures Ordered(t)
  {
    assert t.log.processed + Ids([]) == s.log.processed;
    InOrderPrefix(s.log.processed + Ids(s.mls.queue), s.log.arrived, s.log.processed);
  }

  lemma EmptyQueueBetween(s: State, t: State, claim: Claim)
    requires Rejects(t, claim) && (claim.ordered ==> Ordered(s))
    requires t.mls.queue == [] && !t.log.tainted && !t.log.detached && t.log.arrived == s.log.arrived &&
             t.log.processed == s.log.processed
    ensures Between(t, claim)
  {
    if claim.ordered { EmptyQueueOrdered(s, t); }
  }

  lemma ActivateBetween(s: State, cfg: Config, claim: Claim)
    requires !s.log.tainted && !s.log.detached && Rejects(s, claim) && (claim.ordered ==> Ordered(s))
    requires s.epochs.pending.None? ==> Between(s, claim)
    ensures Between(Activate(s, cfg), claim)
  {
    hide Drain, Ordered;
    if s.epochs.pending.Some? {
      var t := ActivateEpoch(s, cfg);
      ActivateQueue(s, cfg);
      hide ActivateEpoch;
      if claim.ordered { OrderedSame(s, t); }
      DrainFacts(t, cfg, claim);
    }
  }

  lemma ActivateQueue(s: State, cfg: Config)
    ensures var t := ActivateEpoch(s, cfg);
            && t.mls.queue == s.mls.queue && t.log.arrived == s.log.arrived && t.log.processed == s.log.processed
            && t.log.tainted == s.log.tainted && t.log.detached == s.log.detached
            && (s.version.plaintextRejectedFrom.Some? ==>
                  t.version.plaintextRejectedFrom == s.version.plaintextRejectedFrom)
  {
    if s.epochs.pending.Some? {
      ActivateFacts(s, cfg);
      if s.version.plaintextRejectedFrom.Some? { ActivateKeepsRejection(s, cfg); }
      hide ActivateEpoch;
    }
  }

  lemma ActivateKeepsRejection(s: State, cfg: Config)
    requires s.version.plaintextRejectedFrom.Some?
    ensures ActivateEpoch(s, cfg).version.plaintextRejectedFrom == s.version.plaintextRejectedFrom
  {
    hide Unexpired, AddsSender;
  }

  lemma FinishBetween(s: State, cfg: Config, transition: nat, claim: Claim)
    requires Between(s, claim)
    ensures Between(FinishTransition(s, cfg, transition), claim)
  {
    hide SendReady, Activate, Ordered;
    SendReadyNeutral(s, cfg);
    NeutralKeepsBetween(s, SendReady(s, cfg), claim);
    ActivateBetween(s, cfg, claim);
    NeutralKeepsBetween(Activate(s, cfg), Activate(s, cfg).(pendingTransitionId := 0), claim);
  }

  lemma InvalidateBetween(s: State, cfg: Config, claim: Claim)
    requires Rejects(s, claim) && (claim.ordered ==> Ordered(s))
    ensures Between(InvalidateAndResend(s, cfg), claim)
  {
    hide EnsureKeyPackage, WatchRecovery, Ordered;
    var t := InvalidateMls(s);
    EmptyQueueBetween(s, t, claim);
    hide InvalidateMls;
    KeyPackageNeutral(t, cfg);
    var u := EnsureKeyPackage(t, cfg).0;
    NeutralKeepsBetween(t, u, claim);
    WatchNeutral(u, cfg, Done);
    NeutralKeepsBetween(u, WatchRecovery(u, cfg), claim);
  }

  // ---- Handlers ----

  lemma SoleMemberBetween(s: State, cfg: Config, claim: Claim)
    requires Between(s, claim)
    ensures Between(ActivateSoleMember(s, cfg), claim)
  {
    hide CreateGroup, WatchIfDropped, Activate, Ordered, NewRatchets;
    CreateGroupNeutral(s, cfg);
    var (t, o) := CreateGroup(s, cfg);
    NeutralKeepsBetween(s, t, claim);
    WatchNeutral(t, cfg, o);
    NeutralKeepsBetween(t, WatchIfDropped(t, cfg, o), claim);
    ActivateBetween(t, cfg, claim);
    if HasGroup(t) {
      var u := SetPending(t);
      if claim.ordered { OrderedSame(t, u); }
      ActivateBetween(u, cfg, claim);
    }
  }

  lemma ProposalsBetween(s: State, cfg: Config, b: Batch, claim: Claim)
    requires Between(s, claim)
    ensures Between(OnProposals(s, cfg, b), claim)
  {
    var batch := b.(id := s.log.arrived);
    var s1 := s.(log := s.log.(arrived := s.log.arrived + 1));
    hide ProcessAndCommit, Ordered;
    if s.epochs.pending.None? {
      ProcessFacts(s1, cfg, batch);
      var t := ProcessAndCommit(s1, cfg, batch);
      hide OnProposals;
      assert OnProposals(s, cfg, b) == t by { ProposalsProcess(s, cfg, b); }
      if claim.ordered { OrderedAfterArrival(s, t, batch); }
    } else {
      var t := s1.(mls := s1.mls.(queue := s1.mls.queue + [batch]));
      if claim.ordered { OrderedAfterArrival(s, t, batch); }
    }
  }

  lemma ProposalsProcess(s: State, cfg: Config, b: Batch)
    requires s.epochs.pending.None?
    ensures OnProposals(s, cfg, b)
            == ProcessAndCommit(s.(log := s.log.(arrived := s.log.arrived + 1)), cfg, b.(id := s.log.arrived))
  {
    hide ProcessAndCommit;
  }

  lemma OrderedAfterArrival(s: State, t: State, b: Batch)
    requires Ordered(s) && b.id == s.log.arrived && t.log.arrived == s.log.arrived + 1
    requires || (t.mls.queue == s.mls.queue + [b] && t.log.processed == s.log.processed)
             || (t.mls.queue == s.mls.queue && t.log.processed == s.log.processed)
             || (t.mls.queue == s.mls.queue == [] && t.log.processed == s.log.processed + [b.id])
    ensures Ordered(t)
  {
    var before, after := s.log.processed + Ids(s.mls.queue), t.log.processed + Ids(t.mls.queue);
    assert after == before || after == before + [b.id];
    InOrderNext(before, s.log.arrived);
  }

  lemma PeerCommitFacts(s: State, c: Commit, rebuilt: bool)
    requires HasGroup(s)
    ensures var t := PeerCommit(s, c, rebuilt);
            && t.mls.queue == s.mls.queue && t.version == s.version
            && t.log == s.log.(minted := t.log.minted, built := t.log.built, announced := t.log.announced,
                               tainted := t.log.tainted, detached := false)
            && (rebuilt ==> t.epochs.pending.Some? && t.log.tainted == s.log.tainted)
  {
    hide NewRatchets, BuildEpoch, Apply;
  }

  lemma ProcessCommitFacts(s: State, cfg: Config, msg: Option<Commit>)
    ensures var (t, ok) := ProcessCommit(s, cfg, msg);
            && t.mls.queue == s.mls.queue && t.log.arrived == s.log.arrived && t.log.processed == s.log.processed
            && (ok ==> t.epochs.pending.Some? && t.log.tainted == s.log.tainted && !t.log.detached)
            && (!ok ==> !t.log.detached || s.log.detached) && t.version == s.version
  {
    hide PeerCommit;
    if HasGroup(s) && msg.Some? { PeerCommitFacts(s, msg.value, s.env.rebuildOk); }
  }

  lemma RestoreFacts(s: State)
    ensures var (t, ok) := RestorePreCommit(s);
            && t.mls.queue == s.mls.queue && t.version == s.version && (!ok ==> t == s)
            && t.log == s.log.(detached := t.log.detached) && t.mls.client.None? == s.mls.client.None?
            && (t.log.detached ==> s.log.detached || (s.epochs.pending.None? && s.mls.client.Some?))
            && (s.epochs.pending.Some? ==> t.log.detached == s.log.detached)
  {
  }

  lemma ReconcileBetween(s: State, cfg: Config, msg: Option<Commit>, claim: Claim)
    requires Between(s, claim)
    ensures Between(Reconcile(s, cfg, msg).0, claim)
  {
    hide RestorePreCommit, ProcessCommit, SendInvalid, InvalidateAndResend, Ordered;
    RestoreFacts(s);
    var (s1, restored) := if s.mls.pendingCommit.Some? then RestorePreCommit(s) else (s, true);
    if !restored {
      SendInvalidNeutral(s1, cfg);
      NeutralKeepsBetween(s, SendInvalid(s1, cfg), claim);
    } else {
      ProcessCommitFacts(s1, cfg, msg);
      var (s2, ok) := ProcessCommit(s1, cfg, msg);
      if claim.ordered { OrderedSame(s, s2); }
      SendInvalidNeutral(s2, cfg);
      if claim.ordered { OrderedSame(s2, SendInvalid(s2, cfg)); }
      InvalidateBetween(SendInvalid(s2, cfg), cfg, claim);
    }
  }

  lemma PrepareCommitBetween(s: State, cfg: Config, transition: nat, msg: Option<Commit>, claim: Claim)
    requires Between(s, claim)
    ensures Between(OnPrepareCommit(s, cfg, transition, msg), claim)
  {
    hide Reconcile, FinishTransition, Ordered;
    var s1 := EnsureClient(s.(pendingTransitionId := transition), cfg).0;
    NeutralKeepsBetween(s, s1, claim);
    NeutralKeepsBetween(s1, ConfirmCommit(s1), claim);
    FinishBetween(ConfirmCommit(s1), cfg, transition, claim);
    ReconcileBetween(s1, cfg, msg, claim);
    FinishBetween(Reconcile(s1, cfg, msg).0, cfg, transition, claim);
  }

  lemma JoinFacts(s: State, w: Welcome)
    ensures var (t, ok) := Join(s, w);
            && t.mls.queue == s.mls.queue && t.log.arrived == s.log.arrived && t.log.processed == s.log.processed
            && (ok ==> t.epochs.pending.Some? && t.log.tainted == s.log.tainted && !t.log.detached)
            && t.version == s.version
  {
    hide NewRatchets;
  }

  lemma WelcomeBetween(s: State, cfg: Config, transition: nat, w: Welcome, claim: Claim)
    requires Between(s, claim)
    ensures Between(OnWelcome(s, cfg, transition, w), claim)
  {
    hide RestorePreCommit, Join, SendInvalid, InvalidateAndResend, FinishTransition, Ordered, EnsureClient;
    var s1 := s.(pendingTransitionId := transition);
    NeutralKeepsBetween(s, s1, claim);
    RestoreFacts(s1);
    var (s2, restored) := if s1.mls.pendingCommit.Some? then RestorePreCommit(s1) else (s1, true);
    if !restored {
      SendInvalidNeutral(s2, cfg);
      NeutralKeepsBetween(s1, SendInvalid(s2, cfg), claim);
    } else {
      var s3 := if s1.mls.pendingCommit.Some? then s2.(mls := s2.mls.(queue := [])) else s2;
      if s1.mls.pendingCommit.Some? && claim.ordered { EmptyQueueOrdered(s1, s3); }
      ClientNeutral(s3, cfg);
      var s4 := EnsureClient(s3, cfg).0;
      if claim.ordered { OrderedSame(s3, s4); }
      JoinFacts(s4, w);
      var (s5, joined) := Join(s4, w);
      if claim.ordered { OrderedSame(s4, s5); }
      SendInvalidNeutral(s5, cfg);
      if claim.ordered { OrderedSame(s5, SendInvalid(s5, cfg)); }
      InvalidateBetween(SendInvalid(s5, cfg), cfg, claim);
      if joined { FinishBetween(s5, cfg, transition, claim); }
    }
  }

  lemma ClientNeutral(s: State, cfg: Config)
    ensures Neutral(s, EnsureClient(s, cfg).0) && (s.mls.client.Some? ==> EnsureClient(s, cfg).1)
    ensures EnsureClient(s, cfg).0.version == s.version && EnsureClient(s, cfg).0.log == s.log
  {
  }

  lemma ResetBetween(s: State, cfg: Config, claim: Claim)
    requires Rejects(s, claim) && (claim.ordered ==> Ordered(s))
    ensures Between(ResetGroup(s), claim) && Between(RequestRejoin(ResetGroup(s), cfg), claim)
  {
    hide RequestRejoin, Ordered;
    EmptyQueueBetween(s, ResetGroup(s), claim);
    RejoinNeutral(ResetGroup(s), cfg);
    NeutralKeepsBetween(ResetGroup(s), RequestRejoin(ResetGroup(s), cfg), claim);
  }

  lemma AckBetween(s: State, cfg: Config, v: nat, claim: Claim)
    requires Between(s, claim) && (claim.rejectedFrom.Some? ==> v != 0)
    ensures Between(OnSelectProtocolAck(s, cfg, v), claim)
  {
    hide RequestRejoin, Ordered;
    var s1 := SetTransportOnly(s.(version := s.version.(protocol := v, sending := v)), v == 0);
    if claim.ordered { OrderedSame(s, s1); }
    EmptyQueueBetween(s1, ResetAttempts(ResetGroup(s1)), claim);
    var s3 := ResetAttempts(ResetGroup(s1));
    NeutralKeepsBetween(s3, DropSendKeys(s3), claim);
    RejoinNeutral(s3, cfg);
    NeutralKeepsBetween(s3, RequestRejoin(s3, cfg), claim);
  }

  lemma PrepareTransitionBetween(s: State, cfg: Config, transition: nat, v: nat, claim: Claim)
    requires Between(s, claim)
    ensures Between(OnPrepareTransition(s, cfg, transition, v), claim)
  {
    hide ActivateSoleMember, SendLocked, Ordered;
    var s1 := s.(pendingTransitionId := transition, version := s.version.(protocol := v));
    NeutralKeepsBetween(s, s1, claim);
    SendNeutral(s1, cfg);
    NeutralKeepsBetween(s1, SendLocked(s1, cfg).0, claim);
    var s2 := s1.(version := s1.version.(sending := v));
    NeutralKeepsBetween(s1, s2, claim);
    SoleMemberBetween(s2, cfg, claim);
    var s3 := ActivateSoleMember(s2, cfg);
    NeutralKeepsBetween(s3, s3.(pendingTransitionId := 0), claim);
  }

  /** An execute_transition that carries out a downgrade to version 0. */
  predicate ExecutesDowngrade(s: State, e: Event) {
    e.ExecuteTransition? && e.transition == s.pendingTransitionId && s.version.protocol == 0
  }

  lemma ExecuteBetween(s: State, cfg: Config, transition: nat, claim: Claim)
    requires Between(s, claim)
    requires claim.ordered ==> s.mls.queue == [] || transition != s.pendingTransitionId || s.version.protocol != 0
    requires claim.rejectedFrom.Some? ==> transition != s.pendingTransitionId || s.version.protocol != 0
    ensures Between(OnExecuteTransition(s, cfg, transition), claim)
  {
    hide Activate, Ordered;
    var s1 := SetTransportOnly(s.(version := s.version.(sending := s.version.protocol)), s.version.protocol == 0);
    if transition == s.pendingTransitionId {
      if s.version.protocol == 0 {
        if claim.ordered {
          OrderedSame(s, s1);
          EmptyQueueBetween(s1, Downgrade(s1), claim);
        }
      } else {
        NeutralKeepsBetween(s, s1, claim);
        ActivateBetween(s1, cfg, claim);
        NeutralKeepsBetween(Activate(s1, cfg), Activate(s1, cfg).(pendingTransitionId := 0), claim);
      }
    }
  }

  lemma FireBetween(s: State, cfg: Config, id: nat, w: Watchdog, claim: Claim)
    requires Between(s, claim) && w.Waiting?
    ensures Between(Fire(s, cfg, id, w), claim)
  {
    hide SendInvalid, EnsureClient, Ordered;
    var s0 := StartFire(s, id, w);
    NeutralKeepsBetween(s, s0, claim);
    SendInvalidNeutral(s0, cfg);
    var s1 := SendInvalid(s0, cfg);
    NeutralKeepsBetween(s0, s1, claim);
    var s2 := InvalidateMls(s1);
    EmptyQueueBetween(s1, s2, claim);
    hide InvalidateMls;
    ClientNeutral(s2, cfg);
    NeutralKeepsBetween(s2, Fire(s, cfg, id, w), claim);
  }

  lemma WatchdogBetween(s: State, cfg: Config, id: nat, claim: Claim)
    requires Between(s, claim)
    ensures Between(WatchdogStep(s, cfg, id), claim)
  {
    hide Fire, SendLocked, Ordered;
    if id in s.recovery.watchdogs {
      var w := s.recovery.watchdogs[id];
      SendNeutral(s, cfg);
      if w.Waiting? && s.now >= w.deadline && !Released(s, w.chan) && !(w.forCommit && s.epochs.pending.None?) {
        FireBetween(s, cfg, id, w, claim);
      } else {
        NeutralKeepsBetween(s, WatchdogStep(s, cfg, id), claim);
      }
    }
  }

  lemma OtherHandlersNeutral(s: State, cfg: Config, channel: nat, nonEmpty: bool, call: MediaCall)
    ensures Neutral(s, OnSetChannel(s, cfg, channel)) && Neutral(s, OnExternalSender(s, cfg, nonEmpty))
    ensures Neutral(s, RunCall(s, cfg, call))
  {
    hide CreateGroup, WatchIfDropped, RunCall, Pruned;
    CallStep(s, cfg, call);
    CreateGroupNeutral(s.(channelId := channel), cfg);
    var s0 := s.(mls := s.mls.(externalSender := nonEmpty));
    CreateGroupNeutral(s0, cfg);
    var (s1, o) := CreateGroup(s0, cfg);
    WatchNeutral(s1, cfg, o);
  }

  lemma PrepareEpochBetween(s: State, cfg: Config, epoch: int, v: nat, claim: Claim)
    requires Between(s, claim) && (claim.rejectedFrom.Some? ==> epoch != 1 || v != 0)
    ensures Between(OnPrepareEpoch(s, cfg, epoch, v), claim)
  {
    hide RequestRejoin, ResetGroup, Ordered;
    var s1 := s.(version := s.version.(protocol := v));
    NeutralKeepsBetween(s, s1, claim);
    if epoch == 1 {
      if claim.ordered { OrderedSame(s1, SetTransportOnly(s1, v == 0)); }
      ResetBetween(SetTransportOnly(s1, v == 0), cfg, claim);
    }
  }

  /** The events with which protocol version 0 takes effect. */
  predicate VersionZeroTakesEffect(s: State, e: Event) {
    || (e.SelectProtocolAck? && e.version == 0)
    || (e.PrepareEpoch? && e.epoch == 1 && e.version == 0)
    || ExecutesDowngrade(s, e)
  }

  lemma StepBetween(s: State, cfg: Config, e: Event, claim: Claim)
    requires Between(s, claim) && (claim.ordered ==> s.mls.queue == [] || !ExecutesDowngrade(s, e))
    requires claim.rejectedFrom.Some? ==> !VersionZeroTakesEffect(s, e)
    ensures Between(Step(s, cfg, e), claim)
  {
    hide Ordered, RunCall, OnSetChannel, OnSelectProtocolAck, OnPrepareTransition, OnExecuteTransition, OnPrepareEpoch,
         OnExternalSender, OnProposals, OnPrepareCommit, OnWelcome, WatchdogStep;
    if e.Media? {
      OtherHandlersNeutral(s, cfg, 0, false, e.call);
      NeutralKeepsBetween(s, Step(s, cfg, e), claim);
    } else {
      var u := s.(env := e.env);
      NeutralKeepsBetween(s, u, claim);
      match e
      case SetChannel(c, _) =>
        OtherHandlersNeutral(u, cfg, c, false, Tick(0));
        NeutralKeepsBetween(u, Step(s, cfg, e), claim);
      case SelectProtocolAck(v, _) => AckBetween(u, cfg, v, claim);
      case PrepareTransition(n, v, _) => PrepareTransitionBetween(u, cfg, n, v, claim);
      case ExecuteTransition(n, _) => ExecuteBetween(u, cfg, n, claim);
      case PrepareEpoch(epoch, v, _) => PrepareEpochBetween(u, cfg, epoch, v, claim);
      case ExternalSender(nonEmpty, _) =>
        OtherHandlersNeutral(u, cfg, 0, nonEmpty, Tick(0));
        NeutralKeepsBetween(u, Step(s, cfg, e), claim);
      case Proposals(b, _) => ProposalsBetween(u, cfg, b, claim);
      case PrepareCommit(n, m, _) => PrepareCommitBetween(u, cfg, n, m, claim);
      case GetWelcome(n, w, _) => WelcomeBetween(u, cfg, n, w, claim);
      case WatchdogRuns(id, _) => WatchdogBetween(u, cfg, id, claim);
    }
  }

  // ---- Runs ----

  /** The event executes a downgrade to version 0 while batches wait. */
  predicate Strands(s: State, e: Event) { ExecutesDowngrade(s, e) && s.mls.queue != [] }

  /** No step of the run strands a batch. A run with no executed downgrade is one such. */
  ghost predicate NeverStrands(cfg: Config, es: seq<Event>) {
    forall k :: 0 <= k < |es| ==> !Strands(Run(Init(), cfg, es[..k]), es[k])
  }

  lemma {:induction false} RunBetween(cfg: Config, es: seq<Event>, ordered: bool)
    requires ordered ==> NeverStrands(cfg, es)
    ensures Between(Run(Init(), cfg, es), Claim(ordered, None))
    decreases |es|
  {
    if es == [] {
      assert Between(Init(), Claim(ordered, None));
    } else {
      hide Step, Between, ExecutesDowngrade, Init;
      var n := |es| - 1;
      if ordered { NeverStrandsPrefix(cfg, es, n); }
      RunBetween(cfg, es[..n], ordered);
      StepBetween(Run(Init(), cfg, es[..n]), cfg, es[n], Claim(ordered, None));
    }
  }

  lemma NeverStrandsPrefix(cfg: Config, es: seq<Event>, n: nat)
    requires NeverStrands(cfg, es) && n <= |es|
    ensures NeverStrands(cfg, es[..n]) && (n < |es| ==> !Strands(Run(Init(), cfg, es[..n]), es[n]))
  {
    hide Run, Strands;
    forall k | 0 <= k < n ensures !Strands(Run(Init(), cfg, es[..n][..k]), es[..n][k]) {
      assert es[..n][..k] == es[..k];
    }
  }

  /** In every run that never strands a batch, in particular with no executed downgrade,
      batches wait only behind a pending epoch, and reach MLS in arrival order and at
      most once. */
  lemma ProposalsInOrder(cfg: Config, es: seq<Event>)
    requires NeverStrands(cfg, es)
    ensures var t := Run(Init(), cfg, es);
            SingleFlight(t) && InOrder(t.log.processed, t.log.arrived)
  {
    RunBetween(cfg, es, true);
    hide Run, NeverStrands;
    var t := Run(Init(), cfg, es);
    InOrderPrefix(t.log.processed + Ids(t.mls.queue), t.log.arrived, t.log.processed);
  }

  /** Batches wait only behind a pending epoch throughout a run exactly when no downgrade
      is executed while some wait. */
  lemma SingleFlightExactly(cfg: Config, es: seq<Event>)
    ensures (forall k :: 0 <= k <= |es| ==> SingleFlight(Run(Init(), cfg, es[..k]))) <==> NeverStrands(cfg, es)
  {
    hide Run, SingleFlight, Strands;
    if NeverStrands(cfg, es) {
      forall k | 0 <= k <= |es| ensures SingleFlight(Run(Init(), cfg, es[..k])) {
        NeverStrandsPrefix(cfg, es, k);
        ProposalsInOrder(cfg, es[..k]);
      }
    } else {
      var k :| 0 <= k < |es| && Strands(Run(Init(), cfg, es[..k]), es[k]);
      StrandedNext(cfg, es, k);
    }
  }

  lemma StrandedNext(cfg: Config, es: seq<Event>, k: nat)
    requires k < |es| && Strands(Run(Init(), cfg, es[..k]), es[k])
    ensures !SingleFlight(Run(Init(), cfg, es[..k + 1]))
  {
    var s := Run(Init(), cfg, es[..k]);
    assert es[..k + 1][..k] == es[..k] && es[..k + 1][k] == es[k];
    assert Run(Init(), cfg, es[..k + 1]) == Step(s, cfg, es[k]);
    hide Run;
    DowngradeStrands(s.(env := es[k].env), cfg, es[k].transition);
  }

  lemma DowngradeStrands(s: State, cfg: Config, transition: nat)
    requires transition == s.pendingTransitionId && s.version.protocol == 0
    ensures var t := OnExecuteTransition(s, cfg, transition); t.mls.queue == s.mls.queue && t.epochs.pending.None?
  {
    hide Activate;
  }
}
