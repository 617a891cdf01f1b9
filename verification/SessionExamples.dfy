/** Where the code does not keep a tempting property: runs that break it. */
module SessionExamples {
  import opened Bytes
  import opened SessionState
  import opened SessionMedia
  import opened SessionControl
  import opened SessionQueue
  import opened SessionConvergence
  import opened SessionFrames
  import opened Nonce
  import F = Frame
  import opened SessionShape
  import SessionCounter
  import SessionSends

  const OK := Env([], true, 0, true, true)

  function Proposal(rebuildOk: bool): Batch {
    Batch(0, true, true, true, Commit(0, {1}, {}), rebuildOk, true)
  }

  /** A batch with nothing to commit. */
  const NOTHING := Batch(0, false, true, true, Commit(0, {}, {}), true, true)

  lemma RunOneMore(s: State, cfg: Config, es: seq<Event>, e: Event)
    ensures Run(s, cfg, es + [e]) == Step(Run(s, cfg, es), cfg, e)
  {
    hide Step;
    assert (es + [e])[..|es|] == es && (es + [e])[|es|] == e;
  }

  // ---- A group of one ----

  function Founding(): seq<Event> { [SetChannel(1, OK), SelectProtocolAck(1, OK), ExternalSender(true, OK)] }

  /** A sole-member group that nothing has been committed to. */
  predicate Founded(s: State, cfg: Config) {
    && s.mls.client.Some? && s.mls.groupId == Some(1) && 1 in s.mls.client.value
    && s.mls.pendingCommit.None? && s.mls.preCommit.None? && s.mls.queue == []
    && s.mls.externalSender && s.mls.keyPackage && s.channelId == 1
    && s.epochs.active.None? && s.epochs.pending.None?
    && s.log.arrived == 0 && s.log.processed == []
    && s.log.origin == Some(TheGroup(s)) && s.log.announced == []
  }

  /** The channel is known, and nothing else. */
  const NAMED: State := Init().(env := OK, channelId := 1)

  lemma FoundingSteps(cfg: Config)
    ensures Run(Init(), cfg, Founding())
            == Step(Step(NAMED, cfg, SelectProtocolAck(1, OK)), cfg, ExternalSender(true, OK))
  {
    assert Step(Init(), cfg, SetChannel(1, OK)) == NAMED;
    hide Step;
    var es := [SetChannel(1, OK)];
    RunOneMore(Init(), cfg, [], SetChannel(1, OK));
    RunOneMore(Init(), cfg, es, SelectProtocolAck(1, OK));
    RunOneMore(Init(), cfg, es + [SelectProtocolAck(1, OK)], ExternalSender(true, OK));
    assert [] + es == es && es + [SelectProtocolAck(1, OK)] + [ExternalSender(true, OK)] == Founding();
  }

  lemma FoundingFounds(cfg: Config)
    requires cfg.validUser
    ensures Founded(Run(Init(), cfg, Founding()), cfg)
  {
    hide Run;
    FoundingSteps(cfg);
    var s2 := Step(NAMED, cfg, SelectProtocolAck(1, OK));
    assert s2.mls == Mls(Some(map[]), None, None, false, true, [], None, None) && s2.channelId == 1 &&
      s2.epochs == NAMED.epochs && s2.log == NAMED.log.(attemptResets := 1);
    FoundGroup(s2, cfg);
  }

  lemma FoundGroup(s: State, cfg: Config)
    requires s.mls.client.Some? && s.mls.groupId.None? && s.mls.keyPackage && s.channelId == 1 && s.mls.queue == []
    requires s.mls.pendingCommit.None? && s.mls.preCommit.None? && s.epochs.pending.None? && s.epochs.active.None?
    requires s.log.arrived == 0 && s.log.processed == []
    ensures Founded(Step(s, cfg, ExternalSender(true, OK)), cfg)
  {
  }

  // ---- A batch that becomes a commit ----

  /** The batch has reached MLS. */
  function Taken(s: State, b: Batch): State { s.(log := s.log.(processed := s.log.processed + [b.id])) }

  lemma OwnCommitFacts(s: State, c: Commit)
    requires HasGroup(s)
    ensures var m := MakeCommit(s, c);
            && HasGroup(m) && TheGroup(m) == Apply(TheGroup(s), c) && m == s.(mls := m.mls, log := m.log)
            && m.mls == s.mls.(client := m.mls.client, pendingCommit := Some(c), preCommit := Some(TheGroup(s)))
            && m.log == s.log.(minted := s.log.minted + [Applied(TheGroup(s).term, c)], stacked := m.log.stacked)
            && (s.mls.pendingCommit.None? ==> m.log.stacked == s.log.stacked)
  {
  }

  /** What a batch comes to when nothing is pending and the library and the gateway answer. */
  lemma BatchCommits(s: State, cfg: Config, b: Batch)
    requires b.acceptedAny && b.loadOk && b.commitOk && b.rebuildOk && b.welcomeOk && s.env.replies == []
    requires cfg.hasCallbacks && HasGroup(s) && s.epochs.pending.None?
    ensures HasGroup(MakeCommit(Taken(s, b), b.commit))
    ensures ProcessAndCommit(s, cfg, b) == ArmCommitWatchdog(SetPending(MakeCommit(Taken(s, b), b.commit)), cfg)
  {
    var m := MakeCommit(Taken(s, b), b.commit);
    OwnCommitFacts(Taken(s, b), b.commit);
    hide MakeCommit, SetPending;
    SetPendingLeaves(m);
    SentCommit(SetPending(m), cfg);
    hide SendCommit, ArmCommitWatchdog;
    assert CommitProposals(Taken(s, b), cfg, b) == SendCommit(SetPending(m), cfg);
  }

  lemma SentCommit(s: State, cfg: Config)
    requires s.env.replies == []
    ensures SendCommit(s, cfg) == ArmCommitWatchdog(s, cfg)
  {
    hide ArmCommitWatchdog;
  }

  // ---- A commit on top of an unannounced one ----

  /** The first batch's epoch cannot be rebuilt, so the commit is recorded with no pending
      epoch behind it, and the second batch is committed on top. */
  function Stacking(): seq<Event> {
    Founding() + [Proposals(Proposal(false), OK)] + [Proposals(Proposal(false), OK)]
  }

  lemma CommitWithoutEpoch(s: State, cfg: Config)
    requires HasGroup(s) && s.epochs.pending.None?
    ensures var t := Step(s, cfg, Proposals(Proposal(false), OK));
            && t.epochs.pending.None? && t.mls.groupId == s.mls.groupId && HasGroup(t)
            && t.mls.pendingCommit == Some(Proposal(false).commit) && t.mls.preCommit == Some(TheGroup(s))
            && TheGroup(t) == Apply(TheGroup(s), Proposal(false).commit)
            && t.log.origin == s.log.origin && t.log.announced == s.log.announced
  {
  }

  /** A rollback would then restore a state the gateway never announced. */
  lemma StackedRun(cfg: Config)
    requires cfg.validUser
    ensures var t := Run(Init(), cfg, Stacking());
            && HasGroup(t) && t.log.origin.Some? && t.log.announced == []
            && t.mls.preCommit.Some? && t.mls.preCommit.value != t.log.origin.value && !Agrees(t)
  {
    FoundingFounds(cfg);
    var s := Run(Init(), cfg, Founding());
    var e := Proposals(Proposal(false), OK);
    CommitWithoutEpoch(s, cfg);
    RunOneMore(Init(), cfg, Founding(), e);
    var t := Run(Init(), cfg, Founding() + [e]);
    CommitWithoutEpoch(t, cfg);
    RunOneMore(Init(), cfg, Founding() + [e], e);
    hide Step, Run;
    AppliedDiffers(TheGroup(s), Proposal(false).commit);
  }

  // ---- Batches that outlive a downgrade ----

  /** A session that has had some batches, with the ids that reached MLS and those that wait. */
  predicate Had(s: State, arrived: nat, processed: seq<nat>, waiting: seq<nat>, pending: bool) {
    && s.mls.client.Some? && s.mls.externalSender && s.mls.keyPackage && s.channelId == 1 && s.epochs.active.None?
    && s.epochs.pending.Some? == pending
    && s.log.arrived == arrived && s.log.processed == processed
    && |s.mls.queue| == |waiting| && (forall i :: 0 <= i < |waiting| ==> s.mls.queue[i] == NOTHING.(id := waiting[i]))
  }

  lemma CommitStep(s: State, cfg: Config)
    requires Founded(s, cfg)
    ensures Had(Step(s, cfg, Proposals(Proposal(true), OK)), 1, [0], [], true)
  {
    hide NewRatchets;
  }

  lemma QueueStep(s: State, cfg: Config)
    requires Had(s, 1, [0], [], true)
    ensures Had(Step(s, cfg, Proposals(NOTHING, OK)), 2, [0], [1], true)
  {
  }

  lemma DowngradeSteps(s: State, cfg: Config)
    requires Had(s, 2, [0], [1], true)
    ensures var t := Step(Step(s, cfg, PrepareTransition(5, 0, OK)), cfg, ExecuteTransition(5, OK));
            Had(t, 2, [0], [1], false) && t.mls.groupId.None?
  {
  }

  lemma OvertakeStep(s: State, cfg: Config)
    requires Had(s, 2, [0], [1], false) && s.mls.groupId.None?
    ensures var t := Step(s, cfg, Proposals(NOTHING, OK));
            Had(t, 3, [0, 2], [1], false) && t.mls.groupId.None?
  {
  }

  lemma RefoundStep(s: State, cfg: Config)
    requires Had(s, 3, [0, 2], [1], false) && s.mls.groupId.None?
    ensures var t := Step(s, cfg, ExternalSender(true, OK));
            Had(t, 3, [0, 2], [1], false) && HasGroup(t)
  {
  }

  lemma DrainNothing(s: State, cfg: Config, id: nat)
    requires s.mls.queue == [NOTHING.(id := id)] && s.epochs.pending.None? && s.mls.client.Some?
    ensures Drain(s, cfg).log.processed == s.log.processed + [id]
  {
    hide CommitProposals;
    var s1 := s.(mls := s.mls.(queue := []));
    assert s.mls.queue[1..] == [];
    var t := ProcessAndCommit(s1, cfg, s.mls.queue[0]);
    assert t.mls.queue == [] && t.log.processed == s.log.processed + [id];
    assert Drain(t, cfg) == t;
  }

  lemma SoleMemberDrains(s: State, cfg: Config, id: nat)
    requires HasGroup(s) && s.epochs.pending.None? && s.env.rebuildOk && s.mls.queue == [NOTHING.(id := id)]
    ensures ActivateSoleMember(s, cfg).log.processed == s.log.processed + [id]
  {
    SetPendingFacts(s);
    SoleMemberActivates(s, cfg);
    hide SetPending, ActivateEpoch, Drain, ActivateSoleMember;
    var p := SetPending(s);
    ActivateKeepsQueue(p, cfg);
    DrainNothing(ActivateEpoch(p, cfg), cfg, id);
  }

  lemma SoleMemberStep(s: State, cfg: Config)
    requires Had(s, 3, [0, 2], [1], false) && HasGroup(s)
    ensures Step(s, cfg, PrepareTransition(0, 1, OK)).log.processed == [0, 2, 1]
  {
    hide ActivateSoleMember;
    var u := s.(env := OK, pendingTransitionId := 0, version := s.version.(protocol := 1, sending := 1));
    assert u.mls.queue == [NOTHING.(id := 1)];
    SoleMemberDrains(u, cfg, 1);
  }

  lemma SoleMemberActivates(s: State, cfg: Config)
    requires HasGroup(s) && s.epochs.pending.None? && s.env.rebuildOk
    ensures ActivateSoleMember(s, cfg) == Activate(SetPending(s), cfg)
  {
    hide Activate, SetPending;
  }

  lemma ActivateKeepsQueue(s: State, cfg: Config)
    requires s.epochs.pending.Some?
    ensures var t := ActivateEpoch(s, cfg);
            && t.mls.queue == s.mls.queue && t.mls.client == s.mls.client && t.epochs.pending.None?
            && t.log.processed == s.log.processed
  {
    ActivateFacts(s, cfg);
    hide ActivateEpoch, Unexpired, AddsSender;
  }

  function Overtaking(): seq<Event> {
    Founding() + [Proposals(Proposal(true), OK)] + [Proposals(NOTHING, OK)] + [PrepareTransition(5, 0, OK)]
    + [ExecuteTransition(5, OK)] + [Proposals(NOTHING, OK)] + [ExternalSender(true, OK)] + [PrepareTransition(0, 1, OK)]
  }

  /** With a downgrade executed while a batch waits, the batch is overtaken: it reaches MLS
      after one that arrived later. */
  lemma OvertakenRun(cfg: Config)
    requires cfg.validUser
    ensures var t := Run(Init(), cfg, Overtaking());
            t.log.processed == [0, 2, 1] && !InOrder(t.log.processed, t.log.arrived)
  {
    FoundingFounds(cfg);
    hide Step, Run, Founded, Had, Proposal;
    var e0 := Founding();
    var e1 := e0 + [Proposals(Proposal(true), OK)];
    var e2 := e1 + [Proposals(NOTHING, OK)];
    var e3 := e2 + [PrepareTransition(5, 0, OK)];
    var e4 := e3 + [ExecuteTransition(5, OK)];
    var e5 := e4 + [Proposals(NOTHING, OK)];
    var e6 := e5 + [ExternalSender(true, OK)];
    RunOneMore(Init(), cfg, e0, Proposals(Proposal(true), OK));
    CommitStep(Run(Init(), cfg, e0), cfg);
    RunOneMore(Init(), cfg, e1, Proposals(NOTHING, OK));
    QueueStep(Run(Init(), cfg, e1), cfg);
    RunOneMore(Init(), cfg, e2, PrepareTransition(5, 0, OK));
    RunOneMore(Init(), cfg, e3, ExecuteTransition(5, OK));
    DowngradeSteps(Run(Init(), cfg, e2), cfg);
    RunOneMore(Init(), cfg, e4, Proposals(NOTHING, OK));
    OvertakeStep(Run(Init(), cfg, e4), cfg);
    RunOneMore(Init(), cfg, e5, ExternalSender(true, OK));
    RefoundStep(Run(Init(), cfg, e5), cfg);
    RunOneMore(Init(), cfg, e6, PrepareTransition(0, 1, OK));
    SoleMemberStep(Run(Init(), cfg, e6), cfg);
    var t := Run(Init(), cfg, Overtaking());
    assert t.log.processed[1] > t.log.processed[2];
  }

  // ---- Leaving a ratchet ----

  /** Ready to found a group again. */
  predicate Idle(s: State, builds: nat) {
    && s.mls.client.Some? && s.mls.groupId.None? && s.mls.pendingCommit.None? && s.mls.preCommit.None? &&
       s.mls.queue == []
    && s.mls.keyPackage && s.channelId == 1 && s.epochs.active.None? && s.epochs.pending.None?
    && s.send.current.None? && s.builds == builds
  }

  /** Alone in a group that is not an epoch yet. */
  predicate Alone(s: State, cfg: Config, builds: nat) {
    && HasGroup(s) && TheGroup(s).members == {cfg.self} && s.mls.queue == []
    && s.mls.pendingCommit.None? && s.mls.keyPackage && s.mls.externalSender && s.channelId == 1
    && s.epochs.active.None? && s.epochs.pending.None? && s.send.current.None? && s.builds == builds
  }

  /** Sending alone, with the ratchet of the last epoch built. */
  predicate SendsAlone(s: State, cfg: Config, builds: nat) {
    && builds > 0 && s.builds == builds && s.channelId == 1
    && s.mls.externalSender && s.mls.queue == [] && s.epochs.pending.None? && s.version.protocol != 0
    && s.epochs.active.Some? && s.epochs.active.value.build == builds - 1
    && s.send.current == Some(Ref(builds - 1, cfg.self)) && Ref(builds - 1, cfg.self) in s.ratchets
  }

  /** The send side is as it was, up to the current ratchet. */
  predicate SameCount(s: State, t: State) {
    t.send.counter == s.send.counter && t.send.retained == s.send.retained && t.log.sends == s.log.sends &&
      t.now == s.now
  }

  lemma FoundStep(s: State, cfg: Config, n: nat)
    requires Idle(s, n)
    ensures var t := Step(s, cfg, ExternalSender(true, OK)); Alone(t, cfg, n) && SameCount(s, t)
  {
  }

  lemma SoleStep(s: State, cfg: Config, n: nat)
    requires Alone(s, cfg, n)
    ensures var t := Step(s, cfg, PrepareTransition(0, 1, OK)); SendsAlone(t, cfg, n + 1) && SameCount(s, t)
  {
    hide ActivateSoleMember;
    var u := s.(env := OK, pendingTransitionId := 0, version := s.version.(protocol := 1, sending := 1));
    SoleMemberSends(u, cfg, n);
  }

  lemma SoleMemberSends(s: State, cfg: Config, n: nat)
    requires Alone(s, cfg, n) && s.env.rebuildOk && s.version.protocol != 0
    ensures var t := ActivateSoleMember(s, cfg); SendsAlone(t, cfg, n + 1) && SameCount(s, t)
  {
    SetPendingFacts(s);
    SoleMemberActivates(s, cfg);
    hide SetPending, NewRatchets, ActivateEpoch, ActivateSoleMember;
    var p := SetPending(s);
    SetPendingLeaves(s);
    SoleActivation(p, cfg);
    assert Drain(ActivateEpoch(p, cfg), cfg) == ActivateEpoch(p, cfg);
  }

  lemma SetPendingLeaves(s: State)
    requires HasGroup(s)
    ensures var t := SetPending(s);
            t == s.(ratchets := t.ratchets, builds := t.builds, log := t.log, epochs := t.epochs, mls := t.mls)
  {
  }

  lemma SoleActivation(s: State, cfg: Config)
    requires s.epochs.pending.Some? && s.send.current.None? && cfg.self in s.epochs.pending.value.senders
    ensures var t := ActivateEpoch(s, cfg);
            && t.channelId == s.channelId && t.version.protocol == s.version.protocol
            && t.mls.externalSender == s.mls.externalSender && SameCount(s, t)
  {
    ActivateFacts(s, cfg);
    hide Unexpired, AddsSender;
  }

  const FRAME: Event := Media(EncryptCall([], 0))

  lemma FrameIsUse(s: State, cfg: Config, ref: Ref)
    requires s.send.retained.None? && s.send.current == Some(ref) && ref in s.ratchets
    ensures Step(s, cfg, FRAME) == EncryptWith(s, cfg, ref, [], 0).0
  {
    hide EncryptWith;
  }

  lemma FrameStep(s: State, cfg: Config, n: nat)
    requires SendsAlone(s, cfg, n) && s.send.retained.None?
    ensures var t := Step(s, cfg, FRAME);
            && SendsAlone(t, cfg, n) && t.send.retained.None? && t.send.counter == NextCounter(s)
            && |t.log.sends| == |s.log.sends| + 1 && t.log.sends[..|s.log.sends|] == s.log.sends
            && t.log.sends[|s.log.sends|].ref == Ref(n - 1, cfg.self) &&
               t.log.sends[|s.log.sends|].full == NextCounter(s)
  {
    var ref := Ref(n - 1, cfg.self);
    var t := EncryptWith(s, cfg, ref, [], 0).0;
    hide EncryptWith, Pruned, NextCounter, Step, PrunedBy;
    FrameIsUse(s, cfg, ref);
    SessionCounter.UseFacts(s, cfg, ref, [], 0);
    assert SendsAlone(t, cfg, n) && t.send.retained.None? by { UseKeepsSending(s, cfg, n); }
    assert t.log.sends[..|s.log.sends|] == s.log.sends;
  }

  lemma UseKeepsSending(s: State, cfg: Config, n: nat)
    requires SendsAlone(s, cfg, n) && s.send.retained.None?
    ensures var t := EncryptWith(s, cfg, Ref(n - 1, cfg.self), [], 0).0; SendsAlone(t, cfg, n) && t.send.retained.None?
  {
    EncryptWithStep(s, cfg, Ref(n - 1, cfg.self), [], 0);
    hide EncryptWith, Pruned;
    UseKeepsChannel(s, cfg, Ref(n - 1, cfg.self));
  }

  lemma UseKeepsChannel(s: State, cfg: Config, ref: Ref)
    requires ref in s.ratchets
    ensures EncryptWith(s, cfg, ref, [], 0).0.channelId == s.channelId
  {
    hide NextCounter, KeyUp, F.EncryptFrame, Generation, Truncated;
    SessionSends.KeyUpFacts(s.(send := s.send.(counter := NextCounter(s))), cfg, ref, Generation(NextCounter(s)));
  }

  lemma DropStep(s: State, cfg: Config, n: nat)
    requires SendsAlone(s, cfg, n) && s.send.retained.None?
    ensures var t := Step(Step(s, cfg, PrepareTransition(5, 0, OK)), cfg, ExecuteTransition(5, OK));
            && t.send.current.None? && SameCount(s, t) && t.channelId == 1 && t.builds == n && t.mls.externalSender
  {
  }

  lemma AckStep(s: State, cfg: Config, n: nat)
    requires cfg.validUser && s.send.current.None? && s.channelId == 1 && s.builds == n
    ensures var t := Step(s, cfg, SelectProtocolAck(1, OK)); Idle(t, n) && SameCount(s, t)
  {
  }

  function Alone1(): seq<Event> { Founding() + [PrepareTransition(0, 1, OK)] }

  lemma AloneRun(cfg: Config)
    requires cfg.validUser
    ensures var t := Run(Init(), cfg, Alone1());
            SendsAlone(t, cfg, 1) && t.send.retained.None? && t.send.counter == 0 && t.log.sends == []
  {
    hide Step, Run;
    FoundingSteps(cfg);
    AckStep(NAMED, cfg, 0);
    var s2 := Step(NAMED, cfg, SelectProtocolAck(1, OK));
    FoundStep(s2, cfg, 0);
    SoleStep(Step(s2, cfg, ExternalSender(true, OK)), cfg, 0);
    RunOneMore(Init(), cfg, Founding(), PrepareTransition(0, 1, OK));
  }

  /** A downgrade and a new connection between two frames. */
  function Carrying(): seq<Event> {
    Dropping() + [SelectProtocolAck(1, OK)] + [ExternalSender(true, OK)] + [PrepareTransition(0, 1, OK)] + [FRAME]
  }

  function Dropping(): seq<Event> {
    Alone1() + [FRAME] + [PrepareTransition(5, 0, OK)] + [ExecuteTransition(5, OK)]
  }

  lemma DroppedRun(cfg: Config)
    requires cfg.validUser
    ensures var t := Run(Init(), cfg, Dropping());
            && t.send.current.None? && t.send.retained.None? && t.send.counter == 1
            && t.channelId == 1 && t.builds == 1
            && |t.log.sends| == 1 && t.log.sends[0].ref == Ref(0, cfg.self) && t.log.sends[0].full == 1
  {
    AloneRun(cfg);
    NextIsOneMore(Run(Init(), cfg, Alone1()));
    hide Step, Run, Idle, Alone, SendsAlone, NextCounter;
    var e0 := Alone1();
    var e1 := e0 + [FRAME];
    var e2 := e1 + [PrepareTransition(5, 0, OK)];
    RunOneMore(Init(), cfg, e0, FRAME);
    FrameStep(Run(Init(), cfg, e0), cfg, 1);
    RunOneMore(Init(), cfg, e1, PrepareTransition(5, 0, OK));
    RunOneMore(Init(), cfg, e2, ExecuteTransition(5, OK));
    DropStep(Run(Init(), cfg, e1), cfg, 1);
  }

  lemma NextIsOneMore(s: State)
    ensures s.send.counter < TWO64 - 1 ==> NextCounter(s) == s.send.counter + 1
  {
  }

  /** The second frame is the first of a new ratchet, and has counter value 2. */
  lemma CarriedRun(cfg: Config)
    requires cfg.validUser
    ensures var log := Run(Init(), cfg, Carrying()).log;
            && |log.sends| == 2 && log.sends[0].ref != log.sends[1].ref
            && log.sends[0].full == 1 && log.sends[1].full == 2
  {
    DroppedRun(cfg);
    var e3 := Dropping();
    var e4 := e3 + [SelectProtocolAck(1, OK)];
    var e5 := e4 + [ExternalSender(true, OK)];
    var e6 := e5 + [PrepareTransition(0, 1, OK)];
    NextIsOneMore(Run(Init(), cfg, e6));
    hide Step, Run, Idle, Alone, SendsAlone, NextCounter;
    RunOneMore(Init(), cfg, e3, SelectProtocolAck(1, OK));
    AckStep(Run(Init(), cfg, e3), cfg, 1);
    RunOneMore(Init(), cfg, e4, ExternalSender(true, OK));
    FoundStep(Run(Init(), cfg, e4), cfg, 1);
    RunOneMore(Init(), cfg, e5, PrepareTransition(0, 1, OK));
    SoleStep(Run(Init(), cfg, e5), cfg, 1);
    RunOneMore(Init(), cfg, e6, FRAME);
    FrameStep(Run(Init(), cfg, e6), cfg, 2);
    var t := Run(Init(), cfg, Carrying());
    assert t.log.sends[..1][0] == t.log.sends[0];
  }

  lemma ResetStep(s: State, cfg: Config, n: nat)
    requires cfg.validUser && SendsAlone(s, cfg, n)
    ensures var t := Step(s, cfg, PrepareEpoch(1, 1, OK)); Idle(t, n) && t.send.retained == s.send.current
  {
  }

  /** The gateway resets the epoch, and the session comes back alone. */
  function Rejoining(): seq<Event> {
    Alone1() + [PrepareEpoch(1, 1, OK)] + [ExternalSender(true, OK)] + [PrepareTransition(0, 1, OK)]
  }

  /** After the reset the session still sends with the ratchet from before it, although the
      new epoch is active and has a ratchet of its own. */
  lemma RejoinedRun(cfg: Config)
    requires cfg.validUser
    ensures var t := Run(Init(), cfg, Rejoining());
            && t.send.current == Some(Ref(1, cfg.self)) && t.epochs.active.Some? && t.epochs.active.value.build == 1
            && LiveRatchet(t) == Some(Ref(0, cfg.self))
  {
    AloneRun(cfg);
    hide Step, Run, Idle, Alone;
    var e0 := Alone1();
    var e1 := e0 + [PrepareEpoch(1, 1, OK)];
    var e2 := e1 + [ExternalSender(true, OK)];
    RunOneMore(Init(), cfg, e0, PrepareEpoch(1, 1, OK));
    ResetStep(Run(Init(), cfg, e0), cfg, 1);
    RunOneMore(Init(), cfg, e1, ExternalSender(true, OK));
    FoundStep(Run(Init(), cfg, e1), cfg, 1);
    RunOneMore(Init(), cfg, e2, PrepareTransition(0, 1, OK));
    SoleStep(Run(Init(), cfg, e2), cfg, 1);
  }

  /** An activation that adds a sender switches to the new epoch's ratchet at once exactly
      when there was a current ratchet to switch from, or none was retained. After a reset
      the retained ratchet stays in use, and the sender who joined cannot read it. */
  lemma JoinSwitchesExactly(s: State, cfg: Config)
    requires s.epochs.pending.Some? && cfg.self in s.epochs.pending.value.senders
    requires Adds(s.epochs.active, s.epochs.pending.value)
    requires s.send.retained != Some(Ref(s.epochs.pending.value.build, cfg.self))
    ensures LiveRatchet(ActivateEpoch(s, cfg)) == Some(Ref(s.epochs.pending.value.build, cfg.self))
            <==> s.send.current.Some? || s.send.retained.None?
  {
    AddsIsAddsSender(s.epochs.active, s.epochs.pending.value);
    hide AddsSender, Adds, Unexpired;
  }

  /** Which ratchet and which counter value the next frame uses: the retained ratchet until
      it expires, then the current one from 1. */
  lemma NextUse(s: State, cfg: Config, frame: seq<byte>, room: nat)
    requires var live := LiveRatchet(SelectSendRatchet(s)); live.Some? && live.value in s.ratchets
    ensures var expired := s.send.retained.Some? && s.now >= s.send.retainedExpires;
            var t := Encrypt(s, cfg, frame, room).0;
            && |t.log.sends| == |s.log.sends| + 1
            && t.log.sends[|s.log.sends|].full == (if expired then 1 else NextCounter(s))
            && Some(t.log.sends[|s.log.sends|].ref)
               == (if s.send.retained.Some? && !expired then s.send.retained else s.send.current)
  {
    var s0 := SelectSendRatchet(s);
    var ref := LiveRatchet(s0).value;
    assert NextCounter(s0) == if s.send.retained.Some? && s.now >= s.send.retainedExpires then 1 else NextCounter(s);
    hide SelectSendRatchet, NextCounter, KeyUp, F.EncryptFrame, Generation, Truncated;
    SessionCounter.UseFacts(s0, cfg, ref, frame, room);
    hide EncryptWith;
  }
}
