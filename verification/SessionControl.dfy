/** The session's transition system: gateway handlers, recovery and watchdog steps
    (session/session.go, session/mls.go, session/retry.go).

    A step is one section under sendMu and mu. Where the source releases mu around a
    send, the calls that may interleave are taken from the step's environment. */
module SessionControl {
  import opened Bytes
  import opened SessionState
  import opened SessionMedia
  import Ratchet

  // ---- Channels, watchdogs, sends ----

  /** resetEpochReadyLocked: close the current channel and make a new one. */
  function ResetEpochReady(s: State): State {
    var r := s.recovery;
    s.(recovery := r.(closed := r.closed + {r.epochReady}, epochReady := r.epochReady + 1))
  }

  function SignalEpochReady(s: State): State {
    s.(recovery := s.recovery.(closed := s.recovery.closed + {s.recovery.epochReady}))
  }

  /** goWatchdog: nothing once the session is shut down. */
  function GoWatchdog(s: State, w: Watchdog): State {
    if s.shutdown then s
    else
      var r := s.recovery;
      s.(recovery := r.(watchdogs := r.watchdogs[r.nextWatchdog := w], nextWatchdog := r.nextWatchdog + 1))
  }

  function WatchRecovery(s: State, cfg: Config): State {
    if s.recovery.attempts >= MAX_RECOVERY_ATTEMPTS then s
    else GoWatchdog(s, Waiting(s.recovery.epochReady, false, s.pendingTransitionId, s.now + cfg.recoveryTimeout))
  }

  /** watchDroppedSendLocked for a send that failed. */
  function WatchDroppedSend(s: State, cfg: Config): State {
    WatchRecovery(ResetEpochReady(s), cfg)
  }

  datatype SendResult = Sent | Dropped(shardNotReady: bool)

  /** sendLocked: mu is released, so other calls run first; sendMu keeps handlers out. */
  ghost function SendLocked(s: State, cfg: Config): (State, SendResult) {
    if s.env.replies == [] then (s, Sent)
    else
      var reply := s.env.replies[0];
      (RunCalls(s.(env := s.env.(replies := s.env.replies[1..])), cfg, reply.calls),
       if reply.delivered then Sent else Dropped(reply.shardNotReady))
  }

  datatype Outcome = Done | Failed(bySend: bool)

  /** A failed step arms the recovery watchdog only if it was a send that failed. */
  function WatchIfDropped(s: State, cfg: Config, o: Outcome): State {
    if o.Failed? && o.bySend then WatchDroppedSend(s, cfg) else s
  }

  // ---- The MLS client ----

  function EnsureClient(s: State, cfg: Config): (State, bool) {
    if s.mls.client.Some? then (s, true)
    else if !cfg.validUser then (s, false)
    else (s.(mls := s.mls.(client := Some(map[]))), true)
  }

  ghost function SendKeyPackage(s: State, cfg: Config): (State, Outcome) {
    if s.mls.keyPackage then (s, Done)
    else
      var (s1, r) := if cfg.hasCallbacks then SendLocked(s, cfg) else (s, Sent);
      if r.Dropped? then (s1, Failed(true)) else (s1.(mls := s1.mls.(keyPackage := true)), Done)
  }

  ghost function EnsureKeyPackage(s: State, cfg: Config): (State, Outcome) {
    var (s1, ok) := EnsureClient(s, cfg);
    if !ok then (s1, Failed(false)) else SendKeyPackage(s1, cfg)
  }

  function Mint(s: State, t: Term): State {
    s.(log := s.log.(minted := s.log.minted + [t]))
  }

  /** Stores a group state the MLS library produced. */
  function SaveGroup(s: State, id: GroupId, g: Group): State
    requires s.mls.client.Some?
  {
    s.(mls := s.mls.(client := Some(s.mls.client.value[id := g])))
  }

  predicate HasGroup(s: State) {
    s.mls.groupId.Some? && s.mls.client.Some? && s.mls.groupId.value in s.mls.client.value
  }

  function TheGroup(s: State): Group
    requires HasGroup(s)
  {
    s.mls.client.value[s.mls.groupId.value]
  }

  /** createGroupWithExternalSenderLocked. */
  ghost function CreateGroup(s: State, cfg: Config): (State, Outcome) {
    if s.mls.groupId.Some? then (s, Done)
    else if !s.mls.externalSender || s.channelId == 0 then (s, Failed(false))
    else
      var (s1, o) := EnsureKeyPackage(s, cfg);
      if o.Failed? then (s1, o)
      else if !s1.env.createOk || s1.mls.client.None? then (s1, Failed(false))
      else (NewGroup(s1, cfg), Done)
  }

  function NewGroup(s: State, cfg: Config): State
    requires s.mls.client.Some?
  {
    var g := Group(Created(cfg.self, s.env.seed), {cfg.self});
    var s1 := Adopt(SaveGroup(Mint(s, g.term), s.channelId, g), g);
    s1.(mls := s1.mls.(groupId := Some(s.channelId)))
  }

  /** History: the session starts from a group state it did not have before. */
  function Adopt(s: State, g: Group): State {
    s.(log := s.log.(origin := Some(g), announced := [], stacked := false, activated := false, detached := false))
  }

  /** History: the group and everything agreed about it are gone. */
  function Abandon(s: State): State {
    s.(log := s.log.(origin := None, announced := [], stacked := false, tainted := false, activated := false,
      detached := false))
  }

  /** History: the gateway announced a commit. */
  function Announce(s: State, c: Commit): State {
    s.(log := s.log.(announced := s.log.announced + [c], detached := false))
  }

  function Taint(s: State): State {
    s.(log := s.log.(tainted := true))
  }

  /** rebuildEpochStateLocked: new sender states and new ratchet objects for every member. */
  function BuildEpoch(s: State): Epoch
    requires HasGroup(s)
  {
    Epoch(s.builds, s.mls.groupId.value, TheGroup(s).term, map u | u in TheGroup(s).members :: NEW_SENDER, 0)
  }

  function NewRatchets(build: nat, g: Group): map<Ref, KeyRatchet> {
    map u | u in g.members :: Ref(build, u) := KeyRatchet(Root(g.term, u), Ratchet.START)
  }

  /** Makes the rebuilt epoch the pending one. */
  function SetPending(s: State): State
    requires HasGroup(s)
  {
    s.(ratchets := s.ratchets + NewRatchets(s.builds, TheGroup(s)), builds := s.builds + 1,
       log := s.log.(built := s.log.built + [TheGroup(s).term]),
       epochs := s.epochs.(pending := Some(BuildEpoch(s))),
       mls := s.mls.(pendingGroupId := s.mls.groupId))
  }

  // ---- Activation ----

  /** newEpochAddsSender. */
  predicate AddsSender(before: Option<Epoch>, after: Epoch) {
    before.None? || exists u :: u in after.senders && u !in before.value.senders
  }

  function RetainCurrentSend(s: State, cfg: Config): State {
    if s.send.current.None? then s
    else s.(send := s.send.(retained := s.send.current, retainedExpires := s.now + cfg.sendRetention))
  }

  /** The send side of an activation: switch at once when someone joined, otherwise keep
      sending on the previous ratchet for a while. */
  function SwitchSend(s: State, cfg: Config, before: Option<Epoch>, after: Epoch): State {
    if s.send.current.None? then s
    else if AddsSender(before, after) then Restart(s.(send := s.send.(retained := None, retainedExpires := 0)))
    else RetainCurrentSend(s, cfg)
  }

  function MoveEpochs(s: State, cfg: Config): State
    requires s.epochs.pending.Some?
  {
    var e := s.epochs;
    s.(epochs := Epochs(e.pending, None,
                        if e.active.None? then e.retained
                        else e.retained + [e.active.value.(expiresAt := s.now + EPOCH_RETENTION)]),
       version := s.version.(
         sending := s.version.protocol,
         plaintextRejectedFrom :=
           if s.version.protocol != 0 && s.version.plaintextRejectedFrom.None?
           then Some(s.now + cfg.plaintextGrace) else s.version.plaintextRejectedFrom),
       mls := s.mls.(groupId := s.mls.pendingGroupId, pendingGroupId := None),
       log := s.log.(activated := true))
  }

  /** Takes the new epoch's own ratchet, and reports readiness if there is one. */
  function TakeOwnRatchet(s: State, cfg: Config, e: Epoch): State {
    if cfg.self in e.senders then
      SignalEpochReady(s.(send := s.send.(current := Some(Ref(e.build, cfg.self))),
                          recovery := s.recovery.(attempts := 0),
                          log := s.log.(attemptResets := s.log.attemptResets + 1)))
    else s.(send := s.send.(current := None))
  }

  /** activatePendingEpochLocked up to the queue. */
  function ActivateEpoch(s: State, cfg: Config): State {
    if s.epochs.pending.None? then s
    else
      var s1 := MoveEpochs(s, cfg);
      var s2 := SwitchSend(s1, cfg, s.epochs.active, s.epochs.pending.value);
      PruneRetained(TakeOwnRatchet(s2, cfg, s.epochs.pending.value))
  }

  // ---- Local commits and their rollback ----

  function ForgetCommit(s: State): State {
    s.(mls := s.mls.(pendingCommit := None, preCommit := None))
  }

  /** The gateway announced the commit this session made: keep its state. */
  function ConfirmCommit(s: State): State {
    ForgetCommit(if s.mls.pendingCommit.None? then s else Announce(s, s.mls.pendingCommit.value))
  }

  /** restorePreCommitStateLocked. */
  function RestorePreCommit(s: State): (State, bool) {
    if s.mls.preCommit.None? then (s, false)
    else
      var s1 := if s.mls.client.Some? && s.mls.groupId.Some?
                then SaveGroup(s, s.mls.groupId.value, s.mls.preCommit.value) else s;
      (ForgetCommit(s1.(epochs := s1.epochs.(pending := None), mls := s1.mls.(pendingGroupId := None),
                        log := s1.log.(detached := s.log.detached ||
                          (s.epochs.pending.None? && s.mls.client.Some?)))), true)
  }

  /** The library's half of commitProposalsLocked: snapshot, commit, record both. */
  function MakeCommit(s: State, c: Commit): State
    requires HasGroup(s)
  {
    var g := TheGroup(s);
    var s1 := SaveGroup(Mint(s, Apply(g, c).term), s.mls.groupId.value, Apply(g, c));
    s1.(mls := s1.mls.(pendingCommit := Some(c), preCommit := Some(g)),
        log := s1.log.(stacked := s1.log.stacked || s.mls.pendingCommit.Some?))
  }

  /** commitProposalsLocked. It is only ever called with no pending epoch. */
  ghost function CommitProposals(s: State, cfg: Config, b: Batch): State
    requires s.epochs.pending.None?
  {
    if !HasGroup(s) || !b.loadOk || !b.commitOk then s
    else
      var s1 := MakeCommit(s, b.commit);
      if !b.rebuildOk then s1
      else
        var s2 := SetPending(s1);
        if !b.welcomeOk || !cfg.hasCallbacks then s2 else SendCommit(s2, cfg)
  }

  ghost function SendCommit(s: State, cfg: Config): State {
    var (s1, r) := SendLocked(s, cfg);
    if r.Dropped? then WatchDroppedSend(RestorePreCommit(s1).0, cfg)
    else ArmCommitWatchdog(s1, cfg)
  }

  function ArmCommitWatchdog(s: State, cfg: Config): State {
    var s1 := ResetEpochReady(s.(log := s.log.(ownCommits := s.log.ownCommits + 1)));
    GoWatchdog(s1, Waiting(s1.recovery.epochReady, true, s1.pendingTransitionId, s1.now + cfg.recoveryTimeout))
  }

  /** processAndCommitProposalBatchLocked. */
  ghost function ProcessAndCommit(s: State, cfg: Config, b: Batch): State
    requires s.epochs.pending.None?
  {
    var (s1, ok) := EnsureClient(s, cfg);
    if !ok then s1
    else
      var s2 := s1.(log := s1.log.(processed := s1.log.processed + [b.id]));
      if s2.mls.groupId.None? || !b.acceptedAny then s2 else CommitProposals(s2, cfg, b)
  }

  lemma SendLockedStep(s: State, cfg: Config)
    ensures var t := SendLocked(s, cfg).0;
            t.env == s.env.(replies := t.env.replies) && MediaStep(s.(env := t.env), t)
  {
    hide RunCalls;
    MediaStepReflexive(s);
    if s.env.replies != [] {
      CallsStep(s.(env := s.env.(replies := s.env.replies[1..])), cfg, s.env.replies[0].calls);
    }
  }

  lemma SendCommitKeepsQueue(s: State, cfg: Config)
    ensures SendCommit(s, cfg).mls.queue == s.mls.queue
  {
    hide SendLocked;
    SendKeepsMls(s, cfg);
  }

  lemma SendKeepsMls(s: State, cfg: Config)
    ensures SendLocked(s, cfg).0.mls == s.mls
  {
    hide SendLocked;
    SendLockedStep(s, cfg);
  }

  lemma ProcessKeepsQueue(s: State, cfg: Config, b: Batch)
    requires s.epochs.pending.None?
    ensures ProcessAndCommit(s, cfg, b).mls.queue == s.mls.queue
  {
    hide SendCommit, NewRatchets, BuildEpoch;
    var s1 := EnsureClient(s, cfg).0;
    var s2 := s1.(log := s1.log.(processed := s1.log.processed + [b.id]));
    if HasGroup(s2) {
      SendCommitKeepsQueue(SetPending(MakeCommit(s2, b.commit)), cfg);
    }
  }

  /** drainProposalQueueLocked: one batch at a time, until a commit is pending again. */
  ghost function Drain(s: State, cfg: Config): State
    decreases |s.mls.queue|
  {
    if s.mls.queue == [] || s.epochs.pending.Some? then s
    else
      var s1 := s.(mls := s.mls.(queue := s.mls.queue[1..]));
      ProcessKeepsQueue(s1, cfg, s.mls.queue[0]);
      Drain(ProcessAndCommit(s1, cfg, s.mls.queue[0]), cfg)
  }

  /** activatePendingEpochLocked. */
  ghost function Activate(s: State, cfg: Config): State {
    if s.epochs.pending.None? then s else Drain(ActivateEpoch(s, cfg), cfg)
  }

  /** activateSoleMemberEpochLocked. */
  ghost function ActivateSoleMember(s: State, cfg: Config): State {
    if s.mls.groupId.None? && !s.mls.externalSender then s
    else
      var (s1, o) := CreateGroup(s, cfg);
      if o.Failed? then WatchIfDropped(s1, cfg, o)
      else if s1.epochs.pending.Some? then Activate(s1, cfg)
      else if !HasGroup(s1) || !s1.env.rebuildOk then s1
      else Activate(SetPending(s1), cfg)
  }

  // ---- Invalidation ----

  /** invalidateMLSStateLocked. */
  function InvalidateMls(s: State): State {
    ResetEpochReady(
      Abandon(s).(mls := Mls(None, None, None, s.mls.externalSender, false, [], None, None),
         epochs := s.epochs.(pending := None)))
  }

  /** invalidateAndResendKeyPackageLocked. */
  ghost function InvalidateAndResend(s: State, cfg: Config): State {
    WatchRecovery(EnsureKeyPackage(InvalidateMls(s), cfg).0, cfg)
  }

  ghost function SendInvalid(s: State, cfg: Config): State {
    if !cfg.hasCallbacks then s else SendLocked(s, cfg).0
  }

  /** sendReadyForTransitionLocked: a dropped send only matters without an active epoch. */
  ghost function SendReady(s: State, cfg: Config): State {
    if !cfg.hasCallbacks then s
    else
      var (s1, r) := SendLocked(s, cfg);
      if r.Dropped? && s1.epochs.active.None? then WatchDroppedSend(s1, cfg) else s1
  }

  // ---- Peers' commits and welcomes ----

  /** processCommitLocked; an empty message is None. */
  function ProcessCommit(s: State, cfg: Config, msg: Option<Commit>): (State, bool) {
    if !HasGroup(s) || msg.None? || !s.env.processOk then (s, false)
    else (PeerCommit(s, msg.value, s.env.rebuildOk), s.env.rebuildOk)
  }

  /** The library applied an announced commit; the epoch may or may not rebuild. */
  function PeerCommit(s: State, c: Commit, rebuilt: bool): State
    requires HasGroup(s)
  {
    var g := Apply(TheGroup(s), c);
    var s1 := Announce(SaveGroup(Mint(s, g.term), s.mls.groupId.value, g), c);
    if rebuilt then SetPending(s1) else Taint(s1)
  }

  /** reconcileCompetingCommitLocked. */
  ghost function Reconcile(s: State, cfg: Config, msg: Option<Commit>): (State, bool) {
    var (s1, restored) := if s.mls.pendingCommit.Some? then RestorePreCommit(s) else (s, true);
    if !restored then (SendInvalid(s1, cfg), false)
    else
      var (s2, ok) := ProcessCommit(s1, cfg, msg);
      if !ok then (InvalidateAndResend(SendInvalid(s2, cfg), cfg), false) else (s2, true)
  }

  /** joinPendingWelcomeLocked. */
  function Join(s: State, w: Welcome): (State, bool) {
    if !w.joinOk || s.mls.client.None? then (s, false)
    else
      var s1 := SaveGroup(Mint(s, w.group.term), w.groupId, w.group);
      if !w.externalSenderOk || !s.mls.externalSender then (Taint(s1), false)
      else
        var s2 := Adopt(s1, w.group).(mls := s1.mls.(groupId := Some(w.groupId), pendingGroupId := Some(w.groupId)));
        if !s2.env.rebuildOk then (Taint(s2), false) else (SetPending(s2), true)
  }

  /** What follows a processed commit or a joined welcome. */
  ghost function FinishTransition(s: State, cfg: Config, transition: nat): State {
    if transition != 0 then SendReady(s, cfg)
    else Activate(s, cfg).(pendingTransitionId := 0)
  }

  // ---- Handlers ----

  function SetTransportOnly(s: State, on: bool): State {
    s.(version := s.version.(transportOnly := on,
         plaintextRejectedFrom := if on then None else s.version.plaintextRejectedFrom))
  }

  function DropSendKeys(s: State): State {
    s.(send := s.send.(current := None, retained := None, retainedExpires := 0, cipher := None, cipherKey := None))
  }

  /** What select_protocol_ack and prepare_epoch(1) clear. */
  function ResetGroup(s: State): State {
    ResetEpochReady(
      Abandon(s).(epochs := Epochs(None, None, []),
         mls := Mls(None, None, None, s.mls.externalSender, false, [], None, None)))
  }

  /** Keeps the current ratchet for the retention window only. */
  function StopSending(s: State, cfg: Config): State {
    var s1 := RetainCurrentSend(s, cfg);
    s1.(send := s1.send.(current := None))
  }

  function ResetAttempts(s: State): State {
    s.(recovery := s.recovery.(attempts := 0), log := s.log.(attemptResets := s.log.attemptResets + 1))
  }

  ghost function RequestRejoin(s: State, cfg: Config): State {
    var (s1, o) := EnsureKeyPackage(StopSending(s, cfg), cfg);
    WatchIfDropped(s1, cfg, o)
  }

  ghost function OnSelectProtocolAck(s: State, cfg: Config, v: nat): State {
    var s1 := SetTransportOnly(s.(version := s.version.(protocol := v, sending := v)), v == 0);
    var s2 := ResetGroup(s1);
    var s3 := ResetAttempts(s2);
    if v == 0 then DropSendKeys(s3) else RequestRejoin(s3, cfg)
  }

  ghost function OnPrepareTransition(s: State, cfg: Config, transition: nat, v: nat): State {
    if transition == 0 && s.epochs.active.Some? then s
    else
      var s1 := s.(pendingTransitionId := transition, version := s.version.(protocol := v));
      if transition == 0 then
        ActivateSoleMember(s1.(version := s1.version.(sending := v)), cfg).(pendingTransitionId := 0)
      else if v == 0 && cfg.hasCallbacks then SendLocked(s1, cfg).0
      else s1
  }

  /** Executing a downgrade to version 0. It leaves the proposal queue alone. */
  function Downgrade(s: State): State {
    var s1 := Abandon(DropSendKeys(s));
    ResetEpochReady(ForgetCommit(
      s1.(epochs := s1.epochs.(pending := None), mls := s1.mls.(groupId := None, pendingGroupId := None))))
  }

  ghost function OnExecuteTransition(s: State, cfg: Config, transition: nat): State {
    if transition != s.pendingTransitionId then s
    else
      var s1 := SetTransportOnly(s.(version := s.version.(sending := s.version.protocol)), s.version.protocol == 0);
      if s.version.protocol == 0 then Downgrade(s1)
      else Activate(s1, cfg).(pendingTransitionId := 0)
  }

  ghost function OnPrepareEpoch(s: State, cfg: Config, epoch: int, v: nat): State {
    var s1 := s.(version := s.version.(protocol := v));
    if epoch != 1 then s1 else RequestRejoin(ResetGroup(SetTransportOnly(s1, v == 0)), cfg)
  }

  ghost function OnExternalSender(s: State, cfg: Config, nonEmpty: bool): State {
    var (s1, o) := CreateGroup(s.(mls := s.mls.(externalSender := nonEmpty)), cfg);
    WatchIfDropped(s1, cfg, o)
  }

  ghost function OnProposals(s: State, cfg: Config, b: Batch): State {
    var batch := b.(id := s.log.arrived);
    var s1 := s.(log := s.log.(arrived := s.log.arrived + 1));
    if s.epochs.pending.Some? then s1.(mls := s1.mls.(queue := s1.mls.queue + [batch]))
    else ProcessAndCommit(s1, cfg, batch)
  }

  ghost function OnPrepareCommit(s: State, cfg: Config, transition: nat, msg: Option<Commit>): State {
    var (s1, ok) := EnsureClient(s.(pendingTransitionId := transition), cfg);
    if !ok then s1
    else if s1.epochs.pending.Some? && s1.mls.pendingCommit == msg then
      FinishTransition(ConfirmCommit(s1), cfg, transition)
    else
      var (s2, done) := Reconcile(s1, cfg, msg);
      if !done then s2 else FinishTransition(s2, cfg, transition)
  }

  ghost function OnWelcome(s: State, cfg: Config, transition: nat, w: Welcome): State {
    var s1 := s.(pendingTransitionId := transition);
    var (s2, restored) := if s1.mls.pendingCommit.Some? then RestorePreCommit(s1) else (s1, true);
    if !restored then SendInvalid(s2, cfg)
    else
      var s3 := if s1.mls.pendingCommit.Some? then s2.(mls := s2.mls.(queue := [])) else s2;
      var (s4, ok) := EnsureClient(s3, cfg);
      if !ok then s4
      else
        var (s5, joined) := Join(s4, w);
        if !joined then InvalidateAndResend(SendInvalid(s5, cfg), cfg)
        else FinishTransition(s5, cfg, transition)
  }

  /** SetChannelID when no send is in progress. */
  ghost function OnSetChannel(s: State, cfg: Config, channel: nat): State {
    var s1 := s.(channelId := channel);
    if s.channelId != 0 || !s.mls.externalSender || !s.mls.keyPackage then s1
    else CreateGroup(s1, cfg).0
  }

  // ---- Watchdog steps ----

  function RemoveWatchdog(s: State, id: nat): State {
    s.(recovery := s.recovery.(watchdogs := s.recovery.watchdogs - {id}))
  }

  function SetWatchdog(s: State, id: nat, w: Watchdog): State {
    s.(recovery := s.recovery.(watchdogs := s.recovery.watchdogs[id := w]))
  }

  /** The watchdog's channel was closed or the session shut down. */
  predicate Released(s: State, chan: nat) {
    s.shutdown || chan in s.recovery.closed
  }

  /** The attempt is counted when the watchdog fires, not when it is armed. */
  function StartFire(s: State, id: nat, w: Watchdog): State
    requires w.Waiting?
  {
    SetWatchdog(
      s.(recovery := s.recovery.(attempts := s.recovery.attempts + 1),
         log := if w.forCommit then s.log.(commitFires := s.log.commitFires + 1)
                else s.log.(recoveryFires := s.log.recoveryFires + 1)),
      id, Firing(w.chan))
  }

  /** The part of recoverAfterTimeout that fires. */
  ghost function Fire(s: State, cfg: Config, id: nat, w: Watchdog): State
    requires w.Waiting?
  {
    var s1 := InvalidateMls(SendInvalid(StartFire(s, id, w), cfg));
    var (s2, ok) := EnsureClient(s1, cfg);
    var next := s1.recovery.epochReady;
    SetWatchdog(s2, id, if ok then Retrying(next, RETRY_MAX_ATTEMPTS) else Finishing(next))
  }

  /** recoverAfterTimeout's first section, once the wait has timed out. */
  ghost function Timeout(s: State, cfg: Config, id: nat, w: Watchdog): State
    requires w.Waiting?
  {
    if Released(s, w.chan) || (w.forCommit && s.epochs.pending.None?) then RemoveWatchdog(s, id)
    else Fire(s, cfg, id, w)
  }

  /** One attempt of retrySend at the key package. */
  ghost function RetryAttempt(s: State, cfg: Config, id: nat, w: Watchdog): State
    requires w.Retrying?
  {
    if Released(s, w.chan) || w.attemptsLeft == 0 then SetWatchdog(s, id, Finishing(w.chan))
    else if s.mls.keyPackage then SetWatchdog(s, id, Finishing(w.chan))
    else
      var (s1, r) := if cfg.hasCallbacks then SendLocked(s, cfg) else (s, Sent);
      if r.Dropped? && r.shardNotReady && w.attemptsLeft > 1
      then SetWatchdog(s1, id, Retrying(w.chan, w.attemptsLeft - 1))
      else
        var s2 := if r.Sent? then s1.(mls := s1.mls.(keyPackage := true)) else s1;
        SetWatchdog(s2, id, Finishing(w.chan))
  }

  /** recoverAfterTimeout's last section: arm a successor unless superseded. */
  ghost function Finish(s: State, cfg: Config, id: nat, w: Watchdog): State {
    var s1 := RemoveWatchdog(s, id);
    if Released(s, w.chan) then s1 else WatchRecovery(s1, cfg)
  }

  /** Whatever the watchdog can do next. */
  ghost function WatchdogStep(s: State, cfg: Config, id: nat): State {
    if id !in s.recovery.watchdogs then s
    else
      var w := s.recovery.watchdogs[id];
      match w
      case Waiting(_, _, _, _) =>
        if s.now >= w.deadline then Timeout(s, cfg, id, w)
        else if Released(s, w.chan) then RemoveWatchdog(s, id)
        else s
      case Firing(_) => s
      case Retrying(_, _) => RetryAttempt(s, cfg, id, w)
      case Finishing(_) => Finish(s, cfg, id, w)
  }

  // ---- Runs ----

  datatype Event =
    | Media(call: MediaCall)
    | SetChannel(channel: nat, env: Env)
    | SelectProtocolAck(version: nat, env: Env)
    | PrepareTransition(transition: nat, version: nat, env: Env)
    | ExecuteTransition(transition: nat, env: Env)
    | PrepareEpoch(epoch: int, version: nat, env: Env)
    | ExternalSender(nonEmpty: bool, env: Env)
    | Proposals(batch: Batch, env: Env)
    | PrepareCommit(transition: nat, message: Option<Commit>, env: Env)
    | GetWelcome(transition: nat, welcome: Welcome, env: Env)
    | WatchdogRuns(id: nat, env: Env)

  ghost function Step(s: State, cfg: Config, e: Event): State {
    match e
    case Media(call) => RunCall(s, cfg, call)
    case SetChannel(c, env) => OnSetChannel(s.(env := env), cfg, c)
    case SelectProtocolAck(v, env) => OnSelectProtocolAck(s.(env := env), cfg, v)
    case PrepareTransition(t, v, env) => OnPrepareTransition(s.(env := env), cfg, t, v)
    case ExecuteTransition(t, env) => OnExecuteTransition(s.(env := env), cfg, t)
    case PrepareEpoch(epoch, v, env) => OnPrepareEpoch(s.(env := env), cfg, epoch, v)
    case ExternalSender(nonEmpty, env) => OnExternalSender(s.(env := env), cfg, nonEmpty)
    case Proposals(b, env) => OnProposals(s.(env := env), cfg, b)
    case PrepareCommit(t, m, env) => OnPrepareCommit(s.(env := env), cfg, t, m)
    case GetWelcome(t, w, env) => OnWelcome(s.(env := env), cfg, t, w)
    case WatchdogRuns(id, env) => WatchdogStep(s.(env := env), cfg, id)
  }

  ghost function Run(s: State, cfg: Config, es: seq<Event>): State {
    if es == [] then s else Step(Run(s, cfg, es[..|es| - 1]), cfg, es[|es| - 1])
  }
}
