/** Which elementary actions touch what. */
module SessionFrames {
  import opened Bytes
  import opened SessionState
  import opened SessionMedia
  import opened SessionControl
  import opened SessionActions

  /** Actions that touch neither epochs, nor ratchets, nor the send side, nor the group. */
  predicate Quiet(a: Action) {
    || a.AEnv? || a.AVersion? || a.ATransport? || a.ATransition? || a.AChannel? || a.AExternal? || a.AKeyPackage?
    || a.AEnqueue? || a.AArrive? || a.AProcess? || a.ATake? || a.ADropQueue? || a.AResetAttempts? || a.AResetReady?
    || a.AWatchDropped? || a.AArmRecovery? || a.AArmCommit? || a.ASucceed? || a.ARemove? || a.AFire? || a.APhase?
  }

  predicate SameGroup(a: Mls, b: Mls) {
    && a.client == b.client && a.groupId == b.groupId && a.pendingGroupId == b.pendingGroupId
    && a.pendingCommit == b.pendingCommit && a.preCommit == b.preCommit
  }

  predicate SameHistory(a: Log, b: Log) {
    && a.minted == b.minted && a.built == b.built && a.sends == b.sends && a.deliveries == b.deliveries
    && a.origin == b.origin && a.announced == b.announced && a.stacked == b.stacked && a.tainted == b.tainted
    && a.activated == b.activated && a.detached == b.detached && a.restarts == b.restarts
  }

  predicate Unmoved(s: State, t: State) {
    && t.epochs == s.epochs && t.send == s.send && t.ratchets == s.ratchets && t.builds == s.builds
    && SameGroup(s.mls, t.mls) && SameHistory(s.log, t.log)
  }

  lemma QuietLeavesUnmoved(s: State, cfg: Config, a: Action)
    requires Quiet(a) && Enabled(s, cfg, a)
    ensures Unmoved(s, Do(s, cfg, a))
  {
    hide WatchDroppedSend, WatchRecovery, ArmCommitWatchdog, StartFire, RemoveWatchdog, SetWatchdog,
         RunCall, NewGroup, SetPending, MakeCommit, PeerCommit, Join, RestorePreCommit, ConfirmCommit, ActivateEpoch,
         InvalidateMls, ResetGroup, Downgrade, DropSendKeys, StopSending, EnsureClient, ResetEpochReady,
         ResetAttempts;
    if a.AWatchDropped? || a.AArmRecovery? || a.AArmCommit? || a.ASucceed? || a.ARemove? || a.AFire? || a.APhase?
       || a.AResetReady? || a.AResetAttempts?
    {
      WatchingLeavesUnmoved(s, cfg, a);
    }
  }

  lemma WatchingLeavesUnmoved(s: State, cfg: Config, a: Action)
    requires Enabled(s, cfg, a)
    requires a.AWatchDropped? || a.AArmRecovery? || a.AArmCommit? || a.ASucceed? || a.ARemove? || a.AFire? || a.APhase?
             || a.AResetReady? || a.AResetAttempts?
    ensures Unmoved(s, Do(s, cfg, a))
  {
    hide SetTransportOnly, RunCall, NewGroup, SetPending, MakeCommit, PeerCommit, Join, RestorePreCommit,
         ConfirmCommit, ActivateEpoch,
         InvalidateMls, ResetGroup, Downgrade, DropSendKeys, StopSending, EnsureClient;
  }

  /** What SetPending adds, field by field. */
  lemma SetPendingFacts(s: State)
    requires HasGroup(s)
    ensures var t, g := SetPending(s), TheGroup(s);
            && t.builds == s.builds + 1
            && t.log == s.log.(built := s.log.built + [g.term])
            && t.epochs == s.epochs.(pending := Some(BuildEpoch(s)))
            && t.send == s.send
            && t.mls == s.mls.(pendingGroupId := s.mls.groupId)
            && t.ratchets.Keys == s.ratchets.Keys + NewRatchets(s.builds, g).Keys
            && (forall r :: r in s.ratchets && r.build < s.builds ==> t.ratchets[r] == s.ratchets[r])
            && (forall r :: r in t.ratchets && r !in s.ratchets ==>
                  r.build == s.builds && t.ratchets[r] == KeyRatchet(Root(g.term, r.user), Ratchet.START))
            && (forall u :: u in g.members ==> Ref(s.builds, u) in t.ratchets)
  {
    var g := TheGroup(s);
    forall u | u in g.members ensures Ref(s.builds, u) in NewRatchets(s.builds, g) {
    }
  }

  /** Actions that build nothing and send nothing; they can only drop epochs and send keys. */
  predicate Reducing(a: Action) {
    || a.AClient? || a.ANewGroup? || a.ARestore? || a.AConfirm? || a.AInvalidate? || a.AResetGroup? || a.ADowngrade?
    || a.ADropSend? || a.ARetainSend?
  }

  predicate SendReduced(a: Sending, b: Sending) {
    b == a ||
    (&& b.current.None? && b.counter == a.counter
     && (b.retained.None? || b.retained == a.current || (a.current.None? && b.retained == a.retained))
     && ((b.cipher == a.cipher && b.cipherKey == a.cipherKey) || (b.cipher.None? && b.cipherKey.None?)))
  }

  predicate Reduced(s: State, t: State) {
    && t.ratchets == s.ratchets && t.builds == s.builds
    && t.log.built == s.log.built && t.log.sends == s.log.sends && t.log.deliveries == s.log.deliveries
    && t.log.restarts == s.log.restarts && t.send.counter == s.send.counter
    && (t.epochs.active == s.epochs.active || t.epochs.active.None?)
    && (t.epochs.pending == s.epochs.pending || t.epochs.pending.None?)
    && (t.epochs.retained == s.epochs.retained || t.epochs.retained == [])
    && SendReduced(s.send, t.send)
  }

  lemma ReducingReduces(s: State, cfg: Config, a: Action)
    requires Reducing(a) && Enabled(s, cfg, a)
    ensures Reduced(s, Do(s, cfg, a))
  {
    hide RunCall, SetPending, MakeCommit, PeerCommit, Join, ActivateEpoch, GoWatchdog, StartFire;
  }
}
