/** Which of a session's epochs was built from its group, and which from the group that the
    gateway has confirmed. */
module SessionAgreement {
  import opened Bytes
  import opened SessionState
  import opened SessionMedia
  import opened SessionControl
  import opened SessionActions
  import opened SessionFrames
  import opened SessionShape
  import opened SessionGroups
  import opened SessionPaths
  import opened SessionQueue
  import opened SessionConvergence

  /** The epoch was built from this group. */
  predicate Matches(e: Epoch, g: Group) { e.term == g.term && e.senders.Keys == g.members }

  /** The active epoch is the group's when nothing is pending, and the confirmed group's
      while an own commit waits. */
  predicate ActiveMatches(s: State)
    requires HasGroup(s)
  {
    && s.epochs.active.Some?
    && (s.mls.pendingCommit.None? && s.epochs.pending.None? ==> Matches(s.epochs.active.value, TheGroup(s)))
    && (s.mls.pendingCommit.Some? && s.mls.preCommit.Some? && s.epochs.pending.Some? ==>
          Matches(s.epochs.active.value, s.mls.preCommit.value))
  }

  /** The send ratchet is the active epoch's own. */
  predicate Owns(s: State, cfg: Config) {
    s.send.current.Some? && s.epochs.active.Some? ==>
      s.send.current == Some(Ref(s.epochs.active.value.build, cfg.self)) && cfg.self in s.epochs.active.value.senders
  }

  predicate InForce(s: State) { !s.log.tainted && !s.log.stacked && !s.log.detached && s.log.activated }

  ghost predicate Current(s: State, cfg: Config) {
    && (s.log.activated ==> s.epochs.active.Some?)
    && (!s.log.tainted && s.mls.groupId.None? ==> s.log.announced == [])
    && (InForce(s) && HasGroup(s) ==> ActiveMatches(s))
    && Owns(s, cfg)
  }

  lemma CurrentUnmoved(s: State, t: State, cfg: Config)
    requires Current(s, cfg) && Unmoved(s, t)
    ensures Current(t, cfg)
  {
  }

  lemma CurrentAfterCall(s: State, cfg: Config, call: MediaCall)
    requires Current(s, cfg)
    ensures Current(RunCall(s, cfg, call), cfg)
  {
    hide RunCall, Pruned;
    CallStep(s, cfg, call);
  }

  lemma CurrentAfterActivate(s: State, cfg: Config)
    requires GroupIds(s) && Agreed(s) && s.epochs.pending.Some?
    ensures Current(ActivateEpoch(s, cfg), cfg)
  {
    ActivateFacts(s, cfg);
    hide ActivateEpoch, ApplyAll, AddsSender, Unexpired, Height;
  }

  lemma CurrentAfterLocalCommit(s: State, cfg: Config, c: Commit, rebuilt: bool)
    requires Current(s, cfg) && HasGroup(s) && s.epochs.pending.None?
    ensures Current(if rebuilt then SetPending(MakeCommit(s, c)) else MakeCommit(s, c), cfg)
  {
    SetPendingFacts(MakeCommit(s, c));
    hide SetPending, NewRatchets;
  }

  lemma CurrentAfterPeerCommit(s: State, cfg: Config, c: Commit, rebuilt: bool)
    requires Current(s, cfg) && HasGroup(s) && s.mls.pendingCommit.None?
    ensures Current(PeerCommit(s, c, rebuilt), cfg)
  {
    var g := Apply(TheGroup(s), c);
    var s1 := Announce(SaveGroup(Mint(s, g.term), s.mls.groupId.value, g), c);
    SetPendingFacts(s1);
    hide SetPending, NewRatchets;
  }

  lemma CurrentAfterJoin(s: State, cfg: Config, w: Welcome)
    requires Current(s, cfg) && s.mls.client.Some? && w.joinOk
    ensures Current(Join(s, w).0, cfg)
  {
    var s1 := SaveGroup(Mint(s, w.group.term), w.groupId, w.group);
    var s2 := Adopt(s1, w.group).(mls := s1.mls.(groupId := Some(w.groupId), pendingGroupId := Some(w.groupId)));
    SetPendingFacts(s2);
    hide SetPending, NewRatchets;
  }

  lemma CurrentAfterSoleMember(s: State, cfg: Config)
    requires Current(s, cfg) && s.epochs.active.None? && s.epochs.pending.None? && HasGroup(s)
    ensures Current(SetPending(s), cfg)
  {
    SetPendingFacts(s);
    hide SetPending, NewRatchets;
  }

  lemma CurrentAfterOther(s: State, cfg: Config, a: Action)
    requires GroupIds(s) && Current(s, cfg) && Enabled(s, cfg, a)
    requires a.AClient? || a.ANewGroup? || a.ARestore? || a.AConfirm? || a.AInvalidate? || a.AResetGroup? ||
             a.ADowngrade?
             || a.ADropSend? || a.ARetainSend?
    ensures Current(Do(s, cfg, a), cfg)
  {
    hide RunCall, ActivateEpoch, SetPending, MakeCommit, PeerCommit, Join, WatchDroppedSend, WatchRecovery,
         ArmCommitWatchdog, StartFire;
  }

  lemma ActionKeepsCurrent(s: State, cfg: Config, a: Action)
    requires GroupIds(s) && Agreed(s) && Current(s, cfg) && Enabled(s, cfg, a)
    ensures Current(Do(s, cfg, a), cfg)
  {
    hide GroupIds, Agreed, Current, RunCall, ActivateEpoch, SetPending, MakeCommit, PeerCommit, Join, NewGroup,
         ConfirmCommit,
         WatchDroppedSend, WatchRecovery, ArmCommitWatchdog, StartFire, Downgrade, InvalidateMls, ResetGroup,
           RestorePreCommit;
    if Quiet(a) {
      QuietLeavesUnmoved(s, cfg, a);
      CurrentUnmoved(s, Do(s, cfg, a), cfg);
    } else if a.ACall? {
      CurrentAfterCall(s, cfg, a.call);
    } else if a.ASoleMember? {
      CurrentAfterSoleMember(s, cfg);
    } else if a.ALocalCommit? {
      CurrentAfterLocalCommit(s, cfg, a.commit, a.rebuilt);
    } else if a.APeerCommit? {
      CurrentAfterPeerCommit(s, cfg, a.commit, a.rebuilt);
    } else if a.AJoin? {
      CurrentAfterJoin(s, cfg, a.welcome);
    } else if a.AActivate? {
      CurrentAfterActivate(s, cfg);
    } else {
      CurrentAfterOther(s, cfg, a);
    }
  }

  lemma {:induction false} PathKeepsCurrent(s: State, cfg: Config, xs: seq<Action>, t: State)
    requires Sound(s, cfg) && Agreed(s) && Current(s, cfg) && Path(s, cfg, xs, t)
    ensures Current(t, cfg)
    decreases |xs|
  {
    hide Enabled, Do, Shape, GroupIds, Fresh, Agreed, Current;
    if xs != [] {
      ActionKeepsShape(s, cfg, xs[0]);
      ActionKeepsGroupIds(s, cfg, xs[0]);
      ActionKeepsFresh(s, cfg, xs[0]);
      ActionKeepsAgreed(s, cfg, xs[0]);
      ActionKeepsCurrent(s, cfg, xs[0]);
      PathKeepsCurrent(Do(s, cfg, xs[0]), cfg, xs[1..], t);
    }
  }

  // ---- The newest epoch ----

  /** The pending epoch, or else the active one, if it was activated since the session
      created or joined its group. */
  function Newest(s: State): Option<Slot> {
    if s.epochs.pending.Some? then Some(Pending)
    else if s.log.activated && s.epochs.active.Some? then Some(Active)
    else None
  }

  /** The epoch of the confirmed group: the newest one, or the active one while the pending
      epoch is that of an own commit the gateway has not announced. */
  function Settled(s: State): Option<Slot> {
    if s.mls.pendingCommit.None? then Newest(s)
    else if s.epochs.pending.Some? && s.log.activated && s.epochs.active.Some? then Some(Active)
    else None
  }

  lemma CurrentInRuns(cfg: Config, es: seq<Event>)
    ensures var t := Run(Init(), cfg, es);
            && Sound(t, cfg) && IdsAgree(t) && (HasGroup(t) ==> (Agrees(t) <==> !t.log.stacked)) && Current(t, cfg)
            && !t.log.tainted && !t.log.detached
  {
    ReachableGroups(cfg, es);
    RunLeads(Init(), cfg, es);
    RunBetween(cfg, es, false);
    var t := Run(Init(), cfg, es);
    var xs :| Path(Init(), cfg, xs, t);
    InitSound(cfg);
    assert Agreed(Init()) && Current(Init(), cfg);
    hide Path, Run, Sound, ApplyAll, IdsAgree, Agrees, Current;
    PathKeepsCurrent(Init(), cfg, xs, t);
  }

  /** Between handlers, in every run: with no commits stacked and no own commit in flight,
      the newest epoch is the group's, and a session that sends does so with its active
      epoch's own ratchet. */
  lemma NewestIsGroups(cfg: Config, es: seq<Event>)
    ensures var t := Run(Init(), cfg, es);
            && Owns(t, cfg) && (t.mls.groupId.None? ==> t.log.announced == [])
            && (HasGroup(t) && !t.log.stacked && t.mls.pendingCommit.None? && Newest(t).Some? ==>
                  Has(t, Newest(t).value) && Matches(At(t, Newest(t).value), TheGroup(t)))
  {
    CurrentInRuns(cfg, es);
    hide Run, Sound, ApplyAll;
  }

  /** Between handlers, in every run: with no commits stacked, the settled epoch was built
      from the confirmed group, whether or not an own commit is in flight. */
  lemma SettledIsConfirmed(cfg: Config, es: seq<Event>)
    ensures var t := Run(Init(), cfg, es);
            HasGroup(t) && !t.log.stacked && Settled(t).Some? ==>
              Has(t, Settled(t).value) && Matches(At(t, Settled(t).value), Confirmed(t))
  {
    CurrentInRuns(cfg, es);
    hide Run, Sound, ApplyAll;
  }
}
