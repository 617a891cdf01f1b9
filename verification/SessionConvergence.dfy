/** The confirmed group of one session: in every run it is the announced commits applied to
    the group the session started from, and what a rollback restores. */
module SessionConvergence {
  import opened Bytes
  import opened SessionState
  import opened SessionMedia
  import opened SessionControl
  import opened SessionActions
  import opened SessionFrames
  import opened SessionShape
  import opened SessionGroups
  import opened SessionPaths
  import opened SessionQueue

  /** The reference: announced commits applied in order, with no local commits at all. */
  function ApplyAll(g: Group, cs: seq<Commit>): Group {
    if cs == [] then g else Apply(ApplyAll(g, cs[..|cs| - 1]), cs[|cs| - 1])
  }

  /** The group state agreed with the gateway: what a rollback would restore, if there is
      an own commit in flight. */
  function Confirmed(s: State): Group
    requires HasGroup(s)
  {
    if s.mls.preCommit.Some? then s.mls.preCommit.value else TheGroup(s)
  }

  /** The group is what the own commit in flight made of the confirmed state, and a pending
      epoch is the group's. */
  predicate Linked(s: State)
    requires HasGroup(s)
  {
    && (s.mls.preCommit.Some? && s.mls.pendingCommit.Some? ==>
          TheGroup(s) == Apply(s.mls.preCommit.value, s.mls.pendingCommit.value))
    && (s.epochs.pending.Some? ==>
          s.epochs.pending.value.term == TheGroup(s).term && s.epochs.pending.value.senders.Keys == TheGroup(s).members)
  }

  predicate Agrees(s: State) {
    HasGroup(s) ==>
      s.log.origin.Some? && ApplyAll(s.log.origin.value, s.log.announced) == Confirmed(s) && Linked(s)
  }

  /** How many commits deep a group state is. */
  function Height(t: Term): nat {
    match t
    case Created(_, _) => 0
    case Applied(base, _) => 1 + Height(base)
  }

  /** The confirmed state holds more commits than were announced. */
  predicate Ahead(s: State) {
    HasGroup(s) ==>
      && s.log.origin.Some? && Linked(s)
      && Height(Confirmed(s).term) > Height(s.log.origin.value.term) + |s.log.announced|
  }

  /** Agreement holds until a local commit is stacked on an own commit the gateway has not
      announced, or a failed message is about to invalidate everything. */
  predicate Agreed(s: State) { !s.log.tainted ==> if s.log.stacked then Ahead(s) else Agrees(s) }

  lemma {:induction false} ApplyAllHeight(g: Group, cs: seq<Commit>)
    ensures Height(ApplyAll(g, cs).term) == Height(g.term) + |cs|
  {
    if cs != [] { ApplyAllHeight(g, cs[..|cs| - 1]); }
  }

  lemma AheadDisagrees(s: State)
    requires HasGroup(s) && Ahead(s)
    ensures !Agrees(s)
  {
    ApplyAllHeight(s.log.origin.value, s.log.announced);
  }

  lemma AgreedUnmoved(s: State, t: State)
    requires Agreed(s) && Unmoved(s, t)
    ensures Agreed(t)
  {
  }

  lemma ApplyOneMore(g: Group, cs: seq<Commit>, c: Commit)
    ensures ApplyAll(g, cs + [c]) == Apply(ApplyAll(g, cs), c)
  {
    assert (cs + [c])[..|cs|] == cs;
  }

  lemma AgreedAfterSetPending(s: State)
    requires HasGroup(s) && Agreed(s.(epochs := s.epochs.(pending := None)))
    ensures Agreed(SetPending(s))
  {
    SetPendingFacts(s);
    hide SetPending, NewRatchets, ApplyAll;
  }

  lemma AgreedAfterPeerCommit(s: State, c: Commit, rebuilt: bool)
    requires GroupIds(s) && Agreed(s) && HasGroup(s) && s.mls.pendingCommit.None?
    ensures Agreed(PeerCommit(s, c, rebuilt))
  {
    var g := Apply(TheGroup(s), c);
    var s1 := Announce(SaveGroup(Mint(s, g.term), s.mls.groupId.value, g), c);
    if s.log.origin.Some? { ApplyOneMore(s.log.origin.value, s.log.announced, c); }
    hide SetPending, ApplyAll;
    AgreedAfterSetPending(s1);
  }

  lemma AgreedAfterLocalCommit(s: State, c: Commit, rebuilt: bool)
    requires GroupIds(s) && Agreed(s) && HasGroup(s) && s.epochs.pending.None?
    ensures Agreed(if rebuilt then SetPending(MakeCommit(s, c)) else MakeCommit(s, c))
  {
    if s.log.origin.Some? { ApplyAllHeight(s.log.origin.value, s.log.announced); }
    hide SetPending, ApplyAll;
    AgreedAfterSetPending(MakeCommit(s, c));
  }

  lemma AgreedAfterJoin(s: State, w: Welcome)
    requires GroupIds(s) && Agreed(s) && s.mls.client.Some? && w.joinOk && s.mls.pendingCommit.None?
    ensures Agreed(Join(s, w).0)
  {
    hide SetPending;
    var s1 := SaveGroup(Mint(s, w.group.term), w.groupId, w.group);
    var s2 := Adopt(s1, w.group).(mls := s1.mls.(groupId := Some(w.groupId), pendingGroupId := Some(w.groupId)));
    assert ApplyAll(w.group, []) == w.group;
    AgreedAfterSetPending(s2);
  }

  lemma AgreedAfterConfirm(s: State)
    requires GroupIds(s) && Agreed(s)
    ensures Agreed(ConfirmCommit(s))
  {
    if s.log.origin.Some? && s.mls.pendingCommit.Some? {
      ApplyOneMore(s.log.origin.value, s.log.announced, s.mls.pendingCommit.value);
    }
    hide ApplyAll;
  }

  lemma AgreedAfterNewGroup(s: State, cfg: Config)
    requires GroupIds(s) && Agreed(s) && s.mls.groupId.None? && s.mls.client.Some?
    ensures Agreed(NewGroup(s, cfg))
  {
    var g := Group(Created(cfg.self, s.env.seed), {cfg.self});
    assert ApplyAll(g, []) == g;
    hide ApplyAll;
  }

  lemma AgreedAfterOther(s: State, cfg: Config, a: Action)
    requires GroupIds(s) && Agreed(s) && Enabled(s, cfg, a)
    requires a.AClient? || a.ARestore? || a.AInvalidate? || a.AResetGroup? || a.ADowngrade? || a.ADropSend? ||
             a.ARetainSend?
    ensures Agreed(Do(s, cfg, a))
  {
    hide RunCall, ActivateEpoch, SetPending, NewGroup, MakeCommit, PeerCommit, Join, WatchDroppedSend, WatchRecovery,
         ArmCommitWatchdog, StartFire, ApplyAll;
  }

  lemma ActionKeepsAgreed(s: State, cfg: Config, a: Action)
    requires GroupIds(s) && Agreed(s) && Enabled(s, cfg, a)
    ensures Agreed(Do(s, cfg, a))
  {
    hide GroupIds, Agreed, RunCall, ActivateEpoch, SetPending, MakeCommit, PeerCommit, Join, NewGroup, ConfirmCommit,
         WatchDroppedSend, WatchRecovery, ArmCommitWatchdog, StartFire, Downgrade, InvalidateMls, ResetGroup,
           RestorePreCommit;
    if Quiet(a) {
      QuietLeavesUnmoved(s, cfg, a);
      AgreedUnmoved(s, Do(s, cfg, a));
    } else if a.ACall? {
      AgreedAfterCall(s, cfg, a.call);
    } else if a.ANewGroup? {
      AgreedAfterNewGroup(s, cfg);
    } else if a.ASoleMember? {
      AgreedBeforePending(s);
      AgreedAfterSetPending(s);
    } else if a.ALocalCommit? {
      AgreedAfterLocalCommit(s, a.commit, a.rebuilt);
    } else if a.APeerCommit? {
      AgreedAfterPeerCommit(s, a.commit, a.rebuilt);
    } else if a.AJoin? {
      AgreedAfterJoin(s, a.welcome);
    } else if a.AConfirm? {
      AgreedAfterConfirm(s);
    } else if a.AActivate? {
      AgreedAfterActivate(s, cfg);
    } else {
      AgreedAfterOther(s, cfg, a);
    }
  }

  lemma AgreedBeforePending(s: State)
    requires Agreed(s)
    ensures Agreed(s.(epochs := s.epochs.(pending := None)))
  {
    hide ApplyAll;
  }

  lemma AgreedAfterCall(s: State, cfg: Config, call: MediaCall)
    requires Agreed(s)
    ensures Agreed(RunCall(s, cfg, call))
  {
    hide RunCall, ApplyAll;
    CallKeepsGroups(s, cfg, call);
  }

  lemma AgreedAfterActivate(s: State, cfg: Config)
    requires GroupIds(s) && Agreed(s) && s.epochs.pending.Some?
    ensures Agreed(ActivateEpoch(s, cfg))
  {
    ActivateFacts(s, cfg);
    hide ActivateEpoch, ApplyAll, AddsSender, Unexpired;
  }

  lemma {:induction false} PathKeepsAgreed(s: State, cfg: Config, xs: seq<Action>, t: State)
    requires Sound(s, cfg) && Agreed(s) && Path(s, cfg, xs, t)
    ensures Sound(t, cfg) && Agreed(t)
    decreases |xs|
  {
    hide Enabled, Do, Shape, GroupIds, Fresh, Agreed;
    if xs != [] {
      ActionKeepsShape(s, cfg, xs[0]);
      ActionKeepsGroupIds(s, cfg, xs[0]);
      ActionKeepsFresh(s, cfg, xs[0]);
      ActionKeepsAgreed(s, cfg, xs[0]);
      PathKeepsAgreed(Do(s, cfg, xs[0]), cfg, xs[1..], t);
    }
  }

  /** Between handlers, in every run: group ids and the own-commit record agree, and the
      confirmed group is the announced commits applied to the group the session started
      from, exactly when no commit was stacked. */
  lemma ReachableGroups(cfg: Config, es: seq<Event>)
    ensures var t := Run(Init(), cfg, es);
            Sound(t, cfg) && IdsAgree(t) && (HasGroup(t) ==> (Agrees(t) <==> !t.log.stacked))
  {
    RunLeads(Init(), cfg, es);
    RunBetween(cfg, es, false);
    var t := Run(Init(), cfg, es);
    var xs :| Path(Init(), cfg, xs, t);
    InitSound(cfg);
    assert Agreed(Init());
    hide Path, Run, Sound, IdsAgree, Agrees;
    PathKeepsAgreed(Init(), cfg, xs, t);
    assert GroupIds(t) by { SoundParts(t, cfg); }
    if HasGroup(t) && t.log.stacked {
      hide Ahead;
      AheadDisagrees(t);
    }
  }

  lemma SoundParts(t: State, cfg: Config)
    requires Sound(t, cfg)
    ensures GroupIds(t)
  {
  }

  /** A rollback is always possible, and leaves exactly the confirmed group. */
  lemma RollbackRestores(cfg: Config, es: seq<Event>)
    requires Run(Init(), cfg, es).mls.pendingCommit.Some?
    ensures var s := Run(Init(), cfg, es);
            var (t, ok) := RestorePreCommit(s);
            && ok && HasGroup(s) && HasGroup(t) && TheGroup(t) == Confirmed(s)
            && t.mls.pendingCommit.None? && t.mls.preCommit.None? && t.epochs.pending.None?
  {
    ReachableGroups(cfg, es);
    hide Run, Sound, Agrees;
  }

  /** Exactly when a new local commit keeps the confirmed group: when no own commit is
      waiting to be announced. */
  lemma StackingExactly(s: State, c: Commit)
    requires HasGroup(s) && IdsAgree(s) && Agrees(s)
    ensures HasGroup(MakeCommit(s, c))
    ensures Confirmed(MakeCommit(s, c)) == Confirmed(s) <==> s.mls.pendingCommit.None?
  {
    hide ApplyAll;
    if s.mls.pendingCommit.Some? { AppliedDiffers(s.mls.preCommit.value, s.mls.pendingCommit.value); }
  }

  lemma AppliedDiffers(g: Group, c: Commit)
    ensures Apply(g, c) != g
  {
    TermGrows(g.term, c);
  }

  lemma TermGrows(t: Term, c: Commit)
    ensures Applied(t, c) != t
  {
    assert Height(Applied(t, c)) == 1 + Height(t);
  }
}
