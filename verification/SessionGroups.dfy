/** Group ids, own-commit records, and the freshness of the group states that are
    turned into epochs. */
module SessionGroups {
  import opened Bytes
  import opened SessionState
  import opened SessionMedia
  import opened SessionControl
  import opened SessionActions
  import opened SessionFrames
  import opened SessionShape

  // ---- Group ids and the own-commit record ----

  predicate IdsAgree(s: State) {
    && (s.epochs.pending.Some? <==> s.mls.pendingGroupId.Some?)
    && (s.epochs.pending.Some? ==>
          && s.mls.pendingGroupId == Some(s.epochs.pending.value.groupId)
          && s.mls.groupId == s.mls.pendingGroupId)
    && (s.mls.pendingCommit.Some? <==> s.mls.preCommit.Some?)
    && (s.mls.groupId.Some? ==> HasGroup(s))
    && (s.mls.preCommit.Some? ==> s.mls.groupId.Some?)
  }

  /** The ids and the record agree, except between a failed commit or welcome and the
      invalidation that follows it. */
  predicate GroupIds(s: State) { !s.log.tainted ==> IdsAgree(s) }

  lemma ActionKeepsGroupIds(s: State, cfg: Config, a: Action)
    requires GroupIds(s) && Enabled(s, cfg, a)
    ensures GroupIds(Do(s, cfg, a))
  {
    hide RunCall, ActivateEpoch, MediaStep, WatchDroppedSend, WatchRecovery, ArmCommitWatchdog, StartFire,
         SetWatchdog, RemoveWatchdog, MakeCommit, PeerCommit, Join, SetPending;
    if Quiet(a) {
      QuietLeavesUnmoved(s, cfg, a);
    } else if a.ACall? {
      CallKeepsGroups(s, cfg, a.call);
    } else if a.AActivate? {
      ActivateFacts(s, cfg);
    } else if a.ASoleMember? || a.ALocalCommit? || a.APeerCommit? || a.AJoin? {
      BuildingKeepsGroupIds(s, cfg, a);
    }
  }

  lemma BuildingKeepsGroupIds(s: State, cfg: Config, a: Action)
    requires GroupIds(s) && Enabled(s, cfg, a)
    requires a.ASoleMember? || a.ALocalCommit? || a.APeerCommit? || a.AJoin?
    ensures GroupIds(Do(s, cfg, a))
  {
    hide RunCall, ActivateEpoch, NewRatchets, WatchDroppedSend, WatchRecovery, ArmCommitWatchdog, StartFire,
         SetWatchdog, RemoveWatchdog, RestorePreCommit, ConfirmCommit, InvalidateMls, ResetGroup, Downgrade,
         DropSendKeys, StopSending, EnsureClient, ResetEpochReady, ResetAttempts, NewGroup;
  }

  lemma CallKeepsGroups(s: State, cfg: Config, call: MediaCall)
    ensures var t := RunCall(s, cfg, call);
            && t.mls == s.mls && t.builds == s.builds && t.log.tainted == s.log.tainted
            && SameOption(s.epochs.active, t.epochs.active) && SameOption(s.epochs.pending, t.epochs.pending)
            && t.log == s.log.(sends := t.log.sends, deliveries := t.log.deliveries, restarts := t.log.restarts)
  {
    hide RunCall, Pruned;
    CallStep(s, cfg, call);
  }

  // ---- Freshness ----

  predicate NoDup(ts: seq<Term>) {
    forall i, j :: 0 <= i < j < |ts| ==> ts[i] != ts[j]
  }

  predicate AllMinted(s: State) {
    && (forall t :: t in s.log.built ==> t in s.log.minted)
    && (s.mls.client.Some? ==> forall id :: id in s.mls.client.value ==> s.mls.client.value[id].term in s.log.minted)
    && (s.mls.preCommit.Some? ==> s.mls.preCommit.value.term in s.log.minted)
  }

  /** While no epoch is active, neither the group's state nor the state a rollback would
      restore has been built into an epoch before. */
  predicate Unbuilt(s: State) {
    s.epochs.active.None? ==>
      && (s.epochs.pending.None? && HasGroup(s) ==> TheGroup(s).term !in s.log.built)
      && (s.mls.preCommit.Some? ==> s.mls.preCommit.value.term !in s.log.built)
      && (s.mls.preCommit.Some? && HasGroup(s) ==> s.mls.preCommit.value.term != TheGroup(s).term)
  }

  /** If the MLS library never produces the same state twice, no state is built into an
      epoch twice. */
  predicate Fresh(s: State) {
    AllMinted(s) && (NoDup(s.log.minted) ==> NoDup(s.log.built) && Unbuilt(s))
  }

  lemma NoDupPrefix(ts: seq<Term>, t: Term)
    requires NoDup(ts + [t])
    ensures NoDup(ts) && t !in ts
  {
    forall i, j | 0 <= i < j < |ts| ensures ts[i] != ts[j] {
      assert (ts + [t])[i] == ts[i] && (ts + [t])[j] == ts[j];
    }
    forall i | 0 <= i < |ts| ensures ts[i] != t {
      assert (ts + [t])[i] == ts[i] && (ts + [t])[|ts|] == t;
    }
  }

  lemma NoDupExtend(ts: seq<Term>, t: Term)
    requires NoDup(ts) && t !in ts
    ensures NoDup(ts + [t])
  {
  }

  /** A state newly produced by the library takes the place of a stored one. */
  predicate Learned(s: State, t: State, id: GroupId, g: Group) {
    && s.mls.client.Some? && t.mls.client == Some(s.mls.client.value[id := g])
    && t.log.minted == s.log.minted + [g.term] && t.log.built == s.log.built
    && t.epochs == s.epochs
    && (t.mls.preCommit == s.mls.preCommit || t.mls.preCommit.None? ||
        (HasGroup(s) && s.epochs.pending.None? && s.mls.groupId == Some(id) && t.mls.preCommit == Some(TheGroup(s))))
    && (t.mls.groupId == s.mls.groupId || t.mls.groupId == Some(id))
  }

  lemma FreshAfterLearning(s: State, t: State, id: GroupId, g: Group)
    requires Fresh(s) && Learned(s, t, id, g)
    ensures Fresh(t)
    ensures NoDup(t.log.minted) ==> g.term !in t.log.built
  {
    if NoDup(t.log.minted) { NoDupPrefix(s.log.minted, g.term); }
    assert forall x :: x in s.log.minted ==> x in t.log.minted;
    assert t.log.minted[|s.log.minted|] == g.term;
  }

  lemma FreshAfterSetPending(s: State)
    requires HasGroup(s) && Fresh(s) && (NoDup(s.log.minted) ==> TheGroup(s).term !in s.log.built)
    requires s.epochs.active.None? && s.mls.preCommit.Some? && NoDup(s.log.minted) ==>
               s.mls.preCommit.value.term != TheGroup(s).term
    ensures Fresh(SetPending(s))
  {
    SetPendingFacts(s);
    hide SetPending, NewRatchets;
    if NoDup(s.log.minted) { NoDupExtend(s.log.built, TheGroup(s).term); }
  }

  lemma FreshUnmoved(s: State, t: State)
    requires Fresh(s) && Unmoved(s, t)
    ensures Fresh(t)
  {
  }

  lemma FreshAfterJoin(s: State, w: Welcome)
    requires Fresh(s) && s.mls.client.Some? && w.joinOk
    ensures Fresh(Join(s, w).0)
  {
    var s1 := SaveGroup(Mint(s, w.group.term), w.groupId, w.group);
    var s2 := Adopt(s1, w.group).(mls := s1.mls.(groupId := Some(w.groupId), pendingGroupId := Some(w.groupId)));
    hide Fresh, SetPending;
    FreshAfterLearning(s, Taint(s1), w.groupId, w.group);
    FreshAfterLearning(s, Taint(s2), w.groupId, w.group);
    FreshAfterLearning(s, s2, w.groupId, w.group);
    FreshAfterSetPending(s2);
  }

  lemma FreshAfterPeerCommit(s: State, c: Commit, rebuilt: bool)
    requires Fresh(s) && HasGroup(s)
    ensures Fresh(PeerCommit(s, c, rebuilt))
  {
    var g := Apply(TheGroup(s), c);
    var s1 := Announce(SaveGroup(Mint(s, g.term), s.mls.groupId.value, g), c);
    hide Fresh, SetPending;
    FreshAfterLearning(s, Taint(s1), s.mls.groupId.value, g);
    FreshAfterLearning(s, s1, s.mls.groupId.value, g);
    FreshAfterSetPending(s1);
  }

  lemma FreshAfterLocalCommit(s: State, c: Commit, rebuilt: bool)
    requires Fresh(s) && HasGroup(s) && s.epochs.pending.None?
    ensures Fresh(if rebuilt then SetPending(MakeCommit(s, c)) else MakeCommit(s, c))
  {
    hide Fresh, SetPending;
    FreshAfterLearning(s, MakeCommit(s, c), s.mls.groupId.value, Apply(TheGroup(s), c));
    FreshAfterSetPending(MakeCommit(s, c));
  }

  lemma FreshAfterActivate(s: State, cfg: Config)
    requires Fresh(s) && s.epochs.pending.Some?
    ensures Fresh(ActivateEpoch(s, cfg))
  {
    hide ActivateEpoch, Unexpired, AddsSender;
    ActivateFacts(s, cfg);
  }

  /** Actions that mint and build nothing: the group stays, is rolled back, or is gone. */
  lemma FreshAfterOther(s: State, cfg: Config, a: Action)
    requires Fresh(s) && Enabled(s, cfg, a)
    requires a.AClient? || a.ARestore? || a.AConfirm? || a.AInvalidate? || a.AResetGroup? || a.ADowngrade?
             || a.ADropSend? || a.ARetainSend?
    ensures Fresh(Do(s, cfg, a))
  {
    hide RunCall, ActivateEpoch, SetPending, NewGroup, MakeCommit, PeerCommit, Join, WatchDroppedSend, WatchRecovery,
         ArmCommitWatchdog, StartFire;
  }

  lemma ActionKeepsFresh(s: State, cfg: Config, a: Action)
    requires Fresh(s) && Enabled(s, cfg, a)
    ensures Fresh(Do(s, cfg, a))
  {
    hide Fresh, RunCall, ActivateEpoch, SetPending, MakeCommit, PeerCommit, Join;
    if Quiet(a) {
      QuietLeavesUnmoved(s, cfg, a);
      FreshUnmoved(s, Do(s, cfg, a));
    } else if a.ACall? {
      FreshAfterCall(s, cfg, a.call);
    } else if a.ANewGroup? {
      var g := Group(Created(cfg.self, s.env.seed), {cfg.self});
      FreshAfterLearning(s, NewGroup(s, cfg), s.channelId, g);
    } else if a.ASoleMember? {
      SoleMemberUnbuilt(s);
      FreshAfterSetPending(s);
    } else if a.ALocalCommit? {
      FreshAfterLocalCommit(s, a.commit, a.rebuilt);
    } else if a.APeerCommit? {
      FreshAfterPeerCommit(s, a.commit, a.rebuilt);
    } else if a.AJoin? {
      FreshAfterJoin(s, a.welcome);
    } else if a.AActivate? {
      FreshAfterActivate(s, cfg);
    } else {
      FreshAfterOther(s, cfg, a);
    }
  }

  lemma SoleMemberUnbuilt(s: State)
    requires Fresh(s) && HasGroup(s) && s.epochs.active.None? && s.epochs.pending.None?
    ensures NoDup(s.log.minted) ==> TheGroup(s).term !in s.log.built
    ensures s.mls.preCommit.Some? && NoDup(s.log.minted) ==> s.mls.preCommit.value.term != TheGroup(s).term
  {
  }

  lemma FreshAfterCall(s: State, cfg: Config, call: MediaCall)
    requires Fresh(s)
    ensures Fresh(RunCall(s, cfg, call))
  {
    hide RunCall;
    CallKeepsGroups(s, cfg, call);
  }

  // ---- Along a run ----

  ghost predicate Sound(s: State, cfg: Config) {
    Shape(s, cfg) && GroupIds(s) && Fresh(s)
  }

  lemma {:induction false} PathKeepsSound(s: State, cfg: Config, xs: seq<Action>, t: State)
    requires Sound(s, cfg) && Path(s, cfg, xs, t)
    ensures Sound(t, cfg)
    decreases |xs|
  {
    hide Enabled, Do, Shape, GroupIds, Fresh;
    if xs != [] {
      ActionKeepsShape(s, cfg, xs[0]);
      ActionKeepsGroupIds(s, cfg, xs[0]);
      ActionKeepsFresh(s, cfg, xs[0]);
      PathKeepsSound(Do(s, cfg, xs[0]), cfg, xs[1..], t);
    }
  }

  lemma InitSound(cfg: Config)
    ensures Sound(Init(), cfg)
  {
  }
}
