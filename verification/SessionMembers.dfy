/** What members of one group have in common: the same announced commits give the same
    group and the same sender secrets, and what one member sends the others deliver. */
module SessionMembers {
  import opened Bytes
  import opened Nonce
  import opened SessionState
  import opened SessionMedia
  import opened SessionControl
  import opened SessionShape
  import opened SessionGroups
  import opened SessionPaths
  import opened SessionConvergence
  import opened SessionAgreement
  import opened SessionAnnouncements
  import opened SessionReceives
  import opened SessionReplays
  import opened SessionDelivery
  import SessionFrames
  import Ratchet

  /** The epochs derive every sender's secret alike, for the same senders. */
  ghost predicate SameSecrets(s: State, a: Slot, t: State, b: Slot)
    requires Has(s, a) && Has(t, b)
  {
    && At(s, a).senders.Keys == At(t, b).senders.Keys
    && forall u :: u in At(s, a).senders ==>
         && Ref(At(s, a).build, u) in s.ratchets && Ref(At(t, b).build, u) in t.ratchets
         && s.ratchets[Ref(At(s, a).build, u)].root == t.ratchets[Ref(At(t, b).build, u)].root
  }

  /** Same confirmed group, and the same secrets in its epochs, whether still pending or
      already active, and also while own commits are in flight; with none in flight, the same
      group. */
  ghost predicate Together(s: State, t: State)
    requires HasGroup(s) && HasGroup(t)
  {
    && Confirmed(s) == Confirmed(t)
    && (s.mls.pendingCommit.None? && t.mls.pendingCommit.None? ==> TheGroup(s) == TheGroup(t))
    && (Settled(s).Some? && Settled(t).Some? ==>
          && Has(s, Settled(s).value) && Has(t, Settled(t).value)
          && SameSecrets(s, Settled(s).value, t, Settled(t).value))
  }

  /** The group state the events of a run lead to: its starting group with the handled
      commits applied, as if there were no local commits at all. */
  ghost function Led(cfg: Config, es: seq<Event>): Group
    requires Origin(cfg, es).Some?
  {
    ApplyAll(Origin(cfg, es).value, Messages(cfg, es))
  }

  /** Commit races converge: any two members whose events lead to the same state are
      together, however each commit reached them, and in whatever phase each is. */
  lemma Convergence(cfg1: Config, es1: seq<Event>, cfg2: Config, es2: seq<Event>)
    requires var s, t := Run(Init(), cfg1, es1), Run(Init(), cfg2, es2);
             HasGroup(s) && HasGroup(t) && !s.log.stacked && !t.log.stacked
    requires Origin(cfg1, es1).Some? && Origin(cfg2, es2).Some? && Led(cfg1, es1) == Led(cfg2, es2)
    ensures Together(Run(Init(), cfg1, es1), Run(Init(), cfg2, es2))
  {
    ReachableGroups(cfg1, es1);
    ReachableGroups(cfg2, es2);
    SettledIsConfirmed(cfg1, es1);
    SettledIsConfirmed(cfg2, es2);
    AnnouncedAreMessages(cfg1, es1);
    AnnouncedAreMessages(cfg2, es2);
    var s, t := Run(Init(), cfg1, es1), Run(Init(), cfg2, es2);
    hide Run, ApplyAll, Fresh, GroupIds, Settled, SameSecrets, Messages, Origin, Shape;
    if Settled(s).Some? && Settled(t).Some? {
      SameTermSameSecrets(s, cfg1, Settled(s).value, t, cfg2, Settled(t).value);
    }
  }

  lemma SameTermSameSecrets(s: State, cfg1: Config, a: Slot, t: State, cfg2: Config, b: Slot)
    requires Shape(s, cfg1) && Shape(t, cfg2) && Has(s, a) && Has(t, b)
    requires At(s, a).term == At(t, b).term && At(s, a).senders.Keys == At(t, b).senders.Keys
    ensures SameSecrets(s, a, t, b)
  {
    assert EpochOk(s, At(s, a)) && EpochOk(t, At(t, b)) && RatchetsOk(s) && RatchetsOk(t);
    hide Shape;
  }

  /** Any two epochs of any two sessions that were built from the same group state, whether
      pending, active or retained, hold the same secret for every sender. */
  lemma SameStateSameSecrets(cfg1: Config, es1: seq<Event>, a: Slot, cfg2: Config, es2: seq<Event>, b: Slot, u: UserId)
    requires var s, t := Run(Init(), cfg1, es1), Run(Init(), cfg2, es2);
             && Has(s, a) && Has(t, b) && At(s, a).term == At(t, b).term
             && u in At(s, a).senders && u in At(t, b).senders
    ensures var s, t := Run(Init(), cfg1, es1), Run(Init(), cfg2, es2);
            && Ref(At(s, a).build, u) in s.ratchets && Ref(At(t, b).build, u) in t.ratchets
            && s.ratchets[Ref(At(s, a).build, u)].root == t.ratchets[Ref(At(t, b).build, u)].root
  {
    ReachableGroups(cfg1, es1);
    ReachableGroups(cfg2, es2);
    var s, t := Run(Init(), cfg1, es1), Run(Init(), cfg2, es2);
    hide Run, Fresh, DistinctBuilds, Agrees;
    assert EpochOk(s, At(s, a)) && EpochOk(t, At(t, b));
  }

  /** A member welcomed, by the k-th of its events, into the state another had reached after
      the commits seen, and then handling the same further commits, is together with it. */
  lemma WelcomedConvergence(cfg1: Config, es1: seq<Event>, cfg2: Config, es2: seq<Event>, k: nat, seen: seq<Commit>)
    requires var s, t := Run(Init(), cfg1, es1), Run(Init(), cfg2, es2);
             HasGroup(s) && HasGroup(t) && !s.log.stacked && !t.log.stacked
    requires k < |es2| && Joins(Run(Init(), cfg2, es2[..k]), cfg2, es2[k]) && Stays(cfg2, es2, k + 1)
    requires Origin(cfg1, es1).Some? && es2[k].welcome.group == ApplyAll(Origin(cfg1, es1).value, seen)
    requires Messages(cfg1, es1) == seen + Messages(cfg2, es2)
    ensures Together(Run(Init(), cfg1, es1), Run(Init(), cfg2, es2))
  {
    WelcomeIsOrigin(cfg2, es2, k);
    hide Run, Messages, Origin, Joins, Stays;
    ApplyAllAppend(Origin(cfg1, es1).value, seen, Messages(cfg2, es2));
    Convergence(cfg1, es1, cfg2, es2);
  }

  lemma {:induction false} ApplyAllAppend(g: Group, seen: seq<Commit>, further: seq<Commit>)
    ensures ApplyAll(ApplyAll(g, seen), further) == ApplyAll(g, seen + further)
    decreases |further|
  {
    if further == [] {
      assert seen + further == seen;
    } else {
      var n := |further| - 1;
      ApplyAllAppend(g, seen, further[..n]);
      assert (seen + further)[..|seen| + n] == seen + further[..n];
    }
  }

  // ---- Losing a race ----

  /** What a batch leaves of the group when nothing was pending: the group itself, or an own
      commit on top of it that a rollback takes off again. */
  predicate AtMostOwnCommit(s: State, t: State, c: Commit) {
    && IdsAgree(t) && HasGroup(s) && HasGroup(t) && t.mls.groupId == s.mls.groupId && t.mls.queue == s.mls.queue
    && Confirmed(t) == TheGroup(s) && (t.mls.pendingCommit.None? || t.mls.pendingCommit == Some(c))
  }

  lemma SendCommitLeavesOwn(s: State, t: State, cfg: Config, c: Commit)
    requires AtMostOwnCommit(s, t, c) && t.mls.pendingCommit == Some(c) && t.epochs.pending.Some?
    ensures AtMostOwnCommit(s, SendCommit(t, cfg), c)
  {
    hide SendLocked, WatchDroppedSend, ArmCommitWatchdog;
    SendLockedStep(t, cfg);
    var u := SendLocked(t, cfg).0;
    WatchLeavesGroup(RestorePreCommit(u).0, cfg);
    WatchLeavesGroup(u, cfg);
  }

  lemma WatchLeavesGroup(s: State, cfg: Config)
    ensures WatchDroppedSend(s, cfg).mls == s.mls && WatchDroppedSend(s, cfg).epochs == s.epochs
    ensures ArmCommitWatchdog(s, cfg).mls == s.mls && ArmCommitWatchdog(s, cfg).epochs == s.epochs
  {
  }

  lemma BatchLeavesOwn(s: State, cfg: Config, b: Batch)
    requires IdsAgree(s) && HasGroup(s) && s.epochs.pending.None? && s.mls.pendingCommit.None?
    ensures AtMostOwnCommit(s, ProcessAndCommit(s, cfg, b), b.commit)
  {
    hide SendCommit, NewRatchets;
    var s2 := s.(log := s.log.(processed := s.log.processed + [b.id]));
    var m := MakeCommit(s2, b.commit);
    assert AtMostOwnCommit(s, m, b.commit);
    assert AtMostOwnCommit(s, SetPending(m), b.commit);
    SendCommitLeavesOwn(s, SetPending(m), cfg, b.commit);
  }

  /** A prepare_commit with a commit other than the own one: the confirmed group with that
      commit applied, and a newest epoch built from it. */
  lemma WinnerApplied(s: State, cfg: Config, transition: nat, winner: Commit)
    requires IdsAgree(s) && HasGroup(s) && s.mls.queue == [] && s.mls.pendingCommit != Some(winner)
    requires s.env.processOk && s.env.rebuildOk
    ensures var t := OnPrepareCommit(s, cfg, transition, Some(winner));
            && HasGroup(t) && TheGroup(t) == Apply(Confirmed(s), winner) && t.mls.pendingCommit.None?
            && var e := if transition == 0 then t.epochs.active else t.epochs.pending;
               e.Some? && Matches(e.value, TheGroup(t))
  {
    var s1 := s.(pendingTransitionId := transition);
    var s2 := if s1.mls.pendingCommit.Some? then RestorePreCommit(s1).0 else s1;
    assert HasGroup(s2) && TheGroup(s2) == Confirmed(s) && s2.mls.queue == [] && s2.mls.pendingCommit.None?;
    WinnerPending(s2, winner);
    var t := PeerCommit(s2, winner, true);
    hide PeerCommit, FinishTransition, RestorePreCommit, SendInvalid, InvalidateAndResend;
    assert Reconcile(s1, cfg, Some(winner)) == (t, true);
    FinishKeepsGroup(t, cfg, transition);
  }

  lemma WinnerPending(s: State, c: Commit)
    requires HasGroup(s) && s.mls.pendingCommit.None?
    ensures var t := PeerCommit(s, c, true);
            && HasGroup(t) && TheGroup(t) == Apply(TheGroup(s), c) && t.mls.queue == s.mls.queue
            && t.mls.pendingCommit.None? && t.mls.pendingGroupId == t.mls.groupId
            && t.epochs.pending.Some? && Matches(t.epochs.pending.value, TheGroup(t))
  {
    var g := Apply(TheGroup(s), c);
    var s1 := Announce(SaveGroup(Mint(s, g.term), s.mls.groupId.value, g), c);
    SessionFrames.SetPendingFacts(s1);
    hide SetPending, NewRatchets;
  }

  lemma FinishKeepsGroup(s: State, cfg: Config, transition: nat)
    requires HasGroup(s) && s.mls.queue == [] && s.mls.pendingGroupId == s.mls.groupId
    requires s.epochs.pending.Some? && Matches(s.epochs.pending.value, TheGroup(s))
    ensures var t := FinishTransition(s, cfg, transition);
            && t.mls.client == s.mls.client && t.mls.groupId == s.mls.groupId &&
               t.mls.pendingCommit == s.mls.pendingCommit
            && var e := if transition == 0 then t.epochs.active else t.epochs.pending;
               e.Some? && Matches(e.value, TheGroup(s))
  {
    hide SendLocked, WatchDroppedSend, ActivateEpoch;
    SendLockedStep(s, cfg);
    WatchLeavesGroup(SendLocked(s, cfg).0, cfg);
    ActivateFacts(s, cfg);
    assert Drain(ActivateEpoch(s, cfg), cfg) == ActivateEpoch(s, cfg);
  }

  /** Losing a race leaves what never committing would have left: whatever became of the own
      commit, sent or dropped, the winner's handler ends with the same group. */
  lemma LosingIsNeverCommitting(s: State, cfg: Config, b: Batch, env: Env, transition: nat, winner: Commit,
                                answers: Env)
    requires IdsAgree(s) && HasGroup(s) && s.epochs.pending.None? && s.mls.pendingCommit.None? && s.mls.queue == []
    requires winner != b.commit && answers.processOk && answers.rebuildOk
    ensures var wins := PrepareCommit(transition, Some(winner), answers);
            var t, u := Step(Step(s, cfg, Proposals(b, env)), cfg, wins), Step(s, cfg, wins);
            && HasGroup(t) && HasGroup(u) && TheGroup(t) == TheGroup(u) == Apply(TheGroup(s), winner)
            && t.mls.pendingCommit.None? && u.mls.pendingCommit.None?
            && var e, f := if transition == 0 then t.epochs.active else t.epochs.pending,
                           if transition == 0 then u.epochs.active else u.epochs.pending;
               e.Some? && f.Some? && Matches(e.value, TheGroup(t)) && Matches(f.value, TheGroup(u))
  {
    hide OnPrepareCommit, ProcessAndCommit;
    var s1 := s.(env := env, log := s.log.(arrived := s.log.arrived + 1));
    BatchLeavesOwn(s1, cfg, b.(id := s.log.arrived));
    var t := Step(s, cfg, Proposals(b, env));
    assert t == ProcessAndCommit(s1, cfg, b.(id := s.log.arrived));
    WinnerApplied(t.(env := answers), cfg, transition, winner);
    WinnerApplied(s.(env := answers), cfg, transition, winner);
  }

  // ---- Members hear each other ----

  /** The receiver can place counter value n of a sender of this epoch, and still has or can
      derive its generation. */
  ghost predicate Hears(s: State, slot: Slot, user: UserId, n: uint64) {
    Has(s, slot) && user in At(s, slot).senders && Ref(At(s, slot).build, user) in s.ratchets ==>
      var x := At(s, slot).senders[user];
      && Expected(x, n) && (x.highest.Some? ==> x.highest.value < TWO56 - TWO32)
      && KeyKept(s, Ref(At(s, slot).build, user), Generation(n))
  }

  /** A frame that one member seals with its current ratchet is delivered, byte for byte, by
      any member whose events lead to the same state, while own commits may be in flight on
      either side: that the two hold the same secret is a consequence, not a hypothesis. */
  lemma MembersHear(acfg: Config, sent: seq<Event>, cfg: Config, es: seq<Event>, frame: seq<byte>, sendRoom: nat,
                    room: nat)
    requires acfg.aead == cfg.aead && cfg.maxGap >= Ratchet.DEFAULT_MAX_GENERATION_GAP
    requires |frame| < TWO32 && room >= |frame|
    requires Origin(acfg, sent).Some? && Origin(cfg, es).Some? && Led(acfg, sent) == Led(cfg, es)
    requires var a, s := Run(Init(), acfg, sent), Run(Init(), cfg, es);
             && HasGroup(a) && HasGroup(s) && !a.log.stacked && !s.log.stacked
             && Settled(a) == Some(Active) && Settled(s).Some?
             && a.send.current.Some? && LiveRatchet(SelectSendRatchet(a)) == a.send.current
             && NoDup(s.log.minted) && Hears(s, Settled(s).value, acfg.self, NextCounter(SelectSendRatchet(a)))
    requires var a := Run(Init(), acfg, sent);
             Encrypt(a, acfg, frame, sendRoom).1.Ok? && OpensOnce(cfg, Encrypt(a, acfg, frame, sendRoom).1.value)
    ensures Decrypt(Run(Init(), cfg, es), cfg, acfg.self, Encrypt(Run(Init(), acfg, sent), acfg, frame,
            sendRoom).1.value, room).1
            == Ok(frame)
  {
    hide Run, Encrypt, Decrypt, NoDup, OpensOnce, Expected, Generation, NextCounter, PruneRetained, SelectSendRatchet,
         Confirmed, TheGroup, Led, Origin, Messages;
    Convergence(acfg, sent, cfg, es);
    NewestIsGroups(acfg, sent);
    var a, s := Run(Init(), acfg, sent), Run(Init(), cfg, es);
    var slot := Settled(s).value;
    SameWhenPruned(s, slot);
    SelectKeepsRatchets(a);
    EndToEndInRuns(acfg, sent, cfg, es, slot, frame, sendRoom, room);
  }

  lemma SameWhenPruned(s: State, slot: Slot)
    requires Has(s, slot) && !slot.Retained?
    ensures var s0 := PruneRetained(s);
            Has(s0, slot) && At(s0, slot) == At(s, slot) && s0.ratchets == s.ratchets && s0.now == s.now
  {
    hide Unexpired;
  }

  /** The group state whose epoch a ratchet was built for. */
  function BuiltFrom(s: State, ref: Ref): Option<Term> {
    if ref.build < |s.log.built| then Some(s.log.built[ref.build]) else None
  }

  /** A frame sealed with whichever ratchet is live, also one retained from an earlier epoch,
      is delivered by any session that still holds an epoch of the same group state with the
      sender in it: again the shared secret is a consequence. */
  lemma RetainedHeard(acfg: Config, sent: seq<Event>, cfg: Config, es: seq<Event>, slot: Slot, frame: seq<byte>,
                      sendRoom: nat, room: nat)
    requires acfg.aead == cfg.aead && cfg.maxGap >= Ratchet.DEFAULT_MAX_GENERATION_GAP
    requires |frame| < TWO32 && room >= |frame|
    requires var a, s := Run(Init(), acfg, sent), PruneRetained(Run(Init(), cfg, es));
             var live := LiveRatchet(SelectSendRatchet(a));
             && live.Some? && Has(s, slot) && BuiltFrom(a, live.value) == Some(At(s, slot).term)
             && acfg.self in At(s, slot).senders
             && NoDup(s.log.minted) && Hears(s, slot, acfg.self, NextCounter(SelectSendRatchet(a)))
    requires var a := Run(Init(), acfg, sent);
             Encrypt(a, acfg, frame, sendRoom).1.Ok? && OpensOnce(cfg, Encrypt(a, acfg, frame, sendRoom).1.value)
    ensures Decrypt(Run(Init(), cfg, es), cfg, acfg.self, Encrypt(Run(Init(), acfg, sent), acfg, frame,
            sendRoom).1.value, room).1
            == Ok(frame)
  {
    ReachableGroups(acfg, sent);
    ReachableGroups(cfg, es);
    var a, s := Run(Init(), acfg, sent), Run(Init(), cfg, es);
    hide Run, Encrypt, Decrypt, NoDup, OpensOnce, Expected, Generation, NextCounter, KeyKept, IdsAgree, Agrees,
         Fresh, GroupIds, Shape, PruneRetained, SelectSendRatchet, BuiltFrom;
    ShapeWhenPruned(s, cfg);
    SharedSecret(a, acfg, PruneRetained(s), cfg, slot);
    PruneKeepsMinted(s);
    EndToEndInRuns(acfg, sent, cfg, es, slot, frame, sendRoom, room);
  }

  lemma ShapeWhenPruned(s: State, cfg: Config)
    requires Shape(s, cfg)
    ensures Shape(PruneRetained(s), cfg)
  {
    UnexpiredIsPruned(s.epochs.retained, s.now);
    hide Shape, Pruned, Unexpired;
    ShapeAfterMedia(s, PruneRetained(s), cfg);
  }

  lemma PruneKeepsMinted(s: State)
    ensures PruneRetained(s).log.minted == s.log.minted
  {
  }

  /** The live ratchet and the sender's ratchet in an epoch of the same group state. */
  lemma SharedSecret(a: State, acfg: Config, s: State, cfg: Config, slot: Slot)
    requires Shape(a, acfg) && Shape(s, cfg) && LiveRatchet(SelectSendRatchet(a)).Some?
    requires Has(s, slot) && BuiltFrom(a, LiveRatchet(SelectSendRatchet(a)).value) == Some(At(s, slot).term)
    requires acfg.self in At(s, slot).senders
    ensures var a0, ref := SelectSendRatchet(a), Ref(At(s, slot).build, acfg.self);
            && LiveRatchet(a0).value in a0.ratchets && ref in s.ratchets
            && s.ratchets[ref].root == a0.ratchets[LiveRatchet(a0).value].root
  {
    assert EpochOk(s, At(s, slot)) && RatchetsOk(s) && RatchetsOk(a);
  }

  lemma SelectKeepsRatchets(s: State)
    ensures SelectSendRatchet(s).ratchets == s.ratchets
  {
  }
}
