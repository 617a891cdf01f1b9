/** No frame is delivered twice, over whole runs. */
module SessionReplays {
  import opened Bytes
  import opened Nonce
  import F = Frame
  import opened SessionState
  import opened SessionMedia
  import opened SessionControl
  import opened SessionActions
  import opened SessionFrames
  import opened SessionShape
  import opened SessionGroups
  import opened SessionPaths
  import opened SessionReceives
  import Ratchet

  lemma SetPendingReceives(s: State, cfg: Config)
    requires HasGroup(s) && Shape(s, cfg) && Receives(s, cfg)
    ensures Receives(SetPending(s), cfg)
  {
    hide SetPending, NewRatchets, F.OpensTo, NonceOf, Generation, Truncated, DistinctBuilds, EpochOk;
    SetPendingFacts(s);
    var t := SetPending(s);
    assert forall r :: r in s.ratchets ==> r.build < s.builds;
    assert Ratchet.Bounded(Ratchet.START, cfg.maxGap);
    assert EpochReceives(t, At(t, Pending)) by {
      forall u | u in TheGroup(s).members ensures SenderReceives(t, Ref(s.builds, u), NEW_SENDER) {
        forall i | 0 <= i < |t.log.deliveries| ensures t.log.deliveries[i].ref != Ref(s.builds, u) {
          assert DeliveryOk(s, cfg, s.log.deliveries[i]);
        }
      }
    }
    forall a | Has(t, a) ensures EpochReceives(t, At(t, a)) || Continues(s, t, a) {
      if a != Pending { assert Has(s, a) && At(s, a) == At(t, a); }
    }
    ReceivesForward(s, t, cfg);
  }

  lemma ActivateReceives(s: State, cfg: Config)
    requires s.epochs.pending.Some? && Receives(s, cfg)
    ensures Receives(ActivateEpoch(s, cfg), cfg)
  {
    ActivateFacts(s, cfg);
    var t := ActivateEpoch(s, cfg);
    BoundedSame(s, t, cfg);
    ForwardSame(s.ratchets);
    hide ActivateEpoch, AddsSender, Unexpired, AllBounded, Forward, EpochReceives, DeliveryOk, NonceOnce;
    var moved := if s.epochs.active.None? then s.epochs.retained
                 else s.epochs.retained + [s.epochs.active.value.(expiresAt := s.now + EPOCH_RETENTION)];
    forall a | Has(t, a) ensures Continues(s, t, a) {
      if a.Retained? {
        UnexpiredMember(moved, s.now, a.index);
        var j :| 0 <= j < |moved| && moved[j] == At(t, a);
        var b := if j < |s.epochs.retained| then Retained(j) else Active;
        assert Has(s, b) && At(s, b).build == At(t, a).build && At(s, b).senders == At(t, a).senders;
      } else {
        assert a == Active && Has(s, Pending) && At(s, Pending) == At(t, a);
      }
    }
    ReceivesForward(s, t, cfg);
  }

  lemma ReducedReceives(s: State, t: State, cfg: Config)
    requires Receives(s, cfg) && Reduced(s, t)
    ensures Receives(t, cfg)
  {
    BoundedSame(s, t, cfg);
    ForwardSame(s.ratchets);
    hide AllBounded, Forward, EpochReceives, DeliveryOk, NonceOnce;
    forall a | Has(t, a) ensures Continues(s, t, a) {
      assert Has(s, a) && At(s, a) == At(t, a);
    }
    ReceivesForward(s, t, cfg);
  }

  lemma PeerCommitReceives(s: State, cfg: Config, c: Commit, rebuilt: bool)
    requires Shape(s, cfg) && Receives(s, cfg) && HasGroup(s)
    ensures Receives(PeerCommit(s, c, rebuilt), cfg)
  {
    var g := Apply(TheGroup(s), c);
    var s1 := Announce(SaveGroup(Mint(s, g.term), s.mls.groupId.value, g), c);
    ShapeAfterDropping(s, s1, cfg);
    hide Shape, Receives, SetPending;
    ReceivesRelogged(s, Taint(s1), cfg);
    ReceivesRelogged(s, s1, cfg);
    SetPendingReceives(s1, cfg);
  }

  lemma LocalCommitReceives(s: State, cfg: Config, c: Commit, rebuilt: bool)
    requires Shape(s, cfg) && Receives(s, cfg) && HasGroup(s)
    ensures Receives(if rebuilt then SetPending(MakeCommit(s, c)) else MakeCommit(s, c), cfg)
  {
    ShapeAfterDropping(s, MakeCommit(s, c), cfg);
    hide Shape, Receives, SetPending;
    ReceivesRelogged(s, MakeCommit(s, c), cfg);
    SetPendingReceives(MakeCommit(s, c), cfg);
  }

  lemma JoinReceives(s: State, cfg: Config, w: Welcome)
    requires Shape(s, cfg) && Receives(s, cfg) && s.mls.client.Some? && w.joinOk
    ensures Receives(Join(s, w).0, cfg)
  {
    var s1 := SaveGroup(Mint(s, w.group.term), w.groupId, w.group);
    var s2 := Adopt(s1, w.group).(mls := s1.mls.(groupId := Some(w.groupId), pendingGroupId := Some(w.groupId)));
    ShapeAfterDropping(s, s2, cfg);
    hide Shape, Receives, SetPending;
    ReceivesRelogged(s, Taint(s1), cfg);
    ReceivesRelogged(s, Taint(s2), cfg);
    ReceivesRelogged(s, s2, cfg);
    SetPendingReceives(s2, cfg);
  }

  lemma ActionKeepsReceives(s: State, cfg: Config, a: Action)
    requires Shape(s, cfg) && Receives(s, cfg) && Enabled(s, cfg, a)
    ensures Receives(Do(s, cfg, a), cfg)
  {
    hide Shape, Receives, RunCall, ActivateEpoch, SetPending, MakeCommit, PeerCommit, Join, WatchDroppedSend,
         WatchRecovery,
         ArmCommitWatchdog, StartFire, Downgrade, InvalidateMls, ResetGroup, RestorePreCommit, NewGroup;
    if Quiet(a) {
      QuietLeavesUnmoved(s, cfg, a);
      ReceivesRelogged(s, Do(s, cfg, a), cfg);
    } else if a.ACall? {
      CallReceives(s, cfg, a.call);
    } else if a.ASoleMember? {
      SetPendingReceives(s, cfg);
    } else if a.ALocalCommit? {
      LocalCommitReceives(s, cfg, a.commit, a.rebuilt);
    } else if a.APeerCommit? {
      PeerCommitReceives(s, cfg, a.commit, a.rebuilt);
    } else if a.AJoin? {
      JoinReceives(s, cfg, a.welcome);
    } else if a.AActivate? {
      ActivateReceives(s, cfg);
    } else {
      ReducingReduces(s, cfg, a);
      ReducedReceives(s, Do(s, cfg, a), cfg);
    }
  }

  lemma {:induction false} PathKeepsReceives(s: State, cfg: Config, xs: seq<Action>, t: State)
    requires Shape(s, cfg) && Receives(s, cfg) && Path(s, cfg, xs, t)
    ensures Receives(t, cfg)
    decreases |xs|
  {
    hide Enabled, Do, Shape, Receives;
    if xs != [] {
      ActionKeepsShape(s, cfg, xs[0]);
      ActionKeepsReceives(s, cfg, xs[0]);
      PathKeepsReceives(Do(s, cfg, xs[0]), cfg, xs[1..], t);
    }
  }

  /** Everything the media theorems need, in every state a run can reach. */
  lemma Reachable(cfg: Config, es: seq<Event>)
    ensures var t := Run(Init(), cfg, es); Sound(t, cfg) && Receives(t, cfg)
  {
    RunLeads(Init(), cfg, es);
    var t := Run(Init(), cfg, es);
    var xs :| Path(Init(), cfg, xs, t);
    InitSound(cfg);
    assert Receives(Init(), cfg);
    assert Shape(Init(), cfg);
    hide Path, Run, Receives, Shape, Sound;
    PathKeepsReceives(Init(), cfg, xs, t);
    PathKeepsSound(Init(), cfg, xs, t);
  }

  /** A packet opens under at most one media key. */
  ghost predicate OpensOnce(cfg: Config, packet: seq<byte>) {
    forall k, l :: F.OpensTo(cfg.aead, k, packet).Some? && F.OpensTo(cfg.aead, l, packet).Some? ==> k == l
  }

  /** Without repeated states, a sender's secret identifies the ratchet object. */
  lemma RootIdentifiesRatchet(s: State, a: Ref, b: Ref)
    requires RatchetsOk(s) && NoDup(s.log.built) && a in s.ratchets && b in s.ratchets
    requires s.ratchets[a].root == s.ratchets[b].root
    ensures a == b
  {
    assert s.log.built[a.build] == s.log.built[b.build];
  }

  lemma DeliveriesDiffer(s: State, cfg: Config, i: nat, j: nat)
    requires Shape(s, cfg) && Fresh(s) && Receives(s, cfg) && NoDup(s.log.minted)
    requires i < j < |s.log.deliveries|
    requires s.log.deliveries[i].user == s.log.deliveries[j].user && OpensOnce(cfg, s.log.deliveries[i].packet)
    ensures s.log.deliveries[i].packet == s.log.deliveries[j].packet ==>
              CyclesApart(s.log.deliveries[i].full, s.log.deliveries[j].full)
  {
    var x, y := s.log.deliveries[i], s.log.deliveries[j];
    if x.packet == y.packet {
      assert DeliveryOk(s, cfg, x) && DeliveryOk(s, cfg, y) && NonceOnce(s.log.deliveries);
      assert RatchetsOk(s) && NoDup(s.log.built);
      hide Receives, Shape, Fresh, F.OpensTo, NonceOf, Generation, Truncated, NoDup, RatchetsOk;
      RootIdentifiesRatchet(s, x.ref, y.ref);
      SealedWithDetermines(x.full, y.full);
    }
  }

  /** Different counter values that agree in generation and truncated nonce: a whole number
      of 2^56 cycles lies between them. */
  predicate CyclesApart(a: uint64, b: uint64) { a != b && a % TWO56 == b % TWO56 }

  lemma CyclesAreLong(a: uint64, b: uint64)
    requires CyclesApart(a, b)
    ensures AbsDiff(a, b) >= TWO56
  {
    assert a == a / TWO56 * TWO56 + a % TWO56 && b == b / TWO56 * TWO56 + b % TWO56;
  }

  /** In every run, if the same wire frame is delivered twice for a user, then its extended
      nonces lie whole 2^56 cycles apart; so no frame is delivered twice within one cycle.
      This takes an MLS library that never repeats a state and a frame that opens under one
      key only. */
  lemma NoDoubleDelivery(cfg: Config, es: seq<Event>, i: nat, j: nat)
    requires var log := Run(Init(), cfg, es).log;
             && NoDup(log.minted) && i < j < |log.deliveries|
             && log.deliveries[i].user == log.deliveries[j].user
             && OpensOnce(cfg, log.deliveries[i].packet)
    ensures var log := Run(Init(), cfg, es).log;
            log.deliveries[i].packet == log.deliveries[j].packet ==>
              && CyclesApart(log.deliveries[i].full, log.deliveries[j].full)
              && AbsDiff(log.deliveries[i].full, log.deliveries[j].full) >= TWO56
  {
    Reachable(cfg, es);
    hide Run, Shape, Fresh, Receives, GroupIds, NoDup, OpensOnce, CyclesApart;
    var log := Run(Init(), cfg, es).log;
    DeliveriesDiffer(Run(Init(), cfg, es), cfg, i, j);
    if log.deliveries[i].packet == log.deliveries[j].packet {
      CyclesAreLong(log.deliveries[i].full, log.deliveries[j].full);
    }
  }
}
