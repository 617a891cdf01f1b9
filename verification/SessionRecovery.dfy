/** Recovery discipline: channels, watchdogs, and how often recovery can fire. */
module SessionRecovery {
  import opened Bytes
  import opened SessionState
  import opened SessionMedia
  import opened SessionControl
  import opened SessionActions
  import opened SessionPaths

  predicate Attached(r: Recovery, id: nat) {
    id in r.watchdogs && r.watchdogs[id].chan == r.epochReady
  }

  predicate Recovers(w: Watchdog) { w.Waiting? && !w.forCommit }

  /** At most one watchdog is attached to the current channel, and a recovery watchdog
      only waits on an open channel while attempts are left. */
  ghost predicate Supervised(r: Recovery) {
    && (forall a, b :: Attached(r, a) && Attached(r, b) ==> a == b)
    && (forall id :: Attached(r, id) && Recovers(r.watchdogs[id]) && r.epochReady !in r.closed ==>
          r.attempts < MAX_RECOVERY_ATTEMPTS)
  }

  /** An own commit is being watched on the open channel. */
  ghost predicate CommitWatched(r: Recovery) {
    r.epochReady !in r.closed && exists id :: Attached(r, id) && r.watchdogs[id].Waiting? && r.watchdogs[id].forCommit
  }

  ghost function Watched(r: Recovery): nat { if CommitWatched(r) then 1 else 0 }

  /** Each commit fire is paid for by an own commit, and each recovery fire by an attempt. */
  ghost predicate Paid(s: State, t: State) {
    && t.log.attemptResets >= s.log.attemptResets
    && t.log.commitFires + Watched(t.recovery) + s.log.ownCommits
       <= s.log.commitFires + Watched(s.recovery) + t.log.ownCommits
    && (t.log.attemptResets == s.log.attemptResets ==>
          t.log.recoveryFires + Min(s.recovery.attempts, MAX_RECOVERY_ATTEMPTS)
          <= s.log.recoveryFires + Min(t.recovery.attempts, MAX_RECOVERY_ATTEMPTS))
  }

  lemma PaidTwice(s: State, t: State, u: State)
    requires Paid(s, t) && Paid(t, u)
    ensures Paid(s, u)
  {
    hide Watched;
  }

  /** A new channel starts unwatched. */
  lemma ReplacedUnwatched(s: State)
    requires ChannelsOk(s) && Supervised(s.recovery)
    ensures Supervised(Replaced(s.recovery)) && Watched(Replaced(s.recovery)) == 0
    ensures forall id :: !Attached(Replaced(s.recovery), id)
  {
  }

  /** Arming on a channel nobody watches. */
  lemma ArmedOnce(r: Recovery, w: Watchdog)
    requires (forall id :: !Attached(r, id)) && (forall id :: id in r.watchdogs ==> id < r.nextWatchdog)
    requires w.Waiting? && w.chan == r.epochReady && (w.forCommit || r.attempts < MAX_RECOVERY_ATTEMPTS)
    ensures Supervised(Armed(r, w)) && Watched(Armed(r, w)) <= 1 && (!w.forCommit ==> Watched(Armed(r, w)) == 0)
  {
    forall id | Attached(Armed(r, w), id) ensures id == r.nextWatchdog {
      if id != r.nextWatchdog { assert Attached(r, id); }
    }
  }

  lemma ArmingIsPaid(s: State, cfg: Config, a: Action)
    requires ChannelsOk(s) && Supervised(s.recovery) && Enabled(s, cfg, a)
    requires a.AWatchDropped? || a.AArmRecovery? || a.AArmCommit? || a.ASucceed?
    ensures Supervised(Do(s, cfg, a).recovery) && Paid(s, Do(s, cfg, a))
  {
    ArmEffect(s, cfg, a);
    ReplacedUnwatched(s);
    var r, from := s.recovery, ArmedFrom(s.recovery, a);
    var w := Waiting(from.epochReady, a.AArmCommit?, s.pendingTransitionId, s.now + cfg.recoveryTimeout);
    assert forall id :: !Attached(from, id) by { ArmsUnwatched(s, cfg, a); }
    hide Do, Enabled;
    if s.shutdown || (!a.AArmCommit? && r.attempts >= MAX_RECOVERY_ATTEMPTS) {
    } else {
      ArmedOnce(from, w);
    }
  }

  lemma ArmsUnwatched(s: State, cfg: Config, a: Action)
    requires ChannelsOk(s) && Supervised(s.recovery) && Enabled(s, cfg, a)
    requires a.AWatchDropped? || a.AArmRecovery? || a.AArmCommit? || a.ASucceed?
    ensures forall id :: !Attached(ArmedFrom(s.recovery, a), id)
  {
    if a.ASucceed? {
      assert Attached(s.recovery, a.id);
      forall id ensures !Attached(ArmedFrom(s.recovery, a), id) {
        if Attached(ArmedFrom(s.recovery, a), id) { assert Attached(s.recovery, id); }
      }
    } else if !a.AArmRecovery? {
      ReplacedUnwatched(s);
    }
  }

  lemma ResettingIsPaid(s: State, cfg: Config, a: Action)
    requires ChannelsOk(s) && Supervised(s.recovery) && Enabled(s, cfg, a)
    requires a.AInvalidate? || a.AResetGroup? || a.ADowngrade? || a.AResetReady?
    ensures Supervised(Do(s, cfg, a).recovery) && Paid(s, Do(s, cfg, a))
  {
    ResetEffect(s, cfg, a);
    ReplacedUnwatched(s);
    hide Do, Enabled;
  }

  /** Firing takes the one watchdog on the open channel. */
  lemma FiringIsPaid(s: State, cfg: Config, id: nat)
    requires ChannelsOk(s) && Supervised(s.recovery) && Enabled(s, cfg, AFire(id))
    ensures Supervised(Do(s, cfg, AFire(id)).recovery) && Paid(s, Do(s, cfg, AFire(id)))
  {
    assert Do(s, cfg, AFire(id)) == StartFire(s, id, s.recovery.watchdogs[id]);
    assert Attached(s.recovery, id);
    hide Do;
    var t := StartFire(s, id, s.recovery.watchdogs[id]);
    forall x | Attached(t.recovery, x) ensures x == id {
      assert Attached(s.recovery, x);
    }
    assert !CommitWatched(t.recovery);
    if s.recovery.watchdogs[id].forCommit { assert CommitWatched(s.recovery); }
  }

  lemma PhasingIsPaid(s: State, cfg: Config, a: Action)
    requires ChannelsOk(s) && Supervised(s.recovery) && Enabled(s, cfg, a)
    requires a.AResetAttempts? || a.ARemove? || a.APhase?
    ensures Supervised(Do(s, cfg, a).recovery) && Paid(s, Do(s, cfg, a))
  {
    hide RunCall, NewRatchets, ActivateEpoch, BuildEpoch, SetPending, Join, RestorePreCommit, MakeCommit, PeerCommit,
         NewGroup, ConfirmCommit, InvalidateMls, ResetGroup, Downgrade, GoWatchdog, ResetEpochReady;
    var r, t := s.recovery, Do(s, cfg, a).recovery;
    forall x | Attached(t, x) && (!a.APhase? || x != a.id) ensures Attached(r, x) && t.watchdogs[x] == r.watchdogs[x] {
    }
    if a.APhase? && Attached(t, a.id) {
      assert Attached(r, a.id) || Unwatched(s);
      forall x | Attached(t, x) ensures x == a.id {
        assert Attached(r, x) || x == a.id;
      }
    }
    assert CommitWatched(t) ==> CommitWatched(r);
  }

  lemma ActivatingIsPaid(s: State, cfg: Config)
    requires ChannelsOk(s) && Supervised(s.recovery) && Enabled(s, cfg, AActivate)
    ensures Supervised(Do(s, cfg, AActivate).recovery) && Paid(s, Do(s, cfg, AActivate))
  {
    ActivateEffect(s, cfg, AActivate);
    hide Do, Enabled;
    var r, t := s.recovery, Do(s, cfg, AActivate).recovery;
    assert forall x :: Attached(t, x) <==> Attached(r, x);
  }

  lemma ActionIsPaid(s: State, cfg: Config, a: Action)
    requires ChannelsOk(s) && Supervised(s.recovery) && Enabled(s, cfg, a)
    ensures ChannelsOk(Do(s, cfg, a)) && Supervised(Do(s, cfg, a).recovery) && Paid(s, Do(s, cfg, a))
  {
    ActionKeepsChannels(s, cfg, a);
    hide Do, Enabled, Supervised, ChannelsOk, Watched;
    if !TouchesRecovery(a) {
      OtherActionsKeepRecovery(s, cfg, a);
    } else if a.AInvalidate? || a.AResetGroup? || a.ADowngrade? || a.AResetReady? {
      ResettingIsPaid(s, cfg, a);
    } else if a.AWatchDropped? || a.AArmRecovery? || a.AArmCommit? || a.ASucceed? {
      ArmingIsPaid(s, cfg, a);
    } else if a.AActivate? {
      ActivatingIsPaid(s, cfg);
    } else if a.AFire? {
      FiringIsPaid(s, cfg, a.id);
    } else {
      PhasingIsPaid(s, cfg, a);
    }
  }

  lemma {:induction false} PathIsPaid(s: State, cfg: Config, xs: seq<Action>, t: State)
    requires ChannelsOk(s) && Supervised(s.recovery) && Path(s, cfg, xs, t)
    ensures ChannelsOk(t) && Supervised(t.recovery) && Paid(s, t)
    decreases |xs|
  {
    if xs != [] {
      hide Do, Enabled, Supervised, ChannelsOk, Paid;
      ActionIsPaid(s, cfg, xs[0]);
      PathIsPaid(Do(s, cfg, xs[0]), cfg, xs[1..], t);
      PaidTwice(s, Do(s, cfg, xs[0]), t);
    }
  }

  /** In every run: replaced channels are closed, and at most one watchdog is attached to
      the current one. */
  lemma ChannelDiscipline(cfg: Config, es: seq<Event>)
    ensures var t := Run(Init(), cfg, es); ChannelsOk(t) && Supervised(t.recovery)
  {
    RunLeads(Init(), cfg, es);
    var t := Run(Init(), cfg, es);
    var xs :| Path(Init(), cfg, xs, t);
    assert ChannelsOk(Init()) && Supervised(Init().recovery);
    hide Path, Run, Supervised, ChannelsOk, Paid;
    PathIsPaid(Init(), cfg, xs, t);
  }

  /** In any stretch fs of any run with no activation containing this user and no
      select_protocol_ack, recovery fires at most three times plus the own commits sent in
      the stretch or watched at its start. */
  lemma RecoveryBound(cfg: Config, es: seq<Event>, fs: seq<Event>)
    requires var s := Run(Init(), cfg, es);
             Run(s, cfg, fs).log.attemptResets == s.log.attemptResets
    ensures var s := Run(Init(), cfg, es);
            var t := Run(s, cfg, fs);
            (t.log.recoveryFires + t.log.commitFires) - (s.log.recoveryFires + s.log.commitFires)
            <= MAX_RECOVERY_ATTEMPTS + (t.log.ownCommits - s.log.ownCommits) + Watched(s.recovery)
  {
    ChannelDiscipline(cfg, es);
    var s := Run(Init(), cfg, es);
    RunLeads(s, cfg, fs);
    var t := Run(s, cfg, fs);
    var xs :| Path(s, cfg, xs, t);
    hide Path, Run, Supervised, ChannelsOk, Watched;
    PathIsPaid(s, cfg, xs, t);
  }
}
