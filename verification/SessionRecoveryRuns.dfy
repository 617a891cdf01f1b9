/** The recovery bound is attained: for every n, a run in which watchdogs fire three times
    plus once for each of n own commits. So recovery is not bounded by the three attempts. */
module SessionRecoveryRuns {
  import opened Bytes
  import opened SessionState
  import opened SessionMedia
  import opened SessionControl
  import opened SessionActions
  import opened SessionPaths
  import opened SessionRecovery
  import opened SessionExamples
  import opened SessionFrames

  lemma {:induction false} RunAppend(s: State, cfg: Config, es: seq<Event>, fs: seq<Event>)
    ensures Run(s, cfg, es + fs) == Run(Run(s, cfg, es), cfg, fs)
    decreases |fs|
  {
    hide Step;
    if fs == [] {
      assert es + fs == es;
    } else {
      var n := |fs| - 1;
      RunAppend(s, cfg, es, fs[..n]);
      assert (es + fs)[..|es| + n] == es + fs[..n] && (es + fs)[|es| + n] == fs[n];
    }
  }

  /** A session without a group, open for business, with these watchdogs. */
  predicate Open(s: State, watchdogs: map<nat, Watchdog>, next: nat) {
    && s.mls.client.Some? && s.mls.keyPackage && s.mls.externalSender && s.channelId == 1 && !s.shutdown
    && s.mls.groupId.None? && s.mls.pendingCommit.None? && s.mls.preCommit.None? && s.mls.queue == []
    && s.epochs.pending.None?
    && ChannelsOk(s) && s.recovery.watchdogs == watchdogs && s.recovery.nextWatchdog == next
  }

  /** A watchdog waits on the open channel. */
  predicate Waits(s: State, w: Watchdog, deadline: Time) {
    w.Waiting? && w.chan == s.recovery.epochReady && s.recovery.epochReady !in s.recovery.closed &&
      w.deadline <= deadline
  }

  /** The counters of the recovery bound. */
  predicate Counts(s: State, t: State, recovery: nat, commits: nat, own: nat) {
    && t.log.recoveryFires == s.log.recoveryFires + recovery && t.log.commitFires == s.log.commitFires + commits
    && t.log.ownCommits == s.log.ownCommits + own && t.log.attemptResets == s.log.attemptResets
  }

  /** Long enough for any watchdog to time out. */
  function Patience(cfg: Config): nat { if cfg.recoveryTimeout > 0 then cfg.recoveryTimeout else 0 }

  // ---- One watchdog, from the timeout to its successor ----

  /** What the fired watchdog leaves: no group, a new channel, and itself about to retry. */
  predicate Fired(s: State, t: State, id: nat, forCommit: bool) {
    && t.recovery.attempts == s.recovery.attempts + 1 && ChannelsOk(t)
    && t.recovery.epochReady == s.recovery.epochReady + 1 && t.recovery.epochReady !in t.recovery.closed
    && t.recovery.watchdogs == s.recovery.watchdogs[id := Retrying(t.recovery.epochReady, RETRY_MAX_ATTEMPTS)]
    && t.recovery.nextWatchdog == s.recovery.nextWatchdog
    && t.mls == Mls(Some(map[]), None, None, s.mls.externalSender, false, [], None, None)
    && t.epochs.pending.None? && t.channelId == s.channelId && t.shutdown == s.shutdown && t.now == s.now
    && Counts(s, t, if forCommit then 0 else 1, if forCommit then 1 else 0, 0)
  }

  lemma FireStep(s: State, cfg: Config, id: nat)
    requires cfg.validUser && !s.shutdown && ChannelsOk(s) && id in s.recovery.watchdogs
    requires Waits(s, s.recovery.watchdogs[id], s.now)
    requires s.recovery.watchdogs[id].forCommit ==> s.epochs.pending.Some?
    ensures Fired(s, Step(s, cfg, WatchdogRuns(id, OK)), id, s.recovery.watchdogs[id].forCommit)
  {
  }

  lemma RetryStep(s: State, cfg: Config, id: nat)
    requires !s.shutdown && id in s.recovery.watchdogs && s.epochs.pending.None? && ChannelsOk(s)
    requires s.recovery.watchdogs[id] == Retrying(s.recovery.epochReady, RETRY_MAX_ATTEMPTS)
    requires s.recovery.epochReady !in s.recovery.closed && !s.mls.keyPackage
    ensures Step(s, cfg, WatchdogRuns(id, OK))
            == s.(env := OK, mls := s.mls.(keyPackage := true),
                  recovery := s.recovery.(watchdogs := s.recovery.watchdogs[id := Finishing(s.recovery.epochReady)]))
  {
  }

  lemma FinishStep(s: State, cfg: Config, id: nat)
    requires !s.shutdown && id in s.recovery.watchdogs
    requires s.recovery.watchdogs[id] == Finishing(s.recovery.epochReady) && s.recovery.epochReady !in s.recovery.closed
    ensures Step(s, cfg, WatchdogRuns(id, OK)) == WatchRecovery(RemoveWatchdog(s.(env := OK), id), cfg)
  {
  }

  function Thrice(id: nat): seq<Event> { [WatchdogRuns(id, OK)] + [WatchdogRuns(id, OK)] + [WatchdogRuns(id, OK)] }

  lemma RunThree(s: State, cfg: Config, e: Event)
    ensures Run(s, cfg, [e] + [e] + [e]) == Step(Step(Step(s, cfg, e), cfg, e), cfg, e)
  {
    hide Step;
    RunOneMore(s, cfg, [], e);
    RunOneMore(s, cfg, [e], e);
    RunOneMore(s, cfg, [e] + [e], e);
    assert [] + [e] == [e];
  }

  /** Fire, retry, finish: afterwards the session is open again, and the next recovery
      watchdog is armed if attempts are left. */
  lemma WatchdogRunsOut(s: State, cfg: Config, id: nat)
    requires cfg.validUser && !s.shutdown && ChannelsOk(s) && s.mls.externalSender && s.channelId == 1
    requires id in s.recovery.watchdogs && s.recovery.watchdogs.Keys == {id}
    requires Waits(s, s.recovery.watchdogs[id], s.now)
    requires s.recovery.watchdogs[id].forCommit ==> s.epochs.pending.Some?
    ensures var t := Run(s, cfg, Thrice(id));
            var n, w := s.recovery.nextWatchdog,
                        Waiting(t.recovery.epochReady, false, t.pendingTransitionId, t.now + cfg.recoveryTimeout);
            && t.recovery.attempts == s.recovery.attempts + 1 && t.recovery.epochReady !in t.recovery.closed
            && (if t.recovery.attempts < MAX_RECOVERY_ATTEMPTS then Open(t, map[n := w], n + 1) else Open(t, map[], n))
            && Counts(s, t, if s.recovery.watchdogs[id].forCommit then 0 else 1,
                            if s.recovery.watchdogs[id].forCommit then 1 else 0, 0)
  {
    hide Step, Run;
    RunThree(s, cfg, WatchdogRuns(id, OK));
    FireStep(s, cfg, id);
    var s1 := Step(s, cfg, WatchdogRuns(id, OK));
    RetryStep(s1, cfg, id);
    var s2 := Step(s1, cfg, WatchdogRuns(id, OK));
    FinishStep(s2, cfg, id);
    assert s2.recovery.watchdogs - {id} == map[];
  }

  lemma TickStep(s: State, cfg: Config, elapsed: nat)
    ensures Step(s, cfg, Media(Tick(elapsed))) == s.(now := s.now + elapsed)
  {
  }

  // ---- Spending the attempts ----

  /** A commit message that cannot be processed starts the recovery. */
  const BROKEN: Event := PrepareCommit(0, None, OK)

  lemma BrokenStep(s: State, cfg: Config)
    requires Founded(s, cfg) && cfg.validUser && !s.shutdown && ChannelsOk(s)
    requires s.recovery.attempts == 0 && s.recovery.watchdogs == map[] && s.recovery.nextWatchdog == 0
    ensures var t := Step(s, cfg, BROKEN);
            var w := Waiting(t.recovery.epochReady, false, t.pendingTransitionId, t.now + cfg.recoveryTimeout);
            && Open(t, map[0 := w], 1) && t.recovery.epochReady !in t.recovery.closed && t.recovery.attempts == 0
            && Counts(s, t, 0, 0, 0)
  {
    hide NewRatchets;
  }

  function Round(cfg: Config, id: nat): seq<Event> { [Media(Tick(Patience(cfg)))] + Thrice(id) }

  /** Waiting out a recovery watchdog costs one attempt. */
  lemma RoundRun(s: State, cfg: Config, id: nat)
    requires cfg.validUser && s.recovery.attempts < MAX_RECOVERY_ATTEMPTS && s.recovery.epochReady !in s.recovery.closed
    requires Open(s, map[id := Waiting(s.recovery.epochReady, false, s.pendingTransitionId,
             s.now + cfg.recoveryTimeout)], id + 1)
    ensures var t := Run(s, cfg, Round(cfg, id));
            var w := Waiting(t.recovery.epochReady, false, t.pendingTransitionId, t.now + cfg.recoveryTimeout);
            && t.recovery.attempts == s.recovery.attempts + 1 && t.recovery.epochReady !in t.recovery.closed
            && (if t.recovery.attempts < MAX_RECOVERY_ATTEMPTS then Open(t, map[id + 1 := w], id + 2) else Open(t,
               map[], id + 1))
            && Counts(s, t, 1, 0, 0)
  {
    hide Step, Run, Thrice;
    var tick := Media(Tick(Patience(cfg)));
    RunAppend(s, cfg, [tick], Thrice(id));
    RunOne(s, cfg, tick);
    TickStep(s, cfg, Patience(cfg));
    var u := s.(now := s.now + Patience(cfg));
    WatchdogRunsOut(u, cfg, id);
  }

  lemma RunNothing(s: State, cfg: Config)
    ensures Run(s, cfg, []) == s
  {
  }

  lemma RunOne(s: State, cfg: Config, e: Event)
    ensures Run(s, cfg, [e]) == Step(s, cfg, e)
  {
    hide Step;
    RunOneMore(s, cfg, [], e);
    assert [] + [e] == [e];
  }

  function Spending(cfg: Config): seq<Event> { [BROKEN] + Round(cfg, 0) + Round(cfg, 1) + Round(cfg, 2) }

  lemma SpendingRun(s: State, cfg: Config)
    requires Founded(s, cfg) && cfg.validUser && !s.shutdown && ChannelsOk(s)
    requires s.recovery.attempts == 0 && s.recovery.watchdogs == map[] && s.recovery.nextWatchdog == 0
    ensures var t := Run(s, cfg, Spending(cfg));
            Open(t, map[], 3) && t.recovery.attempts == MAX_RECOVERY_ATTEMPTS && Counts(s, t, 3, 0, 0)
  {
    hide Step, Run, Round, Open, Founded;
    BrokenStep(s, cfg);
    RunOne(s, cfg, BROKEN);
    RunAppend(s, cfg, [BROKEN], Round(cfg, 0));
    RunAppend(s, cfg, [BROKEN] + Round(cfg, 0), Round(cfg, 1));
    RunAppend(s, cfg, [BROKEN] + Round(cfg, 0) + Round(cfg, 1), Round(cfg, 2));
    var s0 := Run(s, cfg, [BROKEN]);
    RoundRun(s0, cfg, 0);
    var s1 := Run(s0, cfg, Round(cfg, 0));
    RoundRun(s1, cfg, 1);
    var s2 := Run(s1, cfg, Round(cfg, 1));
    RoundRun(s2, cfg, 2);
  }

  // ---- Own commits that are never echoed ----

  function Cycle(cfg: Config, id: nat): seq<Event> {
    [ExternalSender(true, OK)] + [Proposals(Proposal(true), OK)] + [Media(Tick(Patience(cfg)))] + Thrice(id)
  }

  lemma FoundAgain(s: State, cfg: Config, id: nat)
    requires Open(s, map[], id)
    ensures var t := Step(s, cfg, ExternalSender(true, OK));
            && HasGroup(t) && t.epochs.pending.None? && t.mls.externalSender && t.channelId == 1 && !t.shutdown
            && t.recovery == s.recovery && ChannelsOk(t) && Counts(s, t, 0, 0, 0)
  {
  }

  /** The commit watchdog is armed, however many attempts were spent. */
  lemma CommitAgain(s: State, cfg: Config, id: nat)
    requires cfg.hasCallbacks && HasGroup(s) && s.epochs.pending.None? && s.mls.externalSender && s.channelId == 1
    requires !s.shutdown && ChannelsOk(s) && s.recovery.watchdogs == map[] && s.recovery.nextWatchdog == id
    ensures var t := Step(s, cfg, Proposals(Proposal(true), OK));
            var w := Waiting(t.recovery.epochReady, true, t.pendingTransitionId, t.now + cfg.recoveryTimeout);
            && t.epochs.pending.Some? && t.mls.externalSender && t.channelId == 1 && !t.shutdown
            && ChannelsOk(t) && t.recovery.watchdogs == map[id := w] && t.recovery.nextWatchdog == id + 1
            && t.recovery.epochReady !in t.recovery.closed && t.recovery.attempts == s.recovery.attempts
            && Counts(s, t, 0, 0, 1)
  {
    hide ProcessAndCommit;
    var s1 := s.(env := OK, log := s.log.(arrived := s.log.arrived + 1));
    BatchAgain(s1, cfg, Proposal(true).(id := s.log.arrived), id);
  }

  lemma BatchAgain(s: State, cfg: Config, b: Batch, id: nat)
    requires b.acceptedAny && b.loadOk && b.commitOk && b.rebuildOk && b.welcomeOk && s.env.replies == []
    requires cfg.hasCallbacks && HasGroup(s) && s.epochs.pending.None? && s.mls.externalSender && s.channelId == 1
    requires !s.shutdown && ChannelsOk(s) && s.recovery.watchdogs == map[] && s.recovery.nextWatchdog == id
    ensures var t := ProcessAndCommit(s, cfg, b);
            var w := Waiting(t.recovery.epochReady, true, t.pendingTransitionId, t.now + cfg.recoveryTimeout);
            && t.epochs.pending.Some? && t.mls.externalSender && t.channelId == 1 && !t.shutdown
            && ChannelsOk(t) && t.recovery.watchdogs == map[id := w] && t.recovery.nextWatchdog == id + 1
            && t.recovery.epochReady !in t.recovery.closed && t.recovery.attempts == s.recovery.attempts
            && Counts(s, t, 0, 0, 1)
  {
    hide MakeCommit, SetPending, ProcessAndCommit, BuildEpoch, NewRatchets, ArmCommitWatchdog, ChannelsOk;
    OwnCommitFacts(Taken(s, b), b.commit);
    BatchCommits(s, cfg, b);
    var m := MakeCommit(Taken(s, b), b.commit);
    SetPendingFacts(m);
    SetPendingLeaves(m);
    assert ChannelsOk(SetPending(m)) by { SameChannels(s, SetPending(m)); }
    ArmAgain(SetPending(m), cfg, id);
  }

  lemma SameChannels(s: State, t: State)
    requires ChannelsOk(s) && t.recovery == s.recovery
    ensures ChannelsOk(t)
  {
  }

  lemma ArmAgain(s: State, cfg: Config, id: nat)
    requires !s.shutdown && ChannelsOk(s) && s.recovery.watchdogs == map[] && s.recovery.nextWatchdog == id
    ensures var t := ArmCommitWatchdog(s, cfg);
            var w := Waiting(t.recovery.epochReady, true, t.pendingTransitionId, t.now + cfg.recoveryTimeout);
            && t == s.(recovery := t.recovery, log := t.log) && ChannelsOk(t)
            && t.recovery.watchdogs == map[id := w] && t.recovery.nextWatchdog == id + 1
            && t.recovery.epochReady !in t.recovery.closed && t.recovery.attempts == s.recovery.attempts
            && Counts(s, t, 0, 0, 1)
  {
  }

  lemma CycleRun(s: State, cfg: Config, id: nat)
    requires cfg.validUser && cfg.hasCallbacks && Open(s, map[], id) && s.recovery.attempts >= MAX_RECOVERY_ATTEMPTS
    ensures var t := Run(s, cfg, Cycle(cfg, id));
            Open(t, map[], id + 1) && t.recovery.attempts >= MAX_RECOVERY_ATTEMPTS && Counts(s, t, 0, 1, 1)
  {
    hide Step, Run, Thrice, Proposal;
    var e1, e2, e3 := ExternalSender(true, OK), Proposals(Proposal(true), OK), Media(Tick(Patience(cfg)));
    FoundAgain(s, cfg, id);
    var s1 := Step(s, cfg, e1);
    CommitAgain(s1, cfg, id);
    var s2 := Step(s1, cfg, e2);
    TickStep(s2, cfg, Patience(cfg));
    RunOne(s, cfg, e1);
    RunOneMore(s, cfg, [e1], e2);
    RunOneMore(s, cfg, [e1] + [e2], e3);
    RunAppend(s, cfg, [e1] + [e2] + [e3], Thrice(id));
    WatchdogRunsOut(s2.(now := s2.now + Patience(cfg)), cfg, id);
  }

  function Cycles(cfg: Config, id: nat, n: nat): seq<Event> {
    if n == 0 then [] else Cycles(cfg, id, n - 1) + Cycle(cfg, id + n - 1)
  }

  lemma {:induction false} CyclesRun(s: State, cfg: Config, id: nat, n: nat)
    requires cfg.validUser && cfg.hasCallbacks && Open(s, map[], id) && s.recovery.attempts >= MAX_RECOVERY_ATTEMPTS
    ensures var t := Run(s, cfg, Cycles(cfg, id, n));
            Open(t, map[], id + n) && t.recovery.attempts >= MAX_RECOVERY_ATTEMPTS && Counts(s, t, 0, n, n)
  {
    hide Run, Open, Cycle;
    if n == 0 {
      RunNothing(s, cfg);
    } else {
      CyclesRun(s, cfg, id, n - 1);
      RunAppend(s, cfg, Cycles(cfg, id, n - 1), Cycle(cfg, id + n - 1));
      CycleRun(Run(s, cfg, Cycles(cfg, id, n - 1)), cfg, id + n - 1);
    }
  }

  /** For every n there is a stretch without an activation or select_protocol_ack in which
      watchdogs fire exactly three plus n times, n being the own commits sent in it. */
  lemma BoundAttained(cfg: Config, n: nat)
    requires cfg.validUser && cfg.hasCallbacks
    ensures var s := Run(Init(), cfg, Founding());
            var t := Run(s, cfg, Spending(cfg) + Cycles(cfg, 3, n));
            && t.log.attemptResets == s.log.attemptResets && Watched(s.recovery) == 0
            && t.log.ownCommits == s.log.ownCommits + n
            && t.log.recoveryFires + t.log.commitFires
               == s.log.recoveryFires + s.log.commitFires + MAX_RECOVERY_ATTEMPTS + n
  {
    hide Run, Spending, Cycles, Open, Founded, Init;
    FoundingFounds(cfg);
    var s := Run(Init(), cfg, Founding());
    FoundingIsQuiet(cfg);
    RunAppend(s, cfg, Spending(cfg), Cycles(cfg, 3, n));
    SpendingRun(s, cfg);
    CyclesRun(Run(s, cfg, Spending(cfg)), cfg, 3, n);
  }

  lemma AckIsQuiet(s: State, cfg: Config)
    requires cfg.validUser && s == Init().(env := OK, channelId := 1)
    ensures var t := Step(s, cfg, SelectProtocolAck(1, OK));
            t.recovery == Recovery(1, {0}, 0, map[], 0) && !t.shutdown && t.mls.keyPackage && t.mls.client.Some?
  {
  }

  lemma FoundingLeavesRecovery(s: State, cfg: Config)
    requires s.mls.keyPackage && s.mls.client.Some?
    ensures var t := Step(s, cfg, ExternalSender(true, OK)); t.recovery == s.recovery && t.shutdown == s.shutdown
  {
  }

  lemma FoundingIsQuiet(cfg: Config)
    requires cfg.validUser
    ensures var s := Run(Init(), cfg, Founding());
            && !s.shutdown && ChannelsOk(s) && s.recovery.attempts == 0
            && s.recovery.watchdogs == map[] && s.recovery.nextWatchdog == 0
  {
    hide Step, Run;
    FoundingSteps(cfg);
    AckIsQuiet(NAMED, cfg);
    FoundingLeavesRecovery(Step(NAMED, cfg, SelectProtocolAck(1, OK)), cfg);
  }
}
