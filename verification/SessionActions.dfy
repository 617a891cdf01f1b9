/** Every step of the session is a sequence of a few elementary actions. An invariant
    is then proved once per action instead of once per handler. */
module SessionActions {
  import opened Bytes
  import opened SessionState
  import opened SessionMedia
  import opened SessionControl

  datatype Action =
    | ACall(call: MediaCall)
    | AEnv(env: Env)
    | AVersion(protocol: nat, sending: nat)
    | ATransport(on: bool)
    | ATransition(transition: nat)
    | AChannel(channel: nat)
    | AExternal(nonEmpty: bool)
    | AKeyPackage
    | AClient
    | ANewGroup
    | ASoleMember
    | ALocalCommit(commit: Commit, rebuilt: bool)
    | APeerCommit(commit: Commit, rebuilt: bool)
    | AJoin(welcome: Welcome)
    | ARestore
    | AConfirm
    | AActivate
    | AEnqueue(batch: Batch)
    | AArrive
    | AProcess(id: nat)
    | ATake
    | ADropQueue
    | AInvalidate
    | AResetGroup
    | AResetAttempts
    | ADowngrade
    | ADropSend
    | ARetainSend
    | AResetReady
    | AWatchDropped
    | AArmRecovery
    | AArmCommit
    | ASucceed(id: nat)
    | ARemove(id: nat)
    | AFire(id: nat)
    | APhase(id: nat, next: Watchdog)

  /** No watchdog is attached to the current channel. */
  predicate Unwatched(s: State) {
    forall id :: id in s.recovery.watchdogs ==> s.recovery.watchdogs[id].chan != s.recovery.epochReady
  }

  predicate Enabled(s: State, cfg: Config, a: Action) {
    match a
    case ANewGroup => s.mls.groupId.None? && s.mls.client.Some?
    case ASoleMember => s.epochs.active.None? && s.epochs.pending.None? && HasGroup(s)
    case ALocalCommit(_, _) => s.epochs.pending.None? && HasGroup(s)
    case APeerCommit(_, _) => s.mls.pendingCommit.None? && HasGroup(s)
    case AJoin(w) => s.mls.pendingCommit.None? && s.mls.client.Some? && w.joinOk
    case ARestore => s.mls.pendingCommit.Some? && s.mls.preCommit.Some?
    case AConfirm => s.epochs.pending.Some?
    case AActivate => s.epochs.pending.Some?
    case AEnqueue(_) => s.epochs.pending.Some?
    case ATake => s.mls.queue != [] && s.epochs.pending.None?
    case ADowngrade => s.version.protocol == 0
    case AArmRecovery => Unwatched(s)
    case ASucceed(id) =>
      && id in s.recovery.watchdogs && s.recovery.watchdogs[id].Finishing?
      && !Released(s, s.recovery.watchdogs[id].chan)
    case AFire(id) =>
      && id in s.recovery.watchdogs && s.recovery.watchdogs[id].Waiting?
      && !Released(s, s.recovery.watchdogs[id].chan)
    case APhase(id, w) =>
      && id in s.recovery.watchdogs && !s.recovery.watchdogs[id].Waiting? && !w.Waiting?
      && (w.chan == s.recovery.watchdogs[id].chan || (w.chan == s.recovery.epochReady && Unwatched(s)))
    case _ => true
  }

  ghost function Do(s: State, cfg: Config, a: Action): State
    requires Enabled(s, cfg, a)
  {
    match a
    case ACall(call) => RunCall(s, cfg, call)
    case AEnv(env) => s.(env := env)
    case AVersion(p, v) => s.(version := s.version.(protocol := p, sending := v))
    case ATransport(on) => SetTransportOnly(s, on)
    case ATransition(t) => s.(pendingTransitionId := t)
    case AChannel(c) => s.(channelId := c)
    case AExternal(nonEmpty) => s.(mls := s.mls.(externalSender := nonEmpty))
    case AKeyPackage => s.(mls := s.mls.(keyPackage := true))
    case AClient => EnsureClient(s, cfg).0
    case ANewGroup => NewGroup(s, cfg)
    case ASoleMember => SetPending(s)
    case ALocalCommit(c, rebuilt) => if rebuilt then SetPending(MakeCommit(s, c)) else MakeCommit(s, c)
    case APeerCommit(c, rebuilt) => PeerCommit(s, c, rebuilt)
    case AJoin(w) => Join(s, w).0
    case ARestore => RestorePreCommit(s).0
    case AConfirm => ConfirmCommit(s)
    case AActivate => ActivateEpoch(s, cfg)
    case AEnqueue(b) => s.(mls := s.mls.(queue := s.mls.queue + [b]))
    case AArrive => s.(log := s.log.(arrived := s.log.arrived + 1))
    case AProcess(id) => s.(log := s.log.(processed := s.log.processed + [id]))
    case ATake => s.(mls := s.mls.(queue := s.mls.queue[1..]))
    case ADropQueue => s.(mls := s.mls.(queue := []))
    case AInvalidate => InvalidateMls(s)
    case AResetGroup => ResetGroup(s)
    case AResetAttempts => ResetAttempts(s)
    case ADowngrade => Downgrade(s)
    case ADropSend => DropSendKeys(s)
    case ARetainSend => StopSending(s, cfg)
    case AResetReady => ResetEpochReady(s)
    case AWatchDropped => WatchDroppedSend(s, cfg)
    case AArmRecovery => WatchRecovery(s, cfg)
    case AArmCommit => ArmCommitWatchdog(s, cfg)
    case ASucceed(id) => WatchRecovery(RemoveWatchdog(s, id), cfg)
    case ARemove(id) => RemoveWatchdog(s, id)
    case AFire(id) => StartFire(s, id, s.recovery.watchdogs[id])
    case APhase(id, w) => SetWatchdog(s, id, w)
  }

  ghost predicate Path(s: State, cfg: Config, xs: seq<Action>, t: State)
    decreases |xs|
  {
    if xs == [] then s == t
    else Enabled(s, cfg, xs[0]) && Path(Do(s, cfg, xs[0]), cfg, xs[1..], t)
  }

  ghost predicate Reaches(s: State, cfg: Config, t: State) {
    exists xs :: Path(s, cfg, xs, t)
  }

  lemma ReachesSame(s: State, cfg: Config)
    ensures Reaches(s, cfg, s)
  {
    assert Path(s, cfg, [], s);
  }

  lemma ReachesBy(s: State, cfg: Config, a: Action)
    requires Enabled(s, cfg, a)
    ensures Reaches(s, cfg, Do(s, cfg, a))
  {
    hide Do, Enabled;
    assert Path(Do(s, cfg, a), cfg, [], Do(s, cfg, a));
    assert [a][1..] == [];
    assert Path(s, cfg, [a], Do(s, cfg, a));
  }

  lemma {:induction false} PathAppend(s: State, cfg: Config, xs: seq<Action>, t: State, ys: seq<Action>, u: State)
    requires Path(s, cfg, xs, t) && Path(t, cfg, ys, u)
    ensures Path(s, cfg, xs + ys, u)
    decreases |xs|
  {
    hide Do, Enabled;
    if xs == [] {
      assert xs + ys == ys;
    } else {
      PathAppend(Do(s, cfg, xs[0]), cfg, xs[1..], t, ys, u);
      assert (xs + ys)[1..] == xs[1..] + ys;
    }
  }

  lemma ReachesThen(s: State, cfg: Config, t: State, u: State)
    requires Reaches(s, cfg, t) && Reaches(t, cfg, u)
    ensures Reaches(s, cfg, u)
  {
    hide Path;
    var xs :| Path(s, cfg, xs, t);
    var ys :| Path(t, cfg, ys, u);
    PathAppend(s, cfg, xs, t, ys, u);
  }

  lemma ThenBy(s: State, cfg: Config, t: State, a: Action)
    requires Reaches(s, cfg, t) && Enabled(t, cfg, a)
    ensures Reaches(s, cfg, Do(t, cfg, a))
  {
    hide Reaches, Do, Enabled;
    ReachesBy(t, cfg, a);
    ReachesThen(s, cfg, t, Do(t, cfg, a));
  }
}
