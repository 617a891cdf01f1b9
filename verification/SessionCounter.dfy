/** Which counter value every frame goes out with, and so which frames are the first of a
    fresh count. */
module SessionCounter {
  import opened Bytes
  import opened Nonce
  import F = Frame
  import opened SessionState
  import opened SessionMedia
  import opened SessionControl
  import opened SessionActions
  import opened SessionFrames
  import opened SessionShape
  import opened SessionPaths
  import SessionSends

  /** The latest restart that the n-th use of the counter follows; the count starts at 0. */
  function LastRestart(restarts: set<nat>, n: nat): (r: nat)
    ensures r <= n && (r == n <==> n == 0 || n in restarts)
  {
    if n == 0 || n in restarts then n else LastRestart(restarts, n - 1)
  }

  lemma {:induction false} LaterRestart(restarts: set<nat>, m: nat, n: nat)
    requires n < m
    ensures LastRestart(restarts + {m}, n) == LastRestart(restarts, n)
  {
    if n > 0 && n !in restarts { LaterRestart(restarts, m, n - 1); }
  }

  /** The counter says how many uses there were since the last restart, and so does the
      counter value of every use. */
  predicate Counted(send: Sending, log: Log) {
    && send.counter == (|log.sends| - LastRestart(log.restarts, |log.sends|)) % TWO64
    && forall i :: 0 <= i < |log.sends| ==> log.sends[i].full == (i + 1 - LastRestart(log.restarts, i)) % TWO64
  }

  lemma CountedSame(s: State, t: State)
    requires Counted(s.send, s.log)
    requires t.send.counter == s.send.counter && t.log.sends == s.log.sends && t.log.restarts == s.log.restarts
    ensures Counted(t.send, t.log)
  {
  }

  lemma CountedAfterRestart(s: State, t: State)
    requires Counted(s.send, s.log) && t.send.counter == 0 && t.log.sends == s.log.sends
    requires t.log.restarts == s.log.restarts + {|s.log.sends|}
    ensures Counted(t.send, t.log)
  {
    forall i | 0 <= i < |s.log.sends| ensures LastRestart(t.log.restarts, i) == LastRestart(s.log.restarts, i) {
      LaterRestart(s.log.restarts, |s.log.sends|, i);
    }
  }

  lemma NextModulo(k: nat)
    ensures (k % TWO64 + 1) % TWO64 == (k + 1) % TWO64
  {
  }

  lemma CountedAfterUse(s: State, t: State, x: Send)
    requires Counted(s.send, s.log) && t.log.sends == s.log.sends + [x] && t.log.restarts == s.log.restarts
    requires t.send.counter == x.full == NextCounter(s)
    requires |s.log.sends| + 1 !in s.log.restarts
    ensures Counted(t.send, t.log)
  {
    var n := |s.log.sends|;
    NextModulo(n - LastRestart(s.log.restarts, n));
    assert LastRestart(t.log.restarts, n + 1) == LastRestart(s.log.restarts, n);
  }

  /** No restart lies ahead of the uses. */
  predicate Past(log: Log) { forall m :: m in log.restarts ==> m <= |log.sends| }

  lemma EncryptCounted(s: State, cfg: Config, frame: seq<byte>, room: nat)
    requires Counted(s.send, s.log) && Past(s.log)
    ensures var t := Encrypt(s, cfg, frame, room).0; Counted(t.send, t.log) && Past(t.log)
  {
    var s0 := SelectSendRatchet(s);
    if s.send.retained.Some? && s.now >= s.send.retainedExpires {
      CountedAfterRestart(s, s0);
    }
    hide SelectSendRatchet, EncryptWith, Counted;
    var live := LiveRatchet(s0);
    if live.Some? && live.value in s0.ratchets {
      UseFacts(s0, cfg, live.value, frame, room);
      var t := EncryptWith(s0, cfg, live.value, frame, room).0;
      CountedAfterUse(s0, t, t.log.sends[|s0.log.sends|]);
    }
  }

  lemma UseFacts(s: State, cfg: Config, ref: Ref, frame: seq<byte>, room: nat)
    requires ref in s.ratchets
    ensures var t := EncryptWith(s, cfg, ref, frame, room).0;
            && t.send.counter == NextCounter(s) && t.log.restarts == s.log.restarts
            && |t.log.sends| == |s.log.sends| + 1 && t.log.sends == s.log.sends + [t.log.sends[|s.log.sends|]]
            && t.log.sends[|s.log.sends|].ref == ref && t.log.sends[|s.log.sends|].full == NextCounter(s)
  {
    hide NextCounter, KeyUp, F.EncryptFrame, Generation, Truncated;
    var s1 := s.(send := s.send.(counter := NextCounter(s)));
    SessionSends.KeyUpFacts(s1, cfg, ref, Generation(NextCounter(s)));
    var (s2, c) := KeyUp(s1, cfg, ref, Generation(NextCounter(s)));
    assert EncryptWith(s, cfg, ref, frame, room).0 == LogSend(s2, Send(ref, s.ratchets[ref].root, NextCounter(s), c));
  }

  lemma CallCounted(s: State, cfg: Config, call: MediaCall)
    requires Counted(s.send, s.log) && Past(s.log)
    ensures var t := RunCall(s, cfg, call); Counted(t.send, t.log) && Past(t.log)
  {
    hide Encrypt, Decrypt, Counted;
    if call.EncryptCall? {
      EncryptCounted(s, cfg, call.frame, call.room);
    } else {
      if call.DecryptCall? { SessionSends.DecryptKeepsSend(s, cfg, call.user, call.packet, call.room); }
      CountedSame(s, RunCall(s, cfg, call));
    }
  }

  lemma BuildingUnsent(s: State, cfg: Config, a: Action)
    requires Enabled(s, cfg, a) && (a.ASoleMember? || a.ALocalCommit? || a.APeerCommit? || a.AJoin?)
    ensures var t := Do(s, cfg, a); t.send == s.send && t.log.sends == s.log.sends && t.log.restarts == s.log.restarts
  {
    if a.ASoleMember? {
      SetPendingFacts(s);
    } else if a.ALocalCommit? {
      SetPendingFacts(MakeCommit(s, a.commit));
    } else if a.APeerCommit? {
      var g := Apply(TheGroup(s), a.commit);
      SetPendingFacts(Announce(SaveGroup(Mint(s, g.term), s.mls.groupId.value, g), a.commit));
    } else {
      var w := a.welcome;
      var s1 := SaveGroup(Mint(s, w.group.term), w.groupId, w.group);
      SetPendingFacts(Adopt(s1, w.group).(mls := s1.mls.(groupId := Some(w.groupId),
        pendingGroupId := Some(w.groupId))));
    }
    hide RunCall, ActivateEpoch, NewRatchets, BuildEpoch, SetPending;
  }

  lemma ActionCounted(s: State, cfg: Config, a: Action)
    requires Counted(s.send, s.log) && Past(s.log) && Enabled(s, cfg, a)
    ensures var t := Do(s, cfg, a); Counted(t.send, t.log) && Past(t.log)
  {
    hide Counted, RunCall, ActivateEpoch, SetPending, MakeCommit, PeerCommit, Join, WatchDroppedSend, WatchRecovery,
         ArmCommitWatchdog, StartFire, Downgrade, InvalidateMls, ResetGroup, RestorePreCommit, NewGroup;
    if Quiet(a) {
      QuietLeavesUnmoved(s, cfg, a);
      CountedSame(s, Do(s, cfg, a));
    } else if a.ACall? {
      CallCounted(s, cfg, a.call);
    } else if a.AActivate? {
      ActivateFacts(s, cfg);
      var t := ActivateEpoch(s, cfg);
      if s.send.current.Some? && AddsSender(s.epochs.active, s.epochs.pending.value) {
        CountedAfterRestart(s, t);
      } else {
        CountedSame(s, t);
      }
    } else if a.ASoleMember? || a.ALocalCommit? || a.APeerCommit? || a.AJoin? {
      BuildingUnsent(s, cfg, a);
      CountedSame(s, Do(s, cfg, a));
    } else {
      ReducingReduces(s, cfg, a);
      CountedSame(s, Do(s, cfg, a));
    }
  }

  lemma {:induction false} PathCounted(s: State, cfg: Config, xs: seq<Action>, t: State)
    requires Counted(s.send, s.log) && Past(s.log) && Path(s, cfg, xs, t)
    ensures Counted(t.send, t.log) && Past(t.log)
    decreases |xs|
  {
    hide Enabled, Do, Counted, Past;
    if xs != [] {
      ActionCounted(s, cfg, xs[0]);
      PathCounted(Do(s, cfg, xs[0]), cfg, xs[1..], t);
    }
  }

  // ---- Which actions reset the counter ----

  /** The two guards under which the counter goes back to 0: an Encrypt finds its retained
      ratchet expired, or an activation that adds a sender has a current ratchet to leave. */
  predicate Resets(s: State, cfg: Config, a: Action) {
    || (a.ACall? && a.call.EncryptCall? && s.send.retained.Some? && s.now >= s.send.retainedExpires)
    || (a.AActivate? && s.send.current.Some? && s.epochs.pending.Some?
        && Adds(s.epochs.active, s.epochs.pending.value))
  }

  lemma EncryptRestarts(s: State, cfg: Config, frame: seq<byte>, room: nat)
    ensures Encrypt(s, cfg, frame, room).0.log.restarts
            == s.log.restarts + if Resets(s, cfg, ACall(EncryptCall(frame, room))) then {|s.log.sends|} else {}
  {
    var s0 := SelectSendRatchet(s);
    hide EncryptWith;
    if LiveRatchet(s0).Some? && LiveRatchet(s0).value in s0.ratchets {
      UseFacts(s0, cfg, LiveRatchet(s0).value, frame, room);
    }
  }

  lemma CallRestarts(s: State, cfg: Config, call: MediaCall)
    ensures RunCall(s, cfg, call).log.restarts
            == s.log.restarts + if Resets(s, cfg, ACall(call)) then {|s.log.sends|} else {}
  {
    hide Encrypt, Decrypt;
    if call.EncryptCall? {
      EncryptRestarts(s, cfg, call.frame, call.room);
    } else if call.DecryptCall? {
      SessionSends.DecryptKeepsSend(s, cfg, call.user, call.packet, call.room);
    }
  }

  /** Every action: a restart is recorded exactly under the guards. */
  lemma ActionRestarts(s: State, cfg: Config, a: Action)
    requires Enabled(s, cfg, a)
    ensures Do(s, cfg, a).log.restarts == s.log.restarts + if Resets(s, cfg, a) then {|s.log.sends|} else {}
  {
    hide RunCall, ActivateEpoch, SetPending, MakeCommit, PeerCommit, Join, WatchDroppedSend, WatchRecovery,
         ArmCommitWatchdog, StartFire, Downgrade, InvalidateMls, ResetGroup, RestorePreCommit, NewGroup, AddsSender,
         Adds;
    if Quiet(a) {
      QuietLeavesUnmoved(s, cfg, a);
    } else if a.ACall? {
      CallRestarts(s, cfg, a.call);
    } else if a.AActivate? {
      ActivateFacts(s, cfg);
      AddsIsAddsSender(s.epochs.active, s.epochs.pending.value);
    } else if a.ASoleMember? || a.ALocalCommit? || a.APeerCommit? || a.AJoin? {
      BuildingUnsent(s, cfg, a);
    } else {
      ReducingReduces(s, cfg, a);
    }
  }

  /** The state before action k of a path. */
  ghost function StateBefore(s: State, cfg: Config, xs: seq<Action>, k: nat): State
    decreases k
  {
    if k == 0 || xs == [] || !Enabled(s, cfg, xs[0]) then s else StateBefore(Do(s, cfg, xs[0]), cfg, xs[1..], k - 1)
  }

  /** Some action of the path resets the counter between use i - 1 and use i. */
  ghost predicate ResetBeforeUse(s: State, cfg: Config, xs: seq<Action>, i: nat) {
    exists k :: 0 <= k < |xs| && Resets(StateBefore(s, cfg, xs, k), cfg, xs[k]) &&
      |StateBefore(s, cfg, xs, k).log.sends| == i
  }

  lemma ResetFirst(s: State, cfg: Config, xs: seq<Action>, i: nat)
    requires xs != [] && Enabled(s, cfg, xs[0])
    ensures ResetBeforeUse(s, cfg, xs, i) <==>
              (Resets(s, cfg, xs[0]) && |s.log.sends| == i) || ResetBeforeUse(Do(s, cfg, xs[0]), cfg, xs[1..], i)
  {
    hide Resets, Do, Enabled;
    var t := Do(s, cfg, xs[0]);
    assert StateBefore(s, cfg, xs, 0) == s;
    if ResetBeforeUse(s, cfg, xs, i) {
      var k :| 0 <= k < |xs| && Resets(StateBefore(s, cfg, xs, k), cfg, xs[k]) &&
        |StateBefore(s, cfg, xs, k).log.sends| == i;
      if k > 0 { assert xs[k] == xs[1..][k - 1] && StateBefore(s, cfg, xs, k) == StateBefore(t, cfg, xs[1..], k - 1); }
    }
    if ResetBeforeUse(t, cfg, xs[1..], i) {
      var k :| 0 <= k < |xs[1..]| && Resets(StateBefore(t, cfg, xs[1..], k), cfg, xs[1..][k]) &&
        |StateBefore(t, cfg, xs[1..], k).log.sends| == i;
      assert xs[k + 1] == xs[1..][k] && StateBefore(s, cfg, xs, k + 1) == StateBefore(t, cfg, xs[1..], k);
    }
  }

  /** Along a path the restarts are exactly the resets. */
  lemma {:induction false} PathRestarts(s: State, cfg: Config, xs: seq<Action>, t: State, i: nat)
    requires Path(s, cfg, xs, t)
    ensures i in t.log.restarts <==> i in s.log.restarts || ResetBeforeUse(s, cfg, xs, i)
    decreases |xs|
  {
    hide Enabled, Do, Resets;
    if xs != [] {
      ActionRestarts(s, cfg, xs[0]);
      ResetFirst(s, cfg, xs, i);
      PathRestarts(Do(s, cfg, xs[0]), cfg, xs[1..], t, i);
    }
  }

  lemma OneExactly(send: Sending, log: Log, i: nat)
    requires Counted(send, log) && i < |log.sends| < TWO64
    ensures log.sends[i].full == 1 <==> i == 0 || i in log.restarts
  {
    hide LastRestart;
    var k := i + 1 - LastRestart(log.restarts, i);
    assert 1 <= k < TWO64 && k % TWO64 == k;
  }

  /** Every run is a path of elementary actions, and along any such path: the i-th use of
      the counter, and so the first frame of a ratchet that starts there, has the value 1
      exactly when it is the first of all, or when between it and the use before an Encrypt
      found its retained ratchet expired or an activation that added a sender had a current
      ratchet to leave. */
  lemma FirstNonceExactly(cfg: Config, es: seq<Event>, i: nat)
    requires i < |Run(Init(), cfg, es).log.sends| < TWO64
    ensures Reaches(Init(), cfg, Run(Init(), cfg, es))
    ensures forall xs :: Path(Init(), cfg, xs, Run(Init(), cfg, es)) ==>
              (Run(Init(), cfg, es).log.sends[i].full == 1 <==> i == 0 || ResetBeforeUse(Init(), cfg, xs, i))
  {
    RunLeads(Init(), cfg, es);
    var t := Run(Init(), cfg, es);
    assert Counted(Init().send, Init().log) && Past(Init().log) && Init().log.restarts == {};
    hide Path, Run, Counted, ResetBeforeUse;
    forall xs | Path(Init(), cfg, xs, t)
      ensures t.log.sends[i].full == 1 <==> i == 0 || ResetBeforeUse(Init(), cfg, xs, i)
    {
      PathCounted(Init(), cfg, xs, t);
      PathRestarts(Init(), cfg, xs, t, i);
      OneExactly(t.send, t.log, i);
    }
  }
}
