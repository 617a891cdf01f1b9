/** When exactly a retained ratchet and a retained epoch are used for the last time, whatever
    interleaves: along every path of elementary actions of every run. */
module SessionExpiry {
  import opened Bytes
  import opened Nonce
  import opened SessionState
  import opened SessionMedia
  import opened SessionControl
  import opened SessionActions
  import opened SessionFrames
  import opened SessionShape
  import opened SessionGroups
  import opened SessionPaths
  import opened SessionCounter
  import opened SessionCalls
  import opened SessionRetention
  import F = Frame
  import SessionSends
  import SessionDelivery

  // ---- The clock ----

  lemma WatchingKeepsClock(s: State, cfg: Config, a: Action)
    requires Enabled(s, cfg, a)
    requires a.AWatchDropped? || a.AArmRecovery? || a.AArmCommit? || a.ASucceed? || a.ARemove? || a.AFire? || a.APhase?
             || a.AResetReady? || a.AResetAttempts?
    ensures Do(s, cfg, a).now == s.now && Do(s, cfg, a).shutdown == s.shutdown
  {
    hide SetTransportOnly, RunCall, NewGroup, SetPending, MakeCommit, PeerCommit, Join, RestorePreCommit,
         ConfirmCommit, ActivateEpoch,
         InvalidateMls, ResetGroup, Downgrade, DropSendKeys, StopSending, EnsureClient;
  }

  lemma GroupKeepsClock(s: State, cfg: Config, a: Action)
    requires Enabled(s, cfg, a)
    requires a.ASoleMember? || a.ALocalCommit? || a.APeerCommit? || a.AJoin? || a.AActivate? || Reducing(a)
    ensures Do(s, cfg, a).now == s.now && Do(s, cfg, a).shutdown == s.shutdown
  {
    hide RunCall, NewRatchets, BuildEpoch, WatchDroppedSend, WatchRecovery, ArmCommitWatchdog, StartFire,
         SetWatchdog, RemoveWatchdog, ActivateEpoch, AddsSender, Unexpired, Apply;
    if a.AActivate? { ActivateFacts(s, cfg); }
  }

  lemma ActionKeepsClock(s: State, cfg: Config, a: Action)
    requires Enabled(s, cfg, a) && !a.ACall?
    ensures Do(s, cfg, a).now == s.now && Do(s, cfg, a).shutdown == s.shutdown
  {
    hide WatchDroppedSend, WatchRecovery, ArmCommitWatchdog, StartFire, RemoveWatchdog, SetWatchdog,
         RunCall, NewGroup, SetPending, MakeCommit, PeerCommit, Join, RestorePreCommit, ConfirmCommit, ActivateEpoch,
         InvalidateMls, ResetGroup, Downgrade, DropSendKeys, StopSending, EnsureClient, ResetEpochReady,
         ResetAttempts;
    if a.AWatchDropped? || a.AArmRecovery? || a.AArmCommit? || a.ASucceed? || a.ARemove? || a.AFire? || a.APhase?
       || a.AResetReady? || a.AResetAttempts?
    {
      WatchingKeepsClock(s, cfg, a);
    } else if !Quiet(a) {
      GroupKeepsClock(s, cfg, a);
    }
  }

  // ---- The send side ----

  /** The actions that change which ratchets there are to send with. */
  predicate SwitchesSend(a: Action) { a.AActivate? || a.ADowngrade? || a.ADropSend? || a.ARetainSend? }

  predicate IsEncrypt(a: Action) { a.ACall? && a.call.EncryptCall? }

  lemma ReducingKeepsSend(s: State, cfg: Config, a: Action)
    requires Reducing(a) && !SwitchesSend(a) && Enabled(s, cfg, a)
    ensures Do(s, cfg, a).send == s.send
  {
    hide RunCall, SetPending, MakeCommit, PeerCommit, Join, ActivateEpoch, GoWatchdog, StartFire;
  }

  /** Every other action leaves the send ratchets alone, but for an Encrypt that finds the
      retained one expired. */
  lemma ActionKeepsRatchets(s: State, cfg: Config, a: Action)
    requires Enabled(s, cfg, a) && !SwitchesSend(a)
    ensures var t := Do(s, cfg, a);
            && s.now <= t.now && t.send.current == s.send.current
            && (if IsEncrypt(a) && Expired(s) then t.send.retained.None?
                else t.send.retained == s.send.retained && t.send.retainedExpires == s.send.retainedExpires)
  {
    hide RunCall, ActivateEpoch, SetPending, MakeCommit, PeerCommit, Join, WatchDroppedSend, WatchRecovery,
         ArmCommitWatchdog, StartFire, Downgrade, InvalidateMls, ResetGroup, RestorePreCommit, NewGroup, DropSendKeys,
         StopSending, ConfirmCommit, EnsureClient, SetWatchdog, RemoveWatchdog, ResetEpochReady, ResetAttempts;
    if a.ACall? {
      CallKeepsRatchets(s, cfg, a.call);
    } else {
      ActionKeepsClock(s, cfg, a);
      if Quiet(a) {
        QuietLeavesUnmoved(s, cfg, a);
      } else if Reducing(a) {
        ReducingKeepsSend(s, cfg, a);
      } else {
        BuildingUnsent(s, cfg, a);
      }
    }
  }

  lemma CallKeepsRatchets(s: State, cfg: Config, call: MediaCall)
    ensures var t := RunCall(s, cfg, call);
            && s.now <= t.now && t.send.current == s.send.current
            && (if call.EncryptCall? && Expired(s) then t.send.retained.None?
                else t.send.retained == s.send.retained && t.send.retainedExpires == s.send.retainedExpires)
  {
    CallSteady(s, cfg, call);
    hide Encrypt, Decrypt, Lasting;
    if call.DecryptCall? {
      SessionSends.DecryptKeepsSend(s, cfg, call.user, call.packet, call.room);
    } else if call.EncryptCall? {
      EncryptKeepsRatchets(s, cfg, call.frame, call.room);
    }
  }

  lemma EncryptKeepsRatchets(s: State, cfg: Config, frame: seq<byte>, room: nat)
    ensures var t := Encrypt(s, cfg, frame, room).0;
            if Expired(s) then t.send.retained.None?
            else t.send.retained == s.send.retained && t.send.retainedExpires == s.send.retainedExpires
  {
    var s0 := SelectSendRatchet(s);
    assert if Expired(s) then s0.send.retained.None? else s0 == s;
    hide SelectSendRatchet, EncryptWith, Lasting;
    if LiveRatchet(s0).Some? && LiveRatchet(s0).value in s0.ratchets {
      var t := EncryptWith(s0, cfg, LiveRatchet(s0).value, frame, room).0;
      UseKeepsRatchets(s0, cfg, LiveRatchet(s0).value, frame, room);
    }
  }

  lemma UseKeepsRatchets(s: State, cfg: Config, ref: Ref, frame: seq<byte>, room: nat)
    requires ref in s.ratchets
    ensures var t := EncryptWith(s, cfg, ref, frame, room).0;
            t.send.retained == s.send.retained && t.send.retainedExpires == s.send.retainedExpires
  {
    hide KeyUp, F.EncryptFrame, Generation, Truncated, NextCounter;
    SessionSends.KeyUpFacts(s.(send := s.send.(counter := NextCounter(s))), cfg, ref, Generation(NextCounter(s)));
  }

  /** Along a path, each state follows from the one before. */
  lemma {:induction false} NextState(s: State, cfg: Config, xs: seq<Action>, t: State, k: nat)
    requires Path(s, cfg, xs, t) && k < |xs|
    ensures Enabled(StateBefore(s, cfg, xs, k), cfg, xs[k])
    ensures StateBefore(s, cfg, xs, k + 1) == Do(StateBefore(s, cfg, xs, k), cfg, xs[k])
    decreases k
  {
    hide Enabled, Do;
    var s1 := Do(s, cfg, xs[0]);
    if k == 0 {
      assert StateBefore(s, cfg, xs, 0) == s && StateBefore(s1, cfg, xs[1..], 0) == s1;
    } else {
      NextState(s1, cfg, xs[1..], t, k - 1);
      assert xs[1..][k - 1] == xs[k];
    }
  }

  /** The action puts the ratchet in use aside for a while. */
  predicate PutsAside(s: State, a: Action) {
    && s.send.current.Some?
    && (a.ARetainSend? || (a.AActivate? && s.epochs.pending.Some? && !Adds(s.epochs.active, s.epochs.pending.value)))
  }

  lemma AsideUntil(s: State, cfg: Config, a: Action)
    requires Enabled(s, cfg, a) && PutsAside(s, a)
    ensures var t := Do(s, cfg, a);
            && t.send.retained == s.send.current && t.send.retainedExpires == s.now + cfg.sendRetention
            && t.now == s.now
  {
    ActionKeepsClock(s, cfg, a);
    hide ActivateEpoch, Adds, RunCall, SetPending, MakeCommit, PeerCommit, Join, WatchDroppedSend, WatchRecovery,
         ArmCommitWatchdog, StartFire, InvalidateMls, ResetGroup, RestorePreCommit, NewGroup;
    if a.AActivate? { ActivateSendTimes(s, cfg); }
  }

  /** Among the actions from i up to k there is an Encrypt at the time d or later. */
  ghost predicate EncryptFrom(cfg: Config, xs: seq<Action>, i: nat, k: nat, d: Time) {
    exists j :: i <= j < k <= |xs| && IsEncrypt(xs[j]) && StateBefore(Init(), cfg, xs, j).now >= d
  }

  /** The ratchet put aside by action i stays retained up to action k, exactly until the first
      Encrypt at its time or later. */
  lemma {:induction false} AsideAlong(cfg: Config, xs: seq<Action>, t: State, i: nat, k: nat)
    requires Path(Init(), cfg, xs, t) && i < k <= |xs| && PutsAside(StateBefore(Init(), cfg, xs, i), xs[i])
    requires forall j :: i < j < k ==> !SwitchesSend(xs[j])
    ensures var s, u := StateBefore(Init(), cfg, xs, i), StateBefore(Init(), cfg, xs, k);
            var d := s.now + cfg.sendRetention;
            && u.send.current == StateBefore(Init(), cfg, xs, i + 1).send.current
            && (if EncryptFrom(cfg, xs, i + 1, k, d) then u.send.retained.None? && u.now >= d
                else u.send.retained == s.send.current && u.send.retainedExpires == d)
    decreases k
  {
    hide Path, Enabled, Do, StateBefore, SwitchesSend;
    var s := StateBefore(Init(), cfg, xs, i);
    var d := s.now + cfg.sendRetention;
    NextState(Init(), cfg, xs, t, k - 1);
    if k == i + 1 {
      AsideUntil(s, cfg, xs[i]);
      assert !EncryptFrom(cfg, xs, i + 1, k, d);
    } else {
      var u, v := StateBefore(Init(), cfg, xs, k - 1), StateBefore(Init(), cfg, xs, k);
      AsideAlong(cfg, xs, t, i, k - 1);
      ActionKeepsRatchets(u, cfg, xs[k - 1]);
      EncryptOneMore(cfg, xs, i + 1, k - 1, d);
    }
  }

  lemma EncryptOneMore(cfg: Config, xs: seq<Action>, i: nat, k: nat, d: Time)
    requires i <= k < |xs|
    ensures EncryptFrom(cfg, xs, i, k + 1, d) <==>
              EncryptFrom(cfg, xs, i, k, d) || (IsEncrypt(xs[k]) && StateBefore(Init(), cfg, xs, k).now >= d)
  {
    hide StateBefore;
  }

  lemma {:induction false} PathPrefix(s: State, cfg: Config, xs: seq<Action>, t: State, k: nat)
    requires Path(s, cfg, xs, t) && k <= |xs|
    ensures Path(s, cfg, xs[..k], StateBefore(s, cfg, xs, k))
    decreases k
  {
    hide Enabled, Do;
    if k > 0 {
      PathPrefix(Do(s, cfg, xs[0]), cfg, xs[1..], t, k - 1);
      assert xs[..k][1..] == xs[1..][..k - 1];
    } else {
      assert StateBefore(s, cfg, xs, 0) == s;
    }
  }

  lemma SoundBefore(cfg: Config, xs: seq<Action>, t: State, k: nat)
    requires Path(Init(), cfg, xs, t) && k <= |xs|
    ensures Sound(StateBefore(Init(), cfg, xs, k), cfg)
  {
    hide Path, Sound, StateBefore;
    PathPrefix(Init(), cfg, xs, t, k);
    InitSound(cfg);
    PathKeepsSound(Init(), cfg, xs[..k], StateBefore(Init(), cfg, xs, k));
  }

  /** Along every path of every run, interleaved calls included: from the action that puts the
      ratchet r aside at the time T to the next that changes the send ratchets, every Encrypt
      before T plus the configured retention uses r with the next counter value, and the
      first one from then on uses the current ratchet with the value 1. */
  lemma RetentionExactly(cfg: Config, es: seq<Event>, xs: seq<Action>, i: nat, k: nat)
    requires Path(Init(), cfg, xs, Run(Init(), cfg, es)) && i < k < |xs| && IsEncrypt(xs[k])
    requires PutsAside(StateBefore(Init(), cfg, xs, i), xs[i]) && forall j :: i < j < k ==> !SwitchesSend(xs[j])
    ensures var s, u := StateBefore(Init(), cfg, xs, i), StateBefore(Init(), cfg, xs, k);
            var d, n, v := s.now + cfg.sendRetention, |u.log.sends|, RunCall(u, cfg, xs[k].call);
            && (u.now < d ==>
                  && |v.log.sends| == n + 1 && v.log.sends[n].ref == s.send.current.value
                  && v.log.sends[n].full == (u.send.counter + 1) % TWO64)
            && (u.now >= d && u.send.current.Some? && !EncryptFrom(cfg, xs, i + 1, k, d) ==>
                  && |v.log.sends| == n + 1 && Some(v.log.sends[n].ref) == u.send.current
                  && v.log.sends[n].full == 1)
  {
    hide Path, Run, StateBefore, Encrypt, Shape, Fresh, GroupIds, SwitchesSend, EncryptFrom;
    var t := Run(Init(), cfg, es);
    AsideAlong(cfg, xs, t, i, k);
    SoundBefore(cfg, xs, t, k);
    var u := StateBefore(Init(), cfg, xs, k);
    if NextRatchet(u).Some? { LastUse(u, cfg, xs[k].call.frame, xs[k].call.room); }
  }

  // ---- The receive side ----

  /** The epoch numbered b was left: it is kept for receiving until the time d, and is nowhere
      else. */
  ghost predicate LeftUntil(s: State, b: nat, d: Time) {
    && b < s.builds
    && (forall a :: Has(s, a) && At(s, a).build == b ==> a.Retained? && At(s, a).expiresAt == d)
    && (s.now < d ==> exists i :: 0 <= i < |s.epochs.retained| && s.epochs.retained[i].build == b)
  }

  lemma LeftAfterCall(s: State, cfg: Config, call: MediaCall, b: nat, d: Time)
    requires LeftUntil(s, b, d)
    ensures LeftUntil(RunCall(s, cfg, call), b, d)
  {
    hide RunCall, LeftUntil, PrunedBy, SendSteady, Lasting;
    CallStep(s, cfg, call);
    CallSteady(s, cfg, call);
    var t := RunCall(s, cfg, call);
    var kept :| PrunedBy(s.epochs.retained, t.epochs.retained, kept);
    LeftAfterPruning(s, t, kept, b, d);
  }

  lemma LeftAfterPruning(s: State, t: State, kept: seq<nat>, b: nat, d: Time)
    requires LeftUntil(s, b, d) && t.builds == s.builds && s.now <= t.now && Lasting(s, t)
    requires SameOption(s.epochs.active, t.epochs.active) && SameOption(s.epochs.pending, t.epochs.pending)
    requires PrunedBy(s.epochs.retained, t.epochs.retained, kept)
    ensures LeftUntil(t, b, d)
  {
    hide PrunedBy;
    forall a | Has(t, a) && At(t, a).build == b ensures a.Retained? && At(t, a).expiresAt == d {
      ContinuesSlot(s, t, kept, a);
    }
    if t.now < d {
      var i :| 0 <= i < |s.epochs.retained| && s.epochs.retained[i].build == b;
      assert Has(s, Retained(i)) && At(s, Retained(i)) == s.epochs.retained[i];
      assert Among(s.epochs.retained[i], t.epochs.retained);
      var j :| 0 <= j < |t.epochs.retained| && SameEpoch(s.epochs.retained[i], t.epochs.retained[j]);
      assert t.epochs.retained[j].build == b;
    }
  }

  lemma LeftAfterActivate(s: State, cfg: Config, b: nat, d: Time)
    requires LeftUntil(s, b, d) && s.epochs.pending.Some?
    ensures LeftUntil(ActivateEpoch(s, cfg), b, d)
  {
    ActivateFacts(s, cfg);
    hide ActivateEpoch, AddsSender, Unexpired;
    var t := ActivateEpoch(s, cfg);
    var all := if s.epochs.active.None? then s.epochs.retained
               else s.epochs.retained + [s.epochs.active.value.(expiresAt := s.now + EPOCH_RETENTION)];
    assert Has(s, Pending) && At(s, Pending).build != b;
    assert s.epochs.active.Some? ==> Has(s, Active) && At(s, Active).build != b;
    forall a | Has(t, a) && At(t, a).build == b ensures a.Retained? && At(t, a).expiresAt == d {
      if a.Retained? {
        UnexpiredExactly(all, s.now, At(t, a));
        var i :| 0 <= i < |all| && all[i] == At(t, a);
        assert i < |s.epochs.retained| && Has(s, Retained(i)) && At(s, Retained(i)) == At(t, a);
      }
    }
    if t.now < d {
      var i :| 0 <= i < |s.epochs.retained| && s.epochs.retained[i].build == b;
      assert Has(s, Retained(i)) && At(s, Retained(i)) == all[i];
      UnexpiredExactly(all, s.now, all[i]);
      var j :| 0 <= j < |t.epochs.retained| && t.epochs.retained[j] == all[i];
      assert t.epochs.retained[j].build == b;
    }
  }

  /** Another pending epoch, or none. */
  lemma LeftAfterPending(s: State, t: State, b: nat, d: Time)
    requires LeftUntil(s, b, d) && t.now == s.now && t.builds >= s.builds
    requires t.epochs == s.epochs.(pending := t.epochs.pending)
    requires t.epochs.pending.Some? ==> t.epochs.pending == s.epochs.pending || t.epochs.pending.value.build >= s.builds
    ensures LeftUntil(t, b, d)
  {
    forall a | Has(t, a) && At(t, a).build == b ensures a.Retained? && At(t, a).expiresAt == d {
      assert Has(s, a) && At(s, a) == At(t, a);
    }
  }

  lemma ReducingKeepsEpochs(s: State, cfg: Config, a: Action)
    requires Reducing(a) && !a.AResetGroup? && Enabled(s, cfg, a)
    ensures var t := Do(s, cfg, a);
            && t.epochs == s.epochs.(pending := t.epochs.pending) && t.builds == s.builds
            && (t.epochs.pending == s.epochs.pending || t.epochs.pending.None?)
  {
    hide RunCall, SetPending, MakeCommit, PeerCommit, Join, ActivateEpoch, GoWatchdog, StartFire;
  }

  lemma BuildingEpochs(s: State, cfg: Config, a: Action)
    requires Enabled(s, cfg, a) && (a.ASoleMember? || a.ALocalCommit? || a.APeerCommit? || a.AJoin?)
    ensures var t := Do(s, cfg, a);
            && t.epochs == s.epochs.(pending := t.epochs.pending) && t.builds >= s.builds
            && (t.epochs.pending.Some? ==>
                  t.epochs.pending == s.epochs.pending || t.epochs.pending.value.build >= s.builds)
  {
    hide RunCall, ActivateEpoch, NewRatchets, WatchDroppedSend, WatchRecovery, ArmCommitWatchdog, StartFire,
         SetWatchdog, RemoveWatchdog, RestorePreCommit, ConfirmCommit, InvalidateMls, ResetGroup, Downgrade,
         DropSendKeys, StopSending, EnsureClient, ResetEpochReady, ResetAttempts, NewGroup;
  }

  lemma ActionKeepsLeft(s: State, cfg: Config, a: Action, b: nat, d: Time)
    requires LeftUntil(s, b, d) && Enabled(s, cfg, a) && !a.AResetGroup?
    ensures LeftUntil(Do(s, cfg, a), b, d)
  {
    hide LeftUntil, RunCall, ActivateEpoch, SetPending, MakeCommit, PeerCommit, Join, WatchDroppedSend, WatchRecovery,
         ArmCommitWatchdog, StartFire, Downgrade, InvalidateMls, ResetGroup, RestorePreCommit, NewGroup, DropSendKeys,
         StopSending, ConfirmCommit, EnsureClient, SetWatchdog, RemoveWatchdog, ResetEpochReady, ResetAttempts;
    if a.ACall? {
      LeftAfterCall(s, cfg, a.call, b, d);
    } else if a.AActivate? {
      LeftAfterActivate(s, cfg, b, d);
    } else {
      ActionKeepsClock(s, cfg, a);
      if Quiet(a) {
        QuietLeavesUnmoved(s, cfg, a);
      } else if Reducing(a) {
        ReducingKeepsEpochs(s, cfg, a);
      } else {
        BuildingEpochs(s, cfg, a);
      }
      LeftAfterPending(s, Do(s, cfg, a), b, d);
    }
  }

  lemma LeavesEpoch(s: State, cfg: Config)
    requires Shape(s, cfg) && s.epochs.pending.Some? && s.epochs.active.Some?
    ensures LeftUntil(ActivateEpoch(s, cfg), s.epochs.active.value.build, s.now + 10_000)
  {
    ActivateFacts(s, cfg);
    hide ActivateEpoch, AddsSender, Unexpired;
    var t, b := ActivateEpoch(s, cfg), s.epochs.active.value.build;
    var left := s.epochs.active.value.(expiresAt := s.now + EPOCH_RETENTION);
    var all := s.epochs.retained + [left];
    assert Has(s, Active) && Has(s, Pending) && EpochOk(s, At(s, Active)) && DistinctBuilds(s) && RatchetsOk(s);
    assert At(s, Pending).build != b;
    forall i | 0 <= i < |s.epochs.retained| ensures s.epochs.retained[i].build != b {
      assert Has(s, Retained(i)) && At(s, Retained(i)).build != At(s, Active).build;
    }
    forall a | Has(t, a) && At(t, a).build == b ensures a.Retained? && At(t, a).expiresAt == s.now + 10_000 {
      if a.Retained? {
        UnexpiredExactly(all, s.now, At(t, a));
        var i :| 0 <= i < |all| && all[i] == At(t, a);
        assert i == |s.epochs.retained|;
      }
    }
    assert all[|s.epochs.retained|] == left;
    UnexpiredExactly(all, s.now, left);
    var j :| 0 <= j < |t.epochs.retained| && t.epochs.retained[j] == left;
    assert t.epochs.retained[j].build == b;
  }

  lemma {:induction false} LeftAlong(cfg: Config, xs: seq<Action>, t: State, i: nat, k: nat)
    requires Path(Init(), cfg, xs, t) && i < k <= |xs| && xs[i].AActivate?
    requires StateBefore(Init(), cfg, xs, i).epochs.active.Some?
    requires forall j :: i < j < k ==> !xs[j].AResetGroup?
    ensures var s := StateBefore(Init(), cfg, xs, i);
            LeftUntil(StateBefore(Init(), cfg, xs, k), s.epochs.active.value.build, s.now + 10_000)
    decreases k
  {
    hide Path, StateBefore, LeftUntil, Shape, Fresh, GroupIds;
    NextState(Init(), cfg, xs, t, k - 1);
    var s := StateBefore(Init(), cfg, xs, i);
    if k == i + 1 {
      SoundBefore(cfg, xs, t, i);
      hide ActivateEpoch;
      LeavesEpoch(s, cfg);
    } else {
      hide Do, Enabled;
      LeftAlong(cfg, xs, t, i, k - 1);
      ActionKeepsLeft(StateBefore(Init(), cfg, xs, k - 1), cfg, xs[k - 1], s.epochs.active.value.build, s.now + 10_000);
    }
  }

  /** Decrypt tries the epoch numbered b. */
  ghost predicate Tries(s: State, b: nat) {
    exists slot :: Has(PruneRetained(s), slot) && At(PruneRetained(s), slot).build == b &&
      slot in Candidates(PruneRetained(s))
  }

  lemma SameBut(s: State, slot: Slot)
    ensures !slot.Retained? && Has(PruneRetained(s), slot) ==>
              Has(s, slot) && At(PruneRetained(s), slot) == At(s, slot)
  {
  }

  lemma TriesExactly(s: State, b: nat, d: Time)
    requires LeftUntil(s, b, d)
    ensures Tries(s, b) <==> s.now < d
  {
    var s0 := PruneRetained(s);
    hide Unexpired;
    if s.now < d {
      var i :| 0 <= i < |s.epochs.retained| && s.epochs.retained[i].build == b;
      assert Has(s, Retained(i)) && At(s, Retained(i)) == s.epochs.retained[i];
      UnexpiredExactly(s.epochs.retained, s.now, s.epochs.retained[i]);
      var j :| 0 <= j < |s0.epochs.retained| && s0.epochs.retained[j] == s.epochs.retained[i];
      assert Has(s0, Retained(j)) && At(s0, Retained(j)).build == b;
      SessionDelivery.SlotIsCandidate(s0, Retained(j));
    }
    if slot :| Has(s0, slot) && At(s0, slot).build == b && slot in Candidates(s0) {
      SameBut(s, slot);
      assert slot.Retained?;
      var e := At(s0, slot);
      assert e in s0.epochs.retained;
      UnexpiredExactly(s.epochs.retained, s.now, e);
      var i :| 0 <= i < |s.epochs.retained| && s.epochs.retained[i] == e;
      assert Has(s, Retained(i)) && At(s, Retained(i)).expiresAt == d;
    }
  }

  /** Along every path of every run: the epoch that an activation at the time T leaves behind
      is tried by Decrypt exactly until T plus ten seconds, whatever is activated, rolled back
      or invalidated meanwhile, unless a reset forgets every epoch. */
  lemma EpochRetentionExactly(cfg: Config, es: seq<Event>, xs: seq<Action>, i: nat, k: nat)
    requires Path(Init(), cfg, xs, Run(Init(), cfg, es)) && i < k <= |xs| && xs[i].AActivate?
    requires StateBefore(Init(), cfg, xs, i).epochs.active.Some? && forall j :: i < j < k ==> !xs[j].AResetGroup?
    ensures var s, u := StateBefore(Init(), cfg, xs, i), StateBefore(Init(), cfg, xs, k);
            Tries(u, s.epochs.active.value.build) <==> u.now < s.now + 10_000
  {
    hide Path, Run, StateBefore, LeftUntil, Tries;
    LeftAlong(cfg, xs, Run(Init(), cfg, es), i, k);
    var s := StateBefore(Init(), cfg, xs, i);
    TriesExactly(StateBefore(Init(), cfg, xs, k), s.epochs.active.value.build, s.now + 10_000);
  }
}
