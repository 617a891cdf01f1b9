/** Once end-to-end encryption is established, plaintext stays rejected across resets. */
module SessionPlaintext {
  import opened Bytes
  import F = Frame
  import opened SessionState
  import opened SessionMedia
  import opened SessionControl
  import opened SessionActions
  import opened SessionFrames
  import opened SessionPaths
  import opened SessionQueue

  /** The rejection time, once set, is at most a grace period away. */
  predicate WithinGrace(s: State, cfg: Config) {
    s.version.plaintextRejectedFrom.Some? ==> s.version.plaintextRejectedFrom.value <= s.now + cfg.plaintextGrace
  }

  /** Activating an epoch at a non-zero version starts the rejection, or keeps an earlier start. */
  lemma ActivationStartsRejection(s: State, cfg: Config)
    requires s.epochs.pending.Some? && s.version.protocol != 0
    ensures var t := ActivateEpoch(s, cfg);
            && t.version.plaintextRejectedFrom.Some? && t.now == s.now
            && (s.version.plaintextRejectedFrom.Some? ==>
               t.version.plaintextRejectedFrom == s.version.plaintextRejectedFrom)
  {
    hide Unexpired, AddsSender;
  }

  lemma ActivationWithinGrace(s: State, cfg: Config)
    requires s.epochs.pending.Some? && WithinGrace(s, cfg)
    ensures WithinGrace(ActivateEpoch(s, cfg), cfg)
  {
    hide Unexpired, AddsSender;
  }

  lemma ActionWithinGrace(s: State, cfg: Config, a: Action)
    requires WithinGrace(s, cfg) && Enabled(s, cfg, a)
    ensures WithinGrace(Do(s, cfg, a), cfg)
  {
    if Quiet(a) {
      QuietWithinGrace(s, cfg, a);
    } else if a.ACall? {
      hide RunCall, Pruned;
      CallStep(s, cfg, a.call);
    } else if a.AActivate? {
      hide ActivateEpoch;
      ActivationWithinGrace(s, cfg);
    } else {
      hide Do;
      OtherWithinGrace(s, cfg, a);
    }
  }

  lemma QuietWithinGrace(s: State, cfg: Config, a: Action)
    requires Quiet(a) && WithinGrace(s, cfg) && Enabled(s, cfg, a)
    ensures WithinGrace(Do(s, cfg, a), cfg)
  {
    hide RunCall, NewGroup, SetPending, MakeCommit, PeerCommit, Join, RestorePreCommit, ConfirmCommit, ActivateEpoch,
         InvalidateMls, ResetGroup, Downgrade, DropSendKeys, StopSending, EnsureClient;
  }

  lemma OtherWithinGrace(s: State, cfg: Config, a: Action)
    requires !Quiet(a) && !a.ACall? && !a.AActivate? && WithinGrace(s, cfg) && Enabled(s, cfg, a)
    ensures WithinGrace(Do(s, cfg, a), cfg)
  {
    hide RunCall, ActivateEpoch, NewRatchets, BuildEpoch, GoWatchdog, StartFire, SetWatchdog, WatchDroppedSend;
  }

  lemma {:induction false} PathWithinGrace(s: State, cfg: Config, xs: seq<Action>, t: State)
    requires WithinGrace(s, cfg) && Path(s, cfg, xs, t)
    ensures WithinGrace(t, cfg)
    decreases |xs|
  {
    hide Do, Enabled, WithinGrace;
    if xs != [] {
      ActionWithinGrace(s, cfg, xs[0]);
      PathWithinGrace(Do(s, cfg, xs[0]), cfg, xs[1..], t);
    }
  }

  /** Version 0 does not take effect during the run fs from s. */
  ghost predicate NeverVersionZero(s: State, cfg: Config, fs: seq<Event>) {
    forall k :: 0 <= k < |fs| ==> !VersionZeroTakesEffect(Run(s, cfg, fs[..k]), fs[k])
  }

  lemma NeverVersionZeroPrefix(s: State, cfg: Config, fs: seq<Event>)
    requires NeverVersionZero(s, cfg, fs) && fs != []
    ensures NeverVersionZero(s, cfg, fs[..|fs| - 1])
    ensures !VersionZeroTakesEffect(Run(s, cfg, fs[..|fs| - 1]), fs[|fs| - 1])
  {
    hide Run, VersionZeroTakesEffect;
    var n := |fs| - 1;
    forall k | 0 <= k < n ensures !VersionZeroTakesEffect(Run(s, cfg, fs[..n][..k]), fs[..n][k]) {
      assert fs[..n][..k] == fs[..k];
    }
  }

  lemma {:induction false} RejectionLasts(s: State, cfg: Config, fs: seq<Event>, claim: Claim)
    requires Between(s, claim) && !claim.ordered && NeverVersionZero(s, cfg, fs)
    ensures Between(Run(s, cfg, fs), claim)
    decreases |fs|
  {
    if fs != [] {
      hide Step, Between, VersionZeroTakesEffect;
      var n := |fs| - 1;
      NeverVersionZeroPrefix(s, cfg, fs);
      RejectionLasts(s, cfg, fs[..n], claim);
      StepBetween(Run(s, cfg, fs[..n]), cfg, fs[n], claim);
    }
  }

  /** From a state in which an epoch has activated at a non-zero version, after the grace
      period and across any number of resets, a frame that is not a DAVE frame and not the
      silence packet is refused while the version is non-zero, until version 0 takes effect. */
  lemma PlaintextRejected(cfg: Config, es: seq<Event>, fs: seq<Event>, user: UserId, frame: seq<byte>, room: nat)
    requires var s := Run(Init(), cfg, es);
             var t := Run(s, cfg, fs);
             && s.version.plaintextRejectedFrom.Some? && NeverVersionZero(s, cfg, fs)
             && t.version.protocol != 0 && t.now >= s.now + cfg.plaintextGrace
    requires !F.LooksLikeDaveFrame(frame) && !IsSilencePacket(frame)
    ensures var t := Run(Run(Init(), cfg, es), cfg, fs); Decrypt(t, cfg, user, frame, room) == (t,
            Err(DecryptionFailed))
  {
    var s := Run(Init(), cfg, es);
    RunLeads(Init(), cfg, es);
    RunBetween(cfg, es, false);
    var xs :| Path(Init(), cfg, xs, s);
    assert WithinGrace(Init(), cfg);
    hide Path, Run, NeverVersionZero;
    PathWithinGrace(Init(), cfg, xs, s);
    RejectionLasts(s, cfg, fs, Claim(false, s.version.plaintextRejectedFrom));
  }
}
