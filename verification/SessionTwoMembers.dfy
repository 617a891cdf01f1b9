/** Two members of one group: a run of each, with commits of their own in flight, that meets
    everything the theorems about members ask for. */
module SessionTwoMembers {
  import opened Bytes
  import opened Gcm8
  import opened Nonce
  import F = Frame
  import opened SessionState
  import opened SessionMedia
  import opened SessionControl
  import opened SessionFrames
  import opened SessionShape
  import opened SessionGroups
  import opened SessionConvergence
  import opened SessionAgreement
  import opened SessionAnnouncements
  import opened SessionReplays
  import opened SessionDelivery
  import opened SessionMembers
  import opened SessionExamples
  import Ranges
  import Ratchet

  // ---- The members ----

  const FOUNDED := Group(Created(1, 0), {1})
  const ADD := Commit(0, {2}, {})
  const JOINED := Apply(FOUNDED, ADD)

  /** The commits the two make of the same third proposal. */
  function Own(self: UserId): Commit { Commit(self, {3}, {}) }

  /** The key of the one frame, and an AEAD whose tags tell it from every other key. */
  const KEY := MediaKey(Root(JOINED.term, 1), 0)

  function Tag(k: MediaKey): FullTag { seq(16, _ => if k == KEY then 1 else 0) }

  const AEAD: Aead<MediaKey> := Aead((k, n, i) => 0, (k, n, c, d) => Tag(k), k => true)

  function Member(self: UserId): Config {
    Config(self, true, true, true, 10_000, 10_000, 10_000, Ratchet.DEFAULT_MAX_GENERATION_GAP, AEAD)
  }

  function Proposed(c: Commit): (e: Event)
    ensures e.Proposals?
  {
    Proposals(Batch(0, true, true, true, c, true, true), OK)
  }

  /** Member 1 founds the group, commits the addition of 2, and sees it announced and
      executed. */
  function Founder(): seq<Event> {
    Founding() + [Proposed(ADD)] + [PrepareCommit(5, Some(ADD), OK)] + [ExecuteTransition(5, OK)] + [Proposed(Own(1))]
  }

  /** Member 2 is welcomed and executes the same transition. */
  function Joiner(): seq<Event> {
    Founding() + [GetWelcome(5, Welcome(1, JOINED, true, true), OK)] + [ExecuteTransition(5, OK)] + [Proposed(Own(2))]
  }

  // ---- Founding ----

  /** A group of its own that nothing has been committed to. */
  predicate Started(s: State, self: UserId) {
    && s.mls.client.Some? && s.mls.groupId == Some(1) && 1 in s.mls.client.value
    && TheGroup(s) == Group(Created(self, 0), {self})
    && s.mls.pendingCommit.None? && s.mls.preCommit.None? && s.mls.queue == [] && s.mls.externalSender
    && s.epochs == Epochs(None, None, []) && s.send == Init().send && s.builds == 0 && s.version.protocol == 1
    && s.log.minted == [Created(self, 0)] && s.log.origin == Some(TheGroup(s)) && s.log.announced == []
    && !s.log.stacked
  }

  lemma MemberStarts(self: UserId)
    ensures Started(Run(Init(), Member(self), Founding()), self)
  {
    var cfg := Member(self);
    hide Run;
    FoundingSteps(cfg);
    var s2 := Step(NAMED, cfg, SelectProtocolAck(1, OK));
    assert s2.mls == Mls(Some(map[]), None, None, false, true, [], None, None) && s2.channelId == 1 &&
           s2.epochs == NAMED.epochs && s2.send == NAMED.send && s2.builds == 0 && s2.version.protocol == 1 &&
           s2.log == NAMED.log.(attemptResets := 1);
    FoundOwn(s2, self);
  }

  lemma FoundOwn(s: State, self: UserId)
    requires s.mls == Mls(Some(map[]), None, None, false, true, [], None, None) && s.channelId == 1
    requires s.epochs == Epochs(None, None, []) && s.send == Init().send && s.builds == 0 && s.version.protocol == 1
    requires s.log == Init().log.(attemptResets := 1)
    ensures Started(Step(s, Member(self), ExternalSender(true, OK)), self)
  {
  }

  // ---- From the group of one to the group of two ----

  /** The group of two is there, its epoch pending, with what has happened so far. */
  predicate Waits(s: State, own: bool, minted: seq<Term>, origin: Group, announced: seq<Commit>) {
    && HasGroup(s) && TheGroup(s) == JOINED && s.mls.queue == []
    && s.mls.pendingCommit == (if own then Some(ADD) else None) && s.mls.pendingGroupId == s.mls.groupId
    && s.epochs.active.None? && s.epochs.pending.Some? && s.epochs.retained == [] && IsFirst(s, s.epochs.pending.value)
    && s.send == Init().send && s.builds == 1 && s.version.protocol == 1
    && s.log.minted == minted && s.log.origin == Some(origin) && s.log.announced == announced && !s.log.stacked
  }

  /** The first epoch built, with both members and ratchets nobody has used. */
  predicate IsFirst(s: State, e: Epoch) {
    && e.build == 0 && e.senders.Keys == {1, 2} && e.senders[1] == NEW_SENDER
    && Ref(0, 1) in s.ratchets && s.ratchets[Ref(0, 1)] == KeyRatchet(Root(JOINED.term, 1), Ratchet.START)
  }

  lemma FirstPending(s: State)
    requires HasGroup(s) && TheGroup(s) == JOINED && s.builds == 0
    ensures var t := SetPending(s); t.epochs.pending.Some? && IsFirst(t, t.epochs.pending.value)
  {
  }

  lemma FounderCommits(s: State)
    requires Started(s, 1)
    ensures Waits(Step(s, Member(1), Proposed(ADD)), true, [FOUNDED.term, JOINED.term], FOUNDED, [])
  {
    var u := Taken(Arrived(s), Proposed(ADD).batch.(id := s.log.arrived));
    var m := MakeCommit(u, ADD);
    OwnCommitFacts(u, ADD);
    BatchSteps(s, Member(1), ADD);
    hide Step, MakeCommit, SetPending, BuildEpoch, IsFirst;
    FirstPending(m);
    SetPendingFacts(m);
    SetPendingLeaves(m);
  }

  /** A batch that comes while nothing is pending. */
  function Arrived(s: State): State { s.(env := OK, log := s.log.(arrived := s.log.arrived + 1)) }

  lemma BatchSteps(s: State, cfg: Config, c: Commit)
    requires HasGroup(s) && s.epochs.pending.None? && cfg.hasCallbacks
    ensures var u := Taken(Arrived(s), Proposed(c).batch.(id := s.log.arrived));
            var t := Step(s, cfg, Proposed(c));
            && HasGroup(MakeCommit(u, c))
            && var p := SetPending(MakeCommit(u, c));
               t == p.(recovery := t.recovery, log := p.log.(ownCommits := t.log.ownCommits))
  {
    var b := Proposed(c).batch.(id := s.log.arrived);
    BatchCommits(Arrived(s), cfg, b);
    BatchArrives(s, cfg, c);
    hide SetPending, ProcessAndCommit, MakeCommit, ArmCommitWatchdog, Step;
    ArmLeaves(SetPending(MakeCommit(Taken(Arrived(s), b), c)), cfg);
  }

  lemma BatchArrives(s: State, cfg: Config, c: Commit)
    requires s.epochs.pending.None?
    ensures Step(s, cfg, Proposed(c)) == ProcessAndCommit(Arrived(s), cfg, Proposed(c).batch.(id := s.log.arrived))
  {
    hide ProcessAndCommit;
  }

  lemma ArmLeaves(s: State, cfg: Config)
    ensures var t := ArmCommitWatchdog(s, cfg);
            t == s.(recovery := t.recovery, log := s.log.(ownCommits := t.log.ownCommits))
  {
  }

  lemma FounderConfirms(s: State)
    requires Waits(s, true, [FOUNDED.term, JOINED.term], FOUNDED, [])
    ensures var t := Step(s, Member(1), PrepareCommit(5, Some(ADD), OK));
            Waits(t, false, [FOUNDED.term, JOINED.term], FOUNDED, [ADD]) && t.pendingTransitionId == 5
  {
  }

  lemma JoinerWelcomed(s: State)
    requires Started(s, 2)
    ensures var t := Step(s, Member(2), GetWelcome(5, Welcome(1, JOINED, true, true), OK));
            Waits(t, false, [Created(2, 0), JOINED.term], JOINED, []) && t.pendingTransitionId == 5
  {
    var u := s.(env := OK, pendingTransitionId := 5);
    var w := Welcome(1, JOINED, true, true);
    WelcomeJoined(u, w);
    SendReadyAnswered(Join(u, w).0, Member(2));
    hide Join, SendReady;
  }

  lemma WelcomeJoined(s: State, w: Welcome)
    requires Started(s, 2) && w == Welcome(1, JOINED, true, true) && s.env == OK
    ensures var (t, joined) := Join(s, w);
            && joined && Waits(t, false, [Created(2, 0), JOINED.term], JOINED, []) && t.env == OK
            && t.pendingTransitionId == s.pendingTransitionId
  {
    var s1 := SaveGroup(Mint(s, w.group.term), w.groupId, w.group);
    var s2 := Adopt(s1, w.group).(mls := s1.mls.(groupId := Some(w.groupId), pendingGroupId := Some(w.groupId)));
    FirstPending(s2);
    SetPendingFacts(s2);
    SetPendingLeaves(s2);
    assert SetPending(s2).pendingTransitionId == s.pendingTransitionId;
    hide SetPending;
  }

  lemma SendReadyAnswered(s: State, cfg: Config)
    requires s.env.replies == []
    ensures SendReady(s, cfg) == s
  {
  }

  // ---- Sending ----

  /** The group of two is active. */
  predicate Talks(s: State, self: UserId, minted: seq<Term>, origin: Group, announced: seq<Commit>) {
    && HasGroup(s) && TheGroup(s) == JOINED && s.mls.pendingCommit.None? && s.epochs.pending.None?
    && InUse(s, self, minted, origin, announced)
  }

  predicate InUse(s: State, self: UserId, minted: seq<Term>, origin: Group, announced: seq<Commit>) {
    && s.epochs.active.Some? && IsFirst(s, s.epochs.active.value) && s.builds >= 1
    && s.send == Init().send.(current := Some(Ref(0, self)))
    && s.log.minted == minted && s.log.origin == Some(origin) && s.log.announced == announced
    && s.log.activated && !s.log.stacked
  }

  lemma ExecuteActivates(s: State, cfg: Config)
    requires s.pendingTransitionId == 5 && s.version.protocol == 1 && s.epochs.pending.Some? && s.mls.queue == []
    ensures var u := SetTransportOnly(s.(env := OK, version := s.version.(sending := s.version.protocol)), false);
            Step(s, cfg, ExecuteTransition(5, OK)) == ActivateEpoch(u, cfg).(pendingTransitionId := 0)
  {
    var u := SetTransportOnly(s.(env := OK, version := s.version.(sending := s.version.protocol)), false);
    ActivateKeepsQueue(u, cfg);
    hide ActivateEpoch;
    assert Drain(ActivateEpoch(u, cfg), cfg) == ActivateEpoch(u, cfg);
  }

  lemma Executes(s: State, self: UserId, minted: seq<Term>, origin: Group, announced: seq<Commit>)
    requires Waits(s, false, minted, origin, announced) && s.pendingTransitionId == 5 && self in {1, 2}
    ensures Talks(Step(s, Member(self), ExecuteTransition(5, OK)), self, minted, origin, announced)
  {
    var cfg := Member(self);
    var u := SetTransportOnly(s.(env := OK, version := s.version.(sending := s.version.protocol)), false);
    ActivateFacts(u, cfg);
    ActivateRest(u, cfg);
    ExecuteActivates(s, cfg);
    hide ActivateEpoch, Unexpired, AddsSender, Step;
  }

  lemma ActivateRest(s: State, cfg: Config)
    requires s.epochs.pending.Some? && s.send == Init().send && cfg.self in s.epochs.pending.value.senders
    ensures var t := ActivateEpoch(s, cfg);
            && t.send == s.send.(current := Some(Ref(s.epochs.pending.value.build, cfg.self)))
            && t.log == s.log.(activated := true, attemptResets := t.log.attemptResets)
            && t.mls == s.mls.(groupId := s.mls.pendingGroupId, pendingGroupId := None)
            && t.ratchets == s.ratchets && t.builds == s.builds
  {
    hide Unexpired, AddsSender;
  }

  /** The own commit is in flight. */
  predicate Races(s: State, self: UserId, minted: seq<Term>, origin: Group, announced: seq<Commit>) {
    && HasGroup(s) && s.mls.pendingCommit == Some(Own(self)) && s.epochs.pending.Some?
    && InUse(s, self, minted + [Applied(JOINED.term, Own(self))], origin, announced)
  }

  lemma CommitsOwn(s: State, self: UserId, minted: seq<Term>, origin: Group, announced: seq<Commit>)
    requires Talks(s, self, minted, origin, announced)
    ensures Races(Step(s, Member(self), Proposed(Own(self))), self, minted, origin, announced)
  {
    var u := Taken(Arrived(s), Proposed(Own(self)).batch.(id := s.log.arrived));
    var m := MakeCommit(u, Own(self));
    BatchSteps(s, Member(self), Own(self));
    OwnCommitFacts(u, Own(self));
    hide Step, MakeCommit, SetPending, NewRatchets, BuildEpoch, Own;
    SetPendingFacts(m);
    assert Ref(0, 1) in SetPending(m).ratchets;
  }

  lemma FounderRun()
    ensures Races(Run(Init(), Member(1), Founder()), 1, [FOUNDED.term, JOINED.term], FOUNDED, [ADD])
  {
    var cfg, e0 := Member(1), Founding();
    MemberStarts(1);
    hide Step, Run, Started, Waits, Talks, Races, Member, Founding;
    var e1 := e0 + [Proposed(ADD)];
    var e2 := e1 + [PrepareCommit(5, Some(ADD), OK)];
    var e3 := e2 + [ExecuteTransition(5, OK)];
    RunOneMore(Init(), cfg, e0, Proposed(ADD));
    FounderCommits(Run(Init(), cfg, e0));
    RunOneMore(Init(), cfg, e1, PrepareCommit(5, Some(ADD), OK));
    FounderConfirms(Run(Init(), cfg, e1));
    RunOneMore(Init(), cfg, e2, ExecuteTransition(5, OK));
    Executes(Run(Init(), cfg, e2), 1, [FOUNDED.term, JOINED.term], FOUNDED, [ADD]);
    RunOneMore(Init(), cfg, e3, Proposed(Own(1)));
    CommitsOwn(Run(Init(), cfg, e3), 1, [FOUNDED.term, JOINED.term], FOUNDED, [ADD]);
  }

  lemma JoinerRun()
    ensures Races(Run(Init(), Member(2), Joiner()), 2, [Created(2, 0), JOINED.term], JOINED, [])
  {
    var cfg, e0 := Member(2), Founding();
    MemberStarts(2);
    hide Step, Run, Started, Waits, Talks, Races, Member, Founding;
    var e1 := e0 + [GetWelcome(5, Welcome(1, JOINED, true, true), OK)];
    var e2 := e1 + [ExecuteTransition(5, OK)];
    RunOneMore(Init(), cfg, e0, GetWelcome(5, Welcome(1, JOINED, true, true), OK));
    JoinerWelcomed(Run(Init(), cfg, e0));
    RunOneMore(Init(), cfg, e1, ExecuteTransition(5, OK));
    Executes(Run(Init(), cfg, e1), 2, [Created(2, 0), JOINED.term], JOINED, []);
    RunOneMore(Init(), cfg, e2, Proposed(Own(2)));
    CommitsOwn(Run(Init(), cfg, e2), 2, [Created(2, 0), JOINED.term], JOINED, []);
  }

  // ---- The frame ----

  lemma FrameSeals(a: State, frame: seq<byte>, room: nat)
    requires a.send == Init().send.(current := Some(Ref(0, 1))) && room >= |frame| + 255
    requires Ref(0, 1) in a.ratchets && a.ratchets[Ref(0, 1)] == KeyRatchet(KEY.root, Ratchet.START)
    ensures Encrypt(a, Member(1), frame, room).1.Ok?
    ensures F.EncryptFrame(AEAD, KEY, frame, 1, []) == Ok(Encrypt(a, Member(1), frame, room).1.value)
  {
    assert NextCounter(a) == 1 && Generation(1) == 0 && Truncated(1) == 1;
    var packet := F.EncryptFrame(AEAD, KEY, frame, 1, []);
    assert packet.Ok? && |packet.value| <= |frame| + 255 by { FrameFits(frame); }
    hide F.EncryptFrame, Generation, Truncated, Ratchet.AfterGetKey, Ratchet.AfterCommit;
  }

  lemma FrameFits(frame: seq<byte>)
    ensures var packet := F.EncryptFrame(AEAD, KEY, frame, 1, []);
            packet.Ok? && |packet.value| <= |frame| + 255
  {
    F.EncryptSucceeds(AEAD, KEY, frame, 1, []);
  }

  /** The key decides the first byte of a frame's tag. */
  lemma TagOfKey(k: MediaKey, p: seq<byte>, n: uint32, rs: seq<Ranges.Range>)
    ensures F.FrameOf(AEAD, k, p, n, rs).tag[0] == if k == KEY then 1 else 0
  {
    hide F.Footer, Ranges.Weave;
    var sealed := F.SealedParts(AEAD, k, p, n, rs);
    assert sealed[|sealed| - 8] == Tag(k)[0];
  }

  lemma SealedUnder(k: MediaKey, p: seq<byte>, n: uint32, rs: seq<Ranges.Range>, frame: seq<byte>, packet: seq<byte>)
    requires F.EncryptsTo(AEAD, k, p, n, rs, packet) && F.EncryptsTo(AEAD, KEY, frame, 1, [], packet)
    ensures k == KEY
  {
    F.ReadBack(AEAD, k, p, n, rs, packet);
    F.ReadBack(AEAD, KEY, frame, 1, [], packet);
    hide F.FrameOf, F.Prints, F.EncryptsTo, AEAD, KEY;
    TagOfKey(k, p, n, rs);
    TagOfKey(KEY, frame, 1, []);
    F.PrintInjective(F.FrameOf(AEAD, k, p, n, rs), F.FrameOf(AEAD, KEY, frame, 1, []), packet);
  }

  lemma FrameOpensOnce(frame: seq<byte>, packet: seq<byte>, self: UserId)
    requires F.EncryptFrame(AEAD, KEY, frame, 1, []) == Ok(packet)
    ensures OpensOnce(Member(self), packet)
  {
    assert F.EncryptsTo(AEAD, KEY, frame, 1, [], packet);
    hide F.EncryptsTo, KEY, F.EncryptFrame;
    forall k | F.OpensTo(AEAD, k, packet).Some? ensures k == KEY {
      var p, n: uint32, rs :| F.EncryptsTo(AEAD, k, p, n, rs, packet);
      SealedUnder(k, p, n, rs, frame, packet);
    }
    assert Member(self).aead == AEAD;
    hide AEAD, F.OpensTo;
  }

  /** What the theorem about hearing asks of the founder and of the joiner. */
  lemma FounderSends(a: State, frame: seq<byte>, room: nat)
    requires Races(a, 1, [FOUNDED.term, JOINED.term], FOUNDED, [ADD]) && room >= |frame| + 255
    ensures HasGroup(a) && !a.log.stacked && Settled(a) == Some(Active) && a.mls.pendingCommit == Some(Own(1))
    ensures a.send.current.Some? && SelectSendRatchet(a) == a && LiveRatchet(a) == a.send.current && NextCounter(a) == 1
    ensures Encrypt(a, Member(1), frame, room).1.Ok?
    ensures F.EncryptFrame(AEAD, KEY, frame, 1, []) == Ok(Encrypt(a, Member(1), frame, room).1.value)
  {
    FrameSeals(a, frame, room);
    hide Encrypt, F.EncryptFrame;
  }

  lemma JoinerHears(s: State)
    requires Races(s, 2, [Created(2, 0), JOINED.term], JOINED, [])
    ensures HasGroup(s) && !s.log.stacked && Settled(s) == Some(Active) && s.mls.pendingCommit == Some(Own(2))
    ensures NoDup(s.log.minted) && Hears(s, Active, 1, 1)
  {
  }

  lemma FounderLed()
    ensures Origin(Member(1), Founder()).Some? && Led(Member(1), Founder()) == JOINED
  {
    FounderRun();
    AnnouncedAreMessages(Member(1), Founder());
    assert [ADD][..0] == [];
    hide Run, Messages, Origin, Member, Founder;
  }

  lemma JoinerLed()
    ensures Origin(Member(2), Joiner()).Some? && Led(Member(2), Joiner()) == JOINED
  {
    JoinerRun();
    AnnouncedAreMessages(Member(2), Joiner());
    hide Run, Messages, Origin, Member, Joiner;
  }

  /** Member 1 sends any frame while each of the two has a commit of its own in flight, and
      member 2 delivers it. */
  lemma TwoMembersTalk(frame: seq<byte>, sendRoom: nat, room: nat)
    requires |frame| < TWO32 && sendRoom >= |frame| + 255 && room >= |frame|
    ensures var a, s := Run(Init(), Member(1), Founder()), Run(Init(), Member(2), Joiner());
            && a.mls.pendingCommit == Some(Own(1)) && s.mls.pendingCommit == Some(Own(2))
            && HasGroup(a) && HasGroup(s) && Together(a, s) && Settled(a).Some? && Settled(s).Some?
            && Encrypt(a, Member(1), frame, sendRoom).1.Ok?
            && Decrypt(s, Member(2), 1, Encrypt(a, Member(1), frame, sendRoom).1.value, room).1 == Ok(frame)
  {
    assert Member(1).self == 1 && Member(1).aead == Member(2).aead
           && Member(2).maxGap == Ratchet.DEFAULT_MAX_GENERATION_GAP;
    FounderLed();
    JoinerLed();
    FounderRun();
    JoinerRun();
    var a, s := Run(Init(), Member(1), Founder()), Run(Init(), Member(2), Joiner());
    hide Run, Member, Founder, Joiner, Races, Led, Origin, Settled, Encrypt, Decrypt, Hears, F.EncryptFrame, NoDup,
         OpensOnce, Together, SelectSendRatchet, NextCounter, AEAD, KEY, LiveRatchet;
    FounderSends(a, frame, sendRoom);
    JoinerHears(s);
    FrameOpensOnce(frame, Encrypt(a, Member(1), frame, sendRoom).1.value, 2);
    Convergence(Member(1), Founder(), Member(2), Joiner());
    MembersHear(Member(1), Founder(), Member(2), Joiner(), frame, sendRoom, room);
  }
}
