/** The media path of a session: Encrypt and Decrypt (session/session.go:399-637), and
    what may run while a handler's send has released the lock. */
module SessionMedia {
  import opened Bytes
  import opened Frame
  import opened Nonce
  import opened SessionState
  import Replay
  import Ratchet

  datatype MediaError = MissingKeyRatchet | DecryptionFailed | ShortBuffer | BadFrame | KeyUnavailable

  // ---- Sending ----

  /** The send counter starts over. */
  function Restart(s: State): State {
    s.(send := s.send.(counter := 0), log := s.log.(restarts := s.log.restarts + {|s.log.sends|}))
  }

  /** selectSendRatchetLocked. */
  function SelectSendRatchet(s: State): State {
    if s.send.retained.Some? && s.now >= s.send.retainedExpires
    then Restart(s.(send := s.send.(retained := None, retainedExpires := 0)))
    else s
  }

  function LiveRatchet(s: State): Option<Ref> {
    if s.send.retained.Some? then s.send.retained else s.send.current
  }

  function GetKey(s: State, cfg: Config, ref: Ref, g: uint32): State
    requires ref in s.ratchets
  {
    var r := s.ratchets[ref];
    s.(ratchets := s.ratchets[ref := r.(position :=
        Ratchet.AfterGetKey(r.position, cfg.maxGap, KEY_RETENTION, s.now, g))])
  }

  predicate KeyAvailable(s: State, cfg: Config, ref: Ref, g: uint32)
    requires ref in s.ratchets
  {
    Ratchet.Available(s.ratchets[ref].position, cfg.maxGap, s.now, g)
  }

  function CommitRatchet(s: State, cfg: Config, ref: Ref, g: uint32): State
    requires ref in s.ratchets
  {
    var r := s.ratchets[ref];
    s.(ratchets := s.ratchets[ref := r.(position := Ratchet.AfterCommit(r.position, cfg.maxGap, g))])
  }

  function LogSend(s: State, send: Send): State {
    s.(log := s.log.(sends := s.log.sends + [send]))
  }

  /** The cipher cache: rebuilt when the key differs from the one it was built for. */
  function UseCipher(s: State, key: MediaKey): State {
    if s.send.cipherKey == Some(key) then s
    else s.(send := s.send.(cipher := Some(key), cipherKey := Some(key)))
  }

  /** Fetches the key of generation g, commits the ratchet to it, and returns the key
      of the cipher that will seal, if there is one. */
  function KeyUp(s: State, cfg: Config, ref: Ref, g: uint32): (State, Option<MediaKey>)
    requires ref in s.ratchets
  {
    var key := MediaKey(s.ratchets[ref].root, g);
    var s1 := GetKey(s, cfg, ref, g);
    if !KeyAvailable(s, cfg, ref, g) then (s1, None)
    else
      var s2 := CommitRatchet(s1, cfg, ref, g);
      if s2.send.cipherKey != Some(key) && !cfg.aead.validKey(key) then (s2, None)
      else (UseCipher(s2, key), UseCipher(s2, key).send.cipher)
  }

  function NextCounter(s: State): uint64 { (s.send.counter + 1) % TWO64 }

  /** Encrypt with the ratchet it selected: next nonce, key, cipher, seal. */
  ghost function EncryptWith(s: State, cfg: Config, ref: Ref, frame: seq<byte>, room: nat)
    : (r: (State, Result<seq<byte>, MediaError>))
    requires ref in s.ratchets
  {
    var full := NextCounter(s);
    var (s1, cipher) := KeyUp(s.(send := s.send.(counter := full)), cfg, ref, Generation(full));
    var s2 := LogSend(s1, Send(ref, s.ratchets[ref].root, full, cipher));
    if cipher.None? then (s2, Err(KeyUnavailable))
    else
      var packet := EncryptFrame(cfg.aead, cipher.value, frame, Truncated(full), []);
      if packet.Err? then (s2, Err(BadFrame))
      else if |packet.value| > room then (s2, Err(ShortBuffer))
      else (s2, Ok(packet.value))
  }

  /** copyPassthrough. */
  function Passthrough(frame: seq<byte>, room: nat): Result<seq<byte>, MediaError> {
    if room < |frame| then Err(ShortBuffer) else Ok(frame)
  }

  /** Session.Encrypt. */
  ghost function Encrypt(s: State, cfg: Config, frame: seq<byte>, room: nat): (State, Result<seq<byte>, MediaError>) {
    var s0 := SelectSendRatchet(s);
    var live := LiveRatchet(s0);
    if live.None? || live.value !in s0.ratchets then
      (s0, if cfg.strictEncrypt && s.version.sending != 0 then Err(MissingKeyRatchet) else Passthrough(frame, room))
    else EncryptWith(s0, cfg, live.value, frame, room)
  }

  // ---- Receiving ----

  predicate IsSilencePacket(frame: seq<byte>) { frame == [0xF8, 0xFF, 0xFE] }

  predicate RejectsPlaintext(s: State) {
    && s.version.protocol != 0
    && s.version.plaintextRejectedFrom.Some? && s.now >= s.version.plaintextRejectedFrom.value
  }

  /** pruneRetainedEpochsLocked. */
  function Unexpired(es: seq<Epoch>, now: Time): seq<Epoch> {
    if es == [] then []
    else if es[0].expiresAt > now then [es[0]] + Unexpired(es[1..], now) else Unexpired(es[1..], now)
  }

  /** Exactly the epochs whose time has not come survive a pruning. */
  lemma {:induction false} UnexpiredExactly(es: seq<Epoch>, now: Time, e: Epoch)
    ensures e in Unexpired(es, now) <==> e in es && e.expiresAt > now
  {
    if es != [] {
      UnexpiredExactly(es[1..], now, e);
      assert es == [es[0]] + es[1..];
    }
  }

  function PruneRetained(s: State): State { s.(epochs := s.epochs.(retained := Unexpired(s.epochs.retained, s.now))) }

  /** Where an epoch hangs in the session. */
  datatype Slot = Active | Pending | Retained(index: nat)

  predicate Has(s: State, slot: Slot) {
    match slot
    case Active => s.epochs.active.Some?
    case Pending => s.epochs.pending.Some?
    case Retained(i) => i < |s.epochs.retained|
  }

  function At(s: State, slot: Slot): Epoch
    requires Has(s, slot)
  {
    match slot
    case Active => s.epochs.active.value
    case Pending => s.epochs.pending.value
    case Retained(i) => s.epochs.retained[i]
  }

  function Put(s: State, slot: Slot, e: Epoch): State
    requires Has(s, slot)
  {
    match slot
    case Active => s.(epochs := s.epochs.(active := Some(e)))
    case Pending => s.(epochs := s.epochs.(pending := Some(e)))
    case Retained(i) => s.(epochs := s.epochs.(retained := s.epochs.retained[i := e]))
  }

  function PutSender(s: State, slot: Slot, user: UserId, x: SenderState): State
    requires Has(s, slot)
  {
    Put(s, slot, At(s, slot).(senders := At(s, slot).senders[user := x]))
  }

  datatype Attempt = Skip | Refused | TooShort | Replayed | Delivered(plaintext: seq<byte>)

  /** One turn of Decrypt's loop: expand, get the key, authenticate, then commit the
      expander and the ratchet and ask the replay window. */
  ghost function TryEpoch(s: State, cfg: Config, user: UserId, packet: seq<byte>, nonce: uint32, room: nat, slot: Slot)
    : (State, Attempt)
  {
    if !Has(s, slot) then (s, Skip)
    else
      var e := At(s, slot);
      var ref := Ref(e.build, user);
      if user !in e.senders || ref !in s.ratchets then (s, Skip)
      else
        var sender := e.senders[user];
        var full := ExpandTentative(sender.highest, nonce);
        var g := Generation(full);
        var s1 := GetKey(s, cfg, ref, g);
        if !KeyAvailable(s, cfg, ref, g) then (s1, Refused)
        else
          var plain := OpensTo(cfg.aead, MediaKey(s.ratchets[ref].root, g), packet);
          if plain.None? then (s1, Refused)
          else if room < |plain.value.0| then (s1, TooShort)
          else
            var s2 := CommitRatchet(s1, cfg, ref, g);
            var (record, accepted) := Replay.CheckAndMark(sender.replay, full);
            var s3 := PutSender(s2, slot, user, SenderState(CommitNonce(sender.highest, full), record));
            if !accepted then (s3, Replayed)
            else
              (s3.(log := s3.log.(deliveries := s3.log.deliveries
                   + [Delivery(user, packet, ref, full, plain.value.0)])),
               Delivered(plain.value.0))
  }

  function Candidates(s: State): seq<Slot> {
    [Active, Pending] + seq(|s.epochs.retained|, i requires 0 <= i < |s.epochs.retained| => Retained(i))
  }

  /** Decrypt's loop over the remaining candidates; it stops at the first delivery or
      at a buffer that is too short. */
  ghost function TryEpochs(s: State, cfg: Config, user: UserId, packet: seq<byte>, nonce: uint32, room: nat,
                           slots: seq<Slot>): (State, Result<seq<byte>, MediaError>)
    decreases |slots|
  {
    if slots == [] then (s, Err(DecryptionFailed))
    else
      var (s1, a) := TryEpoch(s, cfg, user, packet, nonce, room, slots[0]);
      match a
      case Delivered(p) => (s1, Ok(p))
      case TooShort => (s1, Err(ShortBuffer))
      case _ => TryEpochs(s1, cfg, user, packet, nonce, room, slots[1..])
  }

  ghost function NonceOf(packet: seq<byte>): Option<uint32> {
    if exists f :: Prints(f, packet) then
      var f :| Prints(f, packet);
      Some(f.nonce)
    else None
  }

  /** Session.Decrypt. */
  ghost function Decrypt(s: State, cfg: Config, user: UserId, packet: seq<byte>, room: nat)
    : (State, Result<seq<byte>, MediaError>)
  {
    if !LooksLikeDaveFrame(packet) then
      (s, if RejectsPlaintext(s) && !IsSilencePacket(packet) then Err(DecryptionFailed) else Passthrough(packet, room))
    else
      var nonce := NonceOf(packet);
      if nonce.None? then (s, Err(BadFrame))
      else
        var s0 := PruneRetained(s);
        TryEpochs(s0, cfg, user, packet, nonce.value, room, Candidates(s0))
  }

  // ---- While a send has released the lock ----

  ghost function RunCall(s: State, cfg: Config, call: MediaCall): State {
    match call
    case EncryptCall(frame, room) => Encrypt(s, cfg, frame, room).0
    case DecryptCall(user, packet, room) => Decrypt(s, cfg, user, packet, room).0
    case SetChannelBusy(channel) => s.(channelId := channel)
    case Tick(elapsed) => s.(now := s.now + elapsed)
    case Close => s.(shutdown := true)
  }

  ghost function RunCalls(s: State, cfg: Config, calls: seq<MediaCall>): State
    decreases |calls|
  {
    if calls == [] then s else RunCalls(RunCall(s, cfg, calls[0]), cfg, calls[1..])
  }

  // ---- What media calls leave alone ----

  /** Same epoch object: only what its senders have received may differ. */
  predicate SameEpoch(a: Epoch, b: Epoch) {
    a == b.(senders := a.senders) && a.senders.Keys == b.senders.Keys
  }

  predicate SameOption(a: Option<Epoch>, b: Option<Epoch>) {
    a.Some? == b.Some? && (a.Some? ==> SameEpoch(a.value, b.value))
  }

  /** fs are the epochs of es at the given, ascending indices. */
  predicate PrunedBy(es: seq<Epoch>, fs: seq<Epoch>, kept: seq<nat>) {
    && |kept| == |fs|
    && (forall i :: 0 <= i < |fs| ==> kept[i] < |es| && SameEpoch(es[kept[i]], fs[i]))
    && (forall i, j :: 0 <= i < j < |fs| ==> kept[i] < kept[j])
  }

  ghost predicate Pruned(es: seq<Epoch>, fs: seq<Epoch>) {
    exists kept :: PrunedBy(es, fs, kept)
  }

  /** t is s except for the send position, what senders have received, the key caches,
      the channel, the clock, the shutdown flag, and pruned epochs. */
  ghost predicate MediaStep(s: State, t: State) {
    && SameOption(s.epochs.active, t.epochs.active) && SameOption(s.epochs.pending, t.epochs.pending)
    && Pruned(s.epochs.retained, t.epochs.retained)
    && SameRatchets(s.ratchets, t.ratchets)
    && s.now <= t.now && (s.shutdown ==> t.shutdown)
    && t.send.current == s.send.current && (t.send.retained == s.send.retained || t.send.retained.None?)
    && t.log == s.log.(sends := t.log.sends, deliveries := t.log.deliveries, restarts := t.log.restarts)
    && t == s.(now := t.now, channelId := t.channelId, epochs := t.epochs, send := t.send,
               ratchets := t.ratchets, shutdown := t.shutdown, log := t.log)
  }

  /** The same ratchets, at positions of their own. */
  predicate SameRatchets(a: map<Ref, KeyRatchet>, b: map<Ref, KeyRatchet>) {
    a.Keys == b.Keys && forall r :: r in a ==> b[r].root == a[r].root
  }

  lemma MediaStepTransitive(s: State, t: State, u: State)
    requires MediaStep(s, t) && MediaStep(t, u)
    ensures MediaStep(s, u)
  {
    PrunedTwice(s.epochs.retained, t.epochs.retained, u.epochs.retained);
    hide Pruned;
  }

  lemma PrunedTwice(es: seq<Epoch>, fs: seq<Epoch>, gs: seq<Epoch>)
    requires Pruned(es, fs) && Pruned(fs, gs)
    ensures Pruned(es, gs)
  {
    var a :| PrunedBy(es, fs, a);
    var b :| PrunedBy(fs, gs, b);
    var c := seq(|gs|, i requires 0 <= i < |gs| => a[b[i]]);
    assert PrunedBy(es, gs, c);
  }

  lemma NotPruned(es: seq<Epoch>, fs: seq<Epoch>)
    requires |es| == |fs| && forall i :: 0 <= i < |es| ==> SameEpoch(es[i], fs[i])
    ensures Pruned(es, fs)
  {
    assert PrunedBy(es, fs, seq(|es|, i requires 0 <= i < |es| => i));
  }

  lemma PrunedTail(e: Epoch, es: seq<Epoch>, fs: seq<Epoch>)
    requires Pruned(es, fs)
    ensures Pruned([e] + es, fs) && Pruned([e] + es, [e] + fs)
  {
    hide SameEpoch;
    var k :| PrunedBy(es, fs, k);
    var up := seq(|k|, i requires 0 <= i < |k| => k[i] + 1);
    forall i | 0 <= i < |fs| ensures up[i] < |[e] + es| && ([e] + es)[up[i]] == es[k[i]] {
    }
    assert PrunedBy([e] + es, fs, up);
    PrunedCons(e, es, fs, up);
  }

  lemma PrunedCons(e: Epoch, es: seq<Epoch>, fs: seq<Epoch>, up: seq<nat>)
    requires PrunedBy([e] + es, fs, up) && forall i :: 0 <= i < |up| ==> up[i] > 0
    ensures Pruned([e] + es, [e] + fs)
  {
    assert SameEpoch(e, e);
    hide SameEpoch;
    var all, gs, kept := [e] + es, [e] + fs, [0] + up;
    forall i | 0 <= i < |gs| ensures kept[i] < |all| && SameEpoch(all[kept[i]], gs[i]) {
      if i > 0 { assert kept[i] == up[i - 1] && gs[i] == fs[i - 1]; }
    }
    forall i, j | 0 <= i < j < |gs| ensures kept[i] < kept[j] {
      if i > 0 { assert kept[i] == up[i - 1] && kept[j] == up[j - 1]; }
    }
    assert PrunedBy(all, gs, kept);
  }

  lemma {:induction false} UnexpiredIsPruned(es: seq<Epoch>, now: Time)
    ensures Pruned(es, Unexpired(es, now))
  {
    if es == [] {
      NotPruned(es, es);
    } else {
      hide Pruned;
      UnexpiredIsPruned(es[1..], now);
      PrunedTail(es[0], es[1..], Unexpired(es[1..], now));
      assert [es[0]] + es[1..] == es;
    }
  }

  lemma RatchetStep(s: State, cfg: Config, ref: Ref, g: uint32)
    requires ref in s.ratchets
    ensures MediaStep(s, GetKey(s, cfg, ref, g)) && MediaStep(s, CommitRatchet(s, cfg, ref, g))
  {
    hide Ratchet.AfterGetKey, Ratchet.AfterCommit, Pruned;
    NotPruned(s.epochs.retained, s.epochs.retained);
  }

  lemma LogSendStep(s: State, send: Send)
    ensures MediaStep(s, LogSend(s, send))
  {
    NotPruned(s.epochs.retained, s.epochs.retained);
  }

  lemma UseCipherStep(s: State, key: MediaKey)
    ensures MediaStep(s, UseCipher(s, key))
  {
    NotPruned(s.epochs.retained, s.epochs.retained);
  }

  lemma KeyUpStep(s: State, cfg: Config, ref: Ref, g: uint32)
    requires ref in s.ratchets
    ensures MediaStep(s, KeyUp(s, cfg, ref, g).0)
  {
    hide GetKey, CommitRatchet, UseCipher, MediaStep, KeyAvailable;
    var s1 := GetKey(s, cfg, ref, g);
    RatchetStep(s, cfg, ref, g);
    MediaStepKeepsRefs(s, s1, ref);
    var s2 := CommitRatchet(s1, cfg, ref, g);
    RatchetStep(s1, cfg, ref, g);
    MediaStepTransitive(s, s1, s2);
    var key := MediaKey(s.ratchets[ref].root, g);
    UseCipherStep(s2, key);
    MediaStepTransitive(s, s2, UseCipher(s2, key));
  }

  lemma EncryptWithStep(s: State, cfg: Config, ref: Ref, frame: seq<byte>, room: nat)
    requires ref in s.ratchets
    ensures MediaStep(s, EncryptWith(s, cfg, ref, frame, room).0)
  {
    hide NextCounter;
    var full := NextCounter(s);
    var s0 := s.(send := s.send.(counter := full));
    NotPruned(s.epochs.retained, s.epochs.retained);
    assert MediaStep(s, s0);
    hide EncryptFrame, KeyUp, LogSend, MediaStep, Generation, Truncated;
    var (s1, cipher) := KeyUp(s0, cfg, ref, Generation(full));
    KeyUpStep(s0, cfg, ref, Generation(full));
    MediaStepTransitive(s, s0, s1);
    var send := Send(ref, s.ratchets[ref].root, full, cipher);
    LogSendStep(s1, send);
    MediaStepTransitive(s, s1, LogSend(s1, send));
  }

  lemma MediaStepKeepsRefs(s: State, t: State, ref: Ref)
    requires MediaStep(s, t) && ref in s.ratchets
    ensures ref in t.ratchets && t.ratchets[ref].root == s.ratchets[ref].root
  {
  }

  lemma EncryptStep(s: State, cfg: Config, frame: seq<byte>, room: nat)
    ensures MediaStep(s, Encrypt(s, cfg, frame, room).0)
  {
    var s0 := SelectSendRatchet(s);
    NotPruned(s.epochs.retained, s.epochs.retained);
    assert MediaStep(s, s0);
    hide EncryptWith, MediaStep, SelectSendRatchet;
    var live := LiveRatchet(s0);
    if live.Some? && live.value in s0.ratchets {
      EncryptWithStep(s0, cfg, live.value, frame, room);
      MediaStepTransitive(s, s0, EncryptWith(s0, cfg, live.value, frame, room).0);
    }
  }

  lemma PutSenderStep(s: State, slot: Slot, user: UserId, x: SenderState)
    requires Has(s, slot) && user in At(s, slot).senders
    ensures MediaStep(s, PutSender(s, slot, user, x))
  {
    hide Pruned;
    var e := At(s, slot);
    assert SameEpoch(e, e.(senders := e.senders[user := x]));
    NotPruned(s.epochs.retained, PutSender(s, slot, user, x).epochs.retained);
  }

  lemma DeliverStep(s: State, d: Delivery)
    ensures MediaStep(s, s.(log := s.log.(deliveries := s.log.deliveries + [d])))
  {
    NotPruned(s.epochs.retained, s.epochs.retained);
  }

  lemma MediaStepKeepsRetained(s: State, cfg: Config, ref: Ref, g: uint32)
    requires ref in s.ratchets
    ensures GetKey(s, cfg, ref, g).epochs == s.epochs && CommitRatchet(s, cfg, ref, g).epochs == s.epochs
  {
  }

  lemma TryEpochStep(s: State, cfg: Config, user: UserId, packet: seq<byte>, nonce: uint32, room: nat, slot: Slot)
    ensures MediaStep(s, TryEpoch(s, cfg, user, packet, nonce, room, slot).0)
  {
    MediaStepReflexive(s);
    hide OpensTo, GetKey, CommitRatchet, PutSender, MediaStep, ExpandTentative, KeyAvailable, CommitNonce,
         Replay.CheckAndMark;
    if Has(s, slot) && user in At(s, slot).senders && Ref(At(s, slot).build, user) in s.ratchets {
      var ref := Ref(At(s, slot).build, user);
      var sender := At(s, slot).senders[user];
      var full := ExpandTentative(sender.highest, nonce);
      var g := Generation(full);
      var s1 := GetKey(s, cfg, ref, g);
      RatchetStep(s, cfg, ref, g);
      MediaStepKeepsRetained(s, cfg, ref, g);
      MediaStepKeepsRefs(s, s1, ref);
      var s2 := CommitRatchet(s1, cfg, ref, g);
      RatchetStep(s1, cfg, ref, g);
      MediaStepKeepsRetained(s1, cfg, ref, g);
      MediaStepTransitive(s, s1, s2);
      var x := SenderState(CommitNonce(sender.highest, full), Replay.CheckAndMark(sender.replay, full).0);
      PutSenderStep(s2, slot, user, x);
      var s3 := PutSender(s2, slot, user, x);
      MediaStepTransitive(s, s2, s3);
      var plain := OpensTo(cfg.aead, MediaKey(s.ratchets[ref].root, g), packet);
      if plain.Some? {
        var d := Delivery(user, packet, ref, full, plain.value.0);
        DeliverStep(s3, d);
        MediaStepTransitive(s, s3, s3.(log := s3.log.(deliveries := s3.log.deliveries + [d])));
      }
    }
  }

  lemma MediaStepReflexive(s: State)
    ensures MediaStep(s, s)
  {
    NotPruned(s.epochs.retained, s.epochs.retained);
  }

  lemma {:induction false} TryEpochsStep(s: State, cfg: Config, user: UserId, packet: seq<byte>, nonce: uint32,
                                         room: nat,
                                         slots: seq<Slot>)
    ensures MediaStep(s, TryEpochs(s, cfg, user, packet, nonce, room, slots).0)
    decreases |slots|
  {
    MediaStepReflexive(s);
    hide TryEpoch, MediaStep;
    if slots != [] {
      var (s1, a) := TryEpoch(s, cfg, user, packet, nonce, room, slots[0]);
      TryEpochStep(s, cfg, user, packet, nonce, room, slots[0]);
      TryEpochsStep(s1, cfg, user, packet, nonce, room, slots[1..]);
      MediaStepTransitive(s, s1, TryEpochs(s1, cfg, user, packet, nonce, room, slots[1..]).0);
    }
  }

  lemma PruneStep(s: State)
    ensures MediaStep(s, PruneRetained(s))
  {
    hide Unexpired, Pruned;
    UnexpiredIsPruned(s.epochs.retained, s.now);
  }

  lemma DecryptStep(s: State, cfg: Config, user: UserId, packet: seq<byte>, room: nat)
    ensures MediaStep(s, Decrypt(s, cfg, user, packet, room).0)
  {
    hide TryEpochs, MediaStep, PruneRetained, NonceOf;
    var s0 := PruneRetained(s);
    PruneStep(s);
    MediaStepReflexive(s);
    if NonceOf(packet).Some? {
      var nonce := NonceOf(packet).value;
      TryEpochsStep(s0, cfg, user, packet, nonce, room, Candidates(s0));
      MediaStepTransitive(s, s0, TryEpochs(s0, cfg, user, packet, nonce, room, Candidates(s0)).0);
    }
  }

  lemma CallStep(s: State, cfg: Config, call: MediaCall)
    ensures MediaStep(s, RunCall(s, cfg, call))
  {
    hide Decrypt, Encrypt;
    NotPruned(s.epochs.retained, s.epochs.retained);
    match call
    case EncryptCall(frame, room) =>
      EncryptStep(s, cfg, frame, room);
    case DecryptCall(user, packet, room) =>
      DecryptStep(s, cfg, user, packet, room);
    case _ =>
  }

  /** Whatever runs while the lock is released is a media step. */
  lemma {:induction false} CallsStep(s: State, cfg: Config, calls: seq<MediaCall>)
    ensures MediaStep(s, RunCalls(s, cfg, calls))
    decreases |calls|
  {
    MediaStepReflexive(s);
    hide RunCall, MediaStep;
    if calls != [] {
      var s1 := RunCall(s, cfg, calls[0]);
      CallStep(s, cfg, calls[0]);
      CallsStep(s1, cfg, calls[1..]);
      MediaStepTransitive(s, s1, RunCalls(s1, cfg, calls[1..]));
    }
  }
}
