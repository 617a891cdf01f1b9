/** The session object (session/session.go, session/mls.go, session/retry.go), on the heap:
    its epochs refer to sender objects with a ratchet, an expander and a replay window of
    their own, and its send side to the own sender of an epoch. Each method changes what
    the source changes, and is proved to take the step of the transition system that the
    theorems about runs speak of.

    The sections from Sending to Activation share sender objects, update them in place and
    work on key bytes and buffers; the later ones only set fields and call the earlier. */
module Session {
  import opened Bytes
  import opened Gcm8
  import opened SessionState
  import opened Senders
  import opened SessionObjects
  import N = Nonce
  import F = Frame
  import M = SessionMedia
  import C = SessionControl
  import Replay
  import Ratchet

  /** A call that should return these bytes or this error reports their number and has
      put them at the front of the buffer. */
  ghost predicate Written(bytes: Result<seq<byte>, M.MediaError>, r: Result<nat, M.MediaError>, dst: seq<byte>) {
    match bytes
    case Err(e) => r == Err(e)
    case Ok(p) => r == Ok(|p|) && p <= dst
  }

  class Session {
    const cfg: Config
    const aead: Aead<seq<byte>>
    const store: Store
    const counter: N.NonceCounter

    var now: Time
    var channelId: nat
    var shutdown: bool
    var pendingTransitionId: nat
    var version: Versions
    var epochs: EpochObjects
    var send: SendObjects
    var builds: nat
    var mls: Mls
    var recovery: Recovery

    /** What the gateway and the MLS library answer during the current section. */
    var env: Env

    /** The history of the run, written along; read only to number the proposal batches. */
    var log: Log

    ghost function Footprint(): set<object>
      reads this, store
    {
      {this, store, counter} + store.repr
    }

    /** Epochs and send side refer to the objects of their names, and the cached cipher is
        that of its key. */
    ghost predicate Valid()
      reads this, store, counter, store.repr
    {
      && store.Valid() && this !in store.repr && counter !in store.repr
      && cfg.aead == Symbolic(store.kdf, store.exporter, aead) && store.gap == cfg.maxGap
      && EpochsBacked(store.objects, builds, epochs)
      && NamedBacked(store.objects, send.current) && NamedBacked(store.objects, send.retained)
      && CipherBacked(store.kdf, store.exporter, aead, send)
    }

    /** What the objects stand for. */
    ghost function Snapshot(): State
      reads this, store, counter
    {
      State(now, channelId, shutdown, pendingTransitionId, version, EpochsOf(store.heard, epochs),
            SendingOf(counter.counter, send), store.ratchets, builds, mls, recovery, env, log)
    }

    constructor (cfg: Config, aead: Aead<seq<byte>>, kdf: Ratchet.Kdf<Secret>, exporter: Root -> Secret)
      requires cfg.aead == Symbolic(kdf, exporter, aead)
      ensures this.cfg == cfg && Valid() && fresh(Footprint()) && Snapshot() == Init()
    {
      this.cfg, this.aead := cfg, aead;
      store := new Store(kdf, exporter, cfg.maxGap);
      counter := new N.NonceCounter();
      now, channelId, shutdown, pendingTransitionId := 0, 0, false, 0;
      version := Versions(0, 0, false, None);
      epochs := EpochObjects(None, None, []);
      send := SendObjects(None, None, 0, None, None);
      builds := 0;
      mls := Mls(None, None, None, false, false, [], None, None);
      recovery := Recovery(0, {}, 0, map[], 0);
      env := NO_ENV;
      log := Log([], [], [], [], 0, [], 0, 0, 0, 0, None, [], false, false, false, false, {});
    }

    // ---- Sending ----

    /** selectSendRatchetLocked. */
    method SelectSendRatchet() returns (live: Option<Named>)
      requires Valid()
      modifies Footprint()
      ensures Valid() && fresh(Footprint() - old(Footprint()))
      ensures Snapshot() == M.SelectSendRatchet(old(Snapshot())) && store.objects == old(store.objects)
      ensures RefOf(live) == M.LiveRatchet(Snapshot()) && NamedBacked(store.objects, live)
    {
      hide EpochsBacked, EpochsOf, KeyBytes, Symbolic, Store.Valid;
      if send.retained.Some? {
        if now < send.retainedExpires { return send.retained; }
        counter.Reset();
        send := send.(retained := None, retainedExpires := 0);
        log := log.(restarts := log.restarts + {|log.sends|});
      }
      return send.current;
    }

    method GetKey(n: Named, g: uint32) returns (key: Option<seq<byte>>)
      requires NamedBacked(store.objects, Some(n))
      requires Valid()
      modifies Footprint()
      ensures Valid() && fresh(Footprint() - old(Footprint()))
      ensures store.objects == old(store.objects) && store.heard == old(store.heard) && epochs == old(epochs)
      ensures n.ref in old(Snapshot()).ratchets && old(Snapshot()).ratchets[n.ref].root == n.sender.root
      ensures Snapshot() == M.GetKey(old(Snapshot()), cfg, n.ref, g)
      ensures key.Some? == M.KeyAvailable(old(Snapshot()), cfg, n.ref, g)
      ensures key.Some? ==> key.value == KeyBytes(store.kdf, store.exporter, MediaKey(n.sender.root, g))
    {
      hide EpochsBacked, EpochsOf, CipherBacked, Ratchet.AfterGetKey, Ratchet.Available, Ratchet.ChainKey, Symbolic,
           Store.Valid;
      store.RootOf(n.ref);
      key := store.GetKey(n.ref, n.sender, g, now);
    }

    method CommitRatchet(n: Named, g: uint32)
      requires NamedBacked(store.objects, Some(n))
      requires Valid()
      modifies Footprint()
      ensures Valid() && fresh(Footprint() - old(Footprint()))
      ensures store.objects == old(store.objects) && store.heard == old(store.heard) && epochs == old(epochs)
      ensures n.ref in old(Snapshot()).ratchets && Snapshot() == M.CommitRatchet(old(Snapshot()), cfg, n.ref, g)
    {
      hide EpochsBacked, EpochsOf, CipherBacked, Ratchet.AfterCommit, Symbolic, Store.Valid;
      store.RootOf(n.ref);
      store.Commit(n.ref, n.sender, g);
    }

    /** The cipher cache: a new cipher only when the key bytes changed. */
    method UseCipher(key: MediaKey, bytes: seq<byte>) returns (cipher: Option<Keyed>)
      requires bytes == KeyBytes(store.kdf, store.exporter, key)
      requires Valid()
      modifies Footprint()
      ensures Valid() && fresh(Footprint() - old(Footprint()))
      ensures if old(Snapshot()).send.cipherKey != Some(key) && !cfg.aead.validKey(key)
              then Snapshot() == old(Snapshot()) && cipher.None?
              else Snapshot() == M.UseCipher(old(Snapshot()), key) && KeyOf(cipher) == Snapshot().send.cipher
                   && cipher == Some(Keyed(key, bytes))
    {
      hide EpochsBacked, EpochsOf, KeyBytes, Store.Valid;
      if send.cipherKey.None? || send.cipherKey.value.bytes != bytes {
        if !aead.validKey(bytes) { return None; }
      }
      send := send.(cipher := Some(Keyed(key, bytes)), cipherKey := Some(Keyed(key, bytes)));
      return send.cipher;
    }

    /** The key of generation g, and the cipher cached for it. */
    method KeyUp(n: Named, g: uint32) returns (cipher: Option<Keyed>)
      requires NamedBacked(store.objects, Some(n))
      requires Valid()
      modifies Footprint()
      ensures Valid() && fresh(Footprint() - old(Footprint()))
      ensures n.ref in old(Snapshot()).ratchets
      ensures (Snapshot(), KeyOf(cipher)) == M.KeyUp(old(Snapshot()), cfg, n.ref, g)
      ensures old(Snapshot()).ratchets[n.ref].root == n.sender.root
      ensures cipher.Some? ==> cipher.value.bytes == KeyBytes(store.kdf, store.exporter, cipher.value.key)
    {
      hide M.GetKey, M.CommitRatchet, M.KeyAvailable, M.UseCipher, KeyBytes, Valid, NamedBacked;
      var bytes := GetKey(n, g);
      if bytes.None? { return None; }
      CommitRatchet(n, g);
      cipher := UseCipher(MediaKey(n.sender.root, g), bytes.value);
    }

    /** The part of Encrypt that has a ratchet: next nonce, key, cipher, seal. */
    method EncryptWith(n: Named, frame: seq<byte>, dst: array<byte>) returns (r: Result<nat, M.MediaError>)
      requires Valid() && NamedBacked(store.objects, Some(n)) && dst !in Footprint()
      modifies Footprint(), dst
      ensures Valid() && fresh(Footprint() - old(Footprint()))
      ensures n.ref in old(Snapshot()).ratchets
      ensures var (t, packet) := M.EncryptWith(old(Snapshot()), cfg, n.ref, frame, dst.Length);
              Snapshot() == t && Written(packet, r, dst[..])
    {
      hide F.EncryptFrame, N.Generation, N.Truncated, M.KeyUp, EpochsBacked, EpochsOf, CipherBacked, KeyBytes,
           Store.Valid, Symbolic;
      var full, truncated, generation := counter.Next();
      assert full == M.NextCounter(old(Snapshot()));
      hide M.NextCounter;
      var cipher := KeyUp(n, generation);
      log := log.(sends := log.sends + [Send(n.ref, n.sender.root, full, KeyOf(cipher))]);
      if cipher.None? { return Err(M.KeyUnavailable); }
      var size := F.EncryptInto(dst, aead, cipher.value.bytes, frame, truncated, []);
      SymbolicFrame(store.kdf, store.exporter, aead, cipher.value.key, frame, truncated, []);
      NeverBufferError(aead, cipher.value.bytes, frame, truncated);
      if size.Err? { return Err(if size.error == F.BufferTooSmall then M.ShortBuffer else M.BadFrame); }
      return Ok(size.value);
    }

    /** Encrypt: on success the first n bytes of the buffer are the sealed frame. */
    method Encrypt(frame: seq<byte>, dst: array<byte>) returns (r: Result<nat, M.MediaError>)
      requires Valid() && dst !in Footprint()
      modifies Footprint(), dst
      ensures Valid() && fresh(Footprint() - old(Footprint()))
      ensures var (t, packet) := M.Encrypt(old(Snapshot()), cfg, frame, dst.Length);
              Snapshot() == t && Written(packet, r, dst[..])
    {
      hide M.EncryptWith, M.SelectSendRatchet, Valid, NamedBacked;
      SelectKeepsVersion(Snapshot());
      var live := SelectSendRatchet();
      if live.None? {
        if cfg.strictEncrypt && version.sending != 0 { return Err(M.MissingKeyRatchet); }
        r := CopyPassthrough(frame, dst);
        return;
      }
      r := EncryptWith(live.value, frame, dst);
    }

    static method CopyPassthrough(frame: seq<byte>, dst: array<byte>) returns (r: Result<nat, M.MediaError>)
      modifies dst
      ensures Written(M.Passthrough(frame, dst.Length), r, dst[..])
    {
      if dst.Length < |frame| { return Err(M.ShortBuffer); }
      forall i | 0 <= i < |frame| { dst[i] := frame[i]; }
      return Ok(|frame|);
    }

    // ---- Receiving ----

    /** pruneRetainedEpochsLocked. */
    method PruneRetained()
      requires Valid()
      modifies Footprint()
      ensures Valid() && fresh(Footprint() - old(Footprint()))
      ensures Snapshot() == M.PruneRetained(old(Snapshot()))
    {
      hide EpochOf, CipherBacked, Symbolic, Store.Valid, NamedBacked, EpochsBacked, Subsequence;
      var kept: seq<EpochObject> := [];
      ghost var from: seq<nat> := [];
      NothingPruned(store.heard, epochs.retained, now);
      for i := 0 to |epochs.retained|
        invariant Valid() && Snapshot() == old(Snapshot()) && epochs == old(epochs) && store.heard == old(store.heard)
        invariant store.objects == old(store.objects) && Footprint() == old(Footprint())
        invariant PrunedSoFar(store.heard, epochs.retained, kept, from, i, now)
      {
        PruneOneMore(store.heard, epochs.retained, kept, from, i, now);
        if epochs.retained[i].expiresAt > now {
          kept := kept + [epochs.retained[i]];
          from := from + [i];
        }
      }
      AllPruned(store.heard, epochs.retained, kept, from, now);
      PrunedBacked(store.objects, builds, epochs, kept, from);
      epochs := epochs.(retained := kept);
    }

    function EpochAt(slot: M.Slot): (e: Option<EpochObject>)
      reads this
      ensures e.Some? == HasObject(epochs, slot)
      ensures e.Some? ==> e.value == ObjectAt(epochs, slot)
    {
      match slot
      case Active => epochs.active
      case Pending => epochs.pending
      case Retained(i) => if i < |epochs.retained| then Some(epochs.retained[i]) else None
    }

    /** One candidate of Decrypt's loop. */
    method TryEpoch(user: UserId, packet: seq<byte>, nonce: uint32, room: nat, slot: M.Slot) returns (a: M.Attempt)
      requires Valid()
      modifies Footprint()
      ensures Valid() && fresh(Footprint() - old(Footprint()))
      ensures (Snapshot(), a) == M.TryEpoch(old(Snapshot()), cfg, user, packet, nonce, room, slot)
    {
      var e := EpochAt(slot);
      store.NamesAgree();
      SlotStands(store.objects, builds, epochs, store.heard, slot, Snapshot());
      if e.None? || user !in e.value.senders {
        hide EpochsOf, EpochsBacked, CipherBacked, Symbolic, Store.Valid;
        return M.Skip;
      }
      SenderStands(store.objects, builds, epochs, store.heard, slot, user, Snapshot());
      hide EpochsOf, EpochsBacked, CipherBacked, Symbolic, Store.Valid, M.TryEpoch;
      a := TrySender(Named(Ref(e.value.build, user), e.value.senders[user]), user, packet, nonce, room, slot);
    }

    /** The candidate has the sender: expand, get the key, authenticate, then commit. */
    method TrySender(n: Named, user: UserId, packet: seq<byte>, nonce: uint32, room: nat, ghost slot: M.Slot)
      returns (a: M.Attempt)
      requires NamedBacked(store.objects, Some(n)) && HasObject(epochs, slot) && user in ObjectAt(epochs, slot).senders
      requires n.ref == Ref(ObjectAt(epochs, slot).build, user) && n.ref in store.heard
      requires M.Has(Snapshot(), slot) && user in M.At(Snapshot(), slot).senders
      requires M.At(Snapshot(), slot).build == n.ref.build && M.At(Snapshot(), slot).senders[user] == store.heard[n.ref]
      requires Valid()
      modifies Footprint()
      ensures Valid() && fresh(Footprint() - old(Footprint()))
      ensures (Snapshot(), a) == M.TryEpoch(old(Snapshot()), cfg, user, packet, nonce, room, slot)
    {
      hide F.OpensTo, F.EncryptsTo, N.ExpandTentative, N.CommitNonce, N.Generation, Replay.CheckAndMark, M.KeyAvailable,
           M.GetKey, M.CommitRatchet, M.PutSender, M.TryEpoch, KeyBytes, EpochsOf, NamedBacked, Valid, Snapshot, M.At,
             ObjectAt;
      ghost var s, x := Snapshot(), store.heard[n.ref];
      var full := Expand(n, nonce);
      var g := N.Generation(full);
      var plain, key := Open(n, g, packet);
      AttemptIs(s, cfg, user, packet, nonce, room, slot, n.ref, x, plain);
      if plain.None? { return M.Refused; }
      if room < |plain.value| { return M.TooShort; }
      a := Accept(n, g, slot, Delivery(user, packet, n.ref, full, plain.value));
    }

    /** expander.ExpandTentative. */
    method Expand(n: Named, nonce: uint32) returns (full: uint64)
      requires Valid() && NamedBacked(store.objects, Some(n))
      ensures n.ref in store.heard && full == N.ExpandTentative(store.heard[n.ref].highest, nonce)
    {
      hide N.ExpandTentative, EpochsBacked, CipherBacked, Symbolic, Store.Valid;
      store.ExpanderOf(n.ref);
      full := N.ExpandTentative(n.sender.expander.State(), nonce);
    }

    /** What follows authentication: commit ratchet and expander, and ask the window. */
    method Accept(n: Named, g: uint32, ghost slot: M.Slot, d: Delivery) returns (a: M.Attempt)
      requires NamedBacked(store.objects, Some(n)) && HasObject(epochs, slot) &&
               d.user in ObjectAt(epochs, slot).senders
      requires n.ref == Ref(ObjectAt(epochs, slot).build, d.user) && n.ref in store.heard
      requires Valid()
      modifies Footprint()
      ensures Valid() && fresh(Footprint() - old(Footprint()))
      ensures n.ref in old(Snapshot()).ratchets
      ensures var s, x := old(Snapshot()), old(store.heard)[n.ref];
              var s2 := M.CommitRatchet(s, cfg, n.ref, g);
              var (record, accepted) := Replay.CheckAndMark(x.replay, d.full);
              && M.Has(s2, slot)
              && var s3 := M.PutSender(s2, slot, d.user, SenderState(N.CommitNonce(x.highest, d.full), record));
                 (Snapshot(), a)
                 == if !accepted then (s3, M.Replayed)
                    else (s3.(log := s3.log.(deliveries := s3.log.deliveries + [d])), M.Delivered(d.plaintext))
    {
      hide N.CommitNonce, Replay.CheckAndMark, M.CommitRatchet, M.PutSender, NamedBacked, Valid, Snapshot;
      CommitRatchet(n, g);
      var accepted := Hear(n, d.full, slot, d.user);
      if !accepted { return M.Replayed; }
      a := Deliver(d);
    }

    method Deliver(d: Delivery) returns (a: M.Attempt)
      requires Valid()
      modifies Footprint()
      ensures Valid() && fresh(Footprint() - old(Footprint()))
      ensures var s := old(Snapshot());
              Snapshot() == s.(log := s.log.(deliveries := s.log.deliveries + [d])) && a == M.Delivered(d.plaintext)
    {
      hide EpochsBacked, EpochsOf, CipherBacked, Symbolic, Store.Valid, NamedBacked;
      log := log.(deliveries := log.deliveries + [d]);
      return M.Delivered(d.plaintext);
    }

    /** The key of generation g, and what the packet opens to under it. */
    method Open(n: Named, g: uint32, packet: seq<byte>) returns (plain: Option<seq<byte>>, ghost key: MediaKey)
      requires NamedBacked(store.objects, Some(n))
      requires Valid()
      modifies Footprint()
      ensures Valid() && fresh(Footprint() - old(Footprint()))
      ensures store.objects == old(store.objects) && store.heard == old(store.heard) && epochs == old(epochs)
      ensures n.ref in old(Snapshot()).ratchets && key == MediaKey(old(Snapshot()).ratchets[n.ref].root, g)
      ensures Snapshot() == M.GetKey(old(Snapshot()), cfg, n.ref, g)
      ensures plain.None? <==> !M.KeyAvailable(old(Snapshot()), cfg, n.ref, g) || F.OpensTo(cfg.aead, key, packet).None?
      ensures plain.Some? ==> plain.value == F.OpensTo(cfg.aead, key, packet).value.0
    {
      hide F.OpensTo, F.EncryptsTo, KeyBytes, Symbolic, M.KeyAvailable, M.GetKey, EpochsOf, EpochsBacked, CipherBacked,
           NamedBacked, Store.Valid;
      key := MediaKey(n.sender.root, g);
      var bytes := GetKey(n, g);
      if bytes.None? { return None, key; }
      var r := F.Decrypt(aead, bytes.value, packet);
      OpensAs(store.kdf, store.exporter, aead, key, packet, r);
      return if r.Ok? then Some(r.value.0) else None, key;
    }

    /** expander.Commit and replay.checkAndMark. */
    method Hear(n: Named, full: uint64, ghost slot: M.Slot, ghost user: UserId) returns (ok: bool)
      requires NamedBacked(store.objects, Some(n)) && HasObject(epochs, slot) && user in ObjectAt(epochs, slot).senders
      requires n.ref == Ref(ObjectAt(epochs, slot).build, user)
      requires Valid()
      modifies Footprint()
      ensures Valid() && fresh(Footprint() - old(Footprint()))
      ensures M.Has(old(Snapshot()), slot) && n.ref in old(store.heard)
      ensures var (record, accepted) := Replay.CheckAndMark(old(store.heard)[n.ref].replay, full);
              && ok == accepted
              && Snapshot() == M.PutSender(old(Snapshot()), slot, user,
                                           SenderState(N.CommitNonce(old(store.heard)[n.ref].highest, full), record))
    {
      hide Replay.CheckAndMark, N.CommitNonce, EpochsBacked, EpochsOf, CipherBacked, Symbolic, Store.Valid, M.PutSender;
      store.RootOf(n.ref);
      store.NamesAgree();
      ghost var s, heard := Snapshot(), store.heard;
      ok := store.Hear(n.ref, n.sender, full);
      HearingIsPutSender(store.objects, builds, epochs, heard, slot, user, store.heard[n.ref], s);
    }

    /** Decrypt: on success the first n bytes of the buffer are the plaintext. */
    method Decrypt(user: UserId, packet: seq<byte>, dst: array<byte>) returns (r: Result<nat, M.MediaError>)
      requires Valid() && dst !in Footprint()
      modifies Footprint(), dst
      ensures Valid() && fresh(Footprint() - old(Footprint()))
      ensures var (t, plain) := M.Decrypt(old(Snapshot()), cfg, user, packet, dst.Length);
              Snapshot() == t && Written(plain, r, dst[..])
    {
      hide M.TryEpochs, M.NonceOf, F.Prints, F.LooksLikeDaveFrame, M.PruneRetained, Valid;
      if !F.LooksLikeDaveFrame(packet) {
        if version.protocol != 0 && version.plaintextRejectedFrom.Some? && now >= version.plaintextRejectedFrom.value
           && packet != [0xF8, 0xFF, 0xFE]
        {
          return Err(M.DecryptionFailed);
        }
        r := CopyPassthrough(packet, dst);
        return;
      }
      var parsed := F.Parse(packet);
      ParsesAs(packet, parsed);
      if parsed.Err? { return Err(M.BadFrame); }
      PruneRetained();
      r := TryAll(user, packet, parsed.value.nonce, dst);
    }

    /** The loop over active, pending and retained epochs. */
    method TryAll(user: UserId, packet: seq<byte>, nonce: uint32, dst: array<byte>)
                  returns (r: Result<nat, M.MediaError>)
      requires Valid() && dst !in Footprint()
      modifies Footprint(), dst
      ensures Valid() && fresh(Footprint() - old(Footprint()))
      ensures var s := old(Snapshot());
              var (t, plain) := M.TryEpochs(s, cfg, user, packet, nonce, dst.Length, M.Candidates(s));
              Snapshot() == t && Written(plain, r, dst[..])
    {
      hide M.TryEpoch, Valid;
      var k := |epochs.retained|;
      var slots := [M.Active, M.Pending] + seq(k, i requires 0 <= i < k => M.Retained(i));
      assert slots == M.Candidates(Snapshot());
      hide Snapshot;
      ghost var all := M.TryEpochs(Snapshot(), cfg, user, packet, nonce, dst.Length, slots);
      assert slots[0..] == slots;
      for i := 0 to |slots|
        invariant Valid() && fresh(Footprint() - old(Footprint()))
        invariant all == M.TryEpochs(Snapshot(), cfg, user, packet, nonce, dst.Length, slots[i..])
      {
        ghost var s := Snapshot();
        assert slots[i..][0] == slots[i] && slots[i..][1..] == slots[i + 1..];
        var a := TryEpoch(user, packet, nonce, dst.Length, slots[i]);
        if a.TooShort? { return Err(M.ShortBuffer); }
        if a.Delivered? {
          DeliveredFits(s, cfg, user, packet, nonce, dst.Length, slots[i]);
          r := CopyPassthrough(a.plaintext, dst);
          return;
        }
      }
      return Err(M.DecryptionFailed);
    }

    // ---- While a send has released the lock ----

    method RunCall(call: MediaCall)
      requires Valid()
      modifies Footprint()
      ensures Valid() && fresh(Footprint() - old(Footprint()))
      ensures Snapshot() == M.RunCall(old(Snapshot()), cfg, call)
    {
      hide M.Encrypt, M.Decrypt, EpochsBacked, EpochsOf, CipherBacked, Symbolic, Store.Valid, NamedBacked;
      match call
      case EncryptCall(frame, room) =>
        var dst := new byte[room];
        var _ := Encrypt(frame, dst);
      case DecryptCall(user, packet, room) =>
        var dst := new byte[room];
        var _ := Decrypt(user, packet, dst);
      case SetChannelBusy(channel) => channelId := channel;
      case Tick(elapsed) => now := now + elapsed;
      case Close => shutdown := true;
    }

    method RunCalls(calls: seq<MediaCall>)
      requires Valid()
      modifies Footprint()
      ensures Valid() && fresh(Footprint() - old(Footprint()))
      ensures Snapshot() == M.RunCalls(old(Snapshot()), cfg, calls)
    {
      hide M.RunCall, Valid, Snapshot;
      assert calls[0..] == calls;
      for i := 0 to |calls|
        invariant Valid() && fresh(Footprint() - old(Footprint()))
        invariant M.RunCalls(old(Snapshot()), cfg, calls) == M.RunCalls(Snapshot(), cfg, calls[i..])
      {
        assert calls[i..][0] == calls[i] && calls[i..][1..] == calls[i + 1..];
        RunCall(calls[i]);
      }
    }

    // ---- Channels, watchdogs, sends ----

    /** resetEpochReadyLocked. */
    method ResetEpochReady()
      requires Valid()
      modifies Footprint()
      ensures Valid() && fresh(Footprint() - old(Footprint()))
      ensures Snapshot() == C.ResetEpochReady(old(Snapshot()))
    {
      hide EpochsBacked, EpochOf, ListOf, CipherBacked, Symbolic, Store.Valid, NamedBacked;
      recovery := recovery.(closed := recovery.closed + {recovery.epochReady}, epochReady := recovery.epochReady + 1);
    }

    /** goWatchdog. */
    method GoWatchdog(w: Watchdog)
      requires Valid()
      modifies Footprint()
      ensures Valid() && fresh(Footprint() - old(Footprint()))
      ensures Snapshot() == C.GoWatchdog(old(Snapshot()), w)
    {
      hide EpochsBacked, EpochOf, ListOf, CipherBacked, Symbolic, Store.Valid, NamedBacked;
      if shutdown { return; }
      var id := recovery.nextWatchdog;
      recovery := recovery.(watchdogs := recovery.watchdogs[id := w], nextWatchdog := id + 1);
    }

    /** watchRecoveryLocked. */
    method WatchRecovery()
      requires Valid()
      modifies Footprint()
      ensures Valid() && fresh(Footprint() - old(Footprint()))
      ensures Snapshot() == C.WatchRecovery(old(Snapshot()), cfg)
    {
      hide C.GoWatchdog, EpochsBacked, EpochOf, ListOf, CipherBacked, Symbolic, Store.Valid, NamedBacked;
      if recovery.attempts >= MAX_RECOVERY_ATTEMPTS { return; }
      GoWatchdog(Waiting(recovery.epochReady, false, pendingTransitionId, now + cfg.recoveryTimeout));
    }

    /** watchDroppedSendLocked. */
    method WatchDroppedSend()
      requires Valid()
      modifies Footprint()
      ensures Valid() && fresh(Footprint() - old(Footprint()))
      ensures Snapshot() == C.WatchDroppedSend(old(Snapshot()), cfg)
    {
      hide C.ResetEpochReady, C.WatchRecovery, EpochsBacked, EpochOf, ListOf, CipherBacked, Symbolic, Store.Valid,
           NamedBacked;
      ResetEpochReady();
      WatchRecovery();
    }

    method WatchIfDropped(o: C.Outcome)
      requires Valid()
      modifies Footprint()
      ensures Valid() && fresh(Footprint() - old(Footprint()))
      ensures Snapshot() == C.WatchIfDropped(old(Snapshot()), cfg, o)
    {
      hide C.WatchDroppedSend, EpochsBacked, EpochOf, ListOf, CipherBacked, Symbolic, Store.Valid, NamedBacked;
      if o.Failed? && o.bySend { WatchDroppedSend(); }
    }

    /** sendLocked: other calls run while mu is free. */
    method SendLocked() returns (r: C.SendResult)
      requires Valid()
      modifies Footprint()
      ensures Valid() && fresh(Footprint() - old(Footprint()))
      ensures (Snapshot(), r) == C.SendLocked(old(Snapshot()), cfg)
    {
      hide M.RunCalls, EpochsBacked, EpochOf, ListOf, CipherBacked, Symbolic, Store.Valid, NamedBacked;
      if |env.replies| == 0 { return C.Sent; }
      var reply := env.replies[0];
      env := env.(replies := env.replies[1..]);
      RunCalls(reply.calls);
      return if reply.delivered then C.Sent else C.Dropped(reply.shardNotReady);
    }

    // ---- The MLS client ----

    /** ensureMLSClientLocked. */
    method EnsureClient() returns (ok: bool)
      requires Valid()
      modifies Footprint()
      ensures Valid() && fresh(Footprint() - old(Footprint()))
      ensures (Snapshot(), ok) == C.EnsureClient(old(Snapshot()), cfg)
    {
      hide EpochsBacked, EpochOf, ListOf, CipherBacked, Symbolic, Store.Valid, NamedBacked;
      if mls.client.Some? { return true; }
      if !cfg.validUser { return false; }
      mls := mls.(client := Some(map[]));
      return true;
    }

    /** ensurePendingKeyPackageLocked. */
    method EnsureKeyPackage() returns (o: C.Outcome)
      requires Valid()
      modifies Footprint()
      ensures Valid() && fresh(Footprint() - old(Footprint()))
      ensures (Snapshot(), o) == C.EnsureKeyPackage(old(Snapshot()), cfg)
    {
      hide C.EnsureClient, C.SendKeyPackage, EpochsBacked, EpochOf, ListOf, CipherBacked, Symbolic, Store.Valid,
           NamedBacked;
      var ok := EnsureClient();
      if !ok { return C.Failed(false); }
      o := SendKeyPackage();
    }

    method SendKeyPackage() returns (o: C.Outcome)
      requires Valid()
      modifies Footprint()
      ensures Valid() && fresh(Footprint() - old(Footprint()))
      ensures (Snapshot(), o) == C.SendKeyPackage(old(Snapshot()), cfg)
    {
      hide C.SendLocked, EpochsBacked, EpochOf, ListOf, CipherBacked, Symbolic, Store.Valid, NamedBacked;
      if mls.keyPackage { return C.Done; }
      if cfg.hasCallbacks {
        var r := SendLocked();
        if r.Dropped? { return C.Failed(true); }
      }
      mls := mls.(keyPackage := true);
      return C.Done;
    }

    /** createGroupWithExternalSenderLocked. */
    method CreateGroup() returns (o: C.Outcome)
      requires Valid()
      modifies Footprint()
      ensures Valid() && fresh(Footprint() - old(Footprint()))
      ensures (Snapshot(), o) == C.CreateGroup(old(Snapshot()), cfg)
    {
      hide C.EnsureKeyPackage, C.NewGroup, EpochsBacked, EpochOf, ListOf, CipherBacked, Symbolic, Store.Valid,
           NamedBacked;
      if mls.groupId.Some? { return C.Done; }
      if !mls.externalSender || channelId == 0 { return C.Failed(false); }
      o := EnsureKeyPackage();
      if o.Failed? { return; }
      if !env.createOk || mls.client.None? { return C.Failed(false); }
      NewGroup();
      return C.Done;
    }

    method NewGroup()
      requires mls.client.Some?
      requires Valid()
      modifies Footprint()
      ensures Valid() && fresh(Footprint() - old(Footprint()))
      ensures Snapshot() == C.NewGroup(old(Snapshot()), cfg)
    {
      hide EpochsBacked, EpochOf, ListOf, CipherBacked, Symbolic, Store.Valid, NamedBacked;
      var g := Group(Created(cfg.self, env.seed), {cfg.self});
      mls := mls.(client := Some(mls.client.value[channelId := g]), groupId := Some(channelId));
      log := log.(minted := log.minted + [g.term], origin := Some(g), announced := [], stacked := false,
                  activated := false, detached := false);
    }

    /** The loop of rebuildEpochStateLocked: a new ratchet, expander and window per member. */
    method BuildSenders(term: Term, members: set<UserId>) returns (senders: map<UserId, Sender>)
      requires store.Valid() && this !in store.repr && counter !in store.repr
      requires forall r :: r in store.objects ==> r.build < builds
      modifies store
      ensures store.Valid() && fresh(store.repr - old(store.repr)) && old(store.repr) <= store.repr
      ensures senders.Keys == members
      ensures store.ratchets == old(store.ratchets) + C.NewRatchets(builds, Group(term, members))
      ensures Rebuilt(old(store.objects), old(store.heard), store.objects, store.heard, builds, senders)
    {
      hide Store.Valid, C.NewRatchets;
      store.NamesAgree();
      senders := map[];
      var todo := members;
      NoNewRatchets(builds, term);
      assert store.ratchets + map[] == store.ratchets;
      assert senders.Keys == {};
      assert Rebuilt(old(store.objects), old(store.heard), store.objects, store.heard, builds, senders);
      while todo != {}
        invariant todo <= members && senders.Keys == members - todo
        invariant store.Valid() && fresh(store.repr - old(store.repr)) && old(store.repr) <= store.repr
        invariant store.ratchets == old(store.ratchets) + C.NewRatchets(builds, Group(term, senders.Keys))
        invariant Rebuilt(old(store.objects), old(store.heard), store.objects, store.heard, builds, senders)
        decreases todo
      {
        var u :| u in todo;
        RatchetsOneMore(old(store.ratchets), builds, term, senders.Keys, u);
        ghost var later, laterHeard := store.objects, store.heard;
        NotYetBuilt(old(store.objects), old(store.heard), later, laterHeard, builds, senders, u);
        var x := store.Add(Ref(builds, u), Root(term, u));
        RebuiltOneMore(old(store.objects), old(store.heard), later, laterHeard, builds, senders, u, x);
        hide Rebuilt;
        assert senders[u := x].Keys == senders.Keys + {u};
        senders := senders[u := x];
        todo := todo - {u};
      }
    }

    /** rebuildEpochStateLocked and what its callers do with the epoch. */
    method SetPending()
      requires C.HasGroup(Snapshot())
      requires Valid()
      modifies Footprint()
      ensures Valid() && fresh(Footprint() - old(Footprint()))
      ensures Snapshot() == C.SetPending(old(Snapshot()))
    {
      hide Store.Valid, C.NewRatchets, Symbolic, CipherBacked, Rebuilt, EpochOf;
      store.NamesAgree();
      var g := mls.client.value[mls.groupId.value];
      ghost var objects, heard := store.objects, store.heard;
      var senders := BuildSenders(g.term, g.members);
      var e := EpochObject(builds, mls.groupId.value, g.term, senders, 0);
      RebuiltBacked(objects, heard, store.objects, store.heard, builds, epochs, e);
      RebuiltOf(objects, heard, store.objects, store.heard, builds, epochs, e);
      StillNamed(objects, heard, store.objects, store.heard, builds, senders, send);
      hide EpochsBacked, EpochsOf, NamedBacked;
      epochs := epochs.(pending := Some(e));
      builds := builds + 1;
      mls := mls.(pendingGroupId := mls.groupId);
      log := log.(built := log.built + [g.term]);
    }

    // ---- Activation ----

    method RetainCurrentSend()
      requires Valid()
      modifies Footprint()
      ensures Valid() && fresh(Footprint() - old(Footprint()))
      ensures Snapshot() == C.RetainCurrentSend(old(Snapshot()), cfg)
      ensures store.objects == old(store.objects) && store.heard == old(store.heard) && builds == old(builds)
    {
      hide EpochsBacked, EpochsOf, KeyBytes, Symbolic, Store.Valid;
      if send.current.Some? {
        send := send.(retained := send.current, retainedExpires := now + cfg.sendRetention);
      }
    }

    /** activatePendingEpochLocked, up to the queue. */
    method ActivateEpoch()
      requires Valid()
      modifies Footprint()
      ensures Valid() && fresh(Footprint() - old(Footprint()))
      ensures Snapshot() == C.ActivateEpoch(old(Snapshot()), cfg)
    {
      hide C.MoveEpochs, C.SwitchSend, C.TakeOwnRatchet, M.PruneRetained, EpochOf, ListOf, EpochsBacked, EpochBacked,
           CipherBacked, Symbolic, Store.Valid, NamedBacked;
      if epochs.pending.None? { return; }
      var before, after := epochs.active, epochs.pending.value;
      ActiveBacked(store.objects, builds, epochs);
      hide Valid;
      ghost var heard := store.heard;
      MoveEpochs();
      SwitchSend(before, after);
      hide Snapshot;
      TakeOwnRatchet(after);
      PruneRetained();
    }

    method MoveEpochs()
      requires epochs.pending.Some?
      requires Valid()
      modifies Footprint()
      ensures Valid() && fresh(Footprint() - old(Footprint()))
      ensures Snapshot() == C.MoveEpochs(old(Snapshot()), cfg)
      ensures store.objects == old(store.objects) && store.heard == old(store.heard) && builds == old(builds)
    {
      hide EpochsBacked, EpochOf, CipherBacked, Symbolic, Store.Valid, NamedBacked;
      MovedBacked(store.objects, builds, epochs, now + EPOCH_RETENTION);
      MovedOf(store.heard, epochs, now + EPOCH_RETENTION);
      var retained := epochs.retained;
      if epochs.active.Some? {
        retained := retained + [epochs.active.value.(expiresAt := now + EPOCH_RETENTION)];
      }
      epochs := EpochObjects(epochs.pending, None, retained);
      var from := version.plaintextRejectedFrom;
      if version.protocol != 0 && from.None? {
        from := Some(now + cfg.plaintextGrace);
      }
      version := version.(sending := version.protocol, plaintextRejectedFrom := from);
      mls := mls.(groupId := mls.pendingGroupId, pendingGroupId := None);
      log := log.(activated := true);
    }

    method SwitchSend(before: Option<EpochObject>, after: EpochObject)
      requires EpochBacked(store.objects, builds, after)
      requires before.Some? ==> EpochBacked(store.objects, builds, before.value)
      requires Valid()
      modifies Footprint()
      ensures Valid() && fresh(Footprint() - old(Footprint()))
      ensures Snapshot() == C.SwitchSend(old(Snapshot()), cfg, OptionOf(old(store.heard), before),
              EpochOf(old(store.heard), after))
      ensures store.objects == old(store.objects) && store.heard == old(store.heard) && builds == old(builds)
    {
      hide Store.Valid, EpochsBacked, CipherBacked, Symbolic, EpochBacked, NamedBacked;
      store.NamesAgree();
      AddsSame(store.objects, builds, store.heard, before, after);
      hide Valid, EpochsOf, EpochOf, OptionOf, C.AddsSender, C.RetainCurrentSend, M.Restart;
      if send.current.None? { return; }
      var adds := AddsSender(before, after);
      if adds {
        RestartCount();
      } else {
        RetainCurrentSend();
      }
    }

    /** The send counter starts over, and nothing is retained. */
    method RestartCount()
      requires Valid()
      modifies Footprint()
      ensures Valid() && fresh(Footprint() - old(Footprint()))
      ensures var s := old(Snapshot());
              Snapshot() == M.Restart(s.(send := s.send.(retained := None, retainedExpires := 0)))
      ensures store.objects == old(store.objects) && store.heard == old(store.heard) && builds == old(builds)
    {
      hide EpochsBacked, EpochsOf, KeyBytes, Symbolic, Store.Valid;
      counter.Reset();
      send := send.(retained := None, retainedExpires := 0);
      log := log.(restarts := log.restarts + {|log.sends|});
    }

    /** newEpochAddsSender. */
    static method AddsSender(before: Option<EpochObject>, after: EpochObject) returns (adds: bool)
      ensures adds <==> before.None? || exists u :: u in after.senders && u !in before.value.senders
    {
      if before.None? { return true; }
      var todo := after.senders.Keys;
      while todo != {}
        invariant todo <= after.senders.Keys
        invariant forall u :: u in after.senders && u !in todo ==> u in before.value.senders
        decreases todo
      {
        var u :| u in todo;
        if u !in before.value.senders { return true; }
        todo := todo - {u};
      }
      return false;
    }

    /** The send side and the active epoch now share the own sender. */
    method TakeOwnRatchet(e: EpochObject)
      requires EpochBacked(store.objects, builds, e)
      requires Valid()
      modifies Footprint()
      ensures Valid() && fresh(Footprint() - old(Footprint()))
      ensures Snapshot() == C.TakeOwnRatchet(old(Snapshot()), cfg, EpochOf(old(store.heard), e))
      ensures cfg.self in e.senders ==> send.current.Some? && send.current.value.sender == e.senders[cfg.self]
    {
      hide Store.Valid, EpochsBacked, CipherBacked, Symbolic;
      store.NamesAgree();
      KeysOf(store.objects, builds, store.heard, e);
      hide Valid, EpochsOf, EpochOf, Snapshot;
      if cfg.self in e.senders {
        SetCurrent(Some(Named(Ref(e.build, cfg.self), e.senders[cfg.self])));
        ReportReady();
      } else {
        SetCurrent(None);
      }
    }

    method SetCurrent(n: Option<Named>)
      requires NamedBacked(store.objects, n)
      requires Valid()
      modifies Footprint()
      ensures Valid() && fresh(Footprint() - old(Footprint()))
      ensures var s := old(Snapshot()); Snapshot() == s.(send := s.send.(current := RefOf(n)))
      ensures send.current == n
    {
      hide EpochsBacked, EpochsOf, KeyBytes, Symbolic, Store.Valid, NamedBacked;
      send := send.(current := n);
    }

    /** The attempts start over, and the channel is closed. */
    method ReportReady()
      requires Valid()
      modifies Footprint()
      ensures Valid() && fresh(Footprint() - old(Footprint()))
      ensures var s := old(Snapshot());
              Snapshot() == C.SignalEpochReady(s.(recovery := s.recovery.(attempts := 0),
                                                  log := s.log.(attemptResets := s.log.attemptResets + 1)))
      ensures send == old(send)
    {
      hide EpochsBacked, EpochsOf, CipherBacked, Symbolic, Store.Valid, NamedBacked;
      recovery := recovery.(attempts := 0, closed := recovery.closed + {recovery.epochReady});
      log := log.(attemptResets := log.attemptResets + 1);
    }

    /** activatePendingEpochLocked. */
    method Activate()
      requires Valid()
      modifies Footprint()
      ensures Valid() && fresh(Footprint() - old(Footprint()))
      ensures Snapshot() == C.Activate(old(Snapshot()), cfg)
    {
      hide C.ActivateEpoch, C.Drain, EpochsBacked, EpochOf, ListOf, CipherBacked, Symbolic, Store.Valid, NamedBacked;
      if epochs.pending.None? { return; }
      ActivateEpoch();
      Drain();
    }

    /** drainProposalQueueLocked. */
    method Drain()
      requires Valid()
      modifies Footprint()
      ensures Valid() && fresh(Footprint() - old(Footprint()))
      ensures Snapshot() == C.Drain(old(Snapshot()), cfg)
    {
      hide C.ProcessAndCommit, EpochsBacked, EpochOf, ListOf, CipherBacked, Symbolic, Store.Valid, NamedBacked;
      while |mls.queue| > 0 && epochs.pending.None?
        invariant Valid() && fresh(Footprint() - old(Footprint()))
        invariant C.Drain(old(Snapshot()), cfg) == C.Drain(Snapshot(), cfg)
        decreases |mls.queue|
      {
        var next := mls.queue[0];
        mls := mls.(queue := mls.queue[1..]);
        C.ProcessKeepsQueue(Snapshot(), cfg, next);
        ProcessAndCommit(next);
      }
    }

    /** activateSoleMemberEpochLocked. */
    method ActivateSoleMember()
      requires Valid()
      modifies Footprint()
      ensures Valid() && fresh(Footprint() - old(Footprint()))
      ensures Snapshot() == C.ActivateSoleMember(old(Snapshot()), cfg)
    {
      hide C.CreateGroup, C.WatchIfDropped, C.Activate, C.SetPending, EpochsBacked, EpochOf, ListOf, CipherBacked,
           Symbolic, Store.Valid, NamedBacked;
      if mls.groupId.None? && !mls.externalSender { return; }
      var o := CreateGroup();
      if o.Failed? {
        WatchIfDropped(o);
        return;
      }
      if epochs.pending.None? {
        if mls.groupId.None? || mls.client.None? || mls.groupId.value !in mls.client.value || !env.rebuildOk { return; }
        SetPending();
      }
      Activate();
    }

    // ---- Local commits ----

    /** processAndCommitProposalBatchLocked. */
    method ProcessAndCommit(b: Batch)
      requires epochs.pending.None?
      requires Valid()
      modifies Footprint()
      ensures Valid() && fresh(Footprint() - old(Footprint()))
      ensures Snapshot() == C.ProcessAndCommit(old(Snapshot()), cfg, b)
    {
      hide C.CommitProposals, EpochsBacked, EpochOf, ListOf, CipherBacked, Symbolic, Store.Valid, NamedBacked;
      var ok := EnsureClient();
      if !ok { return; }
      log := log.(processed := log.processed + [b.id]);
      if mls.groupId.None? || !b.acceptedAny { return; }
      CommitProposals(b);
    }

    /** commitProposalsLocked. */
    method CommitProposals(b: Batch)
      requires epochs.pending.None?
      requires Valid()
      modifies Footprint()
      ensures Valid() && fresh(Footprint() - old(Footprint()))
      ensures Snapshot() == C.CommitProposals(old(Snapshot()), cfg, b)
    {
      hide C.MakeCommit, C.SetPending, C.SendCommit, EpochsBacked, EpochOf, ListOf, CipherBacked, Symbolic,
           Store.Valid, NamedBacked;
      if mls.groupId.None? || mls.client.None? || mls.groupId.value !in mls.client.value { return; }
      if !b.loadOk || !b.commitOk { return; }
      CommitKeepsGroup(Snapshot(), b.commit);
      MakeCommit(b.commit);
      if !b.rebuildOk { return; }
      SetPending();
      if !b.welcomeOk || !cfg.hasCallbacks { return; }
      SendCommit();
    }

    method MakeCommit(c: Commit)
      requires C.HasGroup(Snapshot())
      requires Valid()
      modifies Footprint()
      ensures Valid() && fresh(Footprint() - old(Footprint()))
      ensures Snapshot() == C.MakeCommit(old(Snapshot()), c)
    {
      hide EpochsBacked, EpochOf, ListOf, CipherBacked, Symbolic, Store.Valid, NamedBacked;
      var g := mls.client.value[mls.groupId.value];
      log := log.(minted := log.minted + [Apply(g, c).term], stacked := log.stacked || mls.pendingCommit.Some?);
      mls := mls.(client := Some(mls.client.value[mls.groupId.value := Apply(g, c)]),
                  pendingCommit := Some(c), preCommit := Some(g));
    }

    /** The send of a commit: roll back if it was dropped, else watch for its echo. */
    method SendCommit()
      requires Valid()
      modifies Footprint()
      ensures Valid() && fresh(Footprint() - old(Footprint()))
      ensures Snapshot() == C.SendCommit(old(Snapshot()), cfg)
    {
      hide C.SendLocked, C.RestorePreCommit, C.WatchDroppedSend, C.ArmCommitWatchdog, EpochsBacked, EpochOf, ListOf,
           CipherBacked, Symbolic, Store.Valid, NamedBacked;
      var r := SendLocked();
      if r.Dropped? {
        var _ := RestorePreCommit();
        WatchDroppedSend();
      } else {
        ArmCommitWatchdog();
      }
    }

    method ArmCommitWatchdog()
      requires Valid()
      modifies Footprint()
      ensures Valid() && fresh(Footprint() - old(Footprint()))
      ensures Snapshot() == C.ArmCommitWatchdog(old(Snapshot()), cfg)
    {
      hide C.GoWatchdog, EpochsBacked, EpochOf, ListOf, CipherBacked, Symbolic, Store.Valid, NamedBacked;
      log := log.(ownCommits := log.ownCommits + 1);
      ResetEpochReady();
      GoWatchdog(Waiting(recovery.epochReady, true, pendingTransitionId, now + cfg.recoveryTimeout));
    }

    method ForgetCommit()
      requires Valid()
      modifies Footprint()
      ensures Valid() && fresh(Footprint() - old(Footprint()))
      ensures Snapshot() == C.ForgetCommit(old(Snapshot()))
    {
      hide EpochsBacked, EpochOf, ListOf, CipherBacked, Symbolic, Store.Valid, NamedBacked;
      mls := mls.(pendingCommit := None, preCommit := None);
    }

    /** restorePreCommitStateLocked. */
    method RestorePreCommit() returns (ok: bool)
      requires Valid()
      modifies Footprint()
      ensures Valid() && fresh(Footprint() - old(Footprint()))
      ensures (Snapshot(), ok) == C.RestorePreCommit(old(Snapshot()))
    {
      hide EpochsBacked, EpochOf, ListOf, CipherBacked, Symbolic, Store.Valid, NamedBacked, C.RestorePreCommit;
      DroppedBacked(store.objects, builds, epochs);
      RestoreIs(Snapshot());
      if mls.preCommit.None? { return false; }
      var client := if mls.client.None? || mls.groupId.None? then mls.client
                    else Some(mls.client.value[mls.groupId.value := mls.preCommit.value]);
      log := log.(detached := log.detached || (epochs.pending.None? && mls.client.Some?));
      epochs := epochs.(pending := None);
      mls := mls.(client := client, pendingGroupId := None, pendingCommit := None, preCommit := None);
      return true;
    }

    // ---- Invalidation ----

    /** invalidateMLSStateLocked. */
    method InvalidateMls()
      requires Valid()
      modifies Footprint()
      ensures Valid() && fresh(Footprint() - old(Footprint()))
      ensures Snapshot() == C.InvalidateMls(old(Snapshot()))
    {
      hide EpochsBacked, EpochOf, ListOf, CipherBacked, Symbolic, Store.Valid, NamedBacked;
      DroppedBacked(store.objects, builds, epochs);
      mls := Mls(None, None, None, mls.externalSender, false, [], None, None);
      epochs := epochs.(pending := None);
      log := log.(origin := None, announced := [], stacked := false, tainted := false, activated := false,
        detached := false);
      ResetEpochReady();
    }

    /** invalidateAndResendKeyPackageLocked. */
    method InvalidateAndResend()
      requires Valid()
      modifies Footprint()
      ensures Valid() && fresh(Footprint() - old(Footprint()))
      ensures Snapshot() == C.InvalidateAndResend(old(Snapshot()), cfg)
    {
      hide C.InvalidateMls, C.EnsureKeyPackage, C.WatchRecovery, EpochsBacked, EpochOf, ListOf, CipherBacked,
           Symbolic, Store.Valid, NamedBacked;
      InvalidateMls();
      var _ := EnsureKeyPackage();
      WatchRecovery();
    }

    /** sendInvalidCommitWelcomeLocked. */
    method SendInvalid()
      requires Valid()
      modifies Footprint()
      ensures Valid() && fresh(Footprint() - old(Footprint()))
      ensures Snapshot() == C.SendInvalid(old(Snapshot()), cfg)
    {
      hide C.SendLocked, EpochsBacked, EpochOf, ListOf, CipherBacked, Symbolic, Store.Valid, NamedBacked;
      if cfg.hasCallbacks { var _ := SendLocked(); }
    }

    /** sendReadyForTransitionLocked. */
    method SendReady()
      requires Valid()
      modifies Footprint()
      ensures Valid() && fresh(Footprint() - old(Footprint()))
      ensures Snapshot() == C.SendReady(old(Snapshot()), cfg)
    {
      hide C.SendLocked, C.WatchDroppedSend, EpochsBacked, EpochOf, ListOf, CipherBacked, Symbolic, Store.Valid,
           NamedBacked;
      if !cfg.hasCallbacks { return; }
      var r := SendLocked();
      if r.Dropped? && epochs.active.None? { WatchDroppedSend(); }
    }

    // ---- Peers' commits and welcomes ----

    /** processCommitLocked. */
    method ProcessCommit(msg: Option<Commit>) returns (ok: bool)
      requires Valid()
      modifies Footprint()
      ensures Valid() && fresh(Footprint() - old(Footprint()))
      ensures (Snapshot(), ok) == C.ProcessCommit(old(Snapshot()), cfg, msg)
    {
      hide C.SetPending, EpochsBacked, EpochOf, ListOf, CipherBacked, Symbolic, Store.Valid, NamedBacked;
      if mls.groupId.None? || mls.client.None? || mls.groupId.value !in mls.client.value { return false; }
      if msg.None? || !env.processOk { return false; }
      var g := Apply(mls.client.value[mls.groupId.value], msg.value);
      mls := mls.(client := Some(mls.client.value[mls.groupId.value := g]));
      log := log.(minted := log.minted + [g.term], announced := log.announced + [msg.value], detached := false);
      if !env.rebuildOk {
        log := log.(tainted := true);
        return false;
      }
      SetPending();
      return true;
    }

    /** reconcileCompetingCommitLocked. */
    method Reconcile(msg: Option<Commit>) returns (ok: bool)
      requires Valid()
      modifies Footprint()
      ensures Valid() && fresh(Footprint() - old(Footprint()))
      ensures (Snapshot(), ok) == C.Reconcile(old(Snapshot()), cfg, msg)
    {
      hide C.RestorePreCommit, C.ProcessCommit, C.SendInvalid, C.InvalidateAndResend, EpochsBacked, EpochOf, ListOf,
           CipherBacked, Symbolic, Store.Valid, NamedBacked;
      if mls.pendingCommit.Some? {
        var restored := RestorePreCommit();
        if !restored {
          SendInvalid();
          return false;
        }
      }
      ok := ProcessCommit(msg);
      if !ok {
        SendInvalid();
        InvalidateAndResend();
      }
    }

    /** joinPendingWelcomeLocked. */
    method Join(w: Welcome) returns (ok: bool)
      requires Valid()
      modifies Footprint()
      ensures Valid() && fresh(Footprint() - old(Footprint()))
      ensures (Snapshot(), ok) == C.Join(old(Snapshot()), w)
    {
      hide C.SetPending, EpochsBacked, EpochOf, ListOf, CipherBacked, Symbolic, Store.Valid, NamedBacked;
      if !w.joinOk || mls.client.None? { return false; }
      mls := mls.(client := Some(mls.client.value[w.groupId := w.group]));
      log := log.(minted := log.minted + [w.group.term]);
      if !w.externalSenderOk || !mls.externalSender {
        log := log.(tainted := true);
        return false;
      }
      mls := mls.(groupId := Some(w.groupId), pendingGroupId := Some(w.groupId));
      log := log.(origin := Some(w.group), announced := [], stacked := false, activated := false, detached := false);
      if !env.rebuildOk {
        log := log.(tainted := true);
        return false;
      }
      SetPending();
      return true;
    }

    method FinishTransition(transition: nat)
      requires Valid()
      modifies Footprint()
      ensures Valid() && fresh(Footprint() - old(Footprint()))
      ensures Snapshot() == C.FinishTransition(old(Snapshot()), cfg, transition)
    {
      hide C.SendReady, C.Activate, EpochsBacked, EpochOf, ListOf, CipherBacked, Symbolic, Store.Valid, NamedBacked;
      if transition != 0 {
        SendReady();
      } else {
        Activate();
        pendingTransitionId := 0;
      }
    }

    // ---- Handlers ----

    /** setTransportOnlyLocked. */
    method SetTransportOnly(on: bool)
      requires Valid()
      modifies Footprint()
      ensures Valid() && fresh(Footprint() - old(Footprint()))
      ensures Snapshot() == C.SetTransportOnly(old(Snapshot()), on)
    {
      hide EpochsBacked, EpochOf, ListOf, CipherBacked, Symbolic, Store.Valid, NamedBacked;
      version := version.(transportOnly := on);
      if on { version := version.(plaintextRejectedFrom := None); }
    }

    /** dropSendKeysLocked. */
    method DropSendKeys()
      requires Valid()
      modifies Footprint()
      ensures Valid() && fresh(Footprint() - old(Footprint()))
      ensures Snapshot() == C.DropSendKeys(old(Snapshot()))
    {
      hide EpochsBacked, EpochOf, ListOf, KeyBytes, Symbolic, Store.Valid;
      send := send.(current := None, retained := None, retainedExpires := 0, cipher := None, cipherKey := None);
    }

    /** The group state that select_protocol_ack and prepare_epoch(1) clear. */
    method ResetGroup()
      requires Valid()
      modifies Footprint()
      ensures Valid() && fresh(Footprint() - old(Footprint()))
      ensures Snapshot() == C.ResetGroup(old(Snapshot()))
    {
      hide EpochsBacked, EpochOf, ListOf, CipherBacked, Symbolic, Store.Valid, NamedBacked;
      DroppedBacked(store.objects, builds, epochs);
      epochs := EpochObjects(None, None, []);
      mls := Mls(None, None, None, mls.externalSender, false, [], None, None);
      log := log.(origin := None, announced := [], stacked := false, tainted := false, activated := false,
        detached := false);
      ResetEpochReady();
    }

    method RequestRejoin()
      requires Valid()
      modifies Footprint()
      ensures Valid() && fresh(Footprint() - old(Footprint()))
      ensures Snapshot() == C.RequestRejoin(old(Snapshot()), cfg)
    {
      hide C.EnsureKeyPackage, C.WatchIfDropped, C.RetainCurrentSend, EpochsBacked, EpochOf, ListOf, KeyBytes,
           Symbolic, Store.Valid;
      RetainCurrentSend();
      send := send.(current := None);
      var o := EnsureKeyPackage();
      WatchIfDropped(o);
    }

    method OnSelectProtocolAck(v: nat)
      requires Valid()
      modifies Footprint()
      ensures Valid() && fresh(Footprint() - old(Footprint()))
      ensures Snapshot() == C.OnSelectProtocolAck(old(Snapshot()), cfg, v)
    {
      hide C.SetTransportOnly, C.ResetGroup, C.DropSendKeys, C.RequestRejoin, C.ResetAttempts, Valid, Snapshot;
      SetVersions(v, v);
      SetTransportOnly(v == 0);
      ResetGroup();
      ResetAttempts();
      if v == 0 { DropSendKeys(); } else { RequestRejoin(); }
    }

    method SetVersions(protocol: nat, sending: nat)
      requires Valid()
      modifies Footprint()
      ensures Valid() && fresh(Footprint() - old(Footprint()))
      ensures var s := old(Snapshot());
              Snapshot() == s.(version := s.version.(protocol := protocol, sending := sending))
    {
      hide EpochsBacked, EpochsOf, CipherBacked, Symbolic, Store.Valid, NamedBacked;
      version := version.(protocol := protocol, sending := sending);
    }

    method ResetAttempts()
      requires Valid()
      modifies Footprint()
      ensures Valid() && fresh(Footprint() - old(Footprint()))
      ensures Snapshot() == C.ResetAttempts(old(Snapshot()))
    {
      hide EpochsBacked, EpochsOf, CipherBacked, Symbolic, Store.Valid, NamedBacked;
      recovery := recovery.(attempts := 0);
      log := log.(attemptResets := log.attemptResets + 1);
    }

    method OnPrepareTransition(transition: nat, v: nat)
      requires Valid()
      modifies Footprint()
      ensures Valid() && fresh(Footprint() - old(Footprint()))
      ensures Snapshot() == C.OnPrepareTransition(old(Snapshot()), cfg, transition, v)
    {
      hide C.ActivateSoleMember, C.SendLocked, EpochsBacked, EpochOf, ListOf, CipherBacked, Symbolic, Store.Valid,
           NamedBacked;
      if transition == 0 && epochs.active.Some? { return; }
      pendingTransitionId := transition;
      version := version.(protocol := v);
      if transition == 0 {
        version := version.(sending := v);
        ActivateSoleMember();
        pendingTransitionId := 0;
        return;
      }
      if v == 0 && cfg.hasCallbacks { var _ := SendLocked(); }
    }

    method OnExecuteTransition(transition: nat)
      requires Valid()
      modifies Footprint()
      ensures Valid() && fresh(Footprint() - old(Footprint()))
      ensures Snapshot() == C.OnExecuteTransition(old(Snapshot()), cfg, transition)
    {
      hide C.Activate, EpochsBacked, EpochOf, ListOf, CipherBacked, Symbolic, Store.Valid, NamedBacked;
      if transition != pendingTransitionId { return; }
      version := version.(sending := version.protocol);
      SetTransportOnly(version.protocol == 0);
      if version.protocol == 0 {
        Downgrade();
        return;
      }
      Activate();
      pendingTransitionId := 0;
    }

    /** An executed downgrade to version 0: the proposal queue stays. */
    method Downgrade()
      requires Valid()
      modifies Footprint()
      ensures Valid() && fresh(Footprint() - old(Footprint()))
      ensures Snapshot() == C.Downgrade(old(Snapshot()))
    {
      hide EpochsBacked, EpochOf, ListOf, CipherBacked, Symbolic, Store.Valid, NamedBacked;
      DropSendKeys();
      DroppedBacked(store.objects, builds, epochs);
      epochs := epochs.(pending := None);
      mls := mls.(pendingGroupId := None, groupId := None, pendingCommit := None, preCommit := None);
      log := log.(origin := None, announced := [], stacked := false, tainted := false, activated := false,
        detached := false);
      ResetEpochReady();
    }

    method OnPrepareEpoch(epoch: int, v: nat)
      requires Valid()
      modifies Footprint()
      ensures Valid() && fresh(Footprint() - old(Footprint()))
      ensures Snapshot() == C.OnPrepareEpoch(old(Snapshot()), cfg, epoch, v)
    {
      hide C.SetTransportOnly, C.ResetGroup, C.RequestRejoin, EpochsBacked, EpochOf, ListOf, CipherBacked, Symbolic,
           Store.Valid, NamedBacked;
      version := version.(protocol := v);
      if epoch != 1 { return; }
      SetTransportOnly(v == 0);
      ResetGroup();
      RequestRejoin();
    }

    method OnExternalSender(nonEmpty: bool)
      requires Valid()
      modifies Footprint()
      ensures Valid() && fresh(Footprint() - old(Footprint()))
      ensures Snapshot() == C.OnExternalSender(old(Snapshot()), cfg, nonEmpty)
    {
      hide C.CreateGroup, C.WatchIfDropped, EpochsBacked, EpochOf, ListOf, CipherBacked, Symbolic, Store.Valid,
           NamedBacked;
      mls := mls.(externalSender := nonEmpty);
      var o := CreateGroup();
      WatchIfDropped(o);
    }

    method OnProposals(b: Batch)
      requires Valid()
      modifies Footprint()
      ensures Valid() && fresh(Footprint() - old(Footprint()))
      ensures Snapshot() == C.OnProposals(old(Snapshot()), cfg, b)
    {
      hide C.ProcessAndCommit, EpochsBacked, EpochOf, ListOf, CipherBacked, Symbolic, Store.Valid, NamedBacked;
      var batch := b.(id := log.arrived);
      log := log.(arrived := log.arrived + 1);
      if epochs.pending.Some? {
        mls := mls.(queue := mls.queue + [batch]);
        return;
      }
      ProcessAndCommit(batch);
    }

    method OnPrepareCommit(transition: nat, msg: Option<Commit>)
      requires Valid()
      modifies Footprint()
      ensures Valid() && fresh(Footprint() - old(Footprint()))
      ensures Snapshot() == C.OnPrepareCommit(old(Snapshot()), cfg, transition, msg)
    {
      hide C.EnsureClient, C.ConfirmCommit, C.Reconcile, C.FinishTransition, EpochsBacked, EpochOf, ListOf,
           CipherBacked, Symbolic, Store.Valid, NamedBacked;
      pendingTransitionId := transition;
      var ok := EnsureClient();
      if !ok { return; }
      if epochs.pending.Some? && mls.pendingCommit == msg {
        ConfirmCommit();
      } else {
        var done := Reconcile(msg);
        if !done { return; }
      }
      FinishTransition(transition);
    }

    method ConfirmCommit()
      requires Valid()
      modifies Footprint()
      ensures Valid() && fresh(Footprint() - old(Footprint()))
      ensures Snapshot() == C.ConfirmCommit(old(Snapshot()))
    {
      hide EpochsBacked, EpochOf, ListOf, CipherBacked, Symbolic, Store.Valid, NamedBacked;
      if mls.pendingCommit.Some? {
        log := log.(announced := log.announced + [mls.pendingCommit.value], detached := false);
      }
      ForgetCommit();
    }

    method OnWelcome(transition: nat, w: Welcome)
      requires Valid()
      modifies Footprint()
      ensures Valid() && fresh(Footprint() - old(Footprint()))
      ensures Snapshot() == C.OnWelcome(old(Snapshot()), cfg, transition, w)
    {
      hide C.RestorePreCommit, C.EnsureClient, C.Join, C.SendInvalid, C.InvalidateAndResend, C.FinishTransition,
           EpochsOf, SendingOf, Valid;
      SetTransition(transition);
      if mls.pendingCommit.Some? {
        var restored := RestorePreCommit();
        if !restored {
          SendInvalid();
          return;
        }
        ClearQueue();
      }
      var ok := EnsureClient();
      if !ok { return; }
      var joined := Join(w);
      if !joined {
        SendInvalid();
        InvalidateAndResend();
        return;
      }
      FinishTransition(transition);
    }

    method SetTransition(transition: nat)
      requires Valid()
      modifies Footprint()
      ensures Valid() && fresh(Footprint() - old(Footprint()))
      ensures Snapshot() == old(Snapshot()).(pendingTransitionId := transition)
    {
      hide EpochsBacked, EpochsOf, CipherBacked, Symbolic, Store.Valid, NamedBacked;
      pendingTransitionId := transition;
    }

    method ClearQueue()
      requires Valid()
      modifies Footprint()
      ensures Valid() && fresh(Footprint() - old(Footprint()))
      ensures Snapshot() == old(Snapshot()).(mls := old(Snapshot()).mls.(queue := []))
    {
      hide EpochsBacked, EpochsOf, CipherBacked, Symbolic, Store.Valid, NamedBacked;
      mls := mls.(queue := []);
    }

    /** SetChannelID when no send is in progress. */
    method OnSetChannel(channel: nat)
      requires Valid()
      modifies Footprint()
      ensures Valid() && fresh(Footprint() - old(Footprint()))
      ensures Snapshot() == C.OnSetChannel(old(Snapshot()), cfg, channel)
    {
      hide C.CreateGroup, EpochsBacked, EpochOf, ListOf, CipherBacked, Symbolic, Store.Valid, NamedBacked;
      var first := channelId == 0;
      channelId := channel;
      if !first || !mls.externalSender || !mls.keyPackage { return; }
      var _ := CreateGroup();
    }

    // ---- Watchdogs ----

    method RemoveWatchdog(id: nat)
      requires Valid()
      modifies Footprint()
      ensures Valid() && fresh(Footprint() - old(Footprint()))
      ensures Snapshot() == C.RemoveWatchdog(old(Snapshot()), id)
    {
      hide EpochsBacked, EpochOf, ListOf, CipherBacked, Symbolic, Store.Valid, NamedBacked;
      recovery := recovery.(watchdogs := recovery.watchdogs - {id});
    }

    method SetWatchdog(id: nat, w: Watchdog)
      requires Valid()
      modifies Footprint()
      ensures Valid() && fresh(Footprint() - old(Footprint()))
      ensures Snapshot() == C.SetWatchdog(old(Snapshot()), id, w)
    {
      hide EpochsBacked, EpochOf, ListOf, CipherBacked, Symbolic, Store.Valid, NamedBacked;
      recovery := recovery.(watchdogs := recovery.watchdogs[id := w]);
    }

    /** recoverAfterTimeout, the section that fires. */
    method Timeout(id: nat, w: Watchdog)
      requires w.Waiting?
      requires Valid()
      modifies Footprint()
      ensures Valid() && fresh(Footprint() - old(Footprint()))
      ensures Snapshot() == C.Timeout(old(Snapshot()), cfg, id, w)
    {
      hide C.Fire, EpochsBacked, EpochOf, ListOf, CipherBacked, Symbolic, Store.Valid, NamedBacked;
      if shutdown || w.chan in recovery.closed || (w.forCommit && epochs.pending.None?) {
        RemoveWatchdog(id);
      } else {
        Fire(id, w);
      }
    }

    method Fire(id: nat, w: Watchdog)
      requires w.Waiting?
      requires Valid()
      modifies Footprint()
      ensures Valid() && fresh(Footprint() - old(Footprint()))
      ensures Snapshot() == C.Fire(old(Snapshot()), cfg, id, w)
    {
      hide C.StartFire, C.SendInvalid, C.InvalidateMls, C.EnsureClient, C.SetWatchdog, EpochsBacked, EpochOf, ListOf,
           CipherBacked, Symbolic, Store.Valid, NamedBacked;
      StartFire(id, w);
      SendInvalid();
      InvalidateMls();
      var next := recovery.epochReady;
      var ok := EnsureClient();
      SetWatchdog(id, if ok then Retrying(next, RETRY_MAX_ATTEMPTS) else Finishing(next));
    }

    method StartFire(id: nat, w: Watchdog)
      requires w.Waiting?
      requires Valid()
      modifies Footprint()
      ensures Valid() && fresh(Footprint() - old(Footprint()))
      ensures Snapshot() == C.StartFire(old(Snapshot()), id, w)
    {
      hide EpochsBacked, EpochOf, ListOf, CipherBacked, Symbolic, Store.Valid, NamedBacked;
      recovery := recovery.(attempts := recovery.attempts + 1);
      if w.forCommit {
        log := log.(commitFires := log.commitFires + 1);
      } else {
        log := log.(recoveryFires := log.recoveryFires + 1);
      }
      SetWatchdog(id, Firing(w.chan));
    }

    /** One turn of retrySend's loop. */
    method RetryAttempt(id: nat, w: Watchdog)
      requires w.Retrying?
      requires Valid()
      modifies Footprint()
      ensures Valid() && fresh(Footprint() - old(Footprint()))
      ensures Snapshot() == C.RetryAttempt(old(Snapshot()), cfg, id, w)
    {
      hide C.SendLocked, C.SetWatchdog, EpochsBacked, EpochOf, ListOf, CipherBacked, Symbolic, Store.Valid, NamedBacked;
      if shutdown || w.chan in recovery.closed || w.attemptsLeft == 0 || mls.keyPackage {
        SetWatchdog(id, Finishing(w.chan));
        return;
      }
      var r := C.Sent;
      if cfg.hasCallbacks { r := SendLocked(); }
      if r.Dropped? && r.shardNotReady && w.attemptsLeft > 1 {
        SetWatchdog(id, Retrying(w.chan, w.attemptsLeft - 1));
        return;
      }
      if r.Sent? { mls := mls.(keyPackage := true); }
      SetWatchdog(id, Finishing(w.chan));
    }

    /** recoverAfterTimeout, the section that arms a successor. */
    method Finish(id: nat, w: Watchdog)
      requires Valid()
      modifies Footprint()
      ensures Valid() && fresh(Footprint() - old(Footprint()))
      ensures Snapshot() == C.Finish(old(Snapshot()), cfg, id, w)
    {
      hide C.WatchRecovery, EpochsBacked, EpochOf, ListOf, CipherBacked, Symbolic, Store.Valid, NamedBacked;
      var superseded := shutdown || w.chan in recovery.closed;
      RemoveWatchdog(id);
      if !superseded { WatchRecovery(); }
    }

    method WatchdogStep(id: nat)
      requires Valid()
      modifies Footprint()
      ensures Valid() && fresh(Footprint() - old(Footprint()))
      ensures Snapshot() == C.WatchdogStep(old(Snapshot()), cfg, id)
    {
      hide C.Timeout, C.RetryAttempt, C.Finish, C.RemoveWatchdog, EpochsBacked, EpochOf, ListOf, CipherBacked,
           Symbolic, Store.Valid, NamedBacked;
      if id !in recovery.watchdogs { return; }
      var w := recovery.watchdogs[id];
      if w.Waiting? {
        if now >= w.deadline {
          Timeout(id, w);
        } else if shutdown || w.chan in recovery.closed {
          RemoveWatchdog(id);
        }
      } else if w.Retrying? {
        RetryAttempt(id, w);
      } else if w.Finishing? {
        Finish(id, w);
      }
    }

    // ---- Runs ----

    /** One event, with the answers its section gets. */
    method Handle(e: C.Event)
      requires Valid()
      modifies Footprint()
      ensures Valid() && fresh(Footprint() - old(Footprint()))
      ensures Snapshot() == C.Step(old(Snapshot()), cfg, e)
    {
      hide M.RunCall, C.OnSetChannel, C.OnSelectProtocolAck, C.OnPrepareTransition, C.OnExecuteTransition,
           C.OnPrepareEpoch,
           C.OnExternalSender, C.OnProposals, C.OnPrepareCommit, C.OnWelcome, C.WatchdogStep, EpochsBacked, EpochOf,
             ListOf, CipherBacked, Symbolic, Store.Valid, NamedBacked;
      if e.Media? {
        RunCall(e.call);
        return;
      }
      env := e.env;
      if e.SetChannel? { OnSetChannel(e.channel); }
      else if e.SelectProtocolAck? { OnSelectProtocolAck(e.version); }
      else if e.PrepareTransition? { OnPrepareTransition(e.transition, e.version); }
      else if e.ExecuteTransition? { OnExecuteTransition(e.transition); }
      else if e.PrepareEpoch? { OnPrepareEpoch(e.epoch, e.version); }
      else if e.ExternalSender? { OnExternalSender(e.nonEmpty); }
      else if e.Proposals? { OnProposals(e.batch); }
      else if e.PrepareCommit? { OnPrepareCommit(e.transition, e.message); }
      else if e.GetWelcome? { OnWelcome(e.transition, e.welcome); }
      else { WatchdogStep(e.id); }
    }
  }

  /** Every run of the session object is a run of the transition system, so what is proved
      of runs holds of the object: its ratchets, expanders and windows, and what it sends and
      delivers. */
  method Drive(cfg: Config, aead: Aead<seq<byte>>, kdf: Ratchet.Kdf<Secret>, exporter: Root -> Secret, es: seq<C.Event>)
    returns (s: Session)
    requires cfg.aead == Symbolic(kdf, exporter, aead)
    ensures s.Valid() && fresh(s.Footprint()) && s.cfg == cfg && s.Snapshot() == C.Run(Init(), cfg, es)
  {
    hide C.Step, Init, Session.Valid, Session.Snapshot, Symbolic;
    s := new Session(cfg, aead, kdf, exporter);
    assert es[..0] == [];
    for i := 0 to |es|
      invariant s.Valid() && fresh(s.Footprint()) && s.cfg == cfg && s.Snapshot() == C.Run(Init(), cfg, es[..i])
    {
      assert es[..i + 1][..i] == es[..i] && es[..i + 1][i] == es[i];
      s.Handle(es[i]);
    }
    assert es[..|es|] == es;
  }

  /** A rollback in one piece. */
  lemma RestoreIs(s: State)
    ensures C.RestorePreCommit(s)
            == if s.mls.preCommit.None? then (s, false)
               else (s.(epochs := s.epochs.(pending := None),
                        mls := s.mls.(client := if s.mls.client.None? || s.mls.groupId.None? then s.mls.client
                                                else Some(s.mls.client.value[s.mls.groupId.value
                                                                             := s.mls.preCommit.value]),
                                      pendingGroupId := None, pendingCommit := None, preCommit := None),
                        log := s.log.(detached := s.log.detached || (s.epochs.pending.None? && s.mls.client.Some?))),
                          true)
  {
  }

  lemma CommitKeepsGroup(s: State, c: Commit)
    requires C.HasGroup(s)
    ensures C.HasGroup(C.MakeCommit(s, c)) && C.MakeCommit(s, c).epochs == s.epochs
  {
  }

  lemma NeverBufferError(aead: Aead<seq<byte>>, key: seq<byte>, frame: seq<byte>, nonce: uint32)
    ensures var e := F.EncryptFrame(aead, key, frame, nonce, []); e.Err? ==> e.error != F.BufferTooSmall
  {
  }

  /** A turn of Decrypt's loop, in the order in which the object takes it. */
  lemma AttemptIs(s: State, cfg: Config, user: UserId, packet: seq<byte>, nonce: uint32, room: nat, slot: M.Slot,
                  ref: Ref, x: SenderState, plain: Option<seq<byte>>)
    requires M.Has(s, slot) && user in M.At(s, slot).senders && M.At(s, slot).senders[user] == x
    requires ref == Ref(M.At(s, slot).build, user) && ref in s.ratchets
    requires var full := N.ExpandTentative(x.highest, nonce);
             var found := F.OpensTo(cfg.aead, MediaKey(s.ratchets[ref].root, N.Generation(full)), packet);
             && (plain.None? <==> !M.KeyAvailable(s, cfg, ref, N.Generation(full)) || found.None?)
             && (plain.Some? ==> plain.value == found.value.0)
    ensures var full := N.ExpandTentative(x.highest, nonce);
            var s1 := M.GetKey(s, cfg, ref, N.Generation(full));
            var (record, accepted) := Replay.CheckAndMark(x.replay, full);
            && ref in s1.ratchets
            && var s2 := M.CommitRatchet(s1, cfg, ref, N.Generation(full));
               && M.Has(s2, slot)
               && var s3 := M.PutSender(s2, slot, user, SenderState(N.CommitNonce(x.highest, full), record));
                  M.TryEpoch(s, cfg, user, packet, nonce, room, slot)
                  == if plain.None? then (s1, M.Refused)
                     else if room < |plain.value| then (s1, M.TooShort)
                     else if !accepted then (s3, M.Replayed)
                     else (s3.(log := s3.log.(deliveries :=
                                 s3.log.deliveries + [Delivery(user, packet, ref, full, plain.value)])),
                           M.Delivered(plain.value))
  {
    var g := N.Generation(N.ExpandTentative(x.highest, nonce));
    M.MediaStepKeepsRetained(s, cfg, ref, g);
    RatchetStays(s, cfg, ref, g);
    M.MediaStepKeepsRetained(M.GetKey(s, cfg, ref, g), cfg, ref, g);
    hide F.OpensTo, N.ExpandTentative, N.CommitNonce, N.Generation, Replay.CheckAndMark, M.KeyAvailable, M.GetKey,
         M.CommitRatchet,
         M.PutSender;
  }

  lemma RatchetStays(s: State, cfg: Config, ref: Ref, g: uint32)
    requires ref in s.ratchets
    ensures ref in M.GetKey(s, cfg, ref, g).ratchets
  {
  }

  lemma SelectKeepsVersion(s: State)
    ensures M.SelectSendRatchet(s).version == s.version
  {
  }

  lemma DeliveredFits(s: State, cfg: Config, user: UserId, packet: seq<byte>, nonce: uint32, room: nat, slot: M.Slot)
    ensures var a := M.TryEpoch(s, cfg, user, packet, nonce, room, slot).1; a.Delivered? ==> |a.plaintext| <= room
  {
    hide F.OpensTo, N.ExpandTentative, N.Generation, N.CommitNonce, Replay.CheckAndMark, M.KeyAvailable;
  }
}
