/** How the objects of a session stand for its abstract state: epochs hold sender objects,
    the send side holds the own sender's object again, and keys are bytes. */
module SessionObjects {
  import opened Bytes
  import opened Gcm8
  import Ranges
  import opened SessionState
  import opened Senders
  import F = Frame
  import M = SessionMedia
  import C = SessionControl
  import R = Ratchet

  // ---- Keys as bytes ----

  function KeyBytes(kdf: R.Kdf<Secret>, exporter: Root -> Secret, k: MediaKey): seq<byte> {
    R.ChainKey(kdf, exporter(k.root), k.generation)
  }

  /** The cipher of symbolic keys that a cipher of key bytes amounts to. */
  function Symbolic(kdf: R.Kdf<Secret>, exporter: Root -> Secret, raw: Aead<seq<byte>>): Aead<MediaKey> {
    Aead((k: MediaKey, n: Gcm8.Nonce, i: nat) => raw.stream(KeyBytes(kdf, exporter, k), n, i),
         (k: MediaKey, n: Gcm8.Nonce, c: seq<byte>, aad: seq<byte>) => raw.tag(KeyBytes(kdf, exporter, k), n, c, aad),
         (k: MediaKey) => raw.validKey(KeyBytes(kdf, exporter, k)))
  }

  lemma SymbolicSealed(kdf: R.Kdf<Secret>, exporter: Root -> Secret, raw: Aead<seq<byte>>, k: MediaKey,
                       n: Gcm8.Nonce, p: seq<byte>, aad: seq<byte>)
    ensures Sealed(Symbolic(kdf, exporter, raw), k, n, p, aad) == Sealed(raw, KeyBytes(kdf, exporter, k), n, p, aad)
  {
    hide KeyBytes;
    var a, b := Symbolic(kdf, exporter, raw), KeyBytes(kdf, exporter, k);
    assert Keystream(a, k, n, |p|) == Keystream(raw, b, n, |p|);
  }

  lemma SymbolicFrame(kdf: R.Kdf<Secret>, exporter: Root -> Secret, raw: Aead<seq<byte>>, k: MediaKey,
                      p: seq<byte>, nonce: uint32, rs: seq<Ranges.Range>)
    ensures F.EncryptFrame(Symbolic(kdf, exporter, raw), k, p, nonce, rs)
            == F.EncryptFrame(raw, KeyBytes(kdf, exporter, k), p, nonce, rs)
  {
    hide KeyBytes, Sealed;
    SymbolicSealed(kdf, exporter, raw, k, F.FullNonce(nonce), Ranges.Ciphertext(p, rs), Ranges.AdditionalData(p, rs));
  }

  /** What frame.Decrypt returns under the key's bytes is what opening under the key means. */
  lemma OpensAs(kdf: R.Kdf<Secret>, exporter: Root -> Secret, raw: Aead<seq<byte>>, k: MediaKey, packet: seq<byte>,
                r: Result<(seq<byte>, uint32), F.FrameError>)
    requires var b := KeyBytes(kdf, exporter, k);
             && (r.Ok? ==> exists rs :: F.EncryptsTo(raw, b, r.value.0, r.value.1, rs, packet))
             && (r.Err? ==> forall p, nonce: uint32, rs :: !F.EncryptsTo(raw, b, p, nonce, rs, packet))
    ensures F.OpensTo(Symbolic(kdf, exporter, raw), k, packet) == if r.Ok? then Some(r.value) else None
  {
    hide KeyBytes, Symbolic, F.EncryptFrame;
    var a, b := Symbolic(kdf, exporter, raw), KeyBytes(kdf, exporter, k);
    forall p, nonce: uint32, rs
      ensures F.EncryptsTo(a, k, p, nonce, rs, packet) <==> F.EncryptsTo(raw, b, p, nonce, rs, packet)
    {
      SymbolicFrame(kdf, exporter, raw, k, p, nonce, rs);
    }
    hide F.EncryptsTo;
    if r.Ok? {
      var rs :| F.EncryptsTo(a, k, r.value.0, r.value.1, rs, packet);
      var p, n: uint32, ss :| F.EncryptsTo(a, k, p, n, ss, packet) && F.OpensTo(a, k, packet) == Some((p, n));
      F.DecryptionUnique(a, k, packet, p, n, ss, r.value.0, r.value.1, rs);
    }
  }

  lemma ParsesAs(packet: seq<byte>, r: Result<F.ParsedFrame, F.FrameError>)
    requires r.Ok? ==> F.Prints(r.value, packet)
    requires r.Err? ==> forall f :: !F.Prints(f, packet)
    ensures M.NonceOf(packet) == if r.Ok? then Some(r.value.nonce) else None
  {
    hide F.Prints;
    if r.Ok? {
      var f :| F.Prints(f, packet) && M.NonceOf(packet) == Some(f.nonce);
      F.PrintInjective(f, r.value, packet);
    }
  }

  // ---- Epochs of objects ----

  /** epochState: the senders are references. */
  datatype EpochObject = EpochObject(build: nat, groupId: GroupId, term: Term, senders: map<UserId, Sender>,
                                     expiresAt: Time)

  datatype EpochObjects = EpochObjects(active: Option<EpochObject>, pending: Option<EpochObject>,
                                       retained: seq<EpochObject>)

  /** A sender object with its name. */
  datatype Named = Named(ref: Ref, sender: Sender)

  /** A cipher or the key it was made for: bytes, and which key they are. */
  datatype Keyed = Keyed(key: MediaKey, bytes: seq<byte>)

  datatype SendObjects = SendObjects(current: Option<Named>, retained: Option<Named>, retainedExpires: Time,
                                     cipher: Option<Keyed>, cipherKey: Option<Keyed>)

  ghost function Heard(heard: map<Ref, SenderState>, build: nat, users: set<UserId>): map<UserId, SenderState> {
    map u | u in users && Ref(build, u) in heard :: heard[Ref(build, u)]
  }

  ghost function EpochOf(heard: map<Ref, SenderState>, e: EpochObject): Epoch {
    Epoch(e.build, e.groupId, e.term, Heard(heard, e.build, e.senders.Keys), e.expiresAt)
  }

  ghost function OptionOf(heard: map<Ref, SenderState>, e: Option<EpochObject>): Option<Epoch> {
    if e.None? then None else Some(EpochOf(heard, e.value))
  }

  ghost function ListOf(heard: map<Ref, SenderState>, es: seq<EpochObject>): (r: seq<Epoch>)
    ensures |r| == |es|
  {
    seq(|es|, i requires 0 <= i < |es| => EpochOf(heard, es[i]))
  }

  ghost function EpochsOf(heard: map<Ref, SenderState>, es: EpochObjects): Epochs {
    Epochs(OptionOf(heard, es.active), OptionOf(heard, es.pending), ListOf(heard, es.retained))
  }

  function RefOf(n: Option<Named>): Option<Ref> { if n.None? then None else Some(n.value.ref) }

  function KeyOf(k: Option<Keyed>): Option<MediaKey> { if k.None? then None else Some(k.value.key) }

  ghost function SendingOf(counter: uint64, s: SendObjects): Sending {
    Sending(counter, RefOf(s.current), RefOf(s.retained), s.retainedExpires, KeyOf(s.cipher), KeyOf(s.cipherKey))
  }

  // ---- When objects and names agree ----

  /** Every sender of the epoch is the object of its name. */
  ghost predicate EpochBacked(objects: map<Ref, Sender>, builds: nat, e: EpochObject) {
    && e.build < builds
    && forall u :: u in e.senders ==> Ref(e.build, u) in objects && objects[Ref(e.build, u)] == e.senders[u]
  }

  ghost predicate HasObject(es: EpochObjects, slot: M.Slot) {
    match slot
    case Active => es.active.Some?
    case Pending => es.pending.Some?
    case Retained(i) => i < |es.retained|
  }

  ghost function ObjectAt(es: EpochObjects, slot: M.Slot): EpochObject
    requires HasObject(es, slot)
  {
    match slot
    case Active => es.active.value
    case Pending => es.pending.value
    case Retained(i) => es.retained[i]
  }

  /** No two epochs share a sender object. */
  ghost predicate EpochsBacked(objects: map<Ref, Sender>, builds: nat, es: EpochObjects) {
    && (forall a :: HasObject(es, a) ==> EpochBacked(objects, builds, ObjectAt(es, a)))
    && (forall a, b :: HasObject(es, a) && HasObject(es, b) && a != b ==>
       ObjectAt(es, a).build != ObjectAt(es, b).build)
    && (forall r :: r in objects ==> r.build < builds)
  }

  ghost predicate NamedBacked(objects: map<Ref, Sender>, n: Option<Named>) {
    n.Some? ==> n.value.ref in objects && objects[n.value.ref] == n.value.sender
  }

  ghost predicate CipherBacked(kdf: R.Kdf<Secret>, exporter: Root -> Secret, raw: Aead<seq<byte>>, s: SendObjects) {
    && s.cipher == s.cipherKey
    && (s.cipher.Some? ==> s.cipher.value.bytes == KeyBytes(kdf, exporter, s.cipher.value.key)
                           && raw.validKey(s.cipher.value.bytes))
  }

  // ---- One sender hears something ----

  /** Only the epoch that holds the sender changes, and only at that sender. */
  lemma HearingIsPutSender(objects: map<Ref, Sender>, builds: nat, es: EpochObjects, heard: map<Ref, SenderState>,
                           slot: M.Slot, user: UserId, x: SenderState, s: State)
    requires EpochsBacked(objects, builds, es) && heard.Keys == objects.Keys && HasObject(es, slot)
    requires user in ObjectAt(es, slot).senders && s.epochs == EpochsOf(heard, es)
    ensures M.Has(s, slot)
    ensures M.PutSender(s, slot, user, x)
            == s.(epochs := EpochsOf(heard[Ref(ObjectAt(es, slot).build, user) := x], es))
  {
    hide EpochOf, EpochsBacked;
    var later := heard[Ref(ObjectAt(es, slot).build, user) := x];
    var t := M.PutSender(s, slot, user, x);
    if es.active.Some? { SlotHears(objects, builds, es, heard, slot, user, x, M.Active); }
    if es.pending.Some? { SlotHears(objects, builds, es, heard, slot, user, x, M.Pending); }
    forall i | 0 <= i < |es.retained|
      ensures EpochOf(later, es.retained[i]) == AtSender(EpochOf(heard, es.retained[i]), slot == M.Retained(i), user, x)
    {
      SlotHears(objects, builds, es, heard, slot, user, x, M.Retained(i));
    }
    assert ListOf(later, es.retained) == t.epochs.retained;
  }

  function AtSender(e: Epoch, here: bool, user: UserId, x: SenderState): Epoch {
    if here then e.(senders := e.senders[user := x]) else e
  }

  lemma SlotHears(objects: map<Ref, Sender>, builds: nat, es: EpochObjects, heard: map<Ref, SenderState>,
                  slot: M.Slot, user: UserId, x: SenderState, a: M.Slot)
    requires EpochsBacked(objects, builds, es) && heard.Keys == objects.Keys && HasObject(es, slot)
    requires user in ObjectAt(es, slot).senders && HasObject(es, a)
    ensures var r := Ref(ObjectAt(es, slot).build, user);
            EpochOf(heard[r := x], ObjectAt(es, a)) == AtSender(EpochOf(heard, ObjectAt(es, a)), a == slot, user, x)
  {
    HeardElsewhere(objects, builds, heard, ObjectAt(es, a), Ref(ObjectAt(es, slot).build, user), x);
    hide EpochOf;
  }

  lemma HeardElsewhere(objects: map<Ref, Sender>, builds: nat, heard: map<Ref, SenderState>, e: EpochObject,
                       r: Ref, x: SenderState)
    requires EpochBacked(objects, builds, e) && heard.Keys == objects.Keys && r in heard
    ensures EpochOf(heard[r := x], e)
            == (if r.build == e.build && r.user in e.senders
                then EpochOf(heard, e).(senders := EpochOf(heard, e).senders[r.user := x]) else EpochOf(heard, e))
  {
    var a, b := Heard(heard, e.build, e.senders.Keys), Heard(heard[r := x], e.build, e.senders.Keys);
    if r.build == e.build && r.user in e.senders {
      assert b == a[r.user := x];
    } else {
      assert b == a;
    }
  }

  // ---- Reading epochs and senders through the abstraction ----

  lemma SlotStands(objects: map<Ref, Sender>, builds: nat, es: EpochObjects, heard: map<Ref, SenderState>,
                   slot: M.Slot, s: State)
    requires EpochsBacked(objects, builds, es) && heard.Keys == objects.Keys && s.epochs == EpochsOf(heard, es)
    ensures M.Has(s, slot) <==> HasObject(es, slot)
    ensures HasObject(es, slot) ==>
              M.At(s, slot).build == ObjectAt(es, slot).build &&
                M.At(s, slot).senders.Keys == ObjectAt(es, slot).senders.Keys
  {
  }

  lemma SenderStands(objects: map<Ref, Sender>, builds: nat, es: EpochObjects, heard: map<Ref, SenderState>,
                     slot: M.Slot,
                     user: UserId, s: State)
    requires EpochsBacked(objects, builds, es) && heard.Keys == objects.Keys && s.epochs == EpochsOf(heard, es)
    requires HasObject(es, slot) && user in ObjectAt(es, slot).senders
    ensures var r := Ref(ObjectAt(es, slot).build, user);
            && r in objects && objects[r] == ObjectAt(es, slot).senders[user]
            && M.Has(s, slot) && user in M.At(s, slot).senders && M.At(s, slot).senders[user] == heard[r]
  {
    assert EpochBacked(objects, builds, ObjectAt(es, slot));
  }

  // ---- Pruning ----

  lemma {:induction false} UnexpiredFrom(es: seq<Epoch>, i: nat, now: Time)
    requires i < |es|
    ensures M.Unexpired(es[i..], now)
            == (if es[i].expiresAt > now then [es[i]] else []) + M.Unexpired(es[i + 1..], now)
  {
    assert es[i..][0] == es[i] && es[i..][1..] == es[i + 1..];
  }

  lemma ExpiryOf(heard: map<Ref, SenderState>, e: EpochObject)
    ensures EpochOf(heard, e).expiresAt == e.expiresAt
  {
  }

  /** kept are the epochs of es at the given ascending positions below n. */
  predicate Subsequence(es: seq<EpochObject>, kept: seq<EpochObject>, from: seq<nat>, n: nat) {
    && |from| == |kept| && n <= |es|
    && (forall i :: 0 <= i < |kept| ==> from[i] < n && kept[i] == es[from[i]])
    && (forall i, j :: 0 <= i < j < |kept| ==> from[i] < from[j])
  }

  /** After n turns of the pruning loop. */
  ghost predicate PrunedSoFar(heard: map<Ref, SenderState>, es: seq<EpochObject>, kept: seq<EpochObject>,
                              from: seq<nat>,
                              n: nat, now: Time)
  {
    && Subsequence(es, kept, from, n)
    && M.Unexpired(ListOf(heard, es), now) == ListOf(heard, kept) + M.Unexpired(ListOf(heard, es)[n..], now)
  }

  lemma NothingPruned(heard: map<Ref, SenderState>, es: seq<EpochObject>, now: Time)
    ensures PrunedSoFar(heard, es, [], [], 0, now)
  {
    assert ListOf(heard, es)[0..] == ListOf(heard, es);
  }

  lemma PruneOneMore(heard: map<Ref, SenderState>, es: seq<EpochObject>, kept: seq<EpochObject>, from: seq<nat>,
                     n: nat, now: Time)
    requires n < |es| && PrunedSoFar(heard, es, kept, from, n, now)
    ensures if es[n].expiresAt > now then PrunedSoFar(heard, es, kept + [es[n]], from + [n], n + 1, now)
            else PrunedSoFar(heard, es, kept, from, n + 1, now)
  {
    var all := ListOf(heard, es);
    ExpiryOf(heard, es[n]);
    UnexpiredFrom(all, n, now);
    hide EpochOf, M.Unexpired;
    assert ListOf(heard, kept + [es[n]]) == ListOf(heard, kept) + [all[n]];
  }

  lemma AllPruned(heard: map<Ref, SenderState>, es: seq<EpochObject>, kept: seq<EpochObject>, from: seq<nat>, now: Time)
    requires PrunedSoFar(heard, es, kept, from, |es|, now)
    ensures ListOf(heard, kept) == M.Unexpired(ListOf(heard, es), now) && Subsequence(es, kept, from, |es|)
  {
    assert ListOf(heard, es)[|es|..] == [];
  }

  lemma PrunedBacked(objects: map<Ref, Sender>, builds: nat, es: EpochObjects, kept: seq<EpochObject>, from: seq<nat>)
    requires EpochsBacked(objects, builds, es) && Subsequence(es.retained, kept, from, |es.retained|)
    ensures EpochsBacked(objects, builds, es.(retained := kept))
  {
    var fs := es.(retained := kept);
    forall a | HasObject(fs, a)
      ensures HasObject(es, Origin(from, a)) && ObjectAt(fs, a) == ObjectAt(es, Origin(from, a))
    {
    }
    hide EpochBacked;
    forall a, b | HasObject(fs, a) && HasObject(fs, b) && a != b
      ensures ObjectAt(fs, a).build != ObjectAt(fs, b).build {
      assert Origin(from, a) != Origin(from, b);
    }
  }

  function Origin(from: seq<nat>, a: M.Slot): M.Slot {
    match a
    case Retained(i) => if i < |from| then M.Retained(from[i]) else a
    case _ => a
  }

  // ---- Moving and dropping epochs ----

  lemma ActiveBacked(objects: map<Ref, Sender>, builds: nat, es: EpochObjects)
    requires EpochsBacked(objects, builds, es)
    ensures es.active.Some? ==> EpochBacked(objects, builds, es.active.value)
    ensures es.pending.Some? ==> EpochBacked(objects, builds, es.pending.value)
  {
    hide EpochBacked;
    assert HasObject(es, M.Active) ==> ObjectAt(es, M.Active) == es.active.value;
    assert HasObject(es, M.Pending) ==> ObjectAt(es, M.Pending) == es.pending.value;
  }

  /** The pending epoch becomes active, and the active one is retained until it expires. */
  function Moved(es: EpochObjects, expiry: Time): EpochObjects {
    EpochObjects(es.pending, None,
                 if es.active.None? then es.retained else es.retained + [es.active.value.(expiresAt := expiry)])
  }

  lemma MovedBacked(objects: map<Ref, Sender>, builds: nat, es: EpochObjects, expiry: Time)
    requires EpochsBacked(objects, builds, es)
    ensures EpochsBacked(objects, builds, Moved(es, expiry))
  {
    var fs := Moved(es, expiry);
    forall a | HasObject(fs, a)
      ensures HasObject(es, MovedFrom(es, a)) && ObjectAt(fs, a).build == ObjectAt(es, MovedFrom(es, a)).build
      ensures EpochBacked(objects, builds, ObjectAt(fs, a))
    {
      assert EpochBacked(objects, builds, ObjectAt(es, MovedFrom(es, a)));
    }
    hide EpochBacked;
    forall a, b | HasObject(fs, a) && HasObject(fs, b) && a != b
      ensures ObjectAt(fs, a).build != ObjectAt(fs, b).build {
      assert MovedFrom(es, a) != MovedFrom(es, b);
    }
  }

  function MovedFrom(es: EpochObjects, a: M.Slot): M.Slot {
    match a
    case Retained(i) => if i < |es.retained| then a else M.Active
    case _ => M.Pending
  }

  lemma MovedOf(heard: map<Ref, SenderState>, es: EpochObjects, expiry: Time)
    ensures var e, f := EpochsOf(heard, es), EpochsOf(heard, Moved(es, expiry));
            f == Epochs(e.pending, None,
                        if e.active.None? then e.retained else e.retained + [e.active.value.(expiresAt := expiry)])
  {
    if es.active.Some? {
      var x := es.active.value.(expiresAt := expiry);
      assert ListOf(heard, es.retained + [x]) == ListOf(heard, es.retained) + [EpochOf(heard, x)];
    }
  }

  lemma DroppedBacked(objects: map<Ref, Sender>, builds: nat, es: EpochObjects)
    requires EpochsBacked(objects, builds, es)
    ensures EpochsBacked(objects, builds, es.(pending := None))
    ensures EpochsBacked(objects, builds, EpochObjects(None, None, []))
  {
    hide EpochBacked;
    var fs := es.(pending := None);
    forall a | HasObject(fs, a) ensures HasObject(es, a) && ObjectAt(fs, a) == ObjectAt(es, a) {
    }
  }

  lemma KeysOf(objects: map<Ref, Sender>, builds: nat, heard: map<Ref, SenderState>, e: EpochObject)
    requires EpochBacked(objects, builds, e) && heard.Keys == objects.Keys
    ensures EpochOf(heard, e).senders.Keys == e.senders.Keys && EpochOf(heard, e).build == e.build
  {
  }

  lemma AddsSame(objects: map<Ref, Sender>, builds: nat, heard: map<Ref, SenderState>, before: Option<EpochObject>,
                 after: EpochObject)
    requires EpochBacked(objects, builds, after) && heard.Keys == objects.Keys
    requires before.Some? ==> EpochBacked(objects, builds, before.value)
    ensures C.AddsSender(OptionOf(heard, before), EpochOf(heard, after))
            <==> before.None? || exists u :: u in after.senders && u !in before.value.senders
  {
    KeysOf(objects, builds, heard, after);
    if before.Some? {
      KeysOf(objects, builds, heard, before.value);
      hide EpochOf, EpochBacked;
      NewcomerByKeys(EpochOf(heard, before.value), EpochOf(heard, after), before.value.senders.Keys,
        after.senders.Keys);
    }
  }

  lemma NewcomerByKeys(before: Epoch, after: Epoch, known: set<UserId>, users: set<UserId>)
    requires before.senders.Keys == known && after.senders.Keys == users
    ensures C.AddsSender(Some(before), after) <==> exists u :: u in users && u !in known
  {
    if u :| u in users && u !in known {
      assert u in after.senders && u !in before.senders;
    }
  }

  // ---- Building an epoch ----

  /** New senders under the names of one build, and everything else as before. */
  ghost predicate Rebuilt(objects: map<Ref, Sender>, heard: map<Ref, SenderState>, later: map<Ref, Sender>,
                          laterHeard: map<Ref, SenderState>, build: nat, senders: map<UserId, Sender>)
  {
    && later.Keys == laterHeard.Keys
    && (forall r :: r in later <==> r in objects || (r.build == build && r.user in senders))
    && (forall r :: r in objects ==> r in heard && later[r] == objects[r] && laterHeard[r] == heard[r])
    && (forall u :: u in senders ==> later[Ref(build, u)] == senders[u] && laterHeard[Ref(build, u)] == NEW_SENDER)
  }

  lemma RebuiltOneMore(objects: map<Ref, Sender>, heard: map<Ref, SenderState>, later: map<Ref, Sender>,
                       laterHeard: map<Ref, SenderState>, build: nat, senders: map<UserId, Sender>, u: UserId,
                         x: Sender)
    requires Rebuilt(objects, heard, later, laterHeard, build, senders) && u !in senders
    requires forall r :: r in objects ==> r.build < build
    ensures Ref(build, u) !in later
    ensures Rebuilt(objects, heard, later[Ref(build, u) := x], laterHeard[Ref(build, u) := NEW_SENDER], build,
            senders[u := x])
  {
  }

  lemma NotYetBuilt(objects: map<Ref, Sender>, heard: map<Ref, SenderState>, later: map<Ref, Sender>,
                    laterHeard: map<Ref, SenderState>, build: nat, senders: map<UserId, Sender>, u: UserId)
    requires Rebuilt(objects, heard, later, laterHeard, build, senders) && u !in senders
    requires forall r :: r in objects ==> r.build < build
    ensures Ref(build, u) !in later
  {
  }

  lemma StillNamed(objects: map<Ref, Sender>, heard: map<Ref, SenderState>, later: map<Ref, Sender>,
                   laterHeard: map<Ref, SenderState>, build: nat, senders: map<UserId, Sender>, s: SendObjects)
    requires Rebuilt(objects, heard, later, laterHeard, build, senders)
    requires NamedBacked(objects, s.current) && NamedBacked(objects, s.retained)
    ensures NamedBacked(later, s.current) && NamedBacked(later, s.retained)
  {
  }

  lemma NoNewRatchets(build: nat, term: Term)
    ensures C.NewRatchets(build, Group(term, {})) == map[]
  {
  }

  lemma RatchetsOneMore(before: map<Ref, KeyRatchet>, build: nat, term: Term, done: set<UserId>, u: UserId)
    requires u !in done
    ensures (before + C.NewRatchets(build, Group(term, done)))[Ref(build, u) := KeyRatchet(Root(term, u), R.START)]
            == before + C.NewRatchets(build, Group(term, done + {u}))
  {
    assert C.NewRatchets(build, Group(term, done))[Ref(build, u) := KeyRatchet(Root(term, u), R.START)]
           == C.NewRatchets(build, Group(term, done + {u}));
  }

  lemma RebuiltBacked(objects: map<Ref, Sender>, heard: map<Ref, SenderState>, later: map<Ref, Sender>,
                      laterHeard: map<Ref, SenderState>, build: nat, es: EpochObjects, e: EpochObject)
    requires EpochsBacked(objects, build, es) && heard.Keys == objects.Keys
    requires Rebuilt(objects, heard, later, laterHeard, build, e.senders) && e.build == build
    ensures EpochsBacked(later, build + 1, es.(pending := Some(e)))
  {
    var fs := es.(pending := Some(e));
    forall a | HasObject(fs, a) ensures EpochBacked(later, build + 1, ObjectAt(fs, a)) {
      if a != M.Pending { assert EpochBacked(objects, build, ObjectAt(es, a)) && ObjectAt(fs, a) == ObjectAt(es, a); }
    }
    forall a, b | HasObject(fs, a) && HasObject(fs, b) && a != b
      ensures ObjectAt(fs, a).build != ObjectAt(fs, b).build {
      if a != M.Pending { assert EpochBacked(objects, build, ObjectAt(es, a)) && ObjectAt(fs, a) == ObjectAt(es, a); }
      if b != M.Pending { assert EpochBacked(objects, build, ObjectAt(es, b)) && ObjectAt(fs, b) == ObjectAt(es, b); }
    }
  }

  lemma StillHeard(objects: map<Ref, Sender>, heard: map<Ref, SenderState>, later: map<Ref, Sender>,
                   laterHeard: map<Ref, SenderState>, build: nat, senders: map<UserId, Sender>, e: EpochObject)
    requires EpochBacked(objects, build, e) && heard.Keys == objects.Keys
    requires Rebuilt(objects, heard, later, laterHeard, build, senders)
    ensures EpochOf(laterHeard, e) == EpochOf(heard, e)
  {
    assert Heard(laterHeard, e.build, e.senders.Keys) == Heard(heard, e.build, e.senders.Keys);
  }

  lemma RebuiltOf(objects: map<Ref, Sender>, heard: map<Ref, SenderState>, later: map<Ref, Sender>,
                  laterHeard: map<Ref, SenderState>, build: nat, es: EpochObjects, e: EpochObject)
    requires EpochsBacked(objects, build, es) && heard.Keys == objects.Keys
    requires Rebuilt(objects, heard, later, laterHeard, build, e.senders) && e.build == build
    ensures EpochsOf(laterHeard, es.(pending := Some(e)))
            == EpochsOf(heard, es).(pending := Some(Epoch(build, e.groupId, e.term,
              map u | u in e.senders.Keys :: NEW_SENDER,
                                                          e.expiresAt)))
  {
    assert Heard(laterHeard, build, e.senders.Keys) == map u | u in e.senders.Keys :: NEW_SENDER;
    forall i | 0 <= i < |es.retained| ensures EpochOf(laterHeard, es.retained[i]) == EpochOf(heard, es.retained[i]) {
      assert HasObject(es, M.Retained(i)) && ObjectAt(es, M.Retained(i)) == es.retained[i];
      StillHeard(objects, heard, later, laterHeard, build, e.senders, es.retained[i]);
    }
    if es.active.Some? {
      assert HasObject(es, M.Active) && ObjectAt(es, M.Active) == es.active.value;
      StillHeard(objects, heard, later, laterHeard, build, e.senders, es.active.value);
    }
    assert EpochOf(laterHeard, e)
           == Epoch(build, e.groupId, e.term, map u | u in e.senders.Keys :: NEW_SENDER, e.expiresAt);
    hide EpochOf;
    assert ListOf(laterHeard, es.retained) == ListOf(heard, es.retained);
  }
}
