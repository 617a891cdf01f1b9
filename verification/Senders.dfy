/** The sender objects of a session (session/session.go: senderState): each a ratchet, a nonce
    expander and a replay window of its own, held by reference by the epochs and, for the
    session's own sender, by the send side as well. */
module Senders {
  import opened Bytes
  import opened Nonce
  import opened SessionState
  import Replay
  import R = Ratchet

  type Secret = seq<byte>

  class Sender {
    const ratchet: R.KeyRatchet<Secret>
    const expander: NonceExpander
    const replay: Replay.AntiReplayWindow

    /** Which secret it is, symbolically. */
    const root: Root

    /** Everything the sender owns, including the buffers of cached keys. */
    ghost var repr: set<object>

    ghost predicate Valid()
      reads this, repr
    {
      && this in repr && ratchet in repr && expander in repr && replay in repr && replay.bitmap in repr
      && ratchet.KeyBuffers() <= repr
      && (forall b :: b in ratchet.KeyBuffers() ==> b as object != replay.bitmap as object)
      && ratchet.Valid() && replay.Valid()
    }

    ghost function Position(): R.Position
      requires Valid()
      reads this, repr
    {
      ratchet.Where()
    }

    ghost function Heard(): SenderState
      requires Valid()
      reads this, repr
    {
      SenderState(expander.State(), replay.record)
    }

    /** NewKeyRatchet, NewNonceExpander and an empty window. */
    constructor (kdf: R.Kdf<Secret>, secret: Secret, gap: uint32, root: Root)
      ensures Valid() && this in repr && fresh(repr) && this.root == root && Position() == R.START &&
              Heard() == NEW_SENDER
      ensures ratchet.root == secret && ratchet.kdf == kdf
      ensures ratchet.retentionTTL == KEY_RETENTION && ratchet.maxGenerationGap == gap
    {
      ratchet := new R.KeyRatchet(kdf, secret, KEY_RETENTION, gap);
      expander := new NonceExpander();
      replay := new Replay.AntiReplayWindow();
      this.root := root;
      new;
      repr := {this, ratchet, expander, replay, replay.bitmap};
    }

    method GetKey(g: uint32, now: Time) returns (key: Option<seq<byte>>)
      requires Valid()
      modifies repr
      ensures Valid() && this in repr && fresh(repr - old(repr)) && Heard() == old(Heard())
      ensures Position() == R.AfterGetKey(old(Position()), ratchet.maxGenerationGap, ratchet.retentionTTL, now, g)
      ensures key.Some? <==> R.Available(old(Position()), ratchet.maxGenerationGap, now, g)
      ensures key.Some? ==> key.value == R.ChainKey(ratchet.kdf, ratchet.root, g)
    {
      hide R.ChainKey, R.ChainSecret, R.AfterGetKey, R.Available;
      var result := ratchet.GetKey(g, now);
      repr := repr + ratchet.KeyBuffers();
      return if result.Ok? then Some(result.value[..]) else None;
    }

    method Commit(g: uint32)
      requires Valid()
      modifies repr
      ensures Valid() && repr == old(repr) && Heard() == old(Heard())
      ensures Position() == R.AfterCommit(old(Position()), ratchet.maxGenerationGap, g)
    {
      hide R.ChainKey, R.ChainSecret, R.AfterCommit;
      ratchet.Commit(g);
    }

    /** The expander's Commit, and the replay window's verdict. */
    method Hear(full: uint64) returns (ok: bool)
      requires Valid()
      modifies repr
      ensures Valid() && repr == old(repr) && Position() == old(Position())
      ensures var (record, accepted) := Replay.CheckAndMark(old(Heard()).replay, full);
              ok == accepted && Heard() == SenderState(CommitNonce(old(Heard()).highest, full), record)
    {
      hide R.ChainKey, R.ChainSecret;
      expander.Commit(full);
      ok := replay.CheckAndMark(full);
    }
  }

  /** All sender objects a session ever made, with what they stand for. Only proofs read its
      maps; its methods are the session's calls on one sender, which leave the others alone. */
  class Store {
    const kdf: R.Kdf<Secret>
    const exporter: Root -> Secret
    const gap: uint32

    ghost var objects: map<Ref, Sender>
    ghost var ratchets: map<Ref, KeyRatchet>
    ghost var heard: map<Ref, SenderState>
    ghost var repr: set<object>

    ghost predicate StandsFor(x: Sender, k: KeyRatchet, h: SenderState)
      requires x.Valid()
      reads x, x.repr
    {
      && x.ratchet.kdf == kdf && x.ratchet.root == exporter(x.root)
      && x.ratchet.retentionTTL == KEY_RETENTION && x.ratchet.maxGenerationGap == gap
      && k == KeyRatchet(x.root, x.Position()) && h == x.Heard()
    }

    /** The sender of this name is in order. */
    ghost predicate Holds(r: Ref)
      reads this, repr
    {
      && r in objects && r in ratchets && r in heard && objects[r] in repr
      && objects[r] in objects[r].repr && objects[r].repr <= repr && objects[r].Valid()
      && StandsFor(objects[r], ratchets[r], heard[r])
    }

    /** The objects of this name's sender, if there is one. */
    ghost function Mine(r: Ref): set<object>
      reads this, repr
    {
      if r in objects && objects[r] in repr then objects[r].repr else {}
    }

    ghost predicate Valid()
      reads this, repr
    {
      && this !in repr && ratchets.Keys == objects.Keys && heard.Keys == objects.Keys
      && (forall r :: r in objects ==> Holds(r))
      && (forall r, q :: r in objects && q in objects && r != q ==> objects[r].repr !! objects[q].repr)
    }

    constructor (kdf: R.Kdf<Secret>, exporter: Root -> Secret, gap: uint32)
      ensures Valid() && repr == {} && objects == map[] && ratchets == map[] && heard == map[]
      ensures this.kdf == kdf && this.exporter == exporter && this.gap == gap
    {
      this.kdf, this.exporter, this.gap := kdf, exporter, gap;
      objects, ratchets, heard, repr := map[], map[], map[], {};
    }

    /** The expander is where the maps say. */
    lemma ExpanderOf(r: Ref)
      requires Valid() && r in objects
      ensures r in heard && heard[r].highest == objects[r].expander.State()
    {
      assert Holds(r);
    }

    lemma Parts(r: Ref)
      requires Valid() && r in objects
      ensures Holds(r) && this !in repr && Mine(r) == objects[r].repr
    {
    }

    lemma NamesAgree()
      requires Valid()
      ensures heard.Keys == objects.Keys && ratchets.Keys == objects.Keys
    {
    }

    lemma RootOf(r: Ref)
      requires Valid() && r in objects
      ensures r in ratchets && r in heard && ratchets[r].root == objects[r].root
    {
      assert Holds(r);
    }

    method GetKey(ghost r: Ref, x: Sender, g: uint32, now: Time) returns (key: Option<seq<byte>>)
      requires Valid() && r in objects && objects[r] == x
      modifies this, repr
      ensures Valid() && fresh(repr - old(repr)) && objects == old(objects) && heard == old(heard)
      ensures ratchets == old(ratchets)[r := KeyRatchet(x.root,
                R.AfterGetKey(old(ratchets)[r].position, gap, KEY_RETENTION, now, g))]
      ensures key.Some? <==> R.Available(old(ratchets)[r].position, gap, now, g)
      ensures key.Some? ==> key.value == R.ChainKey(kdf, exporter(x.root), g)
    {
      hide R.ChainKey, R.AfterGetKey, R.Available, Sender.Valid, Sender.Position, Sender.Heard, Valid, Mine;
      Parts(r);
      NamesAgree();
      key := x.GetKey(g, now);
      repr := repr + x.repr;
      ratchets := ratchets[r := KeyRatchet(x.root, x.Position())];
      OthersStay(r);
    }

    /** A sender whose objects did not change is still in order. */
    twostate lemma Stays(q: Ref)
      requires old(Holds(q)) && old(repr) <= repr && q in objects && objects[q] == old(objects[q])
      requires q in ratchets && ratchets[q] == old(ratchets[q]) && q in heard && heard[q] == old(heard[q])
      requires forall o :: o in old(objects[q].repr) ==> unchanged(o)
      ensures Holds(q) && objects[q].repr == old(objects[q].repr)
    {
      hide Sender.Valid, Sender.Position, Sender.Heard;
    }

    /** What happened to one sender left the others alone. */
    twostate lemma OthersStay(r: Ref)
      requires old(Valid()) && this !in repr && old(repr) <= repr
      requires r in objects && objects == old(objects)[r := objects[r]]
      requires r in ratchets && ratchets == old(ratchets)[r := ratchets[r]]
      requires r in heard && heard == old(heard)[r := heard[r]]
      requires Holds(r) && fresh(objects[r].repr - old(Mine(r)))
      requires forall o :: o in old(repr) && o !in old(Mine(r)) ==> unchanged(o)
      ensures Valid()
    {
      hide Sender.Valid, StandsFor, Holds, Mine;
      forall q | q in objects && q != r
        ensures Holds(q) && objects[q].repr == old(objects[q].repr) && objects[q].repr !! objects[r].repr
      {
        OtherStays((r, q));
      }
    }

    /** The same for two names: what happened to the first left the second alone. */
    twostate lemma OtherStays(names: (Ref, Ref))
      requires var (r, q) := names;
               && old(Valid()) && old(repr) <= repr && q in old(objects) && q != r
               && q in objects && objects[q] == old(objects[q]) && r in objects
               && q in ratchets && ratchets[q] == old(ratchets[q]) && q in heard && heard[q] == old(heard[q])
               && fresh(objects[r].repr - old(Mine(r)))
      requires forall o :: o in old(repr) && o !in old(Mine(names.0)) ==> unchanged(o)
      ensures var (r, q) := names;
              Holds(q) && objects[q].repr == old(objects[q].repr) && objects[q].repr !! objects[r].repr
    {
      hide Sender.Valid, StandsFor;
      var (r, q) := names;
      assert old(Holds(q));
      assert old(objects[q].repr) !! old(Mine(r));
      Stays(q);
    }

    method Commit(ghost r: Ref, x: Sender, g: uint32)
      requires Valid() && r in objects && objects[r] == x
      modifies this, repr
      ensures Valid() && repr == old(repr) && objects == old(objects) && heard == old(heard)
      ensures ratchets == old(ratchets)[r := KeyRatchet(x.root, R.AfterCommit(old(ratchets)[r].position, gap, g))]
    {
      hide R.AfterCommit, Sender.Valid, Sender.Position, Sender.Heard, Valid, Mine;
      Parts(r);
      NamesAgree();
      x.Commit(g);
      ratchets := ratchets[r := KeyRatchet(x.root, x.Position())];
      OthersStay(r);
    }

    method Hear(ghost r: Ref, x: Sender, full: uint64) returns (ok: bool)
      requires Valid() && r in objects && objects[r] == x
      modifies this, repr
      ensures Valid() && repr == old(repr) && objects == old(objects) && ratchets == old(ratchets)
      ensures var (record, accepted) := Replay.CheckAndMark(old(heard)[r].replay, full);
              ok == accepted && heard == old(heard)[r := SenderState(CommitNonce(old(heard)[r].highest, full), record)]
    {
      hide Replay.CheckAndMark, CommitNonce, Sender.Valid, Sender.Position, Sender.Heard, Valid, Mine;
      Parts(r);
      NamesAgree();
      ok := x.Hear(full);
      heard := heard[r := x.Heard()];
      OthersStay(r);
    }

    /** A new sender, under a name that was not used before. */
    method Add(ghost r: Ref, root: Root) returns (x: Sender)
      requires Valid() && r !in objects
      modifies this
      ensures Valid() && fresh(repr - old(repr)) && old(repr) <= repr
      ensures objects == old(objects)[r := x] && ratchets == old(ratchets)[r := KeyRatchet(root, R.START)]
      ensures heard == old(heard)[r := NEW_SENDER]
    {
      hide Sender.Valid, Sender.Position, Sender.Heard;
      x := new Sender(kdf, exporter(root), gap, root);
      objects := objects[r := x];
      ratchets := ratchets[r := KeyRatchet(root, R.START)];
      heard := heard[r := NEW_SENDER];
      repr := repr + x.repr;
      OthersStay(r);
    }
  }
}
