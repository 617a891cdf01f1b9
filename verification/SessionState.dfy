/** The state of one session (session/session.go:37-177), the abstract MLS client and
    the record of a run.

    MLS is symbolic: a group state is the term that produced it, and the sender
    secrets exported from a term are determined by the term and the user. */
module SessionState {
  import opened Bytes
  import opened Gcm8
  import opened Nonce
  import Replay
  import Ratchet

  type UserId = nat
  type GroupId = nat
  type Time = int

  const EPOCH_RETENTION: Time := 10_000
  const MAX_RECOVERY_ATTEMPTS: nat := 3
  const RETRY_MAX_ATTEMPTS: nat := 6
  const KEY_RETENTION: Time := 10_000

  // ---- MLS ----

  datatype Commit = Commit(id: nat, adds: set<UserId>, removes: set<UserId>)

  /** How a group state came about: created, or a commit applied to another state. */
  datatype Term = Created(creator: UserId, seed: nat) | Applied(base: Term, commit: Commit)

  datatype Group = Group(term: Term, members: set<UserId>)

  function Apply(g: Group, c: Commit): Group {
    Group(Applied(g.term, c), g.members + c.adds - c.removes)
  }

  /** A sender's base secret, exported from a group state. */
  datatype Root = Root(term: Term, user: UserId)

  /** A media key: a generation of a sender's ratchet. Distinct roots or generations
      are distinct keys. */
  datatype MediaKey = MediaKey(root: Root, generation: uint32)

  // ---- Epochs ----

  /** A ratchet object: the one built for a user by the n-th epoch rebuild. */
  datatype Ref = Ref(build: nat, user: UserId)

  datatype KeyRatchet = KeyRatchet(root: Root, position: Ratchet.Position)

  datatype SenderState = SenderState(highest: Highest, replay: Replay.Record)

  const NEW_SENDER := SenderState(None, Replay.EMPTY_RECORD)

  datatype Epoch = Epoch(build: nat, groupId: GroupId, term: Term, senders: map<UserId, SenderState>, expiresAt: Time)

  // ---- Watchdogs ----

  /** A watchdog goroutine: waiting on a channel, resetting the session, retrying its
      key package, or about to decide whether to arm its successor. */
  datatype Watchdog =
    | Waiting(chan: nat, forCommit: bool, transition: nat, deadline: Time)
    | Firing(chan: nat)
    | Retrying(chan: nat, attemptsLeft: nat)
    | Finishing(chan: nat)

  // ---- The environment of one locked section ----

  /** What may run while a send has released mu: media calls, SetChannelID, the clock, Close. */
  datatype MediaCall =
    | EncryptCall(frame: seq<byte>, room: nat)
    | DecryptCall(user: UserId, packet: seq<byte>, room: nat)
    | SetChannelBusy(channel: nat)
    | Tick(elapsed: nat)
    | Close

  datatype Reply = Reply(calls: seq<MediaCall>, delivered: bool, shardNotReady: bool)

  /** Answers of the gateway and of the MLS library during one locked section. */
  datatype Env = Env(replies: seq<Reply>, createOk: bool, seed: nat, processOk: bool, rebuildOk: bool)

  /** A proposal batch with what the MLS library makes of it when it is processed. */
  datatype Batch = Batch(id: nat, acceptedAny: bool, loadOk: bool, commitOk: bool, commit: Commit,
                         rebuildOk: bool, welcomeOk: bool)

  datatype Welcome = Welcome(groupId: GroupId, group: Group, joinOk: bool, externalSenderOk: bool)

  // ---- The session ----

  datatype Config = Config(
    self: UserId, validUser: bool, strictEncrypt: bool, hasCallbacks: bool,
    sendRetention: Time, plaintextGrace: Time, recoveryTimeout: Time,
    maxGap: uint32, aead: Aead<MediaKey>)

  /** One use of the send counter: which ratchet, which counter value, and the key of
      the cipher that sealed, if it got that far. */
  datatype Send = Send(ref: Ref, root: Root, full: uint64, sealedWith: Option<MediaKey>)

  datatype Delivery = Delivery(user: UserId, packet: seq<byte>, ref: Ref, full: uint64, plaintext: seq<byte>)

  datatype Versions = Versions(
    protocol: nat, sending: nat, transportOnly: bool, plaintextRejectedFrom: Option<Time>)

  datatype Epochs = Epochs(active: Option<Epoch>, pending: Option<Epoch>, retained: seq<Epoch>)

  datatype Sending = Sending(
    counter: uint64, current: Option<Ref>, retained: Option<Ref>, retainedExpires: Time,
    cipher: Option<MediaKey>, cipherKey: Option<MediaKey>)

  datatype Mls = Mls(
    client: Option<map<GroupId, Group>>, groupId: Option<GroupId>, pendingGroupId: Option<GroupId>,
    externalSender: bool, keyPackage: bool, queue: seq<Batch>,
    pendingCommit: Option<Commit>, preCommit: Option<Group>)

  datatype Recovery = Recovery(
    epochReady: nat, closed: set<nat>, attempts: nat, watchdogs: map<nat, Watchdog>, nextWatchdog: nat)

  datatype State = State(
    now: Time,
    channelId: nat,
    shutdown: bool,
    pendingTransitionId: nat,
    version: Versions,
    epochs: Epochs,
    send: Sending,
    ratchets: map<Ref, KeyRatchet>,
    builds: nat,
    mls: Mls,
    recovery: Recovery,
    env: Env,
    log: Log)

  /** The history of a run; no code reads it.
      minted: group states the MLS library produced. built: the term of each rebuilt epoch.
      origin, announced: the group state last created or joined, and the commits the
      gateway has announced since. stacked: a commit was made on an unannounced one.
      tainted: a failed commit or welcome is about to invalidate the MLS state.
      activated: an epoch was activated since the origin was created or joined.
      detached: a rollback found no pending epoch to discard, and no announced commit has
      followed it yet. restarts: how many uses of the send counter preceded each of its
      resets to 0. */
  datatype Log = Log(
    minted: seq<Term>,
    built: seq<Term>,
    sends: seq<Send>,
    deliveries: seq<Delivery>,
    arrived: nat,
    processed: seq<nat>,
    recoveryFires: nat,
    commitFires: nat,
    ownCommits: nat,
    attemptResets: nat,
    origin: Option<Group>,
    announced: seq<Commit>,
    stacked: bool,
    tainted: bool,
    activated: bool,
    detached: bool,
    restarts: set<nat>)

  const NO_ENV := Env([], false, 0, false, false)

  function Init(): State {
    State(0, 0, false, 0,
          Versions(0, 0, false, None),
          Epochs(None, None, []),
          Sending(0, None, None, 0, None, None),
          map[], 0,
          Mls(None, None, None, false, false, [], None, None),
          Recovery(0, {}, 0, map[], 0),
          NO_ENV,
          Log([], [], [], [], 0, [], 0, 0, 0, 0, None, [], false, false, false, false, {}))
  }
}
