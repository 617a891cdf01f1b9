# A Dafny model of dave-go

dave-go is a Go implementation of Discord's DAVE end-to-end encryption for voice. This
project models its media path, its session and its AV1 frame transform, and proves what
they promise together.

`dafny verify dfyconfig.toml` checks the whole project.

## How it is laid out

* Media path. `Uleb128`, `Slices`, `Ranges`, `Gcm8` and `Frame` cover the frame format: printing,
  parsing, sealing and opening, each loop proved against a positional or printed
  specification. `Nonce`, `Ratchet` and `Replay` are the stateful parts: the 64-bit send
  counter and its expansion from 32 bits, the caching key ratchet over a pure KDF chain, and
  the 1024-slot ring over an unbounded record of accepted nonces.
* Session. `SessionState` holds the state of one session and the symbolic MLS client.
  `SessionMedia` and `SessionControl` are the specification of its steps: Encrypt, Decrypt,
  every gateway handler and every watchdog section, with an environment that supplies the
  gateway's and the library's answers and whatever interleaves while a send has released the
  lock. `Senders` has the sender objects, each with a ratchet, an expander and a replay window
  updated in place; the class in `Session` is the session on the heap, whose epochs refer to
  those objects and whose send side refers to the own one again. `SessionObjects` says what
  the objects stand for. Every method of the class takes the step of the specification
  function its contract names, so that `Session.Drive` carries the theorems over to the object.
* Theorems about runs. `SessionActions` and `SessionPaths` break every step into elementary
  actions, so that an invariant is proved per action. On top stand `SessionSends` (nonce
  uniqueness), `SessionReceives`, `SessionReplays` and `SessionDelivery` (no double delivery,
  failures that change nothing, end-to-end delivery), `SessionCounter` (which counter value
  each frame has), `SessionGroups` and `SessionConvergence` (group ids, rollback),
  `SessionAgreement`, `SessionAnnouncements` and `SessionMembers` (commit races between
  members, and members hearing each other), `SessionQueue` (single-flight proposals),
  `SessionRecovery` and `SessionGuard` (channels, watchdogs, dropped sends), `SessionCalls`
  (what Encrypt and Decrypt answer, case by case), `SessionRetention` and `SessionExpiry` (how
  long ratchets and epochs are kept), `SessionPlaintext` and `Shutdown`.
* `Av1` is the OBU transform, and `Av1Sealing` joins it to frame encryption.
* `SessionExamples` and `SessionRecoveryRuns` hold concrete runs for properties that do not
  hold without a condition, and `SessionTwoMembers` a run of two members that meets the
  conditions of the theorems about members.

## Assumptions

* The inner AES-GCM is any keystream and any 16-byte tag function of key, nonce, ciphertext
  and additional data. The delivery theorems assume of the packet in question that it opens
  under one media key only (`OpensOnce`), the ideal-tag assumption.
* Media keys are symbolic in the theorems: a key is a sender secret and a generation, and a
  sender secret is an MLS group state and a user. The session object works with key bytes,
  and its cipher of symbolic keys is the one those bytes give (`SessionObjects.Symbolic`).
  The KDF is total.
* The MLS library never produces the same group state twice (`NoDup` of the states it minted).
  Re-reading a state gives the same secrets.
* Nonce uniqueness allows at most 2^56 uses of one ratchet, after which the generation has
  wrapped; delivery end to end asks that the receiver's highest nonce is below 2^56 - 2^32.

## Where code and documentation differ

The model follows the code.

* protocol.md:410 has every new ratchet start at nonce 0. The code puts its counter back in two
  places only: when Encrypt finds the retained ratchet expired, and when an activation adds a
  sender while there is a current ratchet. So the counter is carried over when the send keys
  were dropped before the activation, or when activations follow each other before a retained
  ratchet expires (`SessionCounter.FirstNonceExactly`, `SessionExamples.CarriedRun`). Uniqueness
  holds all the same.
* session/close.go:22-24 says recovery runs at most maxRecoveryAttempts times. The commit
  watchdog is armed without that bound, so own commits add to it (`SessionRecovery.RecoveryBound`,
  attained by `SessionRecoveryRuns.BoundAttained`).
* session/session.go:857-860 queues proposals so that the group never runs ahead of what was
  announced. If an epoch rebuild fails after a commit, no pending epoch guards the next batch
  (`SessionExamples.StackedRun`, `SessionConvergence.StackingExactly`).
* session/mls.go:792-807 has an activation that adds a member switch its send ratchet at once.
  After a reset there is no current ratchet to switch from, and the retained one stays in use
  until it expires (`SessionExamples.JoinSwitchesExactly`, `SessionExamples.RejoinedRun`).
* An executed downgrade leaves the proposal queue in place (`SessionExamples.OvertakenRun`,
  `SessionQueue.SingleFlightExactly`).

## Model

| member | source | states |
|---|---|---|
| `SessionSends.NonceUniqueness` | session/session.go:421-495 | In every run from a new session, two uses of the send counter that sealed a frame never share ratchet secret, generation and truncated nonce, so the cipher is never called twice with the same key and 96-bit nonce, if MLS states do not repeat and the ratchet has at most 2^56 uses; counter resets, retained ratchets, downgrades, rollbacks and rebuilt epochs included |
| `SessionReplays.NoDoubleDelivery` | session/session.go:543-619 | In every run, if the same wire frame is delivered twice for one user, its two extended nonces lie whole cycles of 2^56 apart; so within one cycle never, across pending, active and retained epochs |
| `SessionReplays.DeliveriesDiffer` | session/session.go:562-619 | State form: equal packets mean the same ratchet object and extended nonces that differ by whole cycles |
| `SessionDelivery.FailedDecryptUntouched` | session/session.go:562-626 | A Decrypt that returns an error leaves every expander and replay window unchanged (after the pruning it always does), and every ratchet base except that of a ratchet whose generations have wrapped past 2^56 |
| `SessionDelivery.FailedDecryptInRuns` | session/session.go:519-627 | The same in every reachable state |
| `SessionDelivery.RefusedMovesBaseExactly` | session/session.go:607-614 | A refused but authentic frame moves a ratchet base if and only if its generation is above the base, which takes a wrapped ratchet |
| `SessionExpiry.RetentionExactly` | session/session.go:399-410 | Along every path of every run, interleaved calls included: from the action that puts a ratchet aside at time T to the next change of send ratchets, every Encrypt before T plus the configured retention uses it with the next counter value, and the first one from then on uses the current ratchet with value 1 |
| `SessionExpiry.EpochRetentionExactly` | session/mls.go:871-883 | Along every path of every run: an epoch left by an activation at time T is tried by Decrypt if and only if less than ten seconds have passed since T, whatever is activated, rolled back or invalidated meanwhile, until a reset forgets every epoch |
| `SessionRetention.SendRetention` | session/mls.go:808-818 | The same over events: after an activation that adds nobody, or a reset to a non-zero version, until the next event that switches anything |
| `SessionRetention.JoinSwitches` | session/mls.go:808-812 | After an activation that adds somebody, every frame goes out on the new epoch's ratchet at once |
| `SessionRetention.StepSteady` | session/session.go:651-1064 | Every event that is no reset, executed transition or message activated at once leaves send ratchets, active epoch and unexpired retained epochs alone, and sets the versions exactly as its message says |
| `SessionRetention.ActivatesMoves` | session/mls.go:765-841 | What an activation does: own ratchet of the new epoch, the old one retained or given up, the old epoch kept for ten seconds, sending version, and the start of plaintext rejection a grace period later |
| `SessionRetention.ResetHolds` | session/session.go:651-698 | select_protocol_ack and prepare_epoch(1) forget every epoch, set the versions, and keep the ratchet in use for the configured retention, or drop it at version 0 |
| `SessionRetention.DowngradeDrops` | session/session.go:762-782 | An executed downgrade drops the send ratchets and the group, lets plaintext through again, and keeps the epochs for receiving |
| `SessionRetention.SoleMemberMoves` | session/mls.go:737-763 | A member that is alone activates at once if and only if it has or can create a group and an epoch is pending or can be built |
| `SessionCalls.StrictNeverClear` | session/session.go:436-441 | In every run, while a strict session's sending version is not 0, whatever Encrypt returns opens under its ratchet's key |
| `SessionCalls.EncryptWithoutRatchet` | session/session.go:435-446 | Without a live ratchet: refused if and only if the session is strict and the sending version is not 0; otherwise the frame itself if the buffer holds it |
| `SessionCalls.EncryptWithRatchet` | session/session.go:448-513 | With one: succeeds if and only if the key for the next counter value is to be had, the frame can be sealed and the buffer holds it, and then returns the frame sealed under that key |
| `SessionCalls.EncryptAdvances` | session/session.go:458-468 | A sealed frame has moved its ratchet to the frame's generation, and no other ratchet |
| `SessionCalls.PlaintextPassesExactly` | session/session.go:527-541 | A frame shorter than 11 bytes or not ending in 0xFA 0xFA changes nothing and is returned as it is if and only if the buffer holds it and version 0, no rejection time, a time before it or the silence packet lets it through |
| `SessionCalls.MalformedRefused` | session/session.go:543-548 | What ends like a DAVE frame and is none is refused in every state |
| `SessionCalls.DecryptInRuns` | session/session.go:562-626 | In every run, for a DAVE frame: if some unexpired epoch opens it the answer is its plaintext, unless the buffer is too short or the counter value is 1024 or more behind or was seen; if none does, it is refused |
| `SessionMembers.Convergence` | session/session.go:928-999 | Any two members whose events lead from the groups they founded or joined, through the prepare_commit messages they handled, to the same state have the same confirmed group and the same secret for every sender in its epochs, pending or active in any mix and also while either has an own commit in flight; with none in flight, the same group |
| `SessionMembers.WelcomedConvergence` | session/session.go:1001-1064 | A member that joins by a welcome event into the state another had reached, keeps that group, and handles the same further commits is in agreement with it |
| `SessionMembers.MembersHear` | session/session.go:519-619 | What a member seals with its current ratchet, any member whose events lead to the same state delivers byte for byte, own commits in flight on either side included; that they share the secret is a consequence |
| `SessionMembers.RetainedHeard` | session/session.go:399-619 | The same for whichever ratchet is live, a retained one included, and any receiver that still holds an unexpired epoch of the group state the ratchet was built from |
| `SessionTwoMembers.TwoMembersTalk` | session/session.go:849-1064 | Two concrete members, one that founds the group and adds the other and one that is welcomed, both with a commit of their own in flight, meet every hypothesis of these theorems: any frame of the first is delivered by the second |
| `SessionMembers.LosingIsNeverCommitting` | session/session.go:956-999 | Whether the own commit was made, sent or dropped, the handler of the winning commit ends with the same group and an epoch built from it as if the session had never committed |
| `SessionMembers.SameStateSameSecrets` | session/mls.go:594-649 | Any two epochs of any two reachable sessions built from the same group state hold the same secret for every sender |
| `SessionAgreement.SettledIsConfirmed` | session/session.go:928-999 | Between handlers, with no commits stacked, the newest epoch, or the active one while an own commit has the pending one, is built from the confirmed group |
| `SessionAgreement.NewestIsGroups` | session/mls.go:765-841 | Between handlers, with no commits stacked and no own commit in flight, the newest epoch is built from the group, and the current send ratchet is the active epoch's own |
| `SessionAnnouncements.AnnouncedAreMessages` | session/session.go:956-999 | The announced commits of a run are exactly the messages of its handled prepare_commit events since it last started over, and the group it started from is the one its last founding or joined welcome event gave it |
| `SessionAnnouncements.WelcomeIsOrigin` | session/session.go:1001-1064 | A welcome that is joined stays the starting group for as long as no later event leaves the group |
| `SessionAnnouncements.StepAnnounces` | session/session.go:651-1064 | For every event: which append a commit, which found or join a group, which start over, and which leave starting group and announced commits alone |
| `SessionCounter.FirstNonceExactly` | session/mls.go:808-818 | In every run, a use of the send counter, in particular a ratchet's first, has value 1 if and only if it is the first of all, or between the use before and it an Encrypt found its retained ratchet expired or an activation that adds a sender had a current ratchet to leave |
| `SessionCounter.ActionRestarts` | session/session.go:399-410 | Every elementary action puts the counter back exactly under those two guards |
| `SessionExamples.CarriedRun` | session/session.go:1075-1081 | A concrete run in which the first frame of a new ratchet has counter value 2: a downgrade and a new connection lie between two frames |
| `SessionExamples.JoinSwitchesExactly` | session/mls.go:792-818 | An activation that adds a sender switches to the new ratchet at once if and only if there was a current ratchet or none was retained |
| `SessionExamples.RejoinedRun` | session/session.go:788-831 | A concrete run in which, after prepare_epoch(1), the new epoch is active and the session still sends with the ratchet from before |
| `SessionRecoveryRuns.BoundAttained` | session/mls.go:1190-1202 | For every n, a run whose stretch has n own commits and exactly maxRecoveryAttempts plus n fires: the bound is attained, and recovery is not bounded by the attempts |
| `Replay.AskedOnce` | session/replay.go:27-49 | Whatever the answer was, a nonce that has been asked about is refused after any further queries |
| `Slices.Slice.Append` | frame/encrypt.go:105-121 | append writes into the caller's array while the capacity lasts, and continues in a fresh array from the first append that does not fit |
| `Slices.Slice.AppendUleb128` | frame/uleb128.go:15-22 | Digit by digit, the encoding fills the caller's array to its end |
| `Ranges.AppendInterleaved` | frame/encrypt.go:290-312 | Appends the original and replaces its unclear bytes where they landed: the k-th ciphertext byte in the k-th position outside the ranges |
| `Gcm8.Seal` | frame/gcm8.go:49-56 | Appends ciphertext and the first 8 bytes of the 16-byte tag; in the caller's array the other 8 stay behind the result, and without room for all 16 nothing is written there |
| `Frame.EncryptCoreAppend` | frame/encrypt.go:144-196 | Appends exactly the printed frame, or everything before the size byte when the size is too large, behind whatever dst holds; the array it was given keeps that prefix and holds behind it exactly the appends that fit |
| `Frame.EncryptInto` | frame/encrypt.go:89-121 | On success the first n bytes of the buffer are Encrypt's output; it fails for the same arguments or a short buffer; and on every path, failing ones included, the whole buffer afterwards is given |
| `Frame.LeftUntouched` | frame/encrypt.go:109-121 | Which bytes a call cannot have changed: past the frame on success with ranges, past plaintext plus 16 without, past the longest append that fits on failure, none for refused arguments |
| `Av1.DecodeLeb128` | codecs/av1.go:170-186 | Returns the number denoted by the digit string that ends at the first byte below 128 within eight bytes, and fails exactly when there is none |
| `SessionSends.SealsDiffer` | session/session.go:399-410 | The same for any state that satisfies the send invariant: equal key and nonce would put two uses of one ratchet 2^56 apart in one unbroken stretch of counter values |
| `SessionSends.ReachableSends` | session/mls.go:765-841 | Every reachable state keeps the send invariant: a ratchet is used in one stretch with consecutive counter values, ratchets waiting behind a retained one or in a pending epoch are unused, and the cached cipher is the cached key's |
| `SessionReplays.Reachable` | session/session.go:603-610 | Every reachable state keeps the receive invariant: expander highest equals window highest, the ratchet base has reached its generation, and the window knows every delivery made with its ratchet |
| `SessionDelivery.EndToEndInRuns` | session/session.go:519-619 | For any two reachable sessions that share the aead and the sender's secret: what one's Encrypt returns at counter n, the other's Decrypt returns byte for byte, if n is new, in the window, within 2^31 (or below 2^32 if first), its generation is cached or not behind the base, and the buffer is long enough |
| `SessionDelivery.EndToEnd` | session/session.go:421-513 | The same for single states with the generation key required to be available |
| `SessionDelivery.SealedFrameDelivered` | session/session.go:551-619 | A frame sealed under an epoch's key is delivered whatever other epochs are tried before that one; attempts under other epochs only move key caches |
| `SessionDelivery.EncryptProduces` | session/session.go:458-495 | A successful Encrypt returns the frame sealed under the live ratchet's key for the next counter value |
| `SessionDelivery.NeverTooFar` | session/session.go:573-586 | With a gap of at least 256, the generation Decrypt asks for is never beyond base plus gap, for highest below 2^56 - 2^32 |
| `SessionConvergence.ReachableGroups` | session/mls.go:297-321 | Between handlers: a pending epoch exists exactly when pendingGroupID is set, the three group ids agree, an own-commit record exists exactly when its snapshot does, and the confirmed group is the announced commits applied in order exactly when no commit was stacked |
| `SessionConvergence.RollbackRestores` | session/mls.go:927-941 | Whenever an own commit is recorded, rollback succeeds (never ErrNoPreCommitState) and leaves exactly the confirmed group with no pending epoch |
| `SessionConvergence.StackingExactly` | session/mls.go:1084-1127 | A new local commit keeps the confirmed group if and only if no own commit is waiting to be announced |
| `SessionExamples.StackedRun` | session/mls.go:1119-1127 | A concrete run in which an epoch rebuild fails after a commit and the next batch is committed on top: a rollback would restore a state that was never announced |
| `SessionQueue.ProposalsInOrder` | session/session.go:849-870 | In every run that never strands a batch, batches wait only behind a pending epoch and reach MLS in arrival order, each at most once |
| `SessionQueue.SingleFlightExactly` | session/session.go:769-782 | A non-empty queue implies a pending epoch after every prefix of a run, if and only if no downgrade is executed while batches wait |
| `SessionExamples.OvertakenRun` | session/session.go:769-782 | A concrete run in which a downgrade strands a batch and a later batch reaches MLS before it |
| `SessionRecovery.ChannelDiscipline` | session/session.go:380-388 | In every run, every channel before the current one is closed, at most one watchdog is attached to the current one, and a recovery watchdog waits on an open channel only while attempts are left |
| `SessionRecovery.RecoveryBound` | session/mls.go:1019-1082 | In any stretch of any run with no activation containing self and no select_protocol_ack, watchdogs fire at most maxRecoveryAttempts times plus the own commits sent in it or still watched at its start |
| `SessionGuard.ResetGuarded` | session/session.go:694-697 | If the key package of a reset is dropped, a watchdog waits for the recovery timeout on a new channel, unless closed or three attempts are spent; if it is sent, no watchdog is started |
| `SessionGuard.FoundingGuarded` | session/session.go:833-847 | The same when the key package before founding a group is dropped, and then no group is created |
| `SessionGuard.CommitGuarded` | session/mls.go:1084-1218 | A dropped commit leaves the group as it was and the session on guard; a delivered one stays and has a commit watchdog |
| `SessionGuard.NothingCommitted` | session/session.go:874-926 | A batch with nothing acceptable, without a group, or that cannot be committed changes nothing but the record of batches |
| `SessionGuard.ReadyGuarded` | session/mls.go:996-1017 | A dropped readiness report is watched if and only if the session has no active epoch |
| `SessionGuard.FailureGuarded` | session/mls.go:953-987 | A commit or welcome that cannot be handled leaves the group, on a new channel with a watchdog on guard |
| `SessionGuard.FiresExactly` | session/mls.go:1052-1082 | A waiting watchdog does nothing before its deadline, and then fires if and only if its channel and the session are open and the commit it watches is still pending; firing counts as an attempt and sends the key package up to six times |
| `SessionGuard.RetriesExactly` | session/retry.go:49-108 | A further attempt follows if and only if the gateway reported a shard that is not ready and one is left |
| `SessionGuard.SuccessorOnGuard` | session/mls.go:1052-1082 | A finished watchdog has a successor on guard unless superseded, closed, or three attempts are spent |
| `SessionGuard.ActivationReleases` | session/mls.go:820-833 | An activation that contains this user releases every watchdog and gives back all attempts |
| `SessionGuard.ClosedForGood` | session/close.go:28-46 | After Close, in every run, no watchdog is started and none fires |
| `SessionGuard.UnpreparedIgnored` | session/session.go:754-760 | An execute_transition with an id that was not prepared changes nothing |
| `SessionGuard.ExecutedOnce` | session/session.go:761-785 | An executed transition's id is forgotten, except by a downgrade |
| `SessionGuard.WelcomeDropsQueue` | session/session.go:1001-1064 | A joined welcome drops the waiting batches if and only if an own commit was pending |
| `SessionPlaintext.PlaintextRejected` | session/session.go:527-541 | Once rejection has been set, after the grace period and across any resets, every frame that is neither a DAVE frame nor the silence packet is refused while the version is non-zero, until version 0 takes effect |
| `SessionPlaintext.ActivationStartsRejection` | session/mls.go:786-788 | An activation at a non-zero version always leaves the rejection time set |
| `SessionExamples.NextUse` | session/session.go:399-410 | The next frame goes out on the retained ratchet until it expires, and then on the current one starting with counter value 1 |
| `SessionMedia.UnexpiredExactly` | session/mls.go:871-883 | An epoch survives pruning if and only if it has not expired |
| `SessionPaths.StepLeads` | session/session.go:651-1064 | Every handler and watchdog step, with whatever interleaves at its sends, is a sequence of guarded elementary actions, of which there are 36 kinds |
| `SessionPaths.RunLeads` | session/retry.go:126-134 | So is every run; invariants are proved once per action |
| `SessionMedia.CallsStep` | session/retry.go:126-134 | Whatever runs while a send has released the lock changes only the send position, what senders have received, key caches, the channel, the clock, the shutdown flag and pruned epochs |
| `SessionShape.ActionKeepsShape` | session/mls.go:594-649 | Each epoch in use has ratchets of its own, their secrets are determined by the state it was built from, and no two epochs in use share a build |
| `SessionGroups.ActionKeepsFresh` | session/session.go:700-711 | If MLS states do not repeat, no state is built into an epoch twice; this rests on transition 0 being ignored while an epoch is active |
| `SessionGroups.ActionKeepsGroupIds` | session/mls.go:169-198 | Every elementary action keeps the agreement of group ids and own-commit record outside a failing commit or welcome |
| `SessionReceives.TryEpochReceives` | session/session.go:562-619 | One candidate of Decrypt's loop keeps the receive invariant, whatever its outcome |
| `SessionReceives.CommitReaches` | mediakeys/ratchet.go:152-173 | After GetKey of an available generation, Commit moves the base to exactly that generation |
| `Shutdown.ShutdownIsFinal` | session/close.go:28-66 | Under every interleaving of Close with threads arming watchdogs: once the shutdown wait has finished, no watchdog runs and none ever starts |
| `Shutdown.CloseNeverStuck` | session/close.go:28-66 | Under every interleaving, once Close was called and until the wait has returned, some step that finishes something begun is enabled |
| `Shutdown.ArmingStarts` | session/close.go:59-66 | Before Close has cancelled, a thread that holds the lock starts its watchdog |
| `Shutdown.NothingStartsAfterCancel` | session/close.go:59-66 | After Close has cancelled the context no step starts a watchdog, so no Add races the Wait |
| `Shutdown.StepKeepsInv` | session/close.go:28-40 | The wait group counts the running watchdogs, and a thread past the check still holds the lock |
| `Frame.Parse` | frame/encrypt.go:315-381 | Accepts a packet exactly when some frame prints as it, and returns that frame; which error it gives for short packets and bad markers |
| `Frame.ParseRanges` | frame/encrypt.go:352-372 | Reads a range list back exactly when the bytes are the encoding of one with 32-bit fields |
| `Frame.PrintInjective` | frame/encrypt.go:163-196 | No packet is printed by two frames |
| `Frame.Encrypt` | frame/encrypt.go:66-80 | Returns the printed frame for these arguments or the error the arguments call for |
| `Frame.EncryptSucceeds` | frame/encrypt.go:144-196 | Encryption succeeds if and only if key and ranges are valid and the supplemental data is at most 255 bytes |
| `Frame.OnTheWire` | frame/encrypt.go:144-196 | Byte for byte: keystream and tag of the 96-bit nonce with the truncated nonce little-endian in its last four bytes, clear bytes in place, 8 tag bytes over both, nonce and ranges, the size byte and 0xFA twice |
| `Frame.RangeOnTheWire` | frame/encrypt.go:178-182 | Each range is on the wire as its offset and then its length |
| `Frame.FullNonceInjective` | frame/encrypt.go:145-146 | Different truncated nonces are different 96-bit nonces |
| `Frame.Decrypt` | frame/encrypt.go:210-255 | Accepts a packet if and only if encrypting something under this key gives that packet, and returns that plaintext and nonce |
| `Frame.DecryptionUnique` | frame/encrypt.go:210-255 | A packet decrypts under one key in at most one way |
| `Frame.RoundTrip` | frame/encrypt.go:210-255 | For every plaintext shorter than 2^32, nonce and range list that encrypt, the packet opens to that plaintext and nonce |
| `Frame.NoRangesFrame` | frame/encrypt.go:144-160 | The in-place path for frames without ranges produces the same frame as the general one |
| `Gcm8.Open` | frame/gcm8.go:64-89 | Accepts exactly the strings that Seal produces for this key, nonce and additional data, although it rebuilds the keystream from an all-zero plaintext |
| `Gcm8.ConstantTimeEqual` | frame/gcm8.go:92-102 | The OR of XORed bytes is zero exactly when the strings are equal |
| `Gcm8.SealedInjective` | frame/gcm8.go:49-56 | Different plaintexts seal to different strings |
| `Ranges.ValidateRanges` | frame/ranges.go:16-33 | Comparing neighbours accepts exactly the lists whose ranges are all inside the frame and pairwise ordered and disjoint |
| `Ranges.ContiguousPlaintextSize` | frame/ranges.go:37-44 | Counts the bytes outside all ranges |
| `Ranges.ExtractCiphertext` | frame/ranges.go:88-103 | Returns, in order, exactly the bytes outside all ranges |
| `Ranges.BuildAad` | frame/encrypt.go:278-285 | Returns, in order, exactly the bytes inside some range |
| `Ranges.ReconstructPlaintext` | frame/ranges.go:58-79 | Puts the k-th byte into the k-th position outside the ranges and keeps the others |
| `Ranges.CiphertextOfWeave` | frame/ranges.go:88-103 | Extracting from a woven frame returns what was woven in and leaves the clear bytes as they were |
| `Ranges.WeaveBack` | frame/ranges.go:58-79 | Weaving the original bytes back restores the original frame |
| `Uleb128.AppendUleb128` | frame/uleb128.go:15-22 | Appends the canonical encoding |
| `Uleb128.DecodeUleb128` | frame/uleb128.go:24-51 | Succeeds exactly when the data starts with the canonical encoding of a 32-bit value, and returns that value and its length; overlong, overflowing and unfinished encodings are refused |
| `Uleb128.EncodeIsCanonical` | frame/uleb128.go:15-22 | What is encoded is canonical and has the encoded value |
| `Uleb128.CanonicalIsEncode` | frame/uleb128.go:24-51 | Every canonical string is the encoding of its value |
| `Uleb128.PrefixFree` | frame/uleb128.go:24-51 | No encoding is a proper prefix of another |
| `Nonce.NonceCounter.Next` | mediakeys/nonce.go:23-30 | The 64-bit counter moves up by one with wrap-around; the truncated nonce is its low 32 bits and the generation bits 24 to 55 |
| `Nonce.SealedWithDetermines` | mediakeys/nonce.go:23-30 | Truncated nonce and generation together are exactly the counter modulo 2^56 |
| `Nonce.ClosestIsNearest` | mediakeys/nonce.go:83-106 | For highest below 2^56 - 2^32 the tentative value is congruent to the truncated nonce and no congruent 64-bit value is nearer to highest |
| `Nonce.ClosestRecovers` | mediakeys/nonce.go:83-106 | Any true counter strictly within 2^31 of highest is recovered |
| `Nonce.ClosestStep` | mediakeys/nonce.go:83-106 | The tentative value is below 2^32 or at most 2^31 above highest |
| `Nonce.ExpandTruncates` | mediakeys/nonce.go:83-106 | Expansion always truncates back to the nonce on the wire |
| `Nonce.NonceExpander.Expand` | mediakeys/nonce.go:48-78 | Expand is ExpandTentative followed by Commit |
| `Nonce.NonceExpander.Commit` | mediakeys/nonce.go:111-121 | Commit keeps the highest nonce seen |
| `Ratchet.KeyRatchet.GetKey` | mediakeys/ratchet.go:90-143 | Succeeds exactly when the generation is cached and unexpired or between base and base plus gap; returns the generation's key of the chain from the original secret in a buffer of the caller's own; never moves the base |
| `Ratchet.KeyRatchet.Commit` | mediakeys/ratchet.go:152-173 | Moves base and base secret together, at most a gap at a time, never back |
| `Ratchet.KeyRatchet.PruneExpired` | mediakeys/ratchet.go:181-189 | Forgets exactly the expired generations; zeroing their buffers leaves every other cached key intact |
| `Ratchet.KeyRatchet.Walk` | mediakeys/ratchet.go:112-143 | Derives and caches every generation from the base to the target that was not cached |
| `Ratchet.KeyRatchet.constructor` | mediakeys/ratchet.go:53-71 | A new ratchet is at generation 0 of its chain with an empty cache |
| `Ratchet.CommitNotClamped` | mediakeys/ratchet.go:152-173 | Committing a generation whose key was available is never clamped |
| `Ratchet.StepsKeepBounded` | mediakeys/ratchet.go:90-173 | No key is ever cached beyond base plus gap, and the base never moves back |
| `Ratchet.PassedOverUntil` | mediakeys/ratchet.go:112-143 | A generation passed over by a commit stays available exactly until its retention is over, counted from when its key was derived |
| `SessionDelivery.PassedOverKeyKept` | session/session.go:573-614 | In a session that is ten seconds |
| `Replay.AntiReplayWindow.CheckAndMark` | session/replay.go:27-49 | The ring answers exactly as an unbounded record of accepted nonces: first ever, above the highest, or less than 1024 behind and unseen; and records what it accepts |
| `Replay.AntiReplayWindow.Advance` | session/replay.go:53-63 | After moving highest, every nonce in the window reads as marked exactly when it was accepted, by clearing the skipped slots or the whole ring |
| `Replay.AntiReplayWindow.Mark` | session/replay.go:65-68 | Marks exactly the nonces of one slot |
| `Replay.AntiReplayWindow.Marked` | session/replay.go:70-74 | Reads the slot's bit |
| `Replay.RingUpdate` | session/replay.go:76-80 | Setting or clearing one slot changes exactly the nonces congruent modulo 1024 |
| `Av1.PrepareAv1Frame` | codecs/av1.go:38-158 | The two passes compute the parse, filter and reprint function, or fail exactly when a size field does not decode |
| `Av1.KeptExactly` | codecs/av1.go:160-167 | Re-parsing the output gives, in order, exactly the OBUs whose four type bits are not 2, 8 or 15, every field as it was except that the last one's size bit is cleared and its size field gone |
| `Av1.ParseCuts` | codecs/av1.go:51-107 | The OBUs' bytes are the frame, in terms of the header bits: extension, size field of at most eight bytes, payload as long as it says or as there is; only a last header without its extension is left over |
| `Av1.RefusedExactly` | codecs/av1.go:51-107 | A frame is refused if and only if, behind whole OBUs, a size field does not end within eight bytes |
| `Av1.Idempotent` | codecs/av1.go:38-158 | Preparing a prepared frame gives the same frame and ranges, and re-parsing it gives exactly the kept OBUs in order with only the last one's size removed |
| `Av1.EncryptedPartIsPayloads` | codecs/av1.go:113-157 | The ranges pass ValidateRanges and the bytes outside them are exactly the concatenated OBU payloads |
| `Av1.ParsePrinted` | codecs/av1.go:113-157 | Parsing printed OBUs gives them back with the last one's size field removed |
| `Av1.ParseAllFacts` | codecs/av1.go:51-107 | Of the parsed OBUs only the last can lack a size field or have been cut short |
| `Av1.ParseKept` | codecs/av1.go:51-107 | The first pass returns the OBUs that are not dropped, in order |
| `Av1.PrintKept` | codecs/av1.go:113-157 | The second pass returns the printed frame and the header ranges |
| `Av1Sealing.PreparedFrameSealed` | codecs/codecs.go:63-74 | An AV1 frame encrypted with its ranges opens to the prepared frame, keeps every OBU header readable and authenticated, and hides exactly the payloads |
| `Session.Drive` | session/session.go:245-286 | Every run of the heap object, with its ratchet, expander and window objects and its key bytes, is a run of the transition system, so all theorems about runs hold of the object |
| `Session.Session.Encrypt` | session/session.go:421-513 | The object takes the Encrypt step of the transition system, and the sealed frame is at the front of the caller's buffer on success |
| `Session.Session.EncryptWith` | session/session.go:458-495 | Sealing under the key bytes a shared ratchet object returned is sealing under the ratchet's symbolic key |
| `Session.Session.UseCipher` | session/session.go:470-481 | Comparing key bytes keeps the cached cipher the cipher of the current key, even if two keys had the same bytes |
| `Session.Session.Decrypt` | session/session.go:519-627 | The object takes the Decrypt step; the plaintext is at the front of the caller's buffer on success |
| `Session.Session.TryAll` | session/session.go:562-626 | The loop over active, pending and retained epochs is the recursive specification, stopping at a delivery or a short buffer |
| `Session.Session.TrySender` | session/session.go:573-619 | One candidate: nothing is committed before authentication and the length check, and then ratchet, expander and window are, in place |
| `Session.Session.Open` | session/session.go:581-596 | What frame.Decrypt returns under the key bytes is what the packet opens to under the symbolic key |
| `Session.Session.Hear` | session/session.go:607-614 | Updating one sender's expander and window in place changes exactly that sender in exactly its epoch |
| `Session.Session.PruneRetained` | session/mls.go:871-883 | The filter loop keeps exactly the unexpired epochs in order, and no two epochs come to share a sender |
| `Session.Session.CopyPassthrough` | session/session.go:631-637 | Copies the frame unchanged or refuses a short buffer |
| `Session.Session.BuildSenders` | session/mls.go:613-646 | The loop gives every member a new ratchet, expander and window, and touches no existing one |
| `Session.Session.TakeOwnRatchet` | session/mls.go:820-833 | The send side then refers to the very sender object of the active epoch |
| `Session.Session.AddsSender` | session/mls.go:849-860 | The loop finds a sender the old epoch did not have, if there is one |
| `Session.Session.Drain` | session/mls.go:862-869 | The loop takes batches from the front until one leaves a pending epoch |
| `Senders.Store.GetKey` | mediakeys/ratchet.go:90-143 | A key fetched from one sender object moves that ratchet alone; every other sender object stays valid and stands for what it stood for |
| `Senders.Store.Hear` | session/session.go:607-614 | An expander and window updated in place leave every other sender object alone |
| `Senders.Sender.GetKey` | mediakeys/ratchet.go:90-143 | The ratchet call on a sender leaves its expander and window alone and returns the chain's key bytes |
| `Senders.Sender.Hear` | session/session.go:607-614 | Expander and window move together: highest and record are those of the specification |
| `SessionObjects.OpensAs` | frame/encrypt.go:210-255 | Decrypting under key bytes decides opening under the symbolic key, both ways |
| `SessionObjects.HearingIsPutSender` | session/session.go:607-614 | With objects shared only by name, an in-place update is the update of one sender state in one epoch |

## Left out

- mls-go internals, credentials, HPKE, welcome and TLS vector parsing, proposal filtering by known users and revoke splitting: their outcome is part of the environment, a batch or a welcome.
- AddUser, RemoveUser: they only feed the proposal filter.
- AES itself, key lengths (a predicate on keys stands for the 16-byte check) and the time the tag comparison takes.
- HKDF: the ratchet's KDF is total, so the early return of Commit on a KDF error (mediakeys/ratchet.go:164-172) and failing key-package generation do not occur.
- The session reads one clock value per locked section and between sends, where the source reads the clock at each use.
- Session.Session.Decrypt: the caller's buffer is none of the session's own arrays and does not overlap the frame; which of several errors is reported after all candidates failed is not modelled; all are one failure.
- Session.Session.Encrypt: the caller's buffer is none of the session's own arrays and does not overlap the frame; every ssrc has the codec Opus, the only one toCodecKind assigns, which has no clear ranges; the codec table and the other codecs' encryption paths are not part of the session model.
- Frame.EncryptInto: dst and plaintext do not overlap, as the source requires.
- The contents of the messages sent to the gateway: a send is its outcome and what interleaves with it.
- Back-off delays of retrySend: an attempt may follow at any time, and each attempt is a step of its own.
- Logging, Stats, State, WaitReady, session ids, options and the degraded clock: observability only.
- codecs/h26x.go, codecs/vp8.go and codec dispatch: rejected for encryption or single-branch facts.
- Displayable codes, epoch authenticators and identity bytes: small next to the rest.
