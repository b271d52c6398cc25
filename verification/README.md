# Sibna protocol: a verified model

This project models the stateful core of the Sibna secure-messaging protocol in Dafny and
proves what that core promises, over all inputs and over whole runs.

* **The Double Ratchet as a two-party protocol.** Two sessions and a network that reorders,
  drops, duplicates, rewrites and injects. `Ratchet` gives every session operation as a
  function from state to state; `RatchetSession` holds the objects that update fields in
  place, clone, try and commit, each method proved equal to its function. `RatchetLedger`
  describes a conversation without reference to either state; `RatchetSteps`,
  `RatchetMoves`, `RatchetDelivery`, `RatchetSending` and `RatchetProtocol` show that every
  step keeps both states equal to what the ledger dictates; `RatchetTheorems` and
  `RatchetLimits` draw the conclusions, and `RatchetSchedule` restates them with every
  assumption on the events of a run. `Codec` covers the byte layouts.
* **Key agreement.** `X3dh` has both roles of X3DH, `P2pHandshake` the four-message
  handshake as steps over messages. `Secrecy` says who can compute a key. The sessions of a
  handshake meet the starting condition of the ratchet theorems, and who holds too few of
  its scalars meets their condition on the network, so the proofs compose.
* **The relay server.** `Table` is the ordered byte-string table with its prefix scan,
  `Dedup` and `DedupRaces` message-id deduplication with background pruning, `Relay` the
  offline queue and the hand-off to live connections as a state machine of single table and
  client-map operations, `RelayServer` the handlers.
* **Counters over time.** `RateLimit`, the replay window of `Encryptor`, and the sender
  keys of `Group`.
* **Codecs with arithmetic.** `Serial` (CRC-16 frames), `Padding`, `Stream` (chunked
  encryption).

Cryptography is a free term algebra (`Crypto`): scalars are names, Diffie-Hellman is an
unordered pair, each KDF output is a constructor applied to its inputs, and an AEAD box
opens under exactly the key and associated data it was sealed with. In `Encryptor` and
`Stream` the AEAD is instead an arbitrary pair of functions, with the law that opening
undoes sealing assumed only where a message has to come back. Clock readings, fresh
scalars, nonces and random draws are arguments.

The ratchet follows sections 3.3 to 3.5 of Signal's "The Double Ratchet Algorithm", the
key agreement sections 3.3 and 3.4 of Signal's "The X3DH Key Agreement Protocol".

## What the code does not keep

Where a promise of the code or its documentation fails, the model keeps the code and gives
the exact condition.

* A send that is within the session's own limits but has an empty plaintext, or more than
  200 bytes of associated data, fails after its message number is spent
  (`RatchetLimits.SendExact`). The comment at core/src/ratchet/session.rs:156 says empty
  plaintexts are allowed; the inner encryptor refuses them.
* Replacing a live sending chain because of age or count works only while the peer has
  never sent (`RatchetLimits.RotationExact`).
* A handshake whose bundle advertises an ML-KEM key completes with different secrets when
  the responder was not given its secret half (`P2pHandshake.AgreementExact`,
  `P2pHandshake.MissingKemKey`).
* A disconnect removes its identity's live entry even when a newer connection has replaced
  it, and that connection then misses live messages (`Relay.LookupReachesExactly`,
  `Relay.StaleDisconnect`).
* Deletion of queue entries is decided on a snapshot and carried out later, so an entry
  stored again in between is lost (`Relay.DurableExactly`, `Relay.LostBecause`,
  `Relay.StoredAgainLost`); the same for dedup stamps (`Dedup.PhasesCommuteExactly`).
* Messages are kept until the client acks them, except that fetching the inbox over REST
  deletes everything it reads, unacked and in time (`Relay.FetchedIsGone`).
* The REST path and call signals look up before they store, so a client that connects in
  between misses the content until it connects again (`Relay.LookupFirstExactly`,
  `Relay.LookupFirstMisses`).
* A dedup check is several transactions, so two copies of one id that are read before
  either is stamped both pass (`DedupRaces.RacedPassExactly`).
* The initiator compares the pinned identity with the name beside the bundle, not with the
  identity that signed it (`P2pHandshake.PinnedNameExactly`,
  `P2pHandshake.OtherIdentityCompletes`).
* Counted from the first check, the burst bound fails when a `remaining` query stamped the
  bucket earlier (`RateLimit.FirstCheckAfterQueries`, `RateLimit.QueryBreaksBound`);
  counted from the entry it always holds.
* A client without tokens can be refused after days of silence, because the refill is a
  32-bit product that wraps (`RateLimit.AdmittedExactly`, `RateLimit.IdleRefused`).
* A refused group message still moves the receiver's chain, so a replay makes the next
  message unreadable (`Group.ReceiveExact`, `Group.ReplayLosesNext`).
* Serial frames lose payloads over 65535 bytes, custom padding blocks can exceed the
  2-byte field, and an unpadded message never survives `unpad_message`, which
  core/src/lib.rs applies always (`Serial.RoundTripExactly`, `Padding.PadSucceedsExactly`,
  `Padding.UnpaddedNeverUnpads`).

## Model

| member | source | states |
|---|---|---|
| RatchetTheorems.MatchedStart | core/src/ratchet/session.rs:89-153 | two sessions built on one secret, each with the other's public key, satisfy the joint invariant |
| RatchetTheorems.RunMatched | core/src/ratchet/session.rs:155-489 | every run of sends and deliveries keeps the joint invariant of both states, the log and both inboxes |
| RatchetProtocol.StepKeeps | core/src/ratchet/session.rs:155-369 | each single send or delivery, successful or not, keeps the joint invariant |
| RatchetTheorems.DeliveryExact | core/src/ratchet/session.rs:244-369 | in a matched state a delivery of any bytes succeeds if and only if it is the peer's message under its own associated data, not accepted before, in time and within the skip window, and then returns the sealed plaintext |
| RatchetTheorems.RunDeliveryExact | core/src/ratchet/session.rs:89-476 | in every run a delivery succeeds if and only if the peer produced exactly that message earlier, no earlier delivery of it succeeded, it is in time and there is room; delayed messages of replaced chains included |
| RatchetTheorems.SentIsRead | core/src/ratchet/session.rs:155-369 | on its first timely delivery with room the peer reads exactly the plaintext that was sent |
| RatchetTheorems.AcceptedOnce | core/src/ratchet/session.rs:298-343 | over every run no message is accepted twice by its receiver |
| RatchetTheorems.Lockstep | core/src/ratchet/session.rs:312-328 | one sequence of roots serves a whole run: at every point both roots lie on it at most one step apart, the receiver's chain starts from the same key as the peer's messages that the header names, and every stored key is the key of its number on the chain its id names |
| RatchetTheorems.KeysNeverReused | core/src/ratchet/chain.rs:65-75 | over every run no two produced messages, of either party, are sealed under one key |
| RatchetTheorems.KeysConserved | core/src/ratchet/session.rs:400-447 | a key drawn at any point of a run, whether or not a message was sent under its number, is at every later point either in the store or used by an accepted message with its chain and number, never both; the store stays within its limit |
| RatchetTheorems.CurrentChainDrawn | core/src/ratchet/session.rs:371-397 | on the current receiving chain exactly the numbers below its index are drawn |
| RatchetTheorems.ReplacedChainDrawn | core/src/ratchet/session.rs:400-447 | when a delivery replaces the receiving chain, exactly the numbers that its header declares for the old chain are drawn |
| RatchetTheorems.KeysAccounted | core/src/ratchet/session.rs:371-397 | a stored key is the key of its unaccepted message; every message drawn past on the current chain or left behind on a replaced one is either accepted or stored |
| RatchetTheorems.Erasure | core/src/ratchet/session.rs:244-397 | deleting all failed deliveries from any run, admissible or not, changes no state, log or inbox |
| RatchetTheorems.ErasedResult | core/src/ratchet/session.rs:244-397 | nor does it change the result of any later call |
| RatchetTheorems.InboxIsHistory | core/src/ratchet/session.rs:244-369 | the inbox holds exactly the messages with an earlier successful delivery |
| RatchetTheorems.LogIsHistory | core/src/ratchet/session.rs:155-242 | the log holds exactly the messages produced earlier |
| RatchetSchedule.ScheduledIsAdmissible | core/src/ratchet/session.rs:166-176 | a run whose sends come at most 86400 seconds after the event that opened their chain and after fewer than 4000 sends on it meets the assumptions of every run theorem; the schedule is read off the events and their outcomes, not off any state |
| RatchetSchedule.DeliveryByEvents | core/src/ratchet/session.rs:89-476 | in every scheduled run from two constructed sessions a delivery succeeds if and only if an earlier event was the peer sending exactly that message, by the clocks at most 86400 seconds before and 30 seconds after, no earlier delivery of it succeeded and the configured window has room; it returns what that event sent |
| RatchetSchedule.SendByEvents | core/src/ratchet/session.rs:155-242 | in every scheduled run a send succeeds if and only if it has 1 byte to 10 MiB of plaintext and at most 200 bytes of associated data, and it carries the number of sends on its chain before it |
| RatchetSchedule.WindowKept | core/src/ratchet/session.rs:133-133 | in every run each party works with the skip window its caller configured |
| RatchetSchedule.AnswersArrive | core/src/ratchet/chain.rs:47-56 | the responder's first two messages within a day form a scheduled run, share a chain as numbers 0 and 1, and are both read |
| RatchetSchedule.OutsiderIsScheduled | core/src/ratchet/session.rs:244-369 | against a network that cannot compute the session secret, the assumption on the network follows |
| RatchetDelivery.DeliverSound | core/src/ratchet/session.rs:282-343 | whatever opens is a logged message of the peer at an unused position, delivered with the associated data it was sealed with, in time and with room |
| RatchetDelivery.DeliverComplete | core/src/ratchet/session.rs:298-359 | an unused logged message in time and with room opens, and the new state is the one the moved ledger dictates |
| RatchetDelivery.DeliverTurn | core/src/ratchet/session.rs:312-328 | delivery on a new chain: the rest of the old chain is stored, the chains and the root advance together, and the message opens |
| RatchetDelivery.DeliverStay | core/src/ratchet/session.rs:330-343 | delivery on the current chain stores what it skips and opens |
| RatchetDelivery.DeliverStored | core/src/ratchet/session.rs:298-308 | delivery of a skipped message opens with the stored key, which then leaves the store |
| RatchetDelivery.TrialRooted | core/src/ratchet/session.rs:310-343 | on any header, the key a trial draws is derived from the session secret, so a box of another origin never opens |
| RatchetSteps.SkipExact | core/src/ratchet/session.rs:400-447 | skipping succeeds if and only if store and chain have room, and then files exactly the keys between the old index and the target, each the iterate of its number |
| RatchetSteps.AdvanceTurn | core/src/ratchet/session.rs:312-343 | on a new peer key, when old and new skips fit together, the trial succeeds: key, chains, root and every filed key given outright |
| RatchetSteps.AdvanceTurnOnly | core/src/ratchet/session.rs:312-343 | on a new peer key a trial succeeds only if old and new skips fit together |
| RatchetSteps.AdvanceStay | core/src/ratchet/session.rs:330-343 | on the current key, when the number is not behind and its skips fit, the trial succeeds: key, chain and every filed key given outright |
| RatchetSteps.AdvanceStayOnly | core/src/ratchet/session.rs:330-343 | on the current key a trial succeeds only if the number is not behind and its skips fit |
| RatchetLedger.KeyAtInjective | core/src/ratchet/chain.rs:65-90 | no message key belongs to two positions of a conversation |
| RatchetSending.EncryptIs | core/src/ratchet/session.rs:155-242 | the outcome of a send on a ready chain: success exactly within the box limits, one key spent either way, header and box given outright |
| RatchetSending.SentPost | core/src/ratchet/session.rs:172-221 | a produced message is the next one of its sender's newest epoch, with that position's key |
| RatchetLimits.SendExact | core/src/ratchet/session.rs:155-242 | in every matched state a send succeeds if and only if the plaintext is not empty and the associated data leaves room for the header; within the session's limits it always spends one number |
| RatchetLimits.EmptySendSpends | core/src/ratchet/session.rs:155-225 | an empty plaintext fails and still spends a number |
| RatchetLimits.FirstMessageArrives | core/src/ratchet/session.rs:89-369 | from every matched start the initiator's first message is an admissible run and the responder reads its plaintext, so the run theorems are not vacuous |
| RatchetLimits.RotationExact | core/src/ratchet/session.rs:166-176 | after a live chain is replaced, the peer opens the next message if and only if the peer has never sent |
| RatchetLimits.ReadCounts | core/src/ratchet/session.rs:298-369 | a receipt is counted and stamped unless its key came from the store |
| RatchetSession.ChainKey.NextMessageKey | core/src/ratchet/chain.rs:65-75 | hands out the current key and steps key and index, or leaves an exhausted chain unchanged |
| RatchetSession.ChainKey.CheckRotation | core/src/ratchet/chain.rs:102-110 | true exactly when the chain is exhausted or over a day old |
| RatchetSession.ChainKey.constructor | core/src/ratchet/chain.rs:47-56 | a chain at index 0 with room and reservation for 4000 messages |
| RatchetSession.ChainKey.Clone | core/src/ratchet/chain.rs:113-123 | an equal chain in a new object |
| RatchetSession.DoubleRatchetState.constructor | core/src/ratchet/session.rs:89-144 | the fields are those of the function `FromSharedSecret` for the role |
| RatchetSession.DoubleRatchetState.Clone | core/src/ratchet/state.rs:233-265 | a deep copy: equal value, both chains fresh objects |
| RatchetSession.DoubleRatchetState.AddSkippedKey | core/src/ratchet/state.rs:131-144 | adds exactly one entry if and only if the store is below its limit |
| RatchetSession.DoubleRatchetState.SetLocalDh | core/src/ratchet/state.rs:165-171 | replaces the local key and nothing else |
| RatchetSession.DoubleRatchetState.SetRemoteDh | core/src/ratchet/state.rs:174-177 | replaces the remote key and nothing else |
| RatchetSession.DoubleRatchetState.SkipOne | core/src/ratchet/session.rs:426-444 | one round of the skip loop: one key moves from the chain to the store, or the error that stops the loop |
| RatchetSession.DoubleRatchetState.SkipMessageKeys | core/src/ratchet/session.rs:400-447 | the loop ends with the state or the error of the recursive specification |
| RatchetSession.DoubleRatchetState.PerformDhRatchet | core/src/ratchet/session.rs:478-489 | the new state is the specification's; the receiving chain object is untouched |
| RatchetSession.DoubleRatchetState.DhRatchet | core/src/ratchet/session.rs:449-476 | the new state is the specification's, or its error |
| RatchetSession.DoubleRatchetState.DecryptWithKey | core/src/ratchet/session.rs:371-397 | state and result are the specification's: the key leaves the store only on success |
| RatchetSession.DoubleRatchetState.Advance | core/src/ratchet/session.rs:314-343 | ratchet if needed, skip and draw: the key and the state of the specification, or its error |
| RatchetSession.DoubleRatchetState.Trial | core/src/ratchet/session.rs:310-363 | result, and on success the state, of the specification of a whole delivery |
| RatchetSession.DoubleRatchetSession.FromSharedSecret | core/src/ratchet/session.rs:89-153 | an all-zero secret is refused, otherwise a fresh session with the specified state |
| RatchetSession.DoubleRatchetSession.Encrypt | core/src/ratchet/session.rs:155-242 | state and result are the specification's, the stamp of a newly opened chain included; the state object stays the same |
| RatchetSession.DoubleRatchetSession.SealNext | core/src/ratchet/session.rs:178-233 | draws, checks the header and seals; a key once drawn stays drawn when a later check fails |
| RatchetSession.DoubleRatchetSession.TryClone | core/src/ratchet/session.rs:310-363 | only a clone whose box opened replaces the state; otherwise the state object stays |
| RatchetSession.DoubleRatchetSession.Decrypt | core/src/ratchet/session.rs:244-369 | state and result are the specification's; on an error the very object and its value are unchanged |
| Codec.HeaderRoundTrip | core/src/ratchet/mod.rs:39-72 | a header takes 56 bytes and decodes to itself |
| Codec.HeaderLayout | core/src/ratchet/mod.rs:39-47 | the byte at each of the 56 offsets: key, number, previous count and time stamp, integers little-endian |
| Codec.HeaderExact | core/src/ratchet/mod.rs:48-72 | decoding fails exactly below 56 bytes and its result re-encodes to the bytes read |
| Codec.MessageRoundTrip | core/src/ratchet/mod.rs:182-206 | a message comes back from its bytes if and only if its ciphertext has at least 29 bytes |
| Codec.MessageExact | core/src/ratchet/mod.rs:198-206 | decoding fails exactly below 85 bytes and its result re-encodes to the input |
| Codec.BoundInjective | core/src/ratchet/session.rs:220-227 | the authenticated concatenation of associated data, header and inner header determines all three, though no length is written |
| Secrecy.ComputableExactly | core/src/crypto/kdf.rs:122-245 | a derivation that starts from known scalars, KEM pairs, coins and keys and applies one primitive a step reaches exactly the keys whose structure allows it |
| Secrecy.OutsiderHasNoKey | core/src/crypto/kdf.rs:122-156 | who cannot compute a session secret can compute none of the keys of that session |
| X3dh.SecretsAgreeExactly | core/src/handshake/x3dh.rs:94-352 | for all inputs of both roles the secrets are equal if and only if the roles agree on every key, both device ids, the outer transcript and the KEM exchange |
| X3dh.InitiatorSecretExactly | core/src/handshake/x3dh.rs:94-215 | the initiator's secret can be computed from a body of knowledge and everything public if and only if that body holds a scalar of each pair: identity or signed prekey, ephemeral or peer identity, ephemeral or signed prekey, ephemeral or one-time prekey, and the KEM pair or coins |
| X3dh.ResponderSecretExactly | core/src/handshake/x3dh.rs:233-352 | the same for the responder, whatever it was told |
| X3dh.OutputsInOrder | core/src/handshake/x3dh.rs:105-123 | the order of the Diffie-Hellman outputs in the secret, for both roles |
| X3dh.TranscriptInjective | core/src/handshake/x3dh.rs:126-136 | equal transcripts agree on every part, the optional one-time prekey included |
| X3dh.InnerBytesExactly | core/src/handshake/x3dh.rs:126-136 | the concatenated bytes the hash absorbs, with no tag or length for the optional 32-byte prekey, are equal if and only if the transcripts are |
| X3dh.InnerLayout | core/src/handshake/x3dh.rs:126-136 | the order in which the hash sees the parts |
| P2pHandshake.CompletesExactly | core/src/p2p/handshake.rs:197-605 | an untampered handshake completes exactly when the initiator expects this responder, the bundle passes its signature, linking, KEM signature and expiry checks, and both identity secrets are available; each side learns the other's identity |
| P2pHandshake.HelloAcceptedExactly | core/src/p2p/handshake.rs:435-465 | the responder goes on exactly from a Hello of version 4 with a usable ephemeral |
| P2pHandshake.BundleAcceptedExactly | core/src/handshake/mod.rs:321-388 | a bundle under the right key is accepted if and only if it names the pinned peer, is unexpired when checked, has no zero key, and carries the signatures of its identity on prekey, KEM key and bundle and of its root on the device |
| P2pHandshake.EnvelopeAcceptedExactly | core/src/p2p/handshake.rs:490-600 | the responder finishes exactly on an envelope under the handshake key |
| P2pHandshake.OkAcceptedExactly | core/src/p2p/handshake.rs:365-386 | the initiator finishes exactly on the confirmation under the same key |
| P2pHandshake.AgreementExact | core/src/p2p/handshake.rs:293-404 | a completed untampered handshake gives both sides one transcript for all device ids; the secrets are equal if and only if published keys belong to the secrets held |
| P2pHandshake.MissingKemKey | core/src/p2p/handshake.rs:542-555 | with an advertised KEM key whose secret is absent both sides finish with different secrets |
| P2pHandshake.OuterBytesExactly | core/src/p2p/handshake.rs:166-189 | the same for the outer transcript: its untagged bytes are equal if and only if all its parts are |
| P2pHandshake.OuterLayout | core/src/p2p/handshake.rs:166-189 | the order in which the outer hash sees the parts |
| P2pHandshake.OneSecretOneView | core/src/p2p/handshake.rs:166-189 | whatever the network put in place of the messages, equal secrets imply each side has the other's true identity, device id, ephemeral and signed prekey |
| P2pHandshake.PinnedNameExactly | core/src/p2p/handshake.rs:257-278 | whatever bundle message the initiator accepts claims the pinned name, and the pinned identity has signed its prekeys if and only if the bundle names that identity |
| P2pHandshake.OtherIdentityCompletes | core/src/p2p/handshake.rs:257-278 | a bundle that another identity validly made for itself, sent under the pinned name, completes with one secret on both sides |
| P2pHandshake.SessionsMatched | core/src/p2p/handshake.rs:391-404 | with an ephemeral other than the signed prekey, the two sessions are a matched pair of the ratchet exactly when the keys are held |
| P2pHandshake.HandshakeStartsRatchet | core/src/p2p/handshake.rs:584-597 | the two sessions are the start of the run theorems, with each caller's own window and clock |
| P2pHandshake.HandshakeSecretExactly | core/src/p2p/handshake.rs:293-340 | the secret of a completed handshake can be computed exactly by those who hold one scalar of each pair, and the KEM pair or coins |
| P2pHandshake.HandshakeKeyExactly | core/src/p2p/handshake.rs:144-157 | the key that seals the payloads can be computed exactly with one of the two ephemeral secrets |
| P2pHandshake.BobsKeyExactly | core/src/p2p/handshake.rs:435-480 | the same for whatever Hello the responder goes on from |
| P2pHandshake.OutsiderStaysOutside | core/src/p2p/handshake.rs:293-404 | who holds too little is outside the session |
| P2pHandshake.HandshakeThenDelivery | core/src/p2p/handshake.rs:197-605 | end to end: after the handshake, against a network that holds too little of it, deliveries of a scheduled run succeed exactly as the ratchet promises and return what was sent |
| Table.ScanExact | server/src/db.rs:102-123 | for every ordered table and prefix the range-then-take-while scan equals the filter of the whole table, each entry once and in order |
| Table.PrefixConvex | server/src/db.rs:111-119 | in lexicographic order keys with a common prefix are contiguous |
| Table.MatchingSorted | server/src/db.rs:102-123 | the scan result is strictly ordered, so it has no duplicates |
| Table.PutView | server/src/db.rs:51-63 | insertion changes exactly one key of the contents |
| Table.PutSorted | server/src/db.rs:51-63 | insertion keeps the order |
| Table.DeleteView | server/src/db.rs:82-98 | removal drops exactly one key of the contents |
| Table.DeleteSorted | server/src/db.rs:82-98 | removal keeps the order |
| Table.Tree.Insert | server/src/db.rs:51-63 | the contents with one binding replaced or added, order kept |
| Table.Tree.Get | server/src/db.rs:66-79 | the bound value, or none if absent |
| Table.Tree.Remove | server/src/db.rs:82-98 | the contents without the key, returning what was there |
| Table.Tree.Scan | server/src/db.rs:102-123 | members are exactly the bindings whose key has the prefix, in key order |
| Dedup.PassesApart | server/src/ws.rs:221-252 | with a nondecreasing clock two passes of one id are more than 48 hours apart, prune passes anywhere between |
| Dedup.DedupKeyInjective | server/src/ws.rs:222-222 | different message ids have different dedup keys |
| Dedup.BlockedExactly | server/src/ws.rs:223-244 | an id is blocked exactly by an 8-byte stamp at most 172800 seconds old |
| Dedup.PassExactly | server/src/ws.rs:221-252 | from an empty table a check passes if and only if no pass of the same id lies within the last 48 hours, prune passes anywhere |
| Dedup.PrunesIrrelevant | server/src/main.rs:248-273 | runs with the same checks and any prune passes have the same outcomes |
| Dedup.PruneLeaves | server/src/main.rs:255-270 | after any run a prune pass forgets exactly the 8-byte stamps over 172800 seconds old |
| Dedup.PhasesCommuteExactly | server/src/main.rs:257-269 | collecting and later removing acts like an atomic pass if and only if no collected id was checked in between |
| Dedup.RacedIdPassesAgain | server/src/main.rs:257-269 | an id checked between the two phases passes again at once |
| DedupRaces.CheckIsTxns | server/src/ws.rs:221-252 | the transactions of an uninterrupted check act as the check |
| DedupRaces.RacedPassExactly | server/src/ws.rs:221-252 | a second read of an id that passed, with any transactions in between, passes as well if and only if no stamp written in between still stands |
| Dedup.DedupTable.CheckAndInsert | server/src/ws.rs:221-252 | passes exactly when absent, expired or legacy, and then holds the new stamp |
| Dedup.DedupTable.Collect | server/src/main.rs:257-267 | the first loop of a prune pass lists exactly the keys whose stamps are older than 48 hours |
| Dedup.DedupTable.Prune | server/src/main.rs:255-270 | the two loops remove exactly the 8-byte stamps older than 48 hours |
| Relay.QueueKeyInjective | server/src/ws.rs:368-368 | for identities of one length the queue key determines identity and message id |
| Relay.PrefixSelects | server/src/ws.rs:388-388 | a connection's prefix selects exactly its own identity's entries |
| Relay.AckOwnOnly | server/src/ws.rs:436-450 | an ack by one 64-character identity never changes another identity's entry |
| Relay.AckIsFinal | server/src/ws.rs:436-450 | in every run, after an ack and until a copy is stored again, the message is not queued, no scan pushes anything under its key and no fetch reads it |
| Relay.Durable | server/src/ws.rs:367-450 | an accepted message stays queued and is pushed by every scan of its recipient until acked, accepted again, fetched over REST or scanned after 7 days, if no handler is about to delete an older entry under its key |
| Relay.DurableExactly | server/src/ws.rs:367-450 | in every run, while its key is neither acked nor stored again, stored content is still queued with its expiry if and only if no handler deleted the key after collecting it and before reading again |
| Relay.LostBecause | server/src/ws.rs:387-433 | a lost message was deleted by a handler that collected its key before the message was stored and had not finished, or in a fetch under its prefix, or in a scan under its prefix that found it over 7 days old |
| Relay.StoredAgainLost | server/src/ws.rs:429-432 | a message accepted again while a scan that found its predecessor overdue is still deleting is lost unacked, in time and never pushed |
| Relay.FetchedIsGone | server/src/main.rs:655-674 | a message fetched over REST is gone without an ack, and a later connection is sent nothing |
| Relay.ScanSendsExactly | server/src/ws.rs:387-426 | a scan sends exactly the queued messages and signals under the identity's prefix that are in time; among recipients of one length these are the identity's own |
| Relay.PrefixExtends | server/src/main.rs:619-628 | an unchecked REST recipient that continues an identity with a colon is read under that identity |
| Relay.NoMissedHandOff | server/src/ws.rs:99-107 | in every interleaving of store-then-lookup with register-then-scan the content is pushed to the connection, unless its entry was touched or overdue before the scan or the registration was disturbed before the lookup |
| Relay.LookupFirstExactly | server/src/main.rs:607-628 | on the paths that look up first and store only for an offline recipient, a connecting client is pushed the content if and only if the store precedes its scan |
| Relay.LookupFirstMisses | server/src/main.rs:607-628 | a client that registers and scans between that lookup and that store stays connected and is pushed nothing |
| Relay.LookupReachesExactly | server/src/ws.rs:342-363 | a later lookup reaches a connection if and only if nobody registered or disconnected under its identity since it registered |
| Relay.PushedIsRecorded | server/src/ws.rs:345-350 | pushed content is in the connection's channel after the step |
| Relay.PushesExactly | server/src/ws.rs:344-426 | the pushes of a run are exactly those its events made |
| Relay.StaleDisconnect | server/src/ws.rs:179-184 | a stale connection's disconnect makes a connected client miss a message |
| Relay.DeliveredIsSteps | server/src/ws.rs:387-433 | an uninterrupted delivery loop is one scan followed by its cleanups, in any deletion order, and leaves nothing pending |
| Relay.FetchedIsSteps | server/src/main.rs:655-674 | the same for an inbox fetch |
| Relay.DeliveryLeaves | server/src/ws.rs:387-433 | an uninterrupted delivery leaves under the prefix exactly the messages in time |
| RelayServer.Server.Enqueue | server/src/ws.rs:367-384 | the Store step: 7 days for a message, 60 seconds for a call signal; each handler also records its single operations in order |
| RelayServer.Server.LookupAndPush | server/src/ws.rs:344-363 | the Lookup step: pushes to the connection registered for the recipient, if any, and says whether there was one |
| RelayServer.Server.SendQueued | server/src/ws.rs:392-427 | the first loop of a delivery pushes the in-time messages and signals in order and lists the keys of the overdue items and of every signal |
| RelayServer.Server.RemoveAll | server/src/ws.rs:429-432 | the second loop removes exactly the listed keys |
| RelayServer.Server.RouteMessage | server/src/ws.rs:188-364 | accepts exactly well-formed, unseen and signed envelopes; the dedup stamp is written before the signature is judged; an accepted one is stored and then looked up, in that order |
| RelayServer.Server.SendMessage | server/src/main.rs:607-628 | the REST path: Lookup first, then Store if the recipient was offline |
| RelayServer.Server.RouteSignal | server/src/ws.rs:453-525 | a call signal with a 64-character recipient and a good signature: Lookup first, then Store if the recipient was offline |
| RelayServer.Server.SendAndRemove | server/src/ws.rs:392-432 | both loops on the scanned items |
| RelayServer.Server.DeliverQueuedMessages | server/src/ws.rs:387-433 | both loops together push the in-time entries in key order and remove exactly the overdue ones and the signals |
| RelayServer.Server.Connect | server/src/ws.rs:99-107 | Register, then Scan, then one Cleanup per dropped entry, in that order |
| RelayServer.Server.ReadInbox | server/src/main.rs:655-669 | the first loop of a fetch answers with the in-time messages in order and lists every key read |
| RelayServer.Server.FetchInbox | server/src/main.rs:650-681 | answers with exactly the messages a connecting client would be pushed and removes everything under the prefix |
| RelayServer.Server.HandleAck | server/src/ws.rs:436-450 | the Ack step, final by `Relay.AckIsFinal`; reports whether an entry was there |
| RelayServer.Server.Unregister | server/src/ws.rs:179-184 | the Disconnect step, whoever is registered |
| RateLimit.BurstBound | core/src/rate_limit.rs:428-441 | since a client's entry was made, successes never exceed burst size times one plus the elapsed seconds, whatever checks and queries were made |
| RateLimit.TokensBounded | core/src/rate_limit.rs:434-435 | floor rounding, 32-bit truncation and wrapping multiplication only lose tokens |
| RateLimit.AdmittedExactly | core/src/rate_limit.rs:428-441 | with open windows and no cooldown a client is admitted if and only if it has a token or the wrapped 32-bit product of elapsed milliseconds and burst size reaches 1000 |
| RateLimit.IdleRefused | core/src/rate_limit.rs:434-435 | burst size 5 and no token left: a check after 858993460 milliseconds is refused |
| RateLimit.PacedClient | core/src/rate_limit.rs:284-380 | every check of a client that keeps a token's time between checks, below the wrap-around, and below the maxima is admitted |
| RateLimit.FirstCheckExactly | core/src/rate_limit.rs:284-441 | counted from any check of a client out of cooldown, with room for two bursts in every window and no 32-bit wrap, the burst bound holds if and only if its tokens and those earned since the last stamp make at most one burst |
| RateLimit.FirstCheckAfterQueries | core/src/rate_limit.rs:456-471 | for an entry made by `remaining` queries alone, the bound counted from the first check holds if and only if the bucket is stamped at that very instant |
| RateLimit.QueryBreaksBound | core/src/rate_limit.rs:456-471 | at the default encrypt limit one query a nanosecond before the first check breaks it |
| RateLimit.FirstCheckMakesEntry | core/src/rate_limit.rs:284-380 | it always holds when the first check itself makes the entry |
| RateLimit.SpanBound | core/src/rate_limit.rs:401-425 | any span of one second, minute, hour or day holds at most twice the corresponding maximum |
| RateLimit.CooldownExactly | core/src/rate_limit.rs:309-379 | over every run a check that the global part lets through is refused for cooldown if and only if the client's last check was refused, for any reason, less than the cooldown before |
| RateLimit.RateLimiter.CheckGlobal | core/src/rate_limit.rs:289-300 | the global window rolls each second and counts up to its maximum |
| RateLimit.RateLimiter.CheckClient | core/src/rate_limit.rs:309-379 | verdict and new entry are those of the client's own counter, a refusal's cooldown included; no other entry changes |
| RateLimit.RateLimiter.Check | core/src/rate_limit.rs:284-380 | unknown operations are refused without touching an entry; otherwise as the client's counter decides |
| RateLimit.QuotaForetells | core/src/rate_limit.rs:456-481 | a check at the instant of a quota query, with nothing found by the global part, succeeds if and only if every field of that quota leaves room |
| RateLimit.RateLimiter.Remaining | core/src/rate_limit.rs:456-481 | makes, rolls and refills the entry and reports every field of its quota, unless unknown or over capacity |
| Encryptor.NeverTwice | core/src/crypto/encryptor.rs:186-206 | with a nondecreasing clock two accepted ciphertexts differ in number or stamp, for any AEAD: none is accepted twice |
| Encryptor.AcceptExact | core/src/crypto/encryptor.rs:159-236 | a call accepts if and only if the ciphertext has 52 bytes, is at most 30 seconds early and 86400 seconds old and opens, and no accepted message with its number is still remembered, which lasts until a message is accepted over 86400 seconds after its stamp |
| Encryptor.SealExactly | core/src/crypto/encryptor.rs:100-118 | sealing fails exactly on an empty message, one over 10 MiB or over 256 bytes of associated data |
| Encryptor.SealedOpens | core/src/crypto/encryptor.rs:100-236 | a sealed message opens to its plaintext wherever its number is unseen and the clocks agree |
| Encryptor.AdExactly | core/src/crypto/encryptor.rs:100-236 | a sealed message, unseen and in time, opens under given associated data if and only if it is its own, for an AEAD that opens that box under one string only |
| Encryptor.TopIsLargest | core/src/crypto/encryptor.rs:265-291 | the recorded largest number is that of an accepted message and none is larger |
| Encryptor.MessageEncryptor.constructor | core/src/crypto/encryptor.rs:53-90 | an empty window and the given counter |
| Encryptor.MessageEncryptor.EncryptMessage | core/src/crypto/encryptor.rs:100-152 | the specified ciphertext; the counter advances, saturating, only on success |
| Encryptor.MessageEncryptor.UpdateSeenNumbers | core/src/crypto/encryptor.rs:265-291 | inserts, then keeps exactly the stamps at or after the cutoff |
| Encryptor.MessageEncryptor.DecryptMessage | core/src/crypto/encryptor.rs:159-236 | window and result are the specification's; an error changes nothing |
| Stream.StreamRoundTrip | core/src/crypto/encryptor.rs:338-407 | any data comes back from its stream if the receiver has not seen the sender's next numbers, and both sides stay in step for any number of chunks to follow |
| Stream.StreamsRoundTrip | core/src/crypto/encryptor.rs:338-407 | every stream of any sequence of streams comes back exactly |
| Stream.ChunkInPlaceExactly | core/src/crypto/encryptor.rs:347-402 | a sealed chunk, unseen and in time, opens exactly at its own place in the stream |
| Stream.MisplacedRefused | core/src/crypto/encryptor.rs:367-407 | a stream whose next chunk was sealed for another place is refused |
| Stream.StreamingEncryptor.constructor | core/src/crypto/encryptor.rs:329-335 | counters at 0, so that a new sender and a new receiver are in step |
| Stream.StreamingEncryptor.EncryptChunk | core/src/crypto/encryptor.rs:347-360 | one length-prefixed sealed chunk bound to the running counter; both counters advance |
| Stream.StreamingEncryptor.DecryptChunk | core/src/crypto/encryptor.rs:382-402 | the chunk at the offset and the bytes it took, or an error, as specified; the counter advances only on success |
| Stream.StreamingEncryptor.EncryptStream | core/src/crypto/encryptor.rs:338-364 | the chunk loop writes exactly the specified stream and advances both counters |
| Stream.StreamingEncryptor.DecryptStream | core/src/crypto/encryptor.rs:367-407 | result and state are the specification's; at most a quarter of the input length many rounds are started whatever count is claimed |
| Group.LabelsIncrease | core/src/group/mod.rs:325-345 | emitted key id and number pairs strictly increase until the key id wraps, numbers at most 1000 |
| Group.KeyServesExactly | core/src/group/mod.rs:336-345 | a key serves exactly 1001 messages and 604800 seconds; the next send is number 0 of the next key id |
| Group.RemovalLocksOut | core/src/group/mod.rs:308-322 | no key used after a removal can be computed from any keys held before and anything else, given fresh randomness |
| Group.ReceiveExact | core/src/group/mod.rs:416-443 | a genuine message opens if and only if it is not behind and at most 500 ahead, and opens or not it moves the receiver past it |
| Group.AllOpenExactly | core/src/group/mod.rs:416-447 | in any delivery order of genuine messages, each at its own clock reading, all open to their plaintexts if and only if the receiver's key is unexpired at each and the numbers strictly increase with at most 500 left out at a time |
| Group.SentIsReadExactly | core/src/group/mod.rs:325-447 | end to end: what a signing member sends is read as its plaintext by a session of the group if and only if that session is in no later epoch, its clock is at most 300 seconds behind and 86400 ahead, and its copy of the member's key has that id, is unexpired and 0 to 500 messages behind |
| Group.OnlySignedIsRead | core/src/group/mod.rs:396-418 | an unsigned message, or one whose signature is of another member or over other content, is refused and changes nothing |
| Group.AcceptedIncrease | core/src/group/mod.rs:378-480 | over every run of attempts, replays and imports the accepted pairs of a sender strictly increase |
| Group.ReplayLosesNext | core/src/group/mod.rs:416-447 | a replay is refused and the next message is then lost |
| Group.GroupSession.constructor | core/src/group/mod.rs:253-273 | an empty group at epoch 0, its size limit capped at 1000, with the given signer |
| Group.GroupSession.InitializeSenderKey | core/src/group/mod.rs:283-287 | a fresh key with id 1 and number 0 |
| Group.GroupSession.AddMember | core/src/group/mod.rs:290-305 | succeeds exactly below the size limit for a new member |
| Group.GroupSession.RemoveMember | core/src/group/mod.rs:308-322 | drops exactly that member and their key, advances the epoch and rotates our key |
| Group.GroupSession.Encrypt | core/src/group/mod.rs:325-375 | the whole message: group, key id, number, box, epoch, clock and signature over all of them; the sender key makes one step |
| Group.GroupSession.DecryptWith | core/src/group/mod.rs:416-443 | the loop ends with the specified key and result, kept also on failure |
| Group.GroupSession.Decrypt | core/src/group/mod.rs:378-447 | keys and result are the specification's: nothing changes unless the message is valid, of this group, in no earlier epoch, signed by the sender and from a known sender |
| Group.GroupSession.ImportSenderKey | core/src/group/mod.rs:450-480 | accepted exactly when not expired and of a larger key id; other senders' keys stay |
| Serial.RoundTripExactly | core/src/iot.rs:189-233 | a payload comes back from its frame if and only if it has at most 65535 bytes |
| Serial.CorruptionDetected | core/src/iot.rs:189-257 | changing one byte or two adjacent bytes of the payload makes parsing fail with a CRC mismatch |
| Serial.PairDetected | core/src/iot.rs:244-257 | a change confined to two adjacent bytes always changes the CRC, in any payload at any place |
| Serial.BitsInjective | core/src/iot.rs:248-254 | the shift rounds are injective on 16-bit words |
| Serial.ParseAssembled | core/src/iot.rs:204-233 | a frame of true length parses exactly when its CRC is that of what it carries |
| Serial.ParseExactly | core/src/iot.rs:204-233 | a frame is accepted if and only if it starts with 0x02, ends with 0x03, has room for the length it announces and the CRC of that payload follows it |
| Serial.WordExactly | core/src/iot.rs:219-222 | two bytes make a word exactly when they are its high and low byte, in that order |
| Serial.CrcCheckValue | core/src/iot.rs:244-257 | the CRC of the digits 1 to 9 is 0x4B37 |
| Serial.Crc16 | core/src/iot.rs:244-257 | the nested loop computes the recursive CRC |
| Serial.FrameSerial | core/src/iot.rs:189-201 | builds the frame, which parses back when the length fits |
| Serial.ParseSerialFrame | core/src/iot.rs:204-233 | the specified payload or error, checks in the source's order |
| Padding.PadRoundTrip | core/src/crypto/padding.rs:94-201 | every plaintext pads in every built-in mode on every draw, aligned, at most 7 blocks over the boundary, pad within its field, and unpads to itself |
| Padding.PadSucceedsExactly | core/src/crypto/padding.rs:94-151 | fails exactly for an unusable block size or a minimum pad over 65535 |
| Padding.UnpadExactly | core/src/crypto/padding.rs:175-201 | accepts exactly the padded layout and returns its plaintext |
| Padding.BoundaryIsLeast | core/src/crypto/padding.rs:124-128 | the minimum padded size is the least multiple of the block that holds the message |
| Padding.UnpaddedNeverUnpads | core/src/crypto/padding.rs:94-97 | a message padded in mode None is never returned by unpadding |
| Padding.PadMessage | core/src/crypto/padding.rs:94-169 | the buffer built is the specified one, aligned and invertible |

## Left out

- RatchetTheorems.RunDeliveryExact: assumes fresh scalars, no live chain due for rotation, and a network without session keys; `RatchetSchedule.ScheduledIsAdmissible` and `RatchetSchedule.OutsiderIsScheduled` derive the last two from the events and from what the network knows, and rotation has its own exact statement in `RatchetLimits.RotationExact`.
- Secrecy.ComputableExactly: a symbolic derivation; guessing, side channels and weaknesses of the primitives are outside it.
- RatchetSession.DoubleRatchetSession.Encrypt: the default mode without header encryption, nonce reservation or restored state; one clock reading per call, as in all ratchet and group operations.
- Relay.NoMissedHandOff: pushes to a connection's channel are the end of the model; the socket task behind it is not modelled.
- RelayServer.Server.SendMessage: a push to a registered connection is taken to succeed, also in RouteSignal; the fall-back to the queue for a closed channel is not modelled.
- RateLimit.BurstBound: one operation per client; clients that mix operations, resets and pruning of entries are not modelled, and 32-bit overflow wraps as in release builds.
- Encryptor.NeverTwice: `set_max_seen_numbers` only logs and is not modelled; runs start from an empty window with counter 0, as all callers create it.
- Group.AcceptedIncrease: a sender whose key entry was removed and imported again starts over and is outside the statement.
- P2pHandshake.AgreementExact: timeouts, framing, bincode encodings and the byte length of the KEM key are not modelled.
- Dedup.DedupTable.CheckAndInsert: one uninterrupted call; what transactions of other handlers in between change is stated by `DedupRaces.RacedPassExactly`.
- The weak-key refusals of `Encryptor::new` and `CryptoHandler::new`: derived keys are terms without a byte pattern.
- Header-encryption mode, session persistence and nonce reservation of the ratchet: separate modes off by default.
- Prekey handlers, JWT checks, sender signatures and JSON parsing of the server: plumbing around the queue.
- The `PreKeyBundle` codec, safety numbers, keystore pinning and validation helpers: fixed layouts and single branches that would add easy members only.
- `GroupManager`, group message serialisation and sender key distribution messages: containers and wiring.
- Session magic bytes in core/src/iot.rs, message compression and Argon2: library calls and constants.
- mDNS, NAT traversal, SOCKS5, relay client, hybrid routing, FFI, WASM and SDKs: network clients and wrappers.
- Zeroization, memory locking, timing and quality of randomness: not functional properties.
