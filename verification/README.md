# AnonyMus: the messaging core, modelled and proved

AnonyMus is an end-to-end encrypted messenger. Its core is a Double Ratchet session
(`core/double_ratchet.py`, again in `web/src/lib/crypto.ts`) inside a layered envelope
(`core/protocol.py`). Around it are a relay that stores messages for recipients who are
offline, a pool of one-time prekeys, rules for accepting inbound messages, and several small
state machines: rate limiters, a session cache, a de-duplication window and a socket batcher.
This project models that behaviour in Dafny and proves what holds of every run.

## How the model is laid out

Each part is written twice. A class holds the fields the original overwrites, and its methods
change them step by step, loops included. A function on a value of the same fields says what a
step does; every method is proved equal to it. The lemmas then speak about the functions, over
all sequences of steps.

| file | what it models |
|---|---|
| `Wrappers.dfy`, `Lists.dfy` | optional values and error results; removal from lists and "the newest n" |
| `Keys.dfy` | key material as a free term algebra |
| `Ratchet.dfy` | the session: `encrypt`, `decrypt`, skipping, the DH ratchet step, eviction |
| `Secrecy.dfy` | one session under arbitrary calls: single use, one-wayness, bounds, refusals |
| `Ledger.dfy` | one end of a conversation without keys: which messages exist, which have arrived |
| `Conversation.dfy` | Alice, Bob and a network that delays, reorders and loses messages: key agreement |
| `Replay.dfy` | decrypt in closed form for any arguments; what repeated deliveries do |
| `Hybrid.dfy` | the post-quantum factories and their silent fallback |
| `Codec.dfy`, `Persistence.dfy` | hex, base64, decimal, the skip keys; saving and reloading a session |
| `Envelope.dfy` | padding, associated data, the two layers, end-to-end delivery |
| `SafetyNumber.dfy` | rejection sampling of twelve five-digit groups |
| `SessionCache.dfy` | the LRU cache of sessions |
| `Relay.dfy` | queue registry and store-and-forward buffer |
| `Prekeys.dfy` | pool and bundle of one-time prekeys |
| `Inbound.dfy` | acceptance of messages and resolution of sealed senders |
| `Limiters.dfy` | upload and login limiters |
| `SyncWindow.dfy` | de-duplication of sync envelopes |
| `Batcher.dfy` | outgoing Socket.IO batches |

## The idea of the main proof

`Ledger.Image` turns a key-free view of a conversation into the one session that can stand for
it. `Ledger.DecryptImage` and `Conversation.EncryptImage` show that the real operations are the
images of the ledger's trivial ones: count a message as sent, mark a message as arrived, append
the skipped ones, keep the newest 1000. `Conversation.RunOk` lifts this to whole runs. Key
agreement, lockstep and accounting are then read off the ledger, and stated without it: they
mention only sessions, headers and keys.

## What is ideal

- HKDF, X25519 and ML-KEM are constructors of a free algebra. A 64-byte HKDF output is two
  terms. The X25519 secret of two private keys is their unordered pair, so it commutes by
  construction. Decapsulating with the wrong key yields a different secret instead of failing.
- A peer may announce any 32 bytes. `from_public_bytes` refuses a malformed value and `exchange`
  refuses a low-order point; that these two calls raise is behaviour of the library.
- Raw bytes of keys are any layout that gives different terms different, non-empty bytes
  (`Persistence.Faithful`); the lengths of keys are not modelled.
- Socket.IO delivers events of connected sockets only, and forgets a socket's rooms when it
  disconnects.
- AES-GCM and the NaCl box open exactly under what they were sealed under. SHA-256 is an
  arbitrary function to 32 bytes.
- Randomness and clocks are parameters: fresh private keys, nonces, padding noise, clock
  readings. The clock of the limiters and of the sync window does not run backwards.
- Handlers of the relay and of the peer-to-peer server run one at a time. A background refill of
  the prekey pool may run between any two takes of one fetch.
- The network of `Conversation` never delivers a message twice and never delivers one whose
  skipped key was evicted; the code itself does not filter either case. `Replay` says
  exactly what such a delivery does. Everything in `Secrecy` holds for
  arbitrary arguments.

## Where code and documentation differ

- `core/protocol.py:164-166` speaks of a cap of 1000 iterations; the fallback starts after 1001
  hashes. The model follows the code.
- `core/double_ratchet.py:237-240` says that the KEM ciphertext is stored on the session; `to_json`
  leaves it out, so it does not survive a reload (`Persistence.SessionSurvives`).
- `core/double_ratchet.py:233-236` and `:264-266` promise a fallback to X25519 alone. When only one
  end falls back, neither end notices, and the two start from different secrets
  (`Hybrid.FirstMessageAgrees` says exactly when).
- A raising `decrypt` may have changed the session; `Secrecy.ErrorsLeaveSession` says exactly when
  it has not.

## Model

| member | source | states |
|---|---|---|
| `Conversation.Agreement` | core/double_ratchet.py:357-485 | Key agreement. After any run of sends and of deliveries in any order, with losses and refusals, handing the receiver any message of the peer returns exactly the key the peer's encrypt returned, unless the 100-message limit, read off the header and the receiver, refuses it; a message delivered before, or whose key was evicted, never yields its key again |
| `Replay.ReplayStealsKey` | core/double_ratchet.py:438-455 | A message of the current chain that is handed over again is not refused: the call returns exactly the key the peer gave, or gives later, to the message with the receiver's counter for its number, and no later call of any kind returns that message's key again |
| `Replay.ReplayMovesOn` | core/double_ratchet.py:438-455 | Such a call changes the session in two places only: the receiving chain goes one step on and seq_recv rises by one |
| `Replay.ReplayStrays` | core/double_ratchet.py:394-455 | A message of a closed chain that is handed over again, unless the limit refuses it, makes a DH ratchet step towards the peer's old key, and returns a key that no message of the conversation has, sent or still to be sent |
| `Replay.DecryptClosedForm` | core/double_ratchet.py:384-485 | Decrypt for every session and all arguments, without loops: it raises if and only if a stated condition on session and arguments holds, and otherwise answers from the store, or with the key of its base chain at the message's number, or with the next key of that chain if the number is passed; all fields but the store in closed form |
| `Conversation.Lockstep` | core/double_ratchet.py:396-446 | The root chains of the two ends are always exactly one DH half-step apart, so the epochs never drift |
| `Conversation.Accounting` | core/double_ratchet.py:384-485 | Every message sent is of the receiver's current chain, its next one or a closed one, and the header key tells whether it is the current one; a message the receiving chain has passed is in exactly one of returned, stored, evicted, and a message not yet passed is in none |
| `Conversation.NoEvictionWithRoom` | core/double_ratchet.py:479-484 | A decrypt evicts nothing while the store has room for the 200 keys one call can add, so the network assumption about evictions can be checked before a call |
| `Conversation.EncryptImage` | core/double_ratchet.py:357-382 | Encrypting counts one more message in the sender's newest epoch and returns that epoch's next key and header; an end that has not received anything yet and is not the initiator cannot send |
| `Conversation.SendEnds` | core/double_ratchet.py:357-382 | A send keeps both ends consistent with one ledger: the sender's outbox gains the new message, the receiver notices nothing |
| `Conversation.DeliverEnds` | core/double_ratchet.py:384-455 | A fair delivery, accepted or refused, keeps both ends consistent with one ledger, so a refused message can still be delivered later |
| `Conversation.EndAgreement` | core/double_ratchet.py:384-455 | Agreement at one moment, from the consistency of the two ends |
| `Conversation.EndAccounting` | core/double_ratchet.py:384-485 | Lockstep of header keys and accounting of messages at one moment |
| `Conversation.RefusalImage` | core/double_ratchet.py:457-461 | A deliverable message is refused if and only if its header puts it more than 100 beyond the receiving counter, or announces more than 100 missing messages of the chain to be closed, and it is not stored |
| `Conversation.RunOk` | core/double_ratchet.py:191-485 | Every run of the two sessions is a run of one ledger |
| `Conversation.RunGrows` | core/double_ratchet.py:191-485 | As a run goes on its ledger only gains key pairs, so keys given earlier keep their meaning |
| `Conversation.ImageAccounted` | core/double_ratchet.py:384-455 | A message that is passed and not stored counts as spent for the single-use invariant |
| `Ledger.DecryptImage` | core/double_ratchet.py:384-455 | Decrypting any deliverable message does to the session what receiving it does to the ledger, returns the sender's key, and fails only by the 100-message limit |
| `Ledger.SkipLoopImage` | core/double_ratchet.py:463-485 | The skipping loop, evicting one key per round, is one append followed by one trim to the newest 1000 |
| `Ledger.AdvanceSplit` | core/double_ratchet.py:463-485 | Skipping to a number in two parts or at once leaves the same store |
| `Ledger.FindStored` | core/double_ratchet.py:388-392 | Looking up a skip key finds the entry of exactly that message: different messages never share a skip key |
| `Ledger.TakeKeyImage` | core/double_ratchet.py:438-455 | Skipping to a message of the current chain and taking its key leaves the rest of the chain in step with the sender |
| `Ledger.FollowImage` | core/double_ratchet.py:396-436 | Following a peer to its next key pair closes the old chain at its announced length and opens exactly the peer's new sending chain |
| `Ledger.DhStepImage` | core/double_ratchet.py:404-436 | The two root steps of a DH ratchet step give the receiver the peer's root and chain, and a sending chain the peer will arrive at |
| `Ledger.NextEpochImage` | core/double_ratchet.py:396-455 | The first message to arrive of a new epoch is decrypted to the sender's key, or refused; when it is refused after the DH step, the ledger agrees with the half-advanced session |
| `Ledger.DecryptEvictsImage` | core/double_ratchet.py:479-484 | The stored keys a call evicts are exactly the oldest beyond 1000 |
| `Ledger.ReceiveConserves` | core/double_ratchet.py:384-485 | At one delivery every message that was stored or is passed now ends in exactly one of stored and dropped, except the delivered one, which is in neither |
| `Ledger.AdvanceConserves` | core/double_ratchet.py:463-485 | Skipping stores or drops each message it passes, never both, and loses none |
| `Secrecy.SingleUse` | core/double_ratchet.py:357-485 | Over any calls with any header keys, numbers and announced lengths, replays and raising calls included, one session never returns the same message key twice |
| `Secrecy.NotReturnedAgain` | core/double_ratchet.py:384-455 | A key counted as returned is not the result of any later decrypt |
| `Secrecy.NeverReturnedAgain` | core/double_ratchet.py:357-485 | A key that counts as returned at some moment is not returned by any sequence of calls after it |
| `Secrecy.ReturnedKeysUnderivable` | core/double_ratchet.py:366-455 | Forward secrecy: no key returned so far can be computed from the session's present fields and stored keys, even by someone who owns every private key and every KEM secret |
| `Secrecy.SpentKeyUnderivable` | core/double_ratchet.py:388-485 | A key that left its chain can be computed from the session if and only if it is still stored as skipped |
| `Secrecy.RootUnderivable` | core/double_ratchet.py:404-432 | A root key older than every root key held cannot be computed |
| `Secrecy.ChainUnderivable` | core/double_ratchet.py:445-453 | A chain key that the held chain key has moved past cannot be computed |
| `Secrecy.LaterKeysDerivable` | core/double_ratchet.py:366-376 | Conversely, a chain key gives every later message key of its chain |
| `Secrecy.RunAccounted` | core/double_ratchet.py:357-485 | After any calls each chain key is its chain root stepped exactly seq_send or seq_recv times, the two chains are of different root steps, and no stored or returned key can come out of a chain again |
| `Secrecy.RunAccountedFrom` | core/double_ratchet.py:357-485 | The invariant holds on from any moment, with the keys returned before it counted in |
| `Secrecy.DecryptAccounted` | core/double_ratchet.py:384-455 | One decrypt with any arguments keeps that invariant, and what it returns was never returned before |
| `Secrecy.EncryptAccounted` | core/double_ratchet.py:357-382 | One encrypt keeps that invariant, and what it returns was never returned before |
| `Secrecy.DhStepAccounted` | core/double_ratchet.py:403-436 | The chains a DH step opens are new: no spent key belongs to them. A step that raises half-way keeps the invariant as well |
| `Secrecy.TakeKeyAccounted` | core/double_ratchet.py:438-455 | A key taken from the receiving chain was neither returned nor stored |
| `Secrecy.SkipOneAccounted` | core/double_ratchet.py:463-485 | One skipped key enters the store once, and an eviction cannot make a key available again |
| `Secrecy.StoreBounded` | core/double_ratchet.py:479-484 | At most 1000 skipped keys are held after any calls |
| `Secrecy.ErrorsLeaveSession` | core/double_ratchet.py:384-461 | A decrypt that raises leaves the session unchanged if and only if the header key is malformed, is the current one, or closing the current chain was refused |
| `Ratchet.DoubleRatchetSession.ForAlice` | core/double_ratchet.py:190-211 | The initiator's session: one root step with a fresh key pair, a sending chain, no receiving chain |
| `Ratchet.DoubleRatchetSession.ForBob` | core/double_ratchet.py:213-222 | The responder's session: the shared secret as root, no chain yet |
| `Ratchet.DoubleRatchetSession.EncryptNext` | core/double_ratchet.py:357-382 | Takes the next sending key, or raises and changes nothing |
| `Ratchet.DoubleRatchetSession.Skip` | core/double_ratchet.py:457-485 | The loop stores every key up to the number, refuses beyond 100 without a change, and makes at most 100 chain steps |
| `Ratchet.DoubleRatchetSession.FollowPeer` | core/double_ratchet.py:396-436 | Closes the current chain and makes the DH ratchet step, with the exact state left behind by each way of raising |
| `Ratchet.DoubleRatchetSession.DecryptNext` | core/double_ratchet.py:384-455 | Every branch of decrypt, result and state; at most 201 receiving chain steps in one call, whether it returns or raises |
| `Keys.StepsCount` | core/double_ratchet.py:366-376 | Stepping a chain key n times moves it n places and stays on its root |
| `Hybrid.FirstMessageAgrees` | core/double_ratchet.py:228-277 | With the hybrid factories Alice's first message never raises at Bob's, and is decrypted to its own key if and only if both start from the same shared secret and either Alice did not encapsulate, or Bob holds the key pair she used and his decapsulation works |
| `Hybrid.HybridAgreement` | core/double_ratchet.py:228-277 | On such machines key agreement holds for every run that starts from the hybrid factories |
| `Persistence.SessionSurvives` | core/double_ratchet.py:279-355 | from_json after to_json gives back all nine ratchet fields and the skipped keys in insertion order; the KEM ciphertext is lost |
| `Persistence.ReloadsChangeNothing` | core/double_ratchet.py:279-355 | Reloading a session at any points of any run changes no key, no error, no eviction and not the final state |
| `Persistence.SkipKeysDistinguish` | core/double_ratchet.py:388-389 | Two skip keys are equal if and only if they name the same header |
| `Persistence.StoreSurvives` | core/double_ratchet.py:308-353 | The dictionary of skipped keys comes back entry by entry in the same order |
| `Persistence.EntrySurvives` | core/double_ratchet.py:478-484 | One stored key and its skip key come back |
| `Persistence.HexFieldSurvives` | core/double_ratchet.py:308-345 | An optional field saved as hex comes back if and only if it does not hold zero bytes |
| `Persistence.Base64FieldSurvives` | core/double_ratchet.py:299-333 | The same for a field saved as base64 |
| `Persistence.WebSessionSurvives` | web/src/lib/crypto.ts:266-296 | The web client's session survives if and only if none of its six byte fields is present but empty |
| `Codec.HexRoundTrip` | web/src/lib/crypto.ts:5-15 | Hex text reads back to the bytes it was made from and has twice their length |
| `Codec.FillFromHex` | web/src/lib/crypto.ts:9-15 | The loop that fills an array two digits at a time recovers the bytes |
| `Codec.SkipKeyRoundTrip` | core/double_ratchet.py:388-389 | A skip key determines the public key and the number, negative ones included |
| `Codec.Base64RoundTrip` | core/double_ratchet.py:299-333 | Base64 text reads back to the bytes it was made from |
| `Codec.Base64NoUnderscore` | core/double_ratchet.py:388-389 | Base64 never contains the separator of the skip key |
| `Codec.DecimalRoundTrip` | core/double_ratchet.py:388-389 | The decimal text of a number determines it |
| `Envelope.EndToEnd` | core/protocol.py:239-311 | Two people exchange letters by encrypt_message_v2 and decrypt_message_v2 in any order, with losses, refusals and texts that cannot be sealed: every text read is the text written, and any envelope handed over at the end gives exactly its text unless the 100-message limit refuses it; one read before, or evicted, gives an error, never a text |
| `Envelope.MailRunOk` | core/protocol.py:239-311 | Every such exchange is a run of the conversation of ratchet sessions underneath |
| `Envelope.SealingKeysDiffer` | core/protocol.py:252-259 | No two envelopes one session ever makes are sealed with the same key, whichever calls raise and whatever it is given to open in between |
| `Envelope.NumbersRise` | core/protocol.py:252-272 | Of consecutive calls, number n seals with the n-th key of the sending chain and carries the n-th number, also when calls before it raised in padding or in the associated data |
| `Envelope.BadBoxKeeps` | core/protocol.py:295-302 | An envelope whose box does not open leaves the session unchanged; one whose box opens costs what the ratchet does, whatever becomes of the inner layer |
| `Envelope.SealOpens` | core/protocol.py:254-311 | An envelope opens, in the other direction of the box, with the key that sealed it to the exact text, and with any other key not at all |
| `Envelope.SealBinds` | core/protocol.py:254-311 | With the right key the inner layer opens if and only if the number, the first byte of the role and 16 bytes of the session hash are those it was sealed for |
| `Envelope.BoxBinds` | core/queue_cryptobox.py:8-44 | The outer layer opens if and only if the two key pairs are those it was made between, from either side |
| `Envelope.EncryptV2Succeeds` | core/protocol.py:239-272 | encrypt_message_v2 succeeds if and only if the session can send and text length and number fit 32 bits |
| `Envelope.EncryptMessageV2` | core/protocol.py:239-272 | Advances the session once, also when padding or the associated data then raise |
| `Envelope.DecryptMessageV2` | core/protocol.py:275-311 | Opens the box before it touches the session, so a bad box changes nothing; a bad tag costs the message key |
| `Envelope.PadRoundTrip` | core/protocol.py:200-215 | Whatever the noise, the text is recovered; the buffer starts with the big-endian length, everything behind the text is the noise, and its length depends on the text's length only through the next multiple of 2048 |
| `Envelope.PadPlaintext` | core/protocol.py:200-215 | The buffer filled in place is length, text, noise; a text of 2^32 bytes or more raises |
| `Envelope.PaddedLengthIsLeast` | core/protocol.py:205-207 | The padded length is the least positive multiple of 2048 that holds the text and its four-byte length |
| `Envelope.WebBlockSize` | web/src/lib/crypto.ts:115-118 | The web client's counting loop reaches the same length |
| `Envelope.AadBinds` | core/protocol.py:182-197 | Two associated data are equal if and only if version, first byte of the role, number and, beyond version 1, 16 bytes of the session hash are; version 1 data never passes for version 2 data |
| `Envelope.Uint32RoundTrip` | core/protocol.py:308 | A big-endian 32-bit length reads back |
| `Envelope.UnpackIsBigEndian` | core/protocol.py:308 | The four bytes are read with the most significant first |
| `SafetyNumber.ComputeGroups` | core/protocol.py:143-177 | For every hash function the loops end within 1003 hashes with exactly twelve groups below 100000: accepted windows of the first 1001 hashes in order, filled up with unfiltered ones |
| `SafetyNumber.ComputeSafetyNumber` | core/protocol.py:116-179 | The text is the rendering of those groups |
| `SafetyNumber.TakeAccepted` | core/protocol.py:156-163 | One hash contributes its accepted windows in order and stops at the twelfth group |
| `SafetyNumber.TakeUnfiltered` | core/protocol.py:166-177 | The fallback takes every window in order and needs two hashes at most |
| `SafetyNumber.Symmetric` | core/protocol.py:143-144 | The order of the two keys does not matter |
| `SafetyNumber.SortedDistinguishes` | core/protocol.py:143-144 | For keys of one length the hashed data are equal if and only if the unordered pairs of keys are, so substituting either key changes what is hashed |
| `SafetyNumber.SortedOrder` | core/protocol.py:143-144 | The data are the two keys in lexicographic order, one after the other |
| `SafetyNumber.FirstAccepted` | core/protocol.py:155-163 | When the first n windows contain twelve accepted ones, the groups are those twelve, whatever comes later |
| `SafetyNumber.AcceptedCount` | core/protocol.py:155-163 | There are as many groups as windows below the bound |
| `SafetyNumber.AcceptedAt` | core/protocol.py:155-163 | The residue of a window below the bound stands behind those of the windows below the bound before it |
| `SafetyNumber.WindowsTile` | core/protocol.py:156-158 | The windows are the four-byte pieces of the hashes of the data with a big-endian counter, one after the other |
| `SafetyNumber.NoBias` | core/protocol.py:146-160 | Every residue below 100000 has exactly 42949 accepted 32-bit preimages |
| `SafetyNumber.RenderInjective` | core/protocol.py:160-179 | Two safety numbers read the same only if all groups are the same; twelve groups make 71 characters |
| `SafetyNumber.RenderAt` | core/protocol.py:160-179 | Group number k of the text is five characters that read back as the group, with a space between groups |
| `SessionCache.CacheInvariant` | core/double_ratchet.py:36-79 | After any trace: at most capacity entries, one per key, each with the value last put and not invalidated or cleared since, ordered from least to most recently touched; so a hit is never stale and the victim is the entry touched longest ago |
| `SessionCache.EntryStays` | core/double_ratchet.py:50-75 | After any trace an entry is in the cache after the next operation if and only if it was just put, or was there and is not invalidated, cleared, overwritten, or pushed out of a full cache as the entry touched longest ago |
| `SessionCache.Inclusion` | core/double_ratchet.py:58-69 | For the same trace a smaller cache holds a part of what a larger one holds, the same values in the same order |
| `SessionCache.InclusionStep` | core/double_ratchet.py:50-77 | One operation keeps the smaller cache a part of the larger one, when both, one or neither of them evict |
| `SessionCache.RecencyStep` | core/double_ratchet.py:50-69 | One operation keeps the entries in the order of their last touches |
| `SessionCache.DRSessionCache.Lookup` | core/double_ratchet.py:50-56 | A hit returns the stored session and moves its entry to the end; a miss changes nothing |
| `SessionCache.DRSessionCache.Store` | core/double_ratchet.py:58-64 | The entry moves to the end with its new value and the loop keeps the newest |
| `SessionCache.DRSessionCache.Drop` | core/double_ratchet.py:66-68 | Removes the one entry and keeps the others in order |
| `Relay.RelayInvariant` | transports/relay/server.py:299-442 | In every reachable state owner sets are non-empty and connected, every creator owns its queue, a non-empty buffer means no creator; and per queue what was emitted followed by what is buffered is exactly the accepted pushes in order, minus ephemeral ones pushed offline and minus the oldest beyond 500 of each offline period |
| `Relay.Conservation` | transports/relay/server.py:390-650 | Read off the events alone: what was emitted on a queue followed by what is buffered is exactly the pushes taken, in order, minus ephemeral ones pushed while nobody held the queue and minus the oldest beyond 500 of each such period; the buffer is the newest 500 of the present one |
| `Relay.HistoryExactly` | transports/relay/server.py:536-650 | Which pushes the relay takes, and in what state of the queue, follows from the events: within the rate, named, of a proper size, by a socket with authority over the queue |
| `Relay.ClaimOutcome` | transports/relay/server.py:536-587 | At the end of any run, creating or rejoining a queue makes the socket creator, owner and room member and the recipient online; the buffer is gone and was emitted in order, each payload to that one socket; other owners, members and queues are untouched |
| `Relay.OwnersExactly` | transports/relay/server.py:299-355 | A socket has authority over a queue if and only if, since it connected, it has claimed it or has been registered for it by its authority over another queue |
| `Relay.CreatorsExactly` | transports/relay/server.py:320-335 | The creator of a queue is the last socket to claim it, unless that has disconnected |
| `Relay.RoomsExactly` | transports/relay/server.py:536-587 | The members of a queue's room are the sockets that have claimed it since they connected |
| `Relay.OnlineExactly` | transports/relay/server.py:358-382 | A recipient is online if and only if the last socket to claim the queue has not disconnected since |
| `Relay.OnlineMeansCreator` | transports/relay/server.py:358-382 | A recipient is online if and only if its queue has a creator entry, and then the creator is in the queue's room |
| `Relay.RegistryStep` | transports/relay/server.py:516-683 | Every event keeps the registry invariant, for every queue |
| `Relay.PushConserves` | transports/relay/server.py:606-650 | A push, live, buffered, dropped as ephemeral or rejected, keeps the conservation law of its queue |
| `Relay.PushOutcome` | transports/relay/server.py:606-650 | At the end of any run a push by a socket with authority goes out once, last, to exactly the members of the room, the creator among them, if the queue has a creator; otherwise it becomes the newest in the buffer unless it is ephemeral; every other push changes nothing, and no push touches another queue |
| `Relay.ClaimConserves` | transports/relay/server.py:415-437 | A new or returning creator receives the whole buffer once, in order, and empties it |
| `Relay.BufferedBalanced` | transports/relay/server.py:406-412 | Trimming after every push leaves the last min(k, 500) of the k payloads offered in the period |
| `Relay.Server.EnqueueOffline` | transports/relay/server.py:406-412 | Appends and keeps the newest 500 |
| `Relay.Server.FlushOfflineQueue` | transports/relay/server.py:431-437 | The loop emits every buffered payload to the one socket in order and removes the buffer |
| `Relay.Server.HandleRejoinQueue` | transports/relay/server.py:557-587 | Makes the socket owner, creator and room member, then flushes; limited or empty requests change nothing |
| `Relay.Server.HandleCreateQueue` | transports/relay/server.py:536-554 | The same for a queue id of the relay's choosing |
| `Relay.Server.HandleRegisterPeer` | transports/relay/server.py:590-603 | Makes an owner of one queue an owner of another |
| `Relay.Server.HandlePushQueue` | transports/relay/server.py:606-650 | All branches of a push |
| `Relay.Server.CleanOwners` | transports/relay/server.py:669-677 | The cleanup loop removes the socket from every owner set and deletes the sets it empties, in whatever order it visits them |
| `Relay.Server.HandleDisconnect` | transports/relay/server.py:653-681 | Removes the socket from the registry everywhere |
| `Prekeys.SingleUse` | transports/p2p/routers/keys.py:236-288 | Over any interleaving of fills, takes, drains, publishes and fetches no key of either kind is served twice, no served key is still in bundle or pool, no key is in both, and keys leave the bundle in the order they entered it |
| `Prekeys.OneCopy` | core/prekey_pool.py:136-190 | A key is in at most one place, once, and only after it was generated |
| `Prekeys.HandleConserves` | core/prekey_pool.py:136-257 | Every event moves keys without losing or duplicating one; only generation adds |
| `Prekeys.FetchConserves` | transports/p2p/routers/keys.py:236-288 | A fetch with refills running between its takes conserves keys as well |
| `Prekeys.FetchInOrder` | transports/p2p/routers/keys.py:243-282 | A fetch serves the oldest key of the bundle and adds behind the others |
| `Prekeys.FetchTopsUp` | transports/p2p/routers/keys.py:254-282 | A fetch serves the oldest key of each kind there is; one that leaves fewer than 20 keys tops up to min(20, remaining + pool) when the pool is not refilled meanwhile; otherwise it leaves the rest alone |
| `Prekeys.PublishServes` | transports/p2p/routers/keys.py:110-131 | After a bundle of n new keys is published over any state, the next fetches, up to n, serve exactly those keys in order, however the pool is refilled meanwhile; the old bundle's keys are out of circulation and the pool is untouched |
| `Prekeys.FetchTakesFirst` | transports/p2p/routers/keys.py:236-282 | A fetch takes the first key of the bundle and adds behind the others |
| `Prekeys.Address.FillPool` | core/prekey_pool.py:149-162 | Adds exactly the missing keys, or as many as could be generated |
| `Prekeys.Address.TakeOneTimePrekey` | core/prekey_pool.py:180-190 | Takes the newest key, or nothing from an empty pool |
| `Prekeys.Address.DrainPool` | core/prekey_pool.py:251-257 | Hands out and empties the whole pool |
| `Prekeys.Address.PublishBundle` | transports/p2p/routers/keys.py:110-127 | Overwrites the bundle |
| `Prekeys.Address.FetchBundle` | transports/p2p/routers/keys.py:228-288 | Serves one key of each kind if there is one, and tops up; an unknown address changes nothing |
| `Prekeys.Address.TakeInto` | transports/p2p/routers/keys.py:272-282 | The loop moves keys from pool to bundle until there are enough or the pool is empty |
| `Inbound.SequenceDiscipline` | transports/p2p/routers/p2p.py:193-235 | Across any mix of direct and sealed arrivals, resolutions, contact changes and deletions, the stored messages of one peer to this node have distinct sequence numbers, rising in the order they were accepted or resolved |
| `Inbound.DirectAccepted` | transports/p2p/routers/p2p.py:193-215 | A direct message is accepted if and only if its sender is an accepted contact and its number is above those of all stored messages of that sender |
| `Inbound.DirectOutcome` | transports/p2p/routers/p2p.py:193-235 | An accepted lasting message becomes one more row, the newest, with that sender, this node, that number and an unused id; anything else changes nothing |
| `Inbound.SealedOutcome` | transports/p2p/routers/p2p.py:185-235 | A sealed message is stored unchecked and counts for nobody until it is resolved |
| `Inbound.AcceptedExactly` | transports/p2p/routers/p2p.py:194-203 | The contacts whose messages are accepted are those accepted and not revoked since |
| `Inbound.AboveAll` | transports/p2p/routers/p2p.py:206-212 | Being above the stored maximum is being above every counting row, and holds when there is none |
| `Inbound.HandleDisciplined` | transports/p2p/routers/p2p.py:193-235 | Every event keeps the discipline |
| `Inbound.ResolveDisciplined` | transports/p2p/routers/messages.py:360-394 | Relabelling a sealed row, or deleting it, keeps the discipline of every peer |
| `Inbound.ResolveOutcome` | transports/p2p/routers/messages.py:360-394 | A claim is believed if and only if the message exists, the claimed sender is an accepted contact and the number is above those of its other messages; otherwise the message is gone; no other row is touched |
| `Inbound.Node.P2PMessage` | transports/p2p/routers/p2p.py:173-238 | All outcomes of an arrival; ephemeral messages are checked and not stored |
| `Inbound.Node.ResolveSender` | transports/p2p/routers/messages.py:349-395 | All outcomes of a resolution; a forbidden or out-of-order claim deletes the row |
| `Limiters.UploadWindow` | transports/p2p/routers/files.py:121-139 | At most 50 uploads of one uploader are accepted in any closed 300-second interval |
| `Limiters.UploadRefusedExactly` | transports/p2p/routers/files.py:130-139 | An upload is refused if and only if 50 accepted ones lie in the last 300 seconds |
| `Limiters.UploadsExactly` | transports/p2p/routers/files.py:130-139 | Read off the calls alone: an upload is let in if and only if fewer than 50 of those let in before lie in the 300 seconds up to it |
| `Limiters.FailureWindow` | transports/p2p/routers/auth.py:57-90 | Any 300 seconds without a success hold at most 5 recorded failures of one address |
| `Limiters.LockedExactly` | transports/p2p/routers/auth.py:66-90 | An address is locked out if and only if its last five failures since a success lie within 300 seconds and the last is less than 900 seconds old |
| `Limiters.LockoutHolds` | transports/p2p/routers/auth.py:217-251 | Once locked, every login started in the next 900 seconds is turned away, is not counted and does not prolong the lockout |
| `Limiters.FailuresExactly` | transports/p2p/routers/auth.py:66-95 | What the limiter counts is exactly the invalid logins it let in since the last valid one it let in |
| `Limiters.TurnedAwayExactly` | transports/p2p/routers/auth.py:66-95 | Read off the logins alone: one is turned away if and only if the last five failures since a success lie within 300 seconds and the last is less than 900 seconds old |
| `Limiters.FiveFailuresLock` | transports/p2p/routers/auth.py:77-90 | Five failed logins within 300 seconds, with no success between, lock the address until 900 seconds after the last |
| `Limiters.SuccessClears` | transports/p2p/routers/auth.py:92-95 | A valid login that is let in clears count and lockout |
| `Limiters.PruneIsSuffix` | transports/p2p/routers/files.py:134-135 | On a sorted queue, pruning from the front leaves exactly the last 300 seconds |
| `Limiters.SpacedWindow` | transports/p2p/routers/files.py:134-138 | If entries n places apart are more than 300 seconds apart, no closed window holds more than n |
| `Limiters.UploadRateLimiter.CheckAndRecord` | transports/p2p/routers/files.py:130-139 | Prunes, then refuses or records; other uploaders keep their queues |
| `Limiters.LoginRateLimiter.CheckLocked` | transports/p2p/routers/auth.py:66-75 | Reports the lockout and clears an expired one; other addresses are untouched |
| `Limiters.LoginRateLimiter.Failure` | transports/p2p/routers/auth.py:77-90 | Records a failure and locks at the fifth; other addresses are untouched |
| `Limiters.LoginRateLimiter.HandleLogin` | transports/p2p/routers/auth.py:217-251 | One login: the check, then the failure or the success it records |
| `SyncWindow.ReplayNeedsFlood` | core/sync.py:69-95 | An id is applied again only after at least the tier limit of other applications in between, and the very same envelope only if all of them fell within 600 seconds |
| `SyncWindow.WindowInvariant` | core/sync.py:79-90 | The queue is the ids of the last applications up to the limit, the set holds the same ids, and equal ids are more than the limit apart |
| `SyncWindow.NoDuplicates` | core/sync.py:83-90 | The queue never exceeds the limit and has no duplicates |
| `SyncWindow.VerdictsExactly` | core/sync.py:69-95 | Read off the calls alone, every verdict and every application: unauthorised without a pairing, duplicate if the id is among the last applications up to the limit, stale beyond 300 seconds of skew, applied otherwise |
| `SyncWindow.OthersChangeNothing` | core/sync.py:73-81 | A call changes the state if and only if it applies the envelope: unauthorised, duplicate and stale ones change nothing |
| `SyncWindow.MultiDeviceSyncManager.ProcessIncomingEnvelope` | core/sync.py:69-95 | The checks in their order, then the eviction loop and the insertion |
| `Batcher.BatcherSafe` | transports/p2p/socket_v3.py:74-126 | Under every interleaving the drained batches followed by the queue are exactly what was enqueued; a non-empty queue has a live timer or a scheduled flush, one of five or more has a scheduled flush, an empty queue has no timer, and there is at most one live timer |
| `Batcher.NothingLost` | transports/p2p/socket_v3.py:74-126 | In every reachable state the drained batches followed by the queue are the items of the enqueue events, in order |
| `Batcher.BurstOutcome` | transports/p2p/socket_v3.py:80-89 | A burst on an empty queue starts one timer, by its first item; its first four items schedule no flush and each from the fifth on schedules one |
| `Batcher.HandleSafe` | transports/p2p/socket_v3.py:74-126 | Every enqueue, timer and flush step keeps that |
| `Batcher.NextFlushDrains` | transports/p2p/socket_v3.py:91-130 | From any reachable state with something queued some timer or flush step is possible, and whichever runs next drains the whole queue as one batch |
| `Batcher.OutgoingBatcher.EnqueueItem` | transports/p2p/socket_v3.py:74-89 | Appends and schedules a flush, starts the timer, or leaves the running one |
| `Batcher.OutgoingBatcher.Flush` | transports/p2p/socket_v3.py:106-114 | Takes the whole queue as one batch and cancels the timer; an empty queue changes nothing |

## Left out

- The primitives: HKDF, X25519, AES-GCM, NaCl, ML-KEM and SHA-256 are ideal, as said above; nothing is said about bytes of keys beyond being different for different terms.
- Text encoding: texts are byte strings; UTF-8 and its errors are not modelled.
- `from_json` and base64 or hex decoding on text that this code did not write, and the defaults for missing JSON fields.
- The web client's session steps: they are those of the Python class, except that it checks a missing remote key only after stepping the receiving chain, a state its factories do not reach. Its hex codec, padding loop and serialisation are modelled.
- The four factories' arguments are well-formed keys; a malformed or low-order peer key handed to `init_alice` raises in the library.
- `encrypt_message` and `decrypt_message` (version 1), sealed-sender blocks and their verification.
- The lock and the environment variable of the session cache. Cached values are references; what their owners do to the sessions is not part of the cache.
- The relay's Redis branches, its socket rate limiter (an input of the handlers here), and the file store. `Server.HandleCreateQueue` takes the new queue id as an argument.
- Concurrent fetches of one bundle: a fetch suspends at its two commits, and here it runs as one step.
- Concurrent logins of one address: the login runs here are sequential, as `InSequence` says; in between a check and its outcome the original waits for bcrypt.
- Signed prekeys, rotation, `sync_pool_to_db`, and the scheduling of pool refills; a refill is an arbitrary fill.
- The order of database rows: `Inbound` keeps the rows in the order they were accepted or resolved, and the database has none.
- Messages a node addresses to itself: `Inbound.SequenceDiscipline` is about the other peers.
- The batcher after a batch is drained: emitting, its errors, and cancellation of emits.
- The tier detection behind the sync window's limit: the limit is any positive number.
- MLS groups, rate-limiting nullifiers, history paging, the transports and the user interfaces.
