# Randevu in Dafny

Randevu lets agents negotiate through a relay that stores only ciphertext. This project models the small distributed
protocol inside it and proves what its parties may rely on.

## What is here

* **Relay engine.** `Session.dfy` is the session over a string-keyed store (`Store.dfy`), a class whose methods are
  proved against the value-level session of `SessionSpec.dfy`. `Dispatch.dfy` is request authentication and routing in
  front of it. `NodeRelay.dfy` is the promise chain that serializes requests per session, `SessionPlaces.dfy` which store
  each one works on, and `RelayPrograms.dfy` the requests expanded into single store operations; together they show that
  interleaved requests are answered as if served one by one. `SessionHistory.dfy` and `TrafficHistory.dfy` say who is let in, what is kept and what is answered
  from the requests alone. `Waiters.dfy` and `LongPoll.dfy` are the wake-up mechanism and its races, `PollTiming.dfy` what
  a poll answers and when.
* **Client.** `Client.dfy` is the key-holding client as a value, `Local.dfy` the same client as the object that runs.
  `Protocol.dfy` lets any number of clients and the relay run together, one relay request at a time;
  `ProtocolInvariant.dfy` is what every run keeps, the other `Protocol*.dfy` files are the proof, step by step, and
  `Guarantees.dfy`, `Reading.dfy`, `SentAsAsked.dfy` and `CallProgress.dfy` state what clients get from it, and
  `RunRequests.dfy` ties the relay of a run to its request history. `AnyRelay.dfy` is what a client makes of the answers
  of any relay, honest or not.
* **Offline verifier.** `Transcript.dfy` is `verifyTranscript` as loops, proved equal to a declarative verdict on an
  arbitrary bundle; `VerdictMeaning.dfy` says what each part of that verdict means in terms of the bundle, `Integrity.dfy`
  what a passing one proves; `HonestTranscript.dfy` and `HonestAgreements.dfy` say when the transcript of an honest
  session passes and which agreements are found in it.
* **Codecs.** `Message.dfy` (signing bytes and chain) and `Purposes.dfy` (what is signed for what), `CanonicalJson.dfy`
  with a reader in `JsonReader.dfy` and `Credential.dfy`, `Unicode.dfy`, `Uri.dfy`, `Invite.dfy` and `InviteShapes.dfy`,
  `Sas.dfy`, and the hosted room's printed replies with their line parser in `RoomText.dfy`, `RoomReading.dfy`,
  `RoomHeader.dfy` and `RoomRoundTrip.dfy`. `Room.dfy` is the room's cursor read and `RoomStore.dfy` the room as a class
  over the key-value store.

`Prelude.dfy`, `Sequences.dfy`, `Decimals.dfy` and `Sorting.dfy` are shared vocabulary: JavaScript maps, join, split and
trim, decimal numerals and stable sorting.

## How it is modelled

* **Cryptography is a term algebra** (`Crypto.dfy`). A digest, signature, sealed box or ciphertext is a constructor over
  what went into it. A signature verifies exactly when that key made it, a ciphertext opens exactly under its key, nonce
  and associated data. Hex and base64url spellings are single symbols, so they contain no separator.
* **One relay request is one step of a run.** A client call is a chain of steps, any other client may step in between,
  and each client runs one call at a time. The relay in runs is the honest session; the verifier faces any bundle.
* **`Fits`** in the theorems about runs says that the relay has not reached 10^12 messages. It is the width of the
  relay's padded keys, and `SessionSpec.RangeReadIsFullScan` shows that the cursor read is right exactly up to it.
* **The clock, random values, SHA-256 for the authentication string, and `Number()`** are parameters.

## What the proofs found

* The creator's transcript of an honest session is valid exactly when no message was appended between some sender's pull
  and its post (`HonestTranscript.CreatorExport`); the later of two overlapping sends makes it invalid.
* A wake-up is lost exactly when the last owed wake meets an empty read that a post has made stale and whose poll decides
  before its deadline (`LongPoll.NoLostWakeUp`, `LongPoll.UnsafeWakeLosesWakeUp`). The comment in `waiters.ts` asks
  callers to register right after their last await; it is enough that no wake comes between any read and its decision
  (`LongPoll.PromptRunsLoseNothing`), and a wake that meets a read of its own message does no harm.
* A room reply reads back exactly when no earlier place on a header line can end a name and no text line looks like a
  header, a pause or a cursor (`RoomRoundTrip.ReplyReadsBack`); a parenthesis opened after a blank in a name and never
  closed, for one, swallows the type (`RoomHeader.UnclosedNameIsUnsafe`).
* A credential that already has a top-level `proof` does not verify after signing (`Credential.SignedVerifies`).
* A signed head covers the decodable messages only: an undecodable one can be slipped in without the head noticing, and
  it is the message's own verdict that fails (`Integrity.HeadMissesUndecodable`).
* Between advancing its epoch and the relay's answer to its key post the creator's current key is not its epoch's
  (`Guarantees.KeysAreConsistent`).
* A comment in `session.ts` calls the join token one-time; the code accepts it until the session locks, and so does the
  model. The member list is ordered by join sequence number and then fingerprint, which is not always join order.

## Model

| member | source | states |
|---|---|---|
| Message.FoldInjective | packages/core/src/message.ts:118-120 | Two message lists with the same running chain head are the same list: a head commits to every message and to their order. |
| Message.SigningBytesBindChain | packages/core/src/message.ts:80-93 | Whatever the names contain, equal signing bytes fix the previous hash, the nonce and the ciphertext. |
| Message.SigningBytesUniquelyReadable | packages/core/src/message.ts:80-93 | For names and references without a separator, signing bytes are equal exactly when every signed field is, with null and empty reference identified. |
| Message.SigningBytesCollide | packages/core/src/message.ts:80-93 | With a separator in a name two different envelopes share their signing bytes, so the condition is needed. |
| Message.AssociatedDataBinds | packages/core/src/message.ts:33-35 | What a ciphertext is bound to fixes its epoch and sender, and its session where session ids hold no separator. |
| Purposes.SignedForOnePurpose | packages/core/src/reqauth.ts:10-35 | What is signed as a message, a group key, a request and a transcript head is never the same bytes, whatever they contain. |
| Purposes.CredentialsApart | packages/core/src/credential.ts:25-44 | Nor is what is signed for a credential any of these. |
| Purposes.HeadBinds | packages/core/src/transcript.ts:28-31 | A signed head is about one session, one last number and one hash, where session ids hold no separator. |
| Transcript.ReadMembers | packages/core/src/transcript.ts:130-148 | The loop over members builds the last-wins key table and finds every invalid member. |
| Transcript.CheckEntries | packages/core/src/transcript.ts:163-230 | The message loop yields each verdict against the fold of the decodable messages before it, the id table and the overall flag. |
| Transcript.VerifyTranscript | packages/core/src/transcript.ts:130-269 | The one-pass verifier returns exactly the declarative verification of an arbitrary bundle: flags, verdicts, agreements and head; what these mean is said by VerdictMeaning.VerdictMeans, MembersMeans, HeadMeans and AgreementsAre. |
| Integrity.ValidMeansProven | packages/core/src/transcript.ts:124-269 | A bundle is valid exactly when members match their keys, every message was signed by a listed member, names the fold before it and opens under the key disclosed for its epoch, and the head, if present, fits. |
| Integrity.IdsDistinct | packages/core/src/transcript.ts:190-230 | In a chained bundle content ids are pairwise distinct. |
| Integrity.RefersBackwards | packages/core/src/transcript.ts:190-242 | A message can only refer to a strictly earlier one, although no position is ever compared. |
| Integrity.AgreementsNameOneEarlierMessage | packages/core/src/transcript.ts:232-242 | In a valid bundle an agreement names no presented message, or exactly one, strictly earlier, and quotes its sender and decrypted text. |
| Integrity.ChainedPartIsPrefix | packages/core/src/transcript.ts:157-230 | A bundle whose signed contents are drawn from a chained one, dropped, reordered, duplicated or renumbered at will, and whose own links pass, is a prefix of it. |
| Integrity.PrefixHasSameContent | packages/core/src/transcript.ts:157-230 | That prefix agrees with the original message by message in chain position, nonce and ciphertext, and in every other signed field where names and references hold no separator, a null and an empty reference being the same. |
| Integrity.SameHeadSameMessages | packages/core/src/transcript.ts:246-266 | Two bundles that satisfy the same signed head have the same decodable messages in the same order; when all are decodable, as in valid bundles, there are equally many and they agree one by one: no tail can be dropped. |
| Integrity.HeadMissesUndecodable | packages/core/src/transcript.ts:157-266 | An undecodable message not past the last one can be added without the head noticing; the verdict on the messages then fails. |
| Integrity.VerificationIgnoresOrder | packages/core/src/transcript.ts:157-269 | With distinct sequence numbers the result does not depend on the order messages are listed in. |
| VerdictMeaning.VerdictMeans | packages/core/src/transcript.ts:163-230 | An entry is reported signed exactly if the last listed decodable key of its claimed sender signed its envelope, in place exactly if it names the fold of the decodable entries before it, and read exactly if also the last key disclosed for its epoch opens it for this session and sender. |
| VerdictMeaning.MembersMeans | packages/core/src/transcript.ts:130-148 | The member list is valid exactly if it is not empty and every fingerprint and identifier belongs to the key listed with it. |
| VerdictMeaning.OneKeyPerName | packages/core/src/transcript.ts:130-148 | In a valid member list a fingerprint, and an identifier, belongs to one key. |
| VerdictMeaning.HeadMeans | packages/core/src/transcript.ts:246-266 | A head fits exactly if a listed member signed the tagged session id, last sequence number and head hash, and these are the presented ones. |
| VerdictMeaning.AgreementsAre | packages/core/src/transcript.ts:232-242 | For every bundle the agreements are one for each signed, chained `accept` with a reference, in message order, each quoting sender and plaintext of the last entry with the id it refers to, or nothing if there is none. |
| VerdictMeaning.AgreedMeansAccepted | packages/core/src/transcript.ts:232-242 | Someone is reported to have agreed to an id exactly if some entry is their signed `accept` of that id in its place in the chain. |
| Store.MemoryKvStore.List | apps/relay/src/store.ts:40-49 | A listing returns exactly the entries with the prefix and not before the start, in ascending key order. |
| Store.SameKeysSameOrder | apps/relay/src/store.ts:40-49 | There is one ascending listing of a set of keys. |
| Decimals.PaddedOrder | apps/relay/src/session.ts:62-69 | Below the width, padded numerals sort as strings exactly as the numbers do, and have that length. |
| Relay.KeysNeverCollide | apps/relay/src/session.ts:62-69 | No two places of a session share a store key, whatever fingerprints and token hashes contain. |
| SessionSpec.RangeReadIsFullScan | apps/relay/src/session.ts:184-193 | The cursor range read finds everything after every cursor exactly while sequence numbers fit the padding width. |
| SessionSpec.RelayRangeRead | apps/relay/src/session.ts:62-69 | With the relay's twelve digits that is exactly below a million million messages. |
| SessionSpec.RosterListsMembers | apps/relay/src/session.ts:162-165 | The member list holds every member once, by join sequence number and then by fingerprint. |
| SessionSpec.RequestKeepsInv | apps/relay/src/session.ts:94-215 | Every request keeps the session invariant (epoch counts members, locked exactly when full, creator and every sender a member, messages numbered without gaps), only adds members and messages, and changes nothing when rejected. |
| SessionSpec.EveryRunKeepsInv | apps/relay/src/session.ts:94-215 | After any sequence of requests the invariant holds, and everything present earlier is still there. |
| SessionHistory.JoinAdmits | apps/relay/src/session.ts:127-153 | After any requests a join is accepted exactly with the token the accepted creation carried, while fewer than its maximum are in, and under a new fingerprint; it then adds that member at the next epoch and locks the session when it is the last. |
| SessionHistory.JoinRefusals | apps/relay/src/session.ts:127-153 | A refused join is told why: no session, a full one, another token than the creation's, a name taken, in this order. |
| SessionHistory.OpensFirst | apps/relay/src/session.ts:94-124 | The first creation that asks for at least two places opens the session, and no other request ever does. |
| SessionHistory.LogIsPosts | apps/relay/src/session.ts:174-181 | The log is the accepted posts in order, renumbered from one. |
| SessionHistory.PostAdmits | apps/relay/src/session.ts:174-181 | A post is accepted exactly from someone whom the creation or an accepted join brought in. |
| SessionHistory.BroughtIn | apps/relay/src/session.ts:127-153 | Whoever was brought in is a member ever after, under its own keys and the number of messages before it. |
| SessionHistory.KeysAdmit | apps/relay/src/session.ts:196-214 | Keys are accepted exactly from the fingerprint that created the session. |
| SessionHistory.KeysAreNewest | apps/relay/src/session.ts:196-222 | A wrap is held for an epoch and recipient exactly if the last accepted key post that had one carried it, with the commitment and signature of that post. |
| Relay.Session.constructor | apps/relay/src/session.ts:84-85 | A session over an empty store represents no session. |
| Relay.Session.Init | apps/relay/src/session.ts:94-124 | Creation over the string-keyed store is the specified one; a refused creation leaves the store as it was. |
| Relay.Session.Join | apps/relay/src/session.ts:127-153 | Joining checks lock, token and membership in that order, advances the epoch, locks when full and returns the roster; a refused join leaves the store as it was. Which token that is, is SessionHistory.JoinAdmits. |
| Relay.Session.PostMessage | apps/relay/src/session.ts:174-181 | A member's message is appended under the next sequence number; any other post leaves the store as it was. |
| Relay.Session.GetMessages | apps/relay/src/session.ts:184-193 | The range read over the store returns exactly the specified messages after the cursor, ascending, and the new cursor. |
| Relay.Session.PostKeys | apps/relay/src/session.ts:196-214 | Only the creator posts keys; the loop writes every wrap under its epoch and recipient. |
| Relay.Session.GetKey | apps/relay/src/session.ts:217-222 | A stored wrap is returned to its epoch and recipient, and nothing else. |
| Relay.Session.Status | apps/relay/src/session.ts:225-243 | The status reply is the metadata, the roster and the last sequence number. |
| Dispatch.Authenticate | apps/relay/src/dispatch.ts:32-40 | A request passes exactly when a stored member key signed its verb, path and timestamp and the timestamp is at most five minutes off. |
| Dispatch.SignatureBindsRequest | packages/core/src/reqauth.ts:10-35 | One signature authenticates one verb, path and timestamp of one key holder; it carries over to no other. |
| Dispatch.DispatchSession | apps/relay/src/dispatch.ts:47-96 | Every request is gated and routed as specified, and any answer but 200 leaves the store untouched. |
| Dispatch.OnlyMembersWrite | apps/relay/src/dispatch.ts:47-86 | Once a session exists, only an authentic member request answered 200 changes its messages or keys. |
| Dispatch.EveryTrafficKeepsInv | apps/relay/src/dispatch.ts:47-96 | After any traffic, authentic or not, the session invariant holds and members and messages have only accrued. |
| TrafficHistory.TokenAdmits | apps/relay/src/dispatch.ts:53-60 | After any traffic a join is answered 200 exactly with the token in the creation's own answer, while there is room and under a new name, and adds just that member. |
| TrafficHistory.OnlyJoinsAdmit | apps/relay/src/dispatch.ts:47-96 | No other call adds a member. |
| TrafficHistory.GateHolds | apps/relay/src/dispatch.ts:32-52 | Members, messages, keys and status are refused with 401 exactly unless a member's key signed this verb, path and timestamp within five minutes of the relay's clock; a refused call changes nothing. |
| TrafficHistory.PostAnswered | apps/relay/src/dispatch.ts:64-66 | A member's post is answered with its place in the log and stands there with that number; one under a stranger's name is refused and leaves no trace. |
| TrafficHistory.KeyPostAnswered | apps/relay/src/dispatch.ts:70-82 | Only a post of keys under the creator's name is taken, and it changes nothing but keys. |
| TrafficHistory.KeyAnswered | apps/relay/src/dispatch.ts:83-85 | A key is answered exactly as it stands under the epoch and recipient asked for, or 404. |
| TrafficHistory.FetchAnswered | apps/relay/src/dispatch.ts:67-69 | A member's fetch is answered with everything past its cursor, in order, and the number of the last message as the next cursor. |
| TrafficHistory.StatusAnswered | apps/relay/src/dispatch.ts:61-88 | Status and member list tell the session's metadata, number of messages and every member once. |
| NodeRelay.Chains.constructor | packages/cli/src/node-relay.ts:24-26 | The relay starts with no sessions and no tails. |
| NodeRelay.Chains.Serialize | packages/cli/src/node-relay.ts:29-40 | A task is chained to the session's current tail, once, and becomes the new tail. |
| NodeRelay.Chains.HandleCreate | packages/cli/src/node-relay.ts:69-76 | Creation sets a session with a store of its own under the id, in place of an earlier one, and chains the initialisation. |
| NodeRelay.Chains.HandleRequest | packages/cli/src/node-relay.ts:80-91 | A request for a known session is chained; for an unknown one nothing is. |
| NodeRelay.Linearizable | packages/cli/src/node-relay.ts:29-40 | Any interleaving of single store operations equals running each session's tasks one by one in arrival order, in every outcome and in the final store. |
| NodeRelay.AloneUnique | packages/cli/src/node-relay.ts:29-40 | Running a task alone has one outcome, so the sequential reference is well defined. |
| NodeRelay.StartedOnceInTurn | packages/cli/src/node-relay.ts:29-40 | Each task is started once, and only after every earlier task of its session has settled. |
| NodeRelay.NeverStuck | packages/cli/src/node-relay.ts:29-40 | As long as a task is unsettled, some task of its session can take a step. |
| NodeRelay.NextMayBegin | packages/cli/src/node-relay.ts:29-40 | Once a task has settled, fulfilled or rejected, the next one of its session may begin. |
| NodeRelay.SessionsIndependent | packages/cli/src/node-relay.ts:25-40 | Steps of one session's tasks leave every other session's store alone. |
| SessionPlaces.JobsAreArrivals | packages/cli/src/node-relay.ts:69-91 | In every run the tasks are exactly what arrived, in order: a creation works on a new store, a request on the store of the latest creation under its id, and a request under an id never created leaves nothing. |
| RelayPrograms.DispatchAlone | apps/relay/src/dispatch.ts:47-96 | A whole request expanded into its store reads, writes and listings, run alone, answers and changes the session exactly as specified. |
| RelayPrograms.AnswersAreSequential | packages/cli/src/node-relay.ts:69-92 | With requests interleaving at single store operations, every answer is the one the session gives when it serves the requests atomically in arrival order. |
| RelayPrograms.UnserializedPostsCollide | apps/relay/src/session.ts:174-181 | Without the chain two posts can both read before either writes: both get one sequence number and one message is lost. |
| Waiters.WaiterList.constructor | packages/core/src/waiters.ts:16-17 | Nobody waits at first. |
| Waiters.WaiterList.Wait | packages/core/src/waiters.ts:32-46 | A reader parks at the end of the list with a running timer. |
| Waiters.WaiterList.WakeAll | packages/core/src/waiters.ts:20-24 | A wake resolves everyone parked, in order, each for the first and only time, and stops their timers. |
| Waiters.WaiterList.TimerFires | packages/core/src/waiters.ts:38-43 | A timer resolves its own waiter for the first and only time and takes it off the list. |
| LongPoll.EveryRunKeepsInv | packages/core/src/waiters.ts:56-70 | In every interleaving the list holds exactly the parked polls, and each poll parks at most once more often than it is woken. |
| LongPoll.AnswersFromItsLastRead | packages/core/src/waiters.ts:56-70 | A poll answers from the read it just made; it times out only straight after an empty read, at or past its deadline. |
| PollTiming.AnswersInTime | packages/core/src/waiters.ts:56-70 | If a poll started by an event answers at a later one, that is its decision: without messages only once its timeout has passed on the clock since its start and its last read found nothing past the cursor it was started with, with messages only if that read found some. |
| PollTiming.DecidesByTheClock | packages/core/src/waiters.ts:56-70 | A decision returns messages exactly if the read saw some past the cursor, times out exactly if it saw none and the timeout has passed since the start, and otherwise parks. |
| PollTiming.ParkedIsReleased | packages/core/src/waiters.ts:28-46 | A parked poll reads again at the next wake, and at its timer exactly once its timeout has passed since its start. |
| LongPoll.NoLostWakeUp | apps/relay/src/session-do.ts:65-112 | In every run each poll that is parked behind the log, or about to be, has a post that still owes its wake throughout, if and only if the last owed wake never meets an empty read that has gone stale before its deadline. |
| LongPoll.StepCoversIffSafe | apps/relay/src/session-do.ts:65-112 | Step by step: a step keeps that cover exactly if it is not such a wake. |
| LongPoll.PromptRunsLoseNothing | packages/core/src/waiters.ts:28-46 | If polls decide before any wake gets its turn, a parked poll behind the log always has a post that still owes its wake. |
| LongPoll.UnsafeWakeLosesWakeUp | apps/relay/src/session-do.ts:105-112 | Whenever the last owed wake meets a stale empty read, the poll can park on a message nobody will announce. |
| LongPoll.LostWakeUpRun | packages/core/src/waiters.ts:56-70 | A concrete run from the start reaches that state. |
| LongPoll.FreshReadIsSafe | packages/core/src/waiters.ts:56-70 | A wake that meets a read of the message it announces loses nothing, although the poll has not decided. |
| Local.RandevuLocal.constructor | packages/local/src/server.ts:92-131 | A fresh client has no session, key, head, log or members. |
| Local.RandevuLocal.SessionCreated | packages/local/src/server.ts:162-170 | After creation the client is the key holder and knows itself. |
| Local.RandevuLocal.JoinSession | packages/local/src/server.ts:179-197 | Joining pins the invite's creator and caches the members only when the creator's key matches the pin. |
| Local.RandevuLocal.StatusSeen | packages/local/src/server.ts:261-289 | The status reply decides whether a new key is posted, a key is fetched, or nothing is due; when which is due in a run is CallProgress.CreatorConverges and CallProgress.JoinerConverges. |
| Local.RandevuLocal.KeysPosted | packages/local/src/server.ts:282-284 | A posted key becomes current and is kept under its epoch. |
| Local.RandevuLocal.KeyFetched | packages/local/src/server.ts:289-305 | A fetched key is taken only if it unwraps and the pinned holder signed it for the epoch; a missing key is tolerated and an error changes nothing. |
| Local.RandevuLocal.Pull | packages/local/src/server.ts:338-374 | The pull loop folds the messages one by one and stops where decoding throws. |
| Local.RandevuLocal.Compose | packages/local/src/server.ts:386-406 | The posted message is sealed under the current key, chained to the current head and signed; that it says what the caller asked is SentAsAsked.MessagesAreDrafts. |
| Local.RandevuLocal.Receive | packages/local/src/server.ts:437-452 | The delivery loop hands over what lies past the cursor, skips own messages and advances the cursor. |
| Local.RandevuLocal.ExportTranscript | packages/local/src/server.ts:546-571 | The export lists members, keys and messages as held and signs the head. |
| ClientFacts.DeliverIsInbox | packages/local/src/server.ts:437-452 | One receive pass delivers exactly the others' messages past the cursor and moves the cursor to the end. |
| ProtocolPull.PullFolds | packages/local/src/server.ts:338-374 | Folding any stretch of an honest log succeeds and leaves head, log and flags as the invariant states. |
| ProtocolPull.PullBatches | packages/local/src/server.ts:338-374 | Pulling in batches leaves the client exactly as one pull of everything. |
| ProtocolRuns.EveryRunKeepsInv | packages/local/src/server.ts:261-408 | After every sequence of steps of any clients in any interleaving over the honest relay, the joint invariant of relay and clients holds. |
| Guarantees.HeadIsFoldOfLog | packages/local/src/server.ts:338-374 | Each client's head is the fold of exactly the relay messages it has fetched, and its log records them unchanged. |
| Guarantees.ChainOkMeansNotOvertaken | packages/local/src/server.ts:355-357 | A message passes the chain check at every client exactly when its sender had folded all earlier messages when it signed. |
| Guarantees.WrapsGoToMembers | packages/local/src/server.ts:266-284 | The relay holds a wrap for an epoch and recipient exactly when the creator made a key for it and the recipient was a member then. |
| Guarantees.KeysAreConsistent | packages/local/src/server.ts:261-306 | Clients holding a key for an epoch hold the same one and none from before its own join; a current key is the one kept for the client's epoch exactly while the client is not posting a new key, when it is the creator's previous one. |
| Guarantees.KeysAreNeverReplaced | packages/local/src/server.ts:261-306 | A key once held stays for the rest of the run: the creator makes at most one per epoch. |
| Guarantees.DeliveredExactlyOnce | packages/local/src/server.ts:434-453 | All receive results of a client together are the relay log up to its cursor without its own messages, in order, each once, and each is the client's own record of the message. |
| Reading.DeliveredBodies | packages/local/src/server.ts:359-371 | For every entry of every client's log in every reachable state, one of the client's pulls folded it, and whether it is verified and whether its body is the sender's plaintext or empty is settled exactly by the members and keys the client knew at that pull. |
| ProtocolPull.BodyIsSent | packages/local/src/server.ts:359-370 | The body a client records is the sender's plaintext exactly if the message is verified, someone else's, and its epoch's key is held; otherwise it is empty. |
| Reading.PulledMessagesRead | packages/local/src/server.ts:338-374 | In every reachable state a pull, the one an export starts with included, leaves the client with the whole relay log, each new entry verified exactly if its sender was known and nothing overtook it, with its plaintext exactly if it is verified, someone else's and its epoch's key was held. |
| Reading.CreatorReadsAll | packages/local/src/server.ts:338-374 | In every reachable state each entry of the creator's log is verified exactly if nothing overtook its message, and carries the sender's plaintext exactly then unless the message is the creator's own. |
| Reading.RecordsAreFinal | packages/local/src/server.ts:338-374 | What a client recorded about a message never changes: its log only grows. |
| Reading.FetchedKeyIsHeld | packages/local/src/server.ts:289-305 | A member that asks for a key the relay holds for it ends up with the creator's key of that epoch as its current one. |
| CallProgress.CreatorConverges | packages/local/src/server.ts:261-289 | In every reachable state a creator that begins a call without a key for the relay's epoch is about to post the fresh key for exactly that epoch, sealed to every member; with one it sends no key request. |
| CallProgress.CreatorRekeys | packages/local/src/server.ts:261-289 | After that post is answered the creator holds the fresh key for that epoch as its current one and the relay holds a wrap of it for every member. |
| CallProgress.PostedKeyIsHeld | packages/local/src/server.ts:282-284 | Whatever happened between a key post and its answer, the creator then holds the key and the relay a wrap for everyone who was a member at its epoch. |
| CallProgress.JoinerConverges | packages/local/src/server.ts:285-289 | In every reachable state a joiner that begins a call asks for the key of exactly the relay's epoch unless its current key is that one, and asks for nothing if it is. |
| CallProgress.FetchGoesOn | packages/local/src/server.ts:289-306 | The answer to a key request never ends the call; with a wrap at the relay the creator's key for that epoch becomes current. |
| CallProgress.PullGoesOn | packages/local/src/server.ts:338-408 | A pull goes through in every reachable state: a receive has then delivered everything, a send is about to post its caller's draft on top of every message there is. |
| CallProgress.PostGoesThrough | packages/local/src/server.ts:386-408 | A post goes through in every reachable state and puts the message the caller asked for at the end of the log. |
| SentAsAsked.MessagesAreDrafts | packages/local/src/server.ts:386-406 | In every run each logged message has the type, reference, nonce and plaintext its sender's caller asked for, in the clear fields and in the signed envelope, under the creator's key for its epoch. |
| SentAsAsked.SentInOrderAsked | packages/local/src/server.ts:386-408 | A client's messages at the relay are drafts it was asked to send, in that order, each at most once. |
| SentAsAsked.DeliveredAsAsked | packages/local/src/server.ts:434-453 | Everything a client was ever handed is what the others asked to send, in log order, with the type and reference asked for, each once. |
| RunRequests.RelayIsHistory | packages/local/src/server.ts:162-408 | The relay of every run is the session after the requests the clients made, so the history theorems hold of runs. |
| RunRequests.JoinsWithToken | packages/local/src/server.ts:179-197 | In a run a client outside the session gets in exactly with the token the session was created with, while there is room. |
| AnyRelay.JoinChecksPin | packages/local/src/server.ts:179-197 | Whatever a relay answers a join, the listed members are cached exactly if the first one listed under the invite's fingerprint has a key with that fingerprint. |
| AnyRelay.KeyIsVouched | packages/local/src/server.ts:289-305 | Whatever a relay answers a key request, a key becomes current exactly if it is sealed to this client and the holder pinned from the invite signed it for this session and epoch; 404 changes nothing and anything else is an error. |
| AnyRelay.KeySignatureBinds | packages/core/src/groupkey.ts:14-37 | One signature vouches for one session, epoch and key of one holder, where session ids hold no separator. |
| AnyRelay.PullJudges | packages/local/src/server.ts:338-374 | Whatever a relay sends, a pull that gets through has judged each message by the fold before it, its cached sender's signature and the key held for its epoch, and its head is the fold of them all. |
| AnyRelay.PullStopsInFront | packages/local/src/server.ts:338-374 | A pull stops exactly in front of the first message with malformed hex, with everything before it taken in. |
| AnyRelay.PullCursor | packages/local/src/server.ts:338-374 | Whatever numbers a relay puts on messages, the fetch cursor is the highest one seen. |
| AnyRelay.DeliverMeans | packages/local/src/server.ts:437-452 | Whatever the log holds, a receive pass hands over exactly what others sent and is numbered above the cursor and everything before it, in order and as recorded, and moves the cursor to the highest number. |
| AnyRelay.SameHeadSameHistory | packages/local/src/server.ts:338-374 | Two fresh clients with the same head were given the same messages in the same order, whichever relays answered them and in however many answers. |
| HonestTranscript.HonestBundle | packages/local/src/server.ts:543-572 | The creator's export has valid members and head, and every message is found signed and with its sender's plaintext. |
| HonestTranscript.CreatorTranscript | packages/local/src/server.ts:543-572 | For every honest run the creator's export lists the messages it has fetched in order, recovers every plaintext, and is valid exactly when none of them had another message appended between its sender's pull and its post. |
| HonestTranscript.CreatorExport | packages/local/src/server.ts:543-572 | The export call itself, made by the creator between calls in any reachable state, yields the relay's whole log, and is valid exactly when no message at all was overtaken. |
| HonestAgreements.AgreementsAreAcceptances | packages/core/src/transcript.ts:232-242 | The agreements reported of the creator's export, in every reachable state between calls, are the acceptances callers asked to send and nothing overtook: each that refers to a message of the session is reported with that message's sender and plaintext, and nothing else is. |
| CanonicalJson.CanonicalTextIsValue | packages/core/src/credential.ts:14-22 | Canonical texts are equal exactly for values that differ at most in the order of object keys (sections 3.2.2 and 3.2.3 of RFC 8785). |
| CanonicalJson.SamePrints | packages/core/src/credential.ts:14-22 | Reordering object keys anywhere in a value leaves its canonical text unchanged. |
| CanonicalJson.Readable | packages/core/src/credential.ts:14-22 | A canonical text in front of other text can be read in one way only: the value and the rest are determined. |
| JsonReader.CanonicalReadsBack | packages/core/src/credential.ts:14-22 | Canonical text is JSON for its value: a reader for the grammar of RFC 8259 gets the same value back, with object keys ascending at every level, and nothing is left over. |
| CanonicalJson.CharReadsBack | packages/core/src/credential.ts:14-22 | Every character of a string, escaped or not, reads back by section 7 of RFC 8259. |
| Credential.SignedVerifies | packages/core/src/credential.ts:25-62 | A signed credential verifies under the issuer's key alone, and exactly if it had no top-level proof before. |
| Credential.ProofFitsOneDocument | packages/core/src/credential.ts:46-62 | A proof that verifies goes on verifying after the claims change exactly if they are still the same value. |
| Credential.VerifiedMeansSigned | packages/core/src/credential.ts:46-62 | A credential verifies exactly when its proof is three parts: a header, the canonical claims and the key holder's signature over both (section 7.1 of RFC 7515). |
| Credential.SignedNamesIssuer | packages/core/src/credential.ts:25-44 | A fresh proof opens with a header that a JSON reader takes for the algorithm and the issuer's identifier. |
| RoomText.Parse | apps/macos/Prata/Services/RandevuClient.swift:30-70 | The line loop returns what the line-by-line reading of the text yields: messages, cursor and pause flag. |
| RoomReading.ReadingMeans | apps/macos/Prata/Services/RandevuClient.swift:30-70 | Any text reads as one message per header line with the plain lines up to the next header, pause or cursor; it awaits a human exactly if a line is a pause; its cursor is the last one printed or the fallback, but not behind the last message. |
| RoomReading.HeaderMeans | apps/macos/Prata/Services/RandevuClient.swift:26-83 | A line is a header exactly if it is a hash, digits, blanks, a name, perhaps a parenthesised type behind blanks, and a colon. |
| RoomReading.HeaderIsSpelled | apps/macos/Prata/Services/RandevuClient.swift:26-83 | Number, name, type and text read from a header are spelled on the line in this order, with one blank after the colon dropped. |
| RoomReading.CursorMeans | apps/macos/Prata/Services/RandevuClient.swift:85-89 | A line holds a cursor exactly if it is the word with a colon and a signed numeral, with blanks around either. |
| RoomReading.MinutesAreNearest | apps/mcp/src/lib.ts:15-24 | The pause note rounds the announced seconds to the nearest minute and never to none. |
| RoomHeader.HeaderReadsBack | apps/macos/Prata/Services/RandevuClient.swift:26-83 | A printed header opens its own message exactly when the name is not empty, the type has no closing parenthesis and no earlier place on the line can end a name. |
| RoomHeader.PlainNameIsSafe | apps/macos/Prata/Services/RandevuClient.swift:26-83 | Names without colon, opening parenthesis or outer blanks are always read back. |
| RoomHeader.UnclosedNameIsUnsafe | apps/macos/Prata/Services/RandevuClient.swift:26-83 | A parenthesis left open after a blank in a name swallows the printed type. |
| RoomRoundTrip.ReplyReadsBack | apps/mcp/src/index.ts:222-252 | Parsing a printed reply returns the same messages, cursor and pause flag exactly when every header is safe and no later text line looks like a header, a pause or a cursor. |
| RoomRoundTrip.PlainMessageIsClean | apps/mcp/src/index.ts:222-252 | Plain names and texts without such lines meet that condition. |
| RoomRoundTrip.PauseIsOneLine | apps/mcp/src/lib.ts:15-24 | The pause note is one line that the parser takes for a pause and for nothing else. |
| Room.RoomRangeRead | apps/mcp/src/room.ts:89-102 | The room's nine-digit range read finds everything after every cursor exactly below a thousand million messages. |
| RoomStore.ListingIsReceived | apps/mcp/src/room.ts:89-102 | Listing the room's store from the padded cursor key, filtering and sorting gives exactly that range read of the log. |
| RoomStore.HostedRoom.constructor | apps/mcp/src/room.ts:21-23 | A room over an empty store has an empty log. |
| RoomStore.HostedRoom.Send | apps/mcp/src/room.ts:74-87 | A send appends the message under the next number. |
| RoomStore.HostedRoom.Receive | apps/mcp/src/room.ts:89-102 | A receive returns the messages past the cursor, ascending, and the number of the last one as the new cursor. |
| Room.PollingIsLossless | apps/mcp/src/room.ts:89-102 | A reader that polls with the returned cursor collects every message once, in order, whenever it polls. |
| Invite.InviteRoundTrip | packages/core/src/invite.ts:15-35 | Parsing an encoded invite returns it exactly when the token does not end in white space. |
| Invite.ParsedInviteEncodes | packages/core/src/invite.ts:25-35 | Whatever parses was a valid invite, and encoding it gives back the trimmed input. |
| InviteShapes.SpacesCompare | packages/core/src/invite.ts:26 | The white space trimmed from invites is that of the room reader, but for the next-line mark and the byte order mark. |
| InviteShapes.EncodesWhen | packages/core/src/invite.ts:15-22 | An invite is encoded exactly if all three fields are there and free of colons, and the first that is not is named. |
| InviteShapes.ParsesWhen | packages/core/src/invite.ts:25-35 | A text is read as an invite exactly if it is that invite's text with white space around it. |
| InviteShapes.EncodesLinkWhen | packages/core/src/invite.ts:53-70 | A link is made exactly from a session id without slash, question or hash mark, fingerprint and token without dot, and an address that starts with an http origin. |
| InviteShapes.LinkParsesWhen | packages/core/src/invite.ts:73-91 | A text is read as a join link exactly if, white space aside, it spells that link's origin, escaped session id, fingerprint, token and escaped kind. |
| Invite.LinkRoundTrip | packages/core/src/invite.ts:53-91 | Parsing an encoded link returns the relay origin, the invite and the kind exactly when the session id has no percent sign, fingerprint and token have no line break, and a bare token does not end in white space. |
| Invite.OriginIsStable | packages/core/src/invite.ts:64-65 | The origin kept in a link is its own origin and a prefix of the relay address. |
| Uri.DecodeUndoesEncode | packages/core/src/invite.ts:66-88 | Percent-encoding, with UTF-8 underneath, is inverted for every string (section 2.1 of RFC 3986). |
| Uri.DecodesToItself | packages/core/src/invite.ts:80-88 | Decoding leaves exactly the strings without a percent sign alone. |
| Uri.CharSpelled | packages/core/src/invite.ts:66 | Exactly letters, digits and nine marks stand for themselves; any other character becomes one upper-case escape for each octet of its UTF-8 form (sections 2.1 and 2.3 of RFC 3986). |
| Unicode.OctetsInjective | packages/core/src/sas.ts:24 | Strings with the same UTF-8 octets are the same. |
| Sas.CompareBytes | packages/core/src/sas.ts:4-11 | The comparator's sign is the lexicographic order and it is zero for equal keys only. |
| Sas.NotAfterIsOrder | packages/core/src/sas.ts:4-11 | That order is total, transitive and antisymmetric. |
| Sas.WordIsBigEndian | packages/core/src/sas.ts:25 | The shifted and or-ed word is the big-endian value of the first four digest bytes. |
| Sas.SasIgnoresOrder | packages/core/src/sas.ts:20-27 | The string is the same for every order of the members' keys. |
| Sas.SasIsNumber | packages/core/src/sas.ts:20-27 | The string has the requested number of digits, cut off to a whole number from one to nine, and denotes the leading 32 bits, modulo that power of ten, of the digest of the tagged session id and the keys in ascending order. |
| Sas.DigestBinds | packages/core/src/sas.ts:20-27 | Two parties that see equally many members digest the same octets exactly when session and keys agree, each key equally often: one substituted key changes the digest's input. |

## Left out

- Real cryptography, key stores and DID encodings: treated symbolically; a fingerprint is an injective name of its key.
- Runs against a dishonest relay: what a client makes of each of its answers is stated (`AnyRelay`), what a whole run against it keeps is not; nor is confidentiality.
- Sender and caller: the relay checks that a message's sender is a member, not that it is the authenticated caller, and the model claims no more.
- The manual `establishGroupKey` and `syncGroupKey`: the key results are about the `ensureKeys` path.
- Runs start from honest invites, which name the session's creator; a member that joins again, or a second creation by the same client, is not a step.
- Overlapping calls on one client, several sessions in one client, lost responses and retries.
- Local.RandevuLocal.Pull: one relay answer at a time; the network request between two methods is a step of the run instead.
- LongPoll.EveryRunKeepsInv: the poll loop is a state machine over reads, decisions, wakes and timers; fairness and liveness are not stated.
- Waiters.WaiterList.Wait: promises are history entries; how the host schedules callbacks is not modelled.
- Dispatch.DispatchSession: a body has every field its path reads; a missing body or field, which ends in a 500, is not modelled. Nor are fractional or non-numeric query values.
- Dispatch.Authenticate: a stored member key is decodable hex.
- Transcript.VerifyTranscript: a bundle's lists are present and its sequence numbers and epochs are integers; upper-case hex is not told apart from lower-case.
- RoomText.Parse: grapheme clusters are single characters, and sequence numbers and cursors are unbounded integers.
- CanonicalJson.CanonicalTextIsValue: numbers are their printed tokens, characters beyond the basic multilingual plane and lone surrogates are not modelled, nor are `undefined` values.
- Uri.DecodeUndoesEncode: strings are sequences of Unicode scalar values, so lone surrogates, on which encoding throws, do not occur.
- Sas.SasIsNumber: the digest is any function to 32 bytes.
- RoomStore.HostedRoom.Send: opening and joining a room, its members and roles, and the time stamp of a message; the store is the in-memory one of the relay.
- HonestTranscript.CreatorExport: the creator's export only; a member that skipped an epoch can export a transcript that does not fully decrypt.
- Durable Object storage, HTTP and its framing, MCP tool glue, command line, tunnel, email, landing pages, room kinds and roles, and all user-interface code.
