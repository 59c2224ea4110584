# Avalanche: protocols, codecs and client state, verified

This project is a Dafny model of the parts of the Avalanche messenger in which an ordinary mistake would
lose a message, a read mark, an identity or a reaction: the Rust core's background loops and codecs, the
desktop client's state and the iOS notification extension.

Three kinds of module:

* **Protocols.** `PlcDirectory`, `ReadSync`, `MarkRead`, `Conversations`, `Notifications`,
  `MessageIntake`, `GroupSubscription` and `Reconnect` each give a pure state machine (`State`, `Event`,
  `Step`, `Run`) with one event for every stretch between two points at which another thread, the
  network or a crash may change what follows, an inductive invariant, and theorems over all event lists.
  An event that cannot happen in a state changes nothing, so every list is a run. Beside the machine
  stands the code: a class with the program's own fields, whose methods are proved to move the machine by
  exactly the events they stand for, and to do to their fields what is promised of them, said once more
  without the machine.
* **Codecs and arithmetic.** `Rfc4648` does base32 and base64url on real bits (sections 6, 5 and 3.5 of
  RFC 4648); on it rest `PairingCode`, `PlcIdentifiers` and the group ids of `ReadMarks`. `Attachments`
  does PKCS#7 (section 6.3 of RFC 5652) and CBC (section 6.2 of NIST SP 800-38A) byte by byte, `Buckets`
  the geometric padding, `LinkText` the link splitter over UTF-16 code units.
* **Client state.** `Reactions` (an array against a map), `DeliveryStatus` (receipts against a maximum),
  `RecoveryBlob` and `FirstSeenOrder` (an interned table against first-appearance order), `Inbox` (one
  merged load).

Hash, MAC, signature, block cipher, AES-GCM, CBOR and protobuf are function-valued parameters. What is
assumed of them is a named predicate: decryption inverts encryption (`IsCipher`, `RoundTrips`), and the
hash tells one identity's own operations apart (`NoCollision`, over a finite set of keys). Nothing is
assumed of the hash elsewhere.

## Where the code and its comments part

* `messaging.rs:1797-1800` calls a failed store write the one unavoidable loss window. There are others: a
  crash between the decryption, which uses up the key for good, and the save; the same inside a retry; the
  pruning of old rows; a sender key installed from a later iteration; and an ack sent after a fault that was
  not the message's. `LostExactly` gives them all, and `CrashLosesOpened` to `FaultLoses` a run for each.
* `connection.rs:229-233` says the subscription is kept in sync as groups are joined and left. Joining by
  link, rotating a pseudonym, deletion by storage sync and a join that fails halfway signal nothing, and
  leaving keeps the pseudonym. `SettledIsSubscribed` has the exact condition, `LinkJoinIsMissed` and
  `RotationAndDeletionAreMissed` the failing families, `ReconnectRepairs` the end of it.
* `connection.rs:51-53` promises that the process never sits suspended with a live connection. Backgrounding
  between the check and the assignment does that: `RacingAdoption`, with `BackgroundAdoptsOnlyTheRace` for
  exactly when.
* `createEventLoops.ts:431-433` says that receipts only move a message forward. A `failed` receipt lowers a
  `sent` message, and a later receipt lifts a `failed` one, so order matters: `ReceiptsAreOrderFree` says
  exactly when it does not.
* `connection.rs:217-221` says the loop parks after closing for background. It first publishes
  `Reconnecting` and waits out a backoff; `Reconnect` follows the code.
* `read_sync.rs:42-43` calls the two id mappings inverse. They are, with one exception: a DM with an empty
  peer has no mark (`MarkNamesItsConversation`).

## Model

| member | source | states |
|---|---|---|
| Rfc4648.EncodeThenDecode | core/crates/app-core/src/provisioning.rs:138-140 | unpadded base64url and base32: decoding an encoding gives the bytes back, for every byte string |
| Rfc4648.DecodeThenEncode | core/crates/app-core/src/provisioning.rs:154-165 | the decoder is strict: a string it accepts is the encoding of what it returned, leftover bits included |
| Rfc4648.EncodeInjective | core/crates/app-core/src/plc.rs:253-257 | distinct byte strings have distinct encodings |
| Rfc4648.RegroupThenRestore | core/crates/app-core/src/plc.rs:253-256 | regrouping bytes into 5- or 6-bit digits with zero fill loses nothing |
| Rfc4648.RestoreThenRegroup | core/crates/app-core/src/provisioning.rs:154-165 | digits that restore to bytes are the digits those bytes regroup to |
| Rfc4648.EncodesBitByBit | core/crates/app-core/src/plc.rs:253-257 | each character stands for 5 or 6 bits in the alphabet of the RFC, and every bit of every character is the bit of the byte at the same place, or zero behind the last byte |
| Rfc4648.EncodedLengths | core/crates/app-core/src/provisioning.rs:138-140 | there are just as many characters as it takes to hold the bits |
| PairingCode.EncodeThenDecodeCode | core/crates/app-core/src/provisioning.rs:132-165 | a pairing string with any whitespace around it decodes to its code |
| PairingCode.CodeText | core/crates/app-core/src/provisioning.rs:132-142 | the text is av1 and the base64url of mailbox URL, session id and key, in this order, joined by dots |
| PairingCode.DecodeThenEncodeCode | core/crates/app-core/src/provisioning.rs:146-165 | an accepted string, trimmed, is the one spelling of its code |
| PairingCode.DecodesExactly | core/crates/app-core/src/provisioning.rs:144-165 | decode returns a code if and only if the string is that code's encoding with whitespace around it |
| PairingCode.ShapeRefused | core/crates/app-core/src/provisioning.rs:146-150 | a text is refused for its shape exactly when, trimmed, it does not have three dots or does not begin with av1. |
| PairingCode.JoinThenSplit | core/crates/app-core/src/provisioning.rs:135-147 | fields without a dot are found again by splitting at the dots |
| PairingCode.SplitThenJoin | core/crates/app-core/src/provisioning.rs:147-147 | splitting at the dots loses nothing |
| PairingCode.TrimSurrounded | core/crates/app-core/src/provisioning.rs:147-147 | trimming takes off surrounding whitespace and nothing else |
| PlcIdentifiers.CidPrefix | core/crates/app-core/src/plc.rs:239-258 | every CID has 59 characters and starts with bafyrei |
| PlcIdentifiers.CidCarriesHash | core/crates/app-core/src/plc.rs:245-258 | the CID after its b decodes to the four header bytes and the hash |
| PlcIdentifiers.CidInjective | core/crates/app-core/src/plc.rs:245-258 | two hashes have the same CID only if they are equal |
| PlcIdentifiers.EncodedLength | core/crates/app-core/src/plc.rs:253-256 | n bytes take the ceiling of 8n/5 base32 characters |
| PlcIdentifiers.FrontEncodesAlone | core/crates/app-core/src/plc.rs:304-306 | a front that fills whole digits is encoded independently of what follows |
| PlcIdentifiers.DidIsEncodedFront | core/crates/app-core/src/plc.rs:300-307 | the DID's 24 characters are the encoding of the hash's first 15 bytes and decode to them |
| PlcIdentifiers.DidSeparates | core/crates/app-core/src/plc.rs:300-307 | two hashes have the same DID if and only if they agree on the first 15 bytes |
| PlcDirectory.AcceptedExtendsChain | core/crates/app-core/src/plc.rs:172-237 | a directory that takes an operation only on its tip's CID takes only the next operation of the signup chain |
| PlcDirectory.StepKeepsInv | core/crates/app-core/src/plc.rs:337-421 | every fetch, decision, post, late or repeated arrival, lost reply and crash keeps the log a chain and every attempt consistent with it |
| PlcDirectory.RunKeepsInv | core/crates/app-core/src/plc.rs:337-421 | the same over every run, and the log only grows |
| PlcDirectory.EveryRunKeepsTheChain | core/crates/app-core/src/plc.rs:337-394 | however many attempts run with whatever faults: the log is a prefix of genesis, update; an attempt that finished finds exactly its own two operations; a complete log never changes |
| PlcDirectory.EveryRunPublishesTheKeys | core/crates/app-core/src/plc.rs:172-237 | in every run both operations name the rotation key as the only one in control and the homeserver as endpoint and are signed over themselves; the first publishes no key, the second one attempt's identity key and the first one's CID; an attempt that finished finds its own identity key published |
| PlcDirectory.ForeignUpdateNeverFinishes | core/crates/app-core/src/plc.rs:345-362 | with a complete log, no attempt with another identity key can finish, and the log stays |
| PlcDirectory.EnsuredIsSubmission | core/crates/app-core/src/plc.rs:326-376 | one call of ensure_op_submitted, under every fault, is a submission of the machine |
| PlcDirectory.UndisturbedAttempt | core/crates/app-core/src/plc.rs:326-376 | resumption: from whatever earlier attempts left, an undisturbed attempt succeeds if and only if the directory is not complete with another key |
| PlcDirectory.Directory.SubmitOpInner | core/crates/app-core/src/plc.rs:396-421 | the log gains the operation exactly when it arrives and fits the tip; Ok exactly when it was also answered |
| PlcDirectory.Directory.EnsureOpSubmitted | core/crates/app-core/src/plc.rs:337-376 | skip, refuse or post, with the new log and the outcome for every fault, each spelled out from the log as it was |
| PlcDirectory.Directory.SignUp | core/crates/app-core/src/lib.rs:4710-4715 | genesis at 0, then the update at 1, stopping at the first error; a signup that succeeds on an empty directory leaves the rotation key in control in both operations, the identity key published as the device's in the second, and the second naming the first |
| ReadMarks.MarkNamesItsConversation | core/crates/app-core/src/read_sync.rs:42-68 | a conversation id has a given mark if and only if the receiver maps the mark's target back to it, the empty peer excepted; that id is dm-, my DID, dash, peer, or group- and the base64url of the group's bytes |
| ReadMarks.ApplyTwice | core/crates/app-core/src/messaging.rs:2243-2267 | applying two sets of marks is applying their union, so a repeated delivery changes nothing |
| ReadMarks.ApplyEachReads | core/crates/store/src/messages.rs:517-542 | marks applied one by one in any order read exactly the rows some mark covers |
| ReadSync.BuiltCarries | core/crates/app-core/src/read_sync.rs:70-85 | the wire carries exactly the mappable drained marks, each at its own level |
| ReadSync.StepKeepsInv | core/crates/app-core/src/read_sync.rs:37-146 | every queueing, drain, success, failure (also one that went out), merge-back and delivery conserves every conversation's level |
| ReadSync.EveryRunConserves | core/crates/app-core/src/read_sync.rs:106-146 | over every run, max(pending, in flight, on the server, delivered) is the highest mark queued, nothing unmappable is sent, and the delay is min(5 * 2^k, 300) s after k failures |
| ReadSync.QuietDeviceIsExact | core/crates/app-core/src/read_sync.rs:106-146 | once all is sent and delivered, the other device has read exactly what applying every queued mark in any order would read |
| ReadSync.ReadSyncTask.Merge | core/crates/app-core/src/read_sync.rs:37-40 | the pending map keeps the higher mark of the conversation and every other entry |
| ReadSync.ReadSyncTask.QueueReadSync | core/crates/app-core/src/lib.rs:1542-1552 | queueing merges, except for local identities and negative times |
| ReadSync.ReadSyncTask.MergeBack | core/crates/app-core/src/read_sync.rs:134-139 | merging failed marks back in any order loses no level, of the marks or of what was queued meanwhile, and invents none |
| ReadSync.ReadSyncTask.SendReadMarks | core/crates/app-core/src/read_sync.rs:89-104 | ok exactly when the send was accepted or no mark can be mapped at all |
| ReadSync.ReadSyncTask.QueueMeanwhile | core/crates/app-core/src/lib.rs:1542-1552 | what other threads queue while a send is in progress is pending at its level or higher, and nothing else is |
| ReadSync.ReadSyncTask.Settle | core/crates/app-core/src/read_sync.rs:131-145 | a failed send puts every mark back at its level or higher and doubles the delay up to 300 s, any other resets it to 5 s; nothing pending is lost and nothing invented |
| ReadSync.OutcomeInMailbox | core/crates/app-core/src/read_sync.rs:89-104 | a send that failed before the server leaves the server's mailbox as it was; any other puts every mappable mark into it at its level |
| ReadSync.ReadSyncTask.Pass | core/crates/app-core/src/read_sync.rs:123-145 | one pass with marks queued while it sends: if the send failed every drained mark is pending again at its level or higher and the delay is doubled up to 300 s, otherwise the delay is 5 s and only what was queued meanwhile is pending; the server has every mappable drained level unless the send failed before reaching it; all this being the machine's drain, send and backoff |
| MarkRead.Messaging.MarkAllMessagesRead | desktop/src/state/createMessaging.ts:327-388 | afterwards no message of the conversation is unread, and nothing but the read time of those that were has changed; their sent-at times, and no others, are acknowledged; the threshold persisted is the clock or the latest of them |
| MarkRead.UnreadAreListed | desktop/src/state/createMessaging.ts:340-348 | every message that flips is in the list the threshold is taken from |
| MarkRead.ListedAreUnread | desktop/src/state/createMessaging.ts:340-348 | the acknowledged times are exactly those of the unread messages of others |
| MarkRead.ThresholdCovers | desktop/src/state/createMessaging.ts:351-359 | the threshold is at or above the clock and every message that flips |
| MarkRead.FlippedReachesOtherDevice | desktop/src/state/createMessaging.ts:336-364 | from the UI to the other device: a message that opening the conversation flips and that is stored, read or not, is read there once the queue is quiet, whatever the clocks said and whatever else happened, or that device itself sent a mark covering it |
| MarkRead.ReadRowsReachOtherDevice | core/crates/store/src/messages.rs:517-542 | in every run of this device, a row read here is read there once the queue is quiet, or another device sent a mark covering it |
| MarkRead.DeviceStepKeepsInv | core/crates/app-core/src/lib.rs:3137-3152 | storing, opening, inbound marks and every step of the sender keep each read row covered by a queued or an inbound mark |
| MarkRead.InboundQueuesNothing | core/crates/app-core/src/messaging.rs:2243-2267 | the second case is real: a row read here by another device's mark is queued nowhere, and opening the conversation queues nothing either |
| MarkRead.OpeningReachesExactly | core/crates/app-core/src/lib.rs:3137-3152 | opening a conversation leaves another device's message read if and only if it was read, some stored row here up to the threshold was still unread and the threshold covers it, or another queued mark covers it |
| MarkRead.QuietReads | core/crates/app-core/src/read_sync.rs:106-146 | a quiet run has read on the other device exactly what its queued marks cover |
| Conversations.StepKeepsTiming | desktop/src/state/createConversations.ts:303-317 | every event keeps loads from overlapping and each load justified by a newer request |
| Conversations.StepKeepsRows | desktop/src/state/createConversations.ts:260-272 | every event keeps ids unique and every row's id, kind and account consistent |
| Conversations.EveryRun | desktop/src/state/createConversations.ts:298-380 | in every run: at most one load; once none is in flight every request was followed by a load that began no earlier; each load answers a request newer than the load before; no conversation twice |
| Conversations.OneFollowUp | desktop/src/state/createConversations.ts:309-315 | a load that ends starts one more if somebody asked since it began, else none |
| Conversations.ArrivalIsExact | desktop/src/state/createConversations.ts:260-272 | a completed load keeps every other row if and only if it is still pending, lists exactly the stores' ids and the pending ones, clears the persisted from pending, newest first |
| Conversations.LeftGroupStays | desktop/src/state/createGroupsAndSafety.ts:107-112 | a group that was left keeps its row through the next load although no store reports it |
| Conversations.ConversationList.ReloadConversations | desktop/src/state/createConversations.ts:303-317 | a request while a load runs only marks one owed; else it starts a load, emptying the list when nobody is signed in |
| Conversations.ConversationList.LoadSettled | desktop/src/state/createConversations.ts:309-315 | the end of a load frees the slot, and takes it again at once exactly when a load was owed, which then is owed no more |
| Conversations.ConversationList.AddRows | desktop/src/state/createConversations.ts:200-257 | one account's summaries in order, groups already seen skipped: every row added has the id, date, kind and recipient of a summary of this account, and this account |
| Conversations.ConversationList.BuildRows | desktop/src/state/createConversations.ts:194-258 | the rows are, in the order of accounts and summaries, those of the summaries that are no group or the first to report theirs, each with that account and that summary's id and date |
| Conversations.ConversationList.ForgetPersisted | desktop/src/state/createConversations.ts:260-263 | exactly the reported ids leave pending |
| Conversations.ConversationList.FinishLoad | desktop/src/state/createConversations.ts:194-272 | the list becomes the rows of the summaries and the old rows that no store reports and that are still pending, those in their order, the whole newest first by the summaries' dates with equal dates in order; the reported ids leave pending |
| Conversations.ConversationList.LeaveGroup | desktop/src/state/createGroupsAndSafety.ts:95-112 | exactly the group that was left becomes pending |
| Conversations.ConversationList.FindOrCreateDMConversation | desktop/src/state/createConversations.ts:319-354 | the existing row of that account and recipient with nothing changed, or a new undated row at the end under the id of both, and pending |
| Conversations.ConversationList.FindOrCreateGroupConversation | desktop/src/state/createConversations.ts:356-380 | the existing row of that group id with nothing changed, or a new undated row at the end, and pending |
| Conversations.ConversationList.HandleIncomingMessage | desktop/src/state/createEventLoops.ts:361-413 | an inbound message dates the first row of its conversation and changes nothing else, or puts a new dated row in front and makes it pending |
| Inbox.MergeIsExact | desktop/src/state/createConversations.ts:260-272 | the merged list holds the stores' rows and exactly the pending rows they lack, no id twice, newest first |
| Inbox.MergedIds | desktop/src/state/createConversations.ts:260-272 | the ids listed are the stores' ids and the pending rows' ids |
| Inbox.MergeSpelledOut | desktop/src/state/createConversations.ts:264-271 | the rows held in memory are exactly the unreported pending ones in their order, and the whole is sorted by date with equal dates in order |
| Inbox.DmIdTellsAccount | desktop/src/state/createConversations.ts:161-165 | DM ids of distinct accounts or peers differ, and none is a group id |
| Inbox.KeptUnique | desktop/src/state/createConversations.ts:200-204 | deduplicating groups leaves every id once |
| Inbox.KeptRows | desktop/src/state/createConversations.ts:194-258 | what deduplication keeps, from the summaries alone: one row for each summary that is no group or the first to report its group, in their order |
| Inbox.KeptAtPlaces | desktop/src/state/createConversations.ts:200-204 | the rows kept are, in order, those of exactly the entries whose group no earlier entry surfaced |
| Inbox.RowOfSpelledOut | desktop/src/state/createConversations.ts:206-257 | a row has its summary's id and date, its account, and as recipient what follows dm-, account and dash, or none for a group |
| Inbox.FirstAccountOwns | desktop/src/state/createConversations.ts:161-165 | a shared group's row has the account and the date of the first summary that reports it |
| Inbox.SortSorts | desktop/src/state/createConversations.ts:269-271 | the sort permutes the rows and puts them newest first |
| Inbox.SortIsStable | desktop/src/state/createConversations.ts:269-271 | rows of one date keep their order |
| Notifications.StepKeepsInv | mobile/ios/NotificationServiceExtension/NotificationService.swift:51-116 | every step of a push, its run and its expiry keeps tickets ordered, the queue faithful, one worker, and each handler in one place |
| Notifications.QuietIsCovered | mobile/ios/NotificationServiceExtension/NotificationService.swift:86-116 | once quiet, one run that passed the staleness check began after every push took its ticket, and each push was completed exactly once |
| Notifications.NeverTwice | mobile/ios/NotificationServiceExtension/NotificationService.swift:227-235 | at no time is a handler called twice or held by two threads |
| Notifications.AtMostOneBanner | mobile/ios/NotificationServiceExtension/NotificationService.swift:71-77 | in every run of the process no two pushes are completed with the locked-phone banner |
| Notifications.FetchOutcome | mobile/ios/NotificationServiceExtension/NotificationService.swift:109-211 | what an uninterrupted run completes its push with: the rewritten message if it brought one, the locked banner if it claimed it, and the best attempt otherwise |
| Notifications.SharedState.NextTicket | mobile/ios/NotificationServiceExtension/NotificationService.swift:60-64 | the generation goes up by one and is the ticket |
| Notifications.SharedState.ClaimLockedBanner | mobile/ios/NotificationServiceExtension/NotificationService.swift:71-77 | true for the first caller only |
| Notifications.NotificationService.Finish | mobile/ios/NotificationServiceExtension/NotificationService.swift:227-235 | the handler is called once if it was still there, and is gone afterwards |
| Notifications.NotificationService.ServiceExtensionTimeWillExpire | mobile/ios/NotificationServiceExtension/NotificationService.swift:99-107 | the handler, if it was there, is called with the best attempt, once |
| Notifications.NotificationService.RunFetch | mobile/ios/NotificationServiceExtension/NotificationService.swift:109-225 | with the handler there exactly one content is delivered: the old best attempt if the ticket is stale or there is no key, container or news, the rewritten one for messages, the locked banner for the first locked run and the old best attempt for later ones; without the handler, none |
| MessageIntake.StepKeepsInv | core/crates/app-core/src/connection.rs:240-388 | every delivery, decryption, buffering, pruning, save, ack, lost ack, disconnect, crash, key and retry step keeps a message opened once and acked only when dealt with |
| MessageIntake.LostExactly | core/crates/app-core/src/connection.rs:240-388 | over every run, a message that was accepted and opens is lost if and only if some event of the run was a cause in the state it met: the process or a write failing with it in hand, a key installed from a later iteration, or the end of its last sealed copy |
| MessageIntake.LostMeansNeverStored | core/crates/app-core/src/messaging.rs:1797-1800 | a message is lost if and only if no course of events whatever can still store it; else there is one that does |
| MessageIntake.LossesHaveCauses | core/crates/app-core/src/messaging.rs:538-573 | an event loses a message exactly when it is one of the causes |
| MessageIntake.LostForGood | core/crates/app-core/src/connection.rs:254-268 | a lost message is never stored, whatever is redelivered, retried or installed |
| MessageIntake.LostIsOnRecord | core/crates/app-core/src/groups.rs:2175-2212 | a lost message was opened and not stored, passed by its key, or handled under a fault or pruned |
| MessageIntake.SafeRunLosesNothing | core/crates/app-core/src/connection.rs:272-282 | with no fault, no pruning, keys that cover their chains and no crash with a message in hand, every message that opens is stored, in hand, or sealed and unspent on the server or in the buffer, whatever other crashes, lost acks and redeliveries happen |
| MessageIntake.OpenedIsKept | core/crates/app-core/src/messaging.rs:1919-1953 | unless the process dies or a write fails with a message in hand, every message once opened, on delivery or in a retry, is stored or in hand |
| MessageIntake.DrainedStoreIsExact | core/crates/app-core/src/connection.rs:272-282 | with nothing left on the server, in the buffer or under way, the store is exactly the messages that open and met no cause |
| MessageIntake.StoredStays | core/crates/app-core/src/connection.rs:272-282 | what is stored is never lost |
| MessageIntake.CrashLosesOpened | core/crates/app-core/src/connection.rs:254-278 | for every message that opens there is a run, from nothing, that loses it to a crash between its decryption and its save, with the server still holding it |
| MessageIntake.CrashLosesInRetry | core/crates/app-core/src/messaging.rs:538-556 | for every group message that opens there is a run that loses it to a crash inside the retry, before or after its row is deleted |
| MessageIntake.PruningLoses | core/crates/app-core/src/groups.rs:2186-2212 | for every two group messages that open there is a run in which buffering one prunes and loses the other |
| MessageIntake.LateKeyLoses | core/crates/app-core/src/messaging.rs:564-573 | for every group message that opens there is a run in which its key comes from a later iteration and loses it |
| MessageIntake.FaultLoses | core/crates/app-core/src/connection.rs:357-388 | for every message that opens there is a run that loses it to a fault not its own and the ack that follows |
| MessageIntake.Receiver.Open | core/crates/app-core/src/messaging.rs:1601-1607 | a message opens at most once, and opening it uses up its key even when the caller then fails |
| MessageIntake.Receiver.BufferUndecryptable | core/crates/app-core/src/groups.rs:2186-2212 | a successful insertion adds the row and takes the aged ones |
| MessageIntake.Receiver.RetryRow | core/crates/app-core/src/messaging.rs:538-580 | one buffered row is opened, kept for storing and deleted; deleted unopened only when its key has passed it or it was opened before; and left while its key is missing |
| MessageIntake.Receiver.RetryPending | core/crates/app-core/src/messaging.rs:521-583 | a retry returns exactly the sender's rows that open now and deletes exactly those and the duplicates |
| MessageIntake.Receiver.StoreRecovered | core/crates/app-core/src/messaging.rs:1951-1953 | what a retry gave is stored one by one |
| MessageIntake.Receiver.HandleSenderKey | core/crates/app-core/src/messaging.rs:1919-1953 | an arriving key is installed once; every buffered row of that sender that opens under the keys then held and whose save succeeds is stored and leaves the buffer, and rows whose key is missing stay |
| MessageIntake.Receiver.HandleDirectMessage | core/crates/app-core/src/connection.rs:240-282 | a message that opens, is new, meets no fault and is saved is stored, before the ack; nothing else changes the store; what is acked is stored, does not open, was opened before, met a fault or could not be saved |
| MessageIntake.Receiver.HandleGroupMessage | core/crates/app-core/src/connection.rs:340-388 | a message whose key is at hand is opened and, if saved, stored; one whose key is not is buffered with the aged rows pruned, unless a fault stops it; the ack comes last, for every fault |
| GroupSubscription.StepKeepsInv | core/crates/app-core/src/connection.rs:146-174 | every signalled or unsignalled change, direct or stale subscription, signal and reconnect leaves the server in step up to the unsignalled changes, or a correction on its way |
| GroupSubscription.SettledIsSubscribed | core/crates/app-core/src/connection.rs:146-174 | once settled, every local pseudonym is subscribed if and only if no unsignalled addition since the last frame stands; the sets are equal if and only if besides no unsignalled removal took a subscribed one and the local set is not empty or no frame was sent |
| GroupSubscription.SignalledChangesSettle | core/crates/app-core/src/connection.rs:229-239 | when every change is signalled, every local pseudonym is subscribed once settled, and only an emptied local set differs |
| GroupSubscription.SignalledJoinIsSubscribed | core/crates/app-core/src/connection.rs:229-239 | a pseudonym added by a signalled change is subscribed on every settled connection from then on, whatever signalled and unsignalled changes and reconnects come between, until a change drops it |
| GroupSubscription.LinkJoinIsMissed | core/crates/app-core/src/groups.rs:2861-2881 | from every settled state, joining by link leaves the new group unsubscribed with nothing to come |
| GroupSubscription.LinkJoinHappens | core/crates/app-core/src/groups.rs:937-970 | such a state is reached on a fresh connection |
| GroupSubscription.RotationAndDeletionAreMissed | core/crates/app-core/src/groups.rs:1832-1868 | rotating leaves the old pseudonym subscribed and the new one not; a deletion by sync leaves it subscribed |
| GroupSubscription.ReconnectRepairs | core/crates/app-core/src/connection.rs:61-68 | the first frame of a new connection makes the sets agree |
| GroupSubscription.LeftGroupsStaySubscribed | core/crates/app-core/src/groups.rs:1092-1133 | over every run, the pseudonym of a group that was left stays local unless something else drops it, and once settled is subscribed if and only if it was not added unsignalled since the last frame |
| GroupSubscription.GroupStore.LeaveGroup | core/crates/app-core/src/groups.rs:1092-1133 | leaving changes the row's membership and no pseudonym |
| GroupSubscription.GroupStore.SetPushPseudonym | core/crates/store/src/groups.rs:250-268 | the group's row gets the pseudonym and no other row changes; of the local set it is the machine's unsignalled change |
| GroupSubscription.SubscribeAllGroupPseudonyms | core/crates/app-core/src/connection.rs:155-174 | one more frame that holds every stored pseudonym and nothing else, or none when there is no socket or no pseudonym |
| GroupSubscription.ReceiveLoop.GroupsChanged | core/crates/app-core/src/connection.rs:234-239 | the signal is consumed and answered with one frame of every pseudonym stored at that moment |
| Reconnect.SleepBounds | core/crates/app-core/src/connection.rs:109-112 | a sleep lies within 750 and 1250 ms per backoff second |
| Reconnect.StepKeepsInv | core/crates/app-core/src/connection.rs:23-132 | every event keeps backoff, sleep, socket and published state consistent |
| Reconnect.EveryRun | core/crates/app-core/src/connection.rs:23-132 | in every run the backoff is min(2^k, 30) where k counts, from the events alone, the backoffs waited out since the last resumption, five-second connection or wake-up; and every socket opened is adopted, closed, or between its check and its adoption |
| Reconnect.BackoffIsPower | core/crates/app-core/src/connection.rs:95-130 | from any state whose backoff is min(2^k, 30), every run leads to the min of 30 and the power that counting waits and resets along its events gives |
| Reconnect.BackgroundAdoptsOnlyTheRace | core/crates/app-core/src/connection.rs:49-60 | from backgrounding to resumption a socket is adopted if and only if one had passed the background check before and the loop went on with it, and then only that one; a parked loop stays parked |
| Reconnect.LateConnectsAreClosed | core/crates/app-core/src/connection.rs:51-57 | every connect that finishes after backgrounding is closed unadopted |
| Reconnect.RacingAdoption | core/crates/app-core/src/connection.rs:54-59 | a run that is backgrounded between the check and the assignment stands connected in the background |
| Reconnect.ReconnectLoop.CheckBackground | core/crates/app-core/src/connection.rs:30-47 | parks and publishes Disconnected in background, else publishes Connecting |
| Reconnect.ReconnectLoop.MayAdopt | core/crates/app-core/src/connection.rs:51-57 | the check: a socket may be adopted exactly when the app was not backgrounded then |
| Reconnect.ReconnectLoop.PublishConnected | core/crates/app-core/src/connection.rs:58-58 | Connected is published before the socket is assigned |
| Reconnect.ReconnectLoop.AdoptSocket | core/crates/app-core/src/connection.rs:59-59 | the assignment, whatever happened since the check |
| Reconnect.ReconnectLoop.ConnectionEnded | core/crates/app-core/src/connection.rs:85-99 | the socket goes, and the backoff is 1 after five seconds of connection and as it was after fewer |
| Reconnect.ReconnectLoop.Unparked | core/crates/app-core/src/connection.rs:39-43 | resumption sets the backoff to 1 |
| Reconnect.ReconnectLoop.Backoff | core/crates/app-core/src/connection.rs:109-130 | the sleep is the truncated jittered backoff; the backoff is doubled up to 30 when waited out and 1 when woken |
| Buckets.ExponentIsLeast | core/crates/crypto/src/attachments.rs:97-98 | the exponent is the least whose power of 1.05 reaches n |
| Buckets.PowerIsFraction | core/crates/crypto/src/attachments.rs:97-98 | the k-th power is 21^k over 20^k |
| Buckets.BucketBounds | core/crates/crypto/src/attachments.rs:92-103 | above 541 the bucket is the floor of the least power of 1.05 that reaches n, between n and 1.05 n, so the final clamp never acts |
| Buckets.PaddedSizeBounds | core/crates/crypto/src/attachments.rs:86-103 | padding never truncates, is 541 up to 541, and wastes at most five percent above |
| Buckets.PaddedSizeMonotone | core/crates/crypto/src/attachments.rs:86-103 | larger inputs never get smaller buckets |
| Buckets.PaddedSizeIdempotent | core/crates/crypto/src/attachments.rs:86-103 | a bucket size is its own bucket |
| Buckets.SameBucket | core/crates/crypto/src/attachments.rs:86-103 | two sizes share an exponent if and only if the larger fits the smaller's bucket |
| Attachments.PadThenUnpad | core/crates/crypto/src/attachments.rs:122-123 | PKCS#7 adds up to sixteen bytes, each saying how many, and unpadding takes them off again |
| Attachments.UnpadThenPad | core/crates/crypto/src/attachments.rs:177-178 | whatever unpads is the padding of the result |
| Attachments.CbcBlocks | core/crates/crypto/src/attachments.rs:122-123 | block i of a CBC ciphertext is the cipher's answer to block i of the plaintext XORed with ciphertext block i - 1, or with the IV |
| Attachments.CbcEncryptThenDecrypt | core/crates/crypto/src/attachments.rs:122-123 | CBC decryption inverts encryption on whole blocks |
| Attachments.CbcDecryptThenEncrypt | core/crates/crypto/src/attachments.rs:177-178 | and encryption inverts decryption |
| Attachments.AesCbcExact | core/crates/crypto/src/attachments.rs:177-178 | padded CBC decrypts a ciphertext to data if and only if it is that data's ciphertext |
| Attachments.CiphertextBlocks | core/crates/crypto/src/attachments.rs:122-123 | block i of an attachment's ciphertext, the same over its padded plaintext |
| Attachments.DecryptsExactly | core/crates/crypto/src/attachments.rs:145-183 | decrypt returns r if and only if the key is 64 bytes, the digest matches, the blob is the sealing of some padding under it, and r is its first plaintext_len bytes |
| Attachments.EncryptThenDecrypt | core/crates/crypto/src/attachments.rs:109-183 | for every plaintext and 64-byte key decryption gives the plaintext back |
| Attachments.BlobLength | core/crates/crypto/src/attachments.rs:109-138 | the blob's length is 16 + 16 (bucket / 16 + 1) + 32 and so depends on the bucket only |
| Attachments.ConstantTimeEq | core/crates/crypto/src/attachments.rs:194-203 | the XOR/OR loop is true exactly on equal byte strings |
| Attachments.Encrypt | core/crates/crypto/src/attachments.rs:109-138 | the blob is the IV, the CBC ciphertext of the plaintext with zeros up to its bucket under the first 32 key bytes, and the tag over both under the last 32; the digest is the hash of the blob; a key that is not 64 bytes is refused |
| Attachments.Decrypt | core/crates/crypto/src/attachments.rs:145-190 | key length, blob length 64, digest, tag, padding and plaintext length are checked in this order, each with its error, and the answer is the front of the padded plaintext |
| FirstSeenOrder.FirstSeenTable | core/crates/app-core/src/recovery.rs:237-244 | the table has no duplicates, holds exactly what was met, and has as many entries as there are distinct URLs |
| FirstSeenOrder.FirstSeenIsInOrder | core/crates/app-core/src/recovery.rs:237-248 | entries stand in order of first appearance |
| FirstSeenOrder.FirstSeenGrows | core/crates/app-core/src/recovery.rs:242-243 | later URLs only extend the table |
| FirstSeenOrder.IndexStable | core/crates/app-core/src/recovery.rs:238-243 | an index handed out stays right as the table grows |
| FirstSeenOrder.DistinctStays | core/crates/app-core/src/recovery.rs:238-244 | URLs without duplicates are their own table |
| RecoveryBlob.Interner.Intern | core/crates/app-core/src/recovery.rs:238-244 | the table becomes the first-seen table with the URL, and the index is its position in 32 bits |
| RecoveryBlob.BuildRecoveryBlob | core/crates/app-core/src/recovery.rs:229-265 | the table holds exactly the account servers and the groups' servers, none twice, the account servers first in their order; each group keeps its master key and place and has the position of its server taken modulo 2^32; the rest is copied |
| RecoveryBlob.GroupIndex | core/crates/app-core/src/recovery.rs:249-255 | a group's index is final when it is handed out |
| RecoveryBlob.TableSpelledOut | core/crates/app-core/src/recovery.rs:237-248 | the table holds exactly the servers met, none twice, and each group's position is its server's |
| RecoveryBlob.OpenedIndicesAreValid | core/crates/app-core/src/recovery.rs:88-98 | whatever bytes are opened, every index of an accepted blob is inside its table |
| RecoveryBlob.BuiltBlobComesBack | core/crates/app-core/src/recovery.rs:229-265 | a built blob passes the check and resolves every group to its own server if and only if each group's position is below the table's length in 32 bits; always below 2^32 servers |
| RecoveryBlob.CastMovesAGroup | core/crates/app-core/src/recovery.rs:238-244 | an input of 2^32 + 1 distinct URLs for which every blob built passes the check and resolves a group to another server |
| RecoveryBlob.SealedBlobOpens | core/crates/app-core/src/recovery.rs:38-100 | an encrypted blob is the byte 4, the nonce and the ciphertext, and opens to itself exactly when its indices are in range |
| RecoveryBlob.DecryptBlob | core/crates/app-core/src/recovery.rs:62-100 | a length of 29, version 4, cipher, protobuf and index checks in this order, each with its error |
| LinkText.LinkifyKeepsText | desktop/src/lib/format.ts:183-202 | the segments' texts concatenate to the body, and there is at least one |
| LinkText.LinksAreGood | desktop/src/lib/format.ts:138-202 | every link is its own href, starts with the scheme, has no whitespace or <, and ends in nothing trimmable |
| LinkText.NoUrlIsMissed | desktop/src/lib/format.ts:183-198 | wherever http:// or https:// in any case begins off a word character and something but whitespace or < follows, a link covers that position |
| LinkText.MatchBegins | desktop/src/lib/format.ts:138-138 | the pattern matches exactly where http:// or https:// in any case begins off a word character with a URL unit behind it |
| LinkText.LinksAreUrls | desktop/src/lib/format.ts:183-202 | every link is a URL of the body: it begins where one begins and ends where the run up to whitespace or < ends once trimmed as far as trimming goes |
| LinkText.TrimKeepsSlash | desktop/src/lib/format.ts:151-175 | trimming never eats into the scheme, so every match advances the scan |
| LinkText.TrimIsTrimmed | desktop/src/lib/format.ts:151-175 | trimming stops at the first end that is not trailing, and every longer front ends in something trailing |
| LinkText.TrimmableIsTrailing | desktop/src/lib/format.ts:151-175 | an end is trimmed exactly when it is sentence punctuation, a quote, or a bracket that occurs closed more often than open |
| LinkText.FirstUrlIsFirstLink | desktop/src/lib/format.ts:204-213 | the preview's URL is the first link's href, or none when there is none |
| LinkText.CountChar | desktop/src/lib/format.ts:140-144 | the loop counts the character's occurrences, as the multiset of units has them |
| LinkText.TrimTrailingPunct | desktop/src/lib/format.ts:151-175 | what is left ends in no sentence punctuation, quote or bracket closed more often than opened, and every longer front does |
| LinkText.UrlRegex.Linkify | desktop/src/lib/format.ts:183-202 | the loop computes the specified segments whatever lastIndex an earlier call left |
| LinkText.UrlRegex.FirstUrl | desktop/src/lib/format.ts:209-213 | the first match, trimmed, whatever lastIndex was |
| Reactions.FilterView | desktop/src/state/createMessaging.ts:465-472 | filtering the array is filtering the map |
| Reactions.FilterMembers | desktop/src/state/createMessaging.ts:465-472 | a filter keeps exactly the entries selected |
| Reactions.FilterKeepsOrder | desktop/src/state/createMessaging.ts:465-472 | and keeps them in their order |
| Reactions.ApplyRefines | desktop/src/state/createEventLoops.ts:542-573 | each operation on the array is the map's operation, and keys stay unique |
| Reactions.ReactionsRefineMaps | desktop/src/state/createMessaging.ts:443-573 | any sequence of inbound reactions, toggles and clears refines a map with one emoji per (author, sentAt, reactor) |
| Reactions.ToggleTwice | desktop/src/state/createMessaging.ts:461-485 | toggling an emoji twice restores the map if and only if the reactor had that emoji or none |
| Reactions.ClustersTotal | desktop/src/components/MessageBubble.tsx:59-77 | cluster counts sum to the number of reactions |
| Reactions.CountIsCardinality | desktop/src/components/MessageBubble.tsx:63-72 | a count is the number of keys with that emoji |
| Reactions.OneMine | desktop/src/components/MessageBubble.tsx:67-70 | at most one cluster of a message is marked mine |
| Reactions.ShownClusters | desktop/src/components/MessageBubble.tsx:59-77 | after any operations the clusters shown stand in the order their emojis first appear, none twice, with positive counts that are the map's and add up to the message's reactions, at most one mine |
| Reactions.ClustersShowAll | desktop/src/components/MessageBubble.tsx:59-77 | every emoji of the list has a cluster, mine exactly when one of its reactions is mine |
| Reactions.Clusters | desktop/src/components/MessageBubble.tsx:59-77 | the loop over a Map and an order array computes the clusters: every emoji of the list has one, and one is mine exactly when a reaction with it is mine |
| Reactions.ReactionStore.ApplyInboundReaction | desktop/src/state/createEventLoops.ts:542-573 | the conversation has exactly its reactions under other keys and, unless removed, the new one; other conversations stay |
| Reactions.ReactionStore.ToggleReaction | desktop/src/state/createMessaging.ts:443-486 | it is a removal exactly when I had that emoji on the message; the conversation has exactly its reactions under other keys and, unless it is a removal, the new one |
| Reactions.ReactionStore.ClearReactionsForMessage | desktop/src/state/createMessaging.ts:555-573 | exactly the reactions to that message go, and a conversation without an entry gets none |
| DeliveryStatus.ReceiptsTakeTheTop | desktop/src/state/createEventLoops.ts:434-467 | without a failure for the message, its final status is the highest-ranked of start and receipts |
| DeliveryStatus.DeliveredTakesTheTop | desktop/src/state/createEventLoops.ts:450-463 | failures and all, once anything is at least delivered the highest-ranked wins |
| DeliveryStatus.ReadReceiptWins | desktop/src/state/createEventLoops.ts:450-463 | one receipt numbered 3 and the message ends read, whatever other receipts come in whatever order |
| DeliveryStatus.DeliveryReceiptWins | desktop/src/state/createEventLoops.ts:450-463 | one receipt numbered 2 and none numbered 3, and a message not read before ends delivered |
| DeliveryStatus.TopIsUnique | desktop/src/lib/format.ts:120-128 | the rank order leaves one highest status |
| DeliveryStatus.ReceiptsAreOrderFree | desktop/src/state/createEventLoops.ts:431-467 | order and repetition of receipts do not matter if and only if no failure concerns the message, only failures do, or it is delivered anyway |
| DeliveryStatus.FailedIsOrderSensitive | desktop/src/state/createEventLoops.ts:450-458 | an example: sent and failed in the two orders |
| DeliveryStatus.DeliveredNeverDrops | desktop/src/state/createEventLoops.ts:289-467 | with failures and echoes mixed in, a delivered or read message never drops in rank |
| DeliveryStatus.OnlyFailureLowers | desktop/src/state/createEventLoops.ts:450-463 | a rank falls exactly when a failure reaches a sending or sent message |
| DeliveryStatus.MessageStore.ApplyUpdate | desktop/src/state/createEventLoops.ts:434-467 | what each receipt number makes of each status, for the messages of that time and no other |
| DeliveryStatus.MessageStore.ApplyDeliveryStatusUpdates | desktop/src/state/createEventLoops.ts:434-467 | the loop moves every loaded message of every conversation as specified and nothing else |
| DeliveryStatus.MessageStore.HandleEcho | desktop/src/state/createEventLoops.ts:289-309 | my sending or sent messages of that time become delivered under the id the server gave; all others, and other conversations, stay |

## Left out

- Cryptographic primitives, JSON, CBOR and protobuf bytes, HTTP and the WebSocket framing: parameters or nondeterministic outcomes.
- `did:key` texts (base58) and timestamps are opaque strings and numbers; the text of error messages and the probe that composes it are not modelled.
- `PlcDirectory`: the directory is one log that accepts on the tip's CID; its signature checks, its nullification window and tombstones are not modelled, and the DID is fixed.
- `MessageIntake`: a ratchet is the set of messages it has opened, so its limits on skipped messages, and sessions that are reset, are not modelled; a saved message is one write (attachments, previews and contacts are written after it, and a redelivery does not write them again); duplicate buffered rows of one message are one; bots, blocked senders, content other than text, and the HTTP pickup of `receive_messages` and `fetch_group_messages`.
- `ReadSync`: marks are in memory by design, so a run has no process exit; only inbound rows of the other device are in its history, and it is fixed while marks apply; there is one other device, whose store writes succeed, and the server keeps a message until it is delivered; a mark is a natural number, without the 63-bit bound of the store's column.
- `Reconnect`: the connect timeout is a failed dial; prekey top-up and invite titles at connect time, the suspension of the store during them, the bounded wait of `prepare_for_background`, and the elapsed clock itself, are not modelled.
- `GroupSubscription`: the server's map shared by several sockets, its draining of queued messages, and a subscribe call that fails while the socket is up are not modelled; changes and direct subscriptions are atomic because they run under the core's one lock.
- The receive loop's other arms (account joined, prekeys low, storage changed) touch none of this state.
- `Conversations`: titles, previews, unread counts, request and block flags, group title refreshes and name caches; `enterApp`'s direct load, the `hasLeft` flag (a left group's row is kept as any pending one), deletion and logout; a load with nobody signed in empties the list, pending rows too, so `ArrivalIsExact` is about loads of at least one account.
- `Inbox`: DM ids tell accounts apart when no account id continues another after a dash, which holds of `did:plc` ids; stated as `Scoped`.
- `Notifications`: what a notification says, posts of extra local notifications, and the entitlement mode that is switched off in the source; one service object per push; expiry's reading of the best attempt and its taking of the handler are one event, and as the best attempt is one mutable object its text at the call is not claimed.
- `MarkRead`: there is one other device; a `markMessagesRead` call that fails or a process that exits before the mark is sent; the unread badge and the conditions under which the receipt is sent to the peer (a request, a blocked contact, a group); the receipt's contents are there.
- `DeliveryStatus`: status writes of `sendOptimistic` and `retryMessage`, which set their status unconditionally.
- `Buckets`: floating-point rounding; the formula is read over exact reals.
- `LinkText`: Unicode case folding beyond ASCII in the pattern; the scheme's letters have no other case variants.
- `prekeys.rs`, the key stores, user-interface components and bindings.
