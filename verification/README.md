# Offline commands, journeys and contract checks

This project models three connected parts of the repository and proves what they promise.

**The offline command protocol** of the PowerSync harness (`spikes/powersync/harness/src`). The client has four durable
stores: an SDK upload queue, an application database of overlays and results, a quarantine file and a reset file. The
server holds resources, grants, replicas, receipts, change events and rate windows. Between them lie retries, lost and
late messages, revoked grants, crashes and a three-phase replica reset that a later process resumes. `ReplicaClient`
puts all of it into one state machine in which every SQLite, Postgres, SDK or atomic-rename commit is one step and a
crash may come between any two. The theorems are about every execution of that machine: at most one effect per command,
outcomes that agree with committed receipts, byte and count limits that are never exceeded, idempotent credential
rotation, a reset that accounts for every command exactly once, and, over any number of resets, no command lost.
Digests and rotated credentials are constructors, that is, injective.

**The production journey path** (`apps/web`, `apps/api`). The edits of the journey service are pure functions on data;
the server keeps tables with an immediate UNIQUE constraint on positions; the web adapter turns the difference between
two data values into requests. The main theorems say when these requests bring the server to the edited data, and that
a save that fails, for whatever reason, never leaves anything in between. The command executor is modelled with its
transaction, its receipts and a failure at any statement.

**Two contract checks**: the schema validator with its two modes and its calendar check, and the resolver of import
aliases with its bounded loop.

## Layout

| files | part |
|---|---|
| `Basics`, `Json` | collections, JSON values and their UTF-8 sizes |
| `CommandProtocol`, `RateWindow`, `ServerState`, `ServerRuns`, `ServerRetries`, `ServerEffects`, `ServerCheckpoints`, `ServerRates`, `CommandServer` | the command server: specification functions, theorems about runs, and the transactions as methods of a class |
| `Reservations`, `JsonText`, `QuarantineStore`, `ApplicationState` | the stores of the client and their accounting, down to the bytes of the texts |
| `ReplicaClient` | the joint state machine |
| `ReplicaUploads` | the steps of the client over the tables: queueing, uploads, failures, opening |
| `ReplicaSafety`, `ReplicaOutcomes`, `ReplicaAgreement`, `ReplicaWire`, `ReplicaRotation` | invariants of every execution |
| `ReplicaGoal`, `ReplicaReset`, `ReplicaRecovery`, `ReplicaRetention`, `ReplicaKeeping` | the reset: what it owes, that it pays, that it can always go on, and which payloads it keeps |
| `ReplicaConservation` | nothing is lost, over whole executions with any number of resets |
| `ReplicaAcknowledgement` | which results can still be acknowledged |
| `ReplicaLive` | a client that goes on after a failed reset or resets during an upload |
| `JourneyDomain`, `JourneyService`, `JourneyEdits`, `EditMeanings` | journey data, the reader, the edits and what each of them means |
| `JourneyDatabase`, `JourneyTables`, `JourneyRuns`, `RequestOutcomes` | the server tables, row by row and as a whole, and what each request leaves in them |
| `JourneySave`, `JourneyRefinement`, `RouteRefinement`, `SaveRefinement` | save as a diff, and what its requests do to the tables |
| `JourneyClient`, `SaveOutcomes`, `UpdateRetries`, `HttpJourneyRepository` | the client's check, lost requests and answers, receipts: what a save leads to |
| `CommandExecutor`, `UpdateOutcomes` | the journey update command |
| `SchemaValidator`, `CalendarDate` | the contract validator |
| `ImportAliases` | the import alias resolver |

## Where the code is narrower than its promise

Each of these is a lemma below, with its exact condition where there is one.

- A crash between the quarantine write and the reset file makes every later open fail when anything was pending
  (`CrashBeforeResetFile`).
- A crash between storing a result and completing the SDK transaction, followed by a reset, puts one command into both
  the results and the quarantine, and the client then fails closed (`ResultAndIntentExactly`, `BothPlacesFailsClosed`).
- A crash between completing the SDK transaction and the completion mark leaves a result that can never be acknowledged
  (`NeverAcknowledged`, `StrandedForGood`); every other unfinished result can be, if the client can be opened and the
  server repeats the outcome (`UnfinishedPlaces`, `RepeatedThenAcknowledged`, `ClosedNeverAcknowledged`).
- A client whose reset threw and that is called again in the same process can count the reset twice, and loses a command
  queued in between (`CountedTwice`, `DoubleCount`, `QueuedThenLost`). Closing and opening it again avoids both
  (`PatientAccounting`, `PatientConservation`).
- A reset begun during an upload can put one command into the results and the quarantine (`StragglerSettles`).
- An update queued with an empty payload cannot be read back from the quarantine file (`IntentReadable`,
  `UuidRetainable`), and a dropped one-byte payload raises the measured reservation by one when the bare entry is above
  the floor (`PayloadCost`).
- Acknowledging a quarantined command while intents are pending would drop them (`AcknowledgeRemoves`).
- A result of an exhausted command with long identifiers can outgrow its reservation (`ExhaustedResultFits`).
- A save succeeds exactly when client and server accept the edited data: names of more than 200 characters pass the
  service and are refused, and so is a start date in the year 50 (`SaveRefinesEdit`, `FirstCenturyRefused`).
- The reorder shift is safe for exactly up to 100,000 segments (`ShiftSafeExactly`); above that a deletion can be
  reported as failed although it is complete (`RefusedAfterDeletion`).
- The calendar check refuses the years 0 to 99 (`ValidDateExactly`).
- The alias loop comes to no rest on a name with two different assignments, on a cycle with an attribute, or on a cycle
  of three or more plain names in order (`TwiceAtRest`, `CycleNeverSettles`, `ForwardCycleExactly`).

## Model

| member | source | states |
|---|---|---|
| `ServerRuns.AtMostOneEffect` | spikes/powersync/harness/src/command-server.ts:244-397 | In every run of command batches, retries, grant and resource changes, resets and rate windows, one (user, command id) pair changes a resource row in at most one step. |
| `ServerRuns.SettledNeverApplies` | spikes/powersync/harness/src/command-server.ts:272-340 | Once a pair has any receipt (denied, conflict or applied) it never changes a row again, even if the grant returns or the epoch moves on, and the receipt stays as it is. |
| `ServerRuns.ReceiptsFinal` | spikes/powersync/harness/src/command-server.ts:284-310 | Receipts are never rewritten or dropped between any two points of a run. |
| `ServerRuns.ChangeIsRecorded` | spikes/powersync/harness/src/command-server.ts:365-388 | A row changes only in the step that first writes the applied receipt of its command. |
| `ServerRuns.RecordIsChange` | spikes/powersync/harness/src/command-server.ts:365-388 | The converse: a first applied receipt means that its row went from exactly the previous to exactly the current version of the receipt in that step. |
| `ServerRuns.RunInv` | spikes/powersync/harness/src/command-server.ts:342-389 | Every reachable server state pairs each applied receipt with exactly one change event and each denied or conflict receipt with none; incarnations are unique. |
| `ServerRuns.VersionAccounting` | spikes/powersync/harness/src/command-server.ts:364-388 | While an incarnation is present its version equals the starting version plus the number of new applied receipts for it, and its new events form an unbroken run of versions ending at the current one. |
| `ServerRetries.RetryChangesNothing` | spikes/powersync/harness/src/command-server.ts:321-340 | A batch sent a second time leaves every server table as it was; a freshly answered batch reads back with the same outcome, applied now as already applied, and rejections repeat. |
| `ServerEffects.EffectExactly` | spikes/powersync/harness/src/command-server.ts:244-397 | A batch takes effect if and only if its replica row locks and is up to date and every command is granted, meets its incarnation and version alive and has no receipt; then each row (payload, deletion, version), event, receipt, graveyard number and result is the listed one, and otherwise no row, event or graveyard number changes. |
| `ServerEffects.UngrantedIsDenied` | spikes/powersync/harness/src/command-server.ts:267-310 | If the user lacks the grant on any resource of the batch, nothing changes but at most one denied receipt for the first command, written from the request alone, and a live replica is answered with the denial. |
| `ServerEffects.ConflictExactly` | spikes/powersync/harness/src/command-server.ts:342-363 | A granted, new batch that does not fit is answered for each command with a conflict, a stale incarnation anywhere naming all of them so, with the version that was found. |
| `ServerEffects.ReplayExactly` | spikes/powersync/harness/src/command-server.ts:321-340 | A granted batch heard before changes nothing and is answered from its receipts exactly when all commands have one and every one is of this very request. |
| `ServerEffects.GateExactly` | spikes/powersync/harness/src/command-server.ts:255-319 | Exact conditions, over the tables, of the three refusals before any command is looked at: the row does not lock, the checkpoint is missing or out of date, a target is missing. |
| `ServerEffects.EveryEffectIsEntitled` | spikes/powersync/harness/src/command-server.ts:244-397 | In every run a row changes only by a command of its batch that held the grant, that incarnation and that version at that moment, and then exactly as that command says. |
| `ServerEffects.RegisterExactly` | spikes/powersync/harness/src/command-server.ts:410-423 | A user registers a new replica exactly while fewer than sixteen are registered; it starts without a checkpoint, and nothing else changes. |
| `ServerEffects.ResetExactly` | spikes/powersync/harness/src/command-server.ts:469-502 | A reset rotates exactly a session that locks and is out of date: the next epoch locks with a credential derived from this request, checkpoint and window are gone, no other row is touched; everything else leaves the tables alone. |
| `ServerEffects.ResetAckExactly` | spikes/powersync/harness/src/command-server.ts:503-515 | A reset acknowledgement succeeds exactly for the staged request or the one acknowledged last, and clears what was staged. |
| `ServerState.RefusedReceipt` | spikes/powersync/harness/src/command-server.ts:351-363 | After a refused batch each of its commands holds a conflict receipt with the expected and the found version. |
| `ServerState.AppliedReceiptAt` | spikes/powersync/harness/src/command-server.ts:365-388 | After an applied batch each of its commands holds an applied receipt from its expected version to the next one. |
| `CommandServer.CommandServer.ExecuteCommands` | spikes/powersync/harness/src/command-server.ts:244-397 | The imperative transaction ends in exactly the state and reply of the specification that the run theorems are about and that `EffectExactly`, `UngrantedIsDenied`, `ConflictExactly` and `ReplayExactly` pin down table by table, or rolls back to the old state. |
| `CommandServer.CommandServer.ApplyAll` | spikes/powersync/harness/src/command-server.ts:365-388 | The loop over the batch writes row, event and receipt of every command in order and nothing else. |
| `CommandServer.CommandServer.RefuseAll` | spikes/powersync/harness/src/command-server.ts:351-363 | The loop over a refused batch writes one conflict receipt per command and touches no row, event or replica. |
| `CommandServer.CommandServer.ConsumeCommandRateWindow` | spikes/powersync/harness/src/command-server.ts:160-197 | Only the window table changes, and exactly as one upsert of the rate-window specification. |
| `CommandServer.CommandServer.ReplicaReset` | spikes/powersync/harness/src/command-server.ts:469-502 | The reset transaction rotates epoch and credential once, or answers a repeat without changing anything, as the specification the rotation theorems use. |
| `ServerCheckpoints.EffectsNeedCheckpoint` | spikes/powersync/harness/src/command-server.ts:145-159 | In every run a command changes a row only if its replica acknowledged a challenge earlier in that run, in the very epoch the command is bound to, at most ninety days before, and with a target the graveyard floor has not passed since. |
| `ServerCheckpoints.ResetShutsGate` | spikes/powersync/harness/src/command-server.ts:469-502 | A reset takes the checkpoint away: until another challenge is acknowledged the replica is stale, and nothing it sends has an effect. |
| `ServerCheckpoints.ResetIdempotent` | spikes/powersync/harness/src/command-server.ts:469-502 | A reset request repeated before its acknowledgement gives the same session and changes nothing. |
| `ServerCheckpoints.ResetAckIdempotent` | spikes/powersync/harness/src/command-server.ts:503-515 | A second acknowledgement of a reset succeeds with every table as it was. |
| `ServerCheckpoints.ChallengeReplaces` | spikes/powersync/harness/src/command-server.ts:431-440 | A challenge replaces every earlier one of its replica, asks for what has been deleted so far, and leaves the challenges of other replicas alone. |
| `ServerCheckpoints.AcknowledgedExactly` | spikes/powersync/harness/src/command-server.ts:441-468 | An acknowledgement counts if and only if replica, epoch, target, expiry and floor all fit and it is the first; otherwise nothing changes, and no other replica or challenge ever does. |
| `ServerCheckpoints.AcknowledgedOnce` | spikes/powersync/harness/src/command-server.ts:441-468 | Acknowledging a challenge again, at once or at any later time, is refused and changes nothing. |
| `CommandServer.CommandServer.ReplicaResetAck` | spikes/powersync/harness/src/command-server.ts:503-515 | The acknowledgement transaction ends in the state of the specification that the rotation theorems and `ResetAckIdempotent` are about. |
| `RateWindow.WindowsApart` | spikes/powersync/harness/src/command-server.ts:171-190 | For any arrival times that do not decrease: admitted requests of one epoch with different window starts lie at least a minute apart in window start, and one window admits at most 64. |
| `RateWindow.AnyMinute` | spikes/powersync/harness/src/command-server.ts:171-190 | For any arrival times that do not decrease, a span shorter than a minute holds at most 127 admitted requests of one epoch. |
| `RateWindow.BoundaryBurst` | spikes/powersync/harness/src/command-server.ts:171-190 | The bound of 127 is reached: that many requests are admitted within two milliseconds around a window boundary. |
| `RateWindow.RefusedOnlyWhenFull` | spikes/powersync/harness/src/command-server.ts:171-190 | The converse of the bounds: a request is refused only if sixty-four of its epoch were admitted within the minute before it. |
| `ServerRates.RunMinute` | spikes/powersync/harness/src/command-server.ts:160-197 | In every run of the server, among commands, resets, challenges and other replicas, a span shorter than a minute holds at most 127 admitted requests of one replica and epoch, and different windows start at least a minute apart. |
| `CommandProtocol.EnvelopeRoundTrip` | spikes/powersync/harness/src/command-protocol.ts:91-128 | The server parses the envelope a client sends to exactly that envelope if and only if it is canonical: lower-case UUIDs, one command, bounded text, payload exactly on updates. |
| `CommandProtocol.ParseCommandResponse` | spikes/powersync/harness/src/command-protocol.ts:144-168 | The parsing loop accepts a response if and only if its results pair one-to-one with the commands of the request, with matching digest and consistent outcome; the final omitted-results error is unreachable. |
| `CommandProtocol.EveryCommandAnswered` | spikes/powersync/harness/src/command-protocol.ts:150-166 | In an accepted response every command has its own answer. |
| `CommandProtocol.CommandSays` | spikes/powersync/harness/src/command-protocol.ts:91-128 | A command object is read as this command if and only if its members say so, in whatever case the identifiers are, with no other member and a payload exactly on updates. |
| `CommandProtocol.EnvelopeSays` | spikes/powersync/harness/src/command-protocol.ts:91-142 | The same for the whole envelope: an equivalence between what is read and what the members say. |
| `ReplicaWire.AcceptsExactly` | spikes/powersync/harness/src/command-protocol.ts:144-168 | What the upload connector of the state machine takes as an answer is exactly what the response parser lets through. |
| `ReplicaWire.SentIsExecuted` | spikes/powersync/harness/src/command-protocol.ts:91-142 | A canonical upload is executed as sent; one that does not parse changes nothing on the server. |
| `ReplicaWire.ServedMeansExecuted` | spikes/powersync/harness/src/client.ts:574-594 | Whatever the envelope parser normalised, the client stores a served outcome only for a command the server executed exactly as it was sent, because both derive the same digest. |
| `Reservations.ReservationCovers` | spikes/powersync/harness/src/client.ts:67-83 | A reservation at least as large as the measured one and at most 65,536 covers the JSON bytes of the pending form, with either authorization flag, and of both finalized forms. |
| `JsonText.IntentTextBytes` | spikes/powersync/harness/src/client.ts:67-83 | The measured size of an intent is the UTF-8 length of the JSON text that is written, escapes included. |
| `JsonText.FinalizedTextBytes` | spikes/powersync/harness/src/client.ts:67-83 | The same for a finalized entry of either state. |
| `JsonText.CommandTextBytes` | spikes/powersync/harness/src/client.ts:1139-1142 | The same for a command as it is measured on admission. |
| `JsonText.ResultTextBytes` | spikes/powersync/harness/src/client.ts:58-60 | The same for a terminal result with its digest of 64 hexadecimal digits. |
| `JsonText.EveryTextFits` | spikes/powersync/harness/src/client.ts:67-83 | A reservation of 512 to 65,536 bytes that covers the three texts measured with the widest reservation field covers every text the entry is ever written as. |
| `Reservations.ResultFits` | spikes/powersync/harness/src/client.ts:58-65 | Every terminal result with UUID identifiers and safe-integer versions fits the floor of 512 bytes. |
| `Reservations.ExhaustedResultFits` | spikes/powersync/harness/src/client.ts:541-548 | For arbitrary identifiers: the exact arithmetic condition under which the result of an exhausted command fits the reservation of its overlay. |
| `QuarantineStore.StoreRoundTrip` | spikes/powersync/harness/src/client.ts:714-822 | Writing a quarantine store and reading it back is the identity if and only if the store is readable: non-empty text, consistent states, large enough reservations, unique identifiers. |
| `QuarantineStore.AcceptedStoreIsStable` | spikes/powersync/harness/src/client.ts:786-822 | Every file the reader accepts, including a migrated version-1 file, reads back unchanged once written, with identifiers unique. |
| `QuarantineStore.ReadExactly` | spikes/powersync/harness/src/client.ts:786-822 | A file is read as this store if and only if every entry is in order and no identifier repeats, and then the store holds the entries of the file in their order, a version-1 file split into finished entries and intents. |
| `QuarantineStore.FinalizeFits` | spikes/powersync/harness/src/client.ts:1348-1356 | Finalizing a readable intent never trips the size check, and the written entry can be read back exactly when the payload was kept or the reservation covers the bare entry. |
| `QuarantineStore.PayloadCost` | spikes/powersync/harness/src/client.ts:67-83 | Dropping a payload of two or more bytes never raises the measured reservation; dropping a one-byte payload raises it by exactly one above the floor. |
| `QuarantineStore.MergeFinalized` | spikes/powersync/harness/src/client.ts:828-839 | The merge fails exactly on a repeated identifier and otherwise returns a sorted permutation of both lists. |
| `QuarantineStore.AcknowledgeRemoves` | spikes/powersync/harness/src/client.ts:841-852 | Acknowledging removes exactly the named entry; it keeps the pending intents of the file exactly when there are none. |
| `ApplicationState.ApplicationState.PersistResult` | spikes/powersync/harness/src/client.ts:321-353 | One result is stored in place as the specification says: reservation taken over from the overlay, overlay and attempts removed, an existing outcome only confirmed; an error leaves the tables as they were. |
| `ApplicationState.ApplicationState.PersistResults` | spikes/powersync/harness/src/client.ts:309-354 | The transaction over a list of results stores all of them or leaves every table unchanged. |
| `ApplicationState.ApplicationState.MarkResultsSdkCompleted` | spikes/powersync/harness/src/client.ts:356-365 | Marks all named results or none. |
| `ApplicationState.ApplicationState.AddOverlays` | spikes/powersync/harness/src/client.ts:367-388 | Inserts the whole batch in order or nothing, refusing repeated, overlaid and already settled identifiers. |
| `ApplicationState.ApplicationState.RemoveOverlays` | spikes/powersync/harness/src/client.ts:390-393 | The loop removes exactly the named overlays and leaves results and failure counters, as the step of the state machine does. |
| `ApplicationState.ApplicationState.Measure` | spikes/powersync/harness/src/client.ts:402-408 | Counts and sums both tables, in whatever order the rows come. |
| `ApplicationState.AcknowledgedExactly` | spikes/powersync/harness/src/client.ts:424-426 | Acknowledging removes a result if and only if it is marked as completed, and neither another result nor any other table ever. |
| `ApplicationState.FailuresCounted` | spikes/powersync/harness/src/client.ts:428-433 | After n transient failures in a row the counter of that command stands n higher, and every other table and counter is as it was; what the fifth one leads to is `FiveTries`. |
| `ApplicationState.AddedExactly` | spikes/powersync/harness/src/client.ts:367-388 | A batch of overlays is taken if and only if its identifiers are distinct and none is active; then exactly these overlays are added. |
| `ApplicationState.PersistOneKeeps` | spikes/powersync/harness/src/client.ts:309-354 | Storing a result keeps results and overlays disjoint, keeps every earlier outcome, records an equal outcome under its id, and leaves the reservations of active commands as they were. |
| `ApplicationState.PersistedExactly` | spikes/powersync/harness/src/client.ts:309-354 | A result is stored if and only if it repeats the outcome already stored, or fits what its overlay holds, or finds room among 64 commands and 65,536 bytes; then its overlay and attempts go and it takes over the reservation. |
| `ApplicationState.ResultTakesOver` | spikes/powersync/harness/src/client.ts:340-352 | A list of results for active commands changes neither the count nor the bytes in use. |
| `ApplicationState.UsageIsHeld` | spikes/powersync/harness/src/client.ts:402-408 | With results and overlays disjoint the two tables add up to exactly what the active commands hold. |
| `ReplicaSafety.ExecutionSound` | spikes/powersync/harness/src/client.ts:1150-1179 | In every execution with crashes, lost and late requests, resets and resumes: results and overlays stay disjoint, each queue entry has an overlay or an unfinished result, reservations fit, and the phases of the reset file match what has been cleared. |
| `ReplicaOutcomes.CapacityNeverExceeded` | spikes/powersync/harness/src/client.ts:85-98 | Results, overlays and finalized quarantine together never exceed 64 entries or 65,536 bytes, and one SDK batch of 1,000 always holds the whole queue. |
| `ReplicaOutcomes.OutcomeStays` | spikes/powersync/harness/src/client.ts:323-339 | A stored outcome is never overwritten by any upload, replay, crash or reset until it is acknowledged. |
| `ReplicaOutcomes.NeverAcknowledged` | spikes/powersync/harness/src/client.ts:527-530 | A process that stops between completing the SDK transaction and the completion mark leaves a result that can never be acknowledged in any later execution. |
| `ReplicaAcknowledgement.UnfinishedPlaces` | spikes/powersync/harness/src/client.ts:520-566 | In every execution an unfinished result is stranded (its queue entry is gone and no process is about to mark it), or about to be marked, or at the head of the queue. |
| `ReplicaAcknowledgement.StrandedForGood` | spikes/powersync/harness/src/client.ts:527-530 | A stranded result can be acknowledged in no continuation. |
| `ReplicaAcknowledgement.MarkedThenAcknowledged` | spikes/powersync/harness/src/client.ts:527-535 | A result about to be marked is acknowledged two steps later if the process does not stop before. |
| `ReplicaAcknowledgement.RepeatedThenAcknowledged` | spikes/powersync/harness/src/client.ts:520-566 | An unfinished result at the head of the queue of an open client has a continuation of six steps that acknowledges it, if the server repeats the stored outcome. |
| `ReplicaAcknowledgement.CompletedOnlyByRepeat` | spikes/powersync/harness/src/client.ts:323-339 | That condition is needed: at the head of the queue an upload is completed only by an outcome equal to the stored one. |
| `ReplicaAcknowledgement.ClosedNeverAcknowledged` | spikes/powersync/harness/src/client.ts:958-980 | Not being stranded is not enough: behind a client that fails its opening checks no unfinished result is ever acknowledged. |
| `ReplicaUploads.QueuedExactly` | spikes/powersync/harness/src/client.ts:1150-1177 | A command is taken if and only if there is room for it and its identifier is unused: then its overlay is stored and it becomes the last in the queue, a deletion without payload; otherwise, or if the insertion fails, everything is as it was. |
| `ReplicaUploads.HandledExactly` | spikes/powersync/harness/src/command-server.ts:583-633 | For every canonical request: the session is checked first, then the checkpoint, then the window, then the command, each over its table. |
| `ReplicaUploads.FittingIsApplied` | spikes/powersync/harness/src/client.ts:533-595 | An upload that meets its grant, incarnation and version changes its row field by field and comes back as applied, one version on. |
| `ReplicaUploads.UngrantedComesBackDenied` | spikes/powersync/harness/src/client.ts:577-582 | An upload without the grant changes no row and comes back as denied. |
| `ReplicaUploads.MisfitComesBackConflicted` | spikes/powersync/harness/src/client.ts:533-595 | A granted, new upload that does not fit comes back as the conflict of the right kind with the version found, and changes no row. |
| `ReplicaUploads.HeardComesBackAgain` | spikes/powersync/harness/src/client.ts:583-594 | An upload heard before changes no row or receipt: it comes back as its receipt says, or as a reused identifier if the receipt is of another request. |
| `ReplicaUploads.StoresOnlyOwn` | spikes/powersync/harness/src/client.ts:573-594 | Whatever an answer says, the client stores nothing from it but a result of this very command and digest whose code suits its state, and from status 403 nothing but a denial. |
| `ReplicaUploads.StaleSessionMustReset` | spikes/powersync/harness/src/client.ts:568-568 | A session out of date: nothing is lost, the client knows that it must be reset, and the next reset call over a disk that can be snapshotted starts asking about queue and orphans. |
| `ReplicaUploads.ResetBeginsExactly` | spikes/powersync/harness/src/client.ts:1231-1269 | A client at rest begins a reset if and only if the server asked for one, none is written down, queue and overlays agree and the quarantine file reads back without intents or any of their identifiers; otherwise nothing happens. |
| `ReplicaUploads.UnlockedIsRefused` | spikes/powersync/harness/src/client.ts:533-595 | A session that does not lock is refused without a trace. |
| `ReplicaUploads.FiveTries` | spikes/powersync/harness/src/client.ts:562-572 | However uploads of a command fail, lost or turned away: up to the fourth failure everything but its counter is as before and the client rests; the fifth, and no earlier one, ends in the exhausted result with attempt 5. |
| `ReplicaUploads.StoredThenGone` | spikes/powersync/harness/src/client.ts:524-532 | A result that fits is stored, completed, marked and acknowledged in four steps, and then nothing of the command is left on the client. |
| `ReplicaUploads.FittingCommandSettles` | spikes/powersync/harness/src/client.ts:490-595 | End to end: a queued command that fits is on the server as it says and gone from the client six steps later. |
| `ReplicaUploads.OpensExactly` | spikes/powersync/harness/src/client.ts:939-1067 | A stopped client opens if and only if its stored state is none of nine listed corruptions, with the stored session and count, at the point the reset file names. |
| `ReplicaUploads.ObservedIsUpToDate` | spikes/powersync/harness/src/client.ts:1073-1082 | Whenever an opening or a reset gets past its challenge, the session locks and is up to date on the server at that moment, and only then may the client upload or finalize. |
| `ReplicaAgreement.StoredOutcomesAgree` | spikes/powersync/harness/src/client.ts:524-595 | In every execution each applied or conflict outcome on the client carries digest, resource and both versions of the committed receipt of that command; a denial may only hide one. |
| `ReplicaAgreement.JudgedAgrees` | spikes/powersync/harness/src/client.ts:568-594 | Whatever the server answers, the terminal result the connector derives agrees with the receipt committed by that very transaction. |
| `ReplicaAgreement.StepMoves` | spikes/powersync/harness/src/command-server.ts:583-633 | Each step of the joint machine moves the server by at most two of its own transactions. |
| `ReplicaAgreement.MovesExtend` | spikes/powersync/harness/src/command-server.ts:244-397 | Along those transactions receipts only grow, so the server theorems hold along every execution of the client. |
| `ReplicaAgreement.MovesKeepInv` | spikes/powersync/harness/src/command-server.ts:342-389 | Along those transactions the pairing of receipts and events is kept. |
| `ReplicaAgreement.ExecutionReceiptsFinal` | spikes/powersync/harness/src/command-server.ts:244-397 | Receipts stay as written along every execution of the joint machine, with late and repeated requests, resets and re-queueing under the same id. |
| `ReplicaAgreement.ExecutionAppliesOnce` | spikes/powersync/harness/src/command-server.ts:365-388 | In every execution of the joint machine a (user, command id) pair is newly applied in at most one step. |
| `ReplicaRotation.ExecutionLinked` | spikes/powersync/harness/src/client.ts:1011-1067 | In every execution the stored session, the reset file and the replica row of the server stand in one of the combinations the protocol allows, whatever late or repeated reset requests still arrive. |
| `ReplicaRotation.ResumeNeverMismatches` | spikes/powersync/harness/src/client.ts:1016-1047 | A resumed open always finds the old or the new session of the reset file: both mismatch errors are unreachable. |
| `ReplicaRotation.RotationAccounting` | spikes/powersync/harness/src/command-server.ts:469-515 | However often reset and acknowledgement are repeated, the stored reset count equals the number of epochs gained, and the credential digest on the server is that of the staged session. |
| `ReplicaRecovery.ExecutionSnapshot` | spikes/powersync/harness/src/client.ts:1236-1278 | A snapshot in progress lists exactly the queued and the overlaid commands, each once. |
| `ReplicaRecovery.IntentReadable` | spikes/powersync/harness/src/client.ts:714-776 | An intent the reset writes can be read again if and only if its texts are non-empty, its version is a positive safe integer, an authorized payload is not empty, and its reservation fits. |
| `ReplicaRecovery.UuidRetainable` | spikes/powersync/harness/src/client.ts:714-776 | A command with UUID identifiers and a safe version can be held in the quarantine file, with its payload or without, if and only if its payload is not the empty text. |
| `ReplicaRecovery.ResetStarts` | spikes/powersync/harness/src/client.ts:1279-1283 | Writing the reset file after a guarded snapshot makes a goal owed, with one intent for exactly each queued or overlaid command. |
| `ReplicaReset.StepOwed` | spikes/powersync/harness/src/client.ts:1286-1365 | Every step of any execution keeps an owed goal with everything needed to pay it on disk, or pays it. |
| `ReplicaReset.ResetRun` | spikes/powersync/harness/src/client.ts:1008-1113 | Through any number of crashes and resumes the goal stays owed or has been paid. |
| `ReplicaReset.ResetFileGoesLast` | spikes/powersync/harness/src/client.ts:1362-1365 | The first world without the reset file has paid the goal: queue and overlays empty, every intent finalized exactly once, earlier entries kept, one epoch gained. |
| `ReplicaGoal.MergeRecords` | spikes/powersync/harness/src/client.ts:1359-1364 | Merging one final form per intent with the earlier entries records exactly those entries, with unique identifiers and the same bytes. |
| `ReplicaGoal.RemergeRecords` | spikes/powersync/harness/src/client.ts:1105-1112 | Resuming after the merged store was written, with nothing pending, leaves it recorded. |
| `ReplicaRecovery.RecoveryProgresses` | spikes/powersync/harness/src/client.ts:1286-1365 | While the goal is owed the next step never fails against a willing server, and at most 2n + 11 uninterrupted steps finish it for n intents. |
| `ReplicaRecovery.CrashedResetReopens` | spikes/powersync/harness/src/client.ts:958-980 | After a crash anywhere in a reset the next open passes every sidecar check. |
| `ReplicaRecovery.FinishedReopens` | spikes/powersync/harness/src/client.ts:958-980 | After a finished reset the client can be closed and opened again. |
| `ReplicaRecovery.CrashBeforeResetFile` | spikes/powersync/harness/src/client.ts:693-707 | A process that stops between the quarantine write and the reset file can be opened again if and only if nothing was pending. |
| `ReplicaRecovery.ResultAndIntentExactly` | spikes/powersync/harness/src/client.ts:1255-1278 | A reset candidate already has a result if and only if some queue entry has lost its overlay, that is, the process stopped between storing a result and completing the SDK transaction. |
| `ReplicaRecovery.BothPlacesFailsClosed` | spikes/powersync/harness/src/client.ts:968-971 | Once such a command is finalized, every later open fails while its result is there. |
| `ReplicaRetention.EveryCommandAccountedFor` | spikes/powersync/harness/src/client.ts:1255-1365 | End to end: after any execution in which the reset file has gone, each command queued or overlaid when the reset started is finalized exactly once, every earlier entry is still there, and nothing is queued or overlaid. |
| `ReplicaRetention.KeptPayloadWasConfirmed` | spikes/powersync/harness/src/client.ts:1341-1357 | End to end: an entry finalized with its payload was marked as authorized in the snapshot, was authorized again by the server after the reset file was written, and its incarnation was live in the local replica after that; `FavouredCommandIsKept` is the converse. |
| `ReplicaRetention.PayloadConfirmed` | spikes/powersync/harness/src/client.ts:1342-1347 | Each approval has a later moment of server consent and a still later moment of local visibility as witnesses. |
| `ReplicaRetention.MarkGiven` | spikes/powersync/harness/src/client.ts:1271-1278 | An intent is marked as authorized only if the server confirmed its resource and incarnation while the snapshot was taken. |
| `ReplicaKeeping.NotedExactly` | spikes/powersync/harness/src/client.ts:1270-1281 | Every note of a snapshot holds the larger of what its overlay held and what its entry needs, and says exactly what the tables said at one moment since the snapshot began: marked, and with its payload, if and only if the replica row locked, the grant was there and the incarnation was current. |
| `ReplicaKeeping.StepKeeps` | spikes/powersync/harness/src/client.ts:1279-1373 | While grant, incarnation and local row of a marked intent hold and its replica is not disabled, no step of a reset gives its payload up. |
| `ReplicaKeeping.FavouredCommandIsKept` | spikes/powersync/harness/src/client.ts:1236-1373 | The converse of `KeptPayloadWasConfirmed`, end to end and over the tables: a command whose grant, incarnation and local row hold from the start of the snapshot to the end of the reset is finalized for review with its whole payload, whatever crashes and resumes come between. |
| `ReplicaConservation.NothingIsLost` | spikes/powersync/harness/src/client.ts:1150-1365 | In every orderly execution (only commands the quarantine can hold are queued, and no reset begins while a queue entry has lost its overlay) a command that is in the overlays, the results or the quarantine file stays in one of them, through uploads, crashes, resumes and any number of resets, until its result or entry is acknowledged or its insertion fails. |
| `ReplicaConservation.OnePlaceOnly` | spikes/powersync/harness/src/client.ts:968-976 | Outside a reset an orderly execution never has one command in two of overlays, results and quarantine. |
| `ReplicaConservation.EveryResetGuarded` | spikes/powersync/harness/src/client.ts:1236-1281 | In an orderly execution every snapshot meets the conditions under which its reset accounts for every command: no further assumption about the state is needed. |
| `ReplicaConservation.OrderlyResetAccounts` | spikes/powersync/harness/src/client.ts:1255-1365 | In an orderly execution every reset that is over has finalized each command queued or overlaid at its start exactly once, and left nothing queued, overlaid or pending. |
| `ReplicaLive.PatientIsOrdinary` | spikes/powersync/harness/src/client.ts:1219-1366 | An execution of the live client, in which a failed reset leaves the process running and an upload may outlive the start of a reset, is world for world an execution of the ordinary machine, if no reset begins during an upload and a client whose reset threw is closed and opened again. |
| `ReplicaLive.PatientAccounting` | spikes/powersync/harness/src/client.ts:1286-1332 | Under that discipline the stored reset count equals the number of epochs gained, failed resets included. |
| `ReplicaLive.PatientConservation` | spikes/powersync/harness/src/client.ts:1150-1366 | Under that discipline no command is lost, failed resets included. |
| `ReplicaLive.CountedTwice` | spikes/powersync/harness/src/client.ts:1286-1332 | Without it: a reset called twice more after it threw counts twice if and only if the application session had not been stored before. |
| `ReplicaLive.DoubleCount` | spikes/powersync/harness/src/client.ts:1286-1332 | The stored count of such a reset is one above the epochs gained. |
| `ReplicaLive.ClearedMismatch` | spikes/powersync/harness/src/client.ts:1016-1047 | A cleared reset file can be resumed if and only if the stored session is the staged one; otherwise every open fails. |
| `ReplicaLive.QueuedThenLost` | spikes/powersync/harness/src/client.ts:1333-1347 | Without it: a command queued after a reset threw is in no store once the reset, called again, has cleared the overlays. |
| `ReplicaLive.KeptByClearing` | spikes/powersync/harness/src/client.ts:1333-1347 | Clearing keeps a command if and only if it has a result or is in the quarantine file. |
| `ReplicaLive.StragglerSettles` | spikes/powersync/harness/src/client.ts:520-595 | A reset begun while an upload is about to store its result puts that command into the snapshot and one step later into the results, although every queued command had its overlay when the reset began. |
| `JourneyDomain.ParseJourneyData` | apps/web/src/features/journeys/domain.ts:196-303 | The three reading loops return data if and only if the value decodes to accepted data (unique identifiers and positions, intact references, quantities in range), and then exactly that data. |
| `JourneyDomain.ReadSegments` | apps/web/src/features/journeys/domain.ts:232-273 | The loop with its position sets accepts exactly the segment lists that decode to valid, distinct, correctly owned segments. |
| `JourneyDomain.JourneySays` | apps/web/src/features/journeys/domain.ts:196-240 | A value is read as this journey if and only if its members say so, types, statuses, dates and version included. |
| `JourneyDomain.SegmentSays` | apps/web/src/features/journeys/domain.ts:240-280 | The same equivalence for a segment, with the members its kind asks for. |
| `JourneyDomain.PackingSays` | apps/web/src/features/journeys/domain.ts:280-303 | The same equivalence for a packing item. |
| `JourneyDomain.TrimExactly` | apps/web/src/features/journeys/domain.ts:305-317 | Trimming drops exactly the blanks at both ends: what remains is blank at neither end and everything around it is blank. |
| `JourneyDomain.TrimTwice` | apps/web/src/features/journeys/domain.ts:309-311 | Trimming is idempotent and keeps whether a text is blank, which is what lets client and server both trim. |
| `JourneyService.DenseRoute` | apps/web/src/features/journeys/domain.ts:154-162 | On data with dense positions the k-th segment of a sorted route has position k. |
| `JourneyService.RenumberDense` | apps/web/src/features/journeys/journey-service.ts:167-233 | Renumbering by an order that lists a route exactly makes that route dense and keeps all other positions valid. |
| `JourneyEdits.EditKeeps` | apps/web/src/features/journeys/journey-service.ts:40-323 | A successful edit of accepted, dense data leaves every route dense, and leaves the data accepted if and only if the dates it carries are well formed; what each edit writes is stated row by row in `EditMeanings`. |
| `JourneyEdits.EverySequenceKeeps` | apps/web/src/features/journeys/journey-service.ts:40-323 | Any sequence of edits with fresh ids and well-formed dates, successful or refused, gives accepted, dense data. |
| `EditMeanings.RefusedExactly` | apps/web/src/features/journeys/journey-service.ts:40-323 | An edit of ranked data succeeds if and only if its journey exists, its item belongs to it, names and places are not blank, no end lies before its start and a quantity is 1 to 99. |
| `EditMeanings.ErrorsNamed` | apps/web/src/features/journeys/journey-service.ts:40-323 | Which error an edit is refused with: the journey is looked for first, then the text is judged, then the item is looked for, and the codes of a refused text are exactly its faults. |
| `EditMeanings.CreateMeans` | apps/web/src/features/journeys/journey-service.ts:40-61 | Creating appends one planned journey with the given text, trimmed, at version one. |
| `EditMeanings.UpdateMeans` | apps/web/src/features/journeys/journey-service.ts:63-85 | Updating rewrites name, dates and time of one journey; status, version, creation and every other row stay. |
| `EditMeanings.SetStatusMeans` | apps/web/src/features/journeys/journey-service.ts:87-102 | A status change touches status and time of one journey and nothing else. |
| `EditMeanings.DeleteJourneyMeans` | apps/web/src/features/journeys/journey-service.ts:104-119 | Deleting takes one journey with exactly its segments and items and leaves the others in place. |
| `EditMeanings.NewSegmentMeans` | apps/web/src/features/journeys/journey-service.ts:121-165 | A new segment carries the input and is the last of its route. |
| `EditMeanings.SavedSegmentMeans` | apps/web/src/features/journeys/journey-service.ts:121-165 | A saved segment takes the input and keeps identifier, place, version and creation; no other row changes. |
| `EditMeanings.DeleteSegmentMeans` | apps/web/src/features/journeys/journey-service.ts:167-198 | Deleting a segment moves every later one of its route up by one and leaves everything else as it was. |
| `EditMeanings.MoveMeans` | apps/web/src/features/journeys/journey-service.ts:200-233 | Moving a segment up or down exchanges it with the neighbour on that side; at the end of the route nothing changes; no other row, and of the journey only the time, differs. |
| `EditMeanings.MovedRoute` | apps/web/src/features/journeys/journey-service.ts:200-233 | The same read off the route: `o[..i-1] + [o[i], o[i-1]] + o[i+1..]` for up, the mirror image for down. |
| `EditMeanings.NewPackingMeans` | apps/web/src/features/journeys/journey-service.ts:235-268 | A new packing item carries the input and nothing packed. |
| `EditMeanings.SavedPackingMeans` | apps/web/src/features/journeys/journey-service.ts:235-268 | A saved item takes the input and packs no more than its new quantity. |
| `EditMeanings.SetPackedMeans` | apps/web/src/features/journeys/journey-service.ts:270-301 | The packed quantity is cut to between none and all, and nothing else of the item changes. |
| `EditMeanings.DeletePackingMeans` | apps/web/src/features/journeys/journey-service.ts:303-323 | Deleting an item takes that row only. |
| `JourneyTables.ShiftSafe` | apps/api/src/trax_api/journey_repository.py:199-203 | On a dense route of up to 100,000 segments the bulk shift passes the immediate UNIQUE check in every row order. |
| `JourneyTables.ShiftSafeExactly` | apps/api/src/trax_api/journey_repository.py:199-203 | The shift passes in every row order if and only if the route has at most 100,000 segments. |
| `JourneyTables.ReorderRuns` | apps/api/src/trax_api/journey_repository.py:186-211 | Shift and assignment loop, row write by row write, never break UNIQUE and give exactly the reordered rows. |
| `JourneyTables.ReorderValue` | apps/api/src/trax_api/journey_repository.py:186-211 | On a route of any size the row writes of a reorder either fail or give exactly the reordered rows. |
| `JourneyTables.JourneyTables.ReorderSegment` | apps/api/src/trax_api/journey_repository.py:179-217 | On a route of any size and whatever order the shift visits the rows in, the in-place transaction ends in exactly the specified tables or refuses with the tables unchanged; a constraint error is possible only above 100,000 segments. |
| `JourneyTables.JourneyTables.CompactSegments` | apps/api/src/trax_api/journey_repository.py:365-374 | The compaction loop never breaks UNIQUE and renumbers the route by its rank. |
| `JourneyTables.JourneyTables.CreateSegment` | apps/api/src/trax_api/journey_repository.py:127-151 | Appends one row at the next free position and touches the journey, or refuses. |
| `JourneyTables.JourneyTables.DropSegment` | apps/api/src/trax_api/journey_repository.py:219-224 | Removes the row, closes the gap and touches the journey, or refuses. |
| `JourneyRuns.RequestKeepsRanks` | apps/api/src/trax_api/journey_repository.py:127-224 | Every successful request keeps each route at positions 0 to n - 1. |
| `JourneyRuns.ReorderMoves` | apps/api/src/trax_api/journey_repository.py:194-211 | After a reorder the moved segment is at the asked place of its route and all others keep their order. |
| `JourneyRuns.EverySequenceRanked` | apps/api/src/trax_api/journey_repository.py:127-224 | Any sequence of requests, with any of them refused or lost on the way, leaves every route exactly 0, 1, ..., n - 1. |
| `RequestOutcomes.ServedExactly` | apps/api/src/trax_api/journey_repository.py:51-375 | Exact conditions, over the tables, under which each of the eleven requests is served. |
| `RequestOutcomes.JourneyUpdateWrites` | apps/api/src/trax_api/journey_repository.py:72-104 | A journey update writes its row field by field, one version on, and no other. |
| `RequestOutcomes.SegmentUpdateWrites` | apps/api/src/trax_api/journey_repository.py:153-177 | A segment update writes its row field by field and keeps its position; the journey moves one version on. |
| `RequestOutcomes.PackingUpdateWrites` | apps/api/src/trax_api/journey_repository.py:258-280 | A packing update writes its row field by field and never leaves more packed than there is. |
| `RequestOutcomes.ProgressWrites` | apps/api/src/trax_api/journey_repository.py:282-302 | A progress update writes the packed quantity and nothing else of the item. |
| `RequestOutcomes.ReorderWrites` | apps/api/src/trax_api/journey_repository.py:179-217 | A reorder raises the version of the moved segment only, puts it at the asked position and shifts those between by one. |
| `RequestOutcomes.CreationWrites` | apps/api/src/trax_api/journey_repository.py:51-151 | What is created is appended with the given text at version one, a segment behind the last of its journey. |
| `RequestOutcomes.DropWrites` | apps/api/src/trax_api/journey_repository.py:219-225 | Deleting a segment takes that row and moves the later ones of its route up by one, without a new version. |
| `RequestOutcomes.DropAllWrites` | apps/api/src/trax_api/journey_repository.py:106-116 | Deleting a journey takes exactly its own rows; deleting an item takes that item. |
| `RequestOutcomes.VersionMovesOn` | apps/api/src/trax_api/journey_repository.py:72-104 | A versioned request that is served found its version and leaves the next one. |
| `RequestOutcomes.NoLostUpdate` | apps/api/src/trax_api/journey_repository.py:60-330 | Among the requests of any number of writers, some of them lost, two that succeed on one row never expected the same version: the later one had seen the outcome of the earlier. |
| `SaveOutcomes.SaveRefinesEdit` | apps/web/src/adapters/http-journey-repository.ts:62-220 | For every single service edit of loaded data, whatever the network loses and in whatever order the storage visits rows: the save succeeds if and only if the client's contract check and the server accept every row, nothing sent is lost and no reorder of more than 100,000 segments is refused; the server then holds the edited data up to versions and timestamps. |
| `SaveOutcomes.SaveIsWhole` | apps/web/src/adapters/http-journey-repository.ts:62-220 | A save that is refused or loses a request or an answer on the way leaves the old tables or the whole edited content, never a part. |
| `SaveOutcomes.SavedLoaded` | apps/web/src/adapters/http-journey-repository.ts:28-60 | A reload after any save, successful or not, gives a state from which the next edit can be saved. |
| `SaveOutcomes.EverySaveIsWhole` | apps/web/src/adapters/http-journey-repository.ts:28-220 | Through any number of edits, saves, failures and reloads every save starts from loaded data and brings its edit whole or changes nothing. |
| `SaveOutcomes.SentDates` | packages/api-client/src/client.ts:119-176 | All dates a save sends pass the client's check if and only if all dates of the edited data do. |
| `SaveOutcomes.FirstCenturyRefused` | packages/api-client/src/client.ts:119-176 | A new journey that starts before the year 100 passes the service and would be stored by the server, but the client refuses to send it and nothing changes. |
| `SaveOutcomes.YearFifty` | packages/api-client/src/validator.ts:153-165 | The first day of the year 50 is such an input. |
| `SaveOutcomes.RefusedAfterDeletion` | apps/web/src/adapters/http-journey-repository.ts:112-171 | When the reorder after a deletion is refused, the save reports an error although the deletion is complete. |
| `JourneyClient.ServedContract` | packages/api-client/src/client.ts:119-176 | Of the requests the server would serve, the client refuses exactly those with a date its own check does not know. |
| `JourneyClient.FreshUpdateServes` | apps/api/src/trax_api/command_executor.py:108-199 | Under an identifier without a receipt the update command does to the journey rows exactly what the plain versioned update does, refusals included. |
| `RouteRefinement.AppendSends` | apps/web/src/adapters/http-journey-repository.ts:123-132 | A new segment behind all others of its route is one request and causes no reorder. |
| `RouteRefinement.ReplaceSends` | apps/web/src/adapters/http-journey-repository.ts:123-145 | A segment rewritten in place is one versioned update, or no request when nothing changed. |
| `RouteRefinement.SwapSends` | apps/web/src/adapters/http-journey-repository.ts:146-171 | A swap of neighbours is one versioned reorder of the first segment that moved. |
| `RouteRefinement.DropSends` | apps/web/src/adapters/http-journey-repository.ts:112-171 | A deletion is one delete and, exactly when some segment moved up, a reorder of the first one that did, with the version loaded before. |
| `JourneyRefinement.DeleteJourneyBrings` | apps/web/src/adapters/http-journey-repository.ts:65-72 | Deleting a journey sends one request, none for the rows that go with it, and the server then holds what the service computed. |
| `SaveRefinement.PackingEditBrings` | apps/web/src/adapters/http-journey-repository.ts:172-217 | Definition changes, progress changes and deletions of packing items each become the one request that brings them about. |
| `HttpJourneyRepository.HttpJourneyRepository.Save` | apps/web/src/adapters/http-journey-repository.ts:62-220 | The loops send exactly the requests of the diff in order, draw or reuse an identifier for each update, and stop at the first failure; only a reload that gets through replaces the loaded data and drops the pending identifiers, so a committed update whose answer or reload is lost keeps its identifier. |
| `UpdateRetries.RetriesReuseId` | apps/web/src/adapters/http-journey-repository.ts:88-98 | Between two attempts of one edit without a reload, whatever is sent for other journeys, the identifier is the same. |
| `UpdateRetries.RetriedEditAppliesOnce` | apps/web/src/adapters/http-journey-repository.ts:88-108 | In every run of the command executor, among all other commands and writers, the attempts of one edit, sent under the identifiers the adapter chooses, change the row in at most one step. |
| `UpdateRetries.OneEditPerVersion` | apps/web/src/adapters/http-journey-repository.ts:78-108 | Even attempts with different contents, sent from one loaded version, change the row in at most one step. |
| `UpdateRetries.OneContentPerId` | apps/web/src/adapters/http-journey-repository.ts:88-98 | Two attempts with different contents never share an identifier. |
| `UpdateRetries.EditedRetryIsNew` | apps/web/src/adapters/http-journey-repository.ts:88-98 | In every run of the command executor, as long as nobody else uses its identifier, an attempt is never refused for reusing one: an edit after a failed save is a command of its own, whatever became of the first. |
| `UpdateRetries.RetriesActOnce` | apps/web/src/adapters/http-journey-repository.ts:88-108 | However often one update is sent and whatever requests and answers are lost, the tables are those of a single execution at the first arrival, and every later answer that arrives reports how that execution ended. |
| `CommandExecutor.CommandExecutor.ExecuteJourneyUpdate` | apps/api/src/trax_api/command_executor.py:108-199 | Whichever statement fails, either the whole outcome is committed or no table has changed; without a failure the outcome is the one `UpdateOutcomes` gives field by field, workspaces included. |
| `CommandExecutor.CommandExecutor.WriteAppliedAudit` | apps/api/src/trax_api/command_executor.py:279-339 | Writes one change set, one event and one receipt that refer to each other. |
| `CommandExecutor.RunInv` | apps/api/src/trax_api/command_executor.py:108-199 | In every run an applied receipt has exactly one change set and one event with consecutive versions, and no other receipt has any. |
| `CommandExecutor.ReceiptsFinal` | apps/api/src/trax_api/command_executor.py:211-255 | Receipts are final in every run, with journeys created, edited and deleted by other requests in between. |
| `CommandExecutor.ReplayIsSilent` | apps/api/src/trax_api/command_executor.py:222-255 | A decided command repeated in any later state reports its recorded outcome, or an identifier conflict for other content, and changes nothing. |
| `CommandExecutor.AppliesOnce` | apps/api/src/trax_api/command_executor.py:133-194 | One (workspace, actor, command id) applies in at most one step of a run. |
| `CommandExecutor.AppliesOncePerVersion` | apps/api/src/trax_api/journey_repository.py:72-104 | Of all updates of a journey made from one loaded version, under whatever identifiers, at most one is applied. |
| `CommandExecutor.AppliedRow` | apps/api/src/trax_api/journey_repository.py:81-104 | An applied update raises the version from the expected one by one and logs exactly the row before and after. |
| `CommandExecutor.RunChangesRow` | apps/api/src/trax_api/journey_repository.py:72-104 | A command step changes rows only by applying, and then no row but its own. |
| `UpdateOutcomes.RefusedBeforeTheTables` | apps/api/src/trax_api/command_executor.py:108-132 | Without the permission, or with a body that is not in order, no table changes. |
| `UpdateOutcomes.ForeignJourneyIsMissing` | apps/api/src/trax_api/journey_repository.py:81-89 | A journey that is absent or belongs to another workspace is not touched: no row, change set or event changes, and a command not decided before leaves the receipt of a missing journey and answers so. |
| `UpdateOutcomes.OtherVersionConflicts` | apps/api/src/trax_api/command_executor.py:257-277 | A row at another version than the expected one stays, and the conflict is on record with the digest of the request. |
| `UpdateOutcomes.ExpectedVersionApplies` | apps/api/src/trax_api/command_executor.py:133-199 | An update of the expected version writes name, dates and status as given and the next version into that row; workspace, identifier and creation stay, no other row changes, and receipt, change set and event say the same. |
| `UpdateOutcomes.StepStaysHome` | apps/api/src/trax_api/journey_repository.py:319-330 | A command changes a row only inside the own workspace of a permitted caller, and no step moves a row between workspaces. |
| `UpdateOutcomes.JourneyStaysHome` | apps/api/src/trax_api/journey_repository.py:319-330 | In every run a journey stays in its workspace as long as it exists. |
| `UpdateOutcomes.ForeignJourneyIsSafe` | apps/api/src/trax_api/journey_repository.py:319-330 | In every run a user of one workspace never changes a journey that started out in another. |
| `SchemaValidator.RequestImpliesResponse` | packages/api-client/src/validator.ts:22-97 | Whatever request mode accepts, response mode accepts, through references, alternatives, arrays and nested objects; validation terminates by (value, reference rank, schema). |
| `SchemaValidator.ResponseIsOpenedRequest` | packages/api-client/src/validator.ts:167-204 | Response mode accepts exactly what request mode accepts for the same contract with every additionalProperties: false removed. |
| `SchemaValidator.ReferenceMeans` | packages/api-client/src/validator.ts:28-40 | A reference accepts exactly what the component it names accepts. |
| `SchemaValidator.ForeignReferenceMeans` | packages/api-client/src/validator.ts:28-32 | A reference to anywhere but the components accepts nothing. |
| `SchemaValidator.AlternativesMean` | packages/api-client/src/validator.ts:41-51 | Alternatives accept exactly what one of them accepts. |
| `SchemaValidator.LiteralsMean` | packages/api-client/src/validator.ts:52-58 | A constant or an enumeration lets through exactly its own scalars, which are then judged by the rest of the schema. |
| `SchemaValidator.ScalarMeans` | packages/api-client/src/validator.ts:60-79 | Exactly which nulls, booleans, integers, numbers and strings a schema of a scalar type accepts, bounds, lengths, patterns and formats included. |
| `SchemaValidator.ArrayMeans` | packages/api-client/src/validator.ts:80-91 | An array is accepted exactly if there is a schema for items and each item fits it. |
| `SchemaValidator.ObjectMeans` | packages/api-client/src/validator.ts:167-204 | An object is accepted exactly if each required name is there, each declared property fits its schema, and each other one fits the schema for additional properties or, where those are closed, the mode is tolerant. |
| `CalendarDate.ReadIsReal` | packages/api-client/src/validator.ts:159-164 | Every day number reads back as a real Gregorian date that counts to the same day. |
| `CalendarDate.RealComesBack` | packages/api-client/src/validator.ts:159-164 | Every real Gregorian date comes back unchanged from its day number. |
| `CalendarDate.ValidDateExactly` | packages/api-client/src/validator.ts:153-165 | A text is accepted if and only if it is four, two and two digits naming a real Gregorian date of year 100 to 9999, for all overflowing months and days (section 5.7 of RFC 3339 also allows 0000 to 0099). |
| `CalendarDate.RefusedServerDates` | packages/api-client/src/validator.ts:153-165 | Of the dates the server stores, exactly those before year 100 are refused. |
| `CalendarDate.BeforeIsEarlier` | apps/web/src/features/journeys/domain.ts:114-121 | For all real dates, the text comparison the service uses is the order of the days they name. |
| `ImportAliases.CollectDynamicBindings` | scripts/python-imports.py:132-171 | The loops with their early exit compute exactly the bindings of one pass more than there are assignments. |
| `ImportAliases.LastImportWins` | scripts/python-imports.py:132-161 | After the imports a name stands for what the last import that binds it says, under its alias or, without one, its first part or its own name; a name no import binds stands for itself. |
| `ImportAliases.AliasesResolve` | scripts/python-imports.py:162-170 | If no name has two followable assignments and aliases have no cycle, the bounded loop ends with nothing left to change and every name bound to the end of its alias chain. |
| `ImportAliases.OrderDoesNotMatter` | scripts/python-imports.py:162-170 | Under those conditions the order of the assignments makes no difference to any name. |
| `ImportAliases.CycleNeverSettles` | scripts/python-imports.py:114-120 | If aliases lead back to their start with an attribute on the way, no bindings at all are at rest. |
| `ImportAliases.QuietExactly` | scripts/python-imports.py:162-170 | Bindings are at rest if and only if every assignment that can be followed finds its name bound to exactly what its value stands for. |
| `ImportAliases.TwiceAtRest` | scripts/python-imports.py:162-170 | For all bindings: a name with two followable assignments is at rest only if both stand for the same thing. |
| `ImportAliases.PureCycleAtRest` | scripts/python-imports.py:114-120 | For all bindings: at rest, all names of a cycle of plain names stand for the same thing. |
| `ImportAliases.ForwardCycleExactly` | scripts/python-imports.py:162-170 | A cycle of plain names, each assigned from the next in order, comes to rest after some pass if and only if it has exactly two names. |
| `ImportAliases.AssignedTwice` | scripts/python-imports.py:162-170 | An input of three lines on which the bounded loop ends with an alias bound to what its source no longer is. |

## Left out

- HTTP, tokens, cookies, file modes, fsync and the attempt counters, fault switches, barriers and concurrency slot of the command server: only "a write is atomic or absent" and "a request may fail, be late or be repeated" remain.
- The connector, `queueCommands`, `performReplicaReset` and the resume block of `openSpikeClient` are steps of a state machine on values rather than methods, because crashes and messages fall between their statements.
- In `ReplicaClient` a failure inside a reset ends the process and a reset begins only while no upload is in flight; `ReplicaLive` drops both and states the discipline under which its executions are those of `ReplicaClient`. There the upload that outlives the start of a reset, and the uploads of a client whose reset threw, are followed to the end of their result transaction only.
- Opening without `resumeExisting` on existing sidecars, the owner check of client name and principal, and the schema migration of the application database.
- Late duplicates of challenge and challenge-acknowledgement requests; command, reset and reset-acknowledgement requests do arrive late and repeatedly.
- The in-process and the resumed reset repeat the capacity check at different points; the model checks when staging, clearing and publishing on both, and `RecoveryProgresses` shows that these checks never fail once the reset file is written.
- The environment acts for other replicas only: nobody else holds the credential of this client.
- ReplicaConservation.NothingIsLost: assumes commands without empty texts, one-byte payloads only when the bare entry stays at the floor, and that no reset begins while a queue entry has lost its overlay; `IntentReadable`, `PayloadCost` and `ResultAndIntentExactly` state what happens otherwise.
- ReplicaRecovery.RecoveryProgresses: states progress against a server that answers; liveness of the server and of the network is not modelled.
- PowerSync replication and checkpoints: the local replica is an arbitrary set of live rows at every moment, and taking the batch is one step with disconnecting.
- `localeCompare` is an arbitrary ranking of identifiers; the result only needs one fixed order.
- The quarantine reader does not turn numeric text into numbers, and the string form of a fraction stands for all fractions.
- Authority fields and other unknown fields of an envelope share one refusal.
- The SQL bodies of the clock and of the grant lock, which are an abstract clock and a set of grants; staleness is the predicate of its SQL body.
- Production segment edits are serial transactions; they take no row lock in the source, and concurrent ones are not modelled.
- Server tables keep the order in which rows were added; a load that lists segments per journey and by position is compared as the same content.
- The clock of one service edit is read once; the server stamps each request of one save with one time.
- Client and server trim with the same function; dates are only the yyyy-mm-dd form; timestamps are a predicate on text.
- Registry lookup, version negotiation, row-level security, permissions beyond granted or not, and the response bodies of the executor.
- UpdateRetries.RetriesActOnce: repeats one update with nothing else in between; with other writers in between, `RetriedEditAppliesOnce` still gives at most one effect.
- A save after a failed one without a reload in between starts from data the server may be ahead of; `EverySaveIsWhole` reloads after each save.
- The client checks that identifiers are UUIDs, and the server parses them; here any non-empty fresh identifier passes, and versions are unbounded integers.
- The check of answers against the contract; a load that fails for any reason is one that changes nothing.
- The error pointers of the validator, its patterns, and the uuid, email and date-time formats; a pattern that is no regular expression counts as not matching.
- React pages, translations, routing, generated clients, migrations and evidence recording.
- The file system scan and the edge report around the alias resolver.
