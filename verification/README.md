# HomeBox server core: a verified model

This project models the transactional core of the HomeBox server in Dafny 4.11 and proves what its
services keep together: the node forest, Trash, shares, folder keys and change log; resumable
uploads, blob files and their two-pass collection; the keyed upload mutex; token rotation; the login
limiter; and the paged feeds. `dafny verify dfyconfig.toml` checks everything.

## How the model is built

- `Schema.dfy` holds the tables as finite maps (`Tables`) and two mutable objects, `Database` and
  `Storage`. Write transactions start IMMEDIATE (`internal/database/database.go:41-49`), so each
  service transaction is one atomic step: a function from tables to committed tables or an error
  (`CreateTx`, `GrantTx`, `CommitTx`, ...). Beside each stands the method that runs the
  transaction's statements, loops and rollbacks on the `Database`; its `ensures` says that it
  computes that function. The laws are then proved about the functions.
- `Server.dfy` puts all of it into one state machine whose actions are single transactions or
  single file operations: "write blob file" and "commit rows" of a completion, "delete row" and
  "remove file" of the collectors, "remove the upload directories" and "commit" of a purge. Anything,
  also a crash, may come between two actions. An action may fail or do nothing; a run is any sequence
  of actions.
- `Forest.dfy` defines one notion of ancestry (`Chain`, the walk over the parents). The recursive
  queries of the services are separate definitions over depth rows in `Access.dfy`, `Nodes.dfy` and
  `Trash.dfy` and are proved equal to it.
- `ChangeLog.dfy`, `KeyScopes.dfy`, `Integrity.dfy`, `Durability.dfy` and `ChunkStore.dfy` hold the
  inductive invariants. `AccessLaws.dfy`, `Confinement.dfy`, `Retries.dfy`, `Replies.dfy`,
  `CompleteReplies.dfy`, `Completions.dfy`, `Outcomes.dfy` and `Reclaimed.dfy` hold what follows from
  them for users and for the storage.
- `NodeRules.dfy`, `RekeyRules.dfy`, `SharingRules.dfy`, `UploadRules.dfy`, `CollectorRules.dfy`,
  `TokenRules.dfy` and `LimiterRules.dfy` say independently of the transactions' functions when each
  request is accepted, how it is refused, and what every row and field holds afterwards.
  `RequestRuns.dfy` shows that a request that nothing interrupts is a run of the state machine.
- `LockedRuns.dfy` runs the server together with the keyed mutex of `UploadLocks.dfy`.
- `Scenarios.dfy`, `KeyReuse.dfy` and `NestedReuse.dfy` hold concrete runs from an empty server that
  show why an assumption is there, or what goes wrong without breaking any.
- `Reachable.dfy` puts the invariants together: they hold on an empty server and so in every state
  that an allowed run reaches.
- `UploadLocks.dfy`, `Sessions.dfy`, `Limiter.dfy`, `SyncFeed.dfy` and `Listing.dfy` are separate
  machines with their own runs.

## Assumptions on runs

`Server.Allowed` is the conjunction of five assumptions (`Server.Assumption`):

- `ForwardClock`: the clock never goes back. Timestamps are integers, and stored-text order is taken
  to be time order; the trimmed fraction digits of RFC 3339 (section 5.6) break that only within one
  second.
- `NewNodeIds`: a new node's ID is not one whose folder key outlived its folder
  (`internal/database/migrations.go:240-242`). `KeyScopes.CreateKeepsScopes` says exactly which IDs
  would still be harmless, and `KeyReuse.RetainedKeyReused` is a run in which one is not;
  `NestedReuse.RevokedButReadable` shows what a user sees of it.
- `NewUploadIds`: a new upload does not reserve a blob ID on which a completion is in flight or whose
  file is being removed.
- `OrphansApart`: the orphan-file collector and a completion do not overlap on one blob file.
  Maintenance does not take the upload lock, so nothing in the code enforces it.
- `LockedUploads`: one upload is completed by one caller at a time. This one is discharged:
  `LockedRuns.LocksSuffice` proves it for any threads that write the blob file and commit between
  lock and unlock of the keyed mutex.

What the two blob assumptions prevent is the loss of a committed file. `Durability.CommitSafeExactly`
says for any state when a completion that has just stored its rows is safe for good, in every run
whatever it assumes: exactly when no other completion and no collector has the blob in hand.
`CondemnedWhileWriting`, `WrittenWhileCondemned` and `ReservedWhileSwept` beside it derive the loss
from any state in which an assumption is broken that way, and `Scenarios.ReusedBlobIdLosesData` and
`Scenarios.OverlappingOrphanLosesData` are complete runs from an empty server in which one event
breaks one assumption and a committed file is lost.

SHA-256 stands for a digest without collisions; tokens and generated identifiers are parameters, and
`CompleteReplies.CompleteAnswersAlikeExactly` takes the generated ID of a session not to come again.

## Where code and documentation differ

- The comment at `internal/uploads/service.go:116-120` says that reserving IDs guarantees that at
  most one open session ever writes a blob path. It checks committed and open sessions only. If a
  session expires and is cleaned up while its completion is assembling, the same blob ID can be
  reserved and committed again, and the overtaken completion then removes the committed file:
  `Scenarios.ReusedBlobIdLosesData`.
- The comment at `internal/maintenance/service.go:106-108` says that a Trash entry is removed in one
  transaction. The upload directories go before the commit (`internal/maintenance/service.go:237-249`),
  so a purge that is cut off there brings back open uploads without their files. The owner can restore
  the file, but the upload cannot be completed: its chunks count as recorded, and sending them again
  does not write them. `Scenarios.InterruptedPurgeStrandsUpload` is such a run, which breaks no
  assumption; `Completions.LostFileStrandsUpload` proves it for every run, and
  `ChunkStore.FilesPresentExactly` and `Completions.CompletesExactly` that an upload keeps its chunk
  files, and can be completed, exactly when this did not happen to it.
- `docs/adr/006-client-outbox-idempotency.md:21` says that a retried node mutation returns
  byte-identical output. The code re-reads the node, so the promise fails as soon as the node has
  changed in between: `Replies.CreateAnswersDiffer` is such a run. `Replies.CreateAnswersAlikeExactly`
  and its companions for update and restore prove when it holds: exactly when the owner's feed has not
  named the node since the first request and a member still reaches it. A repeated completion is
  answered the same exactly when its session and its version have lasted
  (`CompleteReplies.CompleteAnswersAlikeExactly`). That a retry changes nothing holds always
  (`Retries.RepeatedCreate` and the lemmas beside it).
- The comment at `internal/auth/session.go:259-261` says that a rotated token presented after its window
  ends every session of the device. It revokes the tokens that are live; one that was itself rotated
  within the window keeps its retry (`Sessions.RecentRotationSurvives`). When there is none, nothing of
  the device is accepted any more until its next login (`Sessions.ReuseEndsSessions`).

## Model

| member | source | states |
|---|---|---|
| Forest.MoveForest | internal/nodes/service.go:644-688 | Reparenting a node outside its own subtree keeps every walk finite and gives exactly the new ancestors of every moved node |
| Forest.AncestorsComparable | internal/access/access.go:48-58 | Two ancestors of one node lie on one line |
| Forest.RemoveForest | internal/maintenance/service.go:180-257 | Removing a set closed under descendants leaves all other walks unchanged |
| Access.LevelIsChain | internal/access/access.go:50-52 | The UNION ALL ancestor recursion yields one row per depth, the walk over the parents, and then stops |
| Access.GrantMatchesQuery | internal/access/access.go:48-66 | The recursive grant query selects a share if and only if walking up the parents finds its root, and the permission it selects is the grant's |
| Access.NearestMatchesQuery | internal/access/access.go:70-82 | The recursive query for the nearest keyed folder selects a folder if and only if walking up the parents finds it |
| Access.SubtreeIsDescendants | internal/access/access.go:85-100 | The descendants query returns exactly the nodes whose walk meets the start |
| Access.AcceptedScope | internal/access/access.go:115-145 | An accepted key scope names an existing key of the owner; for a member it is the write root at the newest version |
| Nodes.ForbidCycle | internal/nodes/service.go:710-726 | The bounded loop computes the walk it stands for |
| Nodes.CycleWalkExact | internal/nodes/service.go:710-726 | The check passes exactly for parents outside the moved subtree whose chain fits the bound |
| Nodes.Create | internal/nodes/service.go:76-151 | The statements of a create compute the create transaction, or change nothing; the answer is the node read again |
| Nodes.Update | internal/nodes/service.go:330-412 | The statements of a rename or move compute the update transaction, or change nothing; the answer is the node read again |
| Nodes.CheckMove | internal/nodes/service.go:644-688 | The move checks, with the cycle check as a loop, decide as the specification of a legal move |
| Nodes.Delete | internal/nodes/service.go:416-459 | The statements of a delete compute the delete transaction, or change nothing |
| Nodes.Restore | internal/nodes/service.go:463-528 | The statements of a restore compute the restore transaction, or change nothing; the answer is the node read again |
| Nodes.HiddenMatchesQuery | internal/nodes/service.go:533-541 | The recursive query finds no row or a trashed one if and only if the walk over the parents does |
| Nodes.CheckBatch | internal/nodes/service.go:853-874 | The loop accepts a rekey batch if and only if it is well formed and names no node twice |
| Nodes.Rekey | internal/nodes/service.go:853-928 | A rekey batch is applied as a whole and its nodes are read back, or it is rolled back as a whole |
| NodeRules.CreateAccepted | internal/nodes/service.go:76-134 | A new create is accepted if and only if the conditions written out on tables and request hold, and is otherwise refused by the first that fails |
| NodeRules.CreateEffect | internal/nodes/service.go:126-151 | A create adds one node with the fields sent, one log entry and one operation record kept for thirty days, and changes no other row |
| NodeRules.MoveDecides | internal/nodes/service.go:644-688 | A move is allowed if and only if it goes to the root for an owner, or into a live directory of the same tree outside the moved subtree, within the share, at most 10 000 deep, and without one keyed folder ending up below another |
| NodeRules.UpdateAccepted | internal/nodes/service.go:330-382 | A new update is accepted if and only if its conditions hold, whatever it combines, and is otherwise refused by the first that fails |
| NodeRules.UpdateEffect | internal/nodes/service.go:384-412 | In all three forms of the request: metadata, key version and scope are the request's if metadata was sent and the old ones if not, the parent is the request's if it moves and the old one if not, everything else stays |
| NodeRules.DeleteAccepted | internal/nodes/service.go:416-447 | A new delete is accepted if and only if device, write access outside Trash and revision are in order |
| NodeRules.RestoreEffect | internal/nodes/service.go:463-528 | A restored node leaves Trash, for the root if its folder or one above it is gone or in Trash, and changes nothing else |
| NodeRules.NothingEntersTrash | internal/nodes/service.go:691-706 | Nothing is created in or moved into a folder that is in Trash or of another tree |
| NodeRules.ForeignDeviceChangesNothing | internal/nodes/service.go:728-738 | Requests of a revoked or foreign device, new or repeated, change no row |
| RekeyRules.BatchDecides | internal/nodes/service.go:853-905 | A batch is applied if and only if its sizes fit and every item and every listed version is accepted as the tables stand before it; otherwise the first item, field or version that fails decides the error |
| RekeyRules.BatchEffect | internal/nodes/service.go:886-922 | Each listed node gets exactly its item's metadata, key version and scope under a revision of its own, each version what is listed for it last; everything else stays |
| RekeyRules.BatchAnswer | internal/nodes/service.go:917-928 | A batch is answered with the rewritten rows in its order |
| Sharing.CreateFolderKey | internal/sharing/service.go:84-143 | The statements compute the folder-key transaction |
| Sharing.CheckEnvelopes | internal/sharing/service.go:442-458 | The loop accepts an envelope list if and only if it is well formed and repeats no device and version |
| Sharing.EnvelopeTargets | internal/sharing/service.go:460-474 | The check passes if and only if every envelope is for an active device of the recipient and an existing key version |
| Sharing.Inserted | internal/sharing/service.go:476-488 | Inserting envelopes adds exactly the listed keys, live, and keeps existing rows |
| Sharing.CreateGrant | internal/sharing/service.go:193-262 | The statements compute the grant transaction; the answer is the share read again while it is active |
| Sharing.AddEnvelopes | internal/sharing/service.go:267-304 | The statements compute the delivery transaction; the answer is the share with its live envelopes |
| Sharing.Revoke | internal/sharing/service.go:360-398 | The statements compute the revocation of the share and its envelopes |
| SharingRules.FolderKeyAccepted | internal/sharing/service.go:84-143 | A folder key is accepted if and only if it repeats a stored one or continues the folder's keys without a gap, and as a first key only with no keyed folder above or below |
| SharingRules.InsertedDelivers | internal/sharing/service.go:476-488 | Each listed envelope that had no row gets one with the ciphertext sent; existing rows stay and no other row is added |
| SharingRules.GrantAccepted | internal/sharing/service.go:193-251 | A new grant is accepted if and only if its conditions hold, and is otherwise refused by the first that fails |
| SharingRules.GrantEffect | internal/sharing/service.go:237-262 | A grant adds one share row, the sent envelopes and one operation record, and nothing else |
| SharingRules.GrantAnswer | internal/sharing/service.go:322-341 | The owner is answered with exactly the share's unrevoked envelopes, and each new one comes back with the ciphertext sent |
| SharingRules.DeliveryEffect | internal/sharing/service.go:267-304 | The same for envelopes delivered later |
| SharingRules.RevokeEffect | internal/sharing/service.go:360-398 | A share and its envelopes are revoked at their first revocation; the rows of every other share stay |
| SharingRules.RevokedReads | internal/sharing/service.go:322-341 | Afterwards nobody reads the share, it has no live envelope, and every other share reads as before |
| Trash.TrashSubtreeComplete | internal/maintenance/service.go:100-104 | With one owner per tree the owner-filtered query is the complete subtree of an expired entry |
| Trash.PurgeSubtree | internal/maintenance/service.go:180-257 | One purge transaction removes the subtree and everything that depends on it and logs one entry per node; if its commit fails, all rows come back and only the upload directories are gone |
| Trash.PurgeTrashEntry | internal/maintenance/service.go:153-174 | Deleting a Trash entry at once removes exactly what lies at or below it with all that belongs to it, or changes no row |
| Trash.PurgeNext | internal/maintenance/service.go:134-143 | After other entries were purged, the next removes what it alone covers |
| Trash.ExpireTrash | internal/maintenance/service.go:109-145 | In any order, a pass leaves what one purge of the union of the expired subtrees would leave in nodes, log, versions, shares, envelopes, sessions, chunks and directories; of the purged folders' keys those used outside the pass stay and those used only inside their folder go; it stops at the first commit that fails |
| Trash.PurgedRows | internal/maintenance/service.go:204-255 | Row by row: after a purge a node, version, share, envelope, session, chunk or key is there with its value if and only if it was there and belongs to no purged node, or is a key that something remaining needs |
| Trash.PassedRows | internal/maintenance/service.go:109-145 | The same after a pass over any expired entries |
| Uploads.CreateUpload | internal/uploads/service.go:100-158 | The checks and then the transaction compute the opening of an upload session when nothing comes between them |
| Uploads.ReserveUpload | internal/uploads/service.go:112-158 | The transaction alone computes the reservation that every run uses, whatever state the checks were made in |
| Uploads.FramingFits | internal/uploads/service.go:101-110 | Accepted framing fields cannot overflow a 64-bit product |
| Uploads.PutChunk | internal/uploads/service.go:160-212 | A chunk is recorded with its file, accepted as a repetition, or refused without effect |
| Uploads.Abort | internal/uploads/service.go:238-256 | Abort closes an open session and removes its directory, and does nothing to any other |
| Uploads.FillSlots | internal/uploads/service.go:526-551 | The loop over the rows fills exactly the slots that were recorded, in any row order |
| Uploads.LoadChunks | internal/uploads/service.go:526-566 | Loading succeeds if and only if the recorded numbers are 0..n-1 and yields their digests in order and their total size |
| Uploads.CreateBlobFile | internal/uploads/service.go:615-630 | The blob file is created unless a committed row already owns it |
| Uploads.AssembleCiphertext | internal/uploads/service.go:568-613 | The file becomes the verified chunks in order, or is removed again |
| Uploads.AssembledFails | internal/uploads/service.go:580-607 | The first failing chunk decides the result |
| Uploads.WriteBlob | internal/uploads/service.go:325-370 | The first half of a completion checks, loads and assembles as specified |
| Uploads.CommitUpload | internal/uploads/service.go:371-461 | The second half stores all rows, or changes no table and removes the file |
| UploadRules.OpenAccepted | internal/uploads/service.go:100-158 | An upload is opened if and only if device, live file, write access, framing, limits and unused IDs are in order, and is otherwise refused by the first that fails |
| UploadRules.ReadersCannotUpload | internal/uploads/service.go:488-520 | A stranger or a READ recipient opens no upload to a file and commits none |
| UploadRules.ReadyDecides | internal/uploads/service.go:325-363 | A completion may write the blob if and only if the upload is open and unexpired, the operation unused, and exactly the chunks 0..n-1 are recorded within the limit |
| UploadRules.CommitAccepted | internal/uploads/service.go:376-433 | A commit stores if and only if the upload is open, the target is a live file of the expected revision that the user may write, both key scopes are accepted and neither ID is taken |
| UploadRules.CommitEffect | internal/uploads/service.go:420-461 | A stored commit writes one blob row, one version row, the file's row field by field, one log entry, one operation record and the session's status, and nothing else |
| UploadRules.SecondVersion | internal/uploads/service.go:408-433 | Two uploads to one file, the second on the revision the first was answered with, are both stored and the first version stays |
| Collector.MarkBlobs | internal/maintenance/service.go:370-379 | Afterwards exactly the unreferenced blobs are marked, and old marks keep their time |
| Collector.CollectUnreferencedBlobs | internal/maintenance/service.go:369-435 | A pass removes exactly the eligible rows with their files |
| Collector.CollectOrphanBlobFiles | internal/maintenance/service.go:437-508 | A pass removes exactly the due files without a row, keeps the other marks and counts what it removed |
| Collector.CleanupExpiredUploads | internal/maintenance/service.go:302-367 | A pass removes exactly the expired uploads that are not completed, with chunks and files |
| Collector.PruningBound | internal/maintenance/service.go:264-277 | Pruning keeps every current version and at most the configured number of versions of a file |
| Collector.KeptIsNewestPrefix | internal/maintenance/service.go:264-277 | Whatever is newer than a kept version of the same file is kept |
| Collector.PruningIdempotent | internal/maintenance/service.go:264-277 | A second pass at the same time removes nothing |
| Collector.PruningReadsNewestFirst | internal/maintenance/service.go:264-277 | Of a file's superseded versions exactly those survive that a reader going through them newest first meets before the room is used up or one is too old |
| CollectorRules.PassCollectsExactly | internal/maintenance/service.go:369-435 | After a pass a blob row is gone if and only if no version names it and it was first seen so a grace period ago; every other row and mark stays |
| CollectorRules.OrphanPassExactly | internal/maintenance/service.go:437-508 | After a pass a file is gone if and only if it has no row and was first seen so a grace period ago |
| CollectorRules.PruneExactly | internal/maintenance/service.go:264-277 | A version stays if and only if it is current or recent enough with fewer than the configured number ahead of it |
| ChangeLog.MoveChecked | internal/nodes/service.go:644-726 | An accepted move has a directory of the same tree outside the moved subtree as its target |
| ChangeLog.StepKeepsTreeAndLog | internal/nodes/service.go:742-753 | Every step keeps the forest and the log and names what it changes |
| ChangeLog.RunKeepsTreeAndLog | internal/nodes/service.go:742-753 | After any run the nodes are a forest of directories with one owner per tree, and folding an owner's log gives exactly its nodes and their Trash flags |
| ChangeLog.RevisionDeterminesRow | internal/nodes/service.go:357-408 | Two contents of one node row never carry the same revision |
| ChangeLog.UnnamedRowsAreCurrent | internal/maintenance/service.go:211-215 | A row that differs from an earlier state is named in the owner's feed since then |
| KeyScopes.CreateKeepsScopes | internal/nodes/service.go:99-140 | A create keeps the sharing invariant exactly when the node fits the keys retained under its ID |
| KeyScopes.MoveKeepsDisjoint | internal/nodes/service.go:673-687 | A move never nests keyed folders |
| KeyScopes.FirstKeyDisjoint | internal/sharing/service.go:125-129 | A first key is accepted only where no keyed folder lies above or below |
| KeyScopes.KeptKeys | internal/maintenance/service.go:216-222 | Whatever survives a purge keeps its key, even the key of a purged folder |
| KeyScopes.StepKeepsScopes | internal/maintenance/service.go:216-245 | Every allowed step keeps keys, disjoint scopes, placed shares and unique grants |
| KeyScopes.RunKeepsScopes | internal/sharing/service.go:460-529 | In every reachable state each node, version and envelope names an existing key of the same owner, scopes are disjoint, and each folder has one active share per recipient |
| KeyReuse.RetainedKeyReused | internal/maintenance/service.go:213-218 | A run from an empty server whose last event alone reuses the ID of a purged folder whose key is still needed, and so breaks the sharing invariant |
| NestedReuse.RevokedButReadable | internal/sharing/service.go:125-129 | A run from an empty server whose only broken assumption is the reused folder ID, and in which a user still reads a folder after its share was revoked |
| AccessLaws.OneShareReaches | internal/access/access.go:48-66 | Two active shares that reach one node for one recipient are the same share |
| AccessLaws.GrantIsTheShare | internal/access/access.go:48-66 | The share on the chain decides: it grants its permission unless Trash hides it |
| AccessLaws.RevokedUntilGranted | internal/sharing/service.go:360-395 | From a revocation on, in any run without a new grant in which the folder exists throughout, nothing at or below the folder can be looked up, listed or written by the recipient |
| AccessLaws.KeysLastAsLongAsFolder | internal/maintenance/service.go:216-222 | In any run, a folder that exists throughout keeps its owner and its keys |
| AccessLaws.BrowsingAgreesWithLookup | internal/nodes/service.go:153-173 | For every tree, Trash state and share set, browsing meets a foreign node if and only if looking it up succeeds |
| Confinement.MemberConfined | internal/nodes/service.go:624-672 | Any request of a user, uploads and purges included, changes only the requester's nodes and versions, or one node that stays strictly below one READ_WRITE share, under the share's newest key |
| Confinement.RunConfined | internal/uploads/service.go:396-417 | The same for every event of every run |
| Confinement.SharingIsConfined | internal/sharing/service.go:84-395 | Sharing requests touch only shares, keys and envelopes of the requester |
| Confinement.UploadIsConfined | internal/uploads/service.go:100-256 | An upload-session request opens, changes or adds chunks to sessions of the requester only, and no recorded chunk changes |
| Confinement.PurgeIsConfined | internal/maintenance/service.go:153-174 | A user's own purge removes only nodes and versions of that user |
| Integrity.RunLeavesNothingDangling | internal/maintenance/service.go:216-250 | In every reachable state parents, shares, envelopes, uploads and versions point at existing rows and every current version is a version of its file |
| Integrity.RestoredIsSafe | internal/nodes/service.go:496-518 | A node just restored is in no expired subtree, whatever the entry and the cutoff |
| Retries.UpdateAppliesToRead | internal/nodes/service.go:357-408 | An accepted update rewrites exactly the row the client read |
| Retries.DeleteAppliesToRead | internal/nodes/service.go:441-453 | An accepted delete trashes exactly the row the client read |
| Retries.CommitAppliesToRead | internal/uploads/service.go:408-444 | A stored completion replaces exactly the row named by the expected revision |
| Retries.RekeyAppliesToRead | internal/nodes/service.go:878-915 | Each item of a rekey batch rewrites exactly the row the client read |
| Retries.RecordLasts | internal/nodes/service.go:763-800 | An operation record is written once and lasts until it expires |
| Retries.RepeatedCreate | internal/nodes/service.go:763-800 | A create sent again within 30 days changes nothing and answers with the current row of the same node, or that it is gone or out of reach |
| Retries.RepeatedUpdate | internal/nodes/service.go:763-800 | An update sent again within 30 days changes nothing and answers with the current row of the same node, or that it is gone or out of reach |
| Retries.RepeatedDelete | internal/nodes/service.go:763-800 | A delete sent again within 30 days changes nothing |
| Retries.RepeatedRestore | internal/nodes/service.go:763-800 | A restore sent again within 30 days changes nothing and answers with the current row of the same node, or that it is gone or out of reach |
| Retries.RepeatedGrant | internal/sharing/service.go:531-546 | A grant sent again within 30 days creates no second share and answers with the first one while it is active |
| Retries.RepeatedComplete | internal/uploads/service.go:676-692 | A stored completion sent again within 30 days, whatever else it carries, writes no file and stores nothing |
| Retries.RevisionNeverFalls | internal/nodes/service.go:742-753 | A node's revision never falls over any run |
| Retries.RepeatedRekey | internal/nodes/service.go:878-890 | A rekey batch that was applied always fails when it is sent again and changes nothing, with a revision conflict while device and first node are still the actor's |
| Replies.ReadAgainExactly | internal/nodes/service.go:153-173 | A node is read again with the same content if and only if the owner's feed has not named it since and the reader still reaches it |
| Replies.CreateAnswersAlikeExactly | internal/nodes/service.go:92-101 | A create sent again within 30 days is answered as the first time if and only if the node is unnamed since and still reached |
| Replies.UpdateAnswersAlikeExactly | internal/nodes/service.go:345-352 | The same for a rename or move |
| Replies.RestoreAnswersAlikeExactly | internal/nodes/service.go:471-478 | The same for a restore, where only the feed matters |
| Replies.CreateAnswersDiffer | docs/adr/006-client-outbox-idempotency.md:21 | A run from an empty server in which a create and its repetition are answered differently |
| CompleteReplies.CompleteAnswersAlikeExactly | internal/uploads/service.go:325-337 | A stored completion sent again at any point of any run is answered the same if and only if its session and its version have lasted |
| Outcomes.CreateThenGet | internal/nodes/service.go:76-151 | Whoever creates a node, owner or member, reads back what it sent |
| Outcomes.UpdateThenGet | internal/nodes/service.go:357-408 | Whoever renames or moves a node, owner or member, reads back each field it sent and the others as they were |
| Outcomes.DeleteHides | internal/access/access.go:50-57 | After a deletion a recipient keeps exactly the shares rooted strictly below the deleted node |
| Outcomes.RestoreUndoesDelete | internal/nodes/service.go:463-528 | Delete and restore give the row back under a new revision, at the root if its folder is in Trash |
| Outcomes.GrantReaches | internal/sharing/service.go:193-262 | A grant gives its permission on everything of the folder that Trash does not hide |
| Outcomes.UploadStoresDeclared | internal/uploads/service.go:112-158 | From the opening through every state in which the upload stays open, and any interleaving up to the commit, file and version get exactly what was declared and the version's bytes are the recorded chunks |
| Durability.RunKeepsBlobs | internal/uploads/service.go:364-375 | After any run with crashes every version's blob row and file exist with the recorded size and digest, and open sessions share no blob |
| Durability.VersionBytesNeverChange | internal/maintenance/service.go:369-435 | While a version exists its bytes never change |
| Durability.RowGoesOnlyAfterGrace | internal/maintenance/service.go:369-435 | A blob row goes only after the blob was unreferenced in every state since a mark at least the grace period ago |
| Durability.CommitSafeExactly | internal/uploads/service.go:371-375 | A completion that has just stored its rows keeps its file in every run, as long as the row is there, if and only if no other completion and no collector had the blob in hand |
| Durability.CondemnedWhileWriting | internal/maintenance/service.go:474-508 | From any state in which a due file is condemned while a completion works on it, the committed file is lost |
| Durability.WrittenWhileCondemned | internal/uploads/service.go:364-370 | From any state in which a completion writes a condemned file, the committed file is lost |
| Durability.ReservedWhileSwept | internal/uploads/service.go:121-135 | A blob reserved between the removal of its old row and of its old file loses the new file, whatever happens in between |
| Scenarios.ReusedBlobIdLosesData | internal/uploads/service.go:121-135 | A run from an empty server in which one event reserves a blob ID in flight and a committed version loses its bytes |
| Scenarios.OverlappingOrphanLosesData | internal/maintenance/service.go:474-508 | A run from an empty server in which one completion overlaps the orphan collector and a committed blob loses its file |
| Scenarios.InterruptedPurgeStrandsUpload | internal/maintenance/service.go:237-249 | An allowed run from an empty server in which a purge is cut off before its commit and the open upload cannot be completed |
| BlobPass.PassIsRun | internal/maintenance/service.go:369-435 | An uninterrupted pass is a run of the machine's steps, in any order |
| BlobPass.OrphanPassIsRun | internal/maintenance/service.go:437-508 | An uninterrupted orphan pass is a run of the machine's steps, in any order |
| Reclaimed.SecondPassCollects | internal/maintenance/service.go:369-435 | A blob unreferenced from one marking pass to a second at least the grace period later is gone after the second, whatever happens in between |
| Reclaimed.SecondPassRemovesOrphan | internal/maintenance/service.go:437-508 | A file without a row from one scan to a second pass at least the grace period later is removed, whatever happens in between |
| ChunkStore.RecordedChunkNeverChanges | internal/uploads/service.go:180-212 | While an upload stays open, a recorded chunk keeps its size and digest, and its file, if still there, its bytes |
| ChunkStore.FilesPresentExactly | internal/uploads/service.go:186-212 | While an upload stays open, all its recorded chunks have their files if and only if no interrupted purge removed the directory after a chunk was recorded |
| ChunkStore.LostFileStaysLost | internal/uploads/service.go:180-185 | A recorded chunk whose file is lost never gets it back while the upload stays open |
| ChunkStore.FirstWriterWins | internal/uploads/service.go:160-212 | In any run in which an upload stays open, each chunk is the first acceptable content sent for it |
| ChunkStore.Confluent | internal/uploads/service.go:160-212 | Two runs in which an upload stays open and whose chunk requests agree record the same chunks, whatever the order, the repetitions and the rest of the runs |
| ChunkStore.OpenWithinLimit | internal/uploads/service.go:361-363 | The size check of a completion cannot fail under an unchanged limit |
| ChunkStore.TemporaryStorageBounded | internal/uploads/service.go:137-143 | One device's unexpired open uploads hold at most 64 times the file limit |
| Completions.CompletionJoinsChunks | internal/uploads/service.go:526-613 | A completion finds all chunks exactly when 0..n-1 are recorded, then writes them joined in order within the limit, and fails only on a lost file, leaving none |
| Completions.CompletesExactly | internal/uploads/service.go:526-613 | Once all chunks are recorded, completing an upload succeeds at any point of any run in which it stays open if and only if no interrupted purge removed its directory |
| Completions.LostFileStrandsUpload | internal/uploads/service.go:568-613 | In every run in which an upload with a lost chunk file stays open, no completion of it succeeds |
| Completions.CompletedUpload | internal/uploads/service.go:325-471 | Across its two halves and any interleaving, a stored completion holds the chunks recorded at its start |
| Reachable.EveryReachableState | internal/nodes/service.go:644-753 | In every state reachable from an empty server all invariants hold together |
| UploadLocks.LockTable.Enter | internal/uploads/service.go:706-718 | The first critical section finds or creates the entry and counts one more user |
| UploadLocks.LockTable.Leave | internal/uploads/service.go:719-727 | The last critical section counts one user less and drops the entry at zero |
| UploadLocks.MutualExclusion | internal/uploads/service.go:694-728 | For any number of threads and any interleaving two threads never hold one upload |
| UploadLocks.EntryLivesWhileUsed | internal/uploads/service.go:694-728 | An entry's counter is the number of threads that use it, and it is listed exactly while there are any |
| UploadLocks.NeverStuck | internal/uploads/service.go:706-728 | While any thread is on its way, some thread can move |
| LockedRuns.LocksSuffice | internal/uploads/service.go:325-471 | Any number of threads that complete uploads between lock and unlock, with crashes and any interleaving, make an allowed run of the server as soon as the other four assumptions hold |
| RequestRuns.CompletionIsRun | internal/uploads/service.go:325-461 | A completion that nothing interrupts is a run of two actions, which stores file and rows if and only if the commit is accepted, and otherwise leaves neither |
| RequestRuns.PurgeIsRun | internal/maintenance/service.go:180-257 | An uninterrupted purge is a run of two actions and changes exactly the rows and files of the purged nodes |
| RequestRuns.CleanupIsRun | internal/maintenance/service.go:302-367 | The cleanup of one expired upload is a run of three actions that removes its row, chunk rows and files and no others |
| RequestRuns.AbortIsRun | internal/uploads/service.go:238-256 | An abort is a run of two actions that closes one upload and empties its directory |
| Sessions.TokenService.Login | internal/auth/session.go:163-199 | The transaction of a verified login registers the device and issues a pair, or changes nothing |
| Sessions.TokenService.Refresh | internal/auth/session.go:223-318 | Rotation, retry and reuse detection compute the specified tables and answer |
| Sessions.TokenService.Logout | internal/auth/session.go:325-351 | Logout retires a live token and drops its device's access tokens |
| Sessions.TokenService.RevokeDevice | internal/auth/session.go:424-447 | Revocation marks the device and its live refresh tokens |
| Sessions.OneMinuteTakeover | internal/auth/session.go:284-318 | At any point of any run from no sessions, more than a minute after a rotation only credentials it or a later call issued are accepted for the device |
| Sessions.LiveTokensBounded | internal/auth/session.go:296-302 | From a rotation on, in any run, the device has at most one live refresh token and one more for each login since |
| Sessions.RetryWithinWindow | internal/auth/session.go:250-275 | Within the window a rotated token works again and retires its lost successor |
| Sessions.ReuseEndsSessions | internal/auth/session.go:259-271 | At any point of any run, once a rotated token is presented after its window nothing of the device is accepted until its next login, unless another of its tokens was rotated within the window |
| Sessions.RecentRotationSurvives | internal/auth/session.go:250-271 | A token rotated within the window is still exchanged after the reuse of another one was detected |
| Sessions.RevocationIsFinal | internal/auth/session.go:424-447 | Nothing is ever accepted again for a revoked device |
| Sessions.LogoutIsFinal | internal/auth/session.go:325-351 | A logged-out token is never exchanged again |
| TokenRules.LoginEffect | internal/auth/session.go:163-199 | A login registers the device and adds one pair, and changes no other token |
| TokenRules.RefreshDecides | internal/auth/session.go:223-285 | A refresh succeeds if and only if the token is live or was rotated at most a minute ago and its holder is in order, and changes nothing when it fails, unless reuse is seen |
| TokenRules.RefreshEffect | internal/auth/session.go:284-318 | The new pair takes over the device's live tokens and cuts its older access tokens to a minute; the tokens of other devices stay |
| TokenRules.ReuseEffect | internal/auth/session.go:259-271 | Reuse ends the sessions of its device and of no other |
| TokenRules.LogoutEffect | internal/auth/session.go:325-351 | Logout retires one token and drops its device's access tokens, and touches no other device |
| TokenRules.RevokeEffect | internal/auth/session.go:424-447 | Revocation marks the device and retires its live refresh tokens, and touches no other device |
| TokenRules.IssuedUntilExpiry | internal/auth/session.go:595-628 | A pair is accepted until it expires, through any run that rotates, logs out or revokes nothing of its device and leaves the account active |
| Limiter.AttemptLimiter.Insert | internal/auth/limiter.go:126-147 | Making room prunes the idle entries and then one least recently failed one |
| Limiter.AttemptLimiter.Begin | internal/auth/limiter.go:47-70 | An attempt is reserved unless the key is blocked or at its cap |
| Limiter.AttemptLimiter.End | internal/auth/limiter.go:72-88 | An attempt is released, and an entry without failures and attempts goes |
| Limiter.AttemptLimiter.RecordFailure | internal/auth/limiter.go:90-104 | A failure counts and blocks the key for the wait it has earned |
| Limiter.AttemptLimiter.RecordSuccess | internal/auth/limiter.go:106-121 | A success clears failures and block |
| Limiter.BusyNeverDropped | internal/auth/limiter.go:126-147 | A blocked key or one in flight is never evicted |
| Limiter.GrowsOnlyWhenBusy | internal/auth/limiter.go:126-147 | The table grows past its cap only when every entry is blocked or in flight |
| Limiter.RunCounts | internal/auth/limiter.go:47-88 | In-flight counts are the begins that have not ended |
| Limiter.LoginSpacing | internal/auth/limiter.go:160-171 | n failed logins of one key take at least 32 + 60(n-8) seconds |
| LimiterRules.RoomExactly | internal/auth/limiter.go:126-147 | A full table of 10 000 drops exactly the droppable keys idle for fifteen minutes, and if it is still full one of those that failed least recently |
| SyncFeed.SyncService.Changes | internal/sync/service.go:51-99 | A page is the first rows of the feed above the cursor, clamped to the configured sizes |
| SyncFeed.FeedExact | internal/sync/service.go:62-65 | The feed holds exactly the user's entries above the cursor |
| SyncFeed.WalkIsPrefix | internal/sync/service.go:51-99 | At every point of a walk over a growing log the client holds the feed up to its cursor |
| SyncFeed.WalkIsComplete | internal/sync/service.go:90-98 | Following the cursor until no more is announced returns every entry once and in order |
| SyncFeed.FeedNamesEveryChange | internal/sync/service.go:51-99 | A row that no collected entry names is unchanged since the snapshot |
| Listing.ListPage | internal/nodes/service.go:224-267 | A page is the first rows strictly above the cursor, with a cursor exactly when more follow |
| Listing.PagesJoinExactly | internal/nodes/service.go:224-267 | The pages of a fixed listing join to it for every page size if and only if no key repeats |
| Listing.RepeatsExactly | internal/nodes/service.go:204-217 | A node is listed twice at the root exactly when it is shared twice or is the user's own shared root |
| Listing.RootListingPages | internal/nodes/service.go:204-217 | Under the sharing invariants the root pages hold every readable root once |

## Left out

- Cryptography, passwords and the re-check of the password hash inside the login transaction: digests and tokens are opaque, and Login starts after verification.
- Columns that no modelled decision reads: end-to-end headers, sync payloads, signatures, device names, last-seen and last-sync times, result codes, the stored per-session limit.
- Malformed UUID and cursor text: identifiers are numbers in their one canonical spelling, and a cursor is the key it encodes.
- Sessions without a stored expected revision, created before migration 0006: a session always has one.
- Favorites, provisioning, recovery, user creation and password changes: users and devices change arbitrarily between steps.
- Disk-full errors, ambiguous commit errors and file removals that fail part-way.
- A crash while a completion assembles its blob file leaves a partial file without a row; the machine knows whole files only, and for what is claimed the partial file is an orphan like any other.
- Replies are read with nothing between the transaction and the read.
- Two maintenance runs at once: the actions interleave with all requests and crashes, but one removal is not modelled as raced by a second maintenance process.
- Uploads.PutChunk: file and row are one step for everyone else; a crash between them is the separate action StoreChunkFile.
- Collector.CollectOrphanBlobFiles: the method runs without interruption; the state machine splits it per file.
- Trash.ExpireTrash: which keys of purged folders stay, when only other purged folders use them, depends on the order of the entries; the claim bounds it from both sides.
- Collection of folder keys that a purge retained and nothing uses any more: only that needed keys survive is claimed.
- Database waits, context cancellation and the password concurrency cap.
- Listing.ListPage: reads an ordered row sequence; that SQLite sorts by creation time and ID is taken from the query.
- Sharing.AddEnvelopes: an envelope revoked earlier for the same device and version is kept as it is, as in the code; its re-delivery is not a claim.
