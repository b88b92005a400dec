# The local-first sync core of Bittery, modelled and proved

Bittery edits encrypted vault items locally and sends the edits later. This project models the parts of it that make
that safe and proves what they promise.

**Outbound queue.** Commands wait in one stored document per device, shared by any number of engines (tabs, a
background worker, a restarted process). `Commands` is the command record and every edit of a single command.
`QueueMerge` and `MergeLaws` are the three-way merge by which an engine persists its queue, and what it means.
`QueueSteps` shows that from an adopted snapshot the merge is a compare-and-swap per edited command, an insertion,
or a removal. `SyncEngine` is the engine itself, a class over a storage document, proved against those functions;
`DrainPass` specifies its drain loop for an arbitrary environment.

**Delivery.** `Protocol` is a world of engines, one stored queue, a network that loses, delays and duplicates, other
devices, and a server that checks `If-Match` and remembers every answered idempotency key. `ProtocolSafety`,
`Delivery`, `ExactlyOnce`, `KeyChange`, `ManyDrainers`, `EnqueueOrder`, `OneDrainer`, `SealedConflicts` and `Claims`
prove what holds in every run, and exactly when; `LateCommand` and `TwoDrainers` are concrete runs in which a
promise fails, built with `Scenes`. `Refinement` shows that the arrays the engines keep stand for the maps of that
world in every run. `SoleWriter` adds item contents to the server and follows a whole queue through one drain pass;
`EndToEnd` puts the engine and that server together. `Etag` is the text form of a version, section 8.8.3 of RFC
9110. `Idempotency` is the server's table of idempotency records, with concurrent requests, crashes and expiry.

**Item cache.** `CacheModel` says what readers make of the bulk record store and what publishing a bootstrap should
leave there. `StagedCache` and `CacheOperations` are the classes that do it, with a ghost trace of the store after
every single record write. `AccountLock` is the lock made of chained promises.

**Catching up.** `CatchUp` is the page loop, the apply-then-acknowledge step and the orchestrator pass around them,
with every durable state recorded. `EventStream` is the incremental splitter of the event stream, and `EventFraming`
compares it with section 9.2 of the WHATWG HTML Standard.

**Accounts and secrets.** `AccountStore` is the account store and the view it publishes to the native host. `Bits`
and `Base32` are the codec for one-time password secrets.

## What is assumed

- A local change of a queue together with its persist pass is one step. `SyncStorage.update` serialises, as
  `packages/sync/src/types.ts:174-189` demands, and storage holds values.
- Ids, payloads, keys, blobs and error texts are opaque. Operation ids and freshly minted ids are new.
- A command signature is the command record; JSON text parses back to what was written, and corrupt text to nothing.
- The server of the shared world handles a request in one step, never forgets a key and knows every outcome.
  `Idempotency.NothingForgottenWithinADay` shows that the table of records forgets nothing for a day. A request
  whose outcome is unknown is answered 409 (`apps/server/src/http/idempotency.rs:52-55`), which the shared world
  does not contain.
- Other devices only count an item's revision up. The one way down is permanent deletion, after which the item may
  be created anew at revision 1. A request that names revision 0 is rejected unread.
- What an operation of the cache does between taking and releasing the account lock is not interleaved with other
  operations on that account; `AccountLock` proves that the lock provides this.
- Operations of `AccountStore` run one at a time.
- Upper-casing of characters maps ASCII letters, keeps other ASCII, produces no white space, and is idempotent.

## Where the code falls short of a promise

- *Every ordinary command takes effect at most once* fails when an acknowledgement moves the next command of the
  item to a new key although that command had already been sent (`packages/sync/src/outbound-queue.ts:189-205`).
  `LateCommand.LateTimestampBreaksAtMostOnce` is such a run with one drainer, caused by a lost answer and a command
  dated before one already sent. `TwoDrainers.SecondDrainerBreaksAtMostOnce` is one with two drainers, no lost
  message and commands in time order: both engines send the first command, and one of them acknowledges it late. The
  exact condition for any number of engines is `ManyDrainers.KeyChangeIsSafeIffForAll`: the key put aside was
  refused, or names a revision no server accepts, or was never sent and no other engine can send it. With one
  drainer it reduces to `KeyChange.KeyChangeIsSafeIff`, and `EnqueueOrder.OrderlyAtMostOnce` shows that one drainer
  and time-ordered commands meet it. For commands in time order the promise holds in every run if and only if at
  most one engine drains (`OneDrainer.AtMostOnceKeptIff`). A sealed command never gets a second key, so
  `Delivery.SealedAtMostOnce` needs no condition.
- *A retry never repeats a write* fails when the server does not know the outcome of the first request, because it
  crashed or took longer than its claim. It answers 409, and the client takes that for a refusal and sends a
  command without ciphertext again under a new key (`packages/sync/src/outbound-queue.ts:1035-1047`).
  `Idempotency.NewKeyAfterUnknownIsSafeIff` is the exact condition: the first request has not landed and is not
  under way any more.
- *Commands of one item are acknowledged in the order they were enqueued*: for commands in time order this holds in
  every run if and only if at most one engine drains (`OneDrainer.OrderKeptIff`);
  `TwoDrainers.SecondDrainerBreaksOrder` is the failing run of any two engines. For any number of drainers,
  acknowledgements of commands that are still active in the store come in order
  (`EnqueueOrder.ActiveAcknowledgedInOrder`).
- *A sealed command conflicts only if the item moved on* fails in such a run as well: the third command is put in
  conflict although the item is at exactly the revision it was sealed against
  (`TwoDrainers.SecondDrainerConflictsSealed`). `SealedConflicts.ConflictsRightlyIff` is the exact condition in
  every state, and while the item exists, acknowledgements are right for every sealed command if and only if nobody
  wrote the item since the answer (`SealedConflicts.JudgedRightlyIffQuiet`). One drainer is not enough for that,
  since other devices write the item too.
- *Until a lease expires only its holder can finish or withdraw a staged command* holds exactly if no engine still
  remembers another claim on it (`Claims.LeaseIsSafeIff`). An engine that remembers an earlier, expired claim of its
  own gets `true` from `cancel` and the command is gone for everybody (`Claims.ExpiredHolderWithdraws` reaches such
  a state), and gets `true` from `activate` although nothing happened (`Claims.ActivateTakesEffectIff`). An
  acknowledgement activates a staged metadata command behind it exactly if it does not name the revision reached
  (`Claims.AckKeepsLeaseIff`).
- *No cached unlock key is destroyed* fails when one key is cached under two accounts
  (`AccountStore.SharedKeyIsDestroyed`); `AccountStore.CachedKeysSurviveIff` is the exact condition.
- *Adding an account keeps the others* fails for readers when its metadata holds no transport decision: the stored
  list then does not parse, and every account is hidden until it is rewritten (`AccountStore.Store.AddAccount`
  states both cases).
- *Events are framed as section 9.2 of the WHATWG HTML Standard says* fails for a carriage return that no line feed
  follows, which ends a line there but not here (`EventFraming.LoneReturnIsMissed`).
  `EventFraming.FramingIsStandardIff` is the exact condition for every stream; for one that ends with a blank line
  it is that it holds no such carriage return (`EventFraming.CompleteFramingIsStandardIff`).

## Model

| member | source | states |
|---|---|---|
| MergeLaws.MergeFollowsTable | packages/sync/src/outbound-queue.ts:288-352 | for every operation id the merged queue holds exactly what the case table over known, desired and stored copies says |
| MergeLaws.ChangedOnlyIfSeen | packages/sync/src/outbound-queue.ts:307-327 | a stored command is replaced only by an engine whose last seen copy equals it, removed only by one that knew it, added only by one that did not |
| MergeLaws.MergeIsCanonical | packages/sync/src/outbound-queue.ts:299-338 | from any document and any memory the merged queue is sorted by time and holds each operation once |
| MergeLaws.SecondWriteIsNoOp | packages/sync/src/outbound-queue.ts:242-255 | after adopting what was written, writing again changes nothing |
| MergeLaws.RemovedElsewhereAre | packages/sync/src/outbound-queue.ts:312-318 | what another engine removed is every command in memory that was known and is not stored any more, in order |
| MergeLaws.InsertAllIsStable | packages/sync/src/outbound-queue.ts:329-331 | sorting keeps the order of commands of the same time |
| MergeLaws.AdoptAllIsOverlay | packages/sync/src/outbound-queue.ts:312-328 | the loop over the desired commands rewrites kept commands in place and appends exactly the new ones |
| QueueSteps.EditIsSwap | packages/sync/src/outbound-queue.ts:312-327 | editing commands and persisting is a compare-and-swap of each edited command against the last adopted copy |
| QueueSteps.EnqueueIsInsert | packages/sync/src/outbound-queue.ts:434-469 | queueing a new command and persisting inserts exactly that command into whatever is stored |
| QueueSteps.RemovalIsWithout | packages/sync/src/outbound-queue.ts:307-311 | dropping commands and persisting removes exactly those, whatever their stored copy |
| QueueSteps.ChainIs | packages/sync/src/outbound-queue.ts:375-392 | chaining touches the first active command of the entity and nothing else |
| Commands.FailureUsesEffort | packages/sync/src/outbound-queue.ts:882-928 | a failed dispatch keeps identity, strictly uses up attempts, never moves a sealed command to another revision, and changes the key only after a refusal |
| Commands.RefusedOutcome | packages/sync/src/outbound-queue.ts:882-928 | after a refusal a sealed command is in conflict where it is; any other points at the revision that was read, the entity tag before the body, under a fresh key and at once, up to the fifth attempt; an unreadable item puts it back |
| Commands.FailureOutcome | packages/sync/src/outbound-queue.ts:1049-1084 | what a missing item, an invalid request, a lost and an unexpected answer come to, with the delays of one, two, four and eight seconds before the fifth attempt gives up |
| Commands.ChainedOutcome | packages/sync/src/outbound-queue.ts:189-205 | behind an acknowledged command a sealed one that names another revision is in conflict, any other follows under a fresh key, pending and at once |
| Commands.StatesAre | packages/sync/src/outbound-queue.ts:77-94 | conflicted and failed commands are the inactive ones; what may be sent is active, neither staged nor applying, and due |
| Commands.ClaimableIff | packages/sync/src/outbound-queue.ts:518-530 | a staged command may be claimed unless somebody holds a claim on it that has not expired |
| Commands.LocalEditOutcome | packages/sync/src/outbound-queue.ts:477-600 | which fields each local edit changes, and whose lease it needs, takes or gives back |
| Commands.DispatchableIff | packages/sync/src/outbound-queue.ts:777-880 | what is sent: everything but cross-account moves, if its payload is complete |
| Commands.NormalizeIs | packages/sync/src/outbound-queue.ts:68-75 | ids and status are filled in where they are missing and nothing else changes |
| Commands.BackoffIsMonotone | packages/sync/src/outbound-queue.ts:158-172 | retry delays stay between one second and one minute and never shrink |
| Etag.EtagRoundTrip | packages/sync/src/outbound-queue.ts:49-66 | a written version is read back exactly when it is a safe integer |
| Etag.OnlyStrongTagsAreRead | packages/sync/src/outbound-queue.ts:59-66 | weak, unquoted and empty tags never count as a version |
| SyncEngine.Reconcile | packages/sync/src/outbound-queue.ts:288-352 | the updater's loops compute the merge and exactly the commands removed elsewhere |
| SyncEngine.ItemSyncEngine.WriteQueue | packages/sync/src/outbound-queue.ts:288-352 | memory and document become the merge, other accounts stay, and a drain is requested exactly if commands appeared that were not in memory; a request stays |
| SyncEngine.ItemSyncEngine.Enqueue | packages/sync/src/outbound-queue.ts:434-489 | a known operation changes nothing; a new one is inserted durably before its projection runs |
| SyncEngine.PreparedIs | packages/sync/src/outbound-queue.ts:434-456 | what enqueue stores: the command with missing ids filled in, applying or pending, a conflicted or failed one as it is |
| SyncEngine.ItemSyncEngine.FinishProjection | packages/sync/src/outbound-queue.ts:477-488 | the outcome of the projection is written into the object taken before it ran: a compare-and-swap of that one command while the queue holds the object, lost once another copy took its place; the queue is merged either way |
| SyncEngine.ItemSyncEngine.Stage | packages/sync/src/outbound-queue.ts:491-516 | a staged command is merged in with its lease, once |
| SyncEngine.StagedCopyIs | packages/sync/src/outbound-queue.ts:491-500 | what stage stores: the command staged under the claim handed in, or free for anybody to claim |
| SyncEngine.ItemSyncEngine.ClaimStaged | packages/sync/src/outbound-queue.ts:518-544 | in every account every free or expired staged command is claimed, in order, and the claims are merged; accounts without one stay as they were |
| SyncEngine.ClaimedAt | packages/sync/src/outbound-queue.ts:518-544 | claiming touches the free and expired ones only, in place, and returns exactly those |
| SyncEngine.ClaimsConcat | packages/sync/src/outbound-queue.ts:527-540 | and returns them in queue order |
| SyncEngine.ClaimsPersistedIff | packages/sync/src/outbound-queue.ts:531-541 | nothing is persisted exactly if there is nothing to claim |
| SyncEngine.ItemSyncEngine.Activate | packages/sync/src/outbound-queue.ts:546-580 | with both halves at once: true exactly for a holder in memory whose projection went through; success makes the command pending and a throw makes it failed, each stored as a compare-and-swap; others change nothing |
| SyncEngine.ItemSyncEngine.BeginActivation | packages/sync/src/outbound-queue.ts:551-562 | the reference is taken exactly if this engine's copy is staged under the claim |
| SyncEngine.ItemSyncEngine.FinishActivation | packages/sync/src/outbound-queue.ts:563-579 | whatever happened during the projection: the answer is its outcome, the edit reaches the store as a compare-and-swap while the queue holds the object and is lost otherwise, and the queue is merged either way |
| SyncEngine.ItemSyncEngine.Cancel | packages/sync/src/outbound-queue.ts:582-603 | true exactly for a holder in memory; the operation leaves the store |
| SyncEngine.ItemSyncEngine.Restore | packages/sync/src/outbound-queue.ts:619-677 | memory is rebuilt from storage for every account; with a reconciler every command that is neither staged nor terminal is projected again, what changed is merged into storage, and the conflicts found are returned |
| SyncEngine.NormalizedAt | packages/sync/src/outbound-queue.ts:629-636 | every loaded command stands in its place, with its ids, its account and its status filled in |
| SyncEngine.ReappliedAt | packages/sync/src/outbound-queue.ts:638-668 | what projecting each command again comes to, in place, and that exactly the newly conflicted ones are returned |
| SyncEngine.ConflictsConcat | packages/sync/src/outbound-queue.ts:639-655 | and those in queue order |
| SyncEngine.ReappliedPersistedIff | packages/sync/src/outbound-queue.ts:639-668 | nothing is persisted exactly if projecting again leaves every command as it is |
| SyncEngine.ItemSyncEngine.Clear | packages/sync/src/outbound-queue.ts:1100-1106 | clearing an account removes what this engine knew and leaves what it did not |
| SyncEngine.ItemSyncEngine.PersistAcknowledgement | packages/sync/src/outbound-queue.ts:359-415 | the acknowledged command goes, the next of its item is chained, and that one is returned exactly if it became conflicted |
| SyncEngine.ItemSyncEngine.DrainAccount | packages/sync/src/outbound-queue.ts:955-1086 | on a closed queue the loop terminates in the state the pass specification gives, for every environment; without a client one command is put back |
| SyncEngine.ItemSyncEngine.Drain | packages/sync/src/outbound-queue.ts:930-953 | a drain during a drain only leaves a request; otherwise every account is visited, each in the world the previous one left, and once more for every pass during which a request arrived; after an uninterrupted one every account has what one visit makes of its old queue |
| SyncEngine.AscendingIs | packages/sync/src/outbound-queue.ts:960-964 | the accounts of a pass are exactly those with a queue, each once |
| SyncEngine.EachIsVisited | packages/sync/src/outbound-queue.ts:960-964 | a pass visits each listed account once and leaves every other queue alone |
| SyncEngine.LastPassVisitsAll | packages/sync/src/outbound-queue.ts:930-964 | however many passes, every queue ends as a visit left it, and with one pass as a visit of the old queue left it |
| SyncEngine.VisitLeavesNothing | packages/sync/src/outbound-queue.ts:966-982 | with a client a visit leaves no command that is ready, unblocked and unattempted |
| SyncEngine.VisitWithoutClient | packages/sync/src/outbound-queue.ts:984-992 | without a client the first runnable command is put back, and nothing else happens |
| SyncEngine.RequestsAre | packages/sync/src/outbound-queue.ts:936-950 | the passes go on exactly until the first one during which nobody asked for another |
| DrainPass.DispatchesAreBounded | packages/sync/src/outbound-queue.ts:993-1086 | the number of dispatches never exceeds the remaining attempts of the active commands |
| DrainPass.TurnOutcome | packages/sync/src/outbound-queue.ts:1003-1084 | one dispatch comes to the acknowledged command gone or the failed one replaced by its outcome, and a lost answer is remembered for the pass |
| DrainPass.LostOncePerPass | packages/sync/src/outbound-queue.ts:1066-1084 | a command whose answer was lost is not dispatched again in the same pass |
| DrainPass.NothingRunnableLeft | packages/sync/src/outbound-queue.ts:966-982 | a pass ends only when no command is ready, unattempted and unblocked |
| DrainPass.OnlyOwnEntityDelays | packages/sync/src/outbound-queue.ts:77-94 | what holds an entity back when a pass ends is its own first active command: staged, applying, backing off or attempted |
| DrainPass.PickedIsFirstActive | packages/sync/src/outbound-queue.ts:966-982 | everything handed to the server is the first active command of its entity |
| DrainPass.TurnTouchesOneEntity | packages/sync/src/outbound-queue.ts:993-1086 | settling a dispatch leaves the commands of every other entity as they were |
| DrainPass.OfEntityIs | packages/sync/src/outbound-queue.ts:77-94 | what the previous row compares: all commands of the entity, and no other |
| DrainPass.OfEntityConcat | packages/sync/src/outbound-queue.ts:77-94 | and it compares them in queue order |
| SoleWriter.ExecutedIsHandle | apps/server/src/domains/vaults/items.rs:453-870 | the server with item contents refines the server of the shared world |
| SoleWriter.EffectIs | apps/server/src/domains/vaults/items.rs:453-870 | which fields of which item each kind of command changes, and that nothing else does |
| SoleWriter.AllowedIff | apps/server/src/domains/vaults/items.rs:686-826 | only trashed items are restored or deleted for good, only untrashed ones moved, and only out of their own vault |
| SoleWriter.WholeQueueGoesThrough | packages/sync/src/outbound-queue.ts:955-1047 | a queue that fits the server is acknowledged completely and in order, each command dispatched once, a first metadata command that names an outdated revision twice, and leaves the fold of its commands |
| SoleWriter.UpToDateDispatchesOnce | packages/sync/src/outbound-queue.ts:955-1033 | if no first command is outdated each command is dispatched exactly once |
| SoleWriter.OfflineEditsFit | packages/sync/src/outbound-queue.ts:189-205 | a witness that the hypothesis of WholeQueueGoesThrough can be met, by a queue with an outdated revision: an item created, starred and edited offline |
| EndToEnd.DrainToServer | packages/sync/src/outbound-queue.ts:955-1047 | one drain of a fitting queue by its only writer empties the stored queue, sends the commands in order, each once and an outdated one twice, and leaves the server with all of them carried out |
| Protocol.RequestOfIs | packages/sync/src/outbound-queue.ts:49-57 | what is sent: the payload under the attempt's key, with the base revision as precondition unless it creates |
| Protocol.ReplayIsHarmless | apps/server/src/shared/idempotency.rs:43-117 | a remembered key is never executed again, and no remembered answer is lost |
| Protocol.OnlyMatchingWritesLand | apps/server/src/domains/vaults/http/mod.rs:506-534 | an item changes only for a new key whose request names its revision, or creates it |
| Protocol.LandsIff | apps/server/src/domains/vaults/http/mod.rs:506-534 | a request under a new key lands exactly if it is allowed and creates an absent item or names the revision of a present one, and where it lands |
| Protocol.RefusalIs | apps/server/src/domains/vaults/http/mod.rs:506-534 | which refusal every request gets that does not land |
| Idempotency.ExecutionsAreADayApart | apps/server/src/shared/idempotency.rs:43-170 | with concurrent requests, crashes and maintenance at any moment, a key is executed again only a day after its previous execution was recorded |
| Idempotency.ExecutesIff | apps/server/src/shared/idempotency.rs:43-80 | a request gets to execute exactly if its key has no record, or one whose outcome was recorded a day ago |
| Idempotency.MaintenanceIs | apps/server/src/shared/idempotency.rs:156-170 | maintenance forgets what is a day old, declares outcomes unknown whose claim has run out, and changes nothing else |
| Idempotency.OneAtATime | apps/server/src/shared/idempotency.rs:43-94 | two executions of one key are never under way together, not even after the first claim ran out |
| Idempotency.ReplayIsTrue | apps/server/src/shared/idempotency.rs:82-117 | a replayed answer is the recorded one of the key's latest execution, which was of the same request |
| Idempotency.CompletionIsRecordedIff | apps/server/src/shared/idempotency.rs:119-154 | an execution that finishes within its claim is put on record, and one that finishes later leaves the outcome unknown |
| Idempotency.RecordedIsReplayed | apps/server/src/shared/idempotency.rs:43-117 | for a day every request under a recorded key is told the recorded answer, or that the key was used for another request |
| Idempotency.MismatchIff | apps/server/src/shared/idempotency.rs:82-96 | while a key has a record, reuse for another request is reported exactly if the latest execution was of another request |
| Idempotency.OpenOutcomeBlocks | apps/server/src/shared/idempotency.rs:28-30 | an execution whose outcome was not recorded blocks its key for good, and every later request of it is told so |
| Idempotency.NothingForgottenWithinADay | apps/server/src/shared/idempotency.rs:43-154 | in a run shorter than a day no key is executed twice |
| Idempotency.NewKeyAfterUnknownIsSafeIff | packages/sync/src/outbound-queue.ts:1035-1047 | sending a command again under a new key after an unknown outcome never carries it out twice, in any run, if and only if the first request has not landed and is not under way |
| ProtocolSafety.StepKeepsInv | packages/sync/src/outbound-queue.ts:242-415 | books, stored copies, held copies and keys stay consistent in every step of any number of engines |
| Delivery.StoredIsIssuedMinusRemoved | packages/sync/src/outbound-queue.ts:288-415 | in every reachable state the stored operations are exactly those issued minus those removed |
| Delivery.OnlyRemovalsLose | packages/sync/src/outbound-queue.ts:359-415 | only an acknowledgement, a cancellation or a clear takes an operation out of the store |
| Delivery.RemovedStaysRemoved | packages/sync/src/outbound-queue.ts:312-318 | whatever was removed is never stored again, whoever still holds it |
| Delivery.TerminalStaysTerminal | packages/sync/src/outbound-queue.ts:319-327 | along every run a failed or conflicted command never becomes active again and keeps what it asks for |
| Delivery.SealedNeverRebased | packages/sync/src/outbound-queue.ts:103-117 | every copy of a sealed command, stored or held, has the base version and payload it was enqueued with |
| Delivery.NoKeyReuse | packages/sync/src/outbound-queue.ts:49-57 | no request ever meets the remembered answer to a different request under its key |
| Delivery.SealedAtMostOnce | packages/sync/src/outbound-queue.ts:174-205 | however many engines drain, a sealed command takes effect at most once |
| Delivery.AcknowledgedTookEffect | packages/sync/src/outbound-queue.ts:1003-1033 | every acknowledged command took effect |
| ExactlyOnce.AtMostOnce | packages/sync/src/outbound-queue.ts:882-928 | with one drainer, if no acknowledgement puts a live key aside, every ordinary command takes effect at most once |
| ExactlyOnce.AcknowledgedExactlyOnce | packages/sync/src/outbound-queue.ts:1003-1075 | and every acknowledged one exactly once |
| ManyDrainers.AtMostOnceForAll | packages/sync/src/outbound-queue.ts:882-928 | the same for any number of drainers, if every key an acknowledgement puts aside was refused, or was never sent and no other engine can send it |
| ManyDrainers.AcknowledgedExactlyOnceForAll | packages/sync/src/outbound-queue.ts:1003-1075 | and every acknowledged command took effect exactly once |
| ManyDrainers.KeyChangeIsSafeIffForAll | packages/sync/src/outbound-queue.ts:189-205 | that condition is exact: with any number of engines, an acknowledgement that puts a key aside keeps the promise in every continuation if and only if it meets it |
| EnqueueOrder.OrderlyAtMostOnce | packages/sync/src/outbound-queue.ts:966-1002 | one drainer and commands in time order are enough for at-most-once |
| EnqueueOrder.AcknowledgedInEnqueueOrder | packages/sync/src/outbound-queue.ts:966-1002 | with one drainer and commands in time order, the acknowledgements of one entity come in enqueue order |
| EnqueueOrder.ActiveAcknowledgedInOrder | packages/sync/src/outbound-queue.ts:966-1002 | with any number of drainers and commands in time order, when a command still active in the store is acknowledged, no later command of its entity has been acknowledged yet; OneDrainer.OrderKeptIff says when that holds of all commands |
| OneDrainer.OrderKeptIff | packages/sync/src/outbound-queue.ts:930-1002 | the exact condition on who drains: commands enqueued in time order are acknowledged in enqueue order in every run if and only if at most one engine drains |
| OneDrainer.AtMostOnceKeptIff | packages/sync/src/outbound-queue.ts:930-1002 | commands enqueued in time order take effect at most once in every run if and only if at most one engine drains |
| KeyChange.KeyChangeIsSafeIff | packages/sync/src/outbound-queue.ts:189-205 | with one drainer, an acknowledgement that puts a key aside keeps the promise in every continuation exactly if that key was never sent, was refused, or names a revision no server accepts |
| LateCommand.LateTimestampBreaksAtMostOnce | packages/sync/src/outbound-queue.ts:189-205 | a run with one drainer, from an initial state, in which a command takes effect twice |
| TwoDrainers.SecondDrainerBreaksAtMostOnce | packages/sync/src/outbound-queue.ts:189-205 | for any two engines a run from an initial state, drained by them, with commands in time order, in which a command takes effect twice |
| TwoDrainers.SecondDrainerBreaksOrder | packages/sync/src/outbound-queue.ts:1003-1033 | for any two engines a run from an initial state, drained by them, with commands in time order, in which a command is acknowledged after a later one of its item |
| TwoDrainers.SecondDrainerConflictsSealed | packages/sync/src/outbound-queue.ts:174-205 | for any two engines such a run in which a sealed command is put in conflict although the item is at the revision it names; the exact condition is in the next rows |
| SealedConflicts.ConflictsRightlyIff | packages/sync/src/outbound-queue.ts:189-205 | in every state an acknowledgement conflicts a sealed command exactly when the item is not at the revision it names, if and only if the answer is still the item's revision or the command names neither of the two |
| SealedConflicts.SealedConflictsRightly | packages/sync/src/outbound-queue.ts:174-205 | through every run in which nobody writes the item after a request was applied, an acknowledgement of that request, however late, conflicts a sealed command exactly if the item is not at the revision it names |
| SealedConflicts.JudgedRightlyIffQuiet | packages/sync/src/outbound-queue.ts:174-205 | through every run in which the item exists, the answer judges every sealed command rightly if and only if nobody wrote the item since |
| SealedConflicts.RightlyIsJudged | packages/sync/src/outbound-queue.ts:189-205 | conflicting rightly is that judgement of the answer acknowledged and the revision the chained command names |
| Claims.OneClaimSurvives | packages/sync/src/outbound-queue.ts:518-603 | right after several claims against one stored copy the first is stored, all claimants see it, and every other claim is refused to them |
| Claims.ClaimHoldsForGood | packages/sync/src/outbound-queue.ts:518-603 | and through every run that respects the lease from then on the first claim stays, and finishing or withdrawing under any other claim is refused to every engine |
| Claims.FirstClaimHolds | packages/sync/src/outbound-queue.ts:518-603 | the same for a single claim that succeeds while nobody else remembers one, whatever passes, claims included, follow it |
| Claims.LeaseHolds | packages/sync/src/outbound-queue.ts:518-603 | through every run that respects the lease the stored command stays as its holder claimed it, and no engine comes to remember another claim; withdrawals by others are not excluded |
| Claims.OthersStayRefused | packages/sync/src/outbound-queue.ts:546-603 | at the end of every such run finishing and withdrawing under any other claim are refused to every engine |
| Claims.LeaseIsSafeIff | packages/sync/src/outbound-queue.ts:518-603 | the exact condition: a lease survives every run that respects it if and only if no engine remembers another claim on the command |
| Claims.ActivateTakesEffectIff | packages/sync/src/outbound-queue.ts:546-580 | an accepted activation takes effect exactly if the stored copy is the one the engine last saw |
| Claims.ExpiredHolderWithdraws | packages/sync/src/outbound-queue.ts:582-603 | from every state with a free staged command, an expired holder can come to withdraw it under another holder's lease |
| Claims.AckKeepsLeaseIff | packages/sync/src/outbound-queue.ts:189-205 | an acknowledgement by any engine keeps a lease exactly if it does not chain the command at another revision than it names; otherwise the command is pending, or conflicted if sealed |
| Refinement.PickedIsRunnable | packages/sync/src/outbound-queue.ts:966-982 | what the array search picks is runnable in the shared world |
| Refinement.FirstActiveIsFirst | packages/sync/src/outbound-queue.ts:378-386 | the array search for the chained command finds the first active command of the shared world, and only that |
| Refinement.PersistRefines | packages/sync/src/outbound-queue.ts:288-415 | every persist pass on arrays leaves what the action of the shared world says |
| Refinement.RunRefines | packages/sync/src/outbound-queue.ts:242-415 | in every run the stored array and every engine's array stand for the maps of the shared world |
| CacheModel.BatchDecides | packages/storage/src/item-cache.ts:386-437 | after a batch each id holds the stored record, or the last batch record of the highest version that is not older |
| CacheModel.UpsertsNeverLowerVersions | packages/storage/src/item-cache.ts:400-414 | upserts never lower the version of a stored item |
| CacheModel.LastCopiesSuffice | packages/storage/src/item-cache.ts:642-656 | writing only the last copy of each vault equals putting every vault in turn |
| CacheModel.LastCopiesAre | packages/storage/src/item-cache.ts:642-656 | the copies written are the last one of each vault, and no other |
| CacheModel.StateIs | packages/storage/src/item-cache.ts:245-314 | a state record is taken exactly if its version is current and its view names the collections it is about; otherwise the account reads as never synced |
| CacheModel.ViewIs | packages/storage/src/item-cache.ts:348-361 | readers see the parseable records of the active generation; an empty collection reads as synced exactly if it was once written as a whole |
| CacheModel.DeletesStayDeleted | packages/storage/src/item-cache.ts:680-686 | items and vaults deleted here since the baseline are not published, nor are items of such a vault |
| CacheModel.LocalEditsSurvive | packages/storage/src/item-cache.ts:688-712 | a parseable item changed here is published exactly as it is, unless its vault was deleted here |
| CacheModel.VaultEditsSurvive | packages/storage/src/item-cache.ts:743-752 | a vault changed or added here since the baseline is published exactly as it is |
| CacheModel.UntouchedVaultTakesStaged | packages/storage/src/item-cache.ts:720-752 | an untouched vault takes the staged record or vanishes |
| CacheModel.UntouchedTakesStaged | packages/storage/src/item-cache.ts:688-712 | an untouched item takes the staged record or vanishes |
| CacheModel.VersionsNeverFall | packages/storage/src/item-cache.ts:699-709 | no surviving item is published below the version readers saw before |
| CacheModel.PromotedIsActiveOrStaged | packages/storage/src/item-cache.ts:688-712 | each published record is the active or the staged one, never a mixture |
| StagedCache.StagingGeneration.UpsertCachedItems | packages/storage/src/item-cache.ts:416-437 | a batch leaves what sequential upserts leave, and no reader of any account notices at any moment |
| StagedCache.StagingGeneration.UpsertCachedVaults | packages/storage/src/item-cache.ts:642-656 | the same for vaults |
| StagedCache.StagingGeneration.Promote | packages/storage/src/item-cache.ts:657-776 | up to one record write readers see the old cache, from it on the three-way merge with its true item count; other accounts never notice; the replaced generation and the baselines are emptied and nothing else is touched |
| StagedCache.StagingGeneration.Discard | packages/storage/src/item-cache.ts:777-788 | a discarded generation is empty and nobody ever noticed it |
| StagedCache.UnseenWrites | packages/storage/src/item-cache.ts:271-314 | writes outside the collections a reader looks at are invisible at every moment |
| CacheOperations.ItemCache.BeginStagedGeneration | packages/storage/src/item-cache.ts:588-617 | the generation starts empty with the current cache as baseline, unnoticed |
| CacheOperations.ItemCache.GetCachedItems | packages/storage/src/item-cache.ts:351-361 | never synced and synced but empty are told apart |
| CacheOperations.ItemCache.UpsertCachedItem | packages/storage/src/item-cache.ts:478-489 | readers see the item exactly if no newer version was cached, for one record write |
| CacheOperations.ItemCache.RemoveCachedVault | packages/storage/src/item-cache.ts:549-567 | the vault and exactly its items disappear |
| CacheOperations.ItemCache.SetCachedItems | packages/storage/src/item-cache.ts:450-462 | readers see exactly the given items, and an empty set reads as synced |
| CacheOperations.LastItemsAre | packages/storage/src/item-cache.ts:364-373 | the items written are the last copy of each id, and no other |
| CacheOperations.ItemCache.ClearItemCache | packages/storage/src/item-cache.ts:796-812 | the account reads as never synced |
| AccountLock.MutualExclusion | packages/storage/src/item-cache.ts:197-218 | two operations on one account never overlap |
| AccountLock.FirstComeFirstServed | packages/storage/src/item-cache.ts:197-218 | operations on one account begin in the order they were asked for |
| AccountLock.NobodyOvertakes | packages/storage/src/item-cache.ts:197-218 | whoever has begun finds every earlier call of the account finished, and every start is on record |
| AccountLock.SomebodyCanProceed | packages/storage/src/item-cache.ts:197-218 | while anybody waits, the holder can finish or the first in line can start |
| AccountLock.EntryGoneIffIdle | packages/storage/src/item-cache.ts:213-217 | the map entry is gone exactly when nobody holds or waits |
| AccountLock.ReleaseHandsOver | packages/storage/src/item-cache.ts:209-217 | right after the finally block, also of an operation that threw, the longest waiting call of the account can start, or all its calls are finished and the entry is gone |
| CatchUp.SyncClient.RunCatchUp | packages/sync/src/catch-up.ts:28-104 | the loop terminates; nothing durable on the way is unsafe; without a refresh exactly the events up to the returned cursor were applied once and in order; with one the returned cursor is the one the page demanded, if it named one, else the one it was asked with |
| CatchUp.SyncClient.CatchUp | packages/sync/src/sync-orchestrator.ts:220-269 | started on any safe state, every durable state is safe; it initialises exactly if it can and has to, stores the cursor it ends at, and on a well-behaved server the suffix after the cursor is applied and stored |
| CatchUp.SyncClient.Resume | packages/sync/src/sync-orchestrator.ts:238-262 | the part after initialisation starts at the stored cursor and stores the cursor it ends at |
| CatchUp.SyncClient.Initialize | packages/sync/src/sync-orchestrator.ts:226-237 | the server's cursor is stored once its state is there; if that fails nothing changes |
| CatchUp.SyncClient.Refresh | packages/sync/src/catch-up.ts:62-69 | a refresh that succeeds replaces the replica and moves to the cursor demanded, a failed one changes nothing |
| CatchUp.RefreshesOnce | packages/sync/src/catch-up.ts:62-69 | on a server with a horizon the cursor stored after a refresh is at or above it, so no later catch-up from there refreshes again |
| CatchUp.SyncClient.ApplyEvent | packages/sync/src/sync-orchestrator.ts:181-199 | an event is acknowledged exactly if applying it succeeded |
| CatchUp.PagedWorldIsWellBehaved | packages/sync/src/catch-up.ts:40-56 | a server that pages through a log with any positive page size meets what the loop relies on |
| CatchUp.AppliedInOrder | packages/sync/src/sync-orchestrator.ts:188-199 | over any crashes and restarts every covered event was applied, each only after all earlier ones |
| CatchUp.NothingIsSkipped | packages/sync/src/sync-manager.ts:340-368 | every event up to the stored cursor was applied |
| EventStream.ReadStream | packages/sync/src/sync-manager.ts:177-202 | however the stream is cut, the events are those of splitting it once |
| EventStream.SplitResumes | packages/sync/src/sync-manager.ts:189-193 | splitting can be resumed from the last piece, blank lines cut across chunks included |
| EventStream.SplitLosesNothing | packages/sync/src/sync-manager.ts:191-193 | pieces and blank lines alternate and make up the whole stream |
| EventStream.PiecesHaveNoBlankLine | packages/sync/src/sync-manager.ts:191-193 | no event contains a blank line |
| EventFraming.FramingIsStandardIff | packages/sync/src/sync-manager.ts:189-224 | for every stream the events are those of section 9.2 of the WHATWG HTML Standard if and only if no complete piece holds a carriage return without a line feed and the standard finds no event in the last piece |
| EventFraming.FramingWithoutLoneReturns | packages/sync/src/sync-manager.ts:189-224 | a stream without such carriage returns is framed as the standard says, wherever it breaks off |
| EventFraming.CompleteFramingIsStandardIff | packages/sync/src/sync-manager.ts:189-224 | a stream that ends with a blank line is framed as the standard says exactly if it holds no such carriage return |
| EventFraming.LoneReturnIsMissed | packages/sync/src/sync-manager.ts:196-224 | a text that is two lines for the standard and one for the reader |
| EventFraming.ReadIsFramed | packages/sync/src/sync-manager.ts:177-202 | what the reader has dispatched after any chunks is what the comparison is about |
| Bits.ShiftInAgrees | packages/shared/src/totp.ts:119-127 | the unmasked 32-bit accumulator agrees with the true number on its low 32 bits |
| Bits.ShiftedIsClear | packages/shared/src/totp.ts:119-127 | the shifted word has clear low bits, so or-ing the next digit in is adding it |
| Base32.Base32Encode | packages/shared/src/totp.ts:136-162 | the loop writes the quintets of the whole byte sequence read as one number |
| Base32.Base32Decode | packages/shared/src/totp.ts:94-131 | the loop fills the output with the octets of the whole text read as one number, or names the first invalid character |
| Base32.RoundTrip | packages/shared/src/totp.ts:94-162 | decoding an encoding gives the bytes back, for every byte sequence |
| Base32.AnySpellingDecodes | packages/shared/src/totp.ts:94-131 | however a secret is written out, with white space anywhere, letters in either case and padding, it decodes to the bytes it encodes |
| Base32.AlphabetIsTable3 | packages/shared/src/totp.ts:57 | the alphabet is table 3 of RFC 4648, and nothing else is a digit |
| Base32.SpacesAre | packages/shared/src/totp.ts:94-97 | the white space removed is the class s of ECMAScript |
| Base32.DecodedSize | packages/shared/src/totp.ts:115-117 | exactly floor(5n/8) bytes are filled, each below 256 |
| Base32.FormattingKeepsMeaning | packages/shared/src/totp.ts:480-484 | regrouping a secret for display changes neither its value nor its validity |
| Base32.GroupsOfFour | packages/shared/src/totp.ts:480-484 | a space stands after every fourth character and nowhere else |
| Base32.AsciiUpperCases | packages/shared/src/totp.ts:94-131 | the upper-casing that the round trip assumes exists: that of the ASCII letters |
| AccountStore.Store.RefreshNativeView | packages/storage/src/account-store.ts:648-706 | the loop writes the projection of the live state: active account, unlocked set, its timeout or ten minutes, and one entry per listed account with the stored flag |
| AccountStore.AllShown | packages/storage/src/account-store.ts:656-692 | one entry per listed account, in order, with its fields and the stored flag rather than the mirrored one |
| AccountStore.Store.SetUnlockEntry | packages/storage/src/account-store.ts:736-756 | the view shows the new unlocked set in map order, exactly the displaced key is destroyed, and no cached key is destroyed if the key is new or the account's own |
| AccountStore.PutKeepsOrder | packages/storage/src/account-store.ts:736-756 | an account that is unlocked already keeps its place in the unlocked set, a new one comes last |
| AccountStore.DropAt | packages/storage/src/account-store.ts:736-756 | a locked account leaves no gap, and every other stays |
| AccountStore.Store.AddAccount | packages/storage/src/account-store.ts:1145-1190 | the account with its id is replaced, else the first of the same user at the same server, else it is added at the end; every other keeps its place; the stored biometric flag wins or is seeded; readers see the list, or nothing if the new metadata does not parse |
| AccountStore.LookupReplaces | packages/storage/src/account-store.ts:1149-1160 | which account a new one replaces |
| AccountStore.Store.SetBiometricEnabled | packages/storage/src/account-store.ts:919-945 | flag, metadata, session and view agree afterwards, and nothing else of list and sessions changes |
| AccountStore.Store.RemoveAccount | packages/storage/src/account-store.ts:1069-1091 | the account is gone from list, cache and stored values, its key destroyed, and the view fresh; it is no longer active, and everything of the others stays |
| AccountStore.WithoutAccountAt | packages/storage/src/account-store.ts:1083-1086 | removing an account closes the gap and keeps the order of the others |
| AccountStore.Store.ClearAllStoredData | packages/storage/src/account-store.ts:1365-1379 | the given or active account is removed, the active one stays active unless it is that one or none is left |
| AccountStore.Store.LockAllAccounts | packages/storage/src/account-store.ts:1410-1424 | every cached key is destroyed, none is left, and the view shows it |
| AccountStore.CachedKeysSurviveIff | packages/storage/src/account-store.ts:736-756 | no cached key is destroyed exactly if the displaced key is not shared and the new one was not destroyed before |
| AccountStore.NewOrOwnStaysAlive | packages/storage/src/account-store.ts:736-756 | callers that hand in a new key or the account's own keep every cached key alive and cached once; every method of the store keeps that |
| AccountStore.SharedKeyIsDestroyed | packages/storage/src/account-store.ts:750-753 | one key under two accounts is destroyed while still cached |

## Left out

- Cross-account moves: the semantic executor is not part of this model; such a command is never sent and only its
  retries are modelled.
- Renaming of temporary item ids after a create, queue listeners and status counters.
- Copies that `preserveConflict` enqueues while a drain pass runs; as separate enqueue steps they are covered by the
  shared world.
- The coalescing of overlapping catch-ups by their in-flight flags.
- Interleavings inside one persist pass: a push between snapshot and adoption, and an array index that went stale
  during a dispatch.
- A client that cannot be obtained after the queue changed meanwhile: `DrainAccount` asks for it before anything
  else runs.
- ProtocolSafety.StepKeepsInv: assumes a key memory without expiry; Idempotency.NothingForgottenWithinADay shows
  that this holds for a day.
- Protocol.ReplayIsHarmless: leaves out expiry, unknown outcomes and reuse of a key for another request; Idempotency
  has them, without items and revisions.
- Idempotency.OpenOutcomeBlocks: operators, who may delete a record of unknown outcome by hand, are left out.
- EventFraming.FramingIsStandardIff: compares lines as they are cut, before `processEvent` trims white space off
  both ends of an event and reads its fields.
- SyncEngine.ItemSyncEngine.Drain: needs queues that nobody else writes during a pass; other writers are covered by
  the shared world.
- Claims.LeaseIsSafeIff: clears of the account by an engine that knows the command are excluded, as is an
  acknowledgement that moves it; Claims.AckKeepsLeaseIff covers the latter.
- CatchUp.SyncClient.RunCatchUp: assumes pages that continue one log; a server whose cursors run in circles keeps
  the original loop going.
- Event filtering by `shouldProcessEvent`, which the orchestrator does not use, and what applying an event does to
  items.
- Parsing inside one event, heartbeats, reconnect timers, status reporting and UTF-8 decoding.
- A crash in the middle of `setCachedItems` or of a vault cascade, where readers can see a part; only staged
  generations are published atomically.
- Storage tiers, device key creation, session expiry, biometric prompts and unlock listeners of the account store.
- One-time password generation, digit and period checks.
- HTTP transport, cryptography, user interface and the Rust desktop host.
