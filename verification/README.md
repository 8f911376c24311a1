# Verified models of the device-management agent

This project models the state machines of the agent whose correctness depends on what the world
does between two of their steps, and proves what they keep.

- **Material collector** (`MaterialWorld`, `MaterialProjection`, `MaterialReclaim`, `MaterialGc`,
  `MaterialSafety`, `MaterialProgress`, `MaterialLapse`, `MaterialOwner`). The journal, the recipe
  registry, the published tree, the communicating requests and the pins are an explicit world that
  anything may change between two bounded steps of a pass. The invariant says what a pass still
  owes; the theorem says that nothing needed is deleted in any run. `Recovery` shows that what the
  collector retains covers what recovery reopens.
- **Build-slot pool** (`BuildPool`, `BuildRunner`). A multi-process protocol over advisory locks,
  metadata files and directory wipes. Every system call is a step of its own and a process may die
  between any two; locks then go one by one.
- **Collection budget** (`CollectionBudget`, `CollectionOverrun`). Room for the failure evidence of
  every pending query is reserved before bytes are lent to a provider; for plans that repeat one
  scan query it is decided exactly when that is not enough.
- **Collected data** (`CollectedRows`, `CollectedStore`, `CollectedUpkeep`, `ScalarCodec`).
  Bounding, pagination under concurrent writes, atomic batches, maintenance, and the typed JSON
  conversion with its inverse.
- **Display-change transaction** (`SettingsChange`, `SettingsRun`). Apply, preview, keep or
  restore against an arbitrary environment; every native step leaves an event, and the rows that
  are written are judged by those events.
- **Channels, readers and credentials** (`NativeStream`, `NativeControl`, `OutputReaders`,
  `SecretCatalog`).

Where the source changes state in place, so does the model: a class whose methods are proved
against a function of the old state, and lemmas about that function. Outside answers are functions
of a step number or explicit actions, so a statement about all of them is a statement about every
environment. Digests are injective: a digest stands for the value it was taken of.

## What the models show about the code

- **A crowded registry walk can lose a request.** `reclaim_step` narrows the queued associations
  before `refresh_retained` may fail with Capacity, and returns without recording them in the key.
  With two requests communicating, one projected and one still queued, enough recipes come and gone
  during the pass and one more registered, the queued one may end and begin again in between and is
  never projected; its materials are then deleted while it communicates. `MaterialLapse.Lapse` is
  such a run, from an idle collector and within the registry's capacity. Reconciling keeps the
  pass's invariant exactly when the walk has room, or no request that ended was known from the queue
  alone, or another connection wrote the journal (`ReconcilesExactly`); the safety theorem is about
  the runs in which that holds.
- **The same crowded walk holds a pass for ever.** With no outside change a pass leaves
  AwaitingProof if and only if its walk is not crowded (`LeavesExactly`). The first walk of a pass
  always fits (`FirstWalkFits`); recipes that come and go during the pass crowd it.
- **A repeated digest with scan evidence can overrun the collection budget.** The cached evidence is
  larger than the slack granted to a skipped query. For every provider the bound holds as long as
  283 bytes for each repeated scan query stay within 108 bytes for each query (`CollectionSound`).
  A plan that lists one scan query several times can overrun exactly when `CanOverfill` holds of
  its size, the digits of the clock and of the times in the evidence, and the query's own limit
  (`OverrunsExactly`, for a clock whose readings all have as many digits as the first; the overrun
  needs only a clock that stands still). With two listings and every time today's, that is a limit
  of more than 291 bytes beyond the reserve (`TwoListings`, `RepeatedEvidenceOverruns`). Whatever
  the clock and the evidence say, no provider overruns when the condition for that fails
  (`NoneOverruns`).
- **Chunking is visible in two ways.** When a handler closes the channel itself, the read loop goes
  on over the rest of the same chunk; and a seventeenth request in one chunk closes a channel that
  stays open when one of the first sixteen finishes between two chunks. It is invisible, for every
  cut and every time at which requests finish, exactly when neither happens to the uncut stream.
- **Windows may keep its own preview and call the run closed.** A temporary mode that Windows
  adjusts does not show the requested edit, or differs from what was shown before; the run takes it
  for somebody else's, undoes nothing and reports `closed`. Every accepted display change can end
  that way, by no more than another value of an edited field (`AnyAdjusted`). A closed run has left its preview exactly then (`Transaction.Run`); on
  macOS, where the values are handed over first, never.
- **A failed flush of the last settings row** puts a second finished row on standard output. The
  hashed output still has exactly one, so the hash no longer matches the stream.
- **Keys made during retirement survive it.** `signing_key` takes no lock, so `retire` may return
  true while a key that was made after its entry was passed exists; exactly those keys are left.
  A catalog entry whose write was torn by a crash blocks retirement for good, and nothing is lost.
- **Numbers round.** An integer read at a Number type comes back as the nearest double; the round
  trip is exact precisely when every such integer is a double.
- **Storing and paging use different bounds.** A stored row may have 256 KiB and a page 48 KiB, so
  a larger row stops every reader at it with Capacity (`ReadableExactly`).
- **Two values of one query in a batch**: the later entry wins even if it was collected earlier. A
  plan with one definition under two names makes such a batch. An entry is overtaken exactly when a
  later entry of its query was collected earlier and is still newer than what was stored.
- **A wiped data directory gets a marker that promises too much** when the system still holds
  secrets of the namespace: only the directory is looked at (`InitializeCatalog`).
- **A torn row swallows the next one.** An error row that follows a torn row continues its line, so
  standard output then lacks it as a line of its own; the hashed output does not.

## Model

| member | source | states |
|---|---|---|
| MaterialWorld.QuietWriteStaysProtected | crates/execution-sqlite/src/journal.rs:232-265 | a journal write that leaves the safety counter alone lands on a row that was and stays unreclaimable, so it cannot weaken a deletion proof |
| MaterialProjection.Offer | apps/agent-service/src/material_gc.rs:268-356 | offering a reclaimable fact adds exactly its inventoried references as candidates, or fails on a capacity or digest conflict |
| MaterialProjection.Hold | apps/agent-service/src/material_gc.rs:268-356 | holding a fact retains its references and interpreters, and every candidate with such an interpreter's digest |
| MaterialProjection.ProjectFact | apps/agent-service/src/material_gc.rs:268-356 | the in-place projection computes the projection function |
| MaterialProjection.FoldOutcome | apps/agent-service/src/material_gc.rs:268-356 | projecting a list of facts succeeds exactly when the set of them is consistent and within capacity |
| MaterialProjection.LastAgrees | apps/agent-service/src/material_gc.rs:268-356 | the conflict check on one more fact is consistency of all facts so far, in both directions |
| MaterialProjection.Confluent | apps/agent-service/src/material_gc.rs:268-356 | the accumulated sets and the failure outcome depend only on which facts were projected with which flag, not on order or repetition |
| MaterialProjection.DeletableMeaning | apps/agent-service/src/material_gc.rs:268-356 | candidates minus retained is exactly what some fact offers and no pin, held reference or held interpreter digest names |
| MaterialReclaim.RecheckOk | crates/execution-runner/src/staging/root/reclamation.rs:98-110 | returning to the proof stage keeps the inventory sound |
| MaterialReclaim.PublishOk | crates/execution-runner/src/staging/root.rs:303-342 | names published during a pass do not disturb it |
| MaterialReclaim.ProveOk | crates/execution-runner/src/staging/root/reclamation.rs:153-207 | a proof resolves every retained name and allows only candidates minus retained |
| MaterialReclaim.VerifyOk | crates/execution-runner/src/staging/root/reclamation.rs:295-409 | hashing keeps a proven file tied to the object it was proven of |
| MaterialReclaim.DeleteOk | crates/execution-runner/src/staging/root/reclamation.rs:410-486 | deletion keeps every retained name resolvable |
| MaterialReclaim.DeletableSpares | crates/execution-runner/src/staging/root/reclamation.rs:410-459 | no file that the pass may delete is, or shares an object with, a retained name |
| MaterialReclaim.RemovableSpares | crates/execution-runner/src/staging/root/reclamation.rs:460-486 | no directory that the pass may remove is one that a retained name needs |
| MaterialSafety.EnvKeeps | crates/execution-sqlite/src/material.rs:105-165 | every outside change to journal, associations, pins, registry and tree keeps the invariant of a pass |
| MaterialSafety.ReconcilesExactly | apps/agent-service/src/material_gc.rs:83-118 | reconciling keeps the whole invariant of a pass exactly when the walk has room, no request that ended was known from the queue alone, or another connection wrote the journal |
| MaterialSafety.SyncCoverage | apps/agent-service/src/material_gc.rs:83-118 | under the same condition, and only then, every protected row stays covered, queued or ahead of the scan |
| MaterialSafety.SyncKeeps | apps/agent-service/src/material_gc.rs:83-118 | a faithful reconciliation with a changed world keeps the invariant, whether or not its walk fits |
| MaterialSafety.ChangesKeep | apps/agent-service/src/material_gc.rs:227-239 | folding in one journal delta leaves no protected row uncovered |
| MaterialSafety.RetireKeeps | apps/agent-service/src/material_gc.rs:240-249 | retiring one recipe keeps the invariant and touches no file |
| MaterialSafety.SettleKeeps | apps/agent-service/src/material_gc.rs:250-271 | walking the registry and attaching the proof keep the invariant |
| MaterialSafety.NeededRetained | apps/agent-service/src/material_gc.rs:83-356 | at a current proof every coordinate of a protected request, registered recipe or pin is in the retained set |
| MaterialSafety.DeletesSafely | apps/agent-service/src/material_gc.rs:167-272 | whatever a proved, reconciled pass removes is safe to remove in the current world |
| MaterialSafety.StepKeeps | apps/agent-service/src/material_gc.rs:49-166 | one call with a faithful reconciliation keeps the invariant whether it fails, completes or continues |
| MaterialSafety.RunInvariant | apps/agent-service/src/material_gc.rs:49-356 | the invariant holds in every state of every run whose reconciliations are faithful |
| MaterialSafety.RunsAreSafe | apps/agent-service/src/material_gc.rs:83-356 | in every run whose reconciliations are faithful, a name removed by a step harms no pin, no coordinate of an unsettled, undelivered or communicating request, no registered recipe and no interpreter of such a request |
| MaterialProgress.OwnRetirementIsQuiet | apps/agent-service/src/material_gc.rs:240-249 | the pass's own retirement does not trigger a recheck |
| MaterialProgress.AwaitDrains | apps/agent-service/src/material_gc.rs:188-271 | each successful waiting step lowers rows, associations, deltas, retirements and coordinates in lexicographic order |
| MaterialProgress.QuietLeaves | apps/agent-service/src/material_gc.rs:188-271 | with no outside change a reconciled pass leaves AwaitingProof in finitely many steps |
| MaterialProgress.CrowdedStays | apps/agent-service/src/material_gc.rs:83-118 | a pass whose walk is overfull fails every step and stays where it is |
| MaterialProgress.LeavesExactly | apps/agent-service/src/material_gc.rs:83-271 | a waiting pass leaves its stage without outside change if and only if the walk has room for the recipes registered now |
| MaterialProgress.FirstWalkFits | crates/execution-runner/src/materialize.rs:22-120 | within the registry's capacity the first walk of a pass always fits |
| MaterialLapse.Queues | apps/agent-service/src/material_gc.rs:98-113 | when both requests begin to communicate, one step projects the first and leaves the second queued |
| MaterialLapse.Forgets | apps/agent-service/src/material_gc.rs:83-118 | the failing reconciliation drops the queued association, keeps the old key, and is one that the exact condition excludes |
| MaterialLapse.Deletes | apps/agent-service/src/material_gc.rs:83-272 | after that, a step deletes a file that a communicating request refers to |
| MaterialLapse.Lapse | apps/agent-service/src/material_gc.rs:49-356 | there is a run from the idle collector, of enabled steps and outside changes only, whose last step deletes a file that a communicating request refers to |
| MaterialOwner.DeviceOwner.ProjectMaterialFact | apps/agent-service/src/material_gc.rs:268-356 | projecting one journal row into the pass is the row step of the specification |
| MaterialOwner.DeviceOwner.RetireOne | apps/agent-service/src/material_gc.rs:240-249 | the retirement step changes registry and pass as specified |
| MaterialOwner.DeviceOwner.AwaitProof | apps/agent-service/src/material_gc.rs:188-271 | the waiting stage's branches are those of the specification |
| MaterialOwner.DeviceOwner.AdvanceReclamation | apps/agent-service/src/material_gc.rs:167-272 | the stage dispatch is that of the specification |
| MaterialOwner.DeviceOwner.ReclaimStep | apps/agent-service/src/material_gc.rs:49-166 | one call moves world, pass and completion mark exactly as the step the safety theorem is about |
| Recovery.ComputeReferences | apps/agent-service/src/recovery.rs:208-286 | the nested loops fill the map of the specification or fail at the same conflict |
| Recovery.InsertAllMeaning | apps/agent-service/src/recovery.rs:208-230 | insertion never rebinds a path, keeps what it is given with its digest-named source, and invents nothing |
| Recovery.RetentionCoversRecovery | apps/agent-service/src/recovery.rs:99-286 | for every accepted plan, everything recovery reopens under the material root is bound to its digest, with its alias |
| Recovery.RetainsOnlyCoordinates | apps/agent-service/src/recovery.rs:208-286 | every binding is explained by a coordinate of the plan |
| Recovery.ConflictRefused | apps/agent-service/src/recovery.rs:208-286 | a plan that gives one path two digests is refused |
| BuildPool.TouchesOwnSlots | scripts/build-run.py:151-202 | a step changes a slot's metadata or directory only behind that slot's lock |
| BuildPool.ReadStaysTrue | scripts/build-run.py:165-168 | whether metadata names the reader's worktree cannot change between its read and its lock |
| BuildPool.StepKeeps | scripts/build-run.py:151-202 | every step of every process keeps locks, beliefs and metadata true |
| BuildPool.RunInvariant | scripts/build-run.py:151-305 | that holds in every reachable state, with deaths anywhere |
| BuildPool.LeasesAreExclusive | scripts/build-run.py:274-305 | no two live leases share a slot or a worktree |
| BuildPool.MetadataIsTruthful | scripts/build-run.py:151-202 | metadata naming a worktree implies that the directory holds only that worktree's output |
| BuildPool.LeaseIsIsolated | scripts/build-run.py:151-305 | a leased slot holds only its worktree's output and no other process can change it |
| BuildPool.PickIsCurrent | scripts/build-run.py:165-183 | a slot is kept unwiped exactly when its metadata names this worktree now, although it was read before the lock |
| BuildPool.OwnSlotPreferred | scripts/build-run.py:174-179 | a runner that locked a slot of its own takes such a slot |
| BuildPool.NamedSlotIsClean | scripts/build-run.py:193-196 | a slot about to be named is the runner's own or empty |
| BuildRunner.Runner.Best | scripts/build-run.py:179-179 | the pick is least by rank, last use and index |
| BuildRunner.Runner.AcquireSlot | scripts/build-run.py:151-202 | however others interleave and whichever step fails, the allocation ends with a lease of a slot named for the worktree and free of others' output, or with no runner |
| CollectionBudget.TruncatedFits | apps/agent-service/src/collection_worker.rs:232-250 | a truncated entry never exceeds what was reserved for its query |
| CollectionBudget.SettledWithin | apps/agent-service/src/collection_worker.rs:454-524 | one query keeps the running bound whichever way it goes |
| CollectionBudget.CollectionSound | apps/agent-service/src/collection_worker.rs:439-529 | every accepted plan ends with one entry a query, rows within bounds, one provider run a digest and, unless too many queries repeat a digest with scan evidence, result plus native bytes plus 512 inside the budget |
| CollectionBudget.SlackCoversExactly | apps/agent-service/src/collection_worker.rs:243-253 | a skipped query fits its 128 bytes whatever was cached, exactly when it carries no scan evidence |
| CollectionOverrun.OverrunsExactly | apps/agent-service/src/collection_worker.rs:439-529 | of an accepted plan that lists one scan query any number of times, with clock readings of as many digits as the first, some provider within its allowance takes a whole collection and its final time beyond the budget exactly when an arithmetic condition on the plan and those digits holds |
| CollectionOverrun.NoneOverruns | apps/agent-service/src/collection_worker.rs:439-529 | with any clock and any evidence no provider overruns when the condition for that fails |
| CollectionOverrun.TurnsKeep | apps/agent-service/src/collection_worker.rs:454-524 | what every turn keeps holds when the turns end |
| CollectionOverrun.OverrunOverfills | apps/agent-service/src/collection_worker.rs:439-529 | for every range of clock readings and evidence times, no provider overruns when the condition for them fails |
| CollectionOverrun.FillingOverruns | apps/agent-service/src/collection_worker.rs:482-524 | with the clock standing still, a provider whose incomplete answer is taken as often as it fits and truncated afterwards overruns when the condition holds |
| CollectionOverrun.TwoListings | apps/agent-service/src/collection_worker.rs:482-524 | of two listings, an overrun is possible exactly when something is lent and the limit exceeds the reserve by more than the digits allow |
| CollectionOverrun.RepeatedEvidenceOverruns | apps/agent-service/src/collection_worker.rs:482-524 | an accepted plan of 4000 bytes whose whole collection can end beyond its budget today exactly from a limit of 796 bytes on, or of 778 when the evidence may name any time |
| CollectionBudget.AnswerOf | apps/agent-service/src/collection_worker.rs:484-490 | a provider runs only for a digest not seen before and with something to lend |
| CollectionBudget.TakeTurn | apps/agent-service/src/collection_worker.rs:454-524 | the body of the loop is one turn of the specification |
| CollectionBudget.Collect | apps/agent-service/src/collection_worker.rs:439-529 | a plan is refused exactly when its failures do not fit; otherwise the loop computes the turns the bound is about |
| NativeStream.ChunkingIsInvisibleExactly | apps/ai-host/src/native.ts:42-106 | for every way to cut a stream and every time at which requests finish between the chunks, the lines read, the requests handed on and the outcome equal those of the whole stream, exactly when the whole stream reads at most sixteen requests and no line but the last read closes the channel from inside its handler |
| NativeStream.TimelineAgrees | apps/ai-host/src/native.ts:42-106 | under that condition chunks and finishing requests together do what the rest of the stream does at once |
| NativeStream.LimitShowsChunking | apps/ai-host/src/native.ts:82-106 | a stream with a seventeenth request is cut and timed so that the request is handed on |
| NativeStream.ShutShowsChunking | apps/ai-host/src/native.ts:47-62 | a line that closes the channel before the last line read is cut so that fewer lines are read |
| NativeStream.BurstRuns | apps/ai-host/src/native.ts:82-106 | what one chunk takes of its requests is what the request machine takes of them one after the other |
| NativeStream.DrainClosed | apps/ai-host/src/native.ts:47-62 | nothing is read after a line that failed or was too long |
| NativeStream.LineReader.OnData | apps/ai-host/src/native.ts:44-65 | one data event handles its lines with the requests then in flight, as specified |
| NativeStream.LineReader.OnFinish | apps/ai-host/src/native.ts:103-105 | a request that finishes frees its place for the next chunk |
| NativeControl.SettledExactlyOnce | apps/ai-host/src/native.ts:71-156 | in every run each issued id is pending with its timer or settled once, ids on the wire increase, and both counts stay within 16 |
| NativeControl.CloseIsFinal | apps/ai-host/src/native.ts:146-156 | settlements are never taken back; after close nothing is pending, added or written |
| NativeControl.ClosedSettlesAll | apps/ai-host/src/native.ts:146-156 | once closed, every call that got an id has been settled exactly once |
| NativeControl.RejectionsOnce | apps/ai-host/src/native.ts:149-152 | closing rejects each pending call once and no other |
| NativeControl.Channel.Send | apps/ai-host/src/native.ts:108-117 | a frame is written exactly when the channel is open and takes it |
| NativeControl.Channel.Call | apps/ai-host/src/native.ts:121-145 | a call gets an id unless the channel ended or sixteen wait; a failed send settles it |
| NativeControl.Channel.Receive | apps/ai-host/src/native.ts:71-79 | a reply settles its pending call and is ignored otherwise |
| NativeControl.Channel.OnTimer | apps/ai-host/src/native.ts:126-129 | a running timer settles its call |
| NativeControl.Channel.OnRequest | apps/ai-host/src/native.ts:82-106 | a seventeenth request at once, or a handler that throws, closes the channel |
| NativeControl.Channel.OnAnswer | apps/ai-host/src/native.ts:84-101 | an answer is sent or fails |
| NativeControl.Channel.OnCatch | apps/ai-host/src/native.ts:102-102 | an answer that could not be sent closes the channel |
| NativeControl.Channel.OnFinish | apps/ai-host/src/native.ts:103-105 | a finished request frees its place |
| NativeControl.Channel.Emit | apps/ai-host/src/native.ts:118-120 | an event is written while the channel is open |
| NativeControl.Channel.Close | apps/ai-host/src/native.ts:146-156 | the loop over the pending calls settles them all, once |
| OutputReaders.KeptExactly | apps/agent-service/src/software_worker.rs:376-430 | for every interleaving of the two readers the kept bytes fill exactly the room between the counters, each kept output being the front of its stream |
| OutputReaders.RefusedExactly | apps/agent-service/src/software_worker.rs:376-430 | from any shared counter, no byte is dropped exactly when the counter ends within the bound or the tool printed nothing, and the excess over the bound, or over where it began, is what was dropped |
| OutputReaders.WrappedCounterHidesLoss | apps/agent-service/src/software_worker.rs:389-390 | only a wrap of the 64-bit counter would hide a loss |
| OutputReaders.Tool.ReadChunk | apps/agent-service/src/software_worker.rs:385-388 | a chunk is read before it is counted |
| OutputReaders.Tool.FetchAdd | apps/agent-service/src/software_worker.rs:389-389 | the addition returns the counter before the chunk |
| OutputReaders.Tool.KeepChunk | apps/agent-service/src/software_worker.rs:390-391 | the part of the chunk below the bound is kept |
| OutputReaders.Tool.Conclude | apps/agent-service/src/software_worker.rs:421-430 | a full result is returned exactly when both readers ended well, the bound held and the process exited; only then the pending mark goes |
| SecretCatalog.AccountsAreInjective | apps/agent-service/src/secrets.rs:309-319 | an account belongs to exactly one namespace and reference |
| SecretCatalog.SecretStore.InitializeCatalog | apps/agent-service/src/secrets.rs:216-229 | only an empty directory becomes an owned one, and the new marker is true exactly when the system holds nothing of the namespace |
| SecretCatalog.SecretStore.Track | apps/agent-service/src/secrets.rs:238-254 | a tracked reference has a whole entry; entries are never lost |
| SecretCatalog.SecretStore.Add | apps/agent-service/src/secrets.rs:356-384 | a secret is added only where there was none, under an entry that exists |
| SecretCatalog.SecretStore.Import | apps/agent-service/src/secrets.rs:444-453 | import confirms or adds, never replaces, and adds only under a recorded entry, at every exit |
| SecretCatalog.SecretStore.Credential | apps/agent-service/src/secrets.rs:455-485 | an existing credential is returned as it is; a new one has its entry before it is stored and is stored before it is returned |
| SecretCatalog.SecretStore.SigningKey | apps/agent-service/src/secrets.rs:386-416 | a key has its entry before it is made, under the owner marker or not, and is never made twice |
| SecretCatalog.SecretStore.Sweep | apps/agent-service/src/secrets.rs:262-305 | after the listing was visited, what the namespace still has was made by others meanwhile |
| SecretCatalog.SecretStore.Retire | apps/agent-service/src/secrets.rs:255-308 | true is returned only under the owner marker and then the namespace is empty except for keys made meanwhile by other threads; other namespaces are untouched |
| SettingsChange.DisplayStateSymmetric | apps/agent-service/src/local_settings.rs:282-299 | with one target per id the display comparison does not depend on its direction |
| SettingsChange.DisplayStateTransitive | apps/agent-service/src/local_settings.rs:282-299 | the display comparison is transitive |
| SettingsChange.DisplayStateReflexiveExactly | apps/agent-service/src/local_settings.rs:282-299 | a state equals itself exactly when targets sharing an id show the same display |
| SettingsChange.CheckChangeLocal | apps/agent-service/src/local_settings.rs:265-322 | renamed targets and changes to unedited fields never disturb a proxy or power edit |
| SettingsChange.SatisfiedEdits | apps/agent-service/src/local_settings.rs:564-629 | a satisfied edit has a complete observation of every edited field |
| SettingsChange.DecisionStands | apps/agent-service/src/local_settings.rs:157-185 | an accepted keep decision is never changed by later ones |
| SettingsRun.Transaction.Emit | apps/agent-service/src/local_settings.rs:364-374 | a row counts only once it was written and flushed |
| SettingsRun.Transaction.Poll | apps/agent-service/src/local_settings.rs:507-523 | waiting ends with keep exactly when a matching keep marker was read and permission was never missing |
| SettingsRun.Transaction.YieldToOthers | apps/agent-service/src/local_settings.rs:489-533 | values that are not the preview are handed over on macOS and left as they are on Windows, and reported as a conflict; the change counts as settled |
| SettingsRun.Transaction.Conclude | apps/agent-service/src/local_settings.rs:534-549 | the effect follows the observation made after the keep or restore |
| SettingsRun.Transaction.Respond | apps/agent-service/src/local_settings.rs:524-551 | a keep is asked of the system only with the decision, live permission and the preview still on screen |
| SettingsRun.Transaction.Attempt | apps/agent-service/src/local_settings.rs:483-556 | an applied edit is judged by what was read back |
| SettingsRun.Transaction.ExecuteInner | apps/agent-service/src/local_settings.rs:448-559 | success leaves exactly one finished, honest row; failure leaves none in the hashed output |
| SettingsRun.Transaction.Recover | apps/agent-service/src/local_settings.rs:419-445 | an unsettled change is called settled only after the original values were read back |
| SettingsRun.Transaction.ErrorRow | apps/agent-service/src/local_settings.rs:375-397 | a failed write is Failed only when the display is settled and observed unchanged, and leaves a preview at most where Windows showed other values |
| SettingsRun.LeftExactly | apps/agent-service/src/local_settings.rs:419-551 | the summary of where a change stands says exactly what the whole trace says about a preview that is left, and about other values read since |
| SettingsRun.AnyAdjusted | apps/agent-service/src/local_settings.rs:483-499 | for every display change that is accepted, a snapshot that differs in one edited field ends as an adjusted edit |
| SettingsRun.Transaction.Run | apps/agent-service/src/local_settings.rs:352-412 | for every environment a completed run hashes exactly one finished row and that row is truthful; a closed run has left its preview exactly when Windows showed other values than the edit and its preview, and an adjusted edit ends so; standard output repeats or lacks the last row exactly after a failed flush or a torn row |
| CollectedRows.BoundedMarksEveryDrop | apps/agent-service/src/collected_data.rs:1349-1381 | bounding changes nothing exactly when a value fits; otherwise it fits afterwards and is marked truncated and incomplete |
| CollectedRows.BoundedIdempotent | apps/agent-service/src/collected_data.rs:1349-1381 | bounding twice is bounding once |
| CollectedRows.RetainsAllExactly | apps/agent-service/src/collected_data.rs:1361-1374 | no row is dropped exactly when all of them fit together |
| CollectedRows.RetainInOrder | apps/agent-service/src/collected_data.rs:1361-1374 | surviving rows keep their order |
| CollectedRows.BoundedOf | apps/agent-service/src/collected_data.rs:1349-1381 | the loop computes the bounded value, or refuses what redaction would change |
| CollectedRows.NativeIsHonest | apps/agent-service/src/collected_data.rs:1221-1310 | a value is complete exactly when its quality says so, and then its rows are the image of all provider rows in order |
| CollectedRows.WholeExactly | apps/agent-service/src/collected_data.rs:1221-1310 | a value is complete exactly for a whole result that is accepted, projects and has the one row an exact-one query asks for; its fields are then the projected ones over the baseline |
| CollectedRows.StoredIsHonest | apps/agent-service/src/collected_data.rs:1221-1381 | a stored value that says it is complete has all rows and all fields |
| CollectedRows.CompleteExactly | apps/agent-service/src/collected_data.rs:1221-1381 | a value is stored complete exactly when it was whole, its rows and its fields fit their bounds, and redaction finds nothing |
| CollectedRows.MapRows | apps/agent-service/src/collected_data.rs:1278-1279 | accepted rows are mapped in order |
| CollectedRows.AddBaseline | apps/agent-service/src/collected_data.rs:1296-1306 | scalar baseline values fill the fields that the projection did not give |
| CollectedRows.PageEndMaximal | apps/agent-service/src/collected_data.rs:1450-1463 | a page stays within its bytes and stops only at the limit, the end or a row that would not fit |
| CollectedRows.FillPage | apps/agent-service/src/collected_data.rs:1449-1460 | the loop that adds and takes back a row fills exactly that page |
| CollectedRows.OffsetFits | apps/agent-service/src/collected_data.rs:1464-1468 | offsets of stored values fit 32 bits |
| CollectedRows.PageAdvances | apps/agent-service/src/collected_data.rs:1396-1475 | a cursor names the value just read and lies strictly further on |
| CollectedRows.FollowingIsOneSnapshot | apps/agent-service/src/collected_data.rs:1396-1475 | under any interleaved writes, followed pages are exactly the rows of the value first read, or end in Conflict, Capacity or Denied; the number of reads is bounded by the rows |
| CollectedRows.ReadableExactly | apps/agent-service/src/collected_data.rs:1396-1475 | without writes a value is read to its end exactly when its frame and each row fit a page |
| CollectedStore.RunSound | apps/agent-service/src/collected_data.rs:668-691 | in every run no request has both an input and a result record, and every stored value is within its bounds |
| CollectedStore.LatestNeverGoesBack | apps/agent-service/src/collected_data.rs:1316-1348 | no operation replaces a latest value by one collected earlier |
| CollectedStore.LatestRises | apps/agent-service/src/collected_data.rs:1316-1348 | over any run without its eviction a latest value's time only rises |
| CollectedStore.BatchIsVisibleExactly | apps/agent-service/src/collected_data.rs:1316-1348 | after a batch the stored latest value is at least as recent as an entry exactly when no later entry of its query, newer than what was stored, was collected earlier |
| CollectedStore.RepeatedQueryGoesBack | apps/agent-service/src/collected_data.rs:1221-1348 | two plan queries with one definition under two names make a batch in which the later, older entry wins |
| CollectedStore.MaterialGoesWithLatest | apps/agent-service/src/collected_data.rs:1336-1344 | material of a query in the batch changes only in the commit that writes its latest value |
| CollectedStore.ReceiptWithBatch | apps/agent-service/src/collected_data.rs:1330-1334 | a request gets its receipt, and stops waiting, exactly with the commit of its whole batch |
| CollectedStore.SettingsRise | apps/agent-service/src/collected_data.rs:330-351 | a settings snapshot is never lost or replaced by an older one |
| CollectedStore.AssociationStays | apps/agent-service/src/collected_data.rs:1091-1103 | a request keeps the identity it was first associated with until it is retired |
| CollectedStore.Data.Commit | crates/agent-client/src/collected.rs:57-118 | a commit is atomic; evictions touch only values outside the batch |
| CollectedStore.Data.Snapshots | apps/agent-service/src/collected_data.rs:1316-1348 | the loops build exactly the batch of the specification; one unsafe value refuses all of it |
| CollectedStore.Data.Remember | apps/agent-service/src/collected_data.rs:668-685 | an answered request does not wait again |
| CollectedStore.Data.ForgetInput | apps/agent-service/src/collected_data.rs:383-385 | forgetting removes only the waiting input |
| CollectedStore.Data.Retire | apps/agent-service/src/collected_data.rs:1058-1064 | retiring removes the three records of a request and nothing else |
| CollectedStore.Data.SettingsWrite | apps/agent-service/src/collected_data.rs:330-351 | an observation that is not newer is not written |
| CollectedStore.Data.Associate | apps/agent-service/src/collected_data.rs:1091-1103 | the same identity succeeds whatever its time, any other conflicts |
| CollectedUpkeep.Store.RemoveOldest | apps/agent-service/src/collected_data.rs:424-437 | exactly the excess goes, oldest first and sparing the protected, or everything that may go |
| CollectedUpkeep.Store.KeepPublished | apps/agent-service/src/collected_data.rs:413-437 | entries of ended logins go, at most 128 or the protected ones stay, and no current one that went was seen later than an unprotected one that stays |
| CollectedUpkeep.Store.DropInvisible | apps/agent-service/src/collected_data.rs:438-450 | invisible definitions lose their pin and go unless a request names them |
| CollectedUpkeep.Store.KeepDefinitions | apps/agent-service/src/collected_data.rs:451-463 | at most 64 visible, unpinned, unprotected, inactive definitions stay, the most recently seen ones |
| CollectedUpkeep.Store.KeepObserved | apps/agent-service/src/collected_data.rs:464-486 | at most 32 inactive observed entries stay, the most recently collected ones |
| CollectedUpkeep.Store.Reclaim | apps/agent-service/src/collected_data.rs:492-530 | reclaiming goes from the least recently seen on, and stops only when bytes and records are down to their share or nothing unprotected is left |
| CollectedUpkeep.Store.Maintain | apps/agent-service/src/collected_data.rs:387-532 | a definition that a stored request names is never removed, even if maintenance fails midway; every bound holds when it succeeds |
| ScalarCodec.AsDoubleExactly | apps/agent-service/src/collection_projection.rs:16-16 | an integer survives as a double exactly when it is a 53-bit mantissa times a power of two |
| ScalarCodec.FirstLostInteger | apps/agent-service/src/collection_projection.rs:16-16 | every integer up to two to the 53rd survives, in both signs, and the next one does not |
| ScalarCodec.ObjectOk | apps/agent-service/src/collection_projection.rs:20-21 | an object converts exactly when it has every needed key, no unknown one and values that convert |
| ScalarCodec.ThroughJson | apps/agent-service/src/collection_projection.rs:8-38 | a scalar survives the trip through JSON at a type exactly when it is a value of that type within the depth |
| ScalarCodec.BackToJson | apps/agent-service/src/collection_projection.rs:8-38 | accepted JSON is a value of its type, and comes back as the same data exactly when every integer read as a number is a double |
| ScalarCodec.ReadRecord | apps/agent-service/src/collection_projection.rs:21-21 | the loop over a record's properties computes the conversion |
| ScalarCodec.DeletionIsMeant | apps/agent-service/src/collection_projection.rs:148-160 | a value is deleted exactly when the query found nothing and its mapping says deletion |
| ScalarCodec.CompleteIsMeant | apps/agent-service/src/collection_projection.rs:122-163 | a field is complete exactly for a complete result that projects, or a nothing that has a meaning |
| ScalarCodec.Native | apps/agent-service/src/collection_projection.rs:85-167 | the loop gives every field its own result, unknown without a query result, or fails at the first bad field |

## Left out

- MaterialSafety.RunsAreSafe: is about runs whose reconciliations are faithful in the exact sense of `MaterialSafety.ReconcilesExactly`, because without that it is false (`MaterialLapse.Lapse`); that is exact for the invariant, so a run in which a dropped request is never needed again before its pass ends is left out although nothing is harmed in it; an empty managed subdirectory below a retained directory may be removed, as the code allows, but no retained directory and none of its files.
- MaterialReclaim.VerifyOk: hashing is one step per file instead of bounded increments, and the shape checks of managed files are part of the authenticity of a name.
- MaterialReclaim.InventoryOk: which names a step picks, and how far it gets, are chosen by the operating system in the model; hard-link counters are the rule that every inventoried name of an object must be allowed.
- MaterialGc.Sync: reads of the client, the journal and the configuration that fail before anything is changed are not steps.
- The collector's registry is the set of registered recipes with their paths and a capacity; its lock and weak references are not modelled, only that a leased recipe is not retired. A recipe without paths is walked without a step of its own.
- Recovery.RetentionCoversRecovery: a recipe is the flat list of its coordinates; a namespace digest of a user is the user; the invocation kept before a step is its script detector's invocation.
- BuildPool.RunInvariant: paths are resolved, so symbolic links, unmarked roots and lock files that are no regular files, which the script refuses, do not occur; marker files, signal delivery and descriptor budgets are not modelled.
- BuildRunner.Runner.AcquireSlot: removing a tree is one step there; `BuildPool` also has its partial steps. Waiting has a number of tries instead of a deadline.
- CollectionBudget.CollectionSound: one clock reading per use in a turn, sizes are an additive function with the JSON widths that the bound depends on, and the final validation of the result by the wire library is not modelled. Of that library's `complete_for` the model takes that an answer without a complete enumeration is not complete; the rest of it is up to the environment.
- CollectionOverrun.OverrunsExactly: is about plans that list one query; for plans that mix repeated scan queries with others the bound of `CollectionBudget.CollectionSound` is one direction, because what a provider can fill then depends on the order and limits of all queries. Equal digests stand for equal queries. An answer's size beyond rows and evidence is free, and so is the latest time its evidence may name, which is a parameter. For a clock that gains or loses digits during a collection only `OverrunOverfills` is claimed.
- NativeStream.ChunkingIsInvisibleExactly: the stream is one of characters; the UTF-8 decoder is not modelled. Besides the requests in flight, how a line is handled depends on the lines before it, and nothing else closes the channel between two chunks: the peer, a timer or a reply that cannot be sent may, as `NativeControl` has it.
- OutputReaders.KeptExactly: states no wrap of the 64-bit counter as a condition; a reader whose pipe fails ends the run and is only an outcome.
- OutputReaders.Tool.Conclude: killing the process when the counter passes the bound is left to the environment, which may end a stream anywhere.
- SecretCatalog.SecretStore.Retire: unsynchronised file data lost in a power failure, and a second process that imports secrets during the call, are not modelled; the latter would be left behind like a key.
- SecretCatalog.SecretStore.InitializeCatalog: the other operations keep a true marker true; what they and retirement say under the untrue marker of a wiped directory is not stated beyond their own entry.
- SettingsRun.Transaction.Run: identity and deadline at the start are one condition; the number of polls stands for the monotonic cutoff; the checks of the decision marker's path are not modelled.
- SettingsChange.DecisionStands: publishing a marker is atomic and the directory is not shared with other writers.
- CollectedRows.FollowingIsOneSnapshot: the cursor and the staleness flag are added after a page was measured, as in the code, so a sent page exceeds 48 KiB by their bytes.
- CollectedStore.RunSound: registering definitions is one commit; keys are the constructors of a type, so a query whose id begins with `projected:` is not confused with material. Which values a commit evicts is arbitrary.
- CollectedUpkeep.Store.Maintain: a scan is one step, its paging and key order are not modelled, and whether a definition is visible is a property of its record during one maintenance.
- ScalarCodec.Native: selecting and converting rows by a mapping belongs to the wire library and is a function.
- Admission of local settings permits and risk levels: one-branch checks of a policy.
- Publishing, directory listings, policy reads and history of the collected data: lookups and filters over the same records.
- Telemetry, registration, deployment loading, permissions, account, firewall and network probes: wiring and foreign calls.
- Hashing, signatures, JSON encoding, SQLite and filesystem internals: injective digests, abstract sizes and the stated effects of each call.
- The service scripts, examples, user-interface builds and command-line wiring.
