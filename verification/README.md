# Cobalt Wren: durable stores, workflows, native steps and their lifecycle, proved

This project models the parts of Cobalt Wren whose correctness does not show in any one function:
stores that must survive a process dying between any two file operations, workflows whose single
outcome rests only on those stores, native steps that interleave at their awaits, and the control
plane's small protocols. `dafny verify dfyconfig.toml` (Dafny 4.11) checks the whole project.

How the modules build on each other:

- `KeyOrder` is the order of strings and sorting by a string key, used where the code sorts.
- `Metadata` is checkpoint metadata: its comparison form and the host language's equality.
  `MetadataNormalization` is the walk that turns a graph of host objects into such a tree.
- `CheckpointChain` is the reference: one append-only chain of parent-checked versions.
  `MemoryCheckpoint` is the in-memory store, a class over three dictionaries, proved equal to it.
- `CheckpointDisk` is a stream directory (path to inode, inode to content, and what has not been
  synced yet). `ChainValidation`, `CheckpointRecovery`, `CheckpointSave` and `CheckpointReads` give
  validation, audit, recovery, `save` and the reads as functions from a directory to a result and to
  *every directory state on the way*. `FilesystemCheckpoint` is the store as a class that changes
  its directory one file operation at a time; each of its methods is proved to take exactly those
  steps. `CheckpointRuns` is whole runs: completed calls, calls cut off by a crash after any step
  (inside recovery too), and bodies that other streams store meanwhile.
- `Artifacts` is the lock-free artifact store: any number of writers interleaving and dying, against
  the in-memory store. `ArtifactReads` is the listings of both and the filesystem's `get`, while
  others publish.
- `PlainWorkflow`, `Saga` and `SagaWorkflow` are the two workflows built on both stores, store access
  by store access, and as classes that run one call. `PlainEnding` and `SagaEnding` say when a paused
  run can still be brought to its end, `StoredForms` what the calls leave in the stores, word for word. `DurableSaga` puts the saga on the filesystem
  stores, cut off after any file operation, and carries its theorems over to what is on disk.
- `Backoff`, `NativeTrace` and `NativeReplay` are the native step engine: retries and delays over the
  reals, the observation buffer under interleaved steps, and its replay onto a sink that may fail.
- `Schema` compiles annotations to schemas and checks values against them; `SchemaIssues` says that
  every issue is so where it points, `SchemaExactness` for which annotations validation is membership.
- `Jobs` is the job queue and run lifecycle under many workers; `Registry` is plugin registration,
  validation and runtime assembly; `Saver` is the saver snapshot of the approval workflow.

Digests, the JSON text of documents and base64 are unknown functions. Where an argument needs
digests not to collide, or a codec to decode what it encodes, the lemma says so (`Apart`,
`KeyTaken`, `BodyTaken`, `Collides`, `Faithful`). For one call of a store the agreement with the
reference is an exact equivalence with the absence of a harmful collision (`CheckpointSave.SaveRefines`,
`CheckpointReads.ReadsAgree`, `Artifacts.ReadsMirror`, `Artifacts.SoloPutAgrees`); for interleaved
artifact puts the possible departures are listed (`Artifacts.AnswersLinearize`).

Results worth knowing that are not in the repository's documentation:

- Checkpoint identifiers that the memory store looks up can be refused by the filesystem store
  (`CheckpointReads.MalformedIdsDiffer`); the two agree on exactly the identifiers that
  `CheckpointReads.ReadsAgree` describes.
- A saga whose compensation died between its two writes and which was then retried with a failure
  left is stranded: whatever calls come later, none finishes it (`SagaWorkflow.StrandedForGood`).
  Such a state can be reached exactly when the input plans both a retryable and a fatal failure
  (`SagaWorkflow.StrandingIff`); a paused saga that is not stranded can be finished, always
  (`SagaEnding.FinishableIff`, `SagaEnding.AlwaysFinishableIff`).
- A plain confirmation has no such state: a decision stored by a call that died is finished by
  repeating it (`PlainEnding.DecidableIff`).
- The artifact store compares the key inside a manifest only by digest, so of two keys with one digest
  the second reads as the first, and a put of it is a conflict (`Artifacts.OtherKeysItem`,
  `Artifacts.SoloPutAgrees`).
- A saga never stores more than three versions, and the store refuses a retry exactly when there is
  nothing to retry, because the version would name itself as its parent.
- A finished job keeps its row for good exactly when no worker still holds it
  (`Jobs.OutcomeIsFinalIff`); a re-queued job with two holders does flip (`Jobs.FinishedJobsFlip`).
- A terminal run keeps its row for good exactly when it succeeded and nobody is executing it
  (`Jobs.StatusIsFinalIff`); a cancelled run can still end as succeeded
  (`Jobs.CancelledRunOverwritten`).
- The cycle check of metadata normalisation never changes an outcome: the depth limit rejects the
  same values with the same error (`MetadataNormalization.CycleCheckIsRedundant`).
- Optional annotations compile to a schema that accepts every value, and dictionary keys are never
  checked (`Schema.OptionalAcceptsAnything`, `Schema.KeysGoUnchecked`); but no value that belongs to
  its annotation is ever rejected (`Schema.MembersPass`).

## Model

| member | source | states |
|---|---|---|
| Metadata.CanonicalExact | src/cobalt_wren/integrations/checkpoint/base.py:188-215 | comparison forms are equal under the host's own equality exactly for the same typed tree, whatever the key order |
| Metadata.UntaggedScalarsCollide | src/cobalt_wren/integrations/checkpoint/base.py:188-209 | without the type tags true, 1 and 1.0 would be one value; with them they are three |
| MetadataNormalization.Walk.NormalizeValue | src/cobalt_wren/integrations/checkpoint/base.py:126-171 | the recursive walk, adding to and removing from the set of containers under way, computes the normal form and leaves the set as it found it |
| MetadataNormalization.CycleCheckIsRedundant | src/cobalt_wren/integrations/checkpoint/base.py:126-171 | on every object graph the cycle check rejects nothing that the depth limit would not reject |
| MetadataNormalization.NormalizationIsExact | src/cobalt_wren/integrations/checkpoint/base.py:126-181 | a value is accepted with a tree if and only if it unfolds to that tree and the tree is within the limits on depth, items, strings and keys |
| MetadataNormalization.UnfoldedIsWellKeyed | src/cobalt_wren/integrations/checkpoint/base.py:138-156 | an accepted tree repeats no key, so the comparison form tells it from every other tree |
| CheckpointChain.SaveKeepsHistory | src/cobalt_wren/integrations/checkpoint/memory_store.py:141-194 | a save keeps revisions counting from one, parents linked and identifiers distinct, and only ever appends one version |
| CheckpointChain.NewVersionCarries | src/cobalt_wren/integrations/checkpoint/memory_store.py:161-194 | a new identifier is accepted exactly under the head as its parent, and the version appended has the request's identifier, parent, body, serializer name and version, content type and metadata, the body's size and digest and the next revision |
| CheckpointChain.TakenVersionCarries | src/cobalt_wren/integrations/checkpoint/memory_store.py:80-96 | a taken identifier is accepted exactly when its version agrees with the request in every field, the body and the metadata as a typed tree; any difference is a conflict |
| CheckpointChain.SavedCarries | src/cobalt_wren/integrations/checkpoint/memory_store.py:141-194 | the answer of every accepted save says what the request says, field by field, and is stored with its body |
| CheckpointChain.RequestIsBuiltIff | src/cobalt_wren/integrations/checkpoint/base.py:232-245 | a write request is built exactly from valid identifiers of which the parent is another one |
| CheckpointChain.RetryIsIdempotent | src/cobalt_wren/integrations/checkpoint/memory_store.py:147-160 | repeating an accepted save returns the same version and changes nothing, however many saves came between |
| MemoryCheckpoint.MemoryCheckpointStore.constructor | src/cobalt_wren/integrations/checkpoint/memory_store.py:41-44 | a new store is an empty history |
| MemoryCheckpoint.MemoryCheckpointStore.Save | src/cobalt_wren/integrations/checkpoint/memory_store.py:141-194 | the three dictionaries and the answer after a save are those of the reference chain: same version, conflict or stale parent; the unavailable-head and corrupt-record branches cannot be reached |
| MemoryCheckpoint.MemoryCheckpointStore.LoadLatest | src/cobalt_wren/integrations/checkpoint/memory_store.py:196-211 | returns the last version of the chain with its body, or nothing |
| MemoryCheckpoint.MemoryCheckpointStore.LoadCheckpoint | src/cobalt_wren/integrations/checkpoint/memory_store.py:213-237 | returns the named version, nothing, or refuses an empty or padded identifier |
| MemoryCheckpoint.MemoryCheckpointStore.ListForRun | src/cobalt_wren/integrations/checkpoint/memory_store.py:239-265 | lists every version in revision order |
| CheckpointDisk.RestingTolerates | src/cobalt_wren/integrations/checkpoint/filesystem_store.py:944-965 | from a directory at rest, whatever a crash keeps or loses of what was not synced stands for the same chain |
| CheckpointDisk.AddingTolerates | src/cobalt_wren/integrations/checkpoint/filesystem_store.py:1125-1190 | while a version is being linked, whatever a crash leaves stands for the old chain or the new one, and for the new one once a link is sure to survive |
| CheckpointDisk.AdvanceHead | src/cobalt_wren/integrations/checkpoint/filesystem_store.py:643-663 | with both links synced, replacing the head makes the longer chain current |
| CheckpointDisk.UnsyncedMayGo | src/cobalt_wren/integrations/checkpoint/filesystem_store.py:643-663 | in the crash model every link, body and head that is not synced can be lost as well as kept |
| ChainValidation.ValidateCommittedChain | src/cobalt_wren/integrations/checkpoint/filesystem_store.py:857-900 | the validation loop returns the records or the first error in revision order, as the recursive check does |
| ChainValidation.ValidationIsExact | src/cobalt_wren/integrations/checkpoint/filesystem_store.py:857-900 | validation returns a list if and only if revisions 1..head exist, each names its predecessor, agrees with the by-id index on one inode, has its body, and the head matches the last record |
| ChainValidation.ValidatedDistinct | src/cobalt_wren/integrations/checkpoint/filesystem_store.py:857-900 | identifiers, and the index file names they give, are pairwise distinct along a validated chain |
| ChainValidation.AuditNoExtraRecords | src/cobalt_wren/integrations/checkpoint/filesystem_store.py:902-942 | the audit loops report an error exactly when some index entry is extra or misplaced |
| ChainValidation.AuditIsExact | src/cobalt_wren/integrations/checkpoint/filesystem_store.py:902-942 | after validation, a clean audit means exactly that both indexes are in bijection with the committed chain |
| CheckpointRecovery.RecoverStaleIntent | src/cobalt_wren/integrations/checkpoint/filesystem_store.py:1015-1054 | an intent left behind for the version at the head is removed without changing the chain |
| CheckpointRecovery.RecoverUnusedIntent | src/cobalt_wren/integrations/checkpoint/filesystem_store.py:966-975 | an intent of which neither link exists is removed without changing the chain |
| CheckpointRecovery.RelinkIdRecovers | src/cobalt_wren/integrations/checkpoint/filesystem_store.py:976-994 | with only the revision link left, recovery relinks the identifier, moves the head and ends on the new chain |
| CheckpointRecovery.RelinkRevisionRecovers | src/cobalt_wren/integrations/checkpoint/filesystem_store.py:996-1014 | with only the identifier link left, recovery relinks the revision, moves the head and ends on the new chain |
| CheckpointRecovery.RecoveryKeepsChain | src/cobalt_wren/integrations/checkpoint/filesystem_store.py:944-1054 | crash atomicity: on every directory a crash can leave recovery succeeds, no step of it changes the chain the directory stands for even if it is cut off there, and the intent is gone at the end |
| CheckpointRecovery.RecoveryIsSound | src/cobalt_wren/integrations/checkpoint/filesystem_store.py:944-1054 | on any directory, damaged or not, a recovery that reports success has found no records, or a validated chain, or has the intent's record under both names with the head on it; an intent that its records contradict or the head has passed is an error |
| CheckpointRecovery.RecoversStepByStep | src/cobalt_wren/integrations/checkpoint/filesystem_store.py:944-1054 | recovery goes from directory state to directory state by one file operation at a time, so no crash point is left out |
| CheckpointSave.StoreBodyRests | src/cobalt_wren/integrations/checkpoint/filesystem_store.py:1099-1115 | storing or re-reading the content-addressed body leaves the chain as it was at every step |
| CheckpointSave.PublishRecordAdds | src/cobalt_wren/integrations/checkpoint/filesystem_store.py:1117-1190 | intent, record, links, syncs, head and cleanup: every step stands for the old or the new chain, the last for the new one |
| CheckpointSave.PublicationIsSound | src/cobalt_wren/integrations/checkpoint/filesystem_store.py:1117-1190 | on any directory, a publication that reports success has left its record under both index names on one file, and the head on it |
| CheckpointSave.TakenRevisionIsRefused | src/cobalt_wren/integrations/checkpoint/filesystem_store.py:1150-1175 | a revision that another file has is refused, as a conflict or as a broken pair, and the head stays |
| CheckpointSave.SavesStepByStep | src/cobalt_wren/integrations/checkpoint/filesystem_store.py:1056-1206 | a save goes from directory state to directory state by one file operation at a time, so no crash point is left out |
| CheckpointSave.SaveRefines | src/cobalt_wren/integrations/checkpoint/filesystem_store.py:1056-1206 | a save from any directory a crash or call leaves: every step stands for the old chain or the reference's next one, an accepted save ends on the latter and a refused one on the former, and with working cleanup the answer is the reference's exactly when no digest collides |
| CheckpointReads.ReadsAgree | src/cobalt_wren/integrations/checkpoint/filesystem_store.py:1208-1281 | reads answer as the memory store does; for a named version exactly when the identifier is well formed and its file name not taken, or both stores refuse it |
| CheckpointReads.ListOnChain | src/cobalt_wren/integrations/checkpoint/filesystem_store.py:1283-1316 | the listing of a current directory is the chain's descriptors in order |
| CheckpointReads.MalformedIdsDiffer | src/cobalt_wren/integrations/checkpoint/filesystem_store.py:1244-1250 | an identifier with a blank inside is refused by the filesystem store and looked up by the memory store |
| FilesystemCheckpoint.FilesystemCheckpointStore.RecoverStream | src/cobalt_wren/integrations/checkpoint/filesystem_store.py:944-1054 | recovery performs exactly the file operations the crash proofs speak about, in their order |
| FilesystemCheckpoint.FilesystemCheckpointStore.SaveCheckpoint | src/cobalt_wren/integrations/checkpoint/filesystem_store.py:1056-1206 | save performs exactly the file operations the crash proofs speak about, in their order |
| FilesystemCheckpoint.FilesystemCheckpointStore.Publish | src/cobalt_wren/integrations/checkpoint/filesystem_store.py:1117-1190 | refuses when an intent is left; otherwise links and syncs in the modelled order, the by-id link never being taken |
| FilesystemCheckpoint.FilesystemCheckpointStore.Latest | src/cobalt_wren/integrations/checkpoint/filesystem_store.py:1208-1242 | recovers, then reads the head's record and body |
| FilesystemCheckpoint.FilesystemCheckpointStore.Version | src/cobalt_wren/integrations/checkpoint/filesystem_store.py:1244-1281 | refuses a malformed identifier, recovers, then reads the named record and body |
| FilesystemCheckpoint.FilesystemCheckpointStore.ListForRun | src/cobalt_wren/integrations/checkpoint/filesystem_store.py:1283-1316 | recovers, validates, audits and lists; its last loop meets no missing record |
| CheckpointRuns.EventExplained | src/cobalt_wren/integrations/checkpoint/filesystem_store.py:944-1316 | one call, one crash or one foreign body is one step of the reference, or none |
| CheckpointRuns.RunsAreExplained | src/cobalt_wren/integrations/checkpoint/filesystem_store.py:944-1316 | every run, with any number of crashes at any step, is a run of the reference in which each interrupted save took effect or did not; all answers agree |
| CheckpointRuns.HistoriesGrow | src/cobalt_wren/integrations/checkpoint/filesystem_store.py:1056-1206 | along a run histories are only extended |
| CheckpointRuns.AcknowledgedVersionsSurvive | src/cobalt_wren/integrations/checkpoint/filesystem_store.py:1056-1281 | after an acknowledged save, whatever calls and crashes follow, reading the version back gives that descriptor and that body |
| CheckpointRuns.AcknowledgedVersionsCarry | src/cobalt_wren/integrations/checkpoint/filesystem_store.py:1056-1281 | what reads back after any calls and crashes says, in every field and in its metadata as a typed tree, what the acknowledged request said |
| Artifacts.MemoryArtifactStore.Put | src/cobalt_wren/integrations/artifact/memory_store.py:73-106 | the dictionary and the answer are those of the write-once reference |
| Artifacts.MemoryArtifactStore.Get | src/cobalt_wren/integrations/artifact/memory_store.py:108-130 | returns what was stored; the integrity failure cannot occur |
| Artifacts.FirstWriteWins | src/cobalt_wren/integrations/artifact/memory_store.py:73-106 | a written key keeps its record for good; a later write is accepted exactly when it describes the same artifact and body |
| Artifacts.PutCarries | src/cobalt_wren/integrations/artifact/memory_store.py:52-106 | a free key is given a record with the request's run, key, name, kind, content type, body and metadata and the body's size and digest; a taken key accepts exactly the requests that its record agrees with in all of these, and any difference is a conflict |
| Artifacts.RunsAreSound | src/cobalt_wren/integrations/artifact/filesystem_store.py:159-231 | under any interleaving and deaths of putters every manifest has its body, of its size and digest, and the shelf is what the logged writes put into the reference store |
| Artifacts.PublishedForGood | src/cobalt_wren/integrations/artifact/filesystem_store.py:318-374 | a published body or manifest never changes or disappears |
| Artifacts.AnswersLinearize | src/cobalt_wren/integrations/artifact/filesystem_store.py:159-231 | a finished put answers as the reference did at a point between its start and its end, or it answers a conflict because another key has its file name, or a body integrity failure because another body has the same digest; never anything else |
| Artifacts.ReadsMirror | src/cobalt_wren/integrations/artifact/filesystem_store.py:233-260 | a read on a sound shelf never fails, however the shelf grows between manifest and body: it gives the item whose key has the file name, which is the reference's answer if and only if no other stored key has the requested key's digest |
| Artifacts.OtherKeysItem | src/cobalt_wren/integrations/artifact/filesystem_store.py:430-436 | of two keys with one digest the one never written reads as the other's artifact and body, because the manifest's key is compared by digest only |
| Artifacts.FilesystemArtifactStore.LoadExisting | src/cobalt_wren/integrations/artifact/filesystem_store.py:471-512 | on a sound shelf never an error, in particular no key mismatch: the item under the key's file name, and the reference's answer if and only if no other stored key has that name |
| Artifacts.FilesystemArtifactStore.Get | src/cobalt_wren/integrations/artifact/filesystem_store.py:233-260 | on a sound shelf gives the item under the key's file name, and the reference's answer if and only if no other stored key has that name |
| Artifacts.FilesystemArtifactStore.Put | src/cobalt_wren/integrations/artifact/filesystem_store.py:159-231 | undisturbed, a put is the interleaving machine driven to its end; the lost-link branch is not reached |
| Artifacts.SoloPutAgrees | src/cobalt_wren/integrations/artifact/filesystem_store.py:159-231 | alone, the filesystem store answers as the memory store if and only if no other key has the file name, no other body has the digest of a body put under a free key, and the key does not hold this very artifact with another body; otherwise it answers a conflict or a body integrity failure and publishes no manifest |
| Artifacts.SoloPutCarries | src/cobalt_wren/integrations/artifact/filesystem_store.py:159-231 | a put that is accepted alone publishes the body and a manifest that says what the request says, field by field |
| Artifacts.AcceptedPutsCarry | src/cobalt_wren/integrations/artifact/filesystem_store.py:159-260 | in every run what an accepted put answered says what its request said, and every later get of the key finds it with the body that was put |
| ArtifactReads.ListingUnique | src/cobalt_wren/integrations/artifact/memory_store.py:132-140 | two lists of the same artifacts in key order are equal, so a listing is determined by what is stored |
| ArtifactReads.MemoryListForRun | src/cobalt_wren/integrations/artifact/memory_store.py:132-140 | lists exactly the artifacts of the run, each once, in key order |
| ArtifactReads.ListForRun | src/cobalt_wren/integrations/artifact/filesystem_store.py:262-279 | while others publish, a listing does not fail and is exactly the memory store's listing of what was published when its walk began |
| ArtifactReads.ListingsUnfold | src/cobalt_wren/integrations/artifact/filesystem_store.py:262-279 | in every run, whatever later states the walk reads its files from, the hypotheses of the listing hold: it lists the reference items of the state in which the walk began |
| ArtifactReads.GetsLinearize | src/cobalt_wren/integrations/artifact/filesystem_store.py:233-260 | a get whose manifest and body are read in two states of a run gives what was under the file name in the first of them, and the reference's answer there if and only if no other stored key has that name |
| ArtifactReads.ReadsAreStable | src/cobalt_wren/integrations/artifact/filesystem_store.py:233-260 | a key that a get has read is read as the same artifact and body by every later get |
| PlainWorkflow.MigrationSettles | packages/plain_python_workflow/src/plain_python_workflow/workflow.py:143-161 | a legacy state migrates to exactly what `execute` writes now for its title, or else subject, and its body, or else message; a current one is untouched, and migrating again changes nothing |
| PlainWorkflow.MigratesIff | packages/plain_python_workflow/src/plain_python_workflow/workflow.py:143-161 | a state migrates exactly when it is current, or is a legacy one with both texts that has no other phase than waiting |
| PlainWorkflow.ActionKeepsInv | packages/plain_python_workflow/src/plain_python_workflow/workflow.py:21-116 | every store access of every call keeps the stream empty, waiting, or waiting and decided as stored |
| PlainWorkflow.DecisionsDoNotResume | packages/plain_python_workflow/src/plain_python_workflow/workflow.py:53-71 | a decided version is not a state to resume from, whatever the action |
| PlainWorkflow.UniqueDecision | packages/plain_python_workflow/src/plain_python_workflow/workflow.py:21-116 | however execute and resume calls interleave and die, a stored decision never changes, the stream shows at most that decision, and all calls that finish agree |
| PlainEnding.ResumeDecidesIff | packages/plain_python_workflow/src/plain_python_workflow/workflow.py:53-116 | on a waiting stream a resumed call, alone, decides if and only if it names the waiting version or none, that version can be read, the action is confirm or cancel, and any stored decision is this very one |
| PlainEnding.DecidableIff | packages/plain_python_workflow/src/plain_python_workflow/workflow.py:53-116 | a waiting stream can be decided if and only if its version can be read: the decision of a call that died is finished by repeating it |
| PlainEnding.UnreadableIsNeverDecided | packages/plain_python_workflow/src/plain_python_workflow/workflow.py:53-71 | on a version that cannot be read no call ever decides, however calls interleave |
| PlainEnding.ExecutedStaysDecidable | packages/plain_python_workflow/src/plain_python_workflow/workflow.py:21-116 | a confirmation begun by `execute` can be decided in every world in which it waits |
| PlainEnding.WaitsAsAsked | packages/plain_python_workflow/src/plain_python_workflow/workflow.py:21-51 | in every run the waiting version says what some call of `execute` was asked to confirm |
| StoredForms.PausedSays | packages/plain_python_workflow/src/plain_python_workflow/workflow.py:21-51 | a paused `execute` has stored the waiting version under its name, saying phase, subject and message |
| StoredForms.DecidedSays | packages/plain_python_workflow/src/plain_python_workflow/workflow.py:53-116 | a resumed call that decides stores one body as the decision artifact and as the final version; it says the texts of the version resumed, "confirmed" with the note for confirm, "cancelled" with the reason for cancel |
| StoredForms.RunsSayDecision | packages/plain_python_workflow/src/plain_python_workflow/workflow.py:53-116 | in every run artifact and final version agree and say the verdict that the finished call reports |
| PlainWorkflow.PlainExecutable.Execute | packages/plain_python_workflow/src/plain_python_workflow/workflow.py:21-51 | writes the waiting version as the interleaving machine does |
| PlainWorkflow.PlainExecutable.Resume | packages/plain_python_workflow/src/plain_python_workflow/workflow.py:53-116 | loads, migrates, checks and stores artifact before checkpoint as the interleaving machine does, with the same refusals in the same order |
| Saga.ExecuteBranches | packages/saga_workflow/src/saga_workflow/workflow.py:78-102 | one result per selected operation, appended in order |
| Saga.ParsesIff | packages/saga_workflow/src/saga_workflow/workflow.py:171-178 | a failure plan is taken as it is exactly when it names the three operations and the two kinds of failure only |
| Saga.BeginAccounts | packages/saga_workflow/src/saga_workflow/workflow.py:47-57 | the first run gives reservation, charge and access, in this order, one first attempt each, failed and retryable exactly as the plan says, under its own key |
| Saga.RetryReruns | packages/saga_workflow/src/saga_workflow/workflow.py:65-72 | a retry re-runs exactly the recorded retryable failures, under the same idempotency key and with one more attempt, keeps every other result, and raises the attempt total by the number re-run |
| Saga.EmptyRetry | packages/saga_workflow/src/saga_workflow/workflow.py:65-72 | with nothing retryable a retry arrives at the very state it began with |
| Saga.Compensations | packages/saga_workflow/src/saga_workflow/workflow.py:137-149 | the reversed loop computes the compensations of the successes |
| Saga.UndoReverses | packages/saga_workflow/src/saga_workflow/workflow.py:136-150 | compensation undoes each success once, the last first: the reservation by releasing the inventory, the charge by a refund, the access by revoking it, each under its own key |
| Saga.CompensateReports | packages/saga_workflow/src/saga_workflow/workflow.py:137-150 | compensating a failed state yields a compensated report that undoes exactly the successes in reverse |
| Saga.KeysAreApart | packages/saga_workflow/src/saga_workflow/workflow.py:79-96 | in a report no two operations share an idempotency key, and no compensation shares one with an operation or with the compensation of another |
| Saga.CountsAddUp | packages/saga_workflow/src/saga_workflow/workflow.py:100-103 | successes, retryable failures and fatal failures are all of the results |
| Saga.ReconcileAccounts | packages/saga_workflow/src/saga_workflow/workflow.py:104-135 | reconciling either stores a state that accounts for every operation or completes with every operation successful |
| SagaWorkflow.DecimalInjective | packages/saga_workflow/src/saga_workflow/workflow.py:110 | different attempt totals give different `partial-N` identifiers |
| SagaWorkflow.ActionKeepsInv | packages/saga_workflow/src/saga_workflow/workflow.py:47-160 | every store access of every call keeps each version what its predecessor, or the input, leads to |
| SagaWorkflow.RetriesRaise | packages/saga_workflow/src/saga_workflow/workflow.py:65-72 | a partial version after another is its retry: something was retried, N strictly rose, nothing retryable is left |
| SagaWorkflow.AtMostThreeVersions | packages/saga_workflow/src/saga_workflow/workflow.py:104-160 | a saga stores at most two partial versions and one final one, which nothing follows |
| SagaWorkflow.RetryRefusedIff | packages/saga_workflow/src/saga_workflow/workflow.py:65-128 | a retry is refused as its own parent exactly when nothing is retryable, the action a pause does not offer |
| SagaWorkflow.FinishedSagasStay | packages/saga_workflow/src/saga_workflow/workflow.py:59-75 | no action resumes a finished saga |
| SagaWorkflow.EveryVersionIsSound | packages/saga_workflow/src/saga_workflow/workflow.py:47-160 | in every run each version accounts for every operation exactly once, the first is what the input leads to, and a final version is the last one and is the stored report |
| SagaWorkflow.OneOutcome | packages/saga_workflow/src/saga_workflow/workflow.py:152-160 | in every run all calls that finish finish with one unchanging report: completed or compensated, never both |
| SagaWorkflow.PutReport | packages/saga_workflow/src/saga_workflow/workflow.py:156 | storing a report succeeds exactly when no other report is stored |
| SagaWorkflow.FinishesIff | packages/saga_workflow/src/saga_workflow/workflow.py:59-75 | a resumed call, alone, finishes a paused saga exactly when it ends in a report and no other report is stored |
| SagaWorkflow.RetryStrands | packages/saga_workflow/src/saga_workflow/workflow.py:152-160 | after a compensation that died past its artifact and a retry that left a failure, a resumed call left alone does not finish, whatever its action |
| SagaWorkflow.StrandedForGood | packages/saga_workflow/src/saga_workflow/workflow.py:59-160 | in every run, once a saga is so stranded no call ever finishes it and no final version is ever stored |
| SagaWorkflow.StrandingIff | packages/saga_workflow/src/saga_workflow/workflow.py:59-160 | a stranded saga can be reached if and only if the input plans both a retryable and a fatal failure |
| SagaEnding.UnstrandedFinishes | packages/saga_workflow/src/saga_workflow/workflow.py:59-160 | a paused saga that is not stranded is finished by a retry or a compensation left alone, whatever died before it |
| SagaEnding.FinishableIff | packages/saga_workflow/src/saga_workflow/workflow.py:59-160 | a paused saga can still be finished, by any calls however they interleave and die, if and only if it is not stranded |
| SagaEnding.AlwaysFinishableIff | packages/saga_workflow/src/saga_workflow/workflow.py:47-160 | every paused saga that runs can reach can still be finished if and only if the input does not plan both a retryable and a fatal failure |
| SagaWorkflow.SagaExecutable.Execute | packages/saga_workflow/src/saga_workflow/workflow.py:47-57 | runs the graph and stores as the interleaving machine does |
| SagaWorkflow.SagaExecutable.Resume | packages/saga_workflow/src/saga_workflow/workflow.py:59-75 | edits the decoded state, re-runs or compensates, and stores as the interleaving machine does |
| SagaWorkflow.SagaExecutable.Finalize | packages/saga_workflow/src/saga_workflow/workflow.py:152-160 | artifact first, then the final version; stops when the artifact is refused |
| StoredForms.SagaCallSays | packages/saga_workflow/src/saga_workflow/workflow.py:47-160 | a call that pauses or finishes has carried out in the stores, under their names and with the stored documents, what the input, the retry or the compensation of the head's state leads to |
| DurableSaga.ActionSimulated | packages/saga_workflow/src/saga_workflow/workflow.py:47-160 | one file operation, answer, cut-off access or death on the disk is some steps of the machine over the reference stores |
| DurableSaga.RunsAreSagas | packages/saga_workflow/src/saga_workflow/workflow.py:47-160 | every run on the filesystem stores, cut off anywhere, is a run over the reference stores in which each interrupted access took place or did not |
| DurableSaga.ReportSurvives | packages/saga_workflow/src/saga_workflow/workflow.py:152-160 | once a call has finished, whatever is cut off later, every read of the latest version and of the report artifact gives its sound report, and all that finish finish with it |
| DurableSaga.VersionsReadAreSound | packages/saga_workflow/src/saga_workflow/workflow.py:104-160 | every version read back from the disk accounts for every operation once, and a final one is the stored report |
| DurableSaga.FinishesOnDisk | packages/saga_workflow/src/saga_workflow/workflow.py:47-57 | every input that plans no failure has a run on disk in which its call finishes with the report |
| Backoff.DelayGrows | src/cobalt_wren/native/policies.py:42-46 | the delay never falls with the attempt and stays within zero and the maximum |
| Backoff.DelayMultiplies | src/cobalt_wren/native/policies.py:42-46 | the first delay is the initial one and each next one the one before times the multiplier, all cut off at the maximum |
| Backoff.SlicesExact | src/cobalt_wren/native/__init__.py:363-370 | a delay is slept in ceil(delay / 0.1) slices that sum to it exactly, none longer than a tenth |
| Backoff.RetryDelay | src/cobalt_wren/native/__init__.py:363-370 | the control is asked before each slice and after the last, and the first stopping answer ends the sleep there |
| NativeTrace.ObservationBuffer.StartSpan | src/cobalt_wren/native/__init__.py:139-163 | opens the next span with the next event sequence |
| NativeTrace.ObservationBuffer.Complete | src/cobalt_wren/native/__init__.py:165-187 | appends the completion of the given span with the next event sequence |
| NativeTrace.ObservationBuffer.Fail | src/cobalt_wren/native/__init__.py:189-212 | appends a failed or retrying terminal of the given span with the next event sequence |
| NativeTrace.NativeWorkflowContext.Step | src/cobalt_wren/native/__init__.py:271-361 | the admission checks and the retry loop take the same steps as the interleaving machine, and the final AssertionError is not reached |
| NativeTrace.NativeWorkflowContext.RetryDelay | src/cobalt_wren/native/__init__.py:363-370 | the delay loop between two attempts goes on exactly as the machine's segments do |
| NativeTrace.ActionKeepsInv | src/cobalt_wren/native/__init__.py:271-361 | every segment of every interleaved step keeps the buffer well formed and every step orderly |
| NativeTrace.TraceIsWellFormed | src/cobalt_wren/native/__init__.py:129-212 | event sequences are 1..n, spans open once and in order, terminals follow their starts, no span closes twice, and `_sequence` counts the distinct subjects, at most a thousand |
| NativeTrace.EverySpanEnds | src/cobalt_wren/native/__init__.py:305-360 | once no step is invoking, every started span has exactly one terminal, later and of the same attempt |
| NativeTrace.StepsAreOrderly | src/cobalt_wren/native/__init__.py:305-361 | each step's attempts are 1..k within its policy, every terminal but the last is retrying, it returns only after a completion, and its total backoff is at most (max_attempts - 1) * max_delay |
| NativeTrace.SettlesAsDue | src/cobalt_wren/native/__init__.py:305-361 | an invocation that ends in an exception appends a retrying terminal if and only if the policy lists the exception, it is no cancellation and an attempt is left, and a failed one otherwise; a failed step raises, a retried one waits, starts its next attempt or is stopped by the control |
| NativeTrace.TerminalsAreDue | src/cobalt_wren/native/__init__.py:305-361 | in every run each terminal in the buffer is the one that the end of its invocation was due |
| NativeTrace.ControlIsAsked | src/cobalt_wren/native/__init__.py:305-370 | after a retried failure the control is asked before the delay, after each slice and before the next attempt; where it says stop the step ends, and nothing else is recorded |
| NativeTrace.ControlIsAskedFirst | src/cobalt_wren/native/__init__.py:296-313 | an admitted step counts as the next one and starts its first attempt unless the control stops it |
| NativeTrace.AdmittedIff | src/cobalt_wren/native/__init__.py:271-303 | a step is admitted exactly when name and key are well formed, its subject is new, fewer than a thousand are there, its timeout is positive and the control does not stop it |
| NativeTrace.LastStepNameIs | src/cobalt_wren/native/__init__.py:668-678 | the reported name is that of the last attempt that ended its step, or empty when there is none |
| NativeReplay.Replay | src/cobalt_wren/native/__init__.py:214-252 | the sink receives, per operation and in order, exactly its opening or closing call and its projection |
| NativeReplay.OpenedSpansCloseOnce | src/cobalt_wren/native/__init__.py:214-252 | a span the sink opened is closed exactly once, after it was opened, on the sink's own span and with the recorded outcome |
| NativeReplay.RefusedSpansStayShut | src/cobalt_wren/native/__init__.py:708-763 | a span the sink failed to open is never closed |
| NativeReplay.ProjectionsInOrder | src/cobalt_wren/native/__init__.py:223-252 | one projection per buffered operation, in buffer order |
| NativeReplay.FinishedRunsReplay | src/cobalt_wren/native/__init__.py:214-252 | whatever the steps of a run did, its replay closes each span the sink opened exactly once |
| Schema.SortedNames | src/cobalt_wren/native/schema.py:21-25 | the required names are exactly the field names |
| Schema.RequiredInOrder | src/cobalt_wren/native/schema.py:21-25 | the required names are in order, each once |
| Schema.LeavesCompileTo | src/cobalt_wren/native/schema.py:37-60 | what primitives, string literals and `None` compile to |
| Schema.IssuesBelow | src/cobalt_wren/native/schema.py:101-147 | every issue is reported at the place checked or below it |
| SchemaIssues.IssuesAreSo | src/cobalt_wren/native/schema.py:101-165 | every issue names a place that the value has and says what is so there: a value not of the named type or not among the named strings, a dictionary without the named field, or a value without alternative |
| Schema.CollectSchemaIssues | src/cobalt_wren/native/schema.py:101-147 | appending to the shared list in place yields exactly the pure list of issues, after what was there |
| Schema.CompileExact | src/cobalt_wren/native/schema.py:12-165 | for every covered annotation and every value: no issue exactly when the value fits what the schema checks |
| Schema.ValidationIsMembership | src/cobalt_wren/native/schema.py:12-165 | on None-free annotations and string-keyed values: no issue exactly when the value belongs to the annotation |
| Schema.MembersPass | src/cobalt_wren/native/schema.py:12-165 | no value that belongs to a covered annotation is rejected, `None` and non-string keys included |
| SchemaExactness.TightIsExact | src/cobalt_wren/native/schema.py:12-165 | an annotation without `None` and without dictionaries that can have entries is validated exactly: on every value, no issue if and only if it belongs |
| SchemaExactness.ExactIff | src/cobalt_wren/native/schema.py:12-165 | among annotations with flat unions in which a list or dictionary that lets something through is alone of its kind, validation equals membership on every value if and only if the annotation is such a tight one |
| SchemaExactness.OpenDictionaryCovers | src/cobalt_wren/native/schema.py:43-45 | a union of `dict[str, int]` with an empty typed dictionary is validated exactly though its first member alone is not |
| Schema.KeysGoUnchecked | src/cobalt_wren/native/schema.py:130-135 | a value that does not belong to `dict[str, int]` passes because of its key |
| Schema.OptionalAcceptsAnything | src/cobalt_wren/native/schema.py:43-45 | an optional annotation accepts every value |
| Jobs.Database.EnqueueExecutionJob | src/cobalt_wren/apps/automation/services/jobs.py:26-41 | inserts a queued row unless the run has an active job |
| Jobs.Database.ClaimNextJob | src/cobalt_wren/apps/automation/services/jobs.py:44-71 | claims an eligible job created no later than any other, counting the attempt, or finds none eligible |
| Jobs.Database.RecoverStaleJobs | src/cobalt_wren/apps/automation/services/jobs.py:80-90 | returns exactly the claimed jobs with an old heartbeat to the queue |
| Jobs.Database.BeginAction | src/cobalt_wren/apps/automation/services/runs.py:172-179 | moves the run to RUNNING exactly when its status allows the operation |
| Jobs.Database.TransitionRun | src/cobalt_wren/apps/automation/services/runs.py:52-79 | sets the status, the first start time and, on a terminal status, the finish time |
| Jobs.ActionKeepsInv | src/cobalt_wren/apps/automation/services/jobs.py:26-116 | every transaction keeps one active job per run and moves rows only forward |
| Jobs.JobRowsChangeBy | src/cobalt_wren/apps/automation/services/jobs.py:44-116 | a job's row changes only by a claim of the oldest due job, a heartbeat while claimed, recovery when its heartbeat is stale, or its holder's finish, in exactly the fields of each; every stale row is recovered |
| Jobs.JobRowsComeBy | src/cobalt_wren/apps/automation/services/jobs.py:26-41 | a row is added exactly when its run has no queued or claimed job, queued for that run and operation |
| Jobs.WorkersMoveRuns | src/cobalt_wren/apps/automation/services/runs.py:52-265 | a run starts from exactly the statuses its operation allows, a refused job is settled as failed, an outcome is written with its date, and a job succeeds exactly when its execution had one |
| Jobs.OtherRunsStay | src/cobalt_wren/apps/automation/services/runs.py:154-265 | no transaction touches a run but its own |
| Jobs.OneActiveJobPerRun | src/cobalt_wren/apps/automation/models/job.py:55-61 | in every reachable state a run has at most one queued or claimed job |
| Jobs.AttemptsCountClaims | src/cobalt_wren/apps/automation/services/jobs.py:44-71 | `attempts` is the number of times the job was claimed |
| Jobs.RunDatesFit | src/cobalt_wren/apps/automation/services/runs.py:52-79 | in every reachable state a running run has a start time and a terminal one a finish time, and the first start time stays |
| Jobs.StartsOnce | src/cobalt_wren/apps/automation/services/runs.py:166-179 | a run goes from PENDING to RUNNING at most once, even when two workers execute one re-queued start job |
| Jobs.UnheldOutcomesAreFinal | src/cobalt_wren/apps/automation/services/jobs.py:93-116 | a finished job nobody holds keeps its row for good |
| Jobs.OutcomeIsFinalIff | src/cobalt_wren/apps/automation/services/jobs.py:93-116 | a finished job keeps its row in every continuation if and only if nobody holds it |
| Jobs.SingleClaimIsFinal | src/cobalt_wren/apps/automation/services/jobs.py:93-116 | a job claimed once is final as soon as it is finished |
| Jobs.FinishedJobsFlip | src/cobalt_wren/apps/automation/services/jobs.py:93-116 | a reachable re-queued start job ends succeeded and then failed |
| Jobs.TerminalLeavesBy | src/cobalt_wren/apps/automation/services/runs.py:154-265 | a terminal run leaves its status only by a retry or by an execution already under way |
| Jobs.StatusIsFinalIff | src/cobalt_wren/apps/automation/services/runs.py:154-265 | a terminal run keeps its row in every continuation if and only if it succeeded and nobody is executing it |
| Jobs.CancelledRunOverwritten | src/cobalt_wren/apps/automation/services/runs.py:193-213 | a reachable cancelled run becomes succeeded when the execution under way completes |
| Registry.PluginRegistry.Register | src/cobalt_wren/plugins/registry.py:33-104 | succeeds exactly when the name and every contribution key are new, then every index gains exactly the plugin's contributions; a failure changes nothing |
| Registry.PluginRegistry.RegisterAll | src/cobalt_wren/plugins/registry.py:29-31 | registers the plugins up to the first that is not acceptable and keeps those; earlier registrations keep their value and every index stays the disjoint union of what the registered plugins contribute |
| Registry.PluginRegistry.FindConflict | src/cobalt_wren/plugins/registry.py:44-92 | reports the first key that is repeated in the list or already registered, if any |
| Registry.UnionGrows | src/cobalt_wren/plugins/registry.py:94-104 | adding a plugin with new keys keeps an index the disjoint union of the contributions |
| Registry.BuildEffectivePluginSet | src/cobalt_wren/config/validator.py:62-89 | the loops build the effective indexes, or report the first unknown plugin |
| Registry.EffectiveIs | src/cobalt_wren/config/validator.py:62-89 | a key is effective exactly when an enabled plugin offers it, and then with the registered contribution |
| Registry.EffectiveOrderFree | src/cobalt_wren/config/validator.py:62-89 | the effective indexes do not depend on the order in which plugins are enabled |
| Registry.EffectiveKinds | src/cobalt_wren/config/validator.py:62-89 | the effective tools, providers, stores and event sinks are those that an enabled plugin offers as such |
| Registry.ValidateNeeds | src/cobalt_wren/config/validator.py:91-189 | the validation loops report the first bad entry |
| Registry.Validate | src/cobalt_wren/config/validator.py:46-60 | accepts exactly the configurations whose plugins are known and whose entries all check, and otherwise reports the first error in the code's order |
| Registry.NeedsAre | src/cobalt_wren/config/validator.py:91-189 | a configuration needs each allowed tool, with the first configuration of its name, and each named provider, store and event sink, except the two stores built elsewhere |
| Registry.ChecksIff | src/cobalt_wren/config/validator.py:46-189 | a configuration checks exactly when every configured tool is allowed and every need names an effective contribution whose hook accepts it |
| Registry.AssembleAll | src/cobalt_wren/runtime/assembly.py:54-162 | the assembly loops build every entry or stop at the first error |
| Registry.Assemble | src/cobalt_wren/runtime/assembly.py:27-52 | builds providers, tools, stores and sinks in this order and stops at the first error of the assembly that the two rows below are about |
| Registry.ValidatedConfigsAssemble | src/cobalt_wren/runtime/assembly.py:54-162 | a validated configuration never meets a missing contribution or a malformed tool configuration, and assembles exactly when every factory it needs creates an object |
| Registry.RuntimeIsAsConfigured | src/cobalt_wren/runtime/assembly.py:54-162 | each runtime entry was made by the contribution its configuration names |
| Saver.SnapshotSaver | packages/human_approval_workflow/src/human_approval_workflow/workflow.py:157-161 | the rows list each entry of the three dictionaries exactly once |
| Saver.RestoreSaver | packages/human_approval_workflow/src/human_approval_workflow/workflow.py:164-174 | the loops fill the nested dictionaries row by row |
| Saver.SnapshotRoundTrip | packages/human_approval_workflow/src/human_approval_workflow/workflow.py:157-174 | restoring a snapshot, in any row order, rebuilds the saver exactly, up to empty inner dictionaries |
| Saver.SnapshotAgain | packages/human_approval_workflow/src/human_approval_workflow/workflow.py:157-174 | a snapshot of what was restored holds the same rows |

## Left out

Weaker than the code in a stated way:

- CheckpointRuns.RunsAreExplained: one stream is modelled; other streams only add bodies. The stream lock makes its calls atomic towards each other, so calls of one stream do not interleave. Routing by run and namespace is not modelled.
- CheckpointRecovery.RecoveryKeepsChain: a crash settles what is on disk. A power loss that later takes back a reused body written by another stream or an earlier process is not modelled (src/cobalt_wren/integrations/checkpoint/filesystem_store.py:448-457), nor is a process death followed by a separate power loss after the one-directory syncs at lines 987 and 1013.
- CheckpointSave.SaveRefines: input/output errors inside a call count as a crash at that point; whether removing the intent works is one choice per call; symlink, file type, size and platform checks, temporary names and directory creation are not modelled, and an oversize body is reported as a size mismatch.
- MemoryCheckpoint.MemoryCheckpointStore.LoadCheckpoint: padding is recognised for space, tab, newline and carriage return only.
- Metadata.CanonicalExact: floats are real numbers; strings compare by code point.
- Artifacts.AnswersLinearize: requests arrive normalised, and manifests as they were encoded.
- Artifacts.SoloPutAgrees: exact for one put; for interleaved puts `Artifacts.AnswersLinearize` lists the departures, and whether a body collision is met depends on the order of the puts.
- ArtifactReads.ListForRun: the walk over the manifest directory is one step; the files it names are read one by one afterwards.
- PlainWorkflow.UniqueDecision: the text inputs arrive stripped and non-blank, the action also in lower case; event emission is not modelled; a run starts on an empty stream or on one waiting version.
- SagaWorkflow.EveryVersionIsSound: all executions of a run have the same input; each selected operation runs once and results are appended in order, which is what the graph library provides; the order identifier arrives stripped and non-blank, the action stripped and in lower case.
- DurableSaga.RunsAreSagas: what a power failure does to artifact files that are not synced yet is not modelled, only writers that stop anywhere; the assumptions of the stream directory and of the saga hold here too. The plain workflow is proved over the reference stores only.
- NativeTrace.StepsAreOrderly: names arrive stripped; a step is abandoned only by not being scheduled again, so host-level task cancellation is not modelled; input and output summaries are left out of the operations; delays are real numbers, without rounding.
- NativeReplay.Replay: the sink's answer to opening a span is any function of the symbolic span; failures of its other calls are suppressed by the code and change nothing.
- SchemaExactness.ExactIff: unions in which a list or dictionary that lets something through has another of its kind beside it are left to the one direction of `SchemaExactness.TightIsExact`.
- Schema.CompileExact: strings, integers, floats, booleans, string literals, lists, dictionaries, unions, `None` and total typed dictionaries; no sets, heterogeneous tuples, partial typed dictionaries, dataclasses, enumerations or library models. Paths are sequences of steps rather than text.
- Jobs.StatusIsFinalIff: permissions, deletion of rows, database errors and the contents of payloads and messages are not modelled.
- Registry.Validate: a hook or factory gives one outcome per contribution; the artifact and checkpoint stores are built elsewhere and not modelled.
- Saver.SnapshotRoundTrip: what a missing inner dictionary would default to after restoring is not modelled.

Not modelled at all: the graph libraries, the approval workflow apart from its snapshots, event
redaction and summaries, the user interface, migrations and commands, model and tool clients, and the
stores on remote services.
