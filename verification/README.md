# Kairos: a verified model

Kairos stores files on untrusted nodes until a release date. A node that receives a file cuts it into blocks, encrypts
each block under its own key, locks the key until a Drand round, shards the ciphertext with Reed-Solomon and the locked
key with Shamir, and sends the shards to several storage nodes. Bootstrap servers hold the file manifests and the
registry of active nodes and exchange what they lack. Collectors remove old manifests, old or orphaned chunks and silent
nodes.

This project models the parts whose correctness lies in how they interact, and proves properties of all their runs.
`dafny verify dfyconfig.toml` checks everything.

## Structure

| module | models | form |
|---|---|---|
| Types | the values of `internal/models/model.go` | datatypes |
| Store | the key/value store of `internal/database/badger.go` | class `Db` over an ordered list of flat keys, against a map of maps |
| Placement, Blocks | node allocation and selection; cutting a file | methods against reference definitions |
| Codec, PolynomialCodes | one block, sealed and opened; the cryptographic libraries are functions known only by laws, and PolynomialCodes gives functions that meet the laws | functions |
| Pipeline | `StreamAndUploadFile`: producer, any number of crypto and upload workers, two bounded channels, the error latch, the shared maps, close/wait order, rollback | step system, every interleaving |
| PipelineControl, PipelineContent | what each step of it keeps | invariants |
| PipelineProgress, Hanging, CompleteUpload | it returns; when it can hang, complete, succeed without storing, or leave copies or a manifest behind | measure, enabled steps, theorems over all runs |
| Calls, Stamps | which nodes are called for a chunk, and in which order; the creation times of blocks and chunks | theorems over all runs |
| Upload | what holds when it has returned | theorems over all runs |
| Reconstruct, RoundTrip, LoadBound | `StreamReconstruct`; upload and download together; what one node must hold | methods with loops over an array and maps; theorems |
| Sync, Bootstrap | one delta-sync exchange; the handlers and collectors of a bootstrap server | functions; class `BootstrapServer` |
| Gossip, Absence, Heartbeats | N servers with every digest, reply, alignment and push in flight, and inserts, heartbeats, deletions and collectors in between; what cannot come back, and which heartbeats survive | step system; theorems over all runs |
| Convergence, AntiEntropy, Uninterrupted | missing records: whole exchanges one after the other; the steps of overlapping and broken exchanges; the steps of one task left alone | functions on servers; theorems over all runs of Gossip |
| StorageNode | a storage node: chunks, upload statuses, the chunk collector, deletion requests | class `Node` |
| System, Durability, Retention | everything at once: many uploads, rollbacks, user deletions, all servers and collectors | step system; invariant over all runs |
| Deletion | what the deletion requests of a user and of a rollback achieve | theorems over all runs of System |
| Refinement, EndToEnd | each pipeline step is a step of System; so an uploaded file stays readable in the whole system | simulation; theorems over all runs |
| Erasure | an uploaded file that a user erases, or whose upload was rolled back: whether any node still holds a chunk of it | theorems over all runs |

Names follow the source. `Init`, `Enabled`, `Apply`, `Runs` and `Exec` of a step system are its initial state, the guard
and effect of a step, and runs; fields called history record what happened and never enable a step.

## What holds, and what does not

The main results are `EndToEnd.FilesStayReadable`, `Durability.PublishedFilesLast`, `Upload.SuccessIsComplete`,
`EndToEnd.ListedChunksStay`, `Erasure.ErasedFileIsGone`, `RoundTrip.RoundTripIff`, `RoundTrip.ForgedDownloadIsPrefix`,
`Calls.CalledInOrder`, `Hanging.DeadlockIff`, `Gossip.RunsAgree`, `AntiEntropy.ExchangeDelivers`,
`AntiEntropy.WritesAreMissing`, `Heartbeats.HeartbeatSurvivesIff` and `Absence.SilentNodeIsGoneForGood`. Where the code
falls short of what one would expect, the model follows the code and the exact condition is proved:

- An empty file is announced with one block and none is produced, so it cannot be read back (`RoundTrip.RoundTripIff`,
  `Blocks.CountMatches`).
- A marshalling or signing failure in an upload worker is skipped without a report: an upload may succeed with chunks, even
  all of them, stored nowhere (`Upload.SuccessIsComplete`, `CompleteUpload.HollowSuccess`).
- Rollback deletes acknowledged copies only, so a copy stored without an acknowledgement stays behind
  (`Upload.RollbackLeavesNothingIff`, `Erasure.RolledBackIsGone`, `CompleteUpload.LostAcknowledgementStrands`); a read
  error rolls nothing back, not even acknowledged copies, and leaves the upload workers waiting for ever
  (`Upload.ReadFailureLeaks`, `CompleteUpload.ReadFailureStrands`).
- A manifest may be stored and its confirmation lost. The upload then deletes the copies that the manifest lists, and the
  manifest stays (`CompleteUpload.LostConfirmationStrands`).
- An upload can hang in exactly two cases (`Hanging.DeadlockIff`): `reedsolomon.New` fails in every crypto worker and the
  file has more blocks than the channel takes; or a node that chunks are sent to takes a call and never answers, for
  SaveChunk is called without a deadline (internal/service/file_management.go:148).
- Exchanges of the bootstrap servers overlap. Two that do can both be opened between servers with different keys for one
  and the same missing record (`AntiEntropy.OverlapExceedsMissing`). What is bounded by the missing records are the
  effective writes, exactly, and the productive exchanges that do not overlap each other (`AntiEntropy.WritesAreMissing`,
  `AntiEntropy.ProductiveEpisodes`).
- An orphan check that reaches no server, or one without the manifest, costs a chunk of a live file
  (`Retention.OrphanCheckDecides`).
- Deletions are not synchronized: a deleted manifest returns from any peer that holds it
  (`Sync.DeletedManifestReturnsIff`, `Absence.ManifestReturnsIff`); it is gone for good once the last server that held it
  has deleted it and no message carries it (`Deletion.ErasedManifestIsGone`).
- A bootstrap server may lose a heartbeat that it has accepted, in two ways: an eviction pass deletes by key what its
  snapshot showed (`Heartbeats.HeartbeatLost`), and an alignment writes an older record over it
  (`Heartbeats.HeartbeatOverwritten`). It survives for two minutes if and only if nothing of this kind was in flight when
  it arrived (`Heartbeats.HeartbeatSurvivesIff`).
- A file is protected if its manifest is stored within 7200 s of the beginning of its upload, for all its chunks are
  stamped after that (`EndToEnd.CreationTimes`). If an upload takes more than two hours, its old copies can be collected
  as orphans before the manifest is stored, and the file is published without them (`Retention.LateUploadLoses`).
- Nodes may answer a download with anything. If, of all that their answers can give for a block, only its own ciphertext
  decrypts, and only under its own key, then only a prefix of the file is written, and a block of which anything else is
  joined ends the download with an error (`RoundTrip.ForgedDownloadIsPrefix`, `RoundTrip.ForgeryEndsDownload`).
- The repository's README.md:80 says that no single node holds enough to reconstruct the data. With its own parameters
  (5 shards, 3 needed, tolerance 3) some node acknowledges at least 3 shards of every complete upload
  (`LoadBound.SomeNodeHoldsMany`), and losing one node can lose a file (`LoadBound.OneNodeLost`). The same line says that
  key fragments are distributed across nodes; in the code they are in the manifest
  (internal/service/file_management.go:253-260), and so they are in the model.

## Model

| member | source | states |
|---|---|---|
| Store.MakeKeyInjective | internal/database/badger.go:12-14 | distinct (namespace, key) pairs have distinct flat keys when namespaces contain no colon, whatever the keys contain |
| Store.PrefixIsConvex | internal/database/badger.go:112-112 | flat keys with a common prefix are contiguous in byte order |
| Store.LessIsBefore | internal/database/badger.go:146-146 | what the scan order is: a key is before another if it is a proper prefix of it, or has the smaller octet where they first differ |
| Store.UpdateOwnSpace | internal/database/badger.go:62-82 | putting or deleting a flat key is putting or deleting one key of its namespace's map |
| Store.UpdateOtherSpace | internal/database/badger.go:62-82 | ... and changes no other colon-free namespace |
| Store.ScanMeets | internal/database/badger.go:146-146 | a scan of one namespace can meet keys of another exactly when one of the two prefixes begins with the other; for colon-free ones, only its own |
| Store.ColonInNamespaceLeaks | internal/database/badger.go:12-14 | counterexample: with a colon in a namespace its entries appear in another one |
| Store.BracketIsSpace | internal/database/badger.go:112-112 | the positions between the seek and the first key off the prefix hold every key of the namespace |
| Store.StrippedBracket | internal/database/badger.go:146-149 | stripped of the prefix they are the namespace's keys, each once, in byte order, with their values |
| Store.Db.GetData | internal/database/badger.go:39-60 | the value in the namespace's map, or not found |
| Store.Db.ExistsKey | internal/database/badger.go:84-102 | whether the namespace's map has the key |
| Store.Db.PutData | internal/database/badger.go:62-71 | updates one key of one namespace and leaves the others |
| Store.Db.DeleteKey | internal/database/badger.go:73-82 | removes one key of one namespace and leaves the others |
| Store.Db.GetAllKeys | internal/database/badger.go:135-157 | the keys of the namespace, ascending in octet order, none missing or foreign |
| Store.Db.GetAllData | internal/database/badger.go:104-133 | exactly the namespace's map |
| Store.Db.IterateAndProcess | internal/database/badger.go:159-182 | calls back once for each entry of the namespace, in octet order of the keys |
| Placement.PickRandomItems | internal/service/file_management.go:524-538 | min(n, size) items, none more often than in the list, for every random choice |
| Placement.SwapRemove | internal/service/file_management.go:533-535 | a swap-remove splits the multiset into the drawn item and the rest |
| Placement.PickedIsDistinct | internal/service/file_management.go:524-538 | the selection is within the list, and distinct when the list is |
| Placement.Pigeonhole | internal/service/file_management.go:129-154 | more than q chunks per node put more than q chunks on some node |
| Placement.FewNodes | internal/api/bootstrap_api.go:119-125 | the allocation rule gives so few nodes that the pigeonhole applies with q = tolerance - 1 |
| Blocks.ReadLoop | internal/service/file_management.go:286-311 | the read loop emits the file's blocks, numbered from 0, or those before the failing read; the error is hit exactly if the loop makes that many reads |
| Blocks.CutJoin | internal/service/file_management.go:286-311 | the blocks concatenate to the file |
| Blocks.CutCount | internal/service/file_management.go:54-54 | there are ceil(size / blockSize) blocks, also for exact multiples |
| Blocks.CutAt | internal/service/file_management.go:288-310 | block i is the i-th stretch of the file; only the last may be short and none is empty |
| Blocks.CountMatches | internal/service/file_management.go:54-57 | the manifest's block count equals the number of blocks if and only if the file is not empty |
| Codec.SplitJoin | internal/service/file_management.go:207-207 | splitting pads to k equal shards, and joining them at the recorded size gives the data back (411) |
| Codec.GcmRoundTrip | internal/crypto/keys_management.go:148-200 | the nonce, ciphertext and tag framing decrypts to the data and adds 28 octets |
| Codec.OpenSealed | internal/service/file_management.go:405-431 | any k shards and k key parts of a sealed block open to its data once the round is reached, and before that fail exactly at the time lock |
| Codec.SealedComesBack | internal/service/file_management.go:405-426 | any k shards of a sealed block join to its ciphertext, and any k key parts give its key, from its round on and not before |
| Codec.OpensOnlyDecrypted | internal/service/file_management.go:405-431 | a block opens exactly to what its joined text decrypts to under the key that its parts unlock; otherwise the error is that of the first stage that failed |
| Codec.SealedShape | internal/service/file_management.go:185-241 | a sealed block has n shards, n key parts and the recorded size |
| PolynomialCodes.TooManyRoots | internal/service/file_management.go:416-416 | a polynomial with as many roots as coefficients vanishes |
| PolynomialCodes.ShardsDetermine | internal/service/file_management.go:405-405 | any k shards of the instance determine all data shards |
| PolynomialCodes.PartsDetermine | internal/service/file_management.go:416-416 | any k parts of the instance determine the secret |
| PolynomialCodes.InstanceIsLawful | internal/service/file_management.go:188-231 | the laws assumed of the libraries can be met, for all 0 < k <= n |
| PipelineControl.ControlStep | internal/service/file_management.go:103-346 | every step keeps the control invariant: no send on a closed channel, no double close, workers leave only drained channels, the latch is full exactly when someone reported |
| PipelineContent.ContentStep | internal/service/file_management.go:185-282 | every step keeps the content invariant: no block or chunk is lost, duplicated or recorded wrongly, and the nodes hold only the right records (their creation times: EndToEnd.CreationTimes) |
| PipelineProgress.StepFalls | internal/service/file_management.go:103-346 | a natural measure falls on every step of every component |
| PipelineProgress.NoDeadlock | internal/service/file_management.go:103-346 | before it has returned, some step is possible, for all worker counts and capacities, if no upload worker waits for an answer that will not come and a crypto worker started or all blocks fit the channel |
| Calls.CalledInOrder | internal/service/file_management.go:129-161 | in every run the calls made in vain for a chunk at an upload worker are the nodes of its list before the next one, in order; so its failure is reported only when the whole list was called |
| Hanging.StuckHasCause | internal/service/file_management.go:129-183 | a state that cannot go on before the return is due to crypto workers that all failed to start, or to a call to an allocated node that is never answered |
| Hanging.DeadlockIff | internal/service/file_management.go:129-183 | the upload can hang if and only if no crypto worker starts and the file has more blocks than the channel takes, or one starts, the file is not empty, and an allocated node that chunks are sent to may leave a SaveChunk call unanswered |
| Hanging.UploadReturns | internal/service/file_management.go:33-346 | every run is bounded by the initial measure, and if neither cause is given the call has returned where the run cannot go on |
| CompleteUpload.CompletePossibleIff | internal/service/file_management.go:103-346 | a complete upload is possible if and only if every crypto worker starts and, for a non-empty file, some node is allocated and used |
| CompleteUpload.HollowSuccess | internal/service/file_management.go:118-125 | counterexample: every such upload has a run that succeeds with none of its chunks stored |
| CompleteUpload.ReadFailureStrands | internal/service/file_management.go:297-300 | witness: a read error after a full first block, when a chunk of it is already stored and acknowledged, returns with that copy stored and no deletion sent |
| CompleteUpload.LostAcknowledgementStrands | internal/service/file_management.go:148-154 | witness: with a block and a node there is a run in which a node stores a chunk, its answer is lost, the upload is rolled back, and that copy stays |
| CompleteUpload.LostConfirmationStrands | internal/service/file_management.go:332-342 | witness: every upload that can be complete has a run in which the manifest is stored, its confirmation is lost, and the deletion of every acknowledged copy that it lists is sent |
| Upload.NoLostFailure | internal/service/file_management.go:107-107 | over all interleavings the capacity-1 latch is full exactly when some worker tried to report, and then the upload does not succeed |
| Upload.LatchHoldsFirst | internal/service/file_management.go:157-160 | in every run the latch holds the failure that was reported first, of all workers |
| Upload.SuccessIsComplete | internal/service/file_management.go:318-346 | after success the manifest has exactly the file's blocks, each a full unambiguous set of chunks of a sealing of that block; all listed chunks are acknowledged by a listed node if and only if no job was skipped |
| Upload.RollbackIsExact | internal/service/file_management.go:318-342 | after the issued deletions arrive, the nodes hold what they held before plus exactly the unacknowledged copies that no deletion reaches |
| Upload.RollbackLeavesNothingIff | internal/service/file_management.go:318-342 | with distinct nodes nothing is left if and only if no stored copy lacked its acknowledgement |
| Upload.DeletionCoversReplicas | internal/api/node_api.go:206-214 | deleting by the manifest reaches every copy, also where acknowledgements were lost, and no other file's |
| Upload.ReadFailureLeaks | internal/service/file_management.go:297-300 | after a read error nothing is ever deleted and no upload worker ever ends |
| Upload.ReadFailsWhereItReads | internal/service/file_management.go:288-310 | a read error hits one of the file size / block size + 1 reads; after a short block there is no further read |
| Reconstruct.CollectShards | internal/service/file_management.go:367-398 | the greedy loops over the shard array and the key part map compute the collection |
| Reconstruct.CollectIsExact | internal/service/file_management.go:376-403 | the counter equals the filled slots and the key parts, every slot holds the shard that belongs there, and it succeeds if and only if enough chunks are retrievable |
| Reconstruct.AnyAnswers | internal/service/file_management.go:376-398 | whatever the nodes answer, the counter is the number of filled slots and at most what is required, a filled slot holds what a listed node answered, every key part is one of the block's or empty under index 0, and the collection gives up only when every chunk gave an answer or has none that would go to a free slot |
| Reconstruct.ReconstructBlock | internal/service/file_management.go:364-431 | one round of the block loop, with each of its error returns |
| Reconstruct.StreamReconstruct | internal/service/file_management.go:348-440 | the loop writes and fails as the stream function says |
| Reconstruct.StreamIsPrefix | internal/service/file_management.go:364-436 | for every sequence of block outcomes the output is the blocks before the first failure, in order |
| RoundTrip.BlockReads | internal/service/file_management.go:364-431 | for every run of the upload, a block reads back right if and only if k of its chunks are retrievable and the round is reached |
| RoundTrip.DownloadIsPrefix | internal/service/file_management.go:348-440 | whatever the network yields, a prefix of the file's blocks is written, up to exactly the first block that is not readable |
| RoundTrip.RoundTripIff | internal/service/file_management.go:185-440 | if the upload succeeded, k chunks of each block are retrievable and the round is reached, the download writes exactly the file, if and only if the file is not empty |
| RoundTrip.NothingBeforeRelease | internal/service/file_management.go:421-426 | a download that ends before the round writes nothing |
| RoundTrip.HonestIsGenuine | internal/service/file_management.go:376-431 | the answers of honest nodes give for a block only its own ciphertext and key |
| RoundTrip.ForgedBlockFails | internal/service/file_management.go:405-431 | whatever the nodes answer, if only the block's own ciphertext decrypts, and only under its own key, the block opens to its own octets, from its own ciphertext, or fails |
| RoundTrip.ForgedDownloadIsPrefix | internal/service/file_management.go:348-440 | ... and the download writes a prefix of the file's blocks, each from its own ciphertext, and ends without an error exactly when it wrote all of a non-empty file |
| RoundTrip.ForgeryEndsDownload | internal/service/file_management.go:428-431 | ... and a block of which anything but its own ciphertext is joined ends it with an error before that block |
| LoadBound.SomeNodeHoldsMany | internal/api/bootstrap_api.go:117-125 | every complete upload leaves some node with at least `tolerance` chunks, once there are more than (tolerance - 1)^2 |
| LoadBound.OneNodeLost | internal/service/file_management.go:361-403 | with the shipped parameters, one block and one copy of each shard, losing one node's data makes every download fail at block 0 |
| Sync.ExchangeIsUnion | internal/service/synchronization.go:49-90 | a full exchange gives both servers the union of their keys, keeps every value held before, and takes each gained value from the peer |
| Sync.ExchangeIdle | internal/service/synchronization.go:85-89 | an exchange between servers that agree changes nothing |
| Sync.DeletedManifestReturnsIff | internal/service/synchronization.go:139-146 | a deleted manifest is back after an exchange if and only if the peer holds it |
| Bootstrap.CompareKeys | internal/service/synchronization.go:153-174 | both differences of two key lists, in order |
| Bootstrap.WithoutIsDifference | internal/service/synchronization.go:159-171 | ... which are the set differences |
| Bootstrap.ManifestPassIsExact | internal/service/clean_database.go:75-90 | deleting by the embedded id removes exactly the expired manifests when manifests are stored under their own id |
| Bootstrap.UntaggedPassErrs | internal/service/clean_database.go:80-80 | counterexample: otherwise a live manifest goes and the expired one stays |
| Bootstrap.ManifestGoesIff | internal/service/clean_database.go:78-80 | a manifest pass removes a manifest exactly when its release date is readable and more than 604800 s, in nanoseconds, back |
| Bootstrap.SilentGoesIff | internal/service/clean_database.go:119-119 | a heartbeat pass removes a node exactly when its record is more than 120_000_000_000 ns old |
| Bootstrap.BootstrapServer.SubscribeNode | internal/api/bootstrap_api.go:31-35 | stores the record with the server's clock and changes nothing else |
| Bootstrap.BootstrapServer.InsertFileManifest | internal/api/bootstrap_api.go:146-150 | stores the manifest under its own id and changes nothing else |
| Bootstrap.BootstrapServer.DownloadFileManifest | internal/api/bootstrap_api.go:167-170 | the stored manifest, or nothing |
| Bootstrap.BootstrapServer.DeleteFileManifest | internal/api/bootstrap_api.go:187-190 | removes one manifest and changes nothing else |
| Bootstrap.BootstrapServer.RequestNodesForFileUpload | internal/api/bootstrap_api.go:116-128 | min(N, ceil(chunks / tolerance)) distinct registered nodes, the least in octet order of their addresses |
| Bootstrap.BootstrapServer.SyncDigestHandler | internal/api/bootstrap_api.go:55-88 | replies with the records the sender lacks and asks for those it lacks |
| Bootstrap.BootstrapServer.ProcessAlignment | internal/service/synchronization.go:129-146 | overwrites node records and only adds manifests, in any map order |
| Bootstrap.BootstrapServer.PushMissingData | internal/service/synchronization.go:93-127 | sends the requested records that are still there, which the peer aligns |
| Bootstrap.BootstrapServer.PerformSync | internal/service/synchronization.go:35-91 | without interference it is one full exchange, and with the own address nothing |
| Bootstrap.BootstrapServer.CleanBootstrapDatabase | internal/service/clean_database.go:73-90 | one pass removes the ids embedded in expired manifests and nothing else |
| Bootstrap.BootstrapServer.CleanInactiveNodes | internal/service/clean_database.go:113-134 | one pass removes exactly the nodes silent for more than two minutes |
| Gossip.AdvanceKeeps | internal/service/synchronization.go:71-151 | every database access or message of every handler keeps agreement |
| Gossip.RunsAgree | internal/api/bootstrap_api.go:31-150 | over all interleavings, every manifest copy on a server or in flight is the inserted one, and every node record was made by a subscription, none in the future |
| Gossip.CollectorIsExact | internal/service/clean_database.go:75-90 | in every run, an atomic pass of a server's manifest collector removes exactly the expired manifests |
| Uninterrupted.ForecastKept | internal/service/synchronization.go:49-151 | no single access of a synchronization or collector task changes what it will have done in the end if left alone |
| Uninterrupted.UninterruptedSync | internal/service/synchronization.go:49-151 | the fine-grained steps of a synchronization that nothing interferes with end exactly as one exchange, whatever order the map loops take |
| Uninterrupted.UninterruptedPass | internal/service/clean_database.go:75-130 | a manifest or heartbeat pass that nothing interferes with removes exactly what an atomic pass removes |
| Uninterrupted.TaskFinishes | internal/service/synchronization.go:49-151 | from every state each such task can run to its end |
| Absence.NodeStaysGone | internal/service/synchronization.go:129-137 | a node record that is nowhere, not even in flight, stays away until a new subscription |
| Absence.ManifestStaysGone | internal/service/synchronization.go:139-146 | the same for manifests and insertions |
| Absence.StaleStaysStale | internal/service/synchronization.go:98-102 | synchronization does not refresh heartbeats |
| Absence.NodeReturnsIff | internal/service/synchronization.go:98-137 | a record can come back without a subscription if and only if a server or a message still holds it |
| Absence.ManifestReturnsIff | internal/service/synchronization.go:104-146 | a manifest can come back without an insertion if and only if a server or a message still holds it |
| Absence.SilentNodeIsForgotten | internal/service/clean_database.go:119-130 | once every server has completed an eviction pass begun after two silent minutes, with no synchronization under way, no server holds the node |
| Absence.SilentNodeIsGoneForGood | internal/service/clean_database.go:119-130 | ... and in every later run no server does until it subscribes again |
| Absence.SilentNodeCanBeEvicted | internal/service/clean_database.go:105-130 | from every reachable state a node that stays silent is evicted from any server by a pass just over two minutes later |
| Absence.LostIsOver | internal/service/synchronization.go:63-79 | a lost message or failed handler changes nothing, then or in any later run |
| Heartbeats.UnthreatenedSurvives | internal/service/synchronization.go:98-137 | a heartbeat that nothing in flight threatens stays, or gives way to a later one, in every run within two minutes, also with exchanges and passes begun afterwards |
| Heartbeats.ThreatStrikes | internal/service/synchronization.go:98-137 | every threat can be carried out at once |
| Heartbeats.HeartbeatSurvivesIff | internal/service/clean_database.go:113-134 | in every reachable state, an accepted heartbeat survives every later run within two minutes if and only if no eviction pass lists the node, no older record is on its way to the server, and, if an older record exists elsewhere, no earlier exchange may still look it up for the server |
| Heartbeats.HeartbeatLost | internal/service/clean_database.go:113-134 | counterexample: a heartbeat between snapshot and deletion of an eviction pass is lost |
| Heartbeats.HeartbeatOverwritten | internal/service/synchronization.go:133-137 | counterexample: a heartbeat between digest and alignment is replaced by the older record |
| AntiEntropy.StepConverges | internal/service/synchronization.go:71-151 | no step of any number of overlapping or broken exchanges loses or invents a key, and the missing records fall by one exactly with each effective write |
| AntiEntropy.WritesAreMissing | internal/service/synchronization.go:129-146 | over every run of exchanges, records still missing and effective writes together are what was missing at first |
| AntiEntropy.ExchangeDelivers | internal/service/synchronization.go:49-146 | an exchange that is not broken off leaves both servers with every key that either held when it was opened, whatever else is interleaved |
| AntiEntropy.ExchangePays | internal/service/synchronization.go:49-146 | if its servers differed when it was opened, fewer records are missing when it is completed |
| AntiEntropy.ProductiveEpisodes | internal/service/synchronization.go:19-46 | productive exchanges that do not overlap each other are at most as many as records were missing, whatever else overlaps them |
| AntiEntropy.OverlapBoth | internal/api/bootstrap_api.go:99-100 | from every state in which two servers differ, both can open an exchange with the other before either runs, and complete it |
| AntiEntropy.OverlapExceedsMissing | internal/api/bootstrap_api.go:99-100 | counterexample: two overlapping productive exchanges with one missing record |
| Convergence.ExchangeConverges | internal/service/synchronization.go:35-91 | a whole exchange never adds missing records, removes some if the servers' keys differ, and otherwise changes nothing |
| Convergence.ConvergedIff | internal/service/synchronization.go:35-91 | nothing is missing if and only if all servers hold the union, and if and only if no exchange could be productive |
| Convergence.ProductiveBound | internal/service/synchronization.go:40-45 | of whole exchanges one after the other, however servers pick each other, at most as many are productive as records were missing at first, and no key is gained or lost overall |
| StorageNode.NodePassIsExact | internal/service/clean_database.go:25-50 | an atomic pass removes exactly the expired and the unconfirmed old chunks |
| StorageNode.ConfirmedChunkGoesIff | internal/service/clean_database.go:29-41 | a chunk that is young, confirmed or without a creation time goes exactly when its release date is seven days past |
| StorageNode.OrphanGoesIff | internal/service/clean_database.go:35-41 | an unconfirmed, dated, unexpired chunk goes exactly when now / 1_000_000_000 - createdAt > 7200 |
| StorageNode.Node.SaveChunk | internal/grpc/server/node_server.go:19-57 | stores the record under its chunk id, changes nothing else, and answers after the write |
| StorageNode.Node.GetChunk | internal/grpc/server/node_server.go:59-66 | the stored record, or not found |
| StorageNode.Node.DeleteChunk | internal/grpc/server/node_server.go:68-75 | removes one chunk and changes nothing else |
| StorageNode.Node.CleanNodeDatabase | internal/service/clean_database.go:22-50 | one pass removes the ids embedded in condemned records and nothing else |
| StorageNode.Node.AcceptUpload | internal/api/node_api.go:76-78 | the status is processing before the background part starts |
| StorageNode.Node.CheckStatus | internal/api/node_api.go:116-138 | the last status, or not found |
| StorageNode.Node.UploadWorker | internal/api/node_api.go:80-109 | the status ends as completed if the file opened and the upload succeeded, else as error |
| StorageNode.DeletionRequests | internal/api/node_api.go:206-214 | the nested loops send one request for every listed place and no other |
| Durability.CondemnedIsNotFirm | internal/service/clean_database.go:30-40 | the chunk collector lists a chunk of a live file published in time only after an orphan check without a manifest |
| Durability.StepKeeps | internal/service/clean_database.go:15-103 | every step of the system keeps the invariant: copies of firm chunks are stored, and no deletion of them is pending |
| Durability.PublishedFilesLast | internal/service/clean_database.go:25-50 | over all runs, a file published within 7200 s of its chunks' creation, not deleted, whose orphan checks were answered with a manifest, keeps every acknowledged copy until release + 7 days |
| Retention.ManifestStays | internal/service/clean_database.go:75-90 | a server loses a manifest that is not expired only by a deletion request |
| Retention.ManifestsLast | internal/service/clean_database.go:75-90 | over all runs the server that confirmed a manifest holds it, unchanged, until a user deletes the file or release + 7 days |
| Retention.AskingHomeSuffices | internal/service/clean_database.go:35-41 | durability needs no hypothesis on answers if orphan checks ask the server that confirmed the file |
| Retention.OrphanCheckDecides | internal/service/clean_database.go:36-37 | an old chunk of a protected file survives its orphan check if and only if the answer is a manifest |
| Retention.LateUploadLoses | internal/service/clean_database.go:35-41 | in an upload that takes more than two hours, an old acknowledged copy can be collected before the manifest is stored: the file is then published, not deleted, expired or left unconfirmed, and not intact |
| Retention.ResidueIsCollected | internal/service/clean_database.go:35-41 | two hours after a failed upload whose manifest never reached a server, its copies are removed whatever is answered |
| Retention.UnconfirmedIff | internal/service/clean_database.go:35-41 | a file is noted as unconfirmed exactly by an orphan check after its publication, of a chunk more than 7200 s old and not expired, that was not answered with a manifest |
| Retention.PublishedIsSettled | internal/service/file_management.go:313-346 | over all runs no chunk is added to a published file, and none is lost from its list |
| Retention.JudgedAnew | internal/service/clean_database.go:27-50 | the chunk collector deletes a copy once for each judgement: one that is saved again later is safe from it until it is judged itself |
| Deletion.OneCopyChanges | internal/grpc/server/node_server.go:19-75 | a step of the system changes no stored copy but the one it names |
| Deletion.OnlyAskedFor | internal/api/node_api.go:206-214 | in every state, new deletion requests are exactly those for the places of the manifest that a user erases and for the acknowledged copies of a file that is rolled back |
| Deletion.ArrivedIsGone | internal/grpc/server/node_server.go:68-75 | in every run, where a deletion has arrived and no copy was saved afterwards none is stored |
| Deletion.EraseDeletes | internal/api/node_api.go:206-214 | over all runs: after a file is erased at a server that holds its manifest, the deletion of every listed place can arrive at any later moment, where it has arrived nothing is stored unless saved later, and no step taken for the file touches another file's copies |
| Deletion.RollbackDeletes | internal/service/file_management.go:318-342 | the same for the acknowledged copies of a file whose upload is rolled back |
| Deletion.EraseManifestLeaves | internal/api/node_api.go:219-224 | the manifest of an erased file goes from the server that is asked and from no other; it is then nowhere exactly when it was on no other server and in no message |
| Deletion.ErasedManifestIsGone | internal/api/node_api.go:219-224 | over all runs: in that case no server ever holds it again |
| Refinement.RollbackMatches | internal/service/file_management.go:321-326 | a rollback deletes exactly the acknowledged copies of the file |
| Refinement.PublishStep | internal/service/file_management.go:332-342 | publishing, confirmed or not, is a step of the system on a manifest that lists only the file's own chunks |
| Refinement.SaveStep | internal/service/file_management.go:148-154 | storing a chunk is a step of the system |
| EndToEnd.OwnStep | internal/service/file_management.go:103-346 | every step of the pipeline is a possible step of the system, or invisible, and the states go on agreeing |
| EndToEnd.CreationTimes | internal/service/file_management.go:243-270 | in every run, at every moment, each issued chunk and each stored copy of the file was stamped between the beginning of the upload and that moment |
| EndToEnd.ListedChunksStay | internal/service/file_management.go:80-346 | after a successful upload that skipped no job, amid any other activity, every chunk of the manifest is stored, with its record, on a node of its own list, if the manifest was stored within 7200 s of the beginning of the upload, until the file is deleted, left unconfirmed or expired |
| EndToEnd.FilesStayReadable | internal/service/file_management.go:33-440 | a successfully uploaded non-empty file, amid any other activity, can be read back octet for octet with the manifest its home server still holds, if that was stored within 7200 s of the beginning of the upload, until the file is deleted, left unconfirmed or expired, and while k chunks of each block were acknowledged by nodes that are up |
| Erasure.ErasedFileIsGone | internal/api/node_api.go:206-214 | over all runs: after a successful upload, among any other activity, a user erases the file at any server that holds its manifest; then every listed deletion can arrive at any later moment, when all have arrived no node holds a chunk of the file, and no step taken for it touches another file's copies |
| Erasure.ErasureCanFinish | internal/api/node_api.go:206-214 | from every such state the deletions alone can be carried through, and leave exactly the copies of the other files, unchanged |
| Erasure.RolledBackIsGone | internal/service/file_management.go:318-342 | over all runs: after a rolled-back upload every acknowledged copy's deletion can arrive at any later moment; when all have arrived the nodes hold of the file only copies stored without an acknowledgement, and nothing if there were none; other files' copies are not touched |
| Erasure.RollbackCanFinish | internal/service/file_management.go:318-342 | from every such state the deletions alone can be carried through, and remove exactly the acknowledged copies |
| Erasure.AloneAfterwards | internal/service/file_management.go:318-346 | once an upload has returned, other than by a read error, it takes no further step and no chunk of its file is saved any more |

## Left out

- HTTP, gRPC, JSON, logging, the CLI, the Explorer, metrics, Docker and Helm: input, output and presentation; requests are
  steps or method calls and JSON is the identity.
- The insides of Reed-Solomon, Shamir, AES-GCM, tlock, Ed25519, SHA-256 and Badger: libraries; the first four appear by
  their laws, signatures of honest messages are taken as valid, and I/O errors of the store are not modelled.
- Key generation and PEM files, the connection pool and disk metrics: calls into foreign state.
- The HTTP chunk endpoint (internal/api/node_api.go:230-262): it repeats the gRPC storage steps.
- The file hash comparison on download: it only logs.
- `time.Parse` and the Drand round lookup: dates and rounds are numbers, an unreadable date is None, and the case where
  Drand has no round (internal/service/file_management.go:452-454) is excluded.
- Failures of an upload before its pipeline starts (hashing, node request, round lookup): they store nothing.
- Secrecy: nothing is stated about what an adversary can learn, beyond the time lock's opening time.
- Bootstrap.BootstrapServer.CleanBootstrapDatabase: one clock reading for a whole pass, where the source reads the clock
  for each entry; module Gossip lets the deletions happen at later moments.
- StorageNode.Node.CleanNodeDatabase: one clock reading and fixed answers for a pass; modules System and Durability judge
  and delete each chunk in a step of its own.
- StorageNode.Node.UploadWorker: the status it leaves; that no other status is in between follows from AcceptUpload, but an
  upload that hangs leaves the status at processing, which is not stated.
- Reconstruct.StreamReconstruct: what the nodes answer is fixed for the duration of one download, and every request is
  taken to return, although RequestChunk has no deadline either; a manifest whose shard index exceeds the shard count, on
  which the source would fault, or without data shards, which it refuses, is excluded by a precondition that RoundTrip
  discharges for every uploaded manifest.
- Bootstrap.BootstrapServer.RequestNodesForFileUpload: a request with no nodes per chunk is excluded; the source divides by
  it in floating point, and what the conversion of the infinite or undefined quotient to an integer gives depends on the
  machine.
- Bootstrap.BootstrapServer.PerformSync: without interference; module Gossip has the interleavings.
- Bootstrap.BootstrapServer.PushMissingData: the peer aligns at once; in module Gossip it does so later and step by step.
- Convergence.ExchangeConverges: whole exchanges; AntiEntropy.StepConverges has the single steps.
- Convergence.ProductiveBound: exchanges one after the other; AntiEntropy.ProductiveEpisodes has them among overlapping ones.
- AntiEntropy.StepConverges: starts from states in which no collector is at work and whatever is in flight is also held by
  some server; a key that is in flight only would add to the union when it arrives.
- Gossip.RunsAgree: each file id is inserted with one value, as ids are universally unique.
- Heartbeats.HeartbeatSurvivesIff: leaves out a second heartbeat of the same node in the same nanosecond on a server that is
  still to be asked for the record; one clock serves all servers.
- PolynomialCodes.TooManyRoots: polynomials over the reals, where the libraries compute in a field of 256 elements.
- PolynomialCodes.ShardsDetermine: symbols of any size; the library's code is over octets.
- PolynomialCodes.PartsDetermine: symbols of any size, and one random number for all coefficients; the library shares octets
  among at most 255 parts.
- PolynomialCodes.InstanceIsLawful: shows that the assumed laws can be met, for all shard counts; the libraries' own limits
  on shard and part counts are not modelled.
- Durability.PublishedFilesLast: copies are removed by the modelled steps only, not by lost disks or nodes that misbehave.
- RoundTrip.ForgedDownloadIsPrefix: that nothing but a block's own ciphertext decrypts, and only under its own key, is a
  hypothesis about the answers; the laws of the ciphers say only what honest texts give.
- EndToEnd.CreationTimes: a block is taken, sealed and stamped in one step, where the source reads the clock after sealing.
- Refinement.SaveStep: new chunk ids are assumed not to be in use, as they are universally unique.
