# Walstream: a verified model

Walstream is a Kafka-compatible log. Its only durable state is a set of immutable objects (record
segments, index pages, producer pages) plus one manifest per partition that is replaced by
compare-and-swap. This project models that design in Dafny and proves what it promises.
`dafny verify dfyconfig.toml` checks everything.

## How the model is built

* **Objects and manifests.** The store is a map from keys to pages or record bodies (`ObjectStore`,
  with conditional creates). A reference is a key with the expected summary of the page; it is `Sound`
  when every page below it is present and passes the checks of a read, and then it denotes a tree.
  Digest equality is taken to mean content equality, and new identifiers are fresh. For the proofs a
  store also remembers what was ever created, so that operations are specified while a collector may
  have removed any part of what they read: they do what they would on the whole, or report a missing
  object. Instantiated with nothing removed, the same contracts say that nothing is missing.
* **The offset index.** `IndexTree` and `BulkLoad` are the tree and its two constructions without
  names; `IndexPages`, `IndexWriter`, `IndexRoots`, `IndexRebuild` are the page operations as methods
  over the store, each tied to the nameless tree; `IndexScan` and `Selection` are the stack-based
  walks. The 64-way fan-out, level 10 and the i64 and u64 limits are the real ones.
* **Producers.** `ProducerWindow` is the five-batch window modulo 2^31, `Idempotence` a whole
  request decided on a map of windows and the log it extends, `ProducerTree` the B+tree,
  `ProducerPages`, `ProducerWriter` and `ProducerTrace` its pages in the store.
* **Appends, fetches and maintenance.** `Manifests` says when a manifest is valid and what it
  denotes; `Appending` and `Committing` are one append, `Fetching` one fetch, `Retention` and
  `Maintenance` the trace, the retention cut and the offered root of one maintenance pass, each against
  a loaded manifest. `Collection` is a whole pass: trace, cut and rebuild, and after the swap the
  second trace and the deletions.
* **The protocol.** `Protocol` interleaves any number of appenders, readers and collectors, one atomic
  store operation at a time. A crash or a lost reply is a step; a listing may omit any key; objects are
  put one by one; versions are compared by content. The swap guards are the postconditions of
  `Committing.PrepareAppend` and `Maintenance.PlanMaintenance` over all immutable objects, before and
  with those the process has put; an operation that ran between any two moments satisfies them
  (`OfferStands`, `PassStands`), whatever other objects came or went. A
  fetch, the decision of an append, with or without a swap, and both traces of a collector end with
  exactly what their specifications make of the objects the process has read, each at its own time: a
  collector cuts and deletes by the graph it traced, not by what a root really reaches.
  `RootChain` adds the meaning of the roots to the invariant and `Runs` states the results for every
  state of every run. `Restriction` shows that presence of everything reachable is all that soundness
  needs, so those results apply to the operations run against the store as it is: `Runs.AppendAt` and
  `Runs.MaintainAt` run an append and a maintenance pass there. The methods take the store between two
  deletions; that an attempt's own objects are collected while it still runs is a `Miss` of `Protocol`.
* **Consumer groups.** `Groups` says what each critical section does to a group, `GroupSlots` does it
  in place, and `GroupMeaning` states it on the fields of the group alone: deadlines, timeouts,
  protocol lists and assignments. `GroupLaws` and `GroupRequests` prove what each section keeps,
  `GroupRuns` is every interleaving of critical sections under the slot lock, with arbitrary clock
  readings, and `GroupHistories` what runs mean for sessions and assignments. `SlotTable` is
  the reference-counted slot table, and `GroupLives` the table together with what its slots guard: the
  history of a group, over all the slots it gets and loses, is one run of `GroupRuns`. `GroupOffsets`
  is the offset map over compare-and-swap, and `GroupCommits` the slot and the stored offsets
  together, where the update of a task that was cancelled may still land at any later time.
* **Record batches.** `Codec` is the raw scanner, in place and as a parser, with an encoder for the
  layout of sections 5.3.1 and 5.3.2 of the Apache Kafka documentation. `Acceptance` is that layout as
  a grammar of the bytes, and proves that the scanner accepts exactly what has this form.

Where the code and its comments differ, the code decides. `Protocol` starts from any sound manifest
without producers: a new partition, or one written before producer state existed.

## Model

| member | source | states |
|---|---|---|
| IndexTree.CapacityTen | src/log/index.rs:109-117 | A full page of level 10 would hold more segments than there are i64 offsets, so the saturated u64 capacity is never reached |
| IndexTree.CanonicalUnique | src/log/index.rs:289-325 | Two trees of the shape insertion keeps that hold the same segments are the same tree at the same level |
| IndexTree.RoomBelow | src/log/index.rs:297-311 | A page that is not full is a branch, and if its last child is full it has a free entry: the branch-size error cannot occur |
| IndexTree.InsertCorrect | src/log/index.rs:268-325 | Insertion at the right edge appends exactly the leaf's segments and keeps every subtree but the rightmost full |
| BulkLoad.WellFormedUnique | src/log/index.rs:327-347 | A segment list has exactly one well-formed index: tree, level and tail |
| BulkLoad.PushAllCorrect | src/log/index.rs:349-369 | Sealing and inserting segment by segment keeps the index well formed and appends the segments in order |
| BulkLoad.BulkCorrect | src/log/index.rs:371-432 | The bulk load of any list is a well-formed index of exactly that list |
| BulkLoad.BulkEqualsIncremental | src/log/index.rs:349-432 | For every segment list, bulk load and incremental growth give the same tree, level and tail |
| BulkLoad.BulkThenPush | src/log/index.rs:349-432 | Growing a rebuilt index is the rebuild of the longer list |
| IndexPages.ValidateSegments | src/log.rs:990-1037 | Accepts exactly the gapless, in-limit, distinct runs that stay in the i64 range, and returns the offset after them |
| IndexPages.ValidateChildren | src/log/index.rs:501-531 | Accepts exactly adjacent, distinct siblings of one level whose every child but the last is full, and returns their summary |
| IndexPages.CheckReference | src/log/index.rs:86-107 | Accepts exactly the references whose offsets, count and level are within their bounds |
| IndexPages.SoundShaped | src/log/index.rs:210-264 | The per-page checks of a read add up to the tree invariant: shape, gapless contents, exact counts and fullness |
| IndexPages.SoundFrame | src/log/index.rs:164-208 | A sound reference denotes the same tree and keys in every later store |
| IndexPages.KeysPages | src/log/index.rs:434-460 | A sound reference reaches pages of the store and the segments of its contents, and nothing else |
| IndexWriter.WritePage | src/log/index.rs:165-208 | Writes exactly the valid pages, under a fresh key, and returns the reference that describes the page |
| IndexWriter.ReadPage | src/log/index.rs:210-264 | A checked read does exactly what is specified on any contents; of a page that was ever valid it returns the content, or reports not-found because the page was collected |
| IndexWriter.InsertLeaf | src/log/index.rs:289-325 | On any tree that was ever sound, insertion of the leaf that follows it gives the tree with the leaf appended, reaches only old and new keys and writes at most one page per level of the new tree; overflow and size errors are unreachable, so it fails only if a page of this tree was collected |
| IndexRoots.SealTail | src/log/index.rs:327-347 | Sealing a full tail of a root that was ever sound gives the index with that leaf at its right edge; it fails only if a page of that root was collected |
| IndexRoots.MigrateManifest | src/log/index.rs:349-369 | Adopting a valid flat manifest gives the bulk-loaded index of its segments and reaches only them and new pages; it reads only pages it wrote, so it succeeds whatever was collected |
| IndexRoots.PartsRun | src/log/index.rs:121-162 | The contents of a root are one gapless run from its start offset to the end of its tail |
| IndexRebuild.PlannedObjects | src/log/index.rs:380-393 | The budget pre-count is segments plus the pages of the tower over the sealed leaves |
| IndexRebuild.RebuildIndex | src/log/index.rs:371-432 | Succeeds exactly when segments plus pages fit the budget, writes exactly the pages it counted, and gives the bulk-loaded index; refused, it writes nothing |
| IndexScan.WorkShrinks | src/log/index.rs:442-453 | On any store contents, replacing a page on the stack by its children lowers the sum of 65^level |
| IndexScan.TraceTree | src/log/index.rs:434-460 | The trace ends on any contents; success means every page was present and valid and yields exactly the tree's keys and segments in order; in a tree that was ever sound it never meets a page twice and fails only on the budget or on a missing page |
| IndexScan.ScanPages | src/log/index.rs:462-491 | On any contents the pruned walk does exactly what is specified; the store has served at most level + 1 page reads when the first segment is taken or refused |
| IndexScan.WalkMeans | src/log/index.rs:462-491 | Against a tree that was ever sound, of which collection may have left any part, a walk that succeeds ends where the flat scan of the whole tree ends, and one that fails met a missing page |
| IndexScan.IndexedSegments | src/log/index.rs:462-498 | On any contents the traversal does exactly what is specified: pages, then tail; the first segment is taken or refused after at most level + 1 page reads |
| IndexScan.SegmentsMean | src/log/index.rs:462-498 | Against a root that was ever sound, a traversal that succeeds selects exactly what the flat loop selects from the whole log, and one that fails met a missing page |
| Selections.ScanSelects | src/log/index.rs:552-568 | The flat scan of a gapless run returns the maximal run of whole segments from the one that holds the offset within the budget, or one oversized first segment |
| Selections.ScanPruned | src/log/index.rs:475-479 | Segments that end at or before the offset leave the selection unchanged, so their page may be skipped |
| Selections.Selection.Push | src/log/index.rs:552-568 | One push is one step of the flat scan, and notes the page reads served when the first segment that reaches the offset is taken or refused; it fails only when the segment passes the i64 range |
| ProducerWindow.ValidateState | src/log/producer.rs:136-165 | Accepts exactly the states whose one to five batches continue one another in sequence and offset below the next offset |
| ProducerWindow.NoCollision | src/log/producer.rs:84-134 | In a valid window remembered sequence numbers are distinct and the next one is none of them: at most 500 000 records lie between |
| ProducerWindow.AcceptMeaning | src/log/producer.rs:84-134 | A decision succeeds exactly on a new batch or a remembered retry, never both; new batches get the next offsets, retries their original ones and change nothing, and base_offset equals next_offset exactly for new batches |
| ProducerWindow.AcceptKeepsStates | src/log/producer.rs:69-134 | A successful decision leaves a durable state that validates at the offset after the batch |
| ProducerWindow.RefusalMeaning | src/log/producer.rs:84-134 | A batch is refused exactly for an old epoch, a gap in the sequence numbers modulo 2^31, a retry with other contents, or offsets past the i64 range, each with its own error |
| ProducerWindow.Snapshot.Decide | src/log/producer.rs:84-134 | The in-place decision is the specified one, error cases and partial updates included |
| Idempotence.LogNewBatch | src/log.rs:370-420 | Logging a new batch keeps every producer's state equal to the last five batches of its epoch and every epoch's log chained |
| Idempotence.DecideAllCorrect | src/log.rs:370-420 | A decided request extends the log faithfully, and each result names the logged batch it stands for |
| Idempotence.DecideOneMeaning | src/log.rs:370-420 | One batch is decided against the state touched in the request, the stored one or a new one: refused as its window refuses it, logged at the next offsets if new, or answered without any change |
| Idempotence.DecideAllMeaning | src/log.rs:370-420 | A request is decided batch by batch, up to and including the first refusal |
| Idempotence.NoDuplicates | src/log/producer.rs:69-71 | In a chained epoch log of nonempty batches a sequence number recurs only after at least 2^31 records, and a multiple of that |
| ProducerTree.UpsertFind | src/log/producer.rs:426-429 | Setting one state in the ordered leaf sets one key of the map and no other |
| ProducerTree.RootSize | src/log/producer.rs:433-471 | With every non-root page half full, a root of level L >= 1 holds at least 2 * 32^L producers |
| ProducerTree.LevelBound | src/log/producer.rs:10 | A directory of non-negative i64 identifiers never grows past level 12 |
| ProducerTree.UpdateCorrect | src/log/producer.rs:399-472 | An update is one map update of the ordered contents and keeps order, equal levels, fan-out and half-full pages through leaf, branch and root splits |
| ProducerTree.LookupCorrect | src/log/producer.rs:369-397 | The descent finds a state exactly when it is in the ordered contents |
| ProducerTree.UpdateThenLookup | src/log/producer.rs:369-472 | After an update, lookup returns the new state for its producer and the old answer for every other |
| ProducerPages.CheckPage | src/log/producer.rs:188-240 | Accepts exactly ordered leaves of valid states and branches of disjoint equal-level ranges, and returns their bounds; the checked sum cannot overflow on those |
| ProducerPages.CheckReference | src/log/producer.rs:25-48 | Accepts exactly the references whose identifiers, count and level are within their bounds |
| ProducerPages.SoundFrame | src/log/producer.rs:296-333 | A directory valid for one next offset is the same directory in every later store and for every later offset |
| ProducerPages.SoundShaped | src/log/producer.rs:296-333 | The per-page checks add up to the tree invariant: order, levels, ranges and counts |
| ProducerPages.LookupState | src/log/producer.rs:369-397 | The descent ends on any contents and does exactly what is specified on all of them |
| ProducerPages.DescentMeans | src/log/producer.rs:369-397 | Against a directory that was ever sound, of which collection may have left any part, a descent that succeeds answers as the whole directory does, and one that fails met a missing page |
| ProducerWriter.Locate | src/log/producer.rs:399-425 | The descent of an update ends on any contents; on a directory that was ever sound it finds the leaf and the path to it, or a page of this directory was collected |
| ProducerWriter.UpdateProducer | src/log/producer.rs:399-472 | On a directory that was ever sound the new root denotes the updated tree, reaches only old and created keys, and the old tree stays intact; it fails only if a page of this directory was collected |
| ProducerTrace.StackShrinks | src/log/producer.rs:482-491 | On any contents, replacing a page on the stack by its children lowers the sum of 65^level |
| ProducerTrace.TraceProducers | src/log/producer.rs:474-493 | Success means every page was present and valid and adds exactly the directory's keys; in a directory that was ever sound it never meets a page twice and fails only on the budget or on a missing page |
| Manifests.ValidateRoot | src/log/index.rs:121-162 | Accepts exactly the valid roots: schema rules, contiguous tail after the tree, counts at most the revision |
| Manifests.MappedUpsert | src/log/producer.rs:426-429 | The directory as a map: updating the ordered list updates one key |
| Manifests.ManifestFrame | src/log.rs:1061-1096 | A sound manifest denotes the same log, producers and keys in every later store |
| Manifests.KeysPresent | src/log/maintenance.rs:436-469 | Everything a sound manifest reaches is in the store |
| Manifests.LogRun | src/log/index.rs:121-162 | The log of a sound manifest is one gapless run between its start and next offset, no longer than its revision |
| Manifests.RootIsBulk | src/log/index.rs:371-432 | Every sound root holds exactly the bulk-loaded index of its log |
| Appending.DecideAllReady | src/log.rs:370-420 | A decided request gives its new batches disjoint contiguous offsets and leaves every touched state valid |
| Appending.DecideRequest | src/log.rs:370-420 | On any contents the read-only decision loop decides exactly as specified, batch by batch |
| Appending.DecideMeans | src/log.rs:370-420 | Against a directory that was ever sound, of which collection may have left any part, the decision is the one on the whole producer map, or it met a missing page |
| Appending.AppendRoot | src/log.rs:599-623 | From a manifest of either kind that was ever sound the private root holds the same log with room in its tail, at the same revision and offsets; it fails only if a page of that manifest was collected |
| Appending.WriteSegments | src/log.rs:424-446 | Every planned segment is written under a fresh key and appended at its planned offset; the loop fails only when the u64 revision would overflow, or if a page of the manifest, or one the attempt had put before, was collected |
| Committing.UpdateStates | src/log.rs:447-457 | Updating every decided state gives the directory of the old map overridden by the decided states; it fails only if a page of that directory was collected |
| Committing.DecisionMeans | src/log.rs:370-420 | Against a manifest that was ever sound, of which collection may have left any part, a request is decided as on the whole manifest, or an object was missing |
| Committing.RetryChangesNothing | src/log.rs:370-423 | Against a sound manifest, a request made only of remembered batches has no additions and returns their original offsets, so nothing is published or written |
| Committing.AnswerOfNew | src/log.rs:414-417 | A request of new batches only is answered with exactly the offsets it was given, from its first record to its last |
| Committing.AnswerOfRetries | src/log.rs:414-417 | A request of remembered batches only is answered from the original base offset of its first batch to the original last offset of its last |
| Committing.PrepareAppend | src/log.rs:352-460 | On any contents the answer spans the decided results, from where the first begins to where the last ends, and a refused request or one without new batches publishes and writes nothing; for a manifest that was ever sound, of which collection may have left any part, the offered root is valid and sound, extends log, producers, offsets and revision exactly by the decision on the whole manifest, stamps the new segments with their time of receipt and keeps the time of adoption, and the attempt stops only on a refused request, a full revision counter, or because something the manifest reaches is missing: if all of it is there, nothing is ever not found |
| Committing.ValidFinal | src/log.rs:327 | The validation before the swap never rejects the root an append built |
| Fetching.FetchSnapshot | src/log.rs:546-597 | On any contents a fetch against a loaded manifest does exactly what is specified; the segments it returns were all there, each with its recorded length |
| Fetching.FetchMeans | src/log.rs:546-597 | Against a manifest that was ever sound, of which collection may have left any part, a fetch that succeeds returns the declared run of segments of that one manifest's whole log; it fails only outside the log's offsets or on a missing object |
| Retention.TotalFits | src/log/maintenance.rs:232 | Under the object bound the u64 byte total cannot overflow |
| Retention.RetentionCut | src/log/maintenance.rs:232-256 | The loop cuts exactly the oldest batches that are each too old by their own receipt or have too many bytes from them on, and returns the exact retained bytes |
| Retention.CutMeaning | src/log/maintenance.rs:234-251 | Each batch before the cut has reached the maximum age since its own receipt, or since adoption if that is unknown, or has too many bytes from it on; the batch at the cut has neither |
| Retention.CutByReceipt | src/log/maintenance.rs:235-239 | When every batch records its receipt, the cut does not depend on the time of adoption |
| Retention.YoungStay | src/log/maintenance.rs:235-251 | Without a byte limit, no batch that is younger than the maximum age is cut |
| Retention.SecondPassKeepsAll | src/log/maintenance.rs:232-256 | A second pass with the same limits and clock expires nothing |
| Retention.CutMonotone | src/log/maintenance.rs:232-256 | Tighter age or byte limits, or a later clock, never keep a batch that looser ones expire |
| Maintenance.TraceManifest | src/log/maintenance.rs:436-469 | A successful trace has found everything the manifest reaches, with distinct keys and right lengths; for a manifest that was ever sound the graph is exactly its log and the keys it reaches, it fails on the budget only if these are more than the bound, and otherwise only on a missing object, so the duplicate and length errors are unreachable |
| Maintenance.TracedEver | src/log/maintenance.rs:436-469 | A complete trace of any part of the store has found exactly the log and the keys of the manifest, and everything it reaches is in that part |
| Maintenance.PlanMaintenance | src/log/maintenance.rs:223-340 | From a trace of whatever part of the store was left, the pass expires exactly the batches its limits say, by the time of adoption it keeps or sets, and offers a valid, sound root with the rest of the log, the next offset and every producer state, at the next revision, on the live pages if nothing expired; it fails only on a rebuilt index over the object budget or a full revision counter |
| Maintenance.SecondPass | src/log/maintenance.rs:223-332 | A second pass over the published root with the same options and clock expires nothing |
| Maintenance.RetainedOk | src/log/maintenance.rs:257-262 | Any suffix of the traced log is a valid segment list from its first offset to the next offset |
| Collection.PreparePass | src/log/maintenance.rs:192-340 | Trace and plan together, on any part of a manifest that was ever sound: the prepared root is exactly the retention cut of its log, the byte total fits in u64, the candidates are the inventory outside what is expected to stay; it fails only on the options, the budget, a full revision counter or an object that is gone |
| Collection.PlannedStays | src/log/maintenance.rs:259-280 | Everything a pass expects to stay is reached by the root it publishes |
| Collection.PlannedExactly | src/log/maintenance.rs:259-280 | What a pass expects to stay is exactly what its root reaches of the objects that were there before |
| Collection.SweepsAll | src/log/maintenance.rs:281-391 | The candidates outside the re-traced graph are exactly the inventory outside it: the first filter loses nothing and saves nothing |
| Collection.Sweep | src/log/maintenance.rs:360-391 | Deletes exactly the candidates the published root does not reach, after a complete trace or not at all; the root stays readable with its full log |
| Restriction.ManifestWithin | src/log/maintenance.rs:436-469 | A manifest is sound, with the same log and producers, in any part of the store that still holds everything it reaches |
| Protocol.NeverReturns | src/log/maintenance.rs:198-204 | A key created before a root was published and not reached by it is not reached by any later root |
| Protocol.NoRepeat | src/log/maintenance.rs:327-332 | Because revisions strictly rise, a content-derived version that still matches proves that nothing was published since |
| Protocol.MissedMeansStale | src/log.rs:625-647 | A missing object, of the loaded root or put by the attempt itself, proves that a later root was published |
| Protocol.TracedReach | src/log/maintenance.rs:360-377 | A trace made of reads at any times, while others collect, finds exactly the keys and the log of the root it started from |
| Protocol.DeleteStep | src/log/maintenance.rs:378-391 | Deleting an inventoried key outside the re-traced graph keeps everything the current root reaches, and no root from the fence on reaches that key |
| Protocol.PublishStep | src/log.rs:324-339 | A swap that succeeds was made against the newest root, so it reaches only that root's keys and keys born under it, all present |
| Protocol.OfferStands | src/log.rs:424-460 | What an append offers over the objects of any two moments of its run satisfies the guard of the swap: other objects that came or went make no difference |
| Protocol.PassStands | src/log/maintenance.rs:223-340 | So does what a maintenance pass offers |
| Protocol.SafeStep | src/log/maintenance.rs:189-397 | Every action of every process keeps the safety invariant |
| RootChain.NewWindow | src/log.rs:424-446 | A published root is the next window of one ghost log, at the offsets that log gives it |
| RootChain.DecisionFaithful | src/log.rs:370-420 | A decided request keeps producers and log faithful, and every reply names a logged batch |
| RootChain.AnswerLogged | src/log.rs:421-423 | A retry answered from a root that is superseded and partly collected is still answered with the offsets of the log |
| RootChain.Step | src/log.rs:294-346 | Every action keeps the safety invariant, the single ghost log and the exactly-once invariant together |
| Runs.EmptyInit | src/log.rs:1104-1111 | The empty partition is a starting state of the protocol |
| Runs.EveryState | src/log.rs:294-346 | The whole invariant holds in every state of every run |
| Runs.CurrentRootReadable | src/log/maintenance.rs:198-391 | In every state of every run, everything the current root reaches is present, and read against the store as it is the root is sound with its full log |
| Runs.NeverFails | src/log.rs:625-647 | The comparison after any missing object of an attempt, of its root or its own, always says retry: the integrity error is unreachable |
| Runs.MissingMeansSuperseded | src/log.rs:625-647 | Once an object an attempt relies on is missing, the root it loaded is not current and its version never becomes current again |
| Runs.DeletedForGood | src/log/maintenance.rs:378-391 | What a collector deletes is never again reachable from a current root |
| Runs.TracesExactly | src/log/maintenance.rs:360-391 | In every run a trace that completes has found exactly what its published root reaches, and the keys marked for deletion are exactly the inventory that root does not reach |
| Runs.FetchedFromOneRoot | src/log.rs:513-540 | In every run a fetch that completes from what it read, however much was collected meanwhile, returns the declared run of segments of the log of the one published root it loaded |
| Runs.OnlyMissing | src/log.rs:494-597 | In every state of every run and for any part of the store, a fetch or decision under a loaded root fails only on an offset outside the log, on a refused request, or on a missing object, and never on a missing object while its root is current |
| Runs.UnsoundMeansMiss | src/log.rs:625-647 | In every state of every run, a loaded root that is not fully present has a missing object to be met and is superseded |
| Runs.AppendAt | src/log.rs:352-460 | An append run against the store of any state of any run, from any root loaded in it, fails only on a refused request, a full revision counter, or a missing object under a superseded root; against the current root nothing is missing |
| Runs.MaintainAt | src/log/maintenance.rs:192-340 | A maintenance pass run there, up to its swap, fails only on its options, the budget, a full revision counter, or a missing object under a superseded root |
| Runs.OffsetsRise | src/log.rs:421-446 | Along every run start offset, next offset and revision never fall, and the revision is unchanged only if nothing was published |
| Runs.OneLog | src/log/index.rs:121-162 | Every published root holds one window of a single gapless log; the newest one is its suffix from the start offset |
| Runs.CommitsKeep | src/log/maintenance.rs:252-332 | Maintenance keeps the next offset, the producers and the ghost log; an append keeps the start offset |
| Runs.RetainsExactly | src/log/maintenance.rs:223-340 | In every run a published pass expired exactly the batches of the log current at the swap that its limits, clock and time of adoption say, kept the rest, and left nothing to expire for the same limits and clock |
| Runs.AdoptionStays | src/log/maintenance.rs:216-231 | Along every run the time of adoption, once set, never changes |
| Runs.ExactlyOnce | src/log/producer.rs:69-134 | In every run each acknowledged batch is logged at its acknowledged offsets, the k-th batch of a producer epoch starts at the sum of earlier counts modulo 2^31, and logged batches are the committed segments one for one |
| Runs.NeverTwice | src/log/producer.rs:69-134 | No run logs a batch of a producer epoch twice: a sequence number recurs only at least 2^31 records later |
| Runs.OneAnswer | src/log/producer.rs:69-134 | Any two acknowledgements of one sequence number of a producer epoch name one batch of the same content at the same offsets, unless at least 2^31 records lie between the two |
| Runs.RepliesLogged | src/log.rs:414-423 | In every run the reply to a request begins at the logged offset of its first batch and ends at that of its last, in every state from then on |
| GroupLaws.SelectLaw | src/coordinator.rs:787-801 | When the leader is a member and some protocol is common, selection finds one that everybody offers |
| GroupLaws.FinalizeLaw | src/coordinator.rs:708-755 | Finishing a rebalance forms the next generation with one consistent view per member; it can fail only when the generation counter is full |
| GroupLaws.RosterAll | src/coordinator.rs:726-739 | The leader's roster names every member exactly once |
| GroupMeaning.RosterMeaning | src/coordinator.rs:726-739 | The leader's roster is every member once, in key order, with the metadata it sent for the chosen protocol |
| GroupMeaning.RestartMeaning | src/coordinator.rs:688-706 | A rebalance restarts at the next number with all results and assignments cleared and the longest timeout as its deadline, unless the counter is full |
| GroupMeaning.FormMeaning | src/coordinator.rs:708-755 | A generation forms from exactly the members that joined its rebalance, on the leader's first protocol that everybody knows, with new session deadlines and each member's own view |
| GroupLaws.AdvanceLaw | src/coordinator.rs:622-680 | Advancing empties a group or moves it lawfully and keeps the phase invariant; it errs only on a full counter |
| GroupMeaning.AdvanceMeaning | src/coordinator.rs:622-680 | By deadlines: a member goes exactly when its session has run out or it missed a due joining phase; then the group empties, restarts or forms; with nothing due it is unchanged |
| GroupRequests.JoinLaw | src/coordinator.rs:195-275 | A join is refused without effect, or leaves the group joining, in order, with the member in it |
| GroupMeaning.JoinMeaning | src/coordinator.rs:195-275 | A join is refused exactly for a stranger, when no protocol of the candidate is known to all others, on a full group or a full counter, in this order; otherwise the member is in with what it sent, everybody else has to join again unless joining already, and the deadline is the longest timeout |
| GroupMeaning.OpenMeaning | src/coordinator.rs:206-235 | The first member opens a joining group as its leader; nobody can rejoin an empty one |
| GroupMeaning.AwaitMeaning | src/coordinator.rs:289-319 | A join waits for its own rebalance and fails when that rebalance or the member is gone |
| GroupRequests.ExactMeaning | src/coordinator.rs:803-822 | Assignments are accepted exactly when they name every member once and nobody else, and are installed as given |
| GroupRequests.SyncLaw | src/coordinator.rs:356-412 | A sync keeps the phase or completes it for every member at once, and an answer is the member's own current assignment |
| GroupMeaning.SyncMeaning | src/coordinator.rs:356-412 | The leader's first complete list gives every member exactly what it lists and makes the group stable; every other sync is refused or answered with the member's own assignment, in the stated cases |
| GroupRequests.HeartbeatLaw | src/coordinator.rs:435-449 | A heartbeat passes exactly for a current member of the current generation of a stable group |
| GroupMeaning.HeartbeatMeaning | src/coordinator.rs:435-449 | A heartbeat of a current member starts its session anew, even when the answer is to join again; otherwise it is refused without effect |
| GroupRequests.CommitLaw | src/coordinator.rs:532-559 | A commit passes the gate exactly for a current member of the current generation of a stable group |
| GroupMeaning.CommitMeaning | src/coordinator.rs:532-559 | The gate refuses a stranger, a wrong generation and an unstable group, in this order |
| GroupRequests.LeaveLaw | src/coordinator.rs:469-501 | Leaving empties the group or moves it lawfully; it fails only for a stranger or on a full counter |
| GroupMeaning.LeaveMeaning | src/coordinator.rs:469-501 | Leaving takes exactly that member out; the others restart, or form if all of them have joined, under the least member when the leader left |
| GroupRuns.StepKeeps | src/coordinator.rs:160-575 | Every critical section of every task keeps the whole invariant of the group |
| GroupRuns.PhaseInvariant | src/coordinator.rs:467-498 | In every reachable state the leader is a member, each phase has exactly the results and assignments it should, and some protocol is offered by all |
| GroupRuns.OnlyOverflow | src/coordinator.rs:708-755 | In every reachable state a due rebalance fails only when a counter is full |
| GroupRuns.JoinsAgree | src/coordinator.rs:289-319 | All successful joins of one rebalance agree on generation, protocol and leader; the leader sees all members and everyone else none |
| GroupRuns.AssignmentsStand | src/coordinator.rs:353-414 | The assignment returned for a member and generation never changes, even after the group empties and its counters restart |
| GroupHistories.GrantsListed | src/coordinator.rs:353-414 | Every assignment ever given to a member for a generation was listed for it by that generation's leader, in a list with one entry for every member |
| GroupHistories.HeartbeatLasts | src/coordinator.rs:423-449 | After a heartbeat at time t the member stays until the clock reaches t plus its session timeout, unless it leaves, joins again or misses a joining phase |
| GroupHistories.ExpiredIsGone | src/coordinator.rs:627-646 | No action at or after a member's deadline leaves it in the group |
| GroupHistories.AlwaysRegular | src/coordinator.rs:824-840 | In every reachable group timeouts are positive and no member is ahead of the current rebalance |
| GroupRuns.OnlyCurrentPasses | src/coordinator.rs:423-559 | At every step of every run a heartbeat that passes and a commit that is let through belong to a current member, life and generation |
| GroupRuns.NothingStale | src/coordinator.rs:423-559 | Heartbeats pass and offset commits are let through in the order of generations across all lives of the group: once a newer pair has passed, no older one does |
| GroupCommits.StepKeeps | src/coordinator.rs:527-575 | Every section of the slot and every store operation of a commit, also one whose task is gone, keeps slot and stored offsets consistent |
| GroupCommits.LandsInOrder | src/coordinator.rs:527-575 | Commits land at most once, in the order they were let through and so in the order of generations across all lives, even when tasks are cancelled with their updates in flight |
| GroupCommits.LandsCurrent | src/coordinator.rs:558-575 | What lands while its task waits carries the life and generation of that moment; what lands later has no newer commit before it |
| GroupCommits.StoredInOrder | src/group.rs:103-168 | The stored offsets are the requests of the commits that landed, applied in the order in which they were let through |
| GroupSlots.GroupState.EnsureLeader | src/coordinator.rs:682-686 | In place: the first member in key order replaces a leader that is gone |
| GroupSlots.GroupState.StartRebalance | src/coordinator.rs:688-706 | In place, the specified restart: next rebalance, longest timeout, all results and assignments cleared; a full counter changes nothing |
| GroupSlots.GroupState.FinalizeRebalance | src/coordinator.rs:708-755 | In place, the specified formation, with the ordered roster for the leader alone |
| GroupSlots.Slot.AdvanceGroup | src/coordinator.rs:622-680 | In place, the specified advance, including what it leaves behind when it fails half-way |
| GroupSlots.Slot.JoinSection | src/coordinator.rs:195-275 | In place, the specified join section |
| GroupSlots.Slot.SyncPass | src/coordinator.rs:356-412 | In place, the specified pass of the sync loop |
| GroupSlots.Slot.HeartbeatSection | src/coordinator.rs:435-449 | In place, the specified heartbeat: the deadline moves even when the answer is a rebalance |
| GroupSlots.Slot.LeaveSection | src/coordinator.rs:469-501 | In place, the specified leave |
| SlotTables.SweepKeeps | src/coordinator.rs:590-603 | A sweep removes only slots that no task holds and that hold no group |
| SlotTables.SweepFrees | src/coordinator.rs:590-603 | A sweep frees exactly the slots that no task holds and that hold no group once expired members are gone |
| SlotTables.OpenRefuses | src/coordinator.rs:124-146 | A newcomer is refused a slot exactly when the slots that stay after a sweep reach the bound |
| SlotTables.ReclaimKeeps | src/coordinator.rs:148-158 | A slot is reclaimed only by its last holder and only when it holds no group |
| SlotTables.ReclaimFrees | src/coordinator.rs:148-158 | A reclaim frees the slot exactly when the task is its last holder, nobody has its lock and it holds no group |
| SlotTables.HandlesAreCurrent | src/coordinator.rs:120-158 | In every run every handle a task still uses is the table's slot for its group |
| SlotTables.OneLifeAtATime | src/coordinator.rs:120-158 | Two slots of one group are never live at once, and the table never passes its bound |
| GroupLives.StepKeeps | src/coordinator.rs:120-158 | Table sections, sweeps and the sections tasks run behind their handles keep every slot's state the present of its group, and locked slots in the table |
| GroupLives.OpenFrees | src/coordinator.rs:124-146 | Opening a slot for a new group frees exactly the slots that no task holds and whose group is empty once it is advanced |
| GroupLives.SlotIsPresent | src/coordinator.rs:120-158 | What a task finds behind any handle it may use is the present of its group, over all slots the group has had |
| GroupLives.OneHistory | src/coordinator.rs:120-158 | The history of every group, through every slot it was given and lost and every sweep, is one run of the group machine, so all results about runs hold across slots |
| GroupOffsets.OffsetMap | src/group.rs:306-333 | Succeeds exactly on valid, distinct entries and returns their map |
| GroupOffsets.CheckEntry | src/group.rs:472-513 | Accepts exactly the entries with a valid topic name, partition, offset and metadata length |
| GroupOffsets.CommitOver | src/group.rs:111-146 | One attempt writes the loaded map with the request applied, at the next revision, and fails exactly on an invalid manifest, too many offsets or a full counter, in that order |
| GroupOffsets.MapRoundTrip | src/group.rs:134-143 | Writing a map as entries and reading it back gives the map |
| GroupOffsets.ListRoundTrip | src/group.rs:134-143 | Reading entries in key order and writing them again gives the same entries |
| GroupOffsets.Linearizes | src/group.rs:103-168 | In every run of concurrent committers the stored map is all successful requests applied in the order of their swaps |
| GroupOffsets.LastWriter | src/group.rs:115-124 | A key keeps the value of the last request that set it: commits of other keys are never lost |
| GroupOffsets.NoLostUpdate | src/group.rs:147-161 | A swap that succeeds was made against the newest manifest, although versions are compared by content |
| Codec.VarBound | src/codec.rs:209-226 | Whatever the bytes, a five-byte varint stays below 2^32 and a ten-byte one below 2^64: no shift or conversion overflows |
| Codec.VarRoundTrip | src/codec.rs:209-226 | Reading a pushed varint returns the value and consumes exactly its bytes |
| Codec.I32RoundTrip | src/codec.rs:198-202 | Every i32 is read back from its zig-zag bytes, and nothing more is consumed |
| Codec.I64RoundTrip | src/codec.rs:204-207 | Every i64 is read back from its zig-zag bytes, and nothing more is consumed |
| Codec.ReadsInRange | src/codec.rs:198-207 | On any input the u32 conversion succeeds and results lie in the range of their type |
| Acceptance.I32Front | src/codec.rs:198-226 | What is read as an i32 is a complete varint of at most five bytes, in zig-zag order, and the rest is what follows it |
| Acceptance.I32Back | src/codec.rs:198-226 | Every such varint, also one longer than necessary, is read back with anything behind it |
| Codec.NullableRoundTrip | src/codec.rs:175-187 | A null or length-delimited field is consumed exactly |
| Codec.HeadersTakeTwo | src/codec.rs:141-148 | Every header takes at least two bytes, so the allocation guard never refuses an honest count |
| Codec.BodyRoundTrip | src/codec.rs:116-158 | An encoded record within the limits is accepted to its last byte with its header count |
| Codec.BatchesRoundTrip | src/codec.rs:86-169 | The scanner accepts every encoded in-limit sequence of batches, consumes all of it and returns its header counts |
| Acceptance.AcceptedMeans | src/codec.rs:86-169 | What the scanner accepts is complete frames with nothing between or after them: each declared batch length is its frame's, each frame is the declared number of records, each of its declared length and made of the fields of a record within the limits, with its header count |
| Acceptance.FramedAccepted | src/codec.rs:86-169 | And all input of this form is accepted, with the header counts of its records |
| Acceptance.BodyMeaning | src/codec.rs:116-158 | A record body is accepted exactly if it is an attribute byte of zero, a timestamp delta and an offset delta whose sums stay in 64 bits, the offset delta being the ordinal for a producer's batch, a nullable key and value, and its headers |
| Acceptance.HeaderRefusal | src/codec.rs:136-158 | Too many headers are reported exactly when a header count was read that is over a limit or over half of the bytes that follow |
| Acceptance.OverflowMeaning | src/codec.rs:116-135 | An arithmetic overflow is reported exactly when the timestamp sum, or after it the offset sum of a valid offset delta, leaves the 64-bit range |
| Codec.Cursor.ReadUnsigned | src/codec.rs:209-226 | The in-place varint loop is the parser |
| Codec.Cursor.ScanRecordBody | src/codec.rs:116-158 | The in-place record scan is the parser, with the same error in every case |
| Codec.ValidateRawRecords | src/codec.rs:86-169 | The in-place nested loops are the parser, with the same header counts and the same error in every case |

## Left out

- TCP serving, the command line, configuration, the store client and its probe, response building and error-code mapping: I/O plumbing.
- JSON, SHA-256, CRC and the foreign record-batch decoder: pages are values, a reference is a key with the expected summary, and body-length and digest fields are not modelled.
- Topic metadata creation, path and name validation of log objects, byte-length caps on manifests and pages, and report formatting.
- The 128-attempt bound and liveness under contention: a swap that loses simply leaves the process free to start over.
- Store errors other than not-found, already-exists and a failed precondition: they end the attempt, which in `Protocol` is a crash.
- Bounded duration of joining: every join moves the phase deadline, so no time bound is claimed.
- Exactly-once for records without producer identity: a lost reply may duplicate them.
- Group byte budgets and the early validators of group requests, other than the rules for protocol lists that the phase invariant needs; the protocol type is always `consumer`.
- Producer identifier allocation and the wire-level length walk.
- SlotTables.StepKeeps: modelled on values, because strong counts of shared handles have no counterpart in Dafny; each value step is one locked section.
- GroupCommits.LandsInOrder: a second broker that serves the same group is not modelled; each broker has its own slots.
- Maintenance previews, which stop after the plan and write nothing, and the scan limit of the inventory listing; a listing that fails ends the pass.
- Committing.PrepareAppend: an encoded length is a property of the batch and is taken from the request.
- Acceptance.AcceptedMeans: keys, values and headers are cut out and counted, not interpreted.
