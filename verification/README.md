# Orivory: a verified model of the index lifecycle

Orivory keeps a user's memories and document chunks in SQL and mirrors them into vector collections. The mirror is what
search reads, so most of the delicate code is about keeping the two in step: an offline migration to a new embedding
contract, a rollback to the old store, a durable outbox of index intents, a per-process BM25 cache with a shared
generation counter, contract guards on every write, and a tenant clause in every filter. This project models that code in
Dafny and proves what it promises, plus a few self-contained algorithms (entity clusters, the rate limiter, rank fusion,
chunk packing, source sync).

Everything that changes state step by step is a class or a loop, proved against a specification function. Runs are
sequences of actions over a state, and run properties are proved by induction over the whole sequence.

| file | what it models |
|---|---|
| `Manifest.dfy`, `Ladder.dfy` | the `index_generations` table and the SQLite version ladder |
| `Eligibility.dfy`, `Audit.dfy` | which SQL rows must have a vector; the audit of a collection; the verify gate |
| `Backfill.dfy`, `MigrationCli.dfy` | keyset pages, checkpoints, GC; the expand, backfill and cutover commands |
| `MigrationRuns.dfy`, `MigrationScans.dfy` | runs of the migration with crashes anywhere; what a crash in a scan costs, and the commands as such runs |
| `MigrationProgress.dfy` | when the migration can be finished at all |
| `Rollback.dfy` | the fixture gates, the rebuild and the manifest stamp of the rollback |
| `Outbox.dfy`, `Indexing.dfy` | an intent's operation and status; the chunk transaction, the immediate index write, its acks, and the drain |
| `Bm25Cache.dfy` | the BM25 cache as a protocol between processes, writers and a shared counter |
| `Projection.dfy`, `Sync.dfy` | documents projected into memories; connector items synced into memories |
| `ContractGuard.dfy`, `Filter.dfy` | the embedding-contract guards; the filter language and its native form |
| `RateLimiter.dfy` | the in-process sorted sets with expiry, the command pipeline, the sliding-window limiter |
| `Clustering.dfy`, `Fusion.dfy`, `Packing.dfy` | connected components, reciprocal rank fusion, turn packing |
| `Common.dfy` | options, ids in order, `str.strip` |

## Where the code and its documentation part ways

The model follows the code. These are results of the proofs, each with its exact condition or a concrete run:

- The audit reads a point's revision with `int(value or -1)`, whatever JSON value it is. Zero, empty and absent fields
  read as -1; fractions are cut off, `true` reads as 1 and numeric text as its number. So a green report is the truth
  if and only if every revision field is a whole number other than zero (`Verify.GreenIsTrueIff`), which every field a
  command writes is (`MigrationRuns.CutoverServesTruly`). An eligible row at revision 0 is confirmed only by text or a
  fraction that reads as zero, so its own vector blocks every verify (`Verify.RevisionZeroNeeds`).
- On SQLite already at version 3, expand writes nothing. Under a changed contract the cutover then stays out of reach;
  so it does over an eligible row at revision 0, unless the target already holds such a field for it
  (`MigrationProgress.CutoverReachableIff`).
- A checkpoint outlives the backfill that wrote it. A crash before the first page of a fresh start followed by
  `--resume` goes on from it (`MigrationScans.ResumeStartsAtIff`); if SQL changed since, the changed rows are skipped,
  and verify refuses the result (`MigrationRuns.StaleCheckpointSurvives`). A completed backfill is the full build if
  and only if every eligible row up to where its last opening started was fresh then
  (`MigrationScans.CompletedBackfillIff`), and a fresh start whose first page is checkpointed needs nothing
  (`MigrationRuns.RestartBuildsAll`).
- The rollback's gate raises instead of reporting when a tenant serves points but its first expected id is nowhere in
  the store, and its rebuild fails its own gate when an excluded chunk has the id of a served memory
  (`Rollback.GateFindings`, `Rollback.RebuildIsReadyIff`). `stamp_manifest` keeps a row that pairs one kind with the
  other's target name (`Rollback.OneRowPerKindIff`).
- The chunk index loses nothing under four disciplines (`Indexing.CoveredAlways`), none of which the code enforces
  everywhere: the admin's retry (app/api/v1/admin.py:285-308) starts an ingest whatever else is under way, and every
  worker process on SQLite drains when it starts (app/main.py:27-46). A drain must leave alone a document with an
  ingest that is still to purge, or it acks a point the purge then removes (`Indexing.KeepingApartIsNeeded`). A
  document must not be committed again while an ingest of it is still to purge, or that purge takes the new points
  (`Indexing.WaitingForPurgesIsNeeded`), nor while one is still to write, or it writes points of rows that are gone
  (`Indexing.WaitingForWritesIsNeeded`). No drain may take an intent of a chunk another one is at work on, or a
  deleted chunk's point comes back (`Indexing.DrainingAloneIsNeeded`). Each loss is reached from a fresh install
  (`Indexing.LossesAreReachable`).
- An ensure that keeps its BM25 index hands out what wrote its process's index last. It lacks a write bumped before
  the counter read if and only if that was a publish, its bump not landed by then, of something that lacks one
  (`Bm25Protocol.EnsureIsCoherentIff`). That happens when the publish comes between the read and the decision
  (`Bm25Protocol.PublishAfterRead`), when its bump never lands, as with no Redis URL
  (`Bm25Protocol.LostBumpServesPartialIndex`), and when a rebuild to be published is overtaken by another write and an
  ensure (`Bm25Protocol.RebuildUnderWayServesItsSnapshot`).
- Ingest bumps the BM25 generation before its commit. A rebuild in between is recorded as current and stays stale
  (`Bm25Protocol.BumpFirstServesStale`).
- With the in-process store, the first request after an idle window is admitted without being recorded, because
  `zcard` prunes the expired key after `zadd` filled it: limit + 1 requests pass (`RateLimiter.OneOverIsReached`).
- An embedding contract whose canonical form is empty can be stamped but never passes the check afterwards
  (`ContractGuard.StampThenCheck`).
- Items without a reference are matched like any other, so all of a source's unreferenced items share one memory, and
  an item whose title, content and summary are unchanged is skipped even if its tags differ (`Sync.SkipIff`). An item
  that raises after its row was changed and before its intent is committed without one, and a later sync of it skips
  (`Sync.LateUpdateIsLost`); one that raises before a new row's link is there is made a second time
  (`Sync.LateCreateIsDoubled`).

## Model

| member | source | states |
|---|---|---|
| Manifest.GenerationNamesDiffer | app/retrieval/embedding_fingerprint.py:190-216 | the physical names of the two kinds never coincide, whatever contracts they carry |
| Manifest.SameNameIff | app/retrieval/embedding_fingerprint.py:190-216 | the name is the kind's family and the token's first 8 digits, so two contracts share a collection if and only if those agree |
| Manifest.GenerationTable.ActivateGenerations | app/database.py:164-226 | one call changes the table to the simultaneous update of both kinds: targets stamped with the token, and when flipping everything else retired |
| Manifest.KindByKind | app/database.py:197-226 | handling memory then chunk, retire first, equals changing both kinds at once |
| Manifest.FlipLeavesOneActive | app/database.py:200-223 | after a flip each kind has exactly one active row, its own target |
| Manifest.FlipKeepsRows | app/database.py:197-226 | a flip drops no row: the table's keys are the old ones and the two targets, and every other row of either kind keeps its fingerprint and is inactive |
| Manifest.ExpandMovesNoPointer | app/database.py:164-226 | the expand half writes both target rows with the token, keeps every other row and changes no kind's active set |
| Ladder.SqliteDatabase.UpgradeSqliteSchema | app/database.py:276-336 | a run completes exactly when the schema, backup, foreign-key and integrity conditions hold; then version, tables and rows are as upgraded, otherwise all three are as before |
| Ladder.LadderByVersion | app/database.py:286-336 | version by version which tables and which checks a run asks for |
| Ladder.FreshInstallServesItsOwn | app/database.py:292-333 | a fresh install ends at version 3 with all tables and exactly the contract's own row per kind, active |
| Ladder.UpgradeAddsInactive | app/database.py:244-265 | an upgrade drops no table, adds its target rows inactive, and keeps every other row |
| Ladder.LadderMovesNoPointer | app/database.py:244-265 | on a database with tables a ladder run changes no kind's active rows |
| Ladder.OnlyCutoverAndRollbackMovePointers | app/database.py:292-333 | over any sequence of boots, expands, cutovers and rolled-back copies each kind serves what the last cutover or rollback chose |
| Ladder.BootsAreQuiet | app/database.py:292-333 | any sequence of boots and expands never lowers the version, runs the data step at most once, on the way to version 3, and from version 3 on changes nothing |
| Ladder.BootsKeepTheChoice | app/database.py:314-333 | whatever a cutover or rollback left, later boots leave it |
| Eligibility.MemoryRows | scripts/migrate_qdrant.py:300-325 | every memory row with its revision, tenant and first reason that excludes it |
| Eligibility.ChunkRows | scripts/migrate_qdrant.py:328-370 | every chunk row with the owner of its conversation, unowned when there is none |
| Eligibility.EligibleIsServed | scripts/migrate_qdrant.py:300-370 | over the tables: a memory is eligible exactly when it is neither superseded nor dirty nor forgotten, a chunk exactly when its conversation exists, and its record carries the row's revision and the owner (a chunk's is its conversation's) |
| Eligibility.ReasonsOf | scripts/migrate_qdrant.py:300-370 | over the tables: superseded before dirty, dirty before forgotten; a chunk is left out only for want of an owner |
| Audit.Classify | scripts/migrate_qdrant.py:482-508 | one point: no further classification after a malformed identity; stale and tenant findings are independent; the revision is read as `int(value or -1)` reads any JSON value; raises if and only if the revision of a wanted point cannot be read so |
| Audit.RevisionReads | scripts/migrate_qdrant.py:501 | value by value what `int(value or -1)` makes of a revision field |
| Audit.ScanPoints | scripts/migrate_qdrant.py:459-516 | every point is put in exactly the lists its kind, identity, row, revision, tenant and contract say; a malformed point is classified no further; an unreadable revision ends the audit |
| Audit.AuditCollection | scripts/migrate_qdrant.py:459-516 | the whole audit: the lists over all points, the point count, and as missing the eligible ids never seen, in order |
| Verify.VerifyGeneration | scripts/migrate_qdrant.py:1086-1124 | ok if and only if the target's manifest row carries the current token and the collection, as the audit reads it, is exactly the eligible rows; when it breaks; otherwise each list of the report holds exactly the ids it is for, over the tables, with the counts |
| Verify.GreenMeans | scripts/migrate_qdrant.py:482-508 | over the tables: a collection is accepted if and only if it has a point for each served row and for no other, under that row's name, its owner and the contract, with a revision field that reads as the row's |
| Verify.CleanIsReadsExact | scripts/migrate_qdrant.py:1086-1124 | an audit with nothing reported means the collection is the eligible rows, point for row |
| Verify.ReadsExactIsClean | scripts/migrate_qdrant.py:1086-1124 | and a collection that is the eligible rows has nothing reported |
| Verify.GreenIsTrueIff | scripts/migrate_qdrant.py:500-508 | a collection the audit accepts is truly the eligible rows if and only if every revision field is a whole number other than zero |
| Verify.TrueIsGreenIff | scripts/migrate_qdrant.py:500-508 | a collection that is truly the eligible rows is accepted if and only if none of them is at revision 0 |
| Verify.VerifyIsTruthfulIff | scripts/migrate_qdrant.py:500-508 | whatever kinds of JSON value the writers may leave in the revision field, verify's reading agrees with the true state of every such collection if and only if no eligible row is at revision 0 and no allowed kind has another value that reads as an eligible row's revision |
| Verify.TruthfulOnPlainFieldsIff | scripts/migrate_qdrant.py:500-508 | for absent and whole-number fields: if and only if no eligible row is at revision 0 or -1 |
| Verify.Misjudged | scripts/migrate_qdrant.py:500-508 | for every field that reads as a row's revision without being it (fraction, `true`, text, empty object, zero, nothing), a collection with that field at that row which verify gets wrong |
| Verify.RevisionZeroNeeds | scripts/migrate_qdrant.py:500-508 | an eligible row at revision 0 verifies only through a point whose field is text or a fraction that reads as zero |
| Keyset.PageIsNextStretch | scripts/migrate_qdrant.py:970-976 | a page is the next stretch of ids, whole and ascending, empty only at the end of the table |
| Keyset.PageSize | scripts/migrate_qdrant.py:970-976 | a page and what remains after its last id are all that remained before it |
| Keyset.ScanVisitsEachOnce | scripts/migrate_qdrant.py:970-1046 | for every batch size the pages together are the remaining ids, each once, in order |
| Backfill.FullSweepIsBuilt | scripts/migrate_qdrant.py:979-1083 | from the start of the table, whatever the collection held, scan and GC leave exactly a fresh point per eligible row |
| Backfill.BuiltMeans | scripts/migrate_qdrant.py:1054-1068 | over the tables: a full build has a point for each served row and for no other, under that row's name, its owner, the contract and its revision; a chunk at revision 0 goes by 1 |
| Backfill.EndOfTableIsSwept | scripts/migrate_qdrant.py:979-1083 | at the end of the table, scan and GC from any start keep what was there before the start and is eligible, and hold fresh points after it |
| Backfill.ResumeIsFaithfulIff | scripts/migrate_qdrant.py:979-1046 | a resumed sweep equals the full build if and only if every eligible row up to the checkpoint already has its fresh point |
| Backfill.BuiltPassesIff | scripts/migrate_qdrant.py:1054-1068 | a full build passes the audit if and only if no eligible row is at revision 0 |
| MigrationCli.ExpandNamesTargetIff | scripts/migrate_qdrant.py:574-592 | after expand the target row is current if and only if the install was not SQLite at version 3 with a row that was not |
| MigrationCli.StaleAreTheMoved | scripts/migrate_qdrant.py:1425-1448 | the count reported for a kind is the number of its intents that went from pending to blocked |
| MigrationCli.KindsBlockApart | scripts/migrate_qdrant.py:1425-1448 | blocking one kind leaves the other's count what it was |
| MigrationCli.FlipRetiresExactlyTheStale | scripts/migrate_qdrant.py:1425-1448 | afterwards no pending intent names another generation; intents that were not pending, or named the target, are unchanged; only a status ever changes |
| MigrationCli.Install.Expand | scripts/migrate_qdrant.py:574-592 | the shared ladder on SQLite, the rows written directly elsewhere; nothing changes when the ladder raises |
| MigrationCli.Install.UpsertPage | scripts/migrate_qdrant.py:1024-1031 | an acknowledged upsert writes the whole page, a rejected one some of it |
| MigrationCli.SplitPage | scripts/migrate_qdrant.py:1013-1023 | a page splits into its eligible, its ownerless and its otherwise excluded rows, each counted exactly |
| MigrationCli.Install.EnsureCollection | scripts/migrate_qdrant.py:989 | an existing collection is left exactly as it is |
| MigrationCli.Install.BackfillPage | scripts/migrate_qdrant.py:1007-1040 | one page: the eligible rows of the next stretch written, then the checkpoint at its last id; a rejected upsert writes part of the page and leaves the checkpoint |
| MigrationCli.Install.ScanPages | scripts/migrate_qdrant.py:1003-1040 | the loop takes whole pages until the table ends or an upsert is rejected, writes every eligible row between its start and its last checkpoint, and each of its counts is the number of such rows |
| MigrationCli.Install.CollectStale | scripts/migrate_qdrant.py:1071-1083 | GC deletes exactly the points whose id is not eligible and counts them |
| MigrationCli.Install.FillGeneration | scripts/migrate_qdrant.py:989-1083 | the collection opened as it is, scanned from where the run starts, swept: exactly the rows and points left |
| MigrationCli.Install.Backfill | scripts/migrate_qdrant.py:979-1046 | the whole command: refusals, where it starts, the checkpoint it leaves, the exact collection it leaves (complete or cut short), each count of its report, no other collection touched |
| MigrationCli.Install.Cutover | scripts/migrate_qdrant.py:1358-1411 | flips if and only if confirmed and both kinds are green; then pointers and outbox change together, both target rows are active with the token, every other manifest row stays, inactive, and the blocked counts are the intents moved; otherwise nothing changes, and which refusal it is: unconfirmed, an audit that breaks, or a kind that is not green |
| MigrationRuns.CutoverIsSafe | scripts/migrate_qdrant.py:1358-1411 | over every run with crashes anywhere and app writes between commands, the flip leaves both kinds serving the eligible rows as the audit reads them, one active row each, no pending intent elsewhere; they are truly those rows if and only if every revision field is a whole number other than zero |
| MigrationRuns.CommandsWriteFresh | scripts/migrate_qdrant.py:1024-1083 | over any commands, crashes and partial writes every point of a target was there before, as it is, or is the fresh point of an eligible row |
| MigrationRuns.CutoverServesTruly | scripts/migrate_qdrant.py:1358-1411 | a run of commands from targets with whole-number revisions, new ones for instance, ends its cutover serving truly the eligible rows |
| MigrationRuns.FlipServesExactly | scripts/migrate_qdrant.py:1384-1389 | a flip on green kinds establishes that |
| MigrationRuns.InterruptedAnywhere | scripts/migrate_qdrant.py:979-1083 | the machine takes nothing to go through: crashes at every moment, partial upserts and deletions, anything the app does between commands |
| MigrationRuns.ChecksHoldAlways | scripts/migrate_qdrant.py:1366-1373 | at every point of every run the kinds a cutover has checked are still green |
| MigrationRuns.OldServiceSurvives | scripts/migrate_qdrant.py:979-1046 | however many expands, backfills and crashes happened, until the flip the rows, the pointers, the outbox and every collection but the two targets are what they were |
| MigrationRuns.CutoverIsAllOrNothing | scripts/migrate_qdrant.py:1384-1389 | at every point of every run both kinds have their old pointers or both the new |
| MigrationRuns.HonestAlways | scripts/migrate_qdrant.py:979-1046 | a kind's checkpoint that vouches for fresh points keeps doing so through any commands on either kind, crashes, restarts and partial writes |
| MigrationRuns.CompletedBackfillBuildsAll | scripts/migrate_qdrant.py:979-1046 | per kind, from an honest or no checkpoint: any sequence of crashed and resumed backfills, any batch sizes, ends with the collection of one uninterrupted run |
| MigrationRuns.RestartBuildsAll | scripts/migrate_qdrant.py:990-1040 | and so does one from a fresh start that checkpointed its first page, however old the checkpoint it found |
| MigrationScans.CompletedBackfillIff | scripts/migrate_qdrant.py:979-1083 | over any run, app writes and stale checkpoints included: a completed backfill leaves what its last opening held up to its start and fresh points after, and is the full build if and only if every eligible row up to that start was fresh at that opening |
| MigrationScans.CutsCostOnePageEach | scripts/migrate_qdrant.py:1007-1040 | over whole runs of crashed and resumed backfills the pages put are at most those of the table beyond the first position, plus one per page cut off before its checkpoint |
| MigrationScans.CrashCostsOnePage | scripts/migrate_qdrant.py:1007-1040 | wherever one scan is cut off, first page included: whole pages are written up to the last checkpoint, beyond it at most fresh points of the one page under way, and nothing else differs |
| MigrationScans.ResumeStartsAtIff | scripts/migrate_qdrant.py:990-996 | the resumed scan starts at the last checkpoint, whatever the batch size; that is where the crash left it if and only if a page was done or the scan itself had started where a resume would |
| MigrationScans.ResumeCatchesUp | scripts/migrate_qdrant.py:1007-1040 | after any number of pages of any size the resumed collection is the uncrashed scan's at that row plus the points the crash left beyond; past those, and after one page of the same or a larger size, there is no trace |
| MigrationScans.BackfillIsARun | scripts/migrate_qdrant.py:979-1083 | whatever the store answers, the command on an install is the machine's run of begin, open, page and checkpoint by turns, the end of the table or the cut-short page, and the sweep; a refusal is no step |
| MigrationScans.CutoverIsARun | scripts/migrate_qdrant.py:1358-1411 | a cutover that flips is the run of two audits and a flip, any other no step |
| MigrationRuns.StaleCheckpointSurvives | scripts/migrate_qdrant.py:990-1040 | a concrete run in which a surviving checkpoint makes a resumed backfill complete with an outdated point, which verify refuses |
| MigrationProgress.CutoverReachableIff | scripts/migrate_qdrant.py:1358-1411 | from an idle install whose ladder runs, some sequence of commands reaches the flip if and only if the expand can name both targets and every eligible row at revision 0 already has an accepted point whose field is text or a fraction reading as zero |
| MigrationProgress.FinishRun | scripts/migrate_qdrant.py:979-1411 | with no eligible row at revision 0, two full backfills and a cutover finish, whatever the collections hold |
| MigrationProgress.FinishSparing | scripts/migrate_qdrant.py:1024-1046 | and over rows at revision 0 whose points are accepted already, two backfills whose upserts are rejected after landing all rows but those, and a cutover, do |
| MigrationProgress.BackfillRun | scripts/migrate_qdrant.py:979-1046 | from any idle state a run of one backfill builds its kind in full and leaves the other kind alone |
| MigrationProgress.FlipNeedsBoth | scripts/migrate_qdrant.py:1366-1373 | a run of commands that reaches the flip had both conditions at its start |
| MigrationProgress.VersionThreeIsFixed | scripts/migrate_qdrant.py:574-592 | on SQLite at version 3 no command but a flip changes the database, and a flip needs current rows |
| Rollback.ContractFindings | scripts/rollback_to_chroma.py:475-506 | exactly the stamp fields that differ from what the old guard compares against, the token being that of the stamp's own canonical text |
| Rollback.CheckPoints | scripts/rollback_to_chroma.py:531-542 | each served point under the bucket of its reason, tenant or token; nothing if and only if every served point is expected, under its tenant, at the token |
| Rollback.CheckTenant | scripts/rollback_to_chroma.py:547-562 | one tenant: clean if and only if it serves exactly its expected ids and its scoped query stays inside them; raises if and only if it serves points but its first expected id is nowhere in the store |
| Rollback.ProbeBreaksIff | scripts/rollback_to_chroma.py:547-562 | the probe breaks if and only if some point is of the tenant and the least expected id is nowhere in the store |
| Rollback.CheckTenants | scripts/rollback_to_chroma.py:547-562 | nothing reported if and only if each tenant serves exactly its expected ids and its scoped query stays inside them; when the probe raises |
| Rollback.CheckChunks | scripts/rollback_to_chroma.py:564-572 | nothing reported if and only if each chunk collection's stamp and id set are the expected ones |
| Rollback.GateFindings | scripts/rollback_to_chroma.py:509-574 | exactly which findings land in which bucket; none if and only if stamps, the id to (tenant, token) map, scoped queries and chunk id sets are the expected ones and nothing excluded is expected; raises if and only if some tenant's probe has no vector |
| Rollback.ReportedIff | scripts/rollback_to_chroma.py:525-572 | the single checks put together are the buckets: correction and forget hold exactly the served rows excluded for those reasons, tenant isolation the misplaced and leaked ids, the id set the missing, surplus and unowned ones |
| Rollback.GateMeaning | scripts/rollback_to_chroma.py:509-574 | the single checks together are equality of the store's map with the expected map |
| Rollback.RebuildMemory | scripts/rollback_to_chroma.py:380-398 | page by page, for every batch size, the rebuilt collection is the expected ids with tenant and token |
| Rollback.ExpectedAre | scripts/rollback_to_chroma.py:281-315 | over the tables: expected are the served memories under their owners and the served chunks per conversation, excluded every other row with its reason |
| Rollback.TenantIs | scripts/rollback_to_chroma.py:532 | a point without a user counts as of the tenant "unknown" |
| Rollback.RebuildIsReadyIff | scripts/rollback_to_chroma.py:281-315 | the rebuild of the rows as they are passes the gate if and only if no excluded chunk shares an id with a served memory |
| Rollback.EmittedCopy.StampManifest | scripts/rollback_to_chroma.py:424-456 | the deletes, inserts and updates leave the table described by the next row |
| Rollback.OneRowPerKindIff | scripts/rollback_to_chroma.py:434-456 | each kind has exactly its one active row if and only if no row paired a kind with the other's target name; the target rows are active with the token; survivors are unchanged |
| Indexing.ChunkTables.CommitChunks | app/ingestion/pipeline.py:126-188 | one commit deletes the document's rows, inserts the new ones, and adds one delete intent per old row and one upsert intent per child |
| Indexing.CommitWrites | app/ingestion/pipeline.py:126-188 | row by row and intent by intent what that commit changes, and that it changes nothing else |
| Indexing.FastPathWrites | app/ingestion/pipeline.py:230-253 | point by point and intent by intent what the immediate attempt changes, and that it changes nothing else |
| Indexing.ChunkTables.EnqueueAll | app/retrieval/memory/outbox.py:386-396 | one intent per id, an intent already there is kept as it is |
| Indexing.ChunkTables.IndexDocumentChunks | app/ingestion/pipeline.py:230-253 | purge, write, ack; a write that does not land acks nothing |
| Indexing.ChunkTables.MarkDone | app/retrieval/memory/outbox.py:402-468 | flips exactly the pending upsert intents of these rows at their revisions |
| Indexing.RowsCoveredAlways | app/ingestion/pipeline.py:126-197 | at every point of every run with any number of ingests and drains, crash or not, in which drains keep apart from ingests still to purge and re-commits wait for purges: a child row without its current point owes an upsert |
| Indexing.CoveredAlways | app/ingestion/pipeline.py:126-197 | if re-commits wait for writes too, and no two drains are at work on one chunk, a point without a row owes a delete as well |
| Indexing.CoveredFromEmpty | app/ingestion/pipeline.py:126-197 | a fresh install is covered at every point of every such run |
| Indexing.OwedIsPending | app/retrieval/memory/outbox.py:591-618 | unless the drain blocks an intent on a contract mismatch, whatever is owed is pending |
| Indexing.FailsAnywhere | app/retrieval/memory/outbox.py:513-564 | the protocol takes nothing to go through: crashes, stops, failed drains and partial writes are possible at every moment, and leave what was stored |
| Indexing.StepKeepsInv | app/retrieval/memory/outbox.py:591-618 | every step of an ingest, of its fast path, of a crash and of a drain keeps the invariant under the four disciplines |
| Indexing.AckedMeansLanded | app/ingestion/pipeline.py:230-253 | over every such run a live child whose upsert is not owed has exactly its point |
| Indexing.NothingOwedIsExact | app/retrieval/memory/outbox.py:486-558 | with every intent done the index is exactly the live children |
| Indexing.DrainRecovers | app/retrieval/memory/outbox.py:486-558 | from every covered state without an ingest or a drain under way one drain brings the index to exactly the rows, in whatever order it takes the pending intents |
| Indexing.FastPathIsARun | app/ingestion/pipeline.py:230-253 | the immediate attempt is a run of the protocol, so each moment inside it is covered |
| Indexing.AcksOneByOne | app/ingestion/pipeline.py:230-253 | acking the children one commit at a time is a run of the protocol and acks exactly them |
| Indexing.KeepingApartIsNeeded | app/retrieval/vector_retriever.py:271-306 | whenever an ingest is still to purge, a drain that takes the intent of one of its children leads to a lost point with nothing owed |
| Indexing.WaitingForPurgesIsNeeded | app/ingestion/pipeline.py:230-253 | whenever an ingest is still to purge, a whole second ingest of its document, with no crash and no drain, is undone by that purge: the new row has no point and owes nothing |
| Indexing.WaitingForWritesIsNeeded | app/ingestion/pipeline.py:230-253 | whenever an ingest has read its rows and is still to write, a second commit and a drain can leave a point without a row and nothing owed |
| Indexing.DrainingAloneIsNeeded | app/retrieval/memory/outbox.py:486-558 | whenever a drain has read a row and is still to write its point, a second commit that waits for every ingest, and a second drain, can leave a point without a row and nothing owed |
| Indexing.LossesAreReachable | app/ingestion/pipeline.py:126-253 | each of the four is reached from a fresh install when only the discipline concerned is dropped |
| Bm25Local.Retriever.FinishRebuild | app/retrieval/bm25_retriever.py:95-100 | index and generation are set together, other conversations untouched |
| Bm25Local.Retriever.MustRebuild | app/retrieval/bm25_retriever.py:84-95 | rebuilds if and only if there was no index, or the counter can be read and there is no local generation or a smaller one |
| Bm25Local.Retriever.BuildFromParents | app/retrieval/bm25_retriever.py:109-115 | replaces one conversation's index; no parents means no index |
| Bm25Local.Retriever.Invalidate | app/retrieval/bm25_retriever.py:222-224 | drops index and generation of one conversation only |
| Bm25Protocol.RebuildIsCoherent | app/retrieval/bm25_retriever.py:95-107 | any interleaving of processes and writers that commit before they bump: an ensure that rebuilds leaves a snapshot containing every write bumped before its counter read |
| Bm25Protocol.EnsureIsCoherent | app/retrieval/bm25_retriever.py:77-95 | one that returns at once finds such a snapshot if, since its process's index was last rebuilt or dropped, that process's bumps landed, none is under way at the read, and it publishes nothing between the read and the decision |
| Bm25Protocol.EnsureIsCoherentIff | app/retrieval/bm25_retriever.py:77-95 | over any such run, an ensure that returns at once hands out what the last writer of its process's index left: a rebuild, which is always right, or a publish whose bump had not landed at the read, which is right if and only if what it published is a snapshot with every write bumped before the read |
| Bm25Protocol.RebuildUnderWayServesItsSnapshot | app/retrieval/bm25_retriever.py:178-181 | whenever a publish that rebuilds puts back the snapshot it had fetched into an up-to-date, settled process, every later ensure of it returns that snapshot until a bump lands, wrongly if and only if no such snapshot with the writes it read of equals it |
| Bm25Protocol.OldSnapshotIsServed | app/retrieval/bm25_retriever.py:178-181 | that is reached from a new conversation with every write committed before its bump and every bump landing |
| Bm25Protocol.InvalidatedRebuilds | app/retrieval/bm25_retriever.py:183-186 | after an invalidation, its bump landed or not, no ensure of the process that reads the counter returns at once until it has rebuilt |
| Bm25Protocol.InvAlways | app/retrieval/bm25_retriever.py:141-186 | the invariant behind it holds at every point of every such run |
| Bm25Protocol.AnySchedule | app/retrieval/bm25_retriever.py:141-186 | no interleaving is ruled out but bumps before their commits |
| Bm25Protocol.PublishAfterRead | app/retrieval/bm25_retriever.py:84-97 | whenever an ensure has read and would return, a publish of its own process makes it hand out what was published: wrongly if and only if that is no snapshot with the writes it read of |
| Bm25Protocol.PartialIndexIsServed | app/retrieval/bm25_retriever.py:84-97 | two documents and one process reach it, the bump landing or not |
| Bm25Protocol.LostBumpServesPartialIndex | app/retrieval/bm25_retriever.py:61-72 | whenever an up-to-date, settled process publishes without landing its bump, every later ensure of it returns that partial index until another write's bump lands |
| Bm25Protocol.BumpedTooEarlyIsReached | app/ingestion/pipeline.py:176-186 | bumping before the commit reaches an index that lacks the write and is recorded as current |
| Bm25Protocol.BumpedTooEarlyIsStuck | app/ingestion/pipeline.py:176-186 | and the process is stuck with it |
| Bm25Protocol.StuckReturns | app/retrieval/bm25_retriever.py:84-95 | every ensure of a stuck process that decides on a readable counter returns the index it is stuck with |
| Bm25Protocol.StaleForGood | app/ingestion/pipeline.py:176-186 | a stuck process stays so over any steps but its own publishes, invalidations and restarts and landing bumps |
| Bm25Protocol.BumpFirstServesStale | app/ingestion/pipeline.py:176-186 | whenever a settled process rebuilt after a write was bumped and before its commit, every later ensure of it that saw that bump returns the index without the write |
| Projection.Tables.BuildDocumentMemories | app/ingestion/document_memory.py:192-299 | built if and only if the document is not forgotten and is in a conversation of this owner; refused if and only if it is in another's; skipped otherwise; the loops end in the projected state, or nothing changes |
| Projection.DecisionIff | app/ingestion/document_memory.py:209-230 | the same over the suppression ledger, the documents and the conversations' owners |
| Projection.GainsAreOwned | app/ingestion/document_memory.py:224-230 | over any run a user gains rows of a document only if it is in a conversation of that user and not forgotten |
| Projection.ProjectionWrites | app/ingestion/document_memory.py:240-299 | field by field the rows a projection makes; new intents are the owner's, old ones unchanged |
| Projection.ErasureWrites | app/ingestion/document_memory.py:166-189 | a delete takes exactly the owner's rows of the document, leaves each a delete intent at its revision and at least 1, and changes nothing else |
| Projection.Tables.Enqueue | app/retrieval/memory/outbox.py:134-148 | inserts an intent unless its unique key is there |
| Projection.Tables.DeleteRows | app/ingestion/document_memory.py:232-239 | the loop deletes exactly the owner's rows of the document and leaves one delete intent each at its revision |
| Projection.Tables.DeleteDocumentMemories | app/ingestion/document_memory.py:166-189 | the owner's rows gone, one delete intent each, never at revision 0 |
| Projection.Tables.SuppressSource | app/ingestion/document_memory.py:111-123 | idempotent entry in the ledger |
| Projection.ProjectionReplaces | app/ingestion/document_memory.py:232-299 | exactly the owner's rows of the document are replaced by 1 + parents new ones in order; one delete intent per removed row, one upsert per new one, nothing else promised or changed |
| Projection.DocumentRowContent | app/ingestion/document_memory.py:82-88 | the document row shows the first parent's text without its outer spaces, cut at 1500 characters, or the file name when that is blank |
| Projection.OthersUntouched | app/ingestion/document_memory.py:139-148 | no action touches the rows of another owner or another reference |
| Projection.LastProjectionShows | app/ingestion/document_memory.py:192-299 | over any sequence of projections, deletes and forgets an identity's rows are its last accepted projection, whole; or none after a delete; or those it started with, untouched |
| Projection.PromisesAlways | app/ingestion/document_memory.py:166-299 | over any run each row gone has a delete intent, each row added an upsert intent, and no live row a new delete intent |
| Projection.ForgottenGainsNothing | app/ingestion/document_memory.py:101-108 | a suppressed identity stays suppressed and gains no row over any run |
| Sync.SourceSync.PersistItem | app/ingestion/dispatcher.py:153-228 | forgotten: skip; found: skip or update with a revision bump and intent; else create memory, link and intent; and what is left behind when it raises at the start, before the intent or before the link |
| Sync.SourceSync.Sync | app/ingestion/dispatcher.py:98-121 | for any item list and any raises: the tables are the item-by-item ones; one link per (source, reference), and one more for each item counted as added; each reference shows its expected body; counters add up; a memory whose last change got through is listed for indexing; a sync of shown items skips all and changes nothing |
| Sync.UnpromisedIff | app/ingestion/dispatcher.py:98-121 | per memory: changed or new if and only if some item did it, and then without an intent at its revision if and only if the last such item raised before its intent |
| Sync.ItemMakes | app/ingestion/dispatcher.py:153-228 | when an item adds, updates or skips, and field by field what it leaves: a memory of the source's owner at revision 1 and its link, or new text and tags at the next revision |
| Sync.ChangesShow | app/ingestion/dispatcher.py:98-121 | per memory: the text and tags are those of the last item that changed it, and its owner is its own or, for a new one, the source's |
| Sync.PersistShows | app/ingestion/dispatcher.py:153-228 | one item changes what its own reference shows and no other reference of the source, and keeps links unique |
| Sync.AttemptShows | app/ingestion/dispatcher.py:98-121 | the same for an item that raises: a late raise still changes a row that was there, and never a reference that had none |
| Sync.LateUpdateIsLost | app/ingestion/dispatcher.py:177-196 | an update that raises before its intent leaves its row at a revision no intent is for, and the next sync of the item skips |
| Sync.LateCreateIsDoubled | app/ingestion/dispatcher.py:198-228 | a create that raises before its link leaves a memory without one, and the next sync makes an equal second |
| Sync.SkipIff | app/ingestion/dispatcher.py:162-185 | an item is skipped if and only if its reference is forgotten or already shows its title, content and summary |
| Sync.ExpectedIsLatest | app/ingestion/dispatcher.py:98-115 | the expected body is that of the last item of the reference that got through, or that raised late on a row already there |
| Sync.ForgottenUnchanged | app/ingestion/dispatcher.py:162-165 | a forgotten reference shows what it showed |
| Sync.SecondSyncSkipsIff | app/ingestion/dispatcher.py:177-184 | after a sync without failures a second one skips every item if and only if items sharing a reference agree; with distinct references it does |
| ContractGuard.PassesIff | app/retrieval/embedder.py:136-188 | the check passes if and only if the metadata records this backend, contract and dimension, the contract is not empty and a recorded token is its own |
| ContractGuard.RecordsOne | app/retrieval/embedder.py:155-187 | metadata records at most one contract |
| ContractGuard.StampIff | app/retrieval/embedder.py:136-158 | a stamp is asked for if and only if the metadata has no part of one and nothing is known to be stored; it adds this contract's four values and keeps the rest |
| ContractGuard.RefusalsOf | app/retrieval/embedder.py:93-188 | which refusal comes first |
| ContractGuard.FirstWriteLands | app/retrieval/embedder.py:247-315 | the first write to an unstamped empty collection, its stamp reading back, is accepted and records this contract |
| ContractGuard.LostStampWritesNothing | app/retrieval/embedder.py:247-315 | if any of the four values does not read back no vector is written |
| ContractGuard.StampThenCheck | app/retrieval/embedder.py:136-188 | after a stamp the check passes for the stamped contract, unless its canonical form is empty, and for no other |
| ContractGuard.Collection.StampCollectionDim | app/retrieval/embedder.py:247-315 | checks, stamps an unstamped empty collection, and refuses unless the write reads back; vectors untouched |
| ContractGuard.Collection.GuardedWrite | app/retrieval/embedder.py:247-315 | vectors are added only after the stamp passed |
| ContractGuard.WriteKeepsPure | app/retrieval/embedder.py:247-315 | a guarded write keeps one contract per collection, changes metadata only while empty, and never metadata that has a stamp |
| ContractGuard.NeverMixed | app/retrieval/embedder.py:67-315 | over any run of guarded writes with changing settings a collection never holds two contracts |
| ContractGuard.StampNeverChanges | app/retrieval/embedder.py:136-188 | metadata carrying any part of a stamp is the same after any run |
| ContractGuard.AcceptedIff | app/retrieval/embedder.py:191-244 | a write to a generation is accepted if and only if the row is the contract's own (or there is none and it is empty), the metric is cosine and the dimension agrees |
| ContractGuard.GenerationRefusals | app/retrieval/embedder.py:216-244 | the exact refusal of a generation: no row, another contract, another metric, no dimension, another dimension |
| ContractGuard.LowerOf | app/retrieval/embedder.py:228 | the metric's case does not matter |
| ContractGuard.EventKeepsOneToken | app/retrieval/embedder.py:191-244 | a write, or a claim over vectors of its own contract, keeps one token and one dimension |
| ContractGuard.GenerationNeverMixed | app/retrieval/embedder.py:191-244 | over any run of writes and rightful manifest claims a generation holds one contract token |
| ContractGuard.UnclaimedIsFrozen | app/retrieval/embedder.py:216-219 | without a row a populated generation takes no further write |
| ContractGuard.WrongClaimMixes | app/retrieval/embedder.py:191-244 | a row written over vectors of another contract lets a second contract in |
| Filter.BuildFilter | app/retrieval/qdrant_filter.py:36-53 | accepted if and only if every clause is well-formed; the tenant clause is first; otherwise the error of the first ill-formed clause |
| Filter.AcceptedIff | app/retrieval/qdrant_filter.py:87-139 | one clause is translated if and only if it is well-formed |
| Filter.ClauseMeaning | app/retrieval/qdrant_filter.py:87-139 | the clause holds on a payload if and only if its condition is met, negated for exclusions |
| Filter.BareMeaning | app/retrieval/qdrant_filter.py:87-95 | a scalar by itself asks for that value in an allowed field |
| Filter.MatchMeaning | app/retrieval/qdrant_filter.py:87-127 | `$eq` and `$contains` hold if and only if the field has the value, `$ne` if and only if it has not, an absent field included |
| Filter.ListMeaning | app/retrieval/qdrant_filter.py:97-105 | `$in` holds if and only if the field has one of the values, `$nin` if and only if it has none |
| Filter.RangeMeaning | app/retrieval/qdrant_filter.py:130-139 | `$gt`, `$gte`, `$lt`, `$lte` hold if and only if some number (salience) or stored timestamp (captured_at) of the field is above or below the bound so; no other field has ranges |
| Filter.NumberReads | app/retrieval/qdrant_filter.py:142-146 | which operands are a number, and which one |
| Filter.InstantReads | app/retrieval/qdrant_filter.py:149-170 | which operands are an instant, and which one |
| Filter.Refusals | app/retrieval/qdrant_filter.py:43-139 | the exact error of each ill-formed clause |
| Filter.FilterMeaning | app/retrieval/qdrant_filter.py:36-53 | the native filter selects exactly the payloads of the tenant on which every clause holds; exclusions accept absent fields |
| Filter.MoreClausesShrink | app/retrieval/qdrant_filter.py:36-53 | adding clauses never selects more |
| Filter.TenantsApart | app/retrieval/qdrant_filter.py:36-53 | whatever the clauses, filters of two users share no payload that names one tenant |
| Filter.BuildChunkFilter | app/retrieval/qdrant_filter.py:56-84 | refuses a missing or blank user and nothing else; the tenant clause is first and nothing is excluded; the form the next row gives a meaning to |
| Filter.ChunkFilterMeaning | app/retrieval/qdrant_filter.py:56-84 | refused if and only if there is no user or a blank one; otherwise exactly the tenant's points of the conversation, and of the document if named |
| RedisStore.InMemoryRedis.Live | app/redis_client.py:41-48 | drops an expired key (strictly past its expiry) and says whether it is there; other keys untouched |
| RedisStore.InMemoryRedis.ZRemRange | app/redis_client.py:131-136 | removes exactly the members scored between the bounds, both included |
| RedisStore.InMemoryRedis.Add | app/redis_client.py:118-125 | adds or rescores a member without looking at the expiry |
| RedisStore.InMemoryRedis.Card | app/redis_client.py:127-129 | prunes, then counts |
| RedisStore.InMemoryRedis.ExpireIn | app/redis_client.py:79-83 | sets the expiry of a live key only |
| RedisStore.Pipeline.Execute | app/redis_client.py:200-204 | replays the queued commands in order on one key |
| RateLimiter.CheckRateLimit | app/middleware/rate_limiter.py:17-43 | admits if and only if the count after adding is at most the limit; other users' keys untouched |
| RateLimiter.StoreIsTheWindow | app/middleware/rate_limiter.py:30-37 | over any arrivals the stored set is exactly the recorded requests of the last window, and after a lost request nothing |
| RateLimiter.AdmittedIff | app/middleware/rate_limiter.py:30-39 | a recorded request is admitted if and only if the recorded requests of the window up to it are at most the limit; a lost one unless the limit is negative |
| RateLimiter.LostAreFarApart | app/redis_client.py:41-48 | two requests lost to an expired key are more than a window apart |
| RateLimiter.AtMostOneOver | app/middleware/rate_limiter.py:17-43 | for every window and limit any half-open interval of one window admits at most limit + 1 (none if the limit is negative); at most limit if it has no lost request, or if expired keys are dropped before the first command |
| RateLimiter.OneOverIsReached | app/middleware/rate_limiter.py:17-43 | for every limit and window some arrivals reach limit + 1 |
| Graph.WalkComponent | app/graph/clustering.py:98-110 | the queue walk ends with the start's whole connected component, marks exactly it visited, and terminates by (unvisited, queue length) |
| Clusters.BuildGraph | app/graph/clustering.py:46-55 | the adjacency is the graph of the relations at or above the threshold between known entities, and the buckets hold each of them once |
| Clusters.ScoreComponent | app/graph/clustering.py:67-75 | edges gathered by pair, score the sum of their weights plus a tenth of the mentions |
| Clusters.FilingAddsOne | app/graph/clustering.py:53 | filing a relation by its pair of entities adds it once to every set that holds both and to no other |
| Clusters.QualifyingCount | app/graph/clustering.py:39-51 | a relation is taken as often as it is there if it weighs the threshold or more and both ends are known, and not at all otherwise |
| Clusters.DetectClusters | app/graph/clustering.py:57-93 | before sorting and the limit, disjoint clusters covering all entities; two entities share one if and only if a chain of relations at or above the threshold joins them, and a cluster's edges are those relations inside it, each as often as it is there; with its score |
| Clusters.TogetherIff | app/graph/clustering.py:57-93 | two entities share a cluster if and only if a path of qualifying relations joins them |
| Clusters.RelationInOneCluster | app/graph/clustering.py:67-73 | every qualifying relation lies in exactly one cluster and is listed there only |
| Clusters.ScoresAddUp | app/graph/clustering.py:67-75 | scores sum to all weights plus a tenth of all mentions; the clusters' edges are the qualifying relations with multiplicity |
| Fusion.ReciprocalRankFusion | app/retrieval/hybrid_retriever.py:5-30 | each document once, with the sum of 1/(k + rank + 1) over its occurrences, its best-ranked occurrence (earliest on ties), by non-increasing score with ties in first-appearance order |
| Fusion.ScoreIsSum | app/retrieval/hybrid_retriever.py:18-24 | the score gathered hit by hit is that sum, list by list and rank by rank |
| Fusion.DocIdIs | app/retrieval/hybrid_retriever.py:21-23 | the id is the parent's, else the metadata's, else the content's hash |
| Fusion.CountedIsRight | app/retrieval/hybrid_retriever.py:18-26 | one more item keeps all four tables right |
| Fusion.SortedByScore | app/retrieval/hybrid_retriever.py:27-30 | the sort is a permutation |
| Fusion.SortedIsRanked | app/retrieval/hybrid_retriever.py:27-30 | the stable descending sort orders by score, then by first appearance |
| Packing.PackTurns | eval/run_system_benchmark.py:280-299 | nothing lost or reordered, neighbours share one line, over the limit only in a one-line first or two-line later chunk, no chunk shorter than the limit allows |
| Packing.PackingIsUnique | eval/run_system_benchmark.py:280-299 | no other list of chunks has these properties |

## Left out

- Database, vector store, Redis, HTTP, model and embedding calls: atomic steps on modelled state; a vector is known only by the payload and contract it carries, and an upsert may land in part when the store rejects it.
- Hashing: contract tokens and content hashes are arbitrary values or functions; where two contracts must be told apart the lemma says that their tokens differ.
- File copying, backups, checksums, the restore drill and the inventory report: input and output plumbing.
- The maintenance lock and the port probe: the app writes only between commands, as the commands demand.
- SQLite's transactional DDL: a ladder run that raises is taken to change nothing; the backup file it writes or renames is not modelled.
- Scrolling in pages: the audit reads the points in any order, but as one listing.
- Chunk ids that are not UUIDs: they are quarantined before any intent, and every id here is valid.
- Conversation deletion in the chunk protocol, and the drain's backoff, batch limit and attempt counts.
- Bm25Local.Retriever.FinishRebuild: one conversation's rows are taken as one database snapshot; tokenizing and scoring are left out.
- Bm25Protocol.EnsureIsCoherent: one conversation at a time; the shared counter is never reset, and a restarted process has lost its index, its generation and its coroutines.
- Projection.Tables.BuildDocumentMemories: cascade deletes of other memories that hang on a projected row, tags and timestamps are not modelled; generated ids are unused ones.
- delete_document_memories_sync, which deletes rows without intents, has no caller and is not modelled.
- Sync.SourceSync.Sync: a raise that spoils the database session, so that nothing of the batch is committed, is not modelled; fetching, cursors, the source's status fields and the commit are left out.
- The two guards run as one step with the write they guard: two writers that stamp or write between each other's check and write are not modelled.
- ContractGuard.Collection.StampCollectionDim: mocks and collections whose count is awaitable are left out; the asynchronous twin makes the same decisions.
- Filter.BuildFilter: the client library's own validation of a value list, NaN and infinite bounds, and integers too large for a float are left out; reading numbers and timestamps from text is a parameter.
- RateLimiter.CheckRateLimit: one clock that does not advance within a call; string keys, plain sets and the other commands of the in-process store are left out.
- Clusters.DetectClusters: rounding, names, the final sort and the limit are left out; weights are exact.
- Fusion.ReciprocalRankFusion: scores are exact reals, not floats; the constant is not negative.
- Packing.PackTurns: joining lines into text and titling chunks are left out.
- MCP tools, agent routing, chunkers, settings, reporting, metrics and the API layer.
