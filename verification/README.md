# Verified models of Gleaph's durable protocols

This project models four parts of Gleaph in Dafny and proves what they promise over every input, every
schedule of failures and every history:

1. **The authorization grant store** (`Bytes`, `Privileges`, `Policies`, `PolicyCodec`, `GrantRows`,
   `KeyOrder`, `GrantStore`, `RetentionSweep`, `GrantState`, `GrantHistory`). The stored bytes stand for a
   plain map from (privilege, subject) to row; every operation is proved against that map, and the bounded,
   resumable retention sweep is shown to be complete and invisible to authorization.
2. **The schema migration chain** (`MigrationIds`, `MigrationChain`, `MigrationLedger`, `MigrationApply`).
   Ordering packages into one chain, comparing it page by page with a remote ledger, and driving it to
   completion against a Router that loses messages, refuses calls, and advances or fails index builds at will.
3. **Artifact ingestion** (`ArtifactIngest`). A planner and a driver that resumes an upload after being
   stopped anywhere.
4. **The durable bulk load** (`StableSort`, `BulkWire`, `MessageSizing`, `LoadWindows`, `UpdateRouter`,
   `UpdateLoad`, `InsertRouter`, `InsertArtifact`, `InsertLoad`, `EmbedIngest`). The wire chunks and their
   fingerprint, the window and fitting rules, the Router's durable job as a state machine that can die between
   any two steps, the loader's update and insert lanes over any number of reruns, and the embedding ingestion
   that rebuilds the vertex ids by another route.

Servers are state machines driven by an arbitrary script: for every call the script says whether the request
or the answer is lost and how far the server gets. A proof that holds for all scripts holds for every
schedule of crashes, because a client that dies is one whose next call never arrives. SHA-256, Candid
encoding, message sizes and the statement parser are function parameters; where injectivity is needed it is
a stated hypothesis.

`dafny verify dfyconfig.toml` checks the whole project.

## What turned out false, and when it holds

- **Chunk boundaries of the update lane.** The comment at `crates/cli/src/load.rs:1723-1730` calls them a pure
  function of the row stream and the offset. Rows still held from the previous window are not counted against
  the raw byte cap (line 1748), so a continuing run can form a longer chunk than a restarted one.
  `LoadWindows.SameNextChunkIff` says when the two agree whatever the rows measure: exactly when the fresh window
  reaches past the rows held and ends for the row cap, for the end of the file, or for the bytes of rows not held.
  `SameEstimateIff` is the condition for given measurements. `UpdateLoad.WedgeIsReachable` shows the consequence,
  for every encoder that adds up the sizes of its rows: a chunk left pending that no restart forms again, behind
  which every rerun fails (`UpdateLoad.RunLoad`); `WideIsLopsided` is a valid artifact of that kind. Exactly-once
  application is never at risk, and on artifacts where the condition holds at every offset reruns always end
  with everything loaded once faults stop (`UpdateLoad.RunToTheEnd`).
- **Replay in the insert lane.** The same comment expects the Router to replay a chunk it has admitted. It answers
  a conflict to every next slice but that very chunk (`InsertRouter.PendingDecides`), and a restart forms that
  chunk only if the first fit without a size hint has its length. `InsertLoad.HintWedgeIsReachable` is the run
  in which it does not, `InsertLoad.RunUntilLoaded` the exact condition: once faults stop, reruns succeed exactly
  when no such chunk is pending.
- **Receipts published early.** The Router publishes a chunk's receipt when it records it, but moves to the next
  index only when the chunk completes. A client restarted in between sends its next rows under the old index.
  Normally that conflicts, for good (`InsertRouter.ExposedBlocks`). If the next rows look exactly like the
  unfinished chunk (vertex items carry no source id) the Router answers with the old receipt: the loader binds
  old ids to new rows, goes on behind them, and closes the job without them
  (`InsertRouter.ClosedWithVerticesMissing`, `ClosedWithEdgesMissing`). `AnswersAreTrueIff` gives the exact
  condition for a call, `AliasIffSquare` for an artifact: some block of rows is immediately repeated.
  `InsertLoad.RunLoad` proves full safety for every artifact without such a block, and for every artifact if no
  call stops between recording and completing.
- **A stalled index build.** The client takes nine equal progress reports for a stall
  (`crates/cli/src/migration.rs:1019-1033`), but a report leaves out how far a target has been seeded
  (`crates/router/src/facade/store/schema_migration/index.rs:1112-1160`). `MigrationApply.BuildStalls` is the run
  without any fault that ends this way; `MigrationApply.ApplyOne` says exactly when a migration succeeds, stalls,
  runs out of rounds or fails, in terms of what the Router reported.
- **Identity and chunk hashes.** `crates/artifact-api/src/driver.rs:55-62` takes equal identities as proof of an
  equal hash declaration. The identity holds the full digest but not the chunk hashes:
  `ArtifactIngest.OtherHashesBlock` declares it with others, after which every run is rejected.
  `ArtifactIngest.DeclarationDecides` gives, for every row the identity can have, the exact condition under which
  a run ends verified; before any chunk has arrived that is equality of the hashes (`DeclaredHashesDecide`), later
  it need not be (`EmptyTailCompletes`).
- **Key round trip.** Names of 65536 bytes or more wrap the 16-bit length; `Privileges.KeyRoundTrip` and
  `GrantStore.PutKeepsWellFormed` are equivalences with the bound as the condition.

## Model

| member | source | states |
|---|---|---|
| Privileges.KeyRoundTrip | crates/auth/src/lib.rs:592-654 | a key decodes to its privilege and subject exactly when its name fits the 16-bit length |
| Privileges.KeyInjective | crates/auth/src/lib.rs:592-617 | distinct (privilege, subject) pairs have distinct keys, over-long names included |
| Privileges.PrivilegeIsContiguous | crates/auth/src/lib.rs:584-617 | in byte order, a key between two keys of one privilege belongs to that privilege |
| Privileges.WildcardSortsFirst | crates/auth/src/lib.rs:399-440 | every wildcard-label key sorts before every concrete vertex-label key, for any graphs, operations and subjects |
| Privileges.PrivilegeRoundTrip | crates/auth/src/lib.rs:447-544 | a privilege is recovered from its discriminant and resource bytes |
| Policies.PredicateRoundTrip | crates/auth/src/lib.rs:1032-1117 | every in-bounds predicate decodes back from its bytes with nothing left over, 6- and 23-byte comparisons mixed |
| Policies.ChainRoundTrip | crates/auth/src/lib.rs:932-1023 | a chain of hops and terminal conjuncts is recovered from the front of its bytes, whatever follows |
| Policies.ComparisonRoundTrip | crates/auth/src/lib.rs:749-821 | one comparison, typed literal or session value, is recovered from its bytes |
| Policies.DecodedIsInBounds | crates/auth/src/lib.rs:1059-1117 | whatever bytes decode, the predicate obtained is within the stored bounds |
| PolicyCodec.EncodePredicateBytes | crates/auth/src/lib.rs:1032-1057 | the pushing encoder produces exactly the specified bytes |
| PolicyCodec.DecodePredicateBytes | crates/auth/src/lib.rs:1059-1117 | the cursor-driven decoder agrees with the specified decoding on every byte string, malformed ones included |
| PolicyCodec.DecodeChainAt | crates/auth/src/lib.rs:964-1023 | decoding a chain at an offset consumes exactly its bytes or fails as specified |
| GrantRows.EvidenceRoundTrip | crates/auth/src/lib.rs:1254-1301 | elevation evidence is recovered from its bytes, all of them consumed |
| GrantRows.RowRoundTrip | crates/auth/src/lib.rs:1329-1429 | every encodable row decodes to itself, with or without expiry, predicate or evidence |
| GrantRows.RowEncodingInjective | crates/auth/src/lib.rs:1329-1372 | two encodable rows with the same bytes are the same row |
| GrantStore.ViewAt | crates/auth/src/lib.rs:1535-1550 | looking a key up in the bytes is looking its holder up in the abstract map, both ways |
| GrantStore.ViewIsLegal | crates/auth/src/lib.rs:1457-1476 | no anonymous holder and no illegal row shape appears in the abstract map |
| GrantStore.PutRefines | crates/auth/src/lib.rs:1457-1476 | inserting encoded bytes is one update of the abstract map |
| GrantStore.PutKeepsWellFormed | crates/auth/src/lib.rs:1457-1476 | a legal insert keeps the store well formed exactly when the name fits the key header |
| GrantStore.WithoutRefines | crates/auth/src/lib.rs:1525-1533 | removing keys removes exactly their holders |
| GrantStore.ViewSize | crates/auth/src/lib.rs:1762-1768 | the store has as many rows as the abstract map |
| KeyOrder.ResumeContinues | crates/auth/src/lib.rs:1702-1740 | the keys after the last one examined are exactly the keys a step had not reached |
| KeyOrder.ListingUnique | crates/auth/src/lib.rs:1746-1760 | a set of keys has one ascending listing |
| RetentionSweep.SweepIsInvisible | crates/auth/src/lib.rs:1702-1740 | at every time from the sweep on, all four authorization questions have the same answers before and after a step, near the end of the clock too |
| RetentionSweep.LapCollectsDueRows | crates/auth/src/lib.rs:1702-1740 | a row past its review window at lap start and not rewritten is gone when the cursor returns to none, under any grants and revokes between steps |
| RetentionSweep.UndisturbedLap | crates/auth/src/lib.rs:1702-1740 | an undisturbed lap visits every key once, in order, in exactly n / budget + 1 steps |
| RetentionSweep.StepProgress | crates/auth/src/lib.rs:1702-1740 | a step removes a row exactly when it is due and its key lies after the cursor given and not after the one returned; every other row stays as it is |
| GrantState.GrantState.Put | crates/auth/src/lib.rs:1457-1476 | refuses the anonymous subject; otherwise one abstract update, or a trap that changes nothing |
| GrantState.GrantState.Grant | crates/auth/src/lib.rs:1478-1499 | succeeds exactly for a named subject and an in-bounds predicate, and then sets that one row without evidence |
| GrantState.GrantState.GrantElevation | crates/auth/src/lib.rs:1501-1523 | only metadata privileges with a 1..=512-byte justification; the row has an expiry, evidence and no predicate |
| GrantState.GrantState.Revoke | crates/auth/src/lib.rs:1525-1533 | removes that one row and says whether it was there |
| GrantState.GrantState.Holds | crates/auth/src/lib.rs:1535-1544 | the row exists and has not expired |
| GrantState.GrantState.Contains | crates/auth/src/lib.rs:1546-1549 | the row exists, expired or not |
| GrantState.GrantState.HoldsAnyGraphGrant | crates/auth/src/lib.rs:1556-1578 | true exactly when some graph privilege on that graph is held; metadata and prepared-query rows never count |
| GrantState.GrantState.HoldsAnyVertexLabelMatch | crates/auth/src/lib.rs:1580-1610 | true exactly when MATCH is held on some concrete label or on all labels |
| GrantState.GrantState.CollectVertexLabelMatchSet | crates/auth/src/lib.rs:1612-1650 | the labels are exactly those held, and non-empty or wildcard exactly when the scan says some match is held |
| GrantState.GrantState.RevokeAllForGraph | crates/auth/src/lib.rs:1667-1685 | exactly the rows that target the graph go, the others keep their rows, and the count is the difference |
| GrantState.GrantState.SweepExpiredRows | crates/auth/src/lib.rs:1702-1740 | the loop computes the specified step |
| GrantState.GrantState.Rows | crates/auth/src/lib.rs:1746-1760 | every abstract row once, in key order |
| GrantHistory.SweepRefines | crates/auth/src/lib.rs:1702-1740 | a step on bytes is a step on the abstract map |
| GrantHistory.PerformAll | crates/auth/src/lib.rs:1448-1769 | after any sequence of operations the bytes decode to exactly what the plain-map reference computes |
| GrantHistory.RulesHoldAlways | crates/auth/src/lib.rs:1448-1769 | in every history no anonymous subject is stored, and evidence appears only on metadata rows with an expiry, a bounded text and no predicate |
| MigrationIds.FormatParses | crates/migration-api/src/lib.rs:39-66 | the id made for a prefix and slug parses back to that prefix |
| MigrationChain.OrderChain | crates/cli/src/migration.rs:1157-1232 | succeeds exactly on the empty set or one root, present parents, growing prefixes and at most one child each; the cycle and disconnected errors are unreachable |
| MigrationChain.LinkChildren | crates/cli/src/migration.rs:1157-1200 | the child map is built exactly when every link is sound and no parent has two children |
| MigrationChain.PlanIsUnique | crates/cli/src/migration.rs:1157-1232 | any order in which parents come somewhere before their children is the one produced |
| MigrationChain.PlanIsParentFirst | crates/cli/src/migration.rs:1157-1232 | and the one produced is such an order |
| MigrationChain.PlanIsWellLinked | crates/cli/src/migration.rs:1157-1232 | conversely, only a well-linked set has a plan |
| MigrationChain.NextPackage | crates/cli/src/migration.rs:1051-1104 | rejects a bad slug or an exhausted prefix, else names the last package as parent and takes the next prefix |
| MigrationChain.NewPackageExtendsPlan | crates/cli/src/migration.rs:1080-1104 | that package is new and extends the plan by exactly one, at the end |
| MigrationLedger.StatusForPlan | crates/cli/src/migration.rs:668-787 | against any answers it stops within one call per local migration plus one; it accepts exactly a complete listing of an applied prefix with at most one final pending index, counts by the records alone, and cannot see a repeated cursor with distinct ids |
| MigrationLedger.ComparePage | crates/cli/src/migration.rs:715-775 | a page is accepted exactly when the records so far still match a prefix, wherever the page is cut |
| MigrationLedger.NothingElseMatches | crates/cli/src/migration.rs:668-787 | once an answer breaks the comparison no listing of those answers could have been accepted |
| MigrationApply.ReactKeeps | crates/router/src/facade/store/schema_migration.rs:66-200 | whatever the Router does with the next migration's envelope, its ledger still agrees with the local chain and an answer shows that migration as it now is |
| MigrationApply.OnlyFaultsRefuse | crates/router/src/facade/store/schema_migration.rs:98-145 | for a well-linked chain the Router has no reason of its own to refuse the next migration |
| MigrationApply.CursorFollows | crates/router/src/facade/store/schema_migration.rs:205-235 | the page after a page's cursor is the next stretch of the ledger |
| MigrationApply.ListingIsLedger | crates/router/src/facade/store/schema_migration.rs:205-235 | a complete listing is the whole ledger |
| MigrationApply.LedgerHasListing | crates/router/src/facade/store/schema_migration.rs:205-235 | without faults there is a complete listing |
| MigrationApply.Round | crates/cli/src/migration.rs:949-959 | the envelope and at most one exact replay; two failures in a row mean two faults |
| MigrationApply.ApplyOne | crates/cli/src/migration.rs:937-1045 | stops at the first report that decides: applied means success, failed means failure, the ninth equal report in a row means stalled, the 4096th in a row about one active index means out of rounds, each in both directions; otherwise a call and its replay were both faulty; a record of another migration or a mismatched one is impossible; with no fault and no aborted build it ends applied, stalled or out of rounds, on exactly the reports the Router gives call by call, and applied at once if it builds no index |
| MigrationApply.BuildStalls | crates/cli/src/migration.rs:1019-1033 | with no fault at all, an index build whose calls keep reporting one position is given up as stalled |
| MigrationApply.SameReportsStall | crates/router/src/facade/store/schema_migration/index.rs:1112-1160 | because at most ten reports arrive, all but the first equal |
| MigrationApply.Preflight | crates/cli/src/migration.rs:920-928 | says where to start exactly when the ledger matches a prefix |
| MigrationApply.Apply | crates/cli/src/migration.rs:915-1048 | success means the ledger is the local chain, all applied; otherwise the ledger only grew and stays on the chain; every request is the first unapplied migration's envelope or its exact replay, and their number is bounded by 2 * 4096 per build; any other end is decided by the reports about one migration as above; with a matching ledger, interning granted, no fault and no aborted build it ends complete, stalled or out of rounds, and complete if no migration builds an index |
| ArtifactIngest.ChunksPartition | crates/artifact-api/src/pipeline.rs:85-118 | the chunks joined are the bytes, all but the last are full, and their number is the rounded-up quotient |
| ArtifactIngest.PlanAccepts | crates/artifact-api/src/pipeline.rs:47-118 | planning accepts exactly non-empty artifacts within the byte and version bounds; too many chunks is unreachable |
| ArtifactIngest.PublishKeeps | crates/provision/src/stable/artifact.rs:78-98 | publishing is confirmed by success or by a conflict with the same identity |
| ArtifactIngest.ReceiveKeeps | crates/provision/src/canister/mod.rs:958-1220 | an own chunk is stored, the last missing one verifies the artifact, a verified one says so, and the upload never fails |
| ArtifactIngest.StoredBytes | crates/provision/src/canister/mod.rs:1118-1200 | a verified artifact's chunks join to the original bytes |
| ArtifactIngest.Missing | crates/artifact-api/src/driver.rs:146-162 | exactly the indices not received, ascending |
| ArtifactIngest.SendPending | crates/artifact-api/src/driver.rs:113-143 | from any row the loop computes the specified sending; on the plan's own upload, unstopped, it ends verified after exactly the missing chunks, or one if the artifact already was |
| ArtifactIngest.Ingest | crates/artifact-api/src/driver.rs:64-144 | from any row the run is the specified one; from any state of its own, stopped before any call, the state stays consistent, no chunk precedes metadata, indices ascend, only missing chunks are sent when a row exists, and unstopped it ends verified with the original bytes stored |
| ArtifactIngest.IngestAll | crates/artifact-api/src/driver.rs:64-144 | any number of runs stopped anywhere, then one that is not, end verified |
| ArtifactIngest.LegitKept | crates/provision/src/canister/mod.rs:958-1220 | whoever declares and sends whatever, a row keeps the shape every row has: chunks only where received, each with its declared hash, never all of them without a verdict |
| ArtifactIngest.DeclarationDecides | crates/artifact-api/src/driver.rs:64-144 | on any such row of the plan's identity an unstopped run ends verified exactly when nothing was declared, or the artifact is verified with the same first hash, or the open places are in the plan, declared with its hashes, and filled give the digest; never after a failed upload |
| ArtifactIngest.DeclaredHashesDecide | crates/artifact-api/src/driver.rs:55-62 | before any chunk has arrived, that is exactly when the declared chunk hashes are the plan's |
| ArtifactIngest.OtherHashesBlock | crates/artifact-api/src/driver.rs:55-62 | with another first hash declared, every run is rejected and changes nothing |
| ArtifactIngest.EmptyTailCompletes | crates/artifact-api/src/driver.rs:55-62 | a declaration with an empty last chunk added, already received, differs from the plan's and is still completed by it |
| StableSort.SortCanonical | crates/bulk-load-api/src/lib.rs:400-441 | with keys that identify elements, sorting forgets the order and nothing else |
| BulkWire.CheckProperties | crates/bulk-load-api/src/lib.rs:542-566 | accepts exactly non-empty, pairwise different names with bounded values |
| BulkWire.CheckUpdate | crates/bulk-load-api/src/lib.rs:363-397 | accepts exactly rows with a bounded match key, something to do, unique set names and removals disjoint from them |
| BulkWire.Validate | crates/bulk-load-api/src/lib.rs:317-361 | accepts exactly non-empty valid chunks within the size bound, and names the first bad item |
| BulkWire.Normalize | crates/bulk-load-api/src/lib.rs:400-432 | the item-by-item sorting gives the specified normal form |
| BulkWire.NormalCanonical | crates/bulk-load-api/src/lib.rs:400-441 | equal normal forms exactly when the chunks agree item by item up to the order of labels, properties and removals |
| BulkWire.NormalIdempotent | crates/bulk-load-api/src/lib.rs:400-432 | normalising twice is normalising once |
| BulkWire.Fingerprint | crates/bulk-load-api/src/lib.rs:400-441 | a fingerprint exists exactly for valid chunks and is the digest of the normal form |
| BulkWire.FingerprintsAgree | crates/bulk-load-api/src/lib.rs:400-441 | equal fingerprints mean the same chunk up to order, and conversely |
| BulkWire.NormalKeepsEffect | crates/bulk-load-api/src/lib.rs:400-432 | a normalised row does the same to every property map |
| BulkWire.OrderKeepsEffect | crates/bulk-load-api/src/lib.rs:363-397 | valid rows that differ only in order do the same |
| BulkWire.RepeatedNameBreaksOrder | crates/bulk-load-api/src/lib.rs:542-566 | with a repeated name both fail, so the uniqueness check is needed |
| BulkWire.PhaseOrderMatters | crates/bulk-load-api/src/lib.rs:381-395 | setting before or after removing gives the same map exactly when no name is in both lists |
| MessageSizing.AdaptiveFittingPrefix | crates/message-sizing/src/lib.rs:104-167 | the loop computes the specified fit, nothing for an empty window |
| MessageSizing.Fit | crates/message-sizing/src/lib.rs:104-191 | the result lies in 1..=window and its own measurement is within the hard limit |
| MessageSizing.FitSucceedsIff | crates/message-sizing/src/lib.rs:96-167 | for growing payloads a batch is found exactly when one entry fits, hint or not |
| MessageSizing.EstimateInside | crates/message-sizing/src/lib.rs:169-184 | two fully sampled windows over the same rows give the same fit if the estimate lies inside the shorter |
| MessageSizing.EstimateBeyond | crates/message-sizing/src/lib.rs:169-184 | and different fits if it lies beyond and what it proposes fits |
| MessageSizing.SameProposalIff | crates/message-sizing/src/lib.rs:169-184 | two windows whose proposals fit at once give the same fit exactly when their estimates are equal |
| MessageSizing.FitIsOne | crates/message-sizing/src/lib.rs:104-167 | if one entry fits and no longer prefix does, one entry is chosen |
| MessageSizing.FitIsAll | crates/message-sizing/src/lib.rs:104-184 | a sampled window within the target is chosen whole |
| LoadWindows.RowReader.NextRow | crates/cli/src/load.rs:626-649 | the next line that is not blank, with its size, or the parse error |
| LoadWindows.RowReader.SkipRows | crates/cli/src/load.rs:651-669 | exactly that many rows are passed over, blank lines not counted |
| LoadWindows.FillWindow | crates/cli/src/load.rs:1745-1757 | the buffer grows by the rows until the row cap, the byte cap on newly read rows, or the end |
| LoadWindows.ContinuingIsNoShorter | crates/cli/src/load.rs:1745-1757 | a run that still holds rows never has a shorter window than a restarted one |
| LoadWindows.SameNextChunk | crates/cli/src/load.rs:1723-1765 | both form the same next chunk when the row cap or the end decides, or a full-sample estimate stays inside the fresh window |
| LoadWindows.SameNextChunkIff | crates/cli/src/load.rs:1723-1765 | they form the same next chunk whatever the rows measure exactly when the fresh window reaches past the rows held and ends for the row cap, the end of the file or the bytes of rows not held, for every stream and number of rows held |
| LoadWindows.SameWindowIff | crates/cli/src/load.rs:1745-1757 | the two windows are equal under exactly that condition |
| LoadWindows.SameEstimateIff | crates/cli/src/load.rs:1723-1765 | for given measurements whose proposals fit at once, exactly when the two estimates are equal |
| LoadWindows.FullSampleIff | crates/cli/src/load.rs:1723-1765 | with a full sample, exactly when the windows are equal or the estimate stays inside the fresh one |
| LoadWindows.BoundaryMoves | crates/cli/src/load.rs:1745-1757 | a run that sent one row and holds the next goes on with all rows up to the cap, a restarted one with a single row, for all sizes and measurements of this shape |
| LoadWindows.LongestFitAgrees | crates/cli/src/load.rs:1723-1730 | under a longest-prefix rule the chunks agree exactly when the longer window's choice lies inside the shorter |
| UpdateRouter.SettleOutcomes | crates/router/src/bulk_load.rs:595-631 | the committed prefix is the leading committed rows; a committed row after a gap is reported, as are unresolved and unreadable ones |
| UpdateRouter.JournalSettles | crates/router/src/bulk_load.rs:713-745 | settling from the recorded prefix finds exactly what the journal shows |
| UpdateRouter.FingerprintIsSameRows | crates/router/src/bulk_load.rs:687-692 | the fingerprint test admits exactly the same rows up to order |
| UpdateRouter.AppendKeeps | crates/router/src/bulk_load.rs:667-944 | wherever a call is cut short, the rows written stay a prefix of the artifact, each once; a conflict means a closed job or a pending chunk of another length, and changes nothing |
| UpdateRouter.AppliedIsPrefix | crates/cli/src/load.rs:2343-2570 | rows written are the artifact's rows in order up to some point, all of them once completed |
| UpdateLoad.StatusPaged | crates/cli/src/load.rs:1199-1226 | the pages put together are the receipts of every completed chunk |
| UpdateLoad.ResumePoint | crates/cli/src/load.rs:1228-1249 | the rows to skip are the sum of the receipts |
| UpdateLoad.Gather | crates/cli/src/load.rs:1745-1765 | the chunk's length is that of the fitting rule on the topped-up window |
| UpdateLoad.UpdatePhase | crates/cli/src/load.rs:1735-1793 | rows written only grow; finishing means all public; the first chunk is the one a fresh window gives; behind a chunk it does not form again it fails and changes nothing, else without faults it succeeds unless a row is too big |
| UpdateLoad.RunLoad | crates/cli/src/load.rs:1270-1473 | over any faults the rows written are a growing authored-order prefix without gap or repeat; success means all rows, once; behind a chunk it does not form again it fails and changes nothing, else a run without faults succeeds unless not even one row fits a message |
| UpdateLoad.FittingRowsSuffice | crates/cli/src/load.rs:1796-1810 | if sizes grow with the rows and every single row fits, no chunk is ever too big |
| UpdateLoad.RunUntilLoaded | crates/cli/src/load.rs:1270-1473 | the same over any number of reruns; a wedged job stays exactly as it is |
| UpdateLoad.RestartFindsPending | crates/cli/src/load.rs:1723-1730 | if at every offset a fresh window ends like a continuing one or a fully sampled estimate stays inside it, no chunk a run left pending wedges the load |
| UpdateLoad.MemoryIsSteady | crates/cli/src/load.rs:1723-1765 | artifacts held in memory are always of that kind |
| UpdateLoad.RunToTheEnd | crates/cli/src/load.rs:1270-1473 | on such artifacts whose rows fit, over any faults that end some time, rerunning ends with every row written once and in order |
| UpdateLoad.WedgeIsReachable | crates/cli/src/load.rs:1735-1793 | for every lopsided artifact and every encoder that adds up row sizes, a run cut short in its second chunk leaves it pending and every restart forms another |
| UpdateLoad.WideIsLopsided | crates/cli/src/load.rs:1735-1793 | four valid rows, in lines at least twice as long as what they carry, are such an artifact |
| InsertRouter.AppendKeeps | crates/router/src/bulk_load.rs:1409-1530 | unless aliased, whatever step the Router dies at, vertices and edges stay prefixes of the artifact, edges only after all vertices, and an answer is a receipt for exactly the rows sent with the ids they were given |
| InsertRouter.DriveKeeps | crates/router/src/bulk_load.rs:1263-1385 | carrying a pending chunk any distance keeps the job faithful; its prefix is committed once |
| InsertRouter.AnswersAreTrueIff | crates/router/src/bulk_load.rs:1409-1530 | every possible answer tells the truth exactly when the slice is not aliased with public rows of an unfinished chunk |
| InsertRouter.AliasReplays | crates/router/src/bulk_load.rs:1445-1467 | an aliased send inserts nothing and is answered with the earlier receipt |
| InsertRouter.AliasNeedsSquare | crates/router/src/bulk_load.rs:1409-1530 | aliasing needs a block of rows that is immediately repeated |
| InsertRouter.SquareAllowsAlias | crates/router/src/bulk_load.rs:1409-1530 | any such block of vertices can be aliased in a run of three calls |
| InsertRouter.EdgeSquareAllowsAlias | crates/router/src/bulk_load.rs:1409-1530 | and so can any such block of edges, after all vertices |
| InsertRouter.AliasIffSquare | crates/router/src/bulk_load.rs:1409-1530 | so the artifacts with an aliased next slice in some faithful job are exactly those with an immediately repeated block |
| InsertRouter.ClosedWithVerticesMissing | crates/cli/src/load.rs:1565-1649 | a client that goes on behind the aliased vertices sends the rest, closes the job, and the block was never inserted |
| InsertRouter.ClosedWithEdgesMissing | crates/cli/src/load.rs:1657-1718 | and likewise for edges |
| InsertRouter.ExposedBlocks | crates/router/src/bulk_load.rs:1688-1762 | with public rows of an unfinished chunk, every next slice conflicts and finalizing is refused |
| InsertRouter.PendingDecides | crates/router/src/bulk_load.rs:1445-1467 | past a pending chunk the next slice gets exactly when it is that chunk, which is when it has its length; every other one conflicts and changes nothing |
| InsertRouter.AppendSucceeds | crates/router/src/bulk_load.rs:1263-1385 | a call carried through then completes the chunk, with at least one row unless it had been decided with none |
| InsertRouter.AppendKeepsPrivate | crates/router/src/bulk_load.rs:1263-1385 | nothing becomes public early if no call stops between recording and completing |
| InsertArtifact.ValidateArtifact | crates/cli/src/load.rs:876-982 | accepts exactly unique non-empty source ids, well-formed rows and references that resolve |
| InsertArtifact.BindIds | crates/cli/src/load.rs:1618-1631 | rows are bound to the ids of a receipt in order |
| InsertArtifact.EdgeItems | crates/cli/src/load.rs:1861-1881 | wire edges are built exactly when every endpoint resolves |
| InsertArtifact.ValidEdgesResolve | crates/cli/src/load.rs:1901-1929 | in a valid artifact every endpoint resolves, and a source id becomes the id allocated to the row of that name |
| InsertLoad.StatusPaged | crates/cli/src/load.rs:1199-1226 | all public receipts, a recorded but uncompleted one included |
| InsertLoad.TallyPublic | crates/cli/src/load.rs:1228-1249 | the resume point is the number of public rows with the ids those rows were given |
| InsertLoad.FillVertices | crates/cli/src/load.rs:1579-1601 | committed rows are bound to their recorded ids, never short of one, and the window then holds exactly the rows up to its row and byte caps |
| InsertLoad.VertexPhase | crates/cli/src/load.rs:1565-1649 | finishing means every vertex is public and bound to its own id; behind a pending chunk that its first fit does not form again it fails and changes nothing, else without faults it finishes unless a row is too big or the chunk had been decided without a row |
| InsertLoad.SendEdges | crates/cli/src/load.rs:1684-1712 | no endpoint lacks an id: the only artifact error left is that not even one row fits |
| InsertLoad.EdgePhase | crates/cli/src/load.rs:1657-1718 | finishing means every edge is public; pending chunks decide as in the vertex phase |
| InsertLoad.RunLoad | crates/cli/src/load.rs:1270-1473 | over any faults the graph holds a growing prefix of the artifact's vertices, each once under its own id, and edges only after all of them; success means everything; a wedged run fails and changes nothing, any other run without faults succeeds unless not even one row fits a message, or the pending chunk had been decided without a row, which it then clears away |
| InsertLoad.RunUntilLoaded | crates/cli/src/load.rs:1270-1473 | the same over any number of reruns; once faults stop and rows fit, two reruns load everything exactly when the job is not wedged |
| InsertLoad.RunToTheEnd | crates/cli/src/load.rs:1270-1473 | if no call stops on its way, then over any lost, refused and unanswered calls that end some time, rerunning ends with everything loaded |
| InsertLoad.HintWedgeIsReachable | crates/cli/src/load.rs:1565-1649 | for every artifact whose first vertex fills a message and whose others fit one together, a run sends the second alone because of its hint, and if that call stops after admission every restart forms one chunk of all the others |
| InsertLoad.WideIsLopsided | crates/cli/src/load.rs:1565-1649 | three valid vertices are such an artifact |
| EmbedIngest.ScanEmbeddings | crates/cli/src/embed.rs:199-278 | accepts exactly non-empty files with unique non-empty source ids, one non-zero dimension and values that stay finite as 32-bit floats |
| EmbedIngest.WalkReceipts | crates/cli/src/embed.rs:361-371 | the map depends only on the allocated ids put end to end |
| EmbedIngest.ResolveEmbeddings | crates/cli/src/embed.rs:337-389 | resolves exactly when receipts ascend, allocate one id per row and every embedding names a row, each to that row's id |
| EmbedIngest.MapsAgree | crates/cli/src/embed.rs:337-389 | for every completed load, however cut into chunks, the walk rebuilds the loader's own map |
| EmbedIngest.FittedBatchSizes | crates/cli/src/embed.rs:403-430 | the specified plan: sizes are positive, sum to the total and measure within the limit; found exactly when one item fits |
| EmbedIngest.WindowLikePrefix | crates/cli/src/embed.rs:464-485 | with one dimension and id width every window measures like the prefix of its length |
| EmbedIngest.IngestResolved | crates/cli/src/embed.rs:464-523 | every batch sent fits, the batches are the rows from the start, each once, and on success every row is accounted for; failing means no row fits, or the last batch was refused or not fully answered |
| EmbedIngest.EmbedFile | crates/cli/src/embed.rs:584-606 | scanned, resolved and sent: a file that scans is level, so every batch fits, and success means every embedding was sent once, in order, under the id of the vertex it names, and accounted for |
| EmbedIngest.MixedDimensionsOverflow | crates/cli/src/embed.rs:249-259 | without the dimension rule the plan for a small row and one too big is two batches of one, for every encoder that adds up, and the second exceeds the limit |

## Left out

- InsertLoad.RunLoad: safety is stated for artifacts without an immediately repeated block, or for scripts that never stop between recording a receipt and completing its chunk, because it is false otherwise (`InsertRouter.ClosedWithVerticesMissing`).
- InsertLoad.RunToTheEnd: stated for scripts in which no call stops between admission and completion, because otherwise a wedge can be reached (`InsertLoad.HintWedgeIsReachable`).
- UpdateLoad.RunLoad: other actors aborting the job, and a job being reused with a different artifact, are not modelled.
- UpdateRouter.AppendKeeps: rows whose match key changed owner between admission and dispatch are one way of being cut short; the match-key resolution itself is not modelled.
- MessageSizing.AdaptiveFittingPrefix: measuring cannot fail here; an encoding error of the caller's closure ends the load like a row that is too big.
- MigrationApply.Apply: property interning is an arbitrary yes or no per migration; a replayed failed record reports code 0; text index migrations, which only the Router classifies, are not modelled.
- ArtifactIngest.Ingest: one artifact's catalogue row, with an authorized caller; storage ids and other artifacts are not modelled.
- EmbedIngest.ScanEmbeddings: values are real numbers; they are checked against the 32-bit range but not rounded.
- SHA-256, Candid encoding, JSON and TOML parsing, the GQL parser and index-key encoding are parameters or left out.
- Filesystem checks, state files, progress rendering, sleeps and polling pace: input and output, not protocol.
- Account management, configuration precedence, agents and sessions, code generation: single-call setup of the command line, with no state shared with the protocols here.
- Receipt garbage collection, label statistics and projection work inside the Router between recording and completing a chunk.
