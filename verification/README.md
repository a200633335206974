# CCOS agent timeline: a verified model

This project models the event-sourced agent session of CCOS (`core/src/agent_session.rs`) and the
smaller protocols around it, and proves what they promise over every input, every run and every
reachable state.

An agent session holds a live causal memory, the tail of its operation log, a replay baseline, a
fold count, one hash per operation, an anchor, and grow-only logs of other agents with pinned keys.
The model keeps all of these fields. The causal memory is concrete where replay depends on it: files,
resident nodes, the edge vector in insertion order, the cold tier, the pending-reference index that
resolution reads, and the "needs resolution" bit; the parser, the three resolution passes, the scoring
of nodes, which reads the edges in order, and what paging does once the resident cap is passed are
function parameters (`Kernel`). The passes are constrained only by what the source guarantees of them
(`Memory.WellFormed`: which kinds of edges a pass creates and which node ids it reads);
scoring and paging are not constrained at all.

## Layout

| file | content |
|---|---|
| `Seqs.dfy` | sequence notions shared by the modules |
| `Ops.dfy`, `Memory.dfy` | operations, identifiers, the causal memory and its mutations |
| `Linking.dfy` | resolution as a rewrite of the edge vector; when two indices resolve alike |
| `Replay.dfy` | deferred, dirty-flag replay against eager live execution |
| `Snapshot.dfy` | what serialization loses, and when a fold or a reload is invisible |
| `Witness.dfy` | concrete runs on which the promises fail |
| `Text.dfy`, `Chain.dfy` | decimal framing, the hash chain, its audit |
| `Session.dfy`, `Timeline.dfy` | the session as a value; whole runs of operations, folds, restarts |
| `Sync.dfy`, `Federation.dfy` | bundles and foreign logs; networks of agents and convergence |
| `Tuning.dfy` | retrieval reward and weight tuning |
| `AgentSession.dfy` | the mutable session, proved against the functions above |
| `Evaluator.dfy`, `Generator.dfy`, `Review.dfy` | nDCG, answer generation, the review pipeline |
| `Retrieval.dfy` | breadth-first order and strict budgeting |
| `Outbox.dfy`, `Rpc.dfy` | the durable outbox and the stdio JSON-RPC client |

`dafny verify dfyconfig.toml` checks everything.

## Where the code and its own comments disagree

The model follows the code. Each disagreement comes with a concrete run and with the exact condition
under which the promise holds.

- **replay == live.** The comment at core/src/agent_session.rs:1861-1863 says an assertion reads no
  cross-file edge, so it forces no resolve. But an assertion creates its missing endpoints
  (core/src/external_memory.rs:558-567), and a node named `file:x` is one that import resolution
  links to: replay resolves after the assertion, the live session resolved before it.
  `Witness.AssertionMakesPhantomImport` is the run; `Witness.ReopenErasesHistory` shows that
  reopening then discards the timeline. And even about existing nodes the belief edge enters the
  edge vector before the links in replay and after them live; failure propagation walks that vector
  in order (core/src/memory.rs:2404-2447), so the scores differ: `Witness.AssertionReordersEdges` is
  the run, 0.8676 live against 0.936 in replay. `Replay.ReplayEqualsLiveIff` is the exact condition,
  `Snapshot.OrderlyLogReproduces` a condition one can check on the log alone.
- **Paging.** The comment at core/src/agent_session.rs:1424-1426 says ingestion never demotes, so
  deferring a resolve cannot reorder paging. But every node insertion ends in `enforce_paging`
  (core/src/memory.rs:980), which past the cap of 5000 nodes (core/src/external_memory.rs:480) demotes
  nodes together with the edges they have by then (core/src/memory.rs:1440-1470). Live they have their
  import links, in replay the resolve is still pending. `Witness.PagingLosesImport` is such a log, of
  ingests and one recall, under a cap of 4, and `Witness.PagingErasesHistory` its next open. Every
  result about replay, folds and restarts is therefore stated for logs that never need more nodes than
  the cap (`Replay.Fits`, a condition on the log alone); the chain, sync, federation and class results
  hold beyond it.
- **Compaction.** Snapshots omit the pending references (core/src/memory.rs:514-547), and the pruning
  rule keeps a call link whose source file has none (core/src/memory.rs:2990-3007). A definition that
  becomes ambiguous after a fold leaves a stale link in replay (`Witness.CompactionKeepsStaleCall`);
  a constant defined in a folded file is no longer known as one, so a file ingested later never gets
  its data-flow link (`Witness.CompactionLosesConstant`). `Snapshot.FoldInvisibleIff`,
  `Timeline.CompactTransparentIff` and `Timeline.CompactConfluentIff` are the exact conditions.
- **Restart.** Opening loads the live memory from its snapshot, so now it is the live session that
  forgot the pending references while replay of its log still has them: an ingest after a restart can
  part the two, and the next open then discards the timeline
  (`Witness.RestartThenIngestErasesHistory`). `Timeline.StepTracksIff` is the exact condition, and
  `Timeline.RunDeliversIff` that for whole runs of operations, folds and restarts.
- **Close.** The stdio client never clears `closed`, yet a later call starts a new child
  (adapters/deepseek-harness/mcp-stdio.js:75); when that child exits, nobody is rejected.
  `Rpc.ClosedClientStrandsRequest` is the run, `Rpc.ExitSettlesIff` the exact condition.

No result assumes SHA-256 injective, which no fixed-length hash is. Where equal hashes should mean
equal histories, the statement is "or `Clash`": the two histories themselves contain two different
preimages with one digest.

## Model

| member | source | states |
|---|---|---|
| `Linking.RetainedRelinked` | core/src/memory.rs:2965-3007 | pruning a resolved vector gives back exactly what pruning left before |
| `Linking.RelinkedAlikeIff` | core/src/memory.rs:2965-3007 | two indices resolve one edge vector alike exactly when one covers the other: the links only the fuller one could prune stand last among those kept, it would link them again first, and no import link comes between |
| `Linking.NothingStranded` | core/src/memory.rs:2990-3007 | in particular when the same edges are owned and the same references link |
| `Linking.RelinkedIsDuplicateFree` | core/src/memory.rs:983-1025 | a resolve appends nothing that is already there |
| `Replay.StepKeepsDuplicateFree` | core/src/memory.rs:983-1025 | below the cap every operation keeps the edge vector free of duplicates |
| `Replay.LiveFits` | core/src/memory.rs:1363-1366 | a log that never needs more nodes than the cap demotes nothing, and the nodes are those its ingests and assertions count up to |
| `Replay.ReplayFits` | core/src/memory.rs:1363-1366 | the same of its deferred replay |
| `Replay.IngestReplacesFile` | core/src/incremental.rs:101-161 | re-ingesting a changed file leaves of its old nodes and edges only what the new parse makes again, and everything of other files in place |
| `Replay.IngestAddsFile` | core/src/incremental.rs:96-100 | a new file only adds its parse |
| `Replay.IngestKeepsUnchanged` | core/src/incremental.rs:108-110 | an unchanged one leaves the graph alone |
| `Replay.EagerReplacesFile` | core/src/external_memory.rs:1627-1638 | the same after the resolve: an edge at the file is one its parse made or the passes link now |
| `Replay.AssertAddsBelief` | core/src/external_memory.rs:525-567 | an assertion adds its endpoints and at most one edge, at the end, of its polarity, with the clamped authority |
| `Replay.PageFaultIsFailures` | core/src/agent_session.rs:1818-1834 | below the cap a page fault does what a failure of each file and a recall around the first would |
| `Replay.LightOperations` | core/src/agent_session.rs:1835-1853 | a retune sets the weights alone; a recall changes nothing unless it is around a node |
| `Replay.ResolveBeforeIngestIsRedundant` | core/src/agent_session.rs:1418-1426 | resolving before a further ingest never changes what the next resolve produces, edge order included, for every memory, path and source |
| `Replay.AssertCommutesIffSilent` | core/src/agent_session.rs:1854-1870 | an assertion commutes with the pending resolve exactly when the nodes it creates change no link and its edge exists already or there is nothing to link |
| `Replay.DirtyIsPending` | core/src/agent_session.rs:1805-1871 | the dirty flag, the memory's own stale bit and "an ingest is still unresolved" are the same thing after any log |
| `Replay.StepAgreesIff` | core/src/agent_session.rs:1805-1871 | one deferred step agrees with one eager step exactly when a dirty assertion is silent |
| `Replay.ReplayEqualsLiveIff` | core/src/agent_session.rs:1410-1439 | replay reproduces the live memory at every step of a log, edge order and scores included, if and only if every assertion landing on an unresolved ingest is silent; for logs below the resident cap |
| `Replay.BatchEqualsLoop` | core/src/agent_session.rs:1151-1171 | deferring a whole batch and resolving once equals the per-file ingest loop, while all of it stays resident |
| `Replay.BatchIsReplay` | core/src/agent_session.rs:1151-1171 | below the cap or beyond it, a batch leaves the memory replaying its own log gives |
| `Snapshot.GroundedIsQuiet` | core/src/external_memory.rs:525-567 | an assertion about existing nodes, or ids resolution never reads, changes no link: a guard checkable beforehand |
| `Snapshot.SnapshotCarries` | core/src/external_memory.rs:590-656 | a snapshot carries everything but the index and the pending bit |
| `Snapshot.OrderlyLogReproduces` | core/src/agent_session.rs:1410-1439 | a log that reads the edges between an ingest and the next assertion replays to the live memory at every step, below the cap |
| `Snapshot.ReplayLearns` | core/src/memory.rs:514-547 | files and index after a replay are what the ingests of its log teach, whatever else happened |
| `Snapshot.StepSameIff` | core/src/memory.rs:2990-3007 | from equal snapshots an operation gives equal snapshots, except that for an ingest one of the two indices must cover the other |
| `Snapshot.ReloadInvisibleIff` | core/src/external_memory.rs:590-656 | a reload of the live memory is invisible at every later step exactly when, at every later ingest, the full index and what was ingested since cover each other |
| `Snapshot.ReplayStep` | core/src/agent_session.rs:1805-1871 | replay's next resolved state is a function of its current one and the dirty flag |
| `Snapshot.StepsAlikeIff` | core/src/agent_session.rs:1805-1871 | when one operation keeps two replays with different indices and pending resolves equal, exactly |
| `Snapshot.FoldInvisibleIff` | core/src/agent_session.rs:775-792 | folding a prefix is invisible at every later step exactly when, at every later operation, the full index and what the kept operations teach cover each other, and no assertion notices the resolve the fold ran early; any log below the cap |
| `Snapshot.IngestFreeTailSurvives` | core/src/agent_session.rs:775-792 | a tail that ingests nothing and asserts only once the folded ingests were read always survives |
| `Witness.AssertionMakesPhantomImport` | core/src/agent_session.rs:1854-1870 | two operations after which replay has an import edge the live memory has not |
| `Witness.ReopenErasesHistory` | core/src/agent_session.rs:729-740 | the same session, saved and reopened untouched, comes back with an empty timeline |
| `Witness.AssertionReordersEdges` | core/src/memory.rs:2404-2447 | two ingests, an assertion about the two existing files and a failure: a symbol scores 0.8676 live and 0.936 in replay |
| `Witness.CompactionKeepsStaleCall` | core/src/agent_session.rs:775-792 | three ingests on which compacting to the last one is not transparent: a stale call link stays |
| `Witness.CompactionLosesConstant` | core/src/memory.rs:542-546 | two ingests on which compacting to the last one is not transparent: a data-flow link is missing |
| `Witness.RootIsLinkedTwice` | core/src/memory.rs:3053-3076 | a crate root that imports its own module is linked to it twice, as importer and as parent, and both links are kept apart |
| `Witness.PagingLosesImport` | core/src/agent_session.rs:1424-1426 | three ingests past the cap and a recall, no assertion at all: live ends with three edges, replay with two |
| `Witness.PagingErasesHistory` | core/src/agent_session.rs:729-740 | the same session, saved and reopened untouched, comes back with an empty timeline |
| `Witness.RestartThenIngestErasesHistory` | core/src/agent_session.rs:729-740 | a restart that delivers, then an ingest: the next open discards the timeline |
| `Chain.FramingIsInjective` | core/src/agent_session.rs:343-346 | the framing of predecessor, step and JSON into one preimage determines all three |
| `Chain.FramingFormat` | core/src/agent_session.rs:343-346 | the preimage as written: predecessor, decimal step and JSON between bars |
| `Chain.CommitmentBinds` | core/src/agent_session.rs:349-351 | equal commitments mean both baselines absent, or equal snapshots, or a collision between the two |
| `Chain.ComputeChain` | core/src/agent_session.rs:355-364 | the loop computes, link by link, the hash of every prefix |
| `Chain.HeadResumes` | core/src/agent_session.rs:355-364 | a chain continued from one of its own heads gives the same later heads |
| `Chain.HeadCommits` | core/src/agent_session.rs:846-848 | equal heads mean equally many equal operations, or a named collision |
| `Chain.LinkwiseIffChain` | core/src/agent_session.rs:402-411 | checking each link against its recorded predecessor accepts exactly the recomputed chain |
| `Chain.BrokenLinksAreNamed` | core/src/agent_session.rs:403-411 | a step is reported exactly when its link does not recompute |
| `Chain.AuditAcceptsIff` | core/src/agent_session.rs:370-417 | a chained timeline is valid exactly when the baseline matches its commitment and the chain is the recomputed one |
| `Chain.AuditReports` | core/src/agent_session.rs:392-416 | an audit lists a baseline mismatch, differing counts and every failing step, each exactly when true, and nothing else |
| `Chain.ScanLinks` | core/src/agent_session.rs:402-411 | the scan returns exactly the broken links and counts the others |
| `Chain.VerifyTimeline` | core/src/agent_session.rs:370-417 | the whole audit: legacy sidecars, baseline, link count, broken links, in order |
| `Session.PerformKeeps` | core/src/agent_session.rs:820-829 | recording keeps chain, commitment and resolved memory, and extends the recorded history by that operation |
| `Session.CompactKeeps` | core/src/agent_session.rs:775-792 | folding keeps validity, recorded history, length, head and live memory |
| `Session.ThresholdIsKept` | core/src/agent_session.rs:796-808 | a checkpoint folds only a log longer than a positive maximum, and then keeps exactly the last `keep` operations |
| `Session.ForkKeeps` | core/src/agent_session.rs:1739-1759 | a fork is a valid session recording exactly the prefix, with the memory that prefix replays to |
| `Session.HeadOfHistory` | core/src/agent_session.rs:846-854 | the head is the head of the whole history since genesis, however much was folded |
| `Session.SameHeadSameHistory` | core/src/agent_session.rs:846-854 | two sessions with one head recorded the same history whatever each folded, or a named collision |
| `Timeline.SessionReplayIff` | core/src/agent_session.rs:1404-1439 | a session rewound to every step shows what was live there if and only if its log, being below the cap, is silent |
| `Timeline.StepTracksIff` | core/src/agent_session.rs:812-816 | a session whose replay matches its memory still matches after an operation exactly when, for an ingest, the live index and replay's cover each other and, for an assertion replay has a resolve pending for, it is silent |
| `Timeline.CompactTransparentIff` | core/src/agent_session.rs:770-792 | every step at or above the new floor replays as before exactly when every kept operation meets the fold condition |
| `Timeline.CompactCollapses` | core/src/agent_session.rs:770-774 | every step at or below the floor replays to the floor state |
| `Timeline.TwoStagesIff` | core/src/agent_session.rs:775-792 | folding in two stages differs from folding once in the floor state at most |
| `Timeline.CompactConfluentIff` | core/src/agent_session.rs:775-792 | after one fold, every deeper fold equals a single deep fold if and only if the first was transparent |
| `Timeline.RestartRestoresIff` | core/src/agent_session.rs:635-768 | an untouched workspace is never taken for legacy or tampered, and restores the same session exactly when its tail is empty or rebuilds the snapshot's counts |
| `Timeline.RestartOfTracking` | core/src/agent_session.rs:729-740 | a session whose replay matches its memory always survives a restart |
| `Timeline.OpenRefusesIff` | core/src/agent_session.rs:662-687 | whatever is on disk, open refuses exactly the chained sidecars that fail the audit |
| `Timeline.RefusalReportsAudit` | core/src/agent_session.rs:676-686 | a refusal carries the audit's report, never an empty one |
| `Timeline.OpenKeepsRecord` | core/src/agent_session.rs:662-740 | any sidecar not refused, chained or legacy, comes back field by field with the snapshot as memory when its tail is empty or rebuilds the counts; otherwise the timeline starts over while identity, foreign logs and pins stay |
| `Timeline.LegacyHistoryIsKept` | core/src/agent_session.rs:671-674 | a pre-chain record is kept, valid under its backfilled chain, and if never folded records exactly its old operations |
| `Timeline.OpenWithoutSidecar` | core/src/agent_session.rs:706-726 | without a sidecar: the snapshot as memory and baseline, nothing recorded, valid |
| `Timeline.ResetIsValid` | core/src/agent_session.rs:733-740 | the reset timeline is itself valid, empty and consistent |
| `Timeline.SeatedFits` | core/src/agent_session.rs:775-792 | a history below the cap stays below it when split into a baseline and a tail |
| `Timeline.ActionDeliversIff` | core/src/agent_session.rs:620-816 | one operation, fold or restart delivers what is promised of it if and only if it is safe, and then keeps the invariant |
| `Timeline.OrderlyIsSafe` | core/src/agent_session.rs:1218-1244 | every operation but an ingest is safe, an assertion once the edges were read since the last ingest |
| `Timeline.RepeatedIsSafe` | core/src/agent_session.rs:1218-1244 | so is an assertion about existing nodes whose edge exists already |
| `Timeline.RunDeliversIff` | core/src/agent_session.rs:620-1439 | over any run of operations, folds and restarts whose recorded log stays below the cap: all deliver if and only if all are safe, and then the timeline is valid, records exactly what was done and replays to the live memory |
| `Sync.ShapeAcceptsIff` | core/src/agent_session.rs:998-1021 | the internal checks accept exactly the bundles whose links recompute from their own anchor |
| `Sync.ContinuityAcceptsIff` | core/src/agent_session.rs:1022-1049 | the continuity checks accept exactly the bundles that start inside the known log at its link and agree on the overlap |
| `Sync.ImportAcceptsIff` | core/src/agent_session.rs:957-1066 | a bundle is accepted exactly when it is foreign, authentic, well chained and continues the known log |
| `Sync.AcceptedIsAuthentic` | core/src/agent_session.rs:964-997 | an accepted bundle has key and signature together or neither, its signature checks whatever is pinned, and its key is the pin from then on |
| `Sync.NewPinsWereChecked` | core/src/agent_session.rs:1062-1064 | over any sequence of bundles every new pin came with an accepted bundle of that agent whose signature checked |
| `Sync.RefusalMeans` | core/src/agent_session.rs:957-1049 | every refusal means what it names, agents, counts and step numbers included |
| `Sync.AddedIsGrowth` | core/src/agent_session.rs:1058-1065 | the number returned is the number of steps the log grew by |
| `Sync.ExtendedIsValid` | core/src/agent_session.rs:1050-1066 | an accepted bundle leaves a genesis-anchored valid log that only grew, to the furthest end |
| `Sync.EquivocationIsCaught` | core/src/agent_session.rs:1022-1049 | a well-chained bundle with a different operation at a known step is refused as diverged, at the first step that differs |
| `Sync.EquivocationIsRefused` | core/src/agent_session.rs:957-1049 | its import changes nothing, and an authentic one is refused as diverged |
| `Sync.SliceExtends` | core/src/agent_session.rs:1022-1066 | an honest slice is accepted by any prefix that reaches its start, and yields the longer of the two prefixes, however they overlap |
| `Sync.HonestImport` | core/src/agent_session.rs:957-1066 | an honest bundle is refused only as anonymous, as one's own, by authenticity or for a gap, and leaves the further of the two ends |
| `Sync.HonestImportsReachFurthest` | core/src/agent_session.rs:998-1066 | over any sequence of bundles, an agent's honest ones overlapping arbitrarily and anything from others between, its log is exactly its history up to the furthest accepted end |
| `Sync.IncrementalEqualsFull` | core/src/agent_session.rs:998-1066 | incremental imports that reach the end leave the log one full import leaves |
| `Sync.ExportIsSlice` | core/src/agent_session.rs:900-942 | an export is exactly the steps from `since` to the end, anchored at their predecessor's hash, and signed exactly if the session has a key |
| `Sync.ExportRefusesIff` | core/src/agent_session.rs:900-917 | an export fails exactly without an identity or below the floor; past the end it is empty, at the step asked for, anchored at the head |
| `Sync.RoundTrip` | core/src/agent_session.rs:900-1066 | export then import adds exactly the missing steps and leaves the exporter's full log |
| `Sync.ImportStep` | core/src/agent_session.rs:957-1066 | refusal changes nothing; acceptance changes one log and at most one new pin; under a pin it needs that key and a checked signature |
| `Sync.ForeignLogsOnlyGrow` | core/src/agent_session.rs:957-1066 | over any sequence of bundles, honest or hostile, logs stay valid and only grow by suffix, and pins are permanent |
| `Sync.PinnedLogsGrowOnlyByKey` | core/src/agent_session.rs:964-997 | once pinned, a log grows only by bundles carrying that key with a valid signature |
| `Federation.SameStreamsSameView` | core/src/agent_session.rs:1103-1126 | the merged view is a function of the known streams alone, whoever holds them as own or foreign |
| `Federation.OwnStream` | core/src/agent_session.rs:1104-1111 | an unnamed session's stream is filed under `local`, a named one's under its name |
| `Federation.ShadowedSessionIsMute` | core/src/agent_session.rs:1109-1114 | a session whose own id is also foreign contributes nothing to its own view: why convergence needs distinct ids |
| `Federation.StepStaysHonest` | core/src/agent_session.rs:900-1066 | records, exports and deliveries in any interleaving keep every agent's knowledge of every other a prefix of what that one recorded |
| `Federation.ExchangeCatchesUp` | core/src/agent_session.rs:900-1066 | one send and one delivery make the receiver know the whole sender, in any reachable network, and touch nobody else |
| `Federation.InitialIsHonest` | core/src/agent_session.rs:595-620 | distinct fresh agents satisfy that invariant |
| `Federation.EqualCountsConverge` | core/src/agent_session.rs:1095-1126 | two agents that know equally many steps of everyone have equal merged views |
| `Federation.CaughtUpAgentsAgree` | core/src/agent_session.rs:1095-1126 | after any run, agents that caught up with everyone agree |
| `Federation.CaughtUpViewIsGlobal` | core/src/agent_session.rs:1095-1126 | what they agree on is the replay of the id-sorted concatenation of everyone's whole log with one trailing resolve |
| `Tuning.RetrievalReward` | core/src/agent_session.rs:1496-1575 | the loop computes the hit rate of recalls over the pairs it can judge |
| `Tuning.PairIsHitIff` | core/src/agent_session.rs:1516-1549 | a recall and the next engagement are one judged pair, a hit exactly when the recalled window holds an engaged file |
| `Tuning.UnpairedIsIgnored` | core/src/agent_session.rs:1526-1549 | an engagement with nothing recalled since the last is not judged |
| `Tuning.RewardReplays` | core/src/agent_session.rs:1496-1515 | without page faults and retunes the reward's memory is the ordinary replay under the candidate weights |
| `Tuning.TallyCounts` | core/src/agent_session.rs:1496-1575 | the number of judged pairs depends on neither weights nor memory, and bounds the hits |
| `Tuning.RetunesAreIgnored` | core/src/agent_session.rs:1496-1575 | deleting every recorded retune, wherever it stands, changes neither hits nor judged pairs |
| `Tuning.BetterMeansMoreHits` | core/src/agent_session.rs:1589-1636 | comparing rates is comparing hits |
| `Tuning.TunedIsBestTried` | core/src/agent_session.rs:1589-1636 | tuned weights score at least as well as every candidate tried, and strictly better than the current ones if they differ |
| `Tuning.PassTries` | core/src/agent_session.rs:1594-1632 | the 29 candidates of a pass, in order, each changing one weight |
| `Tuning.NothingToLearn` | core/src/agent_session.rs:1590-1593 | a log without judged pairs leaves the weights alone |
| `Tuning.TuneRecallWeights` | core/src/agent_session.rs:1589-1636 | the nested loops compute the greedy ascent over two passes |
| `Tuning.AdoptionGains` | core/src/agent_session.rs:1638-1649 | an adoption strictly raises the session's hits and leaves its judged pairs alone |
| `Tuning.AdoptionIsRecorded` | core/src/agent_session.rs:1638-1649 | an adoption records one retune to the weights it leaves live; a refused one changes nothing |
| `Tuning.AdoptionsAreBounded` | core/src/agent_session.rs:1638-1649 | at most as many adoptions in a row succeed as the log has judged pairs |
| `AgentSession.AgentSession.constructor` | core/src/agent_session.rs:595-620 | a new session is valid and records the empty history |
| `AgentSession.AgentSession.RecordOp` | core/src/agent_session.rs:820-829 | the one write path appends the operation and its link |
| `AgentSession.AgentSession.Ingest` | core/src/agent_session.rs:1129-1135 | records, then ingests and resolves; the session stays valid |
| `AgentSession.AgentSession.IngestBatch` | core/src/agent_session.rs:1151-1171 | records each file and leaves the memory replaying them gives; below the cap that is the session the per-file loop leaves |
| `AgentSession.AgentSession.AssertClaim` | core/src/agent_session.rs:1218-1244 | records and adds the belief edge and its endpoints |
| `AgentSession.AgentSession.FailureSignal` | core/src/agent_session.rs:1259-1265 | records and signals the failure |
| `AgentSession.AgentSession.RecallWindow` | core/src/agent_session.rs:1272-1282 | records; only a recall around a node changes the memory |
| `AgentSession.AgentSession.PageFault` | core/src/agent_session.rs:1349-1380 | signals every faulting file, pages in the first one's region, records |
| `AgentSession.AgentSession.ReplayToStep` | core/src/agent_session.rs:1410-1439 | one pass with the dirty flag and one trailing resolve compute the replayed memory |
| `AgentSession.AgentSession.CompactTo` | core/src/agent_session.rs:775-792 | the in-place fold yields the folded session and keeps it valid |
| `AgentSession.AgentSession.Fork` | core/src/agent_session.rs:1739-1759 | an independent valid branch; the trunk is untouched |
| `AgentSession.AgentSession.Verify` | core/src/agent_session.rs:835-844 | a session reached through these methods always verifies, every link counted, no error |
| `AgentSession.AgentSession.SetAgent` | core/src/agent_session.rs:870-872 | changes the id alone |
| `AgentSession.AgentSession.Export` | core/src/agent_session.rs:900-942 | returns the signed slice, or the reason there is none |
| `AgentSession.AgentSession.Inspect` | core/src/agent_session.rs:957-1049 | the refusal a bundle meets, in the order of the checks |
| `AgentSession.AgentSession.Import` | core/src/agent_session.rs:957-1066 | refused bundles change nothing, accepted ones extend the log and pin the key; all logs stay valid |
| `AgentSession.AgentSession.View` | core/src/agent_session.rs:1103-1126 | replays the known streams in increasing id order |
| `AgentSession.AgentSession.Checkpoint` | core/src/agent_session.rs:750-808 | compacts past the threshold, then writes snapshot and sidecar of the resulting session |
| `AgentSession.AgentSession.AdoptTunedRecallWeights` | core/src/agent_session.rs:1638-1649 | adopts and records exactly when the hit rate strictly improves |
| `AgentSession.OpenWorkspace` | core/src/agent_session.rs:635-742 | audits, backfills a legacy sidecar, resets an inconsistent tail |
| `AgentSession.ApplyStream` | core/src/agent_session.rs:1427-1430 | the shared replay loop over a stream |
| `AgentSession.ScanBundle` | core/src/agent_session.rs:1010-1021 | finds the first link that does not recompute |
| `AgentSession.ScanOverlap` | core/src/agent_session.rs:1038-1048 | finds the first overlapping link that disagrees |
| `Evaluator.ComputeDcg` | scripts/evaluate-rag-campaign.py:173-174 | the running sum is the discounted gain of the list |
| `Evaluator.GainValues` | scripts/evaluate-rag-campaign.py:173-173 | the gain of a grade: 0, 1, 3, 7, each twice the one before plus one |
| `Evaluator.DcgAppend` | scripts/evaluate-rag-campaign.py:174-174 | each document adds its gain times the discount of its rank, counted from 0; an unlabelled one nothing |
| `Evaluator.BestFirstExists` | scripts/evaluate-rag-campaign.py:175-176 | every label map has a best-first order |
| `Evaluator.DcgAtMostBest` | scripts/evaluate-rag-campaign.py:173-176 | no duplicate-free list beats the equally long best-first one (the rearrangement step) |
| `Evaluator.DcgAtMostIdeal` | scripts/evaluate-rag-campaign.py:139-176 | the discounted gain is between 0 and the ideal gain for every duplicate-free ranking, label map, cut-off and positive non-increasing discount |
| `Evaluator.NdcgIsNormalized` | scripts/evaluate-rag-campaign.py:168-187 | nDCG lies in [0, 1], is 1 on a best-first ranking, and ignores how ties were ordered |
| `Generator.BuildContext` | scripts/rag-e2e-generate.py:42-52 | the loop selects what the prefix rule selects, or fails at a source without a cost |
| `Generator.TopSize` | scripts/rag-e2e-generate.py:44-44 | the cut-off takes the first k, or drops from the end if negative |
| `Generator.BlockCost` | scripts/rag-e2e-generate.py:45-46 | a source costs its whole block, id included |
| `Generator.SelectedIsPrefix` | scripts/rag-e2e-generate.py:42-52 | every prefix of the selection fits, and it ends at the list's end or at a source that does not fit |
| `Generator.ContextIsLongestFittingPrefix` | scripts/rag-e2e-generate.py:42-52 | a prefix of the top-k fits the budget exactly when it is no longer than the selection |
| `Generator.BindCitations` | scripts/rag-e2e-generate.py:55-66 | binds every citation or none |
| `Generator.BoundCitationsAreCounted` | scripts/evaluate-rag-campaign.py:121-164 | binding succeeds exactly for in-range citations, every bound one is valid to the evaluator, and its violations are exactly the citations of documents the query may not use |
| `Generator.CountsIff` | scripts/evaluate-rag-campaign.py:103-132 | a citation counts exactly when its document is known, in context, of the tenant, open to the principal and active, and both hashes are those of that document and those bytes |
| `Generator.ForeignCitationIsNotCounted` | scripts/evaluate-rag-campaign.py:103-105 | a citation of another tenant's, a closed or an inactive document, or outside the context, never counts |
| `Generator.StripMeans` | scripts/rag-e2e-generate.py:80-80 | stripping drops white space at both ends, all of it, and nothing else |
| `Generator.RowCarries` | scripts/rag-e2e-generate.py:69-95 | what a row carries over, and exactly when it is an answer, a silent success or an error |
| `Generator.CeilingsInNumbers` | scripts/evaluate-rag-campaign.py:139-156 | the evaluator's ceilings in numbers |
| `Generator.AcceptedRowIsSound` | scripts/evaluate-rag-campaign.py:136-152 | an accepted row ranks known documents once each, takes its context from them once each, and is silent or answers with more than white space |
| `Generator.RowShape` | scripts/rag-e2e-generate.py:69-95 | every row is an answered one or an explicit silent abstention, its context a prefix of the ranking within budget |
| `Generator.GeneratedRowAcceptedIff` | scripts/evaluate-rag-campaign.py:135-156 | the evaluator accepts a generated row exactly when the retrieval row is well formed, the backend's numbers are within the ceilings and claims match abstention |
| `Generator.GeneratedRowViolations` | scripts/evaluate-rag-campaign.py:157-164 | a generated row has no citation violation exactly when it cites only usable documents, and never exceeds the context budget |
| `Review.EveryReplyIsUsable` | scripts/rag_e2e_mistral_judge.py:46-85 | any reply gives a well-typed review agreeing with abstention; an unusable one counts as incorrect and unsupported |
| `Review.UsableReplyIsTaken` | scripts/rag_e2e_mistral_judge.py:46-85 | exactly which replies are usable, and that such a reply's verdict, counts and note are taken as they are |
| `Review.FailureMeans` | scripts/rag_e2e_mistral_judge.py:46-71 | what each failure reason says of the reply, and that the abstention's note tells them apart |
| `Review.JudgeAll` | scripts/rag_e2e_mistral_judge.py:103-120 | one review per packet row in order, none dropped; the abstain list is exactly the failures |
| `Review.FailedIdsAre` | scripts/rag_e2e_mistral_judge.py:112-120 | the failed ids are exactly those reviewed as a judge's abstention |
| `Review.ReviewIdIsInjective` | scripts/rag-e2e-adjudicate.py:97-97 | zero-padded ids never repeat, beyond six digits too |
| `Review.ReviewIdFormat` | scripts/rag-e2e-adjudicate.py:97-97 | the ids as written, zero-padded to six digits |
| `Review.ListItems` | scripts/rag-e2e-adjudicate.py:88-92 | every (arm, query) once, or refusal exactly when an arm misses or adds a query |
| `Review.ShuffleKeepsItems` | scripts/rag-e2e-adjudicate.py:93-93 | no shuffle loses, repeats or invents an item |
| `Review.Export` | scripts/rag-e2e-adjudicate.py:81-109 | packet and key pair every result with exactly one id, its hash and its abstention |
| `Review.ImportReviews` | scripts/rag-e2e-adjudicate.py:112-135 | the loop reports the first problem or returns the sorted judgments |
| `Review.ImportAcceptsIff` | scripts/rag-e2e-adjudicate.py:112-135 | reviews of any origin are accepted exactly when the key repeats no id, each review fits its unchanged result, none repeats and none is missing |
| `Review.ProblemMeans` | scripts/rag-e2e-adjudicate.py:116-129 | what each refusal means for the review it points at |
| `Review.BeforeMeans` | scripts/rag-e2e-adjudicate.py:134-134 | the order is by arm, then by query |
| `Review.SortIsPermutation` | scripts/rag-e2e-adjudicate.py:134-134 | the final sort orders by (arm, query) and keeps every judgment |
| `Review.JudgedImportAcceptsIff` | scripts/rag-e2e-adjudicate.py:112-135 | a judged packet imports exactly when no result changed, whatever the model replied |
| `Review.PipelineIsTotal` | scripts/rag-e2e-adjudicate.py:81-135 | with unchanged results any replies give exactly one judgment per (arm, query), bound to its hash, carrying the review of its own packet row, zero claims exactly when it abstained |
| `Review.EvaluatorAcceptsJudgedRows` | scripts/evaluate-rag-campaign.py:135-180 | for a generated row, an imported judgment meets the evaluator's claim checks, so only the row's own ceilings decide |
| `Retrieval.Neighbors` | core/examples/fair_context_retrieval.rs:257-267 | the neighbours across undirected edges, whichever end an edge names first, sorted, each once |
| `Retrieval.NeighborsAreJoined` | core/examples/fair_context_retrieval.rs:257-267 | a neighbour is the other end of an edge, in either direction |
| `Retrieval.OrderByPaths` | core/examples/fair_context_retrieval.rs:269-285 | the search order told by paths alone |
| `Retrieval.BfsOrder` | core/examples/fair_context_retrieval.rs:269-285 | terminates despite duplicate queue entries; exactly the nodes some path over the edges leads to, each once, none before one a shorter path leads to |
| `Retrieval.AdvanceKeepsSearching` | core/examples/fair_context_retrieval.rs:273-283 | one pop keeps the search invariant: what is out is nearest, what is queued is next |
| `Retrieval.StrictBudget` | core/examples/fair_context_retrieval.rs:308-324 | the loop makes the budgeted selection |
| `Retrieval.BudgetTakesWhatFits` | core/examples/fair_context_retrieval.rs:312-322 | each document is taken exactly when known and fitting when met, so the selection is an in-order subsequence |
| `Retrieval.BudgetIsKept` | core/examples/fair_context_retrieval.rs:312-322 | the selection never exceeds the budget |
| `Outbox.List` | adapters/deepseek-harness/outbox.js:42-68 | the first `limit` entries that parse and are within 8 MiB, in order; corrupt ones neither fail the listing nor use up the limit, and exactly those met before it was reached are reported |
| `Outbox.PendingAre` | adapters/deepseek-harness/outbox.js:57-65 | what is pending are the files that parse and are at most 8 MiB |
| `Outbox.BatchLimit` | adapters/deepseek-harness/bridge.js:468-475 | a listing takes the first 200 of them with the items on disk |
| `Outbox.Bridge.Capture` | adapters/deepseek-harness/bridge.js:441-460 | the entry appears only with the rename, and a drain is scheduled behind the running one |
| `Outbox.Bridge.Step` | adapters/deepseek-harness/bridge.js:466-488 | one step of the loop is one event of the interleaved model, a failed call ends the loop, and the account is kept |
| `Outbox.Bridge.Drain` | adapters/deepseek-harness/bridge.js:462-492 | undisturbed, the batch loop terminates and does what entry-by-entry draining does |
| `Outbox.DrainConserves` | adapters/deepseek-harness/bridge.js:477-486 | an entry leaves only after its own capture was delivered; what stays is untouched, corrupt entries always stay |
| `Outbox.DrainDeliversInOrder` | adapters/deepseek-harness/bridge.js:477-486 | the j-th delivery is the j-th pending entry under its stored identity |
| `Outbox.WorkingDrainEmpties` | adapters/deepseek-harness/bridge.js:466-488 | with a working server everything healthy is delivered, however many corrupt entries lie between |
| `Outbox.DrainStops` | adapters/deepseek-harness/bridge.js:477-486 | a failed call changes nothing, a failed removal leaves the sent entry in place, only a removal goes on |
| `Outbox.WorkingDrainDelivers` | adapters/deepseek-harness/bridge.js:466-488 | a working server gets every file that parses and is at most 8 MiB, which then is gone; any other file stays |
| `Outbox.SentFilesParse` | adapters/deepseek-harness/outbox.js:57-65 | nothing else is ever sent |
| `Outbox.EventKeepsAccounts` | adapters/deepseek-harness/bridge.js:441-492 | every event, puts during an awaited delivery included, keeps each stored capture accounted for and the listed batch as it is on disk |
| `Outbox.NothingIsLost` | adapters/deepseek-harness/bridge.js:441-492 | over every interleaving of puts, listings, deliveries, removals, failures, crashes and stray files, a stored capture is pending or was delivered under its stored identity |
| `Outbox.RestingRunDelivers` | adapters/deepseek-harness/bridge.js:441-492 | over any interleaving without a failed call, once the loop rests every stored capture of at most 8 MiB was sent and its file is gone |
| `Outbox.CorruptFilesStay` | adapters/deepseek-harness/outbox.js:35-41 | in every step a file that does not parse or is larger stays as it is, and what is sent comes from one that does and is not |
| `Outbox.QuietRunsEnd` | adapters/deepseek-harness/bridge.js:466-488 | without new puts the loop takes no more steps than there is work, whatever fails |
| `Outbox.UndisturbedRunEmpties` | adapters/deepseek-harness/outbox.js:35-68 | a started drain that meets no failure and comes to rest leaves no healthy entry, however many corrupt ones lie between |
| `Rpc.EventKeepsConsistent` | adapters/deepseek-harness/mcp-stdio.js:100-193 | after every event the pending table holds exactly the issued, unsettled ids, and only those have a timer or listener |
| `Rpc.SettlementsAreFinal` | adapters/deepseek-harness/mcp-stdio.js:169-188 | a settlement is never undone; a late, repeated or unknown reply changes nothing |
| `Rpc.EveryRunSettlesOnce` | adapters/deepseek-harness/mcp-stdio.js:100-193 | under any interleaving no request settles twice, and close settles every one issued |
| `Rpc.ReplyReachesItsRequest` | adapters/deepseek-harness/mcp-stdio.js:169-188 | a reply settles the request it names with the reply's own outcome, and every other request keeps waiting with its timer and listener |
| `Rpc.RequestArms` | adapters/deepseek-harness/mcp-stdio.js:100-137 | a sent request waits with timer and listener armed exactly as asked; an aborted or unwritable one is rejected at once with nothing armed |
| `Rpc.FiringSettles` | adapters/deepseek-harness/mcp-stdio.js:114-125 | a timer and an abort settle their own request, each for its own reason |
| `Rpc.StepKeepsArmed` | adapters/deepseek-harness/mcp-stdio.js:100-193 | no event disarms a request that goes on waiting |
| `Rpc.ArmedWhilePending` | adapters/deepseek-harness/mcp-stdio.js:100-137 | over any interleaving, while a sent request waits its timer and listener are armed exactly as asked |
| `Rpc.EndsReject` | adapters/deepseek-harness/mcp-stdio.js:53-58 | how an error, an exit and a close reject the waiting requests and what they leave running |
| `Rpc.FailAllRejectsInOrder` | adapters/deepseek-harness/mcp-stdio.js:190-193 | failing the client rejects exactly the waiting requests, with one reason, in the order they were sent |
| `Rpc.ExitSettlesIff` | adapters/deepseek-harness/mcp-stdio.js:54-58 | a child's exit settles every request exactly when the client was not closed before or nothing was pending |
| `Rpc.ClosedClientStrandsRequest` | adapters/deepseek-harness/mcp-stdio.js:54-58 | close, a new call, exit: the request stays pending with no timer |
| `Rpc.StdioMcpClient.SendRequest` | adapters/deepseek-harness/mcp-stdio.js:100-137 | issues an id, arms timer and listener, settles at once on an aborted signal or a failed write |
| `Rpc.StdioMcpClient.OnLine` | adapters/deepseek-harness/mcp-stdio.js:169-188 | settles the request a reply names, if it is pending |
| `Rpc.StdioMcpClient.RejectAll` | adapters/deepseek-harness/mcp-stdio.js:190-193 | rejects exactly the waiting requests, in order |
| `Rpc.StdioMcpClient.CloseClient` | adapters/deepseek-harness/mcp-stdio.js:143-147 | closes and rejects everything pending |
| `Rpc.StdioMcpClient.OnExit` | adapters/deepseek-harness/mcp-stdio.js:54-58 | drops the child; rejects only if not closed |

## Left out

- What paging does past the resident cap: which nodes are demoted, spilled and faulted in is an arbitrary function (`Kernel.page`), written out only in the witness. The results on replay, folds and restarts stop at the cap; changing the cap (`set_max_resident`) is not logged and not modelled.
- Floats: edge weights are bit patterns that are copied and compared, node scores are reals; recall windows, embeddings, the compressor, drift attribution and trajectory alignment only read the memory. Edge timestamps are left out: no recorded operation advances the clock they are taken from.
- The parser and the three resolution passes: arbitrary functions under `Memory.WellFormed`; an unchanged re-ingest is recognised by comparing text instead of its hash.
- SHA-256, JSON and Ed25519: function parameters; hashes are 64 characters without `|`, operation JSON can be read back, and a build's signing and signature checking agree where a round trip needs it. NaN weights, whose JSON cannot be read back, are outside.
- Identifiers are read by namespace into a datatype; stripping a redundant `file:` prefix is not modelled.
- A corrupted but correctly committed baseline string, which replay replaces by an empty memory, and an unreadable sidecar, which counts as absent.
- Foreign logs in a sidecar are not verified again on open; `Timeline.OpenRefusesIff` speaks of the session's own chain alone.
- Licensing tiers, custom authorities (an input weight stands for the one already chosen), `audit_workspace`, timeline text, workspace keys and file I/O.
- Sync.RoundTrip: restricted to `folded <= since <= len`; past the end the code keeps `first_seq = since`, which the receiver reports as a gap.
- Federation.EqualCountsConverge: agents have distinct ids and uncompacted logs; a compacted session's own stream starts at its floor.
- Tuning.RetrievalReward: the reward evaluates its own replay, which skips the page-in of a page fault and recorded retunes, as the code does; no claim that its intermediate states are those of `replay_to`.
- Outbox.Bridge.Drain: the loop when nothing else happens meanwhile; the interleaved model is `Outbox.NothingIsLost` and `Outbox.QuietRunsEnd`. Disposal, listing errors and failed calls are all "the loop stops"; a key stands for its file name, so the order is that of file names.
- Rpc.StdioMcpClient.OnLine: a line that is JSON `null` throws in the original and changes no state here; process spawning and the initialize handshake are left out.
- Review.Export: the gold-answer check, the quoted text and the question of a packet row do not affect judging or import and are left out; Cohen's kappa and summaries too.
- Review.EveryReplyIsUsable: the search for the first `{...}` and JSON parsing are inputs (`NoObject`, `NotJson`, or an object with typed fields).
- Generator.RowShape: the prompt text and its sources block are left out; the backend's reply is arbitrary, a missing field or failed conversion being an absent value.
- Evaluator.NdcgIsNormalized: real arithmetic instead of floats, an arbitrary discount instead of log2; recall, MRR, bootstrap intervals and manifest validation are left out.
- Region and one-hop orders of the retrieval example, bridge session events and text rendering would only add easy members.
