# A verified model of canonical history, projections, graph search and publication

The repository keeps, per creator account, a canonical history of chats and messages, projects it into two
alternating slots that readers query, builds property graphs from it, and publishes analytics generations. This
Dafny project models that machinery and proves what it is built to guarantee.

- **Canonical history** (`CanonicalModel`, `EntityMerge`, `CoverageModel`, `SnapshotMerge`, `CanonicalRun`,
  `ChatConvergence`, `SettingsHandshake`, `EntityOutcomes`, `CoverageOutcomes`): merging chats, messages and
  tombstones, coverage generations, and the settings handshake that gates them. `HistoryTables` is the same over
  tables that are updated statement by statement.
- **Ingestion** (`Ingest`, `IngestRuns`, `IngestGuarantees`, `IngestOutcomes`, `SnapshotOutcomes`, `DeliveryOutcomes`,
  `HistoryRepository`): sequenced deltas and chunked snapshot uploads from many streams, under retries, gaps, reuse
  and failures.
- **Projection** (`ProjectionTables`, `ProjectionFrames`, `ProjectionBuild`, `ProjectionSlot`, `ProjectionProtocol`,
  `ProjectionGuarantees`, `ProjectionMeaning`, `ProjectionRepository`): incremental view maintenance in the inactive
  one of two slots, and the protocol of four transactions in two databases with a crash between any two.
- **Graph search** (`Graph`, `PathSearch`, `PathResults`, `RootSlice`, `SearchScope`): all shortest paths and
  root-anchored slices under independent limits with an honest flag.
- **Graph generations** (`GraphGenerations`, `GraphHistory`, `GraphOutcomes`, `GraphRepository`): lease-fenced builds,
  frozen generations, activation and collection.
- **Publication** (`Publication`, `PublicationGuarantees`, `PublicationRuns`, `PublicationOutcomes`,
  `ProjectionStore`): compare-and-swap with epoch fences over the graph generations.
- **Scheduling** (`Scheduler`, `SchedulerRuns`, `SchedulerProgress`, `SchedulerObject`): coalescing of requested
  revisions as interleaved locked sections.

The specification of an operation is a function on values; code that changes state is a class whose methods are
proved to compute that function, and what the code promises is proved about the functions, mostly over whole runs.
The `...Outcomes`, `ProjectionMeaning`, `SchedulerProgress` and `SearchScope` modules say, row by row and by field, what
each operation leaves behind and when it refuses.
Clocks, identity readers, the activation ledger and freshly drawn identifiers are parameters. A few fields
(`history`, `accepted`, `log`, `requests`, `published`, `boundary`, `issued`) only remember what happened, so that
statements about runs can refer to it.

`Options` and `Sequences` are shared by several modules. `dafny verify dfyconfig.toml` checks the whole project.

## Model

| member | source | states |
|---|---|---|
| `ProjectionGuarantees.EverySlotIsExact` | app/persistence/history.py:2498-2856 | Over every run of canonical commits, catch-up steps, activations and crashes, each committed slot holds exactly the full projection of the canonical content at the revision it claims, whether it was cloned, replayed, refreshed or reseeded |
| `ProjectionTables.BuildIsExact` | app/persistence/history.py:2593-2766 | A build that starts from the full projection of an older revision, or from nothing, and replays exactly the work rows between the two revisions ends in the full projection of the target revision |
| `ProjectionTables.ReplayIsExact` | app/persistence/history.py:2341-2400 | Rebuilding some conversations and refreshing the summaries of more of them turns the full projection of one content into that of another, if everything left alone is the same in both |
| `ProjectionTables.ReseedIsExact` | app/persistence/history.py:2706-2726 | Starting over from empty tables with every live conversation gives the full projection |
| `ProjectionTables.UnnamedIsUnchanged` | app/persistence/history.py:1152-1159 | A conversation that no work row between two revisions names has the same entities and coverage at both |
| `ProjectionFrames.CommitIsNamed` | app/persistence/history.py:1529-1537 | The work row written with a commit names everything the commit changed in the projected content; a commit that reports no change leaves that content as it was |
| `ProjectionFrames.DeltaIsNamed` | app/persistence/history.py:1440-1537 | The same for a single delta, with its kind and its conversation |
| `ProjectionSlot.SlotTables.ProcessConversationIds` | app/persistence/history.py:2341-2400 | One batch of conversations, statement by statement (delete, provisional summaries, entities, final summaries), equals the replay of that batch |
| `ProjectionSlot.SlotTables.ProcessAll` | app/persistence/history.py:2706-2766 | The loop over batches of 64 equals one replay of all the conversations |
| `ProjectionSlot.SlotTables.ProjectMessages` | app/persistence/history.py:2215-2257 | The loop over batches of 256 messages inserts exactly the rows of all selected messages |
| `ProjectionSlot.SlotTables.ProjectConversationEntities` | app/persistence/history.py:2188-2257 | The rows of the given live conversations and of all their live messages are inserted, and no plain insert meets an existing key |
| `ProjectionSlot.SlotTables.DeleteConversations` | app/persistence/history.py:2091-2112 | Exactly the rows of the given conversations are removed from all six tables |
| `ProjectionSlot.SlotTables.InsertMaterial` | app/persistence/history.py:2115-2185 | Analyses, nodes and edges of a batch are entered; an analysis must be new and an edge needs both of its nodes |
| `ProjectionSlot.SlotTables.WriteConversationSummaries` | app/persistence/history.py:2260-2338 | Each live conversation gets the summary computed from the newest message now in the slot and its coverage (what that says: CoverageIsShown) |
| `ProjectionSlot.SlotTables.FindLatest` | app/persistence/history.py:2275-2290 | The newest message of a conversation, by time and then identifier |
| `ProjectionSlot.SlotTables.CollectTouched` | app/persistence/history.py:2669-2704 | The temporary table holds the conversations the work rows touch, each marked for rebuilding if any of its rows is not coverage work |
| `ProjectionSlot.SlotTables.ReplayWork` | app/persistence/history.py:2728-2766 | Touched conversations are replayed and, if the work contains global coverage, every live summary is refreshed |
| `ProjectionSlot.SlotTables.StartOver` | app/persistence/history.py:2706-2726 | Clearing the slot and processing every live conversation leaves the replay of everything onto empty tables |
| `ProjectionSlot.SlotTables.Build` | app/persistence/history.py:2632-2800 | The whole transaction on the slot leaves exactly the specified tables, account-level analytics included |
| `ProjectionSlot.ProcessIsReplay` | app/persistence/history.py:2341-2400 | Deletion, insertion and rewriting compose to a replay |
| `ProjectionSlot.ReplayMore` | app/persistence/history.py:2706-2766 | Two batches of disjoint rebuilds compose to one |
| `ProjectionSlot.BatchIsReplay` | app/persistence/history.py:2341-2400 | The provisional summaries, needed as parents of message rows, do not survive the batch |
| `ProjectionBuild.Project` | app/persistence/projection_pipeline.py:107-209 | The pipeline yields one node for every conversation and one analysis, one node and one edge for every message, each in the order of its identifier whatever order they are passed in, and every edge has both of its nodes |
| `ProjectionProtocol.NextKeepsInv` | app/persistence/history.py:2498-2856 | Every step of the two-slot protocol, a crash included, keeps its invariant |
| `ProjectionProtocol.DecideIsSound` | app/persistence/history.py:2502-2606 | The choice between doing nothing, finishing a committed activation and building is right: a build goes to the inactive slot from the base its tables really have |
| `ProjectionProtocol.IngestCanonical` | app/persistence/history.py:1152-1159 | A canonical commit appends one revision and exactly one work row that frames it |
| `ProjectionProtocol.WaitingKeepsInv` | app/persistence/history.py:2031-2088 | Activating a committed slot completes exactly the work it covers, replaces older pending intents and keeps the invariant |
| `ProjectionGuarantees.ReadersNeverSeeAMix` | app/persistence/history.py:1838-1893 | For any interleaving between the two reads of a reader, it gets nothing or the complete projection of the revision its authority names |
| `ProjectionGuarantees.ReadersNeverGoDark` | app/persistence/history.py:1838-1893 | Once a generation has been activated, a slot is readable in every later state |
| `ProjectionGuarantees.ActiveSlotIsNeverWritten` | app/persistence/history.py:2583-2592 | No step changes the slot readers are on, and only an activation changes what they are pointed to |
| `ProjectionGuarantees.ViewRisesByOne` | app/persistence/history.py:2031-2088 | An activation raises the view revision by exactly one and makes the waiting slot readable; no other step moves it |
| `ProjectionGuarantees.CompletedWorkIsCovered` | app/persistence/history.py:2056-2068 | Completed work is always exactly the prefix of revisions that the active slot covers |
| `ProjectionGuarantees.RecoveryConverges` | app/persistence/history.py:2550-2577 | From any crash state of any run, one undisturbed catch-up leaves the readable projection at the canonical revision, no open work and no pending intent |
| `ProjectionRepository.Repository.CatchUp` | app/persistence/history.py:2498-2856 | The stored fields after the call are those of the protocol after one undisturbed catch-up, and that state is caught up |
| `ProjectionRepository.Repository.Decide` | app/persistence/history.py:2502-2606 | The decision computed from the stored rows is the one of the protocol |
| `ProjectionRepository.Repository.ActivateCommittedProjection` | app/persistence/history.py:2031-2088 | The activation transaction on the stored rows is the one of the protocol; it refuses to regress the view |
| `ProjectionRepository.Repository.CommitGeneration` | app/persistence/history.py:2632-2846 | The projection commit stores a fresh generation with exactly the built tables |
| `ProjectionRepository.Repository.FindActiveSlot` | app/persistence/history.py:2524-2548 | The slot whose generation is the activated one of the current view |
| `ProjectionMeaning.FullShows` | app/persistence/history.py:2188-2338 | Read against the canonical tables: a summary, a text row, an analysis and a node for exactly the live chats and messages with their own values, one edge from each message's conversation to it, the newest message by time and identifier, the counts by direction, and the coverage of each conversation |
| `ProjectionMeaning.CoverageIsShown` | app/persistence/history.py:1973-1997 | A conversation is unknown exactly if no generation is active, complete exactly if its member row in the active generation has a history start and a reconciled head, and partial otherwise, with the reason; each date is the one the member row or the close of the generation carries |
| `ProjectionMeaning.LatestIsShown` | app/persistence/history.py:2275-2290 | The newest message shown is a live message of the conversation and no other live one is later, or later in the order of identifiers at the same time; there is none only if the conversation has no live message |
| `ProjectionMeaning.CountsAreShown` | app/persistence/history.py:2767-2810 | The account counts are the numbers of live chats, live messages and live inbound and outbound messages |
| `ProjectionMeaning.EverySlotShows` | app/persistence/history.py:2498-2856 | Every committed slot of every run shows, in this sense, the account as it was when the revision it claims was its newest |
| `ProjectionMeaning.ReadersAreShown` | app/persistence/history.py:1838-1893 | Whatever happens between the two reads of a reader, what it gets shows the account of the authorised revision |
| `ProjectionMeaning.CompleteIsReconciled` | app/persistence/history.py:1973-1997 | A conversation shown as complete is a member of the active generation with a history start and a head reconciled at or past its as_of |
| `ProjectionMeaning.CompleteShowsItsMembers` | app/persistence/history.py:1973-1997 | Where the active generation is complete every live member is shown as complete, with its reconciled head as the latest time |
| `SnapshotMerge.SnapshotMergeRefinesFold` | app/persistence/history.py:655-943 | The set-based merge raises exactly when merging record by record raises, chats first and then messages in any order within a kind, and otherwise gives the same entities, tombstones, coverage and changed flag |
| `SnapshotMerge.ChatsRefineFold` | app/persistence/history.py:694-836 | The chat half of that refinement |
| `SnapshotMerge.MessagesRefineFold` | app/persistence/history.py:838-942 | The message half of that refinement |
| `HistoryTables.CanonicalTables.MergeStagedSnapshotEntities` | app/persistence/history.py:655-943 | The statements, run one after the other on the tables, come to the specified set-based merge, with its raises |
| `HistoryTables.CanonicalTables.MergeStagedChatTables` | app/persistence/history.py:694-836 | The chat statements in their order: two conflict checks, tombstones, deletions, upserts, coverage |
| `HistoryTables.CanonicalTables.MergeStagedMessageTables` | app/persistence/history.py:838-942 | The message statements in their order: three conflict checks, inserts, tombstones, deletions |
| `HistoryTables.CanonicalTables.MergeChat` | app/persistence/history.py:473-528 | The branches on the stored row come to the specified last-writer-wins merge, with both conflicts |
| `HistoryTables.CanonicalTables.MergeMessage` | app/persistence/history.py:530-572 | The branches come to the specified immutable insert, with the orphan and the conflict error |
| `HistoryTables.CanonicalTables.DeleteChat` | app/persistence/history.py:614-652 | A tombstone if there is none, the chat and all its messages marked as deleted |
| `HistoryTables.CanonicalTables.DeleteMessage` | app/persistence/history.py:614-652 | The same for one message, with both tombstone conflicts |
| `HistoryTables.CanonicalTables.InvalidateCompleteCoverage` | app/persistence/history.py:575-611 | The complete active generation is superseded exactly if the conversation is not one of its members |
| `HistoryTables.CanonicalTables.ApplyCoverage` | app/persistence/history.py:1226-1405 | Each kind of evidence changes the coverage tables as specified, with the same errors |
| `HistoryTables.CanonicalTables.ApplyStarted` | app/persistence/history.py:1230-1269 | A new generation supersedes those in progress and becomes active, only under applied and confirmed settings |
| `HistoryTables.CanonicalTables.ApplyClosed` | app/persistence/history.py:1364-1396 | A generation closes as complete exactly if its inventory is frozen and no member lacks evidence (both directions: CloseIsExact) |
| `HistoryTables.CanonicalTables.ApplySnapshot` | app/persistence/history.py:1119-1144 | Entities first, then the evidence rows in order; the first violation ends it |
| `HistoryTables.CanonicalTables.UpdateSettings` | app/persistence/history.py:1677-1703 | A new revision drops the bound config; a stale expectation raises |
| `HistoryTables.CanonicalTables.BindConfig` | app/persistence/history.py:1706-1731 | A config is bound to the current revision once; binding it again is a no-op, another one raises |
| `HistoryTables.CanonicalTables.MarkApplied` | app/persistence/history.py:1733-1754 | Only the confirmation of the bound config makes the desired state effective |
| `EntityOutcomes.MessageOutcome` | app/persistence/history.py:530-572 | A message is refused exactly if, not being tombstoned, its chat is not live or another live message has its identifier; accepted, it is what is read from then on unless it was removed before, and no other row changes |
| `EntityOutcomes.RemovalOutcome` | app/persistence/history.py:614-652 | Removing a message is refused exactly if the row or an earlier removal names another chat; otherwise a tombstone of that chat is on record and no live row |
| `EntityOutcomes.ChatOutcome` | app/persistence/history.py:473-528 | A chat record is refused exactly if it contradicts the live one in its platform user or at the same time; it is stored exactly if it is new or beats the live one, and what is live afterwards is not beaten by it |
| `EntityOutcomes.ChatDeletionOutcome` | app/persistence/history.py:614-652 | Deleting a chat leaves its tombstone, no live row of it and no live message of it, and every other row as it was |
| `EntityOutcomes.UpsertCoverageOutcome` | app/persistence/history.py:575-611 | A chat that won a write supersedes the active generation exactly if that is complete without it; all other coverage stays |
| `CoverageOutcomes.EvidenceOutcome` | app/persistence/history.py:1226-1405 | Evidence is accepted exactly if it is on record or fits the state of its generation; only then it is taken, by field, and afterwards it is on record |
| `CoverageOutcomes.CloseIsExact` | app/persistence/history.py:1364-1396 | A close that is news leaves the generation complete exactly if its inventory was frozen and each of its members had a history start and a reconciled head, and partial otherwise; the last complete generation moves exactly then, and the active one is this |
| `CoverageOutcomes.UpdateOutcome` | app/persistence/history.py:1677-1703 | An update with the revision in force takes on the consent, creator and desired state given, raises the revision and unbinds the config; any other raises |
| `CoverageOutcomes.BindOutcome` | app/persistence/history.py:1706-1731 | Binding succeeds exactly for the revision in force without another config bound to it |
| `CoverageOutcomes.AppliedOutcome` | app/persistence/history.py:1733-1754 | Confirming the bound config makes the desired state effective at the revision in force; any other confirmation changes nothing |
| `CoverageOutcomes.HandshakeOpens` | app/persistence/history.py:1241-1262 | After an update to running under some consent, its binding and its confirmation, a new generation can start under that consent |
| `ChatConvergence.ChatsConverge` | app/persistence/history.py:473-528 | Any two non-raising orders of the same chat upserts and deletes, from any streams, end with the same live record, if the placeholders that compete for the chat are alike |
| `ChatConvergence.ConvergeExactly` | app/persistence/history.py:473-528 | Without that assumption, two orders agree exactly if the chat is deleted, or a full record competes, or the same record came first |
| `ChatConvergence.LiveChatIsExpected` | app/persistence/history.py:473-528 | What they end with: nothing if deleted, else the full record with the greatest upstream time, else a placeholder |
| `ChatConvergence.DifferentPlaceholdersDoNotConverge` | app/persistence/history.py:504-517 | Two different placeholders for one chat, in two orders, end differently |
| `EntityMerge.EntityStepKeepsInvariant` | app/persistence/history.py:473-652 | Every entity step keeps the table invariant, undoes no deletion and no message content, and leaves the live view alone if it reports no change |
| `CanonicalRun.EntitiesOverRuns` | app/persistence/history.py:530-652 | Over all snapshot and delta runs live messages have live parents, tombstoned entities stay gone and live content never changes |
| `CanonicalRun.OpStep` | app/persistence/history.py:1084-1551 | The same for every accepted operation, with the coverage rules and the meaning of a false changed flag |
| `CanonicalRun.RunKeeps` | app/persistence/history.py:1084-1551 | The invariant and the onward relation over any run |
| `CanonicalRun.AcceptedEvidenceStaysIdempotent` | app/persistence/history.py:1226-1405 | An evidence item once accepted is a no-op in every later state of a run, also after its generation is closed or superseded |
| `CanonicalRun.CompleteCoverageIsComplete` | app/persistence/history.py:1364-1396 | A complete generation, and the last complete one, has a frozen inventory and every member a history start and a head at or past as_of; at most one generation is in progress and it is the active one |
| `CanonicalRun.NoOutsiderWroteSinceClose` | app/persistence/history.py:575-611 | While the active generation is complete no chat outside its members has won a write since |
| `CanonicalRun.ClosedNeverReopens` | app/persistence/history.py:1295-1393 | A generation that is closed or superseded never gets back in progress |
| `SettingsHandshake.StartedOnlyUnderConfirmedSettings` | app/persistence/history.py:1241-1262 | Whenever a generation starts, the config bound to the settings revision in force was bound and then confirmed after that revision was made, even if a config revision string is reused |
| `SettingsHandshake.RequiredConfigWasBound` | app/persistence/history.py:1706-1731 | The required config in force was bound by some operation of the run to the revision in force |
| `SettingsHandshake.EffectiveConfigWasConfirmed` | app/persistence/history.py:1733-1754 | The effective config and its settings revision stem from one confirmation in the run |
| `IngestGuarantees.DeliveryIsGapFree` | app/persistence/history.py:1414-1551 | For any delivery sequence, every sequence number up to the checkpoint has exactly one raw event or lies at or below the boundary of a committed snapshot |
| `IngestGuarantees.CheckpointNeverFalls` | app/persistence/history.py:1414-1551 | The checkpoint never falls, and no stored event or chunk ever changes |
| `IngestGuarantees.AccountIsFoldOfAccepted` | app/persistence/history.py:1414-1551 | The account equals applying only the accepted writes in order, and each stored event is among them exactly once |
| `IngestGuarantees.OnlyAcceptedWrites` | app/persistence/history.py:1414-1470 | A duplicate, gap, rejected or failing request writes no entity, event, chunk or checkpoint |
| `IngestGuarantees.AcceptedDeltaIsNext` | app/persistence/history.py:1463-1551 | An accepted delta is the next sequence number under a new event identifier, and its change is merged with its own origin (what that leaves is AcceptedDeltaIsTaken) |
| `IngestOutcomes.DeltaAnswer` | app/persistence/history.py:1414-1470 | Each of the five answers to a delta as an if-and-only-if over the checkpoint, the stored events and what the account refuses; a valid next delta is accepted |
| `IngestOutcomes.AcceptedDeltaIsTaken` | app/persistence/history.py:1471-1551 | After an accepted delta the message is live unless it was removed before, the removal has its tombstone and no live row, the chat is live in this or a better version, or the evidence is on record; exactly one raw event and the checkpoint move with it |
| `IngestOutcomes.BeginAnswer` | app/persistence/history.py:262-323 | Each answer to a begin as an if-and-only-if: repeated with the same or with other metadata, beside another upload, or opened |
| `IngestOutcomes.AcceptedBeginOpens` | app/persistence/history.py:262-323 | An accepted begin opens one empty upload at the checkpoint, and registers an unknown stream under a new epoch |
| `IngestOutcomes.ChunkAnswer` | app/persistence/history.py:325-383 | Each answer to a chunk as an if-and-only-if: too large, unknown, repeated, conflicting, out of order, of an earlier kind, with repeated keys, or stored |
| `IngestOutcomes.AcceptedChunkIsStored` | app/persistence/history.py:384-453 | An accepted chunk is stored under its index and counted by its kind, and nothing else changes |
| `IngestOutcomes.CommitAnswer` | app/persistence/history.py:1084-1144 | A commit is accepted exactly if the upload is complete as announced, the checkpoint is where it began, and no record is refused |
| `IngestOutcomes.UnreadyAnswer` | app/persistence/history.py:1103-1117 | A commit that is not ready is answered by what is missing |
| `IngestOutcomes.SettingsOutcome` | app/persistence/history.py:1677-1754 | A settings call changes the settings as stated, and nothing else |
| `SnapshotOutcomes.CommitTakesItsRecords` | app/persistence/history.py:1119-1144 | An accepted commit has taken every record of its chunks, one after the other, each with the effect its kind has; a failing one meets a record that is refused and keeps nothing |
| `SnapshotOutcomes.ChunksAreTaken` | app/persistence/history.py:655-943 | Merging the chunks comes to such a run of changes, up to the first that is refused, and reports a change exactly if one of them was news |
| `SnapshotOutcomes.AcceptedCommitWrites` | app/persistence/history.py:1144-1224 | What else an accepted commit writes: the checkpoint, the boundary and the state of the upload |
| `DeliveryOutcomes.DeltaStaysVisible` | app/persistence/history.py:1414-1551 | In every later state of a run an accepted message is live unless it was removed, a removal stands, a chat is live in this or a better version unless it was deleted, and evidence is on record |
| `DeliveryOutcomes.SnapshotStaysVisible` | app/persistence/history.py:1084-1224 | The same for every record of every stored chunk of an accepted snapshot |
| `DeliveryOutcomes.CloseOutcome` | app/persistence/history.py:1364-1396 | An accepted close that is news leaves its generation active, and complete exactly if all of its evidence is there |
| `DeliveryOutcomes.EvidencedCloseCompletes` | app/persistence/history.py:1364-1396 | Over runs: a generation whose evidence all came before its close is complete right after it |
| `IngestGuarantees.RetriedDeltaIsDuplicate` | app/persistence/history.py:1427-1439 | A delta that was stored is answered as a duplicate in every later state |
| `IngestGuarantees.RetriedChunkIsDuplicate` | app/persistence/history.py:341-355 | So is a chunk, also after its snapshot was committed |
| `IngestGuarantees.UploadsMatchTheirChunks` | app/persistence/history.py:325-453 | At most one upload of a stream is staging; the next index and the received counts match the stored chunks, whose kinds are in order |
| `IngestGuarantees.CommitAppliesItsChunks` | app/persistence/history.py:1084-1224 | An accepted commit applies exactly the chunks 0 to n-1, record by record, complete as announced, and moves the checkpoint to the announced sequence |
| `IngestGuarantees.CommittedAnswersDuplicate` | app/persistence/history.py:1103-1105 | Committing a committed upload again writes nothing |
| `IngestGuarantees.CheckpointRestsDuringUpload` | app/persistence/history.py:1106-1117 | Between an accepted begin and the accepted commit of its snapshot the checkpoint did not move |
| `IngestGuarantees.HandleKeepsApplied` | app/persistence/history.py:209-236 | Streams have epochs of their own, so events of different streams are never confused |
| `IngestRuns.HandleKeepsOk` | app/persistence/history.py:262-453 | Every request keeps the stream and account invariants |
| `HistoryRepository.HistoryRepository.BeginSnapshot` | app/persistence/history.py:262-323 | The transaction has exactly the specified effect and answer |
| `HistoryRepository.HistoryRepository.AddSnapshotChunk` | app/persistence/history.py:325-453 | The transaction has exactly the specified effect and answer; a repeated key leaves nothing behind |
| `HistoryRepository.HistoryRepository.CommitSnapshot` | app/persistence/history.py:1084-1224 | The transaction has exactly the specified effect and answer; a violation rolls everything back |
| `HistoryRepository.HistoryRepository.CommitDelta` | app/persistence/history.py:1414-1551 | The transaction has exactly the specified effect and answer; a violation rolls everything back (what it leaves: AcceptedDeltaIsTaken) |
| `HistoryRepository.InsertChats` | app/persistence/history.py:384-403 | Row-by-row inserts fail exactly if a key is repeated or taken, and otherwise stage every record |
| `HistoryRepository.InsertMessages` | app/persistence/history.py:404-425 | Row-by-row inserts fail exactly if a key is repeated or taken, and otherwise stage every record |
| `HistoryRepository.InsertEvidence` | app/persistence/history.py:426-435 | Row-by-row inserts fail exactly if an item is repeated, and otherwise append in order |
| `PathResults.FindPaths` | app/analytics/graph_store.py:428-525 | Reported paths are genuine, simple, within the hop limit, equally long and distinct; an unset flag means they are exactly all shortest paths, and none at any length if there are none; the flag is set exactly where the graph is too large for a limit on edges, visited nodes, hops or results, measured by distances from the source, with a sufficient and a necessary condition for the queue; the visited count is the number of nodes no farther than the target; the three errors are raised exactly when stated |
| `PathSearch.VisitLimitCuts` | app/analytics/graph_store.py:492-497 | A node is left out for want of visits only if more nodes than may be visited lie within one step of nodes the search has to expand |
| `PathSearch.QueueLimitCuts` | app/analytics/graph_store.py:492-497 | A node is left out for want of queue space only if two adjacent layers the search has to expand are together hold at least two nodes more than the queue may |
| `PathSearch.HopLimitCuts` | app/analytics/graph_store.py:481-487 | The hop limit cuts only if the target is not within it and some node has a shortest path one edge longer than it |
| `PathResults.UncutIsUnlimited` | app/analytics/graph_store.py:465-510 | A search that was not cut rules out each of these reasons, so no limit is passed over in silence |
| `PathResults.FoundIsBall` | app/analytics/graph_store.py:465-525 | A search that was not cut has found exactly the nodes no farther than the target, or everything within reach if the target is not |
| `PathSearch.TraversalAdjacency` | app/analytics/graph_store.py:841-887 | Only steps along eligible edges are entered, all of them unless flagged, and the flag is set exactly if there are more eligible edges than may be examined |
| `PathSearch.BreadthFirst` | app/analytics/graph_store.py:465-510 | The search ends with sound distances and predecessors, complete below the target depth unless flagged; the visited count never exceeds its limit, so the branch that tests it is dead |
| `PathSearch.RecordedIsSimpleWalk` | app/analytics/graph_store.py:486-505 | Every path along recorded predecessors is a simple walk as long as the target is deep |
| `PathSearch.NoShorterWalk` | app/analytics/graph_store.py:465-510 | In an unflagged search no walk reaches the target in fewer steps than its depth |
| `PathSearch.ShortestIsRecorded` | app/analytics/graph_store.py:486-505 | In an unflagged search every walk of minimal length is recorded |
| `PathSearch.ReconstructShortestPaths` | app/analytics/graph_store.py:528-559 | Depth-first reconstruction yields the first max_results completions in ascending order, and the flag says whether some are missing |
| `PathResults.CompletionsAreRecorded` | app/analytics/graph_store.py:528-559 | The completions are exactly the recorded paths, each once |
| `RootSlice.BoundedRootSubgraph` | app/analytics/graph_store.py:722-812 | The slice is within its node and edge limits, closed under endpoints and within max_hops of the root by selected edges; the flag is set exactly if, within the hops allowed, some distance holds more nodes, a wider layer or more edges than a limit allows, or if the graph goes on behind them; short of such a limit the slice is everything within those hops, and unflagged it is the whole connected component of the root |
| `RootSlice.GrowLayer` | app/analytics/graph_store.py:740-800 | The loop over the sorted edges at the frontier, stopped by the edge limit, comes to looking at each edge in turn |
| `RootSlice.ScanEnds` | app/analytics/graph_store.py:740-790 | Looking at each edge in turn adds the next layer: everything one hop farther unless cut, and a cut means that a limit of the graph itself was reached |
| `RootSlice.WholeIsExact` | app/analytics/graph_store.py:791-812 | A selection with nothing left at it has met no limit within the hops allowed |
| `RootSlice.AlgorithmExtensionExists` | app/analytics/graph_store.py:889-923 | True exactly if an eligible unselected edge touches the frontier |
| `RootSlice.ExhaustedIsComponent` | app/analytics/graph_store.py:722-812 | A selection with no edge left at its nodes is the connected component of its root |
| `SearchScope.FoundByField` | app/analytics/graph_store.py:841-947 | By field: every step of a reported path is along a stored edge of the account, of an allowed and asked-for relation, dated within the window with both ends included or undated where that is allowed, between nodes of allowed kinds that are dated likewise, from source to target unless direction does not matter; uncut, the paths are exactly the shortest such ones |
| `SearchScope.SliceByField` | app/analytics/graph_store.py:722-812 | The same for the edges of a slice and the nodes it brought in; uncut, it holds every such edge at its nodes |
| `SearchScope.NearByField` | app/analytics/graph_store.py:722-812 | The nodes within so many hops are those a chain of such edges leads to |
| `GraphHistory.RunKeepsSound` | app/analytics/graph_store.py:1030-1190 | Over every run at most one generation per partition is active and its pointer resolves to a snapshot, the flat tables agree with the generations, edge endpoints exist and retired generations per partition never exceed the retention |
| `GraphHistory.RunGoesOnward` | app/analytics/graph_store.py:1084-1331 | Over every run a validated generation never changes, statuses only move forward, a dropped identifier never returns and an active pointer never becomes empty |
| `GraphHistory.ActivePointerResolves` | app/analytics/graph_store.py:1340-1359 | A visible active pointer yields the very graph its builder validated, closed under endpoints and of that partition |
| `GraphHistory.ApplyKeepsSound` | app/analytics/graph_store.py:1058-1331 | The same for each single operation, also when it raises after writing |
| `GraphHistory.CollectRestoresBound` | app/analytics/graph_store.py:1166-1190 | With one retired generation too many, collection restores the bound by dropping the oldest identifier |
| `GraphRepository.InMemoryGraphRepository.BeginGeneration` | app/analytics/graph_store.py:1058-1082 | The state after the call is the specified one |
| `GraphRepository.InMemoryGraphRepository.Activate` | app/analytics/graph_store.py:1084-1108 | The state after the call is the specified one, with the four errors |
| `GraphRepository.InMemoryGraphRepository.DiscardGeneration` | app/analytics/graph_store.py:1110-1120 | The state after the call is the specified one; only a live lease of the owner may discard |
| `GraphRepository.InMemoryGraphRepository.ReclaimExpiredGeneration` | app/analytics/graph_store.py:1122-1131 | The state after the call is the specified one; only an expired lease is reclaimable |
| `GraphRepository.InMemoryGraphRepository.CollectLocked` | app/analytics/graph_store.py:1166-1190 | Sorting and slicing the retired generations drops exactly the specified ones, with all their records |
| `GraphRepository.InMemoryGraphRepository.ReadSnapshot` | app/analytics/graph_store.py:1349-1359 | The snapshot of the visible active generation |
| `GraphRepository.InMemoryGraphGenerationWriter.UpsertNode` | app/analytics/graph_store.py:1214-1229 | Both tables are written, under the lease, with identity conflicts; the last lease check may raise after the write |
| `GraphRepository.InMemoryGraphGenerationWriter.UpsertEdge` | app/analytics/graph_store.py:1231-1251 | Both tables are written, under the lease, with referential integrity and identity conflicts |
| `GraphRepository.InMemoryGraphGenerationWriter.Replace` | app/analytics/graph_store.py:1253-1283 | The generation and its records in the flat tables are replaced together, after validation of both lists (by record: ReplaceOutcome) |
| `GraphRepository.InMemoryGraphGenerationWriter.Refresh` | app/analytics/graph_store.py:1285-1291 | The lease is extended, under the lease |
| `GraphRepository.InMemoryGraphGenerationWriter.Validate` | app/analytics/graph_store.py:1293-1312 | The build is frozen into a snapshot and the writer dies |
| `GraphRepository.InMemoryGraphGenerationWriter.Discard` | app/analytics/graph_store.py:1314-1320 | The build is retired and the writer dies; a dead writer raises |
| `GraphOutcomes.ReplaceOutcome` | app/analytics/graph_store.py:1253-1283 | A replacement is done exactly for a live writer with its lease, records of its own partition that do not contradict each other, and edges with both endpoints; the generation then holds exactly these records, and nothing else of it changed |
| `GraphOutcomes.UpsertNodeOutcome` | app/analytics/graph_store.py:1214-1229 | A node is stored exactly if it is of the partition and the stored one is not of another identity; it answers whether there was one |
| `GraphOutcomes.UpsertEdgeOutcome` | app/analytics/graph_store.py:1231-1251 | An edge is stored exactly if it is of the partition, has both endpoints and the stored one does not join other nodes or by another relation |
| `GraphOutcomes.RefreshOutcome` | app/analytics/graph_store.py:1285-1291 | A refresh by a live writer lets the lease run its full length from now |
| `GraphOutcomes.ValidateOutcome` | app/analytics/graph_store.py:1293-1312 | A validation freezes exactly the records there are, and no write is possible after it |
| `GraphOutcomes.ActivateOutcome` | app/analytics/graph_store.py:1084-1108 | A validated generation becomes active exactly if its owner asks before the lease ends and names the pointer that is there; the one it replaces is retired |
| `GraphOutcomes.DiscardOutcome` | app/analytics/graph_store.py:1110-1120 | Giving up succeeds exactly for the owner of an inactive generation with its lease; only retired ones are collected with it |
| `GraphOutcomes.CollectOutcome` | app/analytics/graph_store.py:1166-1190 | A collection drops exactly the batch of retired generations that come after the newest ones it keeps, and nothing else |
| `GraphOutcomes.ReaderGetsWhatWasWritten` | app/analytics/graph_store.py:1253-1359 | Over runs: records replaced at one moment and validated later, with no write in between, are exactly what every reader of that generation gets from then on |
| `PublicationRuns.AtMostOneWins` | app/analytics/projection_store.py:345-440 | Of all generations ever published for an account no two expected the same active generation |
| `PublicationRuns.ActiveNeverMovesBack` | app/analytics/projection_store.py:631-651 | The active source revision never decreases, and the projection number strictly rises unless the projection is identical |
| `PublicationRuns.PointersAlwaysAgree` | app/analytics/projection_store.py:345-440 | The active pointers of the store and of the graph agree in every reachable state and resolve to a snapshot |
| `PublicationRuns.PublishIsAllOrNothing` | app/analytics/projection_store.py:345-452 | A publication that does not succeed leaves the active generation of every account as it was; one that succeeds makes exactly its own active |
| `PublicationRuns.FencedNeverActivates` | app/analytics/projection_store.py:528-530 | After a fence returned, no generation of that epoch becomes active |
| `PublicationRuns.VisibleIsPublishedLast` | app/analytics/projection_store.py:565-592 | A reader sees nothing, or the generation published last, made from the canonical state it asked about |
| `PublicationRuns.RunKeepsSound` | app/analytics/projection_store.py:155-530 | The store invariant over every interleaving of stage, publish, discard, open, revoke, fence and reclaim |
| `PublicationGuarantees.PublishKeepsSound` | app/analytics/projection_store.py:345-452 | One publication either extends the chain of activations by its generation or leaves pointers and history alone |
| `PublicationGuarantees.StageKeepsSound` | app/analytics/projection_store.py:276-343 | Staging, with its lease-fenced build and its clean-up, moves no pointer |
| `PublicationOutcomes.BuildOutcome` | app/analytics/projection_store.py:276-343 | Building an artifact's graph succeeds exactly if its records do not contradict each other and the lease lasts; the digest then agrees and the generation holds exactly these records |
| `PublicationOutcomes.StageOutcome` | app/analytics/projection_store.py:276-343 | Staging succeeds exactly if account, authority, replacement rule, epoch, digest, records and lease are as asked for; the candidate then waits, with the artifact's own graph, for the pointer that was there |
| `PublicationOutcomes.PublishOutcome` | app/analytics/projection_store.py:345-440 | A publication succeeds exactly if the candidate, the ledger, the epoch, the pointer and each of the three readings of the canonical state are as asked for |
| `PublicationOutcomes.PublishedIsActive` | app/analytics/projection_store.py:345-440 | After a success the pointer of the account, in store and graph, leads to the candidate; no other account's pointer moves |
| `PublicationOutcomes.FailedPublication` | app/analytics/projection_store.py:345-452 | A failed publication leaves its candidate as it is if it fails before the ledger is asked, waiting with a reserved entry if the entry could not be completed, and otherwise retired with its graph given up while the lease lasts; no pointer moves |
| `PublicationOutcomes.VisibleOutcome` | app/analytics/projection_store.py:565-592 | A reader sees the active candidate exactly if the canonical identity it observes, and the one it requires, is the one the candidate was made from and its ledger entry is completed |
| `PublicationOutcomes.VisibleIsItsOwnGraph` | app/analytics/projection_store.py:565-592 | In any run what a reader sees leads to a graph that holds exactly the nodes and edges of the artifact it sees |
| `PublicationOutcomes.StagedIsPublished` | app/analytics/projection_store.py:276-440 | A candidate staged and then published without disturbance is what readers of that canonical state see |
| `PublicationOutcomes.DiscardCandidateOutcome` | app/analytics/projection_store.py:454-471 | Giving up a candidate succeeds exactly while it waits, under its lease and with the ledger; it is then retired or gone, and no pointer moves |
| `PublicationOutcomes.EpochOutcome` | app/analytics/projection_store.py:482-530 | Opening makes an epoch usable for its owner; only owner and capability revoke it, which closes and fences it |
| `ProjectionStore.InMemoryAnalyticsProjectionStore.StageArtifact` | app/analytics/projection_store.py:276-343 | The state and the answer are the specified ones |
| `ProjectionStore.InMemoryAnalyticsProjectionStore.PublishGeneration` | app/analytics/projection_store.py:345-452 | The state and the answer are the specified ones, the clean-up of a failed publication included |
| `ProjectionStore.InMemoryAnalyticsProjectionStore.DiscardGeneration` | app/analytics/projection_store.py:454-471 | The state and the answer are the specified ones |
| `ProjectionStore.InMemoryAnalyticsProjectionStore.CollectLocked` | app/analytics/projection_store.py:690-705 | Sorting and slicing the retired candidates drops exactly the specified ones |
| `ProjectionStore.InMemoryAnalyticsProjectionStore.RequireAuthorityLocked` | app/analytics/projection_store.py:553-563 | Without a reader the remembered identity must not move backwards; with one, it must be the expected identity |
| `ProjectionStore.InMemoryAnalyticsProjectionStore.OpenPublicationEpoch` | app/analytics/projection_store.py:482-501 | The state and the answer are the specified ones |
| `ProjectionStore.InMemoryAnalyticsProjectionStore.RevokePublicationEpoch` | app/analytics/projection_store.py:503-526 | Revoking also fences; a wrong owner or capability changes nothing |
| `ProjectionStore.InMemoryAnalyticsProjectionStore.FencePublicationEpoch` | app/analytics/projection_store.py:528-530 | The epoch is fenced |
| `SchedulerRuns.NoRevisionLost` | app/analytics/scheduling.py:583-682 | A revision requested of admitted work stays among its requests until a drain removes the work, and then an available revision at least as large, or a failure carrying the largest request, is on record |
| `SchedulerRuns.StepCovers` | app/analytics/scheduling.py:583-682 | The same for every single step of any interleaving while the scheduler is open |
| `SchedulerRuns.FinishCovers` | app/analytics/scheduling.py:644-682 | Whatever capacity the outcome tables have, the newest entry is kept |
| `SchedulerRuns.OneDrainPerAccount` | app/analytics/scheduling.py:583-592 | While the scheduler is open at most one drain runs per account and the branch for foreign work is unreachable |
| `SchedulerRuns.WorkIsHeld` | app/analytics/scheduling.py:567-576 | Admitted work is always queued or being drained |
| `SchedulerRuns.RequestIsRemembered` | app/analytics/scheduling.py:454-511 | An admitted or coalesced request is among the requests of the work; a declined one had its answer already |
| `SchedulerRuns.BuildingCoversRequests` | app/analytics/scheduling.py:684-713 | While an account has work it is reported as building for no less than any request since admission |
| `SchedulerRuns.NothingPublishesAfterClose` | app/analytics/scheduling.py:262-274 | Once the state is sealed no publication starts any more |
| `SchedulerRuns.ApplyKeepsInv` | app/analytics/scheduling.py:454-682 | Every step keeps the invariant of queue, work table and drains |
| `SchedulerProgress.EligibleBecomesAvailable` | app/analytics/scheduling.py:583-682 | Whatever others do in between: a drain of an open scheduler whose candidate is at least as new as every request until the end is approved, published under its own epoch if that is still current, and if the publication succeeds its revision is reported as available and no failure is |
| `SchedulerProgress.AttemptBuilds` | app/analytics/scheduling.py:588-621 | An attempt is for the newest revision asked for when it began, and a build that returns a candidate leads to the check of it |
| `SchedulerProgress.CheckOutcome` | app/analytics/scheduling.py:622-629 | A candidate goes on exactly if it is at least as new as every request so far |
| `SchedulerProgress.EnterOutcome` | app/analytics/scheduling.py:262-274 | An approved candidate is published exactly if the scheduler is open and its epoch is the current one |
| `SchedulerProgress.FinishOutcome` | app/analytics/scheduling.py:644-682 | A published candidate as new as every request makes its revision available; otherwise a newer request starts the next attempt, and without one the failure of the newest request is put on record |
| `SchedulerProgress.FailureHasCause` | app/analytics/scheduling.py:644-682 | Over runs a failure goes on record only for a build or publication that failed, an epoch that changed, or a candidate older than a request |
| `SchedulerProgress.OnlyFinishFails` | app/analytics/scheduling.py:644-682 | No other step puts a failure on record |
| `SchedulerProgress.FirstAnswer` | app/analytics/scheduling.py:463-485 | Each answer of the first locked section as an if-and-only-if over the shared state |
| `SchedulerProgress.SecondAnswer` | app/analytics/scheduling.py:486-511 | Each answer of the second locked section as an if-and-only-if over the shared state |
| `SchedulerProgress.RequestOutcome` | app/analytics/scheduling.py:486-511 | An admitted account is queued last with a work object of its own; a coalesced request only raises the newest revision of the work there is |
| `SchedulerProgress.ReportOutcome` | app/analytics/scheduling.py:684-713 | Work under way is reported first, then a failure, then an available revision that is new enough |
| `SchedulerProgress.PopOutcome` | app/analytics/scheduling.py:567-576 | An idle worker of an open scheduler drains the account at the head of the queue |
| `SchedulerProgress.FinishLeavesOthers` | app/analytics/scheduling.py:644-682 | The end of a drain leaves the work of other accounts alone and their outcomes too, or drops the oldest for want of room |
| `SchedulerProgress.CloseOutcome` | app/analytics/scheduling.py:745-763 | Closing empties every shared table and ends the epoch; the drains run on |
| `SchedulerProgress.StorageFailureOutcome` | app/analytics/scheduling.py:354-362 | A storage failure ends the epoch and forgets what was available, for one account or for all, but no failure and no work |
| `SchedulerObject.InProcessProjectionScheduler.ScheduleOnce` | app/analytics/scheduling.py:463-485 | The first locked section of a request has exactly the specified effect and answer |
| `SchedulerObject.InProcessProjectionScheduler.ScheduleAgain` | app/analytics/scheduling.py:486-511 | The second locked section of a request has exactly the specified effect and answer |
| `SchedulerObject.InProcessProjectionScheduler.TakePending` | app/analytics/scheduling.py:567-576 | A worker takes the head of the queue with its work object |
| `SchedulerObject.InProcessProjectionScheduler.BeginAttempt` | app/analytics/scheduling.py:588-597 | The head of the drain loop has the specified effect |
| `SchedulerObject.InProcessProjectionScheduler.CheckEligible` | app/analytics/scheduling.py:622-629 | The eligibility check has the specified effect (which candidates go on: CheckOutcome) |
| `SchedulerObject.InProcessProjectionScheduler.EnterPublication` | app/analytics/scheduling.py:262-274 | The last check before publishing has the specified effect |
| `SchedulerObject.InProcessProjectionScheduler.FinishAttempt` | app/analytics/scheduling.py:649-682 | The foot of the drain loop has the specified effect, the trimming loop included |
| `SchedulerObject.InProcessProjectionScheduler.RecordAvailableLocked` | app/analytics/scheduling.py:526-532 | The entry becomes the newest and the oldest ones beyond the capacity are dropped |
| `SchedulerObject.InProcessProjectionScheduler.Seal` | app/analytics/scheduling.py:745-763 | The state-sealing part of closing empties the shared tables at once |
| `SchedulerObject.InProcessProjectionScheduler.Report` | app/analytics/scheduling.py:684-713 | The reported state is the specified one |

## Left out

- SQLite, WAL, pragmas, files, quarantine, reset, backup and migrations: only "a transaction is atomic and an exception rolls it back" is kept.
- Foreign keys and unique constraints beyond those stated (staging keys, event identifiers, nodes of edges): a delta whose membership row lacks its parent is not modelled.
- Stream membership tables, the `entity_conflicts` log, `live_ingest_state` and the identity check of a payload against its stream.
- SHA-256 and JSON: a hash is modelled as the record it covers, an opaque account reference as the account.
- Text identifiers and timestamps: integers in the order the code compares them by; the delta path parses datetimes and the snapshot path compares stored strings, so normalised timestamps are assumed.
- Pacing values of the history settings (window, page size, retries).
- `projection_work_applied`, the change log, observed ranges and `as_of` of account analytics, and the `degraded` status.
- Concurrent catch-ups of one account: one runner per account, fresh generation identifiers and one canonical read snapshot per run are assumed.
- ProjectionRepository.Repository.CatchUp: states one undisturbed run, without the snapshot it returns; interleavings with commits and crashes are covered by the steps of ProjectionProtocol.
- `neighborhood`, which breaks before adding the last node's edges when exactly `max_visited` nodes exist; `degree`, unrooted subgraphs, NetworkX centrality and communities.
- Wall-clock budgets and cancellation of graph searches: aborting adds no result.
- The sort of each node's adjacency: edges are entered in identifier order already, so it changes nothing.
- PathResults.FindPaths: how full the queue gets depends on the order nodes are found in, so for that one limit the flag has a sufficient condition and a necessary one instead of an exact one; `visited_count` is stated exactly for unflagged searches only.
- PathSearch.BreadthFirst: leaves out the branch on the visited count, which its assertion shows to be dead.
- The privacy rewriting of nodes and edges (`safe_graph_node`, `safe_graph_edge`), and the record counts and digests inside an artifact other than the graph digest.
- Aliasing: the object `validate_generation_owner` returns, and generations and work objects as shared references; they are values in a table indexed by identifier.
- The activation ledger: whether it reserves, completes, reconciles or reports an epoch open is a parameter of each call and may fail at any time. The in-memory and SQL ledgers are not part of this model.
- ProjectionStore.InMemoryAnalyticsProjectionStore.CollectLocked: the retention bound is not claimed for candidates, because the path of a failed publication does not collect.
- `replace`, `replace_artifact`, `clear` and `next_projection_generation` of the projection store, which are built from the modelled calls.
- The SQL twins of the graph and projection stores, with their threads and heartbeats.
- Liveness: worker launching, drains that run to their end, the recovery worker's retries, and a staged snapshot whose stream was moved on by a delta (every commit of it is rejected and nothing shown clears it).
- SchedulerRuns.NoRevisionLost: assumes that discarding a candidate raises only the errors the code catches and that a drain is cancelled only by closing.
- Complete coverage of chats that were never inventoried is not enforced by the code and not claimed.
- IngestGuarantees.CommitAppliesItsChunks: the next expected chunk index and the detail texts of answers are not modelled.
- Analyzers, metrics, API, tokens, extension and frontend.
