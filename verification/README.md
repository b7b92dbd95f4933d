# A verified model of the collaborative editor's sync protocol, broker and document service

The repository is a collaborative text editor: a message proxy (Rust) that feeds the
operations of websocket clients into Postgres and broadcasts them, and a document service
(Go) that keeps documents, guests and permissions. This project models the parts of it in
which the difficulty lies and proves what they are for.

| file | what it models |
|---|---|
| `OpLog.dfy` | the operations of one topic: rows keyed by an inclusive upper clock, the stored maximum, the selection of rows for a state vector |
| `SyncProtocol.dfy` | the sync protocol as a transition system: any number of clients and of live and stale connections, one step per await of each reader and writer task |
| `SyncInvariant.dfy`, `SyncReaderSteps.dfy`, `SyncWriterSteps.dfy`, `SyncClientSteps.dfy` | its inductive invariant, and that every step keeps it |
| `SyncTheorems.dfy` | what follows for whole runs |
| `SyncExactness.dfy` | what each message and each write of a run holds, element by element, traced back to when it was read |
| `Paths.dfy`, `SyncRecovery.dfy` | from every reachable state, reconnecting clients and running tasks can bring the system to rest |
| `Multirange.dfy` | PostgreSQL's `int8multirange` (manual sections 8.17.7 and 9.20) as sorted, disjoint, non-adjacent ranges, with the merging and containment loops, against plain sets of integers |
| `Repository.dfy` | the `operations` and `deletions` tables, the four statements on them, and the integer and range conversions |
| `Handlers.dfy`, `ReadLoop.dfy` | parsing, persisting and broadcasting an update, the server's two handshake messages, and the reader's loops |
| `DocumentClient.dfy` | the client: document, handshake flags, answers |
| `Broker.dfy`, `BrokerInvariant.dfy`, `BrokerTheorems.dfy` | the broker's topic cache as a transition system, one step per lock region or await, its invariant, and its theorems |
| `DocumentTables.dfy`, `DocumentStore.dfy` | the three tables of the document service: requests as functions, and the repository and service as classes that run statement by statement with rollback |
| `DocumentEffects.dfy` | what a request does to the rows, row by row, and when it is refused, apart from the functions that compute it |
| `Keyset.dfy`, `ShiftedKeyset.dfy`, `Paging.dfy` | keyset paging over a changing relation, paging with a cursor that carries another time than the sort key, and the two list operations |
| `PageSpec.dfy` | what a page shows, row by row, apart from the queries |
| `CursorOffset.dfy` | the terminal client's row/column and offset maps |

How the parts are tied together. The transition system of the sync protocol uses one function
per table operation and per client action. `Repository.PgRepo` and `Handlers.WebsocketHandler`
are proved to act on a topic's log and deletion set as those functions do
(`Repository.PutIsInsert`, `Handlers.UpsertIsProtocolStep`, the `ensures` of
`PersistAndBroadcastUpdate`); `DocumentClient.DocumentState` is proved to act on its client
record as the protocol's client functions do; `ReadLoop.DrainIsProcessed` ties the
protocol's reader step to the two loops of `read`.

What an update is: the clocks `[lo, hi)` of its sender, and a set of deleted elements of
anybody. The inner encoding of updates belongs to the CRDT library.

What the code does that its comments do not say:

- The novelty flag of a deletion write is not exactly growth of the stored deletions: for a
  client without a row, a list of empty ranges inserts an empty row and reports `true`.
  `Repository.NovelExactly` states the exact condition, `Repository.EmptyRangeIsReportedNovel`
  is an input. Ranges of real updates are not empty.
- Listing permissions by `last_modified_at` can skip rows, because the returned
  `LastModifiedAt`, and with it the next cursor, is filled with the creation time.
  `Paging.PermissionsComplete` states exactly when nothing is skipped,
  `ShiftedKeyset.SkipsExactly` which rows are, and `ShiftedKeyset.SkippingExample` is an input.
- No statement changes a document's `last_modified_at`, not even `UpdateDocument`, so the two
  sort orders of documents coincide (`DocumentTables.TimesInHistory`).
- The repository would grant ownership twice; the refusal in the service is what keeps one
  owner per document (`DocumentTables.UpsertValid`).

- An update whose own clocks were in several runs would be stored as if it held the clocks
  between them too, since only its last clock is kept. `Handlers.PayloadExactly` states that a
  single run is exactly what makes that right.

Assumptions:

- A client keeps its document, under one id, for as long as it lives, and edits while it has a
  current connection.
- The own clocks that an update reports are one run and all of the update's own clocks. The keys
  of the rows, and with them the absence of holes, rest on it.
- A connection joins the channel of those who listen, if anybody does. This guard of `Connect` in
  `SyncProtocol` is what the broker guarantees (`BrokerTheorems.AtMostOneLive`,
  `BrokerTheorems.ReceiverIsLive`, `BrokerTheorems.SubscribersShareTheChannel`); it is carried
  over from the one transition system to the other by assumption.
- The clock of the tables does not run backwards (only where times are compared), and ids of
  guests are not reused (only in `DocumentTables.GuestUpdateIsAtomic`).
- Each statement, and each transaction of the document service, is atomic.

## Model

| member | source | states |
|---|---|---|
| `OpLog.InsertKeepsNoHoles` | message_proxy/src/repository/postgres.rs:115-118 | insert-or-ignore of a payload that starts at or below the expected offset leaves a log without holes, whether the row is new, below the maximum, or in conflict |
| `OpLog.StepTwoComplete` | message_proxy/src/repository/postgres.rs:175-187 | for any state vector the selected rows carry every stored clock at or above the vector |
| `OpLog.StepTwoPrecise` | message_proxy/src/repository/postgres.rs:175-187 | a row is selected exactly if it holds a clock at or above the vector |
| `SyncTheorems.RunInv` | message_proxy/src/handlers/read.rs:195-272 | the inductive invariant holds in every state of every run |
| `SyncTheorems.LogIsAPrefix` | message_proxy/src/handlers/read.rs:204-233 | no holes: with any number of racing and stale readers, a client's stored clocks are exactly those up to its stored maximum, and none it has not created |
| `SyncTheorems.DroppingIsLossless` | message_proxy/src/handlers/read.rs:210-232 | whenever an insert is skipped by the comparison or by the key conflict, every clock of the message is already stored |
| `SyncTheorems.NothingIsForgotten` | message_proxy/src/bin/mpbench.rs:187-204 | once a client has answered on its current connection, each clock it created and each deletion it made is stored or queued there |
| `SyncTheorems.DrainedIsUpToDate` | message_proxy/src/handlers/read.rs:345-400 | a drained queue makes the stored maximum plus one equal the client's clock counter, and all its deletions stored |
| `SyncTheorems.HandshakeIsObeyed` | message_proxy/src/handlers/write.rs:300-387 | one server sync step one, at most one step two, then only others' updates; the reader works only on the one client step two and on what follows it |
| `SyncTheorems.NoUpdateIsIgnored` | message_proxy/src/bin/mpbench.rs:213-219 | the client's gate before the server's sync step two never drops an update |
| `SyncTheorems.HandshakeCatchesUp` | message_proxy/src/handlers/write.rs:183-216 | whatever was lost before, each clock stored for another client is in the document or in the step two being built |
| `SyncTheorems.NoGap` | message_proxy/src/handlers.rs:116-153 | registering before reading leaves no gap: each stored row and deletion is in the client's document, on its way, or owed by the reader that stored it, unless just that update was lost after this connection's writer read the log |
| `SyncTheorems.QuietClientsAgree` | message_proxy/src/handlers/write.rs:341-387 | convergence: in every reachable quiet state, whatever was lost before the current connections read the log, all clients hold the same document, all that was ever created, and the stored deletions |
| `SyncExactness.ServerHandshakeIsExact` | message_proxy/src/handlers/write.rs:183-233 | the sync step one asks for just the clocks not stored when it was made; the sync step two, for the vector that came first on the connection, holds just the rows with a clock at or above it when the log was read, their deletions, and the deletions stored when those were read after it |
| `SyncExactness.OnlyTheMissingIsResent` | message_proxy/src/bin/mpbench.rs:189-204 | the client's sync step two holds a clock exactly if it is its own and was not stored when the server asked, and all deletions it made; nothing else changes |
| `SyncExactness.DeliveryIsExact` | message_proxy/src/bin/mpbench.rs:205-226 | a document grows by just what the delivered message holds |
| `SyncExactness.EditIsExact` | message_proxy/src/bin/mpbench.rs:227-247 | an edit queues just the clocks and deletions it makes |
| `SyncExactness.RowIsWrittenIfNew` | message_proxy/src/handlers/read.rs:204-233 | the log gets a row exactly if the message's last clock was not stored when the maximum was read for it: the message itself, unless the key is taken |
| `SyncExactness.DeletionsAreWritten` | message_proxy/src/handlers/read.rs:234-241 | the table grows by just the message's deletions |
| `SyncExactness.BroadcastIfNew` | message_proxy/src/handlers/read.rs:242-260 | a message is broadcast exactly if its last clock was not stored when the maximum was read for it, or one of its deletions was not when they were written: once, whole, on its channel |
| `SyncExactness.UpdatesComeInOrder` | message_proxy/src/handlers/write.rs:239-262 | a connection that never lagged has been sent, after the handshake, just the updates of others broadcast since it connected, each once and in order |
| `SyncExactness.ForwardedHas` | message_proxy/src/handlers/write.rs:248-262 | what is sent on of some broadcasts is what others sent |
| `SyncExactness.LagIsExact` | message_proxy/src/handlers/write.rs:369-379 | a lagging receiver loses just the oldest broadcasts it had not taken |
| `SyncExactness.FailureIsExact` | message_proxy/src/handlers/read.rs:204-241 | a failing call has its effect or none, and nothing is passed on; what got stored and will not be broadcast is listed as lost |
| `SyncExactness.ConnectStartsOver` | message_proxy/src/handlers.rs:116-153 | a connection starts at the end of its channel with the handshake ahead of it; the client keeps its document, and every other connection its state |
| `SyncRecovery.RecoveryIsPossible` | message_proxy/src/bin/mpbench.rs:281-338 | from every reachable state, with any losses, stale readers and abandoned connections, reconnecting and running on without an edit or a failure can lead to a quiet state, where all clients hold the same document: all that had been created |
| `Multirange.NormalFormIsUnique` | message_proxy/src/repository/postgres.rs:381-394 | two multiranges with the same elements are the same stored list |
| `Multirange.UnionHas` | message_proxy/src/repository/postgres.rs:390 | `+` of multiranges is the union of their elements |
| `Multirange.UnionIsIdle` | message_proxy/src/repository/postgres.rs:390-391 | the union changes nothing exactly if `@>` holds |
| `Multirange.Canonicalize` | message_proxy/src/repository/postgres.rs:382 | `range_agg`: the sorting and merging loop computes the normal form |
| `Multirange.ContainsAll` | message_proxy/src/repository/postgres.rs:391 | the containment loop decides `@>` on elements |
| `Repository.ClientCastsRoundTrip` | message_proxy/src/repository/postgres.rs:121-124 | the u64/i64 casts of client ids are inverse to each other and keep the id modulo 2^64 |
| `Repository.RangeRoundTrip` | message_proxy/src/repository/postgres.rs:73-99 | a u32 range survives the conversion to an i64 range and back |
| `Repository.FromPgHas` | message_proxy/src/repository/postgres.rs:73-91 | whatever the kinds of its bounds, a converted range holds the clocks between them |
| `Repository.OffsetRoundTrip` | message_proxy/src/handlers/read.rs:152-168 | last clock, stored, read back and incremented is the range's end, without overflow, and stored offsets keep the order |
| `Repository.ExpectedAfterPut` | message_proxy/src/handlers/write.rs:78-83 | writing a range's row under its last clock makes the offset expected next the range's exclusive end, or leaves a later one, and never overflows u32 |
| `Repository.PutIsInsert` | message_proxy/src/repository/postgres.rs:115-118 | on its topic's log the statement is the protocol's insert, on another topic's it does nothing |
| `Repository.MaxIsLast` | message_proxy/src/repository/postgres.rs:243-254 | the table's MAX, cast back, is the greatest offset of the client's rows in the topic's log |
| `Repository.UpsertIsUnion` | message_proxy/src/repository/postgres.rs:381-394 | after the upsert the topic's stored deletions are the union of what they were and what was sent, and no other topic changes |
| `Repository.UpsertRowUsers` | message_proxy/src/repository/postgres.rs:385-394 | which keys have a row after the upsert; a row keeps the user who made it; a client that was not sent keeps its row |
| `Repository.NovelExactly` | message_proxy/src/repository/postgres.rs:381-394 | when the returned flag is true, for all inputs, empty ranges included |
| `Repository.NovelMeansGrowth` | message_proxy/src/repository/postgres.rs:343-345 | for non-empty ranges the flag is true exactly when the stored deletions grow |
| `Repository.EmptyRangeIsReportedNovel` | message_proxy/src/repository/postgres.rs:381-394 | an input whose flag is true although nothing is deleted |
| `Repository.ReplayIsUnion` | message_proxy/src/repository/postgres.rs:364-394 | any history of writes leaves normal rows that denote the union of all deletions written |
| `Repository.ReplayIgnoresOrder` | message_proxy/src/repository/postgres.rs:364-394 | histories made of the same writes, in any order and number, leave the same ranges |
| `Repository.PgRepo.WriteOperation` | message_proxy/src/repository/postgres.rs:103-129 | first write wins; just that row is added, with the sender and the payload; and the effect on every topic's log |
| `Repository.PgRepo.ReadLastReceivedOffset` | message_proxy/src/repository/postgres.rs:237-254 | the greatest stored offset of the client in the topic, or none |
| `Repository.PgRepo.SelectedRows` | message_proxy/src/repository/postgres.rs:164-199 | the left join reads exactly the rows that the protocol's step two merges |
| `Repository.PgRepo.Flatten` | message_proxy/src/repository/postgres.rs:364-372 | the nested loops send each client's ranges, all and in order, and nothing else |
| `Repository.PgRepo.WriteDeletionSetIfNovel` | message_proxy/src/repository/postgres.rs:346-400 | the flattened statement is the upsert of the deletion set, its flag is novelty, and an inverted range is an error that changes nothing |
| `Repository.PgRepo.ReadDocDeletionSet` | message_proxy/src/repository/postgres.rs:287-320 | exactly the topic's stored deletions, in ranges that are never inverted or empty |
| `Handlers.ParseUpdate` | message_proxy/src/handlers/read.rs:152-191 | the greatest clock the sender inserts, if any, and the deletions, if any |
| `Handlers.PayloadExactly` | message_proxy/src/handlers/read.rs:147-168 | an update is stored under the key of its clock interval, and that interval is exactly what it inserts for its sender if and only if that is one run of clocks |
| `Handlers.PayloadDeletions` | message_proxy/src/handlers/read.rs:170-191 | the stored payload holds exactly the deletions of the update |
| `Handlers.NewerIsProtocolNewer` | message_proxy/src/handlers/read.rs:215 | the comparison with the maximum is the protocol's, and is being above every stored row of the client |
| `Handlers.UpsertIsProtocolStep` | message_proxy/src/handlers/read.rs:234-241 | the deletion write is the protocol's deletion step: union, and a flag for growth |
| `Handlers.SecondTimeIsSilent` | message_proxy/src/handlers/read.rs:215-241 | the same update again is at or below the stored maximum and not novel |
| `Handlers.WebsocketHandler.PersistOperation` | message_proxy/src/handlers/read.rs:204-233 | inserts under the parsed offset exactly if it is above every stored row of the client; the new row holds the whole update, with exactly its deletions |
| `Handlers.WebsocketHandler.PersistDeletions` | message_proxy/src/handlers/read.rs:234-241 | writes the deletions if there are any, and reports novelty |
| `Handlers.WebsocketHandler.PersistAndBroadcastUpdate` | message_proxy/src/handlers/read.rs:195-272 | both tables, the new row's clocks and deletions, the channel, NATS and the outcome in every case: undecodable, inverted range, not novel, nobody listening, NATS refusing |
| `Handlers.WebsocketHandler.BuildServerSyncStep1` | message_proxy/src/handlers/write.rs:78-83 | the vector names only this client, with the exclusive end of its stored clocks on wrapping u32, and is right exactly if that end is a u32 |
| `Handlers.WebsocketHandler.ProcessClientSyncStepOne` | message_proxy/src/handlers/write.rs:183-216 | step two carries exactly the clocks and deletions of the rows the protocol selects, and all stored deletions |
| `Handlers.WebsocketHandler.RebuildDeletions` | message_proxy/src/handlers/write.rs:197-211 | the deletion round trip gives back exactly the stored pairs |
| `Handlers.HackyBuildDeleteMessage` | message_proxy/src/handlers/write.rs:94-123 | the rebuilt set holds exactly the given deletions, and no length underflows |
| `ReadLoop.Read` | message_proxy/src/handlers/read.rs:335-400 | forwards the first vector only; persists the first sync step two and every update after it, in order, whatever comes in |
| `ReadLoop.DrainIsProcessed` | message_proxy/src/handlers/read.rs:345-400 | one protocol step per message processes what the two loops process |
| `ReadLoop.DrainForwardsFirst` | message_proxy/src/handlers/read.rs:69-82 | one protocol step per message forwards what the loops forward: the first vector, once |
| `DocumentClient.DocumentState.MakeClientSyncStepOne` | message_proxy/src/bin/mpbench.rs:169-186 | the vector claims nothing the document lacks, and stops at the first gap |
| `DocumentClient.DocumentState.AnswerServerStep1` | message_proxy/src/bin/mpbench.rs:189-204 | the answer holds exactly the own elements from the server's clock on, and all deletions; so it is the protocol's answer |
| `DocumentClient.DocumentState.ReceiveSyncMessage` | message_proxy/src/bin/mpbench.rs:187-226 | each message acts on the client as the protocol's steps do; the answer to a step one holds exactly the own elements from the server's clock on |
| `DocumentClient.DocumentState.ReceiveOperationEvent` | message_proxy/src/bin/mpbench.rs:227-247 | a local edit sends exactly its new clocks |
| `Broker.LiveMeans` | message_proxy/src/broker.rs:208-217 | a weak pointer upgrades exactly if a task or a referenced, filled cell holds the state |
| `BrokerInvariant.StepInv` | message_proxy/src/broker.rs:273-322 | every step of every task keeps the invariant of locks, cells, permits and maps |
| `BrokerInvariant.OneBuilder` | message_proxy/src/broker.rs:300-319 | at most one task per topic is past the permit and not yet out of the in-flight map |
| `BrokerTheorems.AtMostOneLive` | message_proxy/src/broker.rs:273-322 | in every reachable state a topic has at most one live state |
| `BrokerTheorems.CallersAgree` | message_proxy/src/broker.rs:300-322 | tasks of one topic that hold a state at the same time hold the same |
| `BrokerTheorems.CallKeepsItsTopic` | message_proxy/src/broker.rs:273-335 | a call registers for its own topic: whatever state it holds, ever after, is one of that topic |
| `BrokerTheorems.TopicsStayApart` | message_proxy/src/handlers.rs:116-122 | calls for different topics never hold one state, and no message of the one reaches a queue of the other |
| `BrokerTheorems.SubscribersShareTheChannel` | message_proxy/src/broker.rs:323-335 | whoever subscribes while a receiver of the topic is registered gets that receiver's channel |
| `BrokerTheorems.WaitersAgree` | message_proxy/src/broker.rs:300-319 | a filled cell keeps its state, so all who waited on it get the same at whatever time |
| `BrokerTheorems.SendReachesAll` | message_proxy/src/broker.rs:166-206 | a send is accepted exactly if its channel has a receiver, and then reaches every receiver of the topic, even from a sender that outlived its own |
| `BrokerTheorems.EveryMessageInOrder` | message_proxy/src/broker.rs:323-335 | what a receiver has taken and still has queued is exactly the messages accepted on the topic since it subscribed, in one order |
| `BrokerTheorems.LastReceiverEndsTheState` | message_proxy/src/broker.rs:191-214 | a sender does not keep the state alive: dropping the last receiver ends it, and what the sender then sends is rejected |
| `BrokerTheorems.LocksCanBeFreed` | message_proxy/src/broker.rs:282-315 | no deadlock: three steps of calls in progress free both mutexes |
| `BrokerTheorems.EveryCallCanSucceed` | message_proxy/src/broker.rs:273-322 | in every reachable state every call in progress can still return a state, within 13 steps |
| `BrokerTheorems.FailureLeavesTheCell` | message_proxy/src/broker.rs:300-319 | a failed or cancelled subscription leaves the cell in flight, uninitialised, its permit free, and no public state |
| `DocumentTables.UpsertValid` | document_service/internal/repository/sqlc/sql/query.sql:69-76 | when the upsert keeps the tables valid: below owner level, or for the one user who may own |
| `DocumentTables.ApplyValid` | document_service/internal/service/document_service.go:315-369 | every service request keeps foreign keys, a guest row behind each guest permission, and at most one owner, a user |
| `DocumentTables.HistoryValid` | document_service/internal/service/document_service.go:125-400 | so do all histories of requests |
| `DocumentTables.OwnersCreated` | document_service/internal/service/document_service.go:343-347 | whoever owns a document made it, and has owned it ever since |
| `DocumentTables.GuestUpdateIsAtomic` | document_service/internal/repository/document_repository.go:854-908 | whatever requests come between reading the guest and updating its row, the outcome is that of doing both at the time of the update |
| `DocumentTables.TimesInHistory` | document_service/internal/repository/sqlc/sql/query.sql:9-13 | documents are never marked modified; permissions are modified only after they are created |
| `DocumentTables.DeleteEachExactly` | document_service/internal/repository/document_repository.go:357-376 | the loop goes through exactly if the ids are distinct and exist, and removes just them |
| `DocumentEffects.ParseLevelCodes` | document_service/internal/repository/document_repository.go:64-92 | the three numbers of the three levels, and no other |
| `DocumentEffects.RepoIsExact` | document_service/internal/repository/document_repository.go:152-908 | every request on the repository is refused exactly in the stated cases, with that error and no change, and otherwise changes exactly the rows it is about, field by field |
| `DocumentEffects.RequestIsExact` | document_service/internal/service/document_service.go:125-400 | the same for the service, which also refuses ownership |
| `DocumentStore.DocumentRepository.CreateDocument` | document_service/internal/repository/document_repository.go:152-208 | the document and its owner row, field by field, and no other change, or an error and no change |
| `DocumentStore.DocumentRepository.DeleteDocumentHelper` | document_service/internal/repository/document_repository.go:278-321 | removes permissions, guests and document in an order the foreign keys allow; every row of another document stays as it was |
| `DocumentStore.DocumentRepository.DeleteDocument` | document_service/internal/repository/document_repository.go:328-351 | removes one document with its permissions and guests and no other row, or reports that it is missing and changes nothing |
| `DocumentStore.DocumentRepository.DeleteDocuments` | document_service/internal/repository/document_repository.go:353-384 | commits exactly if the list is non-empty, distinct and all exist; a row is there afterwards exactly if it was and its document was not deleted, and is unchanged; otherwise nothing changes |
| `DocumentStore.DocumentRepository.UpdateGuestPermissionRow` | document_service/internal/repository/sqlc/sql/query.sql:90-95 | at any time, on any guest and document, it changes one guest row or none, and keeps the tables valid |
| `DocumentStore.DocumentRepository.CreateGuest` | document_service/internal/repository/document_repository.go:696-792 | both rows, field by field, or none, with the error of the first check that fails |
| `DocumentStore.DocumentRepository.UpsertPermissionUser` | document_service/internal/repository/document_repository.go:794-852 | the new row, which keeps type, creator and creation on a conflict, no other change, and the error in every case |
| `DocumentStore.DocumentRepository.UpdatePermissionGuest` | document_service/internal/repository/document_repository.go:854-908 | the new level and time of the one row, no other change, and the error in every case |
| `DocumentStore.DocumentService.UpsertPermissionUser` | document_service/internal/service/document_service.go:336-359 | refuses ownership, and keeps the tables valid |
| `Keyset.SelectIsPage` | document_service/internal/repository/sqlc/sql/query.sql:25-32 | the result has what WHERE, ORDER BY and LIMIT say |
| `Keyset.PageIsSelect` | document_service/internal/repository/sqlc/sql/query.sql:25-32 | and nothing else has |
| `Keyset.RowsDescend` | document_service/internal/repository/document_repository.go:515-530 | following cursors over a changing relation, rows come in strictly descending order, all below the first cursor |
| `Keyset.ReturnedIffPassed` | document_service/internal/repository/document_repository.go:515-530 | a row that is there for every page has been returned exactly if the cursor has passed it |
| `Keyset.EmptyPageMeansAll` | document_service/internal/repository/document_repository.go:515-530 | after an empty page every such row has been returned |
| `Keyset.PagesAreOneQuery` | document_service/internal/repository/sqlc/sql/query.sql:25-44 | on a fixed relation the pages together are one query with the sum of their limits |
| `Keyset.PagingTerminates` | document_service/internal/service/document_service.go:236-238 | the rows left fall by each page's size, so paging ends within as many pages as there are rows |
| `ShiftedKeyset.SkipsExactly` | document_service/internal/repository/document_repository.go:120-131 | a row is missed exactly if it lies between the last row of some page and that row's creation time |
| `ShiftedKeyset.CompleteIff` | document_service/internal/repository/document_repository.go:677-693 | nothing is missed exactly if, at each page boundary, the next row was modified before the last one was created |
| `ShiftedKeyset.SkippingExample` | document_service/internal/repository/document_repository.go:129 | two permissions of which one is never listed |
| `ShiftedKeyset.ShownDescend` | document_service/internal/repository/document_repository.go:677-693 | over a relation that changes between pages the rows still come in strictly descending order |
| `Paging.MaxDocumentID` | document_service/internal/service/document_service.go:71-77 | no id of sixteen bytes is greater |
| `Paging.NewBeginningCursor` | document_service/internal/service/document_service.go:79-85 | the given field and time, and a sixteen-byte id that no document exceeds |
| `Paging.IdOrder` | document_service/internal/repository/sqlc/sql/query.sql:25-32 | ids are ordered by the first byte in which they differ |
| `Paging.RepoListDocuments` | document_service/internal/repository/document_repository.go:481-531 | every error case; each row is a document below the cursor on which the principal has one of the levels asked for, as stored and with that level; none is left out but for a full page; the order and the next cursor |
| `Paging.ServiceListDocuments` | document_service/internal/service/document_service.go:218-254 | defaults for levels and cursor, the clamp of the page size, invalid input as the one error, and the page, row by row |
| `Paging.RepoListPermissions` | document_service/internal/repository/document_repository.go:610-694 | every error case; each row is a permission below the cursor at one of the levels asked for, as stored but with the creation time in both fields; none is left out but for a full page; the order and the next cursor |
| `Paging.DocumentPageMeans` | document_service/internal/repository/sqlc/sql/query.sql:25-44 | what the document query selects is what a page must show, row by row |
| `Paging.PermissionPageMeans` | document_service/internal/repository/document_repository.go:610-694 | so for permissions |
| `Paging.DocumentsExactlyOnce` | document_service/internal/repository/document_repository.go:416-531 | over any history of requests between the pages, a document that matches throughout is returned exactly once, and whatever is returned matched when it was |
| `Paging.PermissionsComplete` | document_service/internal/repository/document_repository.go:610-694 | on tables that do not change, permission paging is strictly descending; complete under `CreatedAt`; under `LastModifiedAt` complete exactly under the boundary condition |
| `Paging.PermissionsExactlyOnce` | document_service/internal/repository/document_repository.go:610-694 | under `CreatedAt`, over any history of requests between the pages, a permission that matches throughout is returned exactly once |
| `Paging.NoRecipientTwice` | document_service/internal/repository/document_repository.go:610-694 | under either field, over any history with a clock that does not go back, the rows strictly descend and no recipient is returned twice |
| `CursorOffset.CursorToOffset` | message_proxy/src/bin/tui.rs:95-105 | the start of the row plus the column |
| `CursorOffset.OffsetToCursor` | message_proxy/src/bin/tui.rs:106-135 | the one place in the text with that offset, or the place after the text |
| `CursorOffset.OffsetsKeepOrder` | message_proxy/src/bin/tui.rs:95-105 | offsets are ordered as positions are |
| `CursorOffset.CursorRoundTrip` | message_proxy/src/bin/tui.rs:95-135 | position to offset and back is the identity exactly on the places in the text |
| `CursorOffset.OffsetRoundTrip` | message_proxy/src/bin/tui.rs:95-135 | offset to position and back is the identity exactly up to the end of the text, in order |

## Left out

- PersistAndBroadcastUpdate: runs undisturbed in the class; the interleaving of its awaits with other tasks is in `SyncProtocol`. Its payload is the hull of the own clocks, see the assumption above.
- UpdatePermissionGuest: runs its two statements without a pause in the class; `DocumentTables.GuestUpdateIsAtomic` covers what may come between them.
- A debug build, in which the u32 addition of `BuildServerSyncStep1` would panic and not wrap.
- The encoding, merging and integration of updates inside the CRDT library; an update is its clocks and its deletions, and what waits for a missing element is not modelled.
- The protocol covers one topic on one proxy instance; NATS between instances only repeats messages.
- The bounded ring buffer of the broadcast channel: in `SyncProtocol` it is a lag step that loses any number of messages, in `Broker` queues are unbounded.
- Websocket framing, ping and close; a connection may stop at any step.
- The broker and the sync protocol are transition systems on values, since their subject is interleaving; update in place of the two hash maps is one step each.
- A terminal client that restarts with an empty document under its old id, and edits made while disconnected.
- Errors of the database inside a transaction of the document service, and isolation between its transactions.
- Sub-microsecond times: the service and the database are taken to hold the same time values.
- Liveness under real scheduling; `EveryCallCanSucceed` and `RecoveryIsPossible` say what stays possible.
- `ListPermissionsOnDocument` of the service fills in the same defaults as the document listing.
- The unused `Reader` of `state_machine.rs`, protobuf, JSON, JWT, gRPC and HTTP layers, the gateway and user service, telemetry, configuration and drawing: easy or unused.
