# Verified model of the full-stack template's stateful cores

This project models the parts of the repository that keep state across
processes, connections and restarts, and proves what they promise.

- **Todo store** (`Loro`, `TodoItems`, `TodosTable`, `TodoSpec`, `CrdtStore`,
  `TodoRuns`). One Loro document per owner, projected into the `todos` table
  after every change and rebuilt from it after a restart. Loro is a set of
  uniquely tagged operations with union as import and last-writer reads; the
  table is a set of rows with a unique (idem_key, owner) index and a 200-row
  query, and any table call may fail. `CRDTStore` is a class whose methods are
  proved against a plain owner -> id -> todo map.
- **Replication** (`Transport`, `Convergence`, `Notify`). Body framing and loop
  filter; a network of stores over a bus that loses, repeats, reorders and
  drops repeated message ids, with restarts; versions and reads under the mutex.
- **SSE hub and whiteboard** (`HubSpec`, `SseHub`, `HubRuns`, `Peers`,
  `Whiteboard`, `WhiteboardSync`, `WhiteboardRaces`). The hub is a class with
  its maps, bounded channels and ring; each section under a lock is one step of
  the interleavings. The peer sets follow reconnects; snapshots are saved
  outside the document's lock.
- **Offline replay and CRUD log** (`OfflineQueue`, `OfflineSync`, `CrudLog`,
  `CrudRuns`, `CrudRaces`). The service worker's queue and its replay, alone and
  with every page, trigger, network loss and server step interleaved; the log of
  handler mutations and the consumer that applies it elsewhere, first with calls
  served one at a time, then with any number of handlers looking, writing and
  publishing in any order.
- **Presence** (`Presence`). Roster, heartbeats and expiry ticks as a timed
  system in nanoseconds, with the code's millisecond timestamps.
- **Text rewriting** (`MigrateScope`, `EnvLines`). The SCOPE migration and the
  env-file parser, loops and all.

Methods follow the code's loops and updates and are proved against functions;
the lemmas are about those functions and about whole runs. Failing I/O is a
nondeterministic outcome or a parameter. Verify with
`dafny verify dfyconfig.toml`.

## Where the code and its own words differ

The model follows the code.

- `features/store/crdtstore/crdtstore.go:85-103` says the version is bumped after every `persistRecords`;
  it is bumped at the start, before anything is projected into the table
  (lines 273-289). `Notify.TableLagsBehindVersion` shows the gap;
  reads of the store itself are not affected.
- `features/store/crdtstore/transport.go:80-87` calls an operation id unique per operation; the store
  uses `update-<id>` for every update of a todo, which the bus drops within its
  duplicate window (`Convergence.SecondUpdateStaysHome`,
  `Convergence.EveryLosslessRunConvergesIff`).
- `features/store/crdtstore/transport.go:229-233` calls a fingerprint collision harmless; it drops every
  operation of the colliding peer (`Transport.FilterDropsIffHashesEqual`).
- The server subscribes to `>`, and each update is then filed under the owner
  `>` (`internal/server/crdtstore_wire.go:63`, `Transport.ReachesOwnerIffSubscribedToOwner`).
- `internal/server/crdtstore_wire.go:28-36` says that a new publisher id after a restart does not matter;
  the loop filter then lets a process's own old messages in
  (`Convergence.OwnNewsComesBack`).
- `features/todo/handlers/todo_crud.go:294-296` publishes what it wrote some steps earlier under
  no lock, so the log can hold two writes in the opposite order
  (`CrudRaces.TogglesPublishedSwapped`); `features/store/pbstore/pbstore.go:156-173` finds
  the completed todos and then deletes them by id, whatever they have become
  (`CrudRaces.ReopenedDuringSweep`).
- `features/todo/handlers/todo_crud.go:172-176` scopes a create to the logged-in user; a queued one is
  scoped to whoever is logged in when it is replayed (`OfflineSync.ReplayedForAnother`).
- `internal/collab/presence.go:176-177` says announcing again keeps peers from expiring us; the first
  join carries the time of `NewPresence` (line 116), however late `Subscribe`
  publishes it (line 155), and can go stale before the first beat
  (`Presence.LivePeerStays`, `Presence.SlowPeerCanBeDropped`).
- `web/resources/static/sw.js:488` takes a 404 for an item already deleted; the server also answers 404
  when it fails to look the todo up (`OfflineSync.RefusedToggleIsDropped`).
- `features/todo/handlers/todo_crud.go:415-419` says replayed mutations still publish to NATS; replayed
  toggles, deletes and clears return before they do
  (`CrudRuns.CallMatchesIff`).
- `scripts/migrate-scope.py:28` says running twice is a no-op;
  `MigrateScope.SecondRunIsQuietIff` is the exact condition, and
  `MigrateScope.SecondRunCanDeleteAComment` what happens outside it.
- `features/store/pbstore/pbstore.go:152` says `ClearCompleted` deletes the owner's completed todos;
  without an owner it sweeps everyone's (`CrudLog.PBStore.ClearCompleted`).

## Model

| member | source | states |
|---|---|---|
| `Loro.WinnerIsGreatest` | features/store/crdtstore/crdtstore.go:617-642 | the value read at a map entry is the write with the greatest tag, so the resolve is deterministic |
| `Loro.SameOpsSameReads` | features/store/crdtstore/crdtstore.go:617-642 | two logs that hold the same operations read the same everywhere, whatever order they arrived in |
| `Loro.ImportIsUnion` | features/store/crdtstore/crdtstore.go:617-642 | importing an update leaves exactly the union of both sets of operations |
| `Loro.ImportWf` | features/store/crdtstore/crdtstore.go:617-642 | an import keeps tags unique and clocks ahead of everything seen |
| `Loro.WriteReads` | features/store/crdtstore/crdtstore.go:730-760 | a local write wins at its entry and changes no other entry |
| `TodoItems.SameOpsSameItems` | features/store/crdtstore/crdtstore.go:774-809 | documents with the same operations show the same todos |
| `TodoItems.PutItemItems` | features/store/crdtstore/crdtstore.go:405-411 | inserting a child map and writing its fields adds one todo with those fields and changes no other, even over a deleted or overwritten id |
| `TodoItems.SetFieldItems` | features/store/crdtstore/crdtstore.go:486-520 | writing one field changes that field of that todo and nothing else |
| `TodoItems.RemoveItemItems` | features/store/crdtstore/crdtstore.go:524-547 | deleting a root entry removes that todo and no other |
| `TodosTable.SavedProjection` | features/store/crdtstore/crdtstore.go:314-361 | saving a row under (idem_key, owner) replaces that entry of the owner's projection and nothing else |
| `TodosTable.FittingPage` | features/store/crdtstore/crdtstore.go:236-292 | a limited query returns all of an owner's rows exactly when they fit the limit |
| `TodosTable.Table.FindFirst` | features/store/crdtstore/crdtstore.go:335-339 | an answer is a row of that key and owner; none may also mean that the lookup failed |
| `TodosTable.Table.FindByOwner` | features/store/crdtstore/crdtstore.go:292-296 | answers some 200 of the owner's rows, all of them if there are fewer |
| `TodosTable.Table.Save` | features/store/crdtstore/crdtstore.go:345-360 | writes one row; refuses a second row with the same idem_key and owner; a failed save changes nothing |
| `TodosTable.Table.Delete` | features/store/crdtstore/crdtstore.go:297-310 | removes one row, or fails and changes nothing |
| `TodoSpec.SweptExactly` | features/store/crdtstore/crdtstore.go:290-310 | the delete sweep leaves exactly the wanted todos when its page reaches every stale row |
| `TodoSpec.OthersKept` | features/store/crdtstore/crdtstore.go:273-310 | what one owner's projection does leaves every other owner's rows and todos as they were |
| `TodoSpec.Committed` | features/store/crdtstore/crdtstore.go:273-310 | replacing one owner's document and rows shows that owner the document, and leaves everyone else's todos, rows and their agreement as they were |
| `TodoSpec.StaysWithinPage` | features/store/crdtstore/crdtstore.go:273-310 | no call takes an owner out of the 200-row limit: each only adds todos or only removes some |
| `TodoSpec.RestrictToOwner` | features/store/crdtstore/crdtstore.go:229-263 | a page that holds all of an owner's rows projects to all of the owner's todos |
| `TodoSpec.ListsExactly` | features/store/crdtstore/crdtstore.go:455-482 | a list holds each todo its filter asks for, once, and no other: "active" the open ones, "completed" the completed ones, any other filter all |
| `TodoSpec.ClearsExactly` | features/store/crdtstore/crdtstore.go:551-586 | a clear leaves exactly the open todos, and answers how many were completed |
| `CrdtStore.CRDTStore.LoadDoc` | features/store/crdtstore/crdtstore.go:229-263 | the cached document, or one rebuilt from a page of the table: its todos are that page's rows, keyed by idem_key, and the owner's todos when they fit |
| `CrdtStore.CRDTStore.Rebuild` | features/store/crdtstore/crdtstore.go:240-258 | the rebuilt document shows exactly the rows of the page, in whatever order they are visited |
| `CrdtStore.CRDTStore.PersistRecords` | features/store/crdtstore/crdtstore.go:273-310 | a successful projection, after any earlier failure and in any map order, leaves one row per todo with its title and flag; other owners' rows are untouched; exact within the page limit |
| `CrdtStore.CRDTStore.UpsertTodoRecord` | features/store/crdtstore/crdtstore.go:314-361 | one todo enters the owner's projection, or nothing changes |
| `CrdtStore.CRDTStore.UpsertAll` | features/store/crdtstore/crdtstore.go:285-289 | after the upserts the projection is the old one overridden by the wanted todos |
| `CrdtStore.CRDTStore.DeleteStale` | features/store/crdtstore/crdtstore.go:297-310 | deletes exactly the rows of the page whose idem_key is not wanted |
| `CrdtStore.CRDTStore.BumpVersion` | features/store/crdtstore/crdtstore.go:649-673 | the owner's version grows by one and that version is published |
| `CrdtStore.CRDTStore.Commit` | features/store/crdtstore/crdtstore.go:412-416 | the tail of a mutation: one version, the projection, and one message with the whole document only if the projection succeeded |
| `CrdtStore.CRDTStore.Create` | features/store/crdtstore/crdtstore.go:383-424 | unless it fails, the plain map's insert for this owner; a repeated id returns the old todo and changes, publishes and ships nothing; empty owner and empty id are refused; a call that fails, in the document or in the table, leaves a part of its step, and each row old or new; other owners keep what they have, in step or not |
| `CrdtStore.CRDTStore.InsertTodo` | features/store/crdtstore/crdtstore.go:405-411 | the child map and its fields one by one: what is shown of the todo after any number of these writes |
| `CrdtStore.CRDTStore.Get` | features/store/crdtstore/crdtstore.go:427-442 | the todo, or NotFound exactly when the plain map lacks the id, unless loading fails |
| `CrdtStore.CRDTStore.List` | features/store/crdtstore/crdtstore.go:455-482 | each open todo once under "active", each completed one once under "completed", each once under any other filter, and no other |
| `CrdtStore.CRDTStore.Update` | features/store/crdtstore/crdtstore.go:486-520 | unless it fails, the plain map's patch, whatever the order of its keys; NotFound exactly when the id is absent; one version and one message "update-id"; a failed call leaves a part of the patch; other owners untouched |
| `CrdtStore.CRDTStore.PatchItem` | features/store/crdtstore/crdtstore.go:501-512 | the patch loop, in any key order and broken off anywhere, patches one todo by the keys it reached and changes no other |
| `CrdtStore.CRDTStore.Delete` | features/store/crdtstore/crdtstore.go:524-547 | the same for the plain map's removal; NotFound exactly when the id is absent |
| `CrdtStore.CRDTStore.ClearCompleted` | features/store/crdtstore/crdtstore.go:551-586 | unless it fails, leaves exactly the open todos and returns the number of completed ones; ships only if there were any; a failed call removes some completed ones and no other |
| `CrdtStore.CRDTStore.Count` | features/store/crdtstore/crdtstore.go:591-607 | the number of todos of the plain map |
| `CrdtStore.CRDTStore.Close` | features/store/crdtstore/crdtstore.go:814-825 | drops the documents and versions; the table stays |
| `CrdtStore.CRDTStore.ApplyRemoteOp` | features/store/crdtstore/crdtstore.go:617-642 | the document becomes the union with the update, is projected, and two versions are published; an empty update changes nothing, one that does not import shows nothing new, an empty owner is refused; other owners untouched |
| `CrdtStore.CRDTStore.Merge` | features/store/crdtstore/crdtstore.go:629-642 | once imported the union stays in the document even if projecting it fails |
| `TodoRuns.RunRefinesPlainMap` | features/store/crdtstore/crdtstore.go:383-607 | over every run of store calls, failing ones among them: an owner none of whose own calls failed is shown the plain id to todo map after every call, and answered as it answers, whatever happened to the others |
| `TodoRuns.FailedCallsTakePart` | features/store/crdtstore/crdtstore.go:383-607 | on every run without a restart each call moves its owner's todos by its whole step if it was answered, and by a part of it if it failed |
| `TodoRuns.UnnamedTodosAreExact` | features/store/crdtstore/crdtstore.go:383-607 | on every such run a todo that no failed call names is shown as if the failed calls had not been made |
| `TodoRuns.RestartShowsOldOrNew` | features/store/crdtstore/crdtstore.go:273-310 | a restart after a failed call brings back each todo as before the call or as the call left it |
| `TodoRuns.ActivePlusCompletedIsCount` | features/store/crdtstore/crdtstore.go:455-607 | the active and the completed list together are as long as Count |
| `TodoRuns.RestartRestoresIffWithinPage` | features/store/crdtstore/crdtstore.go:229-263 | a rebuild restores the owner's todos, whatever page the query returns, if and only if there are at most 200 |
| `TodoRuns.RestartRoundTrip` | features/store/crdtstore/crdtstore.go:814-825 | Close and the lazy rebuild leave an owner's todos as they were if and only if table and document agreed |
| `TodoRuns.SweepExactIffWithinPage` | features/store/crdtstore/crdtstore.go:290-310 | one delete sweep is exact, whatever its page, if and only if the rows fit one page or none is stale |
| `Transport.HexInjective` | features/store/crdtstore/transport.go:234-241 | the fixed-width hex print tells any two numbers of that width apart |
| `Transport.FnvValues` | features/store/crdtstore/transport.go:234-241 | the hash has its published test values, and prints in lower-case hex |
| `Transport.SplitOfFrame` | features/store/crdtstore/transport.go:229-267 | splitting a published body returns exactly the eight hex digits and the update bytes, colons in them or not |
| `Transport.FilterDropsIffHashesEqual` | features/store/crdtstore/transport.go:174-187 | the loop filter drops a message if and only if the two 32-bit hashes are equal: its own, and every message of a colliding peer |
| `Transport.ReachesOwnerIffSubscribedToOwner` | features/store/crdtstore/transport.go:161-197 | an update reaches its owner's document if and only if the subscription names that owner; the wildcard files it under ">" |
| `Transport.WildcardReceivesAll` | features/store/crdtstore/transport.go:161-197 | the wildcard subscription receives every owner's updates and files each under ">"; a subscription to another owner receives none |
| `Transport.NamelessIsIgnored` | features/store/crdtstore/transport.go:174-187 | a message without an id is never handed on |
| `Transport.PublishedIsHeard` | features/store/crdtstore/transport.go:229-267 | a published message is dropped by its publisher and received, under the publisher's fingerprint, by everyone whose hash differs |
| `Transport.CRDTTransport.Publish` | features/store/crdtstore/transport.go:97-123 | refuses an empty id or owner; otherwise one message, or none if the id is in the duplicate window, that carries the publisher's own fingerprint and the update bytes: the publisher's subscription drops it, and that of everyone whose hash differs receives it whole |
| `Convergence.ApplyInv` | features/store/crdtstore/crdtstore.go:174-193 | every write, delivery, loss, repetition, reordering and restart, a restarted node's own old messages among the deliveries, keeps tags unique, unsent operations private and each node's account of what it imported |
| `Convergence.EqualIffStaleNewsReachedAll` | features/store/crdtstore/crdtstore.go:617-642 | at every reachable state in which the last updates are exchanged: all documents are equal if and only if what late messages from before a restart brought, and no last update carries, came late to every node |
| `Convergence.EveryRunConvergesIff` | features/store/crdtstore/crdtstore.go:174-193 | that over all runs with restarts; and the documents are exactly the last updates if and only if no such message brought anything else |
| `Convergence.ConvergesIffStaleNewsIsCurrent` | features/store/crdtstore/crdtstore.go:617-642 | the second half at every reachable state |
| `Convergence.ConvergesWithoutRestarts` | features/store/crdtstore/crdtstore.go:174-193 | without restarts the exchanged documents and the todos they show are equal |
| `Convergence.EveryLosslessRunConvergesIff` | features/store/crdtstore/transport.go:97-123 | over all runs that lose nothing the bus took: all documents are equal if and only if the bus took every node's last write |
| `Convergence.SecondUpdateStaysHome` | features/store/crdtstore/crdtstore.go:486-520 | a run on which the second update of one todo, shipped under the same message id, never leaves its node |
| `Convergence.TakenAfterExpiry` | features/store/crdtstore/transport.go:97-123 | once the duplicate window has passed the same id is taken again, and ships what had stayed home |
| `Convergence.StaleMessageSplitsPeers` | features/store/crdtstore/crdtstore.go:229-263 | a run on which a message from before a restart leaves two peers different although the last updates are exchanged |
| `Convergence.OwnNewsComesBack` | internal/server/crdtstore_wire.go:28-36 | a run on which a restarted node hears its own message from before the restart and shows the todo in it again |
| `Notify.ReadAfterNotify` | features/store/crdtstore/crdtstore.go:455-682 | in every interleaving the version map and the events agree, so versions per owner count 1, 2, 3, ...; a read that began knowing version v shows every operation the document held when v was announced, and no half-done mutation |
| `Notify.ReadShowsAnnouncedIff` | features/store/crdtstore/crdtstore.go:399-463 | in every interleaving a read shows exactly what the owner's current version announced, if and only if no writer since that version let go of the mutex between changing the document and announcing it |
| `Notify.ReadOfAbandonedChange` | features/store/crdtstore/crdtstore.go:486-515 | a run on which a mutation that fails halfway is read though no version announced it |
| `Notify.TableLagsBehindVersion` | features/store/crdtstore/crdtstore.go:273-289 | a run on which version 1 is announced before the table holds the change |
| `Notify.TableHoldsAnnouncedIff` | features/store/crdtstore/crdtstore.go:273-289 | at every state of every run the table holds what the owner's current version announced, if and only if no earlier bump announced something the table lacked without a projection or another bump of that owner since |
| `HubSpec.RegisterReplaysAll` | internal/queue/ssehub.go:109-131 | registering a channel with room for the whole buffer replays it in order, drops nothing and empties the buffer |
| `HubSpec.ReplayFills` | internal/queue/ssehub.go:118-130 | replaying into an empty channel fills it in order and drops exactly what is left over |
| `HubSpec.FanOutReaches` | internal/queue/ssehub.go:239-295 | a broadcast gives each target with room the event once and nobody else anything, in any map order |
| `HubSpec.FanOutDrops` | internal/queue/ssehub.go:239-295 | and tells of one drop for each target without room, under that client and that reason, and of no other |
| `HubSpec.ReplayDrops` | internal/queue/ssehub.go:118-130 | each buffered event that does not fit the new channel is told of as a drop, in order |
| `SseHub.SSEHub.Register` | internal/queue/ssehub.go:109-131 | maps the client to the new channel and replays its buffer, dropping what does not fit |
| `SseHub.SSEHub.Unregister` | internal/queue/ssehub.go:135-141 | forgets the client, its user and its buffer |
| `SseHub.SSEHub.UnregisterIfCurrent` | internal/queue/ssehub.go:157-165 | the same only if the channel is still the client's own |
| `SseHub.SSEHub.Send` | internal/queue/ssehub.go:175-189 | into the channel if it has room, else into the ring |
| `SseHub.SSEHub.BufferEvent` | internal/queue/ssehub.go:344-360 | appends to the ring and evicts the oldest event of a full one |
| `SseHub.SSEHub.Broadcast` | internal/queue/ssehub.go:258-269 | offers the event to every client once |
| `SseHub.SSEHub.BroadcastExcept` | internal/queue/ssehub.go:239-252 | to every client but one |
| `SseHub.SSEHub.BroadcastToUser` | internal/queue/ssehub.go:279-295 | to the user's clients but one |
| `SseHub.SSEHub.CountUserClients` | internal/queue/ssehub.go:329-339 | the number of clients registered with a user |
| `SseHub.NoCrossUserLeak` | internal/queue/ssehub.go:279-295 | a user's event leaves every other client's channel, and the originating one, as it was |
| `HubRuns.RegisteredAsConnected` | internal/queue/ssehub.go:109-131 | in every interleaving a registered client has the channel and the user that its latest connect gave |
| `HubRuns.BroadcastReachesItsUser` | internal/queue/ssehub.go:279-295 | at every state of every interleaving a user's broadcast gives the event once to each registered client with room whose latest connect was that user's, unless it is the tab it came from, and leaves every other client's channel as it was |
| `HubRuns.SendIsItsSections` | internal/queue/ssehub.go:175-189 | the sections of a send, done without interruption, are the hub's Send |
| `HubRuns.EveryRunIsGood` | internal/queue/ssehub.go:109-360 | in every interleaving of two-step sends, connects, disconnects and broadcasts: a client maps to the channel of its latest connect until that handler cleans up and to none otherwise; each buffer is the newest events since its last drain, in order; every event is accounted for |
| `HubRuns.ConnectReplays` | internal/queue/ssehub.go:109-131 | what the account books as replayed is what the new channel holds; with capacity for the ring that is everything, in order |
| `Peers.Handler.PeerJoin` | features/whiteboard/handler.go:314-330 | adds the client to the document's set and answers the others |
| `Peers.Handler.PeerLeave` | features/whiteboard/handler.go:341-367 | skips a client that is registered again; otherwise removes it, and the set when it empties |
| `Peers.Handler.PeerList` | features/whiteboard/handler.go:371-380 | the document's set |
| `Peers.NoGhostPeers` | features/whiteboard/handler.go:239-250 | in every interleaving of any number of reconnecting handlers of a client used on one document: once all have finished the client is in no set, and no empty set is stored |
| `Peers.ListedIff` | features/whiteboard/handler.go:314-367 | in every interleaving a client is listed on a document if and only if it joined it and no handler deleted it since |
| `Peers.PeersAreAlwaysRegistered` | features/whiteboard/handler.go:239-367 | over all runs of connects and disconnects that each happen in one piece the sets are always exactly the registered clients of each document |
| `Peers.ConnectKeepsEqual` | features/whiteboard/handler.go:239-245 | the step of a connect |
| `Peers.DisconnectKeepsEqual` | features/whiteboard/handler.go:341-367 | the step of a disconnect |
| `Peers.TwoDocsLeaveAGhost` | features/whiteboard/handler.go:341-367 | a run on which one client id on two documents leaves a ghost |
| `Peers.LivePeerCanBeDropped` | features/whiteboard/handler.go:346-356 | a run on which a reconnect between the check and the delete drops a live peer |
| `Whiteboard.SameOpsSameShapes` | internal/collab/collab.go:179-212 | boards with the same operations show the same shapes |
| `Whiteboard.SharedDoc.ApplyUpdate` | internal/collab/collab.go:43-50 | the document becomes the union with the update |
| `Whiteboard.SharedDoc.ApplyShapeOp` | internal/collab/collab.go:93-125 | add shows that shape under its id and leaves the others, clear shows none, an unknown operation changes nothing; earlier operations are never lost |
| `Whiteboard.SharedDoc.DrawShape` | internal/collab/collab.go:98-115 | a drawn shape replaces what its id showed |
| `Whiteboard.SharedDoc.WriteShape` | internal/collab/collab.go:143-176 | after the field writes the child map reads back as the shape |
| `Whiteboard.SharedDoc.EraseAll` | internal/collab/collab.go:116-119 | the loop over the keys leaves no shape |
| `Whiteboard.SharedDoc.ReadShapes` | internal/collab/collab.go:179-212 | every live child map once, decoded |
| `WhiteboardSync.DocStore.GetOrCreate` | internal/collab/docstore.go:24-33 | one shared document per id, made on first use |
| `WhiteboardSync.MemoryPersister.SaveSnapshot` | internal/collab/persist_pb.go:39-46 | the last snapshot saved under an id is the one kept |
| `WhiteboardSync.MemoryPersister.LoadSnapshot` | internal/collab/persist_pb.go:50-55 | returns it, or nothing |
| `WhiteboardSync.WebSyncWorker.ApplyOp` | internal/collab/sync_web.go:135-170 | document changed, saved unless the save fails, sent to the other browsers as the resolved shapes, and published; a refused operation saves, sends and publishes nothing; other documents untouched |
| `WhiteboardSync.WebSyncWorker.ApplyUpdate` | internal/collab/sync_web.go:96-131 | document and, unless the save fails, saved snapshot become the union with the update, which is sent on and published itself; one that does not decode changes nothing |
| `WhiteboardSync.WebSyncWorker.LoadSnapshot` | internal/collab/sync_web.go:180-194 | returns what was saved, merged into the shared document; other documents untouched |
| `WhiteboardSync.SyncWorker.OnMessage` | internal/collab/sync.go:48-66 | merges a published update and saves the result unless the save fails; an empty document id or a malformed update does nothing |
| `WhiteboardRaces.PersistedCatchesUp` | internal/collab/sync_web.go:96-194 | with NATS and a rehydrated document, in every interleaving of out-of-order saves and of boards being opened: once all requests, openings and callbacks have finished, what is persisted is the document, with every operation anyone applied or published |
| `WhiteboardRaces.StaleWithoutNats` | internal/collab/sync_web.go:135-170 | a run without NATS on which an older snapshot, saved last, stays |
| `WhiteboardRaces.UpToDateWithoutNatsIff` | internal/collab/sync_web.go:96-170 | without NATS, at every state of every run: what is persisted is the document if and only if the document has not changed since the request whose save landed last took its snapshot |
| `WhiteboardRaces.UnloadedBoardIsOverwritten` | internal/collab/sync.go:48-66 | a run on which the first update of a board not loaded since a restart overwrites what was saved |
| `WhiteboardRaces.OpeningRehydrates` | internal/collab/sync_web.go:180-194 | opening a board nobody has used since a restart brings the saved snapshot back |
| `OfflineQueue.ServiceWorker.NetworkFirstWithQueue` | web/resources/static/sw.js:190-227 | a request the network fails is appended under the next id, if the store accepts it |
| `OfflineQueue.ServiceWorker.DeletePending` | web/resources/static/sw.js:408-417 | removes that item; the rest keep their order |
| `OfflineQueue.ServiceWorker.ReplayQueue` | web/resources/static/sw.js:455-503 | sends a prefix of the snapshot in order; an item leaves if and only if it was sent, the answer was 200 to 299 or 404, and the delete worked; posts the end or the error as the count of remaining items says |
| `OfflineQueue.GoneWereAnswered` | web/resources/static/sw.js:487-492 | an item leaves only after an answer of 200 to 299 or 404 and a delete that worked |
| `OfflineQueue.GoneIff` | web/resources/static/sw.js:455-503 | and leaves if and only if it was sent and that is so |
| `OfflineQueue.SyncedIffAllGone` | web/resources/static/sw.js:501-502 | the end is posted if and only if every item of the snapshot is gone |
| `OfflineQueue.StopsOnlyOnFailure` | web/resources/static/sw.js:488-499 | only a failed fetch or a failed delete stops a replay early; a refused request does not |
| `OfflineSync.ApplyQueueOk` | web/resources/static/sw.js:377-503 | every step of pages, triggers, replay, network and server keeps the queue sorted, one replay at most under way, and its count right |
| `OfflineSync.ReplaysAreSafe` | web/resources/static/sw.js:422-503 | in every interleaving: at most one replay is under way; each has sent a prefix of its snapshot in id order; one that announced the end left none of its snapshot in the queue, then or later |
| `OfflineSync.EndIffCleared` | web/resources/static/sw.js:501-502 | the end is announced if and only if the whole snapshot is gone |
| `OfflineSync.LeavesOnlyAnswered` | web/resources/static/sw.js:489-492 | in every interleaving an item leaves only when its own request, sent for whoever was logged in, was answered 200 to 299 or 404 |
| `OfflineSync.AnswerDecides` | web/resources/static/sw.js:487-494 | in every interleaving an answer of 200 to 299 or 404, and no other, makes the replay delete the item; any other leaves it queued, counts it, and the next is sent |
| `OfflineSync.CreateIs` | features/todo/handlers/todo_crud.go:171-226 | a create adds one open todo under its key unless the title is empty, nobody is logged in or the key is there; the status the page is told |
| `OfflineSync.ToggleIs` | features/todo/handlers/todo_crud.go:261-301 | a toggle flips one flag, or is answered 404 |
| `OfflineSync.DeleteIs` | features/todo/handlers/todo_crud.go:330-374 | a delete removes one todo, or is answered 404 |
| `OfflineSync.ClearIs` | features/todo/handlers/todo_crud.go:376-413 | a clear leaves the open todos |
| `OfflineSync.ReplyHasOneCause` | features/todo/handlers/todo_crud.go:171-413 | in every interleaving each reply comes from exactly one step of the server, which ran the request or failed to |
| `OfflineSync.QueuedChangeDoneIff` | features/todo/handlers/todo_crud.go:261-374 | a queued toggle or delete that left was settled by one step of the server; there it was done if and only if its todo was there and the look-up did not fail, and was undone although its todo was there if and only if the look-up failed |
| `OfflineSync.SurvivorsKeepOrder` | web/resources/static/sw.js:377-417 | two items that survive keep their order |
| `OfflineSync.CreatedOncePerRemoval` | features/todo/handlers/todo_crud.go:189-202 | at every state each key was inserted once for every removal, and once more if it is there, however often its create was sent, delayed or replayed |
| `OfflineSync.QueuedCreateHappened` | features/todo/handlers/todo_crud.go:171-226 | a queued create leaves only after its todo was created, for the user it was sent for; if nothing removed it, exactly once, and it is there; one without title, or replayed while nobody is logged in, stays |
| `OfflineSync.OneRowPerKey` | features/store/crdtstore/crdtstore.go:314-361 | in the store a key that is shown has one row, a key that is not has none |
| `OfflineSync.ReplayAfterDeleteBringsBack` | web/resources/static/sw.js:455-503 | a run on which a replayed create brings back a todo deleted meanwhile |
| `OfflineSync.KeylessCreateDuplicates` | features/todo/handlers/todo_crud.go:189-197 | a run on which one queued create without a key makes two todos |
| `OfflineSync.RefusedToggleIsDropped` | features/todo/handlers/todo_crud.go:273-276 | a run on which a queued toggle that the server failed to look up is answered 404 and leaves the queue, undone |
| `OfflineSync.ReplayedForAnother` | web/resources/static/sw.js:477-486 | a run on which a create queued by one user and replayed when another is logged in becomes the other's |
| `CrudLog.CrudConsumer.OnMessage` | internal/nats/crudproxy.go:164-186 | the table after a payload of each kind, saves and deletes that fail included; a payload without a user is dropped |
| `CrudLog.CrudConsumer.HandleCreate` | internal/nats/crudproxy.go:196-216 | a record under the origin's id, unless the title is empty, the id taken or the save fails |
| `CrudLog.CrudConsumer.HandleToggle` | internal/nats/crudproxy.go:218-235 | sets the flag of a record that is nobody's or the user's own, unless the save fails |
| `CrudLog.CrudConsumer.HandleDelete` | internal/nats/crudproxy.go:237-253 | deletes such a record, unless the delete fails |
| `CrudLog.CrudConsumer.HandleClearCompleted` | internal/nats/crudproxy.go:255-267 | the loop deletes exactly the user's completed records, past those that cannot be deleted |
| `CrudLog.PBStore.Create` | features/store/pbstore/pbstore.go:50-70 | a new record under the id the database gave, or nothing if the title is empty or the save fails |
| `CrudLog.PBStore.Get` | features/store/pbstore/pbstore.go:74-83 | found if and only if it is there and is nobody's, or the caller's, or the caller is nobody |
| `CrudLog.PBStore.Update` | features/store/pbstore/pbstore.go:119-134 | sets the title and the flag that the patch gives, and nothing else, of such a record, else NotFound; a failing save changes nothing |
| `CrudLog.PBStore.Delete` | features/store/pbstore/pbstore.go:138-150 | removes a visible record, else NotFound; a failing delete changes nothing |
| `CrudLog.PBStore.ClearCompleted` | features/store/pbstore/pbstore.go:156-173 | the loop removes exactly the completed records in scope and counts them; a record that cannot be deleted ends it, with those before it gone; without an owner the scope is everyone |
| `CrudLog.SweptExactly` | features/store/pbstore/pbstore.go:156-173 | a sweep takes the completed records of its owner, or of everyone without one, and nothing else |
| `CrudLog.TodoHandler.HandleCreate` | features/todo/handlers/todo_crud.go:171-226 | writes and publishes, also when replayed; a failing save does neither |
| `CrudLog.TodoHandler.HandleToggle` | features/todo/handlers/todo_crud.go:261-301 | writes; publishes the new flag unless it was replayed or the list after the write fails |
| `CrudLog.TodoHandler.HandleDelete` | features/todo/handlers/todo_crud.go:330-374 | writes; publishes under the same condition |
| `CrudLog.TodoHandler.HandleClearCompleted` | features/todo/handlers/todo_crud.go:376-413 | writes; publishes under the same condition |
| `CrudRuns.CallMatchesIff` | features/todo/handlers/todo_crud.go:171-401 | one call undisturbed by others: a replica that matched the origin's owned todos still does if and only if the call is not a replayed, unlistable or anonymous toggle, delete or clear that touches an owned todo |
| `CrudRuns.EveryPrefixMatchesIff` | internal/nats/crudproxy.go:159-192 | over whole runs of calls served one at a time the replica matches after every prefix if and only if no call is such a one |
| `CrudRuns.RedeliveryChangesNothing` | internal/nats/crudproxy.go:164-186 | a payload applied again right after itself changes nothing |
| `CrudRuns.StutteringChangesNothing` | internal/nats/crudproxy.go:164-186 | a log with payloads repeated right after themselves ends in the same state |
| `CrudRuns.OriginLogsAreWellformed` | features/todo/handlers/todo_crud.go:206-401 | in the log of any run of calls served one at a time each record is created once, open, before anything else is said of it |
| `CrudRuns.RestartRestoresIff` | internal/nats/crudproxy.go:159-192 | restarting the consumer from the start after any prefix ends in the same state if and only if no record it holds completed, and which the log keeps, was once passed over by a clear while open |
| `CrudRuns.RestartWithoutClears` | internal/nats/crudproxy.go:159-192 | for logs without clear_completed it always does |
| `CrudRuns.RestartedReplicaMatches` | internal/nats/crudproxy.go:159-192 | so after calls served one at a time, none diverging, a restarted replica is back at the origin's owned todos exactly under that condition |
| `CrudRuns.RestartCanLose` | internal/nats/crudproxy.go:255-267 | a log of three payloads whose restart loses a todo |
| `CrudRaces.ApplyInv` | features/todo/handlers/todo_crud.go:171-413 | every look, write, find, deletion, publish, refusal and half-done sweep of any number of concurrent handlers keeps two accounts: the changes record by record explain the owned todos, and the same with each clear done when it found its records explain them once the sweeps are over; nothing is entered twice, and only records that were made are named |
| `CrudRaces.PayloadsCommute` | internal/nats/crudproxy.go:196-267 | two payloads have the same effect in either order unless they are one user's and are a clear and a create or toggle, a record's create and anything about it, or two toggles of a record |
| `CrudRaces.ReorderedEndsTheSame` | internal/nats/crudproxy.go:159-192 | a log that holds the changes, in any order but that of conflicting ones, ends where the changes end |
| `CrudRaces.OrderedPublishesMatch` | features/todo/handlers/todo_crud.go:206-401 | in every interleaving of handlers and sweeps: if everything made was published, and conflicting changes in the order they were made, a clear counting from its find, the replica equals the owned todos |
| `CrudRaces.MatchesIffRecordsAgree` | features/todo/handlers/todo_crud.go:206-401 | in every interleaving and at every state, whatever was published: the replica equals the owned todos if and only if for each record the log and the changes to the table agree whether it is kept, that is made and after that neither deleted nor cleared while the last toggle completed it, and on what the last toggle says |
| `CrudRaces.FateIs` | internal/nats/crudproxy.go:196-267 | what becomes of one record under a whole log, from the order of its create, toggles, deletes and its user's clears |
| `CrudRaces.OrderedLogIsWellformed` | features/todo/handlers/todo_crud.go:206-401 | in every interleaving a log in order, all of it under users' names, creates each record once, open, before anything else is said of it |
| `CrudRaces.RestartedReplicaMatchesIff` | internal/nats/crudproxy.go:159-192 | on such a log a consumer restarted after any prefix is back at the owned todos if and only if no record is lost to a clear |
| `CrudRaces.TogglesPublishedSwapped` | features/todo/handlers/todo_crud.go:272-296 | a run on which two toggles of one todo, written in one order and published in the other, leave it open at the origin and completed in the replica |
| `CrudRaces.ToggleOvertakesCreate` | features/todo/handlers/todo_crud.go:206-296 | a run on which a toggle is published before its record's create, and is lost |
| `CrudRaces.ReopenedDuringSweep` | features/store/pbstore/pbstore.go:156-173 | a run on which a todo is reopened after a clear found it: everything is published as it was written, the origin deletes the open todo and the replica keeps it |
| `CrudRaces.CompletedDuringSweep` | features/store/pbstore/pbstore.go:156-173 | a run on which a todo is completed after a clear has looked: the origin keeps it and the replica deletes it |
| `Presence.Presence.constructor` | internal/collab/presence.go:104-118 | three and eight seconds unless positive durations are given; the join to be announced is stamped now |
| `Presence.Presence.Announce` | internal/collab/presence.go:154-157 | subscribing publishes that join with the stamp it was made with |
| `Presence.Presence.Apply` | internal/collab/presence.go:189-202 | join and cursor enter the roster, leave removes, any other kind changes nothing, and nobody else's entry changes; callbacks hear every event, so that following them shows the roster |
| `Presence.Presence.PublishCursor` | internal/collab/presence.go:130-139 | refreshes the local entry and broadcasts it |
| `Presence.Presence.Beat` | internal/collab/presence.go:176-181 | announces a join stamped now, without touching the local roster |
| `Presence.Presence.Depart` | internal/collab/presence.go:165-170 | announces a leave |
| `Presence.Presence.ExpireStale` | internal/collab/presence.go:205-225 | keeps exactly the local entry and those not older than the lifetime, and tells one leave for each of the others, so that following the callbacks still shows the roster |
| `Presence.Presence.Others` | internal/collab/presence.go:236-247 | everyone in the roster but oneself |
| `Presence.SelfNeverExpires` | internal/collab/presence.go:210-212 | over all runs the local entry goes only if a leave in that name is heard |
| `Presence.LeaverIsOut` | internal/collab/presence.go:189-202 | over all runs whoever leaves is out at once, and stays out until a join or a cursor in that name |
| `Presence.ListedAsHeard` | internal/collab/presence.go:189-225 | over all runs whoever is listed was put there by the last join or cursor in that name, kept as it came, with no leave since |
| `Presence.SilentPeerListedIff` | internal/collab/presence.go:143-225 | over all runs, exactly: a peer heard once more and then silent is listed if and only if no tick has come since, or the last tick came before its entry went stale |
| `Presence.OutByLifetimeAndAHalfIff` | internal/collab/presence.go:206-214 | so a peer heard within its lifetime is out one lifetime and a half after its last timestamp if and only if the last tick did not fall between the end of the lifetime and the moment the millisecond clock calls it over |
| `Presence.SilentPeerIsOut` | internal/collab/presence.go:143-225 | and is out, for good, one lifetime, half a lifetime and one millisecond after its last timestamp |
| `Presence.SilentPeerOverstays` | internal/collab/presence.go:206-214 | for every lifetime, every timestamp and every instant before that bound, a run that still lists the silent peer |
| `Presence.LivePeerStays` | internal/collab/presence.go:104-225 | over all runs a peer whose join waits g between being made and being sent, and that announces itself every hb over a delay of at most d, is never dropped once heard, if g + hb + d is at most the lifetime's whole milliseconds |
| `Presence.LivePeerStaysOnceRepeated` | internal/collab/presence.go:158-225 | from its second announcement on, hb + d within them is enough |
| `Presence.SlowPeerCanBeDropped` | internal/collab/presence.go:104-225 | for every g, hb and d with a larger sum some run drops a peer that never stopped announcing |
| `MigrateScope.FindContinuationLines` | scripts/migrate-scope.py:193-220 | the number of comment lines that go on with the SCOPE sentence |
| `MigrateScope.LeadingGroup` | scripts/migrate-scope.py:317-321 | where the comments and blank lines above the package line begin |
| `MigrateScope.PlaceComment` | scripts/migrate-scope.py:317-361 | inserts below the templ banner, or at the top of the leading group |
| `MigrateScope.MigrateFile` | scripts/migrate-scope.py:243-361 | reports a change and returns the rewritten lines exactly when the file has a package line, is no test and its leading group lacks the canonical form |
| `MigrateScope.RenderIsCanonical` | scripts/migrate-scope.py:236-240 | the rendered line has the canonical form whatever the description |
| `MigrateScope.RenderSays` | scripts/migrate-scope.py:236-240 | the rendered line letter for letter: both axes, and the description after a dash if there is one |
| `MigrateScope.VisibleIs` | scripts/migrate-scope.py:193-220 | the visible text of a line begins after its white space |
| `MigrateScope.ContinuesIff` | scripts/migrate-scope.py:193-220 | a comment goes on with the SCOPE sentence unless it is empty, a SCOPE line, or begins with a capital other than A and I |
| `MigrateScope.KindsAre` | scripts/migrate-scope.py:317-361 | what makes a line the package line, the templ banner, or part of the banner |
| `MigrateScope.CanonicalIff` | scripts/migrate-scope.py:44-47 | a comment is canonical if and only if its text spells out both axes up to the end or a character that cannot go on with the word |
| `MigrateScope.OneFileMigrated` | scripts/migrate-scope.py:243-361 | one file in full: the old SCOPE line and its continuation go, the new line comes on top, the file's own comment stays |
| `MigrateScope.TemplFileMigrated` | scripts/migrate-scope.py:317-361 | one generated file in full: the new line goes below the banner, its version line and the blank line after them |
| `MigrateScope.RunMovesOneBlock` | scripts/migrate-scope.py:243-361 | a changing run takes out at most one block, the first SCOPE line with all its continuations, and inserts one canonical line above the package line; all other lines stay in order |
| `MigrateScope.SecondRunIsQuietIff` | scripts/migrate-scope.py:288-361 | after a changing run a second one reports no change if and only if the templ banner, if there is one above the package line, lies in the leading comment group |
| `MigrateScope.SecondRunCanDeleteAComment` | scripts/migrate-scope.py:193-220 | a file on which the second run deletes a comment of the file's own |
| `EnvLines.Trim` | internal/secrets/secrets.go:126-135 | the result is trimmed, and a trimmed text is left alone |
| `EnvLines.TrimIsMiddle` | internal/secrets/secrets.go:126-135 | trimming takes away spaces and tabs only, only from the ends, and all of them there |
| `EnvLines.TrimSpace` | internal/secrets/secrets.go:126-135 | the two index loops compute it |
| `EnvLines.ReadLine` | internal/secrets/secrets.go:108-124 | the loop finds the first "=" and pairs the trimmed sides, or gives nothing |
| `EnvLines.SplitJoin` | internal/secrets/secrets.go:89-106 | splitting on newline undoes joining |
| `EnvLines.JoinSplit` | internal/secrets/secrets.go:89-106 | joining undoes splitting, and the pieces hold no newline |
| `EnvLines.ParseEnvLines` | internal/secrets/secrets.go:89-106 | the loop over the bytes with its one reused buffer equals splitting on newline and keeping the lines that parse |
| `EnvLines.ParsedIsPlain` | internal/secrets/secrets.go:108-124 | whatever the text, a parsed pair is trimmed, its key non-empty, without "=" and no comment |
| `EnvLines.PrintedLineReadsBackIffPlain` | internal/secrets/secrets.go:108-124 | a printed pair reads back as itself if and only if it is such a pair |
| `EnvLines.RoundTrip` | internal/secrets/secrets.go:81-106 | parsing the printed lines of any list of such newline-free pairs returns the list |
| `EnvLines.ReparseIsStable` | internal/secrets/secrets.go:81-106 | printing what any text parsed to and parsing that again changes nothing |
| `EnvLines.ParsedText` | internal/secrets/secrets.go:81-135 | one text in full: a comment, a line without "=", one with blanks and a second "=", one without a key |

## Left out

- Timestamps of todos: `writeItem` prints whole seconds, so they are not part of a todo here.
- Loro, PocketBase, NATS JetStream and IndexedDB internals: only the contracts named above.
- Notify.ReadAfterNotify: `Close`, which drops the version map as well as the documents, is not a step of these runs, and a failed projection is the lock given up before `Project`.
- The version channels of `Watch`: a late reader may see the first version ahead of queued smaller ones.
- `SendBlocking`, `SendCtx` and `Stats` of the hub, and drop-handler callbacks other than the drop list.
- HubRuns.EveryRunIsGood: plain `Unregister` is not a step of the runs, because handlers clean up with `UnregisterIfCurrent`; order across channel and ring is not claimed, because `Send` does not keep it.
- Peers.NoGhostPeers: one direction only; a live peer can be missing, as `Peers.LivePeerCanBeDropped` shows, and `Peers.ListedIff` says exactly when.
- PocketBase's base64 handling in `internal/collab/persist_pb.go:70-104`, saved snapshots that do not decode, and the wire form of the events that the whiteboard workers send to browsers.
- WhiteboardRaces.PersistedCatchesUp: NATS on, the document rehydrated first and saves that work are preconditions; a run for each of the first two shows what fails without it.
- OfflineSync.QueuedCreateHappened: the server runs requests one after another on the plain map that the store refines; projection failures appear as refused requests that change nothing (what a failed store call may leave is in `TodoRuns.FailedCallsTakePart`).
- Request headers, optimistic page fragments, background-sync registration and page caching of the service worker.
- Exactly-once for toggles: a replayed toggle flips again.
- The `OnRecordCreateRequest` hook and the (idem_key, owner) index in PocketBase mode, so that records there carry no idem_key; unacknowledged messages that are redelivered later rather than at once.
- CrudRuns.EveryPrefixMatchesIff: calls are served one at a time, every save works, and every published payload reaches the log; `CrudRaces.MatchesIffRecordsAgree` drops all three. An origin consuming its own log is not modelled.
- CrudRaces.OrderedPublishesMatch: one direction, because the order is sufficient and not necessary (two equal toggles may swap); the exact condition is `CrudRaces.MatchesIffRecordsAgree`. Saving or deleting a row that is gone may either fail or change nothing.
- CrudLog.PBStore.Create: the idem_key of the record is not stored, as the handlers of this model never read it.
- Presence.LivePeerStays: a live peer announces itself by joins only; its cursor messages are heard by the roster's runs but do not count as announcements here.
- Presence runs take ticks exactly on time and messages that are whole; NATS loss is covered only as silence.
- The description tables and prose clean-up of the migration script (a parameter), its path walk, and whitespace or letters outside ASCII in its patterns.
- Decryption, the process environment and multi-byte text in the env reader: characters stand for bytes.
- HTTP routing, auth and cookies, templates, skins, onboarding, the worker pool, retry backoff and the LLM client: plumbing around the cores, easy members.
