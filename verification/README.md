# Verified models of the conference platform

Dafny 4.11 models of the parts of the platform whose correctness spans several functions, with the properties
they are relied on for proved over every input, every run or every interleaving.  `dafny verify dfyconfig.toml`
checks everything.

- **Event room** (`EventRoomProtocol`, `EventRoom`): one upstream change stream broadcast to any number of
  cursors through a bounded linked list.  Each write that another goroutine can see without the room lock is a
  step of the protocol; the classes perform those steps on heap nodes and are proved to track it.
- **Shared watcher** (`EventWatcherProtocol`, `EventWatcherOutcomes`, `EventWatcher`): the registry of rooms, their
  wait groups, the garbage collector and the shutdown, with each region under a mutex as one step.
- **Audience** (`AudienceGeometry`, `Audience`, `RealArithmetic`): the staggered layout, the constant-time hit test
  and the neighbour lookups, in exact reals, against brute-force geometry.
- **Presence** (`OrderedSets`, `Presence`): joins and leaves in any order, with bounded sets that forget.
- **Trackers** (`TrackerProtocol`, `TrackerRuntime`): concurrent starts, stops, collections and shutdown around one
  WaitGroup.
- **Pagination** (`Pagination`): filter, sort, limit and next cursor of both resolvers, and the client's iterator.
- **Client machinery** (`LruCache`, `Semaphore`, `Throttling`, `Replay`).
- **Recordings** (`RecordStore`, `TrackUpdates`, `TalkPipeline`): the stored recordings under their unique indexes,
  track updates and the start and stop jobs of a talk, all delivered at least once.
- **Retries** (`Retrying`): exponential backoff and the number of releases of a job.
- `Wrappers` holds the option type.

Classes carry the fields the code mutates, and ghost fields for the history (`trace`, `nodes`, `entries`) that ties
them to the protocol.  A step that is not enabled leaves a state unchanged, so a theorem about every list of actions
is a theorem about every interleaving.

## What the code does not do

The models follow the code.  Where it falls short of what its comments, names or documentation suggest, the
condition under which it does is proved:

- A call of `Room.Next` after the room was closed panics (`BareAppendPanicsIffClosed`); the discipline of the shared
  room avoids it (`NeverPanicsAndCountsCursors`).
- A room looked up but not yet started counts as unused: a collection in between leaves it registered and closes a nil
  room (`UnstartedRoomCrashes`).  A failed `Watch` keeps every later `Close`, and so the shutdown, waiting
  (`FailureBlocksClose`, `FailedWatchExists`).  `CloseOutcomesIff` and `ShutdownReturnsIff` are the exact conditions.
- In a single row the hit test misses the part of a disc below 0.9 of the cell (`CandidatesSeeDisc`), and a layout
  that had to be scaled down is placed from a negative offset (`CellsFit`); one canvas shows both
  (`HoverMissesLowPoint`).
- A start that finds a live tracker or fails leaves the WaitGroup raised for ever (`LeakedAreFruitlessStarts`,
  `LeakExists`); closing an entry before its start has entered crashes (`CrashReachableIff`, `CrashExists`); a stop of
  an unknown tracker keeps the mutex (`MutexHeldIffMissed`, `MissedStopBlocksRuntime`); an entry can be left live with
  nobody to close it (`LiveEntryClosesIff`, `OrphanExists`).  `ShutdownCompletesIff` says when `Wait` can return.
- Next cursors do not carry the direction (`VerbatimCursorsIff`), so the replay's ascending iterator turns back after
  its first page (`IteratorListsIff`); the iterator starts over after its last page (`ExhaustedIteratorRestarts`); and a
  first cursor with an id and no time filters by one field and pages by another (`IdOnlyCursorIff`).
- A permit handed to a waiting caller is never returned (`AllReturnedIffNonePromoted`, `LostPermitExists`).
- An event fetch in flight when its iterator is dropped puts foreign events into the buffer (`StaleFetchBreaksIff`).
- The index meant to allow one active recording per room also allows only one stopped one
  (`RoomFinishesOneRecording`, `UnstoppableRecordingExists`).
- `RecordingReady` is never emitted if the stop comes after the last update (`NotEmittedIfStoppedLast`).
- The stop job of a recording is lost if the delivery that created it fails before emitting it
  (`RecordingsHaveStopJobs`), and the talk then ends only if the user asks (`RecordedTalkEndsIff`, `StuckExists`); a
  talk can be stranded live (`LiveTalkRecordsIff`, `StrandedExists`); and a failed stop of the tracker is not retried
  (`TrackerStopsIff`, `UnstoppedTrackerExists`).

## Model

| member | source | states |
|---|---|---|
| EventRoomProtocol.CursorReadsSlice | services/event/shared.go:233-330 | In every interleaving of appends, evictions, cursor steps and closes, the events a cursor has returned are exactly a contiguous slice of the history that starts where the cursor was opened. |
| EventRoomProtocol.WindowIsBounded | services/event/shared.go:223-255 | Between two appends to an open room: the list from tail to head has min(n, capacity) edges, exactly its nodes are not evicted, and a cursor's node is evicted iff the cursor has more unread events than fit. |
| EventRoomProtocol.NextDeliversOldestUnread | services/event/shared.go:303-330 | An undisturbed Next on an open room fails if more events are unread than fit, blocks if none is, and otherwise returns the oldest unread event and moves past it. |
| EventRoomProtocol.CloseWakesEveryone | services/event/shared.go:277-330 | Once a room is closed every node up to its head is evicted and signalled, and every cursor is at one of them; a fresh or blocked Next of any cursor, opened before or after, is enabled and fails with ErrCursorClosed; one past both checks still delivers its event. |
| EventRoomProtocol.CallOutcomes | services/event/shared.go:303-338 | From every reachable state, open room or closed: what each step of Next does to its cursor.  A blocked call that its context wakes ends with the context's error, one that its closed channel wakes with ErrCursorClosed, and one that hasNext wakes ends so only if its node was evicted meanwhile; a failed call closes the cursor, delivers nothing and lowers the counter once. |
| EventRoomProtocol.ClosedStaysClosed | services/event/shared.go:277-285 | No schedule reopens a closed room. |
| EventRoomProtocol.CloseTerminates | services/event/shared.go:277-285 | After the upstream fails or the owner closes the room, every schedule in which the lock holder takes its steps, one for each node from tail to head and two more, ends with the room closed, whatever cursors are opened, read and closed in between. |
| EventRoomProtocol.CursorsDoNotDisturbRoom | services/event/shared.go:257-338 | Over every schedule the room goes through exactly what the steps of the lock holder alone do to it. |
| EventRoomProtocol.EvictionFinishes | services/event/shared.go:279-283 | From any point of the eviction loop the remaining evictions and the reset close the room and leave the cursors alone. |
| EventRoomProtocol.NeverPanicsAndCountsCursors | services/event/shared.go:176-213 | openedCursors is always the number of cursors not closed; a hasNext channel is closed twice only by an append to a closed room, and never under the discipline of the shared room. |
| EventRoomProtocol.BareAppendPanicsIffClosed | services/event/shared.go:233-255 | An append panics, at its signal, exactly if the room has been closed. |
| EventRoomProtocol.WokenNodeIsLinked | services/event/shared.go:359-376 | A signalled node that is not evicted has a successor, so Next never reads a nil next pointer. |
| EventRoomProtocol.RunKeepsInv | services/event/shared.go:233-338 | The list and cursor invariants hold after every schedule. |
| EventRoomProtocol.RunGrows | services/event/shared.go:257-330 | The history only grows; a cursor keeps its subscription point and what it has returned. |
| EventRoom.EventNode.SetNext | services/event/shared.go:359-364 | Links a fresh node and then signals; a signalled node has a successor or is evicted. |
| EventRoom.EventNode.LinkNext | services/event/shared.go:361-361 | The link alone leaves the node fit to be read. |
| EventRoom.EventNode.SignalNext | services/event/shared.go:362-362 | The signal needs the link to be in place. |
| EventRoom.EventNode.ResetNext | services/event/shared.go:374-376 | Signals an evicted node without linking one. |
| EventRoom.EventNode.Evict | services/event/shared.go:378-380 | Sets the flag and nothing else. |
| EventRoom.Room.constructor | services/event/shared.go:223-231 | One empty seed node, head and tail, and no cursors. |
| EventRoom.Room.Next | services/event/shared.go:233-255 | Performs exactly the append and trim steps of the protocol for a received event, or a whole close when upstream failed, and appends one fresh node; appending to a closed room panics. |
| EventRoom.Room.Append | services/event/shared.go:246-246 | The link and signal steps: the new head is one fresh node behind the old list. |
| EventRoom.Room.TrimList | services/event/shared.go:247-253 | The trim step: grows the length or drops the tail, and frees the lock. |
| EventRoom.Room.DropTail | services/event/shared.go:251-252 | Evicts the tail and moves it to its successor. |
| EventRoom.Room.CloseLocked | services/event/shared.go:277-285 | The eviction loop and the reset the first time, nothing but the first step after that; the room is closed. |
| EventRoom.Room.EvictList | services/event/shared.go:280-282 | The loop visits exactly the nodes from tail to the end of the list, one eviction step each. |
| EventRoom.Room.FinishClose | services/event/shared.go:283-284 | Resets the head, after which the room is closed. |
| EventRoom.Room.Close | services/event/shared.go:271-275 | A close by the owner at any time: the whole close the first time, nothing but its first step after that. |
| EventRoom.Room.OpenCursor | services/event/shared.go:257-261 | Registers one fresh cursor at the head. |
| EventRoom.SharedCursor.CloseOnce | services/event/shared.go:332-338 | Closes, and lowers the shared counter the first time only. |
| EventRoom.SharedCursor.Close | services/event/shared.go:332-338 | The close step of the protocol for this cursor. |
| EventRoom.SharedCursor.NextCheck | services/event/shared.go:303-307 | The first eviction check: fails with ErrCursorClosed and closes, or goes on to block. |
| EventRoom.SharedCursor.NextWake | services/event/shared.go:309-329 | Whichever case the select takes: the second eviction check, the closed channel with ErrCursorClosed, or the context with its error. |
| EventRoom.SharedCursor.NextRead | services/event/shared.go:316-322 | Advances by one node and returns its event, even if the node was evicted since the check; there always is one. |
| EventWatcherProtocol.CountersAreExact | services/event/shared.go:161-203 | Over all runs a room's wait group is its start and its iteration in progress plus its failures, its open-cursor count is the number of subscribers, and no two keys share a room. |
| EventWatcherOutcomes.FailureBlocksClose | services/event/shared.go:169-187 | After one failed Watch or one unexpected end of the iteration, no Close of that room ever passes the wait group. |
| EventWatcherOutcomes.FailedWatchExists | services/event/shared.go:165-175 | The shortest run into that: one failed Watch, over every later schedule. |
| EventWatcherOutcomes.CloseOutcomesIff | services/event/shared.go:165-213 | From every reachable state, a goroutine about to close a room can still get past the wait group exactly if the room has not failed, and can still meet a nil room exactly if nobody has tried to start it. |
| EventWatcherOutcomes.CloseCrashesIffNeverTried | services/event/shared.go:209-213 | A Close that passes the wait group meets a nil room exactly if nobody has ever tried to start it; otherwise it leaves the room closed and its goroutine is done. |
| EventWatcherOutcomes.UnstartedRoomCrashes | services/event/shared.go:65-87 | How that happens: a collection between the lookup and the start of a room, which leaves the room registered. |
| EventWatcherOutcomes.CollectedUnderSubscriberIff | services/event/shared.go:79-87 | The sweep takes an unused started room out of the registry and closes it; it comes to be used all the same exactly if a client is between looking it up and opening its cursor.  Before a shutdown, with nobody watching the nil id, the room was registered. |
| EventWatcherOutcomes.CollectSparesUsed | services/event/shared.go:60-67 | From every reachable state the candidates of a collection are exactly the registered rooms no client has a cursor on. |
| EventWatcherOutcomes.SweepSparesUsed | services/event/shared.go:79-88 | From every reachable state a candidate that a client has a cursor on by now is only crossed off; any other gets one closer, and the id it has by now leaves the registry. |
| EventWatcherOutcomes.SubscriptionEffect | services/event/shared.go:34-44 | A cursor is opened on the client's room and counted until it is closed. |
| EventWatcherOutcomes.AbandonedStaysUnused | services/event/shared.go:79-87 | A room that is not registered and that nobody has in hand is never used again. |
| EventWatcherOutcomes.WatchReturnsClosedRoom | services/event/shared.go:34-44 | Watch on a registered, started room returns a cursor on that room, which is closed exactly if the room's iteration has ended. |
| EventWatcherOutcomes.ShutdownReturnsIff | services/event/shared.go:93-112 | A shutdown under way can return exactly if none of the rooms it waits for has failed and each has been started or has a client that may still start it; otherwise the watcher's mutex is held for ever. |
| EventWatcherOutcomes.ShutdownHandsOver | services/event/shared.go:93-112 | The shutdown hands exactly the registered rooms to closers, empties the registry and keeps the mutex. |
| EventWatcherOutcomes.ShutdownAdmitsNobody | services/event/shared.go:34-37 | From then on nobody is admitted. |
| EventWatcherProtocol.RunKeepsInv | services/event/shared.go:34-213 | The registry, client and counter invariants hold after every schedule. |
| EventWatcher.Watcher.GetOrCreate | services/event/shared.go:120-139 | Returns the registered room of the key, or registers one fresh room for it. |
| EventWatcher.Watcher.Begin | services/event/shared.go:161-170 | Finds the room started, or raises its wait group before calling Watch. |
| EventWatcher.Watcher.Watched | services/event/shared.go:170-195 | A successful Watch gives the room its id; a failed one leaves the wait group raised. |
| EventWatcher.Watcher.Collect | services/event/shared.go:60-67 | The candidates are exactly the registered rooms that are not started or have no open cursors. |
| EventWatcher.Watcher.Sweep | services/event/shared.go:79-88 | Exactly the candidates that are still not started or without open cursors are handed to closers, and their ids leave the registry. |
| EventWatcher.Watcher.OpenedAreSubscribers | services/event/shared.go:198-203 | What a room reports as its open cursors is the number of clients that have one. |
| EventWatcher.Watcher.Shutdown | services/event/shared.go:93-112 | No more admissions; every registered room gets a closer, and the registry is empty. |
| EventWatcher.Watcher.EndIteration | services/event/shared.go:178-190 | Leaves the room closed, and lowers the wait group unless the error was unexpected. |
| EventWatcher.Watcher.CloseShared | services/event/shared.go:209-213 | Closes a started room once its wait group is down. |
| Audience.Renderer.HoverPeer | web/src/components/room/audience.ts:278-305 | Agrees with brute force over all peers: it returns a peer at minimum distance among those whose disc contains the point, and nobody iff no disc does; in a single row only above 0.9 of the cell. |
| Audience.Renderer.Hover | web/src/components/room/audience.ts:278-305 | The same in terms of user ids: an id is that of a closest peer under the pointer; nobody means that no peer in reach is, or that a closest one has an empty id. |
| Audience.Renderer.PickClosest | web/src/components/room/audience.ts:292-303 | The loop over the candidates finds a closest containing one, or none. |
| Audience.Renderer.CandidatesSeeContaining | web/src/components/room/audience.ts:278-290 | On the placed peers, a disc that contains the point is among the three candidates iff the point is in the window. |
| AudienceGeometry.CandidatesSeeDisc | web/src/components/room/audience.ts:279-290 | A peer whose disc contains the point is among the three candidates, except from 0.9 of the cell downwards in a single row. |
| AudienceGeometry.ColumnOfDisc | web/src/components/room/audience.ts:284-287 | Such a peer is in the column the hit test computes for its row. |
| AudienceGeometry.RowOfDisc | web/src/components/room/audience.ts:279-282 | And in one of the three rows it looks at, exactly under that condition. |
| Audience.Renderer.CalcPositions | web/src/components/room/audience.ts:316-376 | Sizes and places all peers, in order, at the cells of the layout. |
| Audience.Renderer.CalcSizes | web/src/components/room/audience.ts:320-349 | The two rounds leave the fields of the layout, well formed. |
| Audience.Renderer.FirstRound | web/src/components/room/audience.ts:323-328 | The approximated cell and the grid it leads to. |
| Audience.Renderer.FitCell | web/src/components/room/audience.ts:331-332 | The cell that makes the columns and half a cell fit the width. |
| Audience.Renderer.Rescale | web/src/components/room/audience.ts:333-334 | The height taken, and the cell scaled down to the height. |
| Audience.Renderer.PlacePeers | web/src/components/room/audience.ts:351-375 | After the nested loops every peer is at its cell's coordinates. |
| Audience.Renderer.PlacePeer | web/src/components/room/audience.ts:359-373 | One round of the inner loop places one more peer and moves no other. |
| Audience.Renderer.MovePeer | web/src/components/room/audience.ts:361-372 | Base, half a cell, padding, stagger: the coordinates of the cell. |
| Audience.Renderer.AtCell | web/src/components/room/audience.ts:486-495 | Returns the peer of the layout's cell, and nobody before anything is placed. |
| AudienceGeometry.GridOf | web/src/components/room/audience.ts:326-328 | The grid has room for all peers and no empty row; there are fewer columns than peers if it is staggered, and else one row. |
| AudienceGeometry.FittedCell | web/src/components/room/audience.ts:331-332 | The fitted cell is positive and leaves half a cell free beside the columns. |
| AudienceGeometry.LayoutIsWellFormed | web/src/components/room/audience.ts:316-349 | For every number of peers, canvas and first estimate, the layout is well formed and fits. |
| AudienceGeometry.LayoutIsTight | web/src/components/room/audience.ts:318-341 | The layout is determined: staggered iff n - 1 first cells cover the width, then with the least number of columns of first cells that does; the cell is the largest that MAX_SIZE, the canvas, the columns with half a cell beside them and the height allow; and the vertical offset is the least of its two bounds. |
| AudienceGeometry.GridCovers | web/src/components/room/audience.ts:326-327 | The first round's part of that, for the grid of any first cell. |
| AudienceGeometry.AtInvertsPlacement | web/src/components/room/audience.ts:351-359 | The grid lookup returns peer i exactly for the cell peer i is placed in. |
| AudienceGeometry.HoverMissesLowPoint | web/src/components/room/audience.ts:279-290 | A canvas of 100 by 30 with one peer, where the layout is scaled and starts above the canvas, and a covered point is not among the candidates. |
| AudienceGeometry.LowIsALayout | web/src/components/room/audience.ts:320-349 | The layout of that example, with the square root the code takes as its first estimate. |
| Audience.Renderer.CoveredBelowWindow | web/src/components/room/audience.ts:278-305 | On that canvas the point is covered and lies below the window of the hit test. |
| AudienceGeometry.CellsFit | web/src/components/room/audience.ts:329-349 | Every cell lies inside the width, stagger included; the stack of rows is at most the height; the cells lie inside the height iff no scaling was needed. |
| AudienceGeometry.LayoutCellsFit | web/src/components/room/audience.ts:329-349 | The same for any well-formed layout that fits. |
| AudienceGeometry.NeighboursAreTheOverlaps | web/src/components/room/audience.ts:449-453 | bottomLeft, bottomMiddle and bottomRight together return exactly the peers in lower rows whose discs intersect the given one, for either row parity. |
| AudienceGeometry.OverlappingCells | web/src/components/room/audience.ts:509-519 | The three lookups return exactly the peers of three cells. |
| AudienceGeometry.CellsIntersect | web/src/components/room/audience.ts:353-374 | Discs of a staggered grid intersect exactly for those cells. |
| AudienceGeometry.SingleRowHasNoNeighbours | web/src/components/room/audience.ts:509-519 | In a single row the lookups find nobody. |
| Presence.PresenceIsOrderIndependent | web/src/components/room/aggregators/peers.ts:85-118 | For any two orders of events with at most one join and one leave per session, in runs that never add to a full collection: the sessions shown are exactly those that joined and never left, and a user is present iff one of theirs is. |
| Presence.PresenceWithinCaps | web/src/components/room/aggregators/peers.ts:85-123 | With few sessions and users in all every order gives that presence, and so does a replay after a reset with one ghost place to spare. |
| Presence.SmallRoomsEvictNothing | web/src/platform/cache/fifo.ts:9-35 | With few sessions and users in all no run adds to a full collection. |
| Presence.ReplayAfterReset | web/src/components/room/aggregators/peers.ts:120-123 | After a reset, replaying the events in any order gives the same presence, if neither run adds to a full collection. |
| Presence.RunTracks | web/src/components/room/aggregators/peers.ts:85-118 | After every prefix the aggregator shows the sessions joined and not left so far, and its ghosts are those left before joining. |
| Presence.JoinEffect | web/src/components/room/aggregators/peers.ts:85-104 | With room for it, a join shows its session iff the session is no ghost, and changes nothing else. |
| Presence.JoinExactly | web/src/components/room/aggregators/peers.ts:89-104 | With or without room: a ghost is skipped, a user keeps ten sessions at most, and in a full room the user who came first goes with all sessions. |
| Presence.LeaveEffect | web/src/components/room/aggregators/peers.ts:106-118 | A leave hides its session, or makes a ghost of one not shown; a user without sessions loses the status, and everybody else keeps sessions and clap. |
| Presence.ReactEffect | web/src/components/room/aggregators/peers.ts:63-82 | A reaction of an absent user changes nothing.  A starting clap of a present user takes the event's time, a stopping one clears it, and any other reaction keeps it; a full map may forget its oldest status. |
| Presence.GhostBeforeJoin | web/src/components/room/aggregators/peers.ts:86-89 | A join is skipped exactly if the session's leave was seen before it. |
| Presence.PeerAggregator.Put | web/src/components/room/aggregators/peers.ts:49-83 | One event changes the collections as the specification step does. |
| Presence.PeerAggregator.OnJoin | web/src/components/room/aggregators/peers.ts:85-104 | The join step, with the bounds of the two collections. |
| Presence.PeerAggregator.OnLeave | web/src/components/room/aggregators/peers.ts:106-118 | The leave step. |
| Presence.PeerAggregator.SetTime | web/src/components/room/aggregators/peers.ts:38-47 | Exactly the statuses with a clap not older than seven seconds survive, unchanged and in their order. |
| Presence.PeerAggregator.Expire | web/src/components/room/aggregators/peers.ts:39-46 | One status of that loop. |
| Presence.PeerAggregator.Clear | web/src/components/room/aggregators/peers.ts:120-123 | Empties the two maps and keeps the ghosts. |
| OrderedSets.Without | web/src/platform/cache/fifo.ts:19-35 | Deleting removes exactly the element. |
| OrderedSets.WithoutAt | web/src/platform/cache/fifo.ts:19-35 | Of distinct elements the others close up around the deleted one in their order. |
| OrderedSets.Add | web/src/platform/cache/fifo.ts:27-35 | A present element leaves the order as it is, and a new one comes last; the elements stay distinct. |
| OrderedSets.FifoAddKeepsNewest | web/src/platform/cache/fifo.ts:19-35 | A bounded set with room keeps its elements; a full one loses the oldest unless it is the one added, and keeps the others in order. |
| TrackerProtocol.WaitGroupIsConserved | services/tracker/tracker.go:54-97 | Over all runs the WaitGroup counter is the pending starts plus the live or closing entries plus the starts that left nobody to call Done; it is never negative. |
| TrackerProtocol.WaitMeansAllClosed | services/tracker/tracker.go:135-142 | When Wait returns nobody is starting, nothing is live or closing, and every tracker ever created has been closed exactly once. |
| TrackerProtocol.TrackersAreNotLost | services/tracker/tracker.go:77-97 | No tracker is closed twice, a start replaces an entry's tracker only after it was closed, and nobody gets at an entry whose tracker is being closed. |
| TrackerProtocol.ShutdownCompletesIff | services/tracker/tracker.go:54-163 | Once the shutdown has begun, with any starts still pending, Wait can return exactly if nothing has leaked and every entry has a closing goroutine for each start still waiting for its lock and one more if it is live. |
| TrackerProtocol.WaitReturnsIffNothingLeaked | services/tracker/tracker.go:73-90 | With nothing pending or open the counter is zero iff nothing leaked; after a leak it never is. |
| TrackerProtocol.LeakedAreFruitlessStarts | services/tracker/tracker.go:54-97 | Over every schedule each registration is still waiting or has entered, each start that entered has made a tracker or leaked, and those that leaked are exactly the ones that found the entry live or could not create a tracker. |
| TrackerProtocol.LeakExists | services/tracker/tracker.go:76-84 | One run that leaks: a second start of a live tracker. |
| TrackerProtocol.CrashReachableIff | services/tracker/tracker.go:189-210 | From any reachable state, without a new start, stop or collection, some schedule crashes iff an entry nobody has entered has a closing goroutine or would get one from the shutdown; the start that made it is still waiting for its lock. |
| TrackerProtocol.CrashIffNeverEntered | services/tracker/tracker.go:195-205 | A closing goroutine meets a nil tracker exactly if it gets the entry's lock before the start that made the entry, which is still waiting for it. |
| TrackerProtocol.CrashExists | services/tracker/tracker.go:76-126 | The shortest such run: start, stop, and the closing goroutine before the start. |
| TrackerProtocol.HeldMutexExists | services/tracker/tracker.go:105-113 | A stop before any start holds the mutex over every later schedule. |
| TrackerProtocol.MutexHeldIffMissed | services/tracker/tracker.go:105-113 | Over every schedule the runtime's mutex ends up held exactly if some stop has missed. |
| TrackerProtocol.MissedStopBlocksRuntime | services/tracker/tracker.go:105-113 | After a stop that found nothing, no start, stop, collection or shutdown can begin. |
| TrackerProtocol.LiveEntryClosesIff | services/tracker/tracker.go:105-163 | From every reachable state a live entry can still be closed exactly if a goroutine waits to close it, or it is registered and neither a missed stop nor a shutdown has frozen the map. |
| TrackerProtocol.OrphanStaysLive | services/tracker/tracker.go:105-163 | A live entry for which that fails stays live over every schedule, and keeps the WaitGroup above zero. |
| TrackerProtocol.OrphanExists | services/tracker/tracker.go:59-97 | How one arises: stop, second start of the same entry, collection, and the collection's closer getting the lock first. |
| TrackerProtocol.LeaksAccumulate | services/tracker/tracker.go:73-90 | Leaks are never undone. |
| TrackerProtocol.CollectTakes | services/tracker/tracker.go:146-165 | After a collection, from every reachable state, a key is in the map iff it was, its entry has not failed and is still to expire; the entry of each key taken gains one closer, and nothing else changes. |
| TrackerProtocol.ShutdownHandsOutAll | services/tracker/tracker.go:136-142 | The shutdown gives each entry in the map one closer and changes nothing else but the flag. |
| TrackerProtocol.RunKeepsInv | services/tracker/tracker.go:49-211 | An entry holds an open tracker exactly while it is live or closing, over all runs. |
| TrackerRuntime.Runtime.Register | services/tracker/tracker.go:54-74 | Registers or reuses the key's entry and raises the WaitGroup, unless the runtime is stopping. |
| TrackerRuntime.Runtime.Reuse | services/tracker/tracker.go:59-62 | An entry in the map only gets the new expiry. |
| TrackerRuntime.Runtime.Insert | services/tracker/tracker.go:62-72 | A missing key gets one fresh entry. |
| TrackerRuntime.Runtime.Enter | services/tracker/tracker.go:76-97 | Under the entry's mutex: already live, failed, or live with the tracker just made. |
| TrackerRuntime.Runtime.Stop | services/tracker/tracker.go:100-121 | Finds the entry, or reports a stopping runtime or a missing key; only the last keeps the mutex. |
| TrackerRuntime.Runtime.BeginClose | services/tracker/tracker.go:195-202 | Takes up a live entry, panics on one nobody has entered, and leaves failed, closing and closed ones alone. |
| TrackerRuntime.Runtime.EndClose | services/tracker/tracker.go:203-208 | Marks the entry closed and lowers the WaitGroup. |
| TrackerRuntime.Runtime.Collect | services/tracker/tracker.go:146-165 | Exactly the failed and the expired entries leave the map and are handed to closers. |
| TrackerRuntime.Runtime.TakeExpired | services/tracker/tracker.go:150-157 | The loop over the map. |
| TrackerRuntime.Runtime.Shutdown | services/tracker/tracker.go:136-141 | No more starts; every registered entry gets a closer. |
| Pagination.PagesEnumerate | services/cmd/rtc/web/graph.go:175-225 | For both resolvers, any requested limit and either direction, following the cursors terminates and lists exactly the documents of the scope, sorted, each once. |
| Pagination.PagesAreListing | services/cmd/confa/web/graph.go:247-261 | From any pageable lookup the concatenated pages are the whole listing. |
| Pagination.PageSplitsListing | services/event/mongo.go:94-127 | A page and the rest behind its next cursor are the listing. |
| Pagination.CursorCutsListing | services/event/mongo.go:165-201 | The filter for the cursor of document k leaves exactly the documents after k. |
| Pagination.Listing | services/event/mongo.go:100-110 | Sorted by (createdAt, id) in the chosen direction, with exactly the collection's documents. |
| Pagination.SortedIsUnique | services/event/mongo.go:100-110 | There is only one such order. |
| Pagination.MatchesIsUpwardClosed | services/confa/mongo.go:177-216 | What the cursor's filter admits follows the cursor in the sort order and satisfied the first filter. |
| Pagination.LookupById | services/event/mongo.go:165-201 | A lookup by id finds that document of the scope or nothing. |
| Pagination.LookupFinds | services/confa/mongo.go:177-216 | Any other lookup finds the documents of the scope with its handle, or those its cursor precedes, by time and id or by the one of them it has. |
| Pagination.QueryLimit | services/cmd/confa/web/graph.go:676-682 | A requested limit in range passes unchanged, zero included for events; any other becomes the batch limit, 3000 for events and 100 for confas. |
| Pagination.ResolverLimitPassesFetch | services/confa/mongo.go:108-112 | The repository's own clamp to 500 never changes a resolver's limit. |
| Pagination.Respond | services/cmd/rtc/web/graph.go:207-225 | All documents found are returned, and the next cursor names the last one: on every nonempty page for events, only on a full one for confas. |
| Pagination.LastPageIsRest | services/cmd/confa/web/graph.go:251-260 | Where no next cursor is offered, the page was everything left. |
| Pagination.VerbatimCursorsIff | services/cmd/rtc/web/graph.go:216-222 | Sent back unchanged, the next cursor, which has no direction, enumerates the listing of any pageable lookup, with either resolver, iff the direction was descending, there is no second page to ask for, or the scope has a single document. |
| Pagination.IteratorListsIff | web/src/api/event.ts:65-104 | The client's iterator, started from any cursor such as the replay's ascending one with a time, lists what comes after it iff the cursor was descending, nothing comes after it, or the scope has a single event. |
| Pagination.IterateDescends | web/src/api/event.ts:65-104 | Once it asks in descending order, the iterator goes through exactly the pages of the resolver. |
| Pagination.ExhaustedIteratorRestarts | web/src/api/event.ts:65-104 | The client's iterator, asked again after an empty page, starts over with the newest document. |
| Pagination.IdOnlyCursorIff | services/event/mongo.go:165-201 | With a first cursor that has an id and no time, the pages are the listing of the first filter iff there is one page, or every document of the scope after that page also satisfies the id filter. |
| Pagination.IdOnlyCursorChangesFilter | services/event/mongo.go:192-195 | A collection where they are not: the second page returns a document the first filter had excluded. |
| LruCache.KeepsMostRecent | web/src/platform/cache/lru.ts:13-33 | After any accesses the map holds exactly the most recently accessed distinct keys, as many as it has room for, in recency order. |
| LruCache.CachedIff | web/src/platform/cache/lru.ts:13-33 | A key is held iff it was accessed and fewer different keys than there is room for were accessed since. |
| LruCache.RecencyIsOrdered | web/src/platform/cache/lru.ts:13-23 | The recency list contains the accessed keys ordered by last access. |
| LruCache.AccessKeepsLastN | web/src/platform/cache/lru.ts:25-33 | One access, hit or miss, keeps the map a suffix of the recency list. |
| LruCache.LRUMap.Peek | web/src/platform/cache/lru.ts:9-11 | Reads without touching the order. |
| LruCache.LRUMap.Get | web/src/platform/cache/lru.ts:13-23 | A hit moves the key to the end. |
| LruCache.LRUMap.Set | web/src/platform/cache/lru.ts:25-33 | A full map drops its first key; the key holds the value, and the other entries are unchanged. |
| LruCache.LRUMap.GetOrSet | web/src/components/room/profiles.ts:32-54 | The profile cache's access: the stored value on a hit, the new one on a miss. |
| Semaphore.PermitsAreConserved | web/src/platform/sync/index.ts:101-130 | Free permits, direct holders and everyone ever promoted always add up to the capacity. |
| Semaphore.HoldersWithinCapacity | web/src/platform/sync/index.ts:101-130 | Live holders never exceed the capacity, and nobody waits while a permit is free. |
| Semaphore.PromotedInArrivalOrder | web/src/platform/sync/index.ts:122-130 | Promotion is in order of arrival and never passes a waiting caller. |
| Semaphore.AllReturnedIffNonePromoted | web/src/platform/sync/index.ts:106-119 | When every caller has aborted, all permits are free again iff nobody was ever promoted. |
| Semaphore.AcquireEffect | web/src/platform/sync/index.ts:101-110 | A call gets a free permit at once or queues up last. |
| Semaphore.AbortEffect | web/src/platform/sync/index.ts:109-131 | After its abort a caller neither holds a permit nor waits; a permit given at once goes to whoever waited longest or is free again, one it was promoted to is gone, and the others wait on in order. |
| Semaphore.LostPermitExists | web/src/platform/sync/index.ts:101-130 | A semaphore of one permit whose two callers have both aborted and whose permit is never free again. |
| Semaphore.RunKeepsInv | web/src/platform/sync/index.ts:101-130 | Conservation and the order of the queue hold after every list of calls and aborts. |
| Semaphore.Semaphor.Acquire | web/src/platform/sync/index.ts:101-120 | Grants a free permit at once, or queues the caller at the end. |
| Semaphore.Semaphor.AbortHolder | web/src/platform/sync/index.ts:106-109 | A direct holder's abort releases once. |
| Semaphore.Semaphor.AbortWaiter | web/src/platform/sync/index.ts:115-118 | A waiting caller's abort removes it from the queue; a promoted one's changes no permit. |
| Semaphore.Semaphor.ReleaseFirstInQueue | web/src/platform/sync/index.ts:122-130 | Frees a permit, or hands it to the first in the queue. |
| Throttling.RunsNeverOverlap | web/src/platform/sync/index.ts:35-65 | A run starts only when none is in progress. |
| Throttling.StartsIff | web/src/platform/sync/index.ts:35-66 | A call starts a run iff none is in progress and the timer is not set, and else is promised the next; the timer starts one iff somebody was promised it. |
| Throttling.AnsweredByLaterRun | web/src/platform/sync/index.ts:35-53 | A call is answered, if at all, by the first run that starts at or after it. |
| Throttling.NoCallIsLost | web/src/platform/sync/index.ts:55-62 | Once the function has returned, the timer has fired and the function has returned again, every call made so far has its answer. |
| Throttling.RunKeepsInv | web/src/platform/sync/index.ts:35-65 | Promises are resolved in the order of the runs, and a call is never forgotten once made. |
| Throttling.Throttler.Do | web/src/platform/sync/index.ts:35-50 | Starts a run when ready; otherwise asks for a trailing run and returns the shared promise. |
| Throttling.Throttler.AfterFunc | web/src/platform/sync/index.ts:50-56 | Resolves the previous promise with the run's result and sets the timer. |
| Throttling.Throttler.OnTimer | web/src/platform/sync/index.ts:56-62 | Becomes ready, and starts one trailing run if it was asked for. |
| Replay.EventsAreConserved | web/src/components/room/replay.ts:165-186 | Over every run of fetches, ticks, seeks and loads with no fetch in flight across a dropped iterator, what was put since the last reset followed by the undelivered tail is the fetched stream. |
| Replay.TickDeliversDueEvents | web/src/components/room/replay.ts:305-319 | On a sorted stream a tick that does not go back leaves the aggregators having seen exactly the fetched events up to then, once each, in order. |
| Replay.SeekBackShowsUpTo | web/src/components/room/replay.ts:165-177 | A seek back takes everything from the aggregators, keeps the buffer up to the first page and drops iterator and buffer from the second on; a tick at the new position then shows exactly the fetched events up to it. |
| Replay.LoadStartsOver | web/src/components/room/replay.ts:91-107 | A load leaves nothing of the old recording shown, buffered or current. |
| Replay.FetchTakesNextPage | web/src/components/room/replay.ts:283-302 | An undisturbed fetch takes the next part of the stream; it brings nothing exactly at the end. |
| Replay.WholeStreamIsDelivered | web/src/components/room/replay.ts:283-319 | From any state with no fetch in flight, pages of any size reach an empty page, and after an empty page one tick past the last event has delivered the whole stream. |
| Replay.StaleFetchBreaksIff | web/src/components/room/replay.ts:165-177 | With a fetch in flight a load or a seek back breaks conservation iff it drops the iterator, which a seek back does from the second page on, and the fetch brings anything. |
| Replay.StaleSeekExists | web/src/components/room/replay.ts:165-177 | Such a seek: the second page is on its way when the iterator is dropped. |
| Replay.DueCounts | web/src/components/room/replay.ts:305-319 | The delivery loop stops exactly at the first event that is not due. |
| Replay.RunKeepsInv | web/src/components/room/replay.ts:165-175 | Conservation holds at every step, and up to the end of the second page the buffer still holds all events fetched, so a seek back needs no refetch. |
| Replay.ReplayRoom.BeginFetch | web/src/components/room/replay.ts:268-283 | Asks the iterator, creating it if need be. |
| Replay.ReplayRoom.EndFetch | web/src/components/room/replay.ts:283-291 | Drops the events already put and appends the page. |
| Replay.ReplayRoom.PutEventsUntil | web/src/components/room/replay.ts:305-319 | Puts exactly the due events and returns when the next one is due. |
| Replay.ReplayRoom.Rewind | web/src/components/room/replay.ts:165-177 | A seek back resets the aggregators, and drops the iterator after more than one page. |
| Replay.ReplayRoom.Reset | web/src/components/room/replay.ts:330-337 | Resets the aggregators and the delivery index. |
| Replay.ReplayRoom.ResetFetching | web/src/components/room/replay.ts:339-344 | Drops the iterator and the buffer. |
| Replay.ReplayRoom.LoadRecording | web/src/components/room/replay.ts:91-107 | Resets the aggregators and drops the iterator for a recording with its own stream. |
| RecordStore.StartedIff | services/room/record/mongo.go:33-71 | FetchOrStart refuses a missing id or room; it fetches the room's active recording iff there is one with the key asked for, or any if none was; it starts one, keyed by its id if no key was asked for, iff the room has no active one and neither id nor key was used; otherwise it is a duplicate. |
| RecordStore.StopFromEffect | services/room/record/mongo.go:73-103 | Stop fails iff some document it should change lies in a room that has a stopped recording; otherwise exactly the active documents found lose their flag. |
| RecordStore.StopAnswers | services/room/record/mongo.go:73-103 | The answer counts exactly the documents changed; without an error these are exactly the active ones the lookup finds, so it is zero iff there is none. |
| RecordStore.RoomFinishesOneRecording | services/migrations/rtc/000002_record_init.up.json:5-12 | Because stopped recordings of a room share an index entry, a room finishes one recording: any later one stays active for ever and every Stop of it fails. |
| RecordStore.UnstoppableRecordingExists | services/room/record/mongo.go:33-103 | How that comes about: a second recording started after the first was stopped. |
| RecordStore.RunKeepsIndexes | services/migrations/rtc/000002_record_init.up.json:3-22 | The unique indexes hold over all runs; recordings stay, and stopped ones stay stopped. |
| RecordStore.OneKeyLifecycle | services/room/record/mongo.go:33-103 | In a room with one key the recording goes from missing to active to stopped; starting a stopped one is a duplicate, stopping any other than an active one changes nothing. |
| RecordStore.Records.FetchOrStart | services/room/record/mongo.go:33-71 | The outcome and the store of the specification, including validation and duplicates. |
| RecordStore.Records.Stop | services/room/record/mongo.go:73-103 | Documents are updated one after the other up to the first that an index refuses, and counted. |
| TrackUpdates.UpdatesConverge | services/room/record/mongo.go:105-157 | Any order and any duplication of the same update jobs gives the same four id sets. |
| TrackUpdates.ListsAreDelivered | services/room/record/mongo.go:105-157 | The lists are the ids delivered, and nothing else. |
| TrackUpdates.EmittedIff | services/cmd/rtc/queue/handler.go:158-174 | RecordingReady is emitted iff some update is delivered after the stop, by which time every started track has been processed, and the emitter succeeds. |
| TrackUpdates.EmittedIfUpdatedAfterStop | services/cmd/rtc/queue/handler.go:166-173 | A run whose last update comes after the stop, with every track processed, emits it. |
| TrackUpdates.NotEmittedIfStoppedLast | services/cmd/rtc/queue/handler.go:166-173 | A run in which every update comes before the stop never does. |
| TrackUpdates.StoppedStays | services/room/record/mongo.go:73-103 | A recording stays, and is stopped iff it was told to. |
| TrackUpdates.StepFrame | services/cmd/rtc/queue/handler.go:100-178 | Only a delivery emits, at most once and for its own recording; other recordings stay as they are. |
| TrackUpdates.IsReady | services/room/record/record.go:68-82 | True iff every started id is among the processed ones. |
| TrackUpdates.Recordings.UpdateRecordingTrack | services/cmd/rtc/queue/handler.go:124-178 | The update, the emission and the disposition of the job: retried iff the recording is missing or the emitter fails. |
| TalkPipeline.TalksMoveForward | services/cmd/confa/queue/handler.go:199-238 | Over every interleaving of duplicated, delayed and retried jobs a talk's history is a prefix of LIVE, RECORDING, ENDED; past LIVE it has a recording, and it has ended only with that recording stopped. |
| TalkPipeline.HistoriesGrow | services/confa/talk/mongo.go:57-80 | No step takes a state back. |
| TalkPipeline.RequestIff | services/confa/talk/user.go:128-159 | The user's call goes through iff the talk is in the state it is meant for. |
| TalkPipeline.JobsAreAskedFor | services/confa/talk/user.go:128-143 | Over every run, a start job was asked for, for a talk that exists. |
| TalkPipeline.FailedOperation | services/cmd/confa/queue/handler.go:187-303 | A failed operation leaves talks, recordings and jobs as they are; only a failed stop of the tracker and a creator that gives up are remembered. |
| TalkPipeline.StartJobRecordsIff | services/cmd/confa/queue/handler.go:199-228 | A start job that meets no failure gets a live talk recorded iff its recording has not been stopped; a recording it creates has its stop job. |
| TalkPipeline.StopJobEndsTalk | services/cmd/confa/queue/handler.go:264-292 | A stop job that meets no failure ends a talk being recorded. |
| TalkPipeline.RecordedTalkEndsIff | services/cmd/confa/queue/handler.go:187-303 | From every reachable state a talk being recorded can still end; it can end without a stop by the user exactly if it is not stuck: there is a stop job, or a worker about to put it. |
| TalkPipeline.LiveTalkRecordsIff | services/cmd/confa/queue/handler.go:187-242 | From every reachable state a live talk can still be recorded exactly if it is not stranded: its recording has not been stopped, or a worker past the upsert has still to mark it. |
| TalkPipeline.RecordingsHaveStopJobs | services/cmd/confa/queue/handler.go:209-216 | Once no worker is between creating a recording and emitting, it lacks its stop job iff its creator gave up in between and no stop job of the user has been put. |
| TalkPipeline.StuckUntilUserStops | services/confa/talk/user.go:145-160 | A talk being recorded without a stop job stays so until the user asks for the stop. |
| TalkPipeline.StuckExists | services/cmd/rtc/rpc/rpc.go:83-103 | How that happens: the first delivery creates the recording and fails to start the tracker; the second does not emit the stop job. |
| TalkPipeline.StrandedStaysLive | services/cmd/rtc/rpc/rpc.go:83-86 | A live talk whose recording is stopped is never recorded again. |
| TalkPipeline.StrandedExists | services/cmd/confa/queue/handler.go:218-239 | How that happens: the start job fails to mark the talk, and the stop job runs before it is tried again. |
| TalkPipeline.TrackerStopIsAskedOnce | services/cmd/rtc/rpc/rpc.go:151-172 | However often jobs are delivered, a recording's tracker is asked to stop at most once, and the answer stands: a job retried because the tracker did not stop does not ask again. |
| TalkPipeline.TrackerStopsIff | services/cmd/rtc/rpc/rpc.go:151-172 | From every reachable state the tracker of a talk past LIVE can still be stopped exactly if it has not been asked and failed to. |
| TalkPipeline.EndedTalksAskedTheTracker | services/cmd/rtc/rpc/rpc.go:151-172 | An ended talk has asked the tracker, or a worker is about to. |
| TalkPipeline.UnstoppedTrackerExists | services/cmd/rtc/rpc/rpc.go:151-172 | A talk that has ended with its tracker not stopped, over every later schedule. |
| TalkPipeline.RunKeepsInv | services/cmd/confa/queue/handler.go:177-303 | The talk, recording, job and tracker invariants hold after every schedule. |
| TalkPipeline.Stores.UpdateState | services/confa/talk/mongo.go:57-80 | Changes the state iff the talk is in the expected one. |
| TalkPipeline.Stores.Upsert | services/cmd/rtc/rpc/rpc.go:78-87 | Creates the recording, finds it active, or fails, by its own fault or as a duplicate of a stopped one. |
| TalkPipeline.Stores.EmitStop | services/cmd/confa/queue/handler.go:209-216 | Only the worker that created the recording puts the stop job. |
| TalkPipeline.Stores.StopRecord | services/cmd/rtc/rpc/rpc.go:151-157 | Stops an active recording; a missing or stopped one goes on as not found. |
| TalkPipeline.Stores.EmitStopped | services/cmd/rtc/rpc/rpc.go:175-188 | The event behind the tracker's stop: its failure retries the job, and is told apart from a failed stop. |
| TalkPipeline.Stores.Mark | services/cmd/confa/queue/handler.go:218-241 | The conditional change of the talk, and the job's disposition. |
| TalkPipeline.Stores.StartRecording | services/cmd/confa/queue/handler.go:187-242 | One delivery: upsert, tracker, stop job, mark; the job is done exactly if all that were needed succeeded and the recording was not stopped, and retried otherwise. |
| TalkPipeline.Stores.StopRecording | services/cmd/confa/queue/handler.go:253-302 | One delivery: stop, then tracker and event if there was an active recording, mark; the job is done exactly if all of them succeeded. |
| Retrying.DelayWithinBounds | services/internal/platform/backoff/backoff.go:41-79 | Whatever the parameters, the attempt and the random draw, the delay is between the shortest delay and the maximum. |
| Retrying.DelaysAreGeometric | services/internal/platform/backoff/backoff.go:41-79 | The delays are a geometric sequence from the minimum by the factor, cut to the bounds, with the stated defaults; with jitter, drawn between the minimum and the term. |
| Retrying.JitterIsProportional | services/internal/platform/backoff/backoff.go:60-63 | The draw goes the random number's share of the way from the minimum to the term. |
| Retrying.DelayIsMonotone | services/internal/platform/backoff/backoff.go:58-79 | Without jitter and with a factor of at least 1, later attempts never wait less. |
| Retrying.ReachesMax | services/internal/platform/backoff/backoff.go:58-79 | Without jitter and with a factor above 1, the delay is the maximum from a computable attempt on. |
| Retrying.SmallFactorNeverGrows | services/internal/platform/backoff/backoff.go:58-79 | With a factor of at most 1 the delay stays the shortest. |
| Retrying.JitterShortens | services/internal/platform/backoff/backoff.go:60-63 | With jitter and a factor of at least 1 no draw waits longer than without jitter, and the lowest draw waits as long as the first attempt. |
| Retrying.FirstDelay | services/internal/platform/backoff/backoff.go:53-79 | The first delay is the minimum, unless the minimum is at least the maximum or lies where the overflow test takes it for one. |
| Retrying.PowAtLeastLinear | services/internal/platform/backoff/backoff.go:59-60 | Bernoulli's inequality for the growth of the delay. |
| Retrying.RetriesTerminate | services/cmd/rtc/queue/handler.go:181-195 | A job is released at most maxAge / shortest delay + 1 times, and the delays of all releases but the last fit into the maximal age. |
| Retrying.AgeCoversDelays | services/cmd/rtc/queue/handler.go:190-190 | At its n-th release a job is at least as old as the delays before it. |
| Retrying.BuriedIffTooOld | services/cmd/rtc/queue/handler.go:181-195 | A job is buried iff it is past its maximal age, and else released within the bounds of the delay. |
| Retrying.Backoff.Duration | services/internal/platform/backoff/backoff.go:28-31 | Returns the delay of the current attempt and counts it. |
| Retrying.Backoff.Reset | services/internal/platform/backoff/backoff.go:82-84 | Starts counting again at zero. |
| Retrying.Job.Retry | services/cmd/rtc/queue/handler.go:181-195 | Buries a job past the maximal age; otherwise releases it with the delay of its number of releases. |

## Left out

- EventRoom.Room.Next: the heap objects run it without interruption; the interleaving of its writes with cursors is in the protocol, whose steps it performs one by one.
- EventRoom.SharedCursor.Close: closing the channel and lowering the counter are one step.
- EventWatcher.Watcher.Sweep: clients do not run between its steps; in the protocol they do.
- TrackerProtocol.WaitMeansAllClosed: a closing goroutine that meets a nil tracker ends the run.
- Audience.Renderer.Hover: floating-point rounding is not modelled, distances are compared squared, the square root of the first round is any positive real, and a renderer that has placed nothing (where the code computes with NaN) finds nobody; resizing to an empty canvas is left out.
- Presence.PresenceIsOrderIndependent: nothing is claimed of runs that add to a full collection, where the bounded sets forget.
- Pagination.PagesEnumerate: the collection does not change while it is paged, ids compare as numbers, and lookups by id or handle are not pages.
- LruCache.LRUMap.Get: values that JavaScript takes for missing, such as zero, are not modelled.
- Throttling.NoCallIsLost: the function does not throw and the throttler is not closed; `close` is left out.
- Replay.EventsAreConserved: the iterator is taken to deliver a recording's stream as consecutive pages; `Pagination.IteratorListsIff` says when the real one does.  Buffering arithmetic and timers are left out.
- TrackUpdates.EmittedIff: starts and stops are the ones that go through; `RecordStore` says which do.
- TalkPipeline.TalksMoveForward: a talk has its own room and one key; the deletion of talks and the delay of the stop job are left out.
- TalkPipeline.Stores.StopTracker: a tracker that is not there any more counts as stopped, and skipping its event as an event that went out.
- TalkPipeline.Stores.StartRecording: one delivery undisturbed by others; the interleaving of workers is in the runs of actions.
- Retrying.RetriesTerminate: the queue honours delays to the nanosecond, and releasing or burying a job succeeds.
- Retrying.DelayWithinBounds: exact reals instead of float64, except for the overflow constant, which is the float64 value.
- MongoDB and beanstalk themselves: a collection is a set, map or sequence with atomic operations, a tube a set of jobs that can be delivered again.
- HTTP, GraphQL, Twirp and websocket plumbing, authentication, parsing of malformed input, logging and contexts.
- Drawing, avatars, profiles and media of the audience; payloads of events.
- The talks and recordings resolvers, whose paging repeats that of confas or sorts by key.
- The web client's own backoff: a capped power with symmetric jitter.
- Event storage, avatar and mail jobs: single-branch handlers.
