# gomuks sync processing, in Dafny

This project models the part of the gomuks terminal Matrix client that consumes a
`/sync` response of the Matrix Client-Server API: the `GomuksSyncer` of
`matrix/sync.go`. The model covers these pieces:

- **Event sources.** The `EventSource` bit set tells where a batch of events came
  from: presence, global account data, or the state, timeline, ephemeral and
  account-data batches of joined, invited and left rooms. The model also covers
  its `String` description.
- **Type classes.** The switch in `processSyncEvent` resolves an event's type
  class from its state key and from the source of its batch.
- **Applying and dispatching events.** Per event: an event whose content does not
  parse is dropped. A state event of a room is stored in the room's state under
  its type and state key. Every event that parsed is handed to the listeners.
- **The listener registry.** `OnEventType` appends a handler with no duplicate
  check. `notifyListeners` calls a type's handlers in registration order.
- **The per-room units.** `processJoinedRoom`, `processInvitedRoom` and
  `processLeftRoom` each run a fixed series of batches. They also update the
  pagination tokens: `PrevBatch` is written only while empty, and `LastPrevBatch`
  is always overwritten. The left-room unit sets `HasLeft`.
- **`ProcessResponse`.** It processes presence, then account data, then every
  room unit. Unloading is disabled on a first sync (`since == ""`). On a first
  sync with an init callback set, the callback runs and unloading is enabled
  again after all rooms. `FirstSyncDone` is then set.
- **`OnFailedSync` and `GetFilterJSON`.** Their constant results.

The project has two layers:

- **A value layer.** Module `SyncSpec` has pure functions that say what each
  event, batch, room unit and response does to the room values and which handler
  calls it makes. The lemmas about it state what the source promises:
  - classification precedence;
  - last-write-wins state within a batch;
  - unparsed events dropped;
  - tokens written once versus always;
  - `HasLeft` never cleared;
  - each room's result depending only on that room's units.
- **An imperative layer.** Modules `Rooms` and `Syncer` have classes with the
  fields the source mutates. Every method is proved against the value layer. The
  `ensures` of each method ties the new room values and the recorded handler
  calls to those functions.

Handler calls and the session toggles are recorded in a ghost `trace` of effects
on the syncer.

The per-room goroutines and the `WaitGroup` become one loop over the set of
room units. It picks units in an order the model leaves open and returns that
order as a ghost result. The final room values equal `RunJobs` of the old values
over that order. `RunJobsIsPerRoom`, `SingleBucketRoom` and `LeftRoomsHaveLeft`
show the parts of the result that do not depend on the order.

Files:

- `optional.dfy`: module `Optional`.
- `event_source.dfy`: module `EventSources`.
- `events.dfy`: module `Events`, for events and classification.
- `listeners.dfy`: module `Listeners`, for the registry and effects.
- `sync_spec.dfy`: module `SyncSpec`, the value layer.
- `rooms.dfy`: module `Rooms`, the room and session classes.
- `syncer.dfy`: module `Syncer`, the `GomuksSyncer` class.
- `filter.dfy`: module `Filter`.

## Model

| member | source | states |
|---|---|---|
| `EventSources.ToString` | matrix/sync.go:55-89 | `String`: compares with presence and account data, then subtracts the first bucket bit (join, invite, leave) and compares the rest; definition, properties in `NamedExactly`, `NameRoundTrip`, `FromNameRoundTrip` and `UnknownShowsRemainder` |
| `EventSources.NamedExactly` | matrix/sync.go:55-89 | `String` gives a name to exactly the nine named sources (presence, user account data, the four joined batches, invited state, left state and timeline); every other value, combined bucket bits included, gets the "unknown" fallback |
| `EventSources.NameRoundTrip` | matrix/sync.go:55-89 | distinct named sources get distinct names: reading a name back yields the source it was produced from |
| `EventSources.FromNameRoundTrip` | matrix/sync.go:55-89 | every readable name is the `String` of the source it reads back to |
| `EventSources.UnknownShowsRemainder` | matrix/sync.go:61-88 | the fallback prints the source minus the first bucket bit it carries (join, then invite, then leave), as the source's `es -=` does, and the source itself when it carries none |
| `Events.Classify` | matrix/sync.go:200-211 | the class is never Unknown; it is State exactly when a state key is present (even an empty one); ToDevice only when the source is exactly the to-device source |
| `Events.ClassifyIsFirstMatch` | matrix/sync.go:200-211 | the chosen class's guard holds and no guard earlier in the switch holds |
| `Events.FirstMatchIsClassify` | matrix/sync.go:200-211 | conversely, the first class whose guard holds is the chosen class |
| `Events.ClassifyPrecedence` | matrix/sync.go:203-210 | any source with the ephemeral bit gives Ephemeral; Join with Ephemeral gives Ephemeral, Join with AccountData gives AccountData, Join or Leave with Timeline gives Message, the to-device source alone gives ToDevice and combined with Join gives Message |
| `Events.ClassOfBatchSources` | matrix/sync.go:200-211 | the class of an event without a state key for each source the syncer uses: presence is Ephemeral, account data is AccountData, state and timeline batches give Message |
| `Events.Resolve` | matrix/sync.go:195-211 | the event handed on keeps its type name, state key, sender and content, gets the classified class, and the room's id when a room is given |
| `Listeners.Register` | matrix/sync.go:228-234 | registration appends the handler at the end of the type's list (no duplicate check), adds the type if absent, and leaves every other type's list unchanged |
| `Listeners.RegisterAllAppends` | matrix/sync.go:228-234 | registering a series of handlers on a type appends exactly that series, in order, and touches no other type |
| `Listeners.Calls` | matrix/sync.go:241-243 | the calls of the loop over a type's handlers; definition, properties in `CalledHandlersOfCalls` and `NotifyFollowsRegistration` |
| `Listeners.CalledHandlersOfCalls` | matrix/sync.go:236-244 | the calls made for a list of handlers call each handler once per entry, in list order, with the source and the event |
| `Listeners.NotifyFollowsRegistration` | matrix/sync.go:228-244 | an event of a type calls the handlers registered for it, earlier registrations first, duplicates included; registrations on other types do not change the calls |
| `Listeners.CallCountIsRegistrationCount` | matrix/sync.go:236-244 | a handler is called as many times as it is registered for the event's type |
| `SyncSpec.ApplyEvent` | matrix/sync.go:213-222 | an event that does not parse, has no room, or has no state key leaves the room state alone; otherwise the resolved event is stored under its resolved type and state key |
| `SyncSpec.EventCalls` | matrix/sync.go:213-223 | an event that does not parse reaches no handler; one that parses reaches exactly the handlers of its resolved type, in order |
| `SyncSpec.BatchState` | matrix/sync.go:188-192 | the room state after a batch: each event applied in turn with `ApplyEvent`; definition, properties in `BatchStep`, `LastWriteWins`, `GlobalBatchKeepsState`, `StatelessBatchKeepsState` and `UnparsedEventsAreDropped` |
| `SyncSpec.BatchCalls` | matrix/sync.go:188-192 | the handler calls of a batch: each event's `EventCalls` in turn; definition, properties in `BatchStep`, `UnparsedEventsAreDropped` and `BatchCallsInOrder` |
| `SyncSpec.BatchStep` | matrix/sync.go:188-192 | a batch's effect on state and calls is that of its prefix followed by the next event |
| `SyncSpec.LastWriteWins` | matrix/sync.go:188-222 | after a batch a state key holds the last parsed event with that key, and keys no event names keep their old value or stay absent |
| `SyncSpec.GlobalBatchKeepsState` | matrix/sync.go:118-119 | batches processed with no room (presence, global account data) change no room state |
| `SyncSpec.StatelessBatchKeepsState` | matrix/sync.go:220-222 | a batch with no state-keyed events changes no room state |
| `SyncSpec.UnparsedEventsAreDropped` | matrix/sync.go:213-218 | removing the events whose content does not parse changes neither the resulting state nor the handler calls |
| `SyncSpec.BatchCallsInOrder` | matrix/sync.go:188-192 | a batch calls the handlers of its parsed events, event by event in batch order |
| `SyncSpec.NextPrevBatch` | matrix/sync.go:158-160 | the previous-batch token is replaced only while it is empty |
| `SyncSpec.JoinedRoomValue` | matrix/sync.go:149-163 | a joined-room unit writes `PrevBatch` only if empty, sets `LastPrevBatch` to the timeline token, stores the summary and keeps `HasLeft` |
| `SyncSpec.InvitedRoomValue` | matrix/sync.go:165-171 | an invited-room unit leaves both tokens and `HasLeft` unchanged and stores the summary |
| `SyncSpec.LeftRoomValue` | matrix/sync.go:173-186 | a left-room unit sets `HasLeft`, writes `PrevBatch` only if empty, sets `LastPrevBatch` to the timeline token and stores the summary |
| `SyncSpec.JoinedCalls` | matrix/sync.go:153-156 | the calls of a joined-room unit: its state, timeline, ephemeral and account-data batches in that order; definition, used by `ProcessJoinedRoom` |
| `SyncSpec.InvitedCalls` | matrix/sync.go:169 | the calls of an invited-room unit: its state batch; definition, used by `ProcessInvitedRoom` |
| `SyncSpec.LeftCalls` | matrix/sync.go:178-179 | the calls of a left-room unit: its state then timeline batch; definition, used by `ProcessLeftRoom` |
| `SyncSpec.ApplyJob` | matrix/sync.go:123-135 | a room unit's new room value, by bucket; definition, properties in `PrevBatchIsFirstToken`, `LastPrevBatchIsLatestToken` and `HasLeftIffLeftJob` |
| `SyncSpec.JobCalls` | matrix/sync.go:123-135 | a room unit's handler calls, by bucket; definition, used by `ProcessRoomJob` |
| `SyncSpec.PrevBatchIsFirstToken` | matrix/sync.go:158-160 | over any series of units a non-empty `PrevBatch` never changes, and an empty one becomes the first non-empty timeline token seen |
| `SyncSpec.LastPrevBatchIsLatestToken` | matrix/sync.go:161 | over any series of units `LastPrevBatch` is the token of the latest joined or left unit; invited units leave it alone |
| `SyncSpec.HasLeftIffLeftJob` | matrix/sync.go:176 | `HasLeft` ends set exactly when it was set or some unit was a left-room unit: nothing clears it |
| `SyncSpec.RunJobs` | matrix/sync.go:121-138 | the room values after running units in a given order, each looking up or creating its room; definition, properties in `RunJobsIsPerRoom`, `SingleBucketRoom` and `LeftRoomsHaveLeft` |
| `SyncSpec.JobsCalls` | matrix/sync.go:121-138 | the handler calls of running units in a given order; definition, used by `ProcessRooms` and `ProcessResponse` |
| `SyncSpec.RunJobsIsPerRoom` | matrix/sync.go:121-136 | each room's final value depends only on its old value and the units for that room, in their order |
| `SyncSpec.SingleBucketRoom` | matrix/sync.go:121-136 | whatever order the units run in, a room in exactly one bucket ends as that bucket's unit makes it, and a room in none is unchanged |
| `SyncSpec.LeftRoomsHaveLeft` | matrix/sync.go:133-136 | whatever the order, every room of the leave bucket ends with `HasLeft` set |
| `Rooms.Room.constructor` | matrix/sync.go:35 | a room the provider creates has empty tokens, `HasLeft` unset, an empty summary and no state |
| `Rooms.Room.UpdateSummary` | matrix/sync.go:152 | the summary is replaced and nothing else changes (the same call is made by the invited and left units at lines 168 and 177) |
| `Rooms.Room.UpdateState` | matrix/sync.go:221 | the event is stored under its type and state key and nothing else changes |
| `Rooms.Session.constructor` | matrix/sync.go:34-39 | a session starts with no rooms, and every room is filed under its own id |
| `Rooms.Session.GetRoom` | matrix/sync.go:35 | an existing room is returned as is; otherwise a fresh new room is created and recorded under the id |
| `Rooms.SnapshotsAfterUnit` | matrix/sync.go:121-136 | when a unit leaves every other room's value alone, the session's room values change at that one room only |
| `Syncer.GomuksSyncer.constructor` | matrix/sync.go:104-110 | a new syncer has no listeners, `FirstSyncDone` unset and no init callback |
| `Syncer.GomuksSyncer.OnFailedSync` | matrix/sync.go:246-250 | for any response and any error, nil (`None`) included: wait ten seconds (as nanoseconds), and the error result is nil |
| `Syncer.GomuksSyncer.OnEventType` | matrix/sync.go:227-234 | the registry becomes `Register` of the old one: the handler appended to its type's list |
| `Syncer.GomuksSyncer.NotifyListeners` | matrix/sync.go:236-244 | the trace grows by one call per handler registered for the event's type, in order; by nothing if the type has no entry |
| `Syncer.GomuksSyncer.ProcessSyncEvent` | matrix/sync.go:194-224 | the room's state becomes `ApplyEvent` of the old state, no other room field changes, and the trace grows by `EventCalls` |
| `Syncer.GomuksSyncer.ProcessSyncEvents` | matrix/sync.go:188-192 | the room's state becomes `BatchState` of the old state over the batch, and the trace grows by `BatchCalls` |
| `Syncer.GomuksSyncer.ProcessEventAt` | matrix/sync.go:189-191 | one pass of the batch loop: after the events before it, the room's state becomes `BatchState` over one more event, nothing else in the room changes, and the trace grows to `BatchCalls` of that longer prefix |
| `Syncer.GomuksSyncer.ProcessJoinedRoom` | matrix/sync.go:149-163 | the room is looked up or created, its value becomes `JoinedRoomValue` of its old value, other rooms are unchanged, and the trace grows by `JoinedCalls` |
| `Syncer.GomuksSyncer.UpdateJoinedRoom` | matrix/sync.go:152-161 | after the lookup: summary, four batches, tokens, giving `JoinedRoomValue` of the room's old value |
| `Syncer.GomuksSyncer.ProcessJoinedBatches` | matrix/sync.go:153-156 | the state, timeline, ephemeral and account-data batches in that order, leaving the room's other fields alone |
| `Syncer.GomuksSyncer.ProcessInvitedRoom` | matrix/sync.go:165-171 | the room is looked up or created, its value becomes `InvitedRoomValue` of its old value, other rooms are unchanged |
| `Syncer.GomuksSyncer.UpdateInvitedRoom` | matrix/sync.go:168-169 | after the lookup: summary then the state batch |
| `Syncer.GomuksSyncer.ProcessLeftRoom` | matrix/sync.go:173-186 | the room is looked up or created, its value becomes `LeftRoomValue` of its old value, other rooms are unchanged |
| `Syncer.GomuksSyncer.UpdateLeftRoom` | matrix/sync.go:176-184 | after the lookup: `HasLeft` set, summary, state and timeline batches, tokens |
| `Syncer.GomuksSyncer.ProcessRoomJob` | matrix/sync.go:123-135 | one room goroutine: the unit's room gets `ApplyJob` of its old value, other rooms keep their values |
| `Syncer.GomuksSyncer.ProcessResponse` | matrix/sync.go:113-147 | the error result is always nil, since the named result is never assigned; the order of the room units runs each unit exactly once; the room values become `RunJobs` of the old ones over that order; no room is dropped; the trace is: unloading disabled if `since == ""`, presence calls, account-data calls, room calls, then init done and unloading enabled only if `since == ""` and a callback is set; `FirstSyncDone` is set |
| `Syncer.GomuksSyncer.ProcessGlobal` | matrix/sync.go:114-119 | unloading disabled only on a first sync, then the presence and account-data batches with no room; no room value changes |
| `Syncer.GomuksSyncer.ProcessRooms` | matrix/sync.go:121-136 | every unit of the three buckets runs once, in the returned order, and the room values are `RunJobs` over it |
| `Syncer.GomuksSyncer.ProcessNextJob` | matrix/sync.go:124-135 | one more room unit after those already run: the room values become `RunJobs` and the trace `JobsCalls` of the longer order, and every room known before stays the same object |
| `Syncer.GomuksSyncer.FinishSync` | matrix/sync.go:140-144 | init callback and unloading enabled only when `since == ""` and a callback is set, after the rooms; `FirstSyncDone` set |
| `Syncer.GomuksSyncer.RunUnit` | matrix/sync.go:123-135 | one unit replaces the value of its own room, looked up or created, and of no other |
| `Filter.GetFilterJSON` | matrix/sync.go:252-300 | for every user: leave is not included, the timeline limit is 50, state and timeline lazy-load members, every kept state type is also a timeline type, presence excludes the wildcard type |
| `Filter.TimelineTypes` | matrix/sync.go:270-285 | the timeline asks for the five message types and the six state types and nothing else |
| `Filter.SameForEveryUser` | matrix/sync.go:253 | the filter does not depend on the user id |

## Left out

- The goroutines and the `WaitGroup` (matrix/sync.go:121-138) are modelled as one sequential loop over the set of room units. The loop picks units in an order the model does not fix. A room in two buckets of one response is processed concurrently in the source, which is a data race; the model runs its units one after another in some order, and `SingleBucketRoom` and `LeftRoomsHaveLeft` state what holds whatever that order is.
- `wait.Done()` is not deferred in the three room functions (matrix/sync.go:162,170,185). If a unit panicked and `debug.Recover` swallowed the panic, `wait.Wait()` would never return. Panics are not modelled, so every unit completes.
- `debug.Recover`, `debug.Print` and `debug.Printf` (logging and panic recovery) are not modelled.
- `evt.Content.ParseRaw` is not visible, so it is a parameter. A parser is a function from the resolved type and the raw content to success or failure. The parsed content is not modelled.
- `rooms.Room` and `SyncerSession` are not part of this model. The room keeps only the fields the syncer touches. `UpdateSummary` is taken as a plain overwrite of the summary. `UpdateState` is taken as a store into a map keyed by type and state key. `GetRoom` is taken as lookup-or-create.
- `DisableUnloading`, `EnableUnloading` and `InitDoneCallback` are calls into code that is not shown. They are recorded as effects in the syncer's trace, not as session state.
- The handlers are opaque ids. Their calls are recorded in the trace. Whatever they do, including re-entering the syncer, is not modelled.
- The source writes the room id and the resolved class into the event in place. The model passes the resolved event on as a new value.
- EventSources.ToString: the fallback returns the number that `fmt.Sprintf("unknown (%d)", …)` prints, not the formatted text. That number is `shown` read as a signed 64-bit value (two's complement), since Go prints the `int` behind `EventSource` with its sign; a source with bit 63 set prints as negative.
- Filter.GetFilterJSON: event types are named by their library constants, and their wire names are not modelled. The JSON encoding is not modelled either.
- Syncer.GomuksSyncer.OnFailedSync: the debug print of the error is not modelled.
- The user id that `SyncerSession.GetUserID` returns is unused by the syncer and not modelled.
