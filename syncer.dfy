/// The syncer (`GomuksSyncer`, matrix/sync.go:91-250) with its per-room
/// goroutines run one after another: each method is proved against the
/// value-level model of module SyncSpec.
module Syncer {
  import opened Optional
  import opened Events
  import opened Listeners
  import opened SyncSpec
  import opened Rooms
  import ES = EventSources

  /// `time.Second`, in nanoseconds.
  const Second: int := 1_000_000_000

  class GomuksSyncer {
    const session: Session
    var listeners: Registry
    var firstSyncDone: bool
    /// Whether `InitDoneCallback` is set (non-nil).
    var hasInitCallback: bool
    /// The handler calls and the first-sync effects, in the order made.
    ghost var trace: seq<Effect>

    /// `OnFailedSync`: whatever the failed response and the error (`None`
    /// standing for Go's nil), wait ten seconds (in nanoseconds, as
    /// `time.Duration` counts) and retry; the error result is always nil.
    function OnFailedSync(res: SyncResponse, err: Option<string>): (r: (int, Option<string>))
      ensures r.0 == 10 * Second && r.1 == None
    {
      (10 * Second, None)
    }

    /// `NewGomuksSyncer`.
    constructor (session: Session)
      ensures this.session == session
      ensures listeners == map[] && !firstSyncDone && !hasInitCallback && trace == []
    {
      this.session := session;
      listeners := map[];
      firstSyncDone := false;
      hasInitCallback := false;
      trace := [];
    }

    /// `OnEventType`: appends the handler to the type's list.
    method OnEventType(t: EventType, h: HandlerId)
      modifies this`listeners
      ensures listeners == Register(old(listeners), t, h)
    {
      if t !in listeners {
        listeners := listeners[t := []];
      }
      listeners := listeners[t := listeners[t] + [h]];
    }

    /// `notifyListeners`: calls the handlers of the event's type in order.
    method NotifyListeners(source: ES.EventSource, evt: Event)
      modifies this`trace
      ensures trace == old(trace) + Calls(Handlers(listeners, evt.evtType), source, evt)
    {
      if evt.evtType !in listeners {
        return;
      }
      var hs := listeners[evt.evtType];
      var i := 0;
      while i < |hs|
        invariant 0 <= i <= |hs|
        invariant trace == old(trace) + Calls(hs[..i], source, evt)
      {
        trace := trace + [Notified(hs[i], source, evt)];
        assert Calls(hs[..i] + [hs[i]], source, evt) == Calls(hs[..i], source, evt) + [Notified(hs[i], source, evt)];
        assert hs[..i + 1] == hs[..i] + [hs[i]];
        i := i + 1;
      }
      assert hs[..i] == hs;
    }

    /// `processSyncEvent`: resolve the class, drop the event if its content
    /// does not parse, store it if it is a state event of a room, notify.
    method ProcessSyncEvent(room: Room?, evt: Event, source: ES.EventSource, parse: Parser)
      modifies this`trace, room
      ensures room != null ==> room.Snapshot() == old(room.Snapshot()).(state := ApplyEvent(old(room.state), RoomOf(room), evt, source, parse))
      ensures trace == old(trace) + EventCalls(listeners, RoomOf(room), evt, source, parse)
    {
      var e := Resolve(RoomOf(room), evt, source);
      if !parse(e.evtType, e.content) {
        return;
      }
      if room != null && e.evtType.typeClass == StateEventType {
        room.UpdateState(e);
      }
      NotifyListeners(source, e);
    }

    /// `processSyncEvents`: the events of a batch, in order.
    method ProcessSyncEvents(room: Room?, events: seq<Event>, source: ES.EventSource, parse: Parser)
      modifies this`trace, room
      ensures room != null ==> room.Snapshot() == old(room.Snapshot()).(state := BatchState(old(room.state), RoomOf(room), events, source, parse))
      ensures trace == old(trace) + BatchCalls(listeners, RoomOf(room), events, source, parse)
    {
      ghost var v0 := if room == null then NewRoom else room.Snapshot();
      ghost var t0 := trace;
      ghost var rid := RoomOf(room);
      var i := 0;
      while i < |events|
        invariant 0 <= i <= |events|
        invariant room != null ==> room.Snapshot() == v0.(state := BatchState(v0.state, rid, events[..i], source, parse))
        invariant trace == t0 + BatchCalls(listeners, rid, events[..i], source, parse)
      {
        ProcessEventAt(room, events, i, source, parse, v0.state, t0);
        i := i + 1;
      }
      assert events[..i] == events;
    }

    /// The `i`th event of a batch, after the events before it.
    method ProcessEventAt(room: Room?, events: seq<Event>, i: nat, source: ES.EventSource, parse: Parser,
                          ghost st0: StateMap, ghost t0: seq<Effect>)
      requires i < |events|
      requires room != null ==> room.state == BatchState(st0, RoomOf(room), events[..i], source, parse)
      requires trace == t0 + BatchCalls(listeners, RoomOf(room), events[..i], source, parse)
      modifies this`trace, room
      ensures room != null ==> room.Snapshot() == old(room.Snapshot()).(state := BatchState(st0, RoomOf(room), events[..i + 1], source, parse))
      ensures trace == t0 + BatchCalls(listeners, RoomOf(room), events[..i + 1], source, parse)
    {
      ghost var rid := RoomOf(room);
      ProcessSyncEvent(room, events[i], source, parse);
      BatchStep(listeners, st0, rid, events, i, source, parse);
      AppendAssoc(t0, BatchCalls(listeners, rid, events[..i], source, parse), EventCalls(listeners, rid, events[i], source, parse));
    }

    /// `processJoinedRoom`: looks the room up (or creates it), then
    /// updates it.
    method ProcessJoinedRoom(id: RoomId, data: JoinedRoomData, parse: Parser)
      requires session.Valid()
      modifies this`trace, session`rooms, session.rooms.Values
      ensures session.Valid() && id in session.rooms
      ensures session.rooms == old(session.rooms)[id := session.rooms[id]]
      ensures id in old(session.rooms) ==> session.rooms == old(session.rooms)
      ensures id !in old(session.rooms) ==> fresh(session.rooms[id])
      ensures forall x | x in old(session.rooms) && x != id :: unchanged(old(session.rooms)[x])
      ensures session.rooms[id].Snapshot() == JoinedRoomValue(old(session.Lookup(id)), id, data, parse)
      ensures trace == old(trace) + JoinedCalls(listeners, id, data, parse)
    {
      var room := session.GetRoom(id);
      UpdateJoinedRoom(room, data, parse);
    }

    /// The body of `processJoinedRoom` after the lookup: the summary, the
    /// four batches, then the pagination tokens.
    method UpdateJoinedRoom(room: Room, data: JoinedRoomData, parse: Parser)
      modifies this`trace, room
      ensures room.Snapshot() == JoinedRoomValue(old(room.Snapshot()), room.id, data, parse)
      ensures trace == old(trace) + JoinedCalls(listeners, room.id, data, parse)
    {
      room.UpdateSummary(data.summary);
      ProcessJoinedBatches(room, data, parse);
      if |room.prevBatch| == 0 {
        room.prevBatch := data.prevBatch;
      }
      room.lastPrevBatch := data.prevBatch;
    }

    /// The four batches of a joined room, in the order `processJoinedRoom`
    /// runs them.
    method ProcessJoinedBatches(room: Room, data: JoinedRoomData, parse: Parser)
      modifies this`trace, room
      ensures room.Snapshot() == old(room.Snapshot()).(state := JoinedRoomValue(old(room.Snapshot()), room.id, data, parse).state)
      ensures trace == old(trace) + JoinedCalls(listeners, room.id, data, parse)
    {
      ProcessSyncEvents(room, data.state, JoinedState, parse);
      ProcessSyncEvents(room, data.timeline, JoinedTimeline, parse);
      ProcessSyncEvents(room, data.ephemeral, JoinedEphemeral, parse);
      ProcessSyncEvents(room, data.accountData, JoinedAccountData, parse);
      ghost var r := Some(room.id);
      ghost var c1 := BatchCalls(listeners, r, data.state, JoinedState, parse);
      ghost var c2 := BatchCalls(listeners, r, data.timeline, JoinedTimeline, parse);
      ghost var c3 := BatchCalls(listeners, r, data.ephemeral, JoinedEphemeral, parse);
      ghost var c4 := BatchCalls(listeners, r, data.accountData, JoinedAccountData, parse);
      AppendAssoc4(old(trace), c1, c2, c3, c4);
    }

    /// `processInvitedRoom`: looks the room up (or creates it), then
    /// updates it.
    method ProcessInvitedRoom(id: RoomId, data: InvitedRoomData, parse: Parser)
      requires session.Valid()
      modifies this`trace, session`rooms, session.rooms.Values
      ensures session.Valid() && id in session.rooms
      ensures session.rooms == old(session.rooms)[id := session.rooms[id]]
      ensures id in old(session.rooms) ==> session.rooms == old(session.rooms)
      ensures id !in old(session.rooms) ==> fresh(session.rooms[id])
      ensures forall x | x in old(session.rooms) && x != id :: unchanged(old(session.rooms)[x])
      ensures session.rooms[id].Snapshot() == InvitedRoomValue(old(session.Lookup(id)), id, data, parse)
      ensures trace == old(trace) + InvitedCalls(listeners, id, data, parse)
    {
      var room := session.GetRoom(id);
      UpdateInvitedRoom(room, data, parse);
    }

    /// The body of `processInvitedRoom` after the lookup.
    method UpdateInvitedRoom(room: Room, data: InvitedRoomData, parse: Parser)
      modifies this`trace, room
      ensures room.Snapshot() == InvitedRoomValue(old(room.Snapshot()), room.id, data, parse)
      ensures trace == old(trace) + InvitedCalls(listeners, room.id, data, parse)
    {
      room.UpdateSummary(data.summary);
      ProcessSyncEvents(room, data.state, InvitedState, parse);
    }

    /// `processLeftRoom`: looks the room up (or creates it), then updates
    /// it.
    method ProcessLeftRoom(id: RoomId, data: LeftRoomData, parse: Parser)
      requires session.Valid()
      modifies this`trace, session`rooms, session.rooms.Values
      ensures session.Valid() && id in session.rooms
      ensures session.rooms == old(session.rooms)[id := session.rooms[id]]
      ensures id in old(session.rooms) ==> session.rooms == old(session.rooms)
      ensures id !in old(session.rooms) ==> fresh(session.rooms[id])
      ensures forall x | x in old(session.rooms) && x != id :: unchanged(old(session.rooms)[x])
      ensures session.rooms[id].Snapshot() == LeftRoomValue(old(session.Lookup(id)), id, data, parse)
      ensures trace == old(trace) + LeftCalls(listeners, id, data, parse)
    {
      var room := session.GetRoom(id);
      UpdateLeftRoom(room, data, parse);
    }

    /// The body of `processLeftRoom` after the lookup: the room is marked
    /// as left, then the summary, the two batches and the tokens.
    method UpdateLeftRoom(room: Room, data: LeftRoomData, parse: Parser)
      modifies this`trace, room
      ensures room.Snapshot() == LeftRoomValue(old(room.Snapshot()), room.id, data, parse)
      ensures trace == old(trace) + LeftCalls(listeners, room.id, data, parse)
    {
      room.hasLeft := true;
      room.UpdateSummary(data.summary);
      ProcessSyncEvents(room, data.state, LeftState, parse);
      ProcessSyncEvents(room, data.timeline, LeftTimeline, parse);
      if |room.prevBatch| == 0 {
        room.prevBatch := data.prevBatch;
      }
      room.lastPrevBatch := data.prevBatch;
      AppendAssoc(old(trace),
        BatchCalls(listeners, Some(room.id), data.state, LeftState, parse),
        BatchCalls(listeners, Some(room.id), data.timeline, LeftTimeline, parse));
    }

    /// One room unit: the goroutine `ProcessResponse` starts for a room.
    method ProcessRoomJob(job: RoomJob, parse: Parser)
      requires session.Valid()
      modifies this`trace, session`rooms, session.rooms.Values
      ensures session.Valid() && job.id in session.rooms
      ensures session.rooms == old(session.rooms)[job.id := session.rooms[job.id]]
      ensures job.id in old(session.rooms) ==> session.rooms == old(session.rooms)
      ensures job.id !in old(session.rooms) ==> fresh(session.rooms[job.id])
      ensures forall x | x in old(session.rooms) && x != job.id :: session.rooms[x].Snapshot() == old(session.rooms[x].Snapshot())
      ensures session.rooms[job.id].Snapshot() == ApplyJob(old(session.Lookup(job.id)), job, parse)
      ensures trace == old(trace) + JobCalls(listeners, job, parse)
    {
      match job
      case JoinedJob(id, d) => ProcessJoinedRoom(id, d, parse);
      case InvitedJob(id, d) => ProcessInvitedRoom(id, d, parse);
      case LeftJob(id, d) => ProcessLeftRoom(id, d, parse);
    }

    /// `ProcessResponse`, with the room goroutines run one after another in
    /// an order the model leaves open and returns as `order`. The named
    /// result `err` is never assigned, so it is always nil (`None`).
    method ProcessResponse(res: SyncResponse, since: string, parse: Parser) returns (ghost order: seq<RoomJob>, err: Option<string>)
      requires session.Valid()
      modifies this`trace, this`firstSyncDone, session`rooms, session.rooms.Values
      ensures err == None
      ensures session.Valid()
      ensures firstSyncDone
      ensures Enumerates(order, Jobs(res))
      ensures session.Snapshots() == RunJobs(old(session.Snapshots()), order, parse)
      ensures forall x | x in old(session.rooms) :: x in session.rooms && session.rooms[x] == old(session.rooms[x])
      ensures trace ==
        old(trace)
        + (if since == "" then [UnloadingDisabled] else [])
        + BatchCalls(listeners, None, res.presence, ES.Presence, parse)
        + BatchCalls(listeners, None, res.accountData, ES.AccountData, parse)
        + JobsCalls(listeners, order, parse)
        + (if since == "" && hasInitCallback then [InitDone, UnloadingEnabled] else [])
    {
      ProcessGlobal(res, since, parse);
      order := ProcessRooms(res, parse);
      FinishSync(since);
      err := None;
    }

    /// The part of `ProcessResponse` before the rooms: unloading is
    /// disabled on the first sync, then the presence and account-data
    /// batches are processed with no room.
    method ProcessGlobal(res: SyncResponse, since: string, parse: Parser)
      modifies this`trace
      ensures session.Snapshots() == old(session.Snapshots())
      ensures trace ==
        old(trace)
        + (if since == "" then [UnloadingDisabled] else [])
        + BatchCalls(listeners, None, res.presence, ES.Presence, parse)
        + BatchCalls(listeners, None, res.accountData, ES.AccountData, parse)
    {
      ghost var rooms := session.Snapshots();
      SnapshotsPointwise(session, rooms);
      if since == "" {
        trace := trace + [UnloadingDisabled];
      } else {
        assert trace == old(trace) + [];
      }
      ProcessSyncEvents(null, res.presence, ES.Presence, parse);
      ProcessSyncEvents(null, res.accountData, ES.AccountData, parse);
      SnapshotsPointwise(session, rooms);
    }

    /// The part of `ProcessResponse` after the rooms: on the first sync the
    /// init callback runs, if set, and unloading is enabled again; the first
    /// sync is then done.
    method FinishSync(since: string)
      modifies this`trace, this`firstSyncDone
      ensures session.Snapshots() == old(session.Snapshots())
      ensures firstSyncDone
      ensures trace == old(trace) + (if since == "" && hasInitCallback then [InitDone, UnloadingEnabled] else [])
    {
      if since == "" && hasInitCallback {
        trace := trace + [InitDone];
        trace := trace + [UnloadingEnabled];
        assert trace == old(trace) + [InitDone, UnloadingEnabled];
      } else {
        assert trace == old(trace) + [];
      }
      firstSyncDone := true;
    }

    /// The room goroutines of `ProcessResponse` and the wait for all of
    /// them, as one loop over the room units of the three buckets.
    method ProcessRooms(res: SyncResponse, parse: Parser) returns (ghost order: seq<RoomJob>)
      requires session.Valid()
      modifies this`trace, session`rooms, session.rooms.Values
      ensures session.Valid()
      ensures Enumerates(order, Jobs(res))
      ensures session.Snapshots() == RunJobs(old(session.Snapshots()), order, parse)
      ensures forall x | x in old(session.rooms) :: x in session.rooms && session.rooms[x] == old(session.rooms[x])
      ensures trace == old(trace) + JobsCalls(listeners, order, parse)
    {
      var todo := Jobs(res);
      order := [];
      while todo != {}
        invariant session.Valid()
        invariant Splits(Jobs(res), todo, order)
        invariant forall x | x in old(session.rooms) :: x in session.rooms && session.rooms[x] == old(session.rooms[x])
        invariant forall x | x in session.rooms && x !in old(session.rooms) :: fresh(session.rooms[x])
        invariant session.Snapshots() == RunJobs(old(session.Snapshots()), order, parse)
        invariant trace == old(trace) + JobsCalls(listeners, order, parse)
        decreases |todo|
      {
        var job :| job in todo;
        ProcessNextJob(job, parse, old(session.Snapshots()), old(trace), order);
        SplitsStep(Jobs(res), todo, order, job);
        todo := todo - {job};
        order := order + [job];
      }
      SplitsDone(Jobs(res), order);
    }

    /// One more room unit after the units of `done`.
    method ProcessNextJob(job: RoomJob, parse: Parser, ghost base: map<RoomId, RoomValue>, ghost t0: seq<Effect>, ghost done: seq<RoomJob>)
      requires session.Valid()
      requires session.Snapshots() == RunJobs(base, done, parse)
      requires trace == t0 + JobsCalls(listeners, done, parse)
      modifies this`trace, session`rooms, session.rooms.Values
      ensures session.Valid()
      ensures session.Snapshots() == RunJobs(base, done + [job], parse)
      ensures trace == t0 + JobsCalls(listeners, done + [job], parse)
      ensures forall x | x in old(session.rooms) :: x in session.rooms && session.rooms[x] == old(session.rooms[x])
      ensures forall x | x in session.rooms && x !in old(session.rooms) :: fresh(session.rooms[x])
    {
      RunUnit(job, parse);
      assert (done + [job])[..|done|] == done;
      ghost var c1, c2 := JobsCalls(listeners, done, parse), JobCalls(listeners, job, parse);
      AppendAssoc(t0, c1, c2);
    }

    /// A room unit replaces the value of its own room and of no other.
    method RunUnit(job: RoomJob, parse: Parser)
      requires session.Valid()
      modifies this`trace, session`rooms, session.rooms.Values
      ensures session.Valid()
      ensures job.id in session.rooms
      ensures session.rooms == old(session.rooms)[job.id := session.rooms[job.id]]
      ensures job.id in old(session.rooms) ==> session.rooms == old(session.rooms)
      ensures job.id !in old(session.rooms) ==> fresh(session.rooms[job.id])
      ensures session.Snapshots() == old(session.Snapshots())[job.id := ApplyJob(Before(old(session.Snapshots()), job.id), job, parse)]
      ensures trace == old(trace) + JobCalls(listeners, job, parse)
    {
      LookupIsBefore(session, job.id);
      ghost var before := session.Snapshots();
      SnapshotsPointwise(session, before);
      ProcessRoomJob(job, parse);
      assert forall x | x in before && x != job.id :: session.rooms[x].Snapshot() == before[x];
      SnapshotsAfterUnit(session, job.id, before);
    }
  }
}
