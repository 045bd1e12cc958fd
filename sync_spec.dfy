/// The value-level model of processing one sync response: what each event,
/// each batch and each room unit does to a room's value and which handler
/// calls it makes (matrix/sync.go:149-224). The imperative syncer in
/// module Syncer is proved against these functions.
module SyncSpec {
  import opened Optional
  import opened Events
  import opened Listeners
  import ES = EventSources

  /// Room state is keyed by event type and state key.
  datatype StateKey = StateKey(evtType: EventType, stateKey: string)

  type StateMap = map<StateKey, Event>

  /// The lazy-loading summary of a room.
  datatype Summary = Summary(heroes: seq<string>, joinedMemberCount: Option<int>, invitedMemberCount: Option<int>)

  /// The fields of a room that the syncer touches.
  datatype RoomValue = RoomValue(
    prevBatch: string,
    lastPrevBatch: string,
    hasLeft: bool,
    summary: Summary,
    state: StateMap)

  /// A room as the room provider creates it.
  const NewRoom: RoomValue := RoomValue("", "", false, Summary([], None, None), map[])

  datatype JoinedRoomData = JoinedRoomData(
    summary: Summary,
    state: seq<Event>,
    timeline: seq<Event>,
    prevBatch: string,
    ephemeral: seq<Event>,
    accountData: seq<Event>)

  datatype InvitedRoomData = InvitedRoomData(summary: Summary, state: seq<Event>)

  datatype LeftRoomData = LeftRoomData(
    summary: Summary,
    state: seq<Event>,
    timeline: seq<Event>,
    prevBatch: string)

  /// A `/sync` response: global presence and account data, and the three
  /// room buckets keyed by room id.
  datatype SyncResponse = SyncResponse(
    presence: seq<Event>,
    accountData: seq<Event>,
    join: map<RoomId, JoinedRoomData>,
    invite: map<RoomId, InvitedRoomData>,
    leave: map<RoomId, LeftRoomData>)

  /// One unit of per-room work (one goroutine in the source).
  datatype RoomJob =
    | JoinedJob(id: RoomId, joined: JoinedRoomData)
    | InvitedJob(id: RoomId, invited: InvitedRoomData)
    | LeftJob(id: RoomId, left: LeftRoomData)

  const JoinedState: ES.EventSource := ES.Join | ES.State
  const JoinedTimeline: ES.EventSource := ES.Join | ES.Timeline
  const JoinedEphemeral: ES.EventSource := ES.Join | ES.Ephemeral
  const JoinedAccountData: ES.EventSource := ES.Join | ES.AccountData
  const InvitedState: ES.EventSource := ES.Invite | ES.State
  const LeftState: ES.EventSource := ES.Leave | ES.State
  const LeftTimeline: ES.EventSource := ES.Leave | ES.Timeline

  // ---------------------------------------------------------------------
  // One event (processSyncEvent)

  /// Whether the event's content parses under its resolved type.
  predicate Parses(room: Option<RoomId>, e: Event, source: ES.EventSource, parse: Parser) {
    var r := Resolve(room, e, source);
    parse(r.evtType, r.content)
  }

  /// What one event does to the state of the room it is processed for.
  function ApplyEvent(st: StateMap, room: Option<RoomId>, e: Event, source: ES.EventSource, parse: Parser): (r: StateMap)
    ensures !Parses(room, e, source, parse) || room.None? || e.stateKey.None? ==> r == st
    ensures Parses(room, e, source, parse) && room.Some? && e.stateKey.Some? ==>
      r == st[StateKey(Resolve(room, e, source).evtType, e.stateKey.value) := Resolve(room, e, source)]
  {
    var r := Resolve(room, e, source);
    if parse(r.evtType, r.content) && room.Some? && r.evtType.typeClass == StateEventType then
      st[StateKey(r.evtType, r.stateKey.value) := r]
    else st
  }

  /// The handler calls one event makes.
  function EventCalls(reg: Registry, room: Option<RoomId>, e: Event, source: ES.EventSource, parse: Parser): (calls: seq<Effect>)
    ensures !Parses(room, e, source, parse) ==> calls == []
    ensures Parses(room, e, source, parse) ==>
      CalledHandlers(calls) == Handlers(reg, Resolve(room, e, source).evtType)
  {
    var r := Resolve(room, e, source);
    if parse(r.evtType, r.content) then
      CalledHandlersOfCalls(Handlers(reg, r.evtType), source, r);
      Calls(Handlers(reg, r.evtType), source, r)
    else []
  }

  // ---------------------------------------------------------------------
  // A batch (processSyncEvents)

  function BatchState(st: StateMap, room: Option<RoomId>, events: seq<Event>, source: ES.EventSource, parse: Parser): StateMap
    decreases |events|
  {
    if events == [] then st
    else
      var n := |events| - 1;
      ApplyEvent(BatchState(st, room, events[..n], source, parse), room, events[n], source, parse)
  }

  function BatchCalls(reg: Registry, room: Option<RoomId>, events: seq<Event>, source: ES.EventSource, parse: Parser): seq<Effect>
    decreases |events|
  {
    if events == [] then []
    else
      var n := |events| - 1;
      BatchCalls(reg, room, events[..n], source, parse) + EventCalls(reg, room, events[n], source, parse)
  }

  /// One more event of a batch: its effect follows the effect of those before.
  lemma BatchStep(reg: Registry, st: StateMap, room: Option<RoomId>, events: seq<Event>, i: nat, source: ES.EventSource, parse: Parser)
    requires i < |events|
    ensures BatchState(st, room, events[..i + 1], source, parse)
         == ApplyEvent(BatchState(st, room, events[..i], source, parse), room, events[i], source, parse)
    ensures BatchCalls(reg, room, events[..i + 1], source, parse)
         == BatchCalls(reg, room, events[..i], source, parse) + EventCalls(reg, room, events[i], source, parse)
  {
    assert events[..i + 1][..i] == events[..i];
  }

  /// The event that a batch writes last under a key, if any: the last event
  /// with that key whose content parses, resolved.
  function LastWrite(room: Option<RoomId>, events: seq<Event>, source: ES.EventSource, parse: Parser, k: StateKey): Option<Event>
    decreases |events|
  {
    if events == [] then None
    else
      match LastWrite(room, events[1..], source, parse, k)
      case Some(e) => Some(e)
      case None =>
        var e := events[0];
        var r := Resolve(room, e, source);
        if room.Some? && e.stateKey.Some? && Parses(room, e, source, parse)
           && k == StateKey(r.evtType, e.stateKey.value)
        then Some(r) else None
  }

  lemma {:induction false} LastWriteSnoc(room: Option<RoomId>, events: seq<Event>, e: Event, source: ES.EventSource, parse: Parser, k: StateKey)
    ensures LastWrite(room, events + [e], source, parse, k)
         == match LastWrite(room, [e], source, parse, k)
            case Some(w) => Some(w)
            case None => LastWrite(room, events, source, parse, k)
    decreases |events|
  {
    if events != [] {
      assert (events + [e])[1..] == events[1..] + [e];
      LastWriteSnoc(room, events[1..], e, source, parse, k);
    } else {
      assert events + [e] == [e];
    }
  }

  /// Within a batch, state is last-write-wins by batch order: a key holds
  /// the last parsed event with that key, and keys no such event names keep
  /// their old value (or stay absent).
  lemma {:induction false} LastWriteWins(st: StateMap, room: Option<RoomId>, events: seq<Event>, source: ES.EventSource, parse: Parser, k: StateKey)
    ensures k in BatchState(st, room, events, source, parse)
        <==> k in st || LastWrite(room, events, source, parse, k).Some?
    ensures k in BatchState(st, room, events, source, parse) ==>
      BatchState(st, room, events, source, parse)[k]
        == match LastWrite(room, events, source, parse, k)
           case Some(w) => w
           case None => st[k]
    decreases |events|
  {
    if events != [] {
      var n := |events| - 1;
      LastWriteWins(st, room, events[..n], source, parse, k);
      assert events == events[..n] + [events[n]];
      LastWriteSnoc(room, events[..n], events[n], source, parse, k);
      assert [events[n]][1..] == [];
    }
  }

  /// Global batches (no room) change no room state.
  lemma {:induction false} GlobalBatchKeepsState(st: StateMap, events: seq<Event>, source: ES.EventSource, parse: Parser)
    ensures BatchState(st, None, events, source, parse) == st
    decreases |events|
  {
    if events != [] {
      GlobalBatchKeepsState(st, events[..|events| - 1], source, parse);
    }
  }

  /// A batch in which no event carries a state key (ephemeral events,
  /// account data) changes no room state.
  lemma {:induction false} StatelessBatchKeepsState(st: StateMap, room: Option<RoomId>, events: seq<Event>, source: ES.EventSource, parse: Parser)
    requires forall i :: 0 <= i < |events| ==> events[i].stateKey.None?
    ensures BatchState(st, room, events, source, parse) == st
    decreases |events|
  {
    if events != [] {
      StatelessBatchKeepsState(st, room, events[..|events| - 1], source, parse);
    }
  }

  /// The events of a batch whose content parses.
  function Parsed(room: Option<RoomId>, events: seq<Event>, source: ES.EventSource, parse: Parser): seq<Event>
    decreases |events|
  {
    if events == [] then []
    else
      var n := |events| - 1;
      Parsed(room, events[..n], source, parse) + (if Parses(room, events[n], source, parse) then [events[n]] else [])
  }

  /// An event whose content does not parse is dropped: removing it from the
  /// batch changes neither the room state nor the handler calls.
  lemma {:induction false} UnparsedEventsAreDropped(reg: Registry, st: StateMap, room: Option<RoomId>, events: seq<Event>, source: ES.EventSource, parse: Parser)
    ensures BatchState(st, room, events, source, parse) == BatchState(st, room, Parsed(room, events, source, parse), source, parse)
    ensures BatchCalls(reg, room, events, source, parse) == BatchCalls(reg, room, Parsed(room, events, source, parse), source, parse)
    decreases |events|
  {
    if events != [] {
      var n := |events| - 1;
      var p := Parsed(room, events[..n], source, parse);
      UnparsedEventsAreDropped(reg, st, room, events[..n], source, parse);
      if Parses(room, events[n], source, parse) {
        assert (p + [events[n]])[..|p|] == p;
      } else {
        assert p + [] == p;
      }
    }
  }

  /// The handlers a batch calls are those of its parsed events, event by
  /// event in batch order, each event's handlers in registration order.
  function BatchHandlers(reg: Registry, room: Option<RoomId>, events: seq<Event>, source: ES.EventSource, parse: Parser): seq<HandlerId>
    decreases |events|
  {
    if events == [] then []
    else
      var n := |events| - 1;
      var e := events[n];
      BatchHandlers(reg, room, events[..n], source, parse)
        + (if Parses(room, e, source, parse) then Handlers(reg, Resolve(room, e, source).evtType) else [])
  }

  lemma {:induction false} BatchCallsInOrder(reg: Registry, room: Option<RoomId>, events: seq<Event>, source: ES.EventSource, parse: Parser)
    ensures CalledHandlers(BatchCalls(reg, room, events, source, parse)) == BatchHandlers(reg, room, events, source, parse)
    decreases |events|
  {
    if events != [] {
      var n := |events| - 1;
      BatchCallsInOrder(reg, room, events[..n], source, parse);
      CalledHandlersAppend(BatchCalls(reg, room, events[..n], source, parse), EventCalls(reg, room, events[n], source, parse));
    }
  }

  // ---------------------------------------------------------------------
  // Room units (processJoinedRoom, processInvitedRoom, processLeftRoom)

  /// `PrevBatch` is written only while it is empty.
  function NextPrevBatch(prev: string, token: string): (r: string)
    ensures prev != "" ==> r == prev
    ensures prev == "" ==> r == token
  {
    if |prev| == 0 then token else prev
  }

  function JoinedRoomValue(v: RoomValue, id: RoomId, d: JoinedRoomData, parse: Parser): (r: RoomValue)
    ensures r.prevBatch == NextPrevBatch(v.prevBatch, d.prevBatch)
    ensures r.lastPrevBatch == d.prevBatch
    ensures r.hasLeft == v.hasLeft
    ensures r.summary == d.summary
  {
    var room := Some(id);
    var s1 := BatchState(v.state, room, d.state, JoinedState, parse);
    var s2 := BatchState(s1, room, d.timeline, JoinedTimeline, parse);
    var s3 := BatchState(s2, room, d.ephemeral, JoinedEphemeral, parse);
    var s4 := BatchState(s3, room, d.accountData, JoinedAccountData, parse);
    RoomValue(NextPrevBatch(v.prevBatch, d.prevBatch), d.prevBatch, v.hasLeft, d.summary, s4)
  }

  function InvitedRoomValue(v: RoomValue, id: RoomId, d: InvitedRoomData, parse: Parser): (r: RoomValue)
    ensures r.prevBatch == v.prevBatch && r.lastPrevBatch == v.lastPrevBatch
    ensures r.hasLeft == v.hasLeft
    ensures r.summary == d.summary
  {
    v.(summary := d.summary, state := BatchState(v.state, Some(id), d.state, InvitedState, parse))
  }

  function LeftRoomValue(v: RoomValue, id: RoomId, d: LeftRoomData, parse: Parser): (r: RoomValue)
    ensures r.prevBatch == NextPrevBatch(v.prevBatch, d.prevBatch)
    ensures r.lastPrevBatch == d.prevBatch
    ensures r.hasLeft
    ensures r.summary == d.summary
  {
    var room := Some(id);
    var s1 := BatchState(v.state, room, d.state, LeftState, parse);
    var s2 := BatchState(s1, room, d.timeline, LeftTimeline, parse);
    RoomValue(NextPrevBatch(v.prevBatch, d.prevBatch), d.prevBatch, true, d.summary, s2)
  }

  function JoinedCalls(reg: Registry, id: RoomId, d: JoinedRoomData, parse: Parser): seq<Effect> {
    var room := Some(id);
    BatchCalls(reg, room, d.state, JoinedState, parse)
      + BatchCalls(reg, room, d.timeline, JoinedTimeline, parse)
      + BatchCalls(reg, room, d.ephemeral, JoinedEphemeral, parse)
      + BatchCalls(reg, room, d.accountData, JoinedAccountData, parse)
  }

  function InvitedCalls(reg: Registry, id: RoomId, d: InvitedRoomData, parse: Parser): seq<Effect> {
    BatchCalls(reg, Some(id), d.state, InvitedState, parse)
  }

  function LeftCalls(reg: Registry, id: RoomId, d: LeftRoomData, parse: Parser): seq<Effect> {
    BatchCalls(reg, Some(id), d.state, LeftState, parse) + BatchCalls(reg, Some(id), d.timeline, LeftTimeline, parse)
  }

  function ApplyJob(v: RoomValue, job: RoomJob, parse: Parser): RoomValue {
    match job
    case JoinedJob(id, d) => JoinedRoomValue(v, id, d, parse)
    case InvitedJob(id, d) => InvitedRoomValue(v, id, d, parse)
    case LeftJob(id, d) => LeftRoomValue(v, id, d, parse)
  }

  function JobCalls(reg: Registry, job: RoomJob, parse: Parser): seq<Effect> {
    match job
    case JoinedJob(id, d) => JoinedCalls(reg, id, d, parse)
    case InvitedJob(id, d) => InvitedCalls(reg, id, d, parse)
    case LeftJob(id, d) => LeftCalls(reg, id, d, parse)
  }

  // ---------------------------------------------------------------------
  // One room over successive syncs

  /// A room's value after a series of units for it, in order.
  function RoomAfter(v: RoomValue, jobs: seq<RoomJob>, parse: Parser): RoomValue
    decreases |jobs|
  {
    if jobs == [] then v
    else ApplyJob(RoomAfter(v, jobs[..|jobs| - 1], parse), jobs[|jobs| - 1], parse)
  }

  /// The timeline token a unit carries: joined and left rooms have one.
  function Token(job: RoomJob): Option<string> {
    match job
    case JoinedJob(_, d) => Some(d.prevBatch)
    case InvitedJob(_, _) => None
    case LeftJob(_, d) => Some(d.prevBatch)
  }

  /// The first non-empty token of a series, or "" if there is none.
  function FirstToken(jobs: seq<RoomJob>): string
    decreases |jobs|
  {
    if jobs == [] then ""
    else if Token(jobs[0]).Some? && Token(jobs[0]).value != "" then Token(jobs[0]).value
    else FirstToken(jobs[1..])
  }

  /// The token of the latest unit that carries one.
  function LatestToken(jobs: seq<RoomJob>): Option<string>
    decreases |jobs|
  {
    if jobs == [] then None
    else
      match LatestToken(jobs[1..])
      case Some(t) => Some(t)
      case None => Token(jobs[0])
  }

  lemma {:induction false} FirstTokenSnoc(jobs: seq<RoomJob>, j: RoomJob)
    ensures FirstToken(jobs + [j])
         == if FirstToken(jobs) != "" then FirstToken(jobs)
            else if Token(j).Some? then Token(j).value else ""
    decreases |jobs|
  {
    if jobs == [] {
      assert jobs + [j] == [j];
      assert [j][1..] == [];
    } else {
      assert (jobs + [j])[1..] == jobs[1..] + [j];
      FirstTokenSnoc(jobs[1..], j);
    }
  }

  lemma {:induction false} LatestTokenSnoc(jobs: seq<RoomJob>, j: RoomJob)
    ensures LatestToken(jobs + [j]) == if Token(j).Some? then Token(j) else LatestToken(jobs)
    decreases |jobs|
  {
    if jobs == [] {
      assert jobs + [j] == [j];
      assert [j][1..] == [];
    } else {
      assert (jobs + [j])[1..] == jobs[1..] + [j];
      LatestTokenSnoc(jobs[1..], j);
    }
  }

  /// `PrevBatch` is written once: it keeps a non-empty value for ever, and
  /// an empty one becomes the first non-empty token seen.
  lemma {:induction false} PrevBatchIsFirstToken(v: RoomValue, jobs: seq<RoomJob>, parse: Parser)
    ensures RoomAfter(v, jobs, parse).prevBatch == if v.prevBatch != "" then v.prevBatch else FirstToken(jobs)
    decreases |jobs|
  {
    if jobs != [] {
      var n := |jobs| - 1;
      PrevBatchIsFirstToken(v, jobs[..n], parse);
      assert jobs == jobs[..n] + [jobs[n]];
      FirstTokenSnoc(jobs[..n], jobs[n]);
    }
  }

  /// `LastPrevBatch` is the token of the latest joined or left unit;
  /// invited units leave it alone.
  lemma {:induction false} LastPrevBatchIsLatestToken(v: RoomValue, jobs: seq<RoomJob>, parse: Parser)
    ensures RoomAfter(v, jobs, parse).lastPrevBatch
         == match LatestToken(jobs) case Some(t) => t case None => v.lastPrevBatch
    decreases |jobs|
  {
    if jobs != [] {
      var n := |jobs| - 1;
      LastPrevBatchIsLatestToken(v, jobs[..n], parse);
      assert jobs == jobs[..n] + [jobs[n]];
      LatestTokenSnoc(jobs[..n], jobs[n]);
    }
  }

  /// `HasLeft` is set by a left-room unit and by nothing else, and is
  /// never cleared.
  lemma {:induction false} HasLeftIffLeftJob(v: RoomValue, jobs: seq<RoomJob>, parse: Parser)
    ensures RoomAfter(v, jobs, parse).hasLeft <==> v.hasLeft || exists i :: 0 <= i < |jobs| && jobs[i].LeftJob?
    decreases |jobs|
  {
    if jobs != [] {
      var n := |jobs| - 1;
      HasLeftIffLeftJob(v, jobs[..n], parse);
      if jobs[n].LeftJob? {
      } else if exists i :: 0 <= i < n && jobs[..n][i].LeftJob? {
        var i :| 0 <= i < n && jobs[..n][i].LeftJob?;
        assert jobs[i].LeftJob?;
      }
    }
  }

  // ---------------------------------------------------------------------
  // All rooms of a response

  /// A room's value before a unit: as recorded, or freshly created.
  function Before(rooms: map<RoomId, RoomValue>, id: RoomId): RoomValue {
    if id in rooms then rooms[id] else NewRoom
  }

  /// The room values after running units one after another, in the given
  /// order; each unit looks up (or creates) its room and updates it.
  function RunJobs(rooms: map<RoomId, RoomValue>, jobs: seq<RoomJob>, parse: Parser): map<RoomId, RoomValue>
    decreases |jobs|
  {
    if jobs == [] then rooms
    else
      var n := |jobs| - 1;
      var s := RunJobs(rooms, jobs[..n], parse);
      s[jobs[n].id := ApplyJob(Before(s, jobs[n].id), jobs[n], parse)]
  }

  /// The handler calls of running units in the given order.
  function JobsCalls(reg: Registry, jobs: seq<RoomJob>, parse: Parser): seq<Effect>
    decreases |jobs|
  {
    if jobs == [] then []
    else JobsCalls(reg, jobs[..|jobs| - 1], parse) + JobCalls(reg, jobs[|jobs| - 1], parse)
  }

  /// The units of a series that are for one room, in order.
  function ForRoom(jobs: seq<RoomJob>, id: RoomId): seq<RoomJob>
    decreases |jobs|
  {
    if jobs == [] then []
    else
      var n := |jobs| - 1;
      ForRoom(jobs[..n], id) + (if jobs[n].id == id then [jobs[n]] else [])
  }

  /// Each room's final value depends only on its own old value and on the
  /// units for it, in their order: units for other rooms do not touch it.
  lemma {:induction false} RunJobsIsPerRoom(rooms: map<RoomId, RoomValue>, jobs: seq<RoomJob>, parse: Parser, id: RoomId)
    ensures id in RunJobs(rooms, jobs, parse) <==> id in rooms || ForRoom(jobs, id) != []
    ensures Before(RunJobs(rooms, jobs, parse), id) == RoomAfter(Before(rooms, id), ForRoom(jobs, id), parse)
    decreases |jobs|
  {
    if jobs != [] {
      var n := |jobs| - 1;
      RunJobsIsPerRoom(rooms, jobs[..n], parse, id);
      var f := ForRoom(jobs[..n], id);
      if jobs[n].id == id {
        assert (f + [jobs[n]])[..|f|] == f;
      } else {
        assert f + [] == f;
      }
    }
  }

  /// The units of a response, one per room of each bucket.
  function Jobs(res: SyncResponse): set<RoomJob> {
    (set id | id in res.join :: JoinedJob(id, res.join[id]))
      + (set id | id in res.invite :: InvitedJob(id, res.invite[id]))
      + (set id | id in res.leave :: LeftJob(id, res.leave[id]))
  }

  /// `order` runs every unit of `jobs` exactly once.
  ghost predicate Enumerates(order: seq<RoomJob>, jobs: set<RoomJob>) {
    && (forall j :: j in order <==> j in jobs)
    && (forall i, k :: 0 <= i < k < |order| ==> order[i] != order[k])
  }

  /// Part way through running `jobs`: `order` has run, `todo` is left.
  ghost predicate Splits(jobs: set<RoomJob>, todo: set<RoomJob>, order: seq<RoomJob>) {
    && (forall j :: j in jobs <==> j in todo || j in order)
    && (forall j :: j in todo ==> j !in order)
    && (forall i, k :: 0 <= i < k < |order| ==> order[i] != order[k])
  }

  lemma SplitsStep(jobs: set<RoomJob>, todo: set<RoomJob>, order: seq<RoomJob>, job: RoomJob)
    requires Splits(jobs, todo, order) && job in todo
    ensures Splits(jobs, todo - {job}, order + [job])
  {
    forall i, k | 0 <= i < k < |order| + 1
      ensures (order + [job])[i] != (order + [job])[k]
    {
      if k == |order| {
        assert (order + [job])[i] == order[i];
      }
    }
  }

  lemma SplitsDone(jobs: set<RoomJob>, order: seq<RoomJob>)
    requires Splits(jobs, {}, order)
    ensures Enumerates(order, jobs)
  {
  }

  lemma {:induction false} ForRoomSingle(jobs: seq<RoomJob>, id: RoomId, j: RoomJob)
    requires j in jobs && j.id == id
    requires forall i :: 0 <= i < |jobs| && jobs[i].id == id ==> jobs[i] == j
    requires forall i, k :: 0 <= i < k < |jobs| ==> jobs[i] != jobs[k]
    ensures ForRoom(jobs, id) == [j]
    decreases |jobs|
  {
    var n := |jobs| - 1;
    if jobs[n] == j {
      ForRoomNone(jobs[..n], id);
    } else {
      ForRoomSingle(jobs[..n], id, j);
    }
  }

  lemma {:induction false} ForRoomNone(jobs: seq<RoomJob>, id: RoomId)
    requires forall i :: 0 <= i < |jobs| ==> jobs[i].id != id
    ensures ForRoom(jobs, id) == []
    decreases |jobs|
  {
    if jobs != [] {
      ForRoomNone(jobs[..|jobs| - 1], id);
    }
  }

  /// A room that appears in only one bucket of a response ends as that
  /// bucket's unit makes it, whatever order the units ran in.
  lemma SingleBucketRoom(rooms: map<RoomId, RoomValue>, res: SyncResponse, order: seq<RoomJob>, parse: Parser, id: RoomId)
    requires Enumerates(order, Jobs(res))
    ensures id in res.join && id !in res.invite && id !in res.leave ==>
      Before(RunJobs(rooms, order, parse), id) == JoinedRoomValue(Before(rooms, id), id, res.join[id], parse)
    ensures id !in res.join && id in res.invite && id !in res.leave ==>
      Before(RunJobs(rooms, order, parse), id) == InvitedRoomValue(Before(rooms, id), id, res.invite[id], parse)
    ensures id !in res.join && id !in res.invite && id in res.leave ==>
      Before(RunJobs(rooms, order, parse), id) == LeftRoomValue(Before(rooms, id), id, res.leave[id], parse)
    ensures id !in res.join && id !in res.invite && id !in res.leave ==>
      Before(RunJobs(rooms, order, parse), id) == Before(rooms, id)
  {
    RunJobsIsPerRoom(rooms, order, parse, id);
    var jobs := Jobs(res);
    var j: RoomJob;
    if id in res.join && id !in res.invite && id !in res.leave {
      j := JoinedJob(id, res.join[id]);
    } else if id !in res.join && id in res.invite && id !in res.leave {
      j := InvitedJob(id, res.invite[id]);
    } else if id !in res.join && id !in res.invite && id in res.leave {
      j := LeftJob(id, res.leave[id]);
    } else {
      if id !in res.join && id !in res.invite && id !in res.leave {
        forall i | 0 <= i < |order| ensures order[i].id != id {
          assert order[i] in jobs;
        }
        ForRoomNone(order, id);
      }
      return;
    }
    assert j in jobs;
    forall i | 0 <= i < |order| && order[i].id == id ensures order[i] == j {
      assert order[i] in jobs;
    }
    ForRoomSingle(order, id, j);
    assert [j][..0] == [];
  }

  /// Every room of the left bucket ends with `HasLeft` set, whatever else
  /// the response holds for it and whatever the order.
  lemma LeftRoomsHaveLeft(rooms: map<RoomId, RoomValue>, res: SyncResponse, order: seq<RoomJob>, parse: Parser, id: RoomId)
    requires Enumerates(order, Jobs(res))
    requires id in res.leave
    ensures id in RunJobs(rooms, order, parse) && RunJobs(rooms, order, parse)[id].hasLeft
  {
    var j := LeftJob(id, res.leave[id]);
    assert j in Jobs(res);
    var i :| 0 <= i < |order| && order[i] == j;
    ForRoomContains(order, id, i);
    var k :| 0 <= k < |ForRoom(order, id)| && ForRoom(order, id)[k] == j;
    RunJobsIsPerRoom(rooms, order, parse, id);
    HasLeftIffLeftJob(Before(rooms, id), ForRoom(order, id), parse);
  }

  lemma {:induction false} ForRoomContains(jobs: seq<RoomJob>, id: RoomId, i: nat)
    requires i < |jobs| && jobs[i].id == id
    ensures exists k :: 0 <= k < |ForRoom(jobs, id)| && ForRoom(jobs, id)[k] == jobs[i]
    decreases |jobs|
  {
    var n := |jobs| - 1;
    var f := ForRoom(jobs[..n], id);
    if i == n {
      assert ForRoom(jobs, id)[|f|] == jobs[i];
    } else {
      ForRoomContains(jobs[..n], id, i);
      var k :| 0 <= k < |f| && f[k] == jobs[..n][i];
      assert ForRoom(jobs, id)[k] == jobs[i];
    }
  }
}
