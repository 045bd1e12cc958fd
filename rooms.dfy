/// The collaborators the syncer mutates: a room (only the fields the syncer
/// touches) and the session that looks rooms up or creates them
/// (`SyncerSession`, matrix/sync.go:34-39). The session's unloading toggles
/// are calls the syncer records as effects (module Listeners).
module Rooms {
  import opened Optional
  import opened Events
  import opened SyncSpec

  class Room {
    const id: RoomId
    var prevBatch: string
    var lastPrevBatch: string
    var hasLeft: bool
    var summary: Summary
    var state: StateMap

    /// The room's fields as a value.
    function Snapshot(): RoomValue
      reads this
    {
      RoomValue(prevBatch, lastPrevBatch, hasLeft, summary, state)
    }

    constructor (id: RoomId)
      ensures this.id == id && Snapshot() == NewRoom
    {
      this.id := id;
      prevBatch, lastPrevBatch, hasLeft := "", "", false;
      summary := NewRoom.summary;
      state := map[];
    }

    /// `UpdateSummary`, taken as an overwrite.
    method UpdateSummary(s: Summary)
      modifies this
      ensures Snapshot() == old(Snapshot()).(summary := s)
    {
      summary := s;
    }

    /// `UpdateState`: stores a state event under its type and state key.
    method UpdateState(e: Event)
      requires e.stateKey.Some?
      modifies this
      ensures Snapshot() == old(Snapshot()).(state := old(state)[StateKey(e.evtType, e.stateKey.value) := e])
    {
      state := state[StateKey(e.evtType, e.stateKey.value) := e];
    }
  }

  /// The room id a batch is processed for: none for a global batch.
  function RoomOf(room: Room?): Option<RoomId> {
    if room == null then None else Some(room.id)
  }

  class Session {
    var rooms: map<RoomId, Room>

    /// Every room is filed under its own id, so distinct ids are distinct rooms.
    ghost predicate Valid()
      reads this`rooms
    {
      forall id | id in rooms :: rooms[id].id == id
    }

    /// The values of all known rooms.
    ghost function Snapshots(): map<RoomId, RoomValue>
      reads this`rooms, rooms.Values
    {
      map id | id in rooms :: rooms[id].Snapshot()
    }

    /// The value a room unit starts from: the room's, or a new room's.
    ghost function Lookup(id: RoomId): RoomValue
      reads this`rooms, rooms.Values
    {
      if id in rooms then rooms[id].Snapshot() else NewRoom
    }

    constructor ()
      ensures Valid() && rooms == map[]
    {
      rooms := map[];
    }

    /// `GetRoom`: look the room up, or create and file it.
    method GetRoom(id: RoomId) returns (room: Room)
      requires Valid()
      modifies this`rooms
      ensures Valid() && room.id == id
      ensures id in old(rooms) ==> room == old(rooms)[id] && rooms == old(rooms)
      ensures id !in old(rooms) ==> fresh(room) && room.Snapshot() == NewRoom && rooms == old(rooms)[id := room]
    {
      if id in rooms {
        room := rooms[id];
      } else {
        room := new Room(id);
        rooms := rooms[id := room];
      }
    }
  }

  /// Proof step: a unit starts from its room's recorded value, or a new one.
  lemma LookupIsBefore(s: Session, id: RoomId)
    ensures s.Lookup(id) == Before(s.Snapshots(), id)
  {
  }

  /// A room unit changes the value of its own room only: if every other
  /// room keeps its value from `before`, the snapshots are `before` with
  /// that one room replaced.
  lemma SnapshotsAfterUnit(s: Session, id: RoomId, before: map<RoomId, RoomValue>)
    requires s.rooms.Keys == before.Keys + {id}
    requires forall x | x in before && x != id :: s.rooms[x].Snapshot() == before[x]
    ensures s.Snapshots() == before[id := s.rooms[id].Snapshot()]
  {
  }

  /// Proof step: the snapshots are a value exactly when every room has that
  /// value.
  lemma SnapshotsPointwise(s: Session, m: map<RoomId, RoomValue>)
    ensures s.Snapshots() == m <==> s.rooms.Keys == m.Keys && forall x | x in s.rooms :: s.rooms[x].Snapshot() == m[x]
  {
  }
}
