/// The /sync filter the syncer asks the server for (`GetFilterJSON`,
/// matrix/sync.go:252-300). Event types are named by the library constants
/// the source lists; their wire names are not part of this model.
module Filter {
  datatype FilterType =
    | StateMember | StateRoomName | StateTopic | StateCanonicalAlias | StatePowerLevels | StateTombstone
    | EventMessage | EventRedaction | EventEncrypted | EventSticker | EventReaction
    | EphemeralEventTyping | EphemeralEventReceipt
    | AccountDataRoomTags | AccountDataPushRules | AccountDataDirectChats | AccountDataGomuksPreferences
    | Wildcard   // `event.NewEventType("*")`

  /// A filter part; `limit == 0` stands for an unset limit.
  datatype FilterPart = FilterPart(lazyLoadMembers: bool, types: seq<FilterType>, notTypes: seq<FilterType>, limit: nat)

  datatype RoomFilter = RoomFilter(includeLeave: bool, state: FilterPart, timeline: FilterPart,
                                   ephemeral: FilterPart, accountData: FilterPart)

  datatype SyncFilter = SyncFilter(room: RoomFilter, accountData: FilterPart, presence: FilterPart)

  /// The state event types the client keeps.
  const StateTypes: seq<FilterType> :=
    [StateMember, StateRoomName, StateTopic, StateCanonicalAlias, StatePowerLevels, StateTombstone]

  /// The message-like event types of the timeline, before the state types.
  const MessageTypes: seq<FilterType> :=
    [EventMessage, EventRedaction, EventEncrypted, EventSticker, EventReaction]

  function Types(ts: seq<FilterType>): FilterPart {
    FilterPart(false, ts, [], 0)
  }

  /// `GetFilterJSON`: the same filter for every user.
  function GetFilterJSON(user: string): (f: SyncFilter)
    ensures !f.room.includeLeave
    ensures f.room.timeline.limit == 50
    ensures f.room.state.lazyLoadMembers && f.room.timeline.lazyLoadMembers
    ensures forall t :: t in f.room.state.types ==> t in f.room.timeline.types
    ensures Wildcard in f.presence.notTypes && f.presence.types == []
  {
    SyncFilter(
      RoomFilter(
        false,
        FilterPart(true, StateTypes, [], 0),
        FilterPart(true, MessageTypes + StateTypes, [], 50),
        Types([EphemeralEventTyping, EphemeralEventReceipt]),
        Types([AccountDataRoomTags])),
      Types([AccountDataPushRules, AccountDataDirectChats, AccountDataGomuksPreferences]),
      FilterPart(false, [], [Wildcard], 0))
  }

  /// The timeline asks for the message types and every kept state type, and
  /// for nothing else.
  lemma {:induction false} TimelineTypes(user: string, t: FilterType)
    ensures t in GetFilterJSON(user).room.timeline.types <==> t in MessageTypes || t in StateTypes
  {
    var f := GetFilterJSON(user);
    assert f.room.timeline.types == MessageTypes + StateTypes;
  }

  /// The filter does not depend on the user it is built for.
  lemma SameForEveryUser(u: string, v: string)
    ensures GetFilterJSON(u) == GetFilterJSON(v)
  {
  }
}
