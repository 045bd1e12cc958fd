/// Sync events and the resolution of their type class
/// (the `switch` of `processSyncEvent`, matrix/sync.go:194-211).
module Events {
  import opened Optional
  import ES = EventSources

  type RoomId = string

  /// The raw JSON content of an event, before it is parsed.
  type Content = string

  /// The class half of an event type.
  datatype TypeClass =
    | UnknownEventType
    | StateEventType
    | MessageEventType
    | ToDeviceEventType
    | EphemeralEventType
    | AccountDataEventType

  /// An event type is its name ("m.room.member") together with its class;
  /// listeners are keyed by the pair, so a class must be right for a
  /// listener to fire.
  datatype EventType = EventType(name: string, typeClass: TypeClass)

  datatype Event = Event(
    evtType: EventType,
    roomId: RoomId,
    sender: string,
    stateKey: Option<string>,
    content: Content)

  /// The content parser (`evt.Content.ParseRaw`), which this model does not
  /// see: it says whether raw content parses under a resolved type.
  type Parser = (EventType, Content) -> bool

  /// The class an event gets from whether it has a state key and from the
  /// source of its batch: the first matching case of the switch wins.
  function Classify(hasStateKey: bool, source: ES.EventSource): (c: TypeClass)
    ensures c != UnknownEventType
    ensures c == StateEventType <==> hasStateKey
    ensures c == ToDeviceEventType ==> source == ES.ToDevice
  {
    if hasStateKey then StateEventType
    else if source == ES.Presence || ES.Has(source, ES.Ephemeral) then EphemeralEventType
    else if ES.Has(source, ES.AccountData) then AccountDataEventType
    else if source == ES.ToDevice then ToDeviceEventType
    else MessageEventType
  }

  /// The guard under which each class may be chosen, taken on its own.
  predicate Admits(c: TypeClass, hasStateKey: bool, source: ES.EventSource) {
    match c
    case StateEventType => hasStateKey
    case EphemeralEventType => source == ES.Presence || ES.Has(source, ES.Ephemeral)
    case AccountDataEventType => ES.Has(source, ES.AccountData)
    case ToDeviceEventType => source == ES.ToDevice
    case MessageEventType => true
    case UnknownEventType => false
  }

  /// The order in which the guards are tried.
  function Precedence(c: TypeClass): nat {
    match c
    case StateEventType => 0
    case EphemeralEventType => 1
    case AccountDataEventType => 2
    case ToDeviceEventType => 3
    case MessageEventType => 4
    case UnknownEventType => 5
  }

  /// `Classify` picks an admitted class and no admitted class precedes it.
  lemma ClassifyIsFirstMatch(hasStateKey: bool, source: ES.EventSource)
    ensures Admits(Classify(hasStateKey, source), hasStateKey, source)
    ensures forall c :: Precedence(c) < Precedence(Classify(hasStateKey, source)) ==> !Admits(c, hasStateKey, source)
  {
  }

  /// Conversely, the first admitted class is the one `Classify` picks.
  lemma FirstMatchIsClassify(c: TypeClass, hasStateKey: bool, source: ES.EventSource)
    requires Admits(c, hasStateKey, source)
    requires forall d :: Precedence(d) < Precedence(c) ==> !Admits(d, hasStateKey, source)
    ensures c == Classify(hasStateKey, source)
  {
    var k := Classify(hasStateKey, source);
    ClassifyIsFirstMatch(hasStateKey, source);
    if Precedence(k) < Precedence(c) {
    } else if Precedence(c) < Precedence(k) {
    }
  }

  /// The precedence cases the switch encodes.
  lemma ClassifyPrecedence(source: ES.EventSource)
    ensures Classify(true, source) == StateEventType
    ensures ES.Has(source, ES.Ephemeral) ==> Classify(false, source) == EphemeralEventType
    ensures Classify(false, ES.Join | ES.Ephemeral) == EphemeralEventType
    ensures Classify(false, ES.Join | ES.AccountData) == AccountDataEventType
    ensures Classify(false, ES.Join | ES.Timeline) == MessageEventType
    ensures Classify(false, ES.Leave | ES.Timeline) == MessageEventType
    ensures Classify(false, ES.ToDevice) == ToDeviceEventType
    ensures Classify(false, ES.ToDevice | ES.Join) == MessageEventType
  {
  }

  /// The class of an event without a state key for each source the syncer
  /// uses: events in a room's state batch that lack a state key are messages.
  lemma ClassOfBatchSources()
    ensures Classify(false, ES.Presence) == EphemeralEventType
    ensures Classify(false, ES.AccountData) == AccountDataEventType
    ensures Classify(false, ES.Join | ES.State) == MessageEventType
    ensures Classify(false, ES.Join | ES.Timeline) == MessageEventType
    ensures Classify(false, ES.Join | ES.Ephemeral) == EphemeralEventType
    ensures Classify(false, ES.Join | ES.AccountData) == AccountDataEventType
    ensures Classify(false, ES.Invite | ES.State) == MessageEventType
    ensures Classify(false, ES.Leave | ES.State) == MessageEventType
    ensures Classify(false, ES.Leave | ES.Timeline) == MessageEventType
  {
  }

  /// The event as `processSyncEvent` hands it on: its room id set to the
  /// room's when it has one, its class resolved, everything else kept.
  function Resolve(room: Option<RoomId>, e: Event, source: ES.EventSource): (r: Event)
    ensures r.evtType.name == e.evtType.name
    ensures r.evtType.typeClass == Classify(e.stateKey.Some?, source)
    ensures r.stateKey == e.stateKey && r.sender == e.sender && r.content == e.content
    ensures r.roomId == if room.Some? then room.value else e.roomId
  {
    var id := if room.Some? then room.value else e.roomId;
    e.(roomId := id, evtType := e.evtType.(typeClass := Classify(e.stateKey.Some?, source)))
  }
}
