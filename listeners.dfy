/// The listener registry of the syncer (matrix/sync.go:226-244): a map from
/// event type to the handlers registered for it, in registration order.
/// Handlers are opaque; what they are asked to do is recorded as effects.
module Listeners {
  import opened Events
  import ES = EventSources

  /// An opaque handler (a Go `EventHandler` function value).
  type HandlerId = nat

  type Registry = map<EventType, seq<HandlerId>>

  /// What the syncer does that is visible outside it: a handler call, and
  /// the session toggles and init callback of the first sync.
  datatype Effect =
    | Notified(handler: HandlerId, source: ES.EventSource, evt: Event)
    | UnloadingDisabled
    | InitDone
    | UnloadingEnabled

  /// The handlers registered for a type; a missing entry reads as none.
  function Handlers(reg: Registry, t: EventType): seq<HandlerId> {
    if t in reg then reg[t] else []
  }

  /// `OnEventType` on the registry value: appends, with no duplicate check.
  function Register(reg: Registry, t: EventType, h: HandlerId): (r: Registry)
    ensures Handlers(r, t) == Handlers(reg, t) + [h]
    ensures forall u :: u != t ==> Handlers(r, u) == Handlers(reg, u)
    ensures r.Keys == reg.Keys + {t}
  {
    reg[t := Handlers(reg, t) + [h]]
  }

  /// Registering several handlers for one type, one after the other.
  function RegisterAll(reg: Registry, t: EventType, hs: seq<HandlerId>): Registry
    decreases |hs|
  {
    if hs == [] then reg else Register(RegisterAll(reg, t, hs[..|hs| - 1]), t, hs[|hs| - 1])
  }

  /// The calls `notifyListeners` makes: one per registered handler, in order.
  function Calls(hs: seq<HandlerId>, source: ES.EventSource, e: Event): seq<Effect> {
    seq(|hs|, i requires 0 <= i < |hs| => Notified(hs[i], source, e))
  }

  /// The handlers called in a trace, in call order.
  function CalledHandlers(trace: seq<Effect>): seq<HandlerId>
    decreases |trace|
  {
    if trace == [] then []
    else
      var last := trace[|trace| - 1];
      CalledHandlers(trace[..|trace| - 1]) + (if last.Notified? then [last.handler] else [])
  }

  lemma {:induction false} CalledHandlersAppend(a: seq<Effect>, b: seq<Effect>)
    ensures CalledHandlers(a + b) == CalledHandlers(a) + CalledHandlers(b)
    decreases |b|
  {
    if b != [] {
      var n := |b| - 1;
      assert (a + b)[..|a + b| - 1] == a + b[..n];
      CalledHandlersAppend(a, b[..n]);
    } else {
      assert a + b == a;
    }
  }

  /// Proof step: regrouping a trace built by appending.
  lemma AppendAssoc(a: seq<Effect>, b: seq<Effect>, c: seq<Effect>)
    ensures (a + b) + c == a + (b + c)
  {
  }

  /// Proof step: regrouping a trace built by four appends.
  lemma AppendAssoc4(a: seq<Effect>, b: seq<Effect>, c: seq<Effect>, d: seq<Effect>, e: seq<Effect>)
    ensures (((a + b) + c) + d) + e == a + (((b + c) + d) + e)
  {
  }

  /// Each registered handler is called once per registration, in
  /// registration order, and no other handler is called.
  lemma {:induction false} CalledHandlersOfCalls(hs: seq<HandlerId>, source: ES.EventSource, e: Event)
    ensures CalledHandlers(Calls(hs, source, e)) == hs
    ensures forall i :: 0 <= i < |hs| ==> Calls(hs, source, e)[i] == Notified(hs[i], source, e)
    decreases |hs|
  {
    if hs != [] {
      var n := |hs| - 1;
      assert hs == hs[..n] + [hs[n]];
      assert Calls(hs[..n] + [hs[n]], source, e) == Calls(hs[..n], source, e) + [Notified(hs[n], source, e)];
      CalledHandlersOfCalls(hs[..n], source, e);
      CalledHandlersAppend(Calls(hs[..n], source, e), [Notified(hs[n], source, e)]);
      assert CalledHandlers([Notified(hs[n], source, e)]) == [hs[n]];
    }
  }

  /// Registering a list of handlers appends exactly that list, in order,
  /// and leaves every other type's list alone.
  lemma {:induction false} RegisterAllAppends(reg: Registry, t: EventType, hs: seq<HandlerId>)
    ensures Handlers(RegisterAll(reg, t, hs), t) == Handlers(reg, t) + hs
    ensures forall u :: u != t ==> Handlers(RegisterAll(reg, t, hs), u) == Handlers(reg, u)
    decreases |hs|
  {
    if hs != [] {
      var n := |hs| - 1;
      RegisterAllAppends(reg, t, hs[..n]);
      assert hs == hs[..n] + [hs[n]];
    }
  }

  /// For handlers registered one after another on a type, an event of that
  /// type calls the earlier registrations, then these in order (duplicates
  /// included); an event of any other type is not affected.
  lemma NotifyFollowsRegistration(reg: Registry, t: EventType, hs: seq<HandlerId>, source: ES.EventSource, e: Event)
    ensures e.evtType == t ==>
      CalledHandlers(Calls(Handlers(RegisterAll(reg, t, hs), e.evtType), source, e)) == Handlers(reg, t) + hs
    ensures e.evtType != t ==>
      Calls(Handlers(RegisterAll(reg, t, hs), e.evtType), source, e) == Calls(Handlers(reg, e.evtType), source, e)
  {
    RegisterAllAppends(reg, t, hs);
    CalledHandlersOfCalls(Handlers(RegisterAll(reg, t, hs), e.evtType), source, e);
  }

  /// A handler is called as many times as it is registered for the type.
  lemma CallCountIsRegistrationCount(reg: Registry, e: Event, source: ES.EventSource, h: HandlerId)
    ensures multiset(CalledHandlers(Calls(Handlers(reg, e.evtType), source, e)))[h]
         == multiset(Handlers(reg, e.evtType))[h]
  {
    CalledHandlersOfCalls(Handlers(reg, e.evtType), source, e);
  }
}
