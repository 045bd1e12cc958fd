/// The origin of a batch of sync events, as a bit set (matrix/sync.go:41-53),
/// and its human-readable description (matrix/sync.go:55-89).
/// Go's `int` is taken to be 64 bits wide, so a source is a `bv64`.
module EventSources {
  import opened Optional

  type EventSource = bv64

  const Presence: EventSource := 1
  const Join: EventSource := 2
  const Invite: EventSource := 4
  const Leave: EventSource := 8
  const AccountData: EventSource := 16
  const Timeline: EventSource := 32
  const State: EventSource := 64
  const Ephemeral: EventSource := 128
  const ToDevice: EventSource := 256

  /// Go's `es&bit != 0`.
  predicate Has(es: EventSource, bit: EventSource) {
    es & bit != 0
  }

  /// The result of `EventSource.String`: a fixed name, or the "unknown (%d)"
  /// fallback together with the number it prints. Go prints that number as
  /// a signed `int`, so `shown` is to be read as a two's-complement value.
  datatype Label = Named(text: string) | Unknown(shown: EventSource)

  /// `EventSource.String`. Like the source, a room-bucket bit is subtracted
  /// before the inner comparison, and the fallback prints what is left.
  function ToString(es: EventSource): Label {
    if es == Presence then Named("presence")
    else if es == AccountData then Named("user account data")
    else if Has(es, Join) then
      var rest := es - Join;
      if rest == State then Named("joined state")
      else if rest == Timeline then Named("joined timeline")
      else if rest == Ephemeral then Named("room ephemeral (joined)")
      else if rest == AccountData then Named("room account data (joined)")
      else Unknown(rest)
    else if Has(es, Invite) then
      var rest := es - Invite;
      if rest == State then Named("invited state")
      else Unknown(rest)
    else if Has(es, Leave) then
      var rest := es - Leave;
      if rest == State then Named("left state")
      else if rest == Timeline then Named("left timeline")
      else Unknown(rest)
    else Unknown(es)
  }

  /// The nine sources that have a name of their own.
  const NamedSources: set<EventSource> :=
    {Presence, AccountData, Join | State, Join | Timeline, Join | Ephemeral,
     Join | AccountData, Invite | State, Leave | State, Leave | Timeline}

  /// The inverse of `ToString` on its named results.
  function FromName(text: string): Option<EventSource> {
    if text == "presence" then Some(Presence)
    else if text == "user account data" then Some(AccountData)
    else if text == "joined state" then Some(Join | State)
    else if text == "joined timeline" then Some(Join | Timeline)
    else if text == "room ephemeral (joined)" then Some(Join | Ephemeral)
    else if text == "room account data (joined)" then Some(Join | AccountData)
    else if text == "invited state" then Some(Invite | State)
    else if text == "left state" then Some(Leave | State)
    else if text == "left timeline" then Some(Leave | Timeline)
    else None
  }

  /// Exactly the nine named sources get a name; every other value, including
  /// combinations of several bucket bits, falls back to "unknown".
  lemma NamedExactly(es: EventSource)
    ensures ToString(es).Named? <==> es in NamedSources
  {
  }

  /// Names identify sources: reading a name back gives the source it names.
  lemma NameRoundTrip(es: EventSource)
    ensures ToString(es).Named? ==> FromName(ToString(es).text) == Some(es)
  {
  }

  /// And every name that can be read back is the name of that source.
  lemma FromNameRoundTrip(text: string)
    ensures FromName(text).Some? ==> ToString(FromName(text).value) == Named(text)
  {
  }

  /// The fallback prints the source with the first bucket bit it carries
  /// removed (join, invite, leave, tried in that order), or the source itself
  /// when it carries none.
  lemma UnknownShowsRemainder(es: EventSource)
    ensures ToString(es).Unknown? ==>
      ToString(es).shown ==
        if Has(es, Join) then es - Join
        else if Has(es, Invite) then es - Invite
        else if Has(es, Leave) then es - Leave
        else es
  {
  }
}
