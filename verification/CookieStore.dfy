/** The cookie-backed state store (rp/store/cookie/store.go): every operation maps the
    payload the browser presents to the payload it is sent back. */
module CookieStore {
  import opened Correlations
  import opened MemoryStore
  import Base64Url

  const PAYLOAD_VERSION := 1

  datatype PayloadCorrelation = PayloadCorrelation(
    nonce: string,
    codeVerifier: string,
    createdAt: int,
    expiry: int,
    issuer: string,
    requestURI: string,
    usedPAR: bool,
    resources: seq<string>,
    userInfoTokenTransport: string)

  datatype PayloadState = PayloadState(correlation: Option<PayloadCorrelation>, values: map<string, string>,
                                       createdAt: int)

  const EMPTY_STATE := PayloadState(None, map[], 0)

  type States = map<string, PayloadState>

  /** What the session cookie holds under the payload key. */
  datatype Session = NoPayload | Undecodable | Payload(version: int, states: States)

  /** `decodePayload`; None is an error. */
  function Load(session: Session): Option<States> {
    match session
    case NoPayload => Some(map[])
    case Undecodable => None
    case Payload(version, states) => if version == PAYLOAD_VERSION then Some(states) else None
  }

  /** `saveSessionPayload`: an empty payload is cleared. */
  function Save(states: States): (session: Session)
    ensures Load(session) == Some(states)
  {
    if states == map[] then NoPayload else Payload(PAYLOAD_VERSION, states)
  }

  function ToPayload(c: Correlation): PayloadCorrelation {
    PayloadCorrelation(c.nonce, c.codeVerifier, Unix(c.createdAt), Unix(c.expiry), c.issuer, c.requestURI, c.usedPAR,
                       c.resources, c.userInfoTokenTransport)
  }

  function FromPayload(p: PayloadCorrelation): Correlation {
    Correlation(p.nonce, p.codeVerifier, UnixToTime(p.createdAt), UnixToTime(p.expiry), p.issuer, "", "", p.requestURI,
                p.usedPAR, p.resources, p.userInfoTokenTransport)
  }

  /** `isExpired`. */
  predicate IsStale(e: PayloadState, ttl: int, now: Time) {
    var own := UnixToTime(e.createdAt);
    var created := if e.correlation.Some? && UnixToTime(e.correlation.value.createdAt) != 0
                   then UnixToTime(e.correlation.value.createdAt) else own;
    || (created != 0 && created + ttl < now)
    || (e.correlation.Some? && UnixToTime(e.correlation.value.expiry) != 0
        && UnixToTime(e.correlation.value.expiry) < now)
  }

  function StateOf(states: States, state: string): PayloadState {
    if state in states then states[state] else EMPTY_STATE
  }

  /** A result of None is an error; the session is then left as it was. */
  function SaveCorrelation(session: Session, state: string, c: Correlation, now: Time): Option<Session> {
    if state == "" || Load(session).None? then None
    else
      var states := Load(session).value;
      var e := StateOf(states, state);
      var stamped := Stamped(c, now);
      Some(Save(states[state := e.(correlation := Some(ToPayload(stamped)),
                                   createdAt := if e.createdAt == 0 then Unix(stamped.createdAt) else e.createdAt)]))
  }

  function ConsumeCorrelation(session: Session, state: string, ttl: int, now: Time)
    : Option<(Option<Correlation>, Session)>
  {
    if state == "" || Load(session).None? then None
    else
      var states := Load(session).value;
      if state !in states then Some((None, session))
      else if IsStale(states[state], ttl, now) then Some((None, Save(states - {state})))
      else if states[state].correlation.None? then Some((None, session))
      else Some((Some(FromPayload(states[state].correlation.value)), Save(states - {state})))
  }

  function LoadState(session: Session, state: string, ttl: int, now: Time)
    : Option<Option<(Correlation, map<string, seq<Byte>>)>>
  {
    if state == "" || Load(session).None? then None
    else
      var states := Load(session).value;
      if state !in states || IsStale(states[state], ttl, now) then Some(None)
      else if exists n :: n in states[state].values && Base64Url.Decode(states[state].values[n]).None? then None
      else
        Some(Some((if states[state].correlation.Some? then FromPayload(states[state].correlation.value)
                   else ZERO_CORRELATION,
                   map n | n in states[state].values :: Base64Url.Decode(states[state].values[n]).value)))
  }

  function DeleteState(session: Session, state: string): Option<Session> {
    if state == "" || Load(session).None? then None else Some(Save(Load(session).value - {state}))
  }

  /** An expired entry is started afresh, dropping its correlation. */
  function SaveValue(session: Session, state: string, name: string, value: seq<Byte>, ttl: int,
                     now: Time): Option<Session> {
    if state == "" || name == "" || Load(session).None? then None
    else
      var states := Load(session).value;
      var found := StateOf(states, state);
      var e := if IsStale(found, ttl, now) then EMPTY_STATE else found;
      Some(Save(states[state := e.(values := e.values[name := Base64Url.Encode(value)],
                                   createdAt := if e.createdAt == 0 then Unix(now) else e.createdAt)]))
  }

  /** An outer None is an error, an inner one an absent value. */
  function LoadValue(session: Session, state: string, name: string, ttl: int, now: Time): Option<Option<seq<Byte>>> {
    if state == "" || name == "" || Load(session).None? then None
    else
      var states := Load(session).value;
      if state !in states || IsStale(states[state], ttl, now) || name !in states[state].values then Some(None)
      else
        match Base64Url.Decode(states[state].values[name])
        case None => None
        case Some(bytes) => Some(Some(bytes))
  }

  function ConsumeValue(session: Session, state: string, name: string, ttl: int, now: Time)
    : Option<(Option<seq<Byte>>, Session)>
  {
    if state == "" || name == "" || Load(session).None? then None
    else
      var states := Load(session).value;
      if state !in states then Some((None, session))
      else if IsStale(states[state], ttl, now) then Some((None, Save(states - {state})))
      else if name !in states[state].values then Some((None, session))
      else
        match Base64Url.Decode(states[state].values[name])
        case None => None
        case Some(bytes) => Some((Some(bytes), Save(WithoutValue(states, state, name))))
  }

  function DeleteValue(session: Session, state: string, name: string): Option<Session> {
    if state == "" || name == "" || Load(session).None? then None
    else if state !in Load(session).value then Some(session)
    else Some(Save(WithoutValue(Load(session).value, state, name)))
  }

  function WithoutValue(states: States, state: string, name: string): States
    requires state in states
  {
    var e := states[state];
    var rest := e.values - {name};
    if rest == map[] && e.correlation.None? then states - {state} else states[state := e.(values := rest)]
  }

  /** A value survives its trip through the cookie byte for byte, is taken exactly once (or
      deleted, to the same effect), and taking it disturbs neither the correlation nor the
      other values of its state. */
  lemma ValueRoundTrip(session: Session, state: string, name: string, value: seq<Byte>, ttl: int, now: Time,
                       later: Time)
    requires state != "" && name != "" && Load(session).Some?
    ensures SaveValue(session, state, name, value, ttl, now).Some?
    ensures var saved := SaveValue(session, state, name, value, ttl, now).value;
            !IsStale(Load(saved).value[state], ttl, later) ==>
              && LoadValue(saved, state, name, ttl, later) == Some(Some(value))
              && ConsumeValue(saved, state, name, ttl, later).Some?
              && var (taken, left) := ConsumeValue(saved, state, name, ttl, later).value;
                 && taken == Some(value)
                 && DeleteValue(saved, state, name) == Some(left)
                 && LoadValue(left, state, name, ttl, later) == Some(None)
                 && ConsumeCorrelation(left, state, ttl, later).Some?
                 && ConsumeCorrelation(left, state, ttl, later).value.0
                    == ConsumeCorrelation(saved, state, ttl, later).value.0
                 && forall other :: other != name && other != "" ==>
                      LoadValue(left, state, other, ttl, later) == LoadValue(saved, state, other, ttl, later)
  {
    Base64Url.RoundTrip(value);
    var saved := SaveValue(session, state, name, value, ttl, now).value;
    var e := Load(saved).value[state];
    assert name in e.values;
    if !IsStale(e, ttl, later) {
      var left := ConsumeValue(saved, state, name, ttl, later).value.1;
      assert (e.values - {name}).Keys == e.values.Keys - {name};
      forall other | other != name && other != ""
        ensures LoadValue(left, state, other, ttl, later) == LoadValue(saved, state, other, ttl, later)
      {
        assert other in e.values <==> other in e.values - {name};
        assert state in Load(left).value ==> IsStale(Load(left).value[state], ttl, later) == IsStale(e, ttl, later);
      }
    }
  }

  /** A value is there right after it was filed, under any state: an entry that has expired is
      started afresh. */
  lemma FiledValueIsFound(session: Session, state: string, name: string, value: seq<Byte>, ttl: int, now: Time)
    requires state != "" && name != "" && Load(session).Some? && SECOND <= ttl
    ensures SaveValue(session, state, name, value, ttl, now).Some?
    ensures var saved := SaveValue(session, state, name, value, ttl, now).value;
            LoadValue(saved, state, name, ttl, now) == Some(Some(value))
  {
    ValueRoundTrip(session, state, name, value, ttl, now, now);
    assert !IsStale(EMPTY_STATE, ttl, now);
  }

  /** A cookie of another version, or one that does not decode, stops every operation. */
  lemma BadCookieStopsAll(session: Session, state: string, name: string, value: seq<Byte>, c: Correlation, ttl: int,
                          now: Time)
    requires session.Undecodable? || (session.Payload? && session.version != 1)
    ensures SaveCorrelation(session, state, c, now) == None && ConsumeCorrelation(session, state, ttl, now) == None
    ensures LoadState(session, state, ttl, now) == None && DeleteState(session, state) == None
    ensures SaveValue(session, state, name, value, ttl, now) == None
    ensures LoadValue(session, state, name, ttl, now) == None
    ensures ConsumeValue(session, state, name, ttl, now) == None && DeleteValue(session, state, name) == None
  {}

  /** Filing a value disturbs nothing else, unless the entry had expired: then it begins anew. */
  lemma FilingDisturbsNothing(session: Session, state: string, name: string, value: seq<Byte>, ttl: int, now: Time,
                              other: string, later: Time)
    requires state != "" && name != "" && other != "" && other != name && Load(session).Some?
    requires state in Load(session).value && !IsStale(Load(session).value[state], ttl, now)
    requires Load(session).value[state].createdAt != 0
    ensures var saved := SaveValue(session, state, name, value, ttl, now).value;
            && LoadValue(saved, state, other, ttl, later) == LoadValue(session, state, other, ttl, later)
            && ConsumeCorrelation(saved, state, ttl, later).Some?
            && ConsumeCorrelation(session, state, ttl, later).Some?
            && ConsumeCorrelation(saved, state, ttl, later).value.0
               == ConsumeCorrelation(session, state, ttl, later).value.0
  {}

  /** A value filed under a new state is found exactly until the TTL has passed since the second
      in which it was filed, and no correlation is found beside it. */
  lemma FiledValueDeadline(session: Session, state: string, name: string, value: seq<Byte>, ttl: int, now: Time,
                           later: Time)
    requires state != "" && name != "" && Load(session).Some? && state !in Load(session).value
    requires Unix(now) > 0 && SECOND <= ttl
    ensures var saved := SaveValue(session, state, name, value, ttl, now).value;
            && LoadValue(saved, state, name, ttl, later)
               == Some(if later <= UnixToTime(Unix(now)) + ttl then Some(value) else None)
            && ConsumeCorrelation(saved, state, ttl, later).Some?
            && ConsumeCorrelation(saved, state, ttl, later).value.0 == None
            && (later <= UnixToTime(Unix(now)) + ttl ==> ConsumeCorrelation(saved, state, ttl, later).value.1 == saved)
  {
    Base64Url.RoundTrip(value);
    var saved := SaveValue(session, state, name, value, ttl, now).value;
    assert Load(saved).value[state] == PayloadState(None, map[name := Base64Url.Encode(value)], Unix(now));
  }

  /** Saving a correlation keeps the values of its state. */
  lemma CorrelationKeepsValues(session: Session, state: string, c: Correlation, now: Time, name: string)
    requires state != "" && Load(session).Some? && state in Load(session).value
    ensures SaveCorrelation(session, state, c, now).Some?
    ensures var saved := Load(SaveCorrelation(session, state, c, now).value).value;
            saved.Keys == Load(session).value.Keys && saved[state].values == Load(session).value[state].values
  {
    var states := Load(session).value;
    var e := states[state];
    var saved := Load(SaveCorrelation(session, state, c, now).value).value;
    assert saved.Keys == states.Keys + {state};
  }

  /** A loaded scope has the state's correlation, and every value filed there, byte for byte. */
  lemma ScopeHasTheValue(session: Session, state: string, name: string, value: seq<Byte>, ttl: int, now: Time,
                         later: Time)
    requires state != "" && name != "" && Load(session).Some?
    ensures var saved := SaveValue(session, state, name, value, ttl, now).value;
            var scope := LoadState(saved, state, ttl, later);
            && (scope == Some(None) <==> IsStale(Load(saved).value[state], ttl, later))
            && (scope.Some? && scope.value.Some? ==>
                  && name in scope.value.value.1 && scope.value.value.1[name] == value
                  && scope.value.value.1.Keys == Load(saved).value[state].values.Keys
                  && (forall other :: other in scope.value.value.1 && other != "" ==>
                        LoadValue(saved, state, other, ttl, later) == Some(Some(scope.value.value.1[other])))
                  && scope.value.value.0 == (if Load(saved).value[state].correlation.Some?
                                             then FromPayload(Load(saved).value[state].correlation.value)
                                             else ZERO_CORRELATION))
            && (scope == None ==>
                  exists other :: other in Load(saved).value[state].values
                                  && Base64Url.Decode(Load(saved).value[state].values[other]) == None)
  {
    Base64Url.RoundTrip(value);
  }
}
