/** Logins and callbacks of one relying party, handled concurrently over one memory store:
    every interleaving of their atomic sections (rp/authrequest.go, rp/callback.go). */
module LoginProtocol {
  import opened Correlations
  import opened Text
  import opened DpopRetry
  import opened RelyingParties
  import opened Callbacks
  import T = TokenGrant
  import J = TokenJson
  import M = MemoryStore
  import R = MemoryStoreRuns
  import B = Base64Url

  /** What a login drew and asked for, kept under its state; `challenge` is the S256 hash of the verifier. */
  datatype Drawing = Drawing(nonce: string, verifier: string, challenge: string, resources: seq<string>)

  /** The rest of what decides where a login sends the browser, and the clock readings of the
      push and of the correlation's creation. */
  datatype LoginCall = LoginCall(auth: T.AuthState, extra: Params, sign: Signer, assertion: string,
                                 answer: PushAnswer, pushedAt: Time, createdAt: Time)

  /** Where a handler is. A handler that gives up or finishes is forgotten. */
  datatype Handler =
    | Drawn(state: string)
    | Consumed(state: string, params: CallbackParams, response: AuthzResponse, data: Correlation)
    | Exchanged(state: string, id: Identity, data: Correlation)

  /** A code exchange; `data` is the correlation it was based on, `idToken` the ID token in the
      authorization response ("" if none came with it) and `frontNonce` its nonce. */
  datatype CodeExchange = CodeExchange(state: string, grant: Grant, data: Correlation, idToken: string,
                                       frontNonce: Option<string>)

  /** A login a callback ended with; `nonce` is that of its ID token, if the flow has one. */
  datatype Arrival = Arrival(state: string, data: Correlation, nonce: Option<string>, login: Login, info: UserInfo)

  /** Where a login sent the browser, and the call that did. */
  datatype Sending = Sending(redirect: Redirect, call: LoginCall)

  datatype World = World(
    items: M.Items,
    handlers: map<nat, Handler>,
    drawnBytes: set<seq<Byte>>,
    issued: map<string, Drawing>,
    saved: map<string, Correlation>,
    redirects: map<string, Sending>,
    redeemed: set<string>,
    valued: set<string>,
    exchanges: seq<CodeExchange>,
    arrivals: seq<Arrival>)

  datatype Event =
    | Draw(h: nat, stateBytes: seq<Byte>, nonceBytes: seq<Byte>, verifierBytes: seq<Byte>, challenge: string,
           resources: seq<string>)
    | Save(h: nat, call: LoginCall, at: Time, sweptAt: Time, binding: string)
    | Consume(h: nat, params: CallbackParams, jarm: Verified<JarmClaims>, parsedAt: Time, at: Time, cookie: string,
              found: Option<Correlation>)
    | Exchange(h: nat, front: FrontChannel, now: Time)
    | Arrive(h: nat, token: J.Token, idToken: Verified<IdClaims>, info: UserInfo, now: Time)
    | GiveUp(h: nat)
    | Application(e: R.Event)

  /** The answer to a pushed request, and the clock reading its lifetime is counted from. */
  datatype Push = Push(requestURI: string, expiresIn: int, at: Time)

  /** The correlation `saveCorrelation` builds; a pushed request sets its deadline. */
  function CorrelationOf(c: Settings, d: Drawing, pushed: Option<Push>, now: Time): Correlation {
    Correlation(d.nonce, d.verifier, now, if pushed.Some? then pushed.value.at + pushed.value.expiresIn * SECOND else 0,
                c.issuer, c.clientID, c.credentials.secret, if pushed.Some? then pushed.value.requestURI else "",
                pushed.Some?, d.resources, c.userInfoTransport)
  }

  /** Where the login that drew `d` under `state` sends the browser; None is an error. */
  function RedirectOf(c: Settings, state: string, d: Drawing, call: LoginCall): Option<Redirect> {
    LoginRedirect(c, call.auth, LoginRequest(state, d.nonce, d.challenge, call.extra), call.sign, call.assertion,
                  call.answer)
  }

  function PushOf(r: Redirect, call: LoginCall): Option<Push> {
    if r.pushed.Some? && call.answer.Pushed?
    then Some(Push(call.answer.requestURI, call.answer.expiresIn, call.pushedAt)) else None
  }

  /** The exchange a response and its correlation lead to. */
  function GrantFor(r: AuthzResponse, data: Correlation): Grant {
    CodeGrant(r.code, data.codeVerifier, data.resources)
  }

  /** The nonce of the ID token, in a flow that has one. */
  function NonceOf(c: Settings, idToken: Verified<IdClaims>): Option<string>
    requires UsesOpenID(c.scopes.value) ==> !idToken.Refused?
  {
    if UsesOpenID(c.scopes.value) then Some(idToken.claims.nonce) else None
  }

  function FrontNonce(p: CallbackParams, front: FrontChannel): Option<string>
    requires p.idToken != "" ==> !front.token.Refused?
  {
    if p.idToken != "" then Some(front.token.claims.nonce) else None
  }

  function ArrivalOf(c: Settings, token: J.Token, state: string, data: Correlation, id: Identity,
                     idToken: Verified<IdClaims>, info: UserInfo, now: Time): Arrival
    requires FinishLogin(c, token, data, id, idToken, info, now).Some?
  {
    Arrival(state, data, NonceOf(c, idToken), FinishLogin(c, token, data, id, idToken, info, now).value, info)
  }

  ghost predicate SavesIn(ttl: int, items: M.Items, state: string, data: Correlation, at: Time, sweptAt: Time,
                          binding: string, items': M.Items) {
    R.Step(ttl, items, R.SavedCorrelation(at, state, data, binding, sweptAt), items')
  }

  /** One atomic section. Random bytes are fresh; applications use the store for their own
      values, but only the relying party saves and consumes correlations. */
  ghost predicate Step(c: Settings, ttl: int, w: World, e: Event, w': World) {
    match e
    case Draw(h, s, n, v, challenge, resources) =>
      && h !in w.handlers && s !in w.drawnBytes && |s| == 32 && |n| == 32 && |v| == 32
      && B.RandomToken(Some(s)).Some? && B.RandomToken(Some(n)).Some? && B.GenerateVerifier(Some(v)).Some?
      && var state := B.RandomToken(Some(s)).value;
         w' == w.(handlers := w.handlers[h := Drawn(state)],
                  drawnBytes := w.drawnBytes + {s},
                  issued := w.issued[state := Drawing(B.RandomToken(Some(n)).value, B.GenerateVerifier(Some(v)).value,
                                                      challenge, resources)])
    case Save(h, call, at, sweptAt, binding) =>
      && h in w.handlers && w.handlers[h].Drawn? && 0 < call.createdAt && 0 < at
      && var state := w.handlers[h].state;
         && state in w.issued && RedirectOf(c, state, w.issued[state], call).Some?
         && var redirect := RedirectOf(c, state, w.issued[state], call).value;
            var data := CorrelationOf(c, w.issued[state], PushOf(redirect, call), call.createdAt);
            && SavesIn(ttl, w.items, state, data, at, sweptAt, binding, w'.items)
            && w' == w.(items := w'.items, handlers := w.handlers - {h}, saved := w.saved[state := data],
                        redirects := w.redirects[state := Sending(redirect, call)])
    case Consume(h, params, jarm, parsedAt, at, cookie, found) =>
      && h !in w.handlers && ParseResponse(c, params, jarm, parsedAt).Some?
      && var r := ParseResponse(c, params, jarm, parsedAt).value;
         && r.state != "" && r.code != ""
         && R.Step(ttl, w.items, R.ConsumedCorrelation(at, r.state, cookie, found), w'.items)
         && w' == w.(items := w'.items,
                     handlers := if found.None? then w.handlers
                                 else w.handlers[h := Consumed(r.state, params, r, found.value)],
                     redeemed := if found.None? || found.value == ZERO_CORRELATION then w.redeemed
                                 else w.redeemed + {r.state})
    case Exchange(h, front, now) =>
      && h in w.handlers && w.handlers[h].Consumed?
      && var Consumed(state, params, r, data) := w.handlers[h];
         && CheckResponse(c, params, r, data, front, now).Some?
         && var id, grant := CheckResponse(c, params, r, data, front, now).value, GrantFor(r, data);
            w' == w.(handlers := w.handlers[h := Exchanged(state, id, data)],
                     exchanges := w.exchanges + [CodeExchange(state, grant, data, params.idToken,
                                                              FrontNonce(params, front))])
    case Arrive(h, token, idToken, info, now) =>
      && h in w.handlers && w.handlers[h].Exchanged?
      && var Exchanged(state, id, data) := w.handlers[h];
         && FinishLogin(c, token, data, id, idToken, info, now).Some?
         && w' == w.(handlers := w.handlers - {h},
                     arrivals := w.arrivals + [ArrivalOf(c, token, state, data, id, idToken, info, now)])
    case GiveUp(h) => h in w.handlers && w' == w.(handlers := w.handlers - {h})
    case Application(e) =>
      && !e.SavedCorrelation? && !e.ConsumedCorrelation?
      && R.Step(ttl, w.items, e, w'.items)
      && w' == w.(items := w'.items, valued := if e.SavedValue? then w.valued + {e.state} else w.valued)
  }

  const START := World(map[], map[], {}, map[], map[], map[], {}, {}, [], [])

  /** It is the correlation saved under `state`. */
  predicate Kept(data: Correlation, saved: map<string, Correlation>, state: string) {
    state in saved && saved[state] == data
  }

  /** It carries what the login drew, and the identity the relying party asked with. */
  predicate Carries(c: Settings, data: Correlation, d: Drawing) {
    && data.nonce == d.nonce && data.codeVerifier == d.verifier && data.resources == d.resources
    && data.issuer == c.issuer && data.clientID == c.clientID && data.clientSecret == c.credentials.secret
    && data.userInfoTokenTransport == c.userInfoTransport
  }

  /** The browser was sent off asking with this, plainly or in what was signed. */
  ghost predicate AskedFor(c: Settings, l: LoginRequest, redirect: Redirect, sign: Signer) {
    && (redirect.pushed.None? || !c.signedRequests.value ==> SaysRequested(c, l, PlainPart(redirect)))
    && (c.signedRequests.value ==>
          exists claims :: ObjectSaysItAll(c, l, claims) && Sets(PlainPart(redirect), "request", sign(claims)))
  }

  /** Under a pushed request the correlation ends with the request. */
  predicate EndsWithPush(c: Settings, data: Correlation, redirect: Redirect, call: LoginCall) {
    && data.createdAt == call.createdAt
    && redirect.pushed.None? == !data.usedPAR && redirect.pushed.None? == (data.requestURI == "")
    && (redirect.pushed.Some? ==>
          && Sets(redirect.added, "client_id", c.clientID) && Sets(redirect.added, "request_uri", data.requestURI)
          && call.answer.Pushed? && data.expiry == call.pushedAt + call.answer.expiresIn * SECOND)
    && (redirect.pushed.None? ==> data.expiry == 0)
  }

  ghost predicate SentWith(c: Settings, state: string, d: Drawing, data: Correlation, sent: Sending) {
    && AskedFor(c, LoginRequest(state, d.nonce, d.challenge, sent.call.extra), sent.redirect, sent.call.sign)
    && EndsWithPush(c, data, sent.redirect, sent.call)
  }

  /** Every login that saved its correlation under a state sent the browser off with it. */
  ghost predicate RequestsInv(c: Settings, w: World) {
    && w.redirects.Keys == w.saved.Keys <= w.issued.Keys
    && forall k :: k in w.saved ==> RequestInv(c, w, k)
  }

  ghost predicate RequestInv(c: Settings, w: World, k: string)
    requires k in w.saved && k in w.redirects && k in w.issued
  {
    && Carries(c, w.saved[k], w.issued[k])
    && SentWith(c, k, w.issued[k], w.saved[k], w.redirects[k])
  }

  ghost predicate StoreInv(w: World) {
    && "" !in w.items
    && forall k :: k in w.items ==>
         if w.items[k].correlation == ZERO_CORRELATION then k in w.valued
         else Kept(w.items[k].correlation, w.saved, k) && k !in w.redeemed
  }

  ghost predicate IssuedInv(w: World) {
    && (forall k :: k in w.issued ==> exists b :: b in w.drawnBytes && B.Encode(b) == k)
    && (forall k :: k in w.issued ==> w.issued[k].nonce != "" && B.ValidVerifier(w.issued[k].verifier))
    && w.redeemed <= w.saved.Keys <= w.issued.Keys
  }

  ghost predicate HandlersInv(w: World) {
    && (forall h :: h in w.handlers ==> HandlerInv(w, w.handlers[h]))
    && (forall h, h' :: h in w.handlers && h' in w.handlers && h != h' ==> Compatible(w.handlers[h], w.handlers[h']))
  }

  ghost predicate HandlerInv(w: World, h: Handler) {
    match h
    case Drawn(state) => state in w.issued && state !in w.saved
    case Consumed(state, _, _, data) =>
      if data == ZERO_CORRELATION then state in w.valued
      else Kept(data, w.saved, state) && state in w.redeemed && !ExchangedBefore(w, state)
    case Exchanged(state, id, data) =>
      if data == ZERO_CORRELATION then state in w.valued else Kept(data, w.saved, state) && IdentityFrom(id, data)
  }

  /** The identity a callback goes on with is the one its correlation names, where it names one. */
  predicate IdentityFrom(id: Identity, data: Correlation) {
    (data.issuer != "" ==> id.issuer == data.issuer) && (data.clientID != "" ==> id.clientID == data.clientID)
  }

  /** A code has been exchanged on a correlation saved under `state`. */
  ghost predicate ExchangedBefore(w: World, state: string) {
    exists i :: 0 <= i < |w.exchanges| && w.exchanges[i].state == state && w.exchanges[i].data != ZERO_CORRELATION
  }

  /** No two logins share a state, and no two callbacks one saved correlation. */
  predicate Compatible(h: Handler, h': Handler) {
    && (h.Drawn? && h'.Drawn? ==> h.state != h'.state)
    && (h.Consumed? && h'.Consumed? && h.data != ZERO_CORRELATION && h'.data != ZERO_CORRELATION ==>
        h.state != h'.state)
  }

  predicate ExchangeInv(w: World, x: CodeExchange) {
    && x.grant.CodeGrant? && x.grant.verifier == x.data.codeVerifier && x.grant.resources == x.data.resources
    && (x.frontNonce.Some? <==> x.idToken != "")
    && (x.frontNonce.Some? && x.data.nonce != "" ==> x.frontNonce.value == x.data.nonce)
    && if x.data == ZERO_CORRELATION then x.state in w.valued
       else Kept(x.data, w.saved, x.state) && x.state in w.redeemed
  }

  ghost predicate OutcomeInv(w: World) {
    && (forall i :: 0 <= i < |w.exchanges| ==> ExchangeInv(w, w.exchanges[i]))
    && (forall i, j :: 0 <= i < j < |w.exchanges|
                       && w.exchanges[i].data != ZERO_CORRELATION && w.exchanges[j].data != ZERO_CORRELATION ==>
          w.exchanges[i].state != w.exchanges[j].state)
    && (forall i :: 0 <= i < |w.arrivals| ==> ArrivalInv(w, w.arrivals[i]))
  }

  predicate ArrivalInv(w: World, a: Arrival) {
    if a.data == ZERO_CORRELATION then a.state in w.valued
    else
      && Kept(a.data, w.saved, a.state)
      && (a.nonce.Some? && a.data.nonce != "" ==> a.nonce.value == a.data.nonce)
      && (a.data.issuer != "" ==> a.login.issuer == a.data.issuer)
  }

  ghost predicate Inv(w: World) {
    StoreInv(w) && IssuedInv(w) && HandlersInv(w) && OutcomeInv(w)
  }

  /** What a state refers to stays as it is when new states are issued and sets grow. */
  predicate Extends(w: World, w': World) {
    && (forall k :: k in w.issued ==> k in w'.issued && w'.issued[k] == w.issued[k])
    && (forall k :: k in w.saved ==> k in w'.saved && w'.saved[k] == w.saved[k])
    && w.redeemed <= w'.redeemed && w.valued <= w'.valued
  }

  lemma OutcomesStand(w: World, w': World)
    requires OutcomeInv(w) && Extends(w, w') && w'.exchanges == w.exchanges && w'.arrivals == w.arrivals
    ensures OutcomeInv(w')
  {}

  lemma HandlerStands(w: World, w': World, h: Handler)
    requires HandlerInv(w, h) && Extends(w, w')
    requires h.Drawn? ==> h.state !in w'.saved
    requires h.Consumed? && h.data != ZERO_CORRELATION ==> !ExchangedBefore(w', h.state)
    ensures HandlerInv(w', h)
  {}

  /** One handler moves on, or a new one starts; the others stay where they are. */
  lemma OneHandlerMoves(w: World, w': World, h: nat, next: Handler)
    requires HandlersInv(w) && w'.handlers == w.handlers[h := next] && HandlerInv(w', next)
    requires forall i :: i in w.handlers && i != h ==>
               HandlerInv(w', w.handlers[i]) && Compatible(w.handlers[i], next) && Compatible(next, w.handlers[i])
    ensures HandlersInv(w')
  {}

  lemma StoreStands(w: World, w': World)
    requires StoreInv(w) && Extends(w, w') && "" !in w'.items
    requires forall k :: k in w'.items ==>
               || (w'.items[k].correlation == ZERO_CORRELATION && k in w'.valued)
               || (k in w.items && w'.items[k].correlation == w.items[k].correlation
                   && (k in w'.redeemed ==> k in w.redeemed))
    ensures StoreInv(w')
  {}

  // ---- What the store's steps mean for the correlations in it ----

  /** Every entry after the step was there before with the same correlation, but for `k`. */
  predicate SameBut(s: M.Items, s': M.Items, k: string) {
    && "" !in s'
    && forall j :: j in s' && j != k ==> j in s && s'[j].correlation == s[j].correlation
  }

  lemma SaveEffect(ttl: int, s: M.Items, e: R.Event, s': M.Items)
    requires "" !in s && R.Step(ttl, s, e, s') && e.SavedCorrelation?
    ensures SameBut(s, s', e.state) && (e.state in s' ==> s'[e.state].correlation == e.correlation)
  {}

  lemma ConsumeEffect(ttl: int, s: M.Items, e: R.Event, s': M.Items)
    requires "" !in s && R.Step(ttl, s, e, s') && e.ConsumedCorrelation?
    ensures SameBut(s, s', e.state)
    ensures e.found.Some? ==> e.state in s && e.state !in s' && s[e.state].correlation == e.found.value
    ensures e.found.None? && e.state in s' ==> e.state in s && s'[e.state].correlation == s[e.state].correlation
  {}

  lemma ApplicationEffect(ttl: int, s: M.Items, e: R.Event, s': M.Items)
    requires "" !in s && R.Step(ttl, s, e, s') && !e.SavedCorrelation? && !e.ConsumedCorrelation?
    ensures SameBut(s, s', e.state)
    ensures e.state in s' ==>
              || (e.state in s && s'[e.state].correlation == s[e.state].correlation)
              || (e.SavedValue? && s'[e.state].correlation == ZERO_CORRELATION)
  {}

  // ---- The invariant, section by section ----

  /** A state drawn from fresh bytes is a new one, and may be issued. */
  lemma FreshState(w: World, w': World, bytes: seq<Byte>, state: string, d: Drawing)
    requires IssuedInv(w) && bytes !in w.drawnBytes && B.Encode(bytes) == state && d.nonce != ""
             && B.ValidVerifier(d.verifier)
    requires w'.drawnBytes == w.drawnBytes + {bytes} && w'.issued == w.issued[state := d]
    requires w'.redeemed == w.redeemed && w'.saved == w.saved
    ensures state !in w.issued && IssuedInv(w')
  {
    if state in w.issued {
      var b :| b in w.drawnBytes && B.Encode(b) == state;
      B.Injective(b, bytes);
    }
    forall k | k in w'.issued ensures exists b :: b in w'.drawnBytes && B.Encode(b) == k {
      if k == state {
        assert bytes in w'.drawnBytes;
      } else {
        var b :| b in w.drawnBytes && B.Encode(b) == k;
        assert b in w'.drawnBytes;
      }
    }
  }

  /** While nothing is saved and no code exchanged, handlers stand where they stood. */
  lemma HandlersStand(w: World, w': World)
    requires HandlersInv(w) && Extends(w, w') && w'.saved == w.saved && w'.exchanges == w.exchanges
    ensures forall i :: i in w.handlers ==> HandlerInv(w', w.handlers[i])
  {
    forall i | i in w.handlers ensures HandlerInv(w', w.handlers[i]) {
      HandlerStands(w, w', w.handlers[i]);
    }
  }

  lemma NewlyDrawn(w: World, state: string)
    requires HandlersInv(w) && state !in w.issued
    ensures forall i :: i in w.handlers ==>
              Compatible(w.handlers[i], Drawn(state)) && Compatible(Drawn(state), w.handlers[i])
  {
    forall i | i in w.handlers
      ensures Compatible(w.handlers[i], Drawn(state)) && Compatible(Drawn(state), w.handlers[i])
    {
      assert HandlerInv(w, w.handlers[i]);
    }
  }

  lemma DrawKeeps(w: World, w': World, h: nat, state: string, d: Drawing)
    requires Inv(w) && h !in w.handlers && state !in w.issued && IssuedInv(w')
    requires w' == w.(handlers := w.handlers[h := Drawn(state)], drawnBytes := w'.drawnBytes,
                      issued := w.issued[state := d])
    ensures Inv(w')
  {
    StoreStands(w, w');
    OutcomesStand(w, w');
    HandlersStand(w, w');
    NewlyDrawn(w, state);
    OneHandlerMoves(w, w', h, Drawn(state));
  }

  lemma SaveKeepsStore(w: World, w': World, state: string, data: Correlation)
    requires StoreInv(w) && IssuedInv(w) && data != ZERO_CORRELATION && state !in w.saved
    requires w'.saved == w.saved[state := data] && w'.redeemed == w.redeemed && w'.valued == w.valued
    requires SameBut(w.items, w'.items, state) && (state in w'.items ==> w'.items[state].correlation == data)
    ensures StoreInv(w')
  {}

  lemma SaveKeeps(w: World, w': World, h: nat, data: Correlation)
    requires Inv(w) && h in w.handlers && w.handlers[h].Drawn? && data != ZERO_CORRELATION
    requires w' == w.(items := w'.items, handlers := w.handlers - {h}, saved := w.saved[w.handlers[h].state := data],
                      redirects := w'.redirects)
    requires SameBut(w.items, w'.items, w.handlers[h].state)
    requires w.handlers[h].state in w'.items ==> w'.items[w.handlers[h].state].correlation == data
    ensures Inv(w')
  {
    assert HandlerInv(w, w.handlers[h]);
    SaveKeepsStore(w, w', w.handlers[h].state, data);
    OutcomesStand(w, w');
    forall i | i in w'.handlers ensures HandlerInv(w', w.handlers[i]) {
      assert Compatible(w.handlers[i], w.handlers[h]);
      HandlerStands(w, w', w.handlers[i]);
    }
  }

  lemma ConsumeKeeps(w: World, w': World, h: nat, r: AuthzResponse, params: CallbackParams, found: Option<Correlation>)
    requires Inv(w) && h !in w.handlers && SameBut(w.items, w'.items, r.state)
    requires found.Some? ==> r.state in w.items && r.state !in w'.items && w.items[r.state].correlation == found.value
    requires found.None? && r.state in w'.items ==>
               r.state in w.items && w'.items[r.state].correlation == w.items[r.state].correlation
    requires w' == w.(items := w'.items,
                      handlers := if found.None? then w.handlers
                                  else w.handlers[h := Consumed(r.state, params, r, found.value)],
                      redeemed := if found.None? || found.value == ZERO_CORRELATION then w.redeemed
                                  else w.redeemed + {r.state})
    ensures Inv(w')
  {
    StoreStands(w, w');
    OutcomesStand(w, w');
    HandlersStand(w, w');
    if found.Some? {
      var next := Consumed(r.state, params, r, found.value);
      NewlyConsumed(w, w', r.state, found.value, next);
      OneHandlerMoves(w, w', h, next);
    }
  }

  /** The handler that consumed a correlation is the only one to hold it, and no code has been exchanged on it. */
  lemma NewlyConsumed(w: World, w': World, state: string, data: Correlation, h: Handler)
    requires Inv(w) && Extends(w, w') && w'.exchanges == w.exchanges
    requires state in w.items && w.items[state].correlation == data && h.Consumed? && h.state == state && h.data == data
    requires data != ZERO_CORRELATION ==> state in w'.redeemed
    ensures HandlerInv(w', h)
    ensures forall i :: i in w.handlers ==> Compatible(h, w.handlers[i]) && Compatible(w.handlers[i], h)
  {
    if data != ZERO_CORRELATION {
      assert state !in w.redeemed;
      forall i | 0 <= i < |w'.exchanges| && w'.exchanges[i].data != ZERO_CORRELATION
        ensures w'.exchanges[i].state != state
      {
        assert ExchangeInv(w, w.exchanges[i]);
      }
      forall i | i in w.handlers ensures Compatible(h, w.handlers[i]) && Compatible(w.handlers[i], h) {
        assert HandlerInv(w, w.handlers[i]);
      }
    }
  }

  lemma ExchangeKeeps(w: World, w': World, h: nat, id: Identity, idToken: string, frontNonce: Option<string>)
    requires Inv(w) && h in w.handlers && w.handlers[h].Consumed? && (frontNonce.Some? <==> idToken != "")
    requires IdentityFrom(id, w.handlers[h].data)
    requires var data := w.handlers[h].data; frontNonce.Some? && data.nonce != "" ==> frontNonce.value == data.nonce
    requires var Consumed(state, _, r, data) := w.handlers[h];
             w' == w.(handlers := w.handlers[h := Exchanged(state, id, data)],
                      exchanges := w.exchanges + [CodeExchange(state, GrantFor(r, data), data, idToken, frontNonce)])
    ensures Inv(w')
  {
    var Consumed(state, _, r, data) := w.handlers[h];
    assert HandlerInv(w, w.handlers[h]);
    StoreStands(w, w');
    NewExchange(w, w', CodeExchange(state, GrantFor(r, data), data, idToken, frontNonce));
    forall i | i in w.handlers && i != h ensures HandlerInv(w', w.handlers[i]) {
      assert Compatible(w.handlers[i], w.handlers[h]);
      HandlerStands(w, w', w.handlers[i]);
    }
    OneHandlerMoves(w, w', h, Exchanged(state, id, data));
  }

  lemma NewExchange(w: World, w': World, x: CodeExchange)
    requires OutcomeInv(w) && ExchangeInv(w, x) && (x.data != ZERO_CORRELATION ==> !ExchangedBefore(w, x.state))
    requires w' == w.(handlers := w'.handlers, exchanges := w.exchanges + [x])
    ensures OutcomeInv(w')
  {}

  /** Handlers that end take nothing with them. */
  lemma LeaveKeeps(w: World, w': World, h: nat, arrival: seq<Arrival>)
    requires Inv(w) && h in w.handlers && w' == w.(handlers := w.handlers - {h}, arrivals := w.arrivals + arrival)
    requires forall i :: 0 <= i < |arrival| ==> ArrivalInv(w, arrival[i])
    ensures Inv(w')
  {
    StoreStands(w, w');
    forall i | i in w'.handlers ensures HandlerInv(w', w.handlers[i]) {
      HandlerStands(w, w', w.handlers[i]);
    }
    forall i | 0 <= i < |w'.exchanges| ensures ExchangeInv(w', w'.exchanges[i]) {
      assert ExchangeInv(w, w.exchanges[i]);
    }
    forall i | 0 <= i < |w'.arrivals| ensures ArrivalInv(w', w'.arrivals[i]) {
      assert i < |w.arrivals| ==> ArrivalInv(w, w.arrivals[i]);
    }
  }

  lemma ApplicationKeeps(w: World, w': World, state: string, saves: bool)
    requires Inv(w) && w' == w.(items := w'.items, valued := if saves then w.valued + {state} else w.valued)
    requires SameBut(w.items, w'.items, state)
    requires state in w'.items ==>
               || (state in w.items && w'.items[state].correlation == w.items[state].correlation)
               || (saves && w'.items[state].correlation == ZERO_CORRELATION)
    ensures Inv(w')
  {
    StoreStands(w, w');
    OutcomesStand(w, w');
    HandlersStand(w, w');
  }

  lemma DrawStep(c: Settings, ttl: int, w: World, e: Event, w': World)
    requires Inv(w) && Step(c, ttl, w, e, w') && e.Draw?
    ensures Inv(w')
  {
    var state := B.Encode(e.stateBytes);
    var d := Drawing(B.Encode(e.nonceBytes), B.Encode(e.verifierBytes), e.challenge, e.resources);
    B.EncodeShape(e.nonceBytes);
    FreshState(w, w', e.stateBytes, state, d);
    DrawKeeps(w, w', e.h, state, d);
  }

  lemma SaveStep(c: Settings, ttl: int, w: World, e: Event, w': World)
    requires Inv(w) && Step(c, ttl, w, e, w') && e.Save?
    ensures Inv(w')
  {
    var state := w.handlers[e.h].state;
    var redirect := RedirectOf(c, state, w.issued[state], e.call).value;
    var data := CorrelationOf(c, w.issued[state], PushOf(redirect, e.call), e.call.createdAt);
    SaveEffect(ttl, w.items, R.SavedCorrelation(e.at, state, data, e.binding, e.sweptAt), w'.items);
    SaveKeeps(w, w', e.h, data);
  }

  lemma ConsumeStep(c: Settings, ttl: int, w: World, e: Event, w': World)
    requires Inv(w) && Step(c, ttl, w, e, w') && e.Consume?
    ensures Inv(w')
  {
    var r := ParseResponse(c, e.params, e.jarm, e.parsedAt).value;
    ConsumeEffect(ttl, w.items, R.ConsumedCorrelation(e.at, r.state, e.cookie, e.found), w'.items);
    ConsumeKeeps(w, w', e.h, r, e.params, e.found);
  }

  lemma ArriveStep(c: Settings, ttl: int, w: World, e: Event, w': World)
    requires Inv(w) && Step(c, ttl, w, e, w') && e.Arrive?
    ensures Inv(w')
  {
    var Exchanged(state, id, data) := w.handlers[e.h];
    assert HandlerInv(w, w.handlers[e.h]);
    if UsesOpenID(c.scopes.value) {
      LoginCarriesNonce(c, e.token, data, id, e.idToken, e.info, e.now);
    }
    LeaveKeeps(w, w', e.h, [ArrivalOf(c, e.token, state, data, id, e.idToken, e.info, e.now)]);
  }

  lemma ApplicationStep(c: Settings, ttl: int, w: World, e: Event, w': World)
    requires Inv(w) && Step(c, ttl, w, e, w') && e.Application?
    ensures Inv(w')
  {
    ApplicationEffect(ttl, w.items, e.e, w'.items);
    ApplicationKeeps(w, w', e.e.state, e.e.SavedValue?);
  }

  lemma ExchangeStep(c: Settings, ttl: int, w: World, e: Event, w': World)
    requires Inv(w) && Step(c, ttl, w, e, w') && e.Exchange?
    ensures Inv(w')
  {
    var Consumed(_, params, r, data) := w.handlers[e.h];
    ExchangeKeeps(w, w', e.h, CheckResponse(c, params, r, data, e.front, e.now).value, params.idToken,
                  FrontNonce(params, e.front));
  }

  lemma GiveUpStep(c: Settings, ttl: int, w: World, e: Event, w': World)
    requires Inv(w) && Step(c, ttl, w, e, w') && e.GiveUp?
    ensures Inv(w')
  {
    LeaveKeeps(w, w', e.h, []);
  }

  lemma StepKeeps(c: Settings, ttl: int, w: World, e: Event, w': World)
    requires Inv(w) && Step(c, ttl, w, e, w')
    ensures Inv(w')
  {
    match e {
      case Draw(_, _, _, _, _, _) => DrawStep(c, ttl, w, e, w');
      case Save(_, _, _, _, _) => SaveStep(c, ttl, w, e, w');
      case Consume(_, _, _, _, _, _, _) => ConsumeStep(c, ttl, w, e, w');
      case Exchange(_, _, _) => ExchangeStep(c, ttl, w, e, w');
      case Arrive(_, _, _, _, _) => ArriveStep(c, ttl, w, e, w');
      case GiveUp(_) => GiveUpStep(c, ttl, w, e, w');
      case Application(_) => ApplicationStep(c, ttl, w, e, w');
    }
  }

  ghost predicate StepAt(c: Settings, ttl: int, worlds: seq<World>, log: seq<Event>, i: nat)
    requires |worlds| == |log| + 1 && i < |log|
  {
    Step(c, ttl, worlds[i], log[i], worlds[i + 1])
  }

  ghost predicate Run(c: Settings, ttl: int, worlds: seq<World>, log: seq<Event>) {
    && |worlds| == |log| + 1 && worlds[0] == START
    && forall i {:trigger StepAt(c, ttl, worlds, log, i)} :: 0 <= i < |log| ==> StepAt(c, ttl, worlds, log, i)
  }

  lemma {:induction false} RunKeeps(c: Settings, ttl: int, worlds: seq<World>, log: seq<Event>, n: nat)
    requires Run(c, ttl, worlds, log) && n <= |log|
    ensures Inv(worlds[n])
  {
    if n > 0 {
      RunKeeps(c, ttl, worlds, log, n - 1);
      assert StepAt(c, ttl, worlds, log, n - 1);
      StepKeeps(c, ttl, worlds[n - 1], log[n - 1], worlds[n]);
    }
  }

  lemma LoginAsks(c: Settings, l: LoginRequest, call: LoginCall)
    requires LoginRedirect(c, call.auth, l, call.sign, call.assertion, call.answer).Some?
    ensures var redirect := LoginRedirect(c, call.auth, l, call.sign, call.assertion, call.answer).value;
            && AskedFor(c, l, redirect, call.sign)
            && (redirect.pushed.Some? ==> CarriesReference(c, call.answer, redirect))
  {
    var claims := RedirectSaysItAll(c, call.auth, l, call.sign, call.assertion, call.answer);
  }

  lemma LoginEnds(c: Settings, d: Drawing, redirect: Redirect, call: LoginCall)
    requires redirect.pushed.Some? ==> CarriesReference(c, call.answer, redirect)
    ensures var data := CorrelationOf(c, d, PushOf(redirect, call), call.createdAt);
            Carries(c, data, d) && EndsWithPush(c, data, redirect, call)
  {}

  /** The correlation saved and the redirect of one login. */
  lemma LoginSends(c: Settings, state: string, d: Drawing, call: LoginCall)
    requires RedirectOf(c, state, d, call).Some?
    ensures var redirect := RedirectOf(c, state, d, call).value;
            var data := CorrelationOf(c, d, PushOf(redirect, call), call.createdAt);
            Carries(c, data, d) && SentWith(c, state, d, data, Sending(redirect, call))
  {
    LoginAsks(c, LoginRequest(state, d.nonce, d.challenge, call.extra), call);
    LoginEnds(c, d, RedirectOf(c, state, d, call).value, call);
  }

  lemma OneMoreRequest(c: Settings, w: World, w': World, state: string, sent: Sending,
                       data: Correlation)
    requires RequestsInv(c, w) && state in w.issued
    requires Carries(c, data, w.issued[state]) && SentWith(c, state, w.issued[state], data, sent)
    requires w'.issued == w.issued
    requires w'.saved == w.saved[state := data] && w'.redirects == w.redirects[state := sent]
    ensures RequestsInv(c, w')
  {
    forall k | k in w'.saved ensures RequestInv(c, w', k) {
      if k == state {
        assert SentWith(c, k, w'.issued[k], w'.saved[k], w'.redirects[k]);
      } else {
        assert RequestInv(c, w, k);
      }
    }
  }

  lemma SaveKeepsRequests(c: Settings, ttl: int, w: World, e: Event, w': World)
    requires RequestsInv(c, w) && Step(c, ttl, w, e, w') && e.Save?
    ensures RequestsInv(c, w')
  {
    var state := w.handlers[e.h].state;
    LoginSends(c, state, w.issued[state], e.call);
    OneMoreRequest(c, w, w', state, w'.redirects[state], w'.saved[state]);
  }

  lemma DrawKeepsRequests(c: Settings, w: World, w': World)
    requires RequestsInv(c, w) && w'.saved == w.saved && w'.redirects == w.redirects
    requires forall k :: k in w.issued ==> k in w'.issued && w'.issued[k] == w.issued[k]
    ensures RequestsInv(c, w')
  {
    forall k | k in w'.saved ensures RequestInv(c, w', k) {
      assert RequestInv(c, w, k);
    }
  }

  lemma OnlySavesRequest(c: Settings, ttl: int, w: World, e: Event, w': World)
    requires Step(c, ttl, w, e, w') && !e.Save?
    ensures w'.saved == w.saved && w'.redirects == w.redirects
  {}

  lemma {:induction false} RunKeepsRequests(c: Settings, ttl: int, worlds: seq<World>, log: seq<Event>, n: nat)
    requires Run(c, ttl, worlds, log) && n <= |log|
    ensures RequestsInv(c, worlds[n])
  {
    if n > 0 {
      var w, e, w' := worlds[n - 1], log[n - 1], worlds[n];
      RunKeepsRequests(c, ttl, worlds, log, n - 1);
      DrawingsStand(c, ttl, worlds, log, n - 1, n);
      assert Step(c, ttl, w, e, w') by {
        assert StepAt(c, ttl, worlds, log, n - 1);
      }
      StepKeepsRequests(c, ttl, w, e, w');
    }
  }

  lemma StepKeepsRequests(c: Settings, ttl: int, w: World, e: Event, w': World)
    requires RequestsInv(c, w) && Step(c, ttl, w, e, w')
    requires forall k :: k in w.issued ==> k in w'.issued && w'.issued[k] == w.issued[k]
    ensures RequestsInv(c, w')
  {
    if e.Save? {
      SaveKeepsRequests(c, ttl, w, e, w');
    } else {
      OnlySavesRequest(c, ttl, w, e, w');
      DrawKeepsRequests(c, w, w');
    }
  }

  /** In every run, for every state under which a correlation was saved: the correlation has
      the nonce, the verifier and the resources drawn with that state and the relying party's
      identity, and the browser was sent off asking with that very state and nonce and the
      challenge of that verifier, in the open or in what was pushed; a correlation made for a
      pushed request runs out with it. */
  lemma BrowserIsSentWithWhatIsSaved(c: Settings, ttl: int, worlds: seq<World>, log: seq<Event>, n: nat, state: string)
    requires Run(c, ttl, worlds, log) && n <= |log| && state in worlds[n].saved
    ensures state in worlds[n].issued && state in worlds[n].redirects
    ensures Carries(c, worlds[n].saved[state], worlds[n].issued[state])
    ensures SentWith(c, state, worlds[n].issued[state], worlds[n].saved[state], worlds[n].redirects[state])
  {
    RunKeepsRequests(c, ttl, worlds, log, n);
    assert RequestInv(c, worlds[n], state);
  }

  /** Nothing ever replaces what a login drew under its state. */
  lemma {:induction false} DrawingsStand(c: Settings, ttl: int, worlds: seq<World>, log: seq<Event>, i: nat, n: nat)
    requires Run(c, ttl, worlds, log) && i <= n <= |log|
    ensures forall k :: k in worlds[i].issued ==> k in worlds[n].issued && worlds[n].issued[k] == worlds[i].issued[k]
    decreases n
  {
    if i < n {
      var w, e, w' := worlds[n - 1], log[n - 1], worlds[n];
      DrawingsStand(c, ttl, worlds, log, i, n - 1);
      RunKeeps(c, ttl, worlds, log, n - 1);
      assert StepAt(c, ttl, worlds, log, n - 1);
      if e.Draw? {
        B.EncodeShape(e.nonceBytes);
        FreshState(w, w', e.stateBytes, B.Encode(e.stateBytes),
                   Drawing(B.Encode(e.nonceBytes), B.Encode(e.verifierBytes), e.challenge, e.resources));
      }
    }
  }

  /** In every interleaving, each state leads to at most one code exchange based on a saved
      correlation, and that exchange brings exactly the verifier and resources drawn with
      the state, after an ID token with no other nonce than the one drawn with it, if the
      authorization response carried one. Any other exchange is for a state under which the
      application stored a value of its own, and brings no verifier at all. */
  lemma OneExactExchangePerState(c: Settings, ttl: int, worlds: seq<World>, log: seq<Event>, n: nat, i: nat)
    requires Run(c, ttl, worlds, log) && n <= |log| && i < |worlds[n].exchanges|
    ensures var w, x := worlds[n], worlds[n].exchanges[i];
            && x.grant.CodeGrant?
            && (x.data != ZERO_CORRELATION ==>
                  && x.state in w.issued && x.state in w.saved && x.data == w.saved[x.state]
                  && x.grant.verifier == w.issued[x.state].verifier && x.grant.resources == w.issued[x.state].resources
                  && B.ValidVerifier(x.grant.verifier)
                  && w.issued[x.state].nonce != ""
                  && (x.idToken != "" ==> x.frontNonce == Some(w.issued[x.state].nonce))
                  && forall j :: 0 <= j < |w.exchanges| && j != i && w.exchanges[j].state == x.state ==>
                       w.exchanges[j].data == ZERO_CORRELATION)
            && (x.data == ZERO_CORRELATION ==> x.state in w.valued && x.grant.verifier == "" && x.grant.resources == [])
  {
    var w, x := worlds[n], worlds[n].exchanges[i];
    RunKeeps(c, ttl, worlds, log, n);
    assert ExchangeInv(w, x);
    if x.data != ZERO_CORRELATION {
      BrowserIsSentWithWhatIsSaved(c, ttl, worlds, log, n, x.state);
    }
  }

  /** A login that ends with an ID token ends with one carrying the nonce drawn with its state,
      for the relying party's issuer, and outside FAPI with no user information but that of
      the ID token's subject. */
  lemma ArrivalCarriesItsNonce(c: Settings, ttl: int, worlds: seq<World>, log: seq<Event>, n: nat, i: nat)
    requires Run(c, ttl, worlds, log) && n <= |log| && i < |worlds[n].arrivals|
    ensures var w, a := worlds[n], worlds[n].arrivals[i];
            && (a.data != ZERO_CORRELATION ==>
                  && a.state in w.issued && a.state in w.saved && a.data == w.saved[a.state]
                  && (c.issuer != "" ==> a.login.issuer == c.issuer)
                  && (a.nonce.Some? ==> w.issued[a.state].nonce != "" && a.nonce.value == w.issued[a.state].nonce))
            && (a.data == ZERO_CORRELATION ==> a.state in w.valued)
            && (a.nonce.Some? <==> UsesOpenID(c.scopes.value))
            && (UsesOpenID(c.scopes.value) ==> a.login.subject != "")
            && (UsesOpenID(c.scopes.value) && !IsFapi(c.profile.value) ==>
                  a.info == NoEndpoint || a.info == UserInfoFor(a.login.subject))
  {
    var w, a := worlds[n], worlds[n].arrivals[i];
    RunKeeps(c, ttl, worlds, log, n);
    assert ArrivalInv(w, a);
    ArrivalIsALogin(c, ttl, worlds, log, n, i);
    if a.data != ZERO_CORRELATION {
      BrowserIsSentWithWhatIsSaved(c, ttl, worlds, log, n, a.state);
    }
  }

  lemma {:induction false} ArrivalIsALogin(c: Settings, ttl: int, worlds: seq<World>, log: seq<Event>, n: nat, i: nat)
    requires Run(c, ttl, worlds, log) && n <= |log| && i < |worlds[n].arrivals|
    ensures var a := worlds[n].arrivals[i];
            && (a.nonce.Some? <==> UsesOpenID(c.scopes.value))
            && (UsesOpenID(c.scopes.value) ==> a.login.subject != "")
            && (UsesOpenID(c.scopes.value) && !IsFapi(c.profile.value) ==>
                  a.info == NoEndpoint || a.info == UserInfoFor(a.login.subject))
  {
    assert n > 0;
    var w, e := worlds[n - 1], log[n - 1];
    assert StepAt(c, ttl, worlds, log, n - 1);
    if i < |w.arrivals| {
      ArrivalIsALogin(c, ttl, worlds, log, n - 1, i);
    } else {
      var Exchanged(state, id, data) := w.handlers[e.h];
      LoginJustWhen(c, e.token, data, id, e.idToken, e.info, e.now);
      AcceptsJustWhenGood(c, e.idToken, data.nonce, id, e.now);
    }
  }

  lemma {:induction false} ValuedOnlyBySaving(c: Settings, ttl: int, worlds: seq<World>, log: seq<Event>, n: nat)
    requires Run(c, ttl, worlds, log) && n <= |log|
    ensures forall k :: k in worlds[n].valued ==>
              exists m :: 0 <= m < n && log[m].Application? && log[m].e.SavedValue? && log[m].e.state == k
  {
    if n > 0 {
      ValuedOnlyBySaving(c, ttl, worlds, log, n - 1);
      assert StepAt(c, ttl, worlds, log, n - 1);
    }
  }

  /** Applications that store no values of their own: then every exchange is based on a saved
      correlation, and `OneExactExchangePerState` says all there is to say. */
  lemma WithoutValuesEveryExchangeIsExact(c: Settings, ttl: int, worlds: seq<World>, log: seq<Event>, n: nat, i: nat)
    requires Run(c, ttl, worlds, log) && n <= |log| && i < |worlds[n].exchanges|
    requires forall m :: 0 <= m < n ==> !SavesValueUnder(log[m], worlds[n].exchanges[i].state)
    ensures worlds[n].exchanges[i].data != ZERO_CORRELATION
  {
    OneExactExchangePerState(c, ttl, worlds, log, n, i);
    ValuedOnlyBySaving(c, ttl, worlds, log, n);
  }

  predicate SavesValueUnder(e: Event, state: string) {
    e.Application? && e.e.SavedValue? && e.e.state == state
  }

  /** The callback that redeems a value: a plain response where those are allowed, otherwise
      one signed by the provider; either names the issuer, so validation lets it through. */
  function RedeemingParams(c: Settings, state: string): CallbackParams {
    if MentionsJwt(c.responseMode.value) then CallbackParams("", "", "", "", "", "jwt")
    else CallbackParams("code", state, c.issuer, "", "", "")
  }

  function RedeemingJarm(c: Settings, state: string): Verified<JarmClaims> {
    if MentionsJwt(c.responseMode.value)
    then
      var exp := if c.clockSkew < 0 then -c.clockSkew else 0;
      Signed(JarmClaims(c.issuer, [c.clientID], Some(exp), None, "code", state, ""))
    else Refused
  }

  const NO_FRONT_CHANNEL := FrontChannel(Refused, false, 1)

  lemma RedeemingResponse(c: Settings, state: string)
    requires c.issuer != ""
    ensures ParseResponse(c, RedeemingParams(c, state), RedeemingJarm(c, state), 1)
            == Some(AuthzResponse("code", state, c.issuer))
    ensures CheckResponse(c, RedeemingParams(c, state), AuthzResponse("code", state, c.issuer), ZERO_CORRELATION,
                          NO_FRONT_CHANNEL, 1) == Some(Identity(c.issuer, c.clientID))
  {
    assert TrimSpace("jwt") == "jwt";
  }

  /** Extending a run by one more step. */
  lemma Extend(c: Settings, ttl: int, worlds: seq<World>, log: seq<Event>, e: Event, w': World)
    requires Run(c, ttl, worlds, log) && Step(c, ttl, worlds[|log|], e, w')
    ensures Run(c, ttl, worlds + [w'], log + [e])
  {
    var worlds', log' := worlds + [w'], log + [e];
    forall i | 0 <= i < |log'| ensures StepAt(c, ttl, worlds', log', i) {
      assert i < |log| ==> StepAt(c, ttl, worlds, log, i);
    }
  }

  function Redeeming(c: Settings, state: string): Handler {
    Consumed(state, RedeemingParams(c, state), AuthzResponse("code", state, c.issuer), ZERO_CORRELATION)
  }

  /** A value is filed under the state, and a callback consumes the entry it is in. */
  lemma ValueIsConsumed(c: Settings, ttl: int, state: string, name: string, value: M.Blob)
    returns (worlds: seq<World>, log: seq<Event>)
    requires 0 < ttl && c.issuer != "" && state != "" && name != ""
    ensures Run(c, ttl, worlds, log) && |log| == 2 && SavesValueUnder(log[0], state)
    ensures log[1].Consume? && log[1].jarm == RedeemingJarm(c, state)
    ensures worlds[2] == START.(valued := {state},
                                handlers := map[0 := Redeeming(c, state)])
  {
    var params, jarm := RedeemingParams(c, state), RedeemingJarm(c, state);
    var r := AuthzResponse("code", state, c.issuer);
    var save := Application(R.SavedValue(1, state, name, value));
    var consume := Consume(0, params, jarm, 1, 1, "", Some(ZERO_CORRELATION));
    var w1 := START.(items := M.WithValue(START.items, state, name, value, 1), valued := {state});
    var w2 := START.(valued := {state}, handlers := map[0 := Consumed(state, params, r, ZERO_CORRELATION)]);
    worlds, log := [START], [];
    Extend(c, ttl, worlds, log, save, w1);
    worlds, log := worlds + [w1], log + [save];
    RedeemingResponse(c, state);
    assert w1.items - {state} == map[];
    Extend(c, ttl, worlds, log, consume, w2);
    worlds, log := worlds + [w2], log + [consume];
  }

  /** The exception is real for every state and under all settings, issuer validation and JWT
      responses included: one value stored under a state that was never issued is enough for
      an exchange without a verifier. Where no value was stored there is none
      (`WithoutValuesEveryExchangeIsExact`). */
  lemma ValueAloneAllowsAnExchange(c: Settings, ttl: int, state: string, name: string, value: M.Blob)
    returns (worlds: seq<World>, log: seq<Event>)
    requires 0 < ttl && c.issuer != "" && state != "" && name != ""
    ensures Run(c, ttl, worlds, log) && |log| == 3 && worlds[3].issued == map[] && SavesValueUnder(log[0], state)
    ensures log[1].Consume? && (!MentionsJwt(c.responseMode.value) ==> log[1].jarm.Refused?)
    ensures |worlds[3].exchanges| == 1 && worlds[3].exchanges[0].state == state
    ensures worlds[3].exchanges[0].grant == CodeGrant("code", "", [])
  {
    worlds, log := ValueIsConsumed(c, ttl, state, name, value);
    var exchange := Exchange(0, NO_FRONT_CHANNEL, 1);
    var w3 := worlds[2].(handlers := map[0 := Exchanged(state, Identity(c.issuer, c.clientID), ZERO_CORRELATION)],
                         exchanges := [CodeExchange(state, CodeGrant("code", "", []), ZERO_CORRELATION, "", None)]);
    RedeemingResponse(c, state);
    Extend(c, ttl, worlds, log, exchange, w3);
    worlds, log := worlds + [w3], log + [exchange];
  }
}
