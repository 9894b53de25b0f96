/** What a relying party accepted under a FAPI profile keeps, through every sequence of
    logins, callbacks and refreshes. */
module FapiGuarantees {
  import opened Correlations
  import opened Text
  import opened AuthMethods
  import opened DpopRetry
  import opened TokenGrant
  import opened RelyingParties
  import opened Callbacks

  /** The parts of the token engine's setup that do not depend on the provider or the method. */
  datatype Signing = Signing(canSign: bool, buildable: set<AuthMethod>, nonceTTL: int)

  function SetupFor(c: Settings, k: Signing, p: Provider, m: AuthMethod): Setup {
    Setup(RelyingParty, c.constraint, c.credentials.key.Some?, k.canSign, k.buildable, TokenEndpoint(c, p, m),
          k.nonceTTL)
  }

  /** One use of the relying party. `issuer` is the issuer of the transaction, `found` what
      discovery brings back if it is used, `server` the token endpoint as it is by then. */
  datatype Use =
    | LogsIn(nonces: Nonces)
    | ComesBack(issuer: string, found: Option<Provider>, grant: Grant, server: Server, at: Ticks, at': Ticks)
    | Refreshes(refreshToken: string, server: Server, at: Ticks, at': Ticks)

  function ExecuteWith(c: Settings, k: Signing, p: Provider, w: World, grant: Grant, server: Server, at: Ticks,
                       at': Ticks): World {
    if TokenEndpoint(c, p, w.auth.chosen) == "" then w
    else Execute(server, SetupFor(c, k, p, w.auth.chosen), w, grant, at, at').1
  }

  /** What a use does to the method on record, the requests sent and the nonce cache. A login
      pushes its request to another endpoint, so it may leave any nonces behind. */
  function After(c: Settings, k: Signing, w: World, u: Use): World {
    match u
    case LogsIn(nonces) => World(Resolved(c, c.provider.authMethods, w.auth), w.sent, nonces)
    case ComesBack(issuer, found, grant, server, at, at') =>
      (match ProviderForCallback(c, issuer, found)
       case None => w
       case Some(p) =>
         match Negotiated(c, p, w.auth)
         case None => w
         case Some(auth) => ExecuteWith(c, k, p, w.(auth := auth), grant, server, at, at'))
    case Refreshes(refreshToken, server, at, at') =>
      ExecuteWith(c, k, c.provider, w, RefreshGrant(refreshToken), server, at, at')
  }

  ghost predicate StepAt(c: Settings, k: Signing, worlds: seq<World>, uses: seq<Use>, i: nat)
    requires |worlds| == |uses| + 1 && i < |uses|
  {
    worlds[i + 1] == After(c, k, worlds[i], uses[i])
  }

  /** A run of an accepted relying party, from the state `New` leaves it in. */
  ghost predicate Run(c: Settings, k: Signing, worlds: seq<World>, uses: seq<Use>) {
    && |worlds| == |uses| + 1
    && Select(c.credentials, c.provider.authMethods).Selected?
    && worlds[0] == World(Resolved(c, c.provider.authMethods, AuthState(Unset, false)), [], map[])
    && forall i {:trigger StepAt(c, k, worlds, uses, i)} :: 0 <= i < |uses| ==> StepAt(c, k, worlds, uses, i)
  }

  /** Nothing can replace the negotiated method: callbacks use the provider known at
      construction, or negotiate only for the method the client insists on, or discover,
      for want of the openid scope, a provider that lists no methods. */
  predicate MethodIsFixed(c: Settings) {
    c.provider.issuer != "" || c.credentials.configured != Unset || !UsesOpenID(c.scopes.value)
  }

  /** Negotiating again gives the method on record, or fails. */
  lemma NegotiationAgrees(c: Settings, auth: AuthState, advertised: seq<string>)
    requires c.provider.issuer != "" || c.credentials.configured != Unset
    requires Select(c.credentials, c.provider.authMethods) == Selected(auth.chosen, auth.fallback) && !auth.fallback
    requires Select(c.credentials, advertised).Selected?
    requires c.provider.issuer != "" ==> advertised == c.provider.authMethods
    ensures Select(c.credentials, advertised) == Selected(auth.chosen, false)
  {}

  /** Without a token endpoint nothing is sent; with one, everything goes by its setup: the relying
      party's flow and constraint, and the nonces of that endpoint. */
  lemma ExecutesJustWithEndpoint(c: Settings, k: Signing, p: Provider, w: World, grant: Grant, server: Server,
                                 at: Ticks, at': Ticks)
    ensures var endpoint := TokenEndpoint(c, p, w.auth.chosen);
            var w' := ExecuteWith(c, k, p, w, grant, server, at, at');
            && (endpoint == "" ==> w' == w)
            && (|w.sent| < |w'.sent| <==>
                  endpoint != "" && w.auth.chosen in k.buildable
                  && (c.constraint == Dpop && c.credentials.key.Some? ==> k.canSign))
            && (forall e :: e != endpoint ==>
                  (e in w'.nonces <==> e in w.nonces) && (e in w.nonces ==> w'.nonces[e] == w.nonces[e]))
  {
    var s := SetupFor(c, k, p, w.auth.chosen);
    SendsJustWhen(server, s, w, grant, at, at');
    NoncesElsewhere(server, s, w, grant, at, at');
  }

  ghost predicate AllSentWith(sent: seq<Request>, m: AuthMethod) {
    forall i :: 0 <= i < |sent| ==> sent[i].auth == m
  }

  lemma ExecuteKeepsMethod(c: Settings, k: Signing, p: Provider, w: World, grant: Grant, server: Server, at: Ticks,
                           at': Ticks)
    requires !w.auth.fallback && AllSentWith(w.sent, w.auth.chosen)
    ensures ExecuteWith(c, k, p, w, grant, server, at, at').auth == w.auth
    ensures AllSentWith(ExecuteWith(c, k, p, w, grant, server, at, at').sent, w.auth.chosen)
  {
    var s := SetupFor(c, k, p, w.auth.chosen);
    MethodSettlesOnSuccess(server, s, w, grant, at, at');
    GrantSendsAtMostFour(server, s, w, grant, at, at');
  }

  lemma UseKeepsMethod(c: Settings, k: Signing, w: World, u: Use)
    requires MethodIsFixed(c) && Select(c.credentials, c.provider.authMethods) == Selected(w.auth.chosen, false)
    requires !w.auth.fallback && AllSentWith(w.sent, w.auth.chosen)
    ensures After(c, k, w, u).auth == w.auth && AllSentWith(After(c, k, w, u).sent, w.auth.chosen)
  {
    match u
    case LogsIn(_) =>
    case ComesBack(issuer, found, grant, server, at, at') =>
      var p := ProviderForCallback(c, issuer, found);
      if p.Some? && Negotiated(c, p.value, w.auth).Some? {
        if p.value.authMethods != [] {
          NegotiationAgrees(c, w.auth, p.value.authMethods);
        }
        ExecuteKeepsMethod(c, k, p.value, w, grant, server, at, at');
      }
    case Refreshes(refreshToken, server, at, at') =>
      ExecuteKeepsMethod(c, k, c.provider, w, RefreshGrant(refreshToken), server, at, at');
  }

  lemma {:induction false} RunKeepsMethod(c: Settings, k: Signing, worlds: seq<World>, uses: seq<Use>, i: nat)
    requires Run(c, k, worlds, uses) && i <= |uses| && MethodIsFixed(c) && !worlds[0].auth.fallback
    ensures worlds[i].auth == worlds[0].auth && AllSentWith(worlds[i].sent, worlds[0].auth.chosen)
  {
    if i > 0 {
      RunKeepsMethod(c, k, worlds, uses, i - 1);
      assert StepAt(c, k, worlds, uses, i - 1);
      UseKeepsMethod(c, k, worlds[i - 1], uses[i - 1]);
    }
  }

  /** A login negotiates as construction did, whatever callbacks have made of the method since. */
  lemma LoginRestoresMethod(c: Settings, k: Signing, worlds: seq<World>, uses: seq<Use>, i: nat)
    requires Run(c, k, worlds, uses) && i < |uses| && uses[i].LogsIn?
    ensures worlds[i + 1].auth == worlds[0].auth && worlds[i + 1].sent == worlds[i].sent
  {
    assert StepAt(c, k, worlds, uses, i);
  }

  /** The method stays what it was at construction, asymmetric and with the fallback off,
      and every token request is authenticated with it. */
  ghost predicate KeepsMethod(worlds: seq<World>) {
    forall i {:trigger worlds[i]} :: 0 <= i < |worlds| ==>
      && worlds[i].auth == worlds[0].auth && Asymmetric(worlds[i].auth.chosen) && !worlds[i].auth.fallback
      && AllSentWith(worlds[i].sent, worlds[0].auth.chosen)
  }

  lemma FixedMethodIsKept(options: Settings, env: Environment, c: Settings, k: Signing, worlds: seq<World>,
                          uses: seq<Use>)
    requires Accepted(options, env) && c == WithProfileDefaults(options).(provider := env.provider.value)
    requires IsFapi(c.profile.value) && MethodIsFixed(c)
    requires Run(c, k, worlds, uses)
    ensures KeepsMethod(worlds)
  {
    SelectedIsUsableAndOffered(c.credentials, c.provider.authMethods);
    forall i | 0 <= i < |worlds|
      ensures worlds[i].auth == worlds[0].auth && Asymmetric(worlds[i].auth.chosen) && !worlds[i].auth.fallback
      ensures AllSentWith(worlds[i].sent, worlds[0].auth.chosen)
    {
      RunKeepsMethod(c, k, worlds, uses, i);
    }
  }

  /** There are accepted FAPI relying parties whose method is not fixed. */
  lemma SomeMethodsAreNotFixed(clientID: string, redirectURI: string) returns (options: Settings, env: Environment)
    requires clientID != ""
    ensures Accepted(options, env) && options.profile == Choice(FAPI2Security, true)
    ensures !MethodIsFixed(WithProfileDefaults(options).(provider := env.provider.value))
  {
    var p := Provider("", "authorize", "token", "par", "", "", [Name(PrivateKeyJWT)], true);
    var credentials := Credentials(Unset, "", Some(KeyProvider(false, "es256", None)));
    options := Settings("issuer", clientID, redirectURI, credentials, Dpop, Choice(FAPI2Security, true),
                        Choice(["openid"], false), Choice(true, false), Choice(false, false), Choice("", false),
                        Choice("", false), Choice(false, false), false, 0, "", p);
    env := Environment(false, true, true, Some(p));
    assert ToLower(TrimSpace("es256")) == "es256" by {
      NormalFormStays("es256");
    }
    assert UsesOpenID(["openid"]) by {
      NormalFormStays("openid");
      assert IsOpenID(["openid"][0]);
    }
    KeyOffered(credentials);
  }

  /** One callback is enough to lose a method that is not fixed: the provider it discovers
      offers no client authentication. */
  lemma UnfixedMethodIsLost(options: Settings, env: Environment, c: Settings, k: Signing)
    returns (worlds: seq<World>, uses: seq<Use>)
    requires Accepted(options, env) && c == WithProfileDefaults(options).(provider := env.provider.value)
    requires IsFapi(c.profile.value) && !MethodIsFixed(c)
    ensures Run(c, k, worlds, uses) && |uses| == 1 && uses[0].ComesBack? && uses[0].issuer == c.issuer
    ensures worlds[1].auth == AuthState(NoAuth, false)
    ensures !KeepsMethod(worlds)
  {
    var p := Provider(c.issuer, "authorize", "token", "", "", "", [Name(NoAuth)], false);
    var server: Server := _ => TransportError;
    var at, grant := Ticks(0, 0, 0), CodeGrant("code", "", []);
    var u := ComesBack(c.issuer, Some(p), grant, server, at, at);
    var w0 := World(Resolved(c, c.provider.authMethods, AuthState(Unset, false)), [], map[]);
    worlds, uses := [w0, After(c, k, w0, u)], [u];
    assert StepAt(c, k, worlds, uses, 0);
    NothingOffered(c.credentials);
    MethodSettlesOnSuccess(server, SetupFor(c, k, p, NoAuth), w0.(auth := AuthState(NoAuth, false)), grant, at, at);
    assert !Asymmetric(worlds[1].auth.chosen);
  }

  /** A FAPI relying party keeps its asymmetric method through every run just when the
      method is fixed. */
  lemma FapiKeepsAsymmetricMethod(options: Settings, env: Environment, c: Settings, k: Signing)
    requires Accepted(options, env) && c == WithProfileDefaults(options).(provider := env.provider.value)
    requires IsFapi(c.profile.value)
    ensures MethodIsFixed(c) <==> forall worlds, uses :: Run(c, k, worlds, uses) ==> KeepsMethod(worlds)
  {
    if MethodIsFixed(c) {
      forall worlds, uses | Run(c, k, worlds, uses) ensures KeepsMethod(worlds) {
        FixedMethodIsKept(options, env, c, k, worlds, uses);
      }
    } else {
      var worlds, uses := UnfixedMethodIsLost(options, env, c, k);
    }
  }

  /** Client authentication adds to what is asked for, and overrides nothing else in it. */
  lemma AuthenticationAdds(c: Settings, m: AuthMethod, asked: Params, assertion: string)
    ensures var body := Authenticated(c, m, asked, assertion);
            && asked.Keys <= body.Keys <= asked.Keys + ASSERTION_PARAMS
            && (forall k :: k in asked && k !in ASSERTION_PARAMS ==> body[k] == asked[k])
            && (NeedsAssertion(c, m) ==>
                  && ASSERTION_PARAMS <= body.Keys
                  && body["client_assertion"] == [assertion]
                  && body["client_assertion_type"] == ["urn:ietf:params:oauth:client-assertion-type:jwt-bearer"])
            && (!NeedsAssertion(c, m) ==> body == asked)
  {}

  /** A push that says everything it asks for in the request object: of the plain parameters
      at most the client id comes with it. */
  predicate AsksInSigned(c: Settings, body: Params, signed: string) {
    && signed != "" && "request" in body && body["request"] == [signed]
    && forall k :: k in body && k != "request" && k !in ASSERTION_PARAMS ==> k == "client_id" && body[k] == [c.clientID]
  }

  /** A push that asks in plain parameters. */
  predicate AsksPlainly(plain: Params, body: Params) {
    && plain.Keys <= body.Keys <= plain.Keys + ASSERTION_PARAMS
    && forall k :: k in plain && k !in ASSERTION_PARAMS ==> body[k] == plain[k]
  }

  /** What a push must say: everything that is asked for, and the client's authentication. */
  predicate PushSaysItAll(c: Settings, m: AuthMethod, plain: Params, signed: string, assertion: string, body: Params) {
    && (if c.signedRequests.value then AsksInSigned(c, body, signed) else AsksPlainly(plain, body))
    && (m == PrivateKeyJWT ==>
          && ASSERTION_PARAMS <= body.Keys && body["client_assertion"] == [assertion] && assertion != ""
          && body["client_assertion_type"] == ["urn:ietf:params:oauth:client-assertion-type:jwt-bearer"])
    && (c.signedRequests.value ==> ("client_id" in body <==> m == TLS))
    && (m != PrivateKeyJWT && c.signedRequests.value ==> body.Keys !! ASSERTION_PARAMS)
    && (m != PrivateKeyJWT && !c.signedRequests.value ==> body == plain)
  }

  lemma AskedAndAuthenticated(c: Settings, m: AuthMethod, plain: Params, signed: string, assertion: string)
    requires NeedsAssertion(c, m) <==> m == PrivateKeyJWT
    requires NeedsAssertion(c, m) ==> assertion != ""
    requires c.signedRequests.value ==> signed != ""
    ensures PushSaysItAll(c, m, plain, signed, assertion, Authenticated(c, m, Asked(c, m, plain, signed), assertion))
  {
    AuthenticationAdds(c, m, Asked(c, m, plain, signed), assertion);
  }

  /** A redirect after a push that said everything. */
  predicate PushedRedirect(c: Settings, m: AuthMethod, plain: Params, signed: string, assertion: string,
                           answer: PushAnswer, r: Redirect) {
    && CarriesReference(c, answer, r)
    && r.pushed.Some? && PushSaysItAll(c, m, plain, signed, assertion, r.pushed.value)
  }

  /** Under FAPI 2 every login that yields a redirect was pushed, by a client that proves its
      identity with a key or a certificate. */
  lemma Fapi2LoginsArePushed(options: Settings, env: Environment, c: Settings, before: AuthState, l: LoginRequest,
                             sign: Signer, assertion: string, answer: PushAnswer)
    requires Accepted(options, env) && c == WithProfileDefaults(options).(provider := env.provider.value)
    requires c.profile.value in {FAPI2Security, FAPI2MessageSigning}
    ensures var auth := Resolved(c, c.provider.authMethods, before);
            var r := LoginRedirect(c, auth, l, sign, assertion, answer);
            && Asymmetric(auth.chosen)
            && SaysItAll(c, l, AuthorizationParams(c, l)) && ObjectSaysItAll(c, l, RequestObject(c, l))
            && (r.Some? ==>
                  PushedRedirect(c, auth.chosen, AuthorizationParams(c, l), sign(RequestObject(c, l)), assertion,
                                 answer, r.value))
  {
    var auth := Resolved(c, c.provider.authMethods, before);
    SelectedIsUsableAndOffered(c.credentials, c.provider.authMethods);
    assert c.requirePAR.value && Asymmetric(auth.chosen);
    assert NeedsAssertion(c, auth.chosen) <==> auth.chosen == PrivateKeyJWT;
    RequestSaysItAll(c, l);
    ObjectSays(c, l);
    if LoginRedirect(c, auth, l, sign, assertion, answer).Some? {
      AskedAndAuthenticated(c, auth.chosen, AuthorizationParams(c, l), sign(RequestObject(c, l)), assertion);
    }
  }

  /** Under Message Signing a callback goes on to the code exchange only on a signed JWT
      response from the issuer of the transaction. */
  lemma MessageSigningNeedsJarm(options: Settings, env: Environment, c: Settings, p: CallbackParams,
                                jarm: Verified<JarmClaims>, parsedAt: Time, data: Correlation, front: FrontChannel,
                                now: Time)
    requires Accepted(options, env) && c == WithProfileDefaults(options).(provider := env.provider.value)
    requires options.profile == Choice(FAPI2MessageSigning, true)
    requires ParseResponse(c, p, jarm, parsedAt).Some?
    requires CheckResponse(c, p, ParseResponse(c, p, jarm, parsedAt).value, data, front, now).Some?
    ensures var r := ParseResponse(c, p, jarm, parsedAt).value;
            && IsJarm(p) && jarm.Signed? && ValidJarm(c, jarm.claims, parsedAt)
            && r == AuthzResponse(jarm.claims.code, jarm.claims.state, jarm.claims.iss)
            && r.iss == ExpectedIssuer(c, data)
            && CheckResponse(c, p, r, data, front, now).value.issuer == jarm.claims.iss
  {
    if !options.responseMode.explicit {
      DefaultModeMentionsJwt();
    }
  }

  /** Under FAPI 1 Advanced and FAPI 2 a callback goes on only if the response, or the ID token
      that came with it, names the issuer of the transaction. */
  lemma FapiCallbacksNameTheIssuer(options: Settings, env: Environment, c: Settings, p: CallbackParams,
                                   r: AuthzResponse, data: Correlation, front: FrontChannel, now: Time)
    requires Accepted(options, env) && c == WithProfileDefaults(options).(provider := env.provider.value)
    requires options.profile.explicit && options.profile.value in {FAPI1Advanced, FAPI2Security, FAPI2MessageSigning}
    requires CheckResponse(c, p, r, data, front, now).Some?
    ensures c.validateIssuer.value
    ensures var expected := ExpectedIssuer(c, data);
            && CheckResponse(c, p, r, data, front, now).value.issuer == expected
            && (r.iss == expected
                || (r.iss == "" && p.idToken != "" && front.token.Signed? && front.token.claims.issuer == expected))
  {}

  /** The default response mode asks for JWT responses. */
  lemma DefaultModeMentionsJwt()
    ensures MentionsJwt("jwt")
  {
    var mode := "jwt";
    assert LowerChar(mode[0]) == 'j' && LowerChar(mode[0 + 1]) == 'w' && LowerChar(mode[0 + 2]) == 't';
  }

  /** With DPoP as its constraint, every token request such a relying party ever sends carries a proof. */
  lemma {:induction false} DpopRequestsCarryProofs(options: Settings, env: Environment, c: Settings, k: Signing,
                                                   worlds: seq<World>, uses: seq<Use>, i: nat)
    requires Accepted(options, env) && c == WithProfileDefaults(options).(provider := env.provider.value)
    requires c.constraint == Dpop && Run(c, k, worlds, uses) && i <= |uses|
    ensures forall n :: 0 <= n < |worlds[i].sent| ==> worlds[i].sent[n].proof.Some?
  {
    if i > 0 {
      var w, u := worlds[i - 1], uses[i - 1];
      DpopRequestsCarryProofs(options, env, c, k, worlds, uses, i - 1);
      assert StepAt(c, k, worlds, uses, i - 1);
      UseCarriesProofs(c, k, w, u);
    }
  }

  lemma UseCarriesProofs(c: Settings, k: Signing, w: World, u: Use)
    requires c.constraint == Dpop && c.credentials.key.Some?
    requires forall n :: 0 <= n < |w.sent| ==> w.sent[n].proof.Some?
    ensures forall n :: 0 <= n < |After(c, k, w, u).sent| ==> After(c, k, w, u).sent[n].proof.Some?
  {
    match u {
      case LogsIn(_) =>
      case ComesBack(issuer, found, grant, server, at, at') =>
        var p := ProviderForCallback(c, issuer, found);
        if p.Some? && Negotiated(c, p.value, w.auth).Some? {
          var w' := w.(auth := Negotiated(c, p.value, w.auth).value);
          ProofsWith(c, k, p.value, w', grant, server, at, at');
        }
      case Refreshes(refreshToken, server, at, at') =>
        ProofsWith(c, k, c.provider, w, RefreshGrant(refreshToken), server, at, at');
    }
  }

  lemma ProofsWith(c: Settings, k: Signing, p: Provider, w: World, grant: Grant, server: Server, at: Ticks, at': Ticks)
    requires c.constraint == Dpop && c.credentials.key.Some?
    requires forall n :: 0 <= n < |w.sent| ==> w.sent[n].proof.Some?
    ensures var sent := ExecuteWith(c, k, p, w, grant, server, at, at').sent;
            forall n :: 0 <= n < |sent| ==> sent[n].proof.Some?
  {
    var s := SetupFor(c, k, p, w.auth.chosen);
    ProofsAttachedJustWhen(server, s, w, grant, at, at');
    GrantSendsAtMostFour(server, s, w, grant, at, at');
  }
}
