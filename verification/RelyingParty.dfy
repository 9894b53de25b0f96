/** Constructing a relying party: profile defaults, the checks in `New`, and what a
    login sends the browser to (rp/rp.go, rp/par.go, rp/endpoints.go, rp/authrequest.go). */
module RelyingParties {
  import opened Correlations
  import opened Text
  import opened AuthMethods
  import opened TokenGrant

  datatype Profile = OIDC | OAuth2 | FAPI1Advanced | FAPI2Security | FAPI2MessageSigning | PlainFAPI

  predicate IsFapi(p: Profile) {
    p != OIDC && p != OAuth2
  }

  datatype Provider = Provider(
    issuer: string,
    authorizationEndpoint: string,
    tokenEndpoint: string,
    parEndpoint: string,
    mtlsTokenEndpoint: string,
    mtlsParEndpoint: string,
    authMethods: seq<string>,
    requiresPAR: bool)

  /** A setting, and whether the caller chose it. */
  datatype Choice<T> = Choice(value: T, explicit: bool)

  function Default<T>(c: Choice<T>, value: T): Choice<T> {
    if c.explicit then c else c.(value := value)
  }

  /** The fields of an `RP` that options and profile set; fixed once `New` returns. */
  datatype Settings = Settings(
    issuer: string,
    clientID: string,
    redirectURI: string,
    credentials: Credentials,
    constraint: Constraint,
    profile: Choice<Profile>,
    scopes: Choice<seq<string>>,
    signedRequests: Choice<bool>,
    requirePAR: Choice<bool>,
    responseMode: Choice<string>,
    responseType: Choice<string>,
    validateIssuer: Choice<bool>,
    allowUnsecuredIDTokens: bool,
    clockSkew: int,
    userInfoTransport: string,
    provider: Provider)

  /** What the rest of `New` finds out: option errors, URL syntax, the discovered provider. */
  datatype Environment = Environment(optionErrors: bool, urlsValid: bool, requestMethodKnown: bool,
                                     provider: Option<Provider>)

  predicate IsOpenID(scope: string) {
    ToLower(TrimSpace(scope)) == "openid"
  }

  /** `usesOpenIDScope`. */
  predicate UsesOpenID(scopes: seq<string>) {
    exists i :: 0 <= i < |scopes| && IsOpenID(scopes[i])
  }

  /** `removeScope(scopes, "openid")`. */
  function WithoutOpenID(scopes: seq<string>): (kept: seq<string>)
    ensures !UsesOpenID(kept)
  {
    if scopes == [] then []
    else (if IsOpenID(scopes[0]) then [] else [scopes[0]]) + WithoutOpenID(scopes[1..])
  }

  /** `strings.Contains(strings.ToLower(mode), "jwt")`. */
  predicate MentionsJwt(mode: string) {
    exists i ::
      && 0 <= i <= |mode| - 3
      && LowerChar(mode[i]) == 'j' && LowerChar(mode[i + 1]) == 'w' && LowerChar(mode[i + 2]) == 't'
  }

  /** What `applyProfileDefaults` makes of the options. */
  function WithProfileDefaults(c: Settings): Settings {
    if !c.profile.explicit then c
    else
      var p := c.profile.value;
      var fapi12 := p in {FAPI1Advanced, FAPI2Security, FAPI2MessageSigning};
      c.(scopes := if p == OAuth2 then Default(c.scopes, WithoutOpenID(c.scopes.value))
                   else if fapi12 then Default(c.scopes, ["openid"]) else c.scopes,
         signedRequests := if fapi12 then Default(c.signedRequests, true) else c.signedRequests,
         responseType := if p == FAPI1Advanced then Default(c.responseType, "code id_token") else c.responseType,
         requirePAR := if p in {FAPI2Security, FAPI2MessageSigning} then Default(c.requirePAR, true) else c.requirePAR,
         responseMode := if p == FAPI2MessageSigning then Default(c.responseMode, "jwt") else c.responseMode,
         validateIssuer := if IsFapi(p) then Default(c.validateIssuer, true) else c.validateIssuer)
  }

  function ParEndpoint(p: Provider, m: AuthMethod): string {
    if (m == TLS || m == SelfSignedTLS) && p.mtlsParEndpoint != "" then p.mtlsParEndpoint else p.parEndpoint
  }

  /** `effectiveTokenEndpoint`. */
  function TokenEndpoint(c: Settings, p: Provider, m: AuthMethod): string {
    if (m == TLS || m == SelfSignedTLS || c.constraint == Mtls) && p.mtlsTokenEndpoint != ""
    then p.mtlsTokenEndpoint else p.tokenEndpoint
  }

  predicate Asymmetric(m: AuthMethod) {
    m == PrivateKeyJWT || m == TLS || m == SelfSignedTLS
  }

  /** `validateFAPIProfileRequirements`. */
  predicate MeetsFapi(c: Settings, m: AuthMethod) {
    IsFapi(c.profile.value) ==>
      && Asymmetric(m)
      && (if c.profile.value in {FAPI2Security, FAPI2MessageSigning} then c.requirePAR.value
          else c.requirePAR.value || c.signedRequests.value)
      && c.constraint != Unconstrained
      && (c.credentials.key.Some? ==>
            && ToLower(TrimSpace(c.credentials.key.value.signingAlg)) in {"ps256", "es256"}
            && (c.credentials.key.value.rsaBits.Some? ==> c.credentials.key.value.rsaBits.value >= 2048))
  }

  /** `validateExplicitDPoP`. */
  predicate MeetsConstraint(c: Settings) {
    && (c.constraint == Dpop ==> c.credentials.key.Some?)
    && (c.constraint == Mtls ==> HasCertificate(c.credentials))
  }

  /** Every condition `New` puts on the settings with defaults, the provider and the method. */
  predicate Acceptable(c: Settings, env: Environment, m: AuthMethod) {
    var p := c.profile.value;
    && !env.optionErrors && env.urlsValid && c.issuer != "" && c.clientID != "" && c.scopes.value != []
    && c.provider.authorizationEndpoint != ""
    && (c.requirePAR.value ==> ParEndpoint(c.provider, m) != "")
    && (c.signedRequests.explicit ==> env.requestMethodKnown)
    && !(p == FAPI2MessageSigning && c.responseMode.explicit && !MentionsJwt(c.responseMode.value))
    && !(IsFapi(p) && p != PlainFAPI && c.validateIssuer.explicit && !c.validateIssuer.value)
    && !(p == FAPI1Advanced && c.constraint == Dpop)
    && MeetsFapi(c, m)
    && MeetsConstraint(c)
  }

  class RP {
    var settings: Settings
    var auth: AuthState

    constructor (options: Settings)
      ensures settings == options && auth == AuthState(Unset, false)
    {
      settings, auth := options, AuthState(Unset, false);
    }

    /** `applyProfileDefaults`, field by field. */
    method ApplyProfileDefaults()
      modifies this
      ensures settings == WithProfileDefaults(old(settings)) && auth == old(auth)
    {
      if !settings.profile.explicit {
        return;
      }
      match settings.profile.value {
        case OAuth2 =>
          settings := settings.(scopes := Default(settings.scopes, WithoutOpenID(settings.scopes.value)));
        case FAPI1Advanced =>
          settings := settings.(scopes := Default(settings.scopes, ["openid"]));
          settings := settings.(signedRequests := Default(settings.signedRequests, true));
          settings := settings.(responseType := Default(settings.responseType, "code id_token"));
        case FAPI2Security =>
          settings := settings.(scopes := Default(settings.scopes, ["openid"]));
          settings := settings.(signedRequests := Default(settings.signedRequests, true));
          settings := settings.(requirePAR := Default(settings.requirePAR, true));
        case FAPI2MessageSigning =>
          settings := settings.(scopes := Default(settings.scopes, ["openid"]));
          settings := settings.(signedRequests := Default(settings.signedRequests, true));
          settings := settings.(requirePAR := Default(settings.requirePAR, true));
          settings := settings.(responseMode := Default(settings.responseMode, "jwt"));
        case OIDC =>
        case PlainFAPI =>
      }
      if IsFapi(settings.profile.value) && !settings.validateIssuer.explicit {
        settings := settings.(validateIssuer := settings.validateIssuer.(value := true));
      }
    }

    /** `resolveAuthMethod`. */
    method ResolveAuthMethod() returns (ok: bool)
      modifies this
      ensures settings == old(settings)
      ensures auth == Resolved(settings, settings.provider.authMethods, old(auth))
      ensures ok <==> Select(settings.credentials, settings.provider.authMethods).Selected?
    {
      var supported := NormalizeSupported(settings.provider.authMethods);
      var selection := Choose(settings.credentials, supported);
      if selection.Selected? {
        auth := AuthState(selection.chosen, selection.fallback);
      }
      ok := selection.Selected?;
    }
  }

  /** The auth-method state after negotiating with a list; an error leaves it as it was. */
  function Resolved(c: Settings, advertised: seq<string>, auth: AuthState): AuthState {
    match Select(c.credentials, advertised)
    case Selected(m, fallback) => AuthState(m, fallback)
    case _ => auth
  }

  /** `New` accepts the options just when every check passes, and then holds the defaulted
      settings and the negotiated method. */
  ghost predicate Accepted(options: Settings, env: Environment) {
    && env.provider.Some?
    && var c := WithProfileDefaults(options).(provider := env.provider.value);
       && Select(c.credentials, c.provider.authMethods).Selected?
       && Acceptable(c, env, Select(c.credentials, c.provider.authMethods).chosen)
  }

  method New(options: Settings, env: Environment) returns (r: RP?)
    ensures r != null <==> Accepted(options, env)
    ensures r != null ==> fresh(r)
    ensures r != null ==> r.settings == WithProfileDefaults(options).(provider := env.provider.value)
    ensures r != null ==>
              Select(r.settings.credentials, r.settings.provider.authMethods)
              == Selected(r.auth.chosen, r.auth.fallback)
    ensures r != null ==> Acceptable(r.settings, env, r.auth.chosen)
  {
    var rp := new RP(options);
    rp.ApplyProfileDefaults();
    if env.optionErrors || !env.urlsValid || rp.settings.issuer == "" {
      return null;
    }
    if rp.settings.clientID == "" || rp.settings.scopes.value == [] {
      return null;
    }
    if env.provider.None? {
      return null;
    }
    rp.settings := rp.settings.(provider := env.provider.value);
    var ok := rp.ResolveAuthMethod();
    if !ok {
      return null;
    }
    var c, p := rp.settings, rp.settings.profile.value;
    if c.provider.authorizationEndpoint == "" || (c.requirePAR.value && ParEndpoint(c.provider, rp.auth.chosen) == "") {
      return null;
    }
    if c.signedRequests.explicit && !env.requestMethodKnown {
      return null;
    }
    if p == FAPI2MessageSigning && c.responseMode.explicit && !MentionsJwt(c.responseMode.value) {
      return null;
    }
    if IsFapi(p) && p != PlainFAPI && c.validateIssuer.explicit && !c.validateIssuer.value {
      return null;
    }
    if p == FAPI1Advanced && c.constraint == Dpop {
      return null;
    }
    if !MeetsFapi(c, rp.auth.chosen) || !MeetsConstraint(c) {
      return null;
    }
    return rp;
  }

  /** `shouldUsePAR`. */
  predicate UsesPAR(c: Settings, auth: AuthState) {
    c.requirePAR.value || (ParEndpoint(c.provider, auth.chosen) != "" && c.provider.requiresPAR)
  }

  type Params = map<string, seq<string>>

  /** What one login draws and asks for; `challenge` is the S256 hash of its verifier. */
  datatype LoginRequest = LoginRequest(state: string, nonce: string, challenge: string, extra: Params)

  /** `url.Values.Add` of every extra value. */
  function Added(params: Params, extra: Params): Params {
    map k | k in params.Keys + extra.Keys ::
      (if k in params then params[k] else []) + (if k in extra then extra[k] else [])
  }

  function Joined(words: seq<string>): string {
    if words == [] then "" else if |words| == 1 then words[0] else words[0] + " " + Joined(words[1..])
  }

  function ResponseType(c: Settings): string {
    if TrimSpace(c.responseType.value) != "" then TrimSpace(c.responseType.value) else "code"
  }

  /** The parameters `buildAuthorizationParameters` sets. */
  function FixedParams(c: Settings, l: LoginRequest): Params {
    var fixed: Params := map["response_type" := [ResponseType(c)], "client_id" := [c.clientID],
                             "redirect_uri" := [c.redirectURI], "scope" := [Joined(c.scopes.value)],
                             "state" := [l.state], "nonce" := [l.nonce],
                             "code_challenge" := [l.challenge], "code_challenge_method" := ["S256"]];
    if TrimSpace(c.responseMode.value) != "" then fixed["response_mode" := [c.responseMode.value]] else fixed
  }

  /** `buildAuthorizationParameters`; resources, claims and the like come in `extra`. */
  function AuthorizationParams(c: Settings, l: LoginRequest): Params {
    Added(FixedParams(c, l), l.extra)
  }

  /** What the pushed authorization request and the request-object signer answer. */
  datatype PushAnswer = PushFailed | Pushed(requestURI: string, expiresIn: int)

  /** Parameters added to the authorization endpoint, and what was pushed beforehand; None is an error. */
  datatype Redirect = Redirect(added: Params, pushed: Option<Params>)

  const ASSERTION_PARAMS: set<string> := {"client_assertion_type", "client_assertion"}

  predicate NeedsAssertion(c: Settings, m: AuthMethod) {
    (m == PrivateKeyJWT && c.credentials.key.Some?) || m == SecretJWT
  }

  /** The client authentication `pushAuthorizationRequestInner` sets on the parameters it is given. */
  function Authenticated(c: Settings, m: AuthMethod, params: Params, assertion: string): Params {
    if NeedsAssertion(c, m)
    then params["client_assertion_type" := ["urn:ietf:params:oauth:client-assertion-type:jwt-bearer"]]
               ["client_assertion" := [assertion]]
    else params
  }

  /** The text claims of a request object, and what signs them. */
  type Claims = map<string, string>
  type Signer = Claims -> string

  /** `isStandardRequestObjectClaim`: names a caller's own parameters may not take, in any case. */
  const OBJECT_NAMES: set<string> :=
    {"iss", "aud", "client_id", "response_type", "redirect_uri", "scope", "state", "nonce", "code_challenge",
     "code_challenge_method", "authorization_details", "response_mode", "resource", "grant_id",
     "grant_management_action", "claims", "iat", "nbf", "exp", "jti"}

  predicate IsObjectName(name: string) {
    ToLower(name) in OBJECT_NAMES
  }

  /** `url.Values.Get`. */
  function First(values: seq<string>): string {
    if values == [] then "" else values[0]
  }

  function FixedClaims(c: Settings, l: LoginRequest): Claims {
    map["iss" := c.clientID, "aud" := c.issuer, "client_id" := c.clientID, "response_type" := ResponseType(c),
        "redirect_uri" := c.redirectURI, "scope" := Joined(c.scopes.value), "state" := l.state,
        "code_challenge" := l.challenge, "code_challenge_method" := "S256"]
  }

  function SetClaims(c: Settings, l: LoginRequest): Claims {
    var fixed := FixedClaims(c, l);
    var named := if UsesOpenID(c.scopes.value) && l.nonce != "" then fixed["nonce" := l.nonce] else fixed;
    if TrimSpace(c.responseMode.value) != "" then named["response_mode" := c.responseMode.value] else named
  }

  /** A caller's own parameters, as far as their names are free. */
  function OwnClaims(l: LoginRequest): Claims {
    map k | k in l.extra && !IsObjectName(k) :: First(l.extra[k])
  }

  /** What `buildSignedRequestObject` has signed. */
  function RequestObject(c: Settings, l: LoginRequest): Claims {
    SetClaims(c, l) + OwnClaims(l)
  }

  /** What a push asks for: plainly, or all of it in a request object. */
  function Asked(c: Settings, m: AuthMethod, params: Params, signed: string): Params {
    if !c.signedRequests.value then params
    else if m == TLS then map["request" := [signed], "client_id" := [c.clientID]]
    else map["request" := [signed]]
  }

  /** The redirect `authorizationURL` ends with. `sign` makes the request object out of its
      claims, `assertion` is the client assertion ("" if signing failed). */
  function LoginRedirect(c: Settings, auth: AuthState, l: LoginRequest, sign: Signer, assertion: string,
                         answer: PushAnswer): Option<Redirect> {
    RedirectWith(c, auth, AuthorizationParams(c, l), sign(RequestObject(c, l)), assertion, answer)
  }

  function RedirectWith(c: Settings, auth: AuthState, params: Params, signed: string, assertion: string,
                        answer: PushAnswer): Option<Redirect> {
    if c.signedRequests.value && signed == "" then None
    else if UsesPAR(c, auth) then
      if ParEndpoint(c.provider, auth.chosen) == "" || (NeedsAssertion(c, auth.chosen) && assertion == "") then None
      else if answer.PushFailed? || answer.requestURI == "" then None
      else
        Some(Redirect(map["client_id" := [c.clientID], "request_uri" := [answer.requestURI]],
                      Some(Authenticated(c, auth.chosen, Asked(c, auth.chosen, params, signed), assertion))))
    else if c.signedRequests.value then Some(Redirect(params["request" := [signed]], None))
    else Some(Redirect(params, None))
  }

  // ---- What an authorization request says ----

  /** The parameter comes first with this value; extra values of the same name only follow it. */
  predicate Says(params: Params, extra: Params, name: string, value: string) {
    name in params && params[name] == [value] + (if name in extra then extra[name] else [])
  }

  const REQUEST_NAMES: set<string> := {"response_type", "client_id", "redirect_uri", "scope", "state", "nonce",
                                       "code_challenge", "code_challenge_method"}

  /** An authorization request by parameter name: what was drawn for this login and what was configured. */
  predicate SaysRequested(c: Settings, l: LoginRequest, params: Params) {
    && Says(params, l.extra, "state", l.state) && Says(params, l.extra, "nonce", l.nonce)
    && Says(params, l.extra, "code_challenge", l.challenge) && Says(params, l.extra, "code_challenge_method", "S256")
    && Says(params, l.extra, "client_id", c.clientID) && Says(params, l.extra, "redirect_uri", c.redirectURI)
    && Says(params, l.extra, "scope", Joined(c.scopes.value))
    && Says(params, l.extra, "response_type",
            if Blank(c.responseType.value) then "code" else TrimSpace(c.responseType.value))
  }

  /** And nothing else but a response mode and the extras. */
  predicate SaysItAll(c: Settings, l: LoginRequest, params: Params) {
    && SaysRequested(c, l, params)
    && (!Blank(c.responseMode.value) ==> Says(params, l.extra, "response_mode", c.responseMode.value))
    && params.Keys == REQUEST_NAMES + l.extra.Keys + (if Blank(c.responseMode.value) then {} else {"response_mode"})
    && forall k :: k in l.extra && k !in REQUEST_NAMES && (k == "response_mode" ==> Blank(c.responseMode.value)) ==>
         params[k] == l.extra[k]
  }

  /** What is set, before any extras. */
  predicate Sets(params: Params, name: string, value: string) {
    name in params && params[name] == [value]
  }

  predicate SetsByName(c: Settings, l: LoginRequest, p: Params) {
    && Sets(p, "state", l.state) && Sets(p, "nonce", l.nonce)
    && Sets(p, "code_challenge", l.challenge) && Sets(p, "code_challenge_method", "S256")
    && Sets(p, "client_id", c.clientID) && Sets(p, "redirect_uri", c.redirectURI)
    && Sets(p, "scope", Joined(c.scopes.value))
    && Sets(p, "response_type",
            if Blank(c.responseType.value) then "code" else TrimSpace(c.responseType.value))
    && (!Blank(c.responseMode.value) ==> Sets(p, "response_mode", c.responseMode.value))
  }

  lemma FixedParamsSet(c: Settings, l: LoginRequest)
    ensures SetsByName(c, l, FixedParams(c, l))
    ensures FixedParams(c, l).Keys == REQUEST_NAMES + (if Blank(c.responseMode.value) then {} else {"response_mode"})
  {
    TrimmedAway(c.responseMode.value);
    TrimmedAway(c.responseType.value);
  }

  lemma AddedSays(params: Params, extra: Params)
    ensures forall name, value :: Sets(params, name, value) ==> Says(Added(params, extra), extra, name, value)
    ensures Added(params, extra).Keys == params.Keys + extra.Keys
    ensures forall k :: k in extra && k !in params ==> Added(params, extra)[k] == extra[k]
  {}

  lemma RequestSaysItAll(c: Settings, l: LoginRequest)
    ensures SaysItAll(c, l, AuthorizationParams(c, l))
  {
    FixedParamsSet(c, l);
    AddedSays(FixedParams(c, l), l.extra);
  }

  /** Scopes are joined by single spaces. */
  lemma {:induction false} JoinedByOne(words: seq<string>, more: seq<string>)
    ensures Joined([]) == "" && forall w :: Joined([w]) == w
    ensures words != [] && more != [] ==> Joined(words + more) == Joined(words) + " " + Joined(more)
  {
    if words != [] && more != [] {
      assert (words + more)[1..] == words[1..] + more;
      if |words| > 1 {
        JoinedByOne(words[1..], more);
      }
    }
  }

  /** The alias for mutual TLS counts just for clients that authenticate with a certificate, or,
      at the token endpoint, are constrained to one. */
  lemma EndpointsJustWhen(c: Settings, p: Provider, m: AuthMethod)
    ensures m in {TLS, SelfSignedTLS} && p.mtlsParEndpoint != "" ==> ParEndpoint(p, m) == p.mtlsParEndpoint
    ensures m !in {TLS, SelfSignedTLS} || p.mtlsParEndpoint == "" ==> ParEndpoint(p, m) == p.parEndpoint
    ensures (m in {TLS, SelfSignedTLS} || c.constraint == Mtls) && p.mtlsTokenEndpoint != "" ==>
              TokenEndpoint(c, p, m) == p.mtlsTokenEndpoint
    ensures (m !in {TLS, SelfSignedTLS} && c.constraint != Mtls) || p.mtlsTokenEndpoint == "" ==>
              TokenEndpoint(c, p, m) == p.tokenEndpoint
  {}

  // ---- What a request object says ----

  /** The claim is there with this value. */
  predicate Claimed(claims: Claims, name: string, value: string) {
    name in claims && claims[name] == value
  }

  predicate ClaimedByName(c: Settings, l: LoginRequest, claims: Claims) {
    && Claimed(claims, "iss", c.clientID) && Claimed(claims, "aud", c.issuer)
    && Claimed(claims, "state", l.state)
    && Claimed(claims, "code_challenge", l.challenge) && Claimed(claims, "code_challenge_method", "S256")
    && Claimed(claims, "client_id", c.clientID) && Claimed(claims, "redirect_uri", c.redirectURI)
    && Claimed(claims, "scope", Joined(c.scopes.value))
    && Claimed(claims, "response_type",
               if Blank(c.responseType.value) then "code" else TrimSpace(c.responseType.value))
  }

  predicate SetByName(c: Settings, l: LoginRequest, claims: Claims) {
    && ClaimedByName(c, l, claims)
    && (UsesOpenID(c.scopes.value) && l.nonce != "" ==> Claimed(claims, "nonce", l.nonce))
    && (!Blank(c.responseMode.value) ==> Claimed(claims, "response_mode", c.responseMode.value))
  }

  function NamesSet(c: Settings, l: LoginRequest): set<string> {
    REQUEST_NAMES + {"iss", "aud"}
    - (if UsesOpenID(c.scopes.value) && l.nonce != "" then {} else {"nonce"})
    + (if Blank(c.responseMode.value) then {} else {"response_mode"})
  }

  /** A request object by claim name. Unlike the plain parameters it has the nonce just with
      OpenID, and a caller's own parameters neither add to nor replace what is set, in
      whatever case their names are written. */
  ghost predicate ObjectSaysItAll(c: Settings, l: LoginRequest, claims: Claims) {
    && SetByName(c, l, claims)
    && (forall name :: name in claims && ToLower(name) in OBJECT_NAMES ==> name in NamesSet(c, l))
    && (forall name :: ToLower(name) !in OBJECT_NAMES ==>
          && (name in claims <==> name in l.extra)
          && (name in claims && l.extra[name] != [] ==> claims[name] == l.extra[name][0]))
  }

  /** The names taken: what is set, what is structured, and what the signer adds. */
  lemma NamesTaken()
    ensures REQUEST_NAMES + {"iss", "aud", "response_mode"} <= OBJECT_NAMES
    ensures OBJECT_NAMES - REQUEST_NAMES - {"iss", "aud", "response_mode"}
            == {"authorization_details", "resource", "grant_id", "grant_management_action", "claims"}
               + {"iat", "nbf", "exp", "jti"}
  {}

  lemma ShortNames(name: string)
    requires name in {"iss", "aud", "scope", "state", "nonce"}
    ensures ToLower(name) == name
  {
    NormalFormStays(name);
  }

  lemma LongNames(name: string)
    requires name in {"client_id", "redirect_uri", "code_challenge"}
    ensures ToLower(name) == name
  {
    NormalFormStays(name);
  }

  lemma LongestNames(name: string)
    requires name in {"response_type", "response_mode", "code_challenge_method"}
    ensures ToLower(name) == name
  {
    NormalFormStays(name);
  }

  lemma LowerCase(name: string)
    requires name in REQUEST_NAMES + {"iss", "aud", "response_mode"}
    ensures ToLower(name) == name
  {
    if name in {"iss", "aud", "scope", "state", "nonce"} {
      ShortNames(name);
    } else if name in {"client_id", "redirect_uri", "code_challenge"} {
      LongNames(name);
    } else {
      LongestNames(name);
    }
  }

  /** The names set are lower case as they stand. */
  lemma NamesAreFolded(c: Settings, l: LoginRequest, name: string)
    requires name in NamesSet(c, l)
    ensures IsObjectName(name)
  {
    LowerCase(name);
  }

  lemma FixedClaimsSay(c: Settings, l: LoginRequest)
    ensures ClaimedByName(c, l, FixedClaims(c, l))
    ensures FixedClaims(c, l).Keys == REQUEST_NAMES - {"nonce"} + {"iss", "aud"}
  {
    TrimmedAway(c.responseType.value);
  }

  lemma OneMoreClaim(c: Settings, l: LoginRequest, claims: Claims, name: string, value: string)
    requires ClaimedByName(c, l, claims) && name in {"nonce", "response_mode"}
    ensures ClaimedByName(c, l, claims[name := value])
  {}

  lemma SetClaimsSay(c: Settings, l: LoginRequest)
    ensures SetByName(c, l, SetClaims(c, l)) && SetClaims(c, l).Keys == NamesSet(c, l)
  {
    TrimmedAway(c.responseMode.value);
    var fixed := FixedClaims(c, l);
    FixedClaimsSay(c, l);
    OneMoreClaim(c, l, fixed, "nonce", l.nonce);
    OneMoreClaim(c, l, fixed, "response_mode", c.responseMode.value);
    OneMoreClaim(c, l, fixed["nonce" := l.nonce], "response_mode", c.responseMode.value);
  }

  lemma Beside(c: Settings, l: LoginRequest, claims: Claims, own: Claims)
    requires SetByName(c, l, claims) && claims.Keys !! own.Keys
    ensures SetByName(c, l, claims + own)
  {}

  lemma ObjectSays(c: Settings, l: LoginRequest)
    ensures ObjectSaysItAll(c, l, RequestObject(c, l))
  {
    forall name | name in NamesSet(c, l) ensures IsObjectName(name) {
      NamesAreFolded(c, l, name);
    }
    SetClaimsSay(c, l);
    Beside(c, l, SetClaims(c, l), OwnClaims(l));
  }

  lemma SaidAndClaimed(c: Settings, l: LoginRequest, params: Params, claims: Claims, name: string)
    requires SetsByName(c, l, params) && SetByName(c, l, claims)
    requires name in claims && name in NamesSet(c, l) - {"iss", "aud"}
    ensures Sets(params, name, claims[name])
  {}

  lemma SetAgrees(c: Settings, l: LoginRequest, name: string)
    requires name in SetClaims(c, l) && name != "iss" && name != "aud"
    ensures Says(AuthorizationParams(c, l), l.extra, name, SetClaims(c, l)[name])
  {
    FixedParamsSet(c, l);
    SetClaimsSay(c, l);
    SaidAndClaimed(c, l, FixedParams(c, l), SetClaims(c, l), name);
    AddedSays(FixedParams(c, l), l.extra);
  }

  lemma OwnAgrees(c: Settings, l: LoginRequest, name: string)
    requires name in l.extra && !IsObjectName(name)
    ensures name in AuthorizationParams(c, l) && AuthorizationParams(c, l)[name] == l.extra[name]
  {
    FixedParamsSet(c, l);
    AddedSays(FixedParams(c, l), l.extra);
    if name in FixedParams(c, l) {
      LowerCase(name);
    }
  }

  /** What is signed is what is asked for plainly: no claim but the issuer and the audience
      differs from the first value of the parameter of its name. */
  lemma ObjectAgreesWithParams(c: Settings, l: LoginRequest, name: string)
    requires name in RequestObject(c, l) && name != "iss" && name != "aud"
    requires name in l.extra ==> l.extra[name] != []
    ensures name in AuthorizationParams(c, l) && AuthorizationParams(c, l)[name] != []
    ensures RequestObject(c, l)[name] == AuthorizationParams(c, l)[name][0]
  {
    if name in OwnClaims(l) {
      OwnAgrees(c, l, name);
    } else {
      SetAgrees(c, l, name);
    }
  }

  /** Parameters of other names do not change what a request says. */
  lemma OtherNames(c: Settings, l: LoginRequest, params: Params, name: string, values: seq<string>)
    requires SaysRequested(c, l, params) && name in {"request"} + ASSERTION_PARAMS
    ensures SaysRequested(c, l, params[name := values])
  {}

  lemma AuthenticationSays(c: Settings, l: LoginRequest, m: AuthMethod, params: Params, assertion: string)
    requires SaysRequested(c, l, params)
    ensures SaysRequested(c, l, Authenticated(c, m, params, assertion))
  {
    var bearer := "urn:ietf:params:oauth:client-assertion-type:jwt-bearer";
    OtherNames(c, l, params, "client_assertion_type", [bearer]);
    OtherNames(c, l, params["client_assertion_type" := [bearer]], "client_assertion", [assertion]);
  }

  /** Where the parameters of a login that yields a redirect are: in the push or the redirect itself. */
  function PlainPart(r: Redirect): Params {
    if r.pushed.Some? then r.pushed.value else r.added
  }

  lemma RedirectSays(c: Settings, auth: AuthState, l: LoginRequest, params: Params, signed: string, assertion: string,
                     answer: PushAnswer)
    requires SaysItAll(c, l, params) && RedirectWith(c, auth, params, signed, assertion, answer).Some?
    ensures var r := RedirectWith(c, auth, params, signed, assertion, answer).value;
            && (r.pushed.None? || !c.signedRequests.value ==> SaysRequested(c, l, PlainPart(r)))
            && (r.pushed.None? && !c.signedRequests.value ==> SaysItAll(c, l, r.added))
  {
    if UsesPAR(c, auth) {
      AuthenticationSays(c, l, auth.chosen, params, assertion);
    } else {
      OtherNames(c, l, params, "request", [signed]);
    }
  }

  /** The browser carries nothing but the client id and the reference to what was pushed. */
  predicate CarriesReference(c: Settings, answer: PushAnswer, r: Redirect) {
    && answer.Pushed? && answer.requestURI != ""
    && r.added == map["client_id" := [c.clientID], "request_uri" := [answer.requestURI]]
  }

  lemma RedirectSigns(c: Settings, auth: AuthState, params: Params, signed: string, assertion: string,
                      answer: PushAnswer)
    requires RedirectWith(c, auth, params, signed, assertion, answer).Some?
    ensures var r := RedirectWith(c, auth, params, signed, assertion, answer).value;
            && (r.pushed.Some? <==>
                  c.requirePAR.value || (c.provider.requiresPAR && ParEndpoint(c.provider, auth.chosen) != ""))
            && (c.signedRequests.value ==> Sets(PlainPart(r), "request", signed) && signed != "")
            && (r.pushed.Some? ==> CarriesReference(c, answer, r))
  {}

  /** A login is pushed just when the client or the provider requires it. What it asks for
      plainly, pushed or not, is everything; a request object that says it all comes with it
      just when requests are signed, and stands for the rest just when it is pushed. */
  lemma RedirectSaysItAll(c: Settings, auth: AuthState, l: LoginRequest, sign: Signer, assertion: string,
                          answer: PushAnswer)
    returns (claims: Claims)
    requires LoginRedirect(c, auth, l, sign, assertion, answer).Some?
    ensures ObjectSaysItAll(c, l, claims)
    ensures var r := LoginRedirect(c, auth, l, sign, assertion, answer).value;
            && (r.pushed.Some? <==>
                  c.requirePAR.value || (c.provider.requiresPAR && ParEndpoint(c.provider, auth.chosen) != ""))
            && (r.pushed.None? || !c.signedRequests.value ==> SaysRequested(c, l, PlainPart(r)))
            && (r.pushed.None? && !c.signedRequests.value ==> SaysItAll(c, l, r.added))
            && (c.signedRequests.value ==> Sets(PlainPart(r), "request", sign(claims)) && sign(claims) != "")
            && (r.pushed.Some? ==> CarriesReference(c, answer, r))
  {
    claims := RequestObject(c, l);
    ObjectSays(c, l);
    RequestSaysItAll(c, l);
    RedirectSays(c, auth, l, AuthorizationParams(c, l), sign(claims), assertion, answer);
    RedirectSigns(c, auth, AuthorizationParams(c, l), sign(claims), assertion, answer);
  }

  /** A login fails just on a signature, a push or an endpoint that is needed and cannot be had. */
  lemma RedirectFailsJustWhen(c: Settings, auth: AuthState, l: LoginRequest, sign: Signer, assertion: string,
                              answer: PushAnswer)
    ensures var endpoint := ParEndpoint(c.provider, auth.chosen);
            LoginRedirect(c, auth, l, sign, assertion, answer).None? <==>
              || (c.signedRequests.value && sign(RequestObject(c, l)) == "")
              || ((c.requirePAR.value || (c.provider.requiresPAR && endpoint != ""))
                  && (|| endpoint == "" || answer.PushFailed? || answer.requestURI == ""
                      || (assertion == "" && (auth.chosen == SecretJWT
                                              || (auth.chosen == PrivateKeyJWT && c.credentials.key.Some?)))))
  {}

  // ---- What `New` makes of the options, and what it accepts ----

  /** The profiles' defaults, setting by setting: an explicit choice always stands. */
  lemma DefaultsAre(c: Settings)
    ensures var d, p := WithProfileDefaults(c), c.profile.value;
            var fapi := c.profile.explicit && p in {FAPI1Advanced, FAPI2Security, FAPI2MessageSigning};
            var fapi2 := c.profile.explicit && p in {FAPI2Security, FAPI2MessageSigning};
            && d.scopes.value == (if c.scopes.explicit then c.scopes.value else if fapi then ["openid"]
                                  else if c.profile.explicit && p == OAuth2 then WithoutOpenID(c.scopes.value)
                                  else c.scopes.value)
            && d.signedRequests.value == (if fapi && !c.signedRequests.explicit then true else c.signedRequests.value)
            && d.requirePAR.value == (if fapi2 && !c.requirePAR.explicit then true else c.requirePAR.value)
            && d.responseMode.value == (if c.profile.explicit && p == FAPI2MessageSigning && !c.responseMode.explicit
                                        then "jwt" else c.responseMode.value)
            && d.responseType.value == (if c.profile.explicit && p == FAPI1Advanced && !c.responseType.explicit
                                        then "code id_token" else c.responseType.value)
            && d.validateIssuer.value == (if c.profile.explicit && p !in {OIDC, OAuth2} && !c.validateIssuer.explicit
                                          then true else c.validateIssuer.value)
    ensures var d := WithProfileDefaults(c);
            d == c.(scopes := c.scopes.(value := d.scopes.value),
                    signedRequests := c.signedRequests.(value := d.signedRequests.value),
                    requirePAR := c.requirePAR.(value := d.requirePAR.value),
                    responseMode := c.responseMode.(value := d.responseMode.value),
                    responseType := c.responseType.(value := d.responseType.value),
                    validateIssuer := c.validateIssuer.(value := d.validateIssuer.value))
  {}

  /** A scope is OpenID's without regard to case or surrounding white space. */
  lemma OpenIDScope(left: string, core: string, right: string)
    requires Blank(left) && Blank(right) && (core != "" ==> !IsSpace(core[0]) && !IsSpace(core[|core| - 1]))
    ensures IsOpenID(left + core + right) <==> ToLower(core) == "openid"
    ensures IsOpenID("OpenID") && !IsOpenID("profile")
  {
    TrimmedToCore(left, core, right);
    TrimmedToCore("", "OpenID", "");
    TrimmedToCore("", "profile", "");
    assert "" + "OpenID" + "" == "OpenID" && "" + "profile" + "" == "profile";
    assert ToLower("OpenID") == "openid";
    assert |ToLower("profile")| == 7;
  }

  /** Dropping it drops nothing else. */
  lemma {:induction false} OnlyOpenIDDropped(scopes: seq<string>)
    ensures forall scope :: multiset(WithoutOpenID(scopes))[scope]
                            == if IsOpenID(scope) then 0 else multiset(scopes)[scope]
  {
    if scopes != [] {
      OnlyOpenIDDropped(scopes[1..]);
      assert scopes == [scopes[0]] + scopes[1..];
    }
  }

  /** A response mode asks for JWTs just when it says so, in any case. */
  lemma JwtModes(left: string, core: string, right: string)
    requires ToLower(core) == "jwt"
    ensures MentionsJwt(left + core + right) && !MentionsJwt("query") && !MentionsJwt("")
  {
    var mode := left + core + right;
    assert mode[|left|] == core[0] && mode[|left| + 1] == core[1] && mode[|left| + 2] == core[2];
    assert LowerChar(core[0]) == ToLower(core)[0] && LowerChar(core[1]) == ToLower(core)[1];
    assert LowerChar(core[2]) == ToLower(core)[2];
    assert forall i :: 0 <= i < 5 ==> LowerChar("query"[i]) != 'j';
  }

  /** What a FAPI profile asks of the configuration, in plain terms. */
  predicate SafeForFapi(c: Settings, m: AuthMethod) {
    && m in {PrivateKeyJWT, TLS, SelfSignedTLS}
    && c.constraint in {Dpop, Mtls}
    && (c.requirePAR.value || (c.profile.value !in {FAPI2Security, FAPI2MessageSigning} && c.signedRequests.value))
    && (c.credentials.key.Some? ==>
          && ToLower(TrimSpace(c.credentials.key.value.signingAlg)) in {"ps256", "es256"}
          && (c.credentials.key.value.rsaBits.Some? ==> 2048 <= c.credentials.key.value.rsaBits.value))
    && (c.profile.value == FAPI1Advanced ==> c.constraint == Mtls)
    && (c.profile.value == FAPI2MessageSigning && c.responseMode.explicit ==> MentionsJwt(c.responseMode.value))
    && (c.profile.value != PlainFAPI && c.validateIssuer.explicit ==> c.validateIssuer.value)
  }

  /** `New` accepts just a complete configuration that can keep its own promises: the keys its
      constraint takes, the endpoints its flow takes, and under FAPI what the profile asks. */
  lemma AcceptedJustWhen(options: Settings, env: Environment)
    requires env.provider.Some?
    ensures var c := WithProfileDefaults(options).(provider := env.provider.value);
            var m := Select(c.credentials, c.provider.authMethods);
            Accepted(options, env) <==>
              && m.Selected? && !env.optionErrors && env.urlsValid
              && c.issuer != "" && c.clientID != "" && c.scopes.value != [] && c.provider.authorizationEndpoint != ""
              && (c.requirePAR.value ==> ParEndpoint(c.provider, m.chosen) != "")
              && (c.signedRequests.explicit ==> env.requestMethodKnown)
              && (c.constraint == Dpop ==> c.credentials.key.Some? && c.profile.value != FAPI1Advanced)
              && (c.constraint == Mtls ==> c.credentials.key.Some? && c.credentials.key.value.hasCertificate)
              && (c.profile.value !in {OIDC, OAuth2} ==> SafeForFapi(c, m.chosen))
  {}
}
