/** The authorization callback: which response is accepted, whose identity it carries, and
    what the code exchange must bring (rp/callback.go, rp/jarm.go, rp/idtoken.go). */
module Callbacks {
  import opened Correlations
  import opened Text
  import opened AuthMethods
  import opened TokenJson
  import opened DpopRetry
  import opened TokenGrant
  import opened RelyingParties

  /** The callback's parameters, trimmed. */
  datatype CallbackParams = CallbackParams(code: string, state: string, iss: string, idToken: string, error: string,
                                           response: string)

  datatype JarmClaims = JarmClaims(iss: string, aud: seq<string>, exp: Option<int>, iat: Option<int>, code: string,
                                   state: string, error: string)

  datatype IdClaims = IdClaims(issuer: string, subject: string, aud: seq<string>, exp: Option<int>, iat: Option<int>,
                               nonce: string, azp: string)

  /** A token after decryption, algorithm policy and signature check: refused, signed by a
      key of the provider, or carrying the algorithm "none". */
  datatype Verified<C> = Refused | Signed(claims: C) | Unsecured(claims: C)

  /** `time.Unix(s, 0)`. */
  function FromUnix(s: int): Time {
    (s + EPOCH_SECONDS) * SECOND
  }

  predicate IsJarm(p: CallbackParams) {
    TrimSpace(p.response) != ""
  }

  /** `validateJARMClaims`. */
  predicate ValidJarm(c: Settings, j: JarmClaims, now: Time) {
    && j.iss != "" && c.clientID in j.aud
    && j.exp.Some? && now <= FromUnix(j.exp.value) + c.clockSkew
    && (j.iat.Some? ==> FromUnix(j.iat.value) <= now + c.clockSkew)
  }

  /** The code, state and issuer of an authorization response. */
  datatype AuthzResponse = AuthzResponse(code: string, state: string, iss: string)

  /** `parseAuthorizationResponse`: a JWT response mode never lets a plain response through.
      None is an error, an authorization error among them. */
  function ParseResponse(c: Settings, p: CallbackParams, jarm: Verified<JarmClaims>, now: Time): Option<AuthzResponse> {
    if MentionsJwt(c.responseMode.value) && !IsJarm(p) then None
    else if IsJarm(p) then
      if jarm.Signed? && ValidJarm(c, jarm.claims, now) && jarm.claims.error == ""
      then Some(AuthzResponse(jarm.claims.code, jarm.claims.state, jarm.claims.iss)) else None
    else if p.error != "" then None
    else Some(AuthzResponse(p.code, p.state, p.iss))
  }

  /** `flowIdentity`. */
  datatype Identity = Identity(issuer: string, clientID: string)

  /** `validateIDTokenClaimsAs`. */
  predicate ValidClaims(c: Settings, t: IdClaims, expectedNonce: string, id: Identity, now: Time) {
    && t.issuer == id.issuer
    && t.subject != ""
    && id.clientID in t.aud
    && t.exp.Some? && t.iat.Some?
    && now <= FromUnix(t.exp.value) + c.clockSkew
    && FromUnix(t.iat.value) <= now + c.clockSkew
    && (IsFapi(c.profile.value) ==> now - c.clockSkew <= FromUnix(t.iat.value))
    && (expectedNonce != "" ==> t.nonce == expectedNonce)
    && (|t.aud| > 1 ==> t.azp == id.clientID)
  }

  /** `validateIDTokenAs`: an unsecured token is held against the relying party's own identity. */
  predicate AcceptsIdToken(c: Settings, v: Verified<IdClaims>, expectedNonce: string, id: Identity, now: Time) {
    match v
    case Refused => false
    case Signed(t) => ValidClaims(c, t, expectedNonce, id, now)
    case Unsecured(t) =>
      && !IsFapi(c.profile.value) && c.allowUnsecuredIDTokens
      && ValidClaims(c, t, expectedNonce, Identity(c.issuer, c.clientID), now)
  }

  /** The ID token in an authorization response, whether its c_hash and s_hash match, and the
      clock reading its age is judged by. */
  datatype FrontChannel = FrontChannel(token: Verified<IdClaims>, hashesMatch: bool, agedAt: Time)

  /** `validateAuthorizationResponseIDTokenAs`. */
  predicate AcceptsFrontChannel(c: Settings, f: FrontChannel, expectedNonce: string, id: Identity, now: Time) {
    && AcceptsIdToken(c, f.token, expectedNonce, id, now)
    && f.hashesMatch
    && f.agedAt - c.clockSkew <= FromUnix(f.token.claims.iat.value)
  }

  function ExpectedIssuer(c: Settings, data: Correlation): string {
    if data.issuer != "" then data.issuer else c.issuer
  }

  function ClientIDFor(c: Settings, data: Correlation): string {
    if data.clientID != "" then data.clientID else c.clientID
  }

  /** The checks between consuming the correlation and exchanging the code; None is an error. */
  function CheckResponse(c: Settings, p: CallbackParams, r: AuthzResponse, data: Correlation, front: FrontChannel,
                         now: Time): Option<Identity> {
    var expected := ExpectedIssuer(c, data);
    var clientID := ClientIDFor(c, data);
    if p.idToken != "" && !AcceptsFrontChannel(c, front, data.nonce, Identity(c.issuer, clientID), now) then None
    else
      var iss := if p.idToken != "" && r.iss == "" then front.token.claims.issuer else r.iss;
      if IsJarm(p) && iss != expected then None
      else if c.validateIssuer.value && (iss == "" || iss != expected) then None
      else Some(Identity(expected, clientID))
  }

  /** Mixing up providers: a response accepted for one transaction is refused for every
      transaction with another issuer just when it is a signed response or issuer
      validation is on. A plain response is otherwise good for any of them. */
  lemma ResponseServesOneIssuer(c: Settings, p: CallbackParams, jarm: Verified<JarmClaims>, at: Time,
                                front: FrontChannel, data: Correlation, other: Correlation, now: Time)
    requires ParseResponse(c, p, jarm, at).Some?
    requires CheckResponse(c, p, ParseResponse(c, p, jarm, at).value, data, front, now).Some?
    requires ExpectedIssuer(c, other) != ExpectedIssuer(c, data)
    requires p.idToken == "" || (other.nonce == data.nonce && ClientIDFor(c, other) == ClientIDFor(c, data))
    ensures IsJarm(p) ==> jarm.Signed? && jarm.claims.iss == ExpectedIssuer(c, data)
    ensures CheckResponse(c, p, ParseResponse(c, p, jarm, at).value, other, front, now).None? <==>
              IsJarm(p) || c.validateIssuer.value
  {}

  function WithoutTrailingSlashes(s: string): string {
    if s != "" && s[|s| - 1] == '/' then WithoutTrailingSlashes(s[..|s| - 1]) else s
  }

  /** `oauthOnlyProviderMetadata`: endpoints by convention, and no word on methods. */
  function ConventionalProvider(issuer: string): Provider {
    var base := WithoutTrailingSlashes(TrimSpace(issuer));
    Provider(issuer, base + "/authorize", base + "/token", base + "/par", base + "/mtls/token", "", [], false)
  }

  /** `discoverProviderMetadata`. `found` is the document an OpenID provider publishes, if it
      can be had; one that names no issuer or no authorization endpoint is refused. */
  function Discovered(c: Settings, issuer: string, found: Option<Provider>): Option<Provider> {
    if !UsesOpenID(c.scopes.value) then Some(ConventionalProvider(issuer))
    else if found.Some? && found.value.issuer != "" && found.value.authorizationEndpoint != "" then found
    else None
  }

  /** `providerForCallback`: the known provider, or a newly discovered one if it names no issuer. */
  function ProviderForCallback(c: Settings, issuer: string, found: Option<Provider>): Option<Provider> {
    if c.provider.issuer != "" then Some(c.provider) else Discovered(c, issuer, found)
  }

  /** The negotiation it ends with; None is an error. */
  function Negotiated(c: Settings, p: Provider, auth: AuthState): Option<AuthState> {
    if p.authMethods == [] then Some(auth)
    else
      match Select(c.credentials, p.authMethods)
      case Selected(m, fallback) => Some(AuthState(m, fallback))
      case _ => None
  }

  /** The user information fetched after a login, when the provider has an endpoint for it. */
  datatype UserInfo = NoEndpoint | UserInfoFailed | UserInfoFor(subject: string)

  datatype Login = Login(subject: string, token: Token, issuer: string)

  /** What a granted token must still pass; None is an error. */
  function FinishLogin(c: Settings, t: Token, data: Correlation, id: Identity, idToken: Verified<IdClaims>,
                       info: UserInfo, now: Time): Option<Login> {
    if t.accessToken == "" then None
    else if !UsesOpenID(c.scopes.value) then Some(Login("", t, id.issuer))
    else if t.idToken == "" || !AcceptsIdToken(c, idToken, data.nonce, id, now) then None
    else if IsFapi(c.profile.value) then Some(Login(idToken.claims.subject, t, id.issuer))
    else
      match info
      case UserInfoFailed => None
      case UserInfoFor(subject) =>
        if subject == idToken.claims.subject then Some(Login(idToken.claims.subject, t, id.issuer)) else None
      case NoEndpoint => Some(Login(idToken.claims.subject, t, id.issuer))
  }

  /** A login that used an ID token used one issued for this very login: it has the nonce,
      the issuer and the audience of the transaction, and it is current; under FAPI it is
      signed and recent. */
  lemma LoginCarriesNonce(c: Settings, t: Token, data: Correlation, id: Identity, idToken: Verified<IdClaims>,
                          info: UserInfo, now: Time)
    requires FinishLogin(c, t, data, id, idToken, info, now).Some? && UsesOpenID(c.scopes.value)
    ensures !idToken.Refused?
    ensures data.nonce != "" ==> idToken.claims.nonce == data.nonce
    ensures idToken.Signed? ==> idToken.claims.issuer == id.issuer && id.clientID in idToken.claims.aud
    ensures idToken.Signed? && idToken.claims.aud != [id.clientID] ==>
              |idToken.claims.aud| > 1 && idToken.claims.azp == id.clientID
    ensures idToken.Unsecured? ==> idToken.claims.issuer == c.issuer && c.clientID in idToken.claims.aud
    ensures idToken.Unsecured? && idToken.claims.aud != [c.clientID] ==>
              |idToken.claims.aud| > 1 && idToken.claims.azp == c.clientID
    ensures idToken.claims.exp.Some? && now <= FromUnix(idToken.claims.exp.value) + c.clockSkew
    ensures IsFapi(c.profile.value) ==>
              idToken.Signed? && now - c.clockSkew <= FromUnix(idToken.claims.iat.value) <= now + c.clockSkew
    ensures idToken.claims.subject != ""
            && FinishLogin(c, t, data, id, idToken, info, now).value.subject == idToken.claims.subject
  {}

  // ---- Exactly which callbacks end in a login ----

  lemma FromUnixIs(s: int)
    ensures Unix(FromUnix(s)) == s && FromUnix(s) % SECOND == 0
  {}

  /** Issued for the transaction, to the client, and current; `recent` asks for one just issued. */
  predicate GoodToken(t: IdClaims, issuer: string, clientID: string, nonce: string, skew: int, recent: bool,
                      now: Time) {
    && t.issuer == issuer && t.subject != ""
    && clientID in t.aud && (|t.aud| == 1 || t.azp == clientID)
    && t.exp.Some? && t.iat.Some?
    && FromUnix(t.iat.value) - skew <= now <= FromUnix(t.exp.value) + skew
    && (recent ==> now <= FromUnix(t.iat.value) + skew)
    && (nonce == "" || t.nonce == nonce)
  }

  /** Signed, it is held against the identity of the transaction; unsecured, where that is
      allowed at all, against the relying party's own. */
  predicate GoodVerified(c: Settings, v: Verified<IdClaims>, nonce: string, id: Identity, now: Time) {
    var fapi := IsFapi(c.profile.value);
    || (v.Signed? && GoodToken(v.claims, id.issuer, id.clientID, nonce, c.clockSkew, fapi, now))
    || (v.Unsecured? && c.allowUnsecuredIDTokens && !fapi
        && GoodToken(v.claims, c.issuer, c.clientID, nonce, c.clockSkew, false, now))
  }

  lemma AcceptsJustWhenGood(c: Settings, v: Verified<IdClaims>, nonce: string, id: Identity, now: Time)
    ensures AcceptsIdToken(c, v, nonce, id, now) <==> GoodVerified(c, v, nonce, id, now)
  {}

  /** A granted token ends in a login just when there is an access token, and in a flow with
      OpenID a good ID token, and outside FAPI no user information or that of the same subject. */
  lemma LoginJustWhen(c: Settings, t: Token, data: Correlation, id: Identity, idToken: Verified<IdClaims>,
                      info: UserInfo, now: Time)
    ensures FinishLogin(c, t, data, id, idToken, info, now).Some? <==>
              && t.accessToken != ""
              && (UsesOpenID(c.scopes.value) ==>
                    && t.idToken != "" && GoodVerified(c, idToken, data.nonce, id, now)
                    && (!IsFapi(c.profile.value) ==> info == NoEndpoint || info == UserInfoFor(idToken.claims.subject)))
    ensures FinishLogin(c, t, data, id, idToken, info, now).Some? ==>
              FinishLogin(c, t, data, id, idToken, info, now).value
              == Login(if UsesOpenID(c.scopes.value) then idToken.claims.subject else "", t, id.issuer)
  {
    AcceptsJustWhenGood(c, idToken, data.nonce, id, now);
  }

  /** A plain response counts just where no JWT response was asked for and it brings no error. */
  lemma PlainResponseJustWhen(c: Settings, p: CallbackParams, jarm: Verified<JarmClaims>, now: Time)
    requires Blank(p.response)
    ensures ParseResponse(c, p, jarm, now) ==
              if MentionsJwt(c.responseMode.value) || p.error != "" then None
              else Some(AuthzResponse(p.code, p.state, p.iss))
  {
    TrimmedAway(p.response);
  }

  /** A JWT response counts just when it is signed, names its issuer and this client, has not
      expired, was not issued in the future, and brings no error. */
  lemma JwtResponseJustWhen(c: Settings, p: CallbackParams, jarm: Verified<JarmClaims>, now: Time)
    requires !Blank(p.response)
    ensures ParseResponse(c, p, jarm, now).Some? <==>
              && jarm.Signed? && jarm.claims.iss != "" && c.clientID in jarm.claims.aud && jarm.claims.error == ""
              && jarm.claims.exp.Some? && now - c.clockSkew <= FromUnix(jarm.claims.exp.value)
              && (jarm.claims.iat.None? || FromUnix(jarm.claims.iat.value) - c.clockSkew <= now)
    ensures ParseResponse(c, p, jarm, now).Some? ==>
              ParseResponse(c, p, jarm, now).value
              == AuthzResponse(jarm.claims.code, jarm.claims.state, jarm.claims.iss)
  {
    TrimmedAway(p.response);
  }

  /** The issuer a response names, by itself or through the ID token that came with it. */
  function NamedIssuer(p: CallbackParams, r: AuthzResponse, front: FrontChannel): string
    requires p.idToken != "" ==> !front.token.Refused?
  {
    if r.iss == "" && p.idToken != "" then front.token.claims.issuer else r.iss
  }

  /** The ID token in the response, if there is one: good for the relying party's issuer and the
      transaction's client, recent, and for this code and state. */
  predicate GoodFront(c: Settings, p: CallbackParams, data: Correlation, front: FrontChannel, now: Time) {
    p.idToken != "" ==>
      && GoodVerified(c, front.token, data.nonce, Identity(c.issuer, ClientIDFor(c, data)), now)
      && front.hashesMatch && front.agedAt <= FromUnix(front.token.claims.iat.value) + c.clockSkew
  }

  /** The code exchange goes ahead just when the front channel is good and the issuer named is
      the transaction's, unless it is a plain response and validation is off. */
  lemma ProceedsJustWhen(c: Settings, p: CallbackParams, r: AuthzResponse, data: Correlation, front: FrontChannel,
                         now: Time)
    ensures CheckResponse(c, p, r, data, front, now).Some? <==>
              && GoodFront(c, p, data, front, now)
              && (!Blank(p.response) ==> NamedIssuer(p, r, front) == ExpectedIssuer(c, data))
              && (c.validateIssuer.value ==>
                    NamedIssuer(p, r, front) == ExpectedIssuer(c, data) && ExpectedIssuer(c, data) != "")
    ensures CheckResponse(c, p, r, data, front, now).Some? ==>
              CheckResponse(c, p, r, data, front, now).value
              == Identity(if data.issuer != "" then data.issuer else c.issuer,
                          if data.clientID != "" then data.clientID else c.clientID)
  {
    TrimmedAway(p.response);
    AcceptsJustWhenGood(c, front.token, data.nonce, Identity(c.issuer, ClientIDFor(c, data)), now);
  }

  /** Where a callback gets its provider from: from construction, if that names its issuer, else
      with OpenID from a document that names its issuer and its authorization endpoint, and
      without OpenID by convention. */
  lemma ProviderJustWhen(c: Settings, issuer: string, found: Option<Provider>)
    ensures c.provider.issuer != "" ==> ProviderForCallback(c, issuer, found) == Some(c.provider)
    ensures c.provider.issuer == "" && UsesOpenID(c.scopes.value) ==>
              && (ProviderForCallback(c, issuer, found).Some? <==>
                    found.Some? && found.value.issuer != "" && found.value.authorizationEndpoint != "")
              && (ProviderForCallback(c, issuer, found).Some? ==> ProviderForCallback(c, issuer, found) == found)
    ensures c.provider.issuer == "" && !UsesOpenID(c.scopes.value) ==>
              ProviderForCallback(c, issuer, found) == Some(ConventionalProvider(issuer))
  {}

  /** Without metadata and without OpenID the endpoints are conventional, with no word on methods. */
  lemma ConventionalEndpoints(base: string, slashes: string)
    requires base != "" && !IsSpace(base[0]) && !IsSpace(base[|base| - 1]) && base[|base| - 1] != '/'
    requires forall i :: 0 <= i < |slashes| ==> slashes[i] == '/'
    ensures var p := ConventionalProvider(base + slashes);
            && p.issuer == base + slashes && p.authMethods == [] && !p.requiresPAR
            && p.authorizationEndpoint == base + "/authorize" && p.tokenEndpoint == base + "/token"
            && p.parEndpoint == base + "/par" && p.mtlsTokenEndpoint == base + "/mtls/token"
  {
    var issuer := base + slashes;
    assert "" + issuer + "" == issuer;
    TrimmedToCore("", issuer, "");
    SlashesGo(base, slashes);
  }

  lemma {:induction false} SlashesGo(base: string, slashes: string)
    requires base != "" && base[|base| - 1] != '/' && forall i :: 0 <= i < |slashes| ==> slashes[i] == '/'
    ensures WithoutTrailingSlashes(base + slashes) == base
  {
    if slashes == "" {
      assert base + slashes == base;
    } else {
      var n := |slashes| - 1;
      assert (base + slashes)[..|base| + n] == base + slashes[..n];
      SlashesGo(base, slashes[..n]);
    }
  }
}
