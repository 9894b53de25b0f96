/** The token grant engine shared by every flow: method fallback and response checks
    around the DPoP call (rp/token_exchange.go, rp/client_credentials.go, rp/client_config.go). */
module TokenGrant {
  import opened Correlations
  import opened Text
  import opened AuthMethods
  import opened TokenJson
  import opened DpopRetry

  datatype Constraint = Unconstrained | Dpop | Mtls

  /** Which entry point runs the grant; they differ in when they attach DPoP proofs. */
  datatype Flow = RelyingParty | ClientCredentials

  /** Fixed for the life of a client. `buildable` are the methods whose request can be
      built, that is, whose client assertion can be signed. */
  datatype Setup = Setup(flow: Flow, constraint: Constraint, hasKey: bool, canSign: bool, buildable: set<AuthMethod>,
                         endpoint: string, nonceTTL: int)

  /** The method in use, and whether a rejected post may still fall back to basic. */
  datatype AuthState = AuthState(chosen: AuthMethod, fallback: bool)

  datatype World = World(auth: AuthState, sent: seq<Request>, nonces: Nonces)

  /** Clock readings of one attempt. */
  datatype Ticks = Ticks(lookup: Time, first: Time, second: Time)

  predicate DpopCapable(m: AuthMethod) {
    m == PrivateKeyJWT || m == TLS || m == SelfSignedTLS
  }

  /** `shouldUseDPoP`, of the relying party and of the shared client configuration. */
  predicate UsesDpop(s: Setup, m: AuthMethod) {
    match s.flow
    case RelyingParty => s.constraint == Dpop && s.hasKey
    case ClientCredentials => s.constraint != Mtls && s.hasKey && DpopCapable(m)
  }

  /** One attempt with the given method; the proof decision looks at the method on record. */
  function Attempt(server: Server, s: Setup, w: World, grant: Grant, m: AuthMethod, at: Ticks): (Outcome, World) {
    if m !in s.buildable then (Failed(false), w)
    else
      var (nonce, nonces) := CachedNonce(w.nonces, s.nonceTTL, s.endpoint, at.lookup);
      var d := Call(server, w.sent, nonces, s.endpoint, Request(m, grant, None),
                    Proofs(UsesDpop(s, w.auth.chosen), s.canSign, nonce), at.first, at.second);
      (if s.flow == ClientCredentials && d.outcome.Answered? && d.outcome.status == 200
          && d.outcome.token.accessToken == ""
       then Failed(false) else d.outcome,
       w.(sent := d.sent, nonces := d.nonces))
  }

  datatype Result =
    | Granted(token: Token)
    | ConstraintViolated
    | MissingFields
    | Rejected(status: nat, code: string)
    | Broken

  predicate IsDpopType(tokenType: string) {
    ToLower(TrimSpace(tokenType)) == "dpop"
  }

  predicate HasText(s: string) {
    TrimSpace(s) != ""
  }

  /** The checks a 200 response must pass (section 5.1 of RFC 6749). */
  function Accept(s: Setup, token: Token): Result {
    if s.constraint == Dpop && !IsDpopType(token.tokenType) then ConstraintViolated
    else if !HasText(token.accessToken) || !HasText(token.tokenType) then MissingFields
    else Granted(token)
  }

  /** The OAuth error code of a rejection, "" if its body is not an error object. */
  function ErrorCode(body: Option<Json>): string {
    if body.None? then ""
    else
      match body.value
      case Obj(m) =>
        var code := StringMember(m, "error");
        if code.Some? && StringMember(m, "error_description").Some? then code.value else ""
      case _ => ""
  }

  predicate MayFallBack(status: nat) {
    status == 400 || status == 401
  }

  /** `executeTokenGrant`. */
  function Execute(server: Server, s: Setup, w: World, grant: Grant, at: Ticks, at': Ticks): (Result, World) {
    var AuthState(chosen, fallback) := w.auth;
    var (o, w1) := Attempt(server, s, w, grant, chosen, at);
    if o.Failed? then (Broken, w1)
    else if o.status == 200 then
      var r := Accept(s, o.token);
      (r, if r.Granted? && fallback then w1.(auth := AuthState(chosen, false)) else w1)
    else if fallback && chosen == Post && MayFallBack(o.status) then
      var (o', w2) := Attempt(server, s, w1, grant, Basic, at');
      if o'.Failed? then (Broken, w2)
      else if o'.status == 200 then
        var r := Accept(s, o'.token);
        (r, if r.Granted? then w2.(auth := AuthState(Basic, false)) else w2)
      else (Rejected(o'.status, ErrorCode(o'.body)), w2)
    else (Rejected(o.status, ErrorCode(o.body)), w1)
  }

  /** A client: its setup, the auth-method state its calls share, its nonce cache and its connection. */
  class Client {
    const setup: Setup
    const wire: Wire
    const store: NonceStore
    var resolvedAuthMethod: AuthMethod
    var allowMethodFallback: bool

    ghost predicate Valid() {
      wire as object != store && wire as object != this && store as object != this && store.ttl == setup.nonceTTL
    }

    ghost function State(): World
      reads this, wire, store
    {
      World(AuthState(resolvedAuthMethod, allowMethodFallback), wire.sent, store.m)
    }

    constructor (setup: Setup, server: Server, chosen: AuthMethod, fallback: bool)
      requires 0 < setup.nonceTTL
      ensures Valid() && this.setup == setup && fresh(wire) && fresh(store)
      ensures wire.server == server && State() == World(AuthState(chosen, fallback), [], map[])
    {
      this.setup := setup;
      resolvedAuthMethod, allowMethodFallback := chosen, fallback;
      wire := new Wire(server);
      store := new NonceStore(setup.nonceTTL);
    }

    /** `setAuthMethodState`. */
    method SetAuthMethodState(chosen: AuthMethod, fallback: bool)
      modifies this
      ensures resolvedAuthMethod == chosen && allowMethodFallback == fallback
    {
      resolvedAuthMethod, allowMethodFallback := chosen, fallback;
    }

    /** `exchangeTokenOnceAs`, `refreshTokenOnce` and `requestToken`, apart from the form they fill. */
    method RunAttempt(grant: Grant, m: AuthMethod, at: Ticks) returns (outcome: Outcome)
      requires Valid()
      modifies wire, store
      ensures (outcome, State()) == Attempt(wire.server, setup, old(State()), grant, m, at)
    {
      if m !in setup.buildable {
        return Failed(false);
      }
      var useDpop := UsesDpop(setup, resolvedAuthMethod);
      var nonce, _ := store.Get(setup.endpoint, at.lookup);
      outcome := DoRequestWithDPoPRetry(wire, store, setup.endpoint, Request(m, grant, None),
                                        Proofs(useDpop, setup.canSign, nonce), at.first, at.second);
      if setup.flow == ClientCredentials && outcome.Answered? && outcome.status == 200
         && outcome.token.accessToken == ""
      {
        outcome := Failed(false);
      }
    }

    /** `executeTokenGrant`. */
    method ExecuteTokenGrant(grant: Grant, at: Ticks, at': Ticks) returns (result: Result)
      requires Valid()
      modifies this, wire, store
      ensures (result, State()) == Execute(wire.server, setup, old(State()), grant, at, at')
    {
      var chosen, allowFallback := resolvedAuthMethod, allowMethodFallback;
      var o := RunAttempt(grant, chosen, at);
      if o.Failed? {
        return Broken;
      }
      if o.status == 200 {
        result := Accept(setup, o.token);
        if result.Granted? && allowFallback {
          SetAuthMethodState(chosen, false);
        }
        return;
      }
      if allowFallback && chosen == Post && MayFallBack(o.status) {
        var o' := RunAttempt(grant, Basic, at');
        if o'.Failed? {
          return Broken;
        }
        if o'.status == 200 {
          result := Accept(setup, o'.token);
          if result.Granted? {
            SetAuthMethodState(Basic, false);
          }
          return;
        }
        return Rejected(o'.status, ErrorCode(o'.body));
      }
      return Rejected(o.status, ErrorCode(o.body));
    }
  }

  lemma AttemptSends(server: Server, s: Setup, w: World, grant: Grant, m: AuthMethod, at: Ticks)
    ensures var (o, w') := Attempt(server, s, w, grant, m, at);
            && w'.auth == w.auth && w.sent <= w'.sent
            && |w'.sent| <= |w.sent| + (if UsesDpop(s, w.auth.chosen) then 2 else 1)
            && (forall i :: |w.sent| <= i < |w'.sent| ==> w'.sent[i].grant == grant && w'.sent[i].auth == m)
            && (o.Answered? ==> |w.sent| < |w'.sent| && o == Read(server(w'.sent)))
  {}

  /** A grant sends at most four requests (two without DPoP, two without a fallback), every
      one asking for this grant and nothing else, by the method on record or by basic. */
  lemma GrantSendsAtMostFour(server: Server, s: Setup, w: World, grant: Grant, at: Ticks, at': Ticks)
    ensures var (r, w') := Execute(server, s, w, grant, at, at');
            && w.sent <= w'.sent
            && |w'.sent| <= |w.sent| + (if UsesDpop(s, w.auth.chosen) then 2 else 1)
                                        * (if w.auth.fallback then 2 else 1)
            && |w'.sent| <= |w.sent| + 4
            && forall i :: |w.sent| <= i < |w'.sent| ==>
                 && w'.sent[i].grant == grant
                 && (w'.sent[i].auth == w.auth.chosen
                     || (w.auth.fallback && w.auth.chosen == Post && w'.sent[i].auth == Basic))
  {
    var (o, w1) := Attempt(server, s, w, grant, w.auth.chosen, at);
    AttemptSends(server, s, w, grant, w.auth.chosen, at);
    AttemptSends(server, s, w1, grant, Basic, at');
  }

  /** Which requests carry a proof of possession. A relying party's do just when it is
      constrained to DPoP and has a key, whatever its method; a client credentials grant's do
      just when it has a key, is not constrained to mTLS and the method on record is by key or
      certificate. The first proof has the cached nonce, if that has not run out. */
  lemma ProofsAttachedJustWhen(server: Server, s: Setup, w: World, grant: Grant, at: Ticks, at': Ticks)
    ensures var sent := Execute(server, s, w, grant, at, at').1.sent;
            && |w.sent| <= |sent|
            && (forall i :: |w.sent| <= i < |sent| && s.flow == RelyingParty ==>
                  (sent[i].proof.Some? <==> s.constraint == Dpop && s.hasKey))
            && (forall i :: |w.sent| <= i < |sent| && s.flow == ClientCredentials ==>
                  (sent[i].proof.Some? <==>
                     s.constraint != Mtls && s.hasKey && w.auth.chosen in {PrivateKeyJWT, TLS, SelfSignedTLS}))
            && (|w.sent| < |sent| && sent[|w.sent|].proof.Some? ==>
                  sent[|w.sent|].proof.value ==
                    if s.endpoint in w.nonces && at.lookup - w.nonces[s.endpoint].createdAt <= s.nonceTTL
                    then w.nonces[s.endpoint].nonce else "")
  {
    var (o, w1) := Attempt(server, s, w, grant, w.auth.chosen, at);
    AttemptProofs(server, s, w, grant, w.auth.chosen, at);
    AttemptSends(server, s, w, grant, w.auth.chosen, at);
    AttemptProofs(server, s, w1, grant, Basic, at');
    AttemptSends(server, s, w1, grant, Basic, at');
  }

  lemma AttemptProofs(server: Server, s: Setup, w: World, grant: Grant, m: AuthMethod, at: Ticks)
    ensures var sent := Attempt(server, s, w, grant, m, at).1.sent;
            && |w.sent| <= |sent|
            && (forall i :: |w.sent| <= i < |sent| ==> (sent[i].proof.Some? <==> UsesDpop(s, w.auth.chosen)))
            && (|w.sent| < |sent| && sent[|w.sent|].proof.Some? ==>
                  sent[|w.sent|].proof.value ==
                    if s.endpoint in w.nonces && at.lookup - w.nonces[s.endpoint].createdAt <= s.nonceTTL
                    then w.nonces[s.endpoint].nonce else "")
            && (|w.sent| < |sent| <==> m in s.buildable && (UsesDpop(s, w.auth.chosen) ==> s.canSign))
  {
    if m in s.buildable {
      var (nonce, nonces) := CachedNonce(w.nonces, s.nonceTTL, s.endpoint, at.lookup);
      RetriesJustWhen(server, w.sent, nonces, s.endpoint, Request(m, grant, None),
                      Proofs(UsesDpop(s, w.auth.chosen), s.canSign, nonce), at.first, at.second);
    }
  }

  /** A grant is answered by the server at all just when its first request can be built and,
      where a proof is needed, signed; otherwise nothing is sent and nothing changes hands. */
  lemma SendsJustWhen(server: Server, s: Setup, w: World, grant: Grant, at: Ticks, at': Ticks)
    ensures var (r, w') := Execute(server, s, w, grant, at, at');
            && (|w.sent| < |w'.sent| <==> w.auth.chosen in s.buildable && (UsesDpop(s, w.auth.chosen) ==> s.canSign))
            && (|w.sent| == |w'.sent| ==> r == Broken && w'.auth == w.auth)
  {
    var (o, w1) := Attempt(server, s, w, grant, w.auth.chosen, at);
    AttemptProofs(server, s, w, grant, w.auth.chosen, at);
    AttemptSends(server, s, w, grant, w.auth.chosen, at);
    AttemptSends(server, s, w1, grant, Basic, at');
  }

  /** A grant leaves the nonces of other endpoints alone. */
  lemma NoncesElsewhere(server: Server, s: Setup, w: World, grant: Grant, at: Ticks, at': Ticks)
    ensures var nonces := Execute(server, s, w, grant, at, at').1.nonces;
            forall e :: e != s.endpoint ==>
              (e in nonces <==> e in w.nonces) && (e in w.nonces ==> nonces[e] == w.nonces[e])
  {
    var (o, w1) := Attempt(server, s, w, grant, w.auth.chosen, at);
    AttemptElsewhere(server, s, w, grant, w.auth.chosen, at);
    AttemptElsewhere(server, s, w1, grant, Basic, at');
  }

  lemma AttemptElsewhere(server: Server, s: Setup, w: World, grant: Grant, m: AuthMethod, at: Ticks)
    ensures var nonces := Attempt(server, s, w, grant, m, at).1.nonces;
            forall e :: e != s.endpoint ==>
              (e in nonces <==> e in w.nonces) && (e in w.nonces ==> nonces[e] == w.nonces[e])
  {
    if m in s.buildable {
      var (nonce, nonces) := CachedNonce(w.nonces, s.nonceTTL, s.endpoint, at.lookup);
      RetriesJustWhen(server, w.sent, nonces, s.endpoint, Request(m, grant, None),
                      Proofs(UsesDpop(s, w.auth.chosen), s.canSign, nonce), at.first, at.second);
    }
  }

  /** A response that passes every check of section 5.1 of RFC 6749, and the DPoP constraint. */
  predicate Acceptable(s: Setup, reply: Reply) {
    && reply.Answer? && reply.response.status == 200 && reply.response.body.Some?
    && var t := Parse(reply.response.body.value);
       && t.Some? && HasText(t.value.accessToken) && HasText(t.value.tokenType)
       && (s.constraint == Dpop ==> IsDpopType(t.value.tokenType))
  }

  /** A grant succeeds just when the server's last answer is acceptable, with the token in it. */
  lemma ResultIsLastAnswer(server: Server, s: Setup, w: World, grant: Grant, at: Ticks, at': Ticks)
    ensures var (r, w') := Execute(server, s, w, grant, at, at');
            && (r.Granted? <==> |w.sent| < |w'.sent| && Acceptable(s, server(w'.sent)))
            && (r.Granted? ==> Parse(server(w'.sent).response.body.value) == Some(r.token))
  {
    var (r, w') := Execute(server, s, w, grant, at, at');
    EveryEnding(server, s, w, grant, at, at');
    assert w.sent <= w'.sent && (|w.sent| == |w'.sent| ==> w.sent == w'.sent);
  }

  /** How a grant ends, in every case: by the last answer, or by there being none. */
  lemma EveryEnding(server: Server, s: Setup, w: World, grant: Grant, at: Ticks, at': Ticks)
    ensures var (r, w') := Execute(server, s, w, grant, at, at');
            && w.sent <= w'.sent
            && (w'.sent == w.sent ==> r == Broken)
            && (|w.sent| < |w'.sent| ==>
                  var reply := server(w'.sent);
                  && (reply.TransportError? ==> r == Broken)
                  && (reply.Answer? && reply.response.status != 200 ==>
                        r == Rejected(reply.response.status, ErrorCode(reply.response.body)) || r == Broken)
                  && (reply.Answer? && reply.response.status == 200 ==>
                        r == if Undecodable(reply.response) then Broken
                             else Judged(s, Parse(reply.response.body.value).value)))
  {
    var (o, w1) := Attempt(server, s, w, grant, w.auth.chosen, at);
    AttemptSends(server, s, w, grant, w.auth.chosen, at);
    AttemptSends(server, s, w1, grant, Basic, at');
  }

  function Judged(s: Setup, t: Token): Result {
    if s.flow == ClientCredentials && t.accessToken == "" then Broken else Accept(s, t)
  }

  /** A rejection reports the status and the error code of the last answer, and changes nothing on record. */
  lemma RejectionIsLastAnswer(server: Server, s: Setup, w: World, grant: Grant, at: Ticks, at': Ticks)
    ensures var (r, w') := Execute(server, s, w, grant, at, at');
            r.Rejected? ==>
              && server(w'.sent).Answer? && r.status == server(w'.sent).response.status != 200
              && r.code == ErrorCode(server(w'.sent).response.body)
              && w'.auth == w.auth
  {
    var (o, w1) := Attempt(server, s, w, grant, w.auth.chosen, at);
    AttemptSends(server, s, w, grant, w.auth.chosen, at);
    AttemptSends(server, s, w1, grant, Basic, at');
  }

  /** Basic is tried just when post was answered with a 400 or a 401 while the fallback is open. */
  lemma BasicFollowsRejectedPost(server: Server, s: Setup, w: World, grant: Grant, at: Ticks, at': Ticks)
    requires w.auth == AuthState(Post, true) && Post in s.buildable && Basic in s.buildable
             && (UsesDpop(s, Post) ==> s.canSign)
    ensures var (o, w1) := Attempt(server, s, w, grant, Post, at);
            var w' := Execute(server, s, w, grant, at, at').1;
            && |w.sent| < |w1.sent| && w1.sent <= w'.sent
            && (|w1.sent| < |w'.sent| <==> o.Answered? && server(w1.sent).response.status in {400, 401})
            && (forall i :: |w.sent| <= i < |w'.sent| ==> w'.sent[i].auth == if i < |w1.sent| then Post else Basic)
  {
    var (o, w1) := Attempt(server, s, w, grant, Post, at);
    AttemptSends(server, s, w, grant, Post, at);
    AttemptSends(server, s, w1, grant, Basic, at');
  }

  /** The method on record moves only when a grant succeeds while the fallback is open; it
      then becomes the method of the request that succeeded, for good. */
  lemma MethodSettlesOnSuccess(server: Server, s: Setup, w: World, grant: Grant, at: Ticks, at': Ticks)
    ensures var (r, w') := Execute(server, s, w, grant, at, at');
            && (w'.auth == w.auth <==> !(r.Granted? && w.auth.fallback))
            && (r.Granted? && w.auth.fallback ==>
                  && w'.auth == AuthState(w'.sent[|w'.sent| - 1].auth, false)
                  && (w'.auth.chosen == w.auth.chosen || (w.auth.chosen == Post && w'.auth.chosen == Basic)))
  {
    var (o, w1) := Attempt(server, s, w, grant, w.auth.chosen, at);
    AttemptSends(server, s, w, grant, w.auth.chosen, at);
    AttemptSends(server, s, w1, grant, Basic, at');
  }

  /** Why a token in a 200 is refused: a DPoP-constrained client first looks at its type, and
      then neither the token nor its type may be blank. */
  lemma RefusedJustWhen(s: Setup, token: Token)
    ensures Accept(s, token) == ConstraintViolated <==> s.constraint == Dpop && !IsDpopType(token.tokenType)
    ensures Accept(s, token) == MissingFields <==>
              && (s.constraint == Dpop ==> IsDpopType(token.tokenType))
              && (Blank(token.accessToken) || Blank(token.tokenType))
    ensures Accept(s, token) in {ConstraintViolated, MissingFields, Granted(token)}
  {
    TrimmedAway(token.accessToken);
    TrimmedAway(token.tokenType);
  }

  /** The token type is compared without regard to case or surrounding white space. */
  lemma DpopTypes(left: string, core: string, right: string)
    requires Blank(left) && Blank(right) && (core != "" ==> !IsSpace(core[0]) && !IsSpace(core[|core| - 1]))
    ensures IsDpopType(left + core + right) <==> ToLower(core) == "dpop"
    ensures IsDpopType("DPoP") && !IsDpopType("Bearer")
  {
    TrimmedToCore(left, core, right);
    TrimmedToCore("", "DPoP", "");
    TrimmedToCore("", "Bearer", "");
    assert "" + "DPoP" + "" == "DPoP" && "" + "Bearer" + "" == "Bearer";
    assert ToLower("DPoP") == "dpop";
    assert |ToLower("Bearer")| == 6;
  }

  predicate AbsentOrText(members: map<string, Json>, name: string) {
    name in members ==> members[name].Str? || members[name].Null?
  }

  /** The code of a rejection is its body's "error" member, where that is a string and the
      description, if there is one, is one too. */
  lemma ErrorCodeOf(members: map<string, Json>, code: string)
    requires "error" in members && members["error"] == Str(code) && AbsentOrText(members, "error_description")
    ensures ErrorCode(Some(Obj(members))) == code
  {}

  lemma NoErrorCode(body: Option<Json>)
    ensures ErrorCode(body) != "" ==>
              && body.Some? && body.value.Obj? && AbsentOrText(body.value.members, "error_description")
              && "error" in body.value.members && body.value.members["error"] == Str(ErrorCode(body))
  {}
}
