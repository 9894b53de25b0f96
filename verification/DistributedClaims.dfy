/** Resolving distributed claims of a userinfo response, section 5.6.2 of OpenID Connect
    Core (rp/userinfo.go). */
module DistributedClaims {
  import opened Correlations
  import opened Text
  import opened TokenJson

  type Claims = map<string, Json>

  /** An answer of a claims endpoint; claims of None could not be decoded. */
  datatype HttpAnswer = NoAnswer | HttpAnswer(status: nat, claims: Option<Claims>)

  /** The world outside: fetching an endpoint with a token, and reading a JWT's payload. */
  datatype Outside = Outside(http: (string, string) -> HttpAnswer, jwt: string -> Option<Claims>)

  function StringOr(m: Claims, name: string): string {
    if name in m && m[name].Str? then m[name].s else ""
  }

  /** `validateClaimSubject`. */
  predicate ValidSubject(claims: Claims, expectedSub: string) {
    "sub" in claims ==> claims["sub"].Str? && TrimSpace(claims["sub"].s) != "" && claims["sub"].s == expectedSub
  }

  /** `fetchDistributedClaimSource`: an inline JWT wins over an endpoint; None is an error. */
  function FetchSource(def: Claims, expectedSub: string, o: Outside): Option<Claims> {
    var jwt, endpoint, token := StringOr(def, "JWT"), StringOr(def, "endpoint"), StringOr(def, "access_token");
    if TrimSpace(jwt) != "" then Checked(o.jwt(TrimSpace(jwt)), expectedSub)
    else if TrimSpace(endpoint) == "" then None
    else
      match o.http(endpoint, if TrimSpace(token) != "" then token else "")
      case NoAnswer => None
      case HttpAnswer(status, claims) => if status == 200 then Checked(claims, expectedSub) else None
  }

  function Checked(claims: Option<Claims>, expectedSub: string): Option<Claims> {
    if claims.Some? && ValidSubject(claims.value, expectedSub) then claims else None
  }

  /** Fetching is deterministic here: a source definition either yields its claims or an error. */
  type Fetcher = Claims -> Option<Claims>

  function FetcherFor(expectedSub: string, o: Outside): Fetcher {
    (def: Claims) => FetchSource(def, expectedSub, o)
  }

  /** What the source a claim name refers to asserts; None if the reference or the source is bad. */
  function Asserted(reference: Json, sources: Claims, fetch: Fetcher): Option<Claims> {
    if !reference.Str? || TrimSpace(reference.s) == "" then None
    else if reference.s !in sources || !sources[reference.s].Obj? then None
    else fetch(sources[reference.s].members)
  }

  /** Some claim of the source `c` refers to is `c` itself. */
  predicate Supplies(names: Claims, sources: Claims, fetch: Fetcher, c: string) {
    c in names && var claims := Asserted(names[c], sources, fetch); claims.Some? && c in claims.value
  }

  function Supplied(names: Claims, sources: Claims, fetch: Fetcher, c: string): Json
    requires Supplies(names, sources, fetch, c)
  {
    Asserted(names[c], sources, fetch).value[c]
  }

  /** The payload with every supplied claim filled in. */
  function Filled(payload: Claims, names: Claims, sources: Claims, fetch: Fetcher): Claims {
    payload + map c | c in names && Supplies(names, sources, fetch, c) :: Supplied(names, sources, fetch, c)
  }

  /** The outcome, said without any order and without remembering what was fetched. */
  ghost function Resolution(payload: Claims, fetch: Fetcher): Option<Claims> {
    if "_claim_names" !in payload || "_claim_sources" !in payload then Some(payload)
    else if !payload["_claim_names"].Obj? || !payload["_claim_sources"].Obj? then None
    else
      var names, sources := payload["_claim_names"].members, payload["_claim_sources"].members;
      if forall c :: c in names ==> Asserted(names[c], sources, fetch).Some?
      then Some(Filled(payload, names, sources, fetch) - {"_claim_names", "_claim_sources"})
      else None
  }

  /** `s` is a source some claim name refers to. */
  ghost predicate Referenced(names: Claims, s: string) {
    exists c :: c in names && names[c] == Str(s)
  }

  predicate NoRepeats(s: seq<string>) {
    forall i, j :: 0 <= i < j < |s| ==> s[i] != s[j]
  }

  /** `resolveDistributedClaims`. `fetched` are the sources fetched, in order. */
  method ResolveDistributedClaims(payload: Claims, expectedSub: string, o: Outside)
    returns (resolved: Option<Claims>, fetched: seq<string>)
    ensures resolved == Resolution(payload, FetcherFor(expectedSub, o))
    ensures NoRepeats(fetched)
    ensures fetched != [] ==> "_claim_names" in payload && payload["_claim_names"].Obj?
    ensures forall s :: s in fetched ==> Referenced(payload["_claim_names"].members, s)
    ensures "_claim_names" in payload && "_claim_sources" in payload && payload["_claim_names"].Obj?
            && resolved.Some? ==>
              forall s :: Referenced(payload["_claim_names"].members, s) ==> s in fetched
  {
    if "_claim_names" !in payload || "_claim_sources" !in payload {
      return Some(payload), [];
    }
    if !payload["_claim_names"].Obj? || !payload["_claim_sources"].Obj? {
      return None, [];
    }
    var names, sources := payload["_claim_names"].members, payload["_claim_sources"].members;
    resolved, fetched := ResolveNames(payload, names, sources, FetcherFor(expectedSub, o));
    if resolved.Some? {
      resolved := Some(resolved.value - {"_claim_names", "_claim_sources"});
    }
  }

  /** The loop of `resolveDistributedClaims`, for every order in which Go may range over the
      claim names: the outcome is the same for all of them, no source is fetched twice, and
      on success the sources fetched are exactly those referred to. */
  method ResolveNames(payload: Claims, names: Claims, sources: Claims, fetch: Fetcher)
    returns (resolved: Option<Claims>, fetched: seq<string>)
    ensures resolved.Some? <==> forall c :: c in names ==> Asserted(names[c], sources, fetch).Some?
    ensures resolved.Some? ==> resolved.value == Filled(payload, names, sources, fetch)
    ensures NoRepeats(fetched) && forall s :: s in fetched ==> Referenced(names, s)
    ensures resolved.Some? ==> forall s :: s in fetched <==> Referenced(names, s)
  {
    var memo: map<string, Claims>, current, todo := map[], payload, names.Keys;
    fetched := [];
    while todo != {}
      invariant todo <= names.Keys
      invariant forall c :: c in names && c !in todo ==> Asserted(names[c], sources, fetch).Some? && names[c].s in memo
      invariant forall s :: s in memo ==> s in sources && sources[s].Obj? && fetch(sources[s].members) == Some(memo[s])
      invariant NoRepeats(fetched) && forall s :: s in fetched <==> s in memo
      invariant forall s :: s in memo ==> Referenced(names, s)
      invariant FilledBut(current, payload, names, sources, fetch, todo)
      decreases |todo|
    {
      var claimName :| claimName in todo;
      var reference := names[claimName];
      if !reference.Str? || TrimSpace(reference.s) == "" {
        return None, fetched;
      }
      var sourceName := reference.s;
      if sourceName !in memo {
        if sourceName !in sources || !sources[sourceName].Obj? {
          return None, fetched;
        }
        assert Referenced(names, sourceName);
        fetched := fetched + [sourceName];
        var claims := fetch(sources[sourceName].members);
        if claims.None? {
          return None, fetched;
        }
        memo := memo[sourceName := claims.value];
      }
      var sourceClaims := memo[sourceName];
      assert Asserted(reference, sources, fetch) == Some(sourceClaims);
      if claimName in sourceClaims {
        current := current[claimName := sourceClaims[claimName]];
      }
      todo := todo - {claimName};
    }
    AllFilled(current, payload, names, sources, fetch);
    resolved := Some(current);
  }

  /** `current` is the payload with the claims filled in that are not left to do. */
  ghost predicate FilledBut(current: Claims, payload: Claims, names: Claims, sources: Claims, fetch: Fetcher,
                            todo: set<string>) {
    forall c ::
      if c !in todo && Supplies(names, sources, fetch, c)
      then c in current && current[c] == Supplied(names, sources, fetch, c)
      else (c in current <==> c in payload) && (c in current ==> current[c] == payload[c])
  }

  lemma AllFilled(current: Claims, payload: Claims, names: Claims, sources: Claims, fetch: Fetcher)
    requires FilledBut(current, payload, names, sources, fetch, {})
    ensures current == Filled(payload, names, sources, fetch)
  {
    var filled := Filled(payload, names, sources, fetch);
    assert forall c :: c in current <==> c in filled;
    assert forall c :: c in current ==> current[c] == filled[c];
  }

  /** What may stand behind a claim: a source whose claims came from its JWT, or from its
      endpoint with its own access token, and which speaks of this subject or of none. */
  ghost predicate Vouched(def: Claims, claims: Claims, expectedSub: string, o: Outside) {
    && ("sub" in claims ==> claims["sub"] == Str(expectedSub) && !Blank(expectedSub))
    && if "JWT" in def && def["JWT"].Str? && !Blank(def["JWT"].s) then o.jwt(TrimSpace(def["JWT"].s)) == Some(claims)
       else
         && "endpoint" in def && def["endpoint"].Str? && !Blank(def["endpoint"].s)
         && var token := if "access_token" in def && def["access_token"].Str? && !Blank(def["access_token"].s)
                         then def["access_token"].s else "";
            o.http(def["endpoint"].s, token) == HttpAnswer(200, Some(claims))
  }

  lemma FetchedJustWhenVouched(def: Claims, expectedSub: string, o: Outside)
    ensures forall claims :: FetchSource(def, expectedSub, o) == Some(claims) <==> Vouched(def, claims, expectedSub, o)
  {
    TrimmedAway(expectedSub);
    TrimmedAway(StringOr(def, "JWT"));
    TrimmedAway(StringOr(def, "endpoint"));
    TrimmedAway(StringOr(def, "access_token"));
  }

  /** A claim name refers to a source that vouches for what it says. */
  ghost predicate BackedBy(payload: Claims, c: string, claims: Claims, expectedSub: string, o: Outside)
    requires "_claim_names" in payload && payload["_claim_names"].Obj?
    requires "_claim_sources" in payload && payload["_claim_sources"].Obj?
  {
    var names, sources := payload["_claim_names"].members, payload["_claim_sources"].members;
    && c in names && names[c].Str? && !Blank(names[c].s)
    && names[c].s in sources && sources[names[c].s].Obj?
    && Vouched(sources[names[c].s].members, claims, expectedSub, o)
  }

  lemma AssertedJustWhenBacked(payload: Claims, c: string, expectedSub: string, o: Outside)
    requires "_claim_names" in payload && payload["_claim_names"].Obj? && c in payload["_claim_names"].members
    requires "_claim_sources" in payload && payload["_claim_sources"].Obj?
    ensures var names, sources := payload["_claim_names"].members, payload["_claim_sources"].members;
            forall claims :: Asserted(names[c], sources, FetcherFor(expectedSub, o)) == Some(claims) <==>
                               BackedBy(payload, c, claims, expectedSub, o)
  {
    var names, sources := payload["_claim_names"].members, payload["_claim_sources"].members;
    if names[c].Str? {
      TrimmedAway(names[c].s);
      if names[c].s in sources && sources[names[c].s].Obj? {
        FetchedJustWhenVouched(sources[names[c].s].members, expectedSub, o);
      }
    }
  }

  ghost predicate HasReferences(payload: Claims) {
    && "_claim_names" in payload && payload["_claim_names"].Obj?
    && "_claim_sources" in payload && payload["_claim_sources"].Obj?
  }

  /** Resolution fails just when some claim name has no source that vouches. */
  lemma ResolvesJustWhenBacked(payload: Claims, expectedSub: string, o: Outside)
    requires HasReferences(payload)
    ensures Resolution(payload, FetcherFor(expectedSub, o)).None? <==>
              exists n :: n in payload["_claim_names"].members
                          && forall claims :: !BackedBy(payload, n, claims, expectedSub, o)
  {
    var names, sources := payload["_claim_names"].members, payload["_claim_sources"].members;
    forall n | n in names
      ensures Asserted(names[n], sources, FetcherFor(expectedSub, o)).None? <==>
                forall claims :: !BackedBy(payload, n, claims, expectedSub, o)
    {
      AssertedJustWhenBacked(payload, n, expectedSub, o);
      if Asserted(names[n], sources, FetcherFor(expectedSub, o)).Some? {
        assert BackedBy(payload, n, Asserted(names[n], sources, FetcherFor(expectedSub, o)).value, expectedSub, o);
      }
    }
  }

  lemma FilledClaim(payload: Claims, names: Claims, sources: Claims, fetch: Fetcher, c: string)
    ensures var filled := Filled(payload, names, sources, fetch);
            if Supplies(names, sources, fetch, c) then c in filled && filled[c] == Supplied(names, sources, fetch, c)
            else (c in filled <==> c in payload) && (c in payload ==> filled[c] == payload[c])
  {}

  /** What resolution adds to a payload, claim by claim: the value the claim's source vouches
      for. A claim that has no source, or whose source says nothing of it, stays; the references
      are gone. */
  lemma ResolvedClaims(payload: Claims, expectedSub: string, o: Outside, c: string, claims: Claims)
    requires HasReferences(payload) && Resolution(payload, FetcherFor(expectedSub, o)).Some?
    ensures var resolved := Resolution(payload, FetcherFor(expectedSub, o)).value;
            && "_claim_names" !in resolved && "_claim_sources" !in resolved
            && (c != "_claim_names" && c != "_claim_sources" ==>
                  && (BackedBy(payload, c, claims, expectedSub, o) && c in claims ==>
                        c in resolved && resolved[c] == claims[c])
                  && (c !in payload["_claim_names"].members
                      || (BackedBy(payload, c, claims, expectedSub, o) && c !in claims) ==>
                        (c in resolved <==> c in payload) && (c in payload ==> resolved[c] == payload[c])))
  {
    var names, sources := payload["_claim_names"].members, payload["_claim_sources"].members;
    var fetch := FetcherFor(expectedSub, o);
    FilledClaim(payload, names, sources, fetch, c);
    if c in names {
      AssertedJustWhenBacked(payload, c, expectedSub, o);
      ClaimSupplied(payload, names, sources, fetch, c, claims, BackedBy(payload, c, claims, expectedSub, o));
    }
  }

  lemma ClaimSupplied(payload: Claims, names: Claims, sources: Claims, fetch: Fetcher, c: string, claims: Claims,
                      backed: bool)
    requires c in names && (Asserted(names[c], sources, fetch) == Some(claims) <==> backed)
    ensures backed && c in claims ==>
              Supplies(names, sources, fetch, c) && Supplied(names, sources, fetch, c) == claims[c]
    ensures backed && c !in claims ==> !Supplies(names, sources, fetch, c)
  {}

  /** Without references on both sides the payload is left as it is; references of another shape are an error. */
  lemma OtherPayloads(payload: Claims, fetch: Fetcher)
    ensures "_claim_names" !in payload || "_claim_sources" !in payload ==> Resolution(payload, fetch) == Some(payload)
    ensures "_claim_names" in payload && "_claim_sources" in payload && !HasReferences(payload) ==>
              Resolution(payload, fetch) == None
  {}
}
