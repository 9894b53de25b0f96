/** One token endpoint call: the DPoP nonce cache and the retry with a fresh nonce
    (rp/dpop.go, rp/dpop_nonce_store.go). */
module DpopRetry {
  import opened Correlations
  import opened AuthMethods
  import opened TokenJson

  /** What a token request asks for; every request of one grant asks the same. */
  datatype Grant =
    | ClientCredentialsGrant
    | CodeGrant(code: string, verifier: string, resources: seq<string>)
    | RefreshGrant(refreshToken: string)

  /** `proof` is the nonce in the DPoP proof ("" for a proof without one), if there is a proof. */
  datatype Request = Request(auth: AuthMethod, grant: Grant, proof: Option<string>)

  /** `useNonceError` says that WWW-Authenticate names use_dpop_nonce; a body of None is not JSON.
      Of a response other than a 200, `body` is what its first 4096 bytes read as. */
  datatype Response = Response(status: nat, dpopNonce: string, useNonceError: bool, body: Option<Json>)

  datatype Reply = TransportError | Answer(response: Response)

  /** A server, as a function of the requests it has been sent, the last one included. */
  type Server = seq<Request> -> Reply

  datatype NonceEntry = NonceEntry(nonce: string, createdAt: Time)

  type Nonces = map<string, NonceEntry>

  /** `dpopNonceStore.get`: the nonce ("" if none) and the map without the entry if it ran out. */
  function CachedNonce(nonces: Nonces, ttl: int, endpoint: string, now: Time): (string, Nonces) {
    if endpoint !in nonces then ("", nonces)
    else if now - nonces[endpoint].createdAt > ttl then ("", nonces - {endpoint})
    else (nonces[endpoint].nonce, nonces)
  }

  /** `extractAndStoreDPoPNonce`. */
  function StoreNonce(nonces: Nonces, endpoint: string, r: Response, now: Time): Nonces {
    if r.dpopNonce == "" then nonces else nonces[endpoint := NonceEntry(r.dpopNonce, now)]
  }

  class NonceStore {
    const ttl: int
    var m: Nonces

    constructor (lifetime: int)
      ensures m == map[] && ttl == if lifetime <= 0 then 5 * MINUTE else lifetime
    {
      ttl := if lifetime <= 0 then 5 * MINUTE else lifetime;
      m := map[];
    }

    method Get(endpoint: string, now: Time) returns (nonce: string, ok: bool)
      modifies this
      ensures (nonce, m) == CachedNonce(old(m), ttl, endpoint, now)
      ensures ok <==> endpoint in m
    {
      if endpoint !in m {
        return "", false;
      }
      var entry := m[endpoint];
      if now - entry.createdAt > ttl {
        m := m - {endpoint};
        return "", false;
      }
      return entry.nonce, true;
    }

    method Put(endpoint: string, nonce: string, now: Time)
      modifies this
      ensures m == old(m)[endpoint := NonceEntry(nonce, now)]
    {
      m := m[endpoint := NonceEntry(nonce, now)];
    }
  }

  /** The connection to the server, with everything sent over it. */
  class Wire {
    const server: Server
    var sent: seq<Request>

    constructor (server: Server)
      ensures this.server == server && sent == []
    {
      this.server := server;
      sent := [];
    }

    method Send(req: Request) returns (reply: Reply)
      modifies this
      ensures sent == old(sent) + [req] && reply == server(sent)
    {
      sent := sent + [req];
      reply := server(sent);
    }
  }

  /** `isUseDPoPNonce`. */
  predicate WantsNonce(r: Response) {
    (r.status == 400 || r.status == 401) && (r.useNonceError || r.dpopNonce != "")
  }

  /** How a call ended: with an error, or with a status and, on success, a token. */
  datatype Outcome = Failed(decoding: bool) | Answered(status: nat, token: Token, body: Option<Json>)

  /** `doJSONStatus` with the token decoder: only a 200 body is decoded. */
  function Read(reply: Reply): Outcome {
    match reply
    case TransportError => Failed(false)
    case Answer(r) =>
      if r.status != 200 then Answered(r.status, ZERO_TOKEN, r.body)
      else if r.body.None? || Parse(r.body.value).None? then Failed(true)
      else Answered(200, Parse(r.body.value).value, r.body)
  }

  /** What a call leaves behind. */
  datatype Done = Done(outcome: Outcome, sent: seq<Request>, nonces: Nonces)

  /** Whether to attach proofs, whether the key can sign them, and the nonce to start with. */
  datatype Proofs = Proofs(attach: bool, canSign: bool, nonce: string)

  function WithProof(base: Request, p: Proofs, nonce: string): Request {
    base.(proof := if p.attach then Some(nonce) else None)
  }

  /** `doRequestWithDPoPRetry`: a nonce is stored only from a response that was read to the end. */
  function Call(server: Server, sent: seq<Request>, nonces: Nonces, endpoint: string, base: Request, p: Proofs,
                t1: Time, t2: Time): Done {
    if p.attach && !p.canSign then Done(Failed(false), sent, nonces)
    else
      var sent1 := sent + [WithProof(base, p, p.nonce)];
      var reply1 := server(sent1);
      var outcome1 := Read(reply1);
      if outcome1.Failed? || !p.attach then Done(outcome1, sent1, nonces)
      else
        var r := reply1.response;
        var nonces1 := StoreNonce(nonces, endpoint, r, t1);
        if !WantsNonce(r) || r.dpopNonce == "" then Done(outcome1, sent1, nonces1)
        else
          var sent2 := sent1 + [WithProof(base, p, r.dpopNonce)];
          var outcome2 := Read(server(sent2));
          Done(outcome2, sent2,
               if outcome2.Failed? then nonces1 else StoreNonce(nonces1, endpoint, server(sent2).response, t2))
  }

  method DoRequestWithDPoPRetry(wire: Wire, store: NonceStore, endpoint: string, base: Request, p: Proofs, t1: Time,
                                t2: Time)
    returns (outcome: Outcome)
    modifies wire, store
    ensures Done(outcome, wire.sent, store.m) ==
              Call(wire.server, old(wire.sent), old(store.m), endpoint, base, p, t1, t2)
  {
    if p.attach && !p.canSign {
      return Failed(false);
    }
    var reply := wire.Send(WithProof(base, p, p.nonce));
    outcome := Read(reply);
    if outcome.Failed? {
      return;
    }
    var nonce := reply.response.dpopNonce;
    if p.attach && nonce != "" {
      store.Put(endpoint, nonce, t1);
    }
    if p.attach && WantsNonce(reply.response) && nonce != "" {
      reply := wire.Send(WithProof(base, p, nonce));
      outcome := Read(reply);
      if outcome.Failed? {
        return;
      }
      if reply.response.dpopNonce != "" {
        store.Put(endpoint, reply.response.dpopNonce, t2);
      }
    }
  }

  /** One or two requests, all asking for the same thing in the same way. */
  lemma CallSendsAtMostTwo(server: Server, sent: seq<Request>, nonces: Nonces, endpoint: string, base: Request,
                           p: Proofs, t1: Time, t2: Time)
    ensures var d := Call(server, sent, nonces, endpoint, base, p, t1, t2);
            && |sent| <= |d.sent| <= |sent| + (if p.attach then 2 else 1)
            && sent <= d.sent
            && forall i :: |sent| <= i < |d.sent| ==> d.sent[i].auth == base.auth && d.sent[i].grant == base.grant
  {}

  /** What a call sends: the proof with the given nonce first, and again with the server's own
      nonce just when the first answer is a 400 or a 401 that brings one. Without proofs it
      sends one request, with a key that cannot sign none at all. */
  lemma RetriesJustWhen(server: Server, sent: seq<Request>, nonces: Nonces, endpoint: string, base: Request,
                        p: Proofs, t1: Time, t2: Time)
    ensures var d := Call(server, sent, nonces, endpoint, base, p, t1, t2);
            && (p.attach && !p.canSign ==> d == Done(Failed(false), sent, nonces))
            && (!p.attach ==> d.sent == sent + [base.(proof := None)] && d.nonces == nonces)
            && (p.attach && p.canSign ==>
                  var first := sent + [base.(proof := Some(p.nonce))];
                  var reply := server(first);
                  d.sent == if reply.Answer? && reply.response.status in {400, 401} && reply.response.dpopNonce != ""
                            then first + [base.(proof := Some(reply.response.dpopNonce))] else first)
            && (forall e :: e != endpoint ==>
                  (e in d.nonces <==> e in nonces) && (e in nonces ==> d.nonces[e] == nonces[e]))
  {}

  /** Only the last reply's body is ever decoded, and a token comes from just that body. */
  lemma BodyDecodedAtMostOnce(server: Server, sent: seq<Request>, nonces: Nonces, endpoint: string, base: Request,
                              p: Proofs, t1: Time, t2: Time)
    ensures var d := Call(server, sent, nonces, endpoint, base, p, t1, t2);
            && (forall i :: |sent| < i < |d.sent| ==>
                server(d.sent[..i]).Answer? && server(d.sent[..i]).response.status != 200)
            && (|d.sent| > |sent| ==> d.outcome == Read(server(d.sent)))
  {}

  /** A server as in section 8 of RFC 9449, over the requests that one call may add to `sent`:
      it takes proofs with its current nonce, and answers any other proof with a 401 that
      carries that nonce. Before and after it may have used any other; and a request it
      takes it may answer with the next one. */
  ghost predicate SteadyFor(server: Server, nonce: string, sent: seq<Request>) {
    && nonce != ""
    && forall s: seq<Request> {:trigger server(s)} ::
         sent <= s && |sent| < |s| <= |sent| + 2 && s[|s| - 1].proof.Some? ==>
           && server(s).Answer?
           && var r := server(s).response;
              if s[|s| - 1].proof.value == nonce
              then r.status == 200 && r.body.Some? && Parse(r.body.value).Some?
              else r.status == 401 && r.dpopNonce == nonce
  }

  /** A call with proofs as the grant engine makes it: look the nonce up, then call. */
  function CachedCall(server: Server, sent: seq<Request>, nonces: Nonces, ttl: int, endpoint: string, base: Request,
                      t0: Time, t1: Time, t2: Time): Done {
    var (nonce, left) := CachedNonce(nonces, ttl, endpoint, t0);
    Call(server, sent, left, endpoint, base, Proofs(true, true, nonce), t1, t2)
  }

  /** The nonce to use next, going by the server's last answer: the one that came with it,
      or else the one it took. */
  function Announced(server: Server, d: Done, nonce: string): string {
    var reply := server(d.sent);
    if reply.Answer? && reply.response.dpopNonce != "" then reply.response.dpopNonce else nonce
  }

  /** When the nonce in the cache after a call reached it: with the last answer, or the first
      one, or before the call. */
  function ReachedAt(server: Server, sent: seq<Request>, nonces: Nonces, endpoint: string, d: Done,
                     t1: Time, t2: Time): Option<Time> {
    var reply := server(d.sent);
    if reply.Answer? && reply.response.dpopNonce != "" then Some(if |d.sent| == |sent| + 1 then t1 else t2)
    else if |d.sent| == |sent| + 2 then Some(t1)
    else if endpoint in nonces then Some(nonces[endpoint].createdAt)
    else None
  }

  /** If the server's nonce is steady during the call, the call succeeds within two requests,
      within one just when the cached nonce is that one, and the cache ends with the nonce
      announced last. */
  lemma CallConverges(server: Server, nonce: string, sent: seq<Request>, nonces: Nonces, ttl: int, endpoint: string,
                      base: Request, t0: Time, t1: Time, t2: Time)
    requires SteadyFor(server, nonce, sent)
    ensures var d := CachedCall(server, sent, nonces, ttl, endpoint, base, t0, t1, t2);
            && d.outcome.Answered? && d.outcome.status == 200
            && |d.sent| == |sent| + (if CachedNonce(nonces, ttl, endpoint, t0).0 == nonce then 1 else 2)
            && endpoint in d.nonces && d.nonces[endpoint].nonce == Announced(server, d, nonce)
            && Some(d.nonces[endpoint].createdAt) == ReachedAt(server, sent, nonces, endpoint, d, t1, t2)
  {}

  /** So two calls in a row succeed, and the second takes one request just when the server then
      uses the nonce it announced last and the cache entry has not run out. */
  lemma NextCallTakesOneRequest(server: Server, nonce: string, nonce': string, sent: seq<Request>, nonces: Nonces,
                                ttl: int, endpoint: string, base: Request, base': Request,
                                t0: Time, t1: Time, t2: Time, t3: Time, t4: Time, t5: Time)
    requires SteadyFor(server, nonce, sent)
    requires SteadyFor(server, nonce', CachedCall(server, sent, nonces, ttl, endpoint, base, t0, t1, t2).sent)
    ensures var d := CachedCall(server, sent, nonces, ttl, endpoint, base, t0, t1, t2);
            && ReachedAt(server, sent, nonces, endpoint, d, t1, t2).Some?
            && var d' := CachedCall(server, d.sent, d.nonces, ttl, endpoint, base', t3, t4, t5);
               && d'.outcome.Answered? && d'.outcome.status == 200
               && (|d'.sent| == |d.sent| + 1 <==>
                     && nonce' == Announced(server, d, nonce)
                     && t3 - ReachedAt(server, sent, nonces, endpoint, d, t1, t2).value <= ttl)
               && |d'.sent| <= |d.sent| + 2
  {
    var d := CachedCall(server, sent, nonces, ttl, endpoint, base, t0, t1, t2);
    CallConverges(server, nonce, sent, nonces, ttl, endpoint, base, t0, t1, t2);
    CallConverges(server, nonce', d.sent, d.nonces, ttl, endpoint, base', t3, t4, t5);
  }

  /** The last nonce the server sent during a call, "" if it sent none. */
  function LastNonce(server: Server, from: nat, sent: seq<Request>): string
    requires from <= |sent|
    decreases |sent|
  {
    if |sent| == from then ""
    else if server(sent).Answer? && server(sent).response.dpopNonce != "" then server(sent).response.dpopNonce
    else LastNonce(server, from, sent[..|sent| - 1])
  }

  /** A 200 that brings no token: its body is not JSON or not a token. */
  predicate Undecodable(r: Response) {
    r.status == 200 && (r.body.None? || Parse(r.body.value).None?)
  }

  /** The cache ends with the last nonce the server sent, unless a 200 body that cannot be
      decoded came with it: that response's nonce is dropped (rp/dpop.go:315-321). */
  lemma CacheHoldsLastNonce(server: Server, sent: seq<Request>, nonces: Nonces, endpoint: string, base: Request,
                            p: Proofs, t1: Time, t2: Time)
    requires p.attach && p.canSign
    ensures var d := Call(server, sent, nonces, endpoint, base, p, t1, t2);
            && |sent| < |d.sent|
            && var last, final := LastNonce(server, |sent|, d.sent), server(d.sent);
               var dropped := final.Answer? && Undecodable(final.response) && final.response.dpopNonce != "";
               && (last != "" && !dropped ==> endpoint in d.nonces && d.nonces[endpoint].nonce == last)
               && (last == "" ==> d.nonces == nonces)
               && (dropped && |d.sent| == |sent| + 1 ==> d.nonces == nonces)
               && (dropped && |d.sent| == |sent| + 2 ==>
                     d.nonces == nonces[endpoint := NonceEntry(server(d.sent[..|sent| + 1]).response.dpopNonce, t1)])
  {}

  /** The dropped nonce is a real case: a 200 with a nonce and a body that is not JSON. */
  lemma UndecodableReplyLosesItsNonce(endpoint: string, base: Request, t1: Time, t2: Time)
    ensures var server: Server := _ => Answer(Response(200, "fresh", false, None));
            var d := Call(server, [], map[], endpoint, base, Proofs(true, true, ""), t1, t2);
            LastNonce(server, 0, d.sent) == "fresh" && d.nonces == map[]
  {}
}
