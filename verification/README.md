# Verified model of Lanyard

Lanyard is an OpenID Connect / OAuth 2.0 relying party written in Go. This Dafny project
models its stateful protocol logic and proves what callers rely on, for every input, every
run and every interleaving. `dafny verify dfyconfig.toml` checks everything.

| part | files |
|---|---|
| state stores: sweep, binding, single consumption, buffer ownership, cookie payloads, simulation of one store by the other | `Correlation.dfy`, `MemoryStore.dfy`, `MemoryStoreRuns.dfy`, `MemoryStoreObject.dfy`, `CookieStore.dfy`, `StoreSimulation.dfy` |
| random tokens, base64url, PKCE verifiers | `Base64Url.dfy` |
| login and callback handlers interleaved over the memory store | `Callback.dfy`, `LoginProtocol.dfy` |
| construction checks and what they guarantee in every later call | `AuthMethods.dfy`, `RelyingParty.dfy`, `FapiGuarantees.dfy`, `Text.dfy` |
| token endpoint: DPoP nonce retry, fallback, rotation | `DpopRetry.dfy`, `TokenGrant.dfy`, `TokenRuns.dfy` |
| token payloads and their persisted form | `TokenJson.dfy` |
| remote JWKS cache, sequential and concurrent | `Jwks.dfy`, `JwksInterleaving.dfy` |
| conformance harness scheduler | `Scheduler.dfy` |
| distributed claims | `DistributedClaims.dfy` |

## How the model reads the source

- An instant is an integer number of nanoseconds since Go's zero time, so `IsZero` is
  equality with 0 and `Unix` is a floor division.
- A section under a mutex is one atomic step; a call with two sections is two steps. Iteration
  over a Go map is a loop that picks an arbitrary remaining key. The clock, random bytes, HTTP
  answers and verified JWTs are parameters; a server is an arbitrary function of the requests
  it has been sent.
- The memory store, nonce cache, token client, refresh source, key set and relying party are
  classes. Each method is proved against a function or step relation on values, and the run
  theorems are about those. Byte buffers and key lists are heap arrays, so the copying
  discipline is part of what is proved.
- Interleavings (`LoginProtocol`, `JwksInterleaving`) are runs of a step relation whose
  steps are the atomic sections.

## Where the code does less than its description suggests

- A DPoP nonce that arrives with a 200 whose body cannot be decoded is not stored
  (rp/dpop.go:314-321). `CacheHoldsLastNonce` gives the exact condition and
  `UndecodableReplyLosesItsNonce` a concrete instance.
- An entry made by `SaveValue` alone is consumed by the memory store as an empty correlation
  and lets a callback exchange a code without a verifier. That happens under all settings and
  for every state (`ValueAloneAllowsAnExchange`), and only for states under which the
  application stored a value (`WithoutValuesEveryExchangeIsExact`).
- A FAPI relying party whose provider metadata names no issuer discovers a provider and
  negotiates its client authentication again on every callback (rp/callback.go:92-107). It
  keeps its method if and only if the provider names its issuer, the client insists on a
  method, or the openid scope is absent (`FapiKeepsAsymmetricMethod`); otherwise one callback
  can take it away (`UnfixedMethodIsLost`).
- The cookie store can miss a live correlation in the last second before a deadline, because
  it keeps whole seconds. `CookieSimulatesMemory` says exactly when, `LastSecondMiss` is a
  run in which it does.
- `markRefreshAttempt` may act on an entry that has been replaced since it was read, and a
  refresh of such an entry brings its older mark back (jwks/remote_keyset.go:80-91, 180-192).
  A mark can come too soon if and only if the entry marked does not carry the latest mark
  (`EarlyMarkJustOnMissingMark`). `OverlappingMarksBunch` and `LateInstallLosesMark` are runs
  in which one does; in runs that never mark or refresh a replaced entry none does
  (`UpToDateMarksKeepTheirDistance`). Genuineness of keys holds under every interleaving.
- A value filed in the memory store under a state whose entry has expired unnoticed is lost
  at once (`LateValueIsLost`; `SavedValueIsLoaded` has the exact condition), where the cookie
  store starts the entry afresh (`FiledValueIsFound`).
- `LoadState` of the memory store deletes after locking again without a second look
  (rp/store/memory/store.go:199-203), so a state saved again in between is lost
  (`LateForgetLosesRenewal`). It takes an expired entry under the same state.

## Model

| member | source | states |
|---|---|---|
| MemoryStore.SweepLocked | rp/store/memory/store.go:159-177 | for every map order: only unexpired entries survive, exactly as many as fit under 4096, unchanged, and no evicted live entry was due later than a survivor; the loop ends because no key is empty |
| MemoryStore.EvictSoonest | rp/store/memory/store.go:166-176 | over capacity exactly the excess goes, and nothing evicted was due later than anything kept |
| MemoryStore.SoonestToExpire | rp/store/memory/store.go:166-175 | the scan with the empty-string sentinel finds an entry of least created-plus-TTL |
| MemoryStore.SweptSize | rp/store/memory/store.go:159-177 | after a sweep there are at most 4096 entries, and as many as were alive up to that |
| MemoryStoreRuns.ConsumedIsLatestSaved | rp/store/memory/store.go:65-144 | in every run a non-zero correlation handed out is the latest saved under its state, not retired since, unexpired, and asked for with the matching binding |
| MemoryStoreRuns.ConsumedOncePerSave | rp/store/memory/store.go:116-144 | between two consumptions under one state lies another save |
| MemoryStoreRuns.SavedStaysConsumable | rp/store/memory/store.go:131-143 | below capacity nothing but a retirement or its deadline removes a saved correlation, in whatever order calls read the clock: wrong-browser callbacks and value operations leave it; the late delete of a `LoadState` counts as a retirement |
| MemoryStoreRuns.LateForgetLosesRenewal | rp/store/memory/store.go:199-203 | for every TTL and state a run in which that late delete removes a correlation just saved |
| MemoryStoreRuns.RightBrowserSucceeds | rp/store/memory/store.go:136-143 | until then the right browser gets exactly the saved correlation, and a mismatching request gets nothing and changes nothing |
| MemoryStoreRuns.YieldedIsLatestSaved | rp/store/memory/store.go:223-346 | in every run each value loaded or consumed, alone or with its scope, is the latest saved under its name, byte for byte, and not dropped since |
| MemoryStoreRuns.ConsumedValueIsGone | rp/store/memory/store.go:314-346 | a consumed value is not handed out again before it is saved again |
| MemoryStoreRuns.SavedValueStays | rp/store/memory/store.go:223-346 | below capacity nothing but a drop or the expiry of its entry removes a saved value |
| MemoryStoreRuns.SavedValueIsLoaded | rp/store/memory/store.go:248-285 | until then a load finds it, byte for byte, if and only if the entry has not expired at the load |
| MemoryStoreRuns.LateValueIsLost | rp/store/memory/store.go:234-242 | for every TTL a three-event run in which a value is filed under an expired entry and missed at once |
| MemoryStoreRuns.ExpiredJustWhen | rp/store/memory/store.go:355-369 | expiry in instants: past the TTL since the creation of the correlation, or of the entry where there is none, or past the correlation's own deadline |
| MemoryStoreRuns.AgeCountsFromFirstSave | rp/store/memory/store.go:234-242 | in every run an entry's creation time is that of the save that made it, whatever was saved under its state later |
| MemoryStoreRuns.ValueDeadline | rp/store/memory/store.go:248-285 | a value under a state without a correlation is found exactly until the TTL has passed since the first save under the state |
| MemoryStoreRuns.SavedValueIsTaken | rp/store/memory/store.go:314-346 | `ConsumeValue` finds what a load would find, and `LoadState` has every value filed |
| MemoryStoreRuns.SavedCorrelationIsLoaded | rp/store/memory/store.go:180-207 | `LoadState` shows an outstanding correlation just as long as it is alive |
| MemoryStoreRuns.NoEmptyEntries | rp/store/memory/store.go:331-345 | in every run each entry has a correlation or a value |
| MemoryStoreRuns.ExpiredEntriesGo | rp/store/memory/store.go:131-134 | an entry an operation finds expired is gone afterwards |
| MemoryStoreObject.Store.SaveCorrelation | rp/store/memory/store.go:65-114 | the call is a save step of the run model with the stamped correlation and the cookie's or drawn binding, and sets the cookie just when it binds |
| MemoryStoreObject.BindingNeedsRequest | rp/store/memory/store.go:146-157 | the binding is the request's cookie, and none without a request |
| MemoryStoreObject.Store.ConsumeCorrelation | rp/store/memory/store.go:119-144 | the call is a consume step of the run model |
| MemoryStoreObject.Store.ReadState | rp/store/memory/store.go:187-198 | the first locked section is a load step of the run model and returns the scope in buffers that are all new and not the store's |
| MemoryStoreObject.Store.ForgetState | rp/store/memory/store.go:199-203 | the second deletes whatever is there by then |
| MemoryStoreObject.Store.LoadState | rp/store/memory/store.go:180-207 | the two in a row |
| MemoryStoreObject.Store.SaveValue | rp/store/memory/store.go:223-245 | files a private copy; the store's buffers grow only by newly allocated ones |
| MemoryStoreObject.Store.ReadValue | rp/store/memory/store.go:256-267 | the first locked section is a load step of the run model and returns a new buffer outside the store |
| MemoryStoreObject.Store.RecheckState | rp/store/memory/store.go:272-277 | the second deletes what is there by then only if that has expired |
| MemoryStoreObject.Store.LoadValue | rp/store/memory/store.go:248-285 | the two in a row |
| MemoryStoreObject.Store.ConsumeValue | rp/store/memory/store.go:314-346 | takes the value in a new buffer and drops an entry left empty |
| MemoryStoreObject.OverwriteForeignBuffer | rp/store/memory/store.go:375-395 | overwriting any buffer the store does not own changes nothing it holds |
| MemoryStoreObject.SaveScribbleLoad | rp/store/memory/store.go:387-395 | a caller that overwrites the buffer it saved and the one it loaded still loads the original bytes, and loads anything just when the state had no expired entry |
| CookieStore.ValueRoundTrip | rp/store/cookie/store.go:234-300 | a value comes back byte for byte, is taken once, and taking it disturbs neither the correlation nor other values |
| CookieStore.FiledValueIsFound | rp/store/cookie/store.go:234-262 | a value is there right after it was filed, under an expired entry too |
| CookieStore.FiledValueDeadline | rp/store/cookie/store.go:234-300 | a value filed under a new state is found exactly until the TTL has passed since the second of filing, and no correlation beside it |
| CookieStore.FilingDisturbsNothing | rp/store/cookie/store.go:234-262 | filing a value leaves other values and the correlation of a live state as they were |
| CookieStore.CorrelationKeepsValues | rp/store/cookie/store.go:109-140 | saving a correlation keeps the values of its state and drops no state |
| CookieStore.ScopeHasTheValue | rp/store/cookie/store.go:184-213 | a loaded scope has the correlation and every value of the state, byte for byte; it is missing just when the entry is stale and an error only if a value does not decode |
| CookieStore.BadCookieStopsAll | rp/store/cookie/store.go:386-431 | a cookie of another version, or one that does not decode, is an error in every operation |
| StoreSimulation.CookieSimulatesMemory | rp/store/cookie/store.go:109-213 | on every correlation-only run what the cookie store finds the memory store finds, equal up to whole seconds and client credentials; it misses one the memory store finds if and only if a deadline has passed by whole seconds, which takes the last second before it |
| StoreSimulation.LastSecondMiss | rp/store/cookie/store.go:467-488 | for every positive TTL a run in which it does |
| StoreSimulation.StaleIsDue | rp/store/cookie/store.go:467-558 | expiry on the truncated payload is implied by expiry on the correlation, and differs from it only in the last second |
| Correlations.UnixRoundTrip | rp/store/cookie/store.go:545-550 | whole seconds survive conversion, and an instant comes back as the start of its second |
| Correlations.StampedOnce | rp/store/memory/store.go:71-73 | a creation time is stamped on a correlation without one, and on no other |
| Base64Url.RoundTrip | rp/authrequest.go:189-195 | decoding undoes encoding for every byte string (section 5 of RFC 4648) |
| Base64Url.SameNumbers | rp/authrequest.go:189-195 | an encoding says the number its bytes say, three bytes in four digits, one or two left over filled up with zero bits |
| Base64Url.DecodesJustWhen | rp/store/cookie/store.go:501-515 | a text decodes just when it is made of digits and line breaks and its digits are not one more than a multiple of four |
| Base64Url.VerifierNeverRejected | rp/pkce.go:16-52 | 32 random bytes always give a 43-character verifier that passes its own check and determines the bytes |
| Base64Url.VerifiersAre | rp/pkce.go:39-52 | a verifier is valid just when it has 43 to 128 characters out of the digits, dot and tilde |
| Base64Url.TokensAreTheBytes | rp/authrequest.go:189-195 | a token exists just when randomness does, and decodes to those bytes |
| AuthMethods.NormalizeSupported | rp/auth_method.go:43-59 | the loop with its seen-map computes the distinct normalised names in order of first occurrence |
| AuthMethods.OutcomeDependsOnNames | rp/client_config.go:107-158 | selection depends on the set of normalised names alone |
| AuthMethods.SpellingNeverMatters | rp/auth_method.go:43-96 | permuting, duplicating, re-casing or padding the advertised list never changes the outcome |
| AuthMethods.SelectedIsUsableAndOffered | rp/client_config.go:107-192 | a selected method has its credential, is advertised, an mTLS sibling of an advertised one or none, and leaves the fallback open only when nothing was said |
| AuthMethods.FirstWishDecides | rp/client_config.go:107-158 | with nothing configured and something advertised the outcome is decided by the first wish in the source's order of preference whose credential is there and whose name, or mTLS sibling, is advertised |
| AuthMethods.NoAuthJustWhenNoWish | rp/client_config.go:124-144 | a client then goes without authentication just when no wish is granted |
| AuthMethods.ConfiguredDecides | rp/client_config.go:112-117 | a configured method is selected just when it is usable and offered, unsupported just when not offered, and never exchanged for another |
| AuthMethods.NothingSaid | rp/client_config.go:146-155 | with nothing said on either side it is post with the fallback open, or invalid without a secret |
| AuthMethods.UsableJustWhen | rp/client_config.go:160-192 | which credential each method takes |
| AuthMethods.NamesInOrder | rp/auth_method.go:43-59 | the normalised names stand in the order of their first occurrence, each once |
| AuthMethods.UnknownNames | rp/auth_method.go:61-96 | a configured name that is no known method is compared in normal form |
| RelyingParties.RP.ApplyProfileDefaults | rp/rp.go:499-557 | setting the fields in sequence gives the profile's defaults without overriding an explicit choice |
| RelyingParties.RP.ResolveAuthMethod | rp/auth_method.go:28-41 | records the negotiated method, or leaves the state alone on an error |
| RelyingParties.New | rp/rp.go:183-256 | an object results just when every construction check passes, with defaulted settings and negotiated method |
| RelyingParties.AcceptedJustWhen | rp/rp.go:84-128 | a configuration is accepted just when it is complete and keeps its own promises; under FAPI that takes asymmetric authentication, a sender constraint, PAR or (outside FAPI 2) signed requests, and a client key of 2048 bits or more that signs with PS256 or ES256 |
| RelyingParties.DefaultsAre | rp/rp.go:499-557 | the defaults of each profile, setting by setting; no explicit choice is overridden and nothing else changes |
| RelyingParties.OnlyOpenIDDropped | rp/rp.go:559-567 | dropping the openid scope drops nothing else |
| RelyingParties.OpenIDScope | rp/callback.go:372-379 | a scope is OpenID's without regard to case or surrounding white space |
| RelyingParties.JwtModes | rp/jarm.go:155-160 | a response mode that mentions jwt in any case asks for JWTs |
| RelyingParties.EndpointsJustWhen | rp/endpoints.go:9-51 | the mTLS alias of an endpoint counts just for clients that authenticate with a certificate or, at the token endpoint, are constrained to one |
| RelyingParties.RequestSaysItAll | rp/par.go:43-70 | an authorization request by parameter name: the first `state`, `nonce`, `code_challenge`, `code_challenge_method`, `client_id`, `redirect_uri`, `response_type`, `scope` and `response_mode` are the ones drawn or configured, extras only follow, and there is nothing else |
| RelyingParties.ObjectSays | rp/request_object.go:52-115 | a signed request object by claim name; no parameter of the caller's adds to or replaces a standard claim, in whatever case it is written, and the nonce is there just with OpenID |
| RelyingParties.ObjectAgreesWithParams | rp/request_object.go:52-115 | every claim but issuer and audience has the first value of the plain parameter of its name |
| RelyingParties.RedirectSaysItAll | rp/authrequest.go:122-187 | for every login: pushed just when client or provider requires it, asking in full, plainly in redirect or push or in a signed object that stands for the rest just when pushed; after a push the browser carries a reference alone |
| RelyingParties.RedirectFailsJustWhen | rp/authrequest.go:129-187 | a login fails just on a signature, assertion, push or endpoint that is needed and cannot be had |
| Callbacks.ResponseServesOneIssuer | rp/callback.go:179-197 | a response accepted for one transaction is refused for every transaction with another issuer just when it is a signed JWT or issuer validation is on |
| Callbacks.LoginCarriesNonce | rp/idtoken.go:194-245 | a login with an ID token has the expected nonce, subject and currency, and the issuer and audience of the transaction, or of the relying party itself if the token is unsecured |
| Callbacks.LoginJustWhen | rp/callback.go:205-282 | a granted token ends in a login just when there is an access token and, with OpenID, an ID token that is signed (or unsecured where allowed) and passes every claim check, and outside FAPI no user information or that of the same subject; the login has that subject, that token and the transaction's issuer |
| Callbacks.AcceptsJustWhenGood | rp/idtoken.go:194-245 | exactly which ID tokens pass: issuer, subject, audience and authorized party, expiry, issue time, nonce, and under FAPI recency |
| Callbacks.ProceedsJustWhen | rp/callback.go:150-200 | the code exchange goes ahead just when the ID token of the response, if there is one, is good and its hashes match, and the issuer named is the transaction's, unless the response is plain and validation is off |
| Callbacks.JwtResponseJustWhen | rp/jarm.go:113-149 | a JWT response counts just when it is signed, names an issuer and this client, is current and brings no error |
| Callbacks.PlainResponseJustWhen | rp/callback.go:53-74 | a plain response counts just where no JWT was asked for and it brings no error |
| Callbacks.ProviderJustWhen | rp/callback.go:92-107 | which provider a callback uses, and when there is none |
| Callbacks.ConventionalEndpoints | rp/rp.go:617-633 | the endpoints of a provider without metadata |
| LoginProtocol.BrowserIsSentWithWhatIsSaved | rp/authrequest.go:15-187 | in every interleaving, under each state with a saved correlation: that correlation has the nonce, verifier and resources drawn with the state, and the browser was sent off asking, plainly or in the object signed, with that very state, that nonce and the challenge drawn with that verifier; under a pushed request it runs out with the request |
| LoginProtocol.OneExactExchangePerState | rp/callback.go:121-215 | in every interleaving each state leads to at most one exchange on the correlation saved under it, with exactly the verifier and resources drawn with it; an ID token in the authorization response carried the nonce drawn with it |
| LoginProtocol.ArrivalCarriesItsNonce | rp/callback.go:230-237 | a login ends on the correlation saved under its state, for the relying party's issuer, with an ID token that carries the non-empty nonce drawn with the state and, outside FAPI, with no user information but that of the ID token's subject |
| LoginProtocol.DrawingsStand | rp/authrequest.go:110-122 | fresh random bytes never collide with an earlier state, so a drawing is never replaced |
| LoginProtocol.ValuedOnlyBySaving | rp/store/memory/store.go:223-245 | only an earlier `SaveValue` can lead to an exchange without a correlation |
| LoginProtocol.WithoutValuesEveryExchangeIsExact | rp/callback.go:137-147 | where no value was stored under a state, every exchange for it is based on a saved correlation |
| LoginProtocol.ValueAloneAllowsAnExchange | rp/store/memory/store.go:142-143 | for every state and all settings, issuer validation and JWT responses included, a three-step run in which a value-only entry lets a code be exchanged without verifier |
| FapiGuarantees.FapiKeepsAsymmetricMethod | rp/callback.go:92-107 | an accepted FAPI relying party keeps its asymmetric method with fallback off through every run, and sends every token request with it, if and only if its provider names its issuer, the client insists on a method, or the openid scope is absent |
| FapiGuarantees.FixedMethodIsKept | rp/authrequest.go:105-108 | the first half, run by run |
| FapiGuarantees.UnfixedMethodIsLost | rp/callback.go:92-106 | the second half: in every other case one callback to a provider that advertises "none" leaves the client without authentication |
| FapiGuarantees.SomeMethodsAreNotFixed | rp/rp.go:425-463 | `New` does accept such a relying party |
| FapiGuarantees.Fapi2LoginsArePushed | rp/authrequest.go:129-153 | under FAPI 2 every redirect was pushed and adds only client_id and request_uri; the push says in full what is asked, plainly or in the signed object, and is authenticated asymmetrically, with a client assertion just under private_key_jwt; a signed push has no plain parameter but the client id, and that just under tls_client_auth |
| FapiGuarantees.FapiCallbacksNameTheIssuer | rp/rp.go:235-241 | under FAPI 1 Advanced and FAPI 2 issuer validation is always on, and a callback proceeds only if the response or its signed ID token names the transaction's issuer |
| FapiGuarantees.MessageSigningNeedsJarm | rp/callback.go:53-74 | under Message Signing a callback proceeds only on a signed JWT response whose issuer is the transaction's |
| FapiGuarantees.DpopRequestsCarryProofs | rp/token_exchange.go:200-202 | every token request of every run of an accepted relying party with DPoP as its constraint carries a proof, FAPI or not |
| FapiGuarantees.ExecutesJustWithEndpoint | rp/callback.go:205-209 | a grant sends something just when there is a token endpoint, the request can be built and a proof that is due can be signed; nonces of other endpoints stay |
| FapiGuarantees.LoginRestoresMethod | rp/authrequest.go:105-108 | a login negotiates as construction did, whatever callbacks have made of the method since |
| DpopRetry.NonceStore.Get | rp/dpop_nonce_store.go:31-45 | returns the unexpired nonce and forgets an expired one |
| DpopRetry.NonceStore.Put | rp/dpop_nonce_store.go:47-51 | replaces the endpoint's nonce and nothing else |
| DpopRetry.DoRequestWithDPoPRetry | rp/dpop.go:302-345 | sends, stores and retries as the call function says |
| DpopRetry.CallSendsAtMostTwo | rp/dpop.go:302-345 | one or two requests, differing only in the proof |
| DpopRetry.RetriesJustWhen | rp/dpop.go:170-189 | the first proof has the nonce given, and a second request follows just when the first was answered by a 400 or a 401 with a nonce, and has that nonce in its proof |
| DpopRetry.BodyDecodedAtMostOnce | rp/http.go:26-49 | only the last reply is ever decoded, and the outcome is what that reply says |
| DpopRetry.CallConverges | rp/dpop.go:302-345 | a call succeeds within two requests if the server (section 8 of RFC 9449) keeps its nonce during the call, whatever it did before and does later; within one just when the cached nonce is current; the cache ends with the nonce announced last, dated by the response that brought it |
| DpopRetry.NextCallTakesOneRequest | rp/dpop_nonce_store.go:31-51 | the next call takes one request just when the server then uses the nonce it announced last and no more than the TTL has passed since the response that brought it |
| DpopRetry.CacheHoldsLastNonce | rp/dpop.go:314-341 | the cache ends with the last nonce sent unless it came with an undecodable 200, and exactly what it holds then |
| DpopRetry.UndecodableReplyLosesItsNonce | rp/dpop.go:314-321 | a concrete server whose nonce is dropped |
| TokenGrant.Client.ExecuteTokenGrant | rp/token_exchange.go:57-106 | runs attempts, fallback and state changes as the grant function says |
| TokenGrant.GrantSendsAtMostFour | rp/token_exchange.go:57-106 | at most four requests, each carrying this grant, by the method on record or basic |
| TokenGrant.ProofsAttachedJustWhen | rp/dpop.go:253-268 | which requests carry a proof: a relying party's just when it is constrained to DPoP and has a key; those of a client credentials grant just when it has a key, is not constrained to mTLS and authenticates by key or certificate; the first has the cached nonce if that has not run out |
| TokenGrant.SendsJustWhen | rp/token_exchange.go:143-169 | anything is sent just when the first request can be built and a proof that is due can be signed; otherwise the grant fails and the method stays |
| TokenGrant.EveryEnding | rp/token_exchange.go:57-106 | the result of every grant, told from the last answer alone |
| TokenGrant.RefusedJustWhen | rp/token_exchange.go:64-76 | which tokens of a 200 are refused, and as what |
| TokenGrant.NoncesElsewhere | rp/dpop_nonce_store.go:31-51 | a grant leaves nonces of other endpoints alone |
| TokenGrant.ErrorCodeOf | rp/token_exchange.go:108-117 | the code of a rejection is the body's error member |
| TokenGrant.NoErrorCode | rp/token_exchange.go:108-117 | and there is none unless that member and the description, if any, are strings |
| TokenGrant.DpopTypes | rp/token_exchange.go:64-68 | the token type is compared without regard to case or white space |
| TokenGrant.ResultIsLastAnswer | rp/token_exchange.go:64-100 | a grant succeeds just when the last answer is a 200 with access token and type (section 5.1 of RFC 6749), and type DPoP when that is required, and returns that answer's token |
| TokenGrant.RejectionIsLastAnswer | rp/token_exchange.go:102-117 | a rejection reports the last answer's status and error code and leaves the method on record |
| TokenGrant.BasicFollowsRejectedPost | rp/token_exchange.go:86-87 | basic is tried just when post was answered with 400 or 401 while the fallback is open |
| TokenGrant.MethodSettlesOnSuccess | rp/token_exchange.go:80-99 | the state moves only on a granted token while the fallback is open, to the method that succeeded |
| TokenRuns.TokenRunSettles | rp/client_credentials.go:82-94 | over any run the state settles once, at the first granted call, on post or basic |
| TokenRuns.SettledCallsUseOneMethod | rp/client_credentials.go:82-94 | afterwards every call is a single attempt with that method |
| TokenRuns.RefreshTokenSource.Refresh | rp/refresh_rotation.go:50-64 | the locked call is one refresh step |
| TokenRuns.RefreshPresentsCurrent | rp/refresh_token.go:24-53 | every request of a call presents the token held, the result carries the one held afterwards, which is the one an accepted answer brought or else the same |
| TokenRuns.PresentedWasIssued | rp/refresh_rotation.go:50-64 | over any run, other grants in between included, every token presented is the initial one or came in an accepted answer to an earlier call |
| TokenRuns.NoOlderTokenPresented | rp/refresh_rotation.go:50-64 | against a server that answers with the token presented or a new one, no replaced token is ever presented again |
| TokenJson.PersistRoundTrip | rp/token_source.go:50-131 | restoring a persisted token gives it back exactly just when its payload has a token's shape |
| TokenJson.ProviderTokenRoundTrip | rp/token_source.go:109-185 | any provider token, its fields edited or cleared, survives with its payload, even one with its own raw member |
| TokenJson.RestoredTokenRoundTrip | rp/token_source.go:50-107 | a restored token survives further round trips |
| TokenJson.HandMadeTokenRoundTrip | rp/token_source.go:112-120 | a token without payload keeps its fields and gains a payload that decodes to them |
| TokenJson.LegacyEnvelope | rp/token_source.go:74-104 | a raw-only envelope decodes as parsing its payload does |
| TokenJson.ParsesByName | rp/token_source.go:173-185 | a token response by member name (section 5.1 of RFC 6749): when it parses, and what each field then says |
| TokenJson.OtherDocuments | rp/token_source.go:173-185 | a document that is neither an object nor null is no token |
| TokenJson.FieldsByName | rp/token_source.go:112-120 | the fields alone are written under the names they are read by, optional ones just when not empty |
| TokenJson.EnvelopeByName | rp/token_source.go:112-131 | a persisted token has every name, and the payload |
| Jwks.DecodeJwks | jwks/http_fetch.go:57-79 | bad entries are skipped in order, and a document of bad entries only is an error |
| Jwks.KeysInOrder | jwks/http_fetch.go:65-72 | by index: the keys kept are those of the good entries, each once, all of them, in the document's order |
| Jwks.DecodesJustWhen | jwks/http_fetch.go:57-79 | a body is refused just when it is no document, or has entries none of which is good |
| Jwks.FindsFirstServed | jwks/remote_keyset.go:152-160 | looking up an id finds the first good key served with it |
| Jwks.FindsNoneServed | jwks/remote_keyset.go:152-160 | and none just when none is served |
| Jwks.CacheEntry.KeysCopy | jwks/cache.go:37-39 | the returned list is a new array with the entry's keys |
| Jwks.RemoteKeySet.Refresh | jwks/remote_keyset.go:162-208 | installs the new entry the answer calls for, or keeps the cache on an error |
| Jwks.RemoteKeySet.Keys | jwks/remote_keyset.go:94-118 | answers from the cache when it can, stale or not, in a list that is not the cache's, and says whether a background refresh is on its way |
| Jwks.RemoteKeySet.Key | jwks/remote_keyset.go:121-150 | an unknown id forces one refresh, throttled by the mark, whether or not a background refresh ends in between |
| Jwks.OverwriteReturnedKeys | jwks/cache.go:27-39 | overwriting a returned list never changes the cache |
| Jwks.KeyAnswersAreRight | jwks/remote_keyset.go:121-150 | a key found has the id asked for and was held before or after the call; one not found was in neither list, unless a background refresh brought it during the call and throttling or a failed fetch kept the call from looking |
| Jwks.ServedKeyIsFound | jwks/remote_keyset.go:121-150 | an id not held is found if the origin serves it: always on the first call, later whenever the minimum interval since the last mark is over |
| Jwks.ThrottledKeyIsNotFound | jwks/remote_keyset.go:80-91 | within the interval there is neither a request nor a mark |
| Jwks.FailedFetchAnswers | jwks/remote_keyset.go:131-150 | when the forced fetch fails, a set that holds keys says not found and an empty one the failure; the mark stands |
| Jwks.BackgroundRefreshCounts | jwks/remote_keyset.go:121-150 | a background refresh that ends during the call is what is throttled, marked and asked about |
| Jwks.RefreshFailsJustWhen | jwks/remote_keyset.go:162-208 | a refresh fails just on a failed fetch, a 304 to nothing and a body that does not decode |
| Jwks.NextReadGoesByTheAnswer | jwks/remote_keyset.go:94-118 | the entry installed answers at once, starts a background refresh just when no more than the expiry margin is left of its freshness, and asks next time with the last entity tag |
| Jwks.KeysNeverFailAgain | jwks/remote_keyset.go:94-118 | once one fetch has succeeded `Keys` never fails |
| Jwks.MarksKeepTheirDistance | jwks/remote_keyset.go:80-91 | any two marks are at least the minimum interval apart, across successful, 304 and failed refreshes |
| JwksInterleaving.ReturnedKeysWereServed | jwks/remote_keyset.go:80-208 | under every interleaving each list returned is the decodable keys of a body the origin served |
| JwksInterleaving.InstalledKeysWereCurrent | jwks/remote_keyset.go:174-192 | an installed entry has the keys served at the moment of its fetch, after a 304 too |
| JwksInterleaving.EarlyMarkJustOnMissingMark | jwks/remote_keyset.go:80-91 | under every interleaving a worker can mark less than the minimum interval after the latest mark if and only if the entry it has read does not carry that mark |
| JwksInterleaving.UpToDateMarksKeepTheirDistance | jwks/remote_keyset.go:80-91 | which is not so, and any two marks are at least the minimum interval apart, as long as no entry is marked or refreshed that is no longer the cached one |
| JwksInterleaving.OverlappingMarksBunch | jwks/remote_keyset.go:88-89 | for every positive minimum interval a run in which a mark on an entry replaced since it was read comes a nanosecond after another |
| JwksInterleaving.LateInstallLosesMark | jwks/remote_keyset.go:180-192 | the same where a refresh of a replaced entry has put an older mark back into the cache |
| JwksInterleaving.NeverMissingAgain | jwks/remote_keyset.go:94-112 | once something is cached no caller misses again, whatever overlaps |
| Scheduler.ScheduleJobs | conformance/harness/scheduler.go:19-83 | for every completion order the output is what the first jobs reported, in job order; all of them unless fail-fast met a failure |
| Scheduler.RunAll | conformance/harness/scheduler.go:48-73 | the loop follows a legal schedule to its end and terminates |
| Scheduler.NeverTooManyNeverBlocked | conformance/harness/scheduler.go:30-65 | never more than the limit running, every launched job accounted for exactly once, a sender always finds room |
| Scheduler.LimitHolds | conformance/harness/scheduler.go:19-30 | the limit asked for holds at every point; one that is not positive means one at a time |
| Scheduler.WaitsOnlyWhenFull | conformance/harness/scheduler.go:48-58 | the loop waits only when every job has been started, the limit is reached or a failure has stopped it |
| Scheduler.LaunchJobs | conformance/harness/scheduler.go:49-52 | the inner loop follows the schedule until nothing more may be started |
| Scheduler.SchedulesEnd | conformance/harness/scheduler.go:48-65 | a schedule of n jobs has at most 3n events |
| Scheduler.NothingLaunchedAfterFailure | conformance/harness/scheduler.go:61-64 | after a failure is received nothing more is launched |
| Scheduler.ReportsWereSent | conformance/harness/scheduler.go:42-45 | reports are exactly what goroutines sent |
| DistributedClaims.ResolveNames | rp/userinfo.go:136-166 | for every order of the claim names: same success, same claims, no source fetched twice, on success exactly the referenced ones |
| DistributedClaims.ResolveDistributedClaims | rp/userinfo.go:120-172 | equals the orderless resolution without memoisation; nothing unreferenced is fetched |
| DistributedClaims.FetchedJustWhenVouched | rp/userinfo.go:174-289 | a source counts just when its claims came in its JWT, or else from its endpoint asked with its own token, and name no subject other than the one expected |
| DistributedClaims.AssertedJustWhenBacked | rp/userinfo.go:136-166 | a claim name is resolved just from the source it refers to |
| DistributedClaims.ResolvesJustWhenBacked | rp/userinfo.go:136-166 | resolution fails just when some claim name has no source that vouches |
| DistributedClaims.ResolvedClaims | rp/userinfo.go:136-171 | claim by claim, the resolved value is the one its source vouches for; every other claim stays and the references are gone |
| DistributedClaims.OtherPayloads | rp/userinfo.go:120-135 | without references nothing changes; malformed ones are an error |

## Left out

- HTTP transport, TLS wiring, URL parsing, the redirect policy of `doSensitiveRequest`, cookies on the wire and session encryption: foreign I/O; a cookie that fails to be written is not modelled.
- Signing, verification, decryption and hashing: a JWT arrives as refused, signed or unsecured, hash checks as a flag, the PKCE challenge as a parameter; the request-object signer is an arbitrary function of the text claims.
- RelyingParties.ObjectSays: the times and identifier the signer adds, and the structured claims (resource, claims, authorization_details, grant management), are not modelled.
- JSON is modelled as trees with exact member names: case-insensitive matching of Go struct fields, duplicate members and white space are not.
- Case folding and white space cover ASCII and Latin-1, not the rest of Unicode.
- Request object by reference (`requestURIHandler`), grant management, claims and resource parameter syntax: carried as extra parameters of the plain request or omitted; they add field copying only.
- Provider discovery and metadata merging: the resolved provider is a parameter of `New`.
- `resources` slices of a correlation are values; their sharing with callers is not modelled.
- Wrapped error texts: an error is an absent result, except where callers branch on it.
- Jwks.MarksKeepTheirDistance: is about calls one after the other; for overlapping ones see `JwksInterleaving.UpToDateMarksKeepTheirDistance`.
- JwksInterleaving.EarlyMarkJustOnMissingMark: `markRefreshAttempt` runs under no mutex in the source; its test, its update and its write to the cache are one step here.
- TokenRuns.PresentedWasIssued: a grant is one step, so grants of one client do not interleave within a call; between calls they may do anything.
- JwksInterleaving.ReturnedKeysWereServed: any cached read may start a background refresh there; the freshness test that decides it is modelled in `Jwks.RemoteKeySet.Keys`.
- FapiGuarantees.FapiKeepsAsymmetricMethod: logins, callbacks from negotiation on and refreshes are atomic there.
- Dynamic registration, introspection, identity assurance, metadata refresh, demo and harness code other than the scheduler: field copying, or repeats of shapes proved here.
