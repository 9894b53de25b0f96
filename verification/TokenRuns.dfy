/** Sequences of grants on one client: client credentials tokens
    (rp/client_credentials.go) and refresh-token rotation (rp/refresh_rotation.go). */
module TokenRuns {
  import opened Correlations
  import opened AuthMethods
  import opened TokenJson
  import opened DpopRetry
  import opened TokenGrant

  /** One call of a run: the server as it is by then, and the clock readings the call takes. */
  datatype Moment = Moment(server: Server, at: Ticks, at': Ticks)

  // ---- ClientCredentials.Token ----

  function TokenCall(s: Setup, w: World, m: Moment): (Result, World) {
    Execute(m.server, s, w, ClientCredentialsGrant, m.at, m.at')
  }

  ghost predicate TokenStep(s: Setup, worlds: seq<World>, moments: seq<Moment>, i: nat)
    requires |worlds| == |moments| + 1 && i < |moments|
  {
    worlds[i + 1] == TokenCall(s, worlds[i], moments[i]).1
  }

  ghost predicate TokenRun(s: Setup, worlds: seq<World>, moments: seq<Moment>) {
    && |worlds| == |moments| + 1
    && forall i {:trigger TokenStep(s, worlds, moments, i)} :: 0 <= i < |moments| ==> TokenStep(s, worlds, moments, i)
  }

  /** From post with the fallback open the state can only settle on post or on basic;
      it settles at the first granted call, and never moves again. */
  lemma {:induction false} TokenRunSettles(s: Setup, worlds: seq<World>, moments: seq<Moment>, i: nat, j: nat)
    requires TokenRun(s, worlds, moments) && i <= j <= |moments|
    requires worlds[i].auth.fallback ==> worlds[i].auth.chosen == Post
    ensures worlds[j].auth in {worlds[i].auth, AuthState(Post, false), AuthState(Basic, false)}
    ensures !worlds[i].auth.fallback ==> worlds[j].auth == worlds[i].auth
    ensures worlds[i].auth.fallback ==>
              (worlds[j].auth == worlds[i].auth <==>
                 forall k {:trigger worlds[k]} :: i <= k < j ==> !TokenCall(s, worlds[k], moments[k]).0.Granted?)
    decreases j
  {
    if i < j {
      TokenRunSettles(s, worlds, moments, i, j - 1);
      var w, m := worlds[j - 1], moments[j - 1];
      assert TokenStep(s, worlds, moments, j - 1);
      MethodSettlesOnSuccess(m.server, s, w, ClientCredentialsGrant, m.at, m.at');
    }
  }

  /** From the given position on, every request asks for a client credentials token by method `m`. */
  ghost predicate AllSentBy(sent: seq<Request>, from: nat, m: AuthMethod) {
    forall k :: from <= k < |sent| ==> sent[k].auth == m && sent[k].grant == ClientCredentialsGrant
  }

  /** Once settled, every call is a single attempt with the settled method. */
  lemma SettledCallsUseOneMethod(s: Setup, worlds: seq<World>, moments: seq<Moment>, i: nat, j: nat)
    requires TokenRun(s, worlds, moments) && i <= j < |moments| && !worlds[i].auth.fallback
    ensures worlds[j].sent <= worlds[j + 1].sent
    ensures |worlds[j + 1].sent| <= |worlds[j].sent| + (if UsesDpop(s, worlds[i].auth.chosen) then 2 else 1)
    ensures AllSentBy(worlds[j + 1].sent, |worlds[j].sent|, worlds[i].auth.chosen)
  {
    TokenRunSettles(s, worlds, moments, i, j);
    assert TokenStep(s, worlds, moments, j);
    GrantSendsAtMostFour(moments[j].server, s, worlds[j], ClientCredentialsGrant, moments[j].at, moments[j].at');
  }

  // ---- RefreshTokenSource ----

  /** A source: the refresh token it holds, and the client it uses. */
  datatype Source = Source(current: string, world: World)

  /** `Refresh`: a rotated token is adopted, otherwise the returned token is given the current one. */
  function Refreshed(s: Setup, src: Source, m: Moment): (Result, Source) {
    if src.current == "" || s.endpoint == "" then (Broken, src)
    else
      var (r, w) := Execute(m.server, s, src.world, RefreshGrant(src.current), m.at, m.at');
      match r
      case Granted(t) =>
        if t.refreshToken != "" then (r, Source(t.refreshToken, w))
        else (Granted(t.(refreshToken := src.current)), Source(src.current, w))
      case _ => (r, Source(src.current, w))
  }

  /** The source object; its mutex makes a whole `Refresh` one step. */
  class RefreshTokenSource {
    const client: Client
    var current: string

    ghost predicate Valid()
    {
      client.Valid() && client as object != this && client.wire as object != this && client.store as object != this
    }

    ghost function State(): Source
      reads this, client, client.wire, client.store
    {
      Source(current, client.State())
    }

    constructor (client: Client, refreshToken: string)
      requires client.Valid() && refreshToken != ""
      ensures Valid() && this.client == client && current == refreshToken
    {
      this.client := client;
      current := refreshToken;
    }

    method Refresh(m: Moment) returns (result: Result)
      requires Valid() && m.server == client.wire.server
      modifies this, client, client.wire, client.store
      ensures (result, State()) == Refreshed(client.setup, old(State()), m)
    {
      if current == "" || client.setup.endpoint == "" {
        return Broken;
      }
      result := client.ExecuteTokenGrant(RefreshGrant(current), m.at, m.at');
      if result.Granted? {
        if result.token.refreshToken != "" {
          current := result.token.refreshToken;
        } else {
          result := Granted(result.token.(refreshToken := current));
        }
      }
    }
  }

  /** What is left once call `i` returns; other grants of the relying party may then move its
      method, send requests and store nonces before the next call. */
  ghost predicate RefreshStep(s: Setup, states: seq<Source>, moments: seq<Moment>, i: nat)
    requires |states| == |moments| + 1 && i < |moments|
  {
    states[i + 1].current == Refreshed(s, states[i], moments[i]).1.current
  }

  /** Refreshes by any number of callers: the mutex puts them in some order. `states[i]` is
      what call `i` finds. */
  ghost predicate RefreshRun(s: Setup, states: seq<Source>, moments: seq<Moment>) {
    && |states| == |moments| + 1
    && forall i {:trigger RefreshStep(s, states, moments, i)} :: 0 <= i < |moments| ==>
         RefreshStep(s, states, moments, i)
  }

  /** Everything a call sends presents the token held, and no other; what it returns carries
      the token held afterwards; and it adopts a token only from an accepted response. */
  lemma RefreshPresentsCurrent(s: Setup, src: Source, m: Moment)
    ensures var (r, next) := Refreshed(s, src, m);
            && src.world.sent <= next.world.sent
            && (forall k :: |src.world.sent| <= k < |next.world.sent| ==>
                  next.world.sent[k].grant == RefreshGrant(src.current))
            && (r.Granted? ==> r.token.refreshToken == next.current)
            && next.current == if Issued(s, src, m) != "" then Issued(s, src, m) else src.current
  {
    GrantSendsAtMostFour(m.server, s, src.world, RefreshGrant(src.current), m.at, m.at');
    ResultIsLastAnswer(m.server, s, src.world, RefreshGrant(src.current), m.at, m.at');
  }

  /** The refresh token in the server's last answer to a call, if that answer is acceptable; "" if there is none. */
  ghost function Issued(s: Setup, src: Source, m: Moment): string {
    var sent := Refreshed(s, src, m).1.world.sent;
    if |src.world.sent| < |sent| && Acceptable(s, m.server(sent))
    then Parse(m.server(sent).response.body.value).value.refreshToken else ""
  }

  /** The refresh token the last request of a call presented, "" if it sent none. */
  ghost function Presented(s: Setup, src: Source, m: Moment): string {
    var sent := Refreshed(s, src, m).1.world.sent;
    if |src.world.sent| < |sent| && sent[|sent| - 1].grant.RefreshGrant?
    then sent[|sent| - 1].grant.refreshToken else ""
  }

  /** The server answers with the token just presented or with one that is new: neither the
      initial one nor any it issued in an earlier call. */
  ghost predicate IssuesNewTokens(s: Setup, states: seq<Source>, moments: seq<Moment>)
    requires |states| == |moments| + 1
  {
    forall i {:trigger IssuesNew(s, states, moments, i)} :: 0 <= i < |moments| ==> IssuesNew(s, states, moments, i)
  }

  ghost predicate IssuesNew(s: Setup, states: seq<Source>, moments: seq<Moment>, i: nat)
    requires |states| == |moments| + 1 && i < |moments|
  {
    var token := Issued(s, states[i], moments[i]);
    || token == "" || token == Presented(s, states[i], moments[i])
    || (token != states[0].current && !IssuedBefore(s, states, moments, i, token))
  }

  /** An accepted answer to one of the first `n` calls carried the token. */
  ghost predicate IssuedBefore(s: Setup, states: seq<Source>, moments: seq<Moment>, n: nat, token: string)
    requires |states| == |moments| + 1 && n <= |moments|
  {
    exists j {:trigger states[j]} :: 0 <= j < n && token != "" && Issued(s, states[j], moments[j]) == token
  }

  /** The source never makes a token up: it holds the initial one or one it was issued. */
  lemma {:induction false} HeldWasIssued(s: Setup, states: seq<Source>, moments: seq<Moment>, n: nat)
    requires RefreshRun(s, states, moments) && n <= |moments|
    ensures states[n].current == states[0].current || IssuedBefore(s, states, moments, n, states[n].current)
  {
    if n > 0 {
      HeldWasIssued(s, states, moments, n - 1);
      assert RefreshStep(s, states, moments, n - 1);
      RefreshPresentsCurrent(s, states[n - 1], moments[n - 1]);
    }
  }

  /** Over any run, every token any request presents is the initial one or came in an
      accepted answer to an earlier call. */
  lemma PresentedWasIssued(s: Setup, states: seq<Source>, moments: seq<Moment>, i: nat, n: nat)
    requires RefreshRun(s, states, moments) && i < |moments|
    requires |states[i].world.sent| <= n < |Refreshed(s, states[i], moments[i]).1.world.sent|
    ensures var request := Refreshed(s, states[i], moments[i]).1.world.sent[n];
            && request.grant.RefreshGrant?
            && (|| request.grant.refreshToken == states[0].current
                || IssuedBefore(s, states, moments, i, request.grant.refreshToken))
  {
    RefreshPresentsCurrent(s, states[i], moments[i]);
    HeldWasIssued(s, states, moments, i);
  }

  /** A call leaves the token held, or one that no earlier call was issued. */
  lemma StepBringsNothingOld(s: Setup, states: seq<Source>, moments: seq<Moment>, k: nat, n: nat)
    requires RefreshRun(s, states, moments) && IssuesNewTokens(s, states, moments) && n <= k < |moments|
    ensures var next := states[k + 1].current;
            next == states[k].current || (next != states[0].current && !IssuedBefore(s, states, moments, n, next))
  {
    assert RefreshStep(s, states, moments, k) && IssuesNew(s, states, moments, k);
    RefreshPresentsCurrent(s, states[k], moments[k]);
  }

  /** Against a server that issues new tokens, a token that was replaced is never held again. */
  lemma {:induction false} NoOlderTokenReturns(s: Setup, states: seq<Source>, moments: seq<Moment>, i: nat, j: nat,
                                               k: nat)
    requires RefreshRun(s, states, moments) && IssuesNewTokens(s, states, moments)
    requires i < j <= k <= |moments| && states[j].current != states[i].current
    ensures states[k].current != states[i].current
    decreases k
  {
    if j < k {
      NoOlderTokenReturns(s, states, moments, i, j, k - 1);
      HeldWasIssued(s, states, moments, i);
      StepBringsNothingOld(s, states, moments, k - 1, i);
    }
  }

  /** Hence it is never presented again, by any request of any later call. */
  lemma NoOlderTokenPresented(s: Setup, states: seq<Source>, moments: seq<Moment>, i: nat, j: nat, k: nat, n: nat)
    requires RefreshRun(s, states, moments) && IssuesNewTokens(s, states, moments)
    requires i < j <= k < |moments| && states[j].current != states[i].current
    requires |states[k].world.sent| <= n < |Refreshed(s, states[k], moments[k]).1.world.sent|
    ensures var request := Refreshed(s, states[k], moments[k]).1.world.sent[n];
            request.grant.RefreshGrant? && request.grant.refreshToken != states[i].current
  {
    RefreshPresentsCurrent(s, states[k], moments[k]);
    NoOlderTokenReturns(s, states, moments, i, j, k);
  }
}
