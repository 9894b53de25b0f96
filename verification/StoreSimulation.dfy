/** The cookie store simulates the memory store: the same correlation-only calls, made by
    one browser that keeps its cookies, against both stores side by side. */
module StoreSimulation {
  import opened Correlations
  import M = MemoryStore
  import R = MemoryStoreRuns
  import C = CookieStore

  /** Both stores, and the binding cookie the browser holds ("" before the first save). */
  datatype World = World(items: M.Items, cookie: string, session: C.Session)

  datatype Call =
    | Save(at: Time, sweptAt: Time, state: string, correlation: Correlation, token: string)
    | Consume(at: Time, state: string, inMemory: Option<Correlation>, inCookie: Option<Correlation>)
    | Load(at: Time, state: string, inMemory: Option<Correlation>, inCookie: Option<Correlation>)
    | Delete(at: Time, state: string)

  predicate PostEpoch(t: Time) {
    Unix(t) > 0
  }

  predicate Timed(c: Correlation) {
    PostEpoch(c.createdAt) && (c.expiry != 0 ==> PostEpoch(c.expiry))
  }

  function Scope(c: Option<Correlation>, values: map<string, M.Blob>): Option<(Correlation, map<string, M.Blob>)> {
    if c.None? then None else Some((c.value, values))
  }

  /** Both stores answer one call. A save draws `token` if the browser has no binding yet. */
  ghost predicate Step(ttl: int, w: World, call: Call, w': World) {
    match call
    case Save(at, sweptAt, state, c, token) =>
      && token != "" && Timed(Stamped(c, at)) && |w.items.Keys + {state}| <= M.MAX_ENTRIES
      && w'.cookie == (if w.cookie != "" then w.cookie else token)
      && R.Step(ttl, w.items, R.SavedCorrelation(at, state, Stamped(c, at), w'.cookie, sweptAt), w'.items)
      && C.SaveCorrelation(w.session, state, c, at) == Some(w'.session)
    case Consume(at, state, inMemory, inCookie) =>
      && w'.cookie == w.cookie
      && R.Step(ttl, w.items, R.ConsumedCorrelation(at, state, w.cookie, inMemory), w'.items)
      && C.ConsumeCorrelation(w.session, state, ttl, at) == Some((inCookie, w'.session))
    case Load(at, state, inMemory, inCookie) =>
      && w'.cookie == w.cookie && w'.session == w.session
      && (exists values :: R.LoadsAlone(ttl, w.items, at, state, Scope(inMemory, values), w'.items))
      && C.LoadState(w.session, state, ttl, at).Some?
      && (match C.LoadState(w.session, state, ttl, at).value
          case None => inCookie == None
          case Some((c, _)) => inCookie == Some(c))
    case Delete(at, state) =>
      && w'.cookie == w.cookie
      && R.Step(ttl, w.items, R.DeletedState(at, state), w'.items)
      && C.DeleteState(w.session, state) == Some(w'.session)
  }

  function End(call: Call): Time {
    if call.Save? then call.sweptAt else call.at
  }

  /** What is left of an instant after a trip through the cookie. */
  function ToSecond(t: Time): Time {
    UnixToTime(Unix(t))
  }

  function Truncated(c: Correlation): Correlation {
    c.(createdAt := ToSecond(c.createdAt), expiry := ToSecond(c.expiry), clientID := "", clientSecret := "")
  }

  /** `at` lies in the last second before a deadline of `c`. */
  predicate LastSecond(c: Correlation, ttl: int, at: Time) {
    || c.createdAt + ttl - SECOND < at <= c.createdAt + ttl
    || (c.expiry != 0 && c.expiry - SECOND < at <= c.expiry)
  }

  /** A deadline has passed by the times cut off to whole seconds. */
  predicate Due(c: Correlation, ttl: int, now: Time) {
    ToSecond(c.createdAt) + ttl < now || (c.expiry != 0 && ToSecond(c.expiry) < now)
  }

  /** Whatever the cookie finds the memory store finds too, equal up to whole seconds and the
      dropped client credentials. What only the memory store finds is exactly what is due by
      whole seconds, which is a matter of the last second before a deadline. */
  predicate Agree(inMemory: Option<Correlation>, inCookie: Option<Correlation>, ttl: int, at: Time) {
    && (inCookie.Some? ==> inMemory.Some? && inCookie.value == Truncated(inMemory.value))
    && (inMemory.Some? ==> (inCookie.None? <==> Due(inMemory.value, ttl, at)))
    && (inMemory.Some? && inCookie.None? ==> LastSecond(inMemory.value, ttl, at))
  }

  predicate Same(e: C.PayloadState, c: Correlation) {
    e.correlation == Some(C.ToPayload(c))
  }

  /** The simulation relation, as of an instant no later than the next call. */
  ghost predicate Related(w: World, ttl: int, now: Time) {
    && C.Load(w.session).Some?
    && "" !in w.items
    && (forall k :: k in w.items ==> Timed(w.items[k].correlation) && w.items[k].binding == w.cookie != "")
    && var states := C.Load(w.session).value;
       && (forall k :: k in states ==> states[k].correlation.Some? && states[k].values == map[])
       && (forall k :: k in states ==>
             (k in w.items && Same(states[k], w.items[k].correlation)) || C.IsStale(states[k], ttl, now))
       && (forall k :: k in w.items ==>
             (k in states && Same(states[k], w.items[k].correlation)) || Due(w.items[k].correlation, ttl, now))
  }

  /** On a payload that came from `c` the cookie's expiry test is `Due`. */
  lemma StaleIsDue(e: C.PayloadState, c: Correlation, ttl: int, now: Time)
    requires Timed(c) && Same(e, c)
    ensures C.IsStale(e, ttl, now) == Due(c, ttl, now)
    ensures C.FromPayload(e.correlation.value) == Truncated(c)
    ensures !Alive(c, ttl, now) ==> Due(c, ttl, now)
    ensures Alive(c, ttl, now) && Due(c, ttl, now) ==> LastSecond(c, ttl, now)
  {}

  /** Deadlines only pass. */
  lemma RelatedLater(w: World, ttl: int, now: Time, later: Time)
    requires Related(w, ttl, now) && now <= later
    ensures Related(w, ttl, later)
  {}

  /** The memory store may drop expired entries: the cookie store finds nothing there either. */
  lemma DropExpired(w: World, items: M.Items, ttl: int, now: Time)
    requires Related(w, ttl, now)
    requires items.Keys <= w.items.Keys && forall k :: k in items ==> items[k] == w.items[k]
    requires forall k :: k in w.items && k !in items ==> M.IsExpired(w.items[k], ttl, now)
    ensures Related(w.(items := items), ttl, now)
  {
    var states := C.Load(w.session).value;
    forall k | k in states && !C.IsStale(states[k], ttl, now)
      ensures k in items && Same(states[k], items[k].correlation)
    {
      Lookups(ttl, w, k, now);
    }
  }

  /** Both stores file the stamped correlation under the state, before the sweep. */
  lemma Upsert(ttl: int, w: World, call: Call, cookie: string, session: C.Session)
    requires Related(w, ttl, call.at) && call.Save? && call.state != "" && cookie != ""
    requires w.cookie != "" ==> cookie == w.cookie
    requires Timed(Stamped(call.correlation, call.at))
    requires C.SaveCorrelation(w.session, call.state, call.correlation, call.at) == Some(session)
    ensures var items := M.WithCorrelation(w.items, call.state, Stamped(call.correlation, call.at), cookie);
            Related(World(items, cookie, session), ttl, call.at)
  {
    var k := call.state;
    var states, states' := C.Load(w.session).value, C.Load(session).value;
    assert states'.Keys == states.Keys + {k};
    assert forall j :: j in states' && j != k ==> states'[j] == states[j];
  }

  lemma SaveStep(ttl: int, w: World, call: Call, w': World)
    requires Related(w, ttl, call.at) && Step(ttl, w, call, w') && call.Save?
    ensures Related(w', ttl, call.sweptAt)
  {
    var before := M.WithCorrelation(w.items, call.state, Stamped(call.correlation, call.at), w'.cookie);
    assert before.Keys == w.items.Keys + {call.state};
    R.KeepsAllLive(before, w'.items, ttl, call.sweptAt);
    Upsert(ttl, w, call, w'.cookie, w'.session);
    RelatedLater(w'.(items := before), ttl, call.at, call.sweptAt);
    DropExpired(w'.(items := before), w'.items, ttl, call.sweptAt);
  }

  lemma ConsumeStep(ttl: int, w: World, call: Call, w': World)
    requires Related(w, ttl, call.at) && Step(ttl, w, call, w') && call.Consume?
    ensures Related(w', ttl, call.at)
    ensures Agree(call.inMemory, call.inCookie, ttl, call.at)
  {
    Lookups(ttl, w, call.state, call.at);
  }

  lemma LoadStep(ttl: int, w: World, call: Call, w': World)
    requires Related(w, ttl, call.at) && Step(ttl, w, call, w') && call.Load?
    ensures Related(w', ttl, call.at)
    ensures Agree(call.inMemory, call.inCookie, ttl, call.at)
  {
    Lookups(ttl, w, call.state, call.at);
    var values :| R.LoadsAlone(ttl, w.items, call.at, call.state, Scope(call.inMemory, values), w'.items);
    R.LoadsAloneEffect(ttl, w.items, call.at, call.state, Scope(call.inMemory, values), w'.items);
    DropExpired(w, w'.items, ttl, call.at);
  }

  lemma DeleteStep(ttl: int, w: World, call: Call, w': World)
    requires Related(w, ttl, call.at) && Step(ttl, w, call, w') && call.Delete?
    ensures Related(w', ttl, call.at)
  {
    var states, states' := C.Load(w.session).value, C.Load(w'.session).value;
    assert states' == states - {call.state} && w'.items == w.items - {call.state};
  }

  /** What the two stores hold under one state, in related worlds. */
  lemma Lookups(ttl: int, w: World, k: string, now: Time)
    requires Related(w, ttl, now)
    ensures var states := C.Load(w.session).value;
            && (k in states && !C.IsStale(states[k], ttl, now) ==>
                  k in w.items && !M.IsExpired(w.items[k], ttl, now)
                  && C.FromPayload(states[k].correlation.value) == Truncated(w.items[k].correlation))
            && (k in w.items && !M.IsExpired(w.items[k], ttl, now) ==>
                  && (k !in states || C.IsStale(states[k], ttl, now) <==> Due(w.items[k].correlation, ttl, now))
                  && (Due(w.items[k].correlation, ttl, now) ==> LastSecond(w.items[k].correlation, ttl, now)))
            && (k in w.items && M.IsExpired(w.items[k], ttl, now) && k in states ==> C.IsStale(states[k], ttl, now))
  {}

  const START := World(map[], "", C.NoPayload)

  ghost predicate StepAt(ttl: int, worlds: seq<World>, calls: seq<Call>, i: nat)
    requires |worlds| == |calls| + 1 && i < |calls|
  {
    Step(ttl, worlds[i], calls[i], worlds[i + 1])
  }

  /** A run from two empty stores, under a clock that does not go back. */
  ghost predicate Run(ttl: int, worlds: seq<World>, calls: seq<Call>) {
    && |worlds| == |calls| + 1
    && worlds[0] == START
    && (forall i :: 0 <= i < |calls| ==> StepAt(ttl, worlds, calls, i))
    && forall i, j :: 0 <= i < j < |calls| ==> End(calls[i]) <= calls[j].at
  }

  lemma {:induction false} RunRelates(ttl: int, worlds: seq<World>, calls: seq<Call>, n: nat, now: Time)
    requires Run(ttl, worlds, calls) && n <= |calls|
    requires n > 0 ==> End(calls[n - 1]) <= now
    ensures Related(worlds[n], ttl, now)
  {
    if n > 0 {
      var w, call, w' := worlds[n - 1], calls[n - 1], worlds[n];
      RunRelates(ttl, worlds, calls, n - 1, call.at);
      assert StepAt(ttl, worlds, calls, n - 1);
      match call {
        case Save(_, _, _, _, _) => SaveStep(ttl, w, call, w');
        case Consume(_, _, _, _) => ConsumeStep(ttl, w, call, w');
        case Load(_, _, _, _) => LoadStep(ttl, w, call, w');
        case Delete(_, _) => DeleteStep(ttl, w, call, w');
      }
      RelatedLater(w', ttl, End(call), now);
    }
  }

  /** Every lookup of every run agrees. */
  lemma CookieSimulatesMemory(ttl: int, worlds: seq<World>, calls: seq<Call>, i: nat)
    requires Run(ttl, worlds, calls) && i < |calls| && (calls[i].Consume? || calls[i].Load?)
    ensures Agree(calls[i].inMemory, calls[i].inCookie, ttl, calls[i].at)
  {
    RunRelates(ttl, worlds, calls, i, calls[i].at);
    assert StepAt(ttl, worlds, calls, i);
    if calls[i].Consume? {
      ConsumeStep(ttl, worlds[i], calls[i], worlds[i + 1]);
    } else {
      LoadStep(ttl, worlds[i], calls[i], worlds[i + 1]);
    }
  }

  /** Half a second after the first second of the epoch. */
  const HALF_PAST: Time := (EPOCH_SECONDS + 1) * SECOND + SECOND / 2

  /** Both stores after one save, and after a lookup at the deadline that only one of them survives. */
  function FirstSaved(state: string, token: string, c: Correlation): World {
    World(map[state := M.Entry(c, map[], c.createdAt, token)], token,
          C.Save(map[state := C.PayloadState(Some(C.ToPayload(c)), map[], Unix(c.createdAt))]))
  }

  lemma FirstSaveStep(ttl: int, state: string, token: string, c: Correlation)
    requires 0 < ttl && state != "" && token != "" && c.createdAt == HALF_PAST && c.expiry == 0
    ensures Step(ttl, START, Save(HALF_PAST, HALF_PAST, state, c, token), FirstSaved(state, token, c))
  {
    var items := FirstSaved(state, token, c).items;
    assert M.LiveKeys(items, ttl, HALF_PAST) == {state} == items.Keys;
    assert M.WithCorrelation(START.items, state, c, token) == items;
    assert START.items.Keys + {state} == {state};
  }

  lemma MissStep(ttl: int, state: string, token: string, c: Correlation)
    requires 0 < ttl && state != "" && c.createdAt == HALF_PAST && c.expiry == 0
    ensures Step(ttl, FirstSaved(state, token, c), Consume(HALF_PAST + ttl, state, Some(c), None),
                 World(map[], token, C.NoPayload))
  {
    var w := FirstSaved(state, token, c);
    assert w.items - {state} == map[] && C.Load(w.session).value - {state} == map[];
    StaleIsDue(C.Load(w.session).value[state], c, ttl, HALF_PAST + ttl);
  }

  /** The miss is real: a correlation saved on the half second and asked for exactly at its
      deadline is found by the memory store and missed by the cookie store. */
  lemma LastSecondMiss(ttl: int, state: string, token: string, c: Correlation)
    returns (worlds: seq<World>, calls: seq<Call>)
    requires 0 < ttl && state != "" && token != "" && c.createdAt == HALF_PAST && c.expiry == 0
    ensures Run(ttl, worlds, calls) && |calls| == 2
    ensures calls[1].Consume? && calls[1].inMemory == Some(c) && calls[1].inCookie == None
  {
    var saved, missed := FirstSaved(state, token, c), World(map[], token, C.NoPayload);
    var save, consume := Save(HALF_PAST, HALF_PAST, state, c, token), Consume(HALF_PAST + ttl, state, Some(c), None);
    worlds, calls := [START, saved, missed], [save, consume];
    FirstSaveStep(ttl, state, token, c);
    MissStep(ttl, state, token, c);
    TwoSteps(ttl, saved, missed, save, consume);
  }

  lemma TwoSteps(ttl: int, w1: World, w2: World, first: Call, second: Call)
    requires Step(ttl, START, first, w1) && Step(ttl, w1, second, w2) && End(first) <= second.at
    ensures Run(ttl, [START, w1, w2], [first, second])
  {
    forall i | 0 <= i < 2 ensures StepAt(ttl, [START, w1, w2], [first, second], i) {}
  }
}
