/** Runs of the memory store: one event per locked section, in the order the lock was taken. */
module MemoryStoreRuns {
  import opened Correlations
  import opened MemoryStore

  /** A locked section of a call that got past its argument checks, with what the call returned.
      `at` is the clock reading it used. `LoadState` and `LoadValue` lock again when they
      have found the entry expired: that is `ForgottenState` and `RecheckedState`. */
  datatype Event =
    | SavedCorrelation(at: Time, state: string, correlation: Correlation, binding: string, sweptAt: Time)
    | ConsumedCorrelation(at: Time, state: string, cookie: string, found: Option<Correlation>)
    | LoadedState(at: Time, state: string, scope: Option<(Correlation, map<string, Blob>)>)
    | ForgottenState(at: Time, state: string)
    | DeletedState(at: Time, state: string)
    | SavedValue(at: Time, state: string, name: string, value: Blob)
    | LoadedValue(at: Time, state: string, name: string, loaded: Option<Blob>)
    | RecheckedState(at: Time, state: string)
    | DeletedValue(at: Time, state: string, name: string)
    | ConsumedValue(at: Time, state: string, name: string, taken: Option<Blob>)

  /** One atomic step of the store. Only a save is nondeterministic, through its sweep. */
  ghost predicate Step(ttl: int, s: Items, e: Event, s': Items) {
    && e.state != ""
    && match e
       case SavedCorrelation(at, state, c, binding, sweptAt) =>
         at <= sweptAt && c.createdAt != 0 && Swept(WithCorrelation(s, state, c, binding), s', ttl, sweptAt)
       case ConsumedCorrelation(at, state, cookie, found) =>
         (found, s') == Consume(ttl, s, state, cookie, at)
       case LoadedState(at, state, scope) =>
         && s' == s
         && scope == (if state in s && !IsExpired(s[state], ttl, at) then Some((s[state].correlation, s[state].values))
                      else None)
       case ForgottenState(at, state) => s' == s - {state}
       case DeletedState(at, state) => s' == s - {state}
       case SavedValue(at, state, name, value) => name != "" && s' == WithValue(s, state, name, value, at)
       case LoadedValue(at, state, name, loaded) =>
         && name != "" && s' == s
         && loaded == (if state in s && !IsExpired(s[state], ttl, at) && name in s[state].values
                       then Some(s[state].values[name]) else None)
       case RecheckedState(at, state) => s' == if state in s && IsExpired(s[state], ttl, at) then s - {state} else s
       case DeletedValue(at, state, name) => name != "" && s' == if state in s then WithoutValue(s, state, name) else s
       case ConsumedValue(at, state, name, taken) => name != "" && (taken, s') == ConsumeValue(ttl, s, state, name, at)
  }

  lemma LoadsAloneEffect(ttl: int, s: Items, at: Time, state: string,
                         scope: Option<(Correlation, map<string, Blob>)>, s': Items)
    requires LoadsAlone(ttl, s, at, state, scope, s')
    ensures s' == if state in s && IsExpired(s[state], ttl, at) then s - {state} else s
    ensures scope == (if state in s && !IsExpired(s[state], ttl, at)
                      then Some((s[state].correlation, s[state].values)) else None)
  {}

  /** `ConsumeCorrelation`. */
  function Consume(ttl: int, s: Items, state: string, cookie: string, at: Time): (Option<Correlation>, Items) {
    if state !in s then (None, s)
    else if IsExpired(s[state], ttl, at) then (None, s - {state})
    else if s[state].binding != "" && cookie != s[state].binding then (None, s)
    else (Some(s[state].correlation), s - {state})
  }

  /** `ConsumeValue`. */
  function ConsumeValue(ttl: int, s: Items, state: string, name: string, at: Time): (Option<Blob>, Items) {
    if state !in s then (None, s)
    else if IsExpired(s[state], ttl, at) then (None, s - {state})
    else if name !in s[state].values then (None, s)
    else (Some(s[state].values[name]), WithoutValue(s, state, name))
  }

  /** A run from the empty store, under a clock that reads later than Go's zero time. */
  ghost predicate Run(ttl: int, states: seq<Items>, log: seq<Event>) {
    && |states| == |log| + 1
    && states[0] == map[]
    && (forall i :: 0 <= i < |log| ==> StepAt(ttl, states, log, i))
  }

  ghost predicate StepAt(ttl: int, states: seq<Items>, log: seq<Event>, i: nat)
    requires |states| == |log| + 1 && i < |log|
  {
    && 0 < log[i].at && Step(ttl, states[i], log[i], states[i + 1])
    && (log[i].ForgottenState? ==> LoadFoundItExpired(ttl, states, log, i, log[i].state))
  }

  /** An earlier `LoadState` has found the state's entry expired. */
  ghost predicate LoadFoundItExpired(ttl: int, states: seq<Items>, log: seq<Event>, i: nat, state: string)
    requires |states| == |log| + 1 && i <= |log|
  {
    exists m :: 0 <= m < i && log[m].LoadedState? && log[m].state == state
                && state in states[m] && IsExpired(states[m][state], ttl, log[m].at)
  }

  /** `LoadState` with nothing in between its sections. */
  ghost predicate LoadsAlone(ttl: int, s: Items, at: Time, state: string,
                             scope: Option<(Correlation, map<string, Blob>)>, s': Items) {
    && Step(ttl, s, LoadedState(at, state, scope), s)
    && Step(ttl, s, if state in s && scope.None? then ForgottenState(at, state) else LoadedState(at, state, scope), s')
  }

  predicate Saves(e: Event, state: string) {
    e.SavedCorrelation? && e.state == state
  }

  /** Takes the state's correlation out of circulation. */
  predicate Retires(e: Event, state: string) {
    e.state == state && (e.DeletedState? || e.ForgottenState? || (e.ConsumedCorrelation? && e.found.Some?))
  }

  /** Among the first `n` events, `j` is the last save of `state`, and nothing has retired it since. */
  ghost predicate Outstanding(log: seq<Event>, n: nat, state: string, j: int)
    requires n <= |log|
  {
    && 0 <= j < n && Saves(log[j], state)
    && forall m :: j < m < n ==> !Saves(log[m], state) && !Retires(log[m], state)
  }

  /** `j` is the save that put the entry's correlation and binding there. */
  ghost predicate Backs(log: seq<Event>, n: nat, state: string, j: int, e: Entry<Blob>)
    requires n <= |log|
  {
    Outstanding(log, n, state, j) && log[j].correlation == e.correlation && log[j].binding == e.binding
  }

  /** The invariant: an entry with a correlation in it is backed by an outstanding save. */
  ghost predicate Backed(s: Items, log: seq<Event>, n: nat)
    requires n <= |log|
  {
    && "" !in s
    && forall k :: k in s && s[k].correlation != ZERO_CORRELATION ==> exists j :: Backs(log, n, k, j, s[k])
  }

  lemma {:induction false} RunKeepsBacked(ttl: int, states: seq<Items>, log: seq<Event>, n: nat)
    requires Run(ttl, states, log) && n <= |log|
    ensures Backed(states[n], log, n)
  {
    if n > 0 {
      RunKeepsBacked(ttl, states, log, n - 1);
      assert StepAt(ttl, states, log, n - 1);
      StepKeepsBacked(ttl, states[n - 1], log, n - 1, states[n]);
    }
  }

  lemma StepKeepsBacked(ttl: int, s: Items, log: seq<Event>, n: nat, s': Items)
    requires n < |log| && Backed(s, log, n) && Step(ttl, s, log[n], s')
    ensures Backed(s', log, n + 1)
  {
    var n' := n + 1;
    forall k | k in s' && s'[k].correlation != ZERO_CORRELATION
      ensures exists j :: Backs(log, n', k, j, s'[k])
    {
      if Saves(log[n], k) {
        assert Backs(log, n', k, n, s'[k]);
      } else {
        assert k in s && s[k].correlation == s'[k].correlation && s[k].binding == s'[k].binding && !Retires(log[n], k);
        var j :| Backs(log, n, k, j, s[k]);
        assert Backs(log, n', k, j, s'[k]);
      }
    }
  }

  /** Whatever correlation a callback is handed is the latest one saved under its
      state, still outstanding, unexpired, and meant for the browser that asks. */
  lemma ConsumedIsLatestSaved(ttl: int, states: seq<Items>, log: seq<Event>, i: nat) returns (j: nat)
    requires Run(ttl, states, log) && i < |log|
    requires log[i].ConsumedCorrelation? && log[i].found.Some? && log[i].found.value != ZERO_CORRELATION
    ensures j < i && Outstanding(log, i, log[i].state, j)
    ensures log[j].correlation == log[i].found.value
    ensures log[j].binding != "" ==> log[i].cookie == log[j].binding
    ensures Alive(log[j].correlation, ttl, log[i].at)
  {
    RunKeepsBacked(ttl, states, log, i);
    var k := log[i].state;
    assert StepAt(ttl, states, log, i);
    j :| Backs(log, i, k, j, states[i][k]);
    assert StepAt(ttl, states, log, j);
  }

  /** One save is consumed at most once: between two consumptions lies another save. */
  lemma ConsumedOncePerSave(ttl: int, states: seq<Items>, log: seq<Event>, i: nat, i': nat)
    requires Run(ttl, states, log) && i < i' < |log|
    requires log[i].ConsumedCorrelation? && log[i].found.Some?
    requires log[i'].ConsumedCorrelation? && log[i'].found.Some? && log[i'].found.value != ZERO_CORRELATION
    requires log[i].state == log[i'].state
    ensures exists j :: i < j < i' && Saves(log[j], log[i].state) && log[j].correlation == log[i'].found.value
  {
    var j := ConsumedIsLatestSaved(ttl, states, log, i');
    assert Retires(log[i], log[i].state);
  }

  /** The last clock reading of a call. */
  function End(e: Event): Time {
    if e.SavedCorrelation? then e.sweptAt else e.at
  }

  /** The correlation `e` saved is alive by every clock reading of the events `from..to`. A
      call may have read the clock long before its turn; no order between readings is assumed. */
  ghost predicate AliveThroughout(ttl: int, e: Event, log: seq<Event>, from: nat, to: nat)
    requires e.SavedCorrelation? && to <= |log|
  {
    forall m {:trigger log[m]} :: from <= m < to ==> Alive(e.correlation, ttl, End(log[m]))
  }

  /** No save among the events `from..to` finds the store full. */
  ghost predicate BelowCapacity(states: seq<Items>, log: seq<Event>, from: nat, to: nat)
    requires |states| == |log| + 1 && to <= |log|
  {
    forall m {:trigger Fits(states[m], log[m])} :: from <= m < to ==> Fits(states[m], log[m])
  }

  predicate Fits(s: Items, e: Event) {
    e.SavedCorrelation? ==> |s.Keys + {e.state}| <= MAX_ENTRIES
  }

  /** Below capacity a sweep is just the removal of expired entries. */
  lemma KeepsAllLive<B>(before: map<string, Entry<B>>, after: map<string, Entry<B>>, ttl: int, now: Time)
    requires Swept(before, after, ttl, now) && |before.Keys| <= MAX_ENTRIES
    ensures after.Keys == LiveKeys(before, ttl, now)
  {
    var live := LiveKeys(before, ttl, now);
    SubsetSize(live, before.Keys);
    if after.Keys != live {
      var k :| k in live && k !in after.Keys;
      SubsetSize(after.Keys, live - {k});
    }
  }

  lemma {:induction false} SubsetSize<T>(a: set<T>, b: set<T>)
    requires a <= b
    ensures |a| <= |b|
    decreases a
  {
    if a != {} {
      var x :| x in a;
      SubsetSize(a - {x}, b - {x});
    }
  }

  /** The table has what the save `e` put there. */
  predicate Holds(s: Items, e: Event)
    requires e.SavedCorrelation?
  {
    e.state in s && s[e.state].correlation == e.correlation && s[e.state].binding == e.binding
  }

  /** A step that neither saves nor retires its state leaves a live correlation alone. */
  lemma StepSparesOthers(ttl: int, states: seq<Items>, log: seq<Event>, j: nat, i: nat)
    requires Run(ttl, states, log) && j < i - 1 < |log| && BelowCapacity(states, log, j, i)
    requires log[j].SavedCorrelation? && Outstanding(log, i, log[j].state, j)
    requires Alive(log[j].correlation, ttl, End(log[i - 1]))
    requires Holds(states[i - 1], log[j])
    ensures Holds(states[i], log[j])
  {
    var s, e := states[i - 1], log[i - 1];
    RunFacts(ttl, states, log, j);
    assert StepAt(ttl, states, log, i - 1) && Fits(s, e);
    if e.SavedCorrelation? {
      var before := WithCorrelation(s, e.state, e.correlation, e.binding);
      assert before.Keys == s.Keys + {e.state};
      KeepsAllLive(before, states[i], ttl, e.sweptAt);
    }
  }

  /** A correlation that is alive when its own save sweeps is in the table afterwards. */
  lemma SaveSurvivesItsSweep(ttl: int, states: seq<Items>, log: seq<Event>, n: nat)
    requires Run(ttl, states, log) && n < |log| && log[n].SavedCorrelation? && BelowCapacity(states, log, n, n + 1)
    requires Alive(log[n].correlation, ttl, log[n].sweptAt)
    ensures Holds(states[n + 1], log[n])
  {
    var e := log[n];
    assert StepAt(ttl, states, log, n) && Fits(states[n], e);
    var before := WithCorrelation(states[n], e.state, e.correlation, e.binding);
    assert before.Keys == states[n].Keys + {e.state};
    KeepsAllLive(before, states[n + 1], ttl, e.sweptAt);
    assert e.state in LiveKeys(before, ttl, e.sweptAt);
  }

  /** Nothing but a sweep at capacity, a retirement or its deadline removes a saved
      correlation: callbacks from other browsers and value operations leave it usable. The
      late delete of a `LoadState` counts as a retirement; it takes an earlier entry under
      the same state that had expired (`LateForgetLosesRenewal`). */
  lemma {:induction false} SavedStaysConsumable(ttl: int, states: seq<Items>, log: seq<Event>, j: nat, i: nat)
    requires Run(ttl, states, log) && j < i <= |log| && BelowCapacity(states, log, j, i)
    requires log[j].SavedCorrelation? && Outstanding(log, i, log[j].state, j)
    requires AliveThroughout(ttl, log[j], log, j, i)
    ensures Holds(states[i], log[j])
    decreases i
  {
    if j == i - 1 {
      SaveSurvivesItsSweep(ttl, states, log, j);
    } else {
      SavedStaysConsumable(ttl, states, log, j, i - 1);
      StepSparesOthers(ttl, states, log, j, i);
    }
  }

  lemma RunFacts(ttl: int, states: seq<Items>, log: seq<Event>, i: nat)
    requires Run(ttl, states, log) && i < |log|
    ensures 0 < log[i].at <= End(log[i])
    ensures log[i].SavedCorrelation? ==> log[i].correlation.createdAt != 0
  {
    assert StepAt(ttl, states, log, i);
  }

  /** Until then the right browser gets its correlation, and any other leaves the store as it was. */
  lemma RightBrowserSucceeds(ttl: int, states: seq<Items>, log: seq<Event>, j: nat, i: nat)
    requires Run(ttl, states, log) && j < i < |log| && BelowCapacity(states, log, j, i)
    requires log[j].SavedCorrelation? && Outstanding(log, i, log[j].state, j)
    requires AliveThroughout(ttl, log[j], log, j, i + 1)
    requires log[i].ConsumedCorrelation? && log[i].state == log[j].state
    ensures log[i].found ==
              if log[j].binding == "" || log[i].cookie == log[j].binding then Some(log[j].correlation) else None
    ensures log[i].found == None ==> states[i + 1] == states[i]
  {
    RunFacts(ttl, states, log, j);
    assert Alive(log[j].correlation, ttl, End(log[i]));
    SavedStaysConsumable(ttl, states, log, j, i);
    assert StepAt(ttl, states, log, i);
  }

  /** One correlation in the table, under a state first used at instant 1. */
  function Only(state: string, c: Correlation): Items {
    map[state := Entry(c, map[], 1, "")]
  }

  /** A correlation runs out, and a `LoadState` sees that. */
  lemma ExpirySeen(ttl: int, state: string, c: Correlation) returns (states: seq<Items>, log: seq<Event>)
    requires 0 < ttl && state != "" && c.createdAt == 1 && c.expiry == 0
    ensures Run(ttl, states, log) && |log| == 2 && states[1] == states[2] == Only(state, c)
    ensures log == [SavedCorrelation(1, state, c, "", 1), LoadedState(2 + ttl, state, None)]
  {
    var save, load := SavedCorrelation(1, state, c, "", 1), LoadedState(2 + ttl, state, None);
    states, log := [map[]], [];
    OnlyEntrySurvives(ttl, map[], state, c, 1);
    Extend(ttl, states, log, save, Only(state, c));
    states, log := states + [Only(state, c)], log + [save];
    Extend(ttl, states, log, load, Only(state, c));
    states, log := states + [Only(state, c)], log + [load];
  }

  /** Then another is saved under the same state. */
  lemma RenewalUnseen(ttl: int, state: string, c: Correlation) returns (states: seq<Items>, log: seq<Event>)
    requires 0 < ttl && state != "" && c.expiry == 0
    ensures Run(ttl, states, log) && |log| == 3 && LoadFoundItExpired(ttl, states, log, 3, state)
    ensures log[1] == LoadedState(2 + ttl, state, None)
    ensures log[2] == SavedCorrelation(2 + ttl, state, c.(createdAt := 2 + ttl), "", 2 + ttl)
    ensures states[3] == Only(state, c.(createdAt := 2 + ttl))
  {
    var later := 2 + ttl;
    var first, second := c.(createdAt := 1), c.(createdAt := later);
    var renew := SavedCorrelation(later, state, second, "", later);
    states, log := ExpirySeen(ttl, state, first);
    OnlyEntrySurvives(ttl, Only(state, first), state, second, later);
    Extend(ttl, states, log, renew, Only(state, second));
    states, log := states + [Only(state, second)], log + [renew];
    assert log[1].LoadedState? && IsExpired(states[1][state], ttl, log[1].at);
  }

  /** That exception is real: a state saved again while a `LoadState` that found it expired is
      about to delete it is lost, however long it had to live. */
  lemma LateForgetLosesRenewal(ttl: int, state: string, c: Correlation) returns (states: seq<Items>, log: seq<Event>)
    requires 0 < ttl && state != "" && c.expiry == 0
    ensures Run(ttl, states, log) && |log| == 5
    ensures log[1] == LoadedState(2 + ttl, state, None)
    ensures log[2] == SavedCorrelation(2 + ttl, state, c.(createdAt := 2 + ttl), "", 2 + ttl)
    ensures log[3] == ForgottenState(2 + ttl, state) && log[4] == ConsumedCorrelation(2 + ttl, state, "", None)
    ensures Alive(log[2].correlation, ttl, log[4].at)
  {
    states, log := RenewalUnseen(ttl, state, c);
    var forget, miss := ForgottenState(2 + ttl, state), ConsumedCorrelation(2 + ttl, state, "", None);
    assert states[3] - {state} == map[];
    Extend(ttl, states, log, forget, map[]);
    states, log := states + [map[]], log + [forget];
    Extend(ttl, states, log, miss, map[]);
    states, log := states + [map[]], log + [miss];
  }

  lemma Extend(ttl: int, states: seq<Items>, log: seq<Event>, e: Event, s': Items)
    requires Run(ttl, states, log) && 0 < e.at && Step(ttl, states[|log|], e, s')
    requires e.ForgottenState? ==> LoadFoundItExpired(ttl, states, log, |log|, e.state)
    ensures Run(ttl, states + [s'], log + [e])
  {
    var states', log' := states + [s'], log + [e];
    forall i | 0 <= i < |log'| ensures StepAt(ttl, states', log', i) {
      if i < |log| {
        assert StepAt(ttl, states, log, i);
      }
      if log'[i].ForgottenState? {
        FoundInPrefix(ttl, states, log, e, s', i, log'[i].state);
      }
    }
  }

  lemma FoundInPrefix(ttl: int, states: seq<Items>, log: seq<Event>, e: Event, s': Items, i: nat, state: string)
    requires |states| == |log| + 1 && i <= |log| && LoadFoundItExpired(ttl, states, log, i, state)
    ensures LoadFoundItExpired(ttl, states + [s'], log + [e], i, state)
  {
    var states', log' := states + [s'], log + [e];
    var m :| 0 <= m < i && log[m].LoadedState? && log[m].state == state
             && state in states[m] && IsExpired(states[m][state], ttl, log[m].at);
    assert log'[m] == log[m] && states'[m] == states[m];
  }

  /** Saving the only entry there is. */
  lemma OnlyEntrySurvives(ttl: int, s: Items, state: string, c: Correlation, now: Time)
    requires state != "" && c.createdAt == now && now > 0 && c.expiry == 0 && 0 < ttl
    requires (s == map[] && now == 1) || (state in s && s == Only(state, s[state].correlation))
    ensures Step(ttl, s, SavedCorrelation(now, state, c, "", now), Only(state, c))
  {
    assert WithCorrelation(s, state, c, "") == Only(state, c);
    assert LiveKeys(Only(state, c), ttl, now) == Only(state, c).Keys;
  }

  // ---- What is in the table at all ----

  /** Since event `j` put an entry under the state there has been one all along. */
  ghost predicate ThereSince(states: seq<Items>, n: nat, state: string, j: nat)
    requires n < |states|
  {
    j < n && state !in states[j] && forall m {:trigger states[m]} :: j < m <= n ==> state in states[m]
  }

  /** The instant from which the entry an event makes counts its age. */
  function MadeAt(e: Event): Time {
    if e.SavedCorrelation? then e.correlation.createdAt else e.at
  }

  ghost predicate Aged(states: seq<Items>, log: seq<Event>, n: nat, state: string, j: nat)
    requires |states| == |log| + 1 && n <= |log| && state in states[n]
  {
    && ThereSince(states, n, state, j) && log[j].state == state && (log[j].SavedCorrelation? || log[j].SavedValue?)
    && states[n][state].createdAt == MadeAt(log[j])
  }

  /** An entry's age counts from the save that made it, whatever is saved under its state later. */
  lemma {:induction false} AgeCountsFromFirstSave(ttl: int, states: seq<Items>, log: seq<Event>, n: nat, state: string)
    returns (j: nat)
    requires Run(ttl, states, log) && n <= |log| && state in states[n]
    ensures Aged(states, log, n, state, j) && states[n][state].createdAt != 0
  {
    assert n > 0;
    assert StepAt(ttl, states, log, n - 1);
    if state in states[n - 1] {
      j := AgeCountsFromFirstSave(ttl, states, log, n - 1, state);
    } else {
      j := n - 1;
    }
  }

  /** A value filed under a state without a correlation is found exactly until the TTL has
      passed since the first save under the state: age is not renewed by filing. */
  lemma ValueDeadline(ttl: int, states: seq<Items>, log: seq<Event>, j: nat, i: nat, first: nat)
    requires Run(ttl, states, log) && j < i < |log| && BelowCapacity(states, log, j, i) && log[j].SavedValue?
    requires ValueBacks(log, i, log[j].state, log[j].name, j, log[j].value)
    requires NeverRunsOut(ttl, states, log, log[j].state, j + 1, i)
    requires log[i].LoadedValue? && log[i].state == log[j].state && log[i].name == log[j].name
    requires ThereSince(states, i, log[j].state, first)
    requires log[j].state in states[i] ==> states[i][log[j].state].correlation == ZERO_CORRELATION
    ensures log[i].loaded == if log[i].at <= MadeAt(log[first]) + ttl then Some(log[j].value) else None
  {
    SavedValueIsLoaded(ttl, states, log, j, i);
    var k := AgeCountsFromFirstSave(ttl, states, log, i, log[j].state);
    assert k == first;
  }

  /** No entry is empty: each has a saved correlation, or a value. */
  lemma {:induction false} NoEmptyEntries(ttl: int, states: seq<Items>, log: seq<Event>, n: nat, state: string)
    requires Run(ttl, states, log) && n <= |log| && state in states[n]
    ensures state != "" && (states[n][state].correlation != ZERO_CORRELATION || states[n][state].values != map[])
  {
    assert n > 0;
    assert StepAt(ttl, states, log, n - 1);
    if state in states[n - 1] {
      NoEmptyEntries(ttl, states, log, n - 1, state);
    }
    var e := log[n - 1];
    if e.SavedValue? && e.state == state {
      assert e.name in states[n][state].values;
    }
  }

  /** Whatever entry an event tests for expiry is gone afterwards if it had expired. */
  lemma ExpiredEntriesGo(ttl: int, s: Items, e: Event, s': Items, state: string)
    requires Step(ttl, s, e, s') && Tests(e, state) && state in Tested(s, e)
    requires IsExpired(Tested(s, e)[state], ttl, End(e))
    ensures state !in s'
  {}

  /** Expiry, in instants: past the TTL since the correlation's creation, or since the entry's
      own if its correlation has none, or past the correlation's own deadline. */
  lemma ExpiredJustWhen<B>(e: Entry<B>, ttl: int, now: Time)
    ensures e.correlation == ZERO_CORRELATION && e.createdAt != 0 ==>
              (IsExpired(e, ttl, now) <==> e.createdAt + ttl < now)
    ensures e.correlation.createdAt != 0 ==> (IsExpired(e, ttl, now) <==> !Alive(e.correlation, ttl, now))
  {}

  // ---- The same for the values callers keep under a state ----

  predicate SavesValue(e: Event, state: string, name: string) {
    e.SavedValue? && e.state == state && e.name == name
  }

  predicate DropsValue(e: Event, state: string, name: string) {
    && e.state == state
    && (|| e.DeletedState? || e.ForgottenState?
        || (e.ConsumedCorrelation? && e.found.Some?)
        || (e.DeletedValue? && e.name == name)
        || (e.ConsumedValue? && e.name == name && e.taken.Some?))
  }

  /** Among the first `n` events, `j` is the last to save `v` there, and nothing has dropped it since. */
  ghost predicate ValueBacks(log: seq<Event>, n: nat, state: string, name: string, j: int, v: Blob)
    requires n <= |log|
  {
    && 0 <= j < n && SavesValue(log[j], state, name) && log[j].value == v
    && forall m :: j < m < n ==> !SavesValue(log[m], state, name) && !DropsValue(log[m], state, name)
  }

  ghost predicate ValueBacked(log: seq<Event>, n: nat, state: string, name: string, v: Blob)
    requires n <= |log|
  {
    exists j :: ValueBacks(log, n, state, name, j, v)
  }

  ghost predicate ValuesBacked(s: Items, log: seq<Event>, n: nat)
    requires n <= |log|
  {
    forall k, name :: k in s && name in s[k].values ==> ValueBacked(log, n, k, name, s[k].values[name])
  }

  /** A value in the table after a step was saved by it, or was there before and not dropped. */
  lemma StepOnValues(ttl: int, s: Items, e: Event, s': Items, k: string, name: string)
    requires Step(ttl, s, e, s') && k in s' && name in s'[k].values
    ensures if SavesValue(e, k, name) then s'[k].values[name] == e.value
            else k in s && name in s[k].values && s'[k].values[name] == s[k].values[name] && !DropsValue(e, k, name)
  {}

  lemma {:induction false} RunKeepsValuesBacked(ttl: int, states: seq<Items>, log: seq<Event>, n: nat)
    requires Run(ttl, states, log) && n <= |log|
    ensures ValuesBacked(states[n], log, n)
  {
    if n > 0 {
      var m := n - 1;
      RunKeepsValuesBacked(ttl, states, log, m);
      assert StepAt(ttl, states, log, m);
      forall k, name | k in states[n] && name in states[n][k].values
        ensures ValueBacked(log, n, k, name, states[n][k].values[name])
      {
        StepOnValues(ttl, states[m], log[m], states[n], k, name);
        var v := states[n][k].values[name];
        if SavesValue(log[m], k, name) {
          assert ValueBacks(log, n, k, name, m, v);
        } else {
          var j :| ValueBacks(log, m, k, name, j, v);
          assert ValueBacks(log, n, k, name, j, v);
        }
      }
    }
  }

  /** The call hands out `v` as the value kept under `name`. */
  predicate Yields(e: Event, name: string, v: Blob) {
    || (e.LoadedValue? && e.name == name && e.loaded == Some(v))
    || (e.ConsumedValue? && e.name == name && e.taken == Some(v))
    || (e.LoadedState? && e.scope.Some? && name in e.scope.value.1 && e.scope.value.1[name] == v)
  }

  /** Every value handed out is the latest saved there, byte for byte, and was not dropped since. */
  lemma YieldedIsLatestSaved(ttl: int, states: seq<Items>, log: seq<Event>, i: nat, name: string, v: Blob)
    requires Run(ttl, states, log) && i < |log| && Yields(log[i], name, v)
    ensures ValueBacked(log, i, log[i].state, name, v)
  {
    RunKeepsValuesBacked(ttl, states, log, i);
    assert StepAt(ttl, states, log, i);
    assert log[i].state in states[i] && name in states[i][log[i].state].values
           && states[i][log[i].state].values[name] == v;
  }

  /** A value consumed is gone: it is not handed out again before it is saved again. */
  lemma ConsumedValueIsGone(ttl: int, states: seq<Items>, log: seq<Event>, i: nat, i': nat, name: string, v: Blob)
    requires Run(ttl, states, log) && i < i' < |log|
    requires log[i].ConsumedValue? && log[i].name == name && log[i].taken.Some?
    requires log[i'].state == log[i].state && Yields(log[i'], name, v)
    ensures exists j :: i < j < i' && SavesValue(log[j], log[i].state, name) && log[j].value == v
  {
    YieldedIsLatestSaved(ttl, states, log, i', name, v);
    assert DropsValue(log[i], log[i].state, name);
    var j :| ValueBacks(log, i', log[i].state, name, j, v);
  }

  /** The table as the expiry tests of an event see it. */
  function Tested(s: Items, e: Event): Items {
    if e.SavedCorrelation? then WithCorrelation(s, e.state, e.correlation, e.binding) else s
  }

  /** No event `from..to` that tests the state's entry for expiry finds it expired. */
  ghost predicate NeverRunsOut(ttl: int, states: seq<Items>, log: seq<Event>, state: string, from: nat, to: nat)
    requires |states| == |log| + 1 && to <= |log|
  {
    forall m {:trigger StillRuns(ttl, states[m], log[m], state)} :: from <= m < to ==>
      StillRuns(ttl, states[m], log[m], state)
  }

  /** A save tests every entry in its sweep, others test their own before they delete. */
  predicate Tests(e: Event, state: string) {
    || e.SavedCorrelation?
    || (e.state == state && (e.ConsumedCorrelation? || e.RecheckedState? || e.ConsumedValue?))
  }

  predicate StillRuns(ttl: int, s: Items, e: Event, state: string) {
    Tests(e, state) && state in Tested(s, e) ==> !IsExpired(Tested(s, e)[state], ttl, End(e))
  }

  predicate HoldsValue(s: Items, state: string, name: string, v: Blob) {
    state in s && name in s[state].values && s[state].values[name] == v
  }

  lemma SaveSparesValue(ttl: int, s: Items, e: Event, s': Items, state: string, name: string, v: Blob)
    requires Step(ttl, s, e, s') && HoldsValue(s, state, name, v) && StillRuns(ttl, s, e, state) && Fits(s, e)
    requires e.SavedCorrelation?
    ensures HoldsValue(s', state, name, v)
  {
    var before := WithCorrelation(s, e.state, e.correlation, e.binding);
    assert before.Keys == s.Keys + {e.state};
    KeepsAllLive(before, s', ttl, e.sweptAt);
    assert state in LiveKeys(before, ttl, e.sweptAt);
  }

  lemma StepSparesValue(ttl: int, s: Items, e: Event, s': Items, state: string, name: string, v: Blob)
    requires Step(ttl, s, e, s') && HoldsValue(s, state, name, v) && StillRuns(ttl, s, e, state) && Fits(s, e)
    requires !SavesValue(e, state, name) && !DropsValue(e, state, name)
    ensures HoldsValue(s', state, name, v)
  {
    if e.SavedCorrelation? {
      SaveSparesValue(ttl, s, e, s', state, name, v);
    } else if e.state != state {
      assert state in s' && s'[state] == s[state];
    } else {
      assert Tests(e, state) ==> !IsExpired(s[state], ttl, e.at);
      match e {
        case ConsumedCorrelation(_, _, _, _) => assert s' == s;
        case SavedValue(_, _, _, _) => assert s'[state].values == s[state].values[e.name := e.value];
        case DeletedValue(_, _, _) => assert name in s[state].values - {e.name};
        case ConsumedValue(_, _, _, _) => assert e.taken.Some? ==> name in s[state].values - {e.name};
        case _ =>
      }
    }
  }

  /** Nothing but a drop, a sweep at capacity or the expiry of its entry removes a saved value. */
  lemma {:induction false} SavedValueStays(ttl: int, states: seq<Items>, log: seq<Event>, j: nat, i: nat)
    requires Run(ttl, states, log) && j < i <= |log| && BelowCapacity(states, log, j, i) && log[j].SavedValue?
    requires ValueBacks(log, i, log[j].state, log[j].name, j, log[j].value)
    requires NeverRunsOut(ttl, states, log, log[j].state, j + 1, i)
    ensures HoldsValue(states[i], log[j].state, log[j].name, log[j].value)
    decreases i
  {
    assert StepAt(ttl, states, log, i - 1);
    if j < i - 1 {
      SavedValueStays(ttl, states, log, j, i - 1);
      assert StillRuns(ttl, states[i - 1], log[i - 1], log[j].state) && Fits(states[i - 1], log[i - 1]);
      StepSparesValue(ttl, states[i - 1], log[i - 1], states[i], log[j].state, log[j].name, log[j].value);
    }
  }

  /** So a load finds the saved value if and only if the entry has not expired by then. The
      entry's age counts from the state's correlation, or from the first save under the
      state: a value filed late does not prolong it. */
  lemma SavedValueIsLoaded(ttl: int, states: seq<Items>, log: seq<Event>, j: nat, i: nat)
    requires Run(ttl, states, log) && j < i < |log| && BelowCapacity(states, log, j, i) && log[j].SavedValue?
    requires ValueBacks(log, i, log[j].state, log[j].name, j, log[j].value)
    requires NeverRunsOut(ttl, states, log, log[j].state, j + 1, i)
    requires log[i].LoadedValue? && log[i].state == log[j].state && log[i].name == log[j].name
    ensures log[j].state in states[i]
    ensures log[i].loaded == if IsExpired(states[i][log[j].state], ttl, log[i].at) then None else Some(log[j].value)
  {
    SavedValueStays(ttl, states, log, j, i);
    assert StepAt(ttl, states, log, i);
  }

  /** A value filed under a state whose entry has expired unnoticed is lost at once. */
  lemma LateValueIsLost(ttl: int, state: string, name: string, other: string, v: Blob)
    returns (states: seq<Items>, log: seq<Event>)
    requires 0 < ttl && state != "" && name != "" && other != ""
    ensures Run(ttl, states, log)
    ensures log == [SavedValue(1, state, other, v), SavedValue(2 + ttl, state, name, v),
                    LoadedValue(2 + ttl, state, name, None)]
  {
    var later := 2 + ttl;
    var s1: Items := map[state := Entry(ZERO_CORRELATION, map[other := v], 1, "")];
    var s2: Items := map[state := Entry(ZERO_CORRELATION, map[other := v][name := v], 1, "")];
    states := [map[], s1, s2, s2];
    log := [SavedValue(1, state, other, v), SavedValue(later, state, name, v), LoadedValue(later, state, name, None)];
    assert StepAt(ttl, states, log, 0) && StepAt(ttl, states, log, 1) && StepAt(ttl, states, log, 2);
  }

  /** `ConsumeValue` finds what a load would find, and `LoadState` all there is. */
  lemma SavedValueIsTaken(ttl: int, states: seq<Items>, log: seq<Event>, j: nat, i: nat)
    requires Run(ttl, states, log) && j < i < |log| && BelowCapacity(states, log, j, i) && log[j].SavedValue?
    requires ValueBacks(log, i, log[j].state, log[j].name, j, log[j].value)
    requires NeverRunsOut(ttl, states, log, log[j].state, j + 1, i) && log[i].state == log[j].state
    ensures log[j].state in states[i]
    ensures var expired := IsExpired(states[i][log[j].state], ttl, log[i].at);
            && (log[i].ConsumedValue? && log[i].name == log[j].name ==>
                  log[i].taken == if expired then None else Some(log[j].value))
            && (log[i].LoadedState? ==> (log[i].scope.Some? <==> !expired))
            && (log[i].LoadedState? && !expired ==>
                  && log[j].name in log[i].scope.value.1 && log[i].scope.value.1[log[j].name] == log[j].value)
  {
    SavedValueStays(ttl, states, log, j, i);
    assert StepAt(ttl, states, log, i);
  }

  /** `LoadState` shows an outstanding correlation as long as it is alive. */
  lemma SavedCorrelationIsLoaded(ttl: int, states: seq<Items>, log: seq<Event>, j: nat, i: nat)
    requires Run(ttl, states, log) && j < i < |log| && BelowCapacity(states, log, j, i)
    requires log[j].SavedCorrelation? && Outstanding(log, i, log[j].state, j)
    requires AliveThroughout(ttl, log[j], log, j, i)
    requires log[i].LoadedState? && log[i].state == log[j].state
    ensures log[i].scope.Some? <==> Alive(log[j].correlation, ttl, log[i].at)
    ensures log[i].scope.Some? ==> log[i].scope.value.0 == log[j].correlation
  {
    RunFacts(ttl, states, log, j);
    SavedStaysConsumable(ttl, states, log, j, i);
    assert StepAt(ttl, states, log, i);
  }
}
