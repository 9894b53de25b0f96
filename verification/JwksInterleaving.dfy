/** The remote key set under concurrency: callers, background refreshes and marks interleave
    at every access to the shared cache, while the origin changes what it serves. */
module JwksInterleaving {
  import opened Correlations
  import opened Jwks

  /** What the origin serves right now; an entity tag of "" means it sends none. */
  datatype Serving = Serving(etag: string, body: Body)

  /** Where a caller or a background refresh is. Entries are shared objects, known by number. */
  datatype Worker =
    | MustRefresh(existing: Option<nat>)
    | Fetching(existing: Option<nat>, got: Option<(Fetched, Body)>)
    | Waiting
    | HasEntry(entry: Option<nat>)

  /** `flight` is the worker that runs the one refresh singleflight lets through. */
  datatype World = World(
    entries: map<nat, Entry>,
    cache: Option<nat>,
    workers: map<nat, Worker>,
    flight: Option<nat>,
    origin: Serving,
    tagged: map<string, Body>,
    served: set<Body>,
    returned: seq<seq<Key>>)

  datatype Event =
    | OriginChanges(next: Serving)
    | ReadCached(refresher: Option<nat>)
    | ReadMissing(w: nat)
    | ReadForUnknownKid(w: nat)
    | Mark(w: nat, now: Time)
    | StartOrJoin(w: nat)
    | Fetch(w: nat, got: Fetched)
    | Install(w: nat, id: nat)
    | FetchFailed(w: nat)

  /** The origin answers 304 only to its current tag (section 13.1.2 of RFC 9110), and a 200
      with what it serves. */
  predicate Honest(o: Serving, sentTag: string, got: Fetched) {
    match got
    case Unreachable => true
    case OtherStatus(_) => true
    case NotModified(etag, _, _) => sentTag != "" && sentTag == o.etag && (etag == "" || etag == o.etag)
    case Found(etag, body, _, _) => etag == o.etag && body == o.body
  }

  function EntryAt(w: World, id: Option<nat>): Option<Entry> {
    if id.Some? && id.value in w.entries then Some(w.entries[id.value]) else None
  }

  /** Everyone waiting for the flight of `w` gets its keys; so does `w`. */
  function Landed(workers: map<nat, Worker>, w: nat): map<nat, Worker> {
    map i | i in workers && i != w && !workers[i].Waiting? :: workers[i]
  }

  ghost predicate Step(limits: Limits, s: World, e: Event, s': World) {
    match e
    case OriginChanges(next) =>
      // One tag names one body for good.
      && (next.etag != "" && next.etag in s.tagged ==> s.tagged[next.etag] == next.body)
      && s' == s.(origin := next, served := s.served + {next.body},
                  tagged := if next.etag == "" then s.tagged else s.tagged[next.etag := next.body])
    case ReadCached(refresher) =>
      && s.cache.Some? && s.cache.value in s.entries && (refresher.Some? ==> refresher.value !in s.workers)
      && s' == s.(returned := s.returned + [s.entries[s.cache.value].keys],
                  workers := if refresher.Some? then s.workers[refresher.value := MustRefresh(s.cache)] else s.workers)
    case ReadMissing(w) => s.cache.None? && w !in s.workers && s' == s.(workers := s.workers[w := MustRefresh(None)])
    case ReadForUnknownKid(w) => w !in s.workers && s' == s.(workers := s.workers[w := HasEntry(s.cache)])
    case Mark(w, now) =>
      && 0 < now && w in s.workers && s.workers[w].HasEntry?
      && var id := s.workers[w].entry;
         if EntryAt(s, id).None? then s' == s.(workers := s.workers[w := MustRefresh(None)])
         else if !MayAttempt(s.entries[id.value], now, limits.minInterval) then s' == s.(workers := s.workers - {w})
         else s' == s.(entries := s.entries[id.value := s.entries[id.value].(lastAttempt := now)], cache := id,
                       workers := s.workers[w := MustRefresh(id)])
    case StartOrJoin(w) =>
      && w in s.workers && s.workers[w].MustRefresh?
      && s' == (if s.flight.None?
                then s.(flight := Some(w), workers := s.workers[w := Fetching(s.workers[w].existing, None)])
                else s.(workers := s.workers[w := Waiting]))
    case Fetch(w, got) =>
      && s.flight == Some(w) && w in s.workers && s.workers[w].Fetching? && s.workers[w].got.None?
      && Honest(s.origin, SentEtag(EntryAt(s, s.workers[w].existing)), got)
      && s' == s.(workers := s.workers[w := Fetching(s.workers[w].existing, Some((got, s.origin.body)))])
    case Install(w, id) =>
      && s.flight == Some(w) && w in s.workers && s.workers[w].Fetching? && s.workers[w].got.Some? && id !in s.entries
      && var next := Refreshed(EntryAt(s, s.workers[w].existing), s.workers[w].got.value.0);
         && next.Some?
         && s' == s.(entries := s.entries[id := next.value], cache := Some(id), flight := None,
                     workers := Landed(s.workers, w), returned := s.returned + [next.value.keys])
    case FetchFailed(w) =>
      && s.flight == Some(w) && w in s.workers && s.workers[w].Fetching? && s.workers[w].got.Some?
      && Refreshed(EntryAt(s, s.workers[w].existing), s.workers[w].got.value.0).None?
      && s' == s.(flight := None, workers := Landed(s.workers, w))
  }

  ghost predicate Start(s: World) {
    && s.entries == map[] && s.cache == None && s.workers == map[] && s.flight == None
    && s.served == {s.origin.body} && s.returned == []
    && s.tagged == if s.origin.etag == "" then map[] else map[s.origin.etag := s.origin.body]
  }

  /** The keys of a body the origin has served. */
  ghost predicate ServedKeys(s: World, keys: seq<Key>) {
    exists b :: b in s.served && Decode(b) == Some(keys)
  }

  /** A genuine entry: its keys were served, and its tag, if it has one, names just that body. */
  ghost predicate Genuine(s: World, e: Entry) {
    && ServedKeys(s, e.keys)
    && (e.etag != "" ==> e.etag in s.tagged && Decode(s.tagged[e.etag]) == Some(e.keys))
  }

  /** A response in hand came with the body the origin served at that moment. */
  ghost predicate GenuineFetch(s: World, existing: Option<Entry>, got: Fetched, body: Body) {
    && body in s.served
    && match got
       case NotModified(etag, _, _) =>
         existing.Some? && existing.value.etag != "" && Decode(body) == Some(existing.value.keys)
         && (etag == "" || etag == existing.value.etag)
       case Found(etag, b, _, _) => b == body && (etag != "" ==> etag in s.tagged && s.tagged[etag] == b)
       case _ => true
  }

  ghost predicate WorkerInv(s: World, w: Worker) {
    match w
    case MustRefresh(existing) => existing.Some? ==> existing.value in s.entries
    case Fetching(existing, got) =>
      && (existing.Some? ==> existing.value in s.entries)
      && (got.Some? ==> GenuineFetch(s, EntryAt(s, existing), got.value.0, got.value.1))
    case Waiting => true
    case HasEntry(entry) => entry.Some? ==> entry.value in s.entries
  }

  ghost predicate Inv(s: World) {
    && s.origin.body in s.served
    && (s.origin.etag != "" ==> s.origin.etag in s.tagged && s.tagged[s.origin.etag] == s.origin.body)
    && (s.cache.Some? ==> s.cache.value in s.entries)
    && (forall id :: id in s.entries ==> Genuine(s, s.entries[id]))
    && (forall w :: w in s.workers ==> WorkerInv(s, s.workers[w]))
    && (forall i :: 0 <= i < |s.returned| ==> ServedKeys(s, s.returned[i]))
  }

  /** Entries keep their keys and tags for ever, and nothing the origin served is forgotten. */
  ghost predicate Grows(s: World, s': World) {
    && s.served <= s'.served
    && (forall t :: t in s.tagged ==> t in s'.tagged && s'.tagged[t] == s.tagged[t])
    && (forall id :: id in s.entries ==>
          id in s'.entries && s'.entries[id].keys == s.entries[id].keys && s'.entries[id].etag == s.entries[id].etag)
  }

  lemma KeysStayServed(s: World, s': World, keys: seq<Key>)
    requires Grows(s, s') && ServedKeys(s, keys)
    ensures ServedKeys(s', keys)
  {}

  lemma EntryStaysGenuine(s: World, s': World, e: Entry, e': Entry)
    requires Grows(s, s') && Genuine(s, e) && e'.keys == e.keys && e'.etag == e.etag
    ensures Genuine(s', e')
  {}

  lemma WorkerStays(s: World, s': World, w: Worker)
    requires Grows(s, s') && WorkerInv(s, w)
    ensures WorkerInv(s', w)
  {}

  /** What is left of the invariant once the shared state is known to have grown. */
  lemma GrowthKeeps(s: World, s': World)
    requires Inv(s) && Grows(s, s')
    requires s'.origin.body in s'.served
    requires s'.origin.etag != "" ==> s'.origin.etag in s'.tagged && s'.tagged[s'.origin.etag] == s'.origin.body
    requires s'.cache.Some? ==> s'.cache.value in s'.entries
    requires forall id :: id in s'.entries && id !in s.entries ==> Genuine(s', s'.entries[id])
    requires forall w :: w in s'.workers ==>
               (w in s.workers && s'.workers[w] == s.workers[w]) || WorkerInv(s', s'.workers[w])
    requires forall i :: 0 <= i < |s'.returned| ==>
               (i < |s.returned| && s'.returned[i] == s.returned[i]) || ServedKeys(s', s'.returned[i])
    ensures Inv(s')
  {
    forall id | id in s.entries ensures Genuine(s', s'.entries[id]) {
      EntryStaysGenuine(s, s', s.entries[id], s'.entries[id]);
    }
    forall w | w in s'.workers ensures WorkerInv(s', s'.workers[w]) {
      if w in s.workers && s'.workers[w] == s.workers[w] {
        WorkerStays(s, s', s.workers[w]);
      }
    }
    forall i | 0 <= i < |s'.returned| ensures ServedKeys(s', s'.returned[i]) {
      if i < |s.returned| && s'.returned[i] == s.returned[i] {
        KeysStayServed(s, s', s.returned[i]);
      }
    }
  }

  /** A refresh on an honest answer makes a genuine entry, and its keys are those of the
      body the origin was serving when it answered, even if the answer was a 304. */
  lemma RefreshIsGenuine(s: World, existing: Option<Entry>, got: Fetched, body: Body)
    requires existing.Some? ==> Genuine(s, existing.value)
    requires GenuineFetch(s, existing, got, body) && Refreshed(existing, got).Some?
    ensures Genuine(s, Refreshed(existing, got).value)
    ensures Decode(body) == Some(Refreshed(existing, got).value.keys)
  {}

  lemma InstallKeeps(limits: Limits, s: World, e: Event, s': World)
    requires Inv(s) && Step(limits, s, e, s') && e.Install?
    ensures Inv(s') && Grows(s, s') && (s.cache.Some? ==> s'.cache.Some?)
  {
    var existing := EntryAt(s, s.workers[e.w].existing);
    var next := Refreshed(existing, s.workers[e.w].got.value.0);
    assert WorkerInv(s, s.workers[e.w]);
    RefreshIsGenuine(s, existing, s.workers[e.w].got.value.0, s.workers[e.w].got.value.1);
    EntryStaysGenuine(s, s', next.value, next.value);
    GrowthKeeps(s, s');
  }

  lemma FetchKeeps(limits: Limits, s: World, e: Event, s': World)
    requires Inv(s) && Step(limits, s, e, s') && e.Fetch?
    ensures Inv(s') && Grows(s, s') && (s.cache.Some? ==> s'.cache.Some?)
  {
    var existing := EntryAt(s, s.workers[e.w].existing);
    assert WorkerInv(s, s.workers[e.w]);
    assert existing.Some? ==> Genuine(s, existing.value);
    assert GenuineFetch(s, existing, e.got, s.origin.body);
    GrowthKeeps(s, s');
  }

  lemma MarkKeeps(limits: Limits, s: World, e: Event, s': World)
    requires Inv(s) && Step(limits, s, e, s') && e.Mark?
    ensures Inv(s') && Grows(s, s') && (s.cache.Some? ==> s'.cache.Some?)
  {
    assert WorkerInv(s, s.workers[e.w]);
    GrowthKeeps(s, s');
  }

  lemma OtherKeeps(limits: Limits, s: World, e: Event, s': World)
    requires Inv(s) && Step(limits, s, e, s') && !e.Install? && !e.Fetch? && !e.Mark?
    ensures Inv(s') && Grows(s, s') && (s.cache.Some? ==> s'.cache.Some?)
  {
    if e.StartOrJoin? {
      assert WorkerInv(s, s.workers[e.w]);
    }
    GrowthKeeps(s, s');
  }

  lemma StepKeeps(limits: Limits, s: World, e: Event, s': World)
    requires Inv(s) && Step(limits, s, e, s')
    ensures Inv(s') && Grows(s, s') && (s.cache.Some? ==> s'.cache.Some?)
  {
    match e {
      case Install(_, _) => InstallKeeps(limits, s, e, s');
      case Fetch(_, _) => FetchKeeps(limits, s, e, s');
      case Mark(_, _) => MarkKeeps(limits, s, e, s');
      case _ => OtherKeeps(limits, s, e, s');
    }
  }

  ghost predicate StepAt(limits: Limits, worlds: seq<World>, log: seq<Event>, i: nat)
    requires |worlds| == |log| + 1 && i < |log|
  {
    Step(limits, worlds[i], log[i], worlds[i + 1])
  }

  ghost predicate Run(limits: Limits, worlds: seq<World>, log: seq<Event>) {
    && |worlds| == |log| + 1 && Start(worlds[0])
    && forall i {:trigger StepAt(limits, worlds, log, i)} :: 0 <= i < |log| ==> StepAt(limits, worlds, log, i)
  }

  lemma {:induction false} RunKeeps(limits: Limits, worlds: seq<World>, log: seq<Event>, n: nat)
    requires Run(limits, worlds, log) && n <= |log|
    ensures Inv(worlds[n])
  {
    if n > 0 {
      RunKeeps(limits, worlds, log, n - 1);
      assert StepAt(limits, worlds, log, n - 1);
      StepKeeps(limits, worlds[n - 1], log[n - 1], worlds[n]);
    }
  }

  /** Under every interleaving, every key list handed to a caller is the decodable keys of a
      body the origin really served. */
  lemma ReturnedKeysWereServed(limits: Limits, worlds: seq<World>, log: seq<Event>, n: nat, i: nat)
    requires Run(limits, worlds, log) && n <= |log| && i < |worlds[n].returned|
    ensures exists b :: b in worlds[n].served && Decode(b) == Some(worlds[n].returned[i])
  {
    RunKeeps(limits, worlds, log, n);
    assert ServedKeys(worlds[n], worlds[n].returned[i]);
  }

  /** An installed entry holds the keys the origin was serving at the moment of the fetch. */
  lemma InstalledKeysWereCurrent(limits: Limits, worlds: seq<World>, log: seq<Event>, n: nat, w: nat)
    requires Run(limits, worlds, log) && n < |log| && log[n].Install? && log[n].w == w
    ensures var s, s' := worlds[n], worlds[n + 1];
            && w in s.workers && s.workers[w].Fetching? && s.workers[w].got.Some?
            && s.workers[w].got.value.1 in s.served
            && s'.cache.Some? && s'.cache.value in s'.entries
            && Decode(s.workers[w].got.value.1) == Some(s'.entries[s'.cache.value].keys)
  {
    RunKeeps(limits, worlds, log, n);
    assert StepAt(limits, worlds, log, n);
    var s := worlds[n];
    assert WorkerInv(s, s.workers[w]);
    RefreshIsGenuine(s, EntryAt(s, s.workers[w].existing), s.workers[w].got.value.0, s.workers[w].got.value.1);
  }

  /** Once something has been cached no caller ever misses again, whatever overlaps. */
  lemma {:induction false} NeverMissingAgain(limits: Limits, worlds: seq<World>, log: seq<Event>, i: nat, j: nat)
    requires Run(limits, worlds, log) && i <= j <= |log| && worlds[i].cache.Some?
    ensures worlds[j].cache.Some?
    ensures j < |log| ==> !log[j].ReadMissing?
    decreases j
  {
    if i < j {
      NeverMissingAgain(limits, worlds, log, i, j - 1);
      RunKeeps(limits, worlds, log, j - 1);
      assert StepAt(limits, worlds, log, j - 1);
      StepKeeps(limits, worlds[j - 1], log[j - 1], worlds[j]);
    }
    if j < |log| {
      assert StepAt(limits, worlds, log, j);
    }
  }

  // ---- How far apart marks are ----

  /** The event is a mark that goes through. */
  ghost predicate Marks(limits: Limits, s: World, e: Event) {
    && e.Mark? && e.w in s.workers && s.workers[e.w].HasEntry?
    && EntryAt(s, s.workers[e.w].entry).Some?
    && MayAttempt(EntryAt(s, s.workers[e.w].entry).value, e.now, limits.minInterval)
  }

  /** The entry a worker marks, or puts a new one in place of, is still the one that is
      cached: none was replaced between its read and this event. */
  ghost predicate UpToDate(s: World, e: Event) {
    match e
    case Mark(w, _) => w in s.workers && s.workers[w].HasEntry? ==> s.workers[w].entry == s.cache
    case Install(w, _) => w in s.workers && s.workers[w].Fetching? ==> s.workers[w].existing == s.cache
    case _ => true
  }

  ghost predicate AllUpToDate(worlds: seq<World>, log: seq<Event>, from: nat, to: nat)
    requires |worlds| == |log| + 1 && to <= |log|
  {
    forall m {:trigger UpToDate(worlds[m], log[m])} :: from <= m < to ==> UpToDate(worlds[m], log[m])
  }

  /** The cached entry carries the mark. */
  ghost predicate Carries(s: World, mark: Time) {
    EntryAt(s, s.cache).Some? && EntryAt(s, s.cache).value.lastAttempt == mark
  }

  lemma StepCarriesMark(limits: Limits, s: World, e: Event, s': World, mark: Time)
    requires Inv(s) && Step(limits, s, e, s') && UpToDate(s, e) && (Carries(s, mark) || Marks(limits, s, e))
    ensures Carries(s', if Marks(limits, s, e) then e.now else mark)
    ensures Marks(limits, s, e) && Carries(s, mark) && mark != 0 ==> e.now - mark >= limits.minInterval
  {}

  /** From a mark on, the cached entry carries the latest one: refreshes hand it down, and a
      failed refresh, a 304 or a change at the origin loses nothing. */
  lemma {:induction false} LatestMarkIsCarried(limits: Limits, worlds: seq<World>, log: seq<Event>, i: nat, j: nat)
    returns (k: nat)
    requires Run(limits, worlds, log) && i < j <= |log| && AllUpToDate(worlds, log, i, j)
    requires Marks(limits, worlds[i], log[i]) && 0 <= limits.minInterval
    ensures i <= k < j && Marks(limits, worlds[k], log[k]) && Carries(worlds[j], log[k].now)
    ensures log[i].now <= log[k].now
    decreases j
  {
    var s, e := worlds[j - 1], log[j - 1];
    RunKeeps(limits, worlds, log, j - 1);
    assert StepAt(limits, worlds, log, j - 1) && UpToDate(s, e);
    k := i;
    if i < j - 1 {
      k := LatestMarkIsCarried(limits, worlds, log, i, j - 1);
      assert StepAt(limits, worlds, log, k);
    }
    StepCarriesMark(limits, s, e, worlds[j], log[k].now);
    if Marks(limits, s, e) {
      k := j - 1;
    }
  }

  /** So however callers, refreshes and the origin interleave, any two marks are at least the
      minimum interval apart as long as nobody marks or replaces an entry that is no longer cached. */
  lemma UpToDateMarksKeepTheirDistance(limits: Limits, worlds: seq<World>, log: seq<Event>, i: nat, j: nat)
    requires Run(limits, worlds, log) && i < j < |log| && AllUpToDate(worlds, log, i, j + 1)
    requires Marks(limits, worlds[i], log[i]) && Marks(limits, worlds[j], log[j]) && 0 <= limits.minInterval
    ensures log[j].now - log[i].now >= limits.minInterval
  {
    var k := LatestMarkIsCarried(limits, worlds, log, i, j);
    RunKeeps(limits, worlds, log, j);
    assert StepAt(limits, worlds, log, k) && StepAt(limits, worlds, log, j) && UpToDate(worlds[j], log[j]);
    StepCarriesMark(limits, worlds[j], log[j], worlds[j + 1], log[k].now);
  }

  /** Event `k` is the latest mark among the first `n` events, by the log and by the clock. */
  ghost predicate LatestMark(limits: Limits, worlds: seq<World>, log: seq<Event>, n: nat, k: nat)
    requires |worlds| == |log| + 1 && n <= |log|
  {
    && k < n && Marks(limits, worlds[k], log[k])
    && forall m {:trigger log[m]} :: 0 <= m < n && Marks(limits, worlds[m], log[m]) ==>
         m <= k && log[m].now <= log[k].now
  }

  /** No entry carries a later instant than the marks made so far. */
  lemma {:induction false} AttemptsWereMarks(limits: Limits, worlds: seq<World>, log: seq<Event>, n: nat, latest: Time)
    requires Run(limits, worlds, log) && n <= |log| && 0 <= latest
    requires forall m {:trigger log[m]} :: 0 <= m < n && Marks(limits, worlds[m], log[m]) ==> log[m].now <= latest
    ensures forall id :: id in worlds[n].entries ==> worlds[n].entries[id].lastAttempt <= latest
  {
    if n > 0 {
      AttemptsWereMarks(limits, worlds, log, n - 1, latest);
      assert StepAt(limits, worlds, log, n - 1);
      assert log[n - 1].Mark? ==>
               Marks(limits, worlds[n - 1], log[n - 1]) || worlds[n].entries == worlds[n - 1].entries;
    }
  }

  /** A mark by worker `w` would go through at `now`, less than the minimum interval after `mark`. */
  ghost predicate EarlyMark(limits: Limits, s: World, w: nat, mark: Time, now: Time) {
    mark <= now < mark + limits.minInterval && Marks(limits, s, Mark(w, now))
  }

  /** Exactly when a worker can mark too soon: when the entry it has read does not carry the
      latest mark. A mark on an entry replaced since, or on one that a refresh of a replaced
      entry has put in the cache, is of that kind (`OverlappingMarksBunch`, `LateInstallLosesMark`);
      while every event is up to date there is none (`UpToDateMarksKeepTheirDistance`). */
  lemma EarlyMarkJustOnMissingMark(limits: Limits, worlds: seq<World>, log: seq<Event>, n: nat, k: nat, w: nat, id: nat)
    requires Run(limits, worlds, log) && n <= |log| && LatestMark(limits, worlds, log, n, k) && 0 < limits.minInterval
    requires w in worlds[n].workers && worlds[n].workers[w] == HasEntry(Some(id))
    ensures id in worlds[n].entries
    ensures (exists now :: EarlyMark(limits, worlds[n], w, log[k].now, now)) <==>
              worlds[n].entries[id].lastAttempt != log[k].now
  {
    RunKeeps(limits, worlds, log, n);
    assert WorkerInv(worlds[n], worlds[n].workers[w]);
    assert StepAt(limits, worlds, log, k);
    AttemptsWereMarks(limits, worlds, log, n, log[k].now);
    if worlds[n].entries[id].lastAttempt != log[k].now {
      assert EarlyMark(limits, worlds[n], w, log[k].now, log[k].now + limits.minInterval - 1);
    }
  }

  // ---- Marks that come too close ----

  lemma Extend(limits: Limits, worlds: seq<World>, log: seq<Event>, e: Event, s': World)
    requires Run(limits, worlds, log) && Step(limits, worlds[|log|], e, s')
    ensures Run(limits, worlds + [s'], log + [e])
  {
    var worlds', log' := worlds + [s'], log + [e];
    forall i | 0 <= i < |log'| ensures StepAt(limits, worlds', log', i) {
      assert i < |log| ==> StepAt(limits, worlds, log, i);
    }
  }

  const NO_KEYS := KeySet([])
  const SERVED := Found("", NO_KEYS, 0, 0)
  const FIRST := Entry([], "", 0, 0, 0)

  /** Entry 0 is cached, and nobody is at work. */
  function FirstCached(): World {
    World(map[0 := FIRST], Some(0), map[], None, Serving("", NO_KEYS), map[], {NO_KEYS}, [[]])
  }

  lemma FirstCachedHappens(limits: Limits) returns (worlds: seq<World>, log: seq<Event>)
    ensures Run(limits, worlds, log) && worlds[|log|] == FirstCached()
  {
    var w0 := World(map[], None, map[], None, Serving("", NO_KEYS), map[], {NO_KEYS}, []);
    worlds, log := [w0], [];
    var w1 := w0.(workers := map[0 := MustRefresh(None)]);
    Extend(limits, worlds, log, ReadMissing(0), w1);
    worlds, log := worlds + [w1], log + [ReadMissing(0)];
    var w2 := w1.(flight := Some(0), workers := map[0 := Fetching(None, None)]);
    Extend(limits, worlds, log, StartOrJoin(0), w2);
    worlds, log := worlds + [w2], log + [StartOrJoin(0)];
    var w3 := w2.(workers := map[0 := Fetching(None, Some((SERVED, NO_KEYS)))]);
    Extend(limits, worlds, log, Fetch(0, SERVED), w3);
    worlds, log := worlds + [w3], log + [Fetch(0, SERVED)];
    assert Landed(w3.workers, 0) == map[];
    Extend(limits, worlds, log, Install(0, 0), FirstCached());
    worlds, log := worlds + [FirstCached()], log + [Install(0, 0)];
  }

  /** Workers 1 and 2 have read entry 0 for an unknown key. */
  function BothRead(): World {
    FirstCached().(workers := map[1 := HasEntry(Some(0)), 2 := HasEntry(Some(0))])
  }

  lemma BothReadHappens(limits: Limits) returns (worlds: seq<World>, log: seq<Event>)
    ensures Run(limits, worlds, log) && worlds[|log|] == BothRead()
  {
    worlds, log := FirstCachedHappens(limits);
    var w5 := FirstCached().(workers := map[1 := HasEntry(Some(0))]);
    Extend(limits, worlds, log, ReadForUnknownKid(1), w5);
    worlds, log := worlds + [w5], log + [ReadForUnknownKid(1)];
    Extend(limits, worlds, log, ReadForUnknownKid(2), BothRead());
    worlds, log := worlds + [BothRead()], log + [ReadForUnknownKid(2)];
  }

  /** Worker 2 has marked entry 0 and replaced it by entry 1; worker 3 has read that. */
  function Replaced(first: Time): World {
    World(map[0 := FIRST.(lastAttempt := first), 1 := FIRST.(lastAttempt := first)], Some(1),
          map[1 := HasEntry(Some(0)), 3 := HasEntry(Some(1))], None, Serving("", NO_KEYS), map[], {NO_KEYS}, [[], []])
  }

  /** Worker 2 has marked entry 0 and holds the answer to its fetch. */
  function Answered(first: Time): World {
    BothRead().(entries := map[0 := FIRST.(lastAttempt := first)], flight := Some(2),
                workers := map[1 := HasEntry(Some(0)), 2 := Fetching(Some(0), Some((SERVED, NO_KEYS)))])
  }

  lemma AnsweredHappens(limits: Limits, first: Time) returns (worlds: seq<World>, log: seq<Event>)
    requires 0 < first
    ensures Run(limits, worlds, log) && worlds[|log|] == Answered(first)
  {
    worlds, log := BothReadHappens(limits);
    var reader := HasEntry(Some(0));
    var w7 := BothRead().(entries := map[0 := FIRST.(lastAttempt := first)],
                          workers := map[1 := reader, 2 := MustRefresh(Some(0))]);
    Extend(limits, worlds, log, Mark(2, first), w7);
    worlds, log := worlds + [w7], log + [Mark(2, first)];
    var w8 := w7.(flight := Some(2), workers := map[1 := reader, 2 := Fetching(Some(0), None)]);
    Extend(limits, worlds, log, StartOrJoin(2), w8);
    worlds, log := worlds + [w8], log + [StartOrJoin(2)];
    Extend(limits, worlds, log, Fetch(2, SERVED), Answered(first));
    worlds, log := worlds + [Answered(first)], log + [Fetch(2, SERVED)];
  }

  lemma ReplacedHappens(limits: Limits, first: Time) returns (worlds: seq<World>, log: seq<Event>)
    requires 0 < first
    ensures Run(limits, worlds, log) && worlds[|log|] == Replaced(first)
  {
    worlds, log := AnsweredHappens(limits, first);
    var w9, reader := Answered(first), HasEntry(Some(0));
    assert Landed(w9.workers, 2) == map[1 := reader];
    var w10 := w9.(entries := Replaced(first).entries, cache := Some(1), flight := None, workers := map[1 := reader],
                   returned := [[], []]);
    Extend(limits, worlds, log, Install(2, 1), w10);
    worlds, log := worlds + [w10], log + [Install(2, 1)];
    Extend(limits, worlds, log, ReadForUnknownKid(3), Replaced(first));
    worlds, log := worlds + [Replaced(first)], log + [ReadForUnknownKid(3)];
  }

  /** Marks need not keep their distance when refreshes overlap: worker 3 marks the entry that
      is cached, and a nanosecond later worker 1 marks the one it read before. */
  lemma OverlappingMarksBunch(limits: Limits) returns (worlds: seq<World>, log: seq<Event>, n: nat)
    requires 0 < limits.minInterval
    ensures Run(limits, worlds, log) && |log| == n + 2
    ensures Marks(limits, worlds[n], log[n]) && Marks(limits, worlds[n + 1], log[n + 1])
    ensures UpToDate(worlds[n], log[n]) && !UpToDate(worlds[n + 1], log[n + 1])
    ensures var t := 1 + 2 * limits.minInterval;
            && log[n] == Mark(3, t) && worlds[n + 1].cache == Some(1) && 1 in worlds[n + 1].entries
            && worlds[n + 1].entries[1].lastAttempt == t
            && log[n + 1] == Mark(1, t + 1) && worlds[n + 2].cache == Some(0) && 0 in worlds[n + 2].entries
            && worlds[n + 2].entries[0].lastAttempt == t + 1
  {
    var first, t := 1 + limits.minInterval, 1 + 2 * limits.minInterval;
    worlds, log := ReplacedHappens(limits, first);
    n := |log|;
    var w12 := Replaced(first).(entries := Replaced(first).entries[1 := FIRST.(lastAttempt := t)],
                                workers := map[1 := HasEntry(Some(0)), 3 := MustRefresh(Some(1))]);
    Extend(limits, worlds, log, Mark(3, t), w12);
    worlds, log := worlds + [w12], log + [Mark(3, t)];
    var w13 := w12.(entries := w12.entries[0 := FIRST.(lastAttempt := t + 1)], cache := Some(0),
                    workers := map[1 := MustRefresh(Some(0)), 3 := MustRefresh(Some(1))]);
    Extend(limits, worlds, log, Mark(1, t + 1), w13);
    worlds, log := worlds + [w13], log + [Mark(1, t + 1)];
  }

  /** Two background refreshes of entry 0 have begun; worker 1's has put entry 1 in its place. */
  function OneBehind(): World {
    World(map[0 := FIRST, 1 := FIRST], Some(1), map[2 := MustRefresh(Some(0))], None, Serving("", NO_KEYS),
          map[], {NO_KEYS}, [[], [], [], []])
  }

  lemma OneBehindHappens(limits: Limits) returns (worlds: seq<World>, log: seq<Event>)
    ensures Run(limits, worlds, log) && worlds[|log|] == OneBehind()
  {
    worlds, log := FirstCachedHappens(limits);
    var behind := MustRefresh(Some(0));
    var w5 := FirstCached().(workers := map[1 := behind], returned := [[], []]);
    Extend(limits, worlds, log, ReadCached(Some(1)), w5);
    worlds, log := worlds + [w5], log + [ReadCached(Some(1))];
    var w6 := w5.(workers := map[1 := behind, 2 := behind], returned := [[], [], []]);
    Extend(limits, worlds, log, ReadCached(Some(2)), w6);
    worlds, log := worlds + [w6], log + [ReadCached(Some(2))];
    var w7 := w6.(flight := Some(1), workers := map[1 := Fetching(Some(0), None), 2 := behind]);
    Extend(limits, worlds, log, StartOrJoin(1), w7);
    worlds, log := worlds + [w7], log + [StartOrJoin(1)];
    var w8 := w7.(workers := map[1 := Fetching(Some(0), Some((SERVED, NO_KEYS))), 2 := behind]);
    Extend(limits, worlds, log, Fetch(1, SERVED), w8);
    worlds, log := worlds + [w8], log + [Fetch(1, SERVED)];
    assert Landed(w8.workers, 1) == map[2 := behind];
    Extend(limits, worlds, log, Install(1, 1), OneBehind());
    worlds, log := worlds + [OneBehind()], log + [Install(1, 1)];
  }

  /** Worker 3 has marked entry 1 at instant 1, and worker 2 holds an answer for entry 0. */
  function MarkedMeanwhile(): World {
    OneBehind().(entries := map[0 := FIRST, 1 := FIRST.(lastAttempt := 1)], flight := Some(2),
                 workers := map[2 := Fetching(Some(0), Some((SERVED, NO_KEYS))), 3 := MustRefresh(Some(1))])
  }

  lemma MarkedMeanwhileHappens(limits: Limits) returns (worlds: seq<World>, log: seq<Event>, n: nat)
    ensures Run(limits, worlds, log) && worlds[|log|] == MarkedMeanwhile() && |log| == n + 3
    ensures log[n] == Mark(3, 1) && Marks(limits, worlds[n], log[n]) && UpToDate(worlds[n], log[n])
  {
    worlds, log := OneBehindHappens(limits);
    var behind := MustRefresh(Some(0));
    var w10 := OneBehind().(workers := map[2 := behind, 3 := HasEntry(Some(1))]);
    Extend(limits, worlds, log, ReadForUnknownKid(3), w10);
    worlds, log := worlds + [w10], log + [ReadForUnknownKid(3)];
    n := |log|;
    var w11 := w10.(entries := MarkedMeanwhile().entries, workers := map[2 := behind, 3 := MustRefresh(Some(1))]);
    Extend(limits, worlds, log, Mark(3, 1), w11);
    worlds, log := worlds + [w11], log + [Mark(3, 1)];
    var w12 := w11.(flight := Some(2), workers := map[2 := Fetching(Some(0), None), 3 := MustRefresh(Some(1))]);
    Extend(limits, worlds, log, StartOrJoin(2), w12);
    worlds, log := worlds + [w12], log + [StartOrJoin(2)];
    Extend(limits, worlds, log, Fetch(2, SERVED), MarkedMeanwhile());
    worlds, log := worlds + [MarkedMeanwhile()], log + [Fetch(2, SERVED)];
  }

  /** A refresh of an entry replaced since it was read brings back an older mark: worker 4
      marks the entry that is cached, a nanosecond after worker 3 did the same. */
  lemma LateInstallLosesMark(limits: Limits) returns (worlds: seq<World>, log: seq<Event>, n: nat)
    requires 0 < limits.minInterval
    ensures Run(limits, worlds, log) && |log| == n + 6
    ensures log[n] == Mark(3, 1) && Marks(limits, worlds[n], log[n]) && UpToDate(worlds[n], log[n])
    ensures log[n + 3] == Install(2, 2) && !UpToDate(worlds[n + 3], log[n + 3])
    ensures log[n + 5] == Mark(4, 2) && Marks(limits, worlds[n + 5], log[n + 5]) && UpToDate(worlds[n + 5], log[n + 5])
  {
    worlds, log, n := MarkedMeanwhileHappens(limits);
    var marker := MustRefresh(Some(1));
    var w13 := MarkedMeanwhile();
    assert Landed(w13.workers, 2) == map[3 := marker];
    var w14 := w13.(entries := w13.entries[2 := FIRST], cache := Some(2), flight := None, workers := map[3 := marker],
                    returned := [[], [], [], [], []]);
    Extend(limits, worlds, log, Install(2, 2), w14);
    worlds, log := worlds + [w14], log + [Install(2, 2)];
    var w15 := w14.(workers := map[3 := marker, 4 := HasEntry(Some(2))]);
    Extend(limits, worlds, log, ReadForUnknownKid(4), w15);
    worlds, log := worlds + [w15], log + [ReadForUnknownKid(4)];
    var w16 := w15.(entries := w15.entries[2 := FIRST.(lastAttempt := 2)],
                    workers := map[3 := marker, 4 := MustRefresh(Some(2))]);
    Extend(limits, worlds, log, Mark(4, 2), w16);
    worlds, log := worlds + [w16], log + [Mark(4, 2)];
  }
}
