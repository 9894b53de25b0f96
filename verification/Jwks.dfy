/** The cached remote key set, used by one caller at a time (jwks/remote_keyset.go,
    jwks/cache.go, jwks/http_fetch.go). */
module Jwks {
  import opened Correlations

  datatype Key = Key(kid: string, material: int)

  /** One element of a JWKS document, and the document. */
  datatype RawKey = Good(key: Key) | Bad
  datatype Body = NotJson | KeySet(raws: seq<RawKey>)

  function GoodKeys(raws: seq<RawKey>): seq<Key> {
    if raws == [] then []
    else
      var n := |raws| - 1;
      GoodKeys(raws[..n]) + (if raws[n].Good? then [raws[n].key] else [])
  }

  /** `decodeJWKS`: bad entries are skipped, unless all are bad. */
  function Decode(body: Body): Option<seq<Key>> {
    match body
    case NotJson => None
    case KeySet(raws) => if raws != [] && GoodKeys(raws) == [] then None else Some(GoodKeys(raws))
  }

  predicate HoldsKey(raws: seq<RawKey>, i: nat, key: Key) {
    i < |raws| && raws[i] == Good(key)
  }

  /** `at` points, in order, at every good element of the document and nothing else, and
      `keys` are the keys found there. */
  ghost predicate Lists(raws: seq<RawKey>, keys: seq<Key>, at: seq<nat>) {
    && |at| == |keys|
    && (forall k :: 0 <= k < |at| ==> HoldsKey(raws, at[k], keys[k]))
    && (forall k, l :: 0 <= k < l < |at| ==> at[k] < at[l])
    && (forall i :: 0 <= i < |raws| && raws[i].Good? ==> i in at)
  }

  /** Every decodable key of a document is kept, once, in the document's order. */
  lemma {:induction false} KeysInOrder(raws: seq<RawKey>) returns (at: seq<nat>)
    ensures Lists(raws, GoodKeys(raws), at)
  {
    if raws == [] {
      at := [];
    } else {
      var n := |raws| - 1;
      at := KeysInOrder(raws[..n]);
      if raws[n].Good? {
        ListGrows(raws, GoodKeys(raws[..n]), at);
        at := at + [n];
      } else {
        ListStands(raws, GoodKeys(raws[..n]), at);
        assert GoodKeys(raws) == GoodKeys(raws[..n]);
      }
    }
  }

  lemma ListStands(raws: seq<RawKey>, keys: seq<Key>, at: seq<nat>)
    requires raws != [] && raws[|raws| - 1].Bad? && Lists(raws[..|raws| - 1], keys, at)
    ensures Lists(raws, keys, at)
  {
    forall i | 0 <= i < |raws| && raws[i].Good? ensures i in at {
      assert raws[..|raws| - 1][i].Good?;
    }
  }

  lemma ListGrows(raws: seq<RawKey>, keys: seq<Key>, at: seq<nat>)
    requires raws != [] && raws[|raws| - 1].Good? && Lists(raws[..|raws| - 1], keys, at)
    ensures Lists(raws, keys + [raws[|raws| - 1].key], at + [|raws| - 1])
  {
    var n := |raws| - 1;
    forall i | 0 <= i < |raws| && raws[i].Good? ensures i in at + [n] {
      assert i < n ==> raws[..n][i].Good? && i in at;
    }
    forall k | 0 <= k < |at| ensures at[k] < n && HoldsKey(raws, at[k], keys[k]) {
      assert HoldsKey(raws[..n], at[k], keys[k]);
    }
  }

  /** A body is refused just when it is no document, or has entries of which none is good. */
  lemma DecodesJustWhen(body: Body)
    ensures Decode(body).Some? <==>
              body.KeySet? && (body.raws == [] || exists i :: 0 <= i < |body.raws| && body.raws[i].Good?)
    ensures Decode(body).Some? ==> Decode(body).value == GoodKeys(body.raws)
  {
    if body.KeySet? {
      var at := KeysInOrder(body.raws);
      assert |at| > 0 ==> HoldsKey(body.raws, at[0], GoodKeys(body.raws)[0]);
    }
  }

  method DecodeJwks(body: Body) returns (keys: Option<seq<Key>>)
    ensures keys == Decode(body)
  {
    if body.NotJson? {
      return None;
    }
    var decoded := [];
    for i := 0 to |body.raws|
      invariant decoded == GoodKeys(body.raws[..i])
    {
      assert body.raws[..i + 1][..i] == body.raws[..i];
      if body.raws[i].Bad? {
        continue;
      }
      decoded := decoded + [body.raws[i].key];
    }
    assert body.raws[..|body.raws|] == body.raws;
    if |body.raws| > 0 && |decoded| == 0 {
      return None;
    }
    return Some(decoded);
  }

  /** `findKey`: the first key with that id. */
  function Find(keys: seq<Key>, kid: string): (k: Option<Key>)
    ensures k.Some? <==> exists i :: 0 <= i < |keys| && keys[i].kid == kid
    ensures k.Some? ==> k.value in keys && k.value.kid == kid
  {
    if keys == [] then None
    else if keys[0].kid == kid then Some(keys[0])
    else Find(keys[1..], kid)
  }

  /** Element `i` is the first good one whose key has the id. */
  ghost predicate FirstServed(raws: seq<RawKey>, kid: string, i: nat) {
    && i < |raws| && raws[i].Good? && raws[i].key.kid == kid
    && forall j :: 0 <= j < i && raws[j].Good? ==> raws[j].key.kid != kid
  }

  lemma {:induction false} FindAppended(keys: seq<Key>, more: seq<Key>, kid: string)
    ensures Find(keys + more, kid) == if Find(keys, kid).Some? then Find(keys, kid) else Find(more, kid)
  {
    if keys == [] {
      assert keys + more == more;
    } else {
      FindAppended(keys[1..], more, kid);
      assert (keys + more)[1..] == keys[1..] + more;
    }
  }

  /** Looking an id up in what a document decodes to finds the first key served with it. */
  lemma {:induction false} FindsFirstServed(raws: seq<RawKey>, kid: string, i: nat)
    requires FirstServed(raws, kid, i)
    ensures Find(GoodKeys(raws), kid) == Some(raws[i].key)
  {
    var n := |raws| - 1;
    FindAppended(GoodKeys(raws[..n]), if raws[n].Good? then [raws[n].key] else [], kid);
    if i < n {
      assert FirstServed(raws[..n], kid, i);
      FindsFirstServed(raws[..n], kid, i);
    } else {
      FindsNoneServed(raws[..n], kid);
    }
  }

  lemma {:induction false} FindsNoneServed(raws: seq<RawKey>, kid: string)
    requires forall i :: 0 <= i < |raws| && raws[i].Good? ==> raws[i].key.kid != kid
    ensures Find(GoodKeys(raws), kid).None?
  {
    if raws != [] {
      var n := |raws| - 1;
      FindAppended(GoodKeys(raws[..n]), if raws[n].Good? then [raws[n].key] else [], kid);
      FindsNoneServed(raws[..n], kid);
    }
  }

  /** What a fetch brings back; times come from the response's caching headers and the clock. */
  datatype Fetched =
    | Unreachable
    | OtherStatus(status: nat)
    | NotModified(etag: string, freshUntil: Time, fetchedAt: Time)
    | Found(etag: string, body: Body, freshUntil: Time, fetchedAt: Time)

  /** The origin at one moment, as a function of the If-None-Match value ("" for none). */
  type Origin = string -> Fetched

  datatype Entry = Entry(keys: seq<Key>, etag: string, freshUntil: Time, fetchedAt: Time, lastAttempt: Time)

  /** `refresh`: the new entry, or None for an error. */
  function Refreshed(existing: Option<Entry>, got: Fetched): Option<Entry> {
    var lastAttempt := if existing.Some? then existing.value.lastAttempt else 0;
    match got
    case Unreachable => None
    case OtherStatus(_) => None
    case NotModified(etag, freshUntil, fetchedAt) =>
      if existing.None? then None
      else
        var tag := if etag != "" then etag else existing.value.etag;
        Some(Entry(existing.value.keys, tag, freshUntil, fetchedAt, lastAttempt))
    case Found(etag, body, freshUntil, fetchedAt) =>
      match Decode(body)
      case None => None
      case Some(keys) => Some(Entry(keys, etag, freshUntil, fetchedAt, lastAttempt))
  }

  function SentEtag(existing: Option<Entry>): string {
    if existing.Some? then existing.value.etag else ""
  }

  /** `markRefreshAttempt` on an entry: whether a refresh may go ahead. */
  predicate MayAttempt(e: Entry, now: Time, minInterval: int) {
    e.lastAttempt == 0 || now - e.lastAttempt >= minInterval
  }

  /** Intervals of a key set. */
  datatype Limits = Limits(expiryDelta: int, minInterval: int)

  predicate Fresh(e: Entry, now: Time, l: Limits) {
    now + l.expiryDelta < e.freshUntil
  }

  function Replace(cache: Option<Entry>, next: Option<Entry>): Option<Entry> {
    if next.Some? then next else cache
  }

  /** `refresh` of the cached entry, in the foreground or the background. */
  function AfterRefresh(cache: Option<Entry>, origin: Origin): Option<Entry> {
    Replace(cache, Refreshed(cache, origin(SentEtag(cache))))
  }

  /** `Keys`: what it returns, the cache by then, and whether it starts a background refresh. */
  function KeysCall(cache: Option<Entry>, l: Limits, now: Time, origin: Origin)
    : (Option<seq<Key>>, Option<Entry>, bool)
  {
    if cache.Some? then (Some(cache.value.keys), cache, !Fresh(cache.value, now, l))
    else
      var next := Refreshed(None, origin(""));
      (if next.Some? then Some(next.value.keys) else None, next, false)
  }

  datatype KeyResult = KeyFound(key: Key) | KeyNotFound | FetchFailed

  /** What a `Key` call does: its answer, the cache afterwards, and the mark it set, if any. */
  datatype KeyDone = KeyDone(result: KeyResult, cache: Option<Entry>, marked: Option<Time>)

  /** The cache when `Key` looks at it for the second time: `meanwhile` is the origin's answer
      to a background refresh that has ended since the first look, if one has. */
  function SecondLook(cache: Option<Entry>, meanwhile: Option<Origin>): Option<Entry> {
    if meanwhile.Some? then AfterRefresh(cache, meanwhile.value) else cache
  }

  /** The second half of `Key`: an unknown id forces a refresh, at most one every minimum interval. */
  function ForcedRefresh(cache: Option<Entry>, l: Limits, kid: string, markAt: Time, origin: Origin): KeyDone {
    if cache.Some? && !MayAttempt(cache.value, markAt, l.minInterval) then KeyDone(KeyNotFound, cache, None)
    else
      var marked := if cache.Some? then Some(cache.value.(lastAttempt := markAt)) else None;
      var next := Refreshed(marked, origin(SentEtag(marked)));
      var at := if cache.Some? then Some(markAt) else None;
      if next.None? then
        KeyDone(if cache.Some? && cache.value.keys != [] then KeyNotFound else FetchFailed, marked, at)
      else
        KeyDone(if Find(next.value.keys, kid).Some? then KeyFound(Find(next.value.keys, kid).value) else KeyNotFound,
                next, at)
  }

  /** `Key`. */
  function KeyCall(cache: Option<Entry>, l: Limits, kid: string, now: Time, origin: Origin, meanwhile: Option<Origin>,
                   markAt: Time, origin': Origin): KeyDone {
    var (keys, cache0, _) := KeysCall(cache, l, now, origin);
    if keys.None? then KeyDone(FetchFailed, cache0, None)
    else if Find(keys.value, kid).Some? then KeyDone(KeyFound(Find(keys.value, kid).value), cache0, None)
    else ForcedRefresh(SecondLook(cache0, meanwhile), l, kid, markAt, origin')
  }

  /** A key that is found has the id asked for and comes from the keys held before the call or
      after it. One that is not found was in neither, unless a background refresh brought it
      during the call and the minimum interval or a failed fetch kept the call from looking. */
  lemma KeyAnswersAreRight(cache: Option<Entry>, l: Limits, kid: string, now: Time, origin: Origin,
                           meanwhile: Option<Origin>, markAt: Time, origin': Origin)
    ensures var d := KeyCall(cache, l, kid, now, origin, meanwhile, markAt, origin');
            && (d.result.KeyFound? ==>
                  && d.result.key.kid == kid
                  && ((cache.Some? && d.result.key in cache.value.keys)
                      || (d.cache.Some? && d.result.key in d.cache.value.keys)))
            && (d.result.KeyNotFound? ==> d.cache.Some?)
            && (d.result.KeyNotFound? && cache.Some? ==> Find(cache.value.keys, kid).None?)
            && (d.result.KeyNotFound? && Find(d.cache.value.keys, kid).Some? ==>
                  && meanwhile.Some?
                  && (d.marked.None? || Refreshed(Some(d.cache.value), origin'(d.cache.value.etag)).None?))
  {}

  /** An id that is not held is looked for at the origin, and found there if it is served: on
      the first call at all, and later whenever the minimum interval since the last mark is over. */
  lemma ServedKeyIsFound(cache: Option<Entry>, l: Limits, kid: string, now: Time, origin: Origin, markAt: Time,
                         origin': Origin, got: Fetched, i: nat)
    requires got.Found? && got.body.KeySet? && FirstServed(got.body.raws, kid, i)
    requires cache.None? ==> origin("") == got
    requires cache.Some? ==> Find(cache.value.keys, kid).None? && origin'(cache.value.etag) == got
    requires cache.Some? && cache.value.lastAttempt != 0 ==> markAt - cache.value.lastAttempt >= l.minInterval
    ensures KeyCall(cache, l, kid, now, origin, None, markAt, origin').result == KeyFound(got.body.raws[i].key)
    ensures KeyCall(cache, l, kid, now, origin, None, markAt, origin').marked ==
              if cache.Some? then Some(markAt) else None
  {
    FindsFirstServed(got.body.raws, kid, i);
    DecodesJustWhen(got.body);
  }

  /** When the fetch an unknown id forces fails, a set that holds keys says "not found" and an
      empty one reports the failure; either way the mark stands. */
  lemma FailedFetchAnswers(cache: Option<Entry>, l: Limits, kid: string, now: Time, origin: Origin, markAt: Time,
                           origin': Origin)
    requires cache.Some? ==> Find(cache.value.keys, kid).None? && MayAttempt(cache.value, markAt, l.minInterval)
    requires cache.Some? ==> Refreshed(cache, origin'(cache.value.etag)).None?
    requires cache.None? ==> Refreshed(None, origin("")).None?
    ensures var d := KeyCall(cache, l, kid, now, origin, None, markAt, origin');
            && (d.result == KeyNotFound <==> cache.Some? && cache.value.keys != [])
            && (d.result == FetchFailed <==> cache.None? || cache.value.keys == [])
            && d.cache == (if cache.Some? then Some(cache.value.(lastAttempt := markAt)) else None)
  {}

  /** A background refresh that ends during the call counts: its entry is the one that is
      throttled, marked and asked about. */
  lemma BackgroundRefreshCounts(e: Entry, l: Limits, kid: string, now: Time, origin: Origin, meanwhile: Origin,
                                markAt: Time, origin': Origin)
    requires Find(e.keys, kid).None? && Refreshed(Some(e), meanwhile(e.etag)).Some?
    ensures var e' := Refreshed(Some(e), meanwhile(e.etag)).value;
            var d := KeyCall(Some(e), l, kid, now, origin, Some(meanwhile), markAt, origin');
            if !MayAttempt(e', markAt, l.minInterval) then d.cache == Some(e')
            else
              && d.marked == Some(markAt)
              && d.cache == Replace(Some(e'.(lastAttempt := markAt)),
                                    Refreshed(Some(e'.(lastAttempt := markAt)), origin'(e'.etag)))
  {}

  /** Within the interval there is neither a request nor a mark. */
  lemma ThrottledKeyIsNotFound(e: Entry, l: Limits, kid: string, now: Time, origin: Origin, markAt: Time,
                               origin': Origin)
    requires Find(e.keys, kid).None? && e.lastAttempt != 0 && markAt - e.lastAttempt < l.minInterval
    ensures KeyCall(Some(e), l, kid, now, origin, None, markAt, origin') == KeyDone(KeyNotFound, Some(e), None)
  {}

  /** A refresh fails just on a failed fetch, a 304 to nothing and a body that does not decode. */
  lemma RefreshFailsJustWhen(existing: Option<Entry>, got: Fetched)
    ensures Refreshed(existing, got).None? <==>
              || got.Unreachable? || got.OtherStatus?
              || (got.NotModified? && existing.None?) || (got.Found? && Decode(got.body).None?)
  {}

  /** The entry a refresh installs answers at once, starts a background refresh just when less
      than the expiry margin is left of the freshness the answer came with, and asks the
      origin next time with the last entity tag it sent. */
  lemma NextReadGoesByTheAnswer(existing: Option<Entry>, got: Fetched, l: Limits, now: Time, origin: Origin)
    requires Refreshed(existing, got).Some?
    ensures var e := Refreshed(existing, got);
            && KeysCall(e, l, now, origin)
               == (Some(e.value.keys), e, now >= got.freshUntil - l.expiryDelta)
            && SentEtag(e) == (if got.Found? || got.etag != "" then got.etag else existing.value.etag)
            && Some(e.value.keys) == (if got.Found? then Decode(got.body) else Some(existing.value.keys))
            && e.value.fetchedAt == got.fetchedAt
            && AfterRefresh(e, origin) == Replace(e, Refreshed(e, origin(e.value.etag)))
  {}

  /** `CacheEntry`: it owns its key array, which nobody else ever sees. */
  class CacheEntry {
    const keys: array<Key>
    const etag: string
    const freshUntil: Time
    const fetchedAt: Time
    var lastAttempt: Time

    /** `newCacheEntry`. */
    constructor (keys: array<Key>, etag: string, freshUntil: Time, fetchedAt: Time, lastAttempt: Time)
      ensures fresh(this.keys) && View() == Entry(keys[..], etag, freshUntil, fetchedAt, lastAttempt)
    {
      var copied := new Key[keys.Length](i requires 0 <= i < keys.Length reads keys => keys[i]);
      this.keys := copied;
      this.etag, this.freshUntil, this.fetchedAt, this.lastAttempt := etag, freshUntil, fetchedAt, lastAttempt;
      new;
      assert this.keys[..] == keys[..];
    }

    ghost function View(): Entry
      reads this, keys
    {
      Entry(keys[..], etag, freshUntil, fetchedAt, lastAttempt)
    }

    /** `keysCopy`. */
    method KeysCopy() returns (copied: array<Key>)
      ensures fresh(copied) && copied[..] == keys[..]
    {
      copied := new Key[keys.Length](i requires 0 <= i < keys.Length reads this, keys => keys[i]);
    }

    /** The scan `Key` makes over an entry's own keys. */
    method FindKey(kid: string) returns (found: Option<Key>)
      ensures found == Find(keys[..], kid)
    {
      found := FindIn(keys, kid);
    }
  }

  method FindIn(keys: array<Key>, kid: string) returns (found: Option<Key>)
    ensures found == Find(keys[..], kid)
  {
    for i := 0 to keys.Length
      invariant Find(keys[..], kid) == Find(keys[i..], kid)
    {
      assert keys[i..][0] == keys[i] && keys[i..][1..] == keys[i + 1..];
      if keys[i].kid == kid {
        return Some(keys[i]);
      }
    }
    return None;
  }

  class RemoteKeySet {
    const limits: Limits
    var cached: CacheEntry?

    constructor (limits: Limits)
      ensures this.limits == limits && cached == null
    {
      this.limits := limits;
      cached := null;
    }

    ghost function View(): Option<Entry>
      reads this, cached, if cached == null then {} else {cached.keys}
    {
      if cached == null then None else Some(cached.View())
    }

    /** `refresh` with the cached entry as the existing one. */
    method Refresh(origin: Origin) returns (entry: CacheEntry?)
      modifies this
      ensures View() == AfterRefresh(old(View()), origin)
      ensures entry != null <==> Refreshed(old(View()), origin(SentEtag(old(View())))).Some?
      ensures entry != null ==> entry == cached && fresh(entry) && fresh(entry.keys)
      ensures entry == null ==> cached == old(cached)
    {
      var existing := cached;
      var got := origin(if existing == null then "" else existing.etag);
      match got {
        case Unreachable => return null;
        case OtherStatus(_) => return null;
        case NotModified(etag, freshUntil, fetchedAt) =>
          if existing == null {
            return null;
          }
          var copied := existing.KeysCopy();
          entry := new CacheEntry(copied, if etag != "" then etag else existing.etag, freshUntil, fetchedAt,
                                  existing.lastAttempt);
        case Found(etag, body, freshUntil, fetchedAt) =>
          var decoded := DecodeJwks(body);
          if decoded.None? {
            return null;
          }
          var keys := new Key[|decoded.value|](i requires 0 <= i < |decoded.value| => decoded.value[i]);
          assert keys[..] == decoded.value;
          entry := new CacheEntry(keys, etag, freshUntil, fetchedAt,
                                  if existing == null then 0 else existing.lastAttempt);
      }
      cached := entry;
    }

    /** A cached list is returned at once, stale or not; `stale` says that a background refresh
        is on its way, to end as a `Refresh` of its own. */
    method Keys(now: Time, origin: Origin) returns (keys: array?<Key>, stale: bool)
      modifies this
      ensures (if keys == null then None else Some(keys[..]), View(), stale)
              == KeysCall(old(View()), limits, now, origin)
      ensures keys != null ==> fresh(keys) && cached != null && keys != cached.keys
      ensures cached == old(cached) || (cached != null && fresh(cached) && fresh(cached.keys))
    {
      if cached != null {
        keys := cached.KeysCopy();
        return keys, now + limits.expiryDelta >= cached.freshUntil;
      }
      var entry := Refresh(origin);
      if entry == null {
        return null, false;
      }
      keys := entry.KeysCopy();
      return keys, false;
    }

    /** `markRefreshAttempt` on the cached entry. */
    method MarkRefreshAttempt(now: Time) returns (ok: bool)
      modifies this, cached
      ensures cached == old(cached)
      ensures ok <==> cached == null || MayAttempt(old(View()).value, now, limits.minInterval)
      ensures View() == if ok && cached != null then Some(old(View()).value.(lastAttempt := now)) else old(View())
    {
      if cached == null {
        return true;
      }
      if cached.lastAttempt != 0 && now - cached.lastAttempt < limits.minInterval {
        return false;
      }
      cached.lastAttempt := now;
      return true;
    }

    /** Between its two looks at the cache a background refresh may end. */
    method Key(kid: string, now: Time, origin: Origin, meanwhile: Option<Origin>, markAt: Time, origin': Origin)
      returns (result: KeyResult)
      modifies this, cached
      ensures result == KeyCall(old(View()), limits, kid, now, origin, meanwhile, markAt, origin').result
      ensures View() == KeyCall(old(View()), limits, kid, now, origin, meanwhile, markAt, origin').cache
    {
      var keys, _ := Keys(now, origin);
      if keys == null {
        return FetchFailed;
      }
      var found := FindIn(keys, kid);
      if found.Some? {
        return KeyFound(found.value);
      }
      if meanwhile.Some? {
        var _ := Refresh(meanwhile.value);
      }
      result := RefreshForKey(kid, markAt, origin');
    }

    method RefreshForKey(kid: string, markAt: Time, origin: Origin) returns (result: KeyResult)
      modifies this, cached
      ensures result == ForcedRefresh(old(View()), limits, kid, markAt, origin).result
      ensures View() == ForcedRefresh(old(View()), limits, kid, markAt, origin).cache
    {
      var entry := cached;
      var mayRefresh := MarkRefreshAttempt(markAt);
      if !mayRefresh {
        return KeyNotFound;
      }
      var refreshed := Refresh(origin);
      if refreshed == null {
        if entry != null && entry.keys.Length > 0 {
          return KeyNotFound;
        }
        return FetchFailed;
      }
      var found := refreshed.FindKey(kid);
      if found.Some? {
        return KeyFound(found.value);
      }
      return KeyNotFound;
    }
  }

  /** Overwriting a returned list changes nothing the cache holds. */
  method OverwriteReturnedKeys(r: RemoteKeySet, now: Time, origin: Origin, junk: Key)
    modifies r
    ensures r.View() == KeysCall(old(r.View()), r.limits, now, origin).1
  {
    var keys, _ := r.Keys(now, origin);
    if keys != null {
      for i := 0 to keys.Length
        modifies keys
        invariant r.View() == KeysCall(old(r.View()), r.limits, now, origin).1
      {
        keys[i] := junk;
      }
    }
  }

  // ---- Runs in which refreshes do not overlap ----

  /** A call, or a background refresh that ends between calls. */
  datatype Call =
    | CallKeys(now: Time, origin: Origin)
    | CallKey(kid: string, now: Time, origin: Origin, meanwhile: Option<Origin>, markAt: Time, origin': Origin)
    | BackgroundRefresh(origin: Origin)

  function After(cache: Option<Entry>, l: Limits, c: Call): Option<Entry> {
    match c
    case CallKeys(now, origin) => KeysCall(cache, l, now, origin).1
    case CallKey(kid, now, origin, meanwhile, markAt, origin') =>
      KeyCall(cache, l, kid, now, origin, meanwhile, markAt, origin').cache
    case BackgroundRefresh(origin) => AfterRefresh(cache, origin)
  }

  /** The mark a call sets, if any. */
  function MarkOf(cache: Option<Entry>, l: Limits, c: Call): Option<Time> {
    if c.CallKey? then KeyCall(cache, l, c.kid, c.now, c.origin, c.meanwhile, c.markAt, c.origin').marked else None
  }

  ghost predicate Follows(caches: seq<Option<Entry>>, l: Limits, calls: seq<Call>, i: nat)
    requires |caches| == |calls| + 1 && i < |calls|
  {
    && (calls[i].CallKey? ==> calls[i].markAt > 0)
    && caches[i + 1] == After(caches[i], l, calls[i])
  }

  ghost predicate SequentialRun(caches: seq<Option<Entry>>, l: Limits, calls: seq<Call>) {
    && |caches| == |calls| + 1 && caches[0] == None
    && forall i {:trigger Follows(caches, l, calls, i)} :: 0 <= i < |calls| ==> Follows(caches, l, calls, i)
  }

  /** Once a key set has been fetched it is never lost: `Keys` never fails again. */
  lemma {:induction false} KeysNeverFailAgain(caches: seq<Option<Entry>>, l: Limits, calls: seq<Call>, i: nat, j: nat)
    requires SequentialRun(caches, l, calls) && i <= j <= |calls| && caches[i].Some?
    ensures caches[j].Some?
    ensures forall now, origin: Origin :: KeysCall(caches[j], l, now, origin).0 == Some(caches[j].value.keys)
    decreases j
  {
    if i < j {
      KeysNeverFailAgain(caches, l, calls, i, j - 1);
      assert Follows(caches, l, calls, j - 1);
    }
  }

  /** A mark is carried over by every refresh, successful, 304 or failed, until the next one. */
  lemma {:induction false} MarkIsCarried(caches: seq<Option<Entry>>, l: Limits, calls: seq<Call>, i: nat, j: nat)
    requires SequentialRun(caches, l, calls) && i < j <= |calls| && MarkOf(caches[i], l, calls[i]).Some?
    requires forall k {:trigger calls[k]} :: i < k < j ==> MarkOf(caches[k], l, calls[k]).None?
    ensures caches[j].Some? && caches[j].value.lastAttempt == MarkOf(caches[i], l, calls[i]).value
    decreases j
  {
    assert Follows(caches, l, calls, j - 1);
    if i < j - 1 {
      MarkIsCarried(caches, l, calls, i, j - 1);
      assert MarkOf(caches[j - 1], l, calls[j - 1]).None?;
    }
  }

  /** So any two marks are at least the minimum interval apart. */
  lemma {:induction false} MarksKeepTheirDistance(caches: seq<Option<Entry>>, l: Limits, calls: seq<Call>, i: nat,
                                                  j: nat)
    requires SequentialRun(caches, l, calls) && i < j < |calls| && 0 <= l.minInterval
    requires MarkOf(caches[i], l, calls[i]).Some? && MarkOf(caches[j], l, calls[j]).Some?
    ensures MarkOf(caches[j], l, calls[j]).value - MarkOf(caches[i], l, calls[i]).value >= l.minInterval
    decreases j - i
  {
    if k :| i < k < j && MarkOf(caches[k], l, calls[k]).Some? {
      MarksKeepTheirDistance(caches, l, calls, i, k);
      MarksKeepTheirDistance(caches, l, calls, k, j);
    } else {
      assert forall k {:trigger calls[k]} :: i < k < j ==> MarkOf(caches[k], l, calls[k]).None?;
      MarkIsCarried(caches, l, calls, i, j);
      assert Follows(caches, l, calls, i);
    }
  }
}
