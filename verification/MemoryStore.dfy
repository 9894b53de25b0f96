/** The in-memory state store (rp/store/memory/store.go): what one call does to the table of entries. */
module MemoryStore {
  import opened Correlations

  const MAX_ENTRIES: nat := 4096

  /** The bytes of a Go byte slice; a nil slice is not an empty one. */
  datatype Blob = Nil | Bytes(bytes: seq<Byte>)

  /** `stateEntry`; `B` is how a caller-owned value is held: by reference in the
      store object, as a `Blob` in the specification. */
  datatype Entry<B> = Entry(correlation: Correlation, values: map<string, B>, createdAt: Time, binding: string)

  type Items = map<string, Entry<Blob>>

  /** What reading an absent key of a Go map yields. */
  function Lookup<B>(items: map<string, Entry<B>>, state: string): Entry<B> {
    if state in items then items[state] else Entry(ZERO_CORRELATION, map[], 0, "")
  }

  /** `isExpired`. */
  predicate IsExpired<B>(e: Entry<B>, ttl: int, now: Time) {
    var createdAt := if e.correlation.createdAt != 0 then e.correlation.createdAt else e.createdAt;
    || (createdAt != 0 && createdAt + ttl < now)
    || (e.correlation.expiry != 0 && e.correlation.expiry < now)
  }

  /** The table `SaveCorrelation` sweeps: the entry keeps its values and its first creation time. */
  function WithCorrelation<B>(items: map<string, Entry<B>>, state: string, c: Correlation,
                              binding: string): map<string, Entry<B>> {
    var e := Lookup(items, state);
    items[state := e.(correlation := c, createdAt := if e.createdAt == 0 then c.createdAt else e.createdAt,
                      binding := binding)]
  }

  function WithValue<B>(items: map<string, Entry<B>>, state: string, name: string, value: B,
                        now: Time): map<string, Entry<B>> {
    var e := Lookup(items, state);
    items[state := e.(values := e.values[name := value], createdAt := if e.createdAt == 0 then now else e.createdAt)]
  }

  /** Dropping a value also drops an entry that is left with nothing in it. */
  function WithoutValue<B>(items: map<string, Entry<B>>, state: string, name: string): map<string, Entry<B>>
    requires state in items
  {
    var e := items[state];
    var rest := e.values - {name};
    if rest == map[] && e.correlation == ZERO_CORRELATION then items - {state} else items[state := e.(values := rest)]
  }

  ghost function LiveKeys<B>(items: map<string, Entry<B>>, ttl: int, now: Time): set<string> {
    set k | k in items && !IsExpired(items[k], ttl, now)
  }

  /** What a sweep may leave behind: unexpired entries only, as many as fit, and never
      an entry due before one that was evicted to make room. */
  ghost predicate Swept<B>(before: map<string, Entry<B>>, after: map<string, Entry<B>>, ttl: int, now: Time) {
    var live := LiveKeys(before, ttl, now);
    && after.Keys <= live
    && (forall k :: k in after ==> after[k] == before[k])
    && |after.Keys| == (if |live| > MAX_ENTRIES then MAX_ENTRIES else |live|)
    && (forall gone, kept :: gone in live && gone !in after && kept in after ==>
          before[gone].createdAt + ttl <= before[kept].createdAt + ttl)
  }

  /** A sweep leaves at most 4096 entries, and as many as there are alive up to that. */
  lemma SweptSize<B>(before: map<string, Entry<B>>, after: map<string, Entry<B>>, ttl: int, now: Time)
    requires Swept(before, after, ttl, now)
    ensures |after.Keys| <= 4096
    ensures |after.Keys| == 4096 || |after.Keys| == |set k | k in before && !IsExpired(before[k], ttl, now)|
  {}

  /** `sweepLocked`, for every order in which Go may range over the table. The inner
      loop uses "" for "nothing chosen yet", which is why no key may be empty. */
  method SweepLocked<B(==)>(items: map<string, Entry<B>>, ttl: int, now: Time) returns (kept: map<string, Entry<B>>)
    requires "" !in items
    ensures Swept(items, kept, ttl, now)
  {
    ghost var live := LiveKeys(items, ttl, now);
    kept := items;
    var todo := items.Keys;
    while todo != {}
      invariant todo <= items.Keys
      invariant kept.Keys == live + todo
      invariant forall k :: k in kept ==> kept[k] == items[k]
      decreases |todo|
    {
      var key :| key in todo;
      todo := todo - {key};
      if IsExpired(items[key], ttl, now) {
        kept := kept - {key};
      }
    }
    kept := EvictSoonest(kept, ttl);
  }

  /** The second loop of `sweepLocked`: over capacity, the soonest to expire go first. */
  method EvictSoonest<B(==)>(items: map<string, Entry<B>>, ttl: int) returns (kept: map<string, Entry<B>>)
    requires "" !in items
    ensures kept.Keys <= items.Keys && forall k :: k in kept ==> kept[k] == items[k]
    ensures |kept.Keys| == if |items.Keys| > MAX_ENTRIES then MAX_ENTRIES else |items.Keys|
    ensures forall gone, k :: gone in items && gone !in kept && k in kept ==>
              items[gone].createdAt + ttl <= items[k].createdAt + ttl
  {
    kept := items;
    while |kept| > MAX_ENTRIES
      invariant kept.Keys <= items.Keys && forall k :: k in kept ==> kept[k] == items[k]
      invariant |kept.Keys| == |items.Keys| || |items.Keys| > |kept.Keys| >= MAX_ENTRIES
      invariant forall gone, k :: gone in items && gone !in kept && k in kept ==>
                  items[gone].createdAt + ttl <= items[k].createdAt + ttl
      decreases |kept|
    {
      var oldestKey := SoonestToExpire(kept, ttl);
      assert |kept.Keys - {oldestKey}| == |kept.Keys| - 1;
      kept := kept - {oldestKey};
    }
  }

  /** The scan inside `sweepLocked`. */
  method SoonestToExpire<B>(items: map<string, Entry<B>>, ttl: int) returns (oldestKey: string)
    requires "" !in items && items != map[]
    ensures oldestKey in items
    ensures forall k :: k in items ==> items[oldestKey].createdAt + ttl <= items[k].createdAt + ttl
  {
    var oldestExpiry: Time := 0;
    oldestKey := "";
    var todo := items.Keys;
    while todo != {}
      invariant todo <= items.Keys
      invariant oldestKey == "" <==> todo == items.Keys
      invariant oldestKey != "" ==> oldestKey in items && oldestExpiry == items[oldestKey].createdAt + ttl
      invariant oldestKey != "" ==> forall k :: k in items && k !in todo ==> oldestExpiry <= items[k].createdAt + ttl
      decreases |todo|
    {
      var key :| key in todo;
      todo := todo - {key};
      var expiry := items[key].createdAt + ttl;
      if oldestKey == "" || expiry < oldestExpiry {
        oldestKey, oldestExpiry := key, expiry;
      }
    }
  }
}
