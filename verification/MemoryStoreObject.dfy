/** The store object itself: entries hold their values as heap buffers, and no buffer
    it holds is ever handed out or taken over. Errors are reported as `false`. */
module MemoryStoreObject {
  import opened Correlations
  import opened MemoryStore
  import opened MemoryStoreRuns

  type Buffer = array?<Byte>

  ghost function BlobOf(b: Buffer): Blob
    reads b
  {
    if b == null then Nil else Bytes(b[..])
  }

  ghost function BuffersOf(e: Entry<Buffer>): set<Buffer> {
    set n | n in e.values :: e.values[n]
  }

  ghost function EntryView(e: Entry<Buffer>): Entry<Blob>
    reads BuffersOf(e)
  {
    Entry(e.correlation, map n | n in e.values :: BlobOf(e.values[n]), e.createdAt, e.binding)
  }

  /** `cloneBytes`. */
  method CloneBytes(value: Buffer) returns (cloned: Buffer)
    ensures BlobOf(cloned) == BlobOf(value)
    ensures cloned != null ==> fresh(cloned)
  {
    if value == null {
      return null;
    }
    cloned := new Byte[value.Length](i requires 0 <= i < value.Length reads value => value[i]);
  }

  /** What the request brings: a writer to answer on, and the binding cookie ("" when absent). */
  datatype Http = Http(hasWriter: bool, hasRequest: bool, cookie: string)

  /** `bindingCookieValue`. */
  function BindingCookie(http: Http): string {
    if http.hasRequest then http.cookie else ""
  }

  /** Without a request there is no cookie, whatever a browser may hold. */
  lemma BindingNeedsRequest(http: Http)
    ensures BindingCookie(http) != "" <==> http.hasRequest && http.cookie != ""
    ensures BindingCookie(http) != "" ==> BindingCookie(http) == http.cookie
  {}

  /** A sweep looks at nothing but times, so it does not matter how values are held. */
  lemma SweptWhateverTheValues<A, B>(before: map<string, Entry<A>>, after: map<string, Entry<A>>,
                                     before': map<string, Entry<B>>, after': map<string, Entry<B>>, ttl: int, now: Time)
    requires before.Keys == before'.Keys && after.Keys == after'.Keys
    requires forall k :: k in before ==>
               before[k].correlation == before'[k].correlation && before[k].createdAt == before'[k].createdAt
    requires forall k :: k in after' && k in before' ==> after'[k] == before'[k]
    ensures Swept(before, after, ttl, now) ==> Swept(before', after', ttl, now)
  {
    assert LiveKeys(before, ttl, now) == LiveKeys(before', ttl, now);
  }

  class Store {
    const ttl: int
    var items: map<string, Entry<Buffer>>
    /** Every buffer this store has allocated for a value. */
    ghost var buffers: set<object>

    ghost predicate Valid()
      reads this
    {
      && ttl > 0
      && "" !in items
      && forall k, n :: k in items && n in items[k].values && items[k].values[n] != null ==>
           items[k].values[n] in buffers
    }

    /** The table with buffers replaced by what is in them. */
    ghost function View(): Items
      requires Valid()
      reads this, buffers
    {
      map k | k in items :: EntryView(items[k])
    }

    lemma ViewKeepsTimes()
      requires Valid()
      ensures View().Keys == items.Keys
      ensures forall k :: k in items ==>
                View()[k].correlation == items[k].correlation && View()[k].createdAt == items[k].createdAt
    {}

    constructor (lifetime: int)
      ensures Valid() && View() == map[] && fresh(buffers)
      ensures ttl == if lifetime <= 0 then 10 * MINUTE else lifetime
    {
      ttl := if lifetime <= 0 then 10 * MINUTE else lifetime;
      items := map[];
      buffers := {};
    }

    /** `delete(s.items, state)`. */
    method Delete(state: string)
      requires Valid()
      modifies this`items
      ensures Valid() && View() == old(View()) - {state}
    {
      items := items - {state};
      assert forall k :: k in items ==> View()[k] == old(View())[k];
    }

    /** `s.items[state] = entry`. */
    method Put(state: string, entry: Entry<Buffer>)
      requires Valid() && state != "" && forall b :: b in BuffersOf(entry) && b != null ==> b in buffers
      modifies this`items
      ensures Valid() && items == old(items)[state := entry]
      ensures View() == old(View())[state := EntryView(entry)]
    {
      assert forall n :: n in entry.values ==> entry.values[n] in BuffersOf(entry);
      items := items[state := entry];
      ghost var want := old(View())[state := EntryView(entry)];
      assert View().Keys == want.Keys;
      assert forall k :: k in items ==> EntryView(items[k]) == want[k];
    }

    /** `token` is the random binding value; None is a failing random source. */
    method SaveCorrelation(http: Http, state: string, c: Correlation, token: Option<string>, now: Time, sweepNow: Time)
      returns (ok: bool, setCookie: Option<string>)
      requires Valid() && 0 < now <= sweepNow
      modifies this`items
      ensures Valid()
      ensures ok <==> state != "" && (http.hasWriter && http.hasRequest && http.cookie == "" ==> token.Some?)
      ensures !ok ==> View() == old(View()) && setCookie == None
      ensures ok ==> (setCookie.Some? <==> http.hasWriter && http.hasRequest)
      ensures ok && setCookie.Some? ==> setCookie.value == (if http.cookie != "" then http.cookie else token.value)
      ensures ok ==> Step(ttl, old(View()),
                          SavedCorrelation(now, state, Stamped(c, now),
                                           if setCookie.Some? then setCookie.value else "", sweepNow), View())
    {
      setCookie := None;
      if state == "" {
        return false, None;
      }
      var correlation := if c.createdAt == 0 then c.(createdAt := now) else c;
      var binding := "";
      if http.hasWriter && http.hasRequest {
        binding := BindingCookie(http);
        if binding == "" {
          if token.None? {
            return false, None;
          }
          binding := token.value;
        }
        setCookie := Some(binding);
      }
      PutCorrelation(state, correlation, binding);
      Sweep(sweepNow);
      ok := true;
    }

    method PutCorrelation(state: string, correlation: Correlation, binding: string)
      requires Valid() && state != ""
      modifies this`items
      ensures Valid() && View() == WithCorrelation(old(View()), state, correlation, binding)
    {
      var entry := Lookup(items, state);
      assert EntryView(entry) == Lookup(View(), state);
      Put(state, entry.(correlation := correlation,
                        createdAt := if entry.createdAt == 0 then correlation.createdAt else entry.createdAt,
                        binding := binding));
    }

    method KeepOnly(kept: map<string, Entry<Buffer>>)
      requires Valid() && kept.Keys <= items.Keys && forall k :: k in kept ==> kept[k] == items[k]
      modifies this`items
      ensures Valid() && items == kept && View().Keys == kept.Keys
      ensures forall k :: k in kept ==> View()[k] == old(View())[k]
    {
      items := kept;
    }

    method Sweep(now: Time)
      requires Valid()
      modifies this`items
      ensures Valid() && Swept(old(View()), View(), ttl, now)
    {
      ghost var before, view := items, View();
      ViewKeepsTimes();
      var kept := SweepLocked(items, ttl, now);
      assert kept.Keys <= before.Keys && forall k :: k in kept ==> kept[k] == before[k];
      KeepOnly(kept);
      SweptWhateverTheValues(before, kept, view, View(), ttl, now);
    }

    method ConsumeCorrelation(http: Http, state: string, now: Time) returns (ok: bool, found: Option<Correlation>)
      requires Valid()
      modifies this`items
      ensures Valid()
      ensures ok <==> state != ""
      ensures !ok ==> View() == old(View()) && found == None
      ensures ok ==> Step(ttl, old(View()), ConsumedCorrelation(now, state, BindingCookie(http), found), View())
    {
      if state == "" {
        return false, None;
      }
      if state !in items {
        return true, None;
      }
      ghost var before := View();
      var entry := items[state];
      if IsExpired(entry, ttl, now) {
        Delete(state);
        return true, None;
      }
      if entry.binding != "" && BindingCookie(http) != entry.binding {
        return true, None;
      }
      Delete(state);
      return true, Some(entry.correlation);
    }

    method DeleteState(state: string, now: Time) returns (ok: bool)
      requires Valid()
      modifies this`items
      ensures Valid()
      ensures ok <==> state != ""
      ensures !ok ==> View() == old(View())
      ensures ok ==> Step(ttl, old(View()), DeletedState(now, state), View())
    {
      if state == "" {
        return false;
      }
      ghost var before := View();
      Delete(state);
      return true;
    }

    /** A private copy of the caller's buffer. */
    method Adopt(value: Buffer) returns (cloned: Buffer)
      requires Valid()
      modifies this`buffers
      ensures Valid() && View() == old(View())
      ensures BlobOf(cloned) == BlobOf(value) && (cloned != null ==> cloned in buffers)
      ensures old(buffers) <= buffers && fresh(buffers - old(buffers))
    {
      cloned := CloneBytes(value);
      if cloned != null {
        buffers := buffers + {cloned};
      }
      assert forall k :: k in items ==> View()[k] == old(View())[k];
    }

    method PutValue(state: string, name: string, value: Buffer, now: Time)
      requires Valid() && state != "" && (value != null ==> value in buffers)
      modifies this`items
      ensures Valid() && View() == WithValue(old(View()), state, name, BlobOf(value), now)
    {
      var entry := Lookup(items, state);
      var createdAt := if entry.createdAt == 0 then now else entry.createdAt;
      var values := entry.values[name := value];
      assert EntryView(entry) == Lookup(View(), state);
      assert EntryView(entry.(values := values, createdAt := createdAt)).values
             == EntryView(entry).values[name := BlobOf(value)];
      Put(state, entry.(values := values, createdAt := createdAt));
    }

    method SaveValue(state: string, name: string, value: Buffer, now: Time) returns (ok: bool)
      requires Valid()
      modifies this`items, this`buffers
      ensures Valid() && fresh(buffers - old(buffers)) && old(buffers) <= buffers
      ensures ok <==> state != "" && name != ""
      ensures !ok ==> View() == old(View())
      ensures ok ==> Step(ttl, old(View()), SavedValue(now, state, name, BlobOf(value)), View())
    {
      if state == "" || name == "" {
        return false;
      }
      var cloned := Adopt(value);
      PutValue(state, name, cloned, now);
      return true;
    }

    /** The first locked section of `LoadValue`. */
    method ReadValue(state: string, name: string, now: Time) returns (expired: bool, present: bool, value: Buffer)
      requires Valid() && state != "" && name != ""
      ensures value != null ==> fresh(value) && value !in buffers
      ensures expired <==> state in View() && IsExpired(View()[state], ttl, now)
      ensures Step(ttl, View(), LoadedValue(now, state, name, if present then Some(BlobOf(value)) else None), View())
    {
      if state !in items {
        return false, false, null;
      }
      ViewKeepsTimes();
      var entry := items[state];
      if IsExpired(entry, ttl, now) {
        return true, false, null;
      }
      if name !in entry.values {
        return false, false, null;
      }
      value := CloneBytes(entry.values[name]);
      return false, true, value;
    }

    /** The second: the entry may be another by now, and is tested again. */
    method RecheckState(state: string, now: Time)
      requires Valid() && state != ""
      modifies this`items
      ensures Valid() && Step(ttl, old(View()), RecheckedState(now, state), View())
    {
      ViewKeepsTimes();
      if state in items && IsExpired(items[state], ttl, now) {
        Delete(state);
      }
    }

    /** `LoadValue` with nothing in between its sections. */
    method LoadValue(state: string, name: string, now: Time, recheckNow: Time)
      returns (ok: bool, present: bool, value: Buffer)
      requires Valid() && now <= recheckNow
      modifies this`items
      ensures Valid()
      ensures value != null ==> fresh(value) && value !in buffers
      ensures ok <==> state != "" && name != ""
      ensures !ok ==> View() == old(View()) && !present
      ensures ok ==> Step(ttl, old(View()),
                          LoadedValue(now, state, name, if present then Some(BlobOf(value)) else None), old(View()))
      ensures ok ==> View() == if state in old(View()) && IsExpired(old(View())[state], ttl, now)
                               then old(View()) - {state} else old(View())
    {
      if state == "" || name == "" {
        return false, false, null;
      }
      var expired;
      expired, present, value := ReadValue(state, name, now);
      if expired {
        RecheckState(state, recheckNow);
        return true, false, null;
      }
      return true, present, value;
    }

    method DeleteValue(state: string, name: string, now: Time) returns (ok: bool)
      requires Valid()
      modifies this`items
      ensures Valid()
      ensures ok <==> state != "" && name != ""
      ensures !ok ==> View() == old(View())
      ensures ok ==> Step(ttl, old(View()), DeletedValue(now, state, name), View())
    {
      if state == "" || name == "" {
        return false;
      }
      if state !in items {
        return true;
      }
      DropValue(state, name);
      return true;
    }

    method ConsumeValue(state: string, name: string, now: Time) returns (ok: bool, present: bool, value: Buffer)
      requires Valid()
      modifies this`items
      ensures Valid()
      ensures value != null ==> fresh(value) && value !in buffers
      ensures ok <==> state != "" && name != ""
      ensures !ok ==> View() == old(View()) && !present
      ensures ok ==>
                Step(ttl, old(View()), ConsumedValue(now, state, name, if present then Some(BlobOf(value)) else None),
                     View())
    {
      if state == "" || name == "" {
        return false, false, null;
      }
      if state !in items {
        return true, false, null;
      }
      ghost var before := View();
      var entry := items[state];
      if IsExpired(entry, ttl, now) {
        Delete(state);
        return true, false, null;
      }
      if name !in entry.values {
        return true, false, null;
      }
      var stored := entry.values[name];
      DropValue(state, name);
      value := CloneBytes(stored);
      assert View() == WithoutValue(before, state, name);
      return true, true, value;
    }

    /** The tail shared by `DeleteValue` and `ConsumeValue`. */
    method DropValue(state: string, name: string)
      requires Valid() && state in items
      modifies this`items
      ensures Valid() && View() == WithoutValue(old(View()), state, name)
    {
      var entry := items[state];
      var rest := entry.values - {name};
      ghost var was := View()[state].values - {name};
      assert was == map n | n in rest :: BlobOf(rest[n]);
      assert was.Keys == rest.Keys;
      if rest == map[] && entry.correlation == ZERO_CORRELATION {
        Delete(state);
      } else {
        Put(state, entry.(values := rest));
      }
    }

    /** The first locked section of `LoadState`. The scope's value map is cloned buffer by
        buffer, in whatever order Go ranges over it. */
    method ReadState(state: string, now: Time)
      returns (expired: bool, present: bool, correlation: Correlation, values: map<string, Buffer>)
      requires Valid() && state != ""
      ensures forall n :: n in values && values[n] != null ==> fresh(values[n]) && values[n] !in buffers
      ensures expired <==> state in View() && IsExpired(View()[state], ttl, now)
      ensures Step(ttl, View(),
                   LoadedState(now, state,
                               if present then Some((correlation, map n | n in values :: BlobOf(values[n])))
                               else None), View())
    {
      correlation, values := ZERO_CORRELATION, map[];
      if state !in items {
        return false, false, correlation, values;
      }
      ViewKeepsTimes();
      ghost var before := View();
      var entry := items[state];
      values := CloneValues(entry.values);
      assert before[state].values == map n | n in values :: BlobOf(values[n]);
      if IsExpired(entry, ttl, now) {
        return true, false, correlation, map[];
      }
      return false, true, entry.correlation, values;
    }

    /** The second: whatever is there by now is deleted. */
    method ForgetState(state: string, now: Time)
      requires Valid() && state != ""
      modifies this`items
      ensures Valid() && Step(ttl, old(View()), ForgottenState(now, state), View())
    {
      Delete(state);
    }

    /** `LoadState` with nothing in between its sections. */
    method LoadState(state: string, now: Time)
      returns (ok: bool, present: bool, correlation: Correlation, values: map<string, Buffer>)
      requires Valid()
      modifies this`items
      ensures Valid()
      ensures forall n :: n in values && values[n] != null ==> fresh(values[n]) && values[n] !in buffers
      ensures ok <==> state != ""
      ensures !ok ==> View() == old(View()) && !present
      ensures ok ==> LoadsAlone(ttl, old(View()), now, state,
                                if present then Some((correlation, map n | n in values :: BlobOf(values[n])))
                                else None, View())
    {
      correlation, values := ZERO_CORRELATION, map[];
      if state == "" {
        return false, false, correlation, values;
      }
      var expired;
      expired, present, correlation, values := ReadState(state, now);
      if expired {
        ForgetState(state, now);
      }
      ok := true;
    }
  }

  /** `cloneValues`. */
  method CloneValues(values: map<string, Buffer>) returns (cloned: map<string, Buffer>)
    ensures cloned.Keys == values.Keys
    ensures forall n :: n in cloned ==>
              BlobOf(cloned[n]) == BlobOf(values[n]) && (cloned[n] != null ==> fresh(cloned[n]))
  {
    cloned := map[];
    var todo := values.Keys;
    while todo != {}
      invariant todo <= values.Keys && cloned.Keys == values.Keys - todo
      invariant forall n :: n in cloned ==>
                  BlobOf(cloned[n]) == BlobOf(values[n]) && (cloned[n] != null ==> fresh(cloned[n]))
      decreases |todo|
    {
      var n :| n in todo;
      todo := todo - {n};
      var copy := CloneBytes(values[n]);
      cloned := cloned[n := copy];
    }
  }

  /** Any buffer outside the store's own may be overwritten without the store noticing;
      every buffer that went into or came out of a call is such a buffer. */
  method OverwriteForeignBuffer(s: Store, b: array<Byte>, i: nat, x: Byte)
    requires s.Valid() && b !in s.buffers && i < b.Length
    modifies b
    ensures s.Valid() && s.View() == old(s.View())
  {
    b[i] := x;
  }

  /** A caller that scribbles over the buffer it saved, and over the one it loaded, still
      loads the original bytes, unless the state's entry has expired: then it loads nothing. */
  method SaveScribbleLoad(s: Store, state: string, name: string, b: array<Byte>, x: Byte, now: Time)
    returns (present: bool, again: Buffer)
    requires s.Valid() && b !in s.buffers && b.Length > 0 && state != "" && name != ""
    modifies s`items, s`buffers, b
    ensures s.Valid()
    ensures present <==> (state in old(s.View()) ==> !IsExpired(old(s.View())[state], s.ttl, now))
    ensures present ==> BlobOf(again) == Bytes(old(b[..]))
  {
    var ok := s.SaveValue(state, name, b, now);
    OverwriteForeignBuffer(s, b, 0, x);
    var first: Buffer;
    ok, present, first := s.LoadValue(state, name, now, now);
    if first != null && first.Length > 0 {
      OverwriteForeignBuffer(s, first, 0, x);
    }
    ok, present, again := s.LoadValue(state, name, now, now);
  }
}
