/**
  The counter step `getNextId(options)`: the `counter` collection maps a collection
  name to the last sequence value handed out. A missing record is created holding 1,
  and 1 is rendered; an existing record holding `v` renders `v + 1` and stores `v + 1`.
  The connection and the three store calls may fail; a failure rejects with that
  call's error and leaves the store as it was.
 */
module Counter {
  import opened Wrappers
  import opened IdFormat

  /** The identifier width the counter step passes to the renderer. */
  const IdWidth := 8

  /** The store call that fails, when one does: connect, findOne, or the insert/update. */
  datatype Stage = Connect | Find | Write

  datatype StoreError = ConnectFailed | FindFailed | InsertFailed | UpdateFailed

  /** The sequence value the next successful call for `key` renders (and stores). */
  function NextValue(counters: map<string, nat>, key: string): nat {
    if key in counters then counters[key] + 1 else 1
  }

  /** The store after a successful call for `key`. */
  function Bump(counters: map<string, nat>, key: string): map<string, nat> {
    counters[key := NextValue(counters, key)]
  }

  /** The Mongo `counter` collection, modelled as an in-memory map. */
  class CounterStore {
    var counters: map<string, nat>

    constructor (initial: map<string, nat>)
      ensures counters == initial
    {
      counters := initial;
    }

    /**
      One call of `getNextId` for collection `collection`; `fault` says which store
      call fails, if any (a fault in a call that is not reached has no effect).
     */
    method GetNextId(collection: string, fault: Option<Stage>) returns (r: Result<string, StoreError>)
      modifies this
      // connection or lookup failure: rejected, nothing written
      ensures fault == Some(Connect) ==> r == Err(ConnectFailed) && counters == old(counters)
      ensures fault == Some(Find) ==> r == Err(FindFailed) && counters == old(counters)
      // no record yet: insert `next: 1` and render 1
      ensures collection !in old(counters) && fault == Some(Write) ==>
        r == Err(InsertFailed) && counters == old(counters)
      ensures collection !in old(counters) && fault == None ==>
        r == Ok(RenderId(collection, IdWidth, 1)) && counters == old(counters)[collection := 1]
      // record holding v: render v + 1 and store v + 1
      ensures collection in old(counters) && fault == Some(Write) ==>
        r == Err(UpdateFailed) && counters == old(counters)
      ensures collection in old(counters) && fault == None ==>
        var v := old(counters)[collection];
        r == Ok(RenderId(collection, IdWidth, v + 1)) && counters == old(counters)[collection := v + 1]
      // in every case: a success is exactly one counter step, and no stored value decreases
      ensures r.Ok? <==> fault == None
      ensures r.Ok? ==> counters == Bump(old(counters), collection)
      ensures forall k :: k in old(counters) ==> k in counters && old(counters)[k] <= counters[k]
    {
      if fault == Some(Connect) {
        return Err(ConnectFailed);
      }
      // The source rejects with `err1` here (utils.js:27), which is null on this path;
      // the model rejects with the lookup's own error.
      if fault == Some(Find) {
        return Err(FindFailed);
      }
      assert fault.Some? ==> fault.value.Write?;
      if collection !in counters {
        if fault == Some(Write) {
          return Err(InsertFailed);
        }
        counters := counters[collection := 1];
        // The source renders `doc2.next` from the insert result (utils.js:36), which has
        // no `next`; the model renders the inserted value 1.
        var id := GenerateId(collection, IdWidth, 1);
        r := Ok(id);
      } else {
        // The source reads `doc1` (utils.js:40-41), which is not defined; the record
        // looked up is `doc`.
        var current := counters[collection];
        var id := GenerateId(collection, IdWidth, current + 1);
        var nextVal := current + 1;
        if fault == Some(Write) {
          return Err(UpdateFailed);
        }
        counters := counters[collection := nextVal];
        r := Ok(id);
      }
    }
  }

  // ---------------------------------------------------------------------------
  // Successive successful calls
  // ---------------------------------------------------------------------------

  /** The sequence values rendered by successful calls for `keys`, in order. */
  function Issued(counters: map<string, nat>, keys: seq<string>): (values: seq<nat>)
    ensures |values| == |keys|
    decreases |keys|
  {
    if keys == [] then [] else [NextValue(counters, keys[0])] + Issued(Bump(counters, keys[0]), keys[1..])
  }

  /** The store after successful calls for `keys`, in order. */
  function After(counters: map<string, nat>, keys: seq<string>): map<string, nat>
    decreases |keys|
  {
    if keys == [] then counters else After(Bump(counters, keys[0]), keys[1..])
  }

  /** One step never lowers the value any later call will render. */
  lemma BumpMonotone(counters: map<string, nat>, key: string, k: string)
    ensures NextValue(Bump(counters, key), k) >= NextValue(counters, k)
    ensures NextValue(Bump(counters, key), key) == NextValue(counters, key) + 1
  {
  }

  /** Every value handed out for a key is at least the one the store would render now. */
  lemma {:induction false} IssuedAtLeast(counters: map<string, nat>, keys: seq<string>, j: nat)
    requires j < |keys|
    ensures Issued(counters, keys)[j] >= NextValue(counters, keys[j])
    decreases j
  {
    if j > 0 {
      IssuedAtLeast(Bump(counters, keys[0]), keys[1..], j - 1);
      BumpMonotone(counters, keys[0], keys[j]);
    }
  }

  /** Successive calls for one collection render strictly increasing values. */
  lemma {:induction false} IssuedIncreasing(counters: map<string, nat>, keys: seq<string>, i: nat, j: nat)
    requires i < j < |keys| && keys[i] == keys[j]
    ensures Issued(counters, keys)[i] < Issued(counters, keys)[j]
    decreases i
  {
    var c' := Bump(counters, keys[0]);
    if i == 0 {
      IssuedAtLeast(c', keys[1..], j - 1);
      BumpMonotone(counters, keys[0], keys[0]);
    } else {
      IssuedIncreasing(c', keys[1..], i - 1, j - 1);
    }
  }

  /** No duplicates and no gaps: m calls for one key render NextValue, NextValue + 1, ... */
  lemma {:induction false} IssuedConsecutive(counters: map<string, nat>, key: string, m: nat)
    ensures Issued(counters, seq(m, _ => key)) == seq(m, i => NextValue(counters, key) + i)
    decreases m
  {
    if m > 0 {
      var keys := seq(m, _ => key);
      assert keys[1..] == seq(m - 1, _ => key);
      IssuedConsecutive(Bump(counters, key), key, m - 1);
      BumpMonotone(counters, key, key);
    }
  }

  /** How many of the calls in `keys` name collection `key`. */
  function Count(keys: seq<string>, key: string): nat
    decreases |keys|
  {
    if keys == [] then 0 else (if keys[0] == key then 1 else 0) + Count(keys[1..], key)
  }

  /**
    No gaps, however calls for different collections interleave: the j-th call of a
    run issues the store's next value for its collection plus the number of earlier
    calls in the run for that same collection.
   */
  lemma {:induction false} IssuedExact(counters: map<string, nat>, keys: seq<string>, j: nat)
    requires j < |keys|
    ensures Issued(counters, keys)[j] == NextValue(counters, keys[j]) + Count(keys[..j], keys[j])
    decreases j
  {
    if j > 0 {
      var k0, rest := keys[0], keys[1..];
      IssuedExact(Bump(counters, k0), rest, j - 1);
      assert keys[..j][1..] == rest[..j - 1];
      assert rest[j - 1] == keys[j];
    }
  }

  /** Identifiers handed out for one collection are pairwise distinct. */
  lemma IssuedIdsDistinct(counters: map<string, nat>, keys: seq<string>, i: nat, j: nat)
    requires i < j < |keys| && keys[i] == keys[j]
    ensures RenderId(keys[i], IdWidth, Issued(counters, keys)[i]) != RenderId(keys[j], IdWidth, Issued(counters, keys)[j])
  {
    IssuedIncreasing(counters, keys, i, j);
    IssuedAtLeast(counters, keys, i);
    RenderInjective(keys[i], IdWidth, Issued(counters, keys)[i], Issued(counters, keys)[j]);
  }

  /**
    The stored values never decrease over a run of calls, and the records of
    collections no call names are left exactly as they were.
   */
  lemma {:induction false} AfterMonotone(counters: map<string, nat>, keys: seq<string>)
    ensures forall k :: k in counters ==> k in After(counters, keys) && counters[k] <= After(counters, keys)[k]
    ensures forall k :: k !in keys ==> (k in After(counters, keys) <==> k in counters)
    ensures forall k :: k !in keys && k in counters ==> After(counters, keys)[k] == counters[k]
    decreases |keys|
  {
    if keys != [] {
      AfterMonotone(Bump(counters, keys[0]), keys[1..]);
      forall k | k !in keys
        ensures k !in keys[1..] && k != keys[0]
      {
        assert keys == [keys[0]] + keys[1..];
      }
    }
  }

  /** Two successive successful calls on a store object render increasing values. */
  method TwoCalls(store: CounterStore, key: string) returns (first: Result<string, StoreError>, second: Result<string, StoreError>)
    modifies store
    ensures first.Ok? && second.Ok?
    ensures first.value == RenderId(key, IdWidth, NextValue(old(store.counters), key))
    ensures second.value == RenderId(key, IdWidth, NextValue(old(store.counters), key) + 1)
    ensures first.value != second.value
    ensures store.counters == old(store.counters)[key := NextValue(old(store.counters), key) + 1]
  {
    first := store.GetNextId(key, None);
    second := store.GetNextId(key, None);
    RenderInjective(key, IdWidth, NextValue(old(store.counters), key), NextValue(old(store.counters), key) + 1);
  }
}
