/**
 * The benchmark registry shared by both benchmark providers: a record from
 * benchmark id to its display name and completion flag, and the updaters that
 * the providers hand to `setBenchmarks`.
 */
module Registry {
  import opened Wrappers

  /** One registry entry. `name` is absent for an entry that was created by
      marking an unregistered id complete (`{ ...undefined, isComplete }`). */
  datatype Entry = Entry(name: Option<string>, isComplete: bool)

  type Benchmarks = map<string, Entry>

  /** A copy of `prev` in which `id` maps to a fresh, incomplete entry named `name`. */
  function Registered(prev: Benchmarks, id: string, name: string): (r: Benchmarks)
    ensures r.Keys == prev.Keys + {id}
    ensures r[id] == Entry(Some(name), false)
    ensures forall k :: k in prev && k != id ==> r[k] == prev[k]
  {
    prev[id := Entry(Some(name), false)]
  }

  /** A copy of `prev` with `id` deleted; deleting an absent key does nothing. */
  function Unregistered(prev: Benchmarks, id: string): (r: Benchmarks)
    ensures r.Keys == prev.Keys - {id}
    ensures forall k :: k in r ==> r[k] == prev[k]
    ensures id !in prev ==> r == prev
  {
    prev - {id}
  }

  /** A copy of `prev` with `id`'s flag set: an
      existing name is kept, and an absent id gets a nameless entry. */
  function Flagged(prev: Benchmarks, id: string, isComplete: bool): (r: Benchmarks)
    ensures r.Keys == prev.Keys + {id}
    ensures r[id].isComplete == isComplete
    ensures r[id].name == if id in prev then prev[id].name else None
    ensures forall k :: k in prev && k != id ==> r[k] == prev[k]
  {
    var kept := if id in prev then prev[id].name else None;
    prev[id := Entry(kept, isComplete)]
  }

  /** Every entry of the registry is complete. */
  predicate AllComplete(m: Benchmarks) {
    forall k :: k in m ==> m[k].isComplete
  }

  /** The registry that `runBenchmarks` rebuilds: same ids, same names, every
      flag cleared. */
  function Cleared(prev: Benchmarks): (r: Benchmarks)
    ensures r.Keys == prev.Keys
    ensures forall k :: k in r ==> r[k].name == prev[k].name && !r[k].isComplete
  {
    map k | k in prev :: prev[k].(isComplete := false)
  }

  /** The registry that `runSingleBenchmark(id)` leaves: only an existing entry
      for `id` has its flag cleared, and no entry is created. */
  function ClearedAt(prev: Benchmarks, id: string): (r: Benchmarks)
    ensures r.Keys == prev.Keys
    ensures id in prev ==> r[id].name == prev[id].name && !r[id].isComplete
    ensures forall k :: k in prev && k != id ==> r[k] == prev[k]
    ensures id !in prev ==> r == prev
  {
    if id in prev then prev[id := prev[id].(isComplete := false)] else prev
  }

  /** The `forEach` rebuild of `runBenchmarks`: start from an empty record and
      copy each id of `prev` with its flag cleared. */
  method ClearAll(prev: Benchmarks) returns (reset: Benchmarks)
    ensures reset == Cleared(prev)
  {
    reset := map[];
    var pending := prev.Keys;
    while pending != {}
      invariant pending <= prev.Keys
      invariant reset.Keys == prev.Keys - pending
      invariant forall k :: k in reset ==> reset[k] == prev[k].(isComplete := false)
      decreases pending
    {
      var id :| id in pending;
      reset := reset[id := prev[id].(isComplete := false)];
      pending := pending - {id};
    }
  }

  /** Walks the entries and answers whether all are complete, stopping at
      the first one that is not. */
  method EveryComplete(prev: Benchmarks) returns (all: bool)
    ensures all <==> AllComplete(prev)
  {
    var pending := prev.Keys;
    while pending != {}
      invariant pending <= prev.Keys
      invariant forall k :: k in prev && k !in pending ==> prev[k].isComplete
      decreases pending
    {
      var id :| id in pending;
      if !prev[id].isComplete {
        return false;
      }
      pending := pending - {id};
    }
    return true;
  }

  /** Registering a fresh id and then unregistering it gives back the registry. */
  lemma UnregisterUndoesRegister(prev: Benchmarks, id: string, name: string)
    requires id !in prev
    ensures Unregistered(Registered(prev, id, name), id) == prev
  {
  }

  /** Registering twice under one id keeps only the later name. */
  lemma RegisterOverwrites(prev: Benchmarks, id: string, first: string, second: string)
    ensures Registered(Registered(prev, id, first), id, second) == Registered(prev, id, second)
  {
  }

  /** After one entry is flagged complete, everything is complete exactly when
      every other entry already was. */
  lemma FlaggedAllComplete(prev: Benchmarks, id: string)
    ensures AllComplete(Flagged(prev, id, true)) <==>
            (forall k :: k in prev && k != id ==> prev[k].isComplete)
  {
  }

  /** Clearing a flag means the registry is no longer all complete. */
  lemma FlaggedIncomplete(prev: Benchmarks, id: string)
    ensures !AllComplete(Flagged(prev, id, false))
  {
  }

  /** Rebuilding the registry twice is the same as rebuilding it once. */
  lemma ClearedIdempotent(prev: Benchmarks)
    ensures Cleared(Cleared(prev)) == Cleared(prev)
  {
  }
}
