/**
 * `BenchmarkProvider` of the shared benchmark library: four pieces of state
 * and the callbacks that update them.
 */
module LibBenchmarkContext {
  import opened Wrappers
  import opened Registry
  import Coordinator

  class BenchmarkProvider {
    var isRunning: bool
    var runId: nat
    var activeBenchmarkId: Option<string>
    var benchmarks: Benchmarks

    /** The provider's state as a value of the coordinator model. */
    function Snapshot(): Coordinator.State
      reads this
    {
      Coordinator.State(isRunning, runId, activeBenchmarkId, benchmarks)
    }

    ghost predicate Valid()
      reads this
    {
      Coordinator.Valid(Snapshot())
    }

    constructor ()
      ensures Valid()
      ensures benchmarks == map[] && runId == 0 && activeBenchmarkId == None && !isRunning
      ensures Snapshot() == Coordinator.Initial
    {
      isRunning := false;
      runId := 0;
      activeBenchmarkId := None;
      benchmarks := map[];
    }

    method RegisterBenchmark(id: string, name: string)
      requires Valid()
      modifies this
      ensures Valid()
      ensures benchmarks.Keys == old(benchmarks.Keys) + {id}
      ensures benchmarks[id] == Entry(Some(name), false)
      ensures forall k :: k in old(benchmarks) && k != id ==> benchmarks[k] == old(benchmarks[k])
      ensures isRunning == old(isRunning) && runId == old(runId)
      ensures activeBenchmarkId == old(activeBenchmarkId)
      ensures Snapshot() == Coordinator.Step(old(Snapshot()), Coordinator.Register(id, name))
    {
      benchmarks := benchmarks[id := Entry(Some(name), false)];
    }

    method UnregisterBenchmark(id: string)
      requires Valid()
      modifies this
      ensures Valid()
      ensures benchmarks.Keys == old(benchmarks.Keys) - {id}
      ensures forall k :: k in benchmarks ==> benchmarks[k] == old(benchmarks[k])
      ensures id !in old(benchmarks) ==> benchmarks == old(benchmarks)
      ensures isRunning == old(isRunning) && runId == old(runId)
      ensures activeBenchmarkId == old(activeBenchmarkId)
      ensures Snapshot() == Coordinator.Step(old(Snapshot()), Coordinator.Unregister(id))
    {
      var newBenchmarks := benchmarks;
      newBenchmarks := newBenchmarks - {id};
      benchmarks := newBenchmarks;
    }

    /** The flag update first, then (only when `isComplete`) the check that
        clears the selection once every entry is complete. */
    method SetBenchmarkComplete(id: string, isComplete: bool)
      requires Valid()
      modifies this
      ensures Valid()
      ensures benchmarks == Flagged(old(benchmarks), id, isComplete)
      ensures isComplete && AllComplete(benchmarks) ==> activeBenchmarkId == None
      ensures !(isComplete && AllComplete(benchmarks)) ==> activeBenchmarkId == old(activeBenchmarkId)
      ensures isRunning == old(isRunning) && runId == old(runId)
      ensures Snapshot() == Coordinator.Step(old(Snapshot()), Coordinator.SetComplete(id, isComplete))
    {
      var name := if id in benchmarks then benchmarks[id].name else None;
      benchmarks := benchmarks[id := Entry(name, isComplete)];
      if isComplete {
        var allComplete := EveryComplete(benchmarks);
        if allComplete {
          activeBenchmarkId := None;
        }
      }
    }

    method RunBenchmarks()
      requires Valid()
      modifies this
      ensures Valid()
      ensures benchmarks.Keys == old(benchmarks.Keys)
      ensures forall k :: k in benchmarks ==> benchmarks[k].name == old(benchmarks[k].name)
      ensures forall k :: k in benchmarks ==> !benchmarks[k].isComplete
      ensures isRunning && activeBenchmarkId == Some(Coordinator.All)
      ensures runId == old(runId) + 1
      ensures Snapshot() == Coordinator.Step(old(Snapshot()), Coordinator.RunAll)
    {
      var reset := ClearAll(benchmarks);
      benchmarks := reset;
      isRunning := true;
      activeBenchmarkId := Some(Coordinator.All);
      runId := runId + 1;
    }

    method RunSingleBenchmark(id: string)
      requires Valid()
      modifies this
      ensures Valid()
      ensures benchmarks.Keys == old(benchmarks.Keys)
      ensures id in benchmarks ==> benchmarks[id] == Entry(old(benchmarks[id].name), false)
      ensures forall k :: k in benchmarks && k != id ==> benchmarks[k] == old(benchmarks[k])
      ensures isRunning && activeBenchmarkId == Some(id)
      ensures runId == old(runId) + 1
      ensures Snapshot() == Coordinator.Step(old(Snapshot()), Coordinator.RunSingle(id))
    {
      var updated := benchmarks;
      if id in updated {
        updated := updated[id := updated[id].(isComplete := false)];
      }
      benchmarks := updated;
      isRunning := true;
      activeBenchmarkId := Some(id);
      runId := runId + 1;
    }

    /** Whether the component registered as `id` takes part in the current run. */
    function ShouldRunBenchmark(id: string): (r: bool)
      reads this
      ensures activeBenchmarkId == None ==> !r
      ensures activeBenchmarkId == Some(Coordinator.All) ==> r
      ensures r <==> Coordinator.ShouldRun(activeBenchmarkId, id)
      ensures r && activeBenchmarkId != Some(Coordinator.All) ==> activeBenchmarkId == Some(id)
    {
      activeBenchmarkId == Some(Coordinator.All) || activeBenchmarkId == Some(id)
    }
  }
}
