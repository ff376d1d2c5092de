/**
 * Normalisation of benchmark results: each task's loosely typed result becomes
 * `{ name, latency: { mean }, throughput: { mean } }`, and the runners collect
 * those records for a list of benchmarks or for one benchmark chosen by name.
 */
module StorageResults {
  import opened Wrappers

  /** A statistics object of the raw result; `mean` is absent when it is not a number. */
  datatype Stats = Stats(mean: Option<real>)

  /** A task's raw result, every field optional. */
  datatype RawResult = RawResult(
    latency: Option<Stats>,
    mean: Option<real>,
    throughput: Option<Stats>,
    hz: Option<real>)

  /** A task of a benchmark that has been run; `result` is absent when the
      task produced none. */
  datatype Task = Task(name: string, result: Option<RawResult>)

  /** A benchmark after `bench.run()`: its tasks in order. */
  datatype Bench = Bench(tasks: seq<Task>)

  datatype Mean = Mean(mean: real)

  /** `StorageBenchmarkResult`: latency in microseconds, throughput in operations per second. */
  datatype StorageBenchmarkResult = StorageBenchmarkResult(name: string, latency: Mean, throughput: Mean)

  /** Milliseconds to microseconds. */
  const MicrosPerMilli: real := 1000.0

  /** The `mean` of a statistics object, absent when the object or its number is. */
  function MeanOf(stats: Option<Stats>): Option<real> {
    if stats.Some? then stats.value.mean else None
  }

  /** The first present value of `candidates`. */
  function FirstPresent(candidates: seq<Option<real>>): (r: Option<real>)
    ensures r.Some? <==> exists i :: 0 <= i < |candidates| && candidates[i].Some?
    ensures r.Some? ==> exists i :: 0 <= i < |candidates| && candidates[i] == r &&
                                    forall j :: 0 <= j < i ==> candidates[j].None?
    decreases |candidates|
  {
    if candidates == [] then None
    else if candidates[0].Some? then candidates[0]
    else
      var rest := FirstPresent(candidates[1..]);
      assert forall i :: 1 <= i < |candidates| ==> candidates[i] == candidates[1..][i - 1];
      rest
  }

  /** The latency sources in order of preference: `latency.mean`, then `mean`. */
  function LatencySources(raw: RawResult): seq<Option<real>> {
    [MeanOf(raw.latency), raw.mean]
  }

  /** The throughput sources in order of preference: `throughput.mean`, then `hz`. */
  function ThroughputSources(raw: RawResult): seq<Option<real>> {
    [MeanOf(raw.throughput), raw.hz]
  }

  /** The latency that is reported for a task's result (0 when there is none). */
  function LatencyMean(result: Option<RawResult>): real {
    if result.None? then 0.0
    else match FirstPresent(LatencySources(result.value))
      case Some(ms) => ms * MicrosPerMilli
      case None => 0.0
  }

  /** The throughput that is reported for a task's result (0 when there is none). */
  function ThroughputMean(result: Option<RawResult>): real {
    if result.None? then 0.0
    else match FirstPresent(ThroughputSources(result.value))
      case Some(ops) => ops
      case None => 0.0
  }

  /** The record reported for one task. */
  function Normalize(task: Task): StorageBenchmarkResult {
    StorageBenchmarkResult(task.name, Mean(LatencyMean(task.result)), Mean(ThroughputMean(task.result)))
  }

  /** The records reported for a benchmark's tasks, in task order. */
  function NormalizeAll(tasks: seq<Task>): (r: seq<StorageBenchmarkResult>)
    ensures |r| == |tasks|
    ensures forall i :: 0 <= i < |tasks| ==> r[i] == Normalize(tasks[i])
  {
    seq(|tasks|, i requires 0 <= i < |tasks| => Normalize(tasks[i]))
  }

  /** Latency is `latency.mean`, else `mean`, scaled to microseconds, else 0. */
  lemma LatencySelection(result: Option<RawResult>)
    ensures result.None? ==> LatencyMean(result) == 0.0
    ensures result.Some? && MeanOf(result.value.latency).Some? ==>
              LatencyMean(result) == MeanOf(result.value.latency).value * 1000.0
    ensures result.Some? && MeanOf(result.value.latency).None? && result.value.mean.Some? ==>
              LatencyMean(result) == result.value.mean.value * 1000.0
    ensures result.Some? && MeanOf(result.value.latency).None? && result.value.mean.None? ==>
              LatencyMean(result) == 0.0
  {
    if result.Some? {
      var sources := LatencySources(result.value);
      if sources[0].None? && sources[1].None? {
        assert FirstPresent(sources).None?;
      }
    }
  }

  /** Throughput is `throughput.mean`, else `hz`, unscaled, else 0. */
  lemma ThroughputSelection(result: Option<RawResult>)
    ensures result.None? ==> ThroughputMean(result) == 0.0
    ensures result.Some? && MeanOf(result.value.throughput).Some? ==>
              ThroughputMean(result) == MeanOf(result.value.throughput).value
    ensures result.Some? && MeanOf(result.value.throughput).None? && result.value.hz.Some? ==>
              ThroughputMean(result) == result.value.hz.value
    ensures result.Some? && MeanOf(result.value.throughput).None? && result.value.hz.None? ==>
              ThroughputMean(result) == 0.0
  {
    if result.Some? {
      var sources := ThroughputSources(result.value);
      if sources[0].None? && sources[1].None? {
        assert FirstPresent(sources).None?;
      }
    }
  }

  /** The record of a task keeps the task's name, and a task without a result
      reports zero latency and zero throughput. */
  lemma NormalizedTask(task: Task)
    ensures Normalize(task).name == task.name
    ensures task.result.None? ==> Normalize(task).latency.mean == 0.0 && Normalize(task).throughput.mean == 0.0
  {
  }

  /** The caller's `results` array, which `processResults` pushes onto. */
  class ResultList {
    var items: seq<StorageBenchmarkResult>

    constructor ()
      ensures items == []
    {
      items := [];
    }

    method Push(r: StorageBenchmarkResult)
      modifies this
      ensures items == old(items) + [r]
    {
      items := items + [r];
    }
  }

  /** One record per task, in task order,
      appended after the records already in `results`. */
  method ProcessResults(bench: Bench, results: ResultList)
    modifies results
    ensures results.items == old(results.items) + NormalizeAll(bench.tasks)
    ensures |results.items| == |old(results.items)| + |bench.tasks|
    ensures results.items[..|old(results.items)|] == old(results.items)
  {
    ghost var before := results.items;
    var i := 0;
    while i < |bench.tasks|
      invariant 0 <= i <= |bench.tasks|
      invariant results.items == before + NormalizeAll(bench.tasks[..i])
    {
      var task := bench.tasks[i];
      var rawResult := task.result;
      var latencyMean := 0.0;
      var throughputMean := 0.0;
      if rawResult.Some? {
        var raw := rawResult.value;
        if raw.latency.Some? && raw.latency.value.mean.Some? {
          latencyMean := raw.latency.value.mean.value * MicrosPerMilli;
        } else if raw.mean.Some? {
          latencyMean := raw.mean.value * MicrosPerMilli;
        }
        if raw.throughput.Some? && raw.throughput.value.mean.Some? {
          throughputMean := raw.throughput.value.mean.value;
        } else if raw.hz.Some? {
          throughputMean := raw.hz.value;
        }
      }
      LatencySelection(rawResult);
      ThroughputSelection(rawResult);
      results.Push(StorageBenchmarkResult(task.name, Mean(latencyMean), Mean(throughputMean)));
      assert bench.tasks[..i + 1] == bench.tasks[..i] + [task];
      i := i + 1;
    }
    assert bench.tasks[..i] == bench.tasks;
  }

  /** The records collected from `benches` in order, each benchmark run by `run`. */
  function Collected<F>(benches: seq<F>, run: F -> Bench): seq<StorageBenchmarkResult>
    decreases |benches|
  {
    if benches == [] then []
    else Collected(benches[..|benches| - 1], run) + NormalizeAll(run(benches[|benches| - 1]).tasks)
  }

  /** The number of tasks of the benchmarks `benches`. */
  function TaskCount<F>(benches: seq<F>, run: F -> Bench): nat
    decreases |benches|
  {
    if benches == [] then 0
    else TaskCount(benches[..|benches| - 1], run) + |run(benches[|benches| - 1]).tasks|
  }

  /** One record per task of every benchmark. */
  lemma {:induction false} CollectedLength<F>(benches: seq<F>, run: F -> Bench)
    ensures |Collected(benches, run)| == TaskCount(benches, run)
    decreases |benches|
  {
    if benches != [] {
      CollectedLength(benches[..|benches| - 1], run);
    }
  }

  /** The records of benchmark `i` are the block that follows the records of
      the benchmarks before it. */
  lemma {:induction false} CollectedGrouped<F>(benches: seq<F>, run: F -> Bench, i: nat)
    requires i < |benches|
    ensures TaskCount(benches[..i], run) + |run(benches[i]).tasks| <= |Collected(benches, run)|
    ensures Collected(benches, run)[TaskCount(benches[..i], run)..TaskCount(benches[..i], run) + |run(benches[i]).tasks|]
            == NormalizeAll(run(benches[i]).tasks)
    decreases |benches|
  {
    var n := |benches| - 1;
    var front := benches[..n];
    CollectedLength(front, run);
    if i == n {
      assert benches[..i] == front;
    } else {
      assert benches[..i] == front[..i];
      assert benches[i] == front[i];
      CollectedGrouped(front, run, i);
    }
  }

  /** Runs each benchmark in turn and appends its records to one list. */
  method RunStorageBenchmarks<F>(benches: seq<F>, run: F -> Bench) returns (results: seq<StorageBenchmarkResult>)
    ensures results == Collected(benches, run)
    ensures |results| == TaskCount(benches, run)
  {
    var list := new ResultList();
    var i := 0;
    while i < |benches|
      invariant 0 <= i <= |benches|
      invariant list.items == Collected(benches[..i], run)
    {
      var bench := run(benches[i]);
      ProcessResults(bench, list);
      assert benches[..i + 1][..i] == benches[..i];
      i := i + 1;
    }
    assert benches[..i] == benches;
    results := list.items;
    CollectedLength(benches, run);
  }

  /** Looks a benchmark up by name: nothing for an unknown name, else the
      records of that one benchmark. */
  method RunSingleStorageBenchmark<F>(benchmarkMap: map<string, F>, benchmarkName: string, run: F -> Bench)
    returns (results: seq<StorageBenchmarkResult>)
    ensures benchmarkName !in benchmarkMap ==> results == []
    ensures benchmarkName in benchmarkMap ==> results == NormalizeAll(run(benchmarkMap[benchmarkName]).tasks)
  {
    if benchmarkName !in benchmarkMap {
      return [];
    }
    var bench := run(benchmarkMap[benchmarkName]);
    var list := new ResultList();
    ProcessResults(bench, list);
    results := list.items;
  }
}
