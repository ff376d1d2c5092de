/**
 * The benchmark-run coordinator as a state machine on values. Each provider
 * callback is one transition; the callbacks' queued updaters are applied in
 * the order the callback issues them. Both provider classes are proved to
 * follow `Step`, and the properties of whole runs are proved here.
 */
module Coordinator {
  import opened Wrappers
  import opened Registry

  /** The id value that selects every benchmark. */
  const All: string := "all"

  /** The provider's four pieces of React state. */
  datatype State = State(
    isRunning: bool,
    runId: nat,
    activeBenchmarkId: Option<string>,
    benchmarks: Benchmarks)

  /** The callbacks that change state. */
  datatype Op =
    | Register(id: string, name: string)
    | Unregister(id: string)
    | SetComplete(id: string, isComplete: bool)
    | RunAll
    | RunSingle(id: string)

  /** The `useState` initial values. */
  const Initial: State := State(false, 0, None, map[])

  /** A benchmark takes part when everything or that one id is selected. */
  predicate ShouldRun(active: Option<string>, id: string) {
    active == Some(All) || active == Some(id)
  }

  /** Whether a callback starts a run, which bumps `runId`. */
  predicate StartsRun(op: Op) {
    op.RunAll? || op.RunSingle?
  }

  function Step(s: State, op: Op): State {
    match op
    case Register(id, name) =>
      s.(benchmarks := Registered(s.benchmarks, id, name))
    case Unregister(id) =>
      s.(benchmarks := Unregistered(s.benchmarks, id))
    case SetComplete(id, isComplete) =>
      var flagged := Flagged(s.benchmarks, id, isComplete);
      s.(benchmarks := flagged,
         activeBenchmarkId := if isComplete && AllComplete(flagged) then None else s.activeBenchmarkId)
    case RunAll =>
      State(true, s.runId + 1, Some(All), Cleared(s.benchmarks))
    case RunSingle(id) =>
      State(true, s.runId + 1, Some(id), ClearedAt(s.benchmarks, id))
  }

  /** The state after the callbacks `ops`, in order. */
  function Run(s: State, ops: seq<Op>): State
    decreases |ops|
  {
    if ops == [] then s else Run(Step(s, ops[0]), ops[1..])
  }

  /** How many of `ops` start a run. */
  function RunCount(ops: seq<Op>): nat
    decreases |ops|
  {
    if ops == [] then 0 else (if StartsRun(ops[0]) then 1 else 0) + RunCount(ops[1..])
  }

  /** What holds of every reachable state: a run has been started exactly when
      `runId` is positive, and a benchmark is selected only once running. */
  ghost predicate Valid(s: State) {
    && (s.isRunning <==> s.runId > 0)
    && (s.activeBenchmarkId.Some? ==> s.isRunning)
  }

  lemma InitialValid()
    ensures Valid(Initial)
  {
  }

  lemma StepKeepsValid(s: State, op: Op)
    requires Valid(s)
    ensures Valid(Step(s, op))
  {
  }

  lemma {:induction false} RunKeepsValid(s: State, ops: seq<Op>)
    requires Valid(s)
    ensures Valid(Run(s, ops))
    decreases |ops|
  {
    if ops != [] {
      StepKeepsValid(s, ops[0]);
      RunKeepsValid(Step(s, ops[0]), ops[1..]);
    }
  }

  /** Every state reachable from the initial one satisfies `Valid`. */
  lemma ReachableValid(ops: seq<Op>)
    ensures Valid(Run(Initial, ops))
  {
    InitialValid();
    RunKeepsValid(Initial, ops);
  }

  /** `runId` goes up by exactly one per started run, and never otherwise. */
  lemma {:induction false} RunIdCountsRuns(s: State, ops: seq<Op>)
    ensures Run(s, ops).runId == s.runId + RunCount(ops)
    decreases |ops|
  {
    if ops != [] {
      RunIdCountsRuns(Step(s, ops[0]), ops[1..]);
    }
  }

  /** No callback sets `isRunning` back to false, and `runId` never decreases. */
  lemma {:induction false} RunningIsSticky(s: State, ops: seq<Op>)
    ensures s.isRunning ==> Run(s, ops).isRunning
    ensures Run(s, ops).runId >= s.runId
    decreases |ops|
  {
    if ops != [] {
      RunningIsSticky(Step(s, ops[0]), ops[1..]);
    }
  }

  /** With nothing selected no benchmark runs. */
  lemma NothingSelectedRunsNothing(id: string)
    ensures !ShouldRun(None, id)
  {
  }

  /** After `runBenchmarks` every id is selected. */
  lemma RunAllSelectsEvery(s: State, id: string)
    ensures ShouldRun(Step(s, RunAll).activeBenchmarkId, id)
  {
  }

  /** After `runSingleBenchmark(x)`, with `x` not the reserved "all", exactly
      `x` is selected; `runSingleBenchmark("all")` selects every id. */
  lemma RunSingleSelectsOnly(s: State, x: string, y: string)
    ensures x != All ==> (ShouldRun(Step(s, RunSingle(x)).activeBenchmarkId, y) <==> y == x)
    ensures x == All ==> ShouldRun(Step(s, RunSingle(x)).activeBenchmarkId, y)
  {
  }

  /** Marking the last incomplete entry complete clears the selection;
      while another entry is still incomplete the selection stays. */
  lemma CompletionClearsSelection(s: State, id: string)
    ensures (forall k :: k in s.benchmarks && k != id ==> s.benchmarks[k].isComplete) ==>
              Step(s, SetComplete(id, true)).activeBenchmarkId == None
    ensures (exists k :: k in s.benchmarks && k != id && !s.benchmarks[k].isComplete) ==>
              Step(s, SetComplete(id, true)).activeBenchmarkId == s.activeBenchmarkId
  {
  }

  /** Marking an entry incomplete leaves the selection alone. */
  lemma UncompletingKeepsSelection(s: State, id: string)
    ensures Step(s, SetComplete(id, false)).activeBenchmarkId == s.activeBenchmarkId
  {
  }

  /** Unregistering an id that is not registered changes nothing. */
  lemma UnregisterAbsentIsNoop(s: State, id: string)
    requires id !in s.benchmarks
    ensures Step(s, Unregister(id)) == s
  {
  }

  /**
   * The context value a component sees when no provider is mounted: the
   * same four values as the provider's initial state, callbacks that do
   * nothing, and a `shouldRunBenchmark` that answers false.
   */
  const Default: State := State(false, 0, None, map[])

  /** The default context's `shouldRunBenchmark`, which never selects anything. */
  predicate DefaultShouldRun(id: string) {
    false
  }

  /** The default value is the provider's initial state, and its constant
      `shouldRunBenchmark` agrees with the provider's rule on that state. */
  lemma DefaultAgreesWithProvider(id: string)
    ensures Default == Initial
    ensures DefaultShouldRun(id) == ShouldRun(Default.activeBenchmarkId, id)
  {
  }
}
