# jazz-stress benchmark coordinator and result normalisation

jazz-stress is a React Native harness that benchmarks the Jazz storage, sync
and crypto layers. Most of it drives code from other packages. The logic that
belongs to the harness itself is modelled here:

- **The benchmark-run coordinator.** `BenchmarkProvider` appears twice, once in
  the app (`src/benchmarks/BenchmarkContext.tsx`) and once in the shared
  library (`lib/src/benchmarks/BenchmarkContext.tsx`). It keeps four pieces
  of state:
  - a registry from benchmark id to `{name, isComplete}`;
  - a `runId` counter;
  - the selected benchmark (`null`, `"all"` or one id);
  - an `isRunning` flag.

  Components register themselves with it, are started by `runBenchmarks` /
  `runSingleBenchmark`, ask `shouldRunBenchmark(id)` whether they take part,
  and report back with `setBenchmarkComplete`.
- **Result normalisation** (`lib/src/benchmarks/storage.ts`).
  - `processResults` turns each task's loosely typed result into
    `{name, latency: {mean}, throughput: {mean}}`, trying candidate fields in a
    fixed order with 0 as the default, and appends the records to the caller's
    array.
  - `runStorageBenchmarks` and `runSingleStorageBenchmark` collect those
    records over a list of benchmarks, or over one benchmark picked by name.

Layout:

| file | module | contents |
|---|---|---|
| `wrappers.dfy` | `Wrappers` | `Option` |
| `registry.dfy` | `Registry` | the registry entry, the updaters handed to `setBenchmarks`, and the `forEach`/`every` loops as methods |
| `coordinator.dfy` | `Coordinator` | the provider as a state machine on values (`State`, `Op`, `Step`, `Run`), `shouldRunBenchmark`, the default context value, and lemmas about whole sequences of callbacks |
| `app_context.dfy` | `AppBenchmarkContext` | the app's `BenchmarkProvider` as a class |
| `lib_context.dfy` | `LibBenchmarkContext` | the library's `BenchmarkProvider` as a class |
| `storage.dfy` | `StorageResults` | the raw-result datatypes, the field-selection rules, `processResults` and both runners |

Each provider is a class whose fields are the four React states. Each
callback is a `modifies this` method. A callback's queued `set…` updaters are
applied one after another, in source order. Every method states its whole new
state and proves that the state equals `Coordinator.Step` on the old state.
Facts about runs of many callbacks are proved about `Coordinator.Run`. One
example is that `runId` counts the started runs. Another is that the object
invariant `Valid` always holds. `Valid` says two things:
- `isRunning` holds exactly when `runId > 0`;
- a benchmark is selected only while running.

The two provider files contain the same code, so the two classes are the
same, with the `src/` and `lib/` lines cited separately.

## Model

| member | source | states |
|---|---|---|
| `Registry.Registered` | src/benchmarks/BenchmarkContext.tsx:42-47 | registering adds `id` to the key set with entry `{name, isComplete: false}`, overwriting any earlier entry; every other entry is unchanged |
| `Registry.Unregistered` | src/benchmarks/BenchmarkContext.tsx:50-56 | unregistering removes exactly `id` from the key set, keeps every other entry, and leaves the registry unchanged when `id` is absent |
| `Registry.Flagged` | src/benchmarks/BenchmarkContext.tsx:59-63 | the first updater of `setBenchmarkComplete` sets `id`'s flag, keeps an existing name, gives an absent id a nameless entry, and changes nothing else |
| `Registry.Cleared` | src/benchmarks/BenchmarkContext.tsx:80-86 | the rebuilt registry has the same ids and names, and every flag is false |
| `Registry.ClearedAt` | src/benchmarks/BenchmarkContext.tsx:99-105 | only an existing entry for `id` has its flag cleared, with its name kept; the key set is unchanged, so no entry is created |
| `Registry.ClearAll` | src/benchmarks/BenchmarkContext.tsx:81-85 | the `forEach` loop that copies every id with `isComplete: false` into a fresh record builds exactly `Cleared(prev)` |
| `Registry.EveryComplete` | src/benchmarks/BenchmarkContext.tsx:68 | `Object.values(prev).every(b => b.isComplete)`, which stops at the first incomplete entry, answers true exactly when every entry is complete |
| `Registry.UnregisterUndoesRegister` | src/benchmarks/BenchmarkContext.tsx:42-56 | registering a fresh id and then unregistering it gives back the original registry |
| `Registry.RegisterOverwrites` | src/benchmarks/BenchmarkContext.tsx:43-46 | registering one id twice is the same as registering it once with the later name |
| `Registry.FlaggedAllComplete` | src/benchmarks/BenchmarkContext.tsx:59-68 | after `id` is flagged complete, the registry is all complete exactly when every other entry already was |
| `Registry.FlaggedIncomplete` | src/benchmarks/BenchmarkContext.tsx:60-63 | after `id` is flagged incomplete, the registry is never all complete |
| `Registry.ClearedIdempotent` | src/benchmarks/BenchmarkContext.tsx:80-86 | rebuilding the registry twice gives the same result as rebuilding it once |
| `Coordinator.InitialValid` | src/benchmarks/BenchmarkContext.tsx:36-39 | the initial state (not running, `runId = 0`, nothing selected, empty registry) satisfies the invariant |
| `Coordinator.StepKeepsValid` | src/benchmarks/BenchmarkContext.tsx:42-111 | every callback preserves the invariant: running exactly when `runId > 0`, and something selected only while running |
| `Coordinator.RunKeepsValid` | src/benchmarks/BenchmarkContext.tsx:42-111 | any sequence of callbacks preserves the invariant |
| `Coordinator.ReachableValid` | src/benchmarks/BenchmarkContext.tsx:36-111 | every state reachable from the initial state satisfies the invariant |
| `Coordinator.RunIdCountsRuns` | src/benchmarks/BenchmarkContext.tsx:91-110 | after any sequence of callbacks, `runId` has grown by exactly the number of `runBenchmarks`/`runSingleBenchmark` calls in it |
| `Coordinator.RunningIsSticky` | src/benchmarks/BenchmarkContext.tsx:89-110 | no sequence of callbacks sets `isRunning` back to false or decreases `runId` |
| `Coordinator.NothingSelectedRunsNothing` | src/benchmarks/BenchmarkContext.tsx:114-116 | with no selection, `shouldRunBenchmark` is false for every id |
| `Coordinator.RunAllSelectsEvery` | src/benchmarks/BenchmarkContext.tsx:90-116 | after `runBenchmarks`, `shouldRunBenchmark` is true for every id |
| `Coordinator.RunSingleSelectsOnly` | lib/src/benchmarks/BenchmarkContext.tsx:105-122 | after `runSingleBenchmark(x)`, `shouldRunBenchmark(y)` holds exactly when `y == x`, provided `x` is not `"all"`; `runSingleBenchmark("all")` selects every id |
| `Coordinator.CompletionClearsSelection` | src/benchmarks/BenchmarkContext.tsx:59-75 | `setBenchmarkComplete(id, true)` clears the selection when every other entry is complete, and keeps it while some other entry is incomplete |
| `Coordinator.UncompletingKeepsSelection` | src/benchmarks/BenchmarkContext.tsx:66-74 | `setBenchmarkComplete(id, false)` leaves the selection unchanged |
| `Coordinator.UnregisterAbsentIsNoop` | src/benchmarks/BenchmarkContext.tsx:50-56 | unregistering an id that is not registered leaves the whole state unchanged |
| `Coordinator.DefaultAgreesWithProvider` | lib/src/benchmarks/BenchmarkContext.tsx:24-35 | the context value used when no provider is mounted equals the provider's initial state, and its constant-false `shouldRunBenchmark` agrees with the provider's rule on that state |
| `AppBenchmarkContext.BenchmarkProvider.constructor` | src/benchmarks/BenchmarkContext.tsx:36-39 | a new provider has an empty registry, `runId = 0`, nothing selected, is not running, and satisfies the invariant |
| `AppBenchmarkContext.BenchmarkProvider.RegisterBenchmark` | src/benchmarks/BenchmarkContext.tsx:42-47 | inserts or overwrites `id` with `{name, isComplete: false}`; the other entries and the other three fields are unchanged |
| `AppBenchmarkContext.BenchmarkProvider.UnregisterBenchmark` | src/benchmarks/BenchmarkContext.tsx:50-56 | removes exactly `id` (nothing when it is absent); everything else is unchanged |
| `AppBenchmarkContext.BenchmarkProvider.SetBenchmarkComplete` | src/benchmarks/BenchmarkContext.tsx:59-75 | sets the flag (creating a nameless entry for an absent id), then clears the selection exactly when the flag was set to true and every entry is complete; `runId` and `isRunning` are unchanged |
| `AppBenchmarkContext.BenchmarkProvider.RunBenchmarks` | src/benchmarks/BenchmarkContext.tsx:78-94 | keeps the ids and names, clears every flag, selects `"all"`, sets `isRunning`, and increments `runId` by one |
| `AppBenchmarkContext.BenchmarkProvider.RunSingleBenchmark` | src/benchmarks/BenchmarkContext.tsx:97-111 | clears only an existing entry's flag and never creates one, selects `id`, sets `isRunning`, and increments `runId` by one |
| `AppBenchmarkContext.BenchmarkProvider.ShouldRunBenchmark` | src/benchmarks/BenchmarkContext.tsx:114-116 | false with no selection, true for every id when `"all"` is selected, and otherwise true only for the selected id |
| `LibBenchmarkContext.BenchmarkProvider.constructor` | lib/src/benchmarks/BenchmarkContext.tsx:44-51 | a new provider has an empty registry, `runId = 0`, nothing selected, is not running, and satisfies the invariant |
| `LibBenchmarkContext.BenchmarkProvider.RegisterBenchmark` | lib/src/benchmarks/BenchmarkContext.tsx:54-59 | inserts or overwrites `id` with `{name, isComplete: false}`; the other entries and the other three fields are unchanged |
| `LibBenchmarkContext.BenchmarkProvider.UnregisterBenchmark` | lib/src/benchmarks/BenchmarkContext.tsx:62-68 | removes exactly `id` (nothing when it is absent); everything else is unchanged |
| `LibBenchmarkContext.BenchmarkProvider.SetBenchmarkComplete` | lib/src/benchmarks/BenchmarkContext.tsx:71-88 | sets the flag (creating a nameless entry for an absent id), then clears the selection exactly when the flag was set to true and every entry is complete; `runId` and `isRunning` are unchanged |
| `LibBenchmarkContext.BenchmarkProvider.RunBenchmarks` | lib/src/benchmarks/BenchmarkContext.tsx:91-102 | keeps the ids and names, clears every flag, selects `"all"`, sets `isRunning`, and increments `runId` by one |
| `LibBenchmarkContext.BenchmarkProvider.RunSingleBenchmark` | lib/src/benchmarks/BenchmarkContext.tsx:105-114 | clears only an existing entry's flag and never creates one, selects `id`, sets `isRunning`, and increments `runId` by one |
| `LibBenchmarkContext.BenchmarkProvider.ShouldRunBenchmark` | lib/src/benchmarks/BenchmarkContext.tsx:117-122 | false with no selection, true for every id when `"all"` is selected, and otherwise true only for the selected id |
| `Coordinator.ShouldRun` | src/benchmarks/BenchmarkContext.tsx:114-116 | the selection rule: a benchmark takes part exactly when `"all"` or that id is selected |
| `Coordinator.Step` | src/benchmarks/BenchmarkContext.tsx:42-111 | the transition of each callback, with its queued updaters applied in source order; the class methods are proved to follow it |
| `Registry.AllComplete` | src/benchmarks/BenchmarkContext.tsx:68 | every entry of the registry has its completion flag set |
| `StorageResults.LatencyMean` | lib/src/benchmarks/storage.ts:37-47 | the latency reported for a task's result: the first present of `latency.mean` and `mean`, times 1000, else 0 |
| `StorageResults.ThroughputMean` | lib/src/benchmarks/storage.ts:38-57 | the throughput reported for a task's result: the first present of `throughput.mean` and `hz`, else 0 |
| `StorageResults.Normalize` | lib/src/benchmarks/storage.ts:61-65 | the record pushed for one task: its name, its latency and its throughput |
| `StorageResults.Collected` | lib/src/benchmarks/storage.ts:74-82 | the records gathered from the benchmarks in order, each benchmark's records appended after those of the ones before it |
| `StorageResults.TaskCount` | lib/src/benchmarks/storage.ts:76-80 | the total number of tasks of the benchmarks that are run |
| `StorageResults.FirstPresent` | lib/src/benchmarks/storage.ts:42-57 | the fallback chain answers a value exactly when some candidate is present, and that value is the first present candidate |
| `StorageResults.NormalizeAll` | lib/src/benchmarks/storage.ts:35-66 | one record per task, and the record at position `i` is the one for task `i` |
| `StorageResults.LatencySelection` | lib/src/benchmarks/storage.ts:37-47 | latency is `latency.mean` if present, else `mean`, in each case times 1000; it is 0 when neither is present or the task has no result |
| `StorageResults.ThroughputSelection` | lib/src/benchmarks/storage.ts:38-57 | throughput is `throughput.mean` if present, else `hz`, unscaled; it is 0 when neither is present or the task has no result |
| `StorageResults.NormalizedTask` | lib/src/benchmarks/storage.ts:36-65 | a record carries its task's name, and a task without a result reports latency 0 and throughput 0 |
| `StorageResults.ResultList.constructor` | lib/src/benchmarks/storage.ts:74 | a results array starts empty |
| `StorageResults.ResultList.Push` | lib/src/benchmarks/storage.ts:61-65 | `results.push(r)` appends `r` at the end and changes nothing else |
| `StorageResults.ProcessResults` | lib/src/benchmarks/storage.ts:31-67 | appends exactly the normalised records of the bench's tasks, in task order, after the records already in `results`, which are left unchanged |
| `StorageResults.CollectedLength` | lib/src/benchmarks/storage.ts:70-83 | the collected list has one record per task of every benchmark |
| `StorageResults.CollectedGrouped` | lib/src/benchmarks/storage.ts:76-80 | the records of benchmark `i` form one contiguous block, placed right after the records of the benchmarks before it |
| `StorageResults.RunStorageBenchmarks` | lib/src/benchmarks/storage.ts:70-83 | returns the records of every benchmark in the order of `benches`, and its length is the total number of tasks |
| `StorageResults.RunSingleStorageBenchmark` | lib/src/benchmarks/storage.ts:86-103 | returns an empty list for a name not in the map, and otherwise exactly the normalised records of that one benchmark |

## Left out

- The content-addressed coValue store, sessions, transaction logs and sync are not part of this model. They live in the external `cojson` and `jazz-react-native-core` packages; this repository only calls into them.
- The storage, sync and crypto benchmark drivers are left out. They send SQL text or library calls to external engines and time the results.
- `setupJazzEnvironment` is left out because it is database creation and client initialisation, which is I/O.
- `cleanResults`, `formatNumber` and `calculateTimes` are left out because they are floating-point formatting and ratio arithmetic.
- All UI screens and React effects are left out.
- React scheduling is not modelled: no batching and no re-rendering. A callback's queued updaters are applied one after another, in source order. In particular, the `setActiveBenchmarkId(null)` call issued from inside the second updater of `setBenchmarkComplete` takes effect immediately.
- `StorageResults.RunStorageBenchmarks`: creating a bench (`benchFn(mode)`) and running it (`bench.run()`) are one uninterpreted parameter `run: F -> Bench`. The `mode` argument is folded into that step, and the awaits are not modelled.
- `StorageResults.RunStorageBenchmarks`: `run` is total, so the failure path is not modelled. In the source, when a create or run rejects, the whole call rejects and the records collected so far are discarded.
- `StorageResults.RunStorageBenchmarks`: `run` is a pure function, so a bench function listed twice in `benches` gives identical tasks and timings twice. Real runs measure different timings each time. No lemma depends on this.
- `StorageResults.RunSingleStorageBenchmark`: the model does not capture that nothing runs for an unknown name, beyond its empty result. The `console.warn` it logs is I/O and is left out.
- `StorageResults.RunSingleStorageBenchmark`: `run` is total, so the failure path is not modelled. In the source, when creating or running the benchmark rejects, the call rejects instead of returning records.
- Numbers are `real`, so JavaScript numbers' `NaN`, infinities and rounding are not modelled. A field counts as present exactly when `typeof … === "number"`; a non-object `latency` or `throughput` is modelled the same as an absent one.
- `runId` is an unbounded `nat`; the 2^53 precision limit of JavaScript numbers is not modelled.
- JavaScript object-key quirks are not modelled. The registry and `benchmarkMap` are plain `map`s, so keys inherited through the prototype chain (`"toString"`, `"constructor"`, `"__proto__"`, …) are treated as absent. `setBenchmarkComplete("toString", …)` still matches the model: spreading the inherited function copies no own `name`.
- `Registry.ClearedAt`: states that no entry is created. In the source, `runSingleBenchmark("toString")` finds the inherited, truthy function and does create a nameless entry. The same holds for `AppBenchmarkContext.BenchmarkProvider.RunSingleBenchmark` and `LibBenchmarkContext.BenchmarkProvider.RunSingleBenchmark`.
- `StorageResults.RunSingleStorageBenchmark`: for an inherited key such as `"toString"`, the source finds the inherited function, calls it, and fails on `bench.run()`. The model returns `[]` for it, as for any name not in the map.
