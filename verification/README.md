# Parallel attack runner: coordination core

A Dafny model of the sequential logic inside `scripts/run_attack_parallel.py`,
the script that runs a text adversarial attack over a dataset with one worker
process per GPU. Three pieces are modelled:

- **`set_env_variables`** (module `EnvSetup`). Sets `CUDA_VISIBLE_DEVICES`,
  `TF_CPP_MIN_LOG_LEVEL` and `TFHUB_CACHE_DIR` in the process environment, each
  only when the key is absent. `os.environ` is a class holding a
  `map<string, string>`. `str(gpu_id)` is written out as decimal printing with
  a proved inverse. `os.path.expanduser('~/.cache/tensorflow-hub')` is written
  out for POSIX: `HOME` if set, otherwise the password-database home, with
  trailing slashes stripped.
- **`attack_from_queue`** (module `Worker`). The device index is
  `identity - 2`. The worker applies the environment defaults, then pops items
  from the input queue while it is non-empty. Each item yields exactly one
  message on the output queue. An exception is pushed as an `Error` message and
  ends the worker. The attack is an opaque function `Item -> Message` that
  returns `Normal`, `Skipped` or `Error`.
- **The fill and drain loops of `main`** (module `Coordination`). The
  `Coordinator` class pushes `Target` dataset items (`num_examples`, or none
  when it is not positive), then pops results:
  - an `Error` is re-raised without being logged;
  - every other result is logged;
  - `num_results` advances, except that with `attack_n` set a skipped result
    is instead replaced by one fresh dataset item;
  - the summary is logged once `num_results` is no longer below `num_examples`.

  The output queue's contents are given up front, in delivery order. This
  stands for any interleaving of the workers. The class methods are proved
  against the pure functions `Drain` and `Run`, and the lemmas about those
  functions state the run's properties:
  - accounting: finalized plus in-flight equals `Target` (`num_examples`, or 0 when it is not positive);
  - `num_results` is monotone and bounded, and the loop exits exactly when it
    reaches `Target` (`num_examples`, or 0 when it is not positive);
  - results are consumed and logged in order;
  - an exception short-circuits the run;
  - an exact characterisation of the result sequences on which the run
    finishes.

The dataset is a finite sequence. When `next(dataset)` would raise
StopIteration, the run ends with the explicit outcome `DatasetExhausted`. The
source defines no other policy. When the output queue is empty before
`num_results` reaches `Target`, the run ends with `Waiting`. In the
source the blocking `get` would never return there.

A skipped result that is replaced is still passed to `log_result`, because
line 80 runs before the check on line 81.

A `num_examples` that is not positive makes `range(num_examples)` empty and the
drain condition on line 76 false at once, so the run logs the summary without
filling or popping anything. The model keeps `num_examples` an integer and
states this case in `Coordination.RunNonPositiveFinishesAtOnce`.

Files: `types.dfy` (items and messages), `queues.dfy` (the shared queue),
`env_setup.dfy`, `worker.dfy`, `coordination.dfy`.

## Model

| member | source | states |
|---|---|---|
| `Queues.Queue.Put` | scripts/run_attack_parallel.py:66 | `put` appends exactly the given item at the back of the queue |
| `Queues.Queue.Empty` | scripts/run_attack_parallel.py:29 | `empty()` is true exactly when no item is pending |
| `Queues.Queue.Get` | scripts/run_attack_parallel.py:31 | `get` returns the front item and removes exactly that item |
| `EnvSetup.NatToString` | scripts/run_attack_parallel.py:16 | decimal printing yields a non-empty digit string with no leading zero; 0 prints as exactly `"0"` |
| `EnvSetup.IntToString` | scripts/run_attack_parallel.py:16 | `str(gpu_id)` is non-empty and starts with `-` exactly when the id is negative |
| `EnvSetup.DecimalValueOfNatToString` | scripts/run_attack_parallel.py:16 | reading the printed digits back gives the original number |
| `EnvSetup.IntValueOfIntToString` | scripts/run_attack_parallel.py:16 | reading back what `str(gpu_id)` printed, sign included, gives the id again |
| `EnvSetup.IntToStringInjective` | scripts/run_attack_parallel.py:16 | distinct device ids are printed as distinct strings |
| `EnvSetup.RStripSlashes` | scripts/run_attack_parallel.py:22 | the home directory loses exactly its trailing slashes (a prefix, no slash at the end, only slashes removed) |
| `EnvSetup.DefaultCacheDir` | scripts/run_attack_parallel.py:22 | the expanded cache path ends in `/.cache/tensorflow-hub`; it stays `~/.cache/tensorflow-hub` when no home directory is known |
| `EnvSetup.SetIfAbsent` | scripts/run_attack_parallel.py:15-16 | a guarded assignment adds exactly the one key, keeps every existing value, and sets the given value only when the key was absent |
| `EnvSetup.WithDefaults` | scripts/run_attack_parallel.py:13-22 | afterwards the three keys are present; keys already present keep their values; no other key is added; absent keys get `str(gpu_id)`, `'3'` and the expanded cache path |
| `EnvSetup.WithDefaultsIdempotent` | scripts/run_attack_parallel.py:13-22 | a second call, with any arguments, leaves the environment as the first call left it |
| `EnvSetup.ProcessEnvironment.SetEnvVariables` | scripts/run_attack_parallel.py:13-22 | the three in-place set-if-absent updates leave `os.environ` equal to `WithDefaults` of the old environment |
| `Worker.GpuId` | scripts/run_attack_parallel.py:25 | the device index is below the identity, and it is non-negative exactly when the identity is at least 2 |
| `Worker.PoolDevicesAreTheDeviceRange` | scripts/run_attack_parallel.py:25 | a pool of n processes, with identities 2 .. n+1, uses exactly the device indices 0 .. n-1 |
| `Worker.DistinctWorkersSelectDistinctDevices` | scripts/run_attack_parallel.py:15-16 | two workers with different identities, started without `CUDA_VISIBLE_DEVICES`, select different devices |
| `Worker.Attack` | scripts/run_attack_parallel.py:29-37 | helper fact only: the worker sends at most one message per item; its meaning is stated by the next two lemmas |
| `Worker.AttackOnePerItemUntilError` | scripts/run_attack_parallel.py:29-37 | one message per popped item, in order, each the processor's answer for that item; no exception before the last message; the worker stops before the queue is empty only after an exception |
| `Worker.AttackDeterminedByContract` | scripts/run_attack_parallel.py:29-37 | any message sequence with those four properties is exactly the worker's output |
| `Worker.ProcessQueue` | scripts/run_attack_parallel.py:29-37 | the loop removes exactly the processed prefix of the input queue and appends exactly the worker's messages to the output queue; it reports failure exactly when the last message is an exception |
| `Worker.AttackFromQueue` | scripts/run_attack_parallel.py:24-37 | the device index is identity minus 2; the environment gets the defaults for that index; then the queue loop runs |
| `Coordination.Step` | scripts/run_attack_parallel.py:77-86 | helper facts only: one pass removes the head of the output queue and leaves the summary flag alone; the pass itself is stated by `StepFacts` |
| `Coordination.Drain` | scripts/run_attack_parallel.py:76-93 | helper fact only: the loop never lengthens the output queue; the loop's properties are the `Drain...` lemmas below |
| `Coordination.StepFacts` | scripts/run_attack_parallel.py:77-86 | per popped result: an exception stops the run unlogged with nothing else changed; any other result is logged; a counting result adds 1 to `num_results` and leaves the input queue alone; a replaced skip leaves `num_results` alone and appends exactly the next dataset item, or stops the run when there is none |
| `Coordination.StepKeepsAccounting` | scripts/run_attack_parallel.py:80-86 | one loop pass keeps the accounting invariant: results logged plus `Target` (`num_examples`, or 0 when it is not positive) equals items taken plus `num_results`, that is, finalized plus in flight equals `Target`; `num_results` counts the counting logged results, nothing logged is an exception |
| `Coordination.DrainKeepsAccounting` | scripts/run_attack_parallel.py:74-93 | the loop never decreases `num_results` and never passes `Target` (`num_examples`, or 0 when it is not positive); it finishes exactly when `num_results` equals `Target`, with nothing in flight and the summary logged; it keeps the accounting; it runs out of data only on a skipped result under `attack_n` |
| `Coordination.DrainConsumesInOrder` | scripts/run_attack_parallel.py:76-86 | the loop consumes a prefix of the output queue; it logs exactly those results in order, except a final exception, which is raised unlogged; it waits only on an empty output queue |
| `Coordination.DrainTakesDatasetInOrder` | scripts/run_attack_parallel.py:84-86 | the items appended to the input queue are exactly the dataset items taken, in dataset order |
| `Coordination.DrainFinishedAtConsumed` | scripts/run_attack_parallel.py:76-86 | when the loop finishes, the consumed prefix satisfies the independent finishing condition `FinishesAt` |
| `Coordination.FinishesAtDrains` | scripts/run_attack_parallel.py:76-86 | when a prefix satisfies `FinishesAt`, the loop finishes after consuming exactly that prefix |
| `Coordination.DrainFinishesIff` | scripts/run_attack_parallel.py:76-86 | the loop finishes if and only if some prefix of the results satisfies `FinishesAt` |
| `Coordination.Run` | scripts/run_attack_parallel.py:61-93 | the summary is logged exactly when the run finishes: never after an exception, an exhausted dataset or an empty output queue |
| `Coordination.RunNonPositiveFinishesAtOnce` | scripts/run_attack_parallel.py:64-92 | a `num_examples` that is not positive fills nothing, pops nothing and logs the summary at once |
| `Coordination.RunFinishesIff` | scripts/run_attack_parallel.py:61-93 | a run finishes if and only if, for some k: the first k results hold no exception; exactly `Target` (`num_examples`, or 0 when it is not positive) of them count, the k-th among them when k > 0; and the dataset has at least k items |
| `Coordination.RunFinishedState` | scripts/run_attack_parallel.py:64-93 | a finished run logged exactly the first k results in arrival order; it took exactly k dataset items and pushed them in order; `num_results` equals `Target` (`num_examples`, or 0 when it is not positive); the summary was logged |
| `Coordination.RunRaisedState` | scripts/run_attack_parallel.py:76-79 | a raising run raises the first exception; it logged exactly the results before it; it never reached `Target` (`num_examples`, or 0 when it is not positive); it never logged the summary |
| `Coordination.ScenarioSkippedResultIsReplaced` | scripts/run_attack_parallel.py:64-86 | with 3 examples and `attack_n`: results skip(A), B, C, D; item D is pushed after the skip; the run finishes with all four results logged and A not counted |
| `Coordination.ScenarioWorkerException` | scripts/run_attack_parallel.py:76-79 | one example whose worker raised: the exception surfaces, nothing is logged, `num_results` stays 0 |
| `Coordination.Coordinator.NextItem` | scripts/run_attack_parallel.py:65 | `next(dataset)` yields the next item in order, or signals exhaustion without advancing |
| `Coordination.Coordinator.Fill` | scripts/run_attack_parallel.py:64-66 | pushes exactly the next `Target` dataset items (`num_examples`, or none when it is not positive), in dataset order; fails exactly when the dataset has fewer, after pushing what it had |
| `Coordination.Coordinator.HandleResult` | scripts/run_attack_parallel.py:78-86 | the loop body, stated case by case in terms of the old state |
| `Coordination.Coordinator.CollectResults` | scripts/run_attack_parallel.py:74-93 | the drain loop and the summary leave the outcome and the state that `Drain` gives for the old state |
| `Coordination.RunAttackParallel` | scripts/run_attack_parallel.py:61-93 | fill plus drain, run on fresh queues, produces exactly `Run(config, results)` |

## Left out

- Real concurrency. The process pool, the multiprocessing queues, the shared
  `Manager().Namespace` and the `spawn` start-method workaround (lines 40-46,
  68-72, 98-103) are left out. Queues are sequences. The interleaving of
  workers is the given order of the output queue. The race in which another
  worker takes the last item between `empty()` and `get()`, leaving a worker
  blocked, cannot occur in the model.
- Argument parsing, model and attack construction, the logger factory and
  `DATASET_BY_MODEL` (`run_attack_args_helper` is not part of this model).
  The dataset is the sequence `next(dataset)` yields from the chosen offset.
  The attack is an opaque pure function `Item -> Message`. A stateful or
  randomised attack is not captured.
- The meaning of textattack's result classes. Only the three tags
  `Normal | Skipped | Error` are kept.
- A failure in the setup on line 28 kills the worker without a message. This
  path is not modelled.
- `torch.cuda.device_count`, the process identity lookup (a parameter here),
  `print`, `tqdm`, `time.time`, `enable_stdout` under `--disable_stdout`, and
  the `--interactive` guard. These are I/O, timing, queries of the
  environment, or an argument check.
- `expanduser` is modelled only for the `~/` path on POSIX. The
  password-database home is a parameter: None means the lookup failed.
- A blocking `get` on an empty output queue is the outcome `Waiting`, not a
  hang.
- The worker and the coordinator are separate models and are never composed.
  The coordinator's result sequence is free: it may be any sequence, including
  ones no set of workers would produce. The model therefore does not show that
  workers deliver enough results. One consequence is that a possible hang is
  not captured. Under `attack_n`, a replacement item pushed on line 86 after
  every worker has left its loop on line 29 is never processed, so the
  blocking `get` on line 77 waits for ever. This is a claim from reading the
  code and was not executed. In the model it appears only as the `Waiting`
  outcome of a result sequence that is too short.
- Replacement pool workers. When a worker calls `exit()` on line 37 inside
  the pool's initializer, `multiprocessing.Pool` starts a replacement with
  the next identity (n + 2, ...), whose `gpu_id` is n, which is not a device
  of the machine. This comes from reading how the standard library's pool
  works and was not executed. `Worker.PoolDevicesAreTheDeviceRange` covers
  only the initial pool, with identities 2 .. n + 1.
- The coordinator does not pop the input queue. In this model, the number of
  items in flight is items taken minus results logged.
- `Coordination.Step`: its own contract states only that the head of the
  output queue is removed and the summary flag is unchanged. The pass is
  stated by the lemma `Coordination.StepFacts`.
- `Coordination.Drain`: its own contract states only the queue-length bound.
  The loop's properties are the lemmas `Coordination.DrainKeepsAccounting`,
  `Coordination.DrainConsumesInOrder`, `Coordination.DrainTakesDatasetInOrder`
  and `Coordination.DrainFinishesIff`.
- `Worker.Attack`: its own contract states only the length bound. Its
  characterisation is the lemma `Worker.AttackOnePerItemUntilError`.
- `EnvSetup.DefaultCacheDir`: its contract states only the suffix and the
  unexpanded case. Which home directory is used is its definition.
