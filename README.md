# process-kit core in Dafny

This project models the core of process-kit, a toolkit for running Python work in forked child processes. The core has three parts:

- **Execution slots** (`pkit/slot`): a `SlotPool` counts free slots over a size fixed at construction. The size defaults to the CPU count. A module-level registry hands out named pools, creating each on first use. The `acquire`/`release` method decorators take a slot before a call and give one back after it.
- **Signal handler registries** (`pkit/signals`): a dispatcher keeps, for each signal number, the list of callables that the OS-level handler runs in order. A `HandlerRegistry` is a callable that files callbacks under a key taken from an object (a process's pid) and, on a signal, runs the callbacks under a key extracted from the signal (the pid `os.wait` reaped). `pkit/signals/process.py` keeps one such registry per signal number inside the dispatcher's list.
- **Process and pool lifecycle** (`pkit/process.py`, `pkit/pool.py`): a `Process` forks a child that runs a target and exits with a code derived from how the target ended. It can be joined, terminated, restarted and polled, and its SIGCHLD handler records the child's exit code. A `ProcessPool` runs targets in child processes, at most as many at once as its slot pool allows, and tracks each run as a `Task`.

Everything the OS decides becomes an input:

- a fork's result (`forked: Result<int>`);
- the calling process's pid;
- a `waitpid` result (`waited`) and a `poll` result (`polled`);
- whether `sem_wait` or `sem_post` fails with OSError (`interrupted`, `postFails`);
- the pid a SIGCHLD reaping yields (`extracted`).

A blocking `acquire` is modelled by its precondition: the call either fails or finds a free slot. Python exceptions are `Option<Error>`/`Result` values. A `collections.defaultdict(list)` is a `map<K, seq<V>>`. Reading a key that is absent inserts it with an empty list, which `Lists.Touched` models. `list.append` is modelled by `Lists.Appended` and `list.remove` by `Lists.RemoveFirst`/`Lists.Removed`. Callables are identified by number (`CallbackId`, `SignalBase.Handler`).

Modules and files:

| file | module | source |
|---|---|---|
| wrappers.dfy | Wrappers | Python's exceptions, as values |
| lists.dfy | Lists | `list.remove` and the `defaultdict(list)` operations |
| slot_pool.dfy | SlotPools | pkit/slot/pool.py |
| slot_core.dfy | SlotCore | pkit/slot/core.py |
| slot_decorators.dfy | SlotDecorators | pkit/slot/decorators.py |
| signal_base.dfy | SignalBase | pkit/signals/base.py |
| signal_registry.dfy | SignalRegistry | pkit/signals/registry.py |
| signal_process.dfy | SignalProcess | pkit/signals/process.py |
| process.dfy | Processes | pkit/process.py |
| pool.dfy | Pools | pkit/pool.py |

Four places where the model follows the code rather than the documentation:

- `create` catches `SystemError` where its own comment says `SystemExit`.
- The docstrings of `terminate` promise to wait for the child's exit and to clean the handle. The code only sends SIGTERM, and the model does the same.
- `restart` with the terminate policy refers to the misspelt name `TERMINTE_RESTART_POLICY`, so it fails with NameError.
- `ProcessPool` constructs `Process(..., on_exit=...)` and calls `start(wait=True)`, neither of which `pkit/process.py` accepts. The pool is therefore modelled against an abstract `Pools.Worker`. The worker starts with the pid the fork produced, and the child's exit reaches the pool as an explicit `OnProcessExit` call.

## Model

| member | source | states |
|---|---|---|
| Lists.FirstIndex | pkit/signals/base.py:38-40 | the position `list.remove` acts on: it holds the element and no earlier position does |
| Lists.RemoveFirst | pkit/signals/base.py:38-40 | `list.remove` drops one occurrence: one shorter, the multiset minus that element, everything before the first occurrence kept and everything after it shifted down by one |
| Lists.RemoveAppended | pkit/signals/registry.py:20-26 | removing an element that was appended to a list not holding it gives back the list |
| Lists.RemoveBeforeAppend | pkit/signals/registry.py:20-26 | when the element is already present, removing it commutes with a later append of anything |
| Lists.AppendThenRemoveReorders | pkit/signals/base.py:31-40 | registering a handler again and then unregistering it removes the older copy, so `[1, 2]` becomes `[2, 1]`, not `[1, 2]` |
| Lists.AppendThenRemoveSameElements | pkit/signals/base.py:31-40 | appending then removing the same handler always leaves the same handlers, as a multiset |
| Lists.Lookup | pkit/signals/registry.py:28-31 | the list a `defaultdict(list)` holds under a key, the empty list for a missing key, read without inserting it |
| Lists.Touched | pkit/signals/registry.py:28-31 | reading a `defaultdict(list)` adds the key with an empty list and leaves every other entry |
| Lists.Appended | pkit/signals/registry.py:20-22 | appending under a key adds the key if needed, extends its list by the value and leaves every other key |
| Lists.Removed | pkit/signals/registry.py:24-26 | removing a present value keeps the keys, replaces that key's list by the list with the value's first occurrence removed (one shorter) and leaves every other key |
| Lists.UnregisterUndoesRegister | pkit/signals/registry.py:20-26 | register then unregister of a callback not yet under the key restores the registry, except that the key is now present |
| Lists.UnregisterAfterLaterRegister | pkit/signals/registry.py:20-26 | unregistering a callback filed earlier gives the same map whether or not another callback was appended after it |
| SlotPools.EffectiveSize | pkit/slot/pool.py:15-16 | the pool size is the requested size when it is nonzero, else the CPU count, and at least 1 |
| SlotPools.SlotPool.constructor | pkit/slot/pool.py:15-18 | a new pool has that size and every slot free |
| SlotPools.SlotPool.Acquire | pkit/slot/pool.py:20-22 | a failing `sem_wait` raises OSError and leaves `free`; otherwise one slot is taken |
| SlotPools.SlotPool.Release | pkit/slot/pool.py:24-29 | releasing past capacity is a ValueError and a failing `sem_post` an OSError, both leaving `free`; otherwise one slot is given back; `0 <= free <= size` is kept |
| SlotPools.SlotPool.Reset | pkit/slot/pool.py:31-34 | every slot is free again and the size is unchanged |
| SlotPools.SlotPoolScenario | pkit/slot/pool.py:20-29 | on a 2-slot pool one acquire leaves 1 free, two acquires and a release leave 1, and releasing a full pool is a ValueError |
| SlotPools.ResetScenario | pkit/slot/pool.py:20-34 | after taking any 1..n slots one by one, an acquire undone by a release leaves the count, releasing every slot taken restores n free, and reset restores n free |
| SlotCore.SlotRegistry.constructor | pkit/slot/core.py:8-9 | the module state at import: the default size is the host CPU count and no pool is registered |
| SlotCore.SlotRegistry.GetSlotPool | pkit/slot/core.py:12-31 | a known name returns the very same pool and changes nothing; a new name gets a fresh full pool of the given size (the CPU count by default, or when falsy) and is filed under the name |
| SlotCore.GetSlotPoolScenario | pkit/slot/core.py:12-31 | the default size is the CPU count, a second lookup returns the same pool and ignores its size argument, and a second name gets its own pool |
| SlotDecorators.AcquireWrapper | pkit/slot/decorators.py:10-21 | the wrapped call's outcome is returned unchanged; the named pool (created on first use) loses a slot unless `sem_wait` failed, which is swallowed; no other pool changes and every other name keeps its pool |
| SlotDecorators.ReleaseWrapper | pkit/slot/decorators.py:30-43 | the call's outcome comes back and the pool gains a slot unless `sem_post` failed, which is swallowed; an over-release ValueError replaces the outcome, even an exception the call raised; no other pool changes and every other name keeps its pool |
| SlotDecorators.DecoratorScenario | pkit/slot/decorators.py:6-46 | an acquire-wrapped call on a 3-slot pool leaves 2 free, a release-wrapped call after a second acquire leaves 2, and the method's value comes back |
| SlotDecorators.OverReleaseReplacesError | pkit/slot/decorators.py:30-43 | a release-wrapped method that raises on a full pool surfaces ValueError and the pool stays full |
| SignalBase.SignalDispatcher.constructor | pkit/signals/base.py:8-10 | the module state at import: the set of signal numbers is fixed, no handler is listed and no OS handler is installed |
| SignalBase.SignalDispatcher.Register | pkit/signals/base.py:21-31 | an unknown signal number is a ValueError, then a non-callable handler a TypeError, both changing nothing; a number not yet a key has its OS handler installed first, and when the OS refuses, that error escapes with no key and no handler added; otherwise the handler is appended, and the number is installed exactly when it was not yet a key |
| SignalBase.SignalDispatcher.Unregister | pkit/signals/base.py:34-44 | a number that is not a key and a handler that is not registered are both LookupError, changing nothing; otherwise the first occurrence of the handler is removed |
| SignalBase.SignalDispatcher.Dispatch | pkit/signals/base.py:13-18 | the OS handler runs exactly the handlers listed for the number, in order, and the lookup adds the number as a key |
| SignalBase.TwoHandlersScenario | pkit/signals/base.py:21-44 | two handlers run in registration order, and after unregistering the first only the second runs; each error path raises its exception; SIGKILL, whose handler the OS refuses to install, gets no key and no handler |
| SignalBase.ReregisterScenario | pkit/signals/base.py:21-44 | unregistering the only handler leaves an empty list under the number, and registering again does not reinstall the OS handler |
| SignalRegistry.InsertWith | pkit/signals/process.py:33-35 | a process is keyed by its `pid` property, so a process without a child is keyed by None |
| SignalRegistry.HandlerRegistry.constructor | pkit/signals/registry.py:5-18 | a new registry files no callback under any key |
| SignalRegistry.HandlerRegistry.Register | pkit/signals/registry.py:20-22 | the callback is appended under the object's key |
| SignalRegistry.HandlerRegistry.Unregister | pkit/signals/registry.py:24-26 | the callback's first occurrence under the key is removed, or ValueError is raised and the key is left present |
| SignalRegistry.HandlerRegistry.Call | pkit/signals/registry.py:28-31 | exactly the callbacks filed under the extracted key run, in order, and the key becomes present |
| SignalRegistry.KeyedDispatchScenario | pkit/signals/registry.py:20-31 | callbacks filed under pids 42 and 1234 run only for their own pid, and an extraction that found no pid runs nothing |
| SignalRegistry.RegisterThenUnregister | pkit/signals/registry.py:20-26 | registering then unregistering a new callback succeeds and leaves only the key behind |
| SignalProcess.FirstRegistryIndex | pkit/signals/process.py:21-24 | the loop stops at the first registry in the list |
| SignalProcess.GetRegistryHandler | pkit/signals/process.py:17-26 | None exactly when the number is not a key; UnboundLocalError exactly when its list holds no registry; otherwise the first registry in the list |
| SignalProcess.RegistryCountAppend | pkit/signals/process.py:29-38 | appending a handler raises the count of registries in a list by one exactly when it is a registry |
| SignalProcess.PlainHandlerKeepsRegistryLookup | pkit/signals/process.py:17-26 | a plain callable registered under a number keeps its registry count and the registry the lookup finds; under a number that was not a key it makes the lookup fail with UnboundLocalError |
| SignalProcess.Register | pkit/signals/process.py:29-38 | a number present without a registry in its list fails with UnboundLocalError; an absent number that is not a signal number is the dispatcher's ValueError, and one whose OS handler cannot be installed is that error; these change neither the lists nor the installed numbers; any other absent number gets a fresh registry, installed with the dispatcher (the installed numbers gain exactly this one), holding just this callback under the pid; a found registry gets the callback appended and installs nothing; on success the list holds exactly as many registries as before, or one when it was created |
| SignalProcess.Unregister | pkit/signals/process.py:41-49 | an absent number is LookupError, a list without a registry UnboundLocalError, and otherwise the registry's unregister outcome |
| SignalProcess.SigchldScenario | pkit/signals/process.py:29-38 | callbacks of two processes land in one registry installed once for SIGCHLD, each under its own pid |
| Processes.ArgsReturnCode | pkit/process.py:157-164 | the return code an exception's arguments stand for: 1 without arguments, an int first argument itself, a str 0, anything else 1 |
| Processes.CreateReturnCode | pkit/process.py:144-171 | the child's return code: 0 when the target returns, SystemError arguments decoded (none 1, int itself, str 0, other 1), any other exception 1 |
| Processes.CreateReturnCodeZeroIff | pkit/process.py:144-171 | the child exits with 0 exactly when the target returned or raised SystemError whose first argument is 0 or a str |
| Processes.SystemExitCodeLost | pkit/process.py:156-166 | `sys.exit(3)` in the target gives return code 1 as written, where 3 is meant |
| Processes.IntendedReturnCode | pkit/process.py:141-143 | the return code with SystemExit, as the comment describes |
| Processes.IntendedReturnCodeKeepsExitArgument | pkit/process.py:141-143 | the intended mapping keeps the integer a SystemExit carries and agrees with the code on returns and other exceptions |
| Processes.WExitStatus | pkit/process.py:136 | a decoded exit status is below 256 |
| Processes.ObservedExitCode | pkit/process.py:51-54 | for a return code that fits the C `int` `os._exit` takes, the exit code read back through `WEXITSTATUS` is that code modulo 256 |
| Processes.Process.constructor | pkit/process.py:110-115 | a new handle remembers the constructing pid, has no child, no exit code, and its current process is the main one |
| Processes.Process.Pid | pkit/process.py:312-316 | the pid is the child's pid, or None without a child |
| Processes.Process.Start | pkit/process.py:184-194 | another pid than the constructing one, or a second start, is a RuntimeError that changes nothing; a failing fork raises and records nothing; otherwise the child is recorded with no return code and the process becomes current |
| Processes.Process.Clean | pkit/process.py:173-177 | the child is forgotten, the pid is None and the main process is current again; the exit code stays |
| Processes.Process.Join | pkit/process.py:196-205 | joining without a child is a RuntimeError that changes nothing; otherwise the handle is cleaned |
| Processes.Process.Terminate | pkit/process.py:207-217 | terminating without a child is a RuntimeError; otherwise SIGTERM is sent exactly when no return code was known, and the stored return code becomes None |
| Processes.Process.TerminateKeepingReturnCode | pkit/process.py:76-86 | the same SIGTERM condition, with a known return code kept |
| Processes.Process.Restart | pkit/process.py:219-230 | an unknown policy is a ValueError and the terminate policy a NameError, both changing nothing; the join policy joins (RuntimeError without a child, changing nothing), then starts again and fails as `start` does (wrong pid, failing fork) with the handle left cleaned |
| Processes.Process.IsAlive | pkit/process.py:282-289 | false without a child or with pid 0; otherwise a known return code is kept, a polled one is recorded, and the child is alive exactly when neither exists |
| Processes.Process.OnSigchld | pkit/process.py:133-137 | with a child of nonzero pid, any `waitpid` answer records its decoded status as the exit code and cleans; a `waitpid` OSError escapes; without a child nothing happens |
| Processes.Process.OnSigchldReaped | pkit/process.py:133-137 | the exit code is recorded and the handle cleaned only when `waitpid` reports the child's own pid |
| Processes.LifecycleScenario | pkit/process.py:184-230 | start, a refused second start, join, a restart-style second start, and the RuntimeError/ValueError refusals |
| Processes.SigchldForRunningChild | pkit/process.py:133-137 | a `(0, 0)` answer for a running child forgets it and records exit code 0 as written; the intended handler keeps it |
| Processes.TerminateForgetsReturnCode | pkit/process.py:86 | after `is_alive` reaped the child, terminate makes the next `is_alive` report it alive; keeping the return code keeps it dead |
| Pools.Task.New | pkit/pool.py:33-38 | a falsy id is replaced by the generated one; a falsy status leaves READY; a status outside the three is a ValueError; a new task has no exit code |
| Pools.Task.SetStatus | pkit/pool.py:53-57 | a status outside the three is a ValueError that keeps the old status; any of the three is stored |
| Pools.Task.Finish | pkit/pool.py:43-44 | the task is finished and not running, whatever its status was |
| Pools.Task.Running | pkit/pool.py:59-61 | a task is running exactly when its status is RUNNING; `Finish` makes it false |
| Pools.Task.Finished | pkit/pool.py:63-65 | a task is finished exactly when its status is FINISHED; `Finish` makes it true |
| Pools.TaskScenario | pkit/pool.py:33-65 | a task made without a status is READY, an invalid status is refused and the old one kept, finishing twice leaves it finished, and an invalid constructor status is a ValueError |
| Pools.ProcessPool.constructor | pkit/pool.py:79-87 | a new pool is ready, tracks nothing, and owns a full slot pool of the requested size |
| Pools.ProcessPool.Execute | pkit/pool.py:89-125 | a pool that is not ready does nothing and returns None; a failing slot acquire is an OSError before anything else; a failing process start propagates its error with the slot still taken and no task tracked, so in-use slots then exceed tracked tasks by one; otherwise one slot is taken and a fresh RUNNING task is filed under the child's pid with its process, a new one with no exit code and no join or stop requested, and in-use slots keep matching tracked tasks |
| Pools.ProcessPool.Close | pkit/pool.py:127-133 | the pool stops accepting work and every process tracked at the call is joined and otherwise untouched (not terminated, same pid and exit code); the tracked tasks stay |
| Pools.ProcessPool.Terminate | pkit/pool.py:135-141 | the pool stops accepting work and every process tracked at the call is terminated and otherwise untouched (not joined, same pid and exit code); the tracked tasks stay |
| Pools.ProcessPool.OnProcessExit | pkit/pool.py:143-149 | the slot is given back first, and a ValueError or OSError from that stops everything, leaving the tracked task's status and exit code untouched; then a tracked pid's task becomes FINISHED, takes its process's exit code and is untracked; in-use slots keep matching tracked tasks |
| Pools.PoolScenario | pkit/pool.py:89-149 | on a 1-slot pool a run holds the slot while RUNNING; after its exit the slot is free, nothing is tracked, the task is FINISHED with the child's code; after close, execute returns None and takes no slot |
| Pools.TerminateScenario | pkit/pool.py:135-149 | terminate asks the running process to stop, and once its exit arrives every slot is free and nothing is tracked |
| Pools.ForkFailureKeepsSlot | pkit/pool.py:104-125 | on a 1-slot pool whose fork fails, the error reaches the caller, nothing is tracked and the only slot stays taken |

## Left out

- Forking, `os._exit`, `waitpid`/`poll`, `os.kill`, signal installation and `siginterrupt` are OS calls. Their results are inputs (for signal installation, the error the OS raises when it refuses), and a SIGTERM sent is recorded in a ghost log.
- The `multiprocessing` semaphore is not modelled: its blocking, its sharing across processes, and the races between a SIGCHLD handler and the code it interrupts. The semaphore is replaced by the `free` count, a precondition for `acquire` and OSError inputs.
- Python's `Semaphore` rejects a negative size. The model's sizes are natural numbers.
- `reset` replacing the semaphore with a `BoundedSemaphore` is not modelled: only the count is.
- `Processes.Process.Terminate` does not model an `os.kill` failure: `Popen.terminate` then calls `wait(timeout=0.1)`, which is the `ProcessOpen` override and so cleans the handle, and re-raises only when that wait returns None; this depends on timing.
- The timeouts of `join`, `close` and `wait`, the `Process.wait` polling loop, and the `wait` argument of the pool's `terminate` are not modelled.
- The stdin/stdout/stderr handling, the child's SIGTERM handler (`on_sigterm` exits with 1) and the traceback printing in `create` are not modelled.
- `Process.run` and the target's own effects are not modelled. The target's outcome is the `RunOutcome` input, and a decorated method's outcome is the `CallOutcome` input.
- The `name` property (its type check) and `daemonic` are not modelled. They do not affect the lifecycle.
- `get_current_process` is not modelled: its object and name.
- `pkit/signals/constants.py` is not part of this model. The set of valid signal numbers is a constructor parameter.
- `HandlerRegistry` takes its key functions as parameters. The model fixes them to the ones `pkit/signals/process.py` passes: `InsertWith` takes the pid, and the extracted key is an input.
- `get_last_exited_pid` is not modelled separately. Its result (a pid, or None after an OSError) is the `extracted` input.
- Every `Process` construction re-installs its own SIGCHLD handler over the previous one. That global, last-writer-wins handler slot is not modelled.
- `ProcessPool.processes` is never used by the code and is not modelled.
- `Pools.ProcessPool.Execute` takes its slot before starting the process and, as in the source, does not give it back when the start fails. It models the pool against an abstract `Worker` child, because the `Process` API it calls does not exist in `pkit/process.py`. A task's generated id is an input, not a UUID. The pool's child is the `Pools.Worker` class: `Pools.Worker.Start` stands for `process.start` (pkit/pool.py:117), `Pools.Worker.Exited` for the child's exit reaching its `on_exit` callback (pkit/pool.py:114), `Pools.Worker.Join` for `process.join` (pkit/pool.py:133) and `Pools.Worker.Terminate` for `process.terminate` (pkit/pool.py:141); join and terminate only record the request.
- `Pools.ProcessPool.Close` and `Pools.ProcessPool.Terminate` are not modelled on `Process.join`/`terminate`. They record a join or stop request on each tracked worker; the `Process` versions are modelled separately.
- `Processes.Process.Restart` does not model the terminate branch past its NameError, because that branch cannot run as written.
- `SignalBase.SignalDispatcher.Dispatch` does not model a handler that raises: in the source the exception stops the loop and propagates, so later handlers do not run. The model's delivery runs every listed handler.
- `SignalRegistry.HandlerRegistry.Call` likewise does not model a raising callback, which would stop the remaining callbacks under the key.
- `Processes.ObservedExitCode` holds only for return codes that fit a C `int`. `os._exit` raises OverflowError for anything wider, which the model does not follow. `IntArg` stands for a Python 2 `int` (a C long); a wider `long` fails the `isinstance(..., int)` test and counts as `OtherArg`.
- `Processes.Process.Join` does not model the wait itself. It keeps only the effect that survives: the handle is cleaned, and the collected return code is dropped with it.

## Findings

| source | as written | input that shows it | evidently intended | confidence | as-written member | corrected member |
|---|---|---|---|---|---|---|
| pkit/process.py:156-164 | the exception whose arguments become the exit code is `SystemError` | a target calling `sys.exit(3)` makes the child exit with 1 | `SystemExit`, as the comment at lines 141-143 says, giving 3 | high, not executed | Processes.SystemExitCodeLost | Processes.IntendedReturnCodeKeepsExitArgument |
| pkit/process.py:133-137 | the SIGCHLD handler decodes whatever `waitpid(pid, WNOHANG)` returns and cleans | a SIGCHLD from another child while this child runs: `waitpid` returns `(0, 0)`, so exit code 0 is recorded and the running child is forgotten | act only when the returned pid is the child's | medium, not executed | Processes.SigchldForRunningChild | Processes.Process.OnSigchldReaped |
| pkit/process.py:86 | `terminate` stores `Popen.terminate`'s None result as the return code | `is_alive` reaps the child (false), `terminate`, then `is_alive` polls a reaped pid and reports true | keep the return code already observed | medium, not executed | Processes.TerminateForgetsReturnCode | Processes.Process.TerminateKeepingReturnCode |
