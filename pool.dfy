/**
 * The bounded execution pool (pkit/pool.py). The pool drives its child
 * processes through an abstract `Worker`: starting one yields the pid the
 * fork produced, and the exit notification that the child's exit callback
 * would deliver is an explicit call of `OnProcessExit`.
 */
module Pools {
  import opened Wrappers
  import opened SlotPools

  const READY := "ready"
  const RUNNING := "running"
  const FINISHED := "finished"

  /** `Task.STATUSES`. */
  const STATUSES: set<string> := {READY, RUNNING, FINISHED}

  /** Tracks one execution: its id, a status among `STATUSES`, and the exit code copied at the end. */
  class Task {
    const id: string
    var status: string
    var exitcode: Option<int>

    ghost predicate Valid()
      reads this
    {
      status in STATUSES
    }

    /** A task whose status is given and valid; `status` left unset reads as READY. */
    constructor WithStatus(id: string, status: string)
      requires status in STATUSES
      ensures Valid() && this.id == id && this.status == status && exitcode == None
    {
      this.id := id;
      this.status := status;
      exitcode := None;
    }

    /**
     * `Task(process_pid, _id, status)`: a falsy id is replaced by a generated
     * one, a falsy status leaves READY, and any other status not in
     * `STATUSES` raises ValueError.
     */
    static method New(id: string, status: string, generatedId: string) returns (r: Result<Task>)
      ensures status != "" && status !in STATUSES ==> r == Err(ValueError)
      ensures status == "" || status in STATUSES ==>
        && r.Ok? && fresh(r.value) && r.value.Valid()
        && r.value.id == (if id == "" then generatedId else id)
        && r.value.status == (if status == "" then READY else status)
        && r.value.exitcode == None
    {
      if status != "" && status !in STATUSES {
        return Err(ValueError);
      }
      var t := new Task.WithStatus(if id == "" then generatedId else id, if status == "" then READY else status);
      r := Ok(t);
    }

    /** The `status` setter: a value outside `STATUSES` raises ValueError and keeps the old status. */
    method SetStatus(value: string) returns (err: Option<Error>)
      modifies this
      ensures value !in STATUSES ==> err == Some(ValueError) && status == old(status)
      ensures value in STATUSES ==> err == None && status == value
      ensures exitcode == old(exitcode)
      ensures old(Valid()) ==> Valid()
    {
      if value !in STATUSES {
        return Some(ValueError);
      }
      status := value;
      err := None;
    }

    /** `finish`: the status becomes FINISHED, whatever it was. */
    method Finish()
      modifies this
      ensures status == FINISHED && Valid() && Finished() && !Running()
      ensures exitcode == old(exitcode)
    {
      status := FINISHED;
    }

    predicate Running()
      reads this
    {
      status == RUNNING
    }

    predicate Finished()
      reads this
    {
      status == FINISHED
    }
  }

  /**
   * The task tests: a task made without a status is READY; an invalid
   * status is refused and the old one kept; finishing twice still gives
   * FINISHED.
   */
  method TaskScenario() returns (initial: string, refused: Option<Error>, kept: string, finished: bool, running: bool, badCtor: bool)
    ensures initial == READY
    ensures refused == Some(ValueError) && kept == READY
    ensures finished && !running
    ensures badCtor
  {
    var r := Task.New("", "", "3f2a");
    var t := r.value;
    initial := t.status;
    refused := t.SetStatus("ABC 123");
    kept := t.status;
    t.Finish();
    t.Finish();
    finished := t.Finished();
    running := t.Running();
    var bad := Task.New("x", "ABC 123", "3f2a");
    badCtor := bad == Err(ValueError);
  }

  /** The pool's view of a child process: started once with the pid the fork gave, and told to join or stop. */
  class Worker {
    var pid: Option<int>
    var exitcode: Option<int>
    var joinRequested: bool
    var terminateRequested: bool

    constructor ()
      ensures pid == None && exitcode == None && !joinRequested && !terminateRequested
    {
      pid := None;
      exitcode := None;
      joinRequested := false;
      terminateRequested := false;
    }

    /** Starts the child: the fork's pid is recorded, or the fork's error escapes and nothing is. */
    method Start(forked: Result<int>) returns (err: Option<Error>)
      modifies this
      ensures forked.Err? ==> err == Some(forked.error) && pid == old(pid)
      ensures forked.Ok? ==> err == None && pid == Some(forked.value)
      ensures exitcode == old(exitcode) && joinRequested == old(joinRequested) && terminateRequested == old(terminateRequested)
    {
      if forked.Err? {
        return Some(forked.error);
      }
      pid := Some(forked.value);
      err := None;
    }

    /** The child exited with `code`; its handler records the code before notifying the pool. */
    method Exited(code: int)
      modifies this
      ensures exitcode == Some(code)
      ensures pid == old(pid) && joinRequested == old(joinRequested) && terminateRequested == old(terminateRequested)
    {
      exitcode := Some(code);
    }

    method Join()
      modifies this
      ensures joinRequested
      ensures pid == old(pid) && exitcode == old(exitcode) && terminateRequested == old(terminateRequested)
    {
      joinRequested := true;
    }

    method Terminate()
      modifies this
      ensures terminateRequested
      ensures pid == old(pid) && exitcode == old(exitcode) && joinRequested == old(joinRequested)
    {
      terminateRequested := true;
    }
  }

  /** A `_tasks` entry: `{'task': ..., 'process': ...}`. */
  datatype Entry = Entry(task: Task, process: Worker)

  class ProcessPool {
    const slots: SlotPool
    /** `_tasks`: the running executions by pid. */
    var tasks: map<int, Entry>
    /** False once the pool is closed or terminated; `execute` then does nothing. */
    var ready: bool

    ghost predicate Valid()
      reads this, slots
    {
      slots.Valid()
    }

    /** Every slot in use belongs to a tracked execution. */
    predicate Balanced()
      reads this, slots
    {
      slots.free + |tasks| == slots.size
    }

    /** The task object tracked under `pid`, as a frame. */
    function TrackedTask(pid: Option<int>): (frame: set<object>)
      reads this
    {
      if pid.Some? && pid.value in tasks then {tasks[pid.value].task} else {}
    }

    /** The process objects of the tracked executions. */
    function Workers(): (workers: set<Worker>)
      reads this
    {
      set pid | pid in tasks :: tasks[pid].process
    }

    /** `ProcessPool(slots)`: a ready pool with no task and a slot pool of the requested size (cpu count when falsy). */
    constructor (requested: Option<nat>, cpuCount: nat)
      requires cpuCount >= 1
      ensures Valid() && Balanced() && ready && tasks == map[]
      ensures fresh(slots) && slots.size == EffectiveSize(requested, cpuCount)
    {
      slots := new SlotPool(requested, cpuCount);
      tasks := map[];
      ready := true;
    }

    /**
     * `execute`: nothing at all when the pool is not ready. Otherwise it
     * takes a slot (an OSError from the semaphore propagates before anything
     * else happens), starts a process and records a RUNNING task under the
     * child's pid, and returns that task. A start that fails propagates its
     * error with the slot still taken and no task to give it back.
     */
    method Execute(interrupted: bool, forked: Result<int>, generatedId: string) returns (t: Option<Task>, err: Option<Error>)
      requires Valid()
      requires ready && !interrupted ==> slots.free > 0
      modifies this, slots
      ensures Valid() && ready == old(ready)
      ensures !old(ready) ==> t == None && err == None && tasks == old(tasks) && slots.free == old(slots.free)
      ensures old(ready) && interrupted ==>
        t == None && err == Some(OSError) && tasks == old(tasks) && slots.free == old(slots.free)
      ensures old(ready) && !interrupted && forked.Err? ==>
        t == None && err == Some(forked.error) && tasks == old(tasks) && slots.free == old(slots.free) - 1
      ensures old(ready) && !interrupted && forked.Ok? ==>
        && err == None && t.Some? && fresh(t.value)
        && t.value.status == RUNNING && t.value.exitcode == None && t.value.id == generatedId
        && forked.value in tasks && tasks == old(tasks)[forked.value := tasks[forked.value]]
        && tasks[forked.value].task == t.value
        && fresh(tasks[forked.value].process) && tasks[forked.value].process.pid == Some(forked.value)
        && tasks[forked.value].process.exitcode == None
        && !tasks[forked.value].process.joinRequested && !tasks[forked.value].process.terminateRequested
        && slots.free == old(slots.free) - 1
      ensures old(Balanced()) && !(old(ready) && !interrupted && forked.Err?) && (forked.Ok? ==> forked.value !in old(tasks)) ==>
        Balanced()
      ensures old(Balanced()) && old(ready) && !interrupted && forked.Err? ==>
        slots.free + |tasks| == slots.size - 1
    {
      if !ready {
        return None, None;
      }
      err := slots.Acquire(interrupted);
      if err.Some? {
        return None, err;
      }
      var process := new Worker();
      err := process.Start(forked);
      if err.Some? {
        return None, err;
      }
      var task := new Task.WithStatus(generatedId, RUNNING);
      tasks := tasks[forked.value := Entry(task, process)];
      t := Some(task);
    }

    /**
     * `close`: the pool stops accepting work, then every process tracked at
     * that moment is joined; the tracked set is a snapshot, so entries the
     * exit handler removes meanwhile do not disturb the loop.
     */
    method Close()
      requires Valid()
      modifies this, Workers()
      ensures Valid() && !ready && tasks == old(tasks)
      ensures forall w | w in old(Workers()) ::
        w.joinRequested && w.terminateRequested == old(w.terminateRequested) && w.pid == old(w.pid) && w.exitcode == old(w.exitcode)
    {
      ready := false;
      var pending := Workers();
      ghost var snapshot := pending;
      while pending != {}
        invariant pending <= snapshot && snapshot == Workers()
        invariant forall w | w in snapshot - pending :: w.joinRequested
        invariant forall w | w in snapshot ::
          w.terminateRequested == old(w.terminateRequested) && w.pid == old(w.pid) && w.exitcode == old(w.exitcode)
        invariant !ready && tasks == old(tasks)
        decreases pending
      {
        var w :| w in pending;
        w.Join();
        pending := pending - {w};
      }
    }

    /** `terminate`: the pool stops accepting work, then every process tracked at that moment is told to stop. */
    method Terminate()
      requires Valid()
      modifies this, Workers()
      ensures Valid() && !ready && tasks == old(tasks)
      ensures forall w | w in old(Workers()) ::
        w.terminateRequested && w.joinRequested == old(w.joinRequested) && w.pid == old(w.pid) && w.exitcode == old(w.exitcode)
    {
      ready := false;
      var pending := Workers();
      ghost var snapshot := pending;
      while pending != {}
        invariant pending <= snapshot && snapshot == Workers()
        invariant forall w | w in snapshot - pending :: w.terminateRequested
        invariant forall w | w in snapshot ::
          w.joinRequested == old(w.joinRequested) && w.pid == old(w.pid) && w.exitcode == old(w.exitcode)
        invariant !ready && tasks == old(tasks)
        decreases pending
      {
        var w :| w in pending;
        w.Terminate();
        pending := pending - {w};
      }
    }

    /**
     * `on_process_exit(pid)`: always gives a slot back first; when that
     * fails (ValueError past capacity, OSError from the semaphore) nothing
     * else happens. Then a tracked pid's task is marked FINISHED, gets its
     * process's exit code, and leaves `_tasks`.
     */
    method OnProcessExit(pid: Option<int>, postFails: bool) returns (err: Option<Error>)
      requires Valid()
      modifies this, slots, TrackedTask(pid)
      ensures Valid() && ready == old(ready)
      ensures old(slots.free) + 1 > slots.size ==>
        err == Some(ValueError) && tasks == old(tasks) && slots.free == old(slots.free)
      ensures old(slots.free) + 1 <= slots.size && postFails ==>
        err == Some(OSError) && tasks == old(tasks) && slots.free == old(slots.free)
      ensures err.Some? && pid.Some? && pid.value in old(tasks) ==>
        var task := old(tasks[pid.value].task);
        task.status == old(task.status) && task.exitcode == old(task.exitcode)
      ensures old(slots.free) + 1 <= slots.size && !postFails ==>
        && err == None && slots.free == old(slots.free) + 1
        && (pid.Some? && pid.value in old(tasks) ==>
              && tasks == old(tasks) - {pid.value}
              && old(tasks)[pid.value].task.status == FINISHED
              && old(tasks)[pid.value].task.exitcode == old(tasks[pid.value].process.exitcode))
        && (pid.None? || pid.value !in old(tasks) ==> tasks == old(tasks))
      ensures old(Balanced()) && pid.Some? && pid.value in old(tasks) && !postFails ==> err == None && Balanced()
    {
      err := slots.Release(postFails);
      if err.Some? {
        return;
      }
      if pid.Some? && pid.value in tasks {
        var entry := tasks[pid.value];
        var _ := entry.task.SetStatus(FINISHED);
        entry.task.exitcode := entry.process.exitcode;
        tasks := tasks - {pid.value};
      }
    }
  }

  /**
   * One-slot pool scenario: executing takes the slot and tracks a RUNNING
   * task; when the child exits with 3 and the pool is notified, the slot is
   * free again, nothing is tracked and the task is FINISHED with code 3.
   * After `close`, `execute` returns nothing and takes no slot.
   */
  method PoolScenario() returns (
      freeWhileRunning: int, statusWhileRunning: string,
      freeAfterExit: int, trackedAfterExit: nat, statusAfterExit: string, exitcode: Option<int>,
      afterClose: Option<Task>, freeAfterClose: int)
    ensures freeWhileRunning == 0 && statusWhileRunning == RUNNING
    ensures freeAfterExit == 1 && trackedAfterExit == 0 && statusAfterExit == FINISHED && exitcode == Some(3)
    ensures afterClose == None && freeAfterClose == 1
  {
    var pool := new ProcessPool(Some(1), 8);
    var t, _ := pool.Execute(false, Ok(4242), "a1");
    var task := t.value;
    freeWhileRunning := pool.slots.free;
    statusWhileRunning := task.status;

    var process := pool.tasks[4242].process;
    process.Exited(3);
    var _ := pool.OnProcessExit(process.pid, false);
    freeAfterExit := pool.slots.free;
    trackedAfterExit := |pool.tasks|;
    statusAfterExit := task.status;
    exitcode := task.exitcode;

    pool.Close();
    var closedErr;
    afterClose, closedErr := pool.Execute(false, Ok(4343), "b2");
    freeAfterClose := pool.slots.free;
  }

  /**
   * `terminate` on a pool with one running task: once the stopped child's
   * exit reaches the pool, nothing is tracked and every slot is free.
   */
  method TerminateScenario() returns (stopRequested: bool, tracked: nat, free: int, size: nat)
    ensures stopRequested && tracked == 0 && free == size && size == 1
  {
    var pool := new ProcessPool(Some(1), 8);
    var _, _ := pool.Execute(false, Ok(4242), "a1");
    var process := pool.tasks[4242].process;
    pool.Terminate();
    stopRequested := process.terminateRequested;
    process.Exited(1);
    var _ := pool.OnProcessExit(process.pid, false);
    tracked := |pool.tasks|;
    free := pool.slots.free;
    size := pool.slots.size;
  }

  /**
   * A one-slot pool whose fork fails: the error reaches the caller, no task
   * is tracked, and the slot stays taken, so every later `execute` blocks.
   */
  method ForkFailureKeepsSlot() returns (err: Option<Error>, tracked: nat, free: int)
    ensures err == Some(OSError) && tracked == 0 && free == 0
  {
    var pool := new ProcessPool(Some(1), 8);
    var t;
    t, err := pool.Execute(false, Err(OSError), "a1");
    tracked := |pool.tasks|;
    free := pool.slots.free;
  }
}
