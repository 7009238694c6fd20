/**
 * The controller-side process handle (pkit/process.py). Forking, waiting and
 * signalling belong to the OS: their results (the forked pid, a `waitpid`
 * result, a `poll` result, the caller's pid) are inputs, and a SIGTERM sent
 * is recorded in a ghost log.
 */
module Processes {
  import opened Wrappers

  const JOIN_RESTART_POLICY := 0
  const TERMINATE_RESTART_POLICY := 1

  /** What `_current` refers to: the interpreter's main process, or this Process object. */
  datatype Context = MainProcess | ThisProcess

  /** The `ProcessOpen` handle: the forked child's pid and the last return code observed for it. */
  datatype ChildHandle = ChildHandle(pid: int, returncode: Option<int>)

  /**
   * A value that an exception carries as its first argument, as far as
   * `create` tells them apart. `IntArg` is a Python 2 `int`, a C long; a
   * wider `long` fails the `int` test and is an `OtherArg`.
   */
  datatype Arg = IntArg(i: int) | StrArg(s: string) | OtherArg

  datatype ExceptionClass = SystemErrorClass | SystemExitClass | OtherClass

  /** How the target ended inside the child. */
  datatype RunOutcome = Returned | Raised(cls: ExceptionClass, args: seq<Arg>)

  /** The return code an exception's arguments stand for: none is 1, an int is itself, a str is 0, anything else 1. */
  function ArgsReturnCode(args: seq<Arg>): (code: int)
  {
    if args == [] then 1
    else match args[0]
      case IntArg(i) => i
      case StrArg(_) => 0
      case OtherArg => 1
  }

  /** `create`'s return code, as written: only SystemError has its arguments read. */
  function CreateReturnCode(o: RunOutcome): (code: int)
  {
    match o
    case Returned => 0
    case Raised(SystemErrorClass, args) => ArgsReturnCode(args)
    case Raised(_, _) => 1
  }

  /** `create`'s return code as its comment describes it: SystemExit is the exception whose arguments are read. */
  function IntendedReturnCode(o: RunOutcome): (code: int)
  {
    match o
    case Returned => 0
    case Raised(SystemExitClass, args) => ArgsReturnCode(args)
    case Raised(_, _) => 1
  }

  /**
   * The child exits with 0 exactly when the target returned, or raised
   * SystemError whose first argument is 0 or a str; in particular any other
   * exception, SystemExit included, exits with 1.
   */
  lemma CreateReturnCodeZeroIff(o: RunOutcome)
    ensures CreateReturnCode(o) == 0 <==>
      o.Returned? ||
      (o.cls == SystemErrorClass && |o.args| > 0 && (o.args[0] == IntArg(0) || o.args[0].StrArg?))
    ensures o.Raised? && o.cls != SystemErrorClass ==> CreateReturnCode(o) == 1
  {
  }

  /** The child of `sys.exit(3)` exits with 1 as written, where 3 is meant. */
  lemma SystemExitCodeLost()
    ensures CreateReturnCode(Raised(SystemExitClass, [IntArg(3)])) == 1
    ensures IntendedReturnCode(Raised(SystemExitClass, [IntArg(3)])) == 3
  {
  }

  /** The intended mapping keeps the integer a SystemExit carries and agrees with the code on every other outcome but SystemError. */
  lemma IntendedReturnCodeKeepsExitArgument(o: RunOutcome)
    ensures o.Raised? && o.cls == SystemExitClass && |o.args| > 0 && o.args[0].IntArg? ==>
      IntendedReturnCode(o) == o.args[0].i
    ensures o.Returned? || o.cls == OtherClass ==> IntendedReturnCode(o) == CreateReturnCode(o)
  {
  }

  /** The wait status the kernel reports for a child that called `_exit(code)`: the low byte of the code, shifted by 8. */
  function ExitWaitStatus(code: int): (status: nat)
  {
    (code % 256) * 256
  }

  /** `os.WEXITSTATUS`: bits 8 to 15 of a wait status. */
  function WExitStatus(status: int): (code: nat)
    ensures code < 256
  {
    (status / 256) % 256
  }

  /** A value `os._exit` accepts: its argument is converted to a C `int`, and anything wider raises OverflowError. */
  predicate FitsCInt(code: int)
  {
    -0x8000_0000 <= code < 0x8000_0000
  }

  /**
   * The exit code the parent reads back is the child's return code taken
   * modulo 256, for a return code that `os._exit` accepts.
   */
  lemma {:induction false} ObservedExitCode(o: RunOutcome)
    requires FitsCInt(CreateReturnCode(o))
    ensures WExitStatus(ExitWaitStatus(CreateReturnCode(o))) == CreateReturnCode(o) % 256
  {
    var c := CreateReturnCode(o) % 256;
    assert ExitWaitStatus(CreateReturnCode(o)) / 256 == c;
  }

  class Process {
    /** `_parent_pid`: the pid of the process that constructed this object. */
    const parentPid: int
    /** `_child`: the handle of the forked child, absent before start and after clean. */
    var child: Option<ChildHandle>
    var current: Context
    /** `_exitcode`, set only by the SIGCHLD handler. */
    var exitcode: Option<int>
    /** The pids SIGTERM has been sent to. */
    ghost var sigtermsSent: seq<int>

    constructor (callerPid: int)
      ensures parentPid == callerPid && child == None && current == MainProcess && exitcode == None
      ensures sigtermsSent == []
    {
      parentPid := callerPid;
      child := None;
      current := MainProcess;
      exitcode := None;
      sigtermsSent := [];
    }

    /** The `pid` property: the child's pid, None without a child. */
    function Pid(): (pid: Option<int>)
      reads this
    {
      if child.None? then None else Some(child.value.pid)
    }

    /**
     * Forks a child. Refused with RuntimeError from any process but the
     * constructing one, or when a child is already set; a failing fork
     * raises its OSError before anything is recorded.
     */
    method Start(callerPid: int, forked: Result<int>) returns (err: Option<Error>)
      modifies this
      ensures callerPid != parentPid ==> err == Some(RuntimeError) && unchanged(this)
      ensures callerPid == parentPid && old(child).Some? ==> err == Some(RuntimeError) && unchanged(this)
      ensures callerPid == parentPid && old(child).None? && forked.Err? ==>
        err == Some(forked.error) && unchanged(this)
      ensures callerPid == parentPid && old(child).None? && forked.Ok? ==>
        && err == None
        && child == Some(ChildHandle(forked.value, None))
        && current == ThisProcess
        && exitcode == old(exitcode) && sigtermsSent == old(sigtermsSent)
    {
      if callerPid != parentPid {
        return Some(RuntimeError);
      }
      if child.Some? {
        return Some(RuntimeError);
      }
      if forked.Err? {
        return Some(forked.error);
      }
      child := Some(ChildHandle(forked.value, None));
      current := ThisProcess;
      err := None;
    }

    /** `clean`: forgets the child and points `_current` back at the main process. */
    method Clean()
      modifies this
      ensures child == None && current == MainProcess
      ensures Pid() == None
      ensures exitcode == old(exitcode) && sigtermsSent == old(sigtermsSent)
    {
      current := MainProcess;
      if child.Some? {
        child := None;
      }
    }

    /**
     * Waits for the child through `ProcessOpen.wait`, which cleans the
     * handle whether or not the wait saw the child exit; the return code it
     * collects is dropped with the handle.
     */
    method Join() returns (err: Option<Error>)
      modifies this
      ensures old(child).None? ==> err == Some(RuntimeError) && unchanged(this)
      ensures old(child).Some? ==>
        && err == None && child == None && current == MainProcess
        && exitcode == old(exitcode) && sigtermsSent == old(sigtermsSent)
    {
      if child.None? {
        return Some(RuntimeError);
      }
      Clean();
      err := None;
    }

    /**
     * Stops the child. `Popen.terminate` sends SIGTERM only while no return
     * code is known, and returns nothing, which `ProcessOpen.terminate`
     * stores as the handle's return code.
     */
    method Terminate() returns (err: Option<Error>)
      modifies this
      ensures old(child).None? ==> err == Some(RuntimeError) && unchanged(this)
      ensures old(child).Some? ==>
        && err == None
        && child == Some(old(child).value.(returncode := None))
        && sigtermsSent == old(sigtermsSent) + (if old(child).value.returncode.None? then [old(child).value.pid] else [])
        && current == old(current) && exitcode == old(exitcode)
    {
      if child.None? {
        return Some(RuntimeError);
      }
      if child.value.returncode.None? {
        sigtermsSent := sigtermsSent + [child.value.pid];
      }
      child := Some(child.value.(returncode := None));
      err := None;
    }

    /**
     * `terminate` as intended: the SIGTERM is sent under the same condition,
     * and a return code already observed for the child is kept.
     */
    method TerminateKeepingReturnCode() returns (err: Option<Error>)
      modifies this
      ensures old(child).None? ==> err == Some(RuntimeError) && unchanged(this)
      ensures old(child).Some? ==>
        && err == None
        && child == old(child)
        && sigtermsSent == old(sigtermsSent) + (if old(child).value.returncode.None? then [old(child).value.pid] else [])
        && current == old(current) && exitcode == old(exitcode)
    {
      if child.None? {
        return Some(RuntimeError);
      }
      if child.value.returncode.None? {
        sigtermsSent := sigtermsSent + [child.value.pid];
      }
      err := None;
    }

    /**
     * `restart(policy)`: an unknown policy is a ValueError; the terminate
     * policy names an undefined constant and fails with NameError; the join
     * policy joins, then starts again.
     */
    method Restart(policy: int, callerPid: int, forked: Result<int>) returns (err: Option<Error>)
      modifies this
      ensures policy != JOIN_RESTART_POLICY && policy != TERMINATE_RESTART_POLICY ==>
        err == Some(ValueError) && unchanged(this)
      ensures policy == TERMINATE_RESTART_POLICY ==> err == Some(NameError) && unchanged(this)
      ensures policy == JOIN_RESTART_POLICY && old(child).None? ==> err == Some(RuntimeError) && unchanged(this)
      ensures policy == JOIN_RESTART_POLICY && old(child).Some? ==>
        && exitcode == old(exitcode) && sigtermsSent == old(sigtermsSent)
        && (callerPid != parentPid ==> err == Some(RuntimeError) && child == None && current == MainProcess)
        && (callerPid == parentPid && forked.Err? ==> err == Some(forked.error) && child == None && current == MainProcess)
        && (callerPid == parentPid && forked.Ok? ==>
              err == None && child == Some(ChildHandle(forked.value, None)) && current == ThisProcess)
    {
      if policy != JOIN_RESTART_POLICY && policy != TERMINATE_RESTART_POLICY {
        return Some(ValueError);
      }
      if policy == JOIN_RESTART_POLICY {
        err := Join();
        if err.Some? {
          return;
        }
      } else {
        return Some(NameError);
      }
      err := Start(callerPid, forked);
    }

    /**
     * The `is_alive` property. Without a child, or with a falsy pid, it is
     * false; otherwise `poll` records the return code it reaps (`polled`)
     * unless one is already known, and the child is alive while none is.
     */
    method IsAlive(polled: Option<int>) returns (alive: bool)
      modifies this
      ensures old(child).None? || old(child).value.pid == 0 ==> !alive && unchanged(this)
      ensures old(child).Some? && old(child).value.pid != 0 ==>
        && var known := old(child).value.returncode;
        && child == Some(old(child).value.(returncode := if known.Some? then known else polled))
        && (alive <==> known.None? && polled.None?)
        && current == old(current) && exitcode == old(exitcode) && sigtermsSent == old(sigtermsSent)
    {
      if child.None? || child.value.pid == 0 {
        return false;
      }
      if child.value.returncode.None? {
        child := Some(child.value.(returncode := polled));
      }
      alive := child.value.returncode.None?;
    }

    /**
     * The SIGCHLD handler, as written: with a child of nonzero pid it calls
     * `waitpid(pid, WNOHANG)` and, whatever pair comes back, records the
     * decoded status and cleans. An OSError from `waitpid` escapes.
     */
    method OnSigchld(waited: Result<(int, int)>) returns (err: Option<Error>)
      modifies this
      ensures old(child).None? || old(child).value.pid == 0 ==> err == None && unchanged(this)
      ensures old(child).Some? && old(child).value.pid != 0 && waited.Err? ==>
        err == Some(waited.error) && unchanged(this)
      ensures old(child).Some? && old(child).value.pid != 0 && waited.Ok? ==>
        && err == None
        && exitcode == Some(WExitStatus(waited.value.1))
        && child == None && current == MainProcess && sigtermsSent == old(sigtermsSent)
    {
      if child.Some? && child.value.pid != 0 {
        if waited.Err? {
          return Some(waited.error);
        }
        exitcode := Some(WExitStatus(waited.value.1));
        Clean();
      }
      err := None;
    }

    /**
     * The SIGCHLD handler as intended: the child is recorded as exited only
     * when `waitpid` reports that very pid; a `(0, 0)` answer (the child has
     * not changed state) leaves everything as it was.
     */
    method OnSigchldReaped(waited: Result<(int, int)>) returns (err: Option<Error>)
      modifies this
      ensures old(child).None? || old(child).value.pid == 0 ==> err == None && unchanged(this)
      ensures old(child).Some? && old(child).value.pid != 0 && waited.Err? ==>
        err == Some(waited.error) && unchanged(this)
      ensures old(child).Some? && old(child).value.pid != 0 && waited.Ok? && waited.value.0 != old(child).value.pid ==>
        err == None && unchanged(this)
      ensures old(child).Some? && old(child).value.pid != 0 && waited.Ok? && waited.value.0 == old(child).value.pid ==>
        && err == None
        && exitcode == Some(WExitStatus(waited.value.1))
        && child == None && current == MainProcess && sigtermsSent == old(sigtermsSent)
    {
      if child.Some? && child.value.pid != 0 {
        if waited.Err? {
          return Some(waited.error);
        }
        if waited.value.0 == child.value.pid {
          exitcode := Some(WExitStatus(waited.value.1));
          Clean();
        }
      }
      err := None;
    }
  }

  /**
   * Lifecycle of one handle: start from the constructing pid, a second start
   * refused, join clears the handle, then start works again; start from
   * another pid and join or terminate without a child are refused.
   */
  method LifecycleScenario() returns (
      wrongPid: Option<Error>, first: Option<Error>, second: Option<Error>,
      joined: Option<Error>, again: Option<Error>, pidAfterJoin: Option<int>,
      joinUnstarted: Option<Error>, terminateUnstarted: Option<Error>, badPolicy: Option<Error>)
    ensures wrongPid == Some(RuntimeError)
    ensures first == None && second == Some(RuntimeError)
    ensures joined == None && pidAfterJoin == None && again == None
    ensures joinUnstarted == Some(RuntimeError) && terminateUnstarted == Some(RuntimeError)
    ensures badPolicy == Some(ValueError)
  {
    var p := new Process(100);
    wrongPid := p.Start(4242, Ok(200));
    first := p.Start(100, Ok(200));
    second := p.Start(100, Ok(201));
    joined := p.Join();
    pidAfterJoin := p.Pid();
    again := p.Start(100, Ok(202));

    var q := new Process(100);
    joinUnstarted := q.Join();
    terminateUnstarted := q.Terminate();
    badPolicy := q.Restart(2, 100, Ok(300));
  }

  /**
   * A SIGCHLD that arrives while this process's child is still running (it
   * may come from another child) makes `waitpid(pid, WNOHANG)` answer
   * `(0, 0)`: as written the handler records exit code 0 and forgets the
   * running child; the intended handler keeps it.
   */
  method SigchldForRunningChild() returns (forgotten: bool, recorded: Option<int>, keptWhenChecked: bool)
    ensures forgotten && recorded == Some(0)
    ensures keptWhenChecked
  {
    var p := new Process(100);
    var _ := p.Start(100, Ok(4242));
    var _ := p.OnSigchld(Ok((0, 0)));
    forgotten := p.child.None?;
    recorded := p.exitcode;

    var q := new Process(100);
    var _ := q.Start(100, Ok(4242));
    var _ := q.OnSigchldReaped(Ok((0, 0)));
    keptWhenChecked := q.child == Some(ChildHandle(4242, None));
  }

  /**
   * After `is_alive` has reaped the child (false, return code 0),
   * `terminate` overwrites that return code with None; the next `is_alive`
   * polls an already reaped pid, which yields nothing, and reports the dead
   * child alive. Keeping the return code keeps the answer false.
   */
  method TerminateForgetsReturnCode() returns (aliveBefore: bool, aliveAfter: bool, aliveAfterKept: bool)
    ensures !aliveBefore && aliveAfter
    ensures !aliveAfterKept
  {
    var p := new Process(100);
    var _ := p.Start(100, Ok(4242));
    aliveBefore := p.IsAlive(Some(0));
    var _ := p.Terminate();
    aliveAfter := p.IsAlive(None);

    var q := new Process(100);
    var _ := q.Start(100, Ok(4242));
    var _ := q.IsAlive(Some(0));
    var _ := q.TerminateKeepingReturnCode();
    aliveAfterKept := q.IsAlive(None);
  }
}
