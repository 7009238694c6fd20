/**
 * The process-wide signal dispatcher (pkit/signals/base.py): a map from
 * signal number to an ordered list of handlers, held here by one object in
 * place of the module globals. Installing the OS-level handler is recorded
 * in the set `installed`, and an OS refusal to install it (SIGKILL,
 * SIGSTOP, 0) is an input; a delivery returns the handlers it called.
 */
module SignalBase {
  import opened Wrappers
  import opened Lists
  import SignalRegistry

  /** What can be passed as a handler: a plain callable, a keyed registry, or something not callable. */
  datatype Handler =
    | Callback(id: nat)
    | Registry(registry: SignalRegistry.HandlerRegistry)
    | NotCallable(id: nat)
  {
    predicate Callable() { !NotCallable? }
  }

  class SignalDispatcher {
    /** `SIGNAL_NUMBERS`: the values of the `SIG*` names of the `signal` module. */
    const signalNumbers: set<int>
    /** `SIGNAL_HANDLERS`: a `defaultdict(list)` from signal number to handlers. */
    var handlers: map<int, seq<Handler>>
    /** The signal numbers whose OS-level handler has been installed. */
    var installed: set<int>

    /**
     * Only signal numbers get installed, and only once they are keys; every
     * stored handler is callable, and only signal numbers hold any.
     */
    ghost predicate Valid()
      reads this
    {
      && installed <= handlers.Keys
      && installed <= signalNumbers
      && (forall s | s in handlers :: handlers[s] != [] ==> s in signalNumbers)
      && (forall s, i | s in handlers && 0 <= i < |handlers[s]| :: handlers[s][i].Callable())
    }

    constructor (signalNumbers: set<int>)
      ensures Valid()
      ensures this.signalNumbers == signalNumbers && handlers == map[] && installed == {}
    {
      this.signalNumbers := signalNumbers;
      handlers := map[];
      installed := {};
    }

    /**
     * `register(signum, handler)`: ValueError for an unknown signal number,
     * then TypeError for a handler that is not callable. A number that is
     * not yet a key gets its OS-level handler installed first; when the OS
     * refuses (`installError`) that error escapes and nothing is recorded.
     * Otherwise the handler goes last in that number's list.
     */
    method Register(signum: int, h: Handler, installError: Option<Error>) returns (err: Option<Error>)
      requires Valid()
      modifies this
      ensures Valid()
      ensures signum !in signalNumbers ==>
        err == Some(ValueError) && handlers == old(handlers) && installed == old(installed)
      ensures signum in signalNumbers && !h.Callable() ==>
        err == Some(TypeError) && handlers == old(handlers) && installed == old(installed)
      ensures signum in signalNumbers && h.Callable() && signum !in old(handlers) && installError.Some? ==>
        err == installError && handlers == old(handlers) && installed == old(installed)
      ensures signum in signalNumbers && h.Callable() && (signum in old(handlers) || installError.None?) ==>
        && err == None
        && handlers == Appended(old(handlers), signum, h)
        && installed == old(installed) + (if signum in old(handlers) then {} else {signum})
    {
      if signum !in signalNumbers {
        return Some(ValueError);
      }
      if !h.Callable() {
        return Some(TypeError);
      }
      if signum !in handlers {
        if installError.Some? {
          return installError;
        }
        installed := installed + {signum};
      }
      handlers := Appended(handlers, signum, h);
      err := None;
    }

    /**
     * `unregister(signum, handler)`: LookupError when the number is not a
     * key or the handler is not in its list; otherwise the first occurrence
     * is removed and the key stays, even with an empty list.
     */
    method Unregister(signum: int, h: Handler) returns (err: Option<Error>)
      requires Valid()
      modifies this
      ensures Valid() && installed == old(installed)
      ensures signum !in old(handlers) ==> err == Some(LookupError) && handlers == old(handlers)
      ensures signum in old(handlers) && h !in old(handlers)[signum] ==>
        err == Some(LookupError) && handlers == old(handlers)
      ensures signum in old(handlers) && h in old(handlers)[signum] ==>
        err == None && handlers == Removed(old(handlers), signum, h) && signum in handlers
    {
      if signum !in handlers {
        return Some(LookupError);
      }
      if h !in handlers[signum] {
        return Some(LookupError);
      }
      var before := handlers[signum];
      handlers := Removed(handlers, signum, h);
      forall i | 0 <= i < |handlers[signum]| ensures handlers[signum][i].Callable() {
        var j := FirstIndex(before, h);
        if i < j {
          assert handlers[signum][i] == before[i];
        } else {
          assert handlers[signum][i] == before[i + 1];
        }
      }
      err := None;
    }

    /**
     * `call_signal_handler(signum)` as delivered: calls every handler of the
     * number in list order. Reading the list of a number never registered
     * leaves an empty list under it.
     */
    method Dispatch(signum: int) returns (invoked: seq<Handler>)
      requires Valid()
      modifies this
      ensures Valid() && installed == old(installed)
      ensures invoked == Lookup(old(handlers), signum)
      ensures handlers == Touched(old(handlers), signum)
    {
      handlers := Touched(handlers, signum);
      var list := handlers[signum];
      invoked := [];
      var i := 0;
      while i < |list|
        invariant 0 <= i <= |list|
        invariant invoked == list[..i]
      {
        invoked := invoked + [list[i]];
        i := i + 1;
      }
    }
  }

  /**
   * Two handlers registered under SIGTERM both run, in registration order;
   * after unregistering the first only the second runs. Bad arguments are
   * refused in the documented order, and SIGKILL, whose handler the OS
   * refuses to install, gets no key and no handler.
   */
  method TwoHandlersScenario() returns (
      both: seq<Handler>, remaining: seq<Handler>, badSignal: Option<Error>, badHandler: Option<Error>,
      unknownSignal: Option<Error>, unknownHandler: Option<Error>, refusedByOs: Option<Error>, sigkillKept: bool)
    ensures refusedByOs == Some(RuntimeError) && !sigkillKept
    ensures both == [Callback(1), Callback(2)]
    ensures remaining == [Callback(2)]
    ensures badSignal == Some(ValueError) && badHandler == Some(TypeError)
    ensures unknownSignal == Some(LookupError) && unknownHandler == Some(LookupError)
  {
    var sigkill, sigterm, sigchld := 9, 15, 17;
    var d := new SignalDispatcher({sigkill, sigterm, sigchld});
    refusedByOs := d.Register(sigkill, Callback(1), Some(RuntimeError));
    sigkillKept := sigkill in d.handlers || sigkill in d.installed;
    badSignal := d.Register(-1, Callback(1), None);
    badHandler := d.Register(sigterm, NotCallable(1), None);
    unknownSignal := d.Unregister(sigchld, Callback(1));

    assert d.handlers == map[];
    var _ := d.Register(sigterm, Callback(1), None);
    assert Lookup(map[], sigterm) + [Callback(1)] == [Callback(1)];
    assert d.handlers == map[sigterm := [Callback(1)]];
    var _ := d.Register(sigterm, Callback(2), Some(RuntimeError));
    assert d.handlers[sigterm] == [Callback(1), Callback(2)];
    unknownHandler := d.Unregister(sigterm, Callback(3));
    both := d.Dispatch(sigterm);

    var _ := d.Unregister(sigterm, Callback(1));
    assert FirstIndex([Callback(1), Callback(2)], Callback(1)) == 0;
    remaining := d.Dispatch(sigterm);
  }

  /**
   * Once its last handler is unregistered a number keeps an empty list, so
   * registering again appends without installing anything new.
   */
  method ReregisterScenario() returns (emptied: seq<Handler>, installedOnce: bool)
    ensures emptied == []
    ensures installedOnce
  {
    var d := new SignalDispatcher({15});
    var _ := d.Register(15, Callback(1), None);
    assert Lookup(map[], 15) + [Callback(1)] == [Callback(1)];
    var _ := d.Unregister(15, Callback(1));
    assert FirstIndex([Callback(1)], Callback(1)) == 0;
    emptied := d.handlers[15];
    var installedBefore := d.installed;
    var _ := d.Register(15, Callback(2), Some(RuntimeError));
    installedOnce := 15 in d.installed && d.installed == installedBefore;
  }
}
