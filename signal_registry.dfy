/**
 * The keyed handler registry (pkit/signals/registry.py). The repository
 * builds it with one pair of key functions (pkit/signals/process.py): an
 * object is filed under its `pid` property, and a delivery is routed by the
 * pid `os.wait` reaps, None when the wait fails. That reaped pid is an input
 * of `Call`. Callbacks are opaque ids; `Call` returns the ids it invoked.
 */
module SignalRegistry {
  import opened Wrappers
  import opened Lists
  import Processes

  /** A process's pid, or None for a process without a child. */
  type Key = Option<int>

  type CallbackId = nat

  /** `insert_with`: the key a process is filed under, its `pid` at the time of the call. */
  function InsertWith(process: Processes.Process): (key: Key)
    reads process
  {
    process.Pid()
  }

  class HandlerRegistry {
    /** `_handlers`: a `defaultdict(list)` from key to callbacks, in registration order. */
    var handlers: map<Key, seq<CallbackId>>

    constructor ()
      ensures handlers == map[]
    {
      handlers := map[];
    }

    /** Files `callback` last under the process's key; duplicates are kept, other keys untouched. */
    method Register(process: Processes.Process, callback: CallbackId)
      modifies this
      ensures handlers == Appended(old(handlers), InsertWith(process), callback)
    {
      var key := InsertWith(process);
      handlers := Appended(handlers, key, callback);
    }

    /**
     * Removes the first occurrence of `callback` under the process's key.
     * When it is not there, `list.remove` raises ValueError, after the
     * subscript has left an empty list under a key never registered.
     */
    method Unregister(process: Processes.Process, callback: CallbackId) returns (err: Option<Error>)
      modifies this
      ensures var key := InsertWith(process);
        && (callback in Lookup(old(handlers), key) ==> err == None && handlers == Removed(old(handlers), key, callback))
        && (callback !in Lookup(old(handlers), key) ==> err == Some(ValueError) && handlers == Touched(old(handlers), key))
    {
      var key := InsertWith(process);
      handlers := Touched(handlers, key);
      if callback !in handlers[key] {
        return Some(ValueError);
      }
      handlers := Removed(handlers, key, callback);
      err := None;
    }

    /**
     * `__call__`: invokes, in order, exactly the callbacks filed under the
     * extracted key, none under any other key.
     */
    method Call(extracted: Key) returns (invoked: seq<CallbackId>)
      modifies this
      ensures invoked == Lookup(old(handlers), extracted)
      ensures handlers == Touched(old(handlers), extracted)
    {
      handlers := Touched(handlers, extracted);
      var selected := handlers[extracted];
      invoked := [];
      var i := 0;
      while i < |selected|
        invariant 0 <= i <= |selected|
        invariant invoked == selected[..i]
      {
        invoked := invoked + [selected[i]];
        i := i + 1;
      }
    }
  }

  /**
   * The keyed-dispatch scenario: two processes with children 42 and 1234,
   * one callback each; a delivery for 42 runs only the first, one for 1234
   * only the second, and a failed wait (key None) runs nothing.
   */
  method KeyedDispatchScenario() returns (for42: seq<CallbackId>, for1234: seq<CallbackId>, forNone: seq<CallbackId>)
    ensures for42 == [1] && for1234 == [2] && forNone == []
  {
    var p1 := new Processes.Process(10);
    var _ := p1.Start(10, Ok(42));
    var p2 := new Processes.Process(10);
    var _ := p2.Start(10, Ok(1234));
    assert InsertWith(p1) == Some(42) && InsertWith(p2) == Some(1234);

    var registry := new HandlerRegistry();
    registry.Register(p1, 1);
    assert Lookup(map[], Some(42)) + [1] == [1];
    registry.Register(p2, 2);
    assert Lookup(registry.handlers, Some(42)) == [1];
    for42 := registry.Call(Some(42));
    assert Lookup(registry.handlers, Some(1234)) == [2];
    for1234 := registry.Call(Some(1234));
    assert None !in registry.handlers;
    forNone := registry.Call(None);
  }

  /**
   * Registering a callback for a process and unregistering it again gives
   * back the lists as they were (the key stays, with an empty list if it was
   * new), provided the callback was not already filed under that key.
   */
  method RegisterThenUnregister(registry: HandlerRegistry, process: Processes.Process, callback: CallbackId)
    returns (err: Option<Error>)
    requires callback !in Lookup(registry.handlers, InsertWith(process))
    modifies registry
    ensures err == None
    ensures registry.handlers == Touched(old(registry.handlers), InsertWith(process))
  {
    ghost var before := registry.handlers;
    registry.Register(process, callback);
    err := registry.Unregister(process, callback);
    UnregisterUndoesRegister(before, InsertWith(process), callback);
  }
}
