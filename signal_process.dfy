/**
 * Child-exit notification glue (pkit/signals/process.py): finds, or creates
 * and registers, the one keyed registry that fans a signal out by pid, and
 * files per-process callbacks in it.
 */
module SignalProcess {
  import opened Wrappers
  import opened Lists
  import Processes
  import opened SignalRegistry
  import opened SignalBase

  /** Position of the first keyed registry in a handler list, `|hs|` when there is none. */
  function FirstRegistryIndex(hs: seq<Handler>): (i: nat)
    ensures i <= |hs|
    ensures i < |hs| ==> hs[i].Registry?
    ensures forall j :: 0 <= j < i ==> !hs[j].Registry?
  {
    if hs == [] then 0
    else if hs[0].Registry? then 0
    else 1 + FirstRegistryIndex(hs[1..])
  }

  /**
   * `get_registry_handler(signum, handlers)`: None when the number is not a
   * key; otherwise the first keyed registry in its list, plain handlers
   * skipped. When the list holds none, the loop never binds its result and
   * the lookup fails with UnboundLocalError.
   */
  function GetRegistryHandler(signum: int, handlers: map<int, seq<Handler>>): (r: Result<Option<HandlerRegistry>>)
    ensures r == Ok(None) <==> signum !in handlers
    ensures r.Err? <==> signum in handlers && forall j :: 0 <= j < |handlers[signum]| ==> !handlers[signum][j].Registry?
    ensures r.Err? ==> r.error == UnboundLocalError
    ensures r.Ok? && r.value.Some? ==>
      exists i :: 0 <= i < |handlers[signum]| && handlers[signum][i] == Registry(r.value.value) &&
        forall j :: 0 <= j < i ==> !handlers[signum][j].Registry?
  {
    if signum !in handlers then Ok(None)
    else
      var hs := handlers[signum];
      var i := FirstRegistryIndex(hs);
      if i == |hs| then Err(UnboundLocalError) else Ok(Some(hs[i].registry))
  }

  /** The registry object a lookup found, as a frame. */
  function Found(r: Result<Option<HandlerRegistry>>): (found: set<object>)
  {
    if r.Ok? && r.value.Some? then {r.value.value} else {}
  }

  /** How many keyed registries a handler list holds. */
  function RegistryCount(hs: seq<Handler>): (count: nat)
  {
    if hs == [] then 0 else (if hs[0].Registry? then 1 else 0) + RegistryCount(hs[1..])
  }

  lemma {:induction false} RegistryCountAppend(hs: seq<Handler>, h: Handler)
    ensures RegistryCount(hs + [h]) == RegistryCount(hs) + (if h.Registry? then 1 else 0)
  {
    if hs != [] {
      assert (hs + [h])[1..] == hs[1..] + [h];
      RegistryCountAppend(hs[1..], h);
    }
  }

  /**
   * A plain callable registered through the dispatcher leaves the number's
   * registry lookup as it was: same count, same registry found. Registered
   * under a number that was not yet a key, it makes the lookup, and so any
   * later per-process registration under that number, fail with
   * UnboundLocalError.
   */
  lemma {:induction false} PlainHandlerKeepsRegistryLookup(handlers: map<int, seq<Handler>>, signum: int, id: nat)
    ensures RegistryCount(Appended(handlers, signum, Callback(id))[signum]) == RegistryCount(Lookup(handlers, signum))
    ensures signum in handlers ==>
      GetRegistryHandler(signum, Appended(handlers, signum, Callback(id))) == GetRegistryHandler(signum, handlers)
    ensures signum !in handlers ==>
      GetRegistryHandler(signum, Appended(handlers, signum, Callback(id))) == Err(UnboundLocalError)
  {
    var hs := Lookup(handlers, signum);
    var t := hs + [Callback(id)];
    assert Appended(handlers, signum, Callback(id))[signum] == t;
    RegistryCountAppend(hs, Callback(id));
    var i := FirstRegistryIndex(hs);
    var k := FirstRegistryIndex(t);
    assert forall j :: 0 <= j < |hs| ==> t[j] == hs[j];
    assert t[|hs|] == Callback(id);
    assert i < |hs| ==> k == i;
    assert i == |hs| ==> k == |t|;
  }

  /**
   * `register(signum, process, handler)`: files `callback` under the
   * process's pid in the number's keyed registry, creating that registry and
   * registering it with the dispatcher only when the lookup found no key;
   * only then does the number become installed. A lookup that fails, or a
   * dispatcher that refuses the number (unknown, or its OS handler not
   * installable), stops it and changes nothing. On success the number's
   * list holds a registry, and exactly one if this call created it.
   */
  method Register(d: SignalDispatcher, signum: int, process: Processes.Process, callback: CallbackId,
                  installError: Option<Error>)
    returns (err: Option<Error>)
    requires d.Valid()
    modifies d, Found(GetRegistryHandler(signum, d.handlers))
    ensures d.Valid()
    ensures var lookup := old(GetRegistryHandler(signum, d.handlers));
      && (lookup.Err? ==>
            err == Some(UnboundLocalError) && d.handlers == old(d.handlers) && d.installed == old(d.installed))
      && (lookup == Ok(None) && signum !in d.signalNumbers ==>
            err == Some(ValueError) && d.handlers == old(d.handlers) && d.installed == old(d.installed))
      && (lookup == Ok(None) && signum in d.signalNumbers && installError.Some? ==>
            err == installError && d.handlers == old(d.handlers) && d.installed == old(d.installed))
      && (lookup.Ok? && lookup.value.Some? ==>
            && err == None && d.handlers == old(d.handlers) && d.installed == old(d.installed)
            && lookup.value.value.handlers == Appended(old(lookup.value.value.handlers), InsertWith(process), callback))
      && (lookup == Ok(None) && signum in d.signalNumbers && installError.None? ==>
            && err == None
            && d.installed == old(d.installed) + {signum}
            && GetRegistryHandler(signum, d.handlers).Ok?
            && GetRegistryHandler(signum, d.handlers).value.Some?
            && var created := GetRegistryHandler(signum, d.handlers).value.value;
            && fresh(created)
            && d.handlers == old(d.handlers)[signum := [Registry(created)]]
            && created.handlers == map[InsertWith(process) := [callback]])
    ensures err == None ==>
      RegistryCount(d.handlers[signum]) == if signum in old(d.handlers) then RegistryCount(old(d.handlers)[signum]) else 1
  {
    var lookup := GetRegistryHandler(signum, d.handlers);
    if lookup.Err? {
      return Some(lookup.error);
    }
    var registry: HandlerRegistry;
    if lookup.value.None? {
      registry := new HandlerRegistry();
      err := d.Register(signum, Registry(registry), installError);
      if err.Some? {
        return;
      }
      assert d.handlers[signum] == [Registry(registry)];
      assert FirstRegistryIndex(d.handlers[signum]) == 0;
      assert RegistryCount(d.handlers[signum]) == 1 by {
        assert d.handlers[signum][1..] == [];
      }
    } else {
      registry := lookup.value.value;
    }
    ghost var before := registry.handlers;
    registry.Register(process, callback);
    assert lookup.value.None? ==> Lookup(before, InsertWith(process)) + [callback] == [callback];
    err := None;
  }

  /**
   * `unregister(signum, process, handler)`: UnboundLocalError when the list
   * holds no registry, LookupError when the number is not a key; otherwise
   * the registry's own unregister decides (ValueError when the callback is
   * not filed under the process's pid).
   */
  method Unregister(d: SignalDispatcher, signum: int, process: Processes.Process, callback: CallbackId)
    returns (err: Option<Error>)
    requires d.Valid()
    modifies Found(GetRegistryHandler(signum, d.handlers))
    ensures var lookup := GetRegistryHandler(signum, d.handlers);
      && (lookup.Err? ==> err == Some(UnboundLocalError))
      && (lookup == Ok(None) ==> err == Some(LookupError))
      && (lookup.Ok? && lookup.value.Some? ==>
            var registry := lookup.value.value;
            var key := InsertWith(process);
            && (callback in Lookup(old(registry.handlers), key) ==>
                  err == None && registry.handlers == Removed(old(registry.handlers), key, callback))
            && (callback !in Lookup(old(registry.handlers), key) ==>
                  err == Some(ValueError) && registry.handlers == Touched(old(registry.handlers), key)))
  {
    var lookup := GetRegistryHandler(signum, d.handlers);
    if lookup.Err? {
      return Some(lookup.error);
    }
    if lookup.value.None? {
      return Some(LookupError);
    }
    err := lookup.value.value.Unregister(process, callback);
  }

  /**
   * The child-exit scenario of the signal tests: callbacks for the
   * processes of children 42 and 1234 share one registry under SIGCHLD; each
   * delivery calls the registry, which runs only the callback filed under
   * the pid the wait reaped.
   */
  method SigchldScenario() returns (handlersCalled: seq<Handler>, for42: seq<CallbackId>, for1234: seq<CallbackId>, registries: nat)
    ensures |handlersCalled| == 1 && handlersCalled[0].Registry?
    ensures for42 == [1] && for1234 == [2]
    ensures registries == 1
  {
    var sigchld := 17;
    var d := new SignalDispatcher({15, sigchld});
    var p1 := new Processes.Process(10);
    var _ := p1.Start(10, Ok(42));
    var p2 := new Processes.Process(10);
    var _ := p2.Start(10, Ok(1234));

    assert InsertWith(p1) == Some(42) && InsertWith(p2) == Some(1234);
    var _ := Register(d, sigchld, p1, 1, None);
    var registry := GetRegistryHandler(sigchld, d.handlers).value.value;
    assert d.handlers == map[sigchld := [Registry(registry)]];
    assert registry.handlers == map[Some(42) := [1]];
    var _ := Register(d, sigchld, p2, 2, Some(RuntimeError));
    assert d.handlers == map[sigchld := [Registry(registry)]];
    assert Lookup(map[Some(42) := [1]], Some(1234)) + [2] == [2];
    assert registry.handlers == map[Some(42) := [1], Some(1234) := [2]];
    registries := RegistryCount(d.handlers[sigchld]);

    handlersCalled := d.Dispatch(sigchld);
    assert handlersCalled == [Registry(registry)];
    for42 := registry.Call(Some(42));
    for1234 := registry.Call(Some(1234));
  }
}
