/**
 * The `acquire(pool_name)` and `release(pool_name)` method decorators
 * (pkit/slot/decorators.py). The wrapped method is represented by how its
 * call ends; both wrappers look the pool up by name on every call.
 */
module SlotDecorators {
  import opened Wrappers
  import opened SlotPools
  import opened SlotCore

  /** How a call of the wrapped method ends: a returned value or a raised exception. */
  datatype CallOutcome<+T> = Returned(value: T) | Raised(error: Error)

  /** The free count the named pool will have when the wrapper looks it up. */
  function FreeOnLookup(registry: SlotRegistry, name: string): (free: int)
    reads registry, registry.pools.Values
    requires registry.cpuCount >= 1
  {
    if name in registry.pools then registry.pools[name].free
    else EffectiveSize(Some(registry.cpuCount), registry.cpuCount)
  }

  /** The size the named pool will have when the wrapper looks it up. */
  function SizeOnLookup(registry: SlotRegistry, name: string): (size: nat)
    reads registry, registry.pools.Values
    requires registry.cpuCount >= 1
  {
    if name in registry.pools then registry.pools[name].size
    else EffectiveSize(Some(registry.cpuCount), registry.cpuCount)
  }

  /**
   * The `acquire` wrapper: takes one slot, ignoring an OSError from the
   * semaphore, then runs the method and hands back its outcome. The slot is
   * never given back by this wrapper.
   */
  method AcquireWrapper<T>(registry: SlotRegistry, name: string, interrupted: bool, call: CallOutcome<T>)
    returns (r: CallOutcome<T>)
    requires registry.Valid()
    requires interrupted || FreeOnLookup(registry, name) > 0
    modifies registry, registry.pools.Values
    ensures registry.Valid()
    ensures r == call
    ensures name in registry.pools
    ensures name in old(registry.pools) ==> registry.pools == old(registry.pools)
    ensures name !in old(registry.pools) ==> fresh(registry.pools[name])
    ensures registry.pools == old(registry.pools)[name := registry.pools[name]]
    ensures registry.pools[name].size == old(SizeOnLookup(registry, name))
    ensures registry.pools[name].free == old(FreeOnLookup(registry, name)) - (if interrupted then 0 else 1)
    ensures forall n | n in old(registry.pools) && old(registry.pools)[n] != registry.pools[name] ::
      old(registry.pools)[n].free == old(registry.pools[n].free)
  {
    var pool := registry.GetSlotPool(name, None);
    var _ := pool.Acquire(interrupted);
    r := call;
  }

  /**
   * The `release` wrapper: runs the method, then in a `finally` gives one
   * slot back. An OSError from the release is swallowed; the ValueError of an
   * over-release escapes and replaces whatever the method returned or raised.
   */
  method ReleaseWrapper<T>(registry: SlotRegistry, name: string, postFails: bool, call: CallOutcome<T>)
    returns (r: CallOutcome<T>)
    requires registry.Valid()
    modifies registry, registry.pools.Values
    ensures registry.Valid()
    ensures name in registry.pools
    ensures name in old(registry.pools) ==> registry.pools == old(registry.pools)
    ensures name !in old(registry.pools) ==> fresh(registry.pools[name])
    ensures registry.pools == old(registry.pools)[name := registry.pools[name]]
    ensures registry.pools[name].size == old(SizeOnLookup(registry, name))
    ensures var before := old(FreeOnLookup(registry, name));
      && (before + 1 > registry.pools[name].size ==> r == Raised(ValueError) && registry.pools[name].free == before)
      && (before + 1 <= registry.pools[name].size && postFails ==> r == call && registry.pools[name].free == before)
      && (before + 1 <= registry.pools[name].size && !postFails ==> r == call && registry.pools[name].free == before + 1)
    ensures forall n | n in old(registry.pools) && old(registry.pools)[n] != registry.pools[name] ::
      old(registry.pools)[n].free == old(registry.pools[n].free)
  {
    var pool := registry.GetSlotPool(name, None);
    var err := pool.Release(postFails);
    if err == Some(ValueError) {
      r := Raised(ValueError);
    } else {
      r := call;
    }
  }

  /**
   * The decorator tests: on a 3-slot pool one acquire-wrapped call leaves 2
   * free; with 2 slots taken, one release-wrapped call leaves 2 free.
   */
  method DecoratorScenario(cpus: nat) returns (afterAcquireCall: int, afterReleaseCall: int, result: CallOutcome<int>)
    requires cpus >= 1
    ensures afterAcquireCall == 2
    ensures afterReleaseCall == 2
    ensures result == Returned(7)
  {
    var registry := new SlotRegistry(cpus);
    var testpool := registry.GetSlotPool("testpool", Some(3));
    var _ := AcquireWrapper(registry, "testpool", false, Returned(0));
    afterAcquireCall := testpool.free;

    var other := registry.GetSlotPool("othertestpool", Some(3));
    var _ := other.Acquire(false);
    var _ := other.Acquire(false);
    result := ReleaseWrapper(registry, "othertestpool", false, Returned(7));
    afterReleaseCall := other.free;
  }

  /** A release-wrapped call on an untouched pool fails with ValueError even when the method itself raised something else. */
  method OverReleaseReplacesError(cpus: nat) returns (result: CallOutcome<int>, free: int)
    requires cpus >= 1
    ensures result == Raised(ValueError)
    ensures free == cpus
  {
    var registry := new SlotRegistry(cpus);
    result := ReleaseWrapper(registry, "fresh", false, Raised(RuntimeError));
    free := registry.pools["fresh"].free;
  }
}
