/** The module-level registry of named slot pools (pkit/slot/core.py). */
module SlotCore {
  import opened Wrappers
  import opened SlotPools

  class SlotRegistry {
    /** `_default_slot_pool_size`: the host's cpu count, read once at import. */
    const cpuCount: nat
    /** `_slot_pools`: pools by name; a name, once added, is never removed. */
    var pools: map<string, SlotPool>

    ghost predicate Valid()
      reads this, pools.Values
    {
      && cpuCount >= 1
      && forall name | name in pools :: pools[name].Valid()
    }

    constructor (cpuCount: nat)
      requires cpuCount >= 1
      ensures Valid() && this.cpuCount == cpuCount && pools == map[]
    {
      this.cpuCount := cpuCount;
      pools := map[];
    }

    /**
     * `get_slot_pool(name, pool_size)`: the pool stored under `name`, created
     * with `pool_size` (the cpu count when omitted) only when the name is new.
     */
    method GetSlotPool(name: string, poolSize: Option<nat>) returns (p: SlotPool)
      requires Valid()
      modifies this
      ensures Valid() && p.Valid()
      ensures name in pools && pools[name] == p
      ensures name in old(pools) ==> p == old(pools)[name] && pools == old(pools)
      ensures name !in old(pools) ==>
        && fresh(p)
        && pools == old(pools)[name := p]
        && p.size == EffectiveSize(if poolSize.Some? then poolSize else Some(cpuCount), cpuCount)
        && p.free == p.size
    {
      if name !in pools {
        var created := new SlotPool(if poolSize.Some? then poolSize else Some(cpuCount), cpuCount);
        pools := pools[name := created];
      }
      p := pools[name];
    }
  }

  /**
   * The registry tests: an omitted size gives the cpu count; a second lookup
   * of a name returns the stored pool, with its size and free count, and adds
   * no pool.
   */
  method GetSlotPoolScenario(cpus: nat) returns (defaultSize: nat, same: bool, secondSize: nat, secondFree: int, count: nat)
    requires cpus >= 1
    ensures defaultSize == cpus
    ensures same && secondSize == 2 && secondFree == 1
    ensures count == 2
  {
    var registry := new SlotRegistry(cpus);
    var test := registry.GetSlotPool("test", None);
    defaultSize := test.size;

    var first := registry.GetSlotPool("first", Some(2));
    var _ := first.Acquire(false);
    var second := registry.GetSlotPool("first", None);
    same := first == second;
    secondSize := second.size;
    secondFree := second.free;
    count := |registry.pools|;
  }
}
