/**
 * The execution-slot counter (pkit/slot/pool.py). The multiprocessing
 * semaphore behind it is reduced to its count: an acquire that would block
 * is excluded by precondition, and the OS failures of `sem_wait`/`sem_post`
 * are inputs.
 */
module SlotPools {
  import opened Wrappers

  /** `size or cpu_count()`: a falsy request (None or 0) falls back to the host's cpu count. */
  function EffectiveSize(requested: Option<nat>, cpuCount: nat): (size: nat)
    requires cpuCount >= 1
    ensures size >= 1
    ensures requested.Some? && requested.value != 0 ==> size == requested.value
    ensures requested == None || requested == Some(0) ==> size == cpuCount
  {
    if requested.Some? && requested.value != 0 then requested.value else cpuCount
  }

  class SlotPool {
    /** Fixed at construction; neither `release` nor `reset` changes it. */
    const size: nat
    var free: int

    /** Capacity is positive and the free count never leaves `0..size`. */
    ghost predicate Valid()
      reads this
    {
      1 <= size && 0 <= free <= size
    }

    constructor (requested: Option<nat>, cpuCount: nat)
      requires cpuCount >= 1
      ensures Valid()
      ensures size == EffectiveSize(requested, cpuCount) && free == size
    {
      size := EffectiveSize(requested, cpuCount);
      free := size;
    }

    /**
     * Takes one slot. A `sem_wait` that the OS interrupts raises OSError
     * before the count changes; otherwise the semaphore only returns once a
     * slot is free, which the model asks of the caller.
     */
    method Acquire(interrupted: bool) returns (err: Option<Error>)
      requires Valid()
      requires interrupted || free > 0
      modifies this
      ensures Valid()
      ensures interrupted ==> err == Some(OSError) && free == old(free)
      ensures !interrupted ==> err == None && free == old(free) - 1
    {
      if interrupted {
        return Some(OSError);
      }
      free := free - 1;
      err := None;
    }

    /**
     * Gives one slot back. Releasing past `size` raises ValueError; a failing
     * `sem_post` raises OSError; neither changes the count.
     */
    method Release(postFails: bool) returns (err: Option<Error>)
      requires Valid()
      modifies this
      ensures Valid()
      ensures old(free) + 1 > size ==> err == Some(ValueError) && free == old(free)
      ensures old(free) + 1 <= size && postFails ==> err == Some(OSError) && free == old(free)
      ensures old(free) + 1 <= size && !postFails ==> err == None && free == old(free) + 1
    {
      if free + 1 > size {
        return Some(ValueError);
      }
      if postFails {
        return Some(OSError);
      }
      free := free + 1;
      err := None;
    }

    /** Replaces the semaphore by a fresh one: every slot is free again. */
    method Reset()
      requires Valid()
      modifies this
      ensures Valid() && free == size
    {
      free := size;
    }
  }

  /**
   * The slot-pool tests: a size-2 pool drops to 1 free after one acquire;
   * two acquires and one release leave 1 free; releasing a full pool fails.
   */
  method SlotPoolScenario() returns (afterAcquire: int, afterTwoAcquiresOneRelease: int, overflow: Option<Error>)
    ensures afterAcquire == 1
    ensures afterTwoAcquiresOneRelease == 1
    ensures overflow == Some(ValueError)
  {
    var pool := new SlotPool(Some(2), 4);
    var _ := pool.Acquire(false);
    afterAcquire := pool.free;

    pool := new SlotPool(Some(2), 4);
    var _ := pool.Acquire(false);
    var _ := pool.Acquire(false);
    var _ := pool.Release(false);
    afterTwoAcquiresOneRelease := pool.free;

    pool := new SlotPool(Some(2), 4);
    overflow := pool.Release(false);
  }

  /**
   * Whatever was acquired, `reset` brings back full capacity; so does
   * releasing every slot taken; an acquire undone by a release leaves the
   * count as it was.
   */
  method ResetScenario(n: nat, taken: nat) returns (restored: bool, releasedAll: bool, roundTrip: bool)
    requires 1 <= taken <= n
    ensures restored && releasedAll && roundTrip
  {
    var pool := new SlotPool(Some(n), 1);
    var i := 0;
    while i < taken
      invariant 0 <= i <= taken
      invariant pool.Valid() && pool.size == n && pool.free == n - i
    {
      var _ := pool.Acquire(false);
      i := i + 1;
    }
    var before := pool.free;
    var _ := pool.Release(false);
    var _ := pool.Acquire(false);
    roundTrip := pool.free == before;

    i := 0;
    while i < taken
      invariant 0 <= i <= taken
      invariant pool.Valid() && pool.size == n && pool.free == n - taken + i
    {
      var _ := pool.Release(false);
      i := i + 1;
    }
    releasedAll := pool.free == n;

    var _ := pool.Acquire(false);
    pool.Reset();
    restored := pool.free == n;
  }
}
