// internal/block/block_pool.go as functions on the state of one pool.
module BlockPools {
  import opened Bytes

  type BlockId = nat

  /** `created` counts the blocks ever mapped and gives each its identity. */
  datatype Pool = Pool(blockSize: nat, maxBlocks: nat, reserved: nat,
                       total: nat, free: seq<BlockId>, created: nat)

  datatype Grant = Reused(id: BlockId) | Created(id: BlockId) | MapFailed | Exhausted

  predicate Granted(g: Grant) {
    g.Reused? || g.Created?
  }

  function NewPool(blockSize: nat, maxBlocks: nat, reserved: nat): Pool {
    Pool(blockSize, maxBlocks, reserved, 0, [], 0)
  }

  /** Whether the pool may map a block; past the reservation that takes a semaphore permit. */
  predicate CanAllocate(p: Pool, permit: bool) {
    p.total < p.maxBlocks && (p.total < p.reserved || permit)
  }

  /** `permit`: the semaphore would grant one more block; `mapped`: mapping memory works. */
  function TryGet(p: Pool, permit: bool, mapped: bool): (Grant, Pool) {
    if p.free != [] then (Reused(p.free[0]), p.(free := p.free[1..]))
    else if !CanAllocate(p, permit) then (Exhausted, p)
    else if !mapped then (MapFailed, p)
    else (Created(p.created), p.(total := p.total + 1, created := p.created + 1))
  }

  /** Panics in the source when the channel of free blocks is full. */
  function Release(p: Pool, id: BlockId): Pool
    requires |p.free| < p.maxBlocks
  {
    p.(free := p.free + [id])
  }

  /** The call to `TryGet` takes a permit from the semaphore, whether or not mapping then works. */
  predicate TakesPermit(p: Pool, permit: bool) {
    p.free == [] && CanAllocate(p, permit) && p.total >= p.reserved
  }

  /** One round of ClearFreeBlockChannel: the oldest free block is unmapped. */
  function Unmap(p: Pool): Pool
    requires p.free != [] && p.total > 0
  {
    p.(free := p.free[1..], total := p.total - 1)
  }

  /** Permits an open pool holds: its reservation, or more once it has made more blocks. */
  function Held(p: Pool): nat {
    Max(p.total, p.reserved)
  }

  /** The permits of a pool: those it holds and those it lost, less its reservation once that is given back. */
  ghost predicate Balanced(permits: int, lost: nat, returned: bool, pool: Pool) {
    permits == Held(pool) + lost - (if returned then pool.reserved else 0)
  }

  lemma GrantBalances(permits: int, lost: nat, returned: bool, pool: Pool, permit: bool, mapped: bool)
    requires Balanced(permits, lost, returned, pool) && Granted(TryGet(pool, permit, mapped).0)
    ensures Balanced(if TakesPermit(pool, permit) then permits + 1 else permits, lost, returned,
                     TryGet(pool, permit, mapped).1)
  {
  }

  predicate ValidPool(p: Pool) {
    p.reserved <= p.maxBlocks && p.total <= p.maxBlocks && |p.free| <= p.total
  }

  /** The pool without its free blocks. */
  function Emptied(p: Pool): Pool
    requires |p.free| <= p.total
  {
    p.(free := [], total := p.total - |p.free|)
  }

  /** ClearFreeBlockChannel: what it leaves of a pool, and how many permits it gives back. */
  method ClearFree(p: Pool, releaseReservedBlocks: bool) returns (left: Pool, released: nat)
    requires ValidPool(p)
    ensures left == Emptied(p)
    ensures released == Held(p) - Held(left) + (if releaseReservedBlocks then p.reserved else 0)
  {
    left, released := p, 0;
    while left.free != []
      invariant ValidPool(left) && left == p.(free := left.free, total := left.total)
      invariant left.total - |left.free| == p.total - |p.free|
      invariant released == Held(p) - Held(left)
      decreases |left.free|
    {
      if left.total > left.reserved {
        released := released + 1;
      }
      left := Unmap(left);
    }
    if releaseReservedBlocks {
      released := released + left.reserved;
    }
  }
}

// Pools that share one semaphore, in place.
module GenBlockPools {
  import opened BlockPools

  /** golang.org/x/sync/semaphore.Weighted, without the waiting Acquire. */
  class Semaphore {
    const capacity: nat
    var inUse: int

    constructor (capacity: nat)
      ensures this.capacity == capacity && inUse == 0
    {
      this.capacity, inUse := capacity, 0;
    }

    method TryAcquire(n: nat) returns (ok: bool)
      modifies this
      ensures ok <==> old(inUse) + n <= capacity
      ensures inUse == if ok then old(inUse) + n else old(inUse)
    {
      ok := inUse + n <= capacity;
      if ok { inUse := inUse + n; }
    }

    /** Panics in the source when more is released than is held. */
    method Release(n: nat)
      requires n <= inUse
      modifies this
      ensures inUse == old(inUse) - n
    {
      inUse := inUse - n;
    }
  }

  datatype NewPoolError = NoError | InvalidConfiguration | CantAllocateAnyBlock

  class GenBlockPool {
    const sem: Semaphore
    const blockSize: nat
    const maxBlocks: nat
    const reservedBlocks: nat
    var totalBlocks: nat
    var freeBlocksCh: seq<BlockId>
    var created: nat

    ghost function View(): Pool
      reads this
    {
      Pool(blockSize, maxBlocks, reservedBlocks, totalBlocks, freeBlocksCh, created)
    }

    constructor (sem: Semaphore, blockSize: nat, maxBlocks: nat, reserved: nat)
      ensures this.sem == sem && View() == NewPool(blockSize, maxBlocks, reserved)
    {
      this.sem, this.blockSize, this.maxBlocks, reservedBlocks := sem, blockSize, maxBlocks, reserved;
      totalBlocks, freeBlocksCh, created := 0, [], 0;
    }

    /** NewGenBlockPool: the reservation is acquired up front, or no pool is made. */
    static method New(blockSize: int, maxBlocks: int, reserved: int, sem: Semaphore)
      returns (p: GenBlockPool?, err: NewPoolError)
      modifies sem
      ensures err == InvalidConfiguration <==> blockSize <= 0 || maxBlocks <= 0 || !(0 <= reserved <= maxBlocks)
      ensures err == NoError <==> p != null
      ensures err == CantAllocateAnyBlock <==> err != InvalidConfiguration && old(sem.inUse) + reserved > sem.capacity
      ensures p != null ==> fresh(p) && p.sem == sem && old(sem.inUse) + reserved <= sem.capacity
      ensures p != null ==> p.View() == NewPool(blockSize, maxBlocks, reserved) && ValidPool(p.View())
      ensures sem.inUse == old(sem.inUse) + (if p != null then Held(p.View()) else 0)
    {
      p := null;
      if blockSize <= 0 || maxBlocks <= 0 || reserved < 0 || reserved > maxBlocks {
        return null, InvalidConfiguration;
      }
      var acquired := sem.TryAcquire(reserved);
      if !acquired {
        return null, CantAllocateAnyBlock;
      }
      p := new GenBlockPool(sem, blockSize, maxBlocks, reserved);
      err := NoError;
    }

    method CanAllocateBlock() returns (ok: bool)
      requires ValidPool(View())
      modifies sem
      ensures ok <==> CanAllocate(View(), old(sem.inUse) < sem.capacity)
      ensures sem.inUse == old(sem.inUse) + (if ok && totalBlocks >= reservedBlocks then 1 else 0)
    {
      if totalBlocks >= maxBlocks {
        return false;
      }
      if totalBlocks < reservedBlocks {
        return true;
      }
      ok := sem.TryAcquire(1);
    }

    /** `mapped`: whether createBlockFunc would succeed. */
    method TryGetBlock(mapped: bool) returns (g: Grant)
      requires ValidPool(View())
      modifies this, sem
      ensures (g, View()) == TryGet(old(View()), old(sem.inUse) < sem.capacity, mapped)
      ensures sem.inUse == old(sem.inUse) + (if TakesPermit(old(View()), old(sem.inUse) < sem.capacity) then 1 else 0)
      ensures g != MapFailed ==> sem.inUse - old(sem.inUse) == Held(View()) - Held(old(View()))
    {
      if freeBlocksCh != [] {
        g := Reused(freeBlocksCh[0]);
        freeBlocksCh := freeBlocksCh[1..];
        return;
      }
      var ok := CanAllocateBlock();
      if !ok {
        return Exhausted;
      }
      if !mapped {
        return MapFailed;
      }
      g := Created(created);
      totalBlocks, created := totalBlocks + 1, created + 1;
    }

    method ReleaseBlock(b: BlockId)
      requires |freeBlocksCh| < maxBlocks
      modifies this
      ensures View() == Release(old(View()), b)
    {
      freeBlocksCh := freeBlocksCh + [b];
    }

    /** Unmaps every free block and gives back exactly the permits the pool no longer holds. */
    method ClearFreeBlockChannel(releaseReservedBlocks: bool)
      requires ValidPool(View()) && Held(View()) <= sem.inUse
      modifies this, sem
      ensures View() == Emptied(old(View()))
      ensures old(sem.inUse) - sem.inUse
           == Held(old(View())) - Held(View()) + (if releaseReservedBlocks then reservedBlocks else 0)
    {
      var pool := Pool(blockSize, maxBlocks, reservedBlocks, totalBlocks, freeBlocksCh, created);
      var left, released := ClearFree(pool, releaseReservedBlocks);
      freeBlocksCh, totalBlocks := left.free, left.total;
      sem.Release(released);
    }
  }
}
