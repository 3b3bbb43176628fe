// Any number of block pools that draw on one global semaphore.
module SharedPools {
  import opened Bytes
  import opened BlockPools

  /** A pool, the permits it kept for blocks that could not be mapped, and whether it was cleared for good. */
  datatype Member = Member(pool: Pool, lost: nat, closed: bool)

  datatype Shared = Shared(capacity: nat, inUse: int, members: seq<Member>)

  datatype Event =
    | Open(blockSize: nat, maxBlocks: nat, reserved: nat)    // NewGenBlockPool
    | Get(i: nat, mapped: bool)                              // Get or TryGet
    | Put(i: nat, id: BlockId)                               // Release
    | Unmapped(i: nat)                                       // one round of ClearFreeBlockChannel
    | Close(i: nat)                                          // its end, with releaseReservedBlocks

  function Init(capacity: nat): Shared {
    Shared(capacity, 0, [])
  }

  /** Permits a member accounts for. */
  function Permits(m: Member): int {
    Held(m.pool) - (if m.closed then m.pool.reserved else 0) + m.lost
  }

  function Sum(f: Member -> int, ms: seq<Member>): int {
    if ms == [] then 0 else Sum(f, ms[..|ms| - 1]) + f(ms[|ms| - 1])
  }

  function TotalPermits(ms: seq<Member>): int {
    Sum(Permits, ms)
  }

  function TotalBlocks(ms: seq<Member>): int {
    Sum((m: Member) => m.pool.total, ms)
  }

  function TotalLost(ms: seq<Member>): int {
    Sum((m: Member) => m.lost, ms)
  }

  predicate ValidMembers(ms: seq<Member>) {
    forall i :: 0 <= i < |ms| ==> ValidPool(ms[i].pool)
  }

  ghost predicate Inv(s: Shared) {
    ValidMembers(s.members) && s.inUse == TotalPermits(s.members) && 0 <= s.inUse <= s.capacity
  }

  /** What the code checks first; a block is put back only if it is out, and a closed pool is not used again. */
  predicate Guard(s: Shared, ev: Event) {
    match ev
    case Open(blockSize, maxBlocks, reserved) =>
      blockSize > 0 && maxBlocks > 0 && reserved <= maxBlocks && s.inUse + reserved <= s.capacity
    case Get(i, _) => i < |s.members| && !s.members[i].closed
    case Put(i, _) => i < |s.members| && |s.members[i].pool.free| < s.members[i].pool.total
    case Unmapped(i) => i < |s.members| && s.members[i].pool.free != []
    case Close(i) => i < |s.members| && !s.members[i].closed
  }

  /** The conditions whose failure is a panic in the source. */
  predicate Safe(s: Shared, ev: Event)
    requires Guard(s, ev)
  {
    match ev
    case Put(i, _) => |s.members[i].pool.free| < s.members[i].pool.maxBlocks
    case Unmapped(i) =>
      && s.members[i].pool.total > 0
      && (s.members[i].pool.total > s.members[i].pool.reserved ==> s.inUse >= 1)
    case Close(i) => s.inUse >= s.members[i].pool.reserved
    case _ => true
  }

  function Apply(s: Shared, ev: Event): Shared
    requires Guard(s, ev) && Safe(s, ev)
  {
    match ev
    case Open(blockSize, maxBlocks, reserved) =>
      s.(inUse := s.inUse + reserved,
         members := s.members + [Member(NewPool(blockSize, maxBlocks, reserved), 0, false)])
    case Get(i, mapped) =>
      var m, permit := s.members[i], s.inUse < s.capacity;
      var (g, pool) := TryGet(m.pool, permit, mapped);
      var taken := if TakesPermit(m.pool, permit) then 1 else 0;
      s.(inUse := s.inUse + taken,
         members := s.members[i := m.(pool := pool, lost := m.lost + if g.MapFailed? then taken else 0)])
    case Put(i, id) =>
      s.(members := s.members[i := s.members[i].(pool := Release(s.members[i].pool, id))])
    case Unmapped(i) =>
      var m := s.members[i];
      s.(inUse := s.inUse - (if m.pool.total > m.pool.reserved then 1 else 0),
         members := s.members[i := m.(pool := Unmap(m.pool))])
    case Close(i) =>
      s.(inUse := s.inUse - s.members[i].pool.reserved,
         members := s.members[i := s.members[i].(closed := true)])
  }

  // ------------------------------------------------- sums

  lemma {:induction false} SumAfterUpdate(f: Member -> int, ms: seq<Member>, i: nat, m: Member)
    requires i < |ms|
    ensures Sum(f, ms[i := m]) == Sum(f, ms) - f(ms[i]) + f(m)
    decreases |ms|
  {
    var n := |ms| - 1;
    if i < n {
      SumAfterUpdate(f, ms[..n], i, m);
      assert ms[i := m][..n] == ms[..n][i := m];
    } else {
      assert ms[i := m][..n] == ms[..n];
    }
  }

  lemma SumOfMore(f: Member -> int, ms: seq<Member>, m: Member)
    ensures Sum(f, ms + [m]) == Sum(f, ms) + f(m)
  {
    assert (ms + [m])[..|ms|] == ms;
  }

  lemma {:induction false} SumIsNatural(f: Member -> int, ms: seq<Member>)
    requires forall j :: 0 <= j < |ms| ==> f(ms[j]) >= 0
    ensures Sum(f, ms) >= 0
    decreases |ms|
  {
    if ms != [] { SumIsNatural(f, ms[..|ms| - 1]); }
  }

  lemma {:induction false} PartOfSum(f: Member -> int, ms: seq<Member>, i: nat)
    requires i < |ms| && forall j :: 0 <= j < |ms| ==> f(ms[j]) >= 0
    ensures 0 <= f(ms[i]) <= Sum(f, ms)
    decreases |ms|
  {
    SumIsNatural(f, ms[..|ms| - 1]);
    if i < |ms| - 1 {
      PartOfSum(f, ms[..|ms| - 1], i);
    }
  }

  lemma {:induction false} SumOfSame(f: Member -> int, ms: seq<Member>, ns: seq<Member>)
    requires |ms| == |ns| && forall j :: 0 <= j < |ms| ==> f(ms[j]) == f(ns[j])
    ensures Sum(f, ms) == Sum(f, ns)
    decreases |ms|
  {
    if ms != [] { SumOfSame(f, ms[..|ms| - 1], ns[..|ns| - 1]); }
  }

  // ------------------------------------------------- every step

  /** Releasing to the semaphore or to a free list never panics. */
  lemma GuardIsSafe(s: Shared, ev: Event)
    requires Inv(s) && Guard(s, ev)
    ensures Safe(s, ev)
  {
    match ev
    case Unmapped(i) => PartOfSum(Permits, s.members, i);
    case Close(i) => PartOfSum(Permits, s.members, i);
    case _ =>
  }

  lemma StepKeepsValid(s: Shared, ev: Event)
    requires ValidMembers(s.members) && Guard(s, ev) && Safe(s, ev)
    ensures ValidMembers(Apply(s, ev).members)
  {
  }

  lemma PermitsAreNatural(ms: seq<Member>)
    requires ValidMembers(ms)
    ensures TotalPermits(ms) >= 0
  {
    SumIsNatural(Permits, ms);
  }

  /** The semaphore moves by what the member then accounts for. */
  lemma StepMovesPermits(s: Shared, ev: Event)
    requires ValidMembers(s.members) && Guard(s, ev) && Safe(s, ev)
    ensures var t := Apply(s, ev);
      && t.inUse - s.inUse == TotalPermits(t.members) - TotalPermits(s.members)
      && t.capacity == s.capacity && (s.inUse <= s.capacity ==> t.inUse <= t.capacity)
  {
    hide Sum;
    var t := Apply(s, ev);
    match ev
    case Open(_, _, _) => SumOfMore(Permits, s.members, t.members[|s.members|]);
    case Get(i, _) => SumAfterUpdate(Permits, s.members, i, t.members[i]);
    case Put(i, _) => SumAfterUpdate(Permits, s.members, i, t.members[i]);
    case Unmapped(i) => SumAfterUpdate(Permits, s.members, i, t.members[i]);
    case Close(i) => SumAfterUpdate(Permits, s.members, i, t.members[i]);
  }

  lemma StepKeepsInv(s: Shared, ev: Event)
    requires Inv(s) && Guard(s, ev) && Safe(s, ev)
    ensures Inv(Apply(s, ev))
  {
    hide ValidMembers, TotalPermits, Apply, Guard, Safe;
    StepKeepsValid(s, ev);
    StepMovesPermits(s, ev);
    PermitsAreNatural(Apply(s, ev).members);
  }

  ghost predicate Feasible(capacity: nat, trace: seq<Event>)
    decreases |trace|, 0
  {
    trace != [] ==>
      && Feasible(capacity, trace[..|trace| - 1])
      && Guard(Execute(capacity, trace[..|trace| - 1]), trace[|trace| - 1])
  }

  /** In every run, permits in use are those the members account for, and none is over-released. */
  ghost function Execute(capacity: nat, trace: seq<Event>): (s: Shared)
    requires Feasible(capacity, trace)
    ensures Inv(s) && s.capacity == capacity
    decreases |trace|, 1
  {
    if trace == [] then Init(capacity)
    else
      var s, ev := Execute(capacity, trace[..|trace| - 1]), trace[|trace| - 1];
      GuardIsSafe(s, ev);
      StepKeepsInv(s, ev);
      Apply(s, ev)
  }

  lemma ExtendTrace(capacity: nat, trace: seq<Event>, ev: Event)
    requires Feasible(capacity, trace) && Guard(Execute(capacity, trace), ev)
    ensures Feasible(capacity, trace + [ev]) && Safe(Execute(capacity, trace), ev)
    ensures Execute(capacity, trace + [ev]) == Apply(Execute(capacity, trace), ev)
  {
    hide Inv, Guard;
    assert (trace + [ev])[..|trace|] == trace;
    GuardIsSafe(Execute(capacity, trace), ev);
  }

  lemma LastStep(capacity: nat, trace: seq<Event>)
    requires Feasible(capacity, trace) && trace != []
    ensures var front, ev := trace[..|trace| - 1], trace[|trace| - 1];
      && Feasible(capacity, front) && Guard(Execute(capacity, front), ev) && Safe(Execute(capacity, front), ev)
      && Execute(capacity, trace) == Apply(Execute(capacity, front), ev)
  {
    hide Inv, Guard;
    GuardIsSafe(Execute(capacity, trace[..|trace| - 1]), trace[|trace| - 1]);
  }

  // ------------------------------------------------- blocks that are out

  predicate Grants(s: Shared, ev: Event, i: nat) {
    ev.Get? && ev.i == i < |s.members| && Granted(TryGet(s.members[i].pool, s.inUse < s.capacity, ev.mapped).0)
  }

  /** How many blocks of pool `i` a run has handed out, and how many it has put back. */
  ghost function GrantedIn(capacity: nat, trace: seq<Event>, i: nat): nat
    requires Feasible(capacity, trace)
    decreases |trace|
  {
    if trace == [] then 0
    else
      var front := trace[..|trace| - 1];
      GrantedIn(capacity, front, i) + if Grants(Execute(capacity, front), trace[|trace| - 1], i) then 1 else 0
  }

  function PutIn(trace: seq<Event>, i: nat): nat {
    if trace == [] then 0
    else PutIn(trace[..|trace| - 1], i) + if trace[|trace| - 1].Put? && trace[|trace| - 1].i == i then 1 else 0
  }

  lemma EmptyTrace(capacity: nat)
    ensures Feasible(capacity, []) && Execute(capacity, []) == Init(capacity) && TotalLost(Init(capacity).members) == 0
  {
  }

  lemma StepMovesOut(s: Shared, ev: Event, i: nat)
    requires Guard(s, ev) && Safe(s, ev)
    ensures var t := Apply(s, ev);
      && |s.members| <= |t.members|
      && (if i < |s.members| then
            t.members[i].pool.total - |t.members[i].pool.free| == s.members[i].pool.total - |s.members[i].pool.free|
              + (if Grants(s, ev, i) then 1 else 0) - (if ev.Put? && ev.i == i then 1 else 0)
          else
            && (i < |t.members| ==> t.members[i].pool.total == |t.members[i].pool.free|)
            && !Grants(s, ev, i) && !(ev.Put? && ev.i == i))
  {
  }

  /** After any run the blocks of a pool that are not free are those handed out and not put back. */
  lemma {:induction false} BlocksOutBalance(capacity: nat, trace: seq<Event>, i: nat)
    requires Feasible(capacity, trace)
    ensures var s := Execute(capacity, trace);
      if i < |s.members|
      then s.members[i].pool.total - |s.members[i].pool.free| == GrantedIn(capacity, trace, i) - PutIn(trace, i)
      else GrantedIn(capacity, trace, i) == 0 == PutIn(trace, i)
    decreases |trace|
  {
    hide Execute, Inv, Grants;
    if trace == [] {
      EmptyTrace(capacity);
    } else {
      LastStep(capacity, trace);
      BlocksOutBalance(capacity, trace[..|trace| - 1], i);
      StepMovesOut(Execute(capacity, trace[..|trace| - 1]), trace[|trace| - 1], i);
    }
  }

  // ------------------------------------------------- permits that are lost

  /** The step takes a permit for a block and then fails to map it. */
  predicate LosesPermit(s: Shared, ev: Event) {
    ev.Get? && !ev.mapped && ev.i < |s.members| && TakesPermit(s.members[ev.i].pool, s.inUse < s.capacity)
  }

  ghost predicate LosesPermitAt(capacity: nat, trace: seq<Event>, k: nat)
    requires k < |trace|
  {
    Feasible(capacity, trace[..k]) && LosesPermit(Execute(capacity, trace[..k]), trace[k])
  }

  ghost predicate LosesNone(capacity: nat, trace: seq<Event>) {
    forall k :: 0 <= k < |trace| ==> !LosesPermitAt(capacity, trace, k)
  }

  lemma StepLoses(s: Shared, ev: Event)
    requires Guard(s, ev) && Safe(s, ev)
    ensures TotalLost(Apply(s, ev).members) == TotalLost(s.members) + if LosesPermit(s, ev) then 1 else 0
  {
    var t, lost := Apply(s, ev), (m: Member) => m.lost;
    match ev
    case Open(_, _, _) => SumOfMore(lost, s.members, t.members[|s.members|]);
    case Get(i, _) => SumAfterUpdate(lost, s.members, i, t.members[i]);
    case Put(i, _) => SumAfterUpdate(lost, s.members, i, t.members[i]);
    case Unmapped(i) => SumAfterUpdate(lost, s.members, i, t.members[i]);
    case Close(i) => SumAfterUpdate(lost, s.members, i, t.members[i]);
  }

  lemma {:induction false} LossesAreFailures(capacity: nat, trace: seq<Event>)
    requires Feasible(capacity, trace)
    ensures TotalLost(Execute(capacity, trace).members) >= 0
    ensures TotalLost(Execute(capacity, trace).members) == 0 <==> LosesNone(capacity, trace)
    decreases |trace|
  {
    hide Feasible, Execute, Inv, Guard, LosesPermit, TotalLost;
    if trace == [] {
      EmptyTrace(capacity);
    } else {
      var front, ev := trace[..|trace| - 1], trace[|trace| - 1];
      LastStep(capacity, trace);
      LossesAreFailures(capacity, front);
      StepLoses(Execute(capacity, front), ev);
      assert LosesPermitAt(capacity, trace, |front|) <==> LosesPermit(Execute(capacity, front), ev);
      forall k | 0 <= k < |front| ensures LosesPermitAt(capacity, trace, k) == LosesPermitAt(capacity, front, k) {
        assert front[..k] == trace[..k];
      }
    }
  }

  function HeldByOpen(m: Member): int {
    if m.closed then 0 else Held(m.pool)
  }

  /** Permits a closed pool still has, for blocks past its reservation. */
  function HeldByClosed(m: Member): int {
    if m.closed then Max(m.pool.total - m.pool.reserved, 0) else 0
  }

  /** No closed pool has more blocks than it had reserved. */
  predicate ClosedWithin(ms: seq<Member>) {
    forall i :: 0 <= i < |ms| ==> (ms[i].closed ==> ms[i].pool.total <= ms[i].pool.reserved)
  }

  lemma {:induction false} PermitsSplit(ms: seq<Member>)
    ensures TotalPermits(ms) == Sum(HeldByOpen, ms) + Sum(HeldByClosed, ms) + TotalLost(ms)
    decreases |ms|
  {
    if ms != [] { PermitsSplit(ms[..|ms| - 1]); }
  }

  lemma {:induction false} SumOfZeros(f: Member -> int, ms: seq<Member>)
    requires forall j :: 0 <= j < |ms| ==> f(ms[j]) == 0
    ensures Sum(f, ms) == 0
    decreases |ms|
  {
    if ms != [] { SumOfZeros(f, ms[..|ms| - 1]); }
  }

  lemma NothingHeldByClosed(ms: seq<Member>)
    ensures Sum(HeldByClosed, ms) == 0 <==> ClosedWithin(ms)
  {
    if ClosedWithin(ms) {
      var none := seq(|ms|, i requires 0 <= i < |ms| => ms[i].(closed := false));
      SumOfSame(HeldByClosed, ms, none);
      SumOfZeros(HeldByClosed, none);
    } else {
      var i :| 0 <= i < |ms| && ms[i].closed && ms[i].pool.total > ms[i].pool.reserved;
      PartOfSum(HeldByClosed, ms, i);
    }
  }

  /**
   * After any run, permits in use are exactly the larger of blocks and reservation, summed
   * over the open pools, if and only if no mapping past a reservation ever failed and no
   * pool was closed with more blocks out than it had reserved.
   */
  lemma PermitsAreHeld(capacity: nat, trace: seq<Event>)
    requires Feasible(capacity, trace)
    ensures var s := Execute(capacity, trace);
      s.inUse == Sum(HeldByOpen, s.members) <==> LosesNone(capacity, trace) && ClosedWithin(s.members)
  {
    hide Feasible, Execute, LosesNone, TotalLost;
    var s := Execute(capacity, trace);
    PermitsSplit(s.members);
    LossesAreFailures(capacity, trace);
    SumIsNatural(HeldByClosed, s.members);
    NothingHeldByClosed(s.members);
  }

  lemma SumOfOne(f: Member -> int, m: Member)
    ensures Sum(f, [m]) == f(m)
  {
    assert [m][..0] == [];
  }

  /** A block that cannot be mapped keeps its permit: one permit is in use for a pool that holds none. */
  lemma FailedMappingLosesPermit(capacity: nat) returns (trace: seq<Event>)
    requires capacity >= 1
    ensures Feasible(capacity, trace)
    ensures var s := Execute(capacity, trace);
      s.inUse == 1 && TotalBlocks(s.members) == 0 && Sum(HeldByOpen, s.members) == 0
  {
    hide Feasible, Execute;
    EmptyTrace(capacity);
    trace := [];
    ExtendTrace(capacity, trace, Open(1, 1, 0));
    trace := trace + [Open(1, 1, 0)];
    ExtendTrace(capacity, trace, Get(0, false));
    trace := trace + [Get(0, false)];
    var s := Execute(capacity, trace);
    assert s.members == [s.members[0]];
    SumOfOne(HeldByOpen, s.members[0]);
    SumOfOne((m: Member) => m.pool.total, s.members[0]);
  }

  // ------------------------------------------------- the global limit

  /** Blocks of a closed pool that no permit stands for: those its reservation covered. */
  function Uncovered(m: Member): int {
    if m.closed then Min(m.pool.total, m.pool.reserved) else 0
  }

  /** Permits of an open pool that no block uses yet. */
  function Unfilled(m: Member): int {
    if m.closed then 0 else Max(m.pool.reserved - m.pool.total, 0)
  }

  lemma {:induction false} BlocksAndPermits(ms: seq<Member>)
    ensures TotalPermits(ms) == TotalBlocks(ms) + Sum(Unfilled, ms) - Sum(Uncovered, ms) + TotalLost(ms)
    decreases |ms|
  {
    if ms != [] { BlocksAndPermits(ms[..|ms| - 1]); }
  }

  /** Blocks exceed the global limit by no more than what closed pools left uncovered beyond the permits lost. */
  lemma BlocksWithinLimit(s: Shared)
    requires Inv(s)
    ensures TotalBlocks(s.members) <= s.capacity + Sum(Uncovered, s.members) - TotalLost(s.members)
  {
    BlocksAndPermits(s.members);
    SumIsNatural(Unfilled, s.members);
  }

  /** `more` goes on from `trace` by opening pools and getting blocks alone. */
  ghost predicate GoesOn(trace: seq<Event>, more: seq<Event>) {
    trace <= more && forall k :: |trace| <= k < |more| ==> more[k].Open? || more[k].Get?
  }

  lemma {:induction false} GoingOnCoversNothing(capacity: nat, trace: seq<Event>, more: seq<Event>)
    requires Feasible(capacity, trace) && Feasible(capacity, more) && GoesOn(trace, more)
    ensures var s, t := Execute(capacity, trace).members, Execute(capacity, more).members;
      Sum(Uncovered, t) == Sum(Uncovered, s) && TotalLost(t) >= TotalLost(s)
    decreases |more|
  {
    hide Feasible, Execute, Inv, TotalLost;
    if more != trace {
      LastStep(capacity, more);
      var front, ev := more[..|more| - 1], more[|more| - 1];
      assert trace <= front;
      GoingOnCoversNothing(capacity, trace, front);
      var s, t := Execute(capacity, front), Execute(capacity, more);
      StepLoses(s, ev);
      if ev.Open? {
        SumOfMore(Uncovered, s.members, t.members[|s.members|]);
      } else {
        SumAfterUpdate(Uncovered, s.members, ev.i, t.members[ev.i]);
      }
    }
  }

  lemma More(capacity: nat, origin: seq<Event>, trace: seq<Event>, ev: Event) returns (more: seq<Event>)
    requires Feasible(capacity, trace) && GoesOn(origin, trace)
    requires Guard(Execute(capacity, trace), ev) && (ev.Open? || ev.Get?)
    ensures Feasible(capacity, more) && GoesOn(origin, more) && Safe(Execute(capacity, trace), ev)
    ensures Execute(capacity, more) == Apply(Execute(capacity, trace), ev)
  {
    hide Inv, Guard;
    ExtendTrace(capacity, trace, ev);
    more := trace + [ev];
  }

  /** An open pool gets blocks until its reservation is used. */
  lemma {:induction false} FillMember(capacity: nat, origin: seq<Event>, trace: seq<Event>, i: nat)
    returns (more: seq<Event>)
    requires Feasible(capacity, trace) && GoesOn(origin, trace)
    requires i < |Execute(capacity, trace).members| && !Execute(capacity, trace).members[i].closed
    ensures Feasible(capacity, more) && GoesOn(origin, more)
    ensures var s, t := Execute(capacity, trace), Execute(capacity, more);
      && t.inUse == s.inUse && |t.members| == |s.members|
      && !t.members[i].closed && t.members[i].lost == s.members[i].lost && Unfilled(t.members[i]) == 0
      && (forall j :: 0 <= j < |s.members| && j != i ==> t.members[j] == s.members[j])
    decreases
      var p := Execute(capacity, trace).members[i].pool; |p.free| + Max(p.reserved - p.total, 0)
  {
    hide Feasible, Execute, GoesOn;
    var p := Execute(capacity, trace).members[i].pool;
    more := trace;
    if p.total < p.reserved {
      more := More(capacity, origin, trace, Get(i, true));
      more := FillMember(capacity, origin, more, i);
    }
  }

  lemma {:induction false} FillAll(capacity: nat, origin: seq<Event>, trace: seq<Event>, k: nat)
    returns (more: seq<Event>)
    requires Feasible(capacity, trace) && GoesOn(origin, trace) && k <= |Execute(capacity, trace).members|
    ensures Feasible(capacity, more) && GoesOn(origin, more)
    ensures var s, t := Execute(capacity, trace), Execute(capacity, more);
      && t.inUse == s.inUse && |t.members| == |s.members|
      && (forall j :: 0 <= j < k ==> Unfilled(t.members[j]) == 0 && t.members[j].lost == s.members[j].lost)
      && (forall j :: k <= j < |s.members| ==> t.members[j] == s.members[j])
    decreases k
  {
    hide Feasible, Execute, GoesOn, Inv;
    more := trace;
    if k > 0 {
      more := FillAll(capacity, origin, trace, k - 1);
      if !Execute(capacity, more).members[k - 1].closed {
        more := FillMember(capacity, origin, more, k - 1);
      }
    }
  }

  lemma GoesOnItself(trace: seq<Event>)
    ensures GoesOn(trace, trace)
  {
  }

  lemma TakeAllPermits(capacity: nat, trace: seq<Event>) returns (more: seq<Event>)
    requires Feasible(capacity, trace)
    ensures Feasible(capacity, more) && GoesOn(trace, more)
    ensures var s, t := Execute(capacity, trace), Execute(capacity, more);
      && t.inUse == capacity && |t.members| == |s.members| + 1
      && (forall j :: 0 <= j < |t.members| ==> Unfilled(t.members[j]) == 0)
      && (forall j :: 0 <= j < |s.members| ==> t.members[j].lost == s.members[j].lost)
      && t.members[|s.members|].lost == 0
  {
    hide Feasible, Execute, GoesOn, Sum, ValidMembers;
    GoesOnItself(trace);
    var s := Execute(capacity, trace);
    more := FillAll(capacity, trace, trace, |s.members|);
    var spare := capacity - s.inUse;
    more := More(capacity, trace, more, Open(1, spare + 1, spare));
    more := FillMember(capacity, trace, more, |s.members|);
  }

  lemma LostOfMore(ms: seq<Member>, ns: seq<Member>)
    requires |ns| == |ms| + 1 && ns[|ms|].lost == 0 && forall j :: 0 <= j < |ms| ==> ns[j].lost == ms[j].lost
    ensures TotalLost(ns) == TotalLost(ms)
  {
    SumOfSame((m: Member) => m.lost, ms, ns[..|ms|]);
  }

  /** Going on, the pools can take every permit there is and use each for a block. */
  lemma UseAllPermits(capacity: nat, trace: seq<Event>) returns (more: seq<Event>)
    requires Feasible(capacity, trace)
    ensures Feasible(capacity, more) && GoesOn(trace, more)
    ensures var s, t := Execute(capacity, trace).members, Execute(capacity, more).members;
      TotalLost(t) == TotalLost(s) && TotalBlocks(t) == capacity + Sum(Uncovered, t) - TotalLost(t)
  {
    hide Feasible, Execute, GoesOn, TotalBlocks, TotalLost;
    more := TakeAllPermits(capacity, trace);
    var t := Execute(capacity, more);
    LostOfMore(Execute(capacity, trace).members, t.members);
    SumOfZeros(Unfilled, t.members);
    BlocksAndPermits(t.members);
  }

  /**
   * By opening pools and getting blocks a run can exceed the global limit, if and only if
   * the blocks that closed pools left uncovered outnumber the permits lost.
   */
  lemma OverrunIsPossible(capacity: nat, trace: seq<Event>)
    requires Feasible(capacity, trace)
    ensures var s := Execute(capacity, trace).members;
      (exists more ::
         Feasible(capacity, more) && GoesOn(trace, more) && TotalBlocks(Execute(capacity, more).members) > capacity)
      <==> Sum(Uncovered, s) > TotalLost(s)
  {
    hide Feasible, Execute, GoesOn, TotalBlocks, TotalLost, Inv;
    forall more | Feasible(capacity, more) && GoesOn(trace, more)
      ensures var s, t := Execute(capacity, trace).members, Execute(capacity, more).members;
        TotalBlocks(t) <= capacity + Sum(Uncovered, s) - TotalLost(s)
    {
      GoingOnCoversNothing(capacity, trace, more);
      BlocksWithinLimit(Execute(capacity, more));
    }
    var most := UseAllPermits(capacity, trace);
    GoingOnCoversNothing(capacity, trace, most);
  }

  lemma CloseWithBlockOut(capacity: nat) returns (trace: seq<Event>)
    requires capacity >= 1
    ensures Feasible(capacity, trace)
    ensures Execute(capacity, trace).members == [Member(Pool(1, 1, 1, 1, [], 1), 0, true)]
  {
    hide Feasible, Execute, Sum;
    EmptyTrace(capacity);
    trace := [];
    ExtendTrace(capacity, trace, Open(1, 1, 1));
    trace := trace + [Open(1, 1, 1)];
    ExtendTrace(capacity, trace, Get(0, true));
    trace := trace + [Get(0, true)];
    ExtendTrace(capacity, trace, Close(0));
    trace := trace + [Close(0)];
  }

  /** A pool closed while its one block is out lets the others exceed the limit by one. */
  lemma ClosedTooEarly(capacity: nat) returns (trace: seq<Event>)
    requires capacity >= 1
    ensures Feasible(capacity, trace) && TotalBlocks(Execute(capacity, trace).members) == capacity + 1
  {
    hide Feasible, Execute, GoesOn, TotalBlocks, Sum;
    var closed := CloseWithBlockOut(capacity);
    var m := Execute(capacity, closed).members[0];
    SumOfOne(Uncovered, m);
    SumOfOne((m: Member) => m.lost, m);
    trace := UseAllPermits(capacity, closed);
    GoingOnCoversNothing(capacity, closed, trace);
  }

  /** ClearFreeBlockChannel of one member: its free blocks are unmapped one by one. */
  ghost function Cleared(s: Shared, i: nat): Shared
    requires Inv(s) && i < |s.members|
    decreases if i < |s.members| then |s.members[i].pool.free| else 0
  {
    if s.members[i].pool.free == [] then s
    else
      GuardIsSafe(s, Unmapped(i));
      StepKeepsInv(s, Unmapped(i));
      Cleared(Apply(s, Unmapped(i)), i)
  }

  lemma {:induction false} ClearedCounts(s: Shared, i: nat)
    requires Inv(s) && i < |s.members|
    ensures var t, m := Cleared(s, i), s.members[i];
      && Inv(t) && |t.members| == |s.members|
      && t.members[i] == m.(pool := m.pool.(free := [], total := m.pool.total - |m.pool.free|))
      && (forall j :: 0 <= j < |s.members| && j != i ==> t.members[j] == s.members[j])
      && s.inUse - t.inUse == Held(m.pool) - Held(t.members[i].pool)
    decreases |s.members[i].pool.free|
  {
    if s.members[i].pool.free != [] {
      GuardIsSafe(s, Unmapped(i));
      StepKeepsInv(s, Unmapped(i));
      ClearedCounts(Apply(s, Unmapped(i)), i);
    }
  }

  /**
   * Once every block of a pool is back, clearing it leaves no block and exactly its
   * reservation; closing it then leaves it without a permit, save those it lost.
   */
  lemma ClearedPoolHolds(s: Shared, i: nat)
    requires Inv(s) && i < |s.members| && !s.members[i].closed
    requires |s.members[i].pool.free| == s.members[i].pool.total
    ensures var t := Cleared(s, i);
      && Guard(t, Close(i)) && Safe(t, Close(i))
      && t.members[i].pool.total == 0
      && Permits(t.members[i]) == s.members[i].pool.reserved + s.members[i].lost
      && Permits(Apply(t, Close(i)).members[i]) == s.members[i].lost
      && Apply(t, Close(i)).inUse == s.inUse - Held(s.members[i].pool)
  {
    ClearedCounts(s, i);
    GuardIsSafe(Cleared(s, i), Close(i));
  }
}
