/** CPU, memory and instance accounting of one runner. */
module Allocator {
  import opened Protocol

  const MEGABYTE: int := 1024 * 1024
  const MEMORY_BUFFER: int := 100 * 1024 * 1024

  datatype Limits = Limits(maxCpus: UInt64, maxMemoryBytes: UInt64, maxInstances: Option<nat>)

  datatype Rejection =
    | InsufficientCpu(required: UInt64, available: UInt64)
    | InsufficientMemory(required: UInt64, available: UInt64)
    | InstanceLimitReached(current: nat, max: nat)

  datatype Accounts = Accounts(cpus: UInt64, memory: UInt64, jobs: map<Uuid, VM>)

  const NO_JOBS := Accounts(0, 0, map[])

  /** 64-bit addition and multiplication, with their wrap-around. */
  function WrapAdd(x: UInt64, y: UInt64): UInt64 {
    (x + y) % TWO_64
  }

  function SaturatingSub(x: UInt64, y: UInt64): UInt64 {
    if x >= y then x - y else 0
  }

  function Bytes(memoryMb: UInt64): UInt64 {
    (memoryMb * MEGABYTE) % TWO_64
  }

  /** What the limits leave, less one CPU and 100 MiB that always stay free. */
  function AvailableCpus(a: Accounts, limits: Limits): UInt64 {
    SaturatingSub(limits.maxCpus, WrapAdd(a.cpus, 1))
  }

  function AvailableMemory(a: Accounts, limits: Limits): UInt64 {
    SaturatingSub(limits.maxMemoryBytes, WrapAdd(a.memory, MEMORY_BUFFER))
  }

  function CheckLimits(a: Accounts, cpus: UInt64, memory: UInt64, limits: Limits): Option<Rejection> {
    if limits.maxInstances.Some? && |a.jobs| >= limits.maxInstances.value
    then Some(InstanceLimitReached(|a.jobs|, limits.maxInstances.value))
    else if AvailableCpus(a, limits) < cpus then Some(InsufficientCpu(cpus, AvailableCpus(a, limits)))
    else if AvailableMemory(a, limits) < memory then Some(InsufficientMemory(memory, AvailableMemory(a, limits)))
    else None
  }

  function Fits(a: Accounts, vm: VM, limits: Limits): bool {
    CheckLimits(a, vm.cpuCount, Bytes(vm.memorySizeMb), limits).None?
  }

  /** Adds the VM to the books, replacing whatever the id stood for. */
  function Allocate(a: Accounts, id: Uuid, vm: VM, limits: Limits): Accounts {
    if Fits(a, vm, limits)
    then Accounts(WrapAdd(a.cpus, vm.cpuCount), WrapAdd(a.memory, Bytes(vm.memorySizeMb)), a.jobs[id := vm])
    else a
  }

  function Release(a: Accounts, id: Uuid): Accounts {
    if id in a.jobs
    then Accounts(SaturatingSub(a.cpus, a.jobs[id].cpuCount),
                  SaturatingSub(a.memory, Bytes(a.jobs[id].memorySizeMb)),
                  a.jobs - {id})
    else a
  }

  // ---------- Sums over the job map ----------

  datatype Resource = Cpus | Memory

  function Weight(r: Resource, vm: VM): nat {
    match r
    case Cpus => vm.cpuCount
    case Memory => Bytes(vm.memorySizeMb)
  }

  function Counter(a: Accounts, r: Resource): nat {
    match r
    case Cpus => a.cpus
    case Memory => a.memory
  }

  ghost function Total(jobs: map<Uuid, VM>, r: Resource): nat {
    if jobs == map[] then 0
    else
      var id :| id in jobs;
      Weight(r, jobs[id]) + Total(jobs - {id}, r)
  }

  lemma {:induction false} TotalWithout(jobs: map<Uuid, VM>, r: Resource, id: Uuid)
    requires id in jobs
    ensures Total(jobs, r) == Weight(r, jobs[id]) + Total(jobs - {id}, r)
    decreases |jobs|
  {
    var first :| first in jobs && Total(jobs, r) == Weight(r, jobs[first]) + Total(jobs - {first}, r);
    if first != id {
      TotalWithout(jobs - {first}, r, id);
      TotalWithout(jobs - {id}, r, first);
      assert jobs - {first} - {id} == jobs - {id} - {first};
    }
  }

  lemma TotalWith(jobs: map<Uuid, VM>, r: Resource, id: Uuid, vm: VM)
    ensures Total(jobs[id := vm], r) == Total(jobs - {id}, r) + Weight(r, vm)
  {
    TotalWithout(jobs[id := vm], r, id);
    assert jobs[id := vm] - {id} == jobs - {id};
  }

  lemma {:induction false} TotalOfPart(part: map<Uuid, VM>, jobs: map<Uuid, VM>, r: Resource)
    requires forall id | id in part :: id in jobs && jobs[id] == part[id]
    ensures Total(part, r) <= Total(jobs, r)
    decreases |part|
  {
    if part == map[] {
    } else {
      var id :| id in part;
      TotalOfPart(part - {id}, jobs - {id}, r);
      TotalWithout(part, r, id);
      TotalWithout(jobs, r, id);
    }
  }

  // ---------- Every run ----------

  datatype Op = AllocateOp(id: Uuid, vm: VM) | ReleaseOp(id: Uuid)

  function Step(a: Accounts, op: Op, limits: Limits): Accounts {
    match op
    case AllocateOp(id, vm) => Allocate(a, id, vm, limits)
    case ReleaseOp(id) => Release(a, id)
  }

  function Run(ops: seq<Op>, limits: Limits): Accounts {
    if ops == [] then NO_JOBS else Step(Run(ops[..|ops| - 1], limits), ops[|ops| - 1], limits)
  }

  /** What an accepted allocation loses track of: the entry it overwrites. */
  function Overwritten(a: Accounts, op: Op, limits: Limits, r: Resource): nat {
    if op.AllocateOp? && Fits(a, op.vm, limits) && op.id in a.jobs then Weight(r, a.jobs[op.id]) else 0
  }

  function Leaked(ops: seq<Op>, limits: Limits, r: Resource): nat {
    if ops == [] then 0
    else
      var front := ops[..|ops| - 1];
      Leaked(front, limits, r) + Overwritten(Run(front, limits), ops[|ops| - 1], limits, r)
  }

  /** Nothing is used, or the reserve is left; and there are no more jobs than allowed. */
  predicate WithinLimits(a: Accounts, limits: Limits) {
    && (a.cpus == 0 || a.cpus + 1 <= limits.maxCpus)
    && (a.memory == 0 || a.memory + MEMORY_BUFFER <= limits.maxMemoryBytes)
    && (limits.maxInstances.Some? ==> |a.jobs| <= limits.maxInstances.value)
  }

  /** The limits check in plain arithmetic: a request fits iff an instance is left and, unless it asks for
      nothing, the sum with the reserve stays within the limit. */
  lemma FitsMeans(a: Accounts, cpus: UInt64, memory: UInt64, limits: Limits)
    requires WithinLimits(a, limits)
    ensures CheckLimits(a, cpus, memory, limits).None? <==>
              && (limits.maxInstances.Some? ==> |a.jobs| < limits.maxInstances.value)
              && (cpus == 0 || a.cpus + cpus + 1 <= limits.maxCpus)
              && (memory == 0 || a.memory + memory + 104_857_600 <= limits.maxMemoryBytes)
    ensures a.cpus + 1 < TWO_64 && a.memory + 104_857_600 < TWO_64
  {
    assert WrapAdd(a.cpus, 1) == a.cpus + 1;
    assert WrapAdd(a.memory, MEMORY_BUFFER) == a.memory + MEMORY_BUFFER;
  }

  lemma OneMoreAtMost(jobs: map<Uuid, VM>, id: Uuid, vm: VM)
    ensures |jobs[id := vm]| <= |jobs| + 1
  {
    assert jobs[id := vm].Keys == jobs.Keys + {id};
  }

  /** Which reason is given, and with which numbers: what is asked for, and what is left beside the reserve. */
  lemma RejectionTells(a: Accounts, cpus: UInt64, memory: UInt64, limits: Limits)
    requires WithinLimits(a, limits)
    ensures match CheckLimits(a, cpus, memory, limits)
            case None => true
            case Some(InstanceLimitReached(current, max)) =>
              limits.maxInstances == Some(max) && current == |a.jobs| && current >= max
            case Some(InsufficientCpu(required, available)) =>
              && (limits.maxInstances.Some? ==> |a.jobs| < limits.maxInstances.value)
              && required == cpus > available
              && available == if limits.maxCpus == 0 then 0 else limits.maxCpus - 1 - a.cpus
            case Some(InsufficientMemory(required, available)) =>
              && cpus <= AvailableCpus(a, limits) && required == memory > available
              && available == if limits.maxMemoryBytes < 104_857_600 then 0
                              else limits.maxMemoryBytes - 104_857_600 - a.memory
  {
    FitsMeans(a, cpus, memory, limits);
  }

  lemma AllocateWithinLimits(a: Accounts, id: Uuid, vm: VM, limits: Limits)
    requires WithinLimits(a, limits) && Fits(a, vm, limits)
    ensures WithinLimits(Allocate(a, id, vm, limits), limits)
    ensures forall r :: Counter(Allocate(a, id, vm, limits), r) == Counter(a, r) + Weight(r, vm)
  {
    hide CheckLimits, Bytes;
    FitsMeans(a, vm.cpuCount, Bytes(vm.memorySizeMb), limits);
    OneMoreAtMost(a.jobs, id, vm);
  }

  lemma ReleaseWithinLimits(a: Accounts, id: Uuid, limits: Limits)
    requires WithinLimits(a, limits)
    ensures WithinLimits(Release(a, id), limits)
  {
    if id in a.jobs {
      assert Release(a, id).jobs.Keys == a.jobs.Keys - {id};
    }
  }

  lemma AllocateKeepsBooks(a: Accounts, id: Uuid, vm: VM, limits: Limits, r: Resource, leaked: nat)
    requires WithinLimits(a, limits) && Counter(a, r) == Total(a.jobs, r) + leaked
    ensures var b := Allocate(a, id, vm, limits);
            Counter(b, r) == Total(b.jobs, r) + leaked + Overwritten(a, AllocateOp(id, vm), limits, r)
  {
    if Fits(a, vm, limits) {
      AllocateWithinLimits(a, id, vm, limits);
      hide Fits, WithinLimits;
      TotalWith(a.jobs, r, id, vm);
      if id in a.jobs {
        TotalWithout(a.jobs, r, id);
      } else {
        assert a.jobs - {id} == a.jobs;
      }
    }
  }

  lemma ReleaseKeepsBooks(a: Accounts, id: Uuid, r: Resource, leaked: nat)
    requires Counter(a, r) == Total(a.jobs, r) + leaked
    ensures Counter(Release(a, id), r) == Total(Release(a, id).jobs, r) + leaked
  {
    if id in a.jobs {
      TotalWithout(a.jobs, r, id);
    }
  }

  lemma NoJobsBooks(limits: Limits, r: Resource)
    ensures WithinLimits(NO_JOBS, limits) && Counter(NO_JOBS, r) == Total(NO_JOBS.jobs, r)
  {
  }

  lemma AllocateKeepsLimits(a: Accounts, id: Uuid, vm: VM, limits: Limits)
    requires WithinLimits(a, limits)
    ensures WithinLimits(Allocate(a, id, vm, limits), limits)
  {
    if Fits(a, vm, limits) {
      AllocateWithinLimits(a, id, vm, limits);
    }
  }

  lemma ReleaseOverwritesNothing(a: Accounts, id: Uuid, limits: Limits, r: Resource)
    ensures Overwritten(a, ReleaseOp(id), limits, r) == 0
  {
  }

  /** The exact books of any run, reused ids included: each counter is the sum over the job map plus
      what overwriting leaked, and the limits hold. */
  lemma {:induction false} ExactBooks(ops: seq<Op>, limits: Limits, r: Resource)
    ensures WithinLimits(Run(ops, limits), limits)
    ensures Counter(Run(ops, limits), r) == Total(Run(ops, limits).jobs, r) + Leaked(ops, limits, r)
  {
    hide Fits, Allocate, Release, WithinLimits, Weight, Overwritten;
    if ops == [] {
      NoJobsBooks(limits, r);
    } else {
      var front, op := ops[..|ops| - 1], ops[|ops| - 1];
      var a, leaked := Run(front, limits), Leaked(front, limits, r);
      ExactBooks(front, limits, r);
      match op
      case AllocateOp(id, vm) =>
        AllocateKeepsBooks(a, id, vm, limits, r, leaked);
        AllocateKeepsLimits(a, id, vm, limits);
      case ReleaseOp(id) =>
        ReleaseKeepsBooks(a, id, r, leaked);
        ReleaseWithinLimits(a, id, limits);
        ReleaseOverwritesNothing(a, id, limits, r);
    }
  }

  /** No addition wraps and no subtraction saturates in any reachable state, even when ids are reused. */
  lemma ArithmeticIsExact(ops: seq<Op>, limits: Limits, id: Uuid, vm: VM)
    ensures var a := Run(ops, limits);
            && a.cpus + 1 < TWO_64 && a.memory + MEMORY_BUFFER < TWO_64
            && (Fits(a, vm, limits) ==>
                  a.cpus + vm.cpuCount < TWO_64 && a.memory + Bytes(vm.memorySizeMb) < TWO_64)
            && (id in a.jobs ==>
                  a.jobs[id].cpuCount <= a.cpus && Bytes(a.jobs[id].memorySizeMb) <= a.memory)
  {
    var a := Run(ops, limits);
    ExactBooks(ops, limits, Cpus);
    ExactBooks(ops, limits, Memory);
    FitsMeans(a, vm.cpuCount, Bytes(vm.memorySizeMb), limits);
    if id in a.jobs {
      assert Counter(a, Cpus) >= Total(a.jobs, Cpus) && Counter(a, Memory) >= Total(a.jobs, Memory);
      TotalWithout(a.jobs, Cpus, id);
      TotalWithout(a.jobs, Memory, id);
    }
  }

  function AllocatedIds(ops: seq<Op>): set<Uuid> {
    set i | 0 <= i < |ops| && ops[i].AllocateOp? :: ops[i].id
  }

  ghost predicate FreshIds(ops: seq<Op>) {
    forall j | 0 <= j < |ops| && ops[j].AllocateOp? :: ops[j].id !in AllocatedIds(ops[..j])
  }

  lemma {:induction false} JobsWereAllocated(ops: seq<Op>, limits: Limits)
    ensures Run(ops, limits).jobs.Keys <= AllocatedIds(ops)
  {
    hide Fits;
    if ops == [] {
    } else {
      var front, last := ops[..|ops| - 1], |ops| - 1;
      JobsWereAllocated(front, limits);
      assert ops[last].AllocateOp? ==> ops[last].id in AllocatedIds(ops);
      assert AllocatedIds(front) <= AllocatedIds(ops) by {
        forall i | 0 <= i < |front| && front[i].AllocateOp? ensures front[i].id in AllocatedIds(ops) {
          assert ops[i] == front[i];
        }
      }
    }
  }

  /** With a fresh id per allocation nothing leaks: the counters are the sums over the job map. */
  lemma {:induction false} FreshIdsLeakNothing(ops: seq<Op>, limits: Limits, r: Resource)
    requires FreshIds(ops)
    ensures Leaked(ops, limits, r) == 0
    ensures Counter(Run(ops, limits), r) == Total(Run(ops, limits).jobs, r)
  {
    hide Fits, WithinLimits, AllocatedIds;
    if ops == [] {
    } else {
      var front := ops[..|ops| - 1];
      forall j | 0 <= j < |front| && front[j].AllocateOp? ensures front[j].id !in AllocatedIds(front[..j]) {
        assert ops[j] == front[j] && ops[..j] == front[..j];
      }
      FreshIdsLeakNothing(front, limits, r);
      JobsWereAllocated(front, limits);
    }
    ExactBooks(ops, limits, r);
  }

  /** The accounted bytes are the requested megabytes exactly below 2^44 MB; 2^44 MB count as nothing. */
  lemma BytesAreReal(memoryMb: UInt64)
    ensures Bytes(memoryMb) == memoryMb * 1_048_576 <==> memoryMb < 0x1000_0000_0000
    ensures Bytes(0x1000_0000_0000) == 0
  {
  }

  // ---------- The manager as the runner uses it ----------

  datatype AllocationResult = Allocated(id: Uuid, vm: VM) | Rejected(reason: Rejection)

  class ResourceManager {
    const limits: Limits
    var allocatedCpus: UInt64
    var allocatedMemory: UInt64
    var jobs: map<Uuid, VM>

    function View(): Accounts
      reads this
    {
      Accounts(allocatedCpus, allocatedMemory, jobs)
    }

    constructor (limits: Limits)
      ensures this.limits == limits && View() == NO_JOBS
    {
      this.limits := limits;
      allocatedCpus, allocatedMemory, jobs := 0, 0, map[];
    }

    /** Instances first, then CPUs, then memory. */
    method Check(cpus: UInt64, memory: UInt64) returns (reason: Option<Rejection>)
      ensures reason == CheckLimits(View(), cpus, memory, limits)
    {
      if limits.maxInstances.Some? {
        if |jobs| >= limits.maxInstances.value {
          return Some(InstanceLimitReached(|jobs|, limits.maxInstances.value));
        }
      }
      var availableCpus := SaturatingSub(limits.maxCpus, WrapAdd(allocatedCpus, 1));
      if availableCpus < cpus {
        return Some(InsufficientCpu(cpus, availableCpus));
      }
      var availableMemory := SaturatingSub(limits.maxMemoryBytes, WrapAdd(allocatedMemory, MEMORY_BUFFER));
      if availableMemory < memory {
        return Some(InsufficientMemory(memory, availableMemory));
      }
      reason := None;
    }

    /** Answers the question and reserves nothing. */
    method CanAllocate(cpus: UInt64, memoryMb: UInt64) returns (yes: bool)
      ensures yes <==> CheckLimits(View(), cpus, Bytes(memoryMb), limits).None?
    {
      var reason := Check(cpus, Bytes(memoryMb));
      yes := reason.None?;
    }

    method HasMinimalCapacity() returns (yes: bool)
      ensures yes <==> CheckLimits(View(), 1, 0, limits).None?
    {
      yes := CanAllocate(1, 0);
    }

    method AllocateResources(id: Uuid, vm: VM) returns (result: AllocationResult)
      modifies this
      ensures View() == Allocate(old(View()), id, vm, limits)
      ensures var reason := CheckLimits(old(View()), vm.cpuCount, Bytes(vm.memorySizeMb), limits);
              result == if reason.None? then Allocated(id, vm) else Rejected(reason.value)
    {
      var memory := Bytes(vm.memorySizeMb);
      var reason := Check(vm.cpuCount, memory);
      if reason.Some? {
        return Rejected(reason.value);
      }
      allocatedCpus := WrapAdd(allocatedCpus, vm.cpuCount);
      allocatedMemory := WrapAdd(allocatedMemory, memory);
      jobs := jobs[id := vm];
      result := Allocated(id, vm);
    }

    method ReleaseJob(id: Uuid) returns (released: Option<VM>)
      modifies this
      ensures View() == Release(old(View()), id)
      ensures released == if id in old(jobs) then Some(old(jobs)[id]) else None
    {
      if id !in jobs {
        return None;
      }
      var vm := jobs[id];
      jobs := jobs - {id};
      allocatedCpus := SaturatingSub(allocatedCpus, vm.cpuCount);
      allocatedMemory := SaturatingSub(allocatedMemory, Bytes(vm.memorySizeMb));
      released := Some(vm);
    }
  }
}
