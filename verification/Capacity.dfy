/** Host admission (internal/capacity/capacity.go): how many more devices of one profile fit, and why
    none does. Processor cores are reals, everything else whole numbers. */
module Capacity {
  import opened RuntimeProfile

  const RESERVE_CPU: real := 1.0
  const RESERVE_MEMORY: int := 2048
  const RESERVE_DISK: int := 4096
  const MAX_INT: int := 0x7FFF_FFFF_FFFF_FFFF

  /** No slot limit is a limit of zero. */
  datatype Host = Host(cpu: real, memoryTotal: int, memoryAvailable: int, diskAvailable: int, slots: int)

  datatype Allocation = Allocation(cpu: real, memory: int, disk: int, slots: int)

  /** What one more device takes; `disk` includes the image when the host does not have it yet. */
  datatype Demand = Demand(cpu: real, memory: int, disk: int)

  datatype Resource = Cpu | Memory | Disk | Slots

  datatype Result = Result(fits: bool, additional: int, limiting: Resource, shortfall: map<Resource, int>)

  function DemandOf(p: Profile, cached: bool): (result: Demand) {
    Demand(p.cpu, p.memory, if cached then p.dataDisk else p.dataDisk + p.imageDisk)
  }

  /** What any valid profile asks for. */
  predicate Reasonable(d: Demand) {
    1.0 <= d.cpu && 2048 <= d.memory && 0 <= d.disk
  }

  lemma ValidProfilesAreReasonable(p: Profile, cached: bool)
    requires Valid(p)
    ensures Reasonable(DemandOf(p, cached))
  {
  }

  /** An image costs disk only on a host that does not have it, and then its own size; nothing else depends on it. */
  lemma CachedImageIsFree(p: Profile)
    requires Valid(p)
    ensures DemandOf(p, true).disk == p.dataDisk && DemandOf(p, false).disk - DemandOf(p, true).disk == p.imageDisk
    ensures forall cached :: DemandOf(p, cached).cpu == p.cpu && DemandOf(p, cached).memory == p.memory
  {
  }

  // ---- What is left on a host ----

  function LeftCpu(h: Host, existing: Allocation, pending: Allocation): (result: real) {
    var left := h.cpu - RESERVE_CPU - existing.cpu - pending.cpu;
    if left >= 0.0 then left else 0.0
  }

  /** The smaller of what the limits leave and what the host reports free. */
  function LeftMemory(h: Host, existing: Allocation, pending: Allocation): (result: int) {
    Max(0, Min(h.memoryTotal - RESERVE_MEMORY - existing.memory - pending.memory,
               h.memoryAvailable - RESERVE_MEMORY - pending.memory))
  }

  /** Existing files are already out of what the host reports free. */
  function LeftDisk(h: Host, pending: Allocation): (result: int) {
    Max(0, h.diskAvailable - RESERVE_DISK - pending.disk)
  }

  /** `n` copies of a demand fit next to what exists and what is pending. */
  predicate Fit(h: Host, existing: Allocation, pending: Allocation, d: Demand, n: nat) {
    && n as real * d.cpu <= LeftCpu(h, existing, pending)
    && n * d.memory <= LeftMemory(h, existing, pending)
    && n * d.disk <= LeftDisk(h, pending)
    && (h.slots > 0 ==> existing.slots + pending.slots + n <= h.slots)
  }

  // ---- The four bounds ----

  function ByCpu(h: Host, existing: Allocation, pending: Allocation, d: Demand): (result: int)
    requires Reasonable(d)
  {
    (LeftCpu(h, existing, pending) / d.cpu).Floor
  }

  function ByMemory(h: Host, existing: Allocation, pending: Allocation, d: Demand): (result: int)
    requires Reasonable(d)
  {
    LeftMemory(h, existing, pending) / d.memory
  }

  function ByDisk(h: Host, pending: Allocation, d: Demand): (result: int) {
    if d.disk > 0 then LeftDisk(h, pending) / d.disk else MAX_INT
  }

  function BySlots(h: Host, existing: Allocation, pending: Allocation): (result: int) {
    if h.slots > 0 then h.slots - existing.slots - pending.slots else MAX_INT
  }

  function Additional(h: Host, existing: Allocation, pending: Allocation, d: Demand): (result: int)
    requires Reasonable(d)
  {
    Max(0, Min(Min(ByCpu(h, existing, pending, d), ByMemory(h, existing, pending, d)),
               Min(ByDisk(h, pending, d), BySlots(h, existing, pending))))
  }

  /** The memory columns hold 64-bit numbers. */
  predicate Sized(h: Host, existing: Allocation, pending: Allocation) {
    LeftMemory(h, existing, pending) <= MAX_INT
  }

  lemma CpuBound(left: real, cpu: real, n: int)
    requires cpu > 0.0
    ensures n <= (left / cpu).Floor <==> n as real * cpu <= left
  {
    var x := left / cpu;
    assert x * cpu == left;
    assert n <= x.Floor <==> n as real <= x;
    if n as real <= x {
      Scaled(n as real, x, cpu);
    } else {
      assert n as real - x > 0.0;
      assert (n as real - x) * cpu > 0.0;
    }
  }

  lemma Scaled(a: real, b: real, c: real)
    requires a <= b && c >= 0.0
    ensures a * c <= b * c
  {
  }

  lemma WholeBound(left: int, each: int, n: int)
    requires each > 0
    ensures n <= left / each <==> n * each <= left
  {
    var q, r := left / each, left % each;
    assert left == each * q + r;
    if n <= q {
      Product(n, q, each);
    } else {
      Product(q + 1, n, each);
      assert (q + 1) * each == each * q + each;
    }
  }

  lemma Product(a: int, b: int, c: int)
    requires a <= b && c >= 0
    ensures a * c <= b * c
  {
  }

  lemma CpuFits(h: Host, existing: Allocation, pending: Allocation, d: Demand, n: nat)
    requires Reasonable(d)
    ensures n as real * d.cpu <= LeftCpu(h, existing, pending) <==> n <= ByCpu(h, existing, pending, d)
  {
    CpuBound(LeftCpu(h, existing, pending), d.cpu, n);
  }

  lemma MemoryFits(h: Host, existing: Allocation, pending: Allocation, d: Demand, n: nat)
    requires Reasonable(d)
    ensures n * d.memory <= LeftMemory(h, existing, pending) <==> n <= ByMemory(h, existing, pending, d)
  {
    WholeBound(LeftMemory(h, existing, pending), d.memory, n);
  }

  lemma DiskFits(h: Host, pending: Allocation, d: Demand, n: nat)
    requires Reasonable(d) && n <= MAX_INT
    ensures n * d.disk <= LeftDisk(h, pending) <==> n <= ByDisk(h, pending, d)
  {
    if d.disk > 0 {
      WholeBound(LeftDisk(h, pending), d.disk, n);
    } else {
      assert n * d.disk == 0;
    }
  }

  lemma MemoryBelowMax(h: Host, existing: Allocation, pending: Allocation, d: Demand)
    requires Reasonable(d) && Sized(h, existing, pending)
    ensures 0 <= ByMemory(h, existing, pending, d) < MAX_INT
  {
  }

  /** `Additional` is exactly the largest number of copies that fit processor, memory, disk and slots
      together: one or more copies fit exactly when there are no more of them than that. */
  lemma AdditionalIsExact(h: Host, existing: Allocation, pending: Allocation, d: Demand, n: nat)
    requires Reasonable(d) && Sized(h, existing, pending) && n >= 1
    ensures Fit(h, existing, pending, d, n) <==> n <= Additional(h, existing, pending, d)
  {
    CpuFits(h, existing, pending, d, n);
    MemoryFits(h, existing, pending, d, n);
    MemoryBelowMax(h, existing, pending, d);
    if n <= MAX_INT {
      DiskFits(h, pending, d, n);
    }
  }

  /** A host admits `n` devices of a profile exactly when what exists, what is pending and all of them fit next to the
      reserves: in the limits of processor and memory, in the memory and the disk the host reports free, where what
      exists is out already and an image counts only when the host does not have it, and in the slots, if there are
      any. */
  lemma AdmitsExactlyWhen(h: Host, existing: Allocation, pending: Allocation, p: Profile, cached: bool, n: nat)
    requires Valid(p) && Sized(h, existing, pending) && n >= 1
    ensures Reasonable(DemandOf(p, cached))
    ensures n <= Additional(h, existing, pending, DemandOf(p, cached)) <==>
            NextToTheRest(h, existing, pending, p.cpu, p.memory,
                          if cached then p.dataDisk else p.dataDisk + p.imageDisk, n)
  {
    AdditionalIsExact(h, existing, pending, DemandOf(p, cached), n);
    FitsNextToTheRest(h, existing, pending, DemandOf(p, cached), n);
  }

  ghost predicate NextToTheRest(h: Host, existing: Allocation, pending: Allocation, cpu: real, memory: int, disk: int,
                                n: nat)
  {
    && 1.0 + existing.cpu + pending.cpu + n as real * cpu <= h.cpu
    && 2048 + existing.memory + pending.memory + n * memory <= h.memoryTotal
    && 2048 + pending.memory + n * memory <= h.memoryAvailable
    && 4096 + pending.disk + n * disk <= h.diskAvailable
    && (h.slots > 0 ==> existing.slots + pending.slots + n <= h.slots)
  }

  lemma FitsNextToTheRest(h: Host, existing: Allocation, pending: Allocation, d: Demand, n: nat)
    requires Reasonable(d) && d.disk > 0 && n >= 1
    ensures Fit(h, existing, pending, d, n) <==> NextToTheRest(h, existing, pending, d.cpu, d.memory, d.disk, n)
  {
    Scaled(1.0, n as real, d.cpu);
    Product(1, n, d.memory);
    Product(1, n, d.disk);
    LeftIsEnough(h, existing, pending, n as real * d.cpu, n * d.memory, n * d.disk);
  }

  /** What is left suffices for some amount of everything exactly when that fits next to the rest. */
  lemma LeftIsEnough(h: Host, existing: Allocation, pending: Allocation, cpu: real, memory: int, disk: int)
    requires cpu > 0.0 && memory > 0 && disk > 0
    ensures cpu <= LeftCpu(h, existing, pending) <==> 1.0 + existing.cpu + pending.cpu + cpu <= h.cpu
    ensures memory <= LeftMemory(h, existing, pending) <==>
            && 2048 + existing.memory + pending.memory + memory <= h.memoryTotal
            && 2048 + pending.memory + memory <= h.memoryAvailable
    ensures disk <= LeftDisk(h, pending) <==> 4096 + pending.disk + disk <= h.diskAvailable
  {
  }

  // ---- Charging ----

  /** `pending` after `k` admissions of one demand. */
  function Charge(pending: Allocation, d: Demand, k: nat): (result: Allocation) {
    Allocation(pending.cpu + k as real * d.cpu, pending.memory + k * d.memory, pending.disk + k * d.disk,
               pending.slots + k)
  }

  lemma FitAfterCharge(h: Host, existing: Allocation, pending: Allocation, d: Demand, k: nat, n: nat)
    requires Reasonable(d) && k >= 1 && Fit(h, existing, pending, d, k)
    ensures Fit(h, existing, Charge(pending, d, k), d, n) <==> Fit(h, existing, pending, d, k + n)
  {
  }

  /** Charging as many copies as fit, or fewer, leaves exactly the rest. */
  lemma ChargingLeavesTheRest(h: Host, existing: Allocation, pending: Allocation, d: Demand, k: nat)
    requires Reasonable(d) && Sized(h, existing, pending) && k <= Additional(h, existing, pending, d)
    ensures Additional(h, existing, Charge(pending, d, k), d) == Additional(h, existing, pending, d) - k
  {
    var charged := Charge(pending, d, k);
    if k == 0 {
      assert charged == pending;
    } else {
      Product(0, k, d.memory);
      assert Sized(h, existing, charged);
      var before, after := Additional(h, existing, pending, d), Additional(h, existing, charged, d);
      AdditionalIsExact(h, existing, pending, d, k);
      if after > before - k {
        AdditionalIsExact(h, existing, charged, d, after);
        FitAfterCharge(h, existing, pending, d, k, after);
        AdditionalIsExact(h, existing, pending, d, k + after);
      } else if after < before - k {
        FitAfterCharge(h, existing, pending, d, k, before - k);
        AdditionalIsExact(h, existing, pending, d, before);
        AdditionalIsExact(h, existing, charged, d, before - k);
      }
    }
  }

  // ---- Mixed admissions ----

  /** Admitting demands one by one, each charged only when at least one copy fits. */
  function Admit(h: Host, existing: Allocation, pending: Allocation, demands: seq<Demand>): (result: Allocation)
    requires forall i :: 0 <= i < |demands| ==> Reasonable(demands[i])
    decreases |demands|
  {
    if demands == [] then pending
    else Admit(h, existing, if Additional(h, existing, pending, demands[0]) > 0 then Charge(pending, demands[0], 1)
               else pending, demands[1..])
  }

  predicate WithinBudget(h: Host, existing: Allocation, pending: Allocation) {
    && RESERVE_CPU + existing.cpu + pending.cpu <= h.cpu
    && RESERVE_MEMORY + existing.memory + pending.memory <= h.memoryTotal
    && RESERVE_MEMORY + pending.memory <= h.memoryAvailable
    && (RESERVE_DISK + pending.disk <= h.diskAvailable)
    && (h.slots > 0 ==> existing.slots + pending.slots <= h.slots)
  }

  lemma AdmissionStaysWithin(h: Host, existing: Allocation, pending: Allocation, d: Demand)
    requires Reasonable(d) && Sized(h, existing, pending) && Additional(h, existing, pending, d) > 0
    requires d.disk > 0 || RESERVE_DISK + pending.disk <= h.diskAvailable
    ensures WithinBudget(h, existing, Charge(pending, d, 1)) && Sized(h, existing, Charge(pending, d, 1))
  {
    AdditionalIsExact(h, existing, pending, d, 1);
  }

  /** Any sequence of admissions of mixed profiles keeps the host within its budget less the reserves. */
  lemma {:induction false} MixedAdmissionsStayWithin(h: Host, existing: Allocation, pending: Allocation,
                                                     demands: seq<Demand>)
    requires forall i :: 0 <= i < |demands| ==> Reasonable(demands[i])
    requires WithinBudget(h, existing, pending) && Sized(h, existing, pending)
    ensures WithinBudget(h, existing, Admit(h, existing, pending, demands))
    decreases |demands|
  {
    if demands == [] {
    } else {
      if Additional(h, existing, pending, demands[0]) > 0 {
        AdmissionStaysWithin(h, existing, pending, demands[0]);
        MixedAdmissionsStayWithin(h, existing, Charge(pending, demands[0], 1), demands[1..]);
      } else {
        MixedAdmissionsStayWithin(h, existing, pending, demands[1..]);
      }
    }
  }

  // ---- Evaluation ----

  /** The smallest whole number that is not below `x`. */
  function Ceil(x: real): (n: int)
    ensures n as real - 1.0 < x <= n as real
  {
    -((-x).Floor)
  }

  /** Evaluates one profile on a host. Nothing fits exactly when something is short, and what is named short is
      just what would have to be added of that resource for one device. */
  method Evaluate(h: Host, existing: Allocation, pending: Allocation, p: Profile, cached: bool) returns (r: Result)
    requires Valid(p) && Sized(h, existing, pending)
    ensures Evaluated(h, existing, pending, DemandOf(p, cached), r)
  {
    ValidProfilesAreReasonable(p, cached);
    r := EvaluateDemand(h, existing, pending, DemandOf(p, cached));
  }

  ghost predicate Evaluated(h: Host, existing: Allocation, pending: Allocation, d: Demand, r: Result) {
    && Reasonable(d)
    && r.additional == Additional(h, existing, pending, d) && r.fits == Fit(h, existing, pending, d, 1)
    && (r.fits <==> r.shortfall == map[])
    && (!r.fits ==> Short(h, existing, pending, d, r.shortfall))
    && Bound(h, existing, pending, d, r.limiting) == Least(h, existing, pending, d)
    && (forall x :: Rank(x) < Rank(r.limiting) ==> Bound(h, existing, pending, d, x) > Least(h, existing, pending, d))
  }

  /** Exactly what one device lacks: the resources that are short, by the amount that is missing. */
  ghost predicate Short(h: Host, existing: Allocation, pending: Allocation, d: Demand, shortfall: map<Resource, int>) {
    && (Cpu in shortfall <==> LeftCpu(h, existing, pending) < d.cpu)
    && (Memory in shortfall <==> LeftMemory(h, existing, pending) < d.memory)
    && (Disk in shortfall <==> LeftDisk(h, pending) < d.disk)
    && (Slots in shortfall <==> h.slots > 0 && existing.slots + pending.slots >= h.slots)
    && (forall x :: x in shortfall ==> shortfall[x] > 0)
    && (Memory in shortfall ==> LeftMemory(h, existing, pending) + shortfall[Memory] == d.memory)
    && (Disk in shortfall ==> LeftDisk(h, pending) + shortfall[Disk] == d.disk)
    && (Cpu in shortfall ==>
          var missing := (d.cpu - LeftCpu(h, existing, pending)) * 1000.0;
          (shortfall[Cpu] - 1) as real < missing <= shortfall[Cpu] as real)
  }

  method EvaluateDemand(h: Host, existing: Allocation, pending: Allocation, d: Demand) returns (r: Result)
    requires Reasonable(d) && Sized(h, existing, pending)
    ensures Evaluated(h, existing, pending, d, r)
  {
    AdditionalIsExact(h, existing, pending, d, 1);
    var counts := [ByCpu(h, existing, pending, d), ByMemory(h, existing, pending, d), ByDisk(h, pending, d),
                   BySlots(h, existing, pending)];
    var names := [Cpu, Memory, Disk, Slots];
    MemoryBelowMax(h, existing, pending, d);
    var minimum, limiting, i := MAX_INT, Cpu, 0;
    while i < 4
      invariant 0 <= i <= 4 && minimum <= MAX_INT
      invariant forall j :: 0 <= j < i ==> minimum <= counts[j]
      invariant minimum < MAX_INT ==> minimum == counts[Rank(limiting)]
      invariant minimum < MAX_INT ==> forall j :: 0 <= j < Rank(limiting) ==> minimum < counts[j]
    {
      if counts[i] < minimum {
        minimum, limiting := counts[i], names[i];
      }
      i := i + 1;
    }
    assert minimum <= counts[0] && minimum <= counts[1] && minimum <= counts[2] && minimum <= counts[3];
    assert minimum == counts[Rank(limiting)] == Least(h, existing, pending, d);
    forall x | Rank(x) < Rank(limiting)
      ensures Bound(h, existing, pending, d, x) > Least(h, existing, pending, d)
    {
      assert counts[Rank(x)] == Bound(h, existing, pending, d, x);
    }
    var shortfall := Shortfall(h, existing, pending, d);
    CpuFits(h, existing, pending, d, 1);
    MemoryFits(h, existing, pending, d, 1);
    DiskFits(h, pending, d, 1);
    r := Result(minimum > 0, if minimum > 0 then minimum else 0, limiting, if minimum > 0 then map[] else shortfall);
  }

  /** What one device lacks, resource by resource. */
  method Shortfall(h: Host, existing: Allocation, pending: Allocation, d: Demand)
    returns (shortfall: map<Resource, int>)
    requires Reasonable(d)
    ensures Short(h, existing, pending, d, shortfall)
  {
    var cpu, memory, disk := LeftCpu(h, existing, pending), LeftMemory(h, existing, pending), LeftDisk(h, pending);
    shortfall := map[];
    if cpu < d.cpu {
      shortfall := shortfall[Cpu := Ceil((d.cpu - cpu) * 1000.0)];
    }
    if memory < d.memory {
      shortfall := shortfall[Memory := d.memory - memory];
    }
    if disk < d.disk {
      shortfall := shortfall[Disk := d.disk - disk];
    }
    if h.slots > 0 && BySlots(h, existing, pending) < 1 {
      shortfall := shortfall[Slots := 1];
    }
  }

  function Rank(x: Resource): (result: nat) {
    match x
    case Cpu => 0
    case Memory => 1
    case Disk => 2
    case Slots => 3
  }

  function Bound(h: Host, existing: Allocation, pending: Allocation, d: Demand, x: Resource): (result: int)
    requires Reasonable(d)
  {
    match x
    case Cpu => ByCpu(h, existing, pending, d)
    case Memory => ByMemory(h, existing, pending, d)
    case Disk => ByDisk(h, pending, d)
    case Slots => BySlots(h, existing, pending)
  }

  function Least(h: Host, existing: Allocation, pending: Allocation, d: Demand): (result: int)
    requires Reasonable(d)
  {
    Min(Min(ByCpu(h, existing, pending, d), ByMemory(h, existing, pending, d)),
        Min(ByDisk(h, pending, d), BySlots(h, existing, pending)))
  }
}
