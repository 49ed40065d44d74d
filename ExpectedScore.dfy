/**
 * The reference hard/soft score the integration test compares the service's
 * best score with. Hard score: for every computer, each capacity dimension
 * that the processes assigned to it overrun adds `capacity - total` (a
 * negative number). Soft score: minus the cost of every process's assigned
 * computer, charged once per process.
 */
module ExpectedScore {
  import opened Wrappers
  import opened Domain

  /** Summed demand in the three capacity dimensions. */
  datatype Load = Load(cpuPower: int, memory: int, networkBandwidth: int)

  function AddDemand(l: Load, p: CloudProcess): Load {
    Load(l.cpuPower + p.requiredCpuPower,
         l.memory + p.requiredMemory,
         l.networkBandwidth + p.requiredNetworkBandwidth)
  }

  /** Process `p` is assigned to the computer with id `computerId`. */
  predicate HostedOn(p: CloudProcess, computerId: int) {
    p.computer.Some? && p.computer.value.id == computerId
  }

  /** Every process has a computer. */
  predicate AllAssigned(ps: seq<CloudProcess>) {
    forall i :: 0 <= i < |ps| ==> ps[i].computer.Some?
  }

  /** The totals accumulated for computer `computerId` by scanning `ps` in order. */
  function HostedLoad(ps: seq<CloudProcess>, computerId: int): Load {
    if ps == [] then Load(0, 0, 0)
    else
      var l := HostedLoad(ps[..|ps| - 1], computerId);
      if HostedOn(ps[|ps| - 1], computerId) then AddDemand(l, ps[|ps| - 1]) else l
  }

  /** Reference definitions: the processes on `computerId`, and the plain sum
      of a list's demands. */
  function ProcessesOn(ps: seq<CloudProcess>, computerId: int): seq<CloudProcess> {
    if ps == [] then []
    else
      var rest := ProcessesOn(ps[..|ps| - 1], computerId);
      if HostedOn(ps[|ps| - 1], computerId) then rest + [ps[|ps| - 1]] else rest
  }

  function TotalDemand(ps: seq<CloudProcess>): Load {
    if ps == [] then Load(0, 0, 0) else AddDemand(TotalDemand(ps[..|ps| - 1]), ps[|ps| - 1])
  }

  /** The penalty for one dimension: what the total exceeds the capacity by,
      negated, or nothing. */
  function Overrun(total: int, capacity: int): int {
    if total > capacity then capacity - total else 0
  }

  predicate WithinCapacity(c: CloudComputer, ps: seq<CloudProcess>) {
    var l := HostedLoad(ps, c.id);
    l.cpuPower <= c.cpuPower && l.memory <= c.memory && l.networkBandwidth <= c.networkBandwidth
  }

  function ComputerHardScore(c: CloudComputer, ps: seq<CloudProcess>): int {
    var l := HostedLoad(ps, c.id);
    Overrun(l.cpuPower, c.cpuPower) + Overrun(l.memory, c.memory)
      + Overrun(l.networkBandwidth, c.networkBandwidth)
  }

  function HardScore(cs: seq<CloudComputer>, ps: seq<CloudProcess>): int {
    if cs == [] then 0 else HardScore(cs[..|cs| - 1], ps) + ComputerHardScore(cs[|cs| - 1], ps)
  }

  /** What one process adds to the cost: its computer's cost, or 0 unassigned. */
  function AssignedCost(p: CloudProcess): int {
    if p.computer.Some? then p.computer.value.cost else 0
  }

  function SoftScore(ps: seq<CloudProcess>): int {
    if ps == [] then 0 else SoftScore(ps[..|ps| - 1]) - AssignedCost(ps[|ps| - 1])
  }

  /** The oracle's answer: the hard loop dereferences every process's computer
      once per computer, so it throws as soon as there is a computer and an
      unassigned process; the soft loop tolerates unassigned processes. */
  function ExpectedHardSoftScore(cb: CloudBalance): Result<HardSoftScore> {
    if |cb.computerList| > 0 && !AllAssigned(cb.processList) then Failure(NullPointerException)
    else Success(HardSoftScore(HardScore(cb.computerList, cb.processList), SoftScore(cb.processList)))
  }

  /** The score computation with the test's own loops: one pass over the
      processes per computer for the hard score, one more for the soft score. */
  method GetExpectedHardSoftScore(cloudBalance: CloudBalance) returns (r: Result<HardSoftScore>)
    ensures r == ExpectedHardSoftScore(cloudBalance)
  {
    var computers, processes := cloudBalance.computerList, cloudBalance.processList;
    var expectedHardScore := 0;
    var i := 0;
    while i < |computers|
      invariant 0 <= i <= |computers|
      invariant expectedHardScore == HardScore(computers[..i], processes)
      invariant i > 0 ==> AllAssigned(processes)
    {
      var computer := computers[i];
      var totalCpuPower, totalMemory, totalBandwidth := 0, 0, 0;
      var j := 0;
      while j < |processes|
        invariant 0 <= j <= |processes|
        invariant Load(totalCpuPower, totalMemory, totalBandwidth) == HostedLoad(processes[..j], computer.id)
        invariant forall k :: 0 <= k < j ==> processes[k].computer.Some?
      {
        var process := processes[j];
        if process.computer.None? {
          return Failure(NullPointerException);
        }
        if process.computer.value.id == computer.id {
          totalCpuPower := totalCpuPower + process.requiredCpuPower;
          totalMemory := totalMemory + process.requiredMemory;
          totalBandwidth := totalBandwidth + process.requiredNetworkBandwidth;
        }
        assert processes[..j + 1][..j] == processes[..j];
        j := j + 1;
      }
      assert processes[..j] == processes;
      if totalCpuPower > computer.cpuPower {
        expectedHardScore := expectedHardScore + (computer.cpuPower - totalCpuPower);
      }
      if totalMemory > computer.memory {
        expectedHardScore := expectedHardScore + (computer.memory - totalMemory);
      }
      if totalBandwidth > computer.networkBandwidth {
        expectedHardScore := expectedHardScore + (computer.networkBandwidth - totalBandwidth);
      }
      assert computers[..i + 1][..i] == computers[..i];
      i := i + 1;
    }
    assert computers[..i] == computers;

    var expectedSoftScore := 0;
    var j := 0;
    while j < |processes|
      invariant 0 <= j <= |processes|
      invariant expectedSoftScore == SoftScore(processes[..j])
    {
      var process := processes[j];
      expectedSoftScore := expectedSoftScore - (if process.computer.None? then 0 else process.computer.value.cost);
      assert processes[..j + 1][..j] == processes[..j];
      j := j + 1;
    }
    assert processes[..j] == processes;
    r := Success(HardSoftScore(expectedHardScore, expectedSoftScore));
  }

  /** One computer's share of the hard score is never positive, and is zero
      exactly when its totals are within all three capacities. */
  lemma ComputerHardScoreSign(c: CloudComputer, ps: seq<CloudProcess>)
    ensures ComputerHardScore(c, ps) <= 0
    ensures ComputerHardScore(c, ps) == 0 <==> WithinCapacity(c, ps)
  {
  }

  /** The hard score is never positive. */
  lemma {:induction false} HardScoreNonPositive(cs: seq<CloudComputer>, ps: seq<CloudProcess>)
    ensures HardScore(cs, ps) <= 0
  {
    if cs != [] {
      HardScoreNonPositive(cs[..|cs| - 1], ps);
      ComputerHardScoreSign(cs[|cs| - 1], ps);
    }
  }

  /** The hard score is zero exactly when every computer's totals are within
      its capacities. */
  lemma {:induction false} HardScoreZeroIffFeasible(cs: seq<CloudComputer>, ps: seq<CloudProcess>)
    ensures HardScore(cs, ps) == 0 <==> forall i :: 0 <= i < |cs| ==> WithinCapacity(cs[i], ps)
  {
    if cs != [] {
      var init, last := cs[..|cs| - 1], cs[|cs| - 1];
      HardScoreZeroIffFeasible(init, ps);
      HardScoreNonPositive(init, ps);
      ComputerHardScoreSign(last, ps);
      assert forall i :: 0 <= i < |init| ==> init[i] == cs[i];
    }
  }

  /** A computer's totals are the plain sum of the demands of the processes
      assigned to it; every other process is ignored. */
  lemma {:induction false} HostedLoadSumsHostedProcesses(ps: seq<CloudProcess>, computerId: int)
    ensures HostedLoad(ps, computerId) == TotalDemand(ProcessesOn(ps, computerId))
  {
    if ps != [] {
      var init, last := ps[..|ps| - 1], ps[|ps| - 1];
      HostedLoadSumsHostedProcesses(init, computerId);
      var rest := ProcessesOn(init, computerId);
      if HostedOn(last, computerId) {
        assert (rest + [last])[..|rest + [last]| - 1] == rest;
      }
    }
  }

  /** Only the processes assigned to a computer decide its totals: adding a
      process assigned elsewhere, or unassigned, changes nothing. */
  lemma {:induction false} HostedLoadIgnoresOthers(ps: seq<CloudProcess>, qs: seq<CloudProcess>, computerId: int)
    requires forall i :: 0 <= i < |qs| ==> !HostedOn(qs[i], computerId)
    ensures HostedLoad(ps + qs, computerId) == HostedLoad(ps, computerId)
  {
    if qs == [] {
      assert ps + qs == ps;
    } else {
      var init := qs[..|qs| - 1];
      assert (ps + qs)[..|ps + qs| - 1] == ps + init;
      HostedLoadIgnoresOthers(ps, init, computerId);
    }
  }

  /** The cost is charged per process: k processes on one computer cost k
      times its cost. */
  lemma {:induction false} SoftScoreChargesPerProcess(ps: seq<CloudProcess>, c: CloudComputer)
    requires forall i :: 0 <= i < |ps| ==> ps[i].computer == Some(c)
    ensures SoftScore(ps) == -|ps| * c.cost
  {
    if ps != [] {
      SoftScoreChargesPerProcess(ps[..|ps| - 1], c);
    }
  }

  /** Unassigned processes cost nothing: the soft score of a list is that of
      the list with unassigned processes appended. */
  lemma {:induction false} SoftScoreIgnoresUnassigned(ps: seq<CloudProcess>, qs: seq<CloudProcess>)
    requires forall i :: 0 <= i < |qs| ==> qs[i].computer.None?
    ensures SoftScore(ps + qs) == SoftScore(ps)
  {
    if qs == [] {
      assert ps + qs == ps;
    } else {
      var init := qs[..|qs| - 1];
      assert (ps + qs)[..|ps + qs| - 1] == ps + init;
      SoftScoreIgnoresUnassigned(ps, init);
    }
  }

  /** With every assigned computer's cost in [0, maxCost], the soft score lies
      in [-maxCost * |ps|, 0]. */
  lemma {:induction false} SoftScoreBounds(ps: seq<CloudProcess>, maxCost: int)
    requires 0 <= maxCost
    requires forall i :: 0 <= i < |ps| ==> ps[i].computer.Some? ==>
      0 <= ps[i].computer.value.cost <= maxCost
    ensures -maxCost * |ps| <= SoftScore(ps) <= 0
  {
    if ps != [] {
      SoftScoreBounds(ps[..|ps| - 1], maxCost);
      assert -maxCost * |ps| == -maxCost * (|ps| - 1) - maxCost;
    }
  }

  /** The end-to-end instance: one computer (cpu 1000, memory 1, bandwidth 1,
      cost 1) hosting one process (700, 5, 5) scores hard -8 (memory and
      bandwidth each 4 over) and soft -1. */
  lemma WorkedInstance()
    ensures
      var c := CloudComputer(0, 1000, 1, 1, 1);
      var p := CloudProcess(0, 700, 5, 5, Some(c));
      ExpectedHardSoftScore(CloudBalance(0, [c], [p])) == Success(HardSoftScore(-8, -1))
  {
  }
}
