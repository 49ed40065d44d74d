/**
 * The integration test's problem generator. The test object owns a problem id
 * counter and a `java.util.Random` seeded with 47; the random stream is an
 * arbitrary but fixed stream indexed by `nextInt` call: the k-th call returns
 * the k-th value reduced into [0, bound).
 */
module ProblemGenerator {
  import opened Wrappers
  import opened Domain
  import opened ExpectedScore

  /** The value the `nextInt(bound)` call with index `position` returns. */
  function NextIntAt(source: nat -> int, position: nat, bound: int): (r: int)
    requires 0 < bound
    ensures 0 <= r < bound
  {
    source(position) % bound
  }

  /** Computer `i`, built from the four `nextInt(10)` calls from index
      `position` on: cpu power, memory and bandwidth below 10, and a cost ten
      times a value below 10. */
  function GeneratedComputer(source: nat -> int, position: nat, i: nat): CloudComputer {
    CloudComputer(i,
      NextIntAt(source, position, 10),
      NextIntAt(source, position + 1, 10),
      NextIntAt(source, position + 2, 10),
      NextIntAt(source, position + 3, 10) * 10)
  }

  /** The first `n` computers generated from index `position` on, four calls each. */
  function GeneratedComputers(source: nat -> int, position: nat, n: nat): seq<CloudComputer> {
    if n == 0 then []
    else GeneratedComputers(source, position, n - 1) + [GeneratedComputer(source, position + 4 * (n - 1), n - 1)]
  }

  /** Process `i`, built from the three calls from index `position` on, unassigned. */
  function GeneratedProcess(source: nat -> int, position: nat, i: nat): CloudProcess {
    CloudProcess(i,
      NextIntAt(source, position, 10),
      NextIntAt(source, position + 1, 10),
      NextIntAt(source, position + 2, 10),
      None)
  }

  /** The first `n` processes generated from index `position` on, three calls each. */
  function GeneratedProcesses(source: nat -> int, position: nat, n: nat): seq<CloudProcess> {
    if n == 0 then []
    else GeneratedProcesses(source, position, n - 1) + [GeneratedProcess(source, position + 3 * (n - 1), n - 1)]
  }

  /** A generated computer list has the requested size, ids 0 .. n-1 in order,
      capacities in [0, 10) and costs that are multiples of 10 in [0, 90]. */
  lemma {:induction false} GeneratedComputersShape(source: nat -> int, position: nat, n: nat)
    ensures |GeneratedComputers(source, position, n)| == n
    ensures forall i :: 0 <= i < n ==>
      var c := GeneratedComputers(source, position, n)[i];
      && c == GeneratedComputer(source, position + 4 * i, i)
      && c.id == i
      && 0 <= c.cpuPower < 10 && 0 <= c.memory < 10 && 0 <= c.networkBandwidth < 10
      && c.cost % 10 == 0 && 0 <= c.cost <= 90
  {
    if n > 0 {
      GeneratedComputersShape(source, position, n - 1);
    }
  }

  /** A generated process list has the requested size, ids 0 .. n-1 in order,
      demands in [0, 10), and no process assigned yet. */
  lemma {:induction false} GeneratedProcessesShape(source: nat -> int, position: nat, n: nat)
    ensures |GeneratedProcesses(source, position, n)| == n
    ensures forall i :: 0 <= i < n ==>
      var p := GeneratedProcesses(source, position, n)[i];
      && p == GeneratedProcess(source, position + 3 * i, i)
      && p.id == i && p.computer.None?
      && 0 <= p.requiredCpuPower < 10 && 0 <= p.requiredMemory < 10
      && 0 <= p.requiredNetworkBandwidth < 10
  {
    if n > 0 {
      GeneratedProcessesShape(source, position, n - 1);
    }
  }

  /** However the processes are assigned to generated computers, the soft
      score is never positive and is at least -90 per process. */
  lemma {:induction false} GeneratedCostsBoundSoftScore(
    source: nat -> int, position: nat, n: nat, ps: seq<CloudProcess>)
    requires forall i :: 0 <= i < |ps| ==> ps[i].computer.Some? ==>
      ps[i].computer.value in GeneratedComputers(source, position, n)
    ensures -90 * |ps| <= SoftScore(ps) <= 0
  {
    GeneratedComputersShape(source, position, n);
    SoftScoreBounds(ps, 90);
  }

  class CloudBalancingControllerTest {
    var newCloudBalanceId: int
    var randomPosition: nat
    const randomSource: nat -> int

    constructor (source: nat -> int)
      ensures randomSource == source
      ensures newCloudBalanceId == 0 && randomPosition == 0
    {
      randomSource := source;
      newCloudBalanceId := 0;
      randomPosition := 0;
    }

    /** Before each test: problem ids restart at 0 and the random stream
        restarts from its first call (the same seed). */
    method Setup()
      modifies this
      ensures newCloudBalanceId == 0 && randomPosition == 0
    {
      newCloudBalanceId := 0;
      randomPosition := 0;
    }

    method NextInt(bound: int) returns (r: int)
      requires 0 < bound
      modifies this`randomPosition
      ensures r == NextIntAt(randomSource, old(randomPosition), bound)
      ensures randomPosition == old(randomPosition) + 1
    {
      r := NextIntAt(randomSource, randomPosition, bound);
      randomPosition := randomPosition + 1;
    }

    /** Fills a list of `computerListSize` computers, making four `nextInt(10)` calls per
        computer in constructor-argument order. */
    method CreateComputerList(computerListSize: nat) returns (computerList: seq<CloudComputer>)
      modifies this`randomPosition
      ensures computerList == GeneratedComputers(randomSource, old(randomPosition), computerListSize)
      ensures randomPosition == old(randomPosition) + 4 * computerListSize
    {
      computerList := [];
      var i := 0;
      while i < computerListSize
        invariant 0 <= i <= computerListSize
        invariant randomPosition == old(randomPosition) + 4 * i
        invariant computerList == GeneratedComputers(randomSource, old(randomPosition), i)
      {
        var cpuPower := NextInt(10);
        var memory := NextInt(10);
        var networkBandwidth := NextInt(10);
        var costDraw := NextInt(10);
        var computer := CloudComputer(i, cpuPower, memory, networkBandwidth, costDraw * 10);
        computerList := computerList + [computer];
        i := i + 1;
      }
    }

    /** Fills a list of `processListSize` unassigned processes, making three `nextInt(10)`
        values per process. */
    method CreateProcessList(processListSize: nat) returns (processList: seq<CloudProcess>)
      modifies this`randomPosition
      ensures processList == GeneratedProcesses(randomSource, old(randomPosition), processListSize)
      ensures randomPosition == old(randomPosition) + 3 * processListSize
    {
      processList := [];
      var i := 0;
      while i < processListSize
        invariant 0 <= i <= processListSize
        invariant randomPosition == old(randomPosition) + 3 * i
        invariant processList == GeneratedProcesses(randomSource, old(randomPosition), i)
      {
        var requiredCpuPower := NextInt(10);
        var requiredMemory := NextInt(10);
        var requiredNetworkBandwidth := NextInt(10);
        var process := CloudProcess(i, requiredCpuPower, requiredMemory, requiredNetworkBandwidth, None);
        processList := processList + [process];
        i := i + 1;
      }
    }

    /** A new problem takes the next problem id (post-increment), then its
        computers, then its processes, from the random stream. */
    method GenerateCloudBalancingProblem(computerListSize: nat, processListSize: nat)
      returns (cloudBalance: CloudBalance)
      modifies this
      ensures newCloudBalanceId == old(newCloudBalanceId) + 1
      ensures randomPosition == old(randomPosition) + 4 * computerListSize + 3 * processListSize
      ensures cloudBalance == CloudBalance(
        old(newCloudBalanceId),
        GeneratedComputers(randomSource, old(randomPosition), computerListSize),
        GeneratedProcesses(randomSource, old(randomPosition) + 4 * computerListSize, processListSize))
    {
      var id := newCloudBalanceId;
      newCloudBalanceId := newCloudBalanceId + 1;
      var computerList := CreateComputerList(computerListSize);
      var processList := CreateProcessList(processListSize);
      cloudBalance := CloudBalance(id, computerList, processList);
    }
  }

  /** After `Setup`, successive generated problems are numbered 0, 1, 2. */
  method ProblemIdsAfterSetup(test: CloudBalancingControllerTest)
    returns (first: CloudBalance, second: CloudBalance, third: CloudBalance)
    modifies test
    ensures first.id == 0 && second.id == 1 && third.id == 2
    ensures |first.computerList| == 1 && |first.processList| == 1
  {
    test.Setup();
    first := test.GenerateCloudBalancingProblem(1, 1);
    second := test.GenerateCloudBalancingProblem(1, 1);
    third := test.GenerateCloudBalancingProblem(1, 1);
    GeneratedComputersShape(test.randomSource, 0, 1);
    GeneratedProcessesShape(test.randomSource, 4, 1);
  }
}
