/**
 * The id-issuing job manager: every submitted problem gets the next number
 * from a counter starting at 0, and the lookups are keyed by that number.
 */
module CloudBalancingSolverManagers {
  import opened Wrappers
  import opened Domain
  import opened SolverTasks

  class CloudBalancingSolverManagerImpl {
    var solverTaskIdToSolverTaskMap: map<int, SolverTask<int, CloudBalance>>
    var newSolverId: int

    /** The ids issued so far are exactly 0 .. newSolverId - 1, each of them is
        a key, and every task carries the id it is filed under. */
    ghost predicate Valid()
      reads this
    {
      && 0 <= newSolverId
      && (forall id :: id in solverTaskIdToSolverTaskMap <==> 0 <= id < newSolverId)
      && (forall id :: id in solverTaskIdToSolverTaskMap ==>
            solverTaskIdToSolverTaskMap[id].tenantId == id)
    }

    constructor ()
      ensures Valid()
      ensures solverTaskIdToSolverTaskMap == map[] && newSolverId == 0
    {
      solverTaskIdToSolverTaskMap := map[];
      newSolverId := 0;
    }

    /** Takes the counter's value as the new id, bumps the counter by one and
        files a new task for `cloudBalance` under that id. The id was not a key
        before, so no task is overwritten. */
    method Solve(cloudBalance: CloudBalance, solver: Solver<CloudBalance>) returns (id: int)
      requires Valid()
      modifies this
      ensures Valid()
      ensures id == old(newSolverId) && newSolverId == old(newSolverId) + 1
      ensures id !in old(solverTaskIdToSolverTaskMap)
      ensures solverTaskIdToSolverTaskMap ==
        old(solverTaskIdToSolverTaskMap)[id := SolverTask(id, solver, cloudBalance)]
    {
      id := newSolverId;
      newSolverId := newSolverId + 1;
      var newSolverTask := SolverTask(id, solver, cloudBalance);
      solverTaskIdToSolverTaskMap := solverTaskIdToSolverTaskMap[id := newSolverTask];
    }

    /** The best solution of task `solverId`; an id never issued makes the map
        lookup yield null, which is then dereferenced. */
    method GetBestSolution(solverId: int) returns (r: Result<Option<CloudBalance>>)
      requires Valid()
      ensures 0 <= solverId < newSolverId ==>
        r == Success(solverTaskIdToSolverTaskMap[solverId].solver.bestSolution)
      ensures !(0 <= solverId < newSolverId) ==> r == Failure(NullPointerException)
    {
      if solverId in solverTaskIdToSolverTaskMap {
        r := Success(solverTaskIdToSolverTaskMap[solverId].GetBestSolution());
      } else {
        r := Failure(NullPointerException);
      }
    }

    /** The best score of task `solverId`; null dereference for an id never issued. */
    method GetBestScore(solverId: int) returns (r: Result<Option<HardSoftScore>>)
      requires Valid()
      ensures 0 <= solverId < newSolverId ==>
        r == Success(solverTaskIdToSolverTaskMap[solverId].solver.bestScore)
      ensures !(0 <= solverId < newSolverId) ==> r == Failure(NullPointerException)
    {
      if solverId in solverTaskIdToSolverTaskMap {
        r := Success(solverTaskIdToSolverTaskMap[solverId].GetBestScore());
      } else {
        r := Failure(NullPointerException);
      }
    }

    /** The status of task `solverId`; null dereference for an id never issued. */
    method GetSolverStatus(solverId: int) returns (r: Result<SolverStatus>)
      requires Valid()
      ensures 0 <= solverId < newSolverId ==>
        r == Success(solverTaskIdToSolverTaskMap[solverId].GetSolverStatus())
      ensures !(0 <= solverId < newSolverId) ==> r == Failure(NullPointerException)
    {
      if solverId in solverTaskIdToSolverTaskMap {
        r := Success(solverTaskIdToSolverTaskMap[solverId].GetSolverStatus());
      } else {
        r := Failure(NullPointerException);
      }
    }
  }

  /** A new manager numbers three successive submissions 0, 1 and 2, and each
      id then resolves to the task built for its own problem and its own
      freshly built solver. */
  method SuccessiveIdsFromZero(
    p0: CloudBalance, p1: CloudBalance, p2: CloudBalance,
    s0: Solver<CloudBalance>, s1: Solver<CloudBalance>, s2: Solver<CloudBalance>)
    returns (manager: CloudBalancingSolverManagerImpl, id0: int, id1: int, id2: int)
    ensures manager.Valid()
    ensures id0 == 0 && id1 == 1 && id2 == 2 && manager.newSolverId == 3
    ensures manager.solverTaskIdToSolverTaskMap[id0] == SolverTask(id0, s0, p0)
    ensures manager.solverTaskIdToSolverTaskMap[id1] == SolverTask(id1, s1, p1)
    ensures manager.solverTaskIdToSolverTaskMap[id2] == SolverTask(id2, s2, p2)
  {
    manager := new CloudBalancingSolverManagerImpl();
    id0 := manager.Solve(p0, s0);
    id1 := manager.Solve(p1, s1);
    id2 := manager.Solve(p2, s2);
  }
}
