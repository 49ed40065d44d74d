/**
 * The tenant-keyed job manager: at most one solver task per tenant id, and
 * polling lookups that forward to the tenant's task.
 */
module DefaultSolverManagers {
  import opened Wrappers
  import opened Domain
  import opened SolverTasks

  /** The message of the exception thrown for a tenant id that is taken. */
  function DuplicateTenantMessage(tenantId: string): string {
    "Tenant id (" + tenantId + ") already exists."
  }

  class DefaultSolverManager {
    var tenantIdToSolverTaskMap: map<string, SolverTask<string, CloudBalance>>

    /** Every task is filed under its own tenant id. */
    ghost predicate Valid()
      reads this
    {
      forall tenantId :: tenantId in tenantIdToSolverTaskMap ==>
        tenantIdToSolverTaskMap[tenantId].tenantId == tenantId
    }

    constructor ()
      ensures Valid()
      ensures tenantIdToSolverTaskMap == map[]
    {
      tenantIdToSolverTaskMap := map[];
    }

    /** Registers a new task for `tenantId`, built around `solver` (the
        factory's freshly built solver). A tenant id already present is
        rejected before any task is built or scheduled, and the map is left
        as it was; otherwise exactly one entry is added. Entries are never
        replaced or removed, so the key set only grows. */
    method Solve(tenantId: string, cloudBalance: CloudBalance, solver: Solver<CloudBalance>)
      returns (outcome: Outcome)
      requires Valid()
      modifies this
      ensures Valid()
      ensures tenantId in old(tenantIdToSolverTaskMap) ==>
        && outcome == Fail(IllegalArgumentException(DuplicateTenantMessage(tenantId)))
        && tenantIdToSolverTaskMap == old(tenantIdToSolverTaskMap)
      ensures tenantId !in old(tenantIdToSolverTaskMap) ==>
        && outcome == Pass
        && tenantIdToSolverTaskMap ==
             old(tenantIdToSolverTaskMap)[tenantId := SolverTask(tenantId, solver, cloudBalance)]
      ensures forall t :: t in old(tenantIdToSolverTaskMap) ==>
        t in tenantIdToSolverTaskMap && tenantIdToSolverTaskMap[t] == old(tenantIdToSolverTaskMap)[t]
    {
      if tenantId in tenantIdToSolverTaskMap {
        return Fail(IllegalArgumentException(DuplicateTenantMessage(tenantId)));
      }
      var newSolverTask := SolverTask(tenantId, solver, cloudBalance);
      tenantIdToSolverTaskMap := tenantIdToSolverTaskMap[tenantId := newSolverTask];
      outcome := Pass;
    }

    /** The tenant's current best solution; an unknown tenant makes the map
        lookup yield null, which is then dereferenced. */
    method GetBestSolution(tenantId: string) returns (r: Result<Option<CloudBalance>>)
      ensures tenantId in tenantIdToSolverTaskMap ==>
        r == Success(tenantIdToSolverTaskMap[tenantId].solver.bestSolution)
      ensures tenantId !in tenantIdToSolverTaskMap ==> r == Failure(NullPointerException)
    {
      if tenantId in tenantIdToSolverTaskMap {
        r := Success(tenantIdToSolverTaskMap[tenantId].GetBestSolution());
      } else {
        r := Failure(NullPointerException);
      }
    }

    /** The tenant's current best score; null dereference for an unknown tenant. */
    method GetBestScore(tenantId: string) returns (r: Result<Option<HardSoftScore>>)
      ensures tenantId in tenantIdToSolverTaskMap ==>
        r == Success(tenantIdToSolverTaskMap[tenantId].solver.bestScore)
      ensures tenantId !in tenantIdToSolverTaskMap ==> r == Failure(NullPointerException)
    {
      if tenantId in tenantIdToSolverTaskMap {
        r := Success(tenantIdToSolverTaskMap[tenantId].GetBestScore());
      } else {
        r := Failure(NullPointerException);
      }
    }

    /** The tenant's status, derived from its solver's flags; null dereference
        for an unknown tenant. */
    method GetSolverStatus(tenantId: string) returns (r: Result<SolverStatus>)
      ensures tenantId in tenantIdToSolverTaskMap ==>
        r == Success(tenantIdToSolverTaskMap[tenantId].GetSolverStatus())
      ensures tenantId !in tenantIdToSolverTaskMap ==> r == Failure(NullPointerException)
    {
      if tenantId in tenantIdToSolverTaskMap {
        r := Success(tenantIdToSolverTaskMap[tenantId].GetSolverStatus());
      } else {
        r := Failure(NullPointerException);
      }
    }
  }

  /** Whatever the manager held before, after a first `Solve` for a tenant a
      second `Solve` for the same tenant is rejected and the tenant keeps the
      task it had after the first call: the first call's task if it was new,
      its older task otherwise. */
  method SecondSolveForTenantFails(
    manager: DefaultSolverManager, tenantId: string,
    first: CloudBalance, second: CloudBalance,
    firstSolver: Solver<CloudBalance>, secondSolver: Solver<CloudBalance>)
    returns (firstOutcome: Outcome, secondOutcome: Outcome)
    requires manager.Valid()
    modifies manager
    ensures manager.Valid()
    ensures firstOutcome ==
      if tenantId in old(manager.tenantIdToSolverTaskMap)
      then Fail(IllegalArgumentException(DuplicateTenantMessage(tenantId)))
      else Pass
    ensures secondOutcome == Fail(IllegalArgumentException(DuplicateTenantMessage(tenantId)))
    ensures tenantId in manager.tenantIdToSolverTaskMap
    ensures manager.tenantIdToSolverTaskMap[tenantId] ==
      if tenantId in old(manager.tenantIdToSolverTaskMap)
      then old(manager.tenantIdToSolverTaskMap)[tenantId]
      else SolverTask(tenantId, firstSolver, first)
  {
    firstOutcome := manager.Solve(tenantId, first, firstSolver);
    secondOutcome := manager.Solve(tenantId, second, secondSolver);
  }
}
