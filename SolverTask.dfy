/**
 * A solver task: one tenant's optimisation run. The OptaPlanner solver it
 * owns is seen only through what the task asks of it: the two progress flags
 * and the current best solution and score.
 */
module SolverTasks {
  import opened Wrappers
  import opened Domain

  /** The status a task reports to pollers. */
  datatype SolverStatus = Solving | TerminatingEarly | Stopped

  /** The observable state of one solver instance at the moment it is asked.
      `bestSolution` and `bestScore` are `None` before the solver has found
      anything (Java returns null). */
  datatype Solver<S> = Solver(
    terminateEarly: bool,
    solving: bool,
    bestSolution: Option<S>,
    bestScore: Option<HardSoftScore>)

  /** The task keeps the tenant id it was built with (a final field), its
      solver and the planning problem it hands to the solver when run. */
  datatype SolverTask<K, S> = SolverTask(tenantId: K, solver: Solver<S>, planningProblem: S)
  {
    function GetTenantId(): K {
      tenantId
    }

    function GetBestSolution(): Option<S> {
      solver.bestSolution
    }

    function GetBestScore(): Option<HardSoftScore> {
      solver.bestScore
    }

    /** The status is derived from the solver's flags on every call; a pending
        early-termination request wins over "still solving". Each status is
        reported for exactly the flag combinations below. */
    function GetSolverStatus(): (status: SolverStatus)
      ensures (status == TerminatingEarly) == solver.terminateEarly
      ensures (status == Solving) == (!solver.terminateEarly && solver.solving)
      ensures (status == Stopped) == (!solver.terminateEarly && !solver.solving)
    {
      if solver.terminateEarly then
        TerminatingEarly
      else if solver.solving then
        Solving
      else
        Stopped
    }
  }

  /** What the constructor is given is what the accessors return: the tenant
      id, and the solver's own best solution and score, unchanged. */
  lemma ConstructedTaskForwards<K, S>(tenantId: K, solver: Solver<S>, problem: S)
    ensures SolverTask(tenantId, solver, problem).GetTenantId() == tenantId
    ensures SolverTask(tenantId, solver, problem).GetBestSolution() == solver.bestSolution
    ensures SolverTask(tenantId, solver, problem).GetBestScore() == solver.bestScore
  {
  }

  /** The status depends on the two flags alone: not on the tenant, the
      problem or the best values, so polling again with the same flags gives
      the same answer. */
  lemma StatusDependsOnlyOnFlags<K, S>(t1: SolverTask<K, S>, t2: SolverTask<K, S>)
    requires t1.solver.terminateEarly == t2.solver.terminateEarly
    requires t1.solver.solving == t2.solver.solving
    ensures t1.GetSolverStatus() == t2.GetSolverStatus()
  {
  }
}
