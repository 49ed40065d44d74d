# Cloud-balancing solver service: job managers, status derivation and score oracle

This project models the sequential core of a Spring Boot service that runs
OptaPlanner cloud-balancing searches in the background and lets callers poll
them:

- **Solver tasks** (`SolverTask.dfy`, module `SolverTasks`). A task is
  bound to one tenant id and owns one solver. Its status is derived on every
  call from the solver's two flags: a pending early-termination request wins
  over "solving". The solver is seen only through what the task reads from
  it: the two flags and the current best solution and score.
- **The tenant-keyed manager** (`DefaultSolverManager.dfy`). A class over
  the map from tenant id to task. `Solve` rejects a tenant id that is
  already present, throwing `IllegalArgumentException` with the message
  `Tenant id (t) already exists.`, before any task is built. Otherwise it adds exactly one entry.
  Entries are never replaced or removed.
- **The id-issuing manager** (`CloudBalancingSolverManagerImpl.dfy`). A
  class over a counter and a map. `Solve` hands out the counter's value and
  bumps it by one. Its invariant says the keys are exactly the ids issued so
  far, so no `put` overwrites a task.
- **The lookups of both managers.** Each one reads the map and dereferences
  the result. A key that is not present gives `Failure(NullPointerException)`.
- **The integration test's score oracle** (`ExpectedScore.dfy`). Recursive
  specification functions define the hard and soft scores. A method runs the
  test's own nested loops and is proved equal to them. Lemmas show that the
  hard score is never positive and is zero exactly when every computer is
  within capacity. They bound the soft score to [-m·|ps|, 0] when costs lie
  in [0, m]. They also show that only hosted processes count towards a
  computer's totals and that cost is charged per process.
- **The test's problem generator** (`ProblemGenerator.dfy`). A class with
  the problem-id counter and the position in the random stream, plus lemmas
  on the shape of the lists it generates.

The foreign solver factory's `buildSolver()` is an explicit `solver`
parameter of each `Solve`. The random stream seeded with 47 is an arbitrary
fixed function from the index of a `nextInt` call to an integer.

An unknown key is a null dereference; there is no `NotFound` result and no
`FAILED` status.

## Model

| member | source | states |
|---|---|---|
| `SolverTasks.SolverTask.GetSolverStatus` | src/main/java/org/optaplanner/springbootcloudbalancing/solver/SolverTask.java:56-64 | TERMINATING_EARLY exactly when terminate-early is set, whatever `isSolving` says; SOLVING exactly when it is not set and the solver is solving; STOPPED exactly when neither flag is set |
| `SolverTasks.ConstructedTaskForwards` | src/main/java/org/optaplanner/springbootcloudbalancing/solver/SolverTask.java:32-54 | a task returns the tenant id it was constructed with, and the solver's best solution and best score unchanged |
| `SolverTasks.StatusDependsOnlyOnFlags` | src/main/java/org/optaplanner/springbootcloudbalancing/solver/SolverTask.java:56-64 | the status has no other input than the two flags, so repeated polls with unchanged flags agree |
| `DefaultSolverManagers.DefaultSolverManager.constructor` | src/main/java/org/optaplanner/springbootcloudbalancing/solver/DefaultSolverManager.java:45-48 | a new manager has an empty tenant map |
| `DefaultSolverManagers.DefaultSolverManager.Solve` | src/main/java/org/optaplanner/springbootcloudbalancing/solver/DefaultSolverManager.java:63-74 | a tenant id already present fails with IllegalArgumentException "Tenant id (t) already exists." and the map is unchanged; a new tenant id gets exactly one new entry, a task carrying that id, the given problem and solver; every earlier entry is kept unchanged; every task is filed under its own tenant id |
| `DefaultSolverManagers.DefaultSolverManager.GetBestSolution` | src/main/java/org/optaplanner/springbootcloudbalancing/solver/DefaultSolverManager.java:76-80 | a registered tenant gets its task's solver's best solution; an unknown tenant gets a null dereference; the map is not modified |
| `DefaultSolverManagers.DefaultSolverManager.GetBestScore` | src/main/java/org/optaplanner/springbootcloudbalancing/solver/DefaultSolverManager.java:82-86 | a registered tenant gets its task's solver's best score; an unknown tenant gets a null dereference; the map is not modified |
| `DefaultSolverManagers.DefaultSolverManager.GetSolverStatus` | src/main/java/org/optaplanner/springbootcloudbalancing/solver/DefaultSolverManager.java:88-92 | a registered tenant gets its task's derived status; an unknown tenant gets a null dereference; the map is not modified |
| `DefaultSolverManagers.SecondSolveForTenantFails` | src/main/java/org/optaplanner/springbootcloudbalancing/solver/DefaultSolverManager.java:63-74 | from any state, the first `solve` for a tenant fails exactly when the tenant was already present, a second one for it always fails, and the tenant keeps the task it had after the first (the first call's task if the tenant was new) |
| `CloudBalancingSolverManagers.CloudBalancingSolverManagerImpl.constructor` | src/main/java/org/optaplanner/springbootcloudbalancing/solver/CloudBalancingSolverManagerImpl.java:44-50 | a new manager has an empty map and a counter at 0 |
| `CloudBalancingSolverManagers.CloudBalancingSolverManagerImpl.Solve` | src/main/java/org/optaplanner/springbootcloudbalancing/solver/CloudBalancingSolverManagerImpl.java:65-73 | returns the counter's old value and increments it by exactly one; that id was not a key, so nothing is overwritten; the map gains exactly the id mapped to a task carrying that id and the given problem and solver; the invariant that the keys are exactly the issued ids 0 .. counter-1 is kept |
| `CloudBalancingSolverManagers.CloudBalancingSolverManagerImpl.GetBestSolution` | src/main/java/org/optaplanner/springbootcloudbalancing/solver/CloudBalancingSolverManagerImpl.java:75-79 | an issued id gets its task's best solution; an id never issued gets a null dereference; neither map nor counter changes |
| `CloudBalancingSolverManagers.CloudBalancingSolverManagerImpl.GetBestScore` | src/main/java/org/optaplanner/springbootcloudbalancing/solver/CloudBalancingSolverManagerImpl.java:81-85 | an issued id gets its task's best score; an id never issued gets a null dereference; neither map nor counter changes |
| `CloudBalancingSolverManagers.CloudBalancingSolverManagerImpl.GetSolverStatus` | src/main/java/org/optaplanner/springbootcloudbalancing/solver/CloudBalancingSolverManagerImpl.java:87-91 | an issued id gets its task's derived status; an id never issued gets a null dereference; neither map nor counter changes |
| `CloudBalancingSolverManagers.SuccessiveIdsFromZero` | src/main/java/org/optaplanner/springbootcloudbalancing/solver/CloudBalancingSolverManagerImpl.java:45-72 | a new manager numbers successive submissions 0, 1, 2, and each id then maps to the task built from its own problem and its own freshly built solver |
| `ExpectedScore.GetExpectedHardSoftScore` | src/test/java/org/optaplanner/springbootcloudbalancing/CloudBalancingControllerTest.java:151-182 | the nested loops compute exactly the specified hard and soft scores; with at least one computer and an unassigned process the hard loop throws a null dereference |
| `ExpectedScore.ComputerHardScoreSign` | src/test/java/org/optaplanner/springbootcloudbalancing/CloudBalancingControllerTest.java:165-173 | one computer's penalty is never positive and is zero exactly when its cpu, memory and bandwidth totals are within capacity |
| `ExpectedScore.HardScoreNonPositive` | src/test/java/org/optaplanner/springbootcloudbalancing/CloudBalancingControllerTest.java:152-174 | the hard score is never positive |
| `ExpectedScore.HardScoreZeroIffFeasible` | src/test/java/org/optaplanner/springbootcloudbalancing/CloudBalancingControllerTest.java:152-174 | the hard score is zero if and only if every computer's three totals are within its capacities |
| `ExpectedScore.HostedLoadSumsHostedProcesses` | src/test/java/org/optaplanner/springbootcloudbalancing/CloudBalancingControllerTest.java:154-163 | a computer's totals equal the plain sum of the demands of exactly the processes whose assigned computer has its id |
| `ExpectedScore.HostedLoadIgnoresOthers` | src/test/java/org/optaplanner/springbootcloudbalancing/CloudBalancingControllerTest.java:157-162 | processes assigned to another id leave a computer's totals unchanged |
| `ExpectedScore.SoftScoreChargesPerProcess` | src/test/java/org/optaplanner/springbootcloudbalancing/CloudBalancingControllerTest.java:176-179 | k processes on one computer cost k times its cost: cost is charged per process, not per used computer |
| `ExpectedScore.SoftScoreIgnoresUnassigned` | src/test/java/org/optaplanner/springbootcloudbalancing/CloudBalancingControllerTest.java:176-179 | unassigned processes contribute 0 to the soft score |
| `ExpectedScore.SoftScoreBounds` | src/test/java/org/optaplanner/springbootcloudbalancing/CloudBalancingControllerTest.java:176-179 | with assigned costs in [0, m] the soft score lies in [-m times the number of processes, 0] |
| `ExpectedScore.WorkedInstance` | src/test/java/org/optaplanner/springbootcloudbalancing/CloudBalancingControllerTest.java:151-181 | one computer (cpu 1000, memory 1, bandwidth 1, cost 1) with one process (700, 5, 5) scores hard -8 and soft -1 |
| `ProblemGenerator.NextIntAt` | src/test/java/org/optaplanner/springbootcloudbalancing/CloudBalancingControllerTest.java:128-131 | the value of a `nextInt(bound)` call lies in [0, bound) |
| `ProblemGenerator.GeneratedComputersShape` | src/test/java/org/optaplanner/springbootcloudbalancing/CloudBalancingControllerTest.java:123-137 | a generated computer list has the requested size, ids 0 .. n-1 in order, capacities in [0, 10) and costs that are multiples of 10 in [0, 90] |
| `ProblemGenerator.GeneratedProcessesShape` | src/test/java/org/optaplanner/springbootcloudbalancing/CloudBalancingControllerTest.java:139-149 | a generated process list has the requested size, ids 0 .. n-1 in order, demands in [0, 10) and no process assigned |
| `ProblemGenerator.GeneratedCostsBoundSoftScore` | src/test/java/org/optaplanner/springbootcloudbalancing/CloudBalancingControllerTest.java:125-136 | processes assigned only to generated computers have a soft score in [-90 per process, 0], so never positive |
| `ProblemGenerator.CloudBalancingControllerTest.constructor` | src/test/java/org/optaplanner/springbootcloudbalancing/CloudBalancingControllerTest.java:60-61 | the problem-id counter starts at 0 and the random stream at its first `nextInt` call |
| `ProblemGenerator.CloudBalancingControllerTest.Setup` | src/test/java/org/optaplanner/springbootcloudbalancing/CloudBalancingControllerTest.java:63-67 | resets the problem-id counter to 0 and restarts the random stream |
| `ProblemGenerator.CloudBalancingControllerTest.NextInt` | src/test/java/org/optaplanner/springbootcloudbalancing/CloudBalancingControllerTest.java:128-131 | returns the value of the `nextInt` call at the current index, in [0, bound), and advances the index by one |
| `ProblemGenerator.CloudBalancingControllerTest.CreateComputerList` | src/test/java/org/optaplanner/springbootcloudbalancing/CloudBalancingControllerTest.java:123-137 | builds exactly the specified computer list, using four `nextInt(10)` calls per computer |
| `ProblemGenerator.CloudBalancingControllerTest.CreateProcessList` | src/test/java/org/optaplanner/springbootcloudbalancing/CloudBalancingControllerTest.java:139-149 | builds exactly the specified process list, using three `nextInt(10)` calls per process |
| `ProblemGenerator.CloudBalancingControllerTest.GenerateCloudBalancingProblem` | src/test/java/org/optaplanner/springbootcloudbalancing/CloudBalancingControllerTest.java:114-121 | the problem takes the old id and the counter goes up by one; the computers come first from the random stream, then the processes |
| `ProblemGenerator.ProblemIdsAfterSetup` | src/test/java/org/optaplanner/springbootcloudbalancing/CloudBalancingControllerTest.java:63-121 | after `Setup`, successive generated problems get ids 0, 1, 2, and a (1, 1) problem has one computer and one process |

## Left out

- Thread pools and lifecycle are concurrency and container plumbing. This covers executor creation, `submit`, `shutdownNow`, the `@PostConstruct`/`@PreDestroy` hooks and the pool-size formulas (processors - 2, processors * 10).
- Each `solve` is one atomic step. `synchronized` and the unsynchronized `HashMap` reads and writes are not modelled. Neither is the window in which `CloudBalancingSolverManagerImpl.solve` has submitted a task but not yet put it in the map.
- `SolverFactory.createFromXmlResource` (its XML configuration is not part of this model) and `buildSolver` are foreign. A freshly built solver is the `solver` argument of `Solve`.
- `SolverTask.run`, which calls the blocking `Solver.solve`, is left out. The solver's flags and best values change on the worker thread. The model reads them as the solver state stored in the task and does not model how they evolve over time. So "once STOPPED, always STOPPED" is not stated.
- `CloudBalancingController` only forwards REST calls to the manager.
- Test plumbing is left out: MockMvc, Jackson JSON round trips, `Thread.sleep`, and the empty `submitMultipleProblems`.
- `java.util.Random` is a stream indexed by `nextInt` call: the value of the k-th call is an arbitrary fixed integer reduced into [0, bound). How `nextInt` rejects and redraws underlying 31-bit values for a bound that is not a power of two, and the actual values produced by seed 47, are not modelled; every call here uses bound 10, so one index per call is exact.
- ProblemGenerator.CloudBalancingControllerTest.CreateComputerList: the list size is a `nat`. A negative size, which makes `new ArrayList<>(size)` throw, is not modelled.
- ProblemGenerator.CloudBalancingControllerTest.CreateProcessList: the same holds for a negative size.
- ExpectedScore.GetExpectedHardSoftScore: the totals and scores are unbounded integers. The 32-bit `int` overflow of the Java loops is not modelled, since the generated demands are below 10 and the costs at most 90, so the totals stay far below 2^31.
- CloudBalancingSolverManagers.CloudBalancingSolverManagerImpl.Solve: the counter is unbounded. Wrap-around of the `AtomicLong` after 2^63 calls is not modelled.
- The domain classes `CloudBalance`, `CloudComputer`, `CloudProcess` and `HardSoftScore` are not part of this model. They are plain records with the getters the code uses, and a score is a pair of integers.
- Logging is left out throughout.
