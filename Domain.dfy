/**
 * The cloud-balancing domain records, with exactly the getters the job
 * managers and the score oracle read. Java `int` and `long` fields are
 * unbounded integers here.
 */
module Domain {
  import opened Wrappers

  /** A computer offering capacity in three dimensions at a fixed cost. */
  datatype CloudComputer = CloudComputer(
    id: int,
    cpuPower: int,
    memory: int,
    networkBandwidth: int,
    cost: int)

  /** A process with its demand in the same three dimensions; `computer` is its
      planning variable, `None` while it is unassigned. */
  datatype CloudProcess = CloudProcess(
    id: int,
    requiredCpuPower: int,
    requiredMemory: int,
    requiredNetworkBandwidth: int,
    computer: Option<CloudComputer>)

  /** One planning problem (or solution): its id and its two lists. */
  datatype CloudBalance = CloudBalance(
    id: int,
    computerList: seq<CloudComputer>,
    processList: seq<CloudProcess>)

  /** A two-level score: hard constraint penalties, then soft costs. */
  datatype HardSoftScore = HardSoftScore(hardScore: int, softScore: int)
}
