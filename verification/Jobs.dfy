/** The rows the Hub schedules with: jobs, and the nodes that run them. A job's ID is its position in the table,
    which is also its place in creation order. Times are seconds. */
module Jobs {
  datatype Option<+T> = None | Some(value: T)

  type NodeId = int
  type ProjectId = int
  type JobId = int

  /** What a job works on: one app, one container, or the whole node (no scope). */
  datatype Scope = Unscoped | App(project: ProjectId) | Container(name: string)

  datatype Kind = Deploy | FailoverStop | LogsFollow | Command

  datatype Status = Pending | Running | Completed | Failed | Cancelled

  datatype Job = Job(
    node: NodeId, kind: Kind, scope: Scope, status: Status, createdAt: int, timeout: nat,
    startedAt: Option<int>, completedAt: Option<int>)

  function NewJob(node: NodeId, kind: Kind, scope: Scope, timeout: nat, now: int): Job {
    Job(node, kind, scope, Pending, now, timeout, None, None)
  }

  predicate Active(j: Job) {
    j.status == Pending || j.status == Running
  }

  // ---- nodes ----

  const GIB := 0x4000_0000
  const PARALLEL_JOB_MIN_FREE_MEMORY := 1536 * 0x10_0000

  datatype Node = Node(
    id: NodeId, agentStartedAt: Option<int>, cpu: nat, memoryTotal: nat, memoryUsed: nat, loadAvg1: real,
    parallelCapability: bool, parallelJobs: nat)

  function Min(a: int, b: int): int { if a <= b then a else b }
  function Max(a: int, b: int): int { if a <= b then b else a }

  /** Whether a node with these resources has them for n jobs at once; what it has not reported does not limit it. */
  predicate Affords(cpus: nat, memoryTotal: nat, n: int) {
    (memoryTotal > 0 ==> n * (4 * GIB) <= memoryTotal) && (cpus > 0 ==> 2 * n <= cpus)
  }

  /** The largest number of jobs from 1 to 4 that the hardware affords, and 1 when it does not even afford one. */
  function RecommendedParallelJobs(cpus: nat, memoryTotal: nat): (r: int)
    ensures 1 <= r <= 4
    ensures r == 1 || Affords(cpus, memoryTotal, r)
    ensures forall n :: r < n <= 4 ==> !Affords(cpus, memoryTotal, n)
  {
    var n := if memoryTotal > 0 then Min(4, memoryTotal / (4 * GIB)) else 4;
    var m := if cpus > 0 then Min(n, cpus / 2) else n;
    Max(m, 1)
  }

  /** The limit that applies: one for an agent that takes one job at a time, else as set, else as recommended. */
  function JobLimit(node: Node): (limit: int)
    ensures limit >= 1
    ensures !node.parallelCapability ==> limit == 1
    ensures node.parallelCapability && node.parallelJobs > 0 ==> limit == node.parallelJobs
    ensures node.parallelCapability && node.parallelJobs == 0 ==>
      limit <= 4 && (limit == 1 || Affords(node.cpu, node.memoryTotal, limit)) &&
      forall n :: limit < n <= 4 ==> !Affords(node.cpu, node.memoryTotal, n)
  {
    if !node.parallelCapability then 1
    else if node.parallelJobs > 0 then node.parallelJobs
    else RecommendedParallelJobs(node.cpu, node.memoryTotal)
  }

  predicate RoomForAnotherJob(node: Node) {
    !(node.memoryTotal > 0 && node.memoryTotal - node.memoryUsed < PARALLEL_JOB_MIN_FREE_MEMORY) &&
    !(node.cpu > 0 && node.loadAvg1 >= node.cpu as real)
  }

  // ---- queries ----

  /** A row of the scheduler's `running` query: a job this agent process is running beside its log streams. */
  predicate Counted(jobs: seq<Job>, n: NodeId, epoch: Option<int>, i: JobId) {
    0 <= i < |jobs| && jobs[i].node == n && jobs[i].status == Running && jobs[i].kind != LogsFollow &&
    (epoch.None? || jobs[i].startedAt.None? || jobs[i].startedAt.value >= epoch.value)
  }

  predicate PendingOn(jobs: seq<Job>, n: NodeId, i: JobId) {
    0 <= i < |jobs| && jobs[i].node == n && jobs[i].status == Pending
  }

  /** The IDs below k of the node's pending jobs, oldest first. */
  function PendingIds(jobs: seq<Job>, n: NodeId, k: nat): (ids: seq<JobId>)
    requires k <= |jobs|
    ensures |ids| <= k
    ensures forall i :: i in ids <==> i < k && PendingOn(jobs, n, i)
    ensures forall a :: 0 <= a < |ids| ==> ids[a] < k
    ensures forall a, b :: 0 <= a < b < |ids| ==> ids[a] < ids[b]
  {
    if k == 0 then []
    else if PendingOn(jobs, n, k - 1) then PendingIds(jobs, n, k - 1) + [k - 1]
    else PendingIds(jobs, n, k - 1)
  }

  const WINDOW := 100

  /** The oldest pending jobs of the node, as many as one claim looks at. */
  function Window(jobs: seq<Job>, n: NodeId): seq<JobId> {
    var all := PendingIds(jobs, n, |jobs|);
    if |all| <= WINDOW then all else all[..WINDOW]
  }

  /** The window is a prefix of the queue: nothing in it is younger than a pending job outside it. */
  lemma WindowIsPrefix(jobs: seq<Job>, n: NodeId)
    ensures var ids := Window(jobs, n);
      (forall k :: 0 <= k < |ids| ==> PendingOn(jobs, n, ids[k])) &&
      (forall a, b :: 0 <= a < b < |ids| ==> ids[a] < ids[b]) &&
      (forall i, k :: 0 <= k < |ids| && i < ids[k] && PendingOn(jobs, n, i) ==> i in ids[..k]) &&
      (forall i :: PendingOn(jobs, n, i) ==> ids != [] && ids[0] <= i)
  {
    var all, ids := PendingIds(jobs, n, |jobs|), Window(jobs, n);
    forall k | 0 <= k < |ids| ensures PendingOn(jobs, n, ids[k]) { assert all[k] in all; }
    forall i, k | 0 <= k < |ids| && i < ids[k] && PendingOn(jobs, n, i) ensures i in ids[..k] {
      assert i in all;
      var a :| 0 <= a < |all| && all[a] == i;
      assert ids[k] == all[k];
      assert a < k;
      assert ids[..k][a] == i;
    }
    forall i | PendingOn(jobs, n, i) ensures ids != [] && ids[0] <= i {
      assert i in all;
      var a :| 0 <= a < |all| && all[a] == i;
    }
  }

  /** Some member of a nonempty set, as a walk over a map's keys would give. */
  method AnyOf<T>(s: set<T>) returns (x: T)
    requires s != {}
    ensures x in s
  {
    x :| x in s;
  }
}
