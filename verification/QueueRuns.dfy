/** Whole runs of a node's queue: jobs are added, claimed, ended and cancelled, and agents restart, in any order. */
module QueueRuns {
  import opened Jobs
  import opened Scheduler

  /** The job table with what the scheduler reads beside it: when each node's agent last registered. */
  datatype Queue = Queue(jobs: seq<Job>, epochs: map<NodeId, int>, now: int)

  datatype Event =
    | Enqueue(job: Job)
    | Claim(node: Node)
    | End(id: JobId, status: Status) // a report, the stuck sweeper or a cancellation
    | Register(n: NodeId)
    | Wait(seconds: nat)

  function Epoch(q: Queue, n: NodeId): Option<int> {
    if n in q.epochs then Some(q.epochs[n]) else None
  }

  /** What may happen next. A claim comes from the node's current agent; only a new job is pending. */
  ghost predicate Enabled(q: Queue, e: Event) {
    match e
    case Enqueue(job) => job.status == Pending && job.startedAt == None
    case Claim(node) => node.agentStartedAt == Epoch(q, node.id)
    case End(id, status) => 0 <= id < |q.jobs| && status != Pending && status != Running
    case Register(_) => true
    case Wait(_) => true
  }

  ghost function Step(q: Queue, e: Event): Queue
    requires Enabled(q, e)
  {
    match e
    case Enqueue(job) => q.(jobs := q.jobs + [job])
    case Claim(node) => q.(jobs := Scheduler.Claim(q.jobs, node, q.now))
    case End(id, status) => q.(jobs := q.jobs[id := q.jobs[id].(status := status)])
    case Register(n) => q.(epochs := q.epochs[n := q.now])
    case Wait(seconds) => q.(now := q.now + seconds)
  }

  ghost predicate CanRun(q: Queue, es: seq<Event>)
    decreases |es|
  {
    es == [] || (Enabled(q, es[0]) && CanRun(Step(q, es[0]), es[1..]))
  }

  ghost function Run(q: Queue, es: seq<Event>): Queue
    requires CanRun(q, es)
    decreases |es|
  {
    if es == [] then q else Run(Step(q, es[0]), es[1..])
  }

  // ---- what every reachable state satisfies ----

  ghost predicate Dated(q: Queue) {
    (forall n :: n in q.epochs ==> q.epochs[n] <= q.now) &&
    (forall i :: 0 <= i < |q.jobs| ==>
      (q.jobs[i].status == Pending ==> q.jobs[i].startedAt.None?) &&
      (q.jobs[i].status == Running ==> q.jobs[i].startedAt.Some?) &&
      (q.jobs[i].startedAt.Some? ==> q.jobs[i].startedAt.value <= q.now))
  }

  /** A job the node's current agent process is running, log streams aside. */
  ghost predicate Occupies(q: Queue, i: JobId) {
    0 <= i < |q.jobs| && Counted(q.jobs, q.jobs[i].node, Epoch(q, q.jobs[i].node), i)
  }

  /** No two jobs the agent runs share a scope, and one without a scope is the only one. */
  ghost predicate Exclusive(q: Queue) {
    forall i, j :: i != j && Occupies(q, i) && Occupies(q, j) && q.jobs[i].node == q.jobs[j].node ==>
      q.jobs[i].scope != q.jobs[j].scope && q.jobs[i].scope != Unscoped
  }

  /** i was created before j, and j must not start until i is out of the way. */
  ghost predicate Precedes(jobs: seq<Job>, i: JobId, j: JobId) {
    0 <= i < j < |jobs| && jobs[i].node == jobs[j].node && jobs[i].kind != LogsFollow && jobs[j].kind != LogsFollow &&
    (jobs[i].scope == jobs[j].scope || jobs[i].scope == Unscoped)
  }

  /** Once the younger job has started, the older one has started before it (or was cancelled) and is over, unless
      it was left running by an agent process that is gone. */
  ghost predicate InOrder(q: Queue) {
    forall i, j :: Precedes(q.jobs, i, j) && q.jobs[j].startedAt.Some? ==>
      q.jobs[i].status != Pending && !Occupies(q, i) &&
      (q.jobs[i].startedAt.Some? ==> q.jobs[i].startedAt.value <= q.jobs[j].startedAt.value)
  }

  ghost predicate Inv(q: Queue) {
    Dated(q) && Exclusive(q) && InOrder(q)
  }

  lemma EnqueueKeeps(q: Queue, job: Job)
    requires Inv(q) && job.status == Pending && job.startedAt == None
    ensures Inv(q.(jobs := q.jobs + [job]))
  {
    var r := q.(jobs := q.jobs + [job]);
    forall i ensures Occupies(r, i) <==> Occupies(q, i) {}
    forall i, j | Precedes(r.jobs, i, j) && r.jobs[j].startedAt.Some? ensures Precedes(q.jobs, i, j) {}
  }

  lemma EndKeeps(q: Queue, id: JobId, job: Job)
    requires Inv(q) && 0 <= id < |q.jobs|
    requires job == q.jobs[id].(status := job.status, completedAt := job.completedAt)
    requires job.status != Pending && job.status != Running
    ensures Inv(q.(jobs := q.jobs[id := job]))
  {
    var r := q.(jobs := q.jobs[id := job]);
    forall i ensures Occupies(r, i) ==> Occupies(q, i) {}
    forall i, j ensures Precedes(r.jobs, i, j) <==> Precedes(q.jobs, i, j) {}
  }

  lemma TimeKeeps(q: Queue, later: int)
    requires Inv(q) && q.now <= later
    ensures Inv(q.(now := later))
  {
    forall i ensures Occupies(q.(now := later), i) <==> Occupies(q, i) {}
  }

  lemma RegisterKeeps(q: Queue, n: NodeId)
    requires Inv(q)
    ensures Inv(q.(epochs := q.epochs[n := q.now]))
  {
    var r := q.(epochs := q.epochs[n := q.now]);
    forall i ensures Occupies(r, i) ==> Occupies(q, i) {}
  }

  /** If the younger of two such jobs may start, so may the older one while it is pending. */
  lemma OlderMayStart(jobs: seq<Job>, node: Node, i: JobId, c: JobId)
    requires Precedes(jobs, i, c) && PendingOn(jobs, node.id, i) && MayStart(jobs, node, c)
    ensures MayStart(jobs, node, i)
  {
    WindowIsPrefix(jobs, node.id);
    var w := Window(jobs, node.id);
    var k :| 0 <= k < |w| && w[k] == c;
    assert i in w[..k];
    assert UnscopedAhead(jobs, node.id, i) ==> UnscopedAhead(jobs, node.id, c);
  }

  lemma ClaimIsOrderly(q: Queue, node: Node, c: JobId)
    requires Inv(q) && node.agentStartedAt == Epoch(q, node.id) && NextJob(q.jobs, node) == Some(c)
    ensures forall i :: Precedes(q.jobs, i, c) ==> q.jobs[i].status != Pending && !Occupies(q, i)
    ensures q.jobs[c].kind != LogsFollow ==> forall i :: Occupies(q, i) && q.jobs[i].node == node.id ==>
      q.jobs[i].scope != q.jobs[c].scope && q.jobs[i].scope != Unscoped && q.jobs[c].scope != Unscoped
  {
    forall i | Precedes(q.jobs, i, c) && q.jobs[i].status == Pending ensures MayStart(q.jobs, node, i) {
      OlderMayStart(q.jobs, node, i, c);
    }
  }

  lemma ClaimKeeps(q: Queue, node: Node)
    requires Inv(q) && node.agentStartedAt == Epoch(q, node.id)
    ensures Inv(q.(jobs := Scheduler.Claim(q.jobs, node, q.now)))
  {
    var next := NextJob(q.jobs, node);
    if next.Some? {
      var c := next.value;
      ClaimIsOrderly(q, node, c);
      var r := q.(jobs := Scheduler.Claim(q.jobs, node, q.now));
      forall i | i != c ensures Occupies(r, i) <==> Occupies(q, i) {}
      forall i, j ensures Precedes(r.jobs, i, j) <==> Precedes(q.jobs, i, j) {}
    }
  }

  lemma StepKeeps(q: Queue, e: Event)
    requires Inv(q) && Enabled(q, e)
    ensures Inv(Step(q, e))
  {
    match e
    case Enqueue(job) => EnqueueKeeps(q, job);
    case Claim(node) => ClaimKeeps(q, node);
    case End(id, status) => EndKeeps(q, id, q.jobs[id].(status := status));
    case Register(n) => RegisterKeeps(q, n);
    case Wait(seconds) => TimeKeeps(q, q.now + seconds);
  }

  /** Scope exclusion and no overtaking, in every state of every run. */
  lemma {:induction false} RunKeeps(q: Queue, es: seq<Event>)
    requires Inv(q) && CanRun(q, es)
    ensures Inv(Run(q, es))
    decreases |es|
  {
    if es != [] {
      StepKeeps(q, es[0]);
      RunKeeps(Step(q, es[0]), es[1..]);
    }
  }

  function Start(now: int): Queue {
    Queue([], map[], now)
  }

  /** Exclusion, in every state a queue can reach: of the jobs a node's current agent is running, no two share a scope,
      and one without a scope is the only one. */
  lemma ScopesNeverOverlap(now: int, es: seq<Event>, i: JobId, j: JobId)
    requires CanRun(Start(now), es) && i != j && Occupies(Run(Start(now), es), i) && Occupies(Run(Start(now), es), j)
    ensures var jobs := Run(Start(now), es).jobs;
      jobs[i].node == jobs[j].node ==>
        jobs[i].scope != jobs[j].scope && jobs[i].scope != Unscoped && jobs[j].scope != Unscoped
  {
    RunKeeps(Start(now), es);
  }

  /** No overtaking, in every state a queue can reach: once a job has started, each older job of its node in the same
      scope, or without one, has left the queue, is not being run, and started earlier if it ever did. */
  lemma NoOvertaking(now: int, es: seq<Event>, i: JobId, j: JobId)
    requires CanRun(Start(now), es) && Precedes(Run(Start(now), es).jobs, i, j)
    requires Run(Start(now), es).jobs[j].startedAt.Some?
    ensures var q := Run(Start(now), es);
      q.jobs[i].status != Pending && !Occupies(q, i) &&
      (q.jobs[i].startedAt.Some? ==> q.jobs[i].startedAt.value <= q.jobs[j].startedAt.value)
  {
    RunKeeps(Start(now), es);
  }

  /** A job only starts while the running count is below the limit, so a start never takes the count over it. */
  lemma ClaimRespectsLimit(q: Queue, node: Node)
    requires Inv(q) && node.agentStartedAt == Epoch(q, node.id)
    ensures var before, after := CountedIds(q.jobs, node.id, Epoch(q, node.id)),
                CountedIds(Scheduler.Claim(q.jobs, node, q.now), node.id, Epoch(q, node.id));
      after != before ==> |before| < JobLimit(node) && |after| == |before| + 1
  {
    var next := NextJob(q.jobs, node);
    if next.Some? {
      StartCounts(q.jobs, node, Epoch(q, node.id), next.value, q.now);
    }
  }

  lemma StartCounts(jobs: seq<Job>, node: Node, epoch: Option<int>, c: JobId, now: int)
    requires PendingOn(jobs, node.id, c) && (epoch.None? || epoch.value <= now)
    ensures CountedIds(jobs[c := Started(jobs[c], now)], node.id, epoch) ==
      CountedIds(jobs, node.id, epoch) + if jobs[c].kind == LogsFollow then {} else {c}
    ensures c !in CountedIds(jobs, node.id, epoch)
  {
  }

  // ---- bounded waiting ----

  /** How many claims and completions a job still waits for: two for each older pending job of its node (it must
      start, then end), one for each job the node is running. */
  ghost function Ahead(q: Queue, u: JobId): set<JobId>
    requires 0 <= u < |q.jobs|
  {
    set i | 0 <= i < u && PendingOn(q.jobs, q.jobs[u].node, i)
  }

  ghost function Taking(q: Queue, n: NodeId): set<JobId> {
    set i | 0 <= i < |q.jobs| && q.jobs[i].node == n && q.jobs[i].status == Running && q.jobs[i].kind != LogsFollow
  }

  ghost function WaitOf(q: Queue, u: JobId): nat
    requires 0 <= u < |q.jobs|
  {
    2 * |Ahead(q, u)| + |Taking(q, q.jobs[u].node)|
  }

  /** An event that brings u's start closer: a job of its node ends, or the node claims while it runs nothing. */
  ghost predicate Progress(q: Queue, e: Event, u: JobId)
    requires 0 <= u < |q.jobs|
  {
    match e
    case End(id, _) => id in Taking(q, q.jobs[u].node)
    case Claim(node) => node.id == q.jobs[u].node && Idle(q.jobs, node)
    case _ => false
  }

  /** With nothing running, a claim takes the oldest pending job, however short of memory the node is. */
  lemma IdleClaimTakesOldest(q: Queue, node: Node, u: JobId)
    requires PendingOn(q.jobs, node.id, u) && Idle(q.jobs, node)
    ensures NextJob(q.jobs, node).Some? && NextJob(q.jobs, node).value <= u
    ensures forall i :: PendingOn(q.jobs, node.id, i) ==> NextJob(q.jobs, node).value <= i
  {
    WindowIsPrefix(q.jobs, node.id);
    IdleIsEmpty(q.jobs, node);
    var first := Window(q.jobs, node.id)[0];
    assert MayStart(q.jobs, node, first);
    forall j | 0 <= j < first ensures !MayStart(q.jobs, node, j) {}
    NextIsFirst(q.jobs, node, first);
  }

  lemma SmallerByOne<T>(a: set<T>, b: set<T>, x: T)
    requires x in a && b == a - {x}
    ensures |b| == |a| - 1
  {
  }

  /** Starting c changes u's wait only when c is an older job of u's node. */
  lemma StartChangesWait(q: Queue, r: Queue, u: JobId, c: JobId)
    requires 0 <= u < |q.jobs| && 0 <= c < |q.jobs| && q.jobs[c].status == Pending && c != u
    requires r.jobs == q.jobs[c := Started(q.jobs[c], q.now)]
    ensures q.jobs[c].node == q.jobs[u].node && c < u ==> WaitOf(r, u) < WaitOf(q, u)
    ensures q.jobs[c].node != q.jobs[u].node || (c > u && q.jobs[c].kind == LogsFollow) ==> WaitOf(r, u) == WaitOf(q, u)
  {
    var n := q.jobs[u].node;
    if q.jobs[c].node == n && c < u {
      SmallerByOne(Ahead(q, u), Ahead(r, u), c);
      if q.jobs[c].kind == LogsFollow {
        assert Taking(r, n) == Taking(q, n);
      } else {
        assert Taking(r, n) == Taking(q, n) + {c};
      }
    } else if q.jobs[c].node != n || q.jobs[c].kind == LogsFollow {
      assert Ahead(r, u) == Ahead(q, u);
      assert Taking(r, n) == Taking(q, n);
    }
  }

  lemma EndChangesWait(q: Queue, r: Queue, u: JobId, id: JobId, status: Status)
    requires 0 <= u < |q.jobs| && 0 <= id < |q.jobs| && id != u && status != Pending && status != Running
    requires r.jobs == q.jobs[id := q.jobs[id].(status := status)]
    ensures WaitOf(r, u) <= WaitOf(q, u)
    ensures id in Taking(q, q.jobs[u].node) ==> WaitOf(r, u) < WaitOf(q, u)
  {
    var n := q.jobs[u].node;
    if id in Taking(q, n) {
      SmallerByOne(Taking(q, n), Taking(r, n), id);
    } else {
      assert Taking(r, n) == Taking(q, n);
    }
    if id in Ahead(q, u) {
      SmallerByOne(Ahead(q, u), Ahead(r, u), id);
    } else {
      assert Ahead(r, u) == Ahead(q, u);
    }
  }

  lemma OthersKeepWait(q: Queue, r: Queue, u: JobId)
    requires 0 <= u < |q.jobs| <= |r.jobs| && r.jobs[..|q.jobs|] == q.jobs
    requires forall i :: |q.jobs| <= i < |r.jobs| ==> r.jobs[i].status == Pending
    ensures WaitOf(r, u) == WaitOf(q, u)
  {
    assert forall i :: 0 <= i < |q.jobs| ==> r.jobs[i] == r.jobs[..|q.jobs|][i];
    assert Ahead(r, u) == Ahead(q, u);
    assert Taking(r, q.jobs[u].node) == Taking(q, q.jobs[u].node);
  }

  /** No step makes the job wait longer, and every step that counts as progress shortens its wait. */
  lemma StepShortensWait(q: Queue, e: Event, u: JobId)
    requires Inv(q) && 0 <= u < |q.jobs| && q.jobs[u].status == Pending
    requires q.jobs[u].scope == Unscoped && q.jobs[u].kind != LogsFollow && Enabled(q, e)
    requires Step(q, e).jobs[u].status == Pending
    ensures WaitOf(Step(q, e), u) <= WaitOf(q, u)
    ensures Progress(q, e, u) ==> WaitOf(Step(q, e), u) < WaitOf(q, u)
  {
    match e
    case Enqueue(_) => OthersKeepWait(q, Step(q, e), u);
    case Register(_) => OthersKeepWait(q, Step(q, e), u);
    case Wait(_) => OthersKeepWait(q, Step(q, e), u);
    case End(id, status) => EndChangesWait(q, Step(q, e), u, id, status);
    case Claim(node) => {
      var next := NextJob(q.jobs, node);
      if Progress(q, e, u) { IdleClaimTakesOldest(q, node, u); }
      if next.Some? {
        var c := next.value;
        ClaimIsOrderly(q, node, c);
        assert Precedes(q.jobs, u, c) <==> c > u && q.jobs[c].node == q.jobs[u].node && q.jobs[c].kind != LogsFollow;
        StartChangesWait(q, Step(q, e), u, c);
      } else {
        OthersKeepWait(q, Step(q, e), u);
      }
    }
  }

  ghost function ProgressCount(q: Queue, es: seq<Event>, u: JobId): nat
    requires CanRun(q, es) && 0 <= u < |q.jobs|
    decreases |es|
  {
    if es == [] then 0
    else (if Progress(q, es[0], u) then 1 else 0) + ProgressCount(Step(q, es[0]), es[1..], u)
  }

  lemma {:induction false} NeverPendingAgain(q: Queue, es: seq<Event>, u: JobId)
    requires CanRun(q, es) && 0 <= u < |q.jobs|
    ensures u < |Run(q, es).jobs|
    ensures Run(q, es).jobs[u].status == Pending ==> q.jobs[u].status == Pending
    ensures Run(q, es).jobs[u].node == q.jobs[u].node && Run(q, es).jobs[u].scope == q.jobs[u].scope
    decreases |es|
  {
    if es != [] { NeverPendingAgain(Step(q, es[0]), es[1..], u); }
  }

  /** A job that runs alone waits for boundedly many steps: as long as it is pending, no run contains more
      completions and idle claims on its node than its wait at the start. */
  lemma {:induction false} WaitIsBounded(q: Queue, es: seq<Event>, u: JobId)
    requires Inv(q) && CanRun(q, es) && 0 <= u < |q.jobs|
    requires q.jobs[u].scope == Unscoped && q.jobs[u].kind != LogsFollow
    requires u < |Run(q, es).jobs| && Run(q, es).jobs[u].status == Pending
    ensures ProgressCount(q, es, u) + WaitOf(Run(q, es), u) <= WaitOf(q, u)
    decreases |es|
  {
    if es != [] {
      NeverPendingAgain(Step(q, es[0]), es[1..], u);
      NeverPendingAgain(q, [es[0]], u);
      assert Run(q, [es[0]]) == Step(q, es[0]);
      StepKeeps(q, es[0]);
      StepShortensWait(q, es[0], u);
      WaitIsBounded(Step(q, es[0]), es[1..], u);
    }
  }
}
