/** What a claim needs beside what is already running, in plain numbers, and which jobs count as running at all. */
module ClaimRules {
  import opened Jobs
  import opened Scheduler
  import opened QueueRuns

  /** Beside a running job, a claim hands out another one, unless it is a log stream, only on a node that has 1536 MiB of
      memory free and a load below the number of its cores, as far as it reports them. */
  lemma StartsBesideOnlyWithRoom(jobs: seq<Job>, node: Node)
    requires NextJob(jobs, node).Some? && jobs[NextJob(jobs, node).value].kind != LogsFollow && !Idle(jobs, node)
    ensures (node.memoryTotal == 0 || node.memoryTotal - node.memoryUsed >= 1536 * 1024 * 1024) &&
            (node.cpu == 0 || node.loadAvg1 < node.cpu as real)
  {
  }

  /** A pending job that shares no scope with a running one, with no job that runs alone running or ahead of it. */
  ghost predicate Free(jobs: seq<Job>, node: Node, j: JobId) {
    PendingOn(jobs, node.id, j) && j in Window(jobs, node.id) && jobs[j].scope != Unscoped &&
    !Busy(jobs, node, Unscoped) && !Busy(jobs, node, jobs[j].scope) && !UnscopedAhead(jobs, node.id, j)
  }

  /** With that much room and a slot free, the oldest such job is handed out, unless a log stream is older still. */
  lemma OldestFreeJobStarts(jobs: seq<Job>, node: Node, c: JobId)
    requires node.memoryTotal == 0 || node.memoryTotal - node.memoryUsed >= 1536 * 1024 * 1024
    requires node.cpu == 0 || node.loadAvg1 < node.cpu as real
    requires |CountedIds(jobs, node.id, node.agentStartedAt)| < JobLimit(node) && !Idle(jobs, node)
    requires Free(jobs, node, c) && jobs[c].kind != LogsFollow
    requires forall j :: 0 <= j < c && PendingOn(jobs, node.id, j) ==> jobs[j].kind != LogsFollow && !Free(jobs, node, j)
    ensures NextJob(jobs, node) == Some(c)
  {
    assert MayStart(jobs, node, c);
    forall j | 0 <= j < c ensures !MayStart(jobs, node, j) {
      assert PendingOn(jobs, node.id, j) ==> !Free(jobs, node, j);
    }
    NextIsFirst(jobs, node, c);
  }

  /** A log stream never waits for a slot, room or any other job. */
  lemma LogStreamsAlwaysStart(jobs: seq<Job>, node: Node, j: JobId)
    requires PendingOn(jobs, node.id, j) && j in Window(jobs, node.id) && jobs[j].kind == LogsFollow
    ensures NextJob(jobs, node).Some? && NextJob(jobs, node).value <= j
  {
    assert MayStart(jobs, node, j);
  }

  /** A claim looks at the hundred oldest pending jobs of the node, or at all of them if there are fewer. */
  lemma WindowHoldsTheOldest(jobs: seq<Job>, n: NodeId)
    ensures var ids, all := Window(jobs, n), set i: JobId | 0 <= i < |jobs| && PendingOn(jobs, n, i);
      |ids| == (if |all| <= 100 then |all| else 100) && (forall i :: i in ids ==> i in all) &&
      (forall i, j :: i in ids && j in all && j !in ids ==> i < j)
  {
    var listed, all := PendingIds(jobs, n, |jobs|), set i: JobId | 0 <= i < |jobs| && PendingOn(jobs, n, i);
    IncreasingMembers(listed);
    assert Members(listed) == all;
    forall i, j | i in Window(jobs, n) && j in all && j !in Window(jobs, n) ensures i < j {
      assert j in listed;
      var a :| 0 <= a < |listed| && listed[a] == j;
      assert forall k :: 0 <= k < |Window(jobs, n)| ==> Window(jobs, n)[k] == listed[k];
    }
  }

  function Members(ids: seq<JobId>): set<JobId> { set i | i in ids }

  lemma {:induction false} IncreasingMembers(ids: seq<JobId>)
    requires forall a, b :: 0 <= a < b < |ids| ==> ids[a] < ids[b]
    ensures |Members(ids)| == |ids|
  {
    if ids != [] {
      var last := |ids| - 1;
      IncreasingMembers(ids[..last]);
      assert ids == ids[..last] + [ids[last]];
      assert Members(ids) == Members(ids[..last]) + {ids[last]};
    }
  }

  /** Another parallel job is recommended, up to the fourth, for every 4 GiB and every two cores the node reports. */
  lemma RecommendsExactlyWhen(cpus: nat, memoryTotal: nat, n: nat)
    requires 2 <= n <= 4
    ensures n <= RecommendedParallelJobs(cpus, memoryTotal) <==>
      (memoryTotal == 0 || memoryTotal >= n * 4294967296) && (cpus == 0 || cpus >= 2 * n)
  {
    var r := RecommendedParallelJobs(cpus, memoryTotal);
    if n <= r {
      assert n * 4294967296 <= r * 4294967296;
    }
  }

  /** A node takes one job at a time unless its agent can take more; then as many as are set, and as recommended if none
      are. */
  lemma LimitIs(node: Node, n: nat)
    requires 2 <= n
    ensures n <= JobLimit(node) <==>
      node.parallelCapability &&
      if node.parallelJobs > 0 then n <= node.parallelJobs
      else n <= 4 && (node.memoryTotal == 0 || node.memoryTotal >= n * 4294967296) && (node.cpu == 0 || node.cpu >= 2 * n)
  {
    if n <= 4 { RecommendsExactlyWhen(node.cpu, node.memoryTotal, n); }
  }

  // ---- which jobs count as running ----

  /** The jobs n's agent has claimed since it last registered and that have not ended, log streams aside. */
  ghost function HeldAfter(q: Queue, es: seq<Event>, n: NodeId, held: set<JobId>): set<JobId>
    requires CanRun(q, es)
    decreases |es|
  {
    if es == [] then held else HeldAfter(Step(q, es[0]), es[1..], n, HeldNext(q, es[0], n, held))
  }

  ghost function HeldNext(q: Queue, e: Event, n: NodeId, held: set<JobId>): set<JobId>
    requires Enabled(q, e)
  {
    match e
    case Claim(node) =>
      var c := NextJob(q.jobs, node);
      if node.id == n && c.Some? && q.jobs[c.value].kind != LogsFollow then held + {c.value} else held
    case End(id, _) => held - {id}
    case Register(m) => if m == n then {} else held
    case _ => held
  }

  /** No agent registers in the very second in which it started a job. */
  ghost predicate RestartsTakeTime(q: Queue, es: seq<Event>)
    requires CanRun(q, es)
    decreases |es|
  {
    es == [] ||
    ((es[0].Register? ==> forall i :: 0 <= i < |q.jobs| && q.jobs[i].node == es[0].n && q.jobs[i].startedAt.Some? ==>
        q.jobs[i].startedAt.value < q.now) &&
     RestartsTakeTime(Step(q, es[0]), es[1..]))
  }

  ghost predicate HeldOccupy(q: Queue, n: NodeId, held: set<JobId>) {
    Dated(q) && forall i :: i in held <==> Occupies(q, i) && q.jobs[i].node == n
  }

  lemma ClaimHolds(q: Queue, node: Node, n: NodeId, held: set<JobId>)
    requires Inv(q) && HeldOccupy(q, n, held) && Enabled(q, Claim(node))
    ensures HeldOccupy(Step(q, Claim(node)), n, HeldNext(q, Claim(node), n, held))
  {
    var next, r := NextJob(q.jobs, node), Step(q, Claim(node));
    ClaimKeeps(q, node);
    if next.Some? {
      var c := next.value;
      assert PendingOn(q.jobs, node.id, c);
      forall i | i != c ensures Occupies(r, i) <==> Occupies(q, i) {}
      assert Occupies(r, c) <==> q.jobs[c].kind != LogsFollow;
    }
  }

  lemma OthersHold(q: Queue, e: Event, n: NodeId, held: set<JobId>)
    requires Inv(q) && HeldOccupy(q, n, held) && Enabled(q, e) && !e.Claim?
    requires e.Register? ==> forall i :: 0 <= i < |q.jobs| && q.jobs[i].node == e.n && q.jobs[i].startedAt.Some? ==>
      q.jobs[i].startedAt.value < q.now
    ensures HeldOccupy(Step(q, e), n, HeldNext(q, e, n, held))
  {
    StepKeeps(q, e);
    var r := Step(q, e);
    match e
    case Enqueue(_) => forall i ensures Occupies(r, i) <==> Occupies(q, i) {}
    case End(id, _) => forall i ensures Occupies(r, i) <==> Occupies(q, i) && i != id {}
    case Register(m) => forall i ensures Occupies(r, i) <==> Occupies(q, i) && q.jobs[i].node != m {}
    case Wait(_) => forall i ensures Occupies(r, i) <==> Occupies(q, i) {}
  }

  lemma {:induction false} HeldAreCounted(q: Queue, es: seq<Event>, n: NodeId, held: set<JobId>)
    requires Inv(q) && HeldOccupy(q, n, held) && CanRun(q, es) && RestartsTakeTime(q, es)
    ensures HeldOccupy(Run(q, es), n, HeldAfter(q, es, n, held))
    decreases |es|
  {
    if es != [] {
      if es[0].Claim? { ClaimHolds(q, es[0].node, n, held); } else { OthersHold(q, es[0], n, held); }
      StepKeeps(q, es[0]);
      HeldAreCounted(Step(q, es[0]), es[1..], n, HeldNext(q, es[0], n, held));
    }
  }

  /** Over every run, the jobs that count as running on a node are those its present agent process has claimed and that
      have not ended: jobs a restarted agent lost do not block the queue, and no other job goes uncounted. */
  lemma CountedAreHeld(now: int, es: seq<Event>, n: NodeId)
    requires CanRun(Start(now), es) && RestartsTakeTime(Start(now), es)
    ensures var q := Run(Start(now), es);
      CountedIds(q.jobs, n, Epoch(q, n)) == HeldAfter(Start(now), es, n, {})
  {
    HeldAreCounted(Start(now), es, n, {});
  }
}
