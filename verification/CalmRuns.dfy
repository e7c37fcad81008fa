/** Runs without lost jobs: agents carry out what they claim and report what happened, any number of times. What such
    runs keep true of the queue, of the copies that exist, and of where removals were queued. */
module CalmRuns {
  import opened Jobs
  import opened Hub
  import opened Protocol
  import opened CopyHistory
  import opened JobLife
  import opened MigrationRuns
  import Scheduler
  import QueueRuns

  /** No deploy or removal is lost: their reports tell what happened (and may be repeated), an agent restarts only
      when it runs none of them, and none is given up on while it runs. Other jobs may be. */
  ghost predicate Calm(w: World, e: Event)
    requires Enabled(w, e)
  {
    match e
    case Report(j, status) => (MovesCopies(w.rows.jobs[j].kind) ==>
        j in w.outcomes && (status == Completed <==> w.outcomes[j]))
    case Register(n) => (forall i :: 0 <= i < |w.rows.jobs| && w.rows.jobs[i].status == Running ==>
        w.rows.jobs[i].node != n || !MovesCopies(w.rows.jobs[i].kind))
    case SweepStuck => (forall i :: 0 <= i < |w.rows.jobs| && MovesCopies(w.rows.jobs[i].kind) ==>
        !Stuck(w.rows.jobs[i], w.now))
    case _ => true
  }

  ghost predicate CalmRun(w: World, es: seq<Event>)
    requires CanRun(w, es)
    decreases |es|
  {
    es == [] || (Calm(w, es[0]) && CalmRun(Step(w, es[0]), es[1..]))
  }

  // ---- the queue ----

  ghost predicate Attended(w: World) {
    forall i :: 0 <= i < |w.rows.jobs| && w.rows.jobs[i].status == Running && MovesCopies(w.rows.jobs[i].kind) ==>
      QueueRuns.Occupies(Queue(w), i)
  }

  ghost predicate OutcomeKnown(w: World, i: JobId)
    requires 0 <= i < |w.rows.jobs|
  {
    var job := w.rows.jobs[i];
    (job.status == Cancelled ==> job.startedAt.None?) &&
    (MovesCopies(job.kind) ==>
      match job.status
      case Pending => i !in w.outcomes
      case Cancelled => i !in w.outcomes && job.kind != FailoverStop
      case Running => i in w.outcomes && job.kind == FailoverStop ==> w.outcomes[i]
      case ended => (i in w.outcomes && (w.outcomes[i] <==> ended == Completed) && job.completedAt.Some? &&
          (job.kind == FailoverStop ==> w.outcomes[i])))
  }

  ghost predicate Reliable(w: World) {
    QueueRuns.Inv(Queue(w)) && Attended(w) && 
    (forall i :: i in w.outcomes ==> 0 <= i < |w.rows.jobs| && w.rows.jobs[i].startedAt.Some?) &&
    forall i :: 0 <= i < |w.rows.jobs| ==> OutcomeKnown(w, i)
  }

  lemma OnlyEndsKeepsQueue(q: QueueRuns.Queue, more: seq<Job>)
    requires QueueRuns.Inv(q) && OnlyEnds(q.jobs, more)
    ensures QueueRuns.Inv(q.(jobs := more))
  {
    var r := q.(jobs := more);
    forall i ensures QueueRuns.Occupies(r, i) ==> QueueRuns.Occupies(q, i) {}
    forall i, j | QueueRuns.Precedes(more, i, j) && more[j].startedAt.Some? ensures QueueRuns.Precedes(q.jobs, i, j) {}
  }

  /** What a calm step that claims nothing does to a row: a report ends it; a deletion, a sweep or a person calls it
      off; or it is given up on. */
  ghost predicate RowAfter(e: Event, before: Job, after: Job, i: JobId, now: int) {
    after == before || (e.Report? && i == e.j && after == EndJob(before, e.status, now)) ||
    (before.status == Pending && after == before.(status := Cancelled, completedAt := after.completedAt) &&
     before.kind != FailoverStop) ||
    (e.SweepStuck? && after == EndJob(before, Failed, now) && !MovesCopies(before.kind))
  }

  ghost predicate RowsAfter(e: Event, jobs: seq<Job>, more: seq<Job>, now: int) {
    OnlyEnds(jobs, more) && forall i :: 0 <= i < |jobs| ==> RowAfter(e, jobs[i], more[i], i, now)
  }

  lemma ActedOnRows(s: State, t: State, j: JobId, status: Status, now: int)
    requires 0 <= j < |s.jobs| && ActedOn(s, t, j, status, now) && (status == Completed || status == Failed)
    ensures RowsAfter(Report(j, status), s.jobs, t.jobs, now)
  {
  }

  lemma ReportRows(w: World, e: Event)
    requires WellFormed(w.rows) && e.Report? && Enabled(w, e)
    ensures RowsAfter(e, w.rows.jobs, Step(w, e).rows.jobs, w.now)
  {
    var s, j := w.rows, e.j;
    if !DuplicateReport(s.jobs[j], e.status) {
      if s.jobs[j].kind == Deploy { DeploysAreRooted(s, j); }
      ReportedCases(s, j, e.status, w.now);
      ActedOnRows(s, Step(w, e).rows, j, e.status, w.now);
    }
  }

  lemma DeployJobsAreDeploys(s: State, p: ProjectId, i: JobId)
    requires WellFormed(s)
    ensures i in DeployJobs(s.deployments, p) <==> IsDeploy(s.jobs, i, p)
  {
    if i in DeployJobs(s.deployments, p) {
      var d :| 0 <= d < |s.deployments| && s.deployments[d].project == p && s.deployments[d].job == i;
      assert IsDeploy(s.jobs, s.deployments[d].job, p);
    }
    if IsDeploy(s.jobs, i, p) {
      assert HasDeployment(s.deployments, i);
      var d :| 0 <= d < |s.deployments| && s.deployments[d].job == i;
      assert s.deployments[d].project == p;
    }
  }

  /** Giving up on jobs other than deploys and removals ends them and changes nothing else. */
  lemma {:induction false} GivenUpRows(s: State, ids: seq<JobId>, now: int)
    requires forall a :: 0 <= a < |ids| ==> 0 <= ids[a] < |s.jobs| && !MovesCopies(s.jobs[ids[a]].kind)
    ensures var t := AllGivenUp(s, ids, now);
      t == s.(jobs := t.jobs) && |t.jobs| == |s.jobs| &&
      forall i :: 0 <= i < |s.jobs| ==> t.jobs[i] == if i in ids then EndJob(s.jobs[i], Failed, now) else s.jobs[i]
    decreases |ids|
  {
    if ids != [] { GivenUpRows(s, ids[..|ids| - 1], now); }
  }

  lemma SweptRows(w: World, live: set<NodeId>)
    requires MigrationsMatch(w.rows)
    ensures RowsAfter(SweepMigrations(live), w.rows.jobs, Step(w, SweepMigrations(live)).rows.jobs, w.now)
  {
    AbandonedRowsAfter(w.rows, SweepMigrations(live), AbandonedIds(w.rows, live, w.now, |w.rows.migrations|), w.now);
  }

  lemma AbandonedRowsAfter(s: State, e: Event, ids: seq<nat>, now: int)
    requires MigrationsMatch(s) && forall a :: 0 <= a < |ids| ==> ids[a] < |s.migrations|
    ensures RowsAfter(e, s.jobs, AllAbandoned(s, ids).jobs, now)
  {
    var more := AllAbandoned(s, ids).jobs;
    AbandonedRows(s, ids);
    CancelledAreDeploys(s, ids);
    forall i | 0 <= i < |s.jobs| ensures RowAfter(e, s.jobs[i], more[i], i, now) {
      assert more[i] == s.jobs[i] || more[i] == s.jobs[i].(status := Cancelled);
    }
  }

  lemma CancelledAreDeploys(s: State, ids: seq<nat>)
    requires MigrationsMatch(s) && forall a :: 0 <= a < |ids| ==> ids[a] < |s.migrations|
    ensures var more := AllAbandoned(s, ids).jobs;
      |more| == |s.jobs| && forall i :: 0 <= i < |s.jobs| && more[i] != s.jobs[i] ==> s.jobs[i].kind == Deploy
  {
    AbandonedRows(s, ids);
    forall i | 0 <= i < |s.jobs| && AllAbandoned(s, ids).jobs[i] != s.jobs[i] ensures s.jobs[i].kind == Deploy {
      var m := ChangedBy(s, ids, i);
      assert IsDeploy(s.jobs, s.migrations[m].job, s.migrations[m].project);
    }
  }

  lemma DeletedRows(w: World, p: ProjectId, order: seq<NodeId>)
    requires WellFormed(w.rows) && Enabled(w, Delete(p, order))
    ensures RowsAfter(Delete(p, order), w.rows.jobs, Step(w, Delete(p, order)).rows.jobs, w.now)
  {
    forall i { DeployJobsAreDeploys(w.rows, p, i); }
  }

  lemma StuckRows(w: World)
    requires Enabled(w, SweepStuck) && Calm(w, SweepStuck)
    ensures RowsAfter(SweepStuck, w.rows.jobs, Step(w, SweepStuck).rows.jobs, w.now)
  {
    GivenUpRows(w.rows, StuckIds(w.rows.jobs, w.now, |w.rows.jobs|), w.now);
  }

  lemma OtherRows(w: World, e: Event)
    requires Enabled(w, e) && !e.Claim? && !e.Report? && !e.Delete? && !e.SweepStuck? && !e.SweepMigrations?
    ensures RowsAfter(e, w.rows.jobs, Step(w, e).rows.jobs, w.now)
  {
  }

  lemma CalmRows(w: World, e: Event)
    requires WellFormed(w.rows) && MigrationsMatch(w.rows) && Enabled(w, e) && Calm(w, e) && !e.Claim?
    ensures RowsAfter(e, w.rows.jobs, Step(w, e).rows.jobs, w.now)
  {
    match e
    case Report(_, _) => ReportRows(w, e);
    case Delete(p, order) => DeletedRows(w, p, order);
    case SweepStuck => StuckRows(w);
    case SweepMigrations(live) => SweptRows(w, live);
    case _ => OtherRows(w, e);
  }

  lemma EndedStaysReliable(w: World, e: Event, v: World)
    requires Reliable(w) && RowsAfter(e, w.rows.jobs, v.rows.jobs, w.now)
    requires v.outcomes == w.outcomes && v.epochs == w.epochs && v.now == w.now
    requires e.Report? ==> 0 <= e.j < |w.rows.jobs| && (e.status == Completed || e.status == Failed)
    requires e.Report? && MovesCopies(w.rows.jobs[e.j].kind) ==>
      e.j in w.outcomes && (e.status == Completed <==> w.outcomes[e.j])
    ensures Reliable(v)
  {
    OnlyEndsKeepsQueue(Queue(w), v.rows.jobs);
    forall i | 0 <= i < |v.rows.jobs| ensures OutcomeKnown(v, i) {
      if i < |w.rows.jobs| {
        assert OutcomeKnown(w, i);
        assert RowAfter(e, w.rows.jobs[i], v.rows.jobs[i], i, w.now);
      }
    }
    forall i | 0 <= i < |v.rows.jobs| && v.rows.jobs[i].status == Running && MovesCopies(v.rows.jobs[i].kind)
      ensures QueueRuns.Occupies(Queue(v), i)
    {
      assert RowAfter(e, w.rows.jobs[i], v.rows.jobs[i], i, w.now);
      assert QueueRuns.Occupies(Queue(w), i);
    }
  }

  lemma ClaimStaysReliable(w: World, agent: Node)
    requires Reliable(w) && Enabled(w, Claim(agent))
    ensures Reliable(Step(w, Claim(agent)))
  {
    var v := Step(w, Claim(agent));
    QueueRuns.ClaimKeeps(Queue(w), agent);
    var next := Scheduler.NextJob(w.rows.jobs, agent);
    if next.Some? {
      var c := next.value;
      assert PendingOn(w.rows.jobs, agent.id, c);
      forall i | 0 <= i < |v.rows.jobs| ensures OutcomeKnown(v, i) { assert OutcomeKnown(w, i); }
      forall i | i != c ensures QueueRuns.Occupies(Queue(v), i) <==> QueueRuns.Occupies(Queue(w), i) {}
    }
  }

  lemma RestartStaysReliable(w: World, n: NodeId)
    requires Reliable(w) && Enabled(w, Register(n)) && Calm(w, Register(n))
    ensures Reliable(Step(w, Register(n)))
  {
    var v := Step(w, Register(n));
    QueueRuns.RegisterKeeps(Queue(w), n);
    forall i | 0 <= i < |v.rows.jobs| ensures OutcomeKnown(v, i) { assert OutcomeKnown(w, i); }
    forall i | 0 <= i < |v.rows.jobs| && v.rows.jobs[i].status == Running && MovesCopies(v.rows.jobs[i].kind)
      ensures QueueRuns.Occupies(Queue(v), i)
    {
      assert QueueRuns.Occupies(Queue(w), i);
    }
  }

  lemma ExecutionStaysReliable(w: World, j: JobId, ok: bool)
    requires Reliable(w) && Enabled(w, Execute(j, ok))
    ensures Reliable(Step(w, Execute(j, ok)))
  {
    var v := Step(w, Execute(j, ok));
    forall i | 0 <= i < |v.rows.jobs| ensures OutcomeKnown(v, i) { assert OutcomeKnown(w, i); }
    forall i ensures QueueRuns.Occupies(Queue(v), i) <==> QueueRuns.Occupies(Queue(w), i) {}
  }

  lemma TimeStaysReliable(w: World, seconds: nat)
    requires Reliable(w)
    ensures Reliable(w.(now := w.now + seconds))
  {
    var v := w.(now := w.now + seconds);
    QueueRuns.TimeKeeps(Queue(w), w.now + seconds);
    forall i ensures QueueRuns.Occupies(Queue(v), i) <==> QueueRuns.Occupies(Queue(w), i) {}
    forall i | 0 <= i < |v.rows.jobs| ensures OutcomeKnown(v, i) { assert OutcomeKnown(w, i); }
  }

  lemma EndingStep(w: World, e: Event)
    requires WellFormed(w.rows) && MigrationsMatch(w.rows) && Reliable(w) && Enabled(w, e) && Calm(w, e)
    requires !e.Claim? && !e.Register? && !e.Execute? && !e.Wait?
    ensures Reliable(Step(w, e))
  {
    CalmRows(w, e);
    EndedStaysReliable(w, e, Step(w, e));
  }

  lemma ReliableStep(w: World, e: Event)
    requires WellFormed(w.rows) && MigrationsMatch(w.rows) && Reliable(w) && Enabled(w, e) && Calm(w, e)
    ensures Reliable(Step(w, e))
  {
    match e
    case Claim(agent) => ClaimStaysReliable(w, agent);
    case Register(n) => RestartStaysReliable(w, n);
    case Execute(j, ok) => ExecutionStaysReliable(w, j, ok);
    case Wait(seconds) => TimeStaysReliable(w, seconds);
    case _ => EndingStep(w, e);
  }

  // ---- the copies ----

  ghost predicate Effective(w: World, i: JobId) {
    i in w.outcomes && w.outcomes[i]
  }

  /** Deploy i left a copy on n that no later job of the app has replaced or removed. */
  ghost predicate LeftBy(w: World, p: ProjectId, n: NodeId, i: JobId) {
    IsDeploy(w.rows.jobs, i, p) && w.rows.jobs[i].node == n && Effective(w, i) &&
    forall k :: k > i && IsCopyJob(w.rows.jobs, k, p, n) ==> !Effective(w, k)
  }

  ghost predicate CopiesExplained(w: World) {
    forall p, n :: (p, n) in w.copies <==> exists i :: LeftBy(w, p, n, i)
  }

  /** Jobs of one app on one node take effect in the order they were created, because the scheduler starts none
      before the older ones are over. */
  lemma EffectsInOrder(w: World, j: JobId, k: JobId, p: ProjectId, n: NodeId)
    requires Reliable(w) && j < k && IsCopyJob(w.rows.jobs, j, p, n) && IsCopyJob(w.rows.jobs, k, p, n)
    requires w.rows.jobs[j].startedAt.Some? && j !in w.outcomes
    ensures k !in w.outcomes
  {
    assert OutcomeKnown(w, j) && OutcomeKnown(w, k);
    assert QueueRuns.Precedes(w.rows.jobs, j, k);
  }

  lemma ExecutionExplained(w: World, j: JobId, ok: bool)
    requires Reliable(w) && CopiesExplained(w) && Enabled(w, Execute(j, ok))
    ensures CopiesExplained(Step(w, Execute(j, ok)))
  {
    var v := Step(w, Execute(j, ok));
    forall p, n ensures (p, n) in v.copies <==> exists i :: LeftBy(v, p, n, i) {
      if IsCopyJob(w.rows.jobs, j, p, n) && ok {
        forall k | k > j && IsCopyJob(w.rows.jobs, k, p, n) ensures k !in v.outcomes { EffectsInOrder(w, j, k, p, n); }
        if w.rows.jobs[j].kind == Deploy {
          assert LeftBy(v, p, n, j);
        } else {
          forall i ensures !LeftBy(v, p, n, i) { assert i < j ==> Effective(v, j); }
        }
      } else {
        forall i ensures LeftBy(v, p, n, i) <==> LeftBy(w, p, n, i) {
          assert forall k :: IsCopyJob(w.rows.jobs, k, p, n) ==> (Effective(v, k) <==> Effective(w, k));
        }
      }
    }
  }

  lemma UnexecutedExplained(w: World, v: World)
    requires Reliable(w) && CopiesExplained(w) && v.copies == w.copies && v.outcomes == w.outcomes
    requires AllEvolve(w.rows.jobs, v.rows.jobs, w.now)
    ensures CopiesExplained(v)
  {
    forall p, n ensures (p, n) in v.copies <==> exists i :: LeftBy(v, p, n, i) {
      forall k ensures IsCopyJob(v.rows.jobs, k, p, n) && Effective(v, k) <==>
          IsCopyJob(w.rows.jobs, k, p, n) && Effective(w, k) {}
      forall i ensures LeftBy(v, p, n, i) <==> LeftBy(w, p, n, i) {}
    }
  }

  lemma CopiesStep(w: World, e: Event)
    requires WellFormed(w.rows) && Reliable(w) && CopiesExplained(w) && Enabled(w, e)
    ensures CopiesExplained(Step(w, e))
  {
    if e.Execute? {
      ExecutionExplained(w, e.j, e.ok);
    } else {
      StepEvolves(w, e);
      UnexecutedExplained(w, Step(w, e));
    }
  }
}
