/** Which migrations one sweep gives up on: a target that answers is given ten minutes to begin, a silent one a minute. */
module MigrationSweeps {
  import opened Jobs
  import opened Hub
  import opened Protocol
  import opened MigrationRuns
  import CopyHistory
  import JobLife

  ghost predicate Unclaimed(s: State, m: nat) {
    m < |s.migrations| && ActiveMigration(s.migrations[m]) && 0 <= s.migrations[m].job < |s.jobs| &&
    s.jobs[s.migrations[m].job].status == Pending
  }

  /** Only the migration a job belongs to can cost it its place in the queue. */
  lemma SweptJob(s: State, ids: seq<nat>, m: nat)
    requires MigrationsMatch(s) && (forall a :: 0 <= a < |ids| ==> ids[a] < |s.migrations|) && m < |s.migrations|
    ensures 0 <= s.migrations[m].job < |s.jobs| && |AllAbandoned(s, ids).jobs| == |s.jobs|
    ensures AllAbandoned(s, ids).jobs[s.migrations[m].job] != s.jobs[s.migrations[m].job] ==> m in ids
  {
    var j := s.migrations[m].job;
    assert IsDeploy(s.jobs, j, s.migrations[m].project);
    JobLife.AbandonedRows(s, ids);
    if AllAbandoned(s, ids).jobs[j] != s.jobs[j] {
      var k := JobLife.ChangedBy(s, ids, j);
      OneMigration(s, k, m);
    }
  }

  lemma OneMigration(s: State, k: nat, m: nat)
    requires MigrationsMatch(s) && k < |s.migrations| && m < |s.migrations| && s.migrations[k].job == s.migrations[m].job
    ensures k == m
  {
  }

  /** A sweep gives up on a migration whose job nobody claimed, and calls that job off, exactly when it is over ten
      minutes old and its target answers, or over a minute old and its target does not; else it leaves both alone. */
  lemma UnclaimedIsSwept(w: World, live: set<NodeId>, m: nat)
    requires MigrationsMatch(w.rows) && Unclaimed(w.rows, m)
    ensures var s, t := w.rows, Step(w, SweepMigrations(live)).rows;
      var mig := s.migrations[m];
      |t.migrations| == |s.migrations| && |t.jobs| == |s.jobs| &&
      if w.now - mig.createdAt > (if mig.target in live then 600 else 60) then
        t.migrations[m] == mig.(status := MigrationFailed) && t.jobs[mig.job] == s.jobs[mig.job].(status := Cancelled)
      else t.migrations[m] == mig && t.jobs[mig.job] == s.jobs[mig.job]
  {
    var s := w.rows;
    var ids := AbandonedIds(s, live, w.now, |s.migrations|);
    JobLife.AbandonedRows(s, ids);
    SweptJob(s, ids, m);
    assert m in ids <==> Abandons(s, m, live, w.now);
  }

  /** One whose target has begun is given up on exactly after five minutes of that, and its job is left to end. */
  lemma RunningIsSwept(w: World, live: set<NodeId>, m: nat)
    requires MigrationsMatch(w.rows) && m < |w.rows.migrations| && ActiveMigration(w.rows.migrations[m])
    requires 0 <= w.rows.migrations[m].job < |w.rows.jobs|
    requires var job := w.rows.jobs[w.rows.migrations[m].job];
      job.status == Running && job.startedAt.Some? && w.rows.migrations[m].createdAt <= job.startedAt.value
    ensures var s, t := w.rows, Step(w, SweepMigrations(live)).rows;
      var mig, job := s.migrations[m], s.jobs[s.migrations[m].job];
      |t.migrations| == |s.migrations| && |t.jobs| == |s.jobs| && t.jobs[mig.job] == job &&
      t.migrations[m] == if w.now - job.startedAt.value > 300 then mig.(status := MigrationFailed) else mig
  {
    var s := w.rows;
    var ids := AbandonedIds(s, live, w.now, |s.migrations|);
    JobLife.AbandonedRows(s, ids);
    SweptJob(s, ids, m);
    assert m in ids <==> Abandons(s, m, live, w.now);
  }

  // ---- a target that never answers ----

  /** No sweep finds the node answering. */
  ghost predicate NeverHeard(es: seq<Event>, n: NodeId) {
    forall i :: 0 <= i < |es| && es[i].SweepMigrations? ==> n !in es[i].live
  }

  /** Migration m, if it still waits for its target, has not been swept since its minute was over. */
  ghost predicate WithinMinute(w: World, m: nat, n: NodeId, createdAt: int, d: nat) {
    CopyHistory.Inv(w) && MigrationsMatch(w.rows) && w.swept <= w.now <= w.swept + d &&
    m < |w.rows.migrations| && w.rows.migrations[m].target == n && w.rows.migrations[m].createdAt == createdAt &&
    (Unclaimed(w.rows, m) ==> w.swept <= createdAt + 60)
  }

  lemma OtherStepKeepsMinute(w: World, e: Event, m: nat, n: NodeId, createdAt: int, d: nat)
    requires WithinMinute(w, m, n, createdAt, d) && Enabled(w, e) && Punctual(w, e, d)
    requires !e.Migrate? && !e.SweepMigrations?
    ensures WithinMinute(Step(w, e), m, n, createdAt, d)
  {
    CopyHistory.StepKeeps(w, e);
    StepMatches(w, e);
    OtherStepsSettle(w, e);
    JobLife.StepEvolves(w, e);
    var s, t := w.rows, Step(w, e).rows;
    assert IsDeploy(s.jobs, s.migrations[m].job, s.migrations[m].project);
    assert JobLife.Evolves(s.jobs[s.migrations[m].job], t.jobs[s.migrations[m].job], w.now);
  }

  lemma MigrateKeepsMinute(w: World, e: Event, m: nat, n: NodeId, createdAt: int, d: nat)
    requires WithinMinute(w, m, n, createdAt, d) && Enabled(w, e) && e.Migrate?
    ensures WithinMinute(Step(w, e), m, n, createdAt, d)
  {
    CopyHistory.StepKeeps(w, e);
    StepMatches(w, e);
  }

  lemma SweepKeepsMinute(w: World, live: set<NodeId>, m: nat, n: NodeId, createdAt: int, d: nat)
    requires WithinMinute(w, m, n, createdAt, d) && n !in live
    ensures WithinMinute(Step(w, SweepMigrations(live)), m, n, createdAt, d)
  {
    var s, t := w.rows, Step(w, SweepMigrations(live)).rows;
    CopyHistory.StepKeeps(w, SweepMigrations(live));
    StepMatches(w, SweepMigrations(live));
    JobLife.AbandonedRows(s, AbandonedIds(s, live, w.now, |s.migrations|));
    assert IsDeploy(s.jobs, s.migrations[m].job, s.migrations[m].project);
    if Unclaimed(t, m) { UnclaimedIsSwept(w, live, m); }
  }

  lemma StepKeepsMinute(w: World, e: Event, m: nat, n: NodeId, createdAt: int, d: nat)
    requires WithinMinute(w, m, n, createdAt, d) && Enabled(w, e) && Punctual(w, e, d)
    requires e.SweepMigrations? ==> n !in e.live
    ensures WithinMinute(Step(w, e), m, n, createdAt, d)
  {
    match e
    case Migrate(_, _, _) => MigrateKeepsMinute(w, e, m, n, createdAt, d);
    case SweepMigrations(live) => SweepKeepsMinute(w, live, m, n, createdAt, d);
    case _ => OtherStepKeepsMinute(w, e, m, n, createdAt, d);
  }

  lemma {:induction false} MinuteIsKept(w: World, es: seq<Event>, m: nat, n: NodeId, createdAt: int, d: nat)
    requires WithinMinute(w, m, n, createdAt, d) && CanRun(w, es) && PunctualRun(w, es, d) && NeverHeard(es, n)
    ensures WithinMinute(Run(w, es), m, n, createdAt, d)
    decreases |es|
  {
    if es != [] {
      StepKeepsMinute(w, es[0], m, n, createdAt, d);
      MinuteIsKept(Step(w, es[0]), es[1..], m, n, createdAt, d);
    }
  }

  /** With sweeps at most d apart, a migration to a node that no sweep since its start found answering does not wait to
      be claimed for longer than a minute and d: by then it has been claimed, or given up on and called off. */
  lemma SilentTargetIsNotWaitedFor(now: int, before: seq<Event>, es: seq<Event>, m: nat, d: nat)
    requires CanRun(Start(now), before) && PunctualRun(Start(now), before, d)
    requires var w := Run(Start(now), before);
      m < |w.rows.migrations| && w.now == w.rows.migrations[m].createdAt &&
      CanRun(w, es) && PunctualRun(w, es, d) && NeverHeard(es, w.rows.migrations[m].target)
    ensures var mig, v := Run(Start(now), before).rows.migrations[m], Run(Run(Start(now), before), es);
      Unclaimed(v.rows, m) ==> v.now <= mig.createdAt + 60 + d
  {
    var w := Run(Start(now), before);
    RunKeeps(Start(now), before, d);
    CopyHistory.RunKeeps(Start(now), before);
    MinuteIsKept(w, es, m, w.rows.migrations[m].target, w.rows.migrations[m].createdAt, d);
  }
}
