/** Migrations over whole runs: one at a time for a project, none that lasts, and none that comes back. */
module MigrationRuns {
  import opened Jobs
  import opened Hub
  import opened Protocol
  import CopyHistory
  import JobLife

  ghost predicate MigrationsMatch(s: State) {
    (forall m :: 0 <= m < |s.migrations| ==> IsDeploy(s.jobs, s.migrations[m].job, s.migrations[m].project)) &&
    (forall a, b :: 0 <= a < b < |s.migrations| ==> s.migrations[a].job < s.migrations[b].job) &&
    (forall m :: 0 <= m < |s.migrations| ==> s.migrations[m].status != MigrationPending)
  }

  /** At most one migration of a project is pending or running. */
  ghost predicate OneActive(s: State) {
    forall a, b :: 0 <= a < b < |s.migrations| && ActiveMigration(s.migrations[a]) && ActiveMigration(s.migrations[b]) ==>
      s.migrations[a].project != s.migrations[b].project
  }

  /** A migration that is over has no job still waiting to be claimed. */
  ghost predicate OverMeansOver(s: State) {
    forall m :: 0 <= m < |s.migrations| && 0 <= s.migrations[m].job < |s.jobs| && !ActiveMigration(s.migrations[m]) ==>
      s.jobs[s.migrations[m].job].status != Pending
  }

  /** How long an active migration has been allowed to last, by what its job is doing; d is the longest time between
      two sweeps. */
  ghost predicate InTime(w: World, m: Migration, job: Job, d: nat) {
    ActiveMigration(m) ==>
      m.createdAt <= w.now && w.swept <= m.createdAt + UNCLAIMED_ON_LIVE_NODE + MIGRATION_RUN_LIMIT + d &&
      (job.status == Pending ==> w.swept <= m.createdAt + UNCLAIMED_ON_LIVE_NODE) &&
      (job.status == Running ==>
        job.startedAt.Some? && m.createdAt <= job.startedAt.value <= m.createdAt + UNCLAIMED_ON_LIVE_NODE + d &&
        w.swept <= job.startedAt.value + MIGRATION_RUN_LIMIT)
  }

  ghost predicate AllInTime(w: World, d: nat) {
    w.swept <= w.now <= w.swept + d &&
    forall m :: 0 <= m < |w.rows.migrations| && 0 <= w.rows.migrations[m].job < |w.rows.jobs| ==>
      InTime(w, w.rows.migrations[m], w.rows.jobs[w.rows.migrations[m].job], d)
  }

  ghost predicate Inv(w: World, d: nat) {
    MigrationsMatch(w.rows) && OneActive(w.rows) && OverMeansOver(w.rows) && AllInTime(w, d)
  }

  /** The migration sweeper runs at least every d seconds. */
  ghost predicate Punctual(w: World, e: Event, d: nat) {
    e.Wait? ==> w.now + e.seconds <= w.swept + d
  }

  ghost predicate PunctualRun(w: World, es: seq<Event>, d: nat)
    requires CanRun(w, es)
    decreases |es|
  {
    es == [] || (Punctual(w, es[0], d) && PunctualRun(Step(w, es[0]), es[1..], d))
  }

  // ---- one step ----

  /** Migrations either stay as they are or are over, and an over one's job is no longer pending. */
  ghost predicate Settles(s: State, t: State) {
    |t.migrations| == |s.migrations| && |s.jobs| <= |t.jobs| &&
    forall m :: 0 <= m < |s.migrations| ==>
      t.migrations[m] == s.migrations[m].(status := t.migrations[m].status) &&
      (t.migrations[m].status == s.migrations[m].status ||
       (t.migrations[m].status != MigrationPending && !ActiveMigration(t.migrations[m]) &&
        0 <= s.migrations[m].job < |t.jobs| && t.jobs[s.migrations[m].job].status != Pending))
  }

  lemma SettlingKeeps(w: World, v: World, d: nat)
    requires Inv(w, d) && v.swept == w.swept && w.now <= v.now <= v.swept + d
    requires JobLife.AllEvolve(w.rows.jobs, v.rows.jobs, w.now) && Settles(w.rows, v.rows)
    ensures Inv(v, d)
  {
    forall m | 0 <= m < |v.rows.migrations|
      ensures IsDeploy(v.rows.jobs, v.rows.migrations[m].job, v.rows.migrations[m].project)
      ensures InTime(v, v.rows.migrations[m], v.rows.jobs[v.rows.migrations[m].job], d)
      ensures !ActiveMigration(v.rows.migrations[m]) ==> v.rows.jobs[v.rows.migrations[m].job].status != Pending
    {
      var mig := w.rows.migrations[m];
      assert IsDeploy(w.rows.jobs, mig.job, mig.project);
      assert InTime(w, mig, w.rows.jobs[mig.job], d);
      assert JobLife.Evolves(w.rows.jobs[mig.job], v.rows.jobs[mig.job], w.now);
    }
  }

  lemma StartingKeeps(w: World, v: World, p: ProjectId, target: NodeId, image: string, d: nat)
    requires Inv(w, d) && p in w.rows.projects && !HasActiveMigration(w.rows.migrations, p)
    requires v == w.(rows := MigrationStarted(w.rows, p, target, image, w.now))
    ensures Inv(v, d)
  {
    var k := |w.rows.migrations|;
    forall m | 0 <= m < |v.rows.migrations|
      ensures IsDeploy(v.rows.jobs, v.rows.migrations[m].job, v.rows.migrations[m].project)
      ensures InTime(v, v.rows.migrations[m], v.rows.jobs[v.rows.migrations[m].job], d)
      ensures !ActiveMigration(v.rows.migrations[m]) ==> v.rows.jobs[v.rows.migrations[m].job].status != Pending
    {
      if m < k {
        assert IsDeploy(w.rows.jobs, w.rows.migrations[m].job, w.rows.migrations[m].project);
        assert InTime(w, w.rows.migrations[m], w.rows.jobs[w.rows.migrations[m].job], d);
      }
    }
  }

  /** A migration that a sweep leaves running still has its whole allowance ahead of the next sweep. */
  lemma SurvivorInTime(w: World, m: nat, live: set<NodeId>, job: Job, d: nat)
    requires m < |w.rows.migrations| && 0 <= w.rows.migrations[m].job < |w.rows.jobs| && w.swept <= w.now <= w.swept + d
    requires InTime(w, w.rows.migrations[m], w.rows.jobs[w.rows.migrations[m].job], d)
    requires w.rows.migrations[m].status != MigrationPending && !Abandons(w.rows, m, live, w.now)
    requires job == w.rows.jobs[w.rows.migrations[m].job] || (job.status == Cancelled &&
      w.rows.jobs[w.rows.migrations[m].job].status == Pending)
    ensures InTime(w.(swept := w.now), w.rows.migrations[m], job, d)
  {
  }

  /** What a sweep does to one migration and its job. */
  ghost predicate SweptRow(s: State, t: State, m: nat, live: set<NodeId>, now: int)
    requires m < |s.migrations| && 0 <= s.migrations[m].job < |s.jobs|
    requires |t.migrations| == |s.migrations| && |t.jobs| == |s.jobs|
  {
    var was, job := s.jobs[s.migrations[m].job], t.jobs[s.migrations[m].job];
    if Abandons(s, m, live, now) then
      t.migrations[m] == s.migrations[m].(status := MigrationFailed) && job.status != Pending
    else
      t.migrations[m] == s.migrations[m] && (job == was || (was.status == Pending && job.status == Cancelled))
  }

  lemma SweepRow(s: State, m: nat, live: set<NodeId>, now: int)
    requires m < |s.migrations| && 0 <= s.migrations[m].job < |s.jobs|
    ensures var t := AllAbandoned(s, AbandonedIds(s, live, now, |s.migrations|));
      |t.jobs| == |s.jobs| && SweptRow(s, t, m, live, now)
  {
    var ids := AbandonedIds(s, live, now, |s.migrations|);
    JobLife.AbandonedRows(s, ids);
    assert m in ids <==> Abandons(s, m, live, now);
  }

  lemma SweepingKeeps(w: World, v: World, live: set<NodeId>, d: nat)
    requires Inv(w, d) && v == w.(swept := w.now, rows := v.rows, calledOff := v.calledOff)
    requires |v.rows.jobs| == |w.rows.jobs| && |v.rows.migrations| == |w.rows.migrations|
    requires forall i :: 0 <= i < |w.rows.jobs| ==>
      v.rows.jobs[i] == w.rows.jobs[i].(status := v.rows.jobs[i].status)
    requires forall m {:trigger w.rows.migrations[m]} :: 0 <= m < |w.rows.migrations| ==>
      0 <= w.rows.migrations[m].job < |w.rows.jobs| && SweptRow(w.rows, v.rows, m, live, w.now)
    ensures Inv(v, d)
  {
    var s, t := w.rows, v.rows;
    forall m | 0 <= m < |t.migrations|
      ensures IsDeploy(t.jobs, t.migrations[m].job, t.migrations[m].project)
      ensures InTime(v, t.migrations[m], t.jobs[t.migrations[m].job], d)
      ensures !ActiveMigration(t.migrations[m]) ==> t.jobs[t.migrations[m].job].status != Pending
      ensures t.migrations[m] == s.migrations[m].(status := t.migrations[m].status)
      ensures ActiveMigration(t.migrations[m]) ==> t.migrations[m] == s.migrations[m]
    {
      var mig := s.migrations[m];
      assert IsDeploy(s.jobs, mig.job, mig.project);
      assert InTime(w, mig, s.jobs[mig.job], d);
      if !Abandons(s, m, live, w.now) {
        SurvivorInTime(w, m, live, t.jobs[mig.job], d);
      }
    }
  }

  lemma SweepMigrationsKeeps(w: World, live: set<NodeId>, d: nat)
    requires Inv(w, d)
    ensures Inv(Step(w, SweepMigrations(live)), d)
  {
    var s := w.rows;
    JobLife.AbandonedRows(s, AbandonedIds(s, live, w.now, |s.migrations|));
    var t := Step(w, SweepMigrations(live)).rows;
    forall m | 0 <= m < |s.migrations|
      ensures 0 <= s.migrations[m].job < |s.jobs| && SweptRow(s, t, m, live, w.now)
    {
      assert IsDeploy(s.jobs, s.migrations[m].job, s.migrations[m].project);
      SweepRow(s, m, live, w.now);
    }
    SweepingKeeps(w, Step(w, SweepMigrations(live)), live, d);
  }

  lemma ReportSettles(w: World, j: JobId, status: Status)
    requires MigrationsMatch(w.rows) && WellFormed(w.rows) && Enabled(w, Report(j, status))
    ensures Settles(w.rows, Step(w, Report(j, status)).rows)
  {
    var s := w.rows;
    if !DuplicateReport(s.jobs[j], status) {
      if s.jobs[j].kind == Deploy { DeploysAreRooted(s, j); }
      ReportedCases(s, j, status, w.now);
      EndingSettles(s, Step(w, Report(j, status)).rows, j, status, w.now);
    }
  }

  lemma EndingSettles(s: State, t: State, j: JobId, status: Status, now: int)
    requires MigrationsMatch(s) && 0 <= j < |s.jobs| && (status == Completed || status == Failed)
    requires ActedOn(s, t, j, status, now) && t.migrations == MigrationSettled(s, j, status).migrations
    ensures Settles(s, t)
  {
    assert t.jobs[j].status == status;
  }

  lemma OtherStepsSettle(w: World, e: Event)
    requires Enabled(w, e) && MigrationsMatch(w.rows) && WellFormed(w.rows)
    requires !e.Migrate? && !e.SweepMigrations?
    ensures Settles(w.rows, Step(w, e).rows)
  {
    match e
    case Report(j, status) => ReportSettles(w, j, status);
    case SweepStuck => CopyHistory.GivingUpGrows(w.rows, StuckIds(w.rows.jobs, w.now, |w.rows.jobs|), w.now);
    case _ =>
  }

  lemma OtherStepKeeps(w: World, e: Event, d: nat)
    requires WellFormed(w.rows) && Inv(w, d) && Enabled(w, e) && Punctual(w, e, d) && !e.Migrate? && !e.SweepMigrations?
    ensures Inv(Step(w, e), d)
  {
    JobLife.StepEvolves(w, e);
    OtherStepsSettle(w, e);
    SettlingKeeps(w, Step(w, e), d);
  }

  lemma StepKeeps(w: World, e: Event, d: nat)
    requires WellFormed(w.rows) && Inv(w, d) && Enabled(w, e) && Punctual(w, e, d)
    ensures Inv(Step(w, e), d)
  {
    match e
    case Migrate(p, target, image) => StartingKeeps(w, Step(w, e), p, target, image, d);
    case SweepMigrations(live) => SweepMigrationsKeeps(w, live, d);
    case _ => OtherStepKeeps(w, e, d);
  }

  lemma SettlingMatches(s: State, t: State, now: int)
    requires MigrationsMatch(s) && JobLife.AllEvolve(s.jobs, t.jobs, now) && |t.migrations| == |s.migrations|
    requires forall m :: 0 <= m < |s.migrations| ==>
      t.migrations[m] == s.migrations[m].(status := t.migrations[m].status) &&
      (t.migrations[m].status == s.migrations[m].status || t.migrations[m].status != MigrationPending)
    ensures MigrationsMatch(t)
  {
    forall m | 0 <= m < |t.migrations| ensures IsDeploy(t.jobs, t.migrations[m].job, t.migrations[m].project) {
      assert IsDeploy(s.jobs, s.migrations[m].job, s.migrations[m].project);
    }
  }

  lemma StartingMatches(s: State, p: ProjectId, target: NodeId, image: string, now: int)
    requires MigrationsMatch(s) && p in s.projects
    ensures MigrationsMatch(MigrationStarted(s, p, target, image, now))
  {
    var t := MigrationStarted(s, p, target, image, now);
    forall m | 0 <= m < |t.migrations| ensures IsDeploy(t.jobs, t.migrations[m].job, t.migrations[m].project) {
      if m < |s.migrations| { assert IsDeploy(s.jobs, s.migrations[m].job, s.migrations[m].project); }
    }
  }

  /** A migration's job is its project's deploy, whatever the sweeps' timing. */
  lemma StepMatches(w: World, e: Event)
    requires CopyHistory.Inv(w) && MigrationsMatch(w.rows) && Enabled(w, e)
    ensures MigrationsMatch(Step(w, e).rows)
  {
    match e
    case Migrate(p, target, image) => StartingMatches(w.rows, p, target, image, w.now);
    case SweepMigrations(live) => SweepMatches(w.rows, AbandonedIds(w.rows, live, w.now, |w.rows.migrations|), w.now);
    case _ => OtherStepMatches(w, e);
  }

  lemma SweepMatches(s: State, ids: seq<nat>, now: int)
    requires MigrationsMatch(s) && forall a :: 0 <= a < |ids| ==> ids[a] < |s.migrations|
    ensures MigrationsMatch(AllAbandoned(s, ids))
  {
    JobLife.AbandonedRows(s, ids);
    SettlingMatches(s, AllAbandoned(s, ids), now);
  }

  lemma OtherStepMatches(w: World, e: Event)
    requires CopyHistory.Inv(w) && MigrationsMatch(w.rows) && Enabled(w, e) && !e.Migrate? && !e.SweepMigrations?
    ensures MigrationsMatch(Step(w, e).rows)
  {
    JobLife.StepEvolves(w, e);
    OtherStepsSettle(w, e);
    SettlingMatches(w.rows, Step(w, e).rows, w.now);
  }

  lemma {:induction false} RunKeeps(w: World, es: seq<Event>, d: nat)
    requires CopyHistory.Inv(w) && Inv(w, d) && CanRun(w, es) && PunctualRun(w, es, d)
    ensures Inv(Run(w, es), d)
    decreases |es|
  {
    if es != [] {
      StepKeeps(w, es[0], d);
      CopyHistory.StepKeeps(w, es[0]);
      RunKeeps(Step(w, es[0]), es[1..], d);
    }
  }

  /** In every reachable state a project has at most one active migration; and when sweeps are at most d seconds
      apart, none is active for longer than 15 minutes and 2d. */
  lemma MigrationsEnd(now: int, es: seq<Event>, d: nat)
    requires CanRun(Start(now), es) && PunctualRun(Start(now), es, d)
    ensures var w := Run(Start(now), es);
      OneActive(w.rows) &&
      forall m :: 0 <= m < |w.rows.migrations| && ActiveMigration(w.rows.migrations[m]) ==>
        w.now <= w.rows.migrations[m].createdAt + 15 * 60 + 2 * d
  {
    RunKeeps(Start(now), es, d);
    var w := Run(Start(now), es);
    forall m | 0 <= m < |w.rows.migrations| && ActiveMigration(w.rows.migrations[m])
      ensures w.now <= w.rows.migrations[m].createdAt + 15 * 60 + 2 * d
    {
      var mig := w.rows.migrations[m];
      assert IsDeploy(w.rows.jobs, mig.job, mig.project);
      assert InTime(w, mig, w.rows.jobs[mig.job], d);
    }
  }

  /** A migration the sweeper gave up on before its target claimed it never starts its job, in any later state. */
  lemma GivenUpUnclaimedNeverStarts(w: World, live: set<NodeId>, m: nat, es: seq<Event>)
    requires CopyHistory.Inv(w) && m < |w.rows.migrations| && Abandons(w.rows, m, live, w.now)
    requires 0 <= w.rows.migrations[m].job < |w.rows.jobs|
    requires w.rows.jobs[w.rows.migrations[m].job].status == Pending
    requires w.rows.jobs[w.rows.migrations[m].job].startedAt.None?
    requires CanRun(Step(w, SweepMigrations(live)), es)
    ensures var v, j := Run(Step(w, SweepMigrations(live)), es), w.rows.migrations[m].job;
      j < |v.rows.jobs| && v.rows.jobs[j].startedAt.None?
  {
    JobLife.AbandonedRows(w.rows, AbandonedIds(w.rows, live, w.now, |w.rows.migrations|));
    CopyHistory.StepKeeps(w, SweepMigrations(live));
    JobLife.CalledOffNeverStarts(Step(w, SweepMigrations(live)), es, w.rows.migrations[m].job);
  }
}
