/** No copy is forgotten: with failed deploys, cancellations, sweeps, agent restarts and late or contradicting reports
    all allowed, every node that reported a copy is the project's own, was told to remove it, or got a newer deploy. */
module CopyHistory {
  import opened Jobs
  import opened Hub
  import opened Protocol

  ghost predicate StopSince(jobs: seq<Job>, p: ProjectId, n: NodeId, from: int) {
    exists k :: from <= k && IsStop(jobs, k, p, n)
  }

  ghost predicate DeployedLater(jobs: seq<Job>, p: ProjectId, n: NodeId, j: JobId) {
    exists k :: j < k && IsDeploy(jobs, k, p) && jobs[k].node == n
  }

  ghost predicate LandedOn(w: World, p: ProjectId, n: NodeId) {
    p in w.landed && 0 <= w.landed[p] < |w.rows.jobs| && w.rows.jobs[w.landed[p]].node == n
  }

  ghost predicate Accounted(w: World, j: JobId)
    requires j in w.since && 0 <= j < |w.rows.jobs| && w.rows.jobs[j].scope.App?
  {
    var p, n := w.rows.jobs[j].scope.project, w.rows.jobs[j].node;
    p in w.rows.projects ==>
      LandedOn(w, p, n) || StopSince(w.rows.jobs, p, n, w.since[j]) || DeployedLater(w.rows.jobs, p, n, j)
  }

  ghost predicate LandedWell(w: World) {
    forall p :: p in w.landed ==>
      IsDeploy(w.rows.jobs, w.landed[p], p) &&
      (p in w.rows.projects ==>
        w.rows.projects[p].node == Some(w.rows.jobs[w.landed[p]].node) && w.rows.projects[p].image != "")
  }

  ghost predicate SinceWell(w: World) {
    forall j :: j in w.since ==>
      0 <= j < |w.rows.jobs| && w.since[j] <= |w.rows.jobs| &&
      w.rows.jobs[j].kind == Deploy && w.rows.jobs[j].scope.App? && Accounted(w, j)
  }

  ghost predicate Inv(w: World) {
    WellFormed(w.rows) && LandedWell(w) && SinceWell(w)
  }

  // ---- rows keep belonging together ----

  /** t has s's rows with jobs possibly ended and jobs other than deploys possibly added, and no new projects. */
  ghost predicate Grown(s: State, t: State) {
    SameIdentities(s, t) && (forall i :: |s.jobs| <= i < |t.jobs| ==> t.jobs[i].kind != Deploy) &&
    (forall p :: p in t.projects ==> p in s.projects && t.projects[p].deployment == s.projects[p].deployment)
  }

  lemma GrownStaysWellFormed(s: State, t: State)
    requires WellFormed(s) && Grown(s, t)
    ensures WellFormed(t)
  {
    forall i, p ensures IsDeploy(t.jobs, i, p) <==> IsDeploy(s.jobs, i, p) {}
    forall i | 0 <= i < |t.jobs| && t.jobs[i].kind == Deploy ensures HasDeployment(t.deployments, i) {
      assert HasDeployment(s.deployments, i);
      var d :| 0 <= d < |s.deployments| && s.deployments[d].job == i;
      assert t.deployments[d].job == i;
    }
    forall p | p in t.projects ensures NewestIs(t, p, t.projects[p].deployment) {
      assert NewestIs(s, p, s.projects[p].deployment);
    }
  }

  /** A dispatched deploy job gets one deployment, the newest, and no other project's rows change. */
  lemma DispatchStaysWellFormed(s: State, p: ProjectId, n: NodeId, image: string, now: int)
    requires WellFormed(s) && p in s.projects && image != ""
    ensures WellFormed(Dispatched(s, p, n, image, now))
  {
    DispatchRecords(s, p, n, image, now);
    DispatchPointsToNewest(s, p, n, image, now);
  }

  lemma DispatchRecords(s: State, p: ProjectId, n: NodeId, image: string, now: int)
    requires DeploymentsMatch(s) && DeploymentsOrdered(s) && DeploysRecorded(s) && p in s.projects && image != ""
    ensures var t := Dispatched(s, p, n, image, now); DeploymentsMatch(t) && DeploymentsOrdered(t) && DeploysRecorded(t)
  {
    var t := Dispatched(s, p, n, image, now);
    assert t.deployments[|s.deployments|].job == |s.jobs|;
    forall i | 0 <= i < |t.jobs| && t.jobs[i].kind == Deploy ensures HasDeployment(t.deployments, i) {
      if i < |s.jobs| {
        assert HasDeployment(s.deployments, i);
        var d :| 0 <= d < |s.deployments| && s.deployments[d].job == i;
        assert t.deployments[d].job == i;
      }
    }
  }

  lemma DispatchPointsToNewest(s: State, p: ProjectId, n: NodeId, image: string, now: int)
    requires CurrentNewest(s) && p in s.projects
    ensures CurrentNewest(Dispatched(s, p, n, image, now))
  {
    var t := Dispatched(s, p, n, image, now);
    forall i, q | i < |s.jobs| ensures IsDeploy(t.jobs, i, q) <==> IsDeploy(s.jobs, i, q) {}
    forall q | q in t.projects ensures NewestIs(t, q, t.projects[q].deployment) {
      assert NewestIs(s, q, s.projects[q].deployment);
    }
  }

  // ---- history keeps its meaning ----

  /** A step that moves no project and adds no deploy keeps every copy accounted for. */
  lemma GrownKeeps(w: World, v: World)
    requires Inv(w) && Grown(w.rows, v.rows) && v.since == w.since && v.landed == w.landed
    requires forall p :: p in v.rows.projects && p in w.landed ==>
      v.rows.projects[p].node == w.rows.projects[p].node && v.rows.projects[p].image != ""
    ensures Inv(v)
  {
    GrownStaysWellFormed(w.rows, v.rows);
    forall j | j in v.since ensures Accounted(v, j) {
      assert Accounted(w, j);
      WitnessesStay(w.rows.jobs, v.rows.jobs);
    }
  }

  lemma WitnessesStay(jobs: seq<Job>, more: seq<Job>)
    requires |jobs| <= |more| && forall i :: 0 <= i < |jobs| ==>
      more[i].node == jobs[i].node && more[i].kind == jobs[i].kind && more[i].scope == jobs[i].scope
    ensures forall p, n, from :: StopSince(jobs, p, n, from) ==> StopSince(more, p, n, from)
    ensures forall p, n, j :: DeployedLater(jobs, p, n, j) ==> DeployedLater(more, p, n, j)
  {
    forall p, n, from | StopSince(jobs, p, n, from) ensures StopSince(more, p, n, from) {
      var k :| from <= k && IsStop(jobs, k, p, n);
      assert IsStop(more, k, p, n);
    }
    forall p, n, j | DeployedLater(jobs, p, n, j) ensures DeployedLater(more, p, n, j) {
      var k :| j < k && IsDeploy(jobs, k, p) && jobs[k].node == n;
      assert IsDeploy(more, k, p);
    }
  }

  lemma DispatchKeeps(w: World, p: ProjectId, n: NodeId, image: string)
    requires Inv(w) && p in w.rows.projects && image != ""
    ensures Inv(w.(rows := Dispatched(w.rows, p, n, image, w.now)))
  {
    var v := w.(rows := Dispatched(w.rows, p, n, image, w.now));
    DispatchStaysWellFormed(w.rows, p, n, image, w.now);
    WitnessesStay(w.rows.jobs, v.rows.jobs);
    forall j | j in v.since ensures Accounted(v, j) { assert Accounted(w, j); }
  }

  /** What a report means for where projects are and which removals are queued. */
  ghost predicate Effects(s: State, t: State, j: JobId, status: Status)
    requires 0 <= j < |s.jobs|
  {
    Grown(s, t) && t.projects.Keys == s.projects.Keys &&
    (Lands(s, j, status) ==>
      var p, n := s.jobs[j].scope.project, s.jobs[j].node;
      t.projects[p].node == Some(n) && t.projects[p].image != "" &&
      (forall q :: q in s.projects && q != p ==> t.projects[q] == s.projects[q]) &&
      (s.projects[p].node.Some? && s.projects[p].node != Some(n) ==>
        IsStop(t.jobs, |s.jobs|, p, s.projects[p].node.value))) &&
    (!Lands(s, j, status) ==> forall q :: q in s.projects ==>
      t.projects[q].node == s.projects[q].node && t.projects[q].image == s.projects[q].image) &&
    (Succeeds(s, j, status) && !Lands(s, j, status) ==>
      var p, n := s.jobs[j].scope.project, s.jobs[j].node;
      DeployedLater(s.jobs, p, n, j) || IsStop(t.jobs, |s.jobs|, p, n))
  }

  lemma ActedOnHasEffects(s: State, t: State, j: JobId, status: Status, now: int)
    requires WellFormed(s) && 0 <= j < |s.jobs| && !DuplicateReport(s.jobs[j], status)
    requires ActedOn(s, t, j, status, now)
    ensures Effects(s, t, j, status)
  {
    if Succeeds(s, j, status) {
      var p := s.jobs[j].scope.project;
      CurrentIsNewest(s, p);
      assert IsDeploy(s.jobs, j, p);
    }
  }

  lemma ReportKeeps(w: World, j: JobId, status: Status)
    requires Inv(w) && Enabled(w, Report(j, status))
    ensures Inv(Step(w, Report(j, status)))
  {
    var s, v := w.rows, Step(w, Report(j, status));
    if !DuplicateReport(s.jobs[j], status) {
      if s.jobs[j].kind == Deploy { DeploysAreRooted(s, j); }
      ReportedCases(s, j, status, w.now);
      ActedOnHasEffects(s, v.rows, j, status, w.now);
      if Lands(s, j, status) {
        LandingIsAccounted(w, v, j, status);
      } else if Succeeds(s, j, status) {
        SupersededIsAccounted(w, v, j, status);
      } else {
        GrownKeeps(w, v);
      }
    }
  }

  /** A deploy that reports success as the current one moves the project to its node, and the copy this replaces on
      another node gets its removal. */
  lemma LandingIsAccounted(w: World, v: World, j: JobId, status: Status)
    requires Inv(w) && 0 <= j < |w.rows.jobs| && Lands(w.rows, j, status) && Effects(w.rows, v.rows, j, status)
    requires v.since == w.since[j := |w.rows.jobs|] && v.landed == w.landed[w.rows.jobs[j].scope.project := j]
    ensures Inv(v)
  {
    var s, t, p := w.rows, v.rows, w.rows.jobs[j].scope.project;
    GrownStaysWellFormed(s, t);
    WitnessesStay(s.jobs, t.jobs);
    forall i | i in v.since && i != j ensures Accounted(v, i) {
      assert Accounted(w, i);
      var m := s.jobs[i].node;
      if s.jobs[i].scope.project == p && LandedOn(w, p, m) && m != s.jobs[j].node {
        assert StopSince(t.jobs, p, m, w.since[i]);
      }
    }
  }

  /** The copy a superseded deploy started is removed, or a later deploy goes to the same node. */
  lemma SupersededIsAccounted(w: World, v: World, j: JobId, status: Status)
    requires Inv(w) && 0 <= j < |w.rows.jobs| && Succeeds(w.rows, j, status) && !Lands(w.rows, j, status)
    requires Effects(w.rows, v.rows, j, status) && v.since == w.since[j := |w.rows.jobs|] && v.landed == w.landed
    ensures Inv(v)
  {
    var s, t := w.rows, v.rows;
    GrownStaysWellFormed(s, t);
    WitnessesStay(s.jobs, t.jobs);
    var p, n := s.jobs[j].scope.project, s.jobs[j].node;
    assert IsStop(t.jobs, |s.jobs|, p, n) ==> StopSince(t.jobs, p, n, |s.jobs|);
    forall i | i in v.since && i != j ensures Accounted(v, i) { assert Accounted(w, i); }
  }

  // ---- sweeps ----

  lemma {:induction false} GivingUpGrows(s: State, ids: seq<JobId>, now: int)
    requires WellFormed(s) && forall a :: 0 <= a < |ids| ==> 0 <= ids[a] < |s.jobs|
    ensures GivenUpOn(s, AllGivenUp(s, ids, now))
    decreases |ids|
  {
    if ids != [] {
      GivingUpGrows(s, ids[..|ids| - 1], now);
      GivingUpOneMore(s, AllGivenUp(s, ids[..|ids| - 1], now), ids[|ids| - 1], now);
    }
  }

  ghost predicate GivenUpOn(s: State, t: State) {
    Grown(s, t) && t.projects.Keys == s.projects.Keys && t.migrations == s.migrations &&
    forall p :: p in s.projects ==>
      t.projects[p].node == s.projects[p].node && t.projects[p].image == s.projects[p].image
  }

  lemma GivingUpOneMore(s: State, u: State, j: JobId, now: int)
    requires WellFormed(s) && GivenUpOn(s, u) && 0 <= j < |s.jobs|
    ensures GivenUpOn(s, GivenUp(u, j, now))
  {
    GrownStaysWellFormed(s, u);
    if u.jobs[j].kind == Deploy { DeploysAreRooted(u, j); }
    GivenUpCases(u, j, now);
  }

  lemma {:induction false} AbandoningGrows(s: State, ids: seq<nat>)
    requires forall a :: 0 <= a < |ids| ==> ids[a] < |s.migrations|
    ensures var t := AllAbandoned(s, ids);
      Grown(s, t) && |t.jobs| == |s.jobs| && t.projects == s.projects && t.deployments == s.deployments
    decreases |ids|
  {
    if ids != [] { AbandoningGrows(s, ids[..|ids| - 1]); }
  }

  lemma CreateKeeps(w: World, p: ProjectId, home: Option<NodeId>, image: string)
    requires Inv(w) && Enabled(w, Create(p, home, image))
    ensures Inv(Step(w, Create(p, home, image)))
  {
    var v := Step(w, Create(p, home, image));
    forall i ensures !IsDeploy(w.rows.jobs, i, p) {}
    assert p !in w.landed;
    forall j | j in v.since ensures Accounted(v, j) { assert Accounted(w, j); }
  }

  lemma MigrateKeeps(w: World, p: ProjectId, target: NodeId, image: string)
    requires Inv(w) && p in w.rows.projects && image != ""
    ensures Inv(w.(rows := MigrationStarted(w.rows, p, target, image, w.now)))
  {
    DispatchKeeps(w, p, target, image);
    GrownKeeps(w.(rows := Dispatched(w.rows, p, target, image, w.now)),
      w.(rows := MigrationStarted(w.rows, p, target, image, w.now)));
  }

  /** Every other step leaves projects where they are and adds no deploy. */
  /** What GrownKeeps asks of a step. */
  ghost predicate GrowsOnly(w: World, v: World) {
    Grown(w.rows, v.rows) && v.since == w.since && v.landed == w.landed &&
    forall p :: p in v.rows.projects && w.rows.projects[p].node.Some? && w.rows.projects[p].image != "" ==>
      v.rows.projects[p].node == w.rows.projects[p].node && v.rows.projects[p].image != ""
  }

  lemma ProjectStepsGrow(w: World, e: Event)
    requires Enabled(w, e) && (e.SetNode? || e.SetImage? || e.SetStatus? || e.Delete?)
    ensures GrowsOnly(w, Step(w, e))
  {
  }

  lemma JobStepsGrow(w: World, e: Event)
    requires Enabled(w, e) && (e.Enqueue? || e.Claim? || e.Execute? || e.CancelStale? || e.Register? || e.Wait?)
    ensures GrowsOnly(w, Step(w, e))
  {
  }

  lemma StepKeeps(w: World, e: Event)
    requires Inv(w) && Enabled(w, e)
    ensures Inv(Step(w, e))
  {
    match e
    case Create(p, home, image) => CreateKeeps(w, p, home, image);
    case Dispatch(p, n, image) => DispatchKeeps(w, p, n, image);
    case Migrate(p, target, image) => MigrateKeeps(w, p, target, image);
    case Report(j, status) => ReportKeeps(w, j, status);
    case SweepStuck => {
      GivingUpGrows(w.rows, StuckIds(w.rows.jobs, w.now, |w.rows.jobs|), w.now);
      GrownKeeps(w, Step(w, e));
    }
    case SweepMigrations(live) => {
      AbandoningGrows(w.rows, AbandonedIds(w.rows, live, w.now, |w.rows.migrations|));
      GrownKeeps(w, Step(w, e));
    }
    case _ => {
      if e.SetNode? || e.SetImage? || e.SetStatus? || e.Delete? { ProjectStepsGrow(w, e); } else { JobStepsGrow(w, e); }
      GrownKeeps(w, Step(w, e));
    }
  }

  lemma {:induction false} RunKeeps(w: World, es: seq<Event>)
    requires Inv(w) && CanRun(w, es)
    ensures Inv(Run(w, es))
    decreases |es|
  {
    if es != [] {
      StepKeeps(w, es[0]);
      RunKeeps(Step(w, es[0]), es[1..]);
    }
  }

  /** In every state a Hub can reach: if a deploy j of a project that still exists ever reported success, then its
      node is the project's node, or a removal there was queued at that report or later, or a later deploy of the
      project targets that node. */
  lemma NoForgottenCopy(now: int, es: seq<Event>, j: JobId)
    requires CanRun(Start(now), es) && j in Run(Start(now), es).since
    ensures var w := Run(Start(now), es);
      0 <= j < |w.rows.jobs| && w.rows.jobs[j].kind == Deploy && w.rows.jobs[j].scope.App? &&
      var p, n := w.rows.jobs[j].scope.project, w.rows.jobs[j].node;
      p in w.rows.projects ==>
        w.rows.projects[p].node == Some(n) || StopSince(w.rows.jobs, p, n, w.since[j]) ||
        DeployedLater(w.rows.jobs, p, n, j)
  {
    RunKeeps(Start(now), es);
    var w := Run(Start(now), es);
    assert Accounted(w, j);
  }
}
