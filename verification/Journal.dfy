/** The Hub's rows retold from what happened: a journal that remembers, event by event, what was asked for, how jobs
    ended, and what that makes of projects, deployments and migrations. In every run the rows say what the journal says. */
module Journal {
  import opened Jobs
  import opened Hub
  import opened Protocol
  import CopyHistory
  import JobLife
  import M = MigrationRuns
  import Scheduler

  datatype Request = Request(project: ProjectId, node: NodeId, image: string)

  datatype Entry = Entry(node: Option<NodeId>, image: string, status: ProjectStatus, health: Health, lastDeployed: int)

  /**
   * asked: what each deploy job was asked to do
   * newest: each project's last request
   * told: the last word on each job that ended: its agent's, or the Hub's when it gave up on it
   * entries: the live projects
   * moves: the migrations, in the order they were started
   * byHand: the image set for a project since a deploy of it last landed
   */
  datatype Log = Log(asked: map<JobId, Request>, newest: map<ProjectId, JobId>, told: map<JobId, Status>,
    entries: map<ProjectId, Entry>, moves: seq<Migration>, byHand: map<ProjectId, string>)

  const BLANK := Log(map[], map[], map[], map[], [], map[])

  // ---- how the journal is kept ----

  function Asked(l: Log, j: JobId, p: ProjectId, n: NodeId, image: string): Log {
    l.(asked := l.asked[j := Request(p, n, image)], newest := l.newest[p := j])
  }

  /** The job is a deploy of a project that still exists and has asked for nothing since. */
  predicate Decides(l: Log, j: JobId) {
    j in l.asked && l.asked[j].project in l.entries &&
    l.asked[j].project in l.newest && l.newest[l.asked[j].project] == j
  }

  /** A deploy that decides puts its project in service on its node with its image; if it failed the project is as it
      was, or down if it never ran anywhere. */
  function Ended(l: Log, j: JobId, status: Status, now: int): Log {
    var m := l.(told := l.told[j := status]);
    if !Decides(l, j) then m
    else
      var r := l.asked[j];
      var entry := l.entries[r.project];
      if status == Completed then
        m.(entries := l.entries[r.project := Entry(Some(r.node), r.image, InService, Unknown, now)],
           byHand := l.byHand - {r.project})
      else
        m.(entries := l.entries[r.project := entry.(
          status := if entry.node.Some? then InService else Down,
          health := if entry.node.Some? then Unknown else Unhealthy)])
  }

  function Settled(moves: seq<Migration>, j: JobId, status: Status): seq<Migration> {
    seq(|moves|, m requires 0 <= m < |moves| =>
      if moves[m].job == j then moves[m].(status := if status == Completed then MigrationCompleted else MigrationFailed)
      else moves[m])
  }

  function Told(l: Log, j: JobId, status: Status, now: int): Log {
    if j in l.told && l.told[j] == status then l
    else Ended(l, j, status, now).(moves := Settled(l.moves, j, status))
  }

  /** Running for over an hour, and for as long as it was given. */
  predicate Overdue(job: Job, now: int) {
    job.status == Running && job.startedAt.Some? && now - job.startedAt.value > 60 * 60 &&
    now - job.startedAt.value >= job.timeout
  }

  function Abandoned(l: Log, jobs: seq<Job>, now: int, k: nat): Log
    requires k <= |jobs|
  {
    if k == 0 then l
    else
      var m := Abandoned(l, jobs, now, k - 1);
      if Overdue(jobs[k - 1], now) then Ended(m, k - 1, Failed, now) else m
  }

  /** A migration is given up on a minute after it started if its target has not begun and does not answer, and after
      ten if it answers; five minutes after its target began; or once its job has failed or was called off. One whose
      job ended well is left five minutes. */
  predicate TooLong(move: Migration, job: Job, live: set<NodeId>, now: int) {
    var age := now - move.createdAt;
    move.status == MigrationRunning && age > 60 &&
    match job.status
    case Pending => age > if move.target in live then 10 * 60 else 60
    case Running => now - (if job.startedAt.Some? then job.startedAt.value else job.createdAt) > 5 * 60
    case Completed => age > 5 * 60
    case _ => true
  }

  function GivenUpMoves(moves: seq<Migration>, jobs: seq<Job>, live: set<NodeId>, now: int): seq<Migration>
    requires forall m :: 0 <= m < |moves| ==> 0 <= moves[m].job < |jobs|
  {
    seq(|moves|, m requires 0 <= m < |moves| =>
      if TooLong(moves[m], jobs[moves[m].job], live, now) then moves[m].(status := MigrationFailed) else moves[m])
  }

  predicate HasJobs(l: Log, s: State) {
    forall m :: 0 <= m < |l.moves| ==> 0 <= l.moves[m].job < |s.jobs|
  }

  ghost function Note(w: World, l: Log, e: Event): Log
    requires Enabled(w, e) && HasJobs(l, w.rows) && l.entries.Keys == w.rows.projects.Keys
  {
    var j := |w.rows.jobs|;
    match e
    case Create(p, home, image) =>
      l.(entries := l.entries[p := Entry(home, image, if image == "" then Stopped else Deploying, Unknown, w.now)])
    case Dispatch(p, n, image) => Asked(l, j, p, n, image)
    case SetNode(p, n) => l.(entries := l.entries[p := l.entries[p].(node := Some(n))])
    case SetImage(p, image) =>
      l.(entries := l.entries[p := l.entries[p].(image := image)], byHand := l.byHand[p := image])
    case SetStatus(p, state, health) => l.(entries := l.entries[p := l.entries[p].(status := state, health := health)])
    case Report(i, status) => Told(l, i, status, w.now)
    case SweepStuck => Abandoned(l, w.rows.jobs, w.now, j)
    case CancelStale(i) => l.(told := l.told[i := Cancelled])
    case Migrate(p, target, image) =>
      Asked(l, j, p, target, image).(
        entries := l.entries[p := l.entries[p].(health := Migrating)],
        moves := l.moves + [Migration(p, l.entries[p].node, target, j, MigrationRunning, w.now)])
    case SweepMigrations(live) => l.(moves := GivenUpMoves(l.moves, w.rows.jobs, live, w.now))
    case Delete(p, _) => l.(entries := l.entries - {p})
    case _ => l
  }

  // ---- the rows say what the journal says ----

  ghost predicate ToldAgrees(s: State, l: Log) {
    (forall j :: j in l.told ==> 0 <= j < |s.jobs| && s.jobs[j].status == l.told[j] && !Active(s.jobs[j])) &&
    (forall j :: 0 <= j < |s.jobs| ==> (j in l.told <==> s.jobs[j].completedAt.Some?))
  }

  ghost predicate AskedAgrees(s: State, l: Log) {
    (forall j :: j in l.asked ==> 0 <= j < |s.jobs| && s.jobs[j].kind == Deploy) &&
    (forall j :: 0 <= j < |s.jobs| && s.jobs[j].kind == Deploy ==>
      j in l.asked && s.jobs[j].node == l.asked[j].node && s.jobs[j].scope == App(l.asked[j].project)) &&
    (forall p :: p in l.newest ==> l.newest[p] in l.asked && l.asked[l.newest[p]].project == p)
  }

  function StatusTold(l: Log, j: JobId): DeploymentStatus {
    if j !in l.told then DeployPending else if l.told[j] == Completed then DeployCompleted else DeployFailed
  }

  ghost predicate DeploymentAgrees(dep: Deployment, l: Log) {
    dep.job in l.asked &&
    dep == Deployment(l.asked[dep.job].project, dep.job, l.asked[dep.job].node, l.asked[dep.job].image,
                      StatusTold(l, dep.job))
  }

  ghost predicate DeploymentsAgree(s: State, l: Log) {
    forall d :: 0 <= d < |s.deployments| ==> DeploymentAgrees(s.deployments[d], l)
  }

  predicate Says(project: Project, entry: Entry) {
    project.node == entry.node && project.image == entry.image && project.status == entry.status &&
    project.health == entry.health && project.lastDeployed == entry.lastDeployed
  }

  ghost predicate PointsToNewest(s: State, l: Log, p: ProjectId)
    requires p in s.projects
  {
    match s.projects[p].deployment
    case None => p !in l.newest
    case Some(d) => (d < |s.deployments| && p in l.newest && s.deployments[d].job == l.newest[p])
  }

  ghost predicate ProjectsAgree(s: State, l: Log) {
    l.entries.Keys == s.projects.Keys &&
    forall p :: p in s.projects ==> Says(s.projects[p], l.entries[p]) && PointsToNewest(s, l, p)
  }

  ghost predicate Agrees(s: State, l: Log) {
    ToldAgrees(s, l) && AskedAgrees(s, l) && DeploymentsAgree(s, l) && ProjectsAgree(s, l) && s.migrations == l.moves
  }

  // ---- a job ends ----

  /** What the Hub does when a job ends, whoever says so; migrations aside. */
  ghost function EndedRows(s: State, j: JobId, status: Status, now: int): State
    requires 0 <= j < |s.jobs|
  {
    var t := s.(jobs := s.jobs[j := EndJob(s.jobs[j], status, now)]);
    if s.jobs[j].kind == Deploy then DeployEnded(t, j, now) else t
  }

  lemma EndedJobs(s: State, j: JobId, status: Status, now: int)
    requires WellFormed(s) && 0 <= j < |s.jobs| && (status == Completed || status == Failed)
    ensures var t := EndedRows(s, j, status, now);
      |s.jobs| <= |t.jobs| && t.jobs[..|s.jobs|] == s.jobs[j := EndJob(s.jobs[j], status, now)] &&
      (forall i :: |s.jobs| <= i < |t.jobs| ==>
        t.jobs[i].kind == FailoverStop && t.jobs[i].status == Pending && t.jobs[i].completedAt.None?) &&
      t.migrations == s.migrations
  {
    if s.jobs[j].kind == Deploy {
      DeploysAreRooted(s, j);
      DeployEndedCases(s, j, status, now);
    }
  }

  lemma ToldAfter(s: State, l: Log, j: JobId, status: Status, now: int)
    requires ToldAgrees(s, l) && WellFormed(s) && 0 <= j < |s.jobs| && (status == Completed || status == Failed)
    ensures ToldAgrees(EndedRows(s, j, status, now), Ended(l, j, status, now))
  {
    var t := EndedRows(s, j, status, now);
    EndedJobs(s, j, status, now);
    assert forall i :: 0 <= i < |s.jobs| ==> t.jobs[i] == t.jobs[..|s.jobs|][i];
  }

  lemma AskedAfter(s: State, l: Log, j: JobId, status: Status, now: int)
    requires AskedAgrees(s, l) && WellFormed(s) && 0 <= j < |s.jobs| && (status == Completed || status == Failed)
    ensures AskedAgrees(EndedRows(s, j, status, now), Ended(l, j, status, now))
  {
    var t, m := EndedRows(s, j, status, now), Ended(l, j, status, now);
    EndedJobs(s, j, status, now);
    assert forall i :: 0 <= i < |s.jobs| ==> t.jobs[i] == t.jobs[..|s.jobs|][i];
    assert m.asked == l.asked && m.newest == l.newest;
  }

  /** The deployment and the project that a deploy job's end is about. */
  lemma EndedDeploy(s: State, j: JobId, status: Status, now: int)
    requires Rooted(s, j)
    ensures var t, c, p := EndedRows(s, j, status, now), DeploymentOf(s.deployments, j).value, s.jobs[j].scope.project;
      t.deployments == s.deployments[c := s.deployments[c].(
        status := if status == Completed then DeployCompleted else DeployFailed)] &&
      t.projects ==
        if p !in s.projects || s.projects[p].deployment != Some(c) then s.projects
        else s.projects[p := if status == Completed
          then s.projects[p].(node := Some(s.jobs[j].node), image := s.deployments[c].image, status := InService,
                              health := Unknown, lastDeployed := now)
          else s.projects[p].(status := if s.projects[p].node.Some? then InService else Down,
                              health := if s.projects[p].node.Some? then Unknown else Unhealthy)]
  {
  }

  lemma DeploymentsAfter(s: State, l: Log, j: JobId, status: Status, now: int)
    requires DeploymentsAgree(s, l) && WellFormed(s) && 0 <= j < |s.jobs|
    ensures DeploymentsAgree(EndedRows(s, j, status, now), Ended(l, j, status, now))
  {
    var t, m := EndedRows(s, j, status, now), Ended(l, j, status, now);
    forall d | 0 <= d < |t.deployments| ensures DeploymentAgrees(t.deployments[d], m) {
      EndedDeployments(s, j, status, now, d);
      assert DeploymentAgrees(s.deployments[d], l);
    }
  }

  lemma EndedDeployments(s: State, j: JobId, status: Status, now: int, d: nat)
    requires WellFormed(s) && 0 <= j < |s.jobs|
    ensures var t := EndedRows(s, j, status, now);
      |t.deployments| == |s.deployments| &&
      (d < |s.deployments| ==> t.deployments[d] == s.deployments[d].(status :=
        if s.deployments[d].job != j then s.deployments[d].status
        else if status == Completed then DeployCompleted else DeployFailed))
  {
    if s.jobs[j].kind == Deploy {
      DeploysAreRooted(s, j);
      EndedDeploy(s, j, status, now);
    }
    if d < |s.deployments| { OnlyDeployment(s, j, d); }
  }

  /** A job has one deployment at most, and only a deploy job has any. */
  lemma OnlyDeployment(s: State, j: JobId, d: nat)
    requires DeploymentsMatch(s) && DeploymentsOrdered(s) && 0 <= j < |s.jobs| && d < |s.deployments|
    ensures s.deployments[d].job == j ==> s.jobs[j].kind == Deploy && DeploymentOf(s.deployments, j) == Some(d)
  {
  }

  lemma ProjectsAfter(s: State, l: Log, j: JobId, status: Status, now: int)
    requires ProjectsAgree(s, l) && DeploymentsAgree(s, l) && AskedAgrees(s, l) && WellFormed(s) && 0 <= j < |s.jobs|
    ensures ProjectsAgree(EndedRows(s, j, status, now), Ended(l, j, status, now))
  {
    if s.jobs[j].kind == Deploy {
      DeploysAreRooted(s, j);
      DecidesExactlyWhen(s, l, j);
      EndedDeploy(s, j, status, now);
      DeployProjects(s, l, EndedRows(s, j, status, now), j, status, now);
    }
  }

  lemma DeployProjects(s: State, l: Log, t: State, j: JobId, status: Status, now: int)
    requires ProjectsAgree(s, l) && Rooted(s, j) && |t.deployments| == |s.deployments| && j in l.asked
    requires forall d :: 0 <= d < |s.deployments| ==> t.deployments[d].job == s.deployments[d].job
    requires var p, c := s.jobs[j].scope.project, DeploymentOf(s.deployments, j).value;
      l.asked[j] == Request(p, s.jobs[j].node, s.deployments[c].image) &&
      (Decides(l, j) <==> p in s.projects && s.projects[p].deployment == Some(c)) &&
      t.projects ==
        if p !in s.projects || s.projects[p].deployment != Some(c) then s.projects
        else s.projects[p := if status == Completed
          then s.projects[p].(node := Some(s.jobs[j].node), image := s.deployments[c].image, status := InService,
                              health := Unknown, lastDeployed := now)
          else s.projects[p].(status := if s.projects[p].node.Some? then InService else Down,
                              health := if s.projects[p].node.Some? then Unknown else Unhealthy)]
    ensures ProjectsAgree(t, Ended(l, j, status, now))
  {
    var m := Ended(l, j, status, now);
    forall q | q in t.projects ensures Says(t.projects[q], m.entries[q]) && PointsToNewest(t, m, q) {
      assert Says(s.projects[q], l.entries[q]) && PointsToNewest(s, l, q);
    }
  }

  lemma DecidesExactlyWhen(s: State, l: Log, j: JobId)
    requires ProjectsAgree(s, l) && DeploymentsAgree(s, l) && AskedAgrees(s, l) && Rooted(s, j)
    ensures var p, c := s.jobs[j].scope.project, DeploymentOf(s.deployments, j).value;
      l.asked[j] == Request(p, s.jobs[j].node, s.deployments[c].image) &&
      (Decides(l, j) <==> p in s.projects && s.projects[p].deployment == Some(c))
  {
    var p, c := s.jobs[j].scope.project, DeploymentOf(s.deployments, j).value;
    assert DeploymentAgrees(s.deployments[c], l);
    if p in s.projects { assert PointsToNewest(s, l, p); }
  }

  lemma EndingAgrees(s: State, l: Log, j: JobId, status: Status, now: int)
    requires Agrees(s, l) && WellFormed(s) && 0 <= j < |s.jobs| && (status == Completed || status == Failed)
    ensures Agrees(EndedRows(s, j, status, now), Ended(l, j, status, now))
  {
    EndedJobs(s, j, status, now);
    ToldAfter(s, l, j, status, now);
    AskedAfter(s, l, j, status, now);
    DeploymentsAfter(s, l, j, status, now);
    ProjectsAfter(s, l, j, status, now);
  }

  // ---- one step ----

  lemma ReportIsEnd(s: State, j: JobId, status: Status, now: int)
    requires 0 <= j < |s.jobs| && !DuplicateReport(s.jobs[j], status)
    ensures Reported(s, j, status, now) ==
      EndedRows(s, j, status, now).(migrations := MigrationSettled(s, j, status).migrations)
  {
  }

  lemma SettlesTheOne(s: State, j: JobId, status: Status)
    requires M.MigrationsMatch(s)
    ensures MigrationSettled(s, j, status).migrations == Settled(s.migrations, j, status)
  {
    var m := MigrationOf(s.migrations, j);
    forall k | 0 <= k < |s.migrations| && s.migrations[k].job == j ensures m == Some(k) {}
  }

  lemma ReportAgrees(s: State, l: Log, j: JobId, status: Status, now: int)
    requires Agrees(s, l) && WellFormed(s) && M.MigrationsMatch(s) && 0 <= j < |s.jobs|
    requires status == Completed || status == Failed
    ensures Agrees(Reported(s, j, status, now), Told(l, j, status, now))
  {
    assert DuplicateReport(s.jobs[j], status) <==> j in l.told && l.told[j] == status;
    if !DuplicateReport(s.jobs[j], status) {
      EndingAgrees(s, l, j, status, now);
      ReportIsEnd(s, j, status, now);
      SettlesTheOne(s, j, status);
      MovesAside(EndedRows(s, j, status, now), Ended(l, j, status, now), Settled(s.migrations, j, status));
    }
  }

  lemma MovesAside(s: State, l: Log, moves: seq<Migration>)
    requires Agrees(s, l)
    ensures Agrees(s.(migrations := moves), l.(moves := moves))
  {
    forall d | 0 <= d < |s.deployments| ensures DeploymentAgrees(s.deployments[d], l.(moves := moves)) {
      assert DeploymentAgrees(s.deployments[d], l);
    }
    forall p | p in s.projects ensures PointsToNewest(s.(migrations := moves), l.(moves := moves), p) {
      assert PointsToNewest(s, l, p);
    }
  }

  lemma GivesUpOneMore(s: State, ids: seq<JobId>, j: JobId, now: int)
    requires (forall a :: 0 <= a < |ids| ==> 0 <= ids[a] < |s.jobs|) && 0 <= j < |s.jobs|
    ensures AllGivenUp(s, ids + [j], now) == GivenUp(AllGivenUp(s, ids, now), j, now)
  {
    assert (ids + [j])[..|ids|] == ids;
  }

  function GivenUpTo(s: State, now: int, k: nat): State
    requires k <= |s.jobs|
  {
    AllGivenUp(s, StuckIds(s.jobs, now, k), now)
  }

  lemma NextGivenUp(s: State, now: int, k: nat)
    requires k < |s.jobs|
    ensures |GivenUpTo(s, now, k).jobs| >= |s.jobs|
    ensures GivenUpTo(s, now, k + 1) ==
      if Overdue(s.jobs[k], now) then GivenUp(GivenUpTo(s, now, k), k, now) else GivenUpTo(s, now, k)
  {
    var ids := StuckIds(s.jobs, now, k);
    if Overdue(s.jobs[k], now) { GivesUpOneMore(s, ids, k, now); } else { assert ids + [] == ids; }
  }

  lemma {:induction false} GivingUpAgrees(s: State, l: Log, now: int, k: nat)
    requires Agrees(s, l) && WellFormed(s) && k <= |s.jobs|
    ensures Agrees(GivenUpTo(s, now, k), Abandoned(l, s.jobs, now, k))
    decreases k
  {
    if k > 0 {
      GivingUpAgrees(s, l, now, k - 1);
      GivingUpNextAgrees(s, l, now, k - 1);
    }
  }

  lemma GivingUpNextAgrees(s: State, l: Log, now: int, k: nat)
    requires WellFormed(s) && k < |s.jobs| && Agrees(GivenUpTo(s, now, k), Abandoned(l, s.jobs, now, k))
    ensures Agrees(GivenUpTo(s, now, k + 1), Abandoned(l, s.jobs, now, k + 1))
  {
    NextGivenUp(s, now, k);
    if Overdue(s.jobs[k], now) {
      CopyHistory.GivingUpGrows(s, StuckIds(s.jobs, now, k), now);
      GivingUpOneAgrees(s, GivenUpTo(s, now, k), Abandoned(l, s.jobs, now, k), k, now);
    }
  }

  lemma GivingUpOneAgrees(s: State, u: State, l: Log, j: JobId, now: int)
    requires WellFormed(s) && CopyHistory.GivenUpOn(s, u) && Agrees(u, l) && 0 <= j < |s.jobs|
    ensures Agrees(GivenUp(u, j, now), Ended(l, j, Failed, now))
  {
    CopyHistory.GrownStaysWellFormed(s, u);
    EndingAgrees(u, l, j, Failed, now);
  }

  /** The sweep gives up on exactly the migrations that took too long. */
  lemma SweepIsTooLong(s: State, m: nat, live: set<NodeId>, now: int)
    requires m < |s.migrations| && 0 <= s.migrations[m].job < |s.jobs|
    ensures Abandons(s, m, live, now) <==> TooLong(s.migrations[m], s.jobs[s.migrations[m].job], live, now)
  {
  }

  lemma SweptMoves(s: State, live: set<NodeId>, now: int)
    requires M.MigrationsMatch(s)
    ensures forall m :: 0 <= m < |s.migrations| ==> 0 <= s.migrations[m].job < |s.jobs|
    ensures AllAbandoned(s, AbandonedIds(s, live, now, |s.migrations|)).migrations ==
      GivenUpMoves(s.migrations, s.jobs, live, now)
  {
    var ids := AbandonedIds(s, live, now, |s.migrations|);
    JobLife.AbandonedRows(s, ids);
    forall m | 0 <= m < |s.migrations|
      ensures 0 <= s.migrations[m].job < |s.jobs|
      ensures m in ids <==> TooLong(s.migrations[m], s.jobs[s.migrations[m].job], live, now)
    {
      assert IsDeploy(s.jobs, s.migrations[m].job, s.migrations[m].project);
      SweepIsTooLong(s, m, live, now);
    }
  }

  /** The journal outlives changes to rows it does not speak of. */
  lemma OtherRowsAgree(s: State, t: State, l: Log)
    requires Agrees(s, l) && |s.jobs| <= |t.jobs| && t.deployments == s.deployments && t.projects == s.projects
    requires t.migrations == s.migrations
    requires forall i :: 0 <= i < |s.jobs| ==>
      t.jobs[i].kind == s.jobs[i].kind && t.jobs[i].node == s.jobs[i].node && t.jobs[i].scope == s.jobs[i].scope &&
      t.jobs[i].completedAt == s.jobs[i].completedAt && (t.jobs[i].status == s.jobs[i].status || s.jobs[i].status == Pending)
    requires forall i :: |s.jobs| <= i < |t.jobs| ==> t.jobs[i].kind != Deploy && t.jobs[i].completedAt.None?
    ensures Agrees(t, l)
  {
    forall p | p in t.projects ensures PointsToNewest(t, l, p) { assert PointsToNewest(s, l, p); }
  }

  lemma SweepAgrees(s: State, l: Log, live: set<NodeId>, now: int)
    requires Agrees(s, l) && M.MigrationsMatch(s)
    ensures HasJobs(l, s)
    ensures Agrees(AllAbandoned(s, AbandonedIds(s, live, now, |s.migrations|)),
                   l.(moves := GivenUpMoves(l.moves, s.jobs, live, now)))
  {
    var ids := AbandonedIds(s, live, now, |s.migrations|);
    var t := AllAbandoned(s, ids);
    JobLife.AbandonedRows(s, ids);
    CopyHistory.AbandoningGrows(s, ids);
    SweptMoves(s, live, now);
    OtherRowsAgree(s, t.(migrations := s.migrations), l);
    MovesAside(t.(migrations := s.migrations), l, t.migrations);
    assert t.(migrations := s.migrations).(migrations := t.migrations) == t;
  }

  lemma AskingAgrees(s: State, l: Log, p: ProjectId, n: NodeId, image: string, now: int)
    requires Agrees(s, l) && p in s.projects
    ensures Agrees(Dispatched(s, p, n, image, now), Asked(l, |s.jobs|, p, n, image))
  {
    var t, m := Dispatched(s, p, n, image, now), Asked(l, |s.jobs|, p, n, image);
    forall d | 0 <= d < |t.deployments| ensures DeploymentAgrees(t.deployments[d], m) {
      if d < |s.deployments| { assert DeploymentAgrees(s.deployments[d], l); }
    }
    forall q | q in t.projects ensures Says(t.projects[q], m.entries[q]) && PointsToNewest(t, m, q) {
      assert Says(s.projects[q], l.entries[q]) && PointsToNewest(s, l, q);
    }
  }

  /** The row and the entry of one project change alike. */
  lemma EntryAgrees(s: State, l: Log, p: ProjectId, project: Project, entry: Entry)
    requires Agrees(s, l) && p in s.projects && Says(project, entry) && project.deployment == s.projects[p].deployment
    ensures Agrees(s.(projects := s.projects[p := project]), l.(entries := l.entries[p := entry]))
  {
    var t, m := s.(projects := s.projects[p := project]), l.(entries := l.entries[p := entry]);
    forall d | 0 <= d < |t.deployments| ensures DeploymentAgrees(t.deployments[d], m) {
      assert DeploymentAgrees(s.deployments[d], l);
    }
    forall q | q in t.projects ensures Says(t.projects[q], m.entries[q]) && PointsToNewest(t, m, q) {
      assert PointsToNewest(s, l, q);
    }
  }

  lemma MovingAgrees(s: State, l: Log, p: ProjectId, target: NodeId, image: string, now: int)
    requires Agrees(s, l) && p in s.projects
    ensures Agrees(MigrationStarted(s, p, target, image, now), Asked(l, |s.jobs|, p, target, image).(
      entries := l.entries[p := l.entries[p].(health := Migrating)],
      moves := l.moves + [Migration(p, l.entries[p].node, target, |s.jobs|, MigrationRunning, now)]))
  {
    var t, m := Dispatched(s, p, target, image, now), Asked(l, |s.jobs|, p, target, image);
    AskingAgrees(s, l, p, target, image, now);
    EntryAgrees(t, m, p, t.projects[p].(health := Migrating), m.entries[p].(health := Migrating));
    MovesAside(t.(projects := t.projects[p := t.projects[p].(health := Migrating)]),
      m.(entries := m.entries[p := m.entries[p].(health := Migrating)]),
      s.migrations + [Migration(p, s.projects[p].node, target, |s.jobs|, MigrationRunning, now)]);
  }

  // ---- over whole runs ----

  /** A landed project's image is that of the deploy that landed last, or the one set by hand since. */
  ghost predicate ImageLanded(w: World, l: Log, p: ProjectId)
    requires p in l.entries && p in w.landed
  {
    w.landed[p] in l.asked &&
    l.entries[p].image == if p in l.byHand then l.byHand[p] else l.asked[w.landed[p]].image
  }

  ghost predicate ImagesLanded(w: World, l: Log) {
    forall p :: p in w.landed && p in l.entries ==> ImageLanded(w, l, p)
  }

  ghost predicate Known(w: World, l: Log) {
    CopyHistory.Inv(w) && M.MigrationsMatch(w.rows) && Agrees(w.rows, l) && ImagesLanded(w, l)
  }

  lemma KnownNotes(w: World, l: Log)
    requires Known(w, l)
    ensures HasJobs(l, w.rows) && l.entries.Keys == w.rows.projects.Keys
  {
    forall m | 0 <= m < |l.moves| ensures 0 <= l.moves[m].job < |w.rows.jobs| {
      assert IsDeploy(w.rows.jobs, w.rows.migrations[m].job, w.rows.migrations[m].project);
    }
  }

  lemma CreatingAgrees(w: World, l: Log, p: ProjectId, home: Option<NodeId>, image: string)
    requires Known(w, l) && Enabled(w, Create(p, home, image)) && HasJobs(l, w.rows) && l.entries.Keys == w.rows.projects.Keys
    ensures Agrees(Step(w, Create(p, home, image)).rows, Note(w, l, Create(p, home, image)))
  {
    var s, t, m := w.rows, Step(w, Create(p, home, image)).rows, Note(w, l, Create(p, home, image));
    forall q | q in l.newest ensures q != p { assert s.jobs[l.newest[q]].scope == App(q); }
    forall d | 0 <= d < |t.deployments| ensures DeploymentAgrees(t.deployments[d], m) {
      assert DeploymentAgrees(s.deployments[d], l);
    }
    forall q | q in t.projects ensures PointsToNewest(t, m, q) {
      assert q != p ==> PointsToNewest(s, l, q);
    }
  }

  lemma DeletingAgrees(w: World, l: Log, p: ProjectId, order: seq<NodeId>)
    requires Agrees(w.rows, l) && Enabled(w, Delete(p, order))
    ensures Agrees(Step(w, Delete(p, order)).rows, l.(entries := l.entries - {p}))
  {
    var s, t := w.rows, Step(w, Delete(p, order)).rows;
    OtherRowsAgree(s, t.(projects := s.projects), l);
    FewerAgree(t.(projects := s.projects), l, p);
    assert t.(projects := s.projects).(projects := s.projects - {p}) == t;
  }

  lemma FewerAgree(s: State, l: Log, p: ProjectId)
    requires Agrees(s, l)
    ensures Agrees(s.(projects := s.projects - {p}), l.(entries := l.entries - {p}))
  {
    var t, m := s.(projects := s.projects - {p}), l.(entries := l.entries - {p});
    forall d | 0 <= d < |t.deployments| ensures DeploymentAgrees(t.deployments[d], m) {
      assert DeploymentAgrees(s.deployments[d], l);
    }
    forall q | q in t.projects ensures PointsToNewest(t, m, q) { assert PointsToNewest(s, l, q); }
  }

  lemma CallingOffAgrees(w: World, l: Log, i: JobId)
    requires Agrees(w.rows, l) && Enabled(w, CancelStale(i))
    ensures Agrees(Step(w, CancelStale(i)).rows, l.(told := l.told[i := Cancelled]))
  {
    var s, t, m := w.rows, Step(w, CancelStale(i)).rows, l.(told := l.told[i := Cancelled]);
    forall d | 0 <= d < |t.deployments| ensures DeploymentAgrees(t.deployments[d], m) {
      assert DeploymentAgrees(s.deployments[d], l);
    }
    forall q | q in t.projects ensures PointsToNewest(t, m, q) { assert PointsToNewest(s, l, q); }
  }

  lemma SettingAgrees(w: World, l: Log, e: Event)
    requires Agrees(w.rows, l) && Enabled(w, e) && (e.SetNode? || e.SetImage? || e.SetStatus?) && HasJobs(l, w.rows)
    ensures Agrees(Step(w, e).rows, Note(w, l, e))
  {
    var s := w.rows;
    match e
    case SetNode(p, n) => EntryAgrees(s, l, p, s.projects[p].(node := Some(n)), l.entries[p].(node := Some(n)));
    case SetImage(p, image) => {
      EntryAgrees(s, l, p, s.projects[p].(image := image), l.entries[p].(image := image));
      HandAside(Step(w, e).rows, l.(entries := l.entries[p := l.entries[p].(image := image)]), l.byHand[p := image]);
    }
    case SetStatus(p, state, health) =>
      EntryAgrees(s, l, p, s.projects[p].(status := state, health := health),
        l.entries[p].(status := state, health := health));
  }

  lemma HandAside(s: State, l: Log, byHand: map<ProjectId, string>)
    requires Agrees(s, l)
    ensures Agrees(s, l.(byHand := byHand))
  {
    forall d | 0 <= d < |s.deployments| ensures DeploymentAgrees(s.deployments[d], l.(byHand := byHand)) {
      assert DeploymentAgrees(s.deployments[d], l);
    }
    forall p | p in s.projects ensures PointsToNewest(s, l.(byHand := byHand), p) { assert PointsToNewest(s, l, p); }
  }

  lemma QuietAgrees(w: World, l: Log, e: Event)
    requires Agrees(w.rows, l) && Enabled(w, e)
    requires e.Enqueue? || e.Claim? || e.Execute? || e.Register? || e.Wait?
    ensures Agrees(Step(w, e).rows, l)
  {
    if e.Claim? {
      var next := Scheduler.NextJob(w.rows.jobs, e.agent);
      assert next.Some? ==> PendingOn(w.rows.jobs, e.agent.id, next.value);
    }
    OtherRowsAgree(w.rows, Step(w, e).rows, l);
  }

  lemma StepAgrees(w: World, l: Log, e: Event)
    requires Known(w, l) && Enabled(w, e) && HasJobs(l, w.rows) && l.entries.Keys == w.rows.projects.Keys
    ensures Agrees(Step(w, e).rows, Note(w, l, e))
  {
    match e
    case Create(p, home, image) => CreatingAgrees(w, l, p, home, image);
    case Dispatch(p, n, image) => AskingAgrees(w.rows, l, p, n, image, w.now);
    case Migrate(p, target, image) => MovingAgrees(w.rows, l, p, target, image, w.now);
    case Report(j, status) => ReportAgrees(w.rows, l, j, status, w.now);
    case SweepStuck => GivingUpAgrees(w.rows, l, w.now, |w.rows.jobs|);
    case SweepMigrations(live) => SweepAgrees(w.rows, l, live, w.now);
    case CancelStale(i) => CallingOffAgrees(w, l, i);
    case Delete(p, order) => DeletingAgrees(w, l, p, order);
    case _ => {
      if e.SetNode? || e.SetImage? || e.SetStatus? { SettingAgrees(w, l, e); } else { QuietAgrees(w, l, e); }
    }
  }

  lemma LandsExactlyWhen(w: World, l: Log, j: JobId, status: Status)
    requires Known(w, l) && 0 <= j < |w.rows.jobs|
    ensures Lands(w.rows, j, status) <==>
      (Decides(l, j) && status == Completed && !(j in l.told && l.told[j] == status))
  {
    var s := w.rows;
    assert DuplicateReport(s.jobs[j], status) <==> j in l.told && l.told[j] == status;
    if s.jobs[j].kind == Deploy {
      DeploysAreRooted(s, j);
      DecidesExactlyWhen(s, l, j);
      var p := s.jobs[j].scope.project;
      if p in s.projects { assert PointsToNewest(s, l, p); }
    }
  }

  lemma {:induction false} AbandonedKeepsImages(l: Log, jobs: seq<Job>, now: int, k: nat)
    requires k <= |jobs|
    ensures var m := Abandoned(l, jobs, now, k);
      m.asked == l.asked && m.byHand == l.byHand && m.entries.Keys == l.entries.Keys &&
      forall p :: p in l.entries ==> m.entries[p].image == l.entries[p].image
  {
    if k > 0 { AbandonedKeepsImages(l, jobs, now, k - 1); }
  }

  lemma ReportKeepsImages(w: World, l: Log, j: JobId, status: Status)
    requires Known(w, l) && Enabled(w, Report(j, status))
    ensures ImagesLanded(Step(w, Report(j, status)), Told(l, j, status, w.now))
  {
    var v, m := Step(w, Report(j, status)), Told(l, j, status, w.now);
    LandsExactlyWhen(w, l, j, status);
    forall p | p in v.landed && p in m.entries ensures ImageLanded(v, m, p) {
      assert p in w.landed ==> ImageLanded(w, l, p);
    }
  }

  lemma StepKeepsImages(w: World, l: Log, e: Event)
    requires Known(w, l) && Enabled(w, e) && HasJobs(l, w.rows) && l.entries.Keys == w.rows.projects.Keys
    ensures ImagesLanded(Step(w, e), Note(w, l, e))
  {
    if e.Report? {
      ReportKeepsImages(w, l, e.j, e.status);
    } else {
      if e.SweepStuck? { AbandonedKeepsImages(l, w.rows.jobs, w.now, |w.rows.jobs|); }
      OthersKeepImages(w, l, e);
    }
  }

  /** A step after which every deploy and every image is as before, and only projects may have gone. */
  lemma SameImages(w: World, l: Log, v: World, m: Log)
    requires Known(w, l) && ImagesAside(w, l, v, m)
    ensures ImagesLanded(v, m)
  {
    forall p | p in v.landed && p in m.entries ensures ImageLanded(v, m, p) {
      assert ImageLanded(w, l, p);
    }
  }

  lemma HandKeepsImages(w: World, l: Log, e: Event)
    requires Known(w, l) && Enabled(w, e) && HasJobs(l, w.rows) && l.entries.Keys == w.rows.projects.Keys
    requires e.Create? || e.SetImage?
    ensures ImagesLanded(Step(w, e), Note(w, l, e))
  {
    var v, m := Step(w, e), Note(w, l, e);
    forall p | p in v.landed && p in m.entries ensures ImageLanded(v, m, p) {
      assert IsDeploy(w.rows.jobs, w.landed[p], p);
      assert p in l.entries ==> ImageLanded(w, l, p);
    }
  }

  lemma OthersKeepImages(w: World, l: Log, e: Event)
    requires Known(w, l) && Enabled(w, e) && HasJobs(l, w.rows) && l.entries.Keys == w.rows.projects.Keys && !e.Report?
    requires e.SweepStuck? ==>
      (var m := Note(w, l, e);
       m.asked == l.asked && m.byHand == l.byHand && m.entries.Keys == l.entries.Keys &&
       forall p :: p in l.entries ==> m.entries[p].image == l.entries[p].image)
    ensures ImagesLanded(Step(w, e), Note(w, l, e))
  {
    if e.Create? || e.SetImage? {
      HandKeepsImages(w, l, e);
    } else {
      if e.Dispatch? || e.Migrate? || e.Delete? { AskingIsAside(w, l, e); } else { RestIsAside(w, l, e); }
      SameImages(w, l, Step(w, e), Note(w, l, e));
    }
  }

  ghost predicate ImagesAside(w: World, l: Log, v: World, m: Log) {
    v.landed == w.landed && m.byHand == l.byHand && m.entries.Keys <= l.entries.Keys &&
    (forall j :: j in l.asked ==> j in m.asked && m.asked[j] == l.asked[j]) &&
    forall p :: p in m.entries ==> m.entries[p].image == l.entries[p].image
  }

  lemma AskingIsAside(w: World, l: Log, e: Event)
    requires Known(w, l) && Enabled(w, e) && HasJobs(l, w.rows) && l.entries.Keys == w.rows.projects.Keys
    requires e.Dispatch? || e.Migrate? || e.Delete?
    ensures ImagesAside(w, l, Step(w, e), Note(w, l, e))
  {
    KnownJobs(w, l);
  }

  lemma RestIsAside(w: World, l: Log, e: Event)
    requires Enabled(w, e) && HasJobs(l, w.rows) && l.entries.Keys == w.rows.projects.Keys
    requires !e.Create? && !e.SetImage? && !e.Dispatch? && !e.Migrate? && !e.Delete? && !e.Report?
    requires e.SweepStuck? ==>
      (var m := Note(w, l, e);
       m.asked == l.asked && m.byHand == l.byHand && m.entries.Keys == l.entries.Keys &&
       forall p :: p in l.entries ==> m.entries[p].image == l.entries[p].image)
    ensures ImagesAside(w, l, Step(w, e), Note(w, l, e))
  {
  }

  lemma KnownJobs(w: World, l: Log)
    requires Known(w, l)
    ensures |w.rows.jobs| !in l.asked
  {
  }

  lemma StepIsKnown(w: World, l: Log, e: Event)
    requires Known(w, l) && Enabled(w, e)
    ensures HasJobs(l, w.rows) && l.entries.Keys == w.rows.projects.Keys
    ensures Known(Step(w, e), Note(w, l, e))
  {
    KnownNotes(w, l);
    CopyHistory.StepKeeps(w, e);
    M.StepMatches(w, e);
    StepAgrees(w, l, e);
    StepKeepsImages(w, l, e);
  }

  /** The journal of a run. */
  ghost function Journaled(w: World, l: Log, es: seq<Event>): (m: Log)
    requires Known(w, l) && CanRun(w, es)
    ensures Known(Run(w, es), m)
    decreases |es|
  {
    if es == [] then l
    else
      StepIsKnown(w, l, es[0]);
      Journaled(Step(w, es[0]), Note(w, l, es[0]), es[1..])
  }

  lemma StartIsKnown(now: int)
    ensures Known(Start(now), BLANK)
  {
  }

  ghost function JournalOf(now: int, es: seq<Event>): (l: Log)
    requires CanRun(Start(now), es)
    ensures Known(Run(Start(now), es), l)
  {
    StartIsKnown(now);
    Journaled(Start(now), BLANK, es)
  }

  /** In every state the Hub can reach, its deployments, projects and migrations are what the journal of the run says:
      each deployment as it was asked for and as its job ended, each project as its newest request left it, and each
      migration as its job or the sweeps settled it. */
  lemma RowsAreAsJournaled(now: int, es: seq<Event>)
    requires CanRun(Start(now), es)
    ensures var s, l := Run(Start(now), es).rows, JournalOf(now, es);
      l.entries.Keys == s.projects.Keys && s.migrations == l.moves &&
      (forall p :: p in s.projects ==> Says(s.projects[p], l.entries[p])) &&
      forall d :: 0 <= d < |s.deployments| ==> DeploymentAgrees(s.deployments[d], l)
  {
    var l := JournalOf(now, es);
  }

  /** A landed project's image is the one its last landed deploy was asked for, or the one set by hand since. */
  lemma LandedImage(now: int, es: seq<Event>, p: ProjectId)
    requires CanRun(Start(now), es) && p in Run(Start(now), es).rows.projects && p in Run(Start(now), es).landed
    ensures var w, l := Run(Start(now), es), JournalOf(now, es);
      w.landed[p] in l.asked && l.asked[w.landed[p]].project == p &&
      w.rows.projects[p].image == if p in l.byHand then l.byHand[p] else l.asked[w.landed[p]].image
  {
    var w, l := Run(Start(now), es), JournalOf(now, es);
    assert ImageLanded(w, l, p);
    assert IsDeploy(w.rows.jobs, w.landed[p], p);
  }

  /** So a move starts that image on its target. */
  lemma MoveKeepsImage(now: int, es: seq<Event>, p: ProjectId, target: NodeId)
    requires CanRun(Start(now), es) && p in Run(Start(now), es).rows.projects && p in Run(Start(now), es).landed
    requires Enabled(Run(Start(now), es), Migrate(p, target, Run(Start(now), es).rows.projects[p].image))
    ensures var w, l := Run(Start(now), es), JournalOf(now, es);
      w.landed[p] in l.asked &&
      Step(w, Migrate(p, target, w.rows.projects[p].image)).rows.deployments ==
        w.rows.deployments + [Deployment(p, |w.rows.jobs|, target,
          if p in l.byHand then l.byHand[p] else l.asked[w.landed[p]].image, DeployPending)]
  {
    LandedImage(now, es, p);
  }

  /** A failover starts the image of a deploy whose end is not known yet, if that is the newest; else the image that
      landed last or was set by hand since. */
  lemma FailoverStarts(now: int, es: seq<Event>, p: ProjectId)
    requires CanRun(Start(now), es) && p in Run(Start(now), es).rows.projects
    ensures var s, l := Run(Start(now), es).rows, JournalOf(now, es);
      p in l.entries && (p in l.newest ==> l.newest[p] in l.asked) &&
      FailoverImage(s.deployments, s.projects[p]) ==
        if p in l.newest && l.newest[p] !in l.told then l.asked[l.newest[p]].image else l.entries[p].image
  {
    var s, l := Run(Start(now), es).rows, JournalOf(now, es);
    assert PointsToNewest(s, l, p);
    if s.projects[p].deployment.Some? {
      var d := s.projects[p].deployment.value;
      assert DeploymentAgrees(s.deployments[d], l);
    }
  }

  /** The last word on a job is what its row says, and hearing it again changes nothing. */
  lemma LastWordCounts(s: State, j: JobId, status: Status, now: int, later: int)
    requires WellFormed(s) && 0 <= j < |s.jobs| && (status == Completed || status == Failed)
    ensures var t := Reported(s, j, status, now);
      j < |t.jobs| && t.jobs[j].status == status && t.jobs[j].completedAt.Some? && Reported(t, j, status, later) == t
  {
    if !DuplicateReport(s.jobs[j], status) {
      EndedJobs(s, j, status, now);
      ReportIsEnd(s, j, status, now);
      assert Reported(s, j, status, now).jobs[j] == Reported(s, j, status, now).jobs[..|s.jobs|][j];
    }
  }
}
